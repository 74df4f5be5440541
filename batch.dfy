/** web-interface/js/batch.js: the `BatchProcessor` that sends every URL of a
    list to the API in turn, records one result per reply, shows the status of
    each item and a final success/error count. The reply the API gives for
    each URL (a parsed body or a thrown message) is an input; the page it
    renders is a log of UI events. */
module Batch {
  import opened Wrappers
  import opened Strings
  import opened Config
  import opened Responses

  // ---------------------------------------------------------------------
  // getErrorMessage (also the body of `getErrorMessage` in single.js)

  /** The prefix of a message built from an unknown code or a thrown error. */
  const ErrorPrefix: string := "Lỗi: "

  /** `getErrorMessage(error)`: the default text when there is no error or
      no (truthy) code, the table entry for a known code, and
      `Lỗi: <code>` for any other code. */
  function GetErrorMessage(error: Option<ApiError>): (r: string)
    ensures error.None? || !Truthy(error.value.code) ==> r == DefaultErrorMessage
    ensures error.Some? && Truthy(error.value.code) && error.value.code.value in ErrorMessages ==>
              r == ErrorMessages[error.value.code.value]
    ensures error.Some? && Truthy(error.value.code) && error.value.code.value !in ErrorMessages ==>
              r == ErrorPrefix + error.value.code.value
  {
    if error.None? || !Truthy(error.value.code) then DefaultErrorMessage
    else
      var code := error.value.code.value;
      if code in ErrorMessages then ErrorMessages[code] else ErrorPrefix + code
  }

  /** The message tells the codes apart: an unknown code is never mistaken
      for a table entry, and two different unknown codes never share a
      message. */
  lemma UnknownCodesDistinguished(e1: ApiError, e2: ApiError)
    requires Truthy(e1.code) && e1.code.value !in ErrorMessages
    ensures forall c :: c in ErrorMessages ==> GetErrorMessage(Some(e1)) != ErrorMessages[c]
    ensures Truthy(e2.code) && e2.code.value !in ErrorMessages && e1.code != e2.code ==>
              GetErrorMessage(Some(e1)) != GetErrorMessage(Some(e2))
  {
    var m := GetErrorMessage(Some(e1));
    assert m[..|ErrorPrefix|] == ErrorPrefix;
    forall c | c in ErrorMessages ensures m != ErrorMessages[c] {
      var t := ErrorMessages[c];
      if c == "default" {
        assert t[3] != m[3];
      } else {
        assert c in {"error.api.youtube.login", "error.api.invalid_body", "error.api.fetch.empty_response", "error.api.content.too_long"};
        assert t[0] != m[0];
      }
    }
    if Truthy(e2.code) && e2.code.value !in ErrorMessages && e1.code != e2.code {
      var m2 := GetErrorMessage(Some(e2));
      assert m[|ErrorPrefix|..] == e1.code.value;
      assert m2[|ErrorPrefix|..] == e2.code.value;
    }
  }

  // ---------------------------------------------------------------------
  // addDownloadButtons

  /** The buttons `addDownloadButtons` adds to a finished item: the caption
      shown above them and the link and name the download button passes to
      the download manager. */
  datatype Buttons = Buttons(url: string, filename: Option<string>, caption: string)

  /** The link a reply offers: the first picker entry of a picker reply with a
      non-empty list, otherwise the reply itself; no buttons without a
      (truthy) url. */
  function DownloadButtons(data: Reply): (r: Option<Buttons>)
    ensures data.status == Some("picker") && data.picker.Some? && |data.picker.value| > 0 ==>
              var item := data.picker.value[0];
              && (r.Some? <==> Truthy(item.url))
              && (r.Some? ==> r.value == Buttons(item.url.value, item.filename, OrElse(item.filename, "video")))
    ensures !(data.status == Some("picker") && data.picker.Some? && |data.picker.value| > 0) ==>
              && (r.Some? <==> Truthy(data.url))
              && (r.Some? ==> r.value == Buttons(data.url.value, data.filename, OrElse(data.filename, "video")))
  {
    var (url, filename) :=
      if data.status == Some("picker") && data.picker.Some? && |data.picker.value| > 0
      then (data.picker.value[0].url, data.picker.value[0].filename)
      else (data.url, data.filename);
    if !Truthy(url) then None else Some(Buttons(url.value, filename, OrElse(filename, "video")))
  }

  // ---------------------------------------------------------------------
  // processBatch

  /** An entry of `results`: `{url, result, status: 'success'}` or
      `{url, error, status: 'error'}`. */
  datatype BatchEntry = Succeeded(url: string, result: Json) | Failed(url: string, message: string)

  /** The three looks `updateItemStatus` gives an item. */
  datatype ItemStatus = Loading | ItemSuccess | ItemError

  /** What the page shows, in order. */
  datatype BatchEvent =
    | InitUi(count: nat)                                  // initBatchUI
    | Status(index: nat, status: ItemStatus, message: string)
    | AddButtons(index: nat, buttons: Buttons)
    | Sleep(ms: nat)
    | Summary(success: nat, errors: nat)                  // updateSummary

  const LoadingText: string := "Đang xử lý..."
  const SuccessText: string := "Thành công"

  /** The message of the `TypeError` thrown by `result.status` when the reply
      body is JSON `null`. */
  const NullStatusMessage: string := "Cannot read properties of null (reading 'status')"

  /** The entries one item adds to `results`. A `null` reply is pushed as a
      success before reading its `status` throws, so it adds two. */
  function ItemEntries(url: string, reply: Result<Json, string>): (r: seq<BatchEntry>)
    ensures |r| == (if reply == Ok(Null) then 2 else 1)
    ensures forall k :: 0 <= k < |r| ==> r[k].url == url
  {
    match reply
    case Err(m) => [Failed(url, m)]
    case Ok(Null) => [Succeeded(url, Null), Failed(url, NullStatusMessage)]
    case Ok(data) => [Succeeded(url, data)]
  }

  /** The page events of item `i` (loading, then its final status and
      buttons), without the sleep that follows it. */
  function ItemEvents(i: nat, reply: Result<Json, string>): seq<BatchEvent> {
    [Status(i, Loading, LoadingText)] +
    match reply
    case Err(m) => [Status(i, ItemError, ErrorPrefix + m)]
    case Ok(Null) => [Status(i, ItemError, ErrorPrefix + NullStatusMessage)]
    case Ok(Object(data)) =>
      if data.status == Some("error") then [Status(i, ItemError, GetErrorMessage(data.error))]
      else
        [Status(i, ItemSuccess, SuccessText)] +
        (match DownloadButtons(data) case None => [] case Some(b) => [AddButtons(i, b)])
  }

  /** `results` after the first `n` items. */
  function BatchEntries(urls: seq<string>, replies: seq<Result<Json, string>>, n: nat): seq<BatchEntry>
    requires n <= |urls| == |replies|
  {
    if n == 0 then [] else BatchEntries(urls, replies, n - 1) + ItemEntries(urls[n - 1], replies[n - 1])
  }

  /** The page events of the first `n` items, with a sleep after every item
      but the last of the list. */
  function BatchEvents(urls: seq<string>, replies: seq<Result<Json, string>>, n: nat): seq<BatchEvent>
    requires n <= |urls| == |replies|
  {
    if n == 0 then []
    else
      BatchEvents(urls, replies, n - 1) + ItemEvents(n - 1, replies[n - 1])
      + (if n - 1 < |urls| - 1 then [Sleep(BatchDelay)] else [])
  }

  /** The filter of `updateSummary`: a success entry whose result is not an
      error reply (a `null` result passes `!r.result`). */
  predicate CountsAsSuccess(e: BatchEntry) {
    e.Succeeded? && !(e.result.Object? && e.result.reply.status == Some("error"))
  }

  function SuccessCount(entries: seq<BatchEntry>): (r: nat)
    ensures r <= |entries|
  {
    if entries == [] then 0
    else SuccessCount(entries[..|entries| - 1]) + (if CountsAsSuccess(entries[|entries| - 1]) then 1 else 0)
  }

  /** The summary `updateSummary` shows for `results`. */
  function SummaryOf(entries: seq<BatchEntry>): (r: BatchEvent)
    ensures r.Summary? && r.success + r.errors == |entries|
  {
    Summary(SuccessCount(entries), |entries| - SuccessCount(entries))
  }

  lemma SuccessCountAppend(a: seq<BatchEntry>, b: seq<BatchEntry>)
    ensures SuccessCount(a + b) == SuccessCount(a) + SuccessCount(b)
    decreases |b|
  {
    if b != [] {
      assert (a + b)[..|a + b| - 1] == a + b[..|b| - 1];
      SuccessCountAppend(a, b[..|b| - 1]);
    } else {
      assert a + b == a;
    }
  }

  // ---------------------------------------------------------------------
  // Properties of a run

  /** A reply that counts as a success: any body but an error reply. */
  predicate SuccessfulReply(reply: Result<Json, string>) {
    reply.Ok? && !(reply.value.Object? && reply.value.reply.status == Some("error"))
  }

  function CountSuccessfulReplies(replies: seq<Result<Json, string>>, n: nat): nat
    requires n <= |replies|
  {
    if n == 0 then 0 else CountSuccessfulReplies(replies, n - 1) + (if SuccessfulReply(replies[n - 1]) then 1 else 0)
  }

  /** The success count of the summary is the number of replies that were
      not thrown and not an error reply; a `null` reply counts once as a
      success (and once more as an error). */
  lemma {:induction false} SummaryCountsReplies(urls: seq<string>, replies: seq<Result<Json, string>>, n: nat)
    requires n <= |urls| == |replies|
    ensures SuccessCount(BatchEntries(urls, replies, n)) == CountSuccessfulReplies(replies, n)
  {
    if n > 0 {
      SummaryCountsReplies(urls, replies, n - 1);
      var before := BatchEntries(urls, replies, n - 1);
      var item := ItemEntries(urls[n - 1], replies[n - 1]);
      calc {
        SuccessCount(BatchEntries(urls, replies, n));
        SuccessCount(before + item);
        { SuccessCountAppend(before, item); }
        SuccessCount(before) + SuccessCount(item);
        { ItemSuccessCount(urls[n - 1], replies[n - 1]); }
        CountSuccessfulReplies(replies, n - 1) + (if SuccessfulReply(replies[n - 1]) then 1 else 0);
      }
    }
  }

  /** The entries of one item count one success exactly for a successful
      reply. */
  lemma ItemSuccessCount(url: string, reply: Result<Json, string>)
    ensures SuccessCount(ItemEntries(url, reply)) == if SuccessfulReply(reply) then 1 else 0
  {
    var item := ItemEntries(url, reply);
    if reply == Ok(Null) {
      assert item[..1] == [item[0]] && item[..0] == [];
    } else {
      assert item[..0] == [];
    }
  }

  /** One entry per URL, in input order, exactly when no reply is `null`. */
  lemma {:induction false} OneEntryPerUrl(urls: seq<string>, replies: seq<Result<Json, string>>, n: nat)
    requires n <= |urls| == |replies|
    ensures |BatchEntries(urls, replies, n)| >= n
    ensures |BatchEntries(urls, replies, n)| == n <==> forall i :: 0 <= i < n ==> replies[i] != Ok(Null)
    ensures (forall i :: 0 <= i < n ==> replies[i] != Ok(Null)) ==>
              forall i :: 0 <= i < n ==> BatchEntries(urls, replies, n)[i].url == urls[i]
  {
    if n > 0 {
      OneEntryPerUrl(urls, replies, n - 1);
    }
  }

  /** An error reply is still recorded as a success entry; only a thrown
      call records an error entry. */
  lemma ErrorReplyRecordedAsSuccess(url: string, reply: Result<Json, string>)
    ensures reply.Ok? && reply.value.Object? ==> ItemEntries(url, reply) == [Succeeded(url, reply.value)]
    ensures reply.Err? ==> ItemEntries(url, reply) == [Failed(url, reply.error)]
  {
  }

  function SleepCount(events: seq<BatchEvent>): nat {
    if events == [] then 0 else SleepCount(events[..|events| - 1]) + (if events[|events| - 1].Sleep? then 1 else 0)
  }

  lemma SleepCountAppend(a: seq<BatchEvent>, b: seq<BatchEvent>)
    ensures SleepCount(a + b) == SleepCount(a) + SleepCount(b)
    decreases |b|
  {
    if b != [] {
      assert (a + b)[..|a + b| - 1] == a + b[..|b| - 1];
      SleepCountAppend(a, b[..|b| - 1]);
    } else {
      assert a + b == a;
    }
  }

  lemma {:induction false} NoSleepCounted(events: seq<BatchEvent>)
    requires forall k :: 0 <= k < |events| ==> !events[k].Sleep?
    ensures SleepCount(events) == 0
  {
    if events != [] {
      NoSleepCounted(events[..|events| - 1]);
    }
  }

  /** The items are spaced by exactly `|urls| - 1` sleeps of `BATCH_DELAY`,
      none after the last item. */
  lemma {:induction false} SleepsBetweenItems(urls: seq<string>, replies: seq<Result<Json, string>>, n: nat)
    requires n <= |urls| == |replies|
    ensures SleepCount(BatchEvents(urls, replies, n)) == if n == |urls| && n > 0 then n - 1 else n
  {
    if n > 0 {
      SleepsBetweenItems(urls, replies, n - 1);
      SleepAfterItem(urls, replies, n);
    }
  }

  /** Item `n - 1` adds one sleep unless it is the last of the list. */
  lemma SleepAfterItem(urls: seq<string>, replies: seq<Result<Json, string>>, n: nat)
    requires 0 < n <= |urls| == |replies|
    ensures SleepCount(BatchEvents(urls, replies, n))
            == SleepCount(BatchEvents(urls, replies, n - 1)) + (if n < |urls| then 1 else 0)
  {
    var before := BatchEvents(urls, replies, n - 1);
    var item := ItemEvents(n - 1, replies[n - 1]);
    var pause: seq<BatchEvent> := if n - 1 < |urls| - 1 then [Sleep(BatchDelay)] else [];
    calc {
      SleepCount(BatchEvents(urls, replies, n));
      SleepCount(before + item + pause);
      { ItemHasNoSleep(n - 1, replies[n - 1]); SleepsAround(before, item, pause); }
      SleepCount(before) + |pause|;
    }
  }

  lemma ItemHasNoSleep(i: nat, reply: Result<Json, string>)
    ensures SleepCount(ItemEvents(i, reply)) == 0
  {
    NoSleepCounted(ItemEvents(i, reply));
  }

  /** The sleeps of a log extended by an item without sleeps and an optional
      pause. */
  lemma SleepsAround(before: seq<BatchEvent>, item: seq<BatchEvent>, pause: seq<BatchEvent>)
    requires SleepCount(item) == 0
    requires pause == [] || (|pause| == 1 && pause[0].Sleep?)
    ensures SleepCount(before + item + pause) == SleepCount(before) + |pause|
  {
    SleepCountAppend(before + item, pause);
    SleepCountAppend(before, item);
    assert pause == [] || pause[..0] == [];
  }

  // ---------------------------------------------------------------------
  // The processor

  class BatchProcessor {
    var isProcessing: bool
    var results: seq<BatchEntry>
    /** What the page has been shown so far. */
    var ui: seq<BatchEvent>

    constructor()
      ensures !isProcessing && results == [] && ui == []
    {
      isProcessing := false;
      results := [];
      ui := [];
    }

    /** `processBatch(urls)` with `replies[i]` what `processUrl(urls[i])`
        yields. It does nothing while a batch is in progress; otherwise it
        rebuilds `results` item by item and ends with the summary. */
    method ProcessBatch(urls: seq<string>, replies: seq<Result<Json, string>>)
      requires |replies| == |urls|
      modifies this
      ensures old(isProcessing) ==> isProcessing && results == old(results) && ui == old(ui)
      ensures !old(isProcessing) ==> !isProcessing
      ensures !old(isProcessing) ==> results == BatchEntries(urls, replies, |urls|)
      ensures !old(isProcessing) ==>
                ui == old(ui) + [InitUi(|urls|)] + BatchEvents(urls, replies, |urls|) + [SummaryOf(results)]
    {
      if isProcessing {
        return;
      }
      isProcessing := true;
      results := [];
      ui := ui + [InitUi(|urls|)];
      var start := ui;
      for i := 0 to |urls|
        invariant isProcessing
        invariant results == BatchEntries(urls, replies, i)
        invariant ui == start + BatchEvents(urls, replies, i)
      {
        ProcessItem(i, urls[i], replies[i]);
        var pause := if i < |urls| - 1 then [Sleep(BatchDelay)] else [];
        ui := ui + pause;
        assert BatchEvents(urls, replies, i + 1) == BatchEvents(urls, replies, i) + ItemEvents(i, replies[i]) + pause;
        AppendAssoc(start, BatchEvents(urls, replies, i), ItemEvents(i, replies[i]));
        AppendAssoc(start, BatchEvents(urls, replies, i) + ItemEvents(i, replies[i]), pause);
        assert BatchEntries(urls, replies, i + 1) == BatchEntries(urls, replies, i) + ItemEntries(urls[i], replies[i]);
      }
      isProcessing := false;
      ui := ui + [SummaryOf(results)];
    }

    /** The body of the loop of `processBatch` for item `i`, before the
        sleep. */
    method ProcessItem(i: nat, url: string, reply: Result<Json, string>)
      modifies this
      ensures isProcessing == old(isProcessing)
      ensures results == old(results) + ItemEntries(url, reply)
      ensures ui == old(ui) + ItemEvents(i, reply)
    {
      ui := ui + [Status(i, Loading, LoadingText)];
      match reply
      case Err(m) =>
        results := results + [Failed(url, m)];
        ui := ui + [Status(i, ItemError, ErrorPrefix + m)];
      case Ok(result) =>
        results := results + [Succeeded(url, result)];
        if result.Null? {
          // reading `result.status` throws; the catch records the error
          results := results + [Failed(url, NullStatusMessage)];
          ui := ui + [Status(i, ItemError, ErrorPrefix + NullStatusMessage)];
        } else if result.reply.status == Some("error") {
          ui := ui + [Status(i, ItemError, GetErrorMessage(result.reply.error))];
        } else {
          ui := ui + [Status(i, ItemSuccess, SuccessText)];
          var buttons := DownloadButtons(result.reply);
          if buttons.Some? {
            ui := ui + [AddButtons(i, buttons.value)];
          }
        }
    }

    /** `reset`. */
    method Reset()
      modifies this
      ensures !isProcessing && results == [] && ui == old(ui)
    {
      isProcessing := false;
      results := [];
    }
  }
}
