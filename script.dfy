/** web-interface/js/script.js: the older single-file page script. Its click
    handler splits the input on commas, its batch loop keeps the closure
    variables `isBatchProcessing` and `batchResults`, and its error texts come
    from a `switch` rather than the shared table. Replies of the API (a parsed
    body, or the message the call threw) are inputs. */
module Script {
  import opened Wrappers
  import opened Strings
  import opened Responses
  import Utils
  import Config
  import Batch
  import Single
  import WebApp

  // ---------------------------------------------------------------------
  // The click handler

  /** `input.split(',').map(url => url.trim()).filter(url => url)`. */
  function CommaUrls(input: string): (r: seq<string>)
    ensures forall k :: 0 <= k < |r| ==> r[k] != ""
  {
    DropEmpty(Utils.TrimAll(Split(input, {','})))
  }

  /** The click handler of the download button for the text in the input
      box; there is no URL validation. */
  function Click(value: string): (r: WebApp.Route)
    ensures r == WebApp.EmptyInput <==> Trim(value) == ""
    ensures Trim(value) != "" ==>
              var urls := CommaUrls(Trim(value));
              && (r == WebApp.NoValidUrl <==> |urls| == 0)
              && (r.SingleUrl? <==> |urls| == 1)
              && (r.BatchUrls? <==> |urls| > 1)
    ensures r.SingleUrl? ==> r.url == CommaUrls(Trim(value))[0]
    ensures r.BatchUrls? ==> r.urls == CommaUrls(Trim(value))
  {
    var input := Trim(value);
    if input == "" then WebApp.EmptyInput
    else
      var urls := CommaUrls(input);
      if |urls| == 0 then WebApp.NoValidUrl
      else if |urls| == 1 then WebApp.SingleUrl(urls[0])
      else WebApp.BatchUrls(urls)
  }

  lemma TrimEmpty()
    ensures Trim("") == ""
  {
  }

  /** Trimming maps an empty piece to an empty piece, so empty pieces may be
      dropped before trimming as well as after. */
  lemma {:induction false} DropEmptyTrimAll(ps: seq<string>)
    ensures DropEmpty(Utils.TrimAll(ps)) == DropEmpty(Utils.TrimAll(DropEmpty(ps)))
  {
    if ps != [] {
      DropEmptyTrimAll(ps[1..]);
      TrimEmpty();
      assert Utils.TrimAll(ps)[1..] == Utils.TrimAll(ps[1..]);
      if ps[0] != "" {
        assert Utils.TrimAll(DropEmpty(ps))[1..] == Utils.TrimAll(DropEmpty(ps[1..]));
      }
    }
  }

  /** A URL check that accepts everything. */
  predicate AcceptAll(url: string) {
    true
  }

  /** With a URL check that accepts everything, `parseUrls` is "drop the
      empty pieces". */
  lemma {:induction false} KeepAllIsDropEmpty(ps: seq<string>)
    ensures Utils.KeepUrls(ps, AcceptAll) == DropEmpty(ps)
  {
    if ps != [] {
      KeepAllIsDropEmpty(ps[1..]);
    }
  }

  /** On input without line breaks, the comma split of this script finds the
      same URLs as `parseUrls` of utils.js would with a URL check that
      accepts everything: the two differ only on `\n`, `\r` and validation. */
  lemma AgreesWithParseUrls(input: string)
    requires forall i :: 0 <= i < |input| ==> input[i] != '\n' && input[i] != '\r'
    ensures CommaUrls(input) == Utils.ParseUrls(input, AcceptAll)
  {
    var seps := Utils.UrlSeparators;
    var pieces := Split(input, seps);
    var runs := SplitRuns(input, seps);
    calc {
      CommaUrls(input);
      DropEmpty(Utils.TrimAll(Split(input, {','})));
      { SplitSameOnText(input, {','}, seps); }
      DropEmpty(Utils.TrimAll(pieces));
      { DropEmptyTrimAll(pieces); }
      DropEmpty(Utils.TrimAll(DropEmpty(pieces)));
      { SplitRunsDropEmpty(input, seps); }
      DropEmpty(Utils.TrimAll(DropEmpty(runs)));
      { DropEmptyTrimAll(runs); }
      DropEmpty(Utils.TrimAll(runs));
      { KeepAllIsDropEmpty(Utils.TrimAll(runs)); }
      Utils.KeepUrls(Utils.TrimAll(runs), AcceptAll);
    }
  }

  /** A line break is not a separator here: two URLs on two lines are sent
      as one, where `parseUrls` finds both. */
  lemma LineBreakIsNotASeparator(a: string, b: string)
    requires a != "" && b != "" && IsTrimmed(a) && IsTrimmed(b)
    requires forall i :: 0 <= i < |a| ==> a[i] !in Utils.UrlSeparators
    requires forall i :: 0 <= i < |b| ==> b[i] !in Utils.UrlSeparators
    ensures CommaUrls(a + "\n" + b) == [a + "\n" + b]
    ensures Utils.ParseUrls(a + "\n" + b, AcceptAll) == [a, b]
  {
    CommaSplitOfLineBreak(a, b);
    ParseUrlsOfLineBreak(a, b);
  }

  /** The comma split keeps `a`, a line break and `b` as one piece. */
  lemma CommaSplitOfLineBreak(a: string, b: string)
    requires a != "" && b != "" && IsTrimmed(a) && IsTrimmed(b)
    requires forall i :: 0 <= i < |a| ==> a[i] !in Utils.UrlSeparators
    requires forall i :: 0 <= i < |b| ==> b[i] !in Utils.UrlSeparators
    ensures CommaUrls(a + "\n" + b) == [a + "\n" + b]
  {
    var s := a + "\n" + b;
    assert forall i :: 0 <= i < |s| ==> s[i] !in {','} by {
      forall i | 0 <= i < |s|
        ensures s[i] !in {','}
      {
        if i < |a| {
          assert s[i] == a[i];
        } else if i > |a| {
          assert s[i] == b[i - |a| - 1];
        }
      }
    }
    SplitNoSeparator(s, {','});
    assert s[0] == a[0] && s[|s| - 1] == b[|b| - 1];
    TrimOfTrimmed(s);
    assert Utils.TrimAll([s]) == [s];
    assert [s][1..] == [];
  }

  /** `parseUrls` cuts `a`, a line break and `b` into `a` and `b`. */
  lemma ParseUrlsOfLineBreak(a: string, b: string)
    requires a != "" && b != "" && IsTrimmed(a) && IsTrimmed(b)
    requires forall i :: 0 <= i < |a| ==> a[i] !in Utils.UrlSeparators
    requires forall i :: 0 <= i < |b| ==> b[i] !in Utils.UrlSeparators
    ensures Utils.ParseUrls(a + "\n" + b, AcceptAll) == [a, b]
  {
    var seps := Utils.UrlSeparators;
    var s := a + ['\n'] + b;
    var runs := SplitRuns(s, seps);
    assert Split(s, seps) == [a, b] by {
      SplitAfterPiece(a, '\n', b, seps);
      SplitNoSeparator(b, seps);
    }
    assert DropEmpty([a, b]) == [a, b] by {
      assert [a, b][1..] == [b] && [b][1..] == [];
    }
    assert Utils.TrimAll([a, b]) == [a, b] by {
      TrimOfTrimmed(a);
      TrimOfTrimmed(b);
    }
    calc {
      Utils.ParseUrls(s, AcceptAll);
      Utils.KeepUrls(Utils.TrimAll(runs), AcceptAll);
      { KeepAllIsDropEmpty(Utils.TrimAll(runs)); }
      DropEmpty(Utils.TrimAll(runs));
      { DropEmptyTrimAll(runs); }
      DropEmpty(Utils.TrimAll(DropEmpty(runs)));
      { SplitRunsDropEmpty(s, seps); }
      DropEmpty(Utils.TrimAll(DropEmpty([a, b])));
      [a, b];
    }
  }

  // ---------------------------------------------------------------------
  // getErrorMessage

  const UnknownErrorText: string := "Lỗi không xác định"

  /** `getErrorMessage(error)`: the `switch` over four known codes. */
  function ScriptErrorMessage(error: Option<ApiError>): (r: string)
    ensures error.None? || !Truthy(error.value.code) ==> r == UnknownErrorText
    ensures error.Some? && error.value.code == Some("error.api.youtube.login") ==> r == "Video yêu cầu đăng nhập YouTube"
    ensures error.Some? && error.value.code == Some("error.api.invalid_body") ==> r == "URL không hợp lệ"
    ensures error.Some? && error.value.code == Some("error.api.fetch.empty_response") ==> r == "Không thể lấy dữ liệu video"
    ensures error.Some? && error.value.code == Some("error.api.content.too_long") ==> r == "Video quá dài"
    ensures error.Some? && Truthy(error.value.code)
            && error.value.code.value !in {"error.api.youtube.login", "error.api.invalid_body",
                                           "error.api.fetch.empty_response", "error.api.content.too_long"} ==>
              r == Batch.ErrorPrefix + error.value.code.value
  {
    if error.None? || !Truthy(error.value.code) then UnknownErrorText
    else
      match error.value.code.value
      case "error.api.youtube.login" => "Video yêu cầu đăng nhập YouTube"
      case "error.api.invalid_body" => "URL không hợp lệ"
      case "error.api.fetch.empty_response" => "Không thể lấy dữ liệu video"
      case "error.api.content.too_long" => "Video quá dài"
      case code => Batch.ErrorPrefix + code
  }

  /** The switch agrees with the `ERROR_MESSAGES` table of the modular code
      on every error but one whose code is the text `default`, which the
      table maps to its default entry and the switch shows raw. */
  lemma ComparedWithErrorTable(error: Option<ApiError>)
    ensures ScriptErrorMessage(error) == Batch.GetErrorMessage(error) <==>
              !(error.Some? && error.value.code == Some("default"))
  {
    if error.Some? && error.value.code == Some("default") {
      var m := ScriptErrorMessage(error);
      assert m == Batch.ErrorPrefix + "default";
      assert m[3] != Config.DefaultErrorMessage[3];
    }
  }

  // ---------------------------------------------------------------------
  // processBatchDownload

  /** The literal pause of the loop, in milliseconds. */
  const ScriptDelay: nat := 1000

  /** The page events of item `i` of the batch: as in batch.js, but with
      this script's error texts. */
  function ScriptItemEvents(i: nat, reply: Result<Json, string>): seq<Batch.BatchEvent> {
    [Batch.Status(i, Batch.Loading, Batch.LoadingText)] +
    match reply
    case Err(m) => [Batch.Status(i, Batch.ItemError, Batch.ErrorPrefix + m)]
    case Ok(Null) => [Batch.Status(i, Batch.ItemError, Batch.ErrorPrefix + Batch.NullStatusMessage)]
    case Ok(Object(data)) =>
      if data.status == Some("error") then [Batch.Status(i, Batch.ItemError, ScriptErrorMessage(data.error))]
      else
        [Batch.Status(i, Batch.ItemSuccess, Batch.SuccessText)] +
        (match Batch.DownloadButtons(data) case None => [] case Some(b) => [Batch.AddButtons(i, b)])
  }

  /** The page events of the first `n` items, a pause after every item but
      the last. */
  function ScriptBatchEvents(urls: seq<string>, replies: seq<Result<Json, string>>, n: nat): seq<Batch.BatchEvent>
    requires n <= |urls| == |replies|
  {
    if n == 0 then []
    else
      ScriptBatchEvents(urls, replies, n - 1) + ScriptItemEvents(n - 1, replies[n - 1])
      + (if n - 1 < |urls| - 1 then [Batch.Sleep(ScriptDelay)] else [])
  }

  /** The two batch loops show the same page, item for item, as long as no
      error reply carries the code `default`. */
  lemma {:induction false} SameBatchPage(urls: seq<string>, replies: seq<Result<Json, string>>, n: nat)
    requires n <= |urls| == |replies|
    requires forall i :: 0 <= i < n && replies[i].Ok? && replies[i].value.Object? ==>
               replies[i].value.reply.error.None? || replies[i].value.reply.error.value.code != Some("default")
    ensures ScriptBatchEvents(urls, replies, n) == Batch.BatchEvents(urls, replies, n)
  {
    if n > 0 {
      SameBatchPage(urls, replies, n - 1);
      var reply := replies[n - 1];
      if reply.Ok? && reply.value.Object? {
        ComparedWithErrorTable(reply.value.reply.error);
      }
      assert ScriptItemEvents(n - 1, reply) == Batch.ItemEvents(n - 1, reply);
    }
  }

  /** One pause of a second between consecutive items, none after the last. */
  lemma {:induction false} PausesBetweenItems(urls: seq<string>, replies: seq<Result<Json, string>>, n: nat)
    requires n <= |urls| == |replies|
    ensures Batch.SleepCount(ScriptBatchEvents(urls, replies, n)) == if n == |urls| && n > 0 then n - 1 else n
  {
    if n > 0 {
      PausesBetweenItems(urls, replies, n - 1);
      PauseAfterItem(urls, replies, n);
    }
  }

  /** Item `n - 1` adds one pause unless it is the last of the list. */
  lemma PauseAfterItem(urls: seq<string>, replies: seq<Result<Json, string>>, n: nat)
    requires 0 < n <= |urls| == |replies|
    ensures Batch.SleepCount(ScriptBatchEvents(urls, replies, n))
            == Batch.SleepCount(ScriptBatchEvents(urls, replies, n - 1)) + (if n < |urls| then 1 else 0)
  {
    var before := ScriptBatchEvents(urls, replies, n - 1);
    var item := ScriptItemEvents(n - 1, replies[n - 1]);
    var pause: seq<Batch.BatchEvent> := if n - 1 < |urls| - 1 then [Batch.Sleep(ScriptDelay)] else [];
    calc {
      Batch.SleepCount(ScriptBatchEvents(urls, replies, n));
      Batch.SleepCount(before + item + pause);
      { ItemHasNoPause(n - 1, replies[n - 1]); Batch.SleepsAround(before, item, pause); }
      Batch.SleepCount(before) + |pause|;
    }
  }

  lemma ItemHasNoPause(i: nat, reply: Result<Json, string>)
    ensures Batch.SleepCount(ScriptItemEvents(i, reply)) == 0
  {
    Batch.NoSleepCounted(ScriptItemEvents(i, reply));
  }

  // ---------------------------------------------------------------------
  // processDownload and handleResponse

  /** `handleResponse(data)`: as in single.js, but an error reply shows the
      raw code. */
  function HandleResponse(data: Json): (r: Single.View)
    ensures data.Object? && data.reply.status == Some("error") ==>
              var e := data.reply.error;
              r == Single.ErrorView(if e.Some? && Truthy(e.value.code) then Batch.ErrorPrefix + e.value.code.value
                                    else UnknownErrorText)
    ensures !(data.Object? && data.reply.status == Some("error")) ==> r == Single.HandleResponse(data)
  {
    if data.Object? && data.reply.status == Some("error") then
      var e := data.reply.error;
      Single.ErrorView(if e.Some? && Truthy(e.value.code) then Batch.ErrorPrefix + e.value.code.value else UnknownErrorText)
    else Single.HandleResponse(data)
  }

  const UnknownApiErrorText: string := "Lỗi không xác định từ API"

  /** `processDownload(url)`, given what `fetch` delivered (`Err` when it
      threw). The body is only read when the status is ok. */
  function ProcessDownload(response: Result<HttpReply<Json>, string>): (r: Single.View)
    ensures response.Err? ==> r == Single.ErrorView(Single.ConnectionErrorText(response.error))
    ensures response.Ok? && !OkStatus(response.value) ==>
              r == Single.ErrorView("Lỗi API: " + IntToString(response.value.status) + " " + response.value.statusText)
    ensures response.Ok? && OkStatus(response.value) && response.value.body.Null? ==> r == Single.ErrorView(Single.NoDataText)
    ensures response.Ok? && OkStatus(response.value) && response.value.body.Object?
            && response.value.body.reply.status != Some("error") ==>
              r == HandleResponse(response.value.body)
    ensures response.Ok? && OkStatus(response.value) && response.value.body.Object?
            && response.value.body.reply.status == Some("error") ==>
              var e := response.value.body.reply.error;
              && (e.None? || !Truthy(e.value.code) ==> r == Single.ErrorView(UnknownApiErrorText))
              && (e.Some? && e.value.code == Some("error.api.youtube.login") ==> r == Single.ErrorView(Single.LoginOverrideText))
              && (e.Some? && e.value.code == Some("error.api.invalid_body") ==> r == Single.ErrorView(Single.InvalidBodyOverrideText))
              && (e.Some? && Truthy(e.value.code)
                  && e.value.code.value !in {"error.api.youtube.login", "error.api.invalid_body"} ==>
                    r == Single.ErrorView(Batch.ErrorPrefix + e.value.code.value))
    ensures r.LinkView? ==> response.Ok? && OkStatus(response.value)
  {
    match response
    case Err(m) => Single.ErrorView(Single.ConnectionErrorText(m))
    case Ok(reply) =>
      if !OkStatus(reply) then Single.ErrorView("Lỗi API: " + IntToString(reply.status) + " " + reply.statusText)
      else
        match reply.body
        case Null => Single.ErrorView(Single.NoDataText)
        case Object(d) =>
          if d.status == Some("error") then
            var e := d.error;
            if e.None? || !Truthy(e.value.code) then Single.ErrorView(UnknownApiErrorText)
            else if e.value.code == Some("error.api.youtube.login") then Single.ErrorView(Single.LoginOverrideText)
            else if e.value.code == Some("error.api.invalid_body") then Single.ErrorView(Single.InvalidBodyOverrideText)
            else Single.ErrorView(Batch.ErrorPrefix + e.value.code.value)
          else HandleResponse(Object(d))
  }

  /** Once the status is ok, `processDownload` shows what `process` of
      single.js shows, except on error replies whose code is neither of the
      two overridden ones: without an `error` object this script reports an
      unknown API error where single.js ends in the connection error, and
      for a code it shows `Lỗi: <code>` where single.js looks the code up. */
  lemma ProcessDownloadAgainstSingle(reply: HttpReply<Json>)
    requires OkStatus(reply)
    ensures !(reply.body.Object? && reply.body.reply.status == Some("error")) ==>
              ProcessDownload(Ok(reply)) == Single.Process(Ok(reply.body))
    ensures reply.body.Object? && reply.body.reply.status == Some("error") ==>
              var e := reply.body.reply.error;
              && (e.None? ==>
                    && ProcessDownload(Ok(reply)) == Single.ErrorView(UnknownApiErrorText)
                    && Single.Process(Ok(reply.body)) == Single.ErrorView(Single.ConnectionErrorText(Single.MissingErrorMessage)))
              && (e.Some? && e.value.code in {Some("error.api.youtube.login"), Some("error.api.invalid_body")} ==>
                    ProcessDownload(Ok(reply)) == Single.Process(Ok(reply.body)))
              && (e.Some? && Truthy(e.value.code) && e.value.code.value !in Config.ErrorMessages ==>
                    ProcessDownload(Ok(reply)) == Single.Process(Ok(reply.body)))
  {
  }

  /** The name the download link saves under: `filename || 'video.mp4'`
      (the caption above the buttons falls back to `video`). */
  function SaveName(filename: Option<string>): (r: string)
    ensures r != ""
    ensures Truthy(filename) ==> r == filename.value
    ensures !Truthy(filename) ==> r == "video.mp4"
  {
    OrElse(filename, "video.mp4")
  }

  // ---------------------------------------------------------------------
  // The closure state

  /** What the download-result area holds: nothing once `resetApp` clears
      it, or the batch panel `initBatchUI` writes for that many URLs. */
  datatype ResultArea = Cleared | BatchPanel(count: nat)

  /** The variables of the page script's closure, and the parts of the page
      `resetApp` clears. */
  class Page {
    var isBatchProcessing: bool
    var batchResults: seq<Batch.BatchEntry>
    var ui: seq<Batch.BatchEvent>
    var urlInput: string
    var clearButtonShown: bool
    var resultVisible: bool
    var downloadResultVisible: bool
    var errorVisible: bool
    var downloadResult: ResultArea
    var errorText: string

    constructor()
      ensures !isBatchProcessing && batchResults == [] && ui == []
      ensures urlInput == "" && !clearButtonShown && !resultVisible && !downloadResultVisible && !errorVisible
      ensures downloadResult == Cleared && errorText == ""
    {
      isBatchProcessing := false;
      batchResults := [];
      ui := [];
      urlInput := "";
      clearButtonShown := false;
      resultVisible := false;
      downloadResultVisible := false;
      errorVisible := false;
      downloadResult := Cleared;
      errorText := "";
    }

    /** `processBatchDownload(urls)`, with `replies[i]` what
        `processSingleUrl(urls[i])` yields. Guarded like the batch processor;
        `batchResults` gets the same entries as there. */
    method ProcessBatchDownload(urls: seq<string>, replies: seq<Result<Json, string>>)
      requires |replies| == |urls|
      modifies this
      ensures old(isBatchProcessing) ==>
                isBatchProcessing && batchResults == old(batchResults) && ui == old(ui)
                && resultVisible == old(resultVisible) && errorVisible == old(errorVisible)
                && downloadResultVisible == old(downloadResultVisible)
      ensures !old(isBatchProcessing) ==> !isBatchProcessing && resultVisible && !errorVisible && downloadResultVisible
      ensures !old(isBatchProcessing) ==> batchResults == Batch.BatchEntries(urls, replies, |urls|)
      ensures !old(isBatchProcessing) ==>
                ui == old(ui) + [Batch.InitUi(|urls|)] + ScriptBatchEvents(urls, replies, |urls|)
                      + [Batch.SummaryOf(batchResults)]
      ensures urlInput == old(urlInput) && clearButtonShown == old(clearButtonShown)
      ensures downloadResult == if old(isBatchProcessing) then old(downloadResult) else BatchPanel(|urls|)
      ensures errorText == old(errorText)
    {
      if isBatchProcessing {
        return;
      }
      isBatchProcessing := true;
      batchResults := [];
      resultVisible := true;
      errorVisible := false;
      downloadResultVisible := true;
      ui := ui + [Batch.InitUi(|urls|)];
      downloadResult := BatchPanel(|urls|);
      var start := ui;
      for i := 0 to |urls|
        invariant isBatchProcessing && resultVisible && !errorVisible && downloadResultVisible
        invariant urlInput == old(urlInput) && clearButtonShown == old(clearButtonShown)
        invariant downloadResult == BatchPanel(|urls|) && errorText == old(errorText)
        invariant batchResults == Batch.BatchEntries(urls, replies, i)
        invariant ui == start + ScriptBatchEvents(urls, replies, i)
      {
        ProcessItem(i, urls[i], replies[i]);
        var pause := if i < |urls| - 1 then [Batch.Sleep(ScriptDelay)] else [];
        ui := ui + pause;
        assert ScriptBatchEvents(urls, replies, i + 1) == ScriptBatchEvents(urls, replies, i) + ScriptItemEvents(i, replies[i]) + pause;
        AppendAssoc(start, ScriptBatchEvents(urls, replies, i), ScriptItemEvents(i, replies[i]));
        AppendAssoc(start, ScriptBatchEvents(urls, replies, i) + ScriptItemEvents(i, replies[i]), pause);
        assert Batch.BatchEntries(urls, replies, i + 1) == Batch.BatchEntries(urls, replies, i) + Batch.ItemEntries(urls[i], replies[i]);
      }
      isBatchProcessing := false;
      ui := ui + [Batch.SummaryOf(batchResults)];
    }

    /** The body of the loop of `processBatchDownload` for item `i`, before
        the pause. */
    method ProcessItem(i: nat, url: string, reply: Result<Json, string>)
      modifies this
      ensures batchResults == old(batchResults) + Batch.ItemEntries(url, reply)
      ensures ui == old(ui) + ScriptItemEvents(i, reply)
      ensures isBatchProcessing == old(isBatchProcessing) && urlInput == old(urlInput)
      ensures clearButtonShown == old(clearButtonShown) && resultVisible == old(resultVisible)
      ensures downloadResultVisible == old(downloadResultVisible) && errorVisible == old(errorVisible)
      ensures downloadResult == old(downloadResult) && errorText == old(errorText)
    {
      ui := ui + [Batch.Status(i, Batch.Loading, Batch.LoadingText)];
      match reply
      case Err(m) =>
        batchResults := batchResults + [Batch.Failed(url, m)];
        ui := ui + [Batch.Status(i, Batch.ItemError, Batch.ErrorPrefix + m)];
      case Ok(result) =>
        batchResults := batchResults + [Batch.Succeeded(url, result)];
        if result.Null? {
          // reading `result.status` throws; the catch records the error
          batchResults := batchResults + [Batch.Failed(url, Batch.NullStatusMessage)];
          ui := ui + [Batch.Status(i, Batch.ItemError, Batch.ErrorPrefix + Batch.NullStatusMessage)];
        } else if result.reply.status == Some("error") {
          ui := ui + [Batch.Status(i, Batch.ItemError, ScriptErrorMessage(result.reply.error))];
        } else {
          ui := ui + [Batch.Status(i, Batch.ItemSuccess, Batch.SuccessText)];
          var buttons := Batch.DownloadButtons(result.reply);
          if buttons.Some? {
            ui := ui + [Batch.AddButtons(i, buttons.value)];
          }
        }
    }

    /** `resetApp()`: clears the batch state, the input and the result and
        error areas. */
    method ResetApp()
      modifies this
      ensures !isBatchProcessing && batchResults == [] && ui == old(ui)
      ensures urlInput == "" && !clearButtonShown
      ensures !resultVisible && !downloadResultVisible && !errorVisible
      ensures downloadResult == Cleared && errorText == ""
    {
      isBatchProcessing := false;
      batchResults := [];
      urlInput := "";
      clearButtonShown := false;
      resultVisible := false;
      downloadResultVisible := false;
      errorVisible := false;
      downloadResult := Cleared;
      errorText := "";
    }
  }
}
