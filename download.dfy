/** web-interface/js/download.js: the `DownloadManager` that streams a file
    with progress reports, falls back to a plain download, and supports
    cancel and retry. The browser's `fetch` reply and its body reader are
    inputs; what the manager shows and saves is an effect log. */
module Download {
  import opened Wrappers
  import opened Strings

  // ---------------------------------------------------------------------
  // Inputs

  /** One resolution of `reader.read()`: a chunk that arrived at a time in
      milliseconds, the end of the stream, a click on the cancel button
      while the read was pending (after which the cancelled reader resolves
      as done), or a rejected read. */
  datatype ReadEvent = Chunk(data: seq<bv8>, now: int) | Done | UserCancel | ReadError(message: string)

  /** What `fetch(url, …)` resolved to for the streaming path: the status
      line, the `content-length` header and the body (`None` is a `null`
      body); the events of the body follow in order. */
  datatype StreamResponse = StreamResponse(status: int, statusText: string, contentLength: Option<string>, body: Option<seq<ReadEvent>>)

  /** What `fetch(url)` and `response.blob()` gave the plain path. */
  datatype SimpleResponse = SimpleResponse(status: int, statusText: string, blob: seq<bv8>)

  // ---------------------------------------------------------------------
  // Effects

  /** The contents of one `updateProgressUI` call. */
  datatype Update =
    | Preparing                                             // retry: status reset, every counter 0
    | Downloading(total: Option<int>)                       // the parsed total, `None` for NaN
    | Progress(downloaded: nat, total: Option<int>, percent: real)
    | Finished(size: nat)                                   // downloaded = total = size, percent 100
    | SimpleMode                                            // plain path, total 0
    | Switching                                             // about to take the plain path
    | ErrorState(status: string)                            // an error status with the retry button shown

  /** What the manager does that can be observed: a progress panel shown,
      an update of it, a request sent, a file saved under a name, the
      error panel of `showDownloadError`. */
  datatype Effect =
    | Panel(id: string, caption: string)
    | Ui(id: string, update: Update)
    | Fetch(url: string)
    | Save(name: string, bytes: seq<bv8>)
    | ErrorPanel(message: string)

  /** What `downloadInfo` keeps for a retry. */
  datatype Entry = Entry(url: string, filename: Option<string>)

  /** The manager's whole state: `activeDownloads` (id to cancelled flag),
      `downloadInfo` and the effect log. */
  datatype Manager = Manager(active: map<string, bool>, info: map<string, Entry>, effects: seq<Effect>)

  /** The state invariant: no flag in `activeDownloads` is ever set, since
      `cancelDownload` deletes the entry whose flag it sets. */
  predicate NoCancelledFlag(m: Manager) {
    forall k :: k in m.active ==> !m.active[k]
  }

  /** The outcome of `downloadFileWithProgress`: it returned, or it threw an
      error with a message. */
  datatype StreamOutcome = Completed | Thrown(message: string)

  const FallbackSignal: string := "FALLBACK_NEEDED"
  const NoStreamSignal: string := "STREAM_NOT_SUPPORTED"
  const EmptySignal: string := "EMPTY_DOWNLOAD"
  const CancelledStatus: string := "❌ Đã hủy"
  const ErrorPrefix: string := "❌ Lỗi: "
  const ThrottleMs: int := 200

  /** `'progress-' + Date.now()`. */
  function ProgressId(now: int): string {
    "progress-" + IntToString(now)
  }

  /** `filename || 'download'`. */
  function SaveName(filename: Option<string>): string {
    OrElse(filename, "download")
  }

  /** `HTTP ${status}: ${statusText}`. */
  function HttpMessage(status: int, statusText: string): string {
    "HTTP " + IntToString(status) + ": " + statusText
  }

  /** `contentLength ? parseInt(contentLength, 10) : 0` (`None` is NaN). */
  function TotalOf(contentLength: Option<string>): (r: Option<int>)
    ensures !Truthy(contentLength) ==> r == Some(0)
    ensures Truthy(contentLength) ==> r == ParseInt(contentLength.value)
  {
    if Truthy(contentLength) then ParseInt(contentLength.value) else Some(0)
  }

  /** `total > 0 ? downloaded / total * 100 : 0` on exact reals. */
  function Percent(downloaded: nat, total: Option<int>): (r: real)
    ensures total.Some? && total.value > 0 ==> r * (total.value as real) == (downloaded as real) * 100.0
    ensures !(total.Some? && total.value > 0) ==> r == 0.0
    ensures total.Some? && 0 < total.value && downloaded <= total.value ==> 0.0 <= r <= 100.0
  {
    if total.Some? && total.value > 0 then (downloaded as real) / (total.value as real) * 100.0 else 0.0
  }

  // ---------------------------------------------------------------------
  // The read loop

  /** The loop variables: the chunks kept, the byte counter, the time of
      the last report and the reports made, as (downloaded, time) pairs. */
  datatype Loop = Loop(chunks: seq<seq<bv8>>, downloaded: nat, lastUpdate: int, samples: seq<(nat, int)>)

  /** Why the loop stopped. */
  datatype Stop = Ended | CancelRequested | ReadFailed(message: string)

  /** Where the loop stopped, why, and with what variables. */
  datatype ScanEnd = ScanEnd(stop: Stop, at: nat, loop: Loop)

  /** One chunk: an empty chunk is skipped; otherwise it is kept and
      counted, and reported when more than 200 ms passed since the last
      report. */
  function Step(l: Loop, data: seq<bv8>, now: int): (r: Loop)
    ensures |data| == 0 ==> r == l
    ensures |data| > 0 ==> r.chunks == l.chunks + [data] && r.downloaded == l.downloaded + |data|
    ensures |r.samples| == |l.samples| + 1 <==> |data| > 0 && now - l.lastUpdate > ThrottleMs
    ensures |r.samples| != |l.samples| + 1 ==> r.samples == l.samples && r.lastUpdate == l.lastUpdate
    ensures |r.samples| == |l.samples| + 1 ==> r.samples == l.samples + [(r.downloaded, now)] && r.lastUpdate == now
  {
    if |data| == 0 then l
    else
      var downloaded := l.downloaded + |data|;
      if now - l.lastUpdate > ThrottleMs then Loop(l.chunks + [data], downloaded, now, l.samples + [(downloaded, now)])
      else Loop(l.chunks + [data], downloaded, l.lastUpdate, l.samples)
  }

  /** The loop from read `i` on; running out of events is the end of the
      stream. */
  function Scan(events: seq<ReadEvent>, i: nat, l: Loop): (r: ScanEnd)
    requires i <= |events|
    ensures i <= r.at <= |events|
    decreases |events| - i
  {
    if i == |events| then ScanEnd(Ended, i, l)
    else match events[i]
      case Done => ScanEnd(Ended, i, l)
      case UserCancel => ScanEnd(CancelRequested, i, l)
      case ReadError(message) => ScanEnd(ReadFailed(message), i, l)
      case Chunk(data, now) => Scan(events, i + 1, Step(l, data, now))
  }

  /** The chunks glued together, as `new Blob(chunks)` does. */
  function Flatten(chunks: seq<seq<bv8>>): seq<bv8> {
    if chunks == [] then [] else chunks[0] + Flatten(chunks[1..])
  }

  /** The bytes carried by the chunk events of `events`. */
  function Received(events: seq<ReadEvent>): seq<bv8> {
    if events == [] then []
    else (if events[0].Chunk? then events[0].data else []) + Received(events[1..])
  }

  lemma {:induction false} FlattenAppend(chunks: seq<seq<bv8>>, data: seq<bv8>)
    ensures Flatten(chunks + [data]) == Flatten(chunks) + data
  {
    if chunks != [] {
      assert (chunks + [data])[1..] == chunks[1..] + [data];
      FlattenAppend(chunks[1..], data);
    }
  }

  /** The byte counter is the number of bytes kept, the bytes kept are
      exactly the bytes received, and no empty chunk is kept. */
  lemma {:induction false} ScanCounts(events: seq<ReadEvent>, i: nat, l: Loop)
    requires i <= |events|
    requires l.downloaded == |Flatten(l.chunks)|
    requires forall k :: 0 <= k < |l.chunks| ==> l.chunks[k] != []
    ensures var e := Scan(events, i, l);
      && Flatten(e.loop.chunks) == Flatten(l.chunks) + Received(events[i..e.at])
      && e.loop.downloaded == |Flatten(e.loop.chunks)|
      && (forall k :: 0 <= k < |e.loop.chunks| ==> e.loop.chunks[k] != [])
    decreases |events| - i
  {
    if i < |events| && events[i].Chunk? {
      var next := Step(l, events[i].data, events[i].now);
      if |events[i].data| > 0 {
        FlattenAppend(l.chunks, events[i].data);
      }
      ScanCounts(events, i + 1, next);
      var e := Scan(events, i + 1, next);
      var data := events[i].data;
      var rest := Received(events[i + 1..e.at]);
      assert events[i..e.at][0] == events[i];
      assert events[i..e.at][1..] == events[i + 1..e.at];
      assert Received(events[i..e.at]) == data + rest;
      assert Flatten(next.chunks) == Flatten(l.chunks) + data by {
        if |data| == 0 {
          assert Flatten(l.chunks) + data == Flatten(l.chunks);
        }
      }
      AppendAssoc(Flatten(l.chunks), data, rest);
    } else {
      assert events[i..i] == [];
    }
  }

  /** The reports are throttled: any two are more than 200 ms apart and
      report strictly growing counters, each comes more than 200 ms after the
      start and reports no more than the counter, and the last report time
      is the time of the last report. */
  predicate Throttled(l: Loop, start: int) {
    && (forall j, k :: 0 <= j < k < |l.samples| ==> l.samples[j].1 + ThrottleMs < l.samples[k].1 && l.samples[j].0 < l.samples[k].0)
    && (forall k :: 0 <= k < |l.samples| ==> start + ThrottleMs < l.samples[k].1 && l.samples[k].0 <= l.downloaded)
    && l.lastUpdate == (if l.samples == [] then start else l.samples[|l.samples| - 1].1)
  }

  /** One chunk keeps the reports throttled. */
  lemma StepThrottled(l: Loop, data: seq<bv8>, now: int, start: int)
    requires Throttled(l, start)
    ensures Throttled(Step(l, data, now), start)
  {
    if |data| > 0 && now - l.lastUpdate > ThrottleMs {
      var d := l.downloaded + |data|;
      var s := l.samples + [(d, now)];
      assert Step(l, data, now) == Loop(l.chunks + [data], d, now, s);
      assert forall k :: 0 <= k < |l.samples| ==> s[k] == l.samples[k];
      assert forall k :: 0 <= k < |l.samples| ==> l.samples[k].1 <= l.lastUpdate;
    } else if |data| > 0 {
      assert Step(l, data, now) == Loop(l.chunks + [data], l.downloaded + |data|, l.lastUpdate, l.samples);
    }
  }

  lemma {:induction false} ScanThrottled(events: seq<ReadEvent>, i: nat, l: Loop, start: int)
    requires i <= |events|
    requires Throttled(l, start)
    ensures Throttled(Scan(events, i, l).loop, start)
    decreases |events| - i
  {
    if i < |events| && events[i].Chunk? {
      StepThrottled(l, events[i].data, events[i].now, start);
      ScanThrottled(events, i + 1, Step(l, events[i].data, events[i].now), start);
    }
  }

  /** A cancel click is observed only through the stream ending: the loop
      stops on it normally, never with an error. */
  lemma {:induction false} CancelEndsScan(events: seq<ReadEvent>, i: nat, l: Loop)
    requires i <= |events|
    requires Scan(events, i, l).stop == CancelRequested
    ensures Scan(events, i, l).at < |events| && events[Scan(events, i, l).at] == UserCancel
    decreases |events| - i
  {
    if i < |events| && events[i].Chunk? {
      CancelEndsScan(events, i + 1, Step(l, events[i].data, events[i].now));
    }
  }

  // ---------------------------------------------------------------------
  // The operations on the state, as functions

  /** `createProgressUI`: a fresh id from the clock, the panel labelled with
      the name, and the entry kept for a retry. */
  function CreateSpec(m: Manager, url: string, filename: Option<string>, now: int): Manager {
    var id := ProgressId(now);
    Manager(m.active, m.info[id := Entry(url, filename)], m.effects + [Panel(id, SaveName(filename))])
  }

  /** `cancelDownload`. */
  function CancelSpec(m: Manager, id: string): Manager {
    if id in m.active then
      Manager(m.active - {id}, m.info, m.effects + [Ui(id, ErrorState(CancelledStatus))])
    else m
  }

  /** The catch block of `downloadFileWithProgress`: the two internal
      signals become the fall-back signal; any other error is shown,
      unregisters the id and is rethrown. */
  function CatchSpec(m: Manager, id: string, message: string): (Manager, StreamOutcome) {
    if message == NoStreamSignal || message == EmptySignal then (m, Thrown(FallbackSignal))
    else (Manager(m.active - {id}, m.info, m.effects + [Ui(id, ErrorState(ErrorPrefix + message))]), Thrown(message))
  }

  /** One progress update per report. */
  function SampleEffects(id: string, total: Option<int>, samples: seq<(nat, int)>): seq<Effect> {
    if samples == [] then []
    else
      var last := samples[|samples| - 1];
      SampleEffects(id, total, samples[..|samples| - 1]) + [Ui(id, Progress(last.0, total, Percent(last.0, total)))]
  }

  /** `downloadFileWithProgress`: the request, then the reply. */
  function StreamSpec(m: Manager, url: string, filename: Option<string>, id: string,
                      fetched: Result<StreamResponse, string>, start: int): (Manager, StreamOutcome)
  {
    var m0 := m.(effects := m.effects + [Fetch(url)]);
    match fetched
    case Err(message) => CatchSpec(m0, id, message)
    case Ok(response) => ResponseSpec(m0, filename, id, response, start)
  }

  /** The reply: a non-ok status and a `null` body go to the catch block;
      otherwise the id is registered and the body is read. */
  function ResponseSpec(m: Manager, filename: Option<string>, id: string, response: StreamResponse, start: int): (Manager, StreamOutcome) {
    if !(200 <= response.status <= 299) then CatchSpec(m, id, HttpMessage(response.status, response.statusText))
    else
      var total := TotalOf(response.contentLength);
      var m1 := m.(effects := m.effects + [Ui(id, Downloading(total))]);
      match response.body
      case None => CatchSpec(m1, id, NoStreamSignal)
      case Some(events) =>
        var e := Scan(events, 0, Loop([], 0, start, []));
        var m2 := Manager(m1.active[id := false], m1.info, m1.effects + SampleEffects(id, total, e.loop.samples));
        FinishSpec(m2, filename, id, e)
  }

  /** After the loop: the cancel click runs `cancelDownload`; a failed read
      and an empty download go to the catch block; otherwise the bytes are
      saved and the id unregistered. */
  function FinishSpec(m: Manager, filename: Option<string>, id: string, e: ScanEnd): (Manager, StreamOutcome) {
    var m1 := if e.stop == CancelRequested then CancelSpec(m, id) else m;
    if e.stop.ReadFailed? then CatchSpec(m1, id, e.stop.message)
    else if e.loop.downloaded == 0 then CatchSpec(m1, id, EmptySignal)
    else
      var bytes := Flatten(e.loop.chunks);
      (Manager(m1.active - {id}, m1.info, m1.effects + [Ui(id, Finished(|bytes|)), Save(SaveName(filename), bytes)]), Completed)
  }

  /** `downloadFileSimple`: any body of an ok reply is saved, even an empty
      one. */
  function SimpleSpec(m: Manager, url: string, filename: Option<string>, id: string,
                      fetched: Result<SimpleResponse, string>): (Manager, StreamOutcome)
  {
    var m1 := m.(effects := m.effects + [Ui(id, SimpleMode), Fetch(url)]);
    match fetched
    case Err(message) => (m1, Thrown(message))
    case Ok(response) =>
      if !(200 <= response.status <= 299) then (m1, Thrown(HttpMessage(response.status, response.statusText)))
      else (m1.(effects := m1.effects + [Ui(id, Finished(|response.blob|)), Save(SaveName(filename), response.blob)]), Completed)
  }

  /** `downloadWithProgress`: create the panel, stream, take the plain path
      on the fall-back signal only, and show any error that escapes. */
  function DownloadSpec(m: Manager, url: string, filename: Option<string>, now: int,
                        streamed: Result<StreamResponse, string>, start: int,
                        simple: Result<SimpleResponse, string>): Manager
  {
    var id := ProgressId(now);
    var (m1, outcome) := StreamSpec(CreateSpec(m, url, filename, now), url, filename, id, streamed, start);
    if outcome == Thrown(FallbackSignal) then
      var (m2, outcome2) := SimpleSpec(m1.(effects := m1.effects + [Ui(id, Switching)]), url, filename, id, simple);
      if outcome2.Thrown? then m2.(effects := m2.effects + [ErrorPanel(outcome2.message)]) else m2
    else if outcome.Thrown? then m1.(effects := m1.effects + [ErrorPanel(outcome.message)])
    else m1
  }

  /** `retryDownload`: only a known id is retried, with its stored url and
      name, by the streaming path alone. */
  function RetrySpec(m: Manager, id: string, fetched: Result<StreamResponse, string>, start: int): Manager {
    if id in m.info then
      var entry := m.info[id];
      StreamSpec(m.(effects := m.effects + [Ui(id, Preparing)]), entry.url, entry.filename, id, fetched, start).0
    else m
  }

  // ---------------------------------------------------------------------
  // Properties of the operations

  /** Every operation keeps every cancelled flag clear. */
  lemma StreamKeepsFlagsClear(m: Manager, url: string, filename: Option<string>, id: string,
                              fetched: Result<StreamResponse, string>, start: int)
    requires NoCancelledFlag(m)
    ensures NoCancelledFlag(StreamSpec(m, url, filename, id, fetched, start).0)
  {
    var m0 := m.(effects := m.effects + [Fetch(url)]);
    match fetched
    case Err(message) =>
      CatchKeepsFlagsClear(m0, id, message);
    case Ok(response) =>
      ResponseKeepsFlagsClear(m0, filename, id, response, start);
  }

  lemma CatchKeepsFlagsClear(m: Manager, id: string, message: string)
    requires NoCancelledFlag(m)
    ensures NoCancelledFlag(CatchSpec(m, id, message).0)
  {
  }

  lemma ResponseKeepsFlagsClear(m: Manager, filename: Option<string>, id: string, response: StreamResponse, start: int)
    requires NoCancelledFlag(m)
    ensures NoCancelledFlag(ResponseSpec(m, filename, id, response, start).0)
  {
    if !(200 <= response.status <= 299) {
      CatchKeepsFlagsClear(m, id, HttpMessage(response.status, response.statusText));
    } else {
      var total := TotalOf(response.contentLength);
      var m1 := m.(effects := m.effects + [Ui(id, Downloading(total))]);
      match response.body
      case None =>
        CatchKeepsFlagsClear(m1, id, NoStreamSignal);
      case Some(events) =>
        var e := Scan(events, 0, Loop([], 0, start, []));
        var m2 := Manager(m1.active[id := false], m1.info, m1.effects + SampleEffects(id, total, e.loop.samples));
        assert NoCancelledFlag(m2);
        FinishKeepsFlagsClear(m2, filename, id, e);
    }
  }

  lemma FinishKeepsFlagsClear(m: Manager, filename: Option<string>, id: string, e: ScanEnd)
    requires NoCancelledFlag(m)
    ensures NoCancelledFlag(FinishSpec(m, filename, id, e).0)
  {
    var m1 := if e.stop == CancelRequested then CancelSpec(m, id) else m;
    assert NoCancelledFlag(m1);
    if e.stop.ReadFailed? {
      CatchKeepsFlagsClear(m1, id, e.stop.message);
    } else if e.loop.downloaded == 0 {
      CatchKeepsFlagsClear(m1, id, EmptySignal);
    }
  }

  /** A non-ok status is rethrown as `HTTP <status>: <text>`, shown as an
      error, and unregisters the id; it does not become the fall-back. */
  lemma HttpErrorIsRethrown(m: Manager, url: string, filename: Option<string>, id: string,
                            response: StreamResponse, start: int)
    requires !(200 <= response.status <= 299)
    ensures var (m1, outcome) := StreamSpec(m, url, filename, id, Ok(response), start);
      && outcome == Thrown(HttpMessage(response.status, response.statusText))
      && id !in m1.active
      && m1.effects[|m1.effects| - 1] == Ui(id, ErrorState(ErrorPrefix + HttpMessage(response.status, response.statusText)))
  {
    var message := HttpMessage(response.status, response.statusText);
    assert message[0] == 'H';
  }

  /** A `null` body asks for the fall-back and registers nothing. */
  lemma NullBodyFallsBack(m: Manager, url: string, filename: Option<string>, id: string,
                          response: StreamResponse, start: int)
    requires 200 <= response.status <= 299 && response.body.None?
    ensures var (m1, outcome) := StreamSpec(m, url, filename, id, Ok(response), start);
      outcome == Thrown(FallbackSignal) && m1.active == m.active
  {
  }

  /** A stream that delivers no byte asks for the fall-back, and leaves its id
      registered in `activeDownloads`. */
  lemma EmptyStreamFallsBack(m: Manager, url: string, filename: Option<string>, id: string,
                             response: StreamResponse, start: int)
    requires 200 <= response.status <= 299 && response.body.Some?
    requires !Scan(response.body.value, 0, Loop([], 0, start, [])).stop.ReadFailed?
    requires Scan(response.body.value, 0, Loop([], 0, start, [])).stop != CancelRequested
    requires Received(response.body.value) == []
    ensures var (m1, outcome) := StreamSpec(m, url, filename, id, Ok(response), start);
      outcome == Thrown(FallbackSignal) && id in m1.active
  {
    var events := response.body.value;
    var e := Scan(events, 0, Loop([], 0, start, []));
    ScanCounts(events, 0, Loop([], 0, start, []));
    ReceivedPrefix(events, e.at);
  }

  /** The bytes received up to a point are a prefix of all bytes received. */
  lemma {:induction false} ReceivedPrefix(events: seq<ReadEvent>, j: nat)
    requires j <= |events|
    ensures |Received(events[..j])| <= |Received(events)|
  {
    if j > 0 {
      ReceivedPrefix(events[1..], j - 1);
      assert events[..j][0] == events[0];
      assert events[..j][1..] == events[1..][..j - 1];
    }
  }

  /** A stream that completes saves exactly the bytes received, the final
      update reports that size as both counter and total, at 100 percent,
      and the id is unregistered. */
  lemma CompletedSavesReceived(m: Manager, url: string, filename: Option<string>, id: string,
                               response: StreamResponse, start: int)
    requires 200 <= response.status <= 299 && response.body.Some?
    requires StreamSpec(m, url, filename, id, Ok(response), start).1 == Completed
    ensures var m1 := StreamSpec(m, url, filename, id, Ok(response), start).0;
      var e := Scan(response.body.value, 0, Loop([], 0, start, []));
      var bytes := Received(response.body.value[..e.at]);
      && |bytes| > 0
      && id !in m1.active
      && m1.effects[|m1.effects| - 2..] == [Ui(id, Finished(|bytes|)), Save(SaveName(filename), bytes)]
  {
    var events := response.body.value;
    var e := Scan(events, 0, Loop([], 0, start, []));
    ScanCounts(events, 0, Loop([], 0, start, []));
    assert events[0..e.at] == events[..e.at];
    var total := TotalOf(response.contentLength);
    var m0 := m.(effects := m.effects + [Fetch(url)]);
    var m1 := m0.(effects := m0.effects + [Ui(id, Downloading(total))]);
    var m2 := Manager(m1.active[id := false], m1.info, m1.effects + SampleEffects(id, total, e.loop.samples));
    assert StreamSpec(m, url, filename, id, Ok(response), start) == FinishSpec(m2, filename, id, e);
    FinishCompleted(m2, filename, id, e);
    assert Flatten([]) + Received(events[..e.at]) == Received(events[..e.at]);
  }

  lemma FinishCompleted(m: Manager, filename: Option<string>, id: string, e: ScanEnd)
    requires FinishSpec(m, filename, id, e).1 == Completed
    ensures var r := FinishSpec(m, filename, id, e).0;
      var bytes := Flatten(e.loop.chunks);
      && id !in r.active
      && r.effects[|r.effects| - 2..] == [Ui(id, Finished(|bytes|)), Save(SaveName(filename), bytes)]
  {
  }

  /** The cancelled flag is never observed: a cancel click ends the stream
      normally, so what was received so far is saved, or the fall-back is
      asked for when nothing was. The error `Tải xuống đã bị hủy` is never
      raised. */
  lemma CancelIsNotAnError(m: Manager, url: string, filename: Option<string>, id: string,
                           response: StreamResponse, start: int)
    requires 200 <= response.status <= 299 && response.body.Some?
    requires Scan(response.body.value, 0, Loop([], 0, start, [])).stop == CancelRequested
    ensures var (m1, outcome) := StreamSpec(m, url, filename, id, Ok(response), start);
      var bytes := Flatten(Scan(response.body.value, 0, Loop([], 0, start, [])).loop.chunks);
      && (bytes == [] ==> outcome == Thrown(FallbackSignal))
      && (bytes != [] ==> outcome == Completed && m1.effects[|m1.effects| - 1] == Save(SaveName(filename), bytes))
      && id !in m1.active
  {
    ScanCounts(response.body.value, 0, Loop([], 0, start, []));
  }

  /** Every progress report of a stream comes more than 200 ms after the
      one before, with a strictly larger counter. */
  lemma ReportsAreThrottled(events: seq<ReadEvent>, start: int)
    ensures var s := Scan(events, 0, Loop([], 0, start, [])).loop.samples;
      && (forall j, k :: 0 <= j < k < |s| ==> s[j].1 + ThrottleMs < s[k].1 && s[j].0 < s[k].0)
      && (forall k :: 0 <= k < |s| ==> start + ThrottleMs < s[k].1)
  {
    ScanThrottled(events, 0, Loop([], 0, start, []), start);
  }

  /** Only the fall-back signal makes `downloadWithProgress` take the plain
      path; any other error is shown in the error panel. */
  lemma FallbackOnlyOnSignal(m: Manager, url: string, filename: Option<string>, now: int,
                             streamed: Result<StreamResponse, string>, start: int,
                             simple: Result<SimpleResponse, string>)
    ensures var id := ProgressId(now);
      var (m1, outcome) := StreamSpec(CreateSpec(m, url, filename, now), url, filename, id, streamed, start);
      var r := DownloadSpec(m, url, filename, now, streamed, start, simple);
      && (outcome == Thrown(FallbackSignal) ==> r.effects[|m1.effects|] == Ui(id, Switching))
      && (outcome.Thrown? && outcome != Thrown(FallbackSignal) ==> r.effects == m1.effects + [ErrorPanel(outcome.message)])
      && (outcome == Completed ==> r == m1)
  {
  }

  /** The plain path saves whatever body an ok reply has, including an
      empty one. */
  lemma SimpleSavesEmptyBody(m: Manager, url: string, filename: Option<string>, id: string, status: int, statusText: string)
    requires 200 <= status <= 299
    ensures var (m1, outcome) := SimpleSpec(m, url, filename, id, Ok(SimpleResponse(status, statusText, [])));
      outcome == Completed && m1.effects[|m1.effects| - 1] == Save(SaveName(filename), [])
  {
  }

  /** A retry of an unknown id does nothing; a retry of a known id requests
      the stored url again, saves only under the stored name, and never
      takes the plain path. */
  lemma RetryHasNoFallback(m: Manager, id: string, fetched: Result<StreamResponse, string>, start: int)
    ensures id !in m.info ==> RetrySpec(m, id, fetched, start) == m
    ensures id in m.info ==> var r := RetrySpec(m, id, fetched, start);
      && r.effects[|m.effects|..|m.effects| + 2] == [Ui(id, Preparing), Fetch(m.info[id].url)]
      && (forall k :: |m.effects| <= k < |r.effects| ==> r.effects[k] != Ui(id, SimpleMode))
      && (forall k :: |m.effects| <= k < |r.effects| && r.effects[k].Save? ==> r.effects[k].name == SaveName(m.info[id].filename))
  {
    if id in m.info {
      var entry := m.info[id];
      var m1 := m.(effects := m.effects + [Ui(id, Preparing)]);
      StreamAppendsNoSimple(m1, entry.url, entry.filename, id, fetched, start);
      PreparingThenStream(m, m1, StreamSpec(m1, entry.url, entry.filename, id, fetched, start).0, id, entry.url, SaveName(entry.filename));
    }
  }

  /** The preparing update, then a stream that starts with its request and
      adds only `StreamEffect`s. */
  lemma PreparingThenStream(m: Manager, m1: Manager, r: Manager, id: string, url: string, name: string)
    requires m1.effects == m.effects + [Ui(id, Preparing)]
    requires |r.effects| > |m1.effects| && r.effects[..|m1.effects| + 1] == m1.effects + [Fetch(url)]
    requires forall k :: |m1.effects| <= k < |r.effects| ==> r.effects[k] != Ui(id, SimpleMode)
    requires forall k :: |m1.effects| <= k < |r.effects| && r.effects[k].Save? ==> r.effects[k].name == name
    ensures r.effects[|m.effects|..|m.effects| + 2] == [Ui(id, Preparing), Fetch(url)]
    ensures forall k :: |m.effects| <= k < |r.effects| ==> r.effects[k] != Ui(id, SimpleMode)
    ensures forall k :: |m.effects| <= k < |r.effects| && r.effects[k].Save? ==> r.effects[k].name == name
  {
    assert r.effects[|m.effects|] == r.effects[..|m1.effects| + 1][|m.effects|];
    assert r.effects[|m1.effects|] == r.effects[..|m1.effects| + 1][|m1.effects|];
  }

  /** An effect the streaming path of `id` may add when it saves under
      `name`: anything but the plain mode, and no save under another name. */
  predicate StreamEffect(e: Effect, id: string, name: string) {
    e != Ui(id, SimpleMode) && (e.Save? ==> e.name == name)
  }

  /** `r` is `m` with effects appended, each a `StreamEffect`. */
  predicate AppendsNoSimple(m: Manager, r: Manager, id: string, name: string) {
    && |m.effects| <= |r.effects| && r.effects[..|m.effects|] == m.effects
    && forall k :: |m.effects| <= k < |r.effects| ==> StreamEffect(r.effects[k], id, name)
  }

  lemma AppendsNoSimpleTrans(a: Manager, b: Manager, c: Manager, id: string, name: string)
    requires AppendsNoSimple(a, b, id, name) && AppendsNoSimple(b, c, id, name)
    ensures AppendsNoSimple(a, c, id, name)
  {
    assert c.effects[..|a.effects|] == c.effects[..|b.effects|][..|a.effects|];
    forall k | |a.effects| <= k < |c.effects| ensures StreamEffect(c.effects[k], id, name) {
      if k < |b.effects| {
        assert c.effects[k] == c.effects[..|b.effects|][k];
      }
    }
  }

  /** Appending effects each of which is a `StreamEffect`. */
  lemma ExtendNoSimple(m: Manager, r: Manager, extra: seq<Effect>, id: string, name: string)
    requires r.effects == m.effects + extra
    requires forall k :: 0 <= k < |extra| ==> StreamEffect(extra[k], id, name)
    ensures AppendsNoSimple(m, r, id, name)
  {
    assert r.effects[..|m.effects|] == m.effects;
    forall k | |m.effects| <= k < |r.effects| ensures StreamEffect(r.effects[k], id, name) {
      assert r.effects[k] == extra[k - |m.effects|];
    }
  }

  lemma CatchAppendsNoSimple(m: Manager, id: string, message: string, name: string)
    ensures AppendsNoSimple(m, CatchSpec(m, id, message).0, id, name)
  {
    if message == NoStreamSignal || message == EmptySignal {
      ExtendNoSimple(m, m, [], id, name);
    } else {
      ExtendNoSimple(m, CatchSpec(m, id, message).0, [Ui(id, ErrorState(ErrorPrefix + message))], id, name);
    }
  }

  lemma FinishAppendsNoSimple(m: Manager, filename: Option<string>, id: string, e: ScanEnd)
    ensures AppendsNoSimple(m, FinishSpec(m, filename, id, e).0, id, SaveName(filename))
  {
    var name := SaveName(filename);
    var m1 := if e.stop == CancelRequested then CancelSpec(m, id) else m;
    if e.stop == CancelRequested && id in m.active {
      ExtendNoSimple(m, m1, [Ui(id, ErrorState(CancelledStatus))], id, name);
    } else {
      ExtendNoSimple(m, m1, [], id, name);
    }
    var r := FinishSpec(m, filename, id, e).0;
    if e.stop.ReadFailed? {
      CatchAppendsNoSimple(m1, id, e.stop.message, name);
    } else if e.loop.downloaded == 0 {
      CatchAppendsNoSimple(m1, id, EmptySignal, name);
    } else {
      var bytes := Flatten(e.loop.chunks);
      ExtendNoSimple(m1, r, [Ui(id, Finished(|bytes|)), Save(name, bytes)], id, name);
    }
    AppendsNoSimpleTrans(m, m1, r, id, name);
  }

  lemma ResponseAppendsNoSimple(m: Manager, filename: Option<string>, id: string, response: StreamResponse, start: int)
    ensures AppendsNoSimple(m, ResponseSpec(m, filename, id, response, start).0, id, SaveName(filename))
  {
    var name := SaveName(filename);
    var r := ResponseSpec(m, filename, id, response, start).0;
    if !(200 <= response.status <= 299) {
      CatchAppendsNoSimple(m, id, HttpMessage(response.status, response.statusText), name);
    } else {
      var total := TotalOf(response.contentLength);
      var m1 := m.(effects := m.effects + [Ui(id, Downloading(total))]);
      ExtendNoSimple(m, m1, [Ui(id, Downloading(total))], id, name);
      match response.body {
        case None =>
          CatchAppendsNoSimple(m1, id, NoStreamSignal, name);
        case Some(events) =>
          var e := Scan(events, 0, Loop([], 0, start, []));
          var samples := SampleEffects(id, total, e.loop.samples);
          var m2 := Manager(m1.active[id := false], m1.info, m1.effects + samples);
          SampleEffectsAreProgress(id, total, e.loop.samples);
          ExtendNoSimple(m1, m2, samples, id, name);
          FinishAppendsNoSimple(m2, filename, id, e);
          AppendsNoSimpleTrans(m1, m2, r, id, name);
      }
      AppendsNoSimpleTrans(m, m1, r, id, name);
    }
  }

  /** The streaming path only appends to the log, starting with its request;
      it never reports the plain mode and saves only under its file name. */
  lemma StreamAppendsNoSimple(m: Manager, url: string, filename: Option<string>, id: string,
                              fetched: Result<StreamResponse, string>, start: int)
    ensures var r := StreamSpec(m, url, filename, id, fetched, start).0;
      && |r.effects| > |m.effects| && r.effects[..|m.effects| + 1] == m.effects + [Fetch(url)]
      && (forall k :: |m.effects| <= k < |r.effects| ==> r.effects[k] != Ui(id, SimpleMode))
      && (forall k :: |m.effects| <= k < |r.effects| && r.effects[k].Save? ==> r.effects[k].name == SaveName(filename))
  {
    var m0 := m.(effects := m.effects + [Fetch(url)]);
    match fetched {
      case Err(message) => CatchAppendsNoSimple(m0, id, message, SaveName(filename));
      case Ok(response) => ResponseAppendsNoSimple(m0, filename, id, response, start);
    }
    FetchThenAppends(m, m0, StreamSpec(m, url, filename, id, fetched, start).0, id, url, SaveName(filename));
  }

  /** A request followed by `StreamEffect`s. */
  lemma FetchThenAppends(m: Manager, m0: Manager, r: Manager, id: string, url: string, name: string)
    requires m0.effects == m.effects + [Fetch(url)]
    requires AppendsNoSimple(m0, r, id, name)
    ensures |r.effects| > |m.effects| && r.effects[..|m.effects| + 1] == m.effects + [Fetch(url)]
    ensures forall k :: |m.effects| <= k < |r.effects| ==> StreamEffect(r.effects[k], id, name)
  {
    assert r.effects[|m.effects|] == r.effects[..|m0.effects|][|m.effects|];
  }

  lemma {:induction false} SampleEffectsAreProgress(id: string, total: Option<int>, samples: seq<(nat, int)>)
    ensures |SampleEffects(id, total, samples)| == |samples|
    ensures forall k :: 0 <= k < |samples| ==> SampleEffects(id, total, samples)[k].Ui?
    ensures forall k :: 0 <= k < |samples| ==> SampleEffects(id, total, samples)[k].update.Progress?
  {
    if samples != [] {
      SampleEffectsAreProgress(id, total, samples[..|samples| - 1]);
    }
  }

  /** A cancel of a registered id unregisters it and shows the cancelled
      state; a cancel of any other id changes nothing. */
  lemma CancelUnregisters(m: Manager, id: string)
    ensures id in m.active ==>
              && CancelSpec(m, id).active == m.active - {id}
              && CancelSpec(m, id).info == m.info
              && CancelSpec(m, id).effects == m.effects + [Ui(id, ErrorState(CancelledStatus))]
    ensures id !in m.active ==> CancelSpec(m, id) == m
  {
  }

  // ---------------------------------------------------------------------
  // The manager

  class DownloadManager {
    var activeDownloads: map<string, bool>
    var downloadInfo: map<string, Entry>
    var effects: seq<Effect>

    function State(): Manager
      reads this
    {
      Manager(activeDownloads, downloadInfo, effects)
    }

    predicate Valid()
      reads this
    {
      NoCancelledFlag(State())
    }

    constructor()
      ensures Valid() && State() == Manager(map[], map[], [])
    {
      activeDownloads := map[];
      downloadInfo := map[];
      effects := [];
    }

    method CreateProgressUI(url: string, filename: Option<string>, now: int) returns (id: string)
      modifies this
      ensures id == ProgressId(now)
      ensures State() == CreateSpec(old(State()), url, filename, now)
    {
      id := "progress-" + IntToString(now);
      effects := effects + [Panel(id, OrElse(filename, "download"))];
      downloadInfo := downloadInfo[id := Entry(url, filename)];
    }

    method CancelDownload(id: string)
      modifies this
      ensures State() == CancelSpec(old(State()), id)
    {
      if id in activeDownloads {
        activeDownloads := activeDownloads - {id};
        effects := effects + [Ui(id, ErrorState(CancelledStatus))];
      }
    }

    /** The catch block: a signal is turned into the fall-back signal, any
        other error is shown and unregisters the id. */
    method Catch(id: string, message: string) returns (outcome: StreamOutcome)
      modifies this
      ensures (State(), outcome) == CatchSpec(old(State()), id, message)
    {
      if message == NoStreamSignal || message == EmptySignal {
        return Thrown(FallbackSignal);
      }
      effects := effects + [Ui(id, ErrorState(ErrorPrefix + message))];
      activeDownloads := activeDownloads - {id};
      outcome := Thrown(message);
    }

    method DownloadFileWithProgress(url: string, filename: Option<string>, id: string,
                                    fetched: Result<StreamResponse, string>, start: int)
      returns (outcome: StreamOutcome)
      requires Valid()
      modifies this
      ensures Valid()
      ensures (State(), outcome) == StreamSpec(old(State()), url, filename, id, fetched, start)
    {
      effects := effects + [Fetch(url)];
      if fetched.Err? {
        outcome := Catch(id, fetched.error);
      } else {
        outcome := HandleResponse(filename, id, fetched.value, start);
      }
    }

    /** The part of `downloadFileWithProgress` after `fetch` resolved. */
    method HandleResponse(filename: Option<string>, id: string, response: StreamResponse, start: int)
      returns (outcome: StreamOutcome)
      requires Valid()
      modifies this
      ensures Valid()
      ensures (State(), outcome) == ResponseSpec(old(State()), filename, id, response, start)
    {
      if !(200 <= response.status <= 299) {
        outcome := Catch(id, HttpMessage(response.status, response.statusText));
        return;
      }
      var total := TotalOf(response.contentLength);
      effects := effects + [Ui(id, Downloading(total))];
      if response.body.None? {
        outcome := Catch(id, NoStreamSignal);
        return;
      }
      activeDownloads := activeDownloads[id := false];
      var e := ReadLoop(id, response.body.value, total, start);
      outcome := Finish(filename, id, e);
    }

    /** The `while (true)` loop over `reader.read()`. */
    method ReadLoop(id: string, events: seq<ReadEvent>, total: Option<int>, start: int) returns (e: ScanEnd)
      requires Valid()
      modifies this
      ensures Valid()
      ensures e == Scan(events, 0, Loop([], 0, start, []))
      ensures State() == Manager(old(activeDownloads), old(downloadInfo), old(effects) + SampleEffects(id, total, e.loop.samples))
    {
      var chunks: seq<seq<bv8>> := [];
      var downloaded: nat := 0;
      var lastUpdate := start;
      var samples: seq<(nat, int)> := [];
      var i := 0;
      while i < |events| && events[i].Chunk?
        invariant 0 <= i <= |events|
        invariant Scan(events, i, Loop(chunks, downloaded, lastUpdate, samples)) == Scan(events, 0, Loop([], 0, start, []))
        invariant effects == old(effects) + SampleEffects(id, total, samples)
        invariant activeDownloads == old(activeDownloads) && downloadInfo == old(downloadInfo)
        decreases |events| - i
      {
        var data := events[i].data;
        ghost var l := Loop(chunks, downloaded, lastUpdate, samples);
        assert Scan(events, i, l) == Scan(events, i + 1, Step(l, data, events[i].now));
        if id in activeDownloads && activeDownloads[id] {
          assert false;
        }
        if |data| > 0 {
          chunks := chunks + [data];
          downloaded := downloaded + |data|;
          var now := events[i].now;
          if now - lastUpdate > ThrottleMs {
            ghost var before := samples;
            samples := samples + [(downloaded, now)];
            assert samples[..|samples| - 1] == before;
            effects := effects + [Ui(id, Progress(downloaded, total, Percent(downloaded, total)))];
            lastUpdate := now;
          }
        }
        assert Loop(chunks, downloaded, lastUpdate, samples) == Step(l, data, events[i].now);
        i := i + 1;
      }
      var stop := if i == |events| || events[i].Done? then Ended
                  else if events[i].UserCancel? then CancelRequested
                  else ReadFailed(events[i].message);
      e := ScanEnd(stop, i, Loop(chunks, downloaded, lastUpdate, samples));
    }

    /** What follows the loop: the read that ended it, then the save. */
    method Finish(filename: Option<string>, id: string, e: ScanEnd) returns (outcome: StreamOutcome)
      requires Valid()
      modifies this
      ensures Valid()
      ensures (State(), outcome) == FinishSpec(old(State()), filename, id, e)
    {
      if e.stop == CancelRequested {
        CancelDownload(id);
      }
      if id in activeDownloads && activeDownloads[id] {
        assert false;
      }
      if e.stop.ReadFailed? {
        outcome := Catch(id, e.stop.message);
        return;
      }
      if e.loop.downloaded == 0 {
        outcome := Catch(id, EmptySignal);
        return;
      }
      var blob := Flatten(e.loop.chunks);
      effects := effects + [Ui(id, Finished(|blob|)), Save(OrElse(filename, "download"), blob)];
      activeDownloads := activeDownloads - {id};
      outcome := Completed;
    }

    method DownloadFileSimple(url: string, filename: Option<string>, id: string,
                              fetched: Result<SimpleResponse, string>)
      returns (outcome: StreamOutcome)
      modifies this
      ensures (State(), outcome) == SimpleSpec(old(State()), url, filename, id, fetched)
    {
      effects := effects + [Ui(id, SimpleMode), Fetch(url)];
      if fetched.Err? {
        return Thrown(fetched.error);
      }
      var response := fetched.value;
      if !(200 <= response.status <= 299) {
        return Thrown(HttpMessage(response.status, response.statusText));
      }
      effects := effects + [Ui(id, Finished(|response.blob|)), Save(OrElse(filename, "download"), response.blob)];
      outcome := Completed;
    }

    method DownloadWithProgress(url: string, filename: Option<string>, now: int,
                                streamed: Result<StreamResponse, string>, start: int,
                                simple: Result<SimpleResponse, string>)
      requires Valid()
      modifies this
      ensures Valid()
      ensures State() == DownloadSpec(old(State()), url, filename, now, streamed, start, simple)
    {
      var id := CreateProgressUI(url, filename, now);
      var outcome := DownloadFileWithProgress(url, filename, id, streamed, start);
      if outcome == Thrown(FallbackSignal) {
        effects := effects + [Ui(id, Switching)];
        var outcome2 := DownloadFileSimple(url, filename, id, simple);
        if outcome2.Thrown? {
          effects := effects + [ErrorPanel(outcome2.message)];
        }
      } else if outcome.Thrown? {
        effects := effects + [ErrorPanel(outcome.message)];
      }
    }

    method RetryDownload(id: string, fetched: Result<StreamResponse, string>, start: int)
      requires Valid()
      modifies this
      ensures Valid()
      ensures State() == RetrySpec(old(State()), id, fetched, start)
    {
      if id in downloadInfo {
        var entry := downloadInfo[id];
        effects := effects + [Ui(id, Preparing)];
        // The returned promise is not awaited: its outcome is dropped.
        var _ := DownloadFileWithProgress(entry.url, entry.filename, id, fetched, start);
      }
    }
  }
}
