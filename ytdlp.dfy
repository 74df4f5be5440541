/** ytdlp-service/app.py: the Flask service that answers `/api/youtube` with a
    Cobalt-style `tunnel` reply built from what yt-dlp extracts. The
    extractor (`YoutubeDL.extract_info`) is a parameter: given the URL and the
    quality it yields the info dictionary, nothing, or the exception it
    raised. Dictionaries are records whose fields may be absent or `None`. */
module YtDlp {
  import opened Wrappers
  import opened Strings
  import opened Responses
  import Api
  import Single

  /** A value read from a Python dictionary with `.get`: the key is absent,
      or maps to `None`, or to a value. */
  datatype Field<+T> = Absent | Null | Present(value: T)

  /** One entry of `info['formats']`. */
  datatype Format = Format(url: Field<string>, vcodec: Field<string>, acodec: Field<string>,
                           height: Field<int>, ext: Option<string>)

  /** The fields of the info dictionary the service reads. */
  datatype InfoDict = InfoDict(title: Field<string>, duration: Field<int>, thumbnail: Option<string>,
                               formats: Field<seq<Format>>)

  /** What `extract_info` gives: an exception's message, or its return value
      (`None` for a falsy one). */
  datatype Extraction = Raised(message: string) | Returned(info: Option<InfoDict>)

  // ---------------------------------------------------------------------
  // Stream selection

  /** `f.get('url')` is truthy. */
  predicate HasUrl(f: Format) {
    f.url.Present? && f.url.value != ""
  }

  /** The test of the loop for the video (`vcodec`) or audio (`acodec`)
      stream; an absent codec is not `'none'`, so it passes. */
  predicate Carries(f: Format, video: bool) {
    if video then f.vcodec != Present("none") else f.acodec != Present("none")
  }

  /** Format `k` is the first one with a url that carries the stream. */
  predicate FirstCarrier(formats: seq<Format>, video: bool, k: int) {
    && 0 <= k < |formats| && HasUrl(formats[k]) && Carries(formats[k], video)
    && forall j :: 0 <= j < k ==> !(HasUrl(formats[j]) && Carries(formats[j], video))
  }

  /** The url the loop settles on for one stream. */
  function FirstStream(formats: seq<Format>, video: bool): (r: Option<string>)
    ensures r.None? <==> forall k :: 0 <= k < |formats| ==> !(HasUrl(formats[k]) && Carries(formats[k], video))
    ensures r.Some? ==> exists k :: FirstCarrier(formats, video, k) && formats[k].url.value == r.value
  {
    if formats == [] then None
    else
      var prefix := formats[..|formats| - 1];
      var before := FirstStream(prefix, video);
      var last := formats[|formats| - 1];
      if before.Some? then
        var k :| FirstCarrier(prefix, video, k) && prefix[k].url.value == before.value;
        assert FirstCarrier(formats, video, k);
        before
      else if HasUrl(last) && Carries(last, video) then
        assert FirstCarrier(formats, video, |formats| - 1);
        Some(last.url.value)
      else None
  }

  /** A selected stream url is never empty. */
  lemma SelectedUrlNonEmpty(formats: seq<Format>, video: bool)
    ensures FirstStream(formats, video).Some? ==> FirstStream(formats, video).value != ""
  {
    if FirstStream(formats, video).Some? {
      var k :| FirstCarrier(formats, video, k) && formats[k].url.value == FirstStream(formats, video).value;
    }
  }

  /** The `for f in formats` loop of `get_video_info`. */
  method SelectStreams(formats: seq<Format>) returns (videoUrl: Option<string>, audioUrl: Option<string>)
    ensures videoUrl == FirstStream(formats, true)
    ensures audioUrl == FirstStream(formats, false)
  {
    videoUrl := None;
    audioUrl := None;
    for i := 0 to |formats|
      invariant videoUrl == FirstStream(formats[..i], true)
      invariant audioUrl == FirstStream(formats[..i], false)
    {
      assert formats[..i + 1][..i] == formats[..i];
      var f := formats[i];
      if !HasUrl(f) {
        continue;
      }
      if f.vcodec != Present("none") && videoUrl.None? {
        videoUrl := Some(f.url.value);
      }
      if f.acodec != Present("none") && audioUrl.None? {
        audioUrl := Some(f.url.value);
      }
    }
    assert formats[..|formats|] == formats;
  }

  // ---------------------------------------------------------------------
  // The format summary

  /** `f.get('height', 'audio')`. */
  datatype Quality = Height(h: int) | NullHeight | AudioLabel

  /** One entry of the `formats` summary. */
  datatype FormatEntry = FormatEntry(quality: Quality, ext: Option<string>, url: string)

  function EntryOf(f: Format): FormatEntry
    requires HasUrl(f)
  {
    var quality := match f.height case Absent => AudioLabel case Null => NullHeight case Present(h) => Height(h);
    FormatEntry(quality, f.ext, f.url.value)
  }

  /** `[... for f in formats if f.get('url')]`. */
  function KeepWithUrl(formats: seq<Format>): (r: seq<FormatEntry>)
    ensures |r| <= |formats|
    ensures forall k :: 0 <= k < |r| ==> r[k].url != ""
    ensures forall k :: 0 <= k < |r| ==> exists j :: 0 <= j < |formats| && HasUrl(formats[j]) && r[k] == EntryOf(formats[j])
    ensures forall j :: 0 <= j < |formats| && HasUrl(formats[j]) ==> EntryOf(formats[j]) in r
  {
    if formats == [] then []
    else
      var rest := KeepWithUrl(formats[1..]);
      assert forall j :: 0 <= j < |formats[1..]| ==> formats[1..][j] == formats[j + 1];
      if HasUrl(formats[0]) then [EntryOf(formats[0])] + rest else rest
  }

  /** The `formats` summary: from the first five formats, those with a url. */
  function FormatsSummary(formats: seq<Format>): (r: seq<FormatEntry>)
    ensures |r| <= 5
  {
    KeepWithUrl(if |formats| <= 5 then formats else formats[..5])
  }

  /** `e` is the entry of one of the first five formats, one with a url. */
  predicate FromFirstFive(formats: seq<Format>, e: FormatEntry) {
    exists j :: 0 <= j < 5 && j < |formats| && HasUrl(formats[j]) && e == EntryOf(formats[j])
  }

  /** Every summary entry comes from one of the first five formats, and each
      of those with a url is listed. */
  lemma SummaryFromFirstFive(formats: seq<Format>)
    ensures forall k :: 0 <= k < |FormatsSummary(formats)| ==> FromFirstFive(formats, FormatsSummary(formats)[k])
    ensures forall j :: 0 <= j < 5 && j < |formats| && HasUrl(formats[j]) ==> EntryOf(formats[j]) in FormatsSummary(formats)
  {
    var head := if |formats| <= 5 then formats else formats[..5];
    var r := KeepWithUrl(head);
    assert forall j :: 0 <= j < |head| ==> head[j] == formats[j];
    assert FormatsSummary(formats) == r;
    forall k | 0 <= k < |r|
      ensures FromFirstFive(formats, r[k])
    {
      KeptFromFormat(head, k);
      var j :| 0 <= j < |head| && HasUrl(head[j]) && r[k] == EntryOf(head[j]);
      assert head[j] == formats[j];
    }
  }

  /** Entry `k` of the comprehension is the entry of a format with a url. */
  lemma KeptFromFormat(formats: seq<Format>, k: nat)
    requires k < |KeepWithUrl(formats)|
    ensures exists j :: 0 <= j < |formats| && HasUrl(formats[j]) && KeepWithUrl(formats)[k] == EntryOf(formats[j])
  {
  }

  // ---------------------------------------------------------------------
  // get_video_info

  /** The dictionary `get_video_info` returns. */
  datatype VideoInfo =
    | InfoSuccess(title: Option<string>, duration: Option<int>, thumbnail: Option<string>,
                  videoUrl: Option<string>, audioUrl: Option<string>, formats: seq<FormatEntry>)
    | InfoError(message: string)

  const NoInfoMessage: string := "Could not extract video info"

  /** The `TypeError` of iterating over `None`. */
  const NoneNotIterable: string := "'NoneType' object is not iterable"

  /** `info.get(key, default)`. */
  function GetOr<T>(f: Field<T>, default: T): Option<T> {
    match f
    case Absent => Some(default)
    case Null => None
    case Present(v) => Some(v)
  }

  /** What `get_video_info` returns for what the extractor gave. */
  function VideoInfoSpec(extraction: Extraction): VideoInfo {
    match extraction
    case Raised(m) => InfoError(m)
    case Returned(None) => InfoError(NoInfoMessage)
    case Returned(Some(info)) =>
      match info.formats
      case Null => InfoError(NoneNotIterable)
      case _ =>
        var formats := if info.formats.Present? then info.formats.value else [];
        InfoSuccess(GetOr(info.title, "Unknown"), GetOr(info.duration, 0), info.thumbnail,
                    FirstStream(formats, true), FirstStream(formats, false), FormatsSummary(formats))
  }

  /** `get_video_info(url, quality)`, the extraction already done. */
  method GetVideoInfo(extraction: Extraction) returns (r: VideoInfo)
    ensures r == VideoInfoSpec(extraction)
  {
    if extraction.Raised? {
      return InfoError(extraction.message);
    }
    if extraction.info.None? {
      return InfoError(NoInfoMessage);
    }
    var info := extraction.info.value;
    if info.formats.Null? {
      return InfoError(NoneNotIterable);
    }
    var formats := if info.formats.Present? then info.formats.value else [];
    var videoUrl, audioUrl := SelectStreams(formats);
    r := InfoSuccess(GetOr(info.title, "Unknown"), GetOr(info.duration, 0), info.thumbnail,
                     videoUrl, audioUrl, FormatsSummary(formats));
  }

  // ---------------------------------------------------------------------
  // download_youtube

  /** The body of a reply of the service. */
  datatype ServiceBody =
    | ErrorBody(error: string)
    | Tunnel(url: Option<string>, audio: Option<string>, filename: string,
             title: Option<string>, duration: Option<int>, thumbnail: Option<string>)

  /** A reply: HTTP status and JSON body. */
  datatype ServiceResponse = ServiceResponse(status: int, body: ServiceBody)

  const MissingUrlText: string := "Missing URL parameter"
  const InvalidUrlText: string := "Invalid YouTube URL"
  const DefaultQuality: string := "720"

  /** Python's name of the type of a non-string JSON value. */
  function PythonTypeName(v: JsValue): string {
    match v
    case Bool(_) => "bool"
    case Num(_) => "int"
    case _ => "NoneType"
  }

  /** `f"{title}.mp4"`, where a `None` title prints as `None`. */
  function TunnelFilename(title: Option<string>): string {
    (if title.Some? then title.value else "None") + ".mp4"
  }

  /** What `download_youtube` answers for the request's JSON object (`None`
      when there is none), with `extract` standing for yt-dlp. */
  function DownloadSpec(body: Option<map<string, JsValue>>, extract: (string, JsValue) -> Extraction): ServiceResponse {
    if body.None? || body.value == map[] || "url" !in body.value then ServiceResponse(400, ErrorBody(MissingUrlText))
    else
      var quality := if "quality" in body.value then body.value["quality"] else Str(DefaultQuality);
      match body.value["url"]
      case Str(url) =>
        if !Contains(url, "youtube.com") && !Contains(url, "youtu.be") then ServiceResponse(400, ErrorBody(InvalidUrlText))
        else
          (match VideoInfoSpec(extract(url, quality))
           case InfoError(m) => ServiceResponse(500, ErrorBody(m))
           case InfoSuccess(title, duration, thumbnail, videoUrl, audioUrl, _) =>
             ServiceResponse(200, Tunnel(videoUrl, audioUrl, TunnelFilename(title), title, duration, thumbnail)))
      case other =>
        // `'youtube.com' not in url` raises a TypeError on a non-string
        ServiceResponse(500, ErrorBody("Server error: argument of type '" + PythonTypeName(other) + "' is not iterable"))
  }

  /** `download_youtube()`. */
  method DownloadYoutube(body: Option<map<string, JsValue>>, extract: (string, JsValue) -> Extraction)
    returns (response: ServiceResponse)
    ensures response == DownloadSpec(body, extract)
  {
    if body.None? || body.value == map[] || "url" !in body.value {
      return ServiceResponse(400, ErrorBody(MissingUrlText));
    }
    var data := body.value;
    var quality := if "quality" in data then data["quality"] else Str(DefaultQuality);
    if !data["url"].Str? {
      return ServiceResponse(500, ErrorBody("Server error: argument of type '" + PythonTypeName(data["url"]) + "' is not iterable"));
    }
    var url := data["url"].s;
    if !Contains(url, "youtube.com") && !Contains(url, "youtu.be") {
      return ServiceResponse(400, ErrorBody(InvalidUrlText));
    }
    var result := GetVideoInfo(extract(url, quality));
    if result.InfoError? {
      return ServiceResponse(500, ErrorBody(result.message));
    }
    response := ServiceResponse(200, Tunnel(result.videoUrl, result.audioUrl, TunnelFilename(result.title),
                                            result.title, result.duration, result.thumbnail));
  }

  // ---------------------------------------------------------------------
  // Properties

  /** The 400 replies: exactly the requests without a `url`, and the string
      urls naming neither YouTube host. */
  lemma ValidationReplies(body: Option<map<string, JsValue>>, extract: (string, JsValue) -> Extraction)
    ensures DownloadSpec(body, extract).status == 400 <==>
              || body.None? || "url" !in body.value
              || (body.value["url"].Str? && !Contains(body.value["url"].s, "youtube.com")
                  && !Contains(body.value["url"].s, "youtu.be"))
    ensures body.None? || "url" !in body.value ==> DownloadSpec(body, extract) == ServiceResponse(400, ErrorBody(MissingUrlText))
  {
    if body.Some? && "url" in body.value {
      assert body.value != map[];
    }
  }

  /** Without a `quality`, the extractor is asked for 720: the reply is the
      one for an explicit `'720'`. */
  lemma QualityDefaults(body: map<string, JsValue>, extract: (string, JsValue) -> Extraction)
    requires "url" in body && "quality" !in body
    ensures DownloadSpec(Some(body), extract) == DownloadSpec(Some(body["quality" := Str(DefaultQuality)]), extract)
  {
    var explicit := body["quality" := Str(DefaultQuality)];
    assert explicit["url"] == body["url"];
    assert explicit != map[];
  }

  /** A 200 reply is a tunnel whose url and audio are the first video and
      audio streams with a url, named after the title. */
  lemma TunnelReply(body: Option<map<string, JsValue>>, extract: (string, JsValue) -> Extraction)
    requires DownloadSpec(body, extract).status == 200
    ensures body.Some? && "url" in body.value && body.value["url"].Str?
    ensures var url := body.value["url"].s;
            var quality := if "quality" in body.value then body.value["quality"] else Str(DefaultQuality);
            var e := extract(url, quality);
            && e.Returned? && e.info.Some? && !e.info.value.formats.Null?
            && var formats := if e.info.value.formats.Present? then e.info.value.formats.value else [];
               DownloadSpec(body, extract).body == Tunnel(
                 FirstStream(formats, true), FirstStream(formats, false),
                 TunnelFilename(GetOr(e.info.value.title, "Unknown")),
                 GetOr(e.info.value.title, "Unknown"), GetOr(e.info.value.duration, 0), e.info.value.thumbnail)
  {
  }

  /** Extraction failures, a missing info dictionary included, are 500s with
      the message. */
  lemma ExtractionFailures(url: string, quality: JsValue, extract: (string, JsValue) -> Extraction)
    requires Contains(url, "youtube.com") || Contains(url, "youtu.be")
    requires extract(url, quality).Raised? || extract(url, quality) == Returned(None)
    ensures var body := map["url" := Str(url), "quality" := quality];
            DownloadSpec(Some(body), extract) ==
              ServiceResponse(500, ErrorBody(if extract(url, quality).Raised? then extract(url, quality).message else NoInfoMessage))
  {
    var body := map["url" := Str(url), "quality" := quality];
    assert "url" in body && body != map[];
  }

  /** The interface reads the tunnel reply as a Cobalt `tunnel` reply. */
  function AsReply(body: ServiceBody): Reply
    requires body.Tunnel?
  {
    Reply(Some("tunnel"), body.url, Some(body.filename), None, body.audio, None, None)
  }

  /** The single view shows a download link for a successful reply exactly
      when a video stream was found, and links that stream. */
  lemma TunnelShownAsLink(body: Option<map<string, JsValue>>, extract: (string, JsValue) -> Extraction)
    requires DownloadSpec(body, extract).status == 200
    ensures var reply := DownloadSpec(body, extract).body;
            && reply.Tunnel?
            && (Single.Process(Ok(Object(AsReply(reply)))).LinkView? <==> reply.url.Some?)
            && (reply.url.Some? ==> Single.Process(Ok(Object(AsReply(reply)))).link.url == reply.url.value)
  {
    TunnelReply(body, extract);
    var url := body.value["url"].s;
    var quality := if "quality" in body.value then body.value["quality"] else Str(DefaultQuality);
    var e := extract(url, quality);
    var formats := if e.info.value.formats.Present? then e.info.value.formats.value else [];
    SelectedUrlNonEmpty(formats, true);
  }

  /** A `youtube-nocookie.com` URL from which no video id can be extracted
      is routed to this service by the interface, unchanged, and the service
      rejects it: its text names neither of the two hosts the service
      accepts. */
  lemma NoCookieUrlRejected(u: Api.UrlInput, options: map<string, JsValue>, origin: string, token: Option<string>,
                            extract: (string, JsValue) -> Extraction)
    requires u.parsed.Some?
    requires Contains(ToLower(u.parsed.value.host), "youtube-nocookie.com")
    requires !Contains(ToLower(u.parsed.value.host), "youtu.be") && !Contains(ToLower(u.parsed.value.host), "youtube.com")
    requires !Contains(u.raw, "youtube.com") && !Contains(u.raw, "youtu.be")
    ensures Api.BuildRequest(u, options, origin, token).endpoint == Api.YouTubeEndpoint
    ensures DownloadSpec(Some(Api.BuildRequest(u, options, origin, token).body), extract)
            == ServiceResponse(400, ErrorBody(InvalidUrlText))
  {
    var request := Api.BuildRequest(u, options, origin, token);
    assert request.body["url"] == Str(u.raw);
    assert "url" in request.body && request.body != map[];
  }
}
