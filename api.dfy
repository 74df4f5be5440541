/** web-interface/js/api.js: the `ApiService` that routes a URL either to the
    yt-dlp service or to the Cobalt API, builds the request and maps a non-ok
    reply to an error message. The WHATWG URL parser is abstracted: a URL
    comes with the record the parser made of it, or with `None` when the
    parser threw. */
module Api {
  import opened Wrappers
  import opened Strings
  import opened Responses
  import Config

  // ---------------------------------------------------------------------
  // URLs

  /** The parts of a parsed URL the service reads: the host name, the path
      and the decoded query pairs in order. */
  datatype ParsedUrl = ParsedUrl(host: string, path: string, query: seq<(string, string)>)

  /** A URL as the user typed it, with the parser's record of it. */
  datatype UrlInput = UrlInput(raw: string, parsed: Option<ParsedUrl>)

  /** `searchParams.get(name)`: the value of the first pair named `name`. */
  function QueryGet(query: seq<(string, string)>, name: string): (r: Option<string>)
    ensures r.None? <==> forall k :: 0 <= k < |query| ==> query[k].0 != name
    ensures r.Some? ==> exists k :: FirstNamed(query, name, k) && query[k].1 == r.value
  {
    if query == [] then None
    else if query[0].0 == name then Some(query[0].1)
    else
      var r := QueryGet(query[1..], name);
      if r.Some? then
        var k :| FirstNamed(query[1..], name, k) && query[1..][k].1 == r.value;
        assert FirstNamed(query, name, k + 1);
        r
      else r
  }

  /** Pair `k` is the first pair named `name`. */
  predicate FirstNamed(query: seq<(string, string)>, name: string, k: int) {
    0 <= k < |query| && query[k].0 == name && forall j :: 0 <= j < k ==> query[j].0 != name
  }

  /** `isYouTubeUrl`: a substring test on the lower-cased host name, or on
      the raw text when the URL does not parse (without the nocookie host). */
  predicate IsYouTubeUrl(u: UrlInput) {
    match u.parsed
    case Some(p) =>
      var host := ToLower(p.host);
      Contains(host, "youtube.com") || Contains(host, "youtu.be") || Contains(host, "youtube-nocookie.com")
    case None => Contains(u.raw, "youtube.com") || Contains(u.raw, "youtu.be")
  }

  const ShortPrefix: string := "https://youtu.be/"
  const WatchPrefix: string := "https://www.youtube.com/watch?v="

  /** The video id `cleanYouTubeUrl` extracts, tagged with the form it is
      put back in: `true` for the short `youtu.be` form. */
  function VideoId(u: UrlInput): (r: Option<(bool, string)>)
    ensures r.Some? ==> u.parsed.Some? && r.value.1 != ""
    ensures r.Some? && r.value.0 ==> Contains(ToLower(u.parsed.value.host), "youtu.be")
    ensures r.Some? && !r.value.0 ==>
              && Contains(ToLower(u.parsed.value.host), "youtube.com")
              && !Contains(ToLower(u.parsed.value.host), "youtu.be")
              && QueryGet(u.parsed.value.query, "v") == Some(r.value.1)
  {
    match u.parsed
    case None => None
    case Some(p) =>
      var host := ToLower(p.host);
      if Contains(host, "youtu.be") then
        var segments := Split(p.path, {'/'});
        if |segments| > 1 && segments[1] != "" then Some((true, segments[1])) else None
      else if Contains(host, "youtube.com") then
        var v := QueryGet(p.query, "v");
        if Truthy(v) then Some((false, v.value)) else None
      else None
  }

  /** `cleanYouTubeUrl`: the canonical URL of the video id, or the input
      unchanged when no id can be extracted. */
  function CleanYouTubeUrl(u: UrlInput): (r: string)
    ensures VideoId(u).None? ==> r == u.raw
    ensures VideoId(u).Some? && VideoId(u).value.0 ==> r == ShortPrefix + VideoId(u).value.1
    ensures VideoId(u).Some? && !VideoId(u).value.0 ==> r == WatchPrefix + VideoId(u).value.1
  {
    match VideoId(u)
    case None => u.raw
    case Some((short, id)) => if short then ShortPrefix + id else WatchPrefix + id
  }

  /** Only a YouTube URL is ever rewritten. */
  lemma CleanOnlyYouTube(u: UrlInput)
    requires CleanYouTubeUrl(u) != u.raw
    ensures IsYouTubeUrl(u)
  {
  }

  /** A host containing both `youtu.be` and `youtube.com` is cleaned to the
      short form: the `youtu.be` branch is tested first. */
  lemma ShortFormTestedFirst(u: UrlInput)
    requires u.parsed.Some?
    requires Contains(ToLower(u.parsed.value.host), "youtu.be")
    ensures CleanYouTubeUrl(u) == u.raw || StartsWith(CleanYouTubeUrl(u), ShortPrefix)
  {
  }

  /** Cleaning is idempotent on the short form: once the parser reads the
      cleaned text back as host `youtu.be` and path `/<id>`, cleaning it
      again changes nothing. */
  lemma {:induction false} CleanShortIdempotent(u: UrlInput, query: seq<(string, string)>)
    requires VideoId(u).Some? && VideoId(u).value.0
    ensures var id := VideoId(u).value.1;
      var again := UrlInput(CleanYouTubeUrl(u), Some(ParsedUrl("youtu.be", "/" + id, query)));
      CleanYouTubeUrl(again) == CleanYouTubeUrl(u)
  {
    var id := VideoId(u).value.1;
    var segments := Split(Split(u.parsed.value.path, {'/'})[1], {'/'});
    SplitNoSeparator(Split(u.parsed.value.path, {'/'})[1], {'/'});
    SplitAfterPiece("", '/', id, {'/'});
    assert "" + ['/'] + id == "/" + id;
    SplitNoSeparator(id, {'/'});
    assert ToLower("youtu.be") == "youtu.be";
    assert OccursAt("youtu.be", "youtu.be", 0);
  }

  /** The ids the watch form carries through unchanged: `cleanYouTubeUrl`
      puts the decoded value of `v` back without encoding it, so an id must
      avoid the query separators `&` and `#`, the `+` and `%` the query
      decoder rewrites, and white space. */
  predicate PlainQueryValue(id: string) {
    forall i :: 0 <= i < |id| ==> id[i] !in {'&', '#', '+', '%'} && !IsJsSpace(id[i])
  }

  /** Cleaning is idempotent on the watch form for a plain id: the parser
      reads the cleaned text back as host `www.youtube.com` with the single
      pair `v=<id>`, and cleaning it again changes nothing. */
  lemma CleanWatchIdempotent(u: UrlInput, path: string)
    requires VideoId(u).Some? && !VideoId(u).value.0
    requires PlainQueryValue(VideoId(u).value.1)
    ensures var id := VideoId(u).value.1;
      var again := UrlInput(CleanYouTubeUrl(u), Some(ParsedUrl("www.youtube.com", path, [("v", id)])));
      CleanYouTubeUrl(again) == CleanYouTubeUrl(u)
  {
    var host := "www.youtube.com";
    assert ToLower(host) == host;
    assert OccursAt(host, "youtube.com", 4);
    NoShortHost();
  }

  /** Without the encoding, an id holding `&` is not carried through:
      `watch?v=a%26b` has the id `a&b`, its cleaned form `watch?v=a&b` reads
      back as the pairs `v=a` and `b=`, and cleaning that gives `watch?v=a`. */
  lemma CleanWatchNotIdempotent()
    ensures var u := UrlInput("https://www.youtube.com/watch?v=a%26b",
                              Some(ParsedUrl("www.youtube.com", "/watch", [("v", "a&b")])));
      var again := UrlInput(CleanYouTubeUrl(u), Some(ParsedUrl("www.youtube.com", "/watch", [("v", "a"), ("b", "")])));
      && CleanYouTubeUrl(u) == WatchPrefix + "a&b"
      && CleanYouTubeUrl(again) == WatchPrefix + "a"
      && CleanYouTubeUrl(again) != CleanYouTubeUrl(u)
  {
    var host := "www.youtube.com";
    assert ToLower(host) == host;
    assert OccursAt(host, "youtube.com", 4);
    NoShortHost();
    assert (WatchPrefix + "a&b")[|WatchPrefix|] == 'a';
    assert |WatchPrefix + "a&b"| != |WatchPrefix + "a"|;
  }

  /** `www.youtube.com` does not contain `youtu.be`. */
  lemma NoShortHost()
    ensures !Contains("www.youtube.com", "youtu.be")
  {
    var host := "www.youtube.com";
    forall i | 0 <= i <= |host| ensures !OccursAt(host, "youtu.be", i) {
      if i + 8 <= |host| {
        var w := host[i..i + 8];
        assert w[0] == host[i] && w[5] == host[i + 5];
        if i == 4 {
          assert w[5] != '.';
        } else {
          assert i == 0 || i == 1 || i == 2 || i == 3 || i == 5 || i == 6 || i == 7;
          assert w[0] != 'y';
        }
      }
    }
  }

  // ---------------------------------------------------------------------
  // Requests

  /** The Cobalt request parameters `processUrl` passes on. */
  const ValidParams: set<string> := {"url", "videoQuality", "downloadMode", "filenameStyle"}

  /** The Cobalt request body: `url`, then every whitelisted option whose
      value is present; an option `url` replaces the given URL. */
  function CobaltBody(url: string, options: map<string, JsValue>): (r: map<string, JsValue>)
    ensures "url" in r && r.Keys <= ValidParams
    ensures forall k :: k in ValidParams && k != "url" ==>
      (k in r <==> k in options && Present(options[k]))
    ensures forall k :: k in r && k != "url" ==> Present(r[k])
    ensures forall k :: k in r && k in options && Present(options[k]) ==> r[k] == options[k]
    ensures ("url" !in options || !Present(options["url"])) ==> r["url"] == Str(url)
  {
    map k | k in ValidParams && (k == "url" || (k in options && Present(options[k])))
      :: if k in options && Present(options[k]) then options[k] else Str(url)
  }

  /** The `forEach` over the option keys that fills in `requestData`. */
  method BuildCobaltBody(url: string, options: map<string, JsValue>) returns (body: map<string, JsValue>)
    ensures body == CobaltBody(url, options)
  {
    body := map["url" := Str(url)];
    var todo := options.Keys;
    while todo != {}
      invariant todo <= options.Keys
      invariant "url" in body && body.Keys <= ValidParams
      invariant forall k :: k in ValidParams && k != "url" ==>
                  (k in body <==> k in options && k !in todo && Present(options[k]))
      invariant forall k :: k in body && k in options && k !in todo && Present(options[k]) ==> body[k] == options[k]
      invariant forall k :: k in body && !(k in options && k !in todo && Present(options[k])) ==> body[k] == Str(url)
      decreases |todo|
    {
      var key :| key in todo;
      if key in ValidParams {
        var value := options[key];
        if Present(value) {
          body := body[key := value];
        }
      }
      todo := todo - {key};
    }
    var spec := CobaltBody(url, options);
    assert body.Keys == spec.Keys;
    assert forall k :: k in body ==> body[k] == spec[k];
  }

  /** The request `processUrl` sends. */
  datatype Request = Request(endpoint: string, body: map<string, JsValue>, headers: map<string, string>)

  const YouTubeEndpoint: string := "/api/youtube"
  const CobaltEndpoint: string := "/api/"

  /** The fixed headers, plus `Authorization` only for Cobalt. */
  function RequestHeaders(origin: string, authToken: Option<string>, youTube: bool): (r: map<string, string>)
    ensures "Authorization" in r <==> authToken.Some? && !youTube
    ensures "Authorization" in r ==> r["Authorization"] == authToken.value
    ensures "Accept" in r && "Content-Type" in r && "Origin" in r
    ensures r["Accept"] == "application/json" && r["Content-Type"] == "application/json" && r["Origin"] == origin
  {
    var fixed := map["Accept" := "application/json", "Content-Type" := "application/json", "Origin" := origin];
    if authToken.Some? && !youTube then fixed["Authorization" := authToken.value] else fixed
  }

  /** `options.videoQuality || '720'`. */
  function YouTubeQuality(options: map<string, JsValue>): (r: JsValue)
    ensures JsTruthy(r)
    ensures "videoQuality" in options && JsTruthy(options["videoQuality"]) ==> r == options["videoQuality"]
  {
    if "videoQuality" in options && JsTruthy(options["videoQuality"]) then options["videoQuality"] else Str("720")
  }

  /** The request for a URL and the options of the form. */
  function BuildRequest(url: UrlInput, options: map<string, JsValue>, origin: string, authToken: Option<string>): (r: Request)
    ensures IsYouTubeUrl(url) ==>
              && r.endpoint == YouTubeEndpoint
              && r.body.Keys == {"url", "quality"}
              && r.body["url"] == Str(CleanYouTubeUrl(url))
              && r.body["quality"] == YouTubeQuality(options)
    ensures !IsYouTubeUrl(url) ==> r.endpoint == CobaltEndpoint && r.body == CobaltBody(url.raw, options)
    ensures "Authorization" in r.headers <==> authToken.Some? && !IsYouTubeUrl(url)
  {
    var youTube := IsYouTubeUrl(url);
    var headers := RequestHeaders(origin, authToken, youTube);
    if youTube then
      Request(YouTubeEndpoint, map["url" := Str(CleanYouTubeUrl(url)), "quality" := YouTubeQuality(options)], headers)
    else
      Request(CobaltEndpoint, CobaltBody(url.raw, options), headers)
  }

  // ---------------------------------------------------------------------
  // Errors

  /** `${status} ${statusText}`. */
  function StatusMessage(status: int, statusText: string): string {
    IntToString(status) + " " + statusText
  }

  /** The message `processUrl` throws for a reply: the rate-limit message
      naming `Retry-After` (the text `null` when the header is absent) for
      429, the status line otherwise; `None` for an ok reply. */
  function ProcessError<T>(reply: HttpReply<T>): (r: Option<string>)
    ensures r.None? <==> OkStatus(reply)
    ensures r.Some? && reply.status == 429 ==>
      Contains(r.value, reply.retryAfter.GetOr("null"))
    ensures r.Some? && reply.status != 429 ==> r.value == StatusMessage(reply.status, reply.statusText)
  {
    if OkStatus(reply) then None
    else if reply.status == 429 then
      var pre := "Rate limit exceeded. Retry after ";
      var v := reply.retryAfter.GetOr("null");
      ContainsInMiddle(pre, v, " seconds.");
      Some(pre + v + " seconds.")
    else Some(StatusMessage(reply.status, reply.statusText))
  }

  /** `createSession`'s reply body: the optional `token`. */
  datatype SessionReply = SessionReply(token: Option<string>)

  class ApiService {
    const baseUrl: string
    var authToken: Option<string>

    constructor()
      ensures baseUrl == Config.ApiUrl && authToken == None
    {
      baseUrl := Config.ApiUrl;
      authToken := None;
    }

    /** `setAuthToken(token, scheme)`: stores `<scheme> <token>`. */
    method SetAuthToken(token: string, scheme: string := "Api-Key")
      modifies this
      ensures authToken == Some(scheme + " " + token)
    {
      authToken := Some(scheme + " " + token);
    }

    method ClearAuth()
      modifies this
      ensures authToken == None
    {
      authToken := None;
    }

    /** `processUrl`: the request it sends, and what the call yields for the
        reply the network gives back (the parsed body or the thrown
        message). */
    method ProcessUrl(url: UrlInput, options: map<string, JsValue>, origin: string, reply: HttpReply<Json>)
      returns (request: Request, outcome: Result<Json, string>)
      ensures request == BuildRequest(url, options, origin, authToken)
      ensures ProcessError(reply).Some? ==> outcome == Err(ProcessError(reply).value)
      ensures ProcessError(reply).None? ==> outcome == Ok(reply.body)
    {
      var youTube := IsYouTubeUrl(url);
      var body: map<string, JsValue>;
      if youTube {
        body := map["url" := Str(CleanYouTubeUrl(url)), "quality" := YouTubeQuality(options)];
      } else {
        body := BuildCobaltBody(url.raw, options);
      }
      request := Request(if youTube then YouTubeEndpoint else CobaltEndpoint, body,
                         RequestHeaders(origin, authToken, youTube));
      var error := ProcessError(reply);
      if error.Some? {
        outcome := Err(error.value);
      } else {
        outcome := Ok(reply.body);
      }
    }

    /** `createSession`: a non-ok reply throws its status line; an ok reply
        with a non-empty `token` installs it as a `Bearer` token. */
    method CreateSession(reply: HttpReply<SessionReply>) returns (outcome: Result<SessionReply, string>)
      modifies this
      ensures !OkStatus(reply) ==> outcome == Err(StatusMessage(reply.status, reply.statusText))
      ensures !OkStatus(reply) ==> authToken == old(authToken)
      ensures OkStatus(reply) ==> outcome == Ok(reply.body)
      ensures OkStatus(reply) && Truthy(reply.body.token) ==> authToken == Some("Bearer " + reply.body.token.value)
      ensures OkStatus(reply) && !Truthy(reply.body.token) ==> authToken == old(authToken)
    {
      if !OkStatus(reply) {
        return Err(StatusMessage(reply.status, reply.statusText));
      }
      if Truthy(reply.body.token) {
        SetAuthToken(reply.body.token.value, "Bearer");
        assert "Bearer" + " " == "Bearer ";
      }
      outcome := Ok(reply.body);
    }
  }

  /** A stored token always makes the Authorization header of a Cobalt
      request carry it verbatim. */
  lemma AuthorizationCarriesToken(url: UrlInput, options: map<string, JsValue>, origin: string, token: string, scheme: string)
    requires !IsYouTubeUrl(url)
    ensures BuildRequest(url, options, origin, Some(scheme + " " + token)).headers["Authorization"] == scheme + " " + token
  {
  }
}
