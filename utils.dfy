/** web-interface/js/utils.js: URL-list parsing, file-name sanitising and the
    branch structure of the byte and duration formatters. */
module Utils {
  import opened Wrappers
  import opened Strings

  // ---------------------------------------------------------------------
  // formatBytes

  /** The unit names of `formatBytes`, indexed by the power of 1024. */
  const ByteUnits: seq<string> := ["B", "KB", "MB", "GB"]

  /** What `formatBytes` prints for zero. */
  const ZeroBytesText: string := "0 B"

  function Pow1024(k: nat): nat {
    if k == 0 then 1 else 1024 * Pow1024(k - 1)
  }

  /** The text `formatBytes` produces: the fixed text for zero, otherwise a
      mantissa (left out) scaled by a power of 1024 and the unit of that
      power, `undefined` (`None`) from the fifth power on. */
  datatype ByteText = ZeroText | Scaled(power: nat, unit: Option<string>)

  /** `Math.floor(Math.log(bytes) / Math.log(1024))` on exact integers. */
  function Log1024(bytes: nat): (k: nat)
    requires bytes >= 1
    ensures Pow1024(k) <= bytes < Pow1024(k + 1)
  {
    if bytes < 1024 then 0 else 1 + Log1024(bytes / 1024)
  }

  function FormatBytes(bytes: nat): (r: ByteText)
    ensures bytes == 0 <==> r == ZeroText
    ensures r.Scaled? ==> Pow1024(r.power) <= bytes < Pow1024(r.power + 1)
    ensures r.Scaled? ==> r.unit == if r.power < |ByteUnits| then Some(ByteUnits[r.power]) else None
  {
    if bytes == 0 then ZeroText
    else
      var k := Log1024(bytes);
      Scaled(k, if k < |ByteUnits| then Some(ByteUnits[k]) else None)
  }

  // ---------------------------------------------------------------------
  // formatTime

  /** The text `formatTime` produces; the amount is what `Math.round` is
      applied to. */
  datatype TimeText = Unknown | SecondsText(amount: real) | MinutesText(amount: real) | HoursText(amount: real)

  /** The text of each form: `"Không xác định"`, or the rounded amount
      followed by the unit. */
  function TimeUnit(t: TimeText): string {
    match t
    case Unknown => "Không xác định"
    case SecondsText(_) => " giây"
    case MinutesText(_) => " phút"
    case HoursText(_) => " giờ"
  }

  /** `formatTime(seconds)`; `None` is a non-finite or absent value. */
  function FormatTime(seconds: Option<real>): (r: TimeText)
    ensures r.Unknown? <==> seconds.None? || seconds.value == 0.0
    ensures r.SecondsText? ==> seconds.Some? && seconds.value < 60.0 && r.amount == seconds.value
    ensures r.MinutesText? ==>
              seconds.Some? && 60.0 <= seconds.value < 3600.0 && 1.0 <= r.amount < 60.0 && r.amount * 60.0 == seconds.value
    ensures r.HoursText? ==>
              seconds.Some? && 3600.0 <= seconds.value && 1.0 <= r.amount && r.amount * 3600.0 == seconds.value
  {
    match seconds
    case None => Unknown
    case Some(s) =>
      if s == 0.0 then Unknown
      else if s < 60.0 then SecondsText(s)
      else if s < 3600.0 then MinutesText(s / 60.0)
      else HoursText(s / 3600.0)
  }

  // ---------------------------------------------------------------------
  // parseUrls

  /** The separators of `parseUrls`: comma, line feed and carriage return. */
  const UrlSeparators: set<char> := {',', '\n', '\r'}

  /** The trimmed pieces in order. */
  function TrimAll(ps: seq<string>): (r: seq<string>)
    ensures |r| == |ps|
    ensures forall k :: 0 <= k < |ps| ==> r[k] == Trim(ps[k])
  {
    if ps == [] then [] else [Trim(ps[0])] + TrimAll(ps[1..])
  }

  /** `.filter(url => url && validateUrl(url))`. */
  function KeepUrls(ps: seq<string>, validUrl: string -> bool): (r: seq<string>)
    ensures |r| <= |ps|
    ensures forall k :: 0 <= k < |r| ==> r[k] != "" && validUrl(r[k]) && r[k] in ps
  {
    if ps == [] then []
    else if ps[0] != "" && validUrl(ps[0]) then [ps[0]] + KeepUrls(ps[1..], validUrl)
    else KeepUrls(ps[1..], validUrl)
  }

  /** `parseUrls(input)`: split on runs of separators, trim every piece, keep
      the non-empty pieces that `validateUrl` (the URL parser, a parameter
      here) accepts. */
  function ParseUrls(input: string, validUrl: string -> bool): seq<string> {
    KeepUrls(TrimAll(SplitRuns(input, UrlSeparators)), validUrl)
  }

  /** `a` is `b` with some elements left out, order kept. */
  predicate IsSubsequence<T(==)>(a: seq<T>, b: seq<T>) {
    if a == [] then true
    else if b == [] then false
    else (a[0] == b[0] && IsSubsequence(a[1..], b[1..])) || IsSubsequence(a, b[1..])
  }

  lemma {:induction false} KeepUrlsIsSubsequence(ps: seq<string>, validUrl: string -> bool)
    ensures IsSubsequence(KeepUrls(ps, validUrl), ps)
  {
    if ps != [] {
      KeepUrlsIsSubsequence(ps[1..], validUrl);
      var rest := KeepUrls(ps[1..], validUrl);
      if !(ps[0] != "" && validUrl(ps[0])) && rest != [] {
        assert IsSubsequence(rest, ps[1..]);
      }
    }
  }

  lemma {:induction false} KeepUrlsComplete(ps: seq<string>, validUrl: string -> bool, k: nat)
    requires k < |ps| && ps[k] != "" && validUrl(ps[k])
    ensures ps[k] in KeepUrls(ps, validUrl)
  {
    if k > 0 {
      KeepUrlsComplete(ps[1..], validUrl, k - 1);
    }
  }

  /** Every URL `parseUrls` returns is trimmed, non-empty, accepted by the
      URL check and free of separators. */
  lemma ParseUrlsSound(input: string, validUrl: string -> bool, u: string)
    requires u in ParseUrls(input, validUrl)
    ensures u != "" && validUrl(u) && IsTrimmed(u)
    ensures forall i :: 0 <= i < |u| ==> u[i] !in UrlSeparators
  {
    var pieces := SplitRuns(input, UrlSeparators);
    var trimmed := TrimAll(pieces);
    var kept := KeepUrls(trimmed, validUrl);
    var m :| 0 <= m < |kept| && kept[m] == u;
    assert u in trimmed;
    var k :| 0 <= k < |trimmed| && trimmed[k] == u;
    TrimmedPieceClean(pieces[k], UrlSeparators);
  }

  /** Trimming a piece free of separators keeps it free of them. */
  lemma TrimmedPieceClean(p: string, seps: set<char>)
    requires forall i :: 0 <= i < |p| ==> p[i] !in seps
    ensures IsTrimmed(Trim(p))
    ensures forall j :: 0 <= j < |Trim(p)| ==> Trim(p)[j] !in seps
  {
    var u := Trim(p);
    var i :| 0 <= i <= |p| && CutFromSpace(p, u, i);
    forall j | 0 <= j < |u| ensures u[j] !in seps {
      assert u[j] == p[i + j];
    }
  }

  /** `parseUrls` keeps the order of the pieces: its result is a subsequence
      of the trimmed pieces. */
  lemma ParseUrlsOrdered(input: string, validUrl: string -> bool)
    ensures IsSubsequence(ParseUrls(input, validUrl), TrimAll(SplitRuns(input, UrlSeparators)))
  {
    KeepUrlsIsSubsequence(TrimAll(SplitRuns(input, UrlSeparators)), validUrl);
  }

  /** `parseUrls` drops nothing it should keep: every piece that is
      non-empty and valid once trimmed is in the result. */
  lemma ParseUrlsComplete(input: string, validUrl: string -> bool, k: nat)
    requires k < |SplitRuns(input, UrlSeparators)|
    requires var p := Trim(SplitRuns(input, UrlSeparators)[k]); p != "" && validUrl(p)
    ensures Trim(SplitRuns(input, UrlSeparators)[k]) in ParseUrls(input, validUrl)
  {
    KeepUrlsComplete(TrimAll(SplitRuns(input, UrlSeparators)), validUrl, k);
  }

  // ---------------------------------------------------------------------
  // sanitizeFilename

  /** The characters `sanitizeFilename` replaces: `< > : " / \ | ? *`. */
  const ForbiddenInFilename: set<char> := {'<', '>', ':', '"', '/', '\\', '|', '?', '*'}

  /** `filename.replace(/[<>:"/\\|?*]/g, '_')`. */
  function SanitizeFilename(s: string): (r: string)
    ensures |r| == |s|
    ensures forall i :: 0 <= i < |s| ==>
      r[i] == if s[i] in ForbiddenInFilename then '_' else s[i]
  {
    if s == [] then []
    else [if s[0] in ForbiddenInFilename then '_' else s[0]] + SanitizeFilename(s[1..])
  }

  /** A sanitised name holds none of the forbidden characters. */
  lemma SanitizedIsClean(s: string)
    ensures forall i :: 0 <= i < |s| ==> SanitizeFilename(s)[i] !in ForbiddenInFilename
  {
  }

  /** Sanitising twice is sanitising once. */
  lemma {:induction false} SanitizeIdempotent(s: string)
    ensures SanitizeFilename(SanitizeFilename(s)) == SanitizeFilename(s)
  {
    if s != [] {
      SanitizeIdempotent(s[1..]);
      assert SanitizeFilename(s)[1..] == SanitizeFilename(s[1..]);
    }
  }
}
