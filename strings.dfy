/** The JavaScript string built-ins the web interface relies on (`includes`,
    `toLowerCase`, `trim`, `split`, `parseInt`, number-to-text conversion and
    truthiness of an optional string), as functions over `seq<char>`. */
module Strings {
  import opened Wrappers

  // ---------------------------------------------------------------------
  // Truthiness

  /** A string-valued property is truthy in JavaScript when it is present
      and non-empty (`if (data.url)`). */
  predicate Truthy(s: Option<string>) {
    s.Some? && s.value != ""
  }

  /** `s || default` for an optional string. */
  function OrElse(s: Option<string>, default: string): (r: string)
    ensures Truthy(s) ==> r == s.value
    ensures !Truthy(s) ==> r == default
  {
    if Truthy(s) then s.value else default
  }

  // ---------------------------------------------------------------------
  // Substrings

  predicate OccursAt(t: string, s: string, i: int) {
    0 <= i && i + |s| <= |t| && t[i..i + |s|] == s
  }

  /** `t.includes(s)` (and Python's `s in t`). */
  predicate Contains(t: string, s: string) {
    exists i | 0 <= i <= |t| :: OccursAt(t, s, i)
  }

  predicate StartsWith(t: string, p: string) {
    |p| <= |t| && t[..|p|] == p
  }

  predicate EndsWith(t: string, p: string) {
    |p| <= |t| && t[|t| - |p|..] == p
  }

  /** An occurrence inside a block of a concatenation is an occurrence in
      the whole. */
  lemma ContainsInMiddle(a: string, s: string, b: string)
    ensures Contains(a + s + b, s)
  {
    var t := a + s + b;
    assert t[|a|..|a| + |s|] == s;
    assert OccursAt(t, s, |a|);
  }

  // ---------------------------------------------------------------------
  // Case

  function LowerChar(c: char): char {
    if 'A' <= c <= 'Z' then (c as int + 32) as char else c
  }

  /** `toLowerCase` on the ASCII letters. */
  function ToLower(s: string): (r: string)
    ensures |r| == |s|
    ensures forall i :: 0 <= i < |s| ==> r[i] == LowerChar(s[i])
  {
    seq(|s|, i requires 0 <= i < |s| => LowerChar(s[i]))
  }

  // ---------------------------------------------------------------------
  // White space and `trim`

  /** The WhiteSpace and LineTerminator code points of ECMAScript: what
      `trim` removes and `parseInt` skips. */
  predicate IsJsSpace(c: char) {
    c == '\t' || c == '\n' || c == '\r' || c == ' '
    || c == '\U{000B}' || c == '\U{000C}' || c == '\U{00A0}' || c == '\U{FEFF}'
    || c == '\U{1680}' || ('\U{2000}' <= c <= '\U{200A}')
    || c == '\U{2028}' || c == '\U{2029}' || c == '\U{202F}' || c == '\U{205F}' || c == '\U{3000}'
  }

  predicate IsTrimmed(s: string) {
    s == [] || (!IsJsSpace(s[0]) && !IsJsSpace(s[|s| - 1]))
  }

  function TrimStart(s: string): (r: string)
    ensures |r| <= |s| && r == s[|s| - |r|..]
    ensures r == [] || !IsJsSpace(r[0])
    ensures forall i :: 0 <= i < |s| - |r| ==> IsJsSpace(s[i])
  {
    if s != [] && IsJsSpace(s[0]) then TrimStart(s[1..]) else s
  }

  function TrimEnd(s: string): (r: string)
    ensures |r| <= |s| && r == s[..|r|]
    ensures r == [] || !IsJsSpace(r[|r| - 1])
    ensures forall i :: |r| <= i < |s| ==> IsJsSpace(s[i])
  {
    if s != [] && IsJsSpace(s[|s| - 1]) then TrimEnd(s[..|s| - 1]) else s
  }

  /** `trim`: the result is a block of the input with no white space at
      either end, and only white space was cut off. */
  function Trim(s: string): (r: string)
    ensures IsTrimmed(r)
    ensures exists i | 0 <= i <= |s| :: CutFromSpace(s, r, i)
  {
    var t := TrimStart(s);
    var r := TrimEnd(t);
    assert r != [] ==> r[0] == t[0];
    var i := |s| - |t|;
    assert r == s[i..i + |r|];
    assert CutFromSpace(s, r, i);
    r
  }

  /** `r` is the block of `s` starting at `i`, and everything of `s` around
      it is white space. */
  predicate CutFromSpace(s: string, r: string, i: int) {
    0 <= i && i + |r| <= |s| && r == s[i..i + |r|]
    && (forall k :: 0 <= k < i ==> IsJsSpace(s[k]))
    && (forall k :: i + |r| <= k < |s| ==> IsJsSpace(s[k]))
  }

  /** Trimming a trimmed string changes nothing; in particular `trim` is
      idempotent. */
  lemma TrimOfTrimmed(s: string)
    requires IsTrimmed(s)
    ensures Trim(s) == s
  {
  }

  // ---------------------------------------------------------------------
  // `split`

  /** `s.split(c)` for a separator made of one character out of `seps`:
      every separator character ends a piece, so `n` separators give
      `n + 1` pieces, some of them possibly empty. */
  function Split(s: string, seps: set<char>): (r: seq<string>)
    ensures |r| >= 1
    ensures forall k, i :: 0 <= k < |r| && 0 <= i < |r[k]| ==> r[k][i] !in seps
  {
    if s == [] then [""]
    else
      var rest := Split(s[1..], seps);
      if s[0] in seps then [""] + rest
      else [[s[0]] + rest[0]] + rest[1..]
  }

  /** `s.split(/[seps]+/)`: a maximal run of separator characters ends a
      piece, so only the first and the last piece can be empty. */
  function SplitRuns(s: string, seps: set<char>): (r: seq<string>)
    ensures |r| >= 1
    ensures forall k, i :: 0 <= k < |r| && 0 <= i < |r[k]| ==> r[k][i] !in seps
    ensures forall k :: 0 < k < |r| - 1 ==> r[k] != ""
  {
    if s == [] then [""]
    else
      var rest := SplitRuns(s[1..], seps);
      if s[0] in seps then
        (if |s| > 1 && s[1] in seps then rest else [""] + rest)
      else [[s[0]] + rest[0]] + rest[1..]
  }

  /** Joins pieces with one separator character between neighbours. */
  function Join(pieces: seq<string>, sep: char): string
    requires |pieces| >= 1
  {
    if |pieces| == 1 then pieces[0] else pieces[0] + [sep] + Join(pieces[1..], sep)
  }

  /** Splitting on one character and joining back with it gives the input. */
  lemma {:induction false} SplitJoin(s: string, c: char)
    ensures Join(Split(s, {c}), c) == s
  {
    if s != [] {
      SplitJoin(s[1..], c);
      var rest := Split(s[1..], {c});
      if s[0] == c {
        JoinAfterEmpty(rest, c);
      } else {
        JoinExtendFirst([s[0]], rest, c);
      }
      assert s == [s[0]] + s[1..];
    }
  }

  /** An empty first piece contributes only its separator. */
  lemma JoinAfterEmpty(rest: seq<string>, c: char)
    requires |rest| >= 1
    ensures Join([""] + rest, c) == [c] + Join(rest, c)
  {
    assert ([""] + rest)[1..] == rest;
  }

  /** Text put in front of the first piece ends up in front of the join. */
  lemma JoinExtendFirst(x: string, rest: seq<string>, c: char)
    requires |rest| >= 1
    ensures Join([x + rest[0]] + rest[1..], c) == x + Join(rest, c)
  {
    var ps := [x + rest[0]] + rest[1..];
    if |rest| > 1 {
      assert ps[1..] == rest[1..];
      AppendAssoc(x, rest[0], [c] + Join(rest[1..], c));
      AppendAssoc(x + rest[0], [c], Join(rest[1..], c));
      AppendAssoc(rest[0], [c], Join(rest[1..], c));
    }
  }

  /** A piece free of separators followed by a separator is the first piece
      of the split. */
  lemma {:induction false} SplitAfterPiece(a: string, c: char, b: string, seps: set<char>)
    requires c in seps
    requires forall i :: 0 <= i < |a| ==> a[i] !in seps
    ensures Split(a + [c] + b, seps) == [a] + Split(b, seps)
  {
    if a != [] {
      SplitAfterPiece(a[1..], c, b, seps);
      assert (a + [c] + b)[1..] == a[1..] + [c] + b;
      assert [a[0]] + a[1..] == a;
    } else {
      assert (a + [c] + b)[1..] == b;
    }
  }

  /** A separator between two strings splits them apart: the pieces of the
      whole are the pieces of each side. */
  lemma {:induction false} SplitConcat(a: string, c: char, b: string, seps: set<char>)
    requires c in seps
    ensures Split(a + [c] + b, seps) == Split(a, seps) + Split(b, seps)
  {
    if a == [] {
      assert a + [c] + b == [c] + b;
      assert ([c] + b)[1..] == b;
    } else {
      assert (a + [c] + b)[1..] == a[1..] + [c] + b;
      SplitConcat(a[1..], c, b, seps);
      SplitConsConcat(a, a + [c] + b, Split(b, seps), seps);
    }
  }

  /** The step of `SplitConcat`: when the pieces of the tail of `s` are those
      of the tail of `a` followed by `tail`, the same holds for `s` and `a`. */
  lemma SplitConsConcat(a: string, s: string, tail: seq<string>, seps: set<char>)
    requires a != [] && s != [] && s[0] == a[0]
    requires Split(s[1..], seps) == Split(a[1..], seps) + tail
    ensures Split(s, seps) == Split(a, seps) + tail
  {
    var left := Split(a[1..], seps);
    if a[0] in seps {
      AppendAssoc([""], left, tail);
    } else {
      var first := [[a[0]] + left[0]];
      assert (left + tail)[1..] == left[1..] + tail;
      AppendAssoc(first, left[1..], tail);
    }
  }

  /** A string free of separators splits into itself. */
  lemma {:induction false} SplitNoSeparator(a: string, seps: set<char>)
    requires forall i :: 0 <= i < |a| ==> a[i] !in seps
    ensures Split(a, seps) == [a]
  {
    if a != [] {
      SplitNoSeparator(a[1..], seps);
      assert [a[0]] + a[1..] == a;
    }
  }

  /** Splitting on two character sets gives the same pieces when the input
      holds no character on which the two sets differ. */
  lemma {:induction false} SplitSameOnText(s: string, seps1: set<char>, seps2: set<char>)
    requires forall i :: 0 <= i < |s| ==> (s[i] in seps1 <==> s[i] in seps2)
    ensures Split(s, seps1) == Split(s, seps2)
  {
    if s != [] {
      SplitSameOnText(s[1..], seps1, seps2);
    }
  }

  /** The pieces without the empty ones, in order. */
  function DropEmpty(ps: seq<string>): (r: seq<string>)
    ensures |r| <= |ps|
    ensures forall k :: 0 <= k < |r| ==> r[k] != "" && r[k] in ps
  {
    if ps == [] then []
    else if ps[0] == "" then DropEmpty(ps[1..])
    else [ps[0]] + DropEmpty(ps[1..])
  }

  lemma {:induction false} DropEmptyConcat(a: seq<string>, b: seq<string>)
    ensures DropEmpty(a + b) == DropEmpty(a) + DropEmpty(b)
  {
    if a == [] {
      assert a + b == b;
    } else {
      assert (a + b)[1..] == a[1..] + b;
      assert (a + b)[0] == a[0];
      DropEmptyConcat(a[1..], b);
    }
  }

  /** Both splits start with the same piece: the text before the first
      separator. */
  lemma {:induction false} SplitFirstPiece(s: string, seps: set<char>)
    ensures SplitRuns(s, seps)[0] == Split(s, seps)[0]
  {
    if s != [] {
      SplitFirstPiece(s[1..], seps);
      if s[0] in seps && |s| > 1 && s[1] in seps {
        assert Split(s[1..], seps)[0] == "";
      }
    }
  }

  /** Collapsing runs of separators only removes empty pieces. */
  lemma {:induction false} SplitRunsDropEmpty(s: string, seps: set<char>)
    ensures DropEmpty(SplitRuns(s, seps)) == DropEmpty(Split(s, seps))
  {
    if s != [] {
      SplitRunsDropEmpty(s[1..], seps);
      if s[0] in seps {
        DropEmptyCons("", Split(s[1..], seps));
        DropEmptyCons("", SplitRuns(s[1..], seps));
      } else {
        SplitFirstPiece(s[1..], seps);
        FirstPieceExtended([s[0]], SplitRuns(s[1..], seps), Split(s[1..], seps));
      }
    }
  }

  /** `DropEmpty` looks at the first piece, then at the rest. */
  lemma DropEmptyCons(x: string, rest: seq<string>)
    ensures DropEmpty([x] + rest) == (if x == "" then DropEmpty(rest) else [x] + DropEmpty(rest))
  {
    assert ([x] + rest)[1..] == rest;
  }

  /** Two piece lists with the same first piece and the same non-empty
      pieces still have the same non-empty pieces once `c` is put in front
      of their first piece. */
  lemma FirstPieceExtended(c: string, ps: seq<string>, qs: seq<string>)
    requires |ps| >= 1 && |qs| >= 1 && ps[0] == qs[0]
    requires DropEmpty(ps) == DropEmpty(qs)
    ensures DropEmpty([c + ps[0]] + ps[1..]) == DropEmpty([c + qs[0]] + qs[1..])
  {
    var x := ps[0];
    assert ps == [x] + ps[1..] && qs == [x] + qs[1..];
    DropEmptyCons(x, ps[1..]);
    DropEmptyCons(x, qs[1..]);
    if x != "" {
      assert ([x] + DropEmpty(ps[1..]))[1..] == DropEmpty(ps[1..]);
      assert ([x] + DropEmpty(qs[1..]))[1..] == DropEmpty(qs[1..]);
    }
    DropEmptyCons(c + x, ps[1..]);
    DropEmptyCons(c + x, qs[1..]);
  }

  // ---------------------------------------------------------------------
  // Decimal numbers

  predicate IsDigit(c: char) {
    '0' <= c <= '9'
  }

  predicate AllDigits(s: string) {
    forall i :: 0 <= i < |s| ==> IsDigit(s[i])
  }

  function DigitValue(c: char): nat
    requires IsDigit(c)
  {
    c as int - '0' as int
  }

  function DigitChar(d: nat): (c: char)
    requires d < 10
    ensures IsDigit(c) && DigitValue(c) == d
  {
    ('0' as int + d) as char
  }

  /** The value of a string of decimal digits. */
  function DigitsValue(s: string): nat
    requires AllDigits(s)
  {
    if s == [] then 0 else DigitsValue(s[..|s| - 1]) * 10 + DigitValue(s[|s| - 1])
  }

  /** The decimal text of a number, as JavaScript's template literals and
      Python's f-strings write a non-negative integer. */
  function NatToString(n: nat): (r: string)
    ensures r != [] && AllDigits(r)
  {
    if n < 10 then [DigitChar(n)] else NatToString(n / 10) + [DigitChar(n % 10)]
  }

  function IntToString(i: int): (r: string)
    ensures i >= 0 ==> r == NatToString(i)
    ensures i < 0 ==> r == "-" + NatToString(-i)
  {
    if i < 0 then "-" + NatToString(-i) else NatToString(i)
  }

  /** Reading the decimal text of `n` back gives `n`. */
  lemma {:induction false} NatToStringValue(n: nat)
    ensures DigitsValue(NatToString(n)) == n
  {
    if n >= 10 {
      NatToStringValue(n / 10);
      var s := NatToString(n / 10) + [DigitChar(n % 10)];
      assert s[..|s| - 1] == NatToString(n / 10);
    }
  }

  /** Different numbers have different decimal texts. */
  lemma NatToStringInjective(m: nat, n: nat)
    requires NatToString(m) == NatToString(n)
    ensures m == n
  {
    NatToStringValue(m);
    NatToStringValue(n);
  }

  /** The longest prefix of `s` made of decimal digits. */
  function LeadingDigits(s: string): (r: string)
    ensures |r| <= |s| && r == s[..|r|] && AllDigits(r)
    ensures |r| < |s| ==> !IsDigit(s[|r|])
  {
    if s != [] && IsDigit(s[0]) then [s[0]] + LeadingDigits(s[1..]) else []
  }

  /** `parseInt(s, 10)`: leading white space is skipped, one sign is
      accepted, and the longest run of digits that follows is read; `None`
      stands for `NaN`, the result when no digit follows. */
  function ParseInt(s: string): Option<int> {
    var t := TrimStart(s);
    var negative := t != [] && t[0] == '-';
    var unsigned := if t != [] && (t[0] == '-' || t[0] == '+') then t[1..] else t;
    var digits := LeadingDigits(unsigned);
    if digits == [] then None
    else Some(if negative then -(DigitsValue(digits) as int) else DigitsValue(digits))
  }

  /** A header holding the decimal text of `n` parses back to `n`. */
  lemma ParseIntOfDecimal(n: nat)
    ensures ParseInt(NatToString(n)) == Some(n)
  {
    var s := NatToString(n);
    assert IsDigit(s[0]);
    assert !IsJsSpace(s[0]);
    assert TrimStart(s) == s;
    assert s[0] != '-' && s[0] != '+';
    assert LeadingDigits(s) == s by {
      LeadingDigitsOfDigits(s);
    }
    NatToStringValue(n);
  }

  lemma {:induction false} LeadingDigitsOfDigits(s: string)
    requires AllDigits(s)
    ensures LeadingDigits(s) == s
  {
    if s != [] {
      LeadingDigitsOfDigits(s[1..]);
    }
  }
}
