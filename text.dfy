/**
 * The string operations of Python and JavaScript that the shopping assistant relies on:
 * substring search, splitting and joining, stripping, lower-casing, slicing and the
 * decimal conversions between numbers and digit strings.
 */
module Text {
  import opened Wrappers

  // ---------------------------------------------------------------------------
  // Character classes
  // ---------------------------------------------------------------------------

  /** ASCII decimal digit (the model's reading of the regex class `\d`). */
  predicate IsDigit(c: char) {
    '0' <= c <= '9'
  }

  predicate IsUpper(c: char) {
    'A' <= c <= 'Z'
  }

  /** Python whitespace: what `str.isspace`, `str.split()`, `str.strip()` and the regex class `\s` accept. */
  predicate IsPySpace(c: char) {
    c == ' ' || ('\t' <= c <= '\r') || ('\U{1C}' <= c <= '\U{1F}')
    || c == '\U{85}' || c == '\U{A0}' || c == '\U{1680}'
    || ('\U{2000}' <= c <= '\U{200A}') || c == '\U{2028}' || c == '\U{2029}'
    || c == '\U{202F}' || c == '\U{205F}' || c == '\U{3000}'
  }

  predicate IsPyWordChar(c: char) {
    !IsPySpace(c)
  }

  /** JavaScript whitespace and line terminators: what `String.prototype.trim` removes. */
  predicate IsJsSpace(c: char) {
    c == ' ' || ('\t' <= c <= '\r') || c == '\U{A0}' || c == '\U{1680}'
    || ('\U{2000}' <= c <= '\U{200A}') || c == '\U{2028}' || c == '\U{2029}'
    || c == '\U{202F}' || c == '\U{205F}' || c == '\U{3000}' || c == '\U{FEFF}'
  }

  predicate AllDigits(s: string) {
    forall k :: 0 <= k < |s| ==> IsDigit(s[k])
  }

  // ---------------------------------------------------------------------------
  // Substrings
  // ---------------------------------------------------------------------------

  /** `sub` occurs in `s` starting at index `i`. */
  predicate OccursAt(s: string, sub: string, i: int) {
    0 <= i && i + |sub| <= |s| && s[i..i + |sub|] == sub
  }

  /** Python `sub in s`, JavaScript `s.includes(sub)`. */
  predicate Contains(s: string, sub: string) {
    exists i | 0 <= i <= |s| :: OccursAt(s, sub, i)
  }

  /** The first index at or after `i` where `sub` occurs (Python `s.find(sub, i)`, JavaScript `s.indexOf(sub, i)`). */
  function FindFrom(s: string, sub: string, i: nat): (r: Option<nat>)
    decreases |s| - i
    ensures r.Some? ==> i <= r.value && OccursAt(s, sub, r.value)
    ensures r.Some? ==> forall j :: i <= j < r.value ==> !OccursAt(s, sub, j)
    ensures r.None? ==> forall j :: i <= j ==> !OccursAt(s, sub, j)
  {
    if i + |sub| > |s| then None
    else if s[i..i + |sub|] == sub then Some(i)
    else FindFrom(s, sub, i + 1)
  }

  lemma ContainsIffFound(s: string, sub: string)
    ensures Contains(s, sub) <==> FindFrom(s, sub, 0).Some?
  {
    if FindFrom(s, sub, 0).Some? {
      assert OccursAt(s, sub, FindFrom(s, sub, 0).value);
    }
  }

  /** An occurrence with none before it is the one `FindFrom` reports. */
  lemma FirstOccurrence(s: string, sub: string, i: nat)
    requires OccursAt(s, sub, i)
    requires forall j :: 0 <= j < i ==> !OccursAt(s, sub, j)
    ensures FindFrom(s, sub, 0) == Some(i)
  {
  }

  /** A string none of whose characters is the first of `sub` does not contain `sub`. */
  lemma AbsentFirstChar(s: string, sub: string)
    requires sub != [] && forall k :: 0 <= k < |s| ==> s[k] != sub[0]
    ensures !Contains(s, sub)
  {
    forall i | 0 <= i <= |s| ensures !OccursAt(s, sub, i) {
      if i + |sub| <= |s| {
        assert s[i..i + |sub|][0] == s[i];
      }
    }
  }

  /** An occurrence in the left part of a concatenation survives. */
  lemma OccursInLeft(a: string, b: string, sub: string, i: int)
    requires OccursAt(a, sub, i)
    ensures OccursAt(a + b, sub, i)
  {
    assert (a + b)[i..i + |sub|] == a[i..i + |sub|];
  }

  /** An occurrence in the right part survives, shifted by the length of the left part. */
  lemma OccursInRight(a: string, b: string, sub: string, i: int)
    requires OccursAt(b, sub, i)
    ensures OccursAt(a + b, sub, |a| + i)
  {
    assert (a + b)[|a| + i..|a| + i + |sub|] == b[i..i + |sub|];
  }

  /** An occurrence inside a slice is an occurrence in the whole string, shifted by the slice's start. */
  lemma SliceOccurs(s: string, sub: string, a: int, b: int, i: int)
    requires 0 <= a <= b <= |s| && 0 <= i && i + |sub| <= b - a
    ensures OccursAt(s[a..b], sub, i) <==> OccursAt(s, sub, a + i)
  {
    var x, y := s[a..b][i..i + |sub|], s[a + i..a + i + |sub|];
    assert |x| == |y|;
    forall k | 0 <= k < |sub| ensures x[k] == y[k] {
      assert x[k] == s[a + i + k];
    }
    assert x == y;
  }

  /** A string that does not contain `sub` has no slice that contains it. */
  lemma AbsentFromSlice(s: string, sub: string, a: int, b: int)
    requires 0 <= a <= b <= |s|
    requires !Contains(s, sub)
    ensures !Contains(s[a..b], sub)
  {
    forall i | 0 <= i <= b - a ensures !OccursAt(s[a..b], sub, i) {
      if i + |sub| <= b - a {
        SliceOccurs(s, sub, a, b, i);
      }
    }
  }

  // ---------------------------------------------------------------------------
  // Slicing, case, runs
  // ---------------------------------------------------------------------------

  /** Python `s[:n]`: the first `n` elements, or all of `s` when it is shorter. */
  function Take<T>(s: seq<T>, n: nat): (r: seq<T>)
    ensures |r| <= n && |r| <= |s|
    ensures r == s[..|r|]
    ensures |s| <= n ==> r == s
    ensures |s| > n ==> |r| == n
  {
    if |s| <= n then s else s[..n]
  }

  function LowerChar(c: char): char {
    if IsUpper(c) then (c as int + 32) as char else c
  }

  /** Python `str.lower()`, restricted to the ASCII letters. */
  function Lower(s: string): (r: string)
    ensures |r| == |s|
    ensures forall k :: 0 <= k < |s| ==> r[k] == LowerChar(s[k])
  {
    seq(|s|, k requires 0 <= k < |s| => LowerChar(s[k]))
  }

  /** The end of the run of characters of class `inClass` that starts at index `i`. */
  function RunEnd(s: string, i: nat, inClass: char -> bool): (r: nat)
    requires i <= |s|
    decreases |s| - i
    ensures i <= r <= |s|
    ensures forall k :: i <= k < r ==> inClass(s[k])
    ensures r < |s| ==> !inClass(s[r])
  {
    if i == |s| || !inClass(s[i]) then i else RunEnd(s, i + 1, inClass)
  }

  // ---------------------------------------------------------------------------
  // Stripping
  // ---------------------------------------------------------------------------

  function TrimStart(s: string, isSpace: char -> bool): (r: string)
    ensures |r| <= |s| && r == s[|s| - |r|..]
    ensures r == [] || !isSpace(r[0])
    ensures forall k :: 0 <= k < |s| - |r| ==> isSpace(s[k])
  {
    if |s| > 0 && isSpace(s[0]) then
      var r := TrimStart(s[1..], isSpace);
      assert forall k :: 1 <= k < |s| - |r| ==> s[k] == s[1..][k - 1];
      r
    else s
  }

  function TrimEnd(s: string, isSpace: char -> bool): (r: string)
    ensures |r| <= |s| && r == s[..|r|]
    ensures r == [] || !isSpace(r[|r| - 1])
    ensures forall k :: |r| <= k < |s| ==> isSpace(s[k])
  {
    if |s| > 0 && isSpace(s[|s| - 1]) then TrimEnd(s[..|s| - 1], isSpace) else s
  }

  /** Remove the leading and trailing characters of class `isSpace`. */
  function Strip(s: string, isSpace: char -> bool): (r: string)
    ensures |r| <= |s|
    ensures r == [] || (!isSpace(r[0]) && !isSpace(r[|r| - 1]))
    ensures exists i :: SpaceAround(s, r, i, isSpace)
  {
    var e := TrimEnd(s, isSpace);
    var r := TrimStart(e, isSpace);
    assert r != [] ==> r[|r| - 1] == e[|e| - 1];
    TrimBothAround(s, isSpace);
    r
  }

  lemma TrimBothAround(s: string, isSpace: char -> bool)
    ensures var e := TrimEnd(s, isSpace);
      var r := TrimStart(e, isSpace);
      SpaceAround(s, r, |e| - |r|, isSpace)
  {
    var e := TrimEnd(s, isSpace);
    var r := TrimStart(e, isSpace);
    var i := |e| - |r|;
    assert s[i..i + |r|] == e[i..] == r;
    assert forall k :: 0 <= k < i ==> s[k] == e[k];
  }

  /** `s` is `r` at position `i`, with only space before and after it. */
  predicate SpaceAround(s: string, r: string, i: int, isSpace: char -> bool) {
    0 <= i && i + |r| <= |s| && s[i..i + |r|] == r &&
    (forall k :: 0 <= k < i ==> isSpace(s[k])) && (forall k :: i + |r| <= k < |s| ==> isSpace(s[k]))
  }

  /** Python `str.strip()`. */
  function PyStrip(s: string): string {
    Strip(s, IsPySpace)
  }

  /** JavaScript `String.prototype.trim()`. */
  function JsTrim(s: string): string {
    Strip(s, IsJsSpace)
  }

  /** Every character of `s` is of class `isSpace` (true for the empty string). */
  predicate AllSpace(s: string, isSpace: char -> bool) {
    forall k :: 0 <= k < |s| ==> isSpace(s[k])
  }

  /** Stripping leaves nothing exactly when the string is all space. */
  lemma StripEmptyIff(s: string, isSpace: char -> bool)
    ensures Strip(s, isSpace) == [] <==> AllSpace(s, isSpace)
  {
    var e := TrimEnd(s, isSpace);
    if !AllSpace(s, isSpace) {
      var k :| 0 <= k < |s| && !isSpace(s[k]);
      assert k < |e|;
      assert e[k] == s[k];
      var r := TrimStart(e, isSpace);
      assert k >= |e| - |r|;
    }
  }

  /** A string with no surrounding space is its own strip: stripping is idempotent. */
  lemma StripFixed(s: string, isSpace: char -> bool)
    requires s == [] || (!isSpace(s[0]) && !isSpace(s[|s| - 1]))
    ensures Strip(s, isSpace) == s
  {
  }

  lemma StripIdempotent(s: string, isSpace: char -> bool)
    ensures Strip(Strip(s, isSpace), isSpace) == Strip(s, isSpace)
  {
    StripFixed(Strip(s, isSpace), isSpace);
  }

  /** Stripping never makes a substring appear. */
  lemma StripKeepsAbsent(s: string, sub: string, isSpace: char -> bool)
    requires !Contains(s, sub)
    ensures !Contains(Strip(s, isSpace), sub)
  {
    TrimEndKeepsAbsent(s, sub, isSpace);
    TrimStartKeepsAbsent(TrimEnd(s, isSpace), sub, isSpace);
  }

  lemma TrimEndKeepsAbsent(s: string, sub: string, isSpace: char -> bool)
    requires !Contains(s, sub)
    ensures !Contains(TrimEnd(s, isSpace), sub)
  {
    var e := TrimEnd(s, isSpace);
    assert e == s[0..|e|];
    AbsentFromSlice(s, sub, 0, |e|);
  }

  lemma TrimStartKeepsAbsent(s: string, sub: string, isSpace: char -> bool)
    requires !Contains(s, sub)
    ensures !Contains(TrimStart(s, isSpace), sub)
  {
    var r := TrimStart(s, isSpace);
    assert r == s[|s| - |r|..|s|];
    AbsentFromSlice(s, sub, |s| - |r|, |s|);
  }

  // ---------------------------------------------------------------------------
  // Splitting and joining
  // ---------------------------------------------------------------------------

  /** Python `str.split()` without arguments: the maximal runs of non-space characters. */
  function Words(s: string): (r: seq<string>)
    decreases |s|
    ensures forall k :: 0 <= k < |r| ==> r[k] != [] && forall j :: 0 <= j < |r[k]| ==> !IsPySpace(r[k][j])
  {
    if s == [] then []
    else if IsPySpace(s[0]) then Words(s[1..])
    else
      var n := RunEnd(s, 0, IsPyWordChar);
      [s[..n]] + Words(s[n..])
  }

  /** JavaScript `s.split(sep)` (and Python `s.split(sep)`) for a non-empty separator. */
  function SplitOn(s: string, sep: string): (r: seq<string>)
    requires sep != []
    decreases |s|
    ensures r != []
    ensures forall k :: 0 <= k < |r| ==> !Contains(r[k], sep)
    ensures |r[0]| <= |s| && r[0] == s[..|r[0]|]
    ensures Contains(s, sep) ==> OccursAt(s, sep, |r[0]|)
    ensures !Contains(s, sep) ==> r == [s]
    ensures Contains(s, sep) ==> FindFrom(s, sep, 0) == Some(|r[0]|)
  {
    ContainsIffFound(s, sep);
    match FindFrom(s, sep, 0)
    case None => [s]
    case Some(i) =>
      var piece := s[..i];
      assert !Contains(piece, sep) by {
        forall j | 0 <= j <= |piece| ensures !OccursAt(piece, sep, j) {
          if j + |sep| <= i {
            SliceOccurs(s, sep, 0, i, j);
          }
        }
      }
      [piece] + SplitOn(s[i + |sep|..], sep)
  }

  /** JavaScript `parts.join(sep)`, Python `sep.join(parts)`. */
  function JoinWith(parts: seq<string>, sep: string): string
    decreases |parts|
  {
    if parts == [] then ""
    else if |parts| == 1 then parts[0]
    else parts[0] + sep + JoinWith(parts[1..], sep)
  }

  /** Joining the pieces of a split with the same separator gives back the original string. */
  lemma {:induction false} JoinSplit(s: string, sep: string)
    requires sep != []
    decreases |s|
    ensures JoinWith(SplitOn(s, sep), sep) == s
  {
    match FindFrom(s, sep, 0)
    case None =>
    case Some(i) =>
      var rest := s[i + |sep|..];
      JoinSplit(rest, sep);
      SplitAtFound(s, sep, i);
      JoinCons(s[..i], SplitOn(rest, sep), sep);
  }

  /** Where `find` reports the separator, the split is the piece before it and the split of the rest. */
  lemma SplitAtFound(s: string, sep: string, i: nat)
    requires sep != [] && FindFrom(s, sep, 0) == Some(i)
    ensures i + |sep| <= |s| && s == s[..i] + sep + s[i + |sep|..]
    ensures SplitOn(s, sep) == [s[..i]] + SplitOn(s[i + |sep|..], sep)
  {
    assert s[i..i + |sep|] == sep;
  }

  lemma JoinCons(piece: string, rest: seq<string>, sep: string)
    requires rest != []
    ensures JoinWith([piece] + rest, sep) == piece + sep + JoinWith(rest, sep)
  {
    assert ([piece] + rest)[1..] == rest;
  }

  lemma AppendAssoc(a: string, b: string, c: string)
    ensures a + b + c == a + (b + c)
  {
  }

  /** The pieces `f(xs[0]) + f(xs[1]) + ...`, as a loop that appends one piece per element builds them. */
  function Concat<T>(f: T -> string, xs: seq<T>): string
    decreases |xs|
  {
    if xs == [] then "" else Concat(f, xs[..|xs| - 1]) + f(xs[|xs| - 1])
  }

  /** One more element: its piece goes at the end. */
  lemma ConcatSnoc<T>(f: T -> string, xs: seq<T>, i: nat)
    requires i < |xs|
    ensures Concat(f, xs[..i + 1]) == Concat(f, xs[..i]) + f(xs[i])
  {
    assert xs[..i + 1][..i] == xs[..i];
  }

  /** The loop that appends the piece of each element, in order, to `acc`. */
  method AppendEach<T>(acc: string, f: T -> string, xs: seq<T>) returns (r: string)
    ensures r == acc + Concat(f, xs)
  {
    r := acc;
    for i := 0 to |xs|
      invariant r == acc + Concat(f, xs[..i])
    {
      ConcatSnoc(f, xs, i);
      r := r + f(xs[i]);
    }
    assert xs[..|xs|] == xs;
  }

  lemma {:induction false} ConcatAppend<T>(f: T -> string, xs: seq<T>, ys: seq<T>)
    decreases |ys|
    ensures Concat(f, xs + ys) == Concat(f, xs) + Concat(f, ys)
  {
    if ys == [] {
      assert xs + ys == xs;
    } else {
      var zs := ys[..|ys| - 1];
      assert (xs + ys)[..|xs + ys| - 1] == xs + zs;
      assert (xs + ys)[|xs + ys| - 1] == ys[|ys| - 1];
      ConcatAppend(f, xs, zs);
    }
  }

  /** The piece of element `k` sits right after the pieces of the elements before it. */
  lemma ConcatPieceAt<T>(f: T -> string, xs: seq<T>, k: nat)
    requires k < |xs|
    ensures OccursAt(Concat(f, xs), f(xs[k]), |Concat(f, xs[..k])|)
  {
    assert xs == xs[..k] + [xs[k]] + xs[k + 1..];
    ConcatAppend(f, xs[..k] + [xs[k]], xs[k + 1..]);
    ConcatAppend(f, xs[..k], [xs[k]]);
    assert [xs[k]][..0] == [];
    var c := Concat(f, xs);
    var a := Concat(f, xs[..k]);
    assert c == a + f(xs[k]) + Concat(f, xs[k + 1..]);
    assert c[|a|..|a| + |f(xs[k])|] == f(xs[k]);
  }

  /** Every element's piece is in the concatenation. */
  lemma ConcatContainsPiece<T>(f: T -> string, xs: seq<T>, k: nat)
    requires k < |xs|
    ensures Contains(Concat(f, xs), f(xs[k]))
  {
    ConcatPieceAt(f, xs, k);
  }

  /** A string contained in the middle part is contained in the whole. */
  lemma ContainsInMiddle(a: string, b: string, c: string, sub: string)
    requires Contains(b, sub)
    ensures Contains(a + b + c, sub)
  {
    var i :| 0 <= i <= |b| && OccursAt(b, sub, i);
    OccursInRight(a, b, sub, i);
    OccursInLeft(a + b, c, sub, |a| + i);
  }

  function Map(f: string -> string, xs: seq<string>): (r: seq<string>)
    ensures |r| == |xs|
    ensures forall k :: 0 <= k < |xs| ==> r[k] == f(xs[k])
  {
    seq(|xs|, k requires 0 <= k < |xs| => f(xs[k]))
  }

  // ---------------------------------------------------------------------------
  // Decimal numbers
  // ---------------------------------------------------------------------------

  function DigitChar(d: nat): char
    requires d < 10
  {
    ('0' as int + d) as char
  }

  /** Python `str(n)` for a natural number. */
  function NatToString(n: nat): (r: string)
    ensures r != [] && AllDigits(r)
  {
    if n < 10 then [DigitChar(n)] else NatToString(n / 10) + [DigitChar(n % 10)]
  }

  /** Python `int(s)` for a string of ASCII digits (leading zeros allowed). */
  function DigitsValue(s: string): nat
    requires AllDigits(s)
  {
    if s == [] then 0 else DigitsValue(s[..|s| - 1]) * 10 + (s[|s| - 1] as int - '0' as int)
  }

  /** Reading back the decimal rendering of `n` gives `n`. */
  lemma {:induction false} NatToStringRoundTrip(n: nat)
    ensures DigitsValue(NatToString(n)) == n
  {
    if n >= 10 {
      NatToStringRoundTrip(n / 10);
      var s := NatToString(n);
      assert s[..|s| - 1] == NatToString(n / 10);
    }
  }
}
