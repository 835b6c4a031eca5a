/**
 * The two price patterns of the backend, written out by hand:
 * `re.search(r'(\d+)[-\s]*(\d+)?\s*k', s)` (a "20-25k" or "20k" hint, in thousands) and
 * `re.findall(r'\$(\d+)', s)` (dollar amounts).
 */
module PriceHints {
  import opened Wrappers
  import opened Text

  predicate IsDashOrSpace(c: char) {
    c == '-' || IsPySpace(c)
  }

  /** The groups of a match of `(\d+)[-\s]*(\d+)?\s*k`: group 1, and group 2 when it took part. */
  datatype KMatch = KMatch(low: string, high: Option<string>)

  predicate WellFormed(m: KMatch) {
    m.low != [] && AllDigits(m.low) && (m.high.Some? ==> m.high.value != [] && AllDigits(m.high.value))
  }

  /**
   * The match of the pattern starting at index `i`, with the groups the backtracking engine reports.
   * Group 1 is the whole digit run at `i`; after the run of dashes and spaces comes either the `k`
   * (group 2 absent) or a second digit run that, after optional spaces, reaches the `k`.
   */
  function KMatchAt(s: string, i: nat): (r: Option<KMatch>)
    requires i < |s| && IsDigit(s[i])
    ensures r.Some? ==> WellFormed(r.value)
    ensures r.Some? ==> exists j | i < j < |s| :: s[j] == 'k'
  {
    var p := RunEnd(s, i, IsDigit);
    var q := RunEnd(s, p, IsDashOrSpace);
    if q < |s| && s[q] == 'k' then
      Some(KMatch(s[i..p], None))
    else if q < |s| && IsDigit(s[q]) then
      var t := RunEnd(s, q, IsDigit);
      var w := RunEnd(s, t, IsPySpace);
      if w < |s| && s[w] == 'k' then Some(KMatch(s[i..p], Some(s[q..t]))) else None
    else
      None
  }

  /** `re.search` of the thousands pattern: the leftmost position, at or after `i`, where it matches. */
  function SearchK(s: string, i: nat): (r: Option<KMatch>)
    decreases |s| - i
    ensures r.Some? ==> WellFormed(r.value)
  {
    if i >= |s| then None
    else if IsDigit(s[i]) && KMatchAt(s, i).Some? then KMatchAt(s, i)
    else SearchK(s, i + 1)
  }

  /** `re.findall(r'\$(\d+)', s)`: the digit run after every `$` that is followed by a digit. */
  function DollarAmounts(s: string): (r: seq<string>)
    decreases |s|
    ensures forall k :: 0 <= k < |r| ==> r[k] != [] && AllDigits(r[k])
  {
    if |s| < 2 then []
    else if s[0] == '$' && IsDigit(s[1]) then
      var n := RunEnd(s, 1, IsDigit);
      [s[1..n]] + DollarAmounts(s[n..])
    else
      DollarAmounts(s[1..])
  }

  // ---------------------------------------------------------------------------
  // What the thousands pattern finds in the usual query shapes
  // ---------------------------------------------------------------------------

  predicate NoDigits(s: string) {
    forall k :: 0 <= k < |s| ==> !IsDigit(s[k])
  }

  /** The search skips a prefix that holds no digit. */
  lemma {:induction false} SearchSkipsNonDigits(s: string, i: nat, n: nat)
    requires i <= n <= |s|
    requires forall k :: i <= k < n ==> !IsDigit(s[k])
    decreases n - i
    ensures SearchK(s, i) == SearchK(s, n)
  {
    if i < n {
      SearchSkipsNonDigits(s, i + 1, n);
    }
  }

  /** A run of class `inClass` that fills the middle part `d` ends where `d` ends. */
  lemma RunOverPart(a: string, d: string, b: string, inClass: char -> bool)
    requires forall k :: 0 <= k < |d| ==> inClass(d[k])
    requires b == [] || !inClass(b[0])
    ensures RunEnd(a + d + b, |a|, inClass) == |a| + |d|
  {
    var s := a + d + b;
    forall k | |a| <= k < |a| + |d| ensures inClass(s[k]) {
      assert s[k] == d[k - |a|];
    }
    if b != [] {
      assert s[|a| + |d|] == b[0];
    }
  }

  /** A run of class `inClass` from `i` to `n`, with `n` the end of the string or outside the class. */
  lemma RunTo(s: string, i: nat, n: nat, inClass: char -> bool)
    requires i <= n <= |s|
    requires forall k :: i <= k < n ==> inClass(s[k])
    requires n == |s| || !inClass(s[n])
    ensures RunEnd(s, i, inClass) == n
  {
  }

  /** The thousands pattern at `i` over the digits `s[i..p]` directly followed by `k`. */
  lemma SingleAt(s: string, i: nat, p: nat)
    requires i < p < |s| && s[p] == 'k'
    requires forall k :: i <= k < p ==> IsDigit(s[k])
    ensures IsDigit(s[i]) && KMatchAt(s, i) == Some(KMatch(s[i..p], None))
  {
    RunTo(s, i, p, IsDigit);
    RunTo(s, p, p, IsDashOrSpace);
  }

  /** The thousands pattern at `i` over the digits `s[i..p]`, a dash, the digits `s[p + 1..t]` and `k`. */
  lemma RangeAt(s: string, i: nat, p: nat, t: nat)
    requires i < p && p + 1 < t < |s| && s[p] == '-' && s[t] == 'k'
    requires forall k :: i <= k < p ==> IsDigit(s[k])
    requires forall k :: p + 1 <= k < t ==> IsDigit(s[k])
    ensures IsDigit(s[i]) && KMatchAt(s, i) == Some(KMatch(s[i..p], Some(s[p + 1..t])))
  {
    RangeRunEnds(s, i, p, t);
    assert IsDigit(s[p + 1]) && s[p + 1] != 'k';
  }

  lemma RangeRunEnds(s: string, i: nat, p: nat, t: nat)
    requires i < p && p + 1 < t < |s| && s[p] == '-' && s[t] == 'k'
    requires forall k :: i <= k < p ==> IsDigit(s[k])
    requires forall k :: p + 1 <= k < t ==> IsDigit(s[k])
    ensures RunEnd(s, i, IsDigit) == p && RunEnd(s, p, IsDashOrSpace) == p + 1
    ensures RunEnd(s, p + 1, IsDigit) == t && RunEnd(s, t, IsPySpace) == t
  {
    RunTo(s, i, p, IsDigit);
    RunTo(s, p, p + 1, IsDashOrSpace);
    RunTo(s, p + 1, t, IsDigit);
    RunTo(s, t, t, IsPySpace);
  }

  /** Where the parts of `s == prefix + d + "k" + rest` sit. */
  lemma SingleLayout(prefix: string, d: string, rest: string, s: string, p: nat)
    requires s == prefix + d + "k" + rest && p == |prefix| + |d|
    ensures p < |s| && s[p] == 'k' && s[|prefix|..p] == d
    ensures forall k :: 0 <= k < |prefix| ==> s[k] == prefix[k]
    ensures forall k :: |prefix| <= k < p ==> s[k] == d[k - |prefix|]
  {
    assert s == prefix + d + ("k" + rest);
  }

  /** Where the parts of `s == prefix + lo + "-" + hi + "k" + rest` sit. */
  lemma RangeLayout(prefix: string, lo: string, hi: string, rest: string, s: string, p: nat, t: nat)
    requires s == prefix + lo + "-" + hi + "k" + rest && p == |prefix| + |lo| && t == p + 1 + |hi|
    ensures t < |s| && s[p] == '-' && s[t] == 'k' && s[|prefix|..p] == lo && s[p + 1..t] == hi
    ensures forall k :: 0 <= k < |prefix| ==> s[k] == prefix[k]
    ensures forall k :: |prefix| <= k < p ==> s[k] == lo[k - |prefix|]
    ensures forall k :: p + 1 <= k < t ==> s[k] == hi[k - p - 1]
  {
    var u := prefix + lo + "-";
    assert s == u + hi + ("k" + rest);
    assert u == prefix + lo + "-";
  }

  /** "... Nk ...": a single thousands value, group 2 absent. */
  lemma SearchSingleK(prefix: string, d: string, rest: string)
    requires NoDigits(prefix) && d != [] && AllDigits(d)
    ensures SearchK(prefix + d + "k" + rest, 0) == Some(KMatch(d, None))
  {
    var s := prefix + d + "k" + rest;
    var p := |prefix| + |d|;
    SingleLayout(prefix, d, rest, s, p);
    SearchSkipsNonDigits(s, 0, |prefix|);
    SingleAt(s, |prefix|, p);
    SearchAt(s, |prefix|);
  }

  /** "... L-Hk ...": a thousands range, both groups present. */
  lemma SearchRangeK(prefix: string, lo: string, hi: string, rest: string)
    requires NoDigits(prefix) && lo != [] && AllDigits(lo) && hi != [] && AllDigits(hi)
    ensures SearchK(prefix + lo + "-" + hi + "k" + rest, 0) == Some(KMatch(lo, Some(hi)))
  {
    var s := prefix + lo + "-" + hi + "k" + rest;
    var p := |prefix| + |lo|;
    var t := p + 1 + |hi|;
    RangeLayout(prefix, lo, hi, rest, s, p, t);
    SearchSkipsNonDigits(s, 0, |prefix|);
    RangeAt(s, |prefix|, p, t);
    SearchAt(s, |prefix|);
  }

  /** A match at `i` is what the search from `i` reports. */
  lemma SearchAt(s: string, i: nat)
    requires i < |s| && IsDigit(s[i]) && KMatchAt(s, i).Some?
    ensures SearchK(s, i) == KMatchAt(s, i)
  {
  }

  /** The pattern needs a `k` somewhere after a digit: without one there is no match. */
  lemma {:induction false} SearchNeedsKAfterDigit(s: string, i: nat)
    requires forall j, l :: 0 <= j < l < |s| && IsDigit(s[j]) ==> s[l] != 'k'
    decreases |s| - i
    ensures SearchK(s, i) == None
  {
    if i < |s| {
      SearchNeedsKAfterDigit(s, i + 1);
    }
  }

  /** A `$` and a digit run `d` yield `d`, and the search goes on after the run. */
  lemma DollarHead(d: string, t: string)
    requires d != [] && AllDigits(d)
    requires t == [] || !IsDigit(t[0])
    ensures DollarAmounts("$" + d + t) == [d] + DollarAmounts(t)
  {
    var s := "$" + d + t;
    RunOverPart("$", d, t, IsDigit);
    assert s[1] == d[0];
    assert s[1..1 + |d|] == d;
    assert s[1 + |d|..] == t;
  }

  /** "... $P ...": one dollar amount. */
  lemma DollarSingle(prefix: string, d: string)
    requires forall k :: 0 <= k < |prefix| ==> prefix[k] != '$'
    requires d != [] && AllDigits(d)
    ensures DollarAmounts(prefix + "$" + d) == [d]
  {
    assert prefix + "$" + d == prefix + ("$" + d + "");
    DollarAfterPrefix(prefix, "$" + d + "");
    DollarHead(d, "");
  }

  /** "... $P-$Q": two dollar amounts. */
  lemma DollarPair(prefix: string, d1: string, d2: string)
    requires forall k :: 0 <= k < |prefix| ==> prefix[k] != '$'
    requires d1 != [] && AllDigits(d1) && d2 != [] && AllDigits(d2)
    ensures DollarAmounts(prefix + "$" + d1 + "-$" + d2) == [d1, d2]
  {
    var t := "-$" + d2;
    PairRegroups(prefix, d1, d2);
    DollarAfterPrefix(prefix, "$" + d1 + t);
    DollarHead(d1, t);
    DashDollar(d2);
  }

  lemma PairRegroups(prefix: string, d1: string, d2: string)
    ensures prefix + "$" + d1 + "-$" + d2 == prefix + ("$" + d1 + ("-$" + d2))
  {
    var t := "-$" + d2;
    AppendAssoc(prefix + "$" + d1, "-$", d2);
    AppendAssoc(prefix + "$", d1, t);
    AppendAssoc(prefix, "$", d1 + t);
    AppendAssoc("$", d1, t);
  }

  /** "-$Q": the dash is skipped and the amount read. */
  lemma DashDollar(d: string)
    requires d != [] && AllDigits(d)
    ensures DollarAmounts("-$" + d) == [d]
  {
    var t := "-$" + d;
    assert t[0] == '-';
    assert t[1..] == "$" + d + "";
    DollarHead(d, "");
  }

  /** A prefix without `$` contributes no dollar amount. */
  lemma {:induction false} DollarAfterPrefix(prefix: string, s: string)
    requires forall k :: 0 <= k < |prefix| ==> prefix[k] != '$'
    requires |s| >= 2
    ensures DollarAmounts(prefix + s) == DollarAmounts(s)
  {
    if prefix != [] {
      assert (prefix + s)[0] == prefix[0];
      assert (prefix + s)[1..] == prefix[1..] + s;
      DollarAfterPrefix(prefix[1..], s);
    } else {
      assert prefix + s == s;
    }
  }
}
