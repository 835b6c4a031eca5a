/**
 * What the legacy price hint reads out of the usual query shapes, and the worked examples
 * that follow from it: which catalog prices a hint lets through.
 */
module LegacyFacts {
  import opened Wrappers
  import opened Text
  import opened PriceHints
  import opened Legacy
  import opened StableSort
  import ProductCard

  /** The thousands value `v` (in rupees, times 1000) as a dollar amount. */
  function Thousands(v: nat): real {
    (v as real * 1000.0) / RupeesPerDollar
  }

  lemma OccursK(prefix: string, d: string, rest: string)
    ensures OccursAt(prefix + d + "k" + rest, "k", |prefix| + |d|)
  {
    var s := prefix + d + "k" + rest;
    assert s[|prefix| + |d|] == 'k';
  }

  /** A query whose thousands pattern matches: group 2, when present, is the upper end; else N + 5 thousand. */
  lemma ThousandsOfMatch(query: string, m: KMatch)
    requires Contains(Lower(query), "k") && SearchK(Lower(query), 0) == Some(m)
    ensures WellFormed(m)
    ensures var r := ExtractPriceRange(query);
      r.Some? && r.value.min == Thousands(DigitsValue(m.low)) &&
      r.value.max == if m.high.Some? then Thousands(DigitsValue(m.high.value)) else Thousands(DigitsValue(m.low) + 5)
  {
    TakesThousandsBranch(query);
  }

  /** "... Nk ...": the range runs from N thousand to N + 5 thousand rupees. */
  lemma ThousandsSingle(prefix: string, d: string, rest: string)
    requires NoDigits(prefix) && d != [] && AllDigits(d)
    requires Lower(prefix + d + "k" + rest) == prefix + d + "k" + rest
    ensures ExtractPriceRange(prefix + d + "k" + rest) ==
      Some(PriceRange(Thousands(DigitsValue(d)), Thousands(DigitsValue(d) + 5)))
  {
    SingleKMatches(prefix, d, rest);
    ThousandsOfMatch(prefix + d + "k" + rest, KMatch(d, None));
  }

  lemma SingleKMatches(prefix: string, d: string, rest: string)
    requires NoDigits(prefix) && d != [] && AllDigits(d)
    requires Lower(prefix + d + "k" + rest) == prefix + d + "k" + rest
    ensures var ql := Lower(prefix + d + "k" + rest);
      Contains(ql, "k") && SearchK(ql, 0) == Some(KMatch(d, None))
  {
    OccursK(prefix, d, rest);
    SearchSingleK(prefix, d, rest);
  }

  /** "... L-Hk ...": the range runs from L to H thousand rupees. */
  lemma ThousandsRange(prefix: string, lo: string, hi: string, rest: string)
    requires NoDigits(prefix) && lo != [] && AllDigits(lo) && hi != [] && AllDigits(hi)
    requires Lower(prefix + lo + "-" + hi + "k" + rest) == prefix + lo + "-" + hi + "k" + rest
    ensures ExtractPriceRange(prefix + lo + "-" + hi + "k" + rest) ==
      Some(PriceRange(Thousands(DigitsValue(lo)), Thousands(DigitsValue(hi))))
  {
    var q := prefix + lo + "-" + hi + "k" + rest;
    assert q == (prefix + lo + "-") + hi + "k" + rest;
    OccursK(prefix + lo + "-", hi, rest);
    SearchRangeK(prefix, lo, hi, rest);
    ThousandsOfMatch(q, KMatch(lo, Some(hi)));
  }

  lemma OccursDollar(prefix: string, d: string)
    ensures Contains(prefix + "$" + d, "$")
  {
    var s := prefix + "$" + d;
    assert s[|prefix|] == '$';
    assert OccursAt(s, "$", |prefix|);
  }

  lemma OccursDollarPair(prefix: string, d1: string, d2: string)
    ensures Contains(prefix + "$" + d1 + "-$" + d2, "$")
  {
    var s := prefix + "$" + d1 + "-$" + d2;
    assert s[|prefix|] == '$';
    assert OccursAt(s, "$", |prefix|);
  }

  /** "... $P" with no `k` anywhere: the range runs from P to P + 50 dollars. */
  lemma DollarsSingle(prefix: string, d: string)
    requires forall k :: 0 <= k < |prefix| ==> prefix[k] != '$'
    requires d != [] && AllDigits(d)
    requires !Contains(Lower(prefix + "$" + d), "k") && !Contains(Lower(prefix + "$" + d), "thousand")
    ensures ExtractPriceRange(prefix + "$" + d) ==
      Some(PriceRange(DigitsValue(d) as real, DigitsValue(d) as real + 50.0))
  {
    OccursDollar(prefix, d);
    TakesDollarBranch(prefix + "$" + d);
    DollarSingle(prefix, d);
  }

  /** "... $P-$Q" with no `k` anywhere: the range runs from P to Q dollars. */
  lemma DollarsPair(prefix: string, d1: string, d2: string)
    requires forall k :: 0 <= k < |prefix| ==> prefix[k] != '$'
    requires d1 != [] && AllDigits(d1) && d2 != [] && AllDigits(d2)
    requires var q := prefix + "$" + d1 + "-$" + d2;
      !Contains(Lower(q), "k") && !Contains(Lower(q), "thousand")
    ensures ExtractPriceRange(prefix + "$" + d1 + "-$" + d2) ==
      Some(PriceRange(DigitsValue(d1) as real, DigitsValue(d2) as real))
  {
    var q := prefix + "$" + d1 + "-$" + d2;
    OccursDollarPair(prefix, d1, d2);
    TakesDollarBranch(q);
    DollarPair(prefix, d1, d2);
  }

  /**
   * Any `k` in the lower-cased query sends it down the thousands branch: when no `k` follows a
   * digit there, the query gets no price hint at all, whatever dollar amounts it holds.
   */
  lemma KBranchWithoutMatch(query: string)
    requires Contains(Lower(query), "k")
    requires var ql := Lower(query);
      forall j, l :: 0 <= j < l < |ql| && IsDigit(ql[j]) ==> ql[l] != 'k'
    ensures ExtractPriceRange(query) == None
  {
    TakesThousandsBranch(query);
    SearchNeedsKAfterDigit(Lower(query), 0);
  }

  /** "keyboard $100": the `k` of "keyboard" hides the dollar amount. */
  lemma KeyboardDollarHasNoHint()
    ensures ExtractPriceRange("keyboard $100") == None
  {
    var q := "keyboard $100";
    var ql := Lower(q);
    assert ql == q;
    assert OccursAt(ql, "k", 0);
    forall j, l | 0 <= j < l < |ql| && IsDigit(ql[j]) ensures ql[l] != 'k' {
      assert j >= 10;
    }
    KBranchWithoutMatch(q);
  }

  /** "$200-$250" (no `k`): the range runs from 200 to 250 dollars. */
  lemma DollarRangeExample()
    ensures ExtractPriceRange("$200-$250") == Some(PriceRange(200.0, 250.0))
  {
    DollarRangeExampleAt("$200-$250");
  }

  lemma DollarRangeExampleAt(q: string)
    requires q == "$200-$250"
    ensures ExtractPriceRange(q) == Some(PriceRange(200.0, 250.0))
  {
    DollarRangeExampleHasNoK(q);
    DollarRangeExampleParts(q);
    DollarsPair("", "200", "250");
    ThreeDigits("200", 200);
    ThreeDigits("250", 250);
  }

  lemma DollarRangeExampleHasNoK(q: string)
    requires q == "$200-$250"
    ensures !Contains(Lower(q), "k") && !Contains(Lower(q), "thousand")
  {
    DollarRangeExampleLower();
    AbsentFirstChar(q, "k");
    AbsentFirstChar(q, "thousand");
  }

  lemma DollarRangeExampleParts(q: string)
    requires q == "$200-$250"
    ensures q == "" + "$" + "200" + "-$" + "250"
  {
  }

  lemma DollarRangeExampleLower()
    ensures Lower("$200-$250") == "$200-$250"
  {
  }

  /** "watch 20k": the hint runs from 20,000 to 25,000 rupees. */
  lemma WatchTwentyKRange()
    ensures ExtractPriceRange("watch 20k") == Some(PriceRange(Thousands(20), Thousands(25)))
  {
    var q := "watch 20k";
    assert q == "watch " + "20" + "k" + "";
    assert Lower(q) == q;
    assert NoDigits("watch ");
    ThousandsSingle("watch ", "20", "");
    assert DigitsValue("20") == 20;
  }

  /**
   * With the "watch 20k" hint the band is [19,500, 25,500] rupees, so of the catalog's watches
   * only "Smart Watch Pro" (249.99) passes; "Classic Smart Watch" (229.99) falls just below it.
   */
  lemma WatchTwentyKBand()
    ensures var range := ExtractPriceRange("watch 20k");
      forall j :: 0 <= j < |CatalogPrices| ==> (PassesPrice(range, CatalogPrices[j]) <==> j == 1)
  {
    WatchTwentyKRange();
    TwentyKBand(ExtractPriceRange("watch 20k"));
  }

  /** With a 20,000 to 25,000 rupee hint, only the catalog's second price passes. */
  lemma TwentyKBand(range: Option<PriceRange>)
    requires range == Some(PriceRange(Thousands(20), Thousands(25)))
    ensures forall j :: 0 <= j < |CatalogPrices| ==> (PassesPrice(range, CatalogPrices[j]) <==> j == 1)
  {
    var r := range.value;
    assert r.min == 20000.0 / 83.0 && r.max == 25000.0 / 83.0;
    forall j | 0 <= j < |CatalogPrices| ensures InBand(r, CatalogPrices[j]) <==> j == 1 {
      PricesBelowBand(j);
    }
  }

  /** "watch under 20k": the hint runs from 20,000 to 25,000 rupees, as for "watch 20k". */
  lemma WatchUnderTwentyKRange(q: string)
    requires q == "watch under 20k"
    ensures ExtractPriceRange(q) == Some(PriceRange(Thousands(20), Thousands(25)))
  {
    assert q == "watch under " + "20" + "k" + "";
    WatchUnderTwentyKLower(q);
    assert NoDigits("watch under ");
    ThousandsSingle("watch under ", "20", "");
    assert DigitsValue("20") == 20;
  }

  lemma WatchUnderTwentyKLower(q: string)
    requires q == "watch under 20k"
    ensures Lower(q) == q
  {
  }

  /** The first word of "watch under 20k" is "watch". */
  lemma WatchUnderTwentyKWords(q: string)
    requires q == "watch under 20k"
    ensures Words(Lower(q)) != [] && Words(Lower(q))[0] == "watch"
  {
    WatchUnderTwentyKLower(q);
    assert q[..5] == "watch" && q[5] == ' ';
    assert ProductCard.OpensWith(q, "watch");
    ProductCard.WordsFirstWord(q, "watch");
  }

  /** A catalog record whose name holds "Watch" at `at` has "watch" in its scored text. */
  lemma NameWatch(e: Entry, at: nat)
    requires at + 5 <= |e.name| && e.name[at..at + 5] == "Watch"
    ensures Contains(EntryText(e), "watch")
  {
    var s := e.name + " " + e.category + " " + e.description;
    var l := EntryText(e);
    forall k | 0 <= k < 5 ensures l[at + k] == "watch"[k] {
      assert s[at + k] == e.name[at + k] == "Watch"[k];
    }
    assert l[at..at + 5] == "watch";
    assert OccursAt(l, "watch", at);
  }

  /** The `j`-th catalog entry is the `j`-th record, with the `j`-th price. */
  lemma CatalogAt(j: nat)
    requires j < 11
    ensures Products()[j] == CatalogRecord(j) && Products()[j].price == CatalogPrices[j]
  {
  }

  /** A query opening with the word "watch" scores every entry whose text holds "watch". */
  lemma WatchWordScores(ql: string, text: string)
    requires Words(ql) != [] && Words(ql)[0] == "watch" && Contains(text, "watch")
    ensures AnyWordHit(text, Words(ql)) && Score(ql, text) > 0
  {
    assert WordHit(text, Words(ql)[0]);
    ScorePositiveIff(ql, text);
  }

  /**
   * "watch under 20k" returns "Smart Watch Pro" alone: it is the one entry in the price band,
   * while "Fitness Watch Elite" (199.99) matches the words but falls below the band.
   */
  lemma WatchUnderTwentyK()
    ensures var q := "watch under 20k";
      Ranked(Products(), q) == [Keyed(1, Score(Lower(q), EntryText(Products()[1])))] &&
      Score(Lower(q), EntryText(Products()[8])) > 0 && !Kept(Products()[8], q)
  {
    WatchUnderTwentyKAt("watch under 20k");
  }

  lemma WatchUnderTwentyKAt(q: string)
    requires q == "watch under 20k"
    ensures Ranked(Products(), q) == [Keyed(1, Score(Lower(q), EntryText(Products()[1])))]
    ensures AnyWordHit(EntryText(Products()[1]), Words(Lower(q)))
    ensures Score(Lower(q), EntryText(Products()[8])) > 0 && !Kept(Products()[8], q)
  {
    WatchUnderOthersDropped(q);
    WatchUnderSmartWatchPro(q);
    WatchUnderFitnessWatchElite(q);
    RankedSingle(Products(), q, 1);
  }

  /** Every entry but the second is priced outside the "watch under 20k" band. */
  lemma WatchUnderOthersDropped(q: string)
    requires q == "watch under 20k"
    ensures forall i :: 0 <= i < |Products()| && i != 1 ==> !PassesPrice(ExtractPriceRange(q), Products()[i].price)
    ensures PassesPrice(ExtractPriceRange(q), Products()[1].price)
  {
    WatchUnderTwentyKRange(q);
    TwentyKBand(ExtractPriceRange(q));
    forall i | 0 <= i < |Products()| ensures Products()[i].price == CatalogPrices[i] {
      CatalogAt(i);
    }
  }

  /** "Smart Watch Pro" matches the word "watch". */
  lemma WatchUnderSmartWatchPro(q: string)
    requires q == "watch under 20k"
    ensures AnyWordHit(EntryText(Products()[1]), Words(Lower(q)))
    ensures Score(Lower(q), EntryText(Products()[1])) > 0
  {
    WatchUnderTwentyKWords(q);
    CatalogAt(1);
    NameWatch(Products()[1], 6);
    WatchWordScores(Lower(q), EntryText(Products()[1]));
  }

  /** "Fitness Watch Elite" matches the word "watch" as well. */
  lemma WatchUnderFitnessWatchElite(q: string)
    requires q == "watch under 20k"
    ensures Score(Lower(q), EntryText(Products()[8])) > 0
  {
    WatchUnderTwentyKWords(q);
    CatalogAt(8);
    NameWatch(Products()[8], 8);
    WatchWordScores(Lower(q), EntryText(Products()[8]));
  }

  /** The catalog prices against the band [19,500 / 83, 25,500 / 83]. */
  lemma PricesBelowBand(j: nat)
    requires j < |CatalogPrices|
    ensures (19500.0 / 83.0 <= CatalogPrices[j] <= 25500.0 / 83.0) <==> j == 1
  {
  }

  lemma ThreeDigits(s: string, n: nat)
    requires |s| == 3 && AllDigits(s)
    requires n == (s[0] as int - '0' as int) * 100 + (s[1] as int - '0' as int) * 10 + (s[2] as int - '0' as int)
    ensures DigitsValue(s) == n
  {
    var a, b := s[..1], s[..2];
    assert b[..1] == a && a[..0] == [] && a[0] == s[0] && b[1] == s[1];
    assert DigitsValue(a) == s[0] as int - '0' as int;
    assert DigitsValue(b) == DigitsValue(a) * 10 + (s[1] as int - '0' as int);
    assert s[..|s| - 1] == b;
  }
}
