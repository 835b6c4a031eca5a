/**
 * The legacy catalog search: a price hint read from the query, an additive relevance score per
 * catalog entry, a price band with ten per cent tolerance, and a stable sort by descending score.
 * The shared catalog records are tagged with their score while the search runs and untagged
 * before it returns.
 */
module Legacy {
  import opened Wrappers
  import opened Text
  import opened PriceHints
  import opened StableSort

  /** A catalog record. Prices are in dollars, taken as exact rationals. */
  datatype Entry = Entry(
    id: nat, name: string, price: real, image: string, category: string,
    description: string, rating: real, inStock: bool)

  /** The catalog prices, in catalog order. */
  const CatalogPrices: seq<real> :=
    [79.99, 249.99, 49.99, 29.99, 129.99, 39.99, 19.99, 24.99, 199.99, 179.99, 229.99]

  /** The eleven records of the legacy catalog, in catalog order. */
  function CatalogRecord(k: nat): Entry
    requires k < 11
  {
    match k
    case 0 => Entry(1, "Wireless Bluetooth Headphones", CatalogPrices[0],
          "https://images." + "unsplash.com/photo-" + "1505740420928-5e560c" + "06d30e?w=400",
          "Electronics",
          "Premium " + "noise-cancelling " + "wireless headphones " + "with 30-hour " + "battery life",
          4.5, true)
    case 1 => Entry(2, "Smart Watch Pro", CatalogPrices[1],
          "https://images." + "unsplash.com/photo-" + "1523275335684-37898b" + "6baf30?w=400",
          "Electronics",
          "Advanced fitness " + "tracking smartwatch " + "with heart rate " + "monitor and GPS",
          4.7, true)
    case 2 => Entry(3, "Laptop Backpack", CatalogPrices[2],
          "https://images." + "unsplash.com/photo-" + "1553062407-98eeb64c" + "6a62?w=400",
          "Accessories",
          "Durable laptop " + "backpack with USB " + "charging port and " + "water-resistant " + "material",
          4.3, true)
    case 3 => Entry(4, "Wireless Mouse", CatalogPrices[3],
          "https://images." + "unsplash.com/photo-" + "1527814050087-379381" + "5479db?w=400",
          "Electronics",
          "Ergonomic wireless " + "mouse with " + "precision tracking " + "and long battery " + "life",
          4.4, true)
    case 4 => Entry(5, "Mechanical Keyboard", CatalogPrices[4],
          "https://images." + "unsplash.com/photo-" + "1587829741301-dc798b" + "83add3?w=400",
          "Electronics",
          "RGB backlit " + "mechanical keyboard " + "with Cherry MX " + "switches",
          4.6, true)
    case 5 => Entry(6, "USB-C Hub", CatalogPrices[5],
          "https://images." + "unsplash.com/photo-" + "1625842268584-8f7623" + "b58d85?w=400",
          "Accessories",
          "7-in-1 USB-C hub " + "with HDMI, USB 3.0, " + "and SD card reader",
          4.2, true)
    case 6 => Entry(7, "Phone Stand", CatalogPrices[6],
          "https://images." + "unsplash.com/photo-" + "1601784551446-20c9e0" + "7cdbdb?w=400",
          "Accessories",
          "Adjustable aluminum " + "phone stand for " + "desk and car use",
          4.1, true)
    case 7 => Entry(8, "Wireless Charger", CatalogPrices[7],
          "https://images." + "unsplash.com/photo-" + "1609091839311-d5365f" + "9ff1c5?w=400",
          "Electronics",
          "Fast wireless " + "charging pad " + "compatible with all " + "Qi-enabled devices",
          4.5, true)
    case 8 => Entry(9, "Fitness Watch Elite", CatalogPrices[8],
          "https://images." + "unsplash.com/photo-" + "1579586337278-3befd4" + "0f17ca?w=400",
          "Electronics",
          "Premium fitness " + "smartwatch with " + "advanced health " + "monitoring and " + "10-day battery",
          4.6, true)
    case 9 => Entry(10, "Sport Watch Active", CatalogPrices[9],
          "https://images." + "unsplash.com/photo-" + "1523275335684-37898b" + "6baf30?w=400",
          "Electronics",
          "Rugged sports watch " + "with GPS, heart rate " + "monitor, and 14-day " + "battery life",
          4.4, true)
    case _ => Entry(11, "Classic Smart Watch", CatalogPrices[10],
          "https://images." + "unsplash.com/photo-" + "1523275335684-37898b" + "6baf30?w=400",
          "Electronics",
          "Elegant smartwatch " + "with premium design, " + "AMOLED display, and " +
          "comprehensive " + "health tracking",
          4.8, true)
  }

  /** The catalog as the list the search walks. */
  function Products(): (r: seq<Entry>)
    ensures |r| == 11
  {
    seq(11, k requires 0 <= k < 11 => CatalogRecord(k))
  }

  /** The synonym groups: a group scores when any of its words is in the query and its key is in the entry. */
  function SynonymGroups(): seq<(string, seq<string>)> {
  [
    ("watch", ["watch", "smartwatch", "smart watch", "timepiece", "wristwatch"]),
    ("headphone", ["headphone", "headphones", "earphone", "earphones", "audio"]),
    ("mouse", ["mouse", "computer mouse", "wireless mouse"]),
    ("keyboard", ["keyboard", "mechanical keyboard", "keyboard"]),
    ("backpack", ["backpack", "bag", "laptop bag", "rucksack"]),
    ("charger", ["charger", "wireless charger", "charging"]),
    ("hub", ["hub", "usb hub", "adapter"])
  ]
  }

  // ---------------------------------------------------------------------------
  // The price hint
  // ---------------------------------------------------------------------------

  /** A price range in dollars; `min` may exceed `max` when the query names them the other way round. */
  datatype PriceRange = PriceRange(min: real, max: real)

  const RupeesPerDollar: real := 83.0

  /**
   * The price hint of a query. A query with any `k` or "thousand" only tries the thousands
   * pattern (in rupees, converted at 83 to the dollar); otherwise a `$` tries the dollar amounts.
   */
  function ExtractPriceRange(query: string): (r: Option<PriceRange>)
    ensures r.Some? ==> Contains(Lower(query), "k") || Contains(Lower(query), "thousand") || Contains(query, "$")
  {
    var ql := Lower(query);
    if Contains(ql, "k") || Contains(ql, "thousand") then ThousandsRange(SearchK(ql, 0))
    else if Contains(query, "$") then DollarRange(DollarAmounts(query))
    else None
  }

  /** The thousands branch: N thousand rupees up to the second group, or to N + 5 thousand. */
  function ThousandsRange(m: Option<KMatch>): Option<PriceRange>
    requires m.Some? ==> WellFormed(m.value)
  {
    match m
    case None => None
    case Some(g) =>
      var inrMin := DigitsValue(g.low) as real * 1000.0;
      var inrMax := if g.high.Some? then DigitsValue(g.high.value) as real * 1000.0 else inrMin + 5000.0;
      Some(PriceRange(inrMin / RupeesPerDollar, inrMax / RupeesPerDollar))
  }

  /** The dollar branch: the first amount up to the second, or to the first plus 50. */
  function DollarRange(amounts: seq<string>): Option<PriceRange>
    requires forall k :: 0 <= k < |amounts| ==> AllDigits(amounts[k])
  {
    if |amounts| >= 1 then
      var lo := DigitsValue(amounts[0]) as real;
      Some(PriceRange(lo, if |amounts| >= 2 then DigitsValue(amounts[1]) as real else lo + 50.0))
    else None
  }

  /** A query with no `k` and no "thousand" but with a `$` takes the dollar branch. */
  lemma TakesDollarBranch(query: string)
    requires !Contains(Lower(query), "k") && !Contains(Lower(query), "thousand") && Contains(query, "$")
    ensures ExtractPriceRange(query) == DollarRange(DollarAmounts(query))
  {
  }

  /** A query with a `k` or "thousand" takes the thousands branch. */
  lemma TakesThousandsBranch(query: string)
    requires Contains(Lower(query), "k") || Contains(Lower(query), "thousand")
    ensures ExtractPriceRange(query) == ThousandsRange(SearchK(Lower(query), 0))
  {
  }

  /** The band a price must fall in: the range widened by a tenth of its width on each side. */
  predicate InBand(r: PriceRange, price: real)
    ensures r.min <= price <= r.max ==> InBand(r, price)
    ensures r.max < r.min ==> !InBand(r, price)
  {
    var tolerance := (r.max - r.min) * 0.1;
    r.min - tolerance <= price <= r.max + tolerance
  }

  predicate PassesPrice(range: Option<PriceRange>, price: real)
    ensures range.None? ==> PassesPrice(range, price)
    ensures range.Some? && range.value.min <= price <= range.value.max ==> PassesPrice(range, price)
  {
    range.None? || InBand(range.value, price)
  }

  // ---------------------------------------------------------------------------
  // The score
  // ---------------------------------------------------------------------------

  /** The lower-cased "name category description" text a query is matched against. */
  function EntryText(e: Entry): (r: string)
    ensures |r| == |e.name| + |e.category| + |e.description| + 2
    ensures forall k :: 0 <= k < |e.name| ==> r[k] == LowerChar(e.name[k])
  {
    Lower(e.name + " " + e.category + " " + e.description)
  }

  predicate GroupHit(ql: string, text: string, group: (string, seq<string>)) {
    (exists k | 0 <= k < |group.1| :: Contains(ql, group.1[k])) && Contains(text, group.0)
  }

  predicate AnyGroupHit(ql: string, text: string, groups: seq<(string, seq<string>)>) {
    exists k | 0 <= k < |groups| :: GroupHit(ql, text, groups[k])
  }

  /** Eight points for every group that scores. */
  function SynonymPoints(ql: string, text: string, groups: seq<(string, seq<string>)>): (r: nat)
    ensures r <= 8 * |groups|
    ensures r > 0 <==> AnyGroupHit(ql, text, groups)
  {
    if groups == [] then 0
    else
      var init := groups[..|groups| - 1];
      assert forall k :: 0 <= k < |init| ==> init[k] == groups[k];
      SynonymPoints(ql, text, init) + (if GroupHit(ql, text, groups[|groups| - 1]) then 8 else 0)
  }

  predicate WordHit(text: string, word: string) {
    |word| > 2 && Contains(text, word)
  }

  predicate AnyWordHit(text: string, words: seq<string>) {
    exists k | 0 <= k < |words| :: WordHit(text, words[k])
  }

  /** Two points for every query word longer than two characters that occurs in the text. */
  function WordPoints(text: string, words: seq<string>): (r: nat)
    ensures r <= 2 * |words|
    ensures r > 0 <==> AnyWordHit(text, words)
  {
    if words == [] then 0
    else
      var init := words[..|words| - 1];
      assert forall k :: 0 <= k < |init| ==> init[k] == words[k];
      WordPoints(text, init) + (if WordHit(text, words[|words| - 1]) then 2 else 0)
  }

  function DirectPoints(ql: string, text: string): nat {
    if Contains(text, ql) then 10 else 0
  }

  function Score(ql: string, text: string): (r: nat)
    ensures r <= 10 + 8 * |SynonymGroups()| + 2 * |Words(ql)|
  {
    DirectPoints(ql, text) + SynonymPoints(ql, text, SynonymGroups()) + WordPoints(text, Words(ql))
  }

  /** An entry scores exactly when the whole query, a synonym group or a long query word matches. */
  lemma ScorePositiveIff(ql: string, text: string)
    ensures Score(ql, text) > 0 <==>
      Contains(text, ql) || AnyGroupHit(ql, text, SynonymGroups()) || AnyWordHit(text, Words(ql))
  {
  }

  // ---------------------------------------------------------------------------
  // Filtering and ranking
  // ---------------------------------------------------------------------------

  /** An entry is returned when it passes the price band and scores above zero. */
  predicate Kept(e: Entry, query: string)
    ensures Kept(e, query) ==> var ql := Lower(query); var text := EntryText(e);
      Contains(text, ql) || AnyGroupHit(ql, text, SynonymGroups()) || AnyWordHit(text, Words(ql))
  {
    ScorePositiveIff(Lower(query), EntryText(e));
    PassesPrice(ExtractPriceRange(query), e.price) && Score(Lower(query), EntryText(e)) > 0
  }

  /** The score an entry is returned with, or `None` when it is dropped. */
  function Decision(e: Entry, query: string): Option<nat> {
    if Kept(e, query) then Some(Score(Lower(query), EntryText(e))) else None
  }

  /** The decision for every entry, in catalog order. */
  function Decisions(datas: seq<Entry>, query: string): (r: seq<Option<nat>>)
    ensures |r| == |datas|
  {
    if datas == [] then [] else Decisions(datas[..|datas| - 1], query) + [Decision(datas[|datas| - 1], query)]
  }

  lemma {:induction false} DecisionsAt(datas: seq<Entry>, query: string, j: nat)
    requires j < |datas|
    ensures Decisions(datas, query)[j] == Decision(datas[j], query)
  {
    if j < |datas| - 1 {
      DecisionsAt(datas[..|datas| - 1], query, j);
    }
  }

  predicate HasItem(s: seq<Keyed<nat>>, j: nat) {
    exists k | 0 <= k < |s| :: s[k].item == j
  }

  /** The positions below `n` that carry a score, paired with it, in increasing order. */
  function KeptPositions(ds: seq<Option<nat>>, n: nat): (r: seq<Keyed<nat>>)
    requires n <= |ds|
    ensures forall k :: 0 <= k < |r| ==> r[k].item < n && ds[r[k].item] == Some(r[k].key)
  {
    if n == 0 then []
    else KeptPositions(ds, n - 1) + (if ds[n - 1].Some? then [Keyed(n - 1, ds[n - 1].value)] else [])
  }

  /** Every scored position below `n` is listed, and the positions increase. */
  lemma KeptPositionsComplete(ds: seq<Option<nat>>, n: nat)
    requires n <= |ds|
    ensures forall j :: 0 <= j < n && ds[j].Some? ==> HasItem(KeptPositions(ds, n), j)
    ensures IncreasingItems(KeptPositions(ds, n))
  {
    KeptPositionsListed(ds, n);
    KeptPositionsIncrease(ds, n);
  }

  lemma {:induction false} KeptPositionsListed(ds: seq<Option<nat>>, n: nat)
    requires n <= |ds|
    ensures forall j :: 0 <= j < n && ds[j].Some? ==> HasItem(KeptPositions(ds, n), j)
  {
    if n > 0 {
      KeptPositionsListed(ds, n - 1);
      var prev := KeptPositions(ds, n - 1);
      var r := KeptPositions(ds, n);
      forall j | 0 <= j < n && ds[j].Some? ensures HasItem(r, j) {
        if j < n - 1 {
          var k :| 0 <= k < |prev| && prev[k].item == j;
          assert r[k] == prev[k];
        } else {
          assert r[|prev|].item == j;
        }
      }
    }
  }

  lemma {:induction false} KeptPositionsIncrease(ds: seq<Option<nat>>, n: nat)
    requires n <= |ds|
    ensures IncreasingItems(KeptPositions(ds, n))
  {
    if n > 0 {
      KeptPositionsIncrease(ds, n - 1);
    }
  }

  /** Sorting the scored positions keeps exactly the scored positions, ordered by score, ties by position. */
  lemma SortedPositions(ds: seq<Option<nat>>)
    ensures var r := SortDesc(KeptPositions(ds, |ds|));
      (forall k :: 0 <= k < |r| ==> r[k].item < |ds| && ds[r[k].item] == Some(r[k].key)) &&
      (forall j :: 0 <= j < |ds| && ds[j].Some? ==> HasItem(r, j)) &&
      Descending(r) && StableOrder(r)
  {
    var f := KeptPositions(ds, |ds|);
    SortedOnlyScored(ds);
    SortedAllScored(ds);
    SortDescSorted(f);
    KeptPositionsComplete(ds, |ds|);
    SortDescStable(f);
  }

  lemma SortedOnlyScored(ds: seq<Option<nat>>)
    ensures var r := SortDesc(KeptPositions(ds, |ds|));
      forall k :: 0 <= k < |r| ==> r[k].item < |ds| && ds[r[k].item] == Some(r[k].key)
  {
    var f := KeptPositions(ds, |ds|);
    var r: seq<Keyed<nat>> := SortDesc(f);
    SortDescSameElements<nat>(f);
    forall k | 0 <= k < |r| ensures r[k].item < |ds| && ds[r[k].item] == Some(r[k].key) {
      assert r[k] in r;
      var m :| 0 <= m < |f| && f[m] == r[k];
    }
  }

  lemma SortedAllScored(ds: seq<Option<nat>>)
    ensures forall j :: 0 <= j < |ds| && ds[j].Some? ==> HasItem(SortDesc(KeptPositions(ds, |ds|)), j)
  {
    var f := KeptPositions(ds, |ds|);
    var r: seq<Keyed<nat>> := SortDesc(f);
    KeptPositionsComplete(ds, |ds|);
    SortDescSameElements<nat>(f);
    forall j | 0 <= j < |ds| && ds[j].Some? ensures HasItem(r, j) {
      var m :| 0 <= m < |f| && f[m].item == j;
      assert f[m] in f;
      var k :| 0 <= k < |r| && r[k] == f[m];
    }
  }

  /** The search result, as catalog positions with their scores. */
  function Ranked(datas: seq<Entry>, query: string): (r: seq<Keyed<nat>>)
    ensures Descending(r)
    ensures forall x :: x in r ==> x.item < |datas|
  {
    var f := KeptPositions(Decisions(datas, query), |datas|);
    SortDescSorted(f);
    SortDescSameElements(f);
    SortDesc(f)
  }

  /** A position is ranked exactly when its entry is kept, and it carries that entry's score. */
  lemma RankedMembers(datas: seq<Entry>, query: string)
    ensures forall k :: 0 <= k < |Ranked(datas, query)| ==>
      var x := Ranked(datas, query)[k];
      x.item < |datas| && Kept(datas[x.item], query) && x.key == Score(Lower(query), EntryText(datas[x.item]))
    ensures forall j :: 0 <= j < |datas| && Kept(datas[j], query) ==> HasItem(Ranked(datas, query), j)
  {
    var ds := Decisions(datas, query);
    SortedPositions(ds);
    var r := Ranked(datas, query);
    forall k | 0 <= k < |r|
      ensures r[k].item < |datas| && Kept(datas[r[k].item], query)
      ensures r[k].key == Score(Lower(query), EntryText(datas[r[k].item]))
    {
      DecisionsAt(datas, query, r[k].item);
    }
    forall j | 0 <= j < |datas| && Kept(datas[j], query) ensures HasItem(r, j) {
      DecisionsAt(datas, query, j);
    }
  }

  /** When exactly one entry is kept, the ranking is that entry alone, with its score. */
  lemma RankedSingle(datas: seq<Entry>, query: string, j: nat)
    requires j < |datas| && Kept(datas[j], query)
    requires forall i :: 0 <= i < |datas| && i != j ==> !Kept(datas[i], query)
    ensures Ranked(datas, query) == [Keyed(j, Score(Lower(query), EntryText(datas[j])))]
  {
    var ds := Decisions(datas, query);
    var x := Keyed(j, Score(Lower(query), EntryText(datas[j])));
    DecisionsAt(datas, query, j);
    forall i | 0 <= i < |datas| && i != j ensures ds[i].None? {
      DecisionsAt(datas, query, i);
    }
    KeptPositionsSingle(ds, |datas|, j);
    assert SortDesc([x]) == [x];
  }

  /** With one scored position below `n`, the collected list is that position alone. */
  lemma {:induction false} KeptPositionsSingle(ds: seq<Option<nat>>, n: nat, j: nat)
    requires n <= |ds| && j < n && ds[j].Some?
    requires forall i :: 0 <= i < n && i != j ==> ds[i].None?
    ensures KeptPositions(ds, n) == [Keyed(j, ds[j].value)]
  {
    if n - 1 == j {
      KeptPositionsNone(ds, j);
    } else {
      KeptPositionsSingle(ds, n - 1, j);
    }
  }

  /** With no scored position below `n`, nothing is collected. */
  lemma {:induction false} KeptPositionsNone(ds: seq<Option<nat>>, n: nat)
    requires n <= |ds|
    requires forall i :: 0 <= i < n ==> ds[i].None?
    ensures KeptPositions(ds, n) == []
  {
    if n > 0 {
      KeptPositionsNone(ds, n - 1);
    }
  }

  /** Higher scores first; entries with equal scores stay in catalog order. */
  lemma RankedOrder(datas: seq<Entry>, query: string)
    ensures Descending(Ranked(datas, query))
    ensures StableOrder(Ranked(datas, query))
  {
    SortedPositions(Decisions(datas, query));
  }

  // ---------------------------------------------------------------------------
  // The search over the shared catalog records
  // ---------------------------------------------------------------------------

  /** A shared catalog record; the search tags it with its score and removes the tag again. */
  class CatalogEntry {
    const data: Entry
    var matchScore: Option<nat>

    constructor (data: Entry)
      ensures this.data == data && matchScore == None
    {
      this.data := data;
      matchScore := None;
    }
  }

  function Datas(catalog: seq<CatalogEntry>): (r: seq<Entry>)
    ensures |r| == |catalog| && forall j :: 0 <= j < |catalog| ==> r[j] == catalog[j].data
  {
    seq(|catalog|, j requires 0 <= j < |catalog| => catalog[j].data)
  }

  predicate Distinct(catalog: seq<CatalogEntry>) {
    forall i, j :: 0 <= i < j < |catalog| ==> catalog[i] != catalog[j]
  }

  /** The score of one entry, accumulated as the source does: whole query, then groups, then words. */
  method ScoreEntry(ql: string, text: string) returns (score: nat)
    ensures score == Score(ql, text)
  {
    score := 0;
    if Contains(text, ql) {
      score := score + 10;
    }
    var groupPoints := AddGroupPoints(ql, text, SynonymGroups());
    var wordPoints := AddWordPoints(text, Words(ql));
    score := score + groupPoints + wordPoints;
  }

  /** The loop over the synonym groups: eight points for each group that scores. */
  method AddGroupPoints(ql: string, text: string, groups: seq<(string, seq<string>)>) returns (points: nat)
    ensures points == SynonymPoints(ql, text, groups)
  {
    points := 0;
    for g := 0 to |groups|
      invariant points == SynonymPoints(ql, text, groups[..g])
    {
      assert groups[..g + 1][..g] == groups[..g];
      var group := groups[g];
      if (exists k | 0 <= k < |group.1| :: Contains(ql, group.1[k])) && Contains(text, group.0) {
        points := points + 8;
      }
    }
    assert groups[..|groups|] == groups;
  }

  /** The loop over the query words: two points for each long word the text contains. */
  method AddWordPoints(text: string, words: seq<string>) returns (points: nat)
    ensures points == WordPoints(text, words)
  {
    points := 0;
    for w := 0 to |words|
      invariant points == WordPoints(text, words[..w])
    {
      assert words[..w + 1][..w] == words[..w];
      var word := words[w];
      if |word| > 2 && Contains(text, word) {
        points := points + 2;
      }
    }
    assert words[..|words|] == words;
  }

  /**
   * One step of the scan for the record at position `i`: its score, then the price band,
   * then the score test. `None` means the record is skipped.
   */
  method Decide(catalog: seq<CatalogEntry>, query: string, ql: string, range: Option<PriceRange>, i: nat)
    returns (d: Option<nat>)
    requires i < |catalog| && ql == Lower(query) && range == ExtractPriceRange(query)
    ensures d == Decisions(Datas(catalog), query)[i]
  {
    var product := catalog[i];
    var score := ScoreEntry(ql, EntryText(product.data));
    if range.Some? && !InBand(range.value, product.data.price) {
      d := None;
    } else if score > 0 {
      d := Some(score);
    } else {
      d := None;
    }
    DecisionsAt(Datas(catalog), query, i);
  }

  /** `results` holds the records at the positions listed in `f`, in that order. */
  predicate Lookup(results: seq<CatalogEntry>, catalog: seq<CatalogEntry>, f: seq<Keyed<nat>>) {
    |results| == |f| && forall k :: 0 <= k < |f| ==> f[k].item < |catalog| && results[k] == catalog[f[k].item]
  }

  lemma LookupSnoc(results: seq<CatalogEntry>, catalog: seq<CatalogEntry>, f: seq<Keyed<nat>>, x: Keyed<nat>)
    requires Lookup(results, catalog, f) && x.item < |catalog|
    ensures Lookup(results + [catalog[x.item]], catalog, f + [x])
  {
  }

  /** The tag of every record, in catalog order. */
  ghost function Tags(catalog: seq<CatalogEntry>): (r: seq<Option<nat>>)
    reads catalog
    ensures |r| == |catalog| && forall j :: 0 <= j < |catalog| ==> r[j] == catalog[j].matchScore
  {
    seq(|catalog|, j requires 0 <= j < |catalog| reads catalog => catalog[j].matchScore)
  }

  /** The tags once the first `i` decisions are applied to the tags `before`. */
  function Tagged(ds: seq<Option<nat>>, i: nat, before: seq<Option<nat>>): (r: seq<Option<nat>>)
    requires i <= |ds| == |before|
    ensures |r| == |ds|
    ensures forall j :: 0 <= j < |ds| ==> r[j] == if j < i && ds[j].Some? then ds[j] else before[j]
  {
    seq(|ds|, j requires 0 <= j < |ds| => if j < i && ds[j].Some? then ds[j] else before[j])
  }

  lemma TaggedStep(ds: seq<Option<nat>>, i: nat, before: seq<Option<nat>>)
    requires i < |ds| == |before|
    ensures Tagged(ds, i + 1, before) == Tagged(ds, i, before)[i := if ds[i].Some? then ds[i] else before[i]]
  {
  }

  /** The body of the scan for position `i`: tag the record and append it when it is kept. */
  method ScanStep(catalog: seq<CatalogEntry>, query: string, ql: string, range: Option<PriceRange>, i: nat,
                  ghost ds: seq<Option<nat>>, results: seq<CatalogEntry>) returns (next: seq<CatalogEntry>)
    requires Distinct(catalog)
    requires i < |catalog| && ql == Lower(query) && range == ExtractPriceRange(query)
    requires ds == Decisions(Datas(catalog), query)
    requires Lookup(results, catalog, KeptPositions(ds, i))
    modifies catalog[i]
    ensures Lookup(next, catalog, KeptPositions(ds, i + 1))
    ensures Tags(catalog) == old(Tags(catalog))[i := if ds[i].Some? then ds[i] else old(catalog[i].matchScore)]
  {
    ghost var f := KeptPositions(ds, i);
    var product := catalog[i];
    var d := Decide(catalog, query, ql, range, i);
    if d.Some? {
      product.matchScore := d;
      LookupSnoc(results, catalog, f, Keyed(i, d.value));
      next := results + [product];
      assert KeptPositions(ds, i + 1) == f + [Keyed(i, d.value)];
    } else {
      next := results;
      assert KeptPositions(ds, i + 1) == f;
    }
  }

  /** The scan: tag and collect, in catalog order, every entry that is kept. */
  method TagMatches(catalog: seq<CatalogEntry>, query: string) returns (results: seq<CatalogEntry>)
    requires Distinct(catalog)
    modifies catalog
    ensures var f := KeptPositions(Decisions(Datas(catalog), query), |catalog|);
      |results| == |f| &&
      forall k :: 0 <= k < |f| ==> results[k] == catalog[f[k].item] && results[k].matchScore == Some(f[k].key)
    ensures var ds := Decisions(Datas(catalog), query);
      forall j :: 0 <= j < |catalog| ==>
        catalog[j].matchScore == if ds[j].Some? then ds[j] else old(catalog[j].matchScore)
  {
    var ql := Lower(query);
    var range := ExtractPriceRange(query);
    ghost var ds := Decisions(Datas(catalog), query);
    ghost var before := Tags(catalog);
    results := [];
    var i := 0;
    while i < |catalog|
      invariant 0 <= i <= |catalog|
      invariant Lookup(results, catalog, KeptPositions(ds, i))
      invariant Tags(catalog) == Tagged(ds, i, before)
    {
      results := ScanStep(catalog, query, ql, range, i, ds, results);
      TaggedStep(ds, i, before);
      i := i + 1;
    }
    TagsOfResults(catalog, ds, results, before);
  }

  /** After the scan, every collected record carries its score and every other tag is as it was. */
  lemma TagsOfResults(catalog: seq<CatalogEntry>, ds: seq<Option<nat>>, results: seq<CatalogEntry>,
                      before: seq<Option<nat>>)
    requires |ds| == |catalog| == |before|
    requires Lookup(results, catalog, KeptPositions(ds, |catalog|))
    requires Tags(catalog) == Tagged(ds, |catalog|, before)
    ensures var f := KeptPositions(ds, |catalog|);
      forall k :: 0 <= k < |f| ==> results[k].matchScore == Some(f[k].key)
    ensures forall j :: 0 <= j < |catalog| ==> catalog[j].matchScore == if ds[j].Some? then ds[j] else before[j]
  {
    var f := KeptPositions(ds, |catalog|);
    forall k | 0 <= k < |f| ensures results[k].matchScore == Some(f[k].key) {
      assert ds[f[k].item] == Some(f[k].key);
      assert Tags(catalog)[f[k].item] == catalog[f[k].item].matchScore;
    }
    forall j | 0 <= j < |catalog| ensures catalog[j].matchScore == if ds[j].Some? then ds[j] else before[j] {
      assert Tags(catalog)[j] == catalog[j].matchScore;
    }
  }

  /** Remove the tag from every record in `results`. */
  method ClearTags(results: seq<CatalogEntry>)
    modifies results
    ensures forall k :: 0 <= k < |results| ==> results[k].matchScore == None
  {
    var k := 0;
    while k < |results|
      invariant 0 <= k <= |results|
      invariant forall m :: 0 <= m < k ==> results[m].matchScore == None
    {
      results[k].matchScore := None;
      k := k + 1;
    }
  }

  /** Looking up sorted positions: the records that come out are exactly the kept ones. */
  lemma LookupKept(catalog: seq<CatalogEntry>, ds: seq<Option<nat>>, results: seq<CatalogEntry>)
    requires |ds| == |catalog| && Distinct(catalog)
    requires var r := SortDesc(KeptPositions(ds, |ds|));
      |results| == |r| && forall k :: 0 <= k < |r| ==> r[k].item < |catalog| && results[k] == catalog[r[k].item]
    ensures forall j :: 0 <= j < |catalog| ==> (catalog[j] in results <==> ds[j].Some?)
  {
    var r := SortDesc(KeptPositions(ds, |ds|));
    SortedOnlyScored(ds);
    SortedAllScored(ds);
    forall j | 0 <= j < |catalog|
      ensures catalog[j] in results <==> ds[j].Some?
    {
      LookupAt(catalog, ds, r, results, j);
    }
  }

  /** Looking up a list of exactly the scored positions yields the record of `j` exactly when `j` is scored. */
  lemma LookupAt(catalog: seq<CatalogEntry>, ds: seq<Option<nat>>, r: seq<Keyed<nat>>, results: seq<CatalogEntry>, j: nat)
    requires |ds| == |catalog| && Distinct(catalog) && j < |catalog|
    requires |results| == |r| && forall k :: 0 <= k < |r| ==> r[k].item < |catalog| && results[k] == catalog[r[k].item]
    requires forall k :: 0 <= k < |r| ==> r[k].item < |ds| && ds[r[k].item] == Some(r[k].key)
    requires forall i :: 0 <= i < |ds| && ds[i].Some? ==> HasItem(r, i)
    ensures catalog[j] in results <==> ds[j].Some?
  {
    if catalog[j] in results {
      var k :| 0 <= k < |results| && results[k] == catalog[j];
      assert catalog[r[k].item] == catalog[j];
    }
    if ds[j].Some? {
      var k :| 0 <= k < |r| && r[k].item == j;
      assert results[k] == catalog[j];
    }
  }

  /**
   * `search_products_legacy` over the shared records. The result is the records of `Ranked`,
   * in its order; afterwards the returned records carry no tag and the others are as they were.
   */
  method SearchLegacy(catalog: seq<CatalogEntry>, query: string) returns (results: seq<CatalogEntry>)
    requires Distinct(catalog)
    modifies catalog
    ensures var ranked := Ranked(Datas(catalog), query);
      |results| == |ranked| &&
      forall k :: 0 <= k < |ranked| ==> ranked[k].item < |catalog| && results[k] == catalog[ranked[k].item]
    ensures forall j :: 0 <= j < |catalog| ==>
      catalog[j].matchScore == if catalog[j] in results then None else old(catalog[j].matchScore)
  {
    ghost var ds := Decisions(Datas(catalog), query);
    ghost var f := KeptPositions(ds, |catalog|);
    ghost var ranked := Ranked(Datas(catalog), query);
    assert ranked == SortDesc(f);
    var found := TagMatches(catalog, query);
    // Sort by the tag, highest first; the sort is stable.
    var keyed := seq(|found|, k requires 0 <= k < |found| reads found =>
      Keyed(found[k], found[k].matchScore.GetOr(0)));
    assert Corresponds(f, keyed, catalog);
    SortCorresponds(f, keyed, catalog);
    var sorted := SortDesc(keyed);
    results := seq(|sorted|, k requires 0 <= k < |sorted| => sorted[k].item);
    LookupKept(catalog, ds, results);
    ClearTags(results);
  }
}
