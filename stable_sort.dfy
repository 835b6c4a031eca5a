/**
 * Python's `list.sort(key=..., reverse=True)`: a stable sort by descending key.
 * The library call is modelled by an insertion sort whose contract is proved:
 * the result is a permutation, its keys descend, and elements with equal keys keep their order.
 */
module StableSort {

  /** An element together with its sort key. */
  datatype Keyed<T> = Keyed(item: T, key: nat)

  predicate Descending<T>(s: seq<Keyed<T>>) {
    forall i, j :: 0 <= i < j < |s| ==> s[i].key >= s[j].key
  }

  /** Where `Insert` puts `x`: before the first element whose key is not larger. */
  function InsertPos<T>(x: Keyed<T>, s: seq<Keyed<T>>): (p: nat)
    ensures p <= |s|
    ensures forall k :: 0 <= k < p ==> s[k].key > x.key
    ensures p < |s| ==> s[p].key <= x.key
  {
    if s == [] || s[0].key <= x.key then 0 else 1 + InsertPos(x, s[1..])
  }

  function Insert<T>(x: Keyed<T>, s: seq<Keyed<T>>): (r: seq<Keyed<T>>)
    ensures multiset(r) == multiset{x} + multiset(s)
  {
    if s == [] || s[0].key <= x.key then [x] + s
    else
      assert s == [s[0]] + s[1..];
      [s[0]] + Insert(x, s[1..])
  }

  /** Inserting splices `x` in at `InsertPos` and leaves the rest of the list as it was. */
  lemma {:induction false} InsertSplices<T>(x: Keyed<T>, s: seq<Keyed<T>>)
    ensures Insert(x, s) == s[..InsertPos(x, s)] + [x] + s[InsertPos(x, s)..]
  {
    if s == [] || s[0].key <= x.key {
      assert s[..0] == [] && s[0..] == s;
    } else {
      var t := s[1..];
      InsertSplices(x, t);
      assert s == [s[0]] + t;
      ConsSplice(s[0], t, InsertPos(x, t), x);
    }
  }

  /** Splicing into a list with one more element in front moves the splice point by one. */
  lemma ConsSplice<T>(a: T, t: seq<T>, p: nat, x: T)
    requires p <= |t|
    ensures [a] + (t[..p] + [x] + t[p..]) == ([a] + t)[..p + 1] + [x] + ([a] + t)[p + 1..]
  {
    assert ([a] + t)[..p + 1] == [a] + t[..p];
    assert ([a] + t)[p + 1..] == t[p..];
  }

  /** `SortDesc`: each element is inserted into the sorted rest, so earlier elements win ties. */
  function SortDesc<T>(s: seq<Keyed<T>>): (r: seq<Keyed<T>>)
    ensures multiset(r) == multiset(s)
  {
    if s == [] then []
    else
      assert s == [s[0]] + s[1..];
      Insert(s[0], SortDesc(s[1..]))
  }

  lemma InsertDescending<T>(x: Keyed<T>, s: seq<Keyed<T>>)
    requires Descending(s)
    ensures Descending(Insert(x, s))
  {
    InsertSplices(x, s);
    var p := InsertPos(x, s);
    var r := Insert(x, s);
    forall i, j | 0 <= i < j < |r| ensures r[i].key >= r[j].key {
      SpliceAt(x, s, p, i);
      SpliceAt(x, s, p, j);
    }
  }

  /** The sorted list is a permutation of the input whose keys never increase. */
  lemma {:induction false} SortDescSorted<T>(s: seq<Keyed<T>>)
    ensures Descending(SortDesc(s))
    ensures multiset(SortDesc(s)) == multiset(s) && |SortDesc(s)| == |s|
  {
    if s != [] {
      SortDescSorted(s[1..]);
      InsertDescending(s[0], SortDesc(s[1..]));
    }
    assert |multiset(SortDesc(s))| == |multiset(s)|;
  }

  /** Sorting neither adds nor drops an element. */
  lemma SortDescSameElements<T>(s: seq<Keyed<T>>)
    ensures forall x :: x in SortDesc(s) <==> x in s
  {
    var r := SortDesc(s);
    forall x ensures x in r <==> x in s {
      assert x in r <==> x in multiset(r);
      assert x in s <==> x in multiset(s);
    }
  }

  // ---------------------------------------------------------------------------
  // Stability, stated on positions: tag each element with its index in the input
  // ---------------------------------------------------------------------------

  predicate IncreasingItems(s: seq<Keyed<nat>>) {
    forall i, j :: 0 <= i < j < |s| ==> s[i].item < s[j].item
  }

  /** Elements with equal keys appear in increasing position order. */
  predicate StableOrder(s: seq<Keyed<nat>>) {
    forall i, j :: 0 <= i < j < |s| && s[i].key == s[j].key ==> s[i].item < s[j].item
  }

  /** The element at index `i` of `s` with `x` spliced in at `p`. */
  lemma SpliceAt<T>(x: Keyed<T>, s: seq<Keyed<T>>, p: nat, i: nat)
    requires p <= |s| && i <= |s|
    ensures (s[..p] + [x] + s[p..])[i] == if i < p then s[i] else if i == p then x else s[i - 1]
  {
  }

  lemma InsertStable(x: Keyed<nat>, s: seq<Keyed<nat>>)
    requires StableOrder(s)
    requires forall k :: 0 <= k < |s| ==> x.item < s[k].item
    ensures StableOrder(Insert(x, s))
  {
    InsertSplices(x, s);
    var p := InsertPos(x, s);
    var r := Insert(x, s);
    forall i, j | 0 <= i < j < |r| && r[i].key == r[j].key ensures r[i].item < r[j].item {
      SpliceAt(x, s, p, i);
      SpliceAt(x, s, p, j);
    }
  }

  /** A stable sort: elements with equal keys keep the order they had in the input. */
  lemma {:induction false} SortDescStable(s: seq<Keyed<nat>>)
    requires IncreasingItems(s)
    ensures StableOrder(SortDesc(s))
  {
    if s != [] {
      var rest := s[1..];
      assert IncreasingItems(rest);
      SortDescStable(rest);
      var r := SortDesc(rest);
      forall k | 0 <= k < |r| ensures s[0].item < r[k].item {
        assert r[k] in multiset(rest);
        var m :| 0 <= m < |rest| && rest[m] == r[k];
        assert rest[m] == s[m + 1];
      }
      InsertStable(s[0], r);
    }
  }

  // ---------------------------------------------------------------------------
  // Sorting depends on the keys only
  // ---------------------------------------------------------------------------

  /** `b` is `a` with every position replaced by the element of `table` it indexes, keys kept. */
  ghost predicate Corresponds<T>(a: seq<Keyed<nat>>, b: seq<Keyed<T>>, table: seq<T>) {
    |a| == |b| &&
    forall k :: 0 <= k < |a| ==> a[k].key == b[k].key && a[k].item < |table| && b[k].item == table[a[k].item]
  }

  lemma {:induction false} InsertCorresponds<T>(x: Keyed<nat>, y: Keyed<T>, a: seq<Keyed<nat>>, b: seq<Keyed<T>>, table: seq<T>)
    requires x.key == y.key && x.item < |table| && y.item == table[x.item]
    requires Corresponds(a, b, table)
    ensures Corresponds(Insert(x, a), Insert(y, b), table)
  {
    if a == [] || a[0].key <= x.key {
    } else {
      assert Corresponds(a[1..], b[1..], table);
      InsertCorresponds(x, y, a[1..], b[1..], table);
    }
  }

  /** Sorting positions and then looking them up gives the same list as sorting the looked-up elements. */
  lemma {:induction false} SortCorresponds<T>(a: seq<Keyed<nat>>, b: seq<Keyed<T>>, table: seq<T>)
    requires Corresponds(a, b, table)
    ensures Corresponds(SortDesc(a), SortDesc(b), table)
  {
    if a != [] {
      assert Corresponds(a[1..], b[1..], table);
      SortCorresponds(a[1..], b[1..], table);
      InsertCorresponds(a[0], b[0], SortDesc(a[1..]), SortDesc(b[1..]), table);
    }
  }
}
