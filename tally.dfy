/**
 * Counting rows by key, as the source does with
 * `rows.reduce((acc, item) => { acc[k] = (acc[k] || 0) + 1; return acc }, {})`,
 * listing the counts with `Object.entries` (keys in insertion order, that
 * is, in the order they were first seen), and ranking them with a stable
 * sort on descending count followed by `slice(0, n)`.
 */
module Tally {
  import opened JsBuiltins

  /** One `[key, count]` pair of `Object.entries`. */
  datatype Entry<K> = Entry(key: K, count: nat)

  predicate Distinct<T(==)>(s: seq<T>)
  {
    forall i, j :: 0 <= i < j < |s| ==> s[i] != s[j]
  }

  // ---------------------------------------------------------------------
  // Specification of a tally

  /** Number of occurrences of `k` in `xs`. */
  function Count<K(==)>(xs: seq<K>, k: K): (n: nat)
    ensures n <= |xs|
    ensures n == 0 <==> k !in xs
  {
    if xs == [] then 0
    else
      assert xs == xs[..|xs| - 1] + [xs[|xs| - 1]];
      Count(xs[..|xs| - 1], k) + (if xs[|xs| - 1] == k then 1 else 0)
  }

  /** Count(xs + [x], k) in terms of Count(xs, k). */
  lemma CountSnoc<K>(xs: seq<K>, x: K, k: K)
    ensures Count(xs + [x], k) == Count(xs, k) + (if x == k then 1 else 0)
  {
    assert (xs + [x])[..|xs|] == xs;
  }

  /** The distinct elements of `xs`, in the order of their first occurrence. */
  function FirstSeen<K(==)>(xs: seq<K>): (ks: seq<K>)
    ensures Distinct(ks)
    ensures forall i :: 0 <= i < |ks| ==> ks[i] in xs
    ensures forall i :: 0 <= i < |xs| ==> xs[i] in ks
    ensures |ks| <= |xs|
  {
    if xs == [] then []
    else
      var p := FirstSeen(xs[..|xs| - 1]);
      var x := xs[|xs| - 1];
      assert xs == xs[..|xs| - 1] + [x];
      if x in p then p else p + [x]
  }

  /** Index of the first occurrence of `k` in `xs`. */
  function FirstIndex<K(==)>(xs: seq<K>, k: K): (i: nat)
    requires k in xs
    ensures i < |xs| && xs[i] == k && k !in xs[..i]
  {
    if k in xs[..|xs| - 1] then FirstIndex(xs[..|xs| - 1], k)
    else |xs| - 1
  }

  /** The keys `ks`, all occurring in `xs`, are in increasing order of first occurrence. */
  ghost predicate InFirstSeenOrder<K>(ks: seq<K>, xs: seq<K>)
  {
    forall i, j :: 0 <= i < j < |ks| && ks[i] in xs && ks[j] in xs ==>
      FirstIndex(xs, ks[i]) < FirstIndex(xs, ks[j])
  }

  /** FirstSeen lists the keys in increasing order of first occurrence. */
  lemma {:induction false} FirstSeenOrder<K>(xs: seq<K>)
    ensures InFirstSeenOrder(FirstSeen(xs), xs)
  {
    if xs != [] {
      var p := xs[..|xs| - 1];
      var x := xs[|xs| - 1];
      FirstSeenOrder(p);
      var ps := FirstSeen(p);
      var ks := FirstSeen(xs);
      forall i, j | 0 <= i < j < |ks| && ks[i] in xs && ks[j] in xs
        ensures FirstIndex(xs, ks[i]) < FirstIndex(xs, ks[j])
      {
        assert ks[i] == ps[i] && ps[i] in p;
        if j < |ps| {
          assert ks[j] == ps[j] && ps[j] in p;
          assert FirstIndex(p, ps[i]) < FirstIndex(p, ps[j]);
        } else {
          assert ks[j] == x && x !in p;
        }
      }
    }
  }

  /** The entries `Object.entries` yields for keys `ks` counted over `xs`. */
  function EntriesFor<K(==)>(ks: seq<K>, xs: seq<K>): (es: seq<Entry<K>>)
    ensures |es| == |ks|
    ensures forall i :: 0 <= i < |ks| ==> es[i] == Entry(ks[i], Count(xs, ks[i]))
  {
    if ks == [] then [] else [Entry(ks[0], Count(xs, ks[0]))] + EntriesFor(ks[1..], xs)
  }

  /** The tally of `xs`: one entry per distinct key, in first-seen order, with its count. */
  function Tallied<K(==)>(xs: seq<K>): seq<Entry<K>>
  {
    EntriesFor(FirstSeen(xs), xs)
  }

  function Keys<K>(es: seq<Entry<K>>): seq<K>
  {
    if es == [] then [] else [es[0].key] + Keys(es[1..])
  }

  function SumCounts<K>(es: seq<Entry<K>>): nat
  {
    if es == [] then 0 else es[0].count + SumCounts(es[1..])
  }

  /** Summing entry by entry from the left, as `reduce((a, b) => a + b, 0)` does. */
  lemma {:induction false} SumCountsSnoc<K>(es: seq<Entry<K>>, e: Entry<K>)
    ensures SumCounts(es + [e]) == SumCounts(es) + e.count
  {
    if es != [] {
      assert (es + [e])[1..] == es[1..] + [e];
      SumCountsSnoc(es[1..], e);
    }
  }

  /** Adding one `x` to the rows adds one to the total over distinct keys containing `x`. */
  lemma {:induction false} SumEntriesSnoc<K>(ks: seq<K>, xs: seq<K>, x: K)
    requires Distinct(ks)
    ensures SumCounts(EntriesFor(ks, xs + [x])) == SumCounts(EntriesFor(ks, xs)) + (if x in ks then 1 else 0)
  {
    if ks != [] {
      CountSnoc(xs, x, ks[0]);
      assert Distinct(ks[1..]);
      SumEntriesSnoc(ks[1..], xs, x);
      assert x == ks[0] ==> x !in ks[1..];
    }
  }

  lemma {:induction false} SumEntriesAppend<K>(ks: seq<K>, k: K, xs: seq<K>)
    ensures SumCounts(EntriesFor(ks + [k], xs)) == SumCounts(EntriesFor(ks, xs)) + Count(xs, k)
  {
    if ks == [] {
      assert EntriesFor([k], xs) == [Entry(k, Count(xs, k))];
    } else {
      assert (ks + [k])[1..] == ks[1..] + [k];
      SumEntriesAppend(ks[1..], k, xs);
    }
  }

  /** The counts of a tally add up to the number of rows. */
  lemma {:induction false} TalliedSum<K>(xs: seq<K>)
    ensures SumCounts(Tallied(xs)) == |xs|
  {
    if xs != [] {
      var p := xs[..|xs| - 1];
      var x := xs[|xs| - 1];
      assert xs == p + [x];
      TalliedSum(p);
      var ps := FirstSeen(p);
      SumEntriesSnoc(ps, p, x);
      if x !in ps {
        SumEntriesAppend(ps, x, xs);
        assert Count(xs, x) == 1 by {
          CountSnoc(p, x, x);
        }
      }
    }
  }

  /** Every entry of a tally carries a key of the rows and that key's exact count; keys are distinct. */
  lemma TalliedEntries<K>(xs: seq<K>)
    ensures var es := Tallied(xs);
      |es| == |FirstSeen(xs)| &&
      (forall e :: e in es ==> e.key in xs && e.count == Count(xs, e.key)) &&
      (forall k :: k in xs ==> Entry(k, Count(xs, k)) in es) &&
      Distinct(es)
  {
    var es := Tallied(xs);
    var ks := FirstSeen(xs);
    forall k | k in xs ensures Entry(k, Count(xs, k)) in es {
      var i :| 0 <= i < |ks| && ks[i] == k;
      assert es[i] == Entry(k, Count(xs, k));
    }
  }

  // ---------------------------------------------------------------------
  // The reduce itself

  /** `acc[k] = (acc[k] || 0) + 1`. */
  function CountInto<K>(counts: map<K, nat>, x: K): (r: map<K, nat>)
    ensures r.Keys == counts.Keys + {x}
    ensures r[x] == (if x in counts then counts[x] else 0) + 1
    ensures forall k :: k in counts && k != x ==> r[k] == counts[k]
  {
    counts[x := (if x in counts then counts[x] else 0) + 1]
  }

  /** The first-seen keys of a longer prefix. */
  lemma FirstSeenSnoc<K>(p: seq<K>, x: K)
    ensures FirstSeen(p + [x]) == if x in FirstSeen(p) then FirstSeen(p) else FirstSeen(p) + [x]
  {
    assert (p + [x])[..|p|] == p;
  }

  /** One row of the reduce keeps the dictionary equal to the tally of the rows seen so far. */
  lemma CountStep<K>(p: seq<K>, x: K, counts: map<K, nat>)
    requires forall k :: k in counts <==> k in p
    requires forall k :: k in counts ==> counts[k] == Count(p, k)
    ensures forall k :: k in CountInto(counts, x) <==> k in p + [x]
    ensures forall k :: k in CountInto(counts, x) ==> CountInto(counts, x)[k] == Count(p + [x], k)
  {
    forall k ensures Count(p + [x], k) == Count(p, k) + (if x == k then 1 else 0) {
      CountSnoc(p, x, k);
    }
  }

  /**
   * The `reduce` that builds the count dictionary: `keys` is the order in
   * which keys were inserted into the accumulator, `counts` its contents.
   */
  method CountByKey<K(==)>(xs: seq<K>) returns (keys: seq<K>, counts: map<K, nat>)
    ensures keys == FirstSeen(xs)
    ensures forall k :: k in counts <==> k in xs
    ensures forall k :: k in counts ==> counts[k] == Count(xs, k)
  {
    keys, counts := [], map[];
    for i := 0 to |xs|
      invariant keys == FirstSeen(xs[..i])
      invariant forall k :: k in counts <==> k in xs[..i]
      invariant forall k :: k in counts ==> counts[k] == Count(xs[..i], k)
    {
      var x := xs[i];
      assert xs[..i + 1] == xs[..i] + [x];
      FirstSeenSnoc(xs[..i], x);
      CountStep(xs[..i], x, counts);
      if x !in counts {
        keys := keys + [x];
      }
      counts := CountInto(counts, x);
    }
    assert xs[..|xs|] == xs;
  }

  /** `Object.entries(acc)` for a dictionary whose insertion order is `keys`. */
  function EntriesOf<K(==)>(keys: seq<K>, counts: map<K, nat>): (es: seq<Entry<K>>)
    requires forall k :: k in keys ==> k in counts
    ensures |es| == |keys|
    ensures forall i :: 0 <= i < |keys| ==> es[i] == Entry(keys[i], counts[keys[i]])
  {
    if keys == [] then [] else [Entry(keys[0], counts[keys[0]])] + EntriesOf(keys[1..], counts)
  }

  /** The dictionary built by CountByKey lists exactly the tally of its rows. */
  lemma CountByKeyEntries<K>(xs: seq<K>, keys: seq<K>, counts: map<K, nat>)
    requires keys == FirstSeen(xs)
    requires forall k :: k in counts <==> k in xs
    requires forall k :: k in counts ==> counts[k] == Count(xs, k)
    ensures EntriesOf(keys, counts) == Tallied(xs)
  {
  }

  // ---------------------------------------------------------------------
  // Stable sort on descending count, then slice(0, n)

  predicate NonIncreasing<K>(es: seq<Entry<K>>)
  {
    forall i, j :: 0 <= i < j < |es| ==> es[i].count >= es[j].count
  }

  /** Number of leading entries whose count is at least `c`. */
  function SplitPoint<K>(s: seq<Entry<K>>, c: nat): (k: nat)
    ensures k <= |s|
    ensures forall i :: 0 <= i < k ==> s[i].count >= c
    ensures k < |s| ==> s[k].count < c
  {
    if s == [] || s[0].count < c then 0 else 1 + SplitPoint(s[1..], c)
  }

  /** Inserts `e` after every entry whose count is at least its own. */
  function InsertDesc<K>(e: Entry<K>, s: seq<Entry<K>>): (r: seq<Entry<K>>)
    ensures multiset(r) == multiset(s) + multiset{e}
    ensures |r| == |s| + 1
  {
    var k := SplitPoint(s, e.count);
    assert s == s[..k] + s[k..];
    s[..k] + [e] + s[k..]
  }

  /** Where each element of `InsertDesc(e, s)` comes from. */
  lemma InsertDescAt<K>(e: Entry<K>, s: seq<Entry<K>>, i: nat)
    requires i <= |s|
    ensures var k := SplitPoint(s, e.count);
      InsertDesc(e, s)[i] == if i < k then s[i] else if i == k then e else s[i - 1]
  {
  }

  lemma InsertDescOrdered<K>(e: Entry<K>, s: seq<Entry<K>>)
    requires NonIncreasing(s)
    ensures NonIncreasing(InsertDesc(e, s))
  {
    var r := InsertDesc(e, s);
    var k := SplitPoint(s, e.count);
    forall i, j | 0 <= i < j < |r| ensures r[i].count >= r[j].count {
      InsertDescAt(e, s, i);
      InsertDescAt(e, s, j);
      if k < |s| && j > k {
        assert s[j - 1].count <= s[k].count;
      }
    }
  }

  /**
   * The stable sort `entries.sort(([, a], [, b]) => b - a)`: entries are
   * taken in order and each is placed after every entry already placed
   * whose count is at least its own.
   */
  function SortDesc<K>(es: seq<Entry<K>>): (r: seq<Entry<K>>)
    ensures multiset(r) == multiset(es)
    ensures NonIncreasing(r)
    ensures |r| == |es|
  {
    if es == [] then []
    else
      assert es == es[..|es| - 1] + [es[|es| - 1]];
      var q := SortDesc(es[..|es| - 1]);
      InsertDescOrdered(es[|es| - 1], q);
      InsertDesc(es[|es| - 1], q)
  }

  /** `a` occurs before `b` in `s`. */
  ghost predicate Precedes<T>(s: seq<T>, a: T, b: T)
  {
    exists i, j :: 0 <= i < j < |s| && s[i] == a && s[j] == b
  }

  lemma PrecedesSnoc<T>(s: seq<T>, x: T, a: T, b: T)
    requires Precedes(s, a, b)
    ensures Precedes(s + [x], a, b)
  {
    var i, j :| 0 <= i < j < |s| && s[i] == a && s[j] == b;
    assert (s + [x])[i] == a && (s + [x])[j] == b;
  }

  lemma PrecedesLast<T>(s: seq<T>, x: T, a: T)
    requires a in s
    ensures Precedes(s + [x], a, x)
  {
    var i :| 0 <= i < |s| && s[i] == a;
    assert (s + [x])[i] == a && (s + [x])[|s|] == x;
  }

  /** Ties in a list sorted from `p` are in their order in `p`. */
  ghost predicate TiesInOrder<K>(r: seq<Entry<K>>, p: seq<Entry<K>>)
  {
    forall i, j :: 0 <= i < j < |r| && r[i].count == r[j].count ==> Precedes(p, r[i], r[j])
  }

  /** One pair of positions in the stability step. */
  lemma StablePair<K>(p: seq<Entry<K>>, x: Entry<K>, q: seq<Entry<K>>, i: nat, j: nat)
    requires multiset(q) == multiset(p) && NonIncreasing(q) && TiesInOrder(q, p)
    requires i < j <= |q|
    requires InsertDesc(x, q)[i].count == InsertDesc(x, q)[j].count
    ensures Precedes(p + [x], InsertDesc(x, q)[i], InsertDesc(x, q)[j])
  {
    var k := SplitPoint(q, x.count);
    var r := InsertDesc(x, q);
    InsertDescAt(x, q, i);
    InsertDescAt(x, q, j);
    if j < k {
      PrecedesSnoc(p, x, q[i], q[j]);
    } else if j == k {
      assert q[i] in multiset(p);
      PrecedesLast(p, x, q[i]);
    } else if i == k {
      assert false;
    } else if i < k {
      PrecedesSnoc(p, x, q[i], q[j - 1]);
    } else {
      PrecedesSnoc(p, x, q[i - 1], q[j - 1]);
    }
  }

  /** The sort is stable: of two entries with equal counts, the one that came first stays first. */
  lemma {:induction false} SortDescStable<K>(es: seq<Entry<K>>)
    ensures TiesInOrder(SortDesc(es), es)
  {
    if es != [] {
      var n := |es| - 1;
      var p := es[..n];
      var x := es[n];
      assert es == p + [x];
      SortDescStable(p);
      var q := SortDesc(p);
      var r := SortDesc(es);
      assert r == InsertDesc(x, q);
      forall i, j | 0 <= i < j < |r| && r[i].count == r[j].count
        ensures Precedes(es, r[i], r[j])
      {
        StablePair(p, x, q, i, j);
      }
    }
  }

  lemma DistinctPermutation<T>(s: seq<T>, t: seq<T>)
    requires multiset(s) == multiset(t) && Distinct(s)
    ensures Distinct(t)
  {
    forall i, j | 0 <= i < j < |t| ensures t[i] != t[j] {
      if t[i] == t[j] {
        assert t == t[..i] + [t[i]] + t[i + 1..j] + [t[j]] + t[j + 1..];
        assert multiset(t)[t[i]] >= 2;
        DistinctMultiplicity(s, t[i]);
      }
    }
  }

  lemma {:induction false} DistinctMultiplicity<T>(s: seq<T>, x: T)
    requires Distinct(s)
    ensures multiset(s)[x] <= 1
  {
    if s != [] {
      assert s == [s[0]] + s[1..];
      assert Distinct(s[1..]);
      DistinctMultiplicity(s[1..], x);
      assert s[0] !in s[1..];
    }
  }

  /** The first `n` entries of the sorted list: `.sort(...).slice(0, n)`. */
  function TopN<K>(es: seq<Entry<K>>, n: nat): (r: seq<Entry<K>>)
    ensures |r| == Min(n, |es|)
    ensures NonIncreasing(r)
    ensures forall e :: e in r ==> e in es
  {
    var s := SortDesc(es);
    var r := s[..Min(n, |s|)];
    assert forall e :: e in r ==> e in multiset(s);
    r
  }

  /** Distinct entries stay distinct in the top-n list. */
  lemma TopNDistinct<K>(es: seq<Entry<K>>, n: nat)
    requires Distinct(es)
    ensures Distinct(TopN(es, n))
  {
    DistinctPermutation(es, SortDesc(es));
  }

  /** An entry left out of the top-n list has a count no larger than any listed one. */
  lemma TopNExcluded<K>(es: seq<Entry<K>>, n: nat, x: Entry<K>)
    requires x in es && x !in TopN(es, n)
    ensures forall e :: e in TopN(es, n) ==> x.count <= e.count
  {
    var s := SortDesc(es);
    var r := TopN(es, n);
    assert x in multiset(s);
    var p :| 0 <= p < |s| && s[p] == x;
    assert r == s[..|r|];
    if p < |r| {
      assert false;
    }
    forall e | e in r ensures x.count <= e.count {
      var q :| 0 <= q < |r| && r[q] == e;
      assert s[q] == e;
    }
  }

  /** Ties in the top-n list keep the order they had before sorting. */
  lemma TopNStable<K>(es: seq<Entry<K>>, n: nat)
    ensures TiesInOrder(TopN(es, n), es)
  {
    var s := SortDesc(es);
    SortDescStable(es);
    var r := TopN(es, n);
    assert r == s[..|r|];
    forall i, j | 0 <= i < j < |r| && r[i].count == r[j].count ensures Precedes(es, r[i], r[j]) {
      assert r[i] == s[i] && r[j] == s[j];
    }
  }

  // ---------------------------------------------------------------------
  // What a top-n list of a tally guarantees

  /** Exactly min(n, number of distinct keys) entries. */
  lemma TopTallySize<K>(xs: seq<K>, n: nat)
    ensures |TopN(Tallied(xs), n)| == Min(n, |FirstSeen(xs)|)
  {
  }

  /** Every listed entry is a key of the rows with its exact count, and no key is listed twice. */
  lemma TopTallyExact<K>(xs: seq<K>, n: nat)
    ensures var r := TopN(Tallied(xs), n);
      (forall e :: e in r ==> e.key in xs && e.count == Count(xs, e.key)) &&
      (forall i, j :: 0 <= i < j < |r| ==> r[i].key != r[j].key)
  {
    var es := Tallied(xs);
    var r := TopN(es, n);
    TalliedEntries(xs);
    TopNDistinct(es, n);
    forall i, j | 0 <= i < j < |r| ensures r[i].key != r[j].key {
      assert r[i] in es && r[j] in es;
    }
  }

  /** A key left out of the top-n list has no more rows than any listed key. */
  lemma TopTallyExcluded<K>(xs: seq<K>, n: nat, k: K)
    requires k in xs
    requires forall e :: e in TopN(Tallied(xs), n) ==> e.key != k
    ensures forall e :: e in TopN(Tallied(xs), n) ==> Count(xs, k) <= e.count
  {
    TalliedEntries(xs);
    TopNExcluded(Tallied(xs), n, Entry(k, Count(xs, k)));
  }

  /** Keys with equal counts stay in the order of their first occurrence in the rows. */
  lemma TopTallyTies<K>(xs: seq<K>, n: nat)
    ensures var r := TopN(Tallied(xs), n);
      forall i, j :: 0 <= i < j < |r| && r[i].count == r[j].count ==>
        r[i].key in xs && r[j].key in xs && FirstIndex(xs, r[i].key) < FirstIndex(xs, r[j].key)
  {
    var es := Tallied(xs);
    var ks := FirstSeen(xs);
    var r := TopN(es, n);
    TopNStable(es, n);
    FirstSeenOrder(xs);
    TalliedEntries(xs);
    forall i, j | 0 <= i < j < |r| && r[i].count == r[j].count
      ensures r[i].key in xs && r[j].key in xs && FirstIndex(xs, r[i].key) < FirstIndex(xs, r[j].key)
    {
      assert Precedes(es, r[i], r[j]);
      var a, b :| 0 <= a < b < |es| && es[a] == r[i] && es[b] == r[j];
      assert es[a].key == ks[a] && es[b].key == ks[b];
      assert ks[a] in xs && ks[b] in xs;
    }
  }
}
