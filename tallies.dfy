/** Plain JavaScript objects used as dictionaries from a key to a running
    total (`totals[k] = (totals[k] || 0) + amount`), seen through
    `Object.entries`: a list of key/amount entries in insertion order.  Also
    the two ways the tracker picks from such a dictionary: the "peak"
    reduction and the stable descending sort followed by a slice. */
module Tallies {
  import opened Ledger

  /** One `[key, amount]` entry. */
  datatype Tally<K> = Tally(key: K, amount: real)

  predicate HasKey<K(==)>(ts: seq<Tally<K>>, k: K) {
    exists i :: 0 <= i < |ts| && ts[i].key == k
  }

  predicate DistinctKeys<K(==)>(ts: seq<Tally<K>>) {
    forall i, j :: 0 <= i < j < |ts| ==> ts[i].key != ts[j].key
  }

  /** `m[k] || 0`. */
  function AmountOf<K(==)>(ts: seq<Tally<K>>, k: K): real {
    if ts == [] then 0.0 else (if ts[0].key == k then ts[0].amount else 0.0) + AmountOf(ts[1..], k)
  }

  function SumTallies<K>(ts: seq<Tally<K>>): real {
    if ts == [] then 0.0 else ts[0].amount + SumTallies(ts[1..])
  }

  /** `m[k] = (m[k] || 0) + v`: an existing key keeps its place, a new key goes last. */
  function Bump<K(==,!new)>(ts: seq<Tally<K>>, k: K, v: real): (r: seq<Tally<K>>)
    ensures !HasKey(ts, k) ==> r == ts + [Tally(k, v)]
    ensures forall c :: AmountOf(r, c) == AmountOf(ts, c) + (if c == k then v else 0.0)
    ensures SumTallies(r) == SumTallies(ts) + v
  {
    if ts == [] then [Tally(k, v)]
    else if ts[0].key == k then [Tally(k, ts[0].amount + v)] + ts[1..]
    else
      assert !HasKey(ts, k) ==> !HasKey(ts[1..], k) by {
        if HasKey(ts[1..], k) {
          var i :| 0 <= i < |ts[1..]| && ts[1..][i].key == k;
          assert ts[i + 1].key == k;
        }
      }
      [ts[0]] + Bump(ts[1..], k, v)
  }

  /** Bumping keeps every key in its place and appends `k` when it is new. */
  lemma {:induction false} BumpShape<K(!new)>(ts: seq<Tally<K>>, k: K, v: real)
    ensures |Bump(ts, k, v)| == if HasKey(ts, k) then |ts| else |ts| + 1
    ensures forall i :: 0 <= i < |ts| ==> Bump(ts, k, v)[i].key == ts[i].key
  {
    if ts != [] && ts[0].key != k {
      BumpShape(ts[1..], k, v);
      assert HasKey(ts, k) ==> HasKey(ts[1..], k) by {
        if HasKey(ts, k) {
          var i :| 0 <= i < |ts| && ts[i].key == k;
          assert ts[1..][i - 1].key == k;
        }
      }
      assert HasKey(ts[1..], k) ==> HasKey(ts, k) by {
        if HasKey(ts[1..], k) {
          var i :| 0 <= i < |ts[1..]| && ts[1..][i].key == k;
          assert ts[i + 1].key == k;
        }
      }
    } else if ts != [] {
      assert HasKey(ts, k) by { assert ts[0].key == k; }
    }
  }

  /** Bumping keeps the keys distinct and adds exactly `k` to the key set. */
  lemma BumpKeys<K(!new)>(ts: seq<Tally<K>>, k: K, v: real)
    requires DistinctKeys(ts)
    ensures DistinctKeys(Bump(ts, k, v))
    ensures forall c :: HasKey(Bump(ts, k, v), c) <==> HasKey(ts, c) || c == k
  {
    var r := Bump(ts, k, v);
    BumpShape(ts, k, v);
    forall c ensures HasKey(r, c) <==> HasKey(ts, c) || c == k {
      BumpHasKey(ts, k, v, c);
    }
    forall i, j | 0 <= i < j < |r| ensures r[i].key != r[j].key {
      if j == |ts| {
        assert r[i].key == ts[i].key;
      }
    }
  }

  lemma BumpHasKey<K(!new)>(ts: seq<Tally<K>>, k: K, v: real, c: K)
    ensures HasKey(Bump(ts, k, v), c) <==> HasKey(ts, c) || c == k
  {
    var r := Bump(ts, k, v);
    BumpShape(ts, k, v);
    if HasKey(r, c) {
      var i :| 0 <= i < |r| && r[i].key == c;
      if i < |ts| {
        assert ts[i].key == c;
      }
    }
    if HasKey(ts, c) {
      var i :| 0 <= i < |ts| && ts[i].key == c;
      assert r[i].key == c;
    }
    if c == k && !HasKey(ts, k) {
      assert r[|ts|].key == k;
    }
  }

  /** With distinct keys, an entry's amount is the dictionary's value for its key. */
  lemma {:induction false} AmountOfEntry<K>(ts: seq<Tally<K>>, i: nat)
    requires DistinctKeys(ts) && i < |ts|
    ensures AmountOf(ts, ts[i].key) == ts[i].amount
  {
    if i == 0 {
      AmountOfAbsent(ts[1..], ts[0].key);
    } else {
      AmountOfEntry(ts[1..], i - 1);
    }
  }

  lemma {:induction false} AmountOfAbsent<K>(ts: seq<Tally<K>>, k: K)
    requires forall i :: 0 <= i < |ts| ==> ts[i].key != k
    ensures AmountOf(ts, k) == 0.0
  {
    if ts != [] {
      AmountOfAbsent(ts[1..], k);
    }
  }

  /** What the per-category `forEach` accumulation leaves behind. */
  function CategoryTotals(ts: seq<Transaction>): seq<Tally<string>> {
    if ts == [] then []
    else Bump(CategoryTotals(ts[..|ts| - 1]), ts[|ts| - 1].category, ts[|ts| - 1].amount)
  }

  /** One entry per category, in order of first appearance, holding that
      category's total; the entries add up to the total of all transactions. */
  lemma {:induction false} CategoryTotalsSpec(ts: seq<Transaction>)
    ensures DistinctKeys(CategoryTotals(ts))
    ensures forall c :: HasKey(CategoryTotals(ts), c) <==> HasCategory(ts, c)
    ensures forall c :: AmountOf(CategoryTotals(ts), c) == CategorySum(ts, c)
    ensures SumTallies(CategoryTotals(ts)) == Sum(ts)
  {
    if ts != [] {
      var init, t := ts[..|ts| - 1], ts[|ts| - 1];
      assert ts == init + [t];
      CategoryTotalsSpec(init);
      BumpKeys(CategoryTotals(init), t.category, t.amount);
      SumAppend(init, [t]);
      forall c ensures CategorySum(ts, c) == CategorySum(init, c) + (if t.category == c then t.amount else 0.0) {
        FilterSumSnoc(init, t, InCategory(c));
      }
      forall c ensures HasCategory(ts, c) <==> HasCategory(init, c) || c == t.category {
        HasCategorySnoc(init, t, c);
      }
    }
  }

  /** Every entry of the category totals holds its category's total. */
  lemma CategoryTotalsKey(ts: seq<Transaction>, i: nat)
    requires i < |CategoryTotals(ts)|
    ensures HasCategory(ts, CategoryTotals(ts)[i].key)
  {
    CategoryTotalsSpec(ts);
    assert HasKey(CategoryTotals(ts), CategoryTotals(ts)[i].key);
  }

  lemma CategoryTotalsHasKey(ts: seq<Transaction>, c: string)
    requires HasCategory(ts, c)
    ensures HasKey(CategoryTotals(ts), c)
  {
    CategoryTotalsSpec(ts);
  }

  lemma CategoryTotalsEntry(ts: seq<Transaction>, i: nat)
    requires i < |CategoryTotals(ts)|
    ensures CategoryTotals(ts)[i].amount == CategorySum(ts, CategoryTotals(ts)[i].key)
  {
    CategoryTotalsSpec(ts);
    AmountOfEntry(CategoryTotals(ts), i);
  }

  /** `Object.keys(m).reduce((a, b) => m[a] > m[b] ? a : b)`: a maximal entry,
      and of several maximal entries the LAST one, because the reduction only
      keeps the accumulator when it is strictly larger. */
  function PeakIndex<K>(ts: seq<Tally<K>>): (i: nat)
    requires |ts| > 0
    ensures i < |ts|
    ensures forall j :: 0 <= j < |ts| ==> ts[j].amount <= ts[i].amount
    ensures forall j :: i < j < |ts| ==> ts[j].amount < ts[i].amount
  {
    if |ts| == 1 then 0
    else
      var p := PeakIndex(ts[..|ts| - 1]);
      if ts[p].amount > ts[|ts| - 1].amount then p else |ts| - 1
  }

  /** The first maximal entry: the reference for what a stable descending
      sort puts in front. */
  function FirstMaxIndex<K>(ts: seq<Tally<K>>): (i: nat)
    requires |ts| > 0
    ensures i < |ts|
    ensures forall j :: 0 <= j < |ts| ==> ts[j].amount <= ts[i].amount
    ensures forall j :: 0 <= j < i ==> ts[j].amount < ts[i].amount
  {
    if |ts| == 1 then 0
    else
      var k := FirstMaxIndex(ts[1..]) + 1;
      if ts[0].amount >= ts[k].amount then 0 else k
  }

  predicate Descending<K>(ts: seq<Tally<K>>) {
    forall i, j :: 0 <= i < j < |ts| ==> ts[i].amount >= ts[j].amount
  }

  /** Inserts `x` after every entry at least as large, so equal amounts keep
      their order. */
  function InsertDesc<K>(ts: seq<Tally<K>>, x: Tally<K>): (r: seq<Tally<K>>)
    requires Descending(ts)
    ensures |r| == |ts| + 1
    ensures r[0] == x || (ts != [] && r[0] == ts[0])
    ensures Descending(r)
  {
    if ts == [] then [x]
    else if ts[0].amount >= x.amount then [ts[0]] + InsertDesc(ts[1..], x)
    else [x] + ts
  }

  lemma {:induction false} InsertDescMultiset<K>(ts: seq<Tally<K>>, x: Tally<K>)
    requires Descending(ts)
    ensures multiset(InsertDesc(ts, x)) == multiset(ts) + multiset{x}
  {
    if ts != [] && ts[0].amount >= x.amount {
      InsertDescMultiset(ts[1..], x);
      assert ts == [ts[0]] + ts[1..];
    }
  }

  /** `Object.entries(m).sort(([, a], [, b]) => b - a)`, a stable sort. */
  function SortDesc<K>(ts: seq<Tally<K>>): (r: seq<Tally<K>>)
    ensures |r| == |ts|
    ensures Descending(r)
  {
    if ts == [] then []
    else InsertDesc(SortDesc(ts[..|ts| - 1]), ts[|ts| - 1])
  }

  /** The sort is a permutation. */
  lemma {:induction false} SortDescMultiset<K>(ts: seq<Tally<K>>)
    ensures multiset(SortDesc(ts)) == multiset(ts)
  {
    if ts != [] {
      var init, x := ts[..|ts| - 1], ts[|ts| - 1];
      calc {
        multiset(SortDesc(ts));
        multiset(InsertDesc(SortDesc(init), x));
        { InsertDescMultiset(SortDesc(init), x); }
        multiset(SortDesc(init)) + multiset{x};
        { SortDescMultiset(init); }
        multiset(init) + multiset{x};
        multiset(init + [x]);
        { assert ts == init + [x]; }
        multiset(ts);
      }
    }
  }

  /** The entries of one amount, in their order. */
  function WithAmount<K>(ts: seq<Tally<K>>, v: real): seq<Tally<K>> {
    if ts == [] then []
    else if ts[0].amount == v then [ts[0]] + WithAmount(ts[1..], v)
    else WithAmount(ts[1..], v)
  }

  lemma {:induction false} WithAmountAppend<K>(a: seq<Tally<K>>, b: seq<Tally<K>>, v: real)
    ensures WithAmount(a + b, v) == WithAmount(a, v) + WithAmount(b, v)
  {
    if a == [] {
      assert a + b == b;
    } else {
      assert (a + b)[1..] == a[1..] + b;
      WithAmountAppend(a[1..], b, v);
    }
  }

  lemma {:induction false} NoneWithAmount<K>(ts: seq<Tally<K>>, v: real)
    requires forall i :: 0 <= i < |ts| ==> ts[i].amount < v
    ensures WithAmount(ts, v) == []
  {
    if ts != [] {
      NoneWithAmount(ts[1..], v);
    }
  }

  lemma {:induction false} InsertDescStable<K>(ts: seq<Tally<K>>, x: Tally<K>, v: real)
    requires Descending(ts)
    ensures WithAmount(InsertDesc(ts, x), v) == WithAmount(ts, v) + (if x.amount == v then [x] else [])
  {
    if ts == [] {
    } else if ts[0].amount >= x.amount {
      InsertDescStable(ts[1..], x, v);
      assert InsertDesc(ts, x) == [ts[0]] + InsertDesc(ts[1..], x);
    } else {
      if x.amount == v {
        NoneWithAmount(ts, v);
      }
      assert InsertDesc(ts, x) == [x] + ts;
    }
  }

  /** Stability: for every amount, the entries with that amount appear in the
      sorted list in the order they had before. */
  lemma {:induction false} SortDescStable<K>(ts: seq<Tally<K>>, v: real)
    ensures WithAmount(SortDesc(ts), v) == WithAmount(ts, v)
  {
    if ts != [] {
      var init, x := ts[..|ts| - 1], ts[|ts| - 1];
      var tail := if x.amount == v then [x] else [];
      calc {
        WithAmount(SortDesc(ts), v);
        WithAmount(InsertDesc(SortDesc(init), x), v);
        { InsertDescStable(SortDesc(init), x, v); }
        WithAmount(SortDesc(init), v) + tail;
        { SortDescStable(init, v); }
        WithAmount(init, v) + tail;
        { WithAmountAppend(init, [x], v); assert [x][1..] == []; }
        WithAmount(init + [x], v);
        { assert ts == init + [x]; }
        WithAmount(ts, v);
      }
    }
  }

  /** The first entry of a list with a given amount, when all earlier entries differ. */
  lemma {:induction false} WithAmountHead<K>(ts: seq<Tally<K>>, i: nat)
    requires i < |ts|
    requires forall j :: 0 <= j < i ==> ts[j].amount != ts[i].amount
    ensures |WithAmount(ts, ts[i].amount)| > 0 && WithAmount(ts, ts[i].amount)[0] == ts[i]
  {
    if i > 0 {
      WithAmountHead(ts[1..], i - 1);
    }
  }

  /** The head of the stable descending sort is the FIRST maximal entry (the
      opposite tie-break to `PeakIndex`). */
  lemma SortDescHead<K>(ts: seq<Tally<K>>)
    requires |ts| > 0
    ensures SortDesc(ts)[0] == ts[FirstMaxIndex(ts)]
  {
    var r, m := SortDesc(ts), FirstMaxIndex(ts);
    SortDescMultiset(ts);
    assert ts[m] in multiset(r);
    assert r[0] in multiset(ts);
    assert r[0].amount == ts[m].amount;
    SortDescStable(ts, ts[m].amount);
    WithAmountHead(ts, m);
    WithAmountHead(r, 0);
  }

  /** The first `n` entries of the stable descending sort: `.slice(0, n)`. */
  function TopN<K>(ts: seq<Tally<K>>, n: nat): (r: seq<Tally<K>>)
    ensures |r| == if |ts| < n then |ts| else n
    ensures r == SortDesc(ts)[..|r|]
  {
    var s := SortDesc(ts);
    s[..if |s| < n then |s| else n]
  }

  /** A top-`n` slice is sorted, comes from the dictionary, and nothing the
      slice leaves out is larger than anything it keeps. */
  lemma TopNSpec<K>(ts: seq<Tally<K>>, n: nat)
    ensures Descending(TopN(ts, n))
    ensures multiset(TopN(ts, n)) + multiset(SortDesc(ts)[|TopN(ts, n)|..]) == multiset(ts)
    ensures forall i, j :: 0 <= i < |TopN(ts, n)| <= j < |ts| ==> SortDesc(ts)[j].amount <= TopN(ts, n)[i].amount
  {
    var s := SortDesc(ts);
    var k := |TopN(ts, n)|;
    assert s == s[..k] + s[k..];
    SortDescMultiset(ts);
  }

  /** An entry the top-`n` slice leaves out is no larger than any entry it keeps. */
  lemma TopNLeavesSmaller<K>(ts: seq<Tally<K>>, n: nat, x: Tally<K>)
    requires x in ts && x !in TopN(ts, n)
    ensures forall i :: 0 <= i < |TopN(ts, n)| ==> x.amount <= TopN(ts, n)[i].amount
  {
    var top := TopN(ts, n);
    var rest := SortDesc(ts)[|top|..];
    TopNSpec(ts, n);
    assert x in multiset(top) + multiset(rest);
    var k :| 0 <= k < |rest| && rest[k] == x;
    assert SortDesc(ts)[|top| + k] == x;
  }
}
