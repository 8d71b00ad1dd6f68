/** Ascending sorts by a string key, as `Array.prototype.sort()` and
    `sort(([a], [b]) => a.localeCompare(b))` order month keys `YYYY-MM`.
    The keys being sorted are the keys of one dictionary, so they are
    distinct, and the order is strict. */
module Ordering {
  import opened Basics
  import opened Text

  predicate DistinctBy<T>(s: seq<T>, key: T -> string) {
    forall i, j :: 0 <= i < j < |s| ==> key(s[i]) != key(s[j])
  }

  predicate Ascending<T>(s: seq<T>, key: T -> string) {
    forall i, j :: 0 <= i < j < |s| ==> StrLess(key(s[i]), key(s[j]))
  }

  lemma AscendingCons<T>(x: T, s: seq<T>, key: T -> string)
    requires Ascending(s, key)
    requires s != [] ==> StrLess(key(x), key(s[0]))
    ensures Ascending([x] + s, key)
  {
    var r := [x] + s;
    forall i, j | 0 <= i < j < |r| ensures StrLess(key(r[i]), key(r[j])) {
      if i == 0 && j > 1 {
        StrLessTransitive(key(x), key(s[0]), key(s[j - 1]));
      }
    }
  }

  function InsertAsc<T>(s: seq<T>, x: T, key: T -> string): (r: seq<T>)
    requires Ascending(s, key)
    requires forall i :: 0 <= i < |s| ==> key(s[i]) != key(x)
    ensures |r| == |s| + 1
    ensures r[0] == x || (s != [] && r[0] == s[0])
    ensures Ascending(r, key)
  {
    if s == [] then [x]
    else if StrLess(key(x), key(s[0])) then
      AscendingCons(x, s, key);
      [x] + s
    else
      StrLessTotal(key(x), key(s[0]));
      var rest := InsertAsc(s[1..], x, key);
      AscendingCons(s[0], rest, key);
      [s[0]] + rest
  }

  lemma {:induction false} InsertAscMultiset<T>(s: seq<T>, x: T, key: T -> string)
    requires Ascending(s, key)
    requires forall i :: 0 <= i < |s| ==> key(s[i]) != key(x)
    ensures multiset(InsertAsc(s, x, key)) == multiset(s) + multiset{x}
  {
    if s != [] && !StrLess(key(x), key(s[0])) {
      InsertAscMultiset(s[1..], x, key);
      assert s == [s[0]] + s[1..];
    }
  }

  /** Sorts distinct keys into strictly ascending order; the result is a permutation. */
  function SortAsc<T>(s: seq<T>, key: T -> string): (r: seq<T>)
    requires DistinctBy(s, key)
    ensures |r| == |s|
    ensures Ascending(r, key)
    ensures multiset(r) == multiset(s)
  {
    if s == [] then []
    else
      var init, x := s[..|s| - 1], s[|s| - 1];
      assert s == init + [x];
      var sorted := SortAsc(init, key);
      assert forall i :: 0 <= i < |sorted| ==> key(sorted[i]) != key(x) by {
        forall i | 0 <= i < |sorted| ensures key(sorted[i]) != key(x) {
          assert sorted[i] in multiset(init);
          var j :| 0 <= j < |init| && init[j] == sorted[i];
        }
      }
      InsertAscMultiset(sorted, x, key);
      InsertAsc(sorted, x, key)
  }

  /** `.slice(-6)`: the last six elements, or all of them when there are fewer. */
  function LastSix<T>(s: seq<T>): (r: seq<T>)
    ensures |r| == if |s| < 6 then |s| else 6
    ensures r == s[|s| - |r|..]
  {
    if |s| <= 6 then s else s[|s| - 6..]
  }

  /** The key function of a list of keys. */
  function Id(k: string): string { k }

  /** `keys.sort()` followed by taking the last key: the greatest key, or
      `None` for no keys. */
  function Greatest(keys: seq<string>): (r: Option<string>)
    requires DistinctBy(keys, Id)
    ensures r.None? <==> keys == []
    ensures r.Some? ==> r.value in keys && forall k :: k in keys && k != r.value ==> StrLess(k, r.value)
  {
    var sorted := SortAsc(keys, Id);
    if sorted == [] then None
    else
      SortedLastGreatest(keys);
      Some(sorted[|sorted| - 1])
  }

  lemma SortedLastGreatest(keys: seq<string>)
    requires DistinctBy(keys, Id)
    requires keys != []
    ensures var sorted := SortAsc(keys, Id);
      && sorted[|sorted| - 1] in keys
      && forall k :: k in keys && k != sorted[|sorted| - 1] ==> StrLess(k, sorted[|sorted| - 1])
  {
    var sorted := SortAsc(keys, Id);
    var last := sorted[|sorted| - 1];
    assert multiset(sorted) == multiset(keys);
    assert last in keys by {
      assert last in multiset(sorted);
    }
    forall k | k in keys && k != last ensures StrLess(k, last) {
      assert k in multiset(keys);
      assert k in sorted;
      var i :| 0 <= i < |sorted| && sorted[i] == k;
      assert StrLess(Id(sorted[i]), Id(sorted[|sorted| - 1]));
    }
  }

  /** The keys of `s` that `.slice(-6)` leaves out of an ascending list
      precede every key it keeps. */
  lemma LastSixKeepsLatest<T>(s: seq<T>, key: T -> string)
    requires Ascending(s, key)
    ensures Ascending(LastSix(s), key)
    ensures forall i, j :: 0 <= i < |s| - |LastSix(s)| && 0 <= j < |LastSix(s)| ==> StrLess(key(s[i]), key(LastSix(s)[j]))
  {
    var r := LastSix(s);
    var d := |s| - |r|;
    assert forall j :: 0 <= j < |r| ==> r[j] == s[d + j];
  }

  /** Filtering distinct keys leaves distinct keys. */
  lemma {:induction false} KeepIfDistinct(xs: seq<string>, keep: string -> bool)
    requires DistinctBy(xs, Id)
    ensures DistinctBy(KeepIf(xs, keep), Id)
  {
    if xs != [] {
      var rest := xs[1..];
      assert DistinctBy(rest, Id) by {
        forall i, j | 0 <= i < j < |rest| ensures rest[i] != rest[j] {
          assert rest[i] == xs[i + 1] && rest[j] == xs[j + 1];
        }
      }
      KeepIfDistinct(rest, keep);
      assert xs[0] !in rest by {
        forall i | 0 <= i < |rest| ensures rest[i] != xs[0] {
          assert rest[i] == xs[i + 1];
        }
      }
    }
  }
}
