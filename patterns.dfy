/** `analyzeSpendingPatterns`: the total and average daily spending of the
    expenses, the weekday and the category with the most spending. */
module Patterns {
  import opened Basics
  import opened Ledger
  import opened Tallies

  /** `Date.prototype.getDay()`: 0 is Sunday. */
  type Weekday = d: nat | d < 7

  /** What the tracker asks of the date library, taken as parameters:
      the number of days between a date and now
      (`(Date.now() - new Date(date).getTime()) / (1000 * 60 * 60 * 24)`)
      and the day of the week of a date. */
  datatype Clock = Clock(daysSince: IsoDate -> real, weekday: IsoDate -> Weekday)

  const DayNames: seq<string> := ["Sunday", "Monday", "Tuesday", "Wednesday", "Thursday", "Friday", "Saturday"]

  function Max(a: real, b: real): real {
    if a >= b then a else b
  }

  function OnDay(clock: Clock, d: Weekday): Transaction -> bool {
    (t: Transaction) => clock.weekday(t.date) == d
  }

  /** What `dailySpending[d]` holds after the accumulation (0 for a day it never saw). */
  function DaySum(ex: seq<Transaction>, clock: Clock, d: Weekday): real {
    Sum(Filter(ex, OnDay(clock, d)))
  }

  /** `dailySpending` seen through `Object.keys`, given what each day
      accumulated: its keys are the integers 0..6, and JavaScript enumerates
      integer-like keys in ascending order, whatever order they were
      inserted in.  A day is a key once some expense fell on it, which with
      positive amounts is when its sum is positive.  Built from day `from` on. */
  function DayEntries(sums: Weekday -> real, from: nat): (r: seq<Tally<Weekday>>)
    requires from <= 7
    ensures forall i :: 0 <= i < |r| ==> from <= r[i].key
    ensures forall i, j :: 0 <= i < j < |r| ==> r[i].key < r[j].key
    ensures forall i :: 0 <= i < |r| ==> r[i].amount == sums(r[i].key) > 0.0
    decreases 7 - from
  {
    if from == 7 then []
    else
      var rest := DayEntries(sums, from + 1);
      if sums(from) > 0.0 then [Tally(from, sums(from))] + rest else rest
  }

  /** A weekday has an entry exactly when its sum is positive. */
  lemma {:induction false} DayEntriesKeys(sums: Weekday -> real, from: nat, d: Weekday)
    requires from <= d
    ensures HasKey(DayEntries(sums, from), d) <==> sums(d) > 0.0
    decreases 7 - from
  {
    var r := DayEntries(sums, from);
    if from < 7 {
      var rest := DayEntries(sums, from + 1);
      if d == from {
        assert forall i :: 0 <= i < |rest| ==> rest[i].key != d;
        if sums(from) > 0.0 {
          assert r[0].key == d;
        } else {
          assert r == rest;
        }
      } else {
        DayEntriesKeys(sums, from + 1, d);
        if sums(from) > 0.0 {
          assert r == [Tally(from, sums(from))] + rest;
          assert HasKey(r, d) ==> HasKey(rest, d);
          if HasKey(rest, d) {
            var i :| 0 <= i < |rest| && rest[i].key == d;
            assert r[i + 1].key == d;
          }
        } else {
          assert r == rest;
        }
      }
    }
  }

  /** The peak of the day entries: a day whose sum no day exceeds and, the
      reduction keeping the later key on a tie, that no later day equals. */
  lemma DayEntriesPeak(sums: Weekday -> real, p: nat)
    requires forall d: Weekday :: sums(d) >= 0.0
    requires DayEntries(sums, 0) != [] && p == PeakIndex(DayEntries(sums, 0))
    ensures forall d: Weekday :: sums(d) <= sums(DayEntries(sums, 0)[p].key)
    ensures forall d: Weekday :: DayEntries(sums, 0)[p].key < d ==> sums(d) < sums(DayEntries(sums, 0)[p].key)
  {
    forall d: Weekday ensures sums(d) <= sums(DayEntries(sums, 0)[p].key) {
      DayAgainstPeak(sums, p, d);
    }
    forall d: Weekday | DayEntries(sums, 0)[p].key < d ensures sums(d) < sums(DayEntries(sums, 0)[p].key) {
      DayAgainstPeak(sums, p, d);
    }
  }

  /** In a list with strictly ascending keys a smaller key sits earlier. */
  lemma LaterKeyLaterIndex(ts: seq<Tally<Weekday>>, a: nat, b: nat)
    requires a < |ts| && b < |ts|
    requires forall i, j :: 0 <= i < j < |ts| ==> ts[i].key < ts[j].key
    requires ts[a].key < ts[b].key
    ensures a < b
  {
  }

  lemma DayAgainstPeak(sums: Weekday -> real, p: nat, d: Weekday)
    requires forall d: Weekday :: sums(d) >= 0.0
    requires DayEntries(sums, 0) != [] && p == PeakIndex(DayEntries(sums, 0))
    ensures sums(d) <= sums(DayEntries(sums, 0)[p].key)
    ensures DayEntries(sums, 0)[p].key < d ==> sums(d) < sums(DayEntries(sums, 0)[p].key)
  {
    var days := DayEntries(sums, 0);
    var peak := days[p];
    assert peak.amount == sums(peak.key) > 0.0;
    DayEntriesKeys(sums, 0, d);
    if sums(d) > 0.0 {
      var j :| 0 <= j < |days| && days[j].key == d;
      assert days[j].amount == sums(d);
      assert days[j].amount <= peak.amount;
      if peak.key < d {
        LaterKeyLaterIndex(days, p, j);
      }
    }
  }

  /** The day entries of the expenses are empty exactly when there are no expenses. */
  lemma DayEntriesEmpty(ex: seq<Transaction>, clock: Clock)
    ensures DayEntries(DaySums(ex, clock), 0) == [] <==> ex == []
  {
    var sums := DaySums(ex, clock);
    var days := DayEntries(sums, 0);
    if ex != [] {
      var d := clock.weekday(ex[0].date);
      assert ex[0] in Filter(ex, OnDay(clock, d));
      DayEntriesKeys(sums, 0, d);
    }
    if days != [] {
      assert sums(days[0].key) > 0.0;
    }
  }

  function DaySums(ex: seq<Transaction>, clock: Clock): Weekday -> real {
    (d: Weekday) => DaySum(ex, clock, d)
  }

  /** No weekday's sum exceeds that of `d`, and no later weekday's equals it. */
  predicate IsPeakDay(ex: seq<Transaction>, clock: Clock, d: Weekday) {
    && (forall e: Weekday :: DaySum(ex, clock, e) <= DaySum(ex, clock, d))
    && (forall e: Weekday :: d < e ==> DaySum(ex, clock, e) < DaySum(ex, clock, d))
  }

  /** `c` is a category of the expenses and no category's total exceeds its. */
  ghost predicate IsPeakCategory(ex: seq<Transaction>, c: string) {
    HasCategory(ex, c) && forall c' :: CategorySum(ex, c') <= CategorySum(ex, c)
  }

  /** `c` is a peak category, and every category inserted into the
      dictionary after it (first met later in the list) has a strictly
      smaller total: of several peak categories, the last inserted. */
  ghost predicate IsLastPeakCategory(ex: seq<Transaction>, c: string) {
    && IsPeakCategory(ex, c)
    && exists i :: 0 <= i < |CategoryTotals(ex)| && CategoryTotals(ex)[i].key == c
         && forall j :: i < j < |CategoryTotals(ex)| ==> CategorySum(ex, CategoryTotals(ex)[j].key) < CategorySum(ex, c)
  }

  /** At most one category is the last peak category. */
  lemma LastPeakCategoryUnique(ex: seq<Transaction>, c: string, d: string)
    requires IsLastPeakCategory(ex, c) && IsLastPeakCategory(ex, d)
    ensures c == d
  {
    var tal := CategoryTotals(ex);
    var i :| 0 <= i < |tal| && tal[i].key == c
      && forall j :: i < j < |tal| ==> CategorySum(ex, tal[j].key) < CategorySum(ex, c);
    var k :| 0 <= k < |tal| && tal[k].key == d
      && forall j :: k < j < |tal| ==> CategorySum(ex, tal[j].key) < CategorySum(ex, d);
    assert CategorySum(ex, c) == CategorySum(ex, d);
    assert i == k;
  }

  /** The index of the peak weekday of the expenses, or `None` when there
      are none. */
  function PeakDay(ex: seq<Transaction>, clock: Clock): (r: Option<Weekday>)
    ensures r.None? <==> ex == []
    ensures r.Some? ==> IsPeakDay(ex, clock, r.value)
  {
    var days := DayEntries(DaySums(ex, clock), 0);
    DayEntriesEmpty(ex, clock);
    if days == [] then None
    else
      var p := PeakIndex(days);
      var sums := DaySums(ex, clock);
      assert forall d: Weekday :: sums(d) >= 0.0;
      DayEntriesPeak(sums, p);
      assert forall d: Weekday :: sums(d) == DaySum(ex, clock, d);
      Some(days[p].key)
  }

  /** The peak category of the expenses, or `None` when there are none: a
      category of the expenses whose total no other category exceeds, and
      of several such the one inserted last into the dictionary. */
  function PeakCategory(ex: seq<Transaction>): (r: Option<string>)
    ensures r.None? <==> ex == []
    ensures r.Some? ==> IsLastPeakCategory(ex, r.value)
  {
    var tal := CategoryTotals(ex);
    if tal == [] then
      assert ex == [] by {
        if ex != [] {
          CategoryTotalsHasKey(ex, ex[0].category);
        }
      }
      None
    else
      var p := PeakIndex(tal);
      forall c' ensures CategorySum(ex, c') <= CategorySum(ex, tal[p].key) {
        CategoryAgainstPeak(ex, c');
      }
      forall j | p < j < |tal| ensures CategorySum(ex, tal[j].key) < CategorySum(ex, tal[p].key) {
        CategoryTotalsEntry(ex, j);
        CategoryTotalsEntry(ex, p);
      }
      CategoryTotalsKey(ex, p);
      assert IsLastPeakCategory(ex, tal[p].key);
      Some(tal[p].key)
  }

  /** No category's total exceeds that of the peak entry of the totals. */
  lemma CategoryAgainstPeak(ex: seq<Transaction>, c: string)
    requires CategoryTotals(ex) != []
    ensures CategorySum(ex, c) <= CategorySum(ex, CategoryTotals(ex)[PeakIndex(CategoryTotals(ex))].key)
  {
    var tal := CategoryTotals(ex);
    var p := PeakIndex(tal);
    CategoryTotalsEntry(ex, p);
    if HasCategory(ex, c) {
      CategoryTotalsHasKey(ex, c);
      var j :| 0 <= j < |tal| && tal[j].key == c;
      CategoryTotalsEntry(ex, j);
    } else {
      CategorySumWitness(ex, c);
    }
  }

  /** A category with a positive total is the category of some expense. */
  lemma CategorySumWitness(ex: seq<Transaction>, c: string)
    ensures CategorySum(ex, c) > 0.0 ==> HasCategory(ex, c)
  {
    var f := Filter(ex, InCategory(c));
    if f != [] {
      assert f[0] in ex;
      var i :| 0 <= i < |ex| && ex[i] == f[0];
      assert ex[i].category == c;
    }
  }

  /** `Math.max(30, days since the date of `first`)`. */
  function DaysCovered(clock: Clock, first: Transaction): (r: real)
    ensures r >= 30.0 && r >= clock.daysSince(first.date)
    ensures r == 30.0 || r == clock.daysSince(first.date)
  {
    Max(30.0, clock.daysSince(first.date))
  }

  /** Dividing a non-negative total by at least 30 days. */
  lemma AverageBound(total: real, days: real)
    requires total >= 0.0 && days >= 30.0
    ensures (total / days) * days == total
    ensures 0.0 <= total / days && 30.0 * (total / days) <= total
    ensures total > 0.0 ==> total / days > 0.0
  {
    var avg := total / days;
    assert avg * days == total;
    assert 30.0 * avg <= days * avg;
  }

  /** The spending-pattern part of the report.  `monthlyTrend`,
      `weeklyPattern` and `seasonalTrends` are always left empty by the
      source and are not modelled. */
  datatype SpendingPatterns = SpendingPatterns(
    totalSpent: real,
    averageDaily: real,
    peakSpendingDay: string,
    peakSpendingCategory: string)

  /** `analyzeSpendingPatterns` over `ts`.  The average divides by the days
      since the FIRST expense in list order (not the earliest one), and by
      at least 30. */
  function AnalyzeSpendingPatterns(ts: seq<Transaction>, clock: Clock): (p: SpendingPatterns)
    ensures p.totalSpent == Sum(Expenses(ts)) >= 0.0
    ensures Expenses(ts) == [] ==> p.averageDaily == 0.0 && p.peakSpendingDay == "" && p.peakSpendingCategory == ""
    ensures Expenses(ts) != [] ==> p.averageDaily == p.totalSpent / DaysCovered(clock, Expenses(ts)[0])
    ensures 0.0 <= p.averageDaily && 30.0 * p.averageDaily <= p.totalSpent
    ensures Expenses(ts) != [] ==> p.averageDaily > 0.0
    ensures Expenses(ts) != [] ==> exists d: Weekday :: p.peakSpendingDay == DayNames[d] && IsPeakDay(Expenses(ts), clock, d)
    ensures Expenses(ts) != [] ==> IsLastPeakCategory(Expenses(ts), p.peakSpendingCategory)
  {
    var ex := Expenses(ts);
    var total := Sum(ex);
    if ex == [] then SpendingPatterns(total, 0.0, "", "")
    else
      var days := DaysCovered(clock, ex[0]);
      AverageBound(total, days);
      var d := PeakDay(ex, clock).value;
      assert IsPeakDay(ex, clock, d);
      SpendingPatterns(total, total / days, DayNames[d], PeakCategory(ex).value)
  }
}
