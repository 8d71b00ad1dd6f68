/** `analyzeTrends`: income and expenses per month, grouped by the `YYYY-MM`
    prefix of the date, listed in ascending month order.  Every row that is
    not income counts as an expense here. */
module Trends {
  import opened Text
  import opened Ledger
  import opened Ordering

  /** One `monthlyData[month] = { income, expenses }` entry. */
  datatype MonthEntry = MonthEntry(month: string, income: real, expenses: real)

  function MonthKey(e: MonthEntry): string { e.month }

  predicate HasMonth(ms: seq<MonthEntry>, m: string) {
    exists i :: 0 <= i < |ms| && ms[i].month == m
  }

  /** `m` is the month of some transaction of `ts`. */
  predicate InSomeMonth(ts: seq<Transaction>, m: string) {
    exists i :: 0 <= i < |ts| && MonthOf(ts[i].date) == m
  }

  /** `monthlyData[m].income || 0` and `monthlyData[m].expenses || 0`. */
  function IncomeOf(ms: seq<MonthEntry>, m: string): real {
    if ms == [] then 0.0 else (if ms[0].month == m then ms[0].income else 0.0) + IncomeOf(ms[1..], m)
  }

  function ExpensesOf(ms: seq<MonthEntry>, m: string): real {
    if ms == [] then 0.0 else (if ms[0].month == m then ms[0].expenses else 0.0) + ExpensesOf(ms[1..], m)
  }

  function IncomeIn(m: string): Transaction -> bool {
    (t: Transaction) => MonthOf(t.date) == m && IsIncome(t)
  }

  function OutgoIn(m: string): Transaction -> bool {
    (t: Transaction) => MonthOf(t.date) == m && NotIncome(t)
  }

  /** The `if (t.type === 'income') ... else ...` of one transaction. */
  function AddTo(e: MonthEntry, t: Transaction): MonthEntry {
    if IsIncome(t) then e.(income := e.income + t.amount) else e.(expenses := e.expenses + t.amount)
  }

  /** One step of the `forEach`: the month's entry is created at the end if
      it is missing, then the amount goes to its income or its expenses. */
  function Record(ms: seq<MonthEntry>, t: Transaction): (r: seq<MonthEntry>)
    ensures !HasMonth(ms, MonthOf(t.date)) ==> r == ms + [AddTo(MonthEntry(MonthOf(t.date), 0.0, 0.0), t)]
    ensures forall m :: IncomeOf(r, m) == IncomeOf(ms, m) + (if IncomeIn(m)(t) then t.amount else 0.0)
    ensures forall m :: ExpensesOf(r, m) == ExpensesOf(ms, m) + (if OutgoIn(m)(t) then t.amount else 0.0)
  {
    var k := MonthOf(t.date);
    if ms == [] then [AddTo(MonthEntry(k, 0.0, 0.0), t)]
    else if ms[0].month == k then [AddTo(ms[0], t)] + ms[1..]
    else
      assert !HasMonth(ms, k) ==> !HasMonth(ms[1..], k) by {
        if HasMonth(ms[1..], k) {
          var i :| 0 <= i < |ms[1..]| && ms[1..][i].month == k;
          assert ms[i + 1].month == k;
        }
      }
      [ms[0]] + Record(ms[1..], t)
  }

  lemma {:induction false} IncomeOfAbsent(ms: seq<MonthEntry>, m: string)
    requires forall i :: 0 <= i < |ms| ==> ms[i].month != m
    ensures IncomeOf(ms, m) == 0.0 && ExpensesOf(ms, m) == 0.0
  {
    if ms != [] {
      IncomeOfAbsent(ms[1..], m);
    }
  }

  /** Recording keeps every month in its place and appends the
      transaction's month when it is new. */
  lemma {:induction false} RecordShape(ms: seq<MonthEntry>, t: Transaction)
    ensures |Record(ms, t)| == if HasMonth(ms, MonthOf(t.date)) then |ms| else |ms| + 1
    ensures forall i :: 0 <= i < |ms| ==> Record(ms, t)[i].month == ms[i].month
  {
    var k := MonthOf(t.date);
    if ms != [] && ms[0].month != k {
      RecordShape(ms[1..], t);
      assert HasMonth(ms, k) ==> HasMonth(ms[1..], k) by {
        if HasMonth(ms, k) {
          var i :| 0 <= i < |ms| && ms[i].month == k;
          assert ms[1..][i - 1].month == k;
        }
      }
      assert HasMonth(ms[1..], k) ==> HasMonth(ms, k) by {
        if HasMonth(ms[1..], k) {
          var i :| 0 <= i < |ms[1..]| && ms[1..][i].month == k;
          assert ms[i + 1].month == k;
        }
      }
    } else if ms != [] {
      assert HasMonth(ms, k) by { assert ms[0].month == k; }
    }
  }

  /** Recording keeps the months distinct and adds exactly the transaction's month. */
  lemma RecordMonths(ms: seq<MonthEntry>, t: Transaction)
    requires DistinctBy(ms, MonthKey)
    ensures DistinctBy(Record(ms, t), MonthKey)
    ensures forall m :: HasMonth(Record(ms, t), m) <==> HasMonth(ms, m) || m == MonthOf(t.date)
  {
    var k := MonthOf(t.date);
    var r := Record(ms, t);
    RecordShape(ms, t);
    forall m ensures HasMonth(r, m) <==> HasMonth(ms, m) || m == k {
      if HasMonth(r, m) {
        var i :| 0 <= i < |r| && r[i].month == m;
        if i < |ms| {
          assert ms[i].month == m;
        }
      }
      if HasMonth(ms, m) {
        var i :| 0 <= i < |ms| && ms[i].month == m;
        assert r[i].month == m;
      }
      if m == k && HasMonth(ms, k) {
        var i :| 0 <= i < |ms| && ms[i].month == k;
        assert r[i].month == k;
      }
      if m == k && !HasMonth(ms, k) {
        assert r[|ms|].month == k;
      }
    }
    forall i, j | 0 <= i < j < |r| ensures MonthKey(r[i]) != MonthKey(r[j]) {
      if j == |ms| {
        assert r[i].month == ms[i].month;
      } else {
        assert MonthKey(ms[i]) != MonthKey(ms[j]);
      }
    }
  }

  /** With distinct months, an entry holds what the lookups return for its month. */
  lemma {:induction false} EntryOf(ms: seq<MonthEntry>, i: nat)
    requires DistinctBy(ms, MonthKey) && i < |ms|
    ensures IncomeOf(ms, ms[i].month) == ms[i].income && ExpensesOf(ms, ms[i].month) == ms[i].expenses
  {
    if i == 0 {
      IncomeOfAbsent(ms[1..], ms[0].month);
    } else {
      EntryOf(ms[1..], i - 1);
    }
  }

  /** `monthlyData` after the `forEach` over `ts`, in insertion order. */
  function MonthTotals(ts: seq<Transaction>): seq<MonthEntry> {
    if ts == [] then [] else Record(MonthTotals(ts[..|ts| - 1]), ts[|ts| - 1])
  }

  /** One entry per month of the transactions, holding the month's income
      and the month's other rows. */
  lemma {:induction false} MonthTotalsSpec(ts: seq<Transaction>)
    ensures DistinctBy(MonthTotals(ts), MonthKey)
    ensures forall m :: HasMonth(MonthTotals(ts), m) <==> InSomeMonth(ts, m)
    ensures forall m :: IncomeOf(MonthTotals(ts), m) == Sum(Filter(ts, IncomeIn(m)))
    ensures forall m :: ExpensesOf(MonthTotals(ts), m) == Sum(Filter(ts, OutgoIn(m)))
  {
    if ts != [] {
      var init, t := ts[..|ts| - 1], ts[|ts| - 1];
      assert ts == init + [t];
      MonthTotalsSpec(init);
      RecordMonths(MonthTotals(init), t);
      forall m ensures Sum(Filter(ts, IncomeIn(m))) == Sum(Filter(init, IncomeIn(m))) + (if IncomeIn(m)(t) then t.amount else 0.0)
                && Sum(Filter(ts, OutgoIn(m))) == Sum(Filter(init, OutgoIn(m))) + (if OutgoIn(m)(t) then t.amount else 0.0) {
        FilterSumSnoc(init, t, IncomeIn(m));
        FilterSumSnoc(init, t, OutgoIn(m));
      }
      forall m ensures InSomeMonth(ts, m) <==> InSomeMonth(init, m) || m == MonthOf(t.date) {
        InSomeMonthSnoc(init, t, m);
      }
    }
  }

  lemma InSomeMonthSnoc(ts: seq<Transaction>, t: Transaction, m: string)
    ensures InSomeMonth(ts + [t], m) <==> InSomeMonth(ts, m) || m == MonthOf(t.date)
  {
    var r := ts + [t];
    if InSomeMonth(r, m) && m != MonthOf(t.date) {
      var i :| 0 <= i < |r| && MonthOf(r[i].date) == m;
      assert MonthOf(ts[i].date) == m;
    }
    if InSomeMonth(ts, m) {
      var i :| 0 <= i < |ts| && MonthOf(ts[i].date) == m;
      assert MonthOf(r[i].date) == m;
    }
    if m == MonthOf(t.date) {
      assert MonthOf(r[|ts|].date) == m;
    }
  }

  /** The month entries in ascending month order: `Object.entries(monthlyData).sort()`.
      The default sort compares each entry's text, which starts with its
      seven-character month key, so distinct keys decide the order. */
  function SortedMonths(ts: seq<Transaction>): (r: seq<MonthEntry>)
    ensures Ascending(r, MonthKey)
    ensures multiset(r) == multiset(MonthTotals(ts))
  {
    MonthTotalsSpec(ts);
    SortAsc(MonthTotals(ts), MonthKey)
  }

  datatype Point = Point(month: string, amount: real)

  /** The trends part of the report; `spendingGrowth` is always left 0 by
      the source and is not modelled. */
  datatype TrendsAnalysis = TrendsAnalysis(monthlyIncome: seq<Point>, monthlyExpenses: seq<Point>, netWorth: seq<Point>)

  /** The three pushes made for each sorted entry. */
  function Points(ms: seq<MonthEntry>): (tr: TrendsAnalysis)
    ensures |tr.monthlyIncome| == |tr.monthlyExpenses| == |tr.netWorth| == |ms|
    ensures forall i :: 0 <= i < |ms| ==>
              && tr.monthlyIncome[i] == Point(ms[i].month, ms[i].income)
              && tr.monthlyExpenses[i] == Point(ms[i].month, ms[i].expenses)
              && tr.netWorth[i] == Point(ms[i].month, ms[i].income - ms[i].expenses)
  {
    if ms == [] then TrendsAnalysis([], [], [])
    else
      var rest := Points(ms[1..]);
      TrendsAnalysis(
        [Point(ms[0].month, ms[0].income)] + rest.monthlyIncome,
        [Point(ms[0].month, ms[0].expenses)] + rest.monthlyExpenses,
        [Point(ms[0].month, ms[0].income - ms[0].expenses)] + rest.netWorth)
  }

  /** `analyzeTrends` over `ts`. */
  function AnalyzeTrends(ts: seq<Transaction>): TrendsAnalysis {
    Points(SortedMonths(ts))
  }

  /** The sorted entries are the months of the transactions, each holding
      that month's income and its other rows. */
  lemma SortedMonthsSpec(ts: seq<Transaction>)
    ensures forall m :: HasMonth(SortedMonths(ts), m) <==> InSomeMonth(ts, m)
    ensures forall i :: 0 <= i < |SortedMonths(ts)| ==>
              && SortedMonths(ts)[i].income == Sum(Filter(ts, IncomeIn(SortedMonths(ts)[i].month)))
              && SortedMonths(ts)[i].expenses == Sum(Filter(ts, OutgoIn(SortedMonths(ts)[i].month)))
  {
    forall i | 0 <= i < |SortedMonths(ts)|
      ensures SortedMonths(ts)[i].income == Sum(Filter(ts, IncomeIn(SortedMonths(ts)[i].month)))
      ensures SortedMonths(ts)[i].expenses == Sum(Filter(ts, OutgoIn(SortedMonths(ts)[i].month)))
    {
      SortedEntry(ts, i);
    }
    forall m ensures HasMonth(SortedMonths(ts), m) <==> InSomeMonth(ts, m) {
      SortedHasMonth(ts, m);
    }
  }

  lemma SortedEntry(ts: seq<Transaction>, i: nat)
    requires i < |SortedMonths(ts)|
    ensures SortedMonths(ts)[i].income == Sum(Filter(ts, IncomeIn(SortedMonths(ts)[i].month)))
    ensures SortedMonths(ts)[i].expenses == Sum(Filter(ts, OutgoIn(SortedMonths(ts)[i].month)))
  {
    var ms := MonthTotals(ts);
    var s := SortedMonths(ts);
    assert s[i] in multiset(ms);
    var j :| 0 <= j < |ms| && ms[j] == s[i];
    MonthTotalsSpec(ts);
    EntryOf(ms, j);
  }

  lemma SortedHasMonth(ts: seq<Transaction>, m: string)
    ensures HasMonth(SortedMonths(ts), m) <==> InSomeMonth(ts, m)
  {
    var ms := MonthTotals(ts);
    var s := SortedMonths(ts);
    if HasMonth(s, m) {
      var i :| 0 <= i < |s| && s[i].month == m;
      assert s[i] in multiset(ms);
      var j :| 0 <= j < |ms| && ms[j] == s[i];
      assert HasMonth(ms, m);
    }
    if HasMonth(ms, m) {
      var j :| 0 <= j < |ms| && ms[j].month == m;
      assert ms[j] in multiset(s);
      var i :| 0 <= i < |s| && s[i] == ms[j];
      assert HasMonth(s, m);
    }
    MonthTotalsSpec(ts);
  }

  /** The trend lists run over the months of the transactions, each once,
      in strictly ascending order; each point holds that month's income,
      its other rows, and the difference. */
  lemma TrendsSpec(ts: seq<Transaction>)
    ensures var tr := AnalyzeTrends(ts);
      && |tr.monthlyIncome| == |tr.monthlyExpenses| == |tr.netWorth|
      && (forall i, j :: 0 <= i < j < |tr.monthlyIncome| ==> StrLess(tr.monthlyIncome[i].month, tr.monthlyIncome[j].month))
      && (forall m :: (exists i :: 0 <= i < |tr.monthlyIncome| && tr.monthlyIncome[i].month == m) <==> InSomeMonth(ts, m))
      && (forall i :: 0 <= i < |tr.monthlyIncome| ==>
            var m := tr.monthlyIncome[i].month;
            && tr.monthlyExpenses[i].month == m && tr.netWorth[i].month == m
            && tr.monthlyIncome[i].amount == Sum(Filter(ts, IncomeIn(m)))
            && tr.monthlyExpenses[i].amount == Sum(Filter(ts, OutgoIn(m)))
            && tr.netWorth[i].amount == tr.monthlyIncome[i].amount - tr.monthlyExpenses[i].amount)
  {
    var s := SortedMonths(ts);
    var tr := AnalyzeTrends(ts);
    SortedMonthsSpec(ts);
    assert forall i :: 0 <= i < |s| ==> tr.monthlyIncome[i].month == s[i].month;
    forall m ensures (exists i :: 0 <= i < |tr.monthlyIncome| && tr.monthlyIncome[i].month == m) <==> HasMonth(s, m) {
      if HasMonth(s, m) {
        var i :| 0 <= i < |s| && s[i].month == m;
        assert tr.monthlyIncome[i].month == m;
      }
    }
  }

  /** `getMonthlyTrendData` at the key level: the month entries of `ts` in
      ascending order, the last six kept (the labels are display text). */
  function MonthlyTrendData(ts: seq<Transaction>): seq<MonthEntry> {
    LastSix(SortedMonths(ts))
  }

  /** Transactions of a single month make a one-entry window. */
  lemma SingleMonthTrend(ts: seq<Transaction>, e: MonthEntry)
    requires MonthTotals(ts) == [e]
    ensures MonthlyTrendData(ts) == [e]
  {
    var sorted := SortedMonths(ts);
    assert |sorted| == 1;
    assert sorted[0] in multiset([e]);
    assert sorted == [e];
  }

  /** The trend window holds the latest six months of `ts` (all of them when
      there are fewer), in ascending order, each with that month's income and
      other rows. */
  lemma MonthlyTrendDataSpec(ts: seq<Transaction>)
    ensures var r := MonthlyTrendData(ts);
      && |r| == (if |MonthTotals(ts)| < 6 then |MonthTotals(ts)| else 6)
      && Ascending(r, MonthKey)
      && (forall i :: 0 <= i < |r| ==>
            && InSomeMonth(ts, r[i].month)
            && r[i].income == Sum(Filter(ts, IncomeIn(r[i].month)))
            && r[i].expenses == Sum(Filter(ts, OutgoIn(r[i].month))))
  {
    var s := SortedMonths(ts);
    var r := MonthlyTrendData(ts);
    var d := |s| - |r|;
    SortedMonthsSpec(ts);
    LastSixKeepsLatest(s, MonthKey);
    forall i | 0 <= i < |r|
      ensures r[i] == s[d + i] && HasMonth(s, r[i].month)
    {
      assert s[d + i].month == r[i].month;
    }
  }

  /** Every month of `ts` that the trend window leaves out precedes every
      month it keeps. */
  lemma MonthlyTrendDataLatest(ts: seq<Transaction>)
    ensures var r := MonthlyTrendData(ts);
      forall m :: InSomeMonth(ts, m) && !HasMonth(r, m) ==> forall j :: 0 <= j < |r| ==> StrLess(m, r[j].month)
  {
    var s := SortedMonths(ts);
    var r := MonthlyTrendData(ts);
    var d := |s| - |r|;
    SortedMonthsSpec(ts);
    forall k | d <= k < |s| ensures HasMonth(r, s[k].month) {
      assert r[k - d] == s[k];
    }
    forall m | InSomeMonth(ts, m) && !HasMonth(r, m)
      ensures forall j :: 0 <= j < |r| ==> StrLess(m, r[j].month)
    {
      var k :| 0 <= k < |s| && s[k].month == m;
      assert k < d;
      BeforeWindow(s, k);
    }
  }

  /** An entry of an ascending list before the window precedes every entry in it. */
  lemma BeforeWindow(s: seq<MonthEntry>, k: nat)
    requires Ascending(s, MonthKey)
    requires k < |s| - |LastSix(s)|
    ensures forall j :: 0 <= j < |LastSix(s)| ==> StrLess(s[k].month, LastSix(s)[j].month)
  {
    LastSixKeepsLatest(s, MonthKey);
    forall j | 0 <= j < |LastSix(s)| ensures StrLess(s[k].month, LastSix(s)[j].month) {
      assert StrLess(MonthKey(s[k]), MonthKey(LastSix(s)[j]));
    }
  }
}
