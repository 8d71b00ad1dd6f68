/** The tracker's state: the list of all transactions and the monthly
    buckets `monthlyData`, each holding the transactions uploaded for one
    month and its totals.  The buckets are kept as a map from month key to
    bucket value, with the keys also listed in insertion order as
    `Object.keys` returns them; a bucket updated in place becomes a new value
    stored under its key. */
module Store {
  import opened Basics
  import opened Text
  import opened Ledger
  import opened Tallies
  import opened Ordering
  import opened Patterns
  import opened Analysis
  import opened Waste
  import opened Savings
  import opened Advice
  import opened Trends
  import opened Dashboard

  /** One `monthlyData[monthKey]` bucket; its `categories` hold the totals of
      the rows that are not income. */
  datatype MonthBucket = MonthBucket(
    transactions: seq<Transaction>,
    totalIncome: real,
    totalExpenses: real,
    categories: seq<Tally<string>>,
    uploadDate: string)

  /** The bucket `recalculateMonthlyTotals` leaves: its transactions and
      upload date untouched, its totals rebuilt from the transactions alone. */
  function Rebuilt(b: MonthBucket): MonthBucket {
    var outgo := Filter(b.transactions, NotIncome);
    b.(totalIncome := Sum(Filter(b.transactions, IsIncome)),
       totalExpenses := Sum(outgo),
       categories := CategoryTotals(outgo))
  }

  /** A bucket whose totals agree with its transactions. */
  predicate Consistent(b: MonthBucket) {
    b == Rebuilt(b)
  }

  /** Rebuilding depends on the transactions only, so a rebuilt bucket is
      consistent and rebuilding it again changes nothing. */
  lemma RebuiltIdempotent(b: MonthBucket)
    ensures Consistent(Rebuilt(b))
    ensures Rebuilt(Rebuilt(b)) == Rebuilt(b)
  {
  }

  /** In a consistent bucket the income and expense totals split the sum of
      its transactions, and the category map holds one entry per category of
      the non-income rows, with that category's total, adding up to the
      expense total. */
  lemma BucketTotals(b: MonthBucket)
    requires Consistent(b)
    ensures b.totalIncome >= 0.0 && b.totalExpenses >= 0.0
    ensures b.totalIncome + b.totalExpenses == Sum(b.transactions)
    ensures SumTallies(b.categories) == b.totalExpenses
    ensures DistinctKeys(b.categories)
    ensures forall c :: HasKey(b.categories, c) <==> HasCategory(Filter(b.transactions, NotIncome), c)
    ensures forall c :: AmountOf(b.categories, c) == CategorySum(Filter(b.transactions, NotIncome), c)
    ensures forall i :: 0 <= i < |b.categories| ==> b.categories[i].amount > 0.0
  {
    var outgo := Filter(b.transactions, NotIncome);
    SumComplement(b.transactions, IsIncome, NotIncome);
    CategoryTotalsSpec(outgo);
    CategoryTotalsPositive(outgo);
  }

  /** Every category total is positive: a category is listed once some row
      carries it, and amounts are positive. */
  lemma CategoryTotalsPositive(ts: seq<Transaction>)
    ensures forall i :: 0 <= i < |CategoryTotals(ts)| ==> CategoryTotals(ts)[i].amount > 0.0
  {
    var tal := CategoryTotals(ts);
    CategoryTotalsSpec(ts);
    forall i | 0 <= i < |tal| ensures tal[i].amount > 0.0 {
      CategoryTotalsEntry(ts, i);
      assert HasKey(tal, tal[i].key);
      var j :| 0 <= j < |ts| && ts[j].category == tal[i].key;
      assert ts[j] in Filter(ts, InCategory(tal[i].key));
    }
  }

  /** `${year}-${month.toString().padStart(2, '0')}`. */
  function MonthKeyFor(year: nat, month: nat): string {
    NatToString(year) + "-" + PadStart2(NatToString(month))
  }

  /** The year, month and day numbers written in an ISO date. */
  function YearOf(d: IsoDate): nat { DigitsValue(d[..4]) }
  function MonthNumber(d: IsoDate): nat { DigitsValue(d[5..7]) }
  function DayOf(d: IsoDate): nat { DigitsValue(d[8..]) }

  /** The month key built from a date's own year and month is the date's
      month prefix, for years written without a leading zero. */
  lemma MonthKeyOfDate(d: IsoDate)
    requires d[0] != '0'
    ensures MonthKeyFor(YearOf(d), MonthNumber(d)) == MonthOf(d)
  {
    var y, m := YearOf(d), MonthNumber(d);
    YearDigits(d);
    MonthDigits(d);
    assert MonthOf(d) == d[..4] + "-" + d[5..7];
  }

  lemma YearDigits(d: IsoDate)
    requires d[0] != '0'
    ensures NatToString(YearOf(d)) == d[..4]
  {
    var y := YearOf(d);
    LeadingDigitBound(d[..4]);
    NatToStringLength4(y);
    NatToStringRoundTrip(y);
    DigitsValueInjective(NatToString(y), d[..4]);
  }

  lemma MonthDigits(d: IsoDate)
    ensures PadStart2(NatToString(MonthNumber(d))) == d[5..7]
  {
    var m := MonthNumber(d);
    var s := d[5..7];
    assert s[..1][..0] == [];
    assert DigitsValue(s) == DigitsValue(s[..1]) * 10 + DigitsValue([s[1]]) by {
      DigitsValueSnoc(s);
    }
    NatToStringRoundTrip(m);
    var p := PadStart2(NatToString(m));
    if m < 10 {
      assert s[0] == '0' by {
        DigitsValueSnoc(s[..1]);
        assert s[..1][..0] == [];
      }
      assert |p| == 2 && p[0] == '0' && p[1..] == NatToString(m);
      DigitsValueSnoc(p);
      assert p[..1][..0] == [];
      DigitsValueSnoc(p[..1]);
      assert DigitsValue(p) == m;
    } else {
      assert |NatToString(m / 10)| == 1;
      assert p == NatToString(m);
    }
    DigitsValueInjective(p, s);
  }

  /** Splitting off the last digit. */
  lemma DigitsValueSnoc(s: string)
    requires AllDigits(s) && s != []
    ensures DigitsValue(s) == DigitsValue(s[..|s| - 1]) * 10 + DigitsValue([s[|s| - 1]])
  {
    assert [s[|s| - 1]][..0] == [];
  }

  /** Four digits without a leading zero make a number of four digits. */
  lemma LeadingDigitBound(s: string)
    requires |s| == 4 && AllDigits(s) && s[0] != '0'
    ensures 1000 <= DigitsValue(s) <= 9999
  {
    assert s[..3][..2][..1][..0] == [];
    DigitsValueSnoc(s);
    DigitsValueSnoc(s[..3]);
    DigitsValueSnoc(s[..3][..2]);
    DigitsValueSnoc(s[..3][..2][..1]);
  }

  /** `importCSVData` takes the bucket's month and year from its first row
      with `new Date(date).getMonth() + 1` and `getFullYear()`.  `new Date`
      reads an ISO date as midnight UTC, and the two getters read the
      calendar of the browser's time zone, `offset` minutes east of UTC:
      west of UTC the first of a month is still the last day of the month
      before. */
  function LocalYearMonth(d: IsoDate, offset: int): (r: (nat, nat))
    requires -1440 < offset < 1440
    requires 1 <= MonthNumber(d) <= 12 && 1 <= DayOf(d)
    ensures 1 <= r.1 <= 12
    ensures offset >= 0 || DayOf(d) > 1 ==> r == (YearOf(d), MonthNumber(d))
    ensures offset < 0 && DayOf(d) == 1 && YearOf(d) >= 1 ==>
              MonthIndex(r.0, r.1) == MonthIndex(YearOf(d), MonthNumber(d)) - 1
  {
    var y, m := YearOf(d), MonthNumber(d);
    if offset < 0 && DayOf(d) == 1 then
      (if m == 1 then (if y == 0 then 0 else y - 1, 12) else (y, m - 1))
    else (y, m)
  }

  /** Months counted from January of year 0, so that consecutive months
      have consecutive indices. */
  function MonthIndex(year: nat, month: nat): int {
    year * 12 + month - 1
  }

  /** West of UTC a batch whose first row falls on the first of a month is
      filed under the month before. */
  lemma LocalMonthMisfiles()
    ensures var d: IsoDate := "2024-03-01";
      && YearOf(d) == 2024 && MonthNumber(d) == 3 && DayOf(d) == 1
      && LocalYearMonth(d, -300) == (2024, 2)
      && MonthKeyFor(2024, 2) != MonthOf(d)
  {
    var d: IsoDate := "2024-03-01";
    assert d[..4] == "2024";
    assert d[5..7] == "03";
    assert d[8..] == "01";
    YearValue();
    MonthDayValues();
    assert NatToString(2) == "2";
    assert PadStart2("2") == "02";
    assert MonthKeyFor(2024, 2)[5..] == "02";
  }

  lemma YearValue()
    ensures DigitsValue("2024") == 2024
  {
    assert "2024"[..3] == "202";
    assert "202"[..2] == "20";
    assert "20"[..1] == "2";
    assert "2"[..0] == [];
  }

  lemma MonthDayValues()
    ensures DigitsValue("03") == 3 && DigitsValue("01") == 1
  {
    assert "03"[..1] == "0";
    assert "01"[..1] == "0";
    assert "0"[..0] == [];
  }

  /** The month and year the batch is evidently meant for: the ones written
      in the first row's date. */
  function ImportYearMonth(d: IsoDate): (r: (nat, nat))
    ensures d[0] != '0' ==> MonthKeyFor(r.0, r.1) == MonthOf(d)
  {
    MonthKeyOfDate2(d);
    (YearOf(d), MonthNumber(d))
  }

  lemma MonthKeyOfDate2(d: IsoDate)
    ensures d[0] != '0' ==> MonthKeyFor(YearOf(d), MonthNumber(d)) == MonthOf(d)
  {
    if d[0] != '0' {
      MonthKeyOfDate(d);
    }
  }

  /** `monthKey.startsWith(prefix)`. */
  predicate StartsWith(s: string, prefix: string) {
    |prefix| <= |s| && s[..|prefix|] == prefix
  }

  /** A fresh bucket, as `addMonthlyData` creates one for a month not seen
      before, stamped with the upload time `now`. */
  function EmptyBucket(now: string): MonthBucket {
    MonthBucket([], 0.0, 0.0, [], now)
  }

  /** The bucket under `key` before the batch is appended: the existing one
      or a fresh one. */
  function Opened(data: map<string, MonthBucket>, key: string, now: string): MonthBucket {
    if key in data then data[key] else EmptyBucket(now)
  }

  /** The bucket `addMonthlyData` leaves under `key`: the batch appended to
      the opened bucket, then its totals rebuilt. */
  function Appended(data: map<string, MonthBucket>, key: string, batch: seq<Transaction>, now: string): MonthBucket {
    var b := Opened(data, key, now);
    Rebuilt(b.(transactions := b.transactions + batch))
  }

  /** The bucket after an append holds the earlier rows of its month followed
      by the batch, keeps its first upload time, and its totals count every
      row: the earlier totals plus the batch's own. */
  lemma AppendedSpec(data: map<string, MonthBucket>, key: string, batch: seq<Transaction>, now: string)
    requires key in data ==> Consistent(data[key])
    ensures var b := Appended(data, key, batch, now);
      && Consistent(b)
      && b.transactions == (if key in data then data[key].transactions else []) + batch
      && b.uploadDate == (if key in data then data[key].uploadDate else now)
      && b.totalIncome == (if key in data then data[key].totalIncome else 0.0) + Sum(Filter(batch, IsIncome))
      && b.totalExpenses == (if key in data then data[key].totalExpenses else 0.0) + Sum(Filter(batch, NotIncome))
  {
    var o := Opened(data, key, now);
    FilterAppend(o.transactions, batch, IsIncome);
    FilterAppend(o.transactions, batch, NotIncome);
    SumAppend(Filter(o.transactions, IsIncome), Filter(batch, IsIncome));
    SumAppend(Filter(o.transactions, NotIncome), Filter(batch, NotIncome));
    RebuiltIdempotent(o.(transactions := o.transactions + batch));
  }

  /** `transactions.push(...batch)` as done for every bucket of the map: all
      bucket rows in key order (`Object.values(monthlyData).flatMap(m => m.transactions)`). */
  function Flatten(keys: seq<string>, data: map<string, MonthBucket>): seq<Transaction>
    requires forall k :: k in keys ==> k in data
  {
    if keys == [] then [] else data[keys[0]].transactions + Flatten(keys[1..], data)
  }

  /** The rows `getMonthlyTrendData` reads, as written: the global list
      followed by every bucket's rows. */
  function TrendInputAsWritten(ts: seq<Transaction>, keys: seq<string>, data: map<string, MonthBucket>): (r: seq<Transaction>)
    requires forall k :: k in keys ==> k in data
    ensures |r| == |ts| + |Flatten(keys, data)|
  {
    ts + Flatten(keys, data)
  }

  /** A month's income and other rows over two lists read one after the
      other are those of each list, added. */
  lemma SumsOfConcat(a: seq<Transaction>, b: seq<Transaction>, m: string)
    ensures Sum(Filter(a + b, IncomeIn(m))) == Sum(Filter(a, IncomeIn(m))) + Sum(Filter(b, IncomeIn(m)))
    ensures Sum(Filter(a + b, OutgoIn(m))) == Sum(Filter(a, OutgoIn(m))) + Sum(Filter(b, OutgoIn(m)))
  {
    FilterAppend(a, b, IncomeIn(m));
    SumAppend(Filter(a, IncomeIn(m)), Filter(b, IncomeIn(m)));
    FilterAppend(a, b, OutgoIn(m));
    SumAppend(Filter(a, OutgoIn(m)), Filter(b, OutgoIn(m)));
  }

  /** The trend window over two lists read one after the other: each month's
      figures are the sums of the two lists' rows for that month. */
  lemma TrendOverConcat(a: seq<Transaction>, b: seq<Transaction>)
    ensures var r := MonthlyTrendData(a + b);
      && Ascending(r, MonthKey)
      && |r| == (if |MonthTotals(a + b)| < 6 then |MonthTotals(a + b)| else 6)
      && forall i :: 0 <= i < |r| ==>
           && InSomeMonth(a + b, r[i].month)
           && r[i].income == Sum(Filter(a, IncomeIn(r[i].month))) + Sum(Filter(b, IncomeIn(r[i].month)))
           && r[i].expenses == Sum(Filter(a, OutgoIn(r[i].month))) + Sum(Filter(b, OutgoIn(r[i].month)))
  {
    var r := MonthlyTrendData(a + b);
    MonthlyTrendDataSpec(a + b);
    forall i | 0 <= i < |r|
      ensures r[i].income == Sum(Filter(a, IncomeIn(r[i].month))) + Sum(Filter(b, IncomeIn(r[i].month)))
      ensures r[i].expenses == Sum(Filter(a, OutgoIn(r[i].month))) + Sum(Filter(b, OutgoIn(r[i].month)))
    {
      SumsOfConcat(a, b, r[i].month);
    }
  }

  /** After one imported 60 expense (which `addMonthlyData` pushes onto both
      the global list and its bucket), the trend reports 120 of expenses for
      its month. */
  lemma TrendDoubleCount()
    ensures var t := Transaction(Expense, 60.0, "food", "lunch", SampleDay);
      var data := map["2024-03" := Rebuilt(MonthBucket([t], 0.0, 0.0, [], "now"))];
      MonthlyTrendData(TrendInputAsWritten([t], ["2024-03"], data)) == [MonthEntry("2024-03", 0.0, 120.0)]
  {
    var t := Transaction(Expense, 60.0, "food", "lunch", SampleDay);
    var data := map["2024-03" := Rebuilt(MonthBucket([t], 0.0, 0.0, [], "now"))];
    assert Flatten(["2024-03"], data) == [t];
    assert MonthOf(t.date) == "2024-03";
    var input := TrendInputAsWritten([t], ["2024-03"], data);
    assert input == [t, t];
    assert input[..1] == [t] && [t][..0] == [];
    var once := MonthEntry("2024-03", 0.0, 60.0);
    assert MonthTotals([t]) == Record([], t) == [once];
    assert Record([once], t) == [MonthEntry("2024-03", 0.0, 120.0)];
    assert MonthTotals(input) == [MonthEntry("2024-03", 0.0, 120.0)];
    SingleMonthTrend(input, MonthEntry("2024-03", 0.0, 120.0));
  }

  /** Counting the global list alone, the same imported 60 expense shows as
      60. */
  lemma TrendCountsOnce()
    ensures var t := Transaction(Expense, 60.0, "food", "lunch", SampleDay);
      MonthlyTrendData([t]) == [MonthEntry("2024-03", 0.0, 60.0)]
  {
    var t := Transaction(Expense, 60.0, "food", "lunch", SampleDay);
    assert MonthOf(t.date) == "2024-03";
    assert [t][..0] == [];
    assert MonthTotals([t]) == Record([], t) == [MonthEntry("2024-03", 0.0, 60.0)];
    SingleMonthTrend([t], MonthEntry("2024-03", 0.0, 60.0));
  }

  /** One row of `getYearlyData`: a month of the year with its expense total
      and its share of the year's expenses in per cent; the month name is
      looked up from the key's month number. */
  datatype YearRow = YearRow(monthKey: string, amount: real, percentage: real)

  /** The expense totals of the buckets under `keys`, added up. */
  function ExpenseSum(data: map<string, MonthBucket>, keys: seq<string>): real
    requires forall k :: k in keys ==> k in data
  {
    if keys == [] then 0.0 else data[keys[0]].totalExpenses + ExpenseSum(data, keys[1..])
  }

  /** The `map` to rows followed by `filter(item => item.amount > 0)`, with
      the percentage guarded against a zero total. */
  function YearRows(data: map<string, MonthBucket>, keys: seq<string>, total: real): seq<YearRow>
    requires forall k :: k in keys ==> k in data
  {
    if keys == [] then []
    else
      var e := data[keys[0]].totalExpenses;
      var rest := YearRows(data, keys[1..], total);
      if e > 0.0 then [YearRow(keys[0], e, if total > 0.0 then e / total * 100.0 else 0.0)] + rest else rest
  }

  function AmountSum(rows: seq<YearRow>): real {
    if rows == [] then 0.0 else rows[0].amount + AmountSum(rows[1..])
  }

  function PercentSum(rows: seq<YearRow>): real {
    if rows == [] then 0.0 else rows[0].percentage + PercentSum(rows[1..])
  }

  /** The keys `getYearlyData` walks: those starting with the year, sorted
      ascending. */
  function YearKeys(keys: seq<string>, year: nat): (r: seq<string>)
    requires DistinctBy(keys, Id)
    ensures Ascending(r, Id)
    ensures forall k :: k in r <==> k in keys && StartsWith(k, NatToString(year))
  {
    var prefix := NatToString(year);
    var keep := k => StartsWith(k, prefix);
    var kept := KeepIf(keys, keep);
    KeepIfDistinct(keys, keep);
    var sorted := SortAsc(kept, Id);
    assert forall k :: k in sorted <==> k in keys && keep(k) by {
      forall k ensures k in sorted <==> k in keys && keep(k) {
        if k in sorted {
          assert k in multiset(kept);
        }
        if k in keys && keep(k) {
          assert k in multiset(sorted);
        }
      }
    }
    sorted
  }

  /** `getYearlyData` over the buckets `data` listed by `keys`: the months
      whose key starts with the year, in ascending key order. */
  function YearlyRows(data: map<string, MonthBucket>, keys: seq<string>, year: nat): seq<YearRow>
    requires DistinctBy(keys, Id)
    requires forall k :: k in keys ==> k in data
  {
    var sorted := YearKeys(keys, year);
    YearRows(data, sorted, ExpenseSum(data, sorted))
  }

  function RowKey(r: YearRow): string { r.monthKey }

  /** With no negative bucket the rows add up to the expense total of all
      the keys: the months left out hold nothing. */
  lemma {:induction false} YearRowsSum(data: map<string, MonthBucket>, keys: seq<string>, total: real)
    requires forall k :: k in keys ==> k in data
    requires forall k :: k in keys ==> data[k].totalExpenses >= 0.0
    ensures AmountSum(YearRows(data, keys, total)) == ExpenseSum(data, keys)
  {
    if keys != [] {
      YearRowsSum(data, keys[1..], total);
    }
  }

  /** A row holding the expense total of its month and that total's share
      of `total`. */
  predicate RowOf(data: map<string, MonthBucket>, total: real, r: YearRow) {
    && r.monthKey in data
    && r.amount == data[r.monthKey].totalExpenses > 0.0
    && r.percentage == (if total > 0.0 then r.amount / total * 100.0 else 0.0)
  }

  /** Every row is a key with a positive expense total, holding that total
      and its share of `total`. */
  lemma {:induction false} YearRowsEntries(data: map<string, MonthBucket>, keys: seq<string>, total: real)
    requires forall k :: k in keys ==> k in data
    ensures forall i :: 0 <= i < |YearRows(data, keys, total)| ==>
      YearRows(data, keys, total)[i].monthKey in keys && RowOf(data, total, YearRows(data, keys, total)[i])
  {
    if keys != [] {
      var rest := YearRows(data, keys[1..], total);
      YearRowsEntries(data, keys[1..], total);
      var rows := YearRows(data, keys, total);
      forall i | 0 <= i < |rest| ensures rest[i].monthKey in keys {
        assert rest[i].monthKey in keys[1..];
      }
    }
  }

  /** Every key with a positive expense total has its row. */
  lemma {:induction false} YearRowsComplete(data: map<string, MonthBucket>, keys: seq<string>, total: real)
    requires forall k :: k in keys ==> k in data
    ensures forall k :: k in keys && data[k].totalExpenses > 0.0 ==> HasRow(YearRows(data, keys, total), k)
  {
    if keys != [] {
      YearRowsComplete(data, keys[1..], total);
      var rest := YearRows(data, keys[1..], total);
      var rows := YearRows(data, keys, total);
      var e := data[keys[0]].totalExpenses;
      forall k | k in keys && data[k].totalExpenses > 0.0
        ensures HasRow(rows, k)
      {
        if k == keys[0] {
          assert rows[0].monthKey == k;
        } else {
          assert k in keys[1..];
          var i :| 0 <= i < |rest| && rest[i].monthKey == k;
          if e > 0.0 {
            assert rows[i + 1].monthKey == k;
          } else {
            assert rows[i].monthKey == k;
          }
        }
      }
    }
  }

  predicate HasRow(rows: seq<YearRow>, k: string) {
    exists i :: 0 <= i < |rows| && rows[i].monthKey == k
  }

  /** Rows of ascending keys are in ascending key order. */
  lemma {:induction false} YearRowsAscending(data: map<string, MonthBucket>, keys: seq<string>, total: real)
    requires forall k :: k in keys ==> k in data
    requires Ascending(keys, Id)
    ensures Ascending(YearRows(data, keys, total), RowKey)
  {
    if keys != [] {
      var rest := YearRows(data, keys[1..], total);
      assert Ascending(keys[1..], Id);
      YearRowsAscending(data, keys[1..], total);
      var e := data[keys[0]].totalExpenses;
      if e > 0.0 {
        YearRowsEntries(data, keys[1..], total);
        forall i | 0 <= i < |rest| ensures StrLess(keys[0], rest[i].monthKey) {
          assert rest[i].monthKey in keys[1..];
          var j :| 0 <= j < |keys[1..]| && keys[1..][j] == rest[i].monthKey;
          assert keys[j + 1] == rest[i].monthKey;
        }
        AscendingCons(YearRow(keys[0], e, if total > 0.0 then e / total * 100.0 else 0.0), rest, RowKey);
      }
    }
  }

  /** Percentages that are each amount's share of `total` add up to the
      share of the amounts' sum. */
  lemma {:induction false} PercentSumShare(rows: seq<YearRow>, total: real)
    requires total > 0.0
    requires forall i :: 0 <= i < |rows| ==> rows[i].percentage == rows[i].amount / total * 100.0
    ensures PercentSum(rows) == AmountSum(rows) / total * 100.0
  {
    if rows != [] {
      PercentSumShare(rows[1..], total);
      var a, s := rows[0].amount, AmountSum(rows[1..]);
      assert a / total * 100.0 + s / total * 100.0 == (a + s) / total * 100.0;
    }
  }

  lemma {:induction false} AmountSumPositive(rows: seq<YearRow>)
    requires forall i :: 0 <= i < |rows| ==> rows[i].amount > 0.0
    ensures rows != [] ==> AmountSum(rows) > 0.0
    ensures AmountSum(rows) >= 0.0
  {
    if rows != [] {
      AmountSumPositive(rows[1..]);
    }
  }

  /** `getYearlyData` lists, in ascending key order, exactly the months of
      the year with some expense, each holding its expense total and its
      share of the year's expenses. */
  lemma YearlyRowsSpec(data: map<string, MonthBucket>, keys: seq<string>, year: nat)
    requires DistinctBy(keys, Id)
    requires forall k :: k in keys ==> k in data
    ensures var rows := YearlyRows(data, keys, year);
      && Ascending(rows, RowKey)
      && (forall i :: 0 <= i < |rows| ==>
            rows[i].monthKey in keys && StartsWith(rows[i].monthKey, NatToString(year))
            && RowOf(data, ExpenseSum(data, YearKeys(keys, year)), rows[i]))
      && (forall k :: k in keys && StartsWith(k, NatToString(year)) && data[k].totalExpenses > 0.0 ==> HasRow(rows, k))
  {
    var sorted := YearKeys(keys, year);
    var total := ExpenseSum(data, sorted);
    YearRowsAscending(data, sorted, total);
    YearRowsEntries(data, sorted, total);
    YearRowsComplete(data, sorted, total);
  }

  /** When `getYearlyData` lists any month, the percentages add up to 100
      (bucket expense totals are sums of positive amounts, so none is
      negative). */
  lemma YearlyPercentages(data: map<string, MonthBucket>, keys: seq<string>, year: nat)
    requires DistinctBy(keys, Id)
    requires forall k :: k in keys ==> k in data && data[k].totalExpenses >= 0.0
    ensures var rows := YearlyRows(data, keys, year);
      rows != [] ==> PercentSum(rows) == 100.0
  {
    var sorted := YearKeys(keys, year);
    var total := ExpenseSum(data, sorted);
    var rows := YearRows(data, sorted, total);
    YearRowsSum(data, sorted, total);
    YearRowsEntries(data, sorted, total);
    if rows != [] {
      SharesOfWhole(rows, total);
    }
  }

  /** Rows holding their shares of their own positive sum add up to 100. */
  lemma SharesOfWhole(rows: seq<YearRow>, total: real)
    requires rows != [] && total == AmountSum(rows)
    requires forall i :: 0 <= i < |rows| ==> rows[i].amount > 0.0
    requires forall i :: 0 <= i < |rows| ==> rows[i].percentage == (if total > 0.0 then rows[i].amount / total * 100.0 else 0.0)
    ensures PercentSum(rows) == 100.0
  {
    AmountSumPositive(rows);
    PercentSumShare(rows, total);
    WholeShare(total);
  }

  lemma WholeShare(x: real)
    requires x > 0.0
    ensures x / x * 100.0 == 100.0
  {
  }

  /** The month keys are listed once each, exactly the keys of the map, and
      every bucket's totals agree with its rows. */
  ghost predicate WellFormed(keys: seq<string>, data: map<string, MonthBucket>) {
    && DistinctBy(keys, Id)
    && (forall k :: k in keys <==> k in data)
    && (forall k {:trigger Consistent(data[k])} :: k in data ==> Consistent(data[k]))
  }

  /** `addMonthlyData` keeps the buckets well formed. */
  lemma AppendKeepsWellFormed(keys: seq<string>, data: map<string, MonthBucket>, key: string, batch: seq<Transaction>, now: string)
    requires WellFormed(keys, data)
    ensures WellFormed(if key in data then keys else keys + [key], data[key := Appended(data, key, batch, now)])
  {
    var b := Appended(data, key, batch, now);
    var data' := data[key := b];
    var keys' := if key in data then keys else keys + [key];
    var start := Opened(data, key, now);
    RebuiltIdempotent(start.(transactions := start.transactions + batch));
    assert Consistent(b);
    forall k | k in data' ensures Consistent(data'[k]) {
      if k != key {
        assert data'[k] == data[k];
      }
    }
    if key !in data {
      forall i, j | 0 <= i < j < |keys'| ensures Id(keys'[i]) != Id(keys'[j]) {
        if j == |keys| {
          assert keys'[i] in keys;
        }
      }
    }
  }

  /** The income total, the expense total and the category totals of a
      bucket's rows. */
  function Totals(ts: seq<Transaction>): (real, real, seq<Tally<string>>) {
    var outgo := Filter(ts, NotIncome);
    (Sum(Filter(ts, IsIncome)), Sum(outgo), CategoryTotals(outgo))
  }

  /** One pass of the `forEach` body over a row. */
  function AddRow(acc: (real, real, seq<Tally<string>>), t: Transaction): (real, real, seq<Tally<string>>) {
    if t.kind == Income then (acc.0 + t.amount, acc.1, acc.2)
    else (acc.0, acc.1 + t.amount, Bump(acc.2, t.category, t.amount))
  }

  /** Bucket expense totals are sums of positive amounts. */
  lemma WellFormedNonNegative(keys: seq<string>, data: map<string, MonthBucket>)
    requires WellFormed(keys, data)
    ensures forall k :: k in keys ==> k in data && data[k].totalExpenses >= 0.0
  {
    forall k | k in keys ensures data[k].totalExpenses >= 0.0 {
      assert Consistent(data[k]);
    }
  }

  /** One row more: income goes to the income total, any other row to the
      expense total and to its category. */
  lemma TotalsSnoc(prefix: seq<Transaction>, t: Transaction)
    ensures Totals(prefix + [t]) == AddRow(Totals(prefix), t)
  {
    FilterSumSnoc(prefix, t, IsIncome);
    FilterSumSnoc(prefix, t, NotIncome);
    CategoryTotalsOutgoSnoc(prefix, t);
    var x, y := Totals(prefix + [t]), AddRow(Totals(prefix), t);
    assert x.0 == y.0;
    assert x.1 == y.1;
    assert x.2 == y.2;
  }

  lemma CategoryTotalsOutgoSnoc(prefix: seq<Transaction>, t: Transaction)
    ensures CategoryTotals(Filter(prefix + [t], NotIncome)) ==
      if t.kind == Income then CategoryTotals(Filter(prefix, NotIncome))
      else Bump(CategoryTotals(Filter(prefix, NotIncome)), t.category, t.amount)
  {
    FilterAppend(prefix, [t], NotIncome);
    var f := Filter(prefix, NotIncome);
    if t.kind != Income {
      assert (f + [t])[..|f|] == f;
    } else {
      assert f + [] == f;
    }
  }

  /** The tracker's global state: `transactions` and `monthlyData`, whose
      keys `monthKeys` lists in insertion order. */
  class FinanceStore {
    var transactions: seq<Transaction>
    var monthKeys: seq<string>
    var monthlyData: map<string, MonthBucket>

    /** The keys are listed once each, exactly the keys of the map, and every
        bucket's totals agree with its rows. */
    ghost predicate Valid()
      reads this
    {
      WellFormed(monthKeys, monthlyData)
    }

    /** The state at start-up: no transactions and no buckets. */
    constructor()
      ensures Valid()
      ensures transactions == [] && monthKeys == [] && monthlyData == map[]
    {
      transactions := [];
      monthKeys := [];
      monthlyData := map[];
    }

    /** `recalculateMonthlyTotals(key)`: resets the bucket's totals and adds
        its rows up again, income to `totalIncome`, every other row to
        `totalExpenses` and to its category. */
    method RecalculateMonthlyTotals(key: string)
      requires key in monthlyData
      modifies this
      ensures monthlyData == old(monthlyData)[key := Rebuilt(old(monthlyData)[key])]
      ensures transactions == old(transactions) && monthKeys == old(monthKeys)
    {
      var b := monthlyData[key];
      var ts := b.transactions;
      var acc: (real, real, seq<Tally<string>>) := (0.0, 0.0, []);
      assert ts[..0] == [];
      for i := 0 to |ts|
        invariant acc == Totals(ts[..i])
        invariant monthlyData == old(monthlyData)
        invariant transactions == old(transactions) && monthKeys == old(monthKeys)
      {
        assert ts[..i + 1] == ts[..i] + [ts[i]];
        TotalsSnoc(ts[..i], ts[i]);
        acc := AddRow(acc, ts[i]);
      }
      assert ts[..|ts|] == ts;
      monthlyData := monthlyData[key := b.(totalIncome := acc.0, totalExpenses := acc.1, categories := acc.2)];
    }

    /** `addMonthlyData(month, year, batch)`: opens the bucket of
        `YYYY-MM` (a fresh one stamped `now` when the month is new, listed
        after the keys already there), appends the batch to it, rebuilds its
        totals, and appends the batch to `transactions`; other buckets are
        untouched. */
    method AddMonthlyData(month: nat, year: nat, batch: seq<Transaction>, now: string)
      requires Valid()
      modifies this
      ensures Valid()
      ensures var key := MonthKeyFor(year, month);
        && monthlyData == old(monthlyData)[key := Appended(old(monthlyData), key, batch, now)]
        && monthKeys == (if key in old(monthlyData) then old(monthKeys) else old(monthKeys) + [key])
      ensures transactions == old(transactions) + batch
    {
      var key := MonthKeyFor(year, month);
      ghost var data0, keys0 := monthlyData, monthKeys;
      AppendToMonth(key, batch, now);
      AppendKeepsWellFormed(keys0, data0, key, batch, now);
    }

    /** The steps of `addMonthlyData` after the key is formed: open the
        bucket, push the batch onto it, rebuild its totals, and push the batch
        onto `transactions`. */
    method AppendToMonth(key: string, batch: seq<Transaction>, now: string)
      modifies this
      ensures monthlyData == old(monthlyData)[key := Appended(old(monthlyData), key, batch, now)]
      ensures monthKeys == if key in old(monthlyData) then old(monthKeys) else old(monthKeys) + [key]
      ensures transactions == old(transactions) + batch
    {
      ghost var data0 := monthlyData;
      OpenBucket(key, now);
      var b := monthlyData[key];
      monthlyData := monthlyData[key := b.(transactions := b.transactions + batch)];
      RecalculateMonthlyTotals(key);
      assert monthlyData[key] == Appended(data0, key, batch, now);
      transactions := transactions + batch;
    }

    /** The `if (!monthlyData[key])` step: a missing month gets an empty
        bucket stamped `now`, and its key goes after the keys already there. */
    method OpenBucket(key: string, now: string)
      modifies this
      ensures monthlyData == old(monthlyData)[key := Opened(old(monthlyData), key, now)]
      ensures monthKeys == if key in old(monthlyData) then old(monthKeys) else old(monthKeys) + [key]
      ensures transactions == old(transactions)
    {
      if key !in monthlyData {
        monthlyData := monthlyData[key := EmptyBucket(now)];
        monthKeys := monthKeys + [key];
      }
    }

    /** `getMonthlyData(month, year)`: the bucket of `YYYY-MM`, or `None`;
        a bucket found has totals agreeing with its rows. */
    function GetMonthlyData(month: nat, year: nat): (r: Option<MonthBucket>)
      reads this
      ensures r.Some? <==> MonthKeyFor(year, month) in monthlyData
      ensures r.Some? ==> r.value == monthlyData[MonthKeyFor(year, month)]
      ensures Valid() && r.Some? ==> Consistent(r.value)
    {
      var key := MonthKeyFor(year, month);
      if key in monthlyData then Some(monthlyData[key]) else None
    }

    /** `getMostRecentMonthData`: the bucket of the greatest key, `None`
        when there is none. */
    function MostRecentMonthData(): (r: Option<MonthBucket>)
      reads this
      requires Valid()
      ensures r.None? <==> monthlyData == map[]
      ensures r.Some? ==> exists k :: (k in monthlyData && r.value == monthlyData[k]
        && forall k' :: k' in monthlyData && k' != k ==> StrLess(k', k))
      ensures r.Some? ==> Consistent(r.value)
    {
      match Greatest(monthKeys)
      case None => None
      case Some(k) => Some(monthlyData[k])
    }

    /** `updateExpenseInsights`: the insight about the most recent month, or
        `None` without a month or without any expense in it. */
    function ExpenseInsight(): (r: Option<Insight>)
      reads this
      requires Valid()
      ensures r.Some? <==> MostRecentMonthData().Some? && MostRecentMonthData().value.categories != []
    {
      match MostRecentMonthData()
      case None => None
      case Some(b) => if b.categories == [] then None else Some(GenerateExpenseInsights(b.categories, b.totalExpenses))
    }

    /** The insight about a consistent month always has a share (its
        expense total is positive once it has a category), and its message
        follows how many categories the month has. */
    lemma ExpenseInsightSpec()
      requires Valid()
      ensures ExpenseInsight().Some? ==>
        var b := MostRecentMonthData().value;
        var tone := ExpenseInsight().value.tone;
        && ExpenseInsight().value.share.Some?
        && (|b.categories| == 1 ==> tone == Diversify)
        && (tone == Balanced ==> |b.categories| >= 3)
        && (tone == WellDistributed ==> |b.categories| >= 4)
    {
      if ExpenseInsight().Some? {
        var b := MostRecentMonthData().value;
        BucketTotals(b);
        SumTalliesAtLeast(b.categories, 0);
        InsightSpread(b.categories, b.totalExpenses);
      }
    }

    /** `getYearlyData` for the year `year`. */
    function YearlyData(year: nat): (rows: seq<YearRow>)
      reads this
      requires Valid()
      ensures Ascending(rows, RowKey)
      ensures forall i :: 0 <= i < |rows| ==>
        && rows[i].monthKey in monthlyData
        && StartsWith(rows[i].monthKey, NatToString(year))
        && rows[i].amount == monthlyData[rows[i].monthKey].totalExpenses > 0.0
      ensures forall k :: k in monthlyData && StartsWith(k, NatToString(year)) && monthlyData[k].totalExpenses > 0.0 ==>
        HasRow(rows, k)
      ensures rows != [] ==> PercentSum(rows) == 100.0
    {
      YearlyRowsSpec(monthlyData, monthKeys, year);
      WellFormedNonNegative(monthKeys, monthlyData);
      YearlyPercentages(monthlyData, monthKeys, year);
      YearlyRows(monthlyData, monthKeys, year)
    }

    /** `getMonthlyTrendData`, counting each row once: the latest six months
        of `transactions` in ascending order, each with that month's income
        and other rows. */
    function MonthlyTrend(): (r: seq<MonthEntry>)
      reads this
      ensures Ascending(r, MonthKey)
      ensures |r| == (if |MonthTotals(transactions)| < 6 then |MonthTotals(transactions)| else 6)
      ensures forall i :: 0 <= i < |r| ==>
        && InSomeMonth(transactions, r[i].month)
        && r[i].income == Sum(Filter(transactions, IncomeIn(r[i].month)))
        && r[i].expenses == Sum(Filter(transactions, OutgoIn(r[i].month)))
    {
      MonthlyTrendDataSpec(transactions);
      MonthlyTrendData(transactions)
    }

    /** `getMonthlyTrendData` as written: it reads `transactions` followed by
        every bucket's rows, so each month's figures are the global list's
        plus the buckets'. */
    function MonthlyTrendAsWritten(): (r: seq<MonthEntry>)
      reads this
      requires Valid()
      ensures var input := TrendInputAsWritten(transactions, monthKeys, monthlyData);
        && Ascending(r, MonthKey)
        && |r| == (if |MonthTotals(input)| < 6 then |MonthTotals(input)| else 6)
        && forall i :: 0 <= i < |r| ==> InSomeMonth(input, r[i].month)
      ensures forall i :: 0 <= i < |r| ==>
        var rows := Flatten(monthKeys, monthlyData);
        && r[i].income == Sum(Filter(transactions, IncomeIn(r[i].month))) + Sum(Filter(rows, IncomeIn(r[i].month)))
        && r[i].expenses == Sum(Filter(transactions, OutgoIn(r[i].month))) + Sum(Filter(rows, OutgoIn(r[i].month)))
    {
      TrendOverConcat(transactions, Flatten(monthKeys, monthlyData));
      MonthlyTrendData(TrendInputAsWritten(transactions, monthKeys, monthlyData))
    }

    /** `performComprehensiveAnalysis(data)`: puts `data` in place of
        `transactions`, runs every analyzer over it and restores the list. */
    method PerformComprehensiveAnalysis(data: seq<Transaction>, clock: Clock) returns (analysis: Report)
      modifies this`transactions
      ensures analysis == Analyze(data, clock)
      ensures transactions == old(transactions)
    {
      var original := transactions;
      transactions := data;
      analysis := Analyze(transactions, clock);
      transactions := original;
    }

    /** `importCSVData(rows)` for rows already converted to ISO dates: the
        batch goes to the month of its first row; an empty batch fails at
        the first row and changes nothing. */
    method ImportCsvData(batch: seq<Transaction>, now: string) returns (ok: bool)
      requires Valid()
      modifies this
      ensures Valid()
      ensures ok <==> batch != []
      ensures !ok ==> transactions == old(transactions) && monthKeys == old(monthKeys) && monthlyData == old(monthlyData)
      ensures ok ==> var (year, month) := ImportYearMonth(batch[0].date);
        var key := MonthKeyFor(year, month);
        && monthlyData == old(monthlyData)[key := Appended(old(monthlyData), key, batch, now)]
        && monthKeys == (if key in old(monthlyData) then old(monthKeys) else old(monthKeys) + [key])
        && transactions == old(transactions) + batch
      ensures ok && batch[0].date[0] != '0' ==>
        var key := MonthOf(batch[0].date);
        && key in monthlyData
        && monthlyData[key].transactions == Opened(old(monthlyData), key, now).transactions + batch
    {
      if batch == [] {
        return false;
      }
      var (year, month) := ImportYearMonth(batch[0].date);
      AddMonthlyData(month, year, batch, now);
      ok := true;
    }

    /** `importCSVData(rows)` as written: the month and year come from
        `new Date(date)` read in the browser's zone, `offset` minutes east of
        UTC, so west of UTC a batch starting on the first of a month goes to
        the month before. */
    method ImportCsvDataAsWritten(batch: seq<Transaction>, now: string, offset: int) returns (ok: bool)
      requires Valid()
      requires -1440 < offset < 1440
      requires batch != [] ==> 1 <= MonthNumber(batch[0].date) <= 12 && 1 <= DayOf(batch[0].date)
      modifies this
      ensures Valid()
      ensures ok <==> batch != []
      ensures !ok ==> transactions == old(transactions) && monthKeys == old(monthKeys) && monthlyData == old(monthlyData)
      ensures ok ==> var (year, month) := LocalYearMonth(batch[0].date, offset);
        var key := MonthKeyFor(year, month);
        && monthlyData == old(monthlyData)[key := Appended(old(monthlyData), key, batch, now)]
        && monthKeys == (if key in old(monthlyData) then old(monthKeys) else old(monthKeys) + [key])
        && transactions == old(transactions) + batch
    {
      if batch == [] {
        return false;
      }
      var (year, month) := LocalYearMonth(batch[0].date, offset);
      AddMonthlyData(month, year, batch, now);
      ok := true;
    }
  }
}
