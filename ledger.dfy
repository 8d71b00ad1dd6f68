/** The transaction record of the finance tracker and the sums and filters
    every analysis is built from (`transactions.filter(...)`,
    `.reduce((sum, t) => sum + t.amount, 0)`). */
module Ledger {
  import opened Text

  /** A transaction amount; the direction is carried by the type, never by the sign. */
  type Amount = r: real | r > 0.0 witness 1.0

  /** The shape `YYYY-MM-DD` that both the entry form (`toISOString().split('T')[0]`)
      and the CSV import produce. */
  predicate IsIsoDate(s: string) {
    |s| == 10 && s[4] == '-' && s[7] == '-'
    && AllDigits(s[..4]) && AllDigits(s[5..7]) && AllDigits(s[8..])
  }

  type IsoDate = s: string | IsIsoDate(s) witness "1970-01-01"

  /** The `type` field. The entry form and the CSV import only produce
      `income` and `expense`; records loaded back from storage may carry any
      other string, which `Other` stands for. */
  datatype Kind = Income | Expense | Other(name: string)

  /** A transaction; `id` and `timestamp` only identify records and are not modelled. */
  datatype Transaction = Transaction(
    kind: Kind,
    amount: Amount,
    category: string,
    description: string,
    date: IsoDate)

  /** The month key `YYYY-MM` of a date: the first seven characters of its ISO form. */
  function MonthOf(d: IsoDate): (m: string)
    ensures |m| == 7 && m[4] == '-' && m == d[..7]
  {
    d[..7]
  }

  predicate IsIncome(t: Transaction) { t.kind == Income }

  predicate IsExpense(t: Transaction) { t.kind == Expense }

  /** The `else` branch of `if (t.type === 'income') ... else ...`. */
  predicate NotIncome(t: Transaction) { t.kind != Income }

  function InCategory(c: string): Transaction -> bool {
    (t: Transaction) => t.category == c
  }

  /** `ts.reduce((sum, t) => sum + t.amount, 0)`. */
  function Sum(ts: seq<Transaction>): (r: real)
    ensures r >= 0.0
    ensures ts != [] <==> r > 0.0
  {
    if ts == [] then 0.0 else ts[0].amount + Sum(ts[1..])
  }

  /** `ts.filter(p)`. */
  function Filter(ts: seq<Transaction>, p: Transaction -> bool): (r: seq<Transaction>)
    ensures |r| <= |ts|
    ensures forall t :: t in r <==> t in ts && p(t)
  {
    if ts == [] then []
    else if p(ts[0]) then [ts[0]] + Filter(ts[1..], p)
    else Filter(ts[1..], p)
  }

  function Expenses(ts: seq<Transaction>): seq<Transaction> {
    Filter(ts, IsExpense)
  }

  /** The total of one category: what `totals[t.category] = (totals[t.category] || 0) + t.amount` reaches. */
  function CategorySum(ts: seq<Transaction>, c: string): real {
    Sum(Filter(ts, InCategory(c)))
  }

  /** `c` is the category of some transaction of `ts`. */
  predicate HasCategory(ts: seq<Transaction>, c: string) {
    exists i :: 0 <= i < |ts| && ts[i].category == c
  }

  lemma HasCategorySnoc(ts: seq<Transaction>, t: Transaction, c: string)
    ensures HasCategory(ts + [t], c) <==> HasCategory(ts, c) || c == t.category
  {
    var r := ts + [t];
    if HasCategory(r, c) && c != t.category {
      var i :| 0 <= i < |r| && r[i].category == c;
      assert ts[i].category == c;
    }
    if HasCategory(ts, c) {
      var i :| 0 <= i < |ts| && ts[i].category == c;
      assert r[i].category == c;
    }
    if c == t.category {
      assert r[|ts|].category == c;
    }
  }

  lemma {:induction false} FilterAppend(a: seq<Transaction>, b: seq<Transaction>, p: Transaction -> bool)
    ensures Filter(a + b, p) == Filter(a, p) + Filter(b, p)
  {
    if a != [] {
      assert (a + b)[1..] == a[1..] + b;
      FilterAppend(a[1..], b, p);
    } else {
      assert a + b == b;
    }
  }

  lemma {:induction false} SumAppend(a: seq<Transaction>, b: seq<Transaction>)
    ensures Sum(a + b) == Sum(a) + Sum(b)
  {
    if a != [] {
      assert (a + b)[1..] == a[1..] + b;
      SumAppend(a[1..], b);
    } else {
      assert a + b == b;
    }
  }

  /** Adding one transaction at the end of a filtered sum. */
  lemma FilterSumSnoc(ts: seq<Transaction>, t: Transaction, p: Transaction -> bool)
    ensures Sum(Filter(ts + [t], p)) == Sum(Filter(ts, p)) + (if p(t) then t.amount else 0.0)
  {
    FilterAppend(ts, [t], p);
    SumAppend(Filter(ts, p), Filter([t], p));
  }

  /** Filters by predicates that agree on every transaction are equal. */
  lemma {:induction false} FilterSame(ts: seq<Transaction>, p: Transaction -> bool, q: Transaction -> bool)
    requires forall t :: p(t) == q(t)
    ensures Filter(ts, p) == Filter(ts, q)
  {
    if ts != [] {
      FilterSame(ts[1..], p, q);
    }
  }

  /** A predicate and its negation split a sum in two. */
  lemma {:induction false} SumComplement(ts: seq<Transaction>, p: Transaction -> bool, q: Transaction -> bool)
    requires forall t :: q(t) == !p(t)
    ensures Sum(Filter(ts, p)) + Sum(Filter(ts, q)) == Sum(ts)
  {
    if ts != [] {
      SumComplement(ts[1..], p, q);
    }
  }

  /** A stronger filter keeps a smaller sum. */
  lemma {:induction false} SumFilterMono(ts: seq<Transaction>, p: Transaction -> bool, q: Transaction -> bool)
    requires forall t :: p(t) ==> q(t)
    ensures Sum(Filter(ts, p)) <= Sum(Filter(ts, q))
  {
    if ts != [] {
      SumFilterMono(ts[1..], p, q);
    }
  }

  /** Filtering never adds occurrences. */
  lemma {:induction false} FilterMultiset(ts: seq<Transaction>, p: Transaction -> bool)
    ensures multiset(Filter(ts, p)) <= multiset(ts)
  {
    if ts != [] {
      FilterMultiset(ts[1..], p);
      assert ts == [ts[0]] + ts[1..];
    }
  }

  /** Filtering twice is filtering by the conjunction. */
  lemma {:induction false} FilterFilter(ts: seq<Transaction>, p: Transaction -> bool, q: Transaction -> bool, pq: Transaction -> bool)
    requires forall t :: pq(t) == (p(t) && q(t))
    ensures Filter(Filter(ts, p), q) == Filter(ts, pq)
  {
    if ts != [] {
      FilterFilter(ts[1..], p, q, pq);
    }
  }
}
