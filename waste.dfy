/** `analyzeWastefulSpending`: each expense is checked against three rules
    in a fixed order, on its lower-cased category, and lands in the list of
    the first rule it meets, or in none. */
module Waste {
  import opened Basics
  import opened Text
  import opened Ledger

  datatype WasteReason = HighEntertainment | ImpulsePurchase | HighFood

  /** The decision list: entertainment over 50, else shopping under 100,
      else food over 30, else not flagged. */
  function Classify(t: Transaction): (r: Option<WasteReason>)
    ensures r == Some(HighEntertainment) <==> ToLower(t.category) == "entertainment" && t.amount > 50.0
    ensures r == Some(ImpulsePurchase) <==> ToLower(t.category) == "shopping" && t.amount < 100.0
    ensures r == Some(HighFood) <==> ToLower(t.category) == "food" && t.amount > 30.0
  {
    var category := ToLower(t.category);
    if category == "entertainment" && t.amount > 50.0 then Some(HighEntertainment)
    else if category == "shopping" && t.amount < 100.0 then Some(ImpulsePurchase)
    else if category == "food" && t.amount > 30.0 then Some(HighFood)
    else None
  }

  /** The three rules on their own, each on the lower-cased category. */
  predicate EntertainmentOver50(t: Transaction) {
    ToLower(t.category) == "entertainment" && t.amount > 50.0
  }

  predicate ShoppingUnder100(t: Transaction) {
    ToLower(t.category) == "shopping" && t.amount < 100.0
  }

  predicate FoodOver30(t: Transaction) {
    ToLower(t.category) == "food" && t.amount > 30.0
  }

  function FlaggedAs(reason: WasteReason): Transaction -> bool {
    (t: Transaction) => Classify(t) == Some(reason)
  }

  /** The waste part of the report; each listed item is the expense itself
      (the source adds a fixed `reason` text per list). */
  datatype WasteAnalysis = WasteAnalysis(
    unnecessaryExpenses: seq<Transaction>,
    impulsePurchases: seq<Transaction>,
    subscriptionWaste: seq<Transaction>,
    totalWaste: real,
    wastePercentage: real)

  /** `analyzeWastefulSpending` over `ts`. */
  function AnalyzeWastefulSpending(ts: seq<Transaction>): (w: WasteAnalysis)
    ensures forall t :: t in w.subscriptionWaste <==>
              t in ts && IsExpense(t) && ToLower(t.category) == "entertainment" && t.amount > 50.0
    ensures forall t :: t in w.impulsePurchases <==>
              t in ts && IsExpense(t) && ToLower(t.category) == "shopping" && t.amount < 100.0
    ensures forall t :: t in w.unnecessaryExpenses <==>
              t in ts && IsExpense(t) && ToLower(t.category) == "food" && t.amount > 30.0
    ensures w.subscriptionWaste == Filter(Expenses(ts), EntertainmentOver50)
    ensures w.impulsePurchases == Filter(Expenses(ts), ShoppingUnder100)
    ensures w.unnecessaryExpenses == Filter(Expenses(ts), FoodOver30)
    ensures w.totalWaste == Sum(w.unnecessaryExpenses) + Sum(w.impulsePurchases) + Sum(w.subscriptionWaste)
    ensures 0.0 <= w.totalWaste <= Sum(Expenses(ts))
    ensures 0.0 <= w.wastePercentage <= 100.0
    ensures Expenses(ts) == [] ==> w.wastePercentage == 0.0
    ensures Expenses(ts) != [] ==> w.wastePercentage == w.totalWaste / Sum(Expenses(ts)) * 100.0
  {
    var ex := Expenses(ts);
    var total := Sum(ex);
    var unnecessary := Filter(ex, FlaggedAs(HighFood));
    var impulse := Filter(ex, FlaggedAs(ImpulsePurchase));
    var subscription := Filter(ex, FlaggedAs(HighEntertainment));
    var waste := Sum(unnecessary) + Sum(impulse) + Sum(subscription);
    FilterSame(ex, FlaggedAs(HighFood), FoodOver30);
    FilterSame(ex, FlaggedAs(ImpulsePurchase), ShoppingUnder100);
    FilterSame(ex, FlaggedAs(HighEntertainment), EntertainmentOver50);
    DisjointFilters(ex, FlaggedAs(HighFood), FlaggedAs(ImpulsePurchase), FlaggedAs(HighEntertainment));
    if total > 0.0 then
      PercentBound(waste, total);
      WasteAnalysis(unnecessary, impulse, subscription, waste, waste / total * 100.0)
    else
      WasteAnalysis(unnecessary, impulse, subscription, waste, 0.0)
  }

  /** Three mutually exclusive filters take disjoint parts of the list, so
      their occurrences and their sums add up to no more than the whole. */
  lemma DisjointFilters(ts: seq<Transaction>, p: Transaction -> bool, q: Transaction -> bool, r: Transaction -> bool)
    requires forall t :: !(p(t) && q(t)) && !(p(t) && r(t)) && !(q(t) && r(t))
    ensures multiset(Filter(ts, p)) + multiset(Filter(ts, q)) + multiset(Filter(ts, r)) <= multiset(ts)
    ensures Sum(Filter(ts, p)) + Sum(Filter(ts, q)) + Sum(Filter(ts, r)) <= Sum(ts)
  {
    DisjointFiltersMultiset(ts, p, q, r);
    DisjointFiltersSum(ts, p, q, r);
  }

  lemma {:induction false} DisjointFiltersMultiset(ts: seq<Transaction>, p: Transaction -> bool, q: Transaction -> bool, r: Transaction -> bool)
    requires forall t :: !(p(t) && q(t)) && !(p(t) && r(t)) && !(q(t) && r(t))
    ensures multiset(Filter(ts, p)) + multiset(Filter(ts, q)) + multiset(Filter(ts, r)) <= multiset(ts)
  {
    if ts != [] {
      var t, rest := ts[0], ts[1..];
      DisjointFiltersMultiset(rest, p, q, r);
      assert ts == [t] + rest;
      assert multiset(ts) == multiset{t} + multiset(rest);
      if p(t) {
        assert multiset(Filter(ts, p)) == multiset{t} + multiset(Filter(rest, p));
      } else if q(t) {
        assert multiset(Filter(ts, q)) == multiset{t} + multiset(Filter(rest, q));
      } else if r(t) {
        assert multiset(Filter(ts, r)) == multiset{t} + multiset(Filter(rest, r));
      }
    }
  }

  lemma {:induction false} DisjointFiltersSum(ts: seq<Transaction>, p: Transaction -> bool, q: Transaction -> bool, r: Transaction -> bool)
    requires forall t :: !(p(t) && q(t)) && !(p(t) && r(t)) && !(q(t) && r(t))
    ensures Sum(Filter(ts, p)) + Sum(Filter(ts, q)) + Sum(Filter(ts, r)) <= Sum(ts)
  {
    if ts != [] {
      DisjointFiltersSum(ts[1..], p, q, r);
    }
  }

  /** A part of a positive whole is between 0 and 100 per cent of it. */
  lemma PercentBound(part: real, whole: real)
    requires 0.0 <= part <= whole && whole > 0.0
    ensures 0.0 <= part / whole * 100.0 <= 100.0
  {
    assert part / whole <= 1.0 by {
      assert part / whole * whole == part;
    }
  }

  /** Each expense occurrence is in at most one of the three lists, and
      income is in none. */
  lemma WastePartition(ts: seq<Transaction>)
    ensures var w := AnalyzeWastefulSpending(ts);
      multiset(w.unnecessaryExpenses) + multiset(w.impulsePurchases) + multiset(w.subscriptionWaste)
        <= multiset(Expenses(ts))
  {
    DisjointFilters(Expenses(ts), FlaggedAs(HighFood), FlaggedAs(ImpulsePurchase), FlaggedAs(HighEntertainment));
  }
}
