/** `findSavingsOpportunities`: a 20% cut for every expense category over
    200, a review of every expense filed under exactly `entertainment` over
    50, and the sum of both lists. */
module Savings {
  import opened Ledger
  import opened Tallies

  /** The entries of a dictionary whose amount exceeds `limit`, in order:
      `Object.entries(m).forEach(([k, v]) => { if (v > limit) ... })`. */
  function Above(tal: seq<Tally<string>>, limit: real): (r: seq<Tally<string>>)
    ensures |r| <= |tal|
    ensures forall x :: x in r <==> x in tal && x.amount > limit
  {
    if tal == [] then []
    else if tal[0].amount > limit then [tal[0]] + Above(tal[1..], limit)
    else Above(tal[1..], limit)
  }

  lemma {:induction false} AboveDistinct(tal: seq<Tally<string>>, limit: real)
    requires DistinctKeys(tal)
    ensures DistinctKeys(Above(tal, limit))
  {
    if tal != [] {
      AboveDistinct(tal[1..], limit);
      var rest := Above(tal[1..], limit);
      forall i | 0 <= i < |rest| ensures rest[i].key != tal[0].key {
        assert rest[i] in tal[1..];
      }
    }
  }

  /** Over the per-category totals of the expenses, `Above` keeps exactly
      one entry for each category whose total exceeds the limit, holding
      that total. */
  lemma AboveCategories(ex: seq<Transaction>, limit: real)
    ensures DistinctKeys(Above(CategoryTotals(ex), limit))
    ensures forall c :: HasKey(Above(CategoryTotals(ex), limit), c) <==> HasCategory(ex, c) && CategorySum(ex, c) > limit
    ensures forall i :: 0 <= i < |Above(CategoryTotals(ex), limit)| ==>
              Above(CategoryTotals(ex), limit)[i].amount == CategorySum(ex, Above(CategoryTotals(ex), limit)[i].key)
  {
    var a := Above(CategoryTotals(ex), limit);
    CategoryTotalsSpec(ex);
    AboveDistinct(CategoryTotals(ex), limit);
    forall i | 0 <= i < |a| ensures a[i].amount == CategorySum(ex, a[i].key) {
      AboveEntry(ex, limit, i);
    }
    forall c ensures HasKey(a, c) <==> HasCategory(ex, c) && CategorySum(ex, c) > limit {
      AboveHasKey(ex, limit, c);
    }
  }

  lemma AboveEntry(ex: seq<Transaction>, limit: real, i: nat)
    requires i < |Above(CategoryTotals(ex), limit)|
    ensures Above(CategoryTotals(ex), limit)[i].amount == CategorySum(ex, Above(CategoryTotals(ex), limit)[i].key)
  {
    var tal := CategoryTotals(ex);
    var a := Above(tal, limit);
    assert a[i] in tal;
    var j :| 0 <= j < |tal| && tal[j] == a[i];
    CategoryTotalsEntry(ex, j);
  }

  lemma AboveHasKey(ex: seq<Transaction>, limit: real, c: string)
    ensures HasKey(Above(CategoryTotals(ex), limit), c) <==> HasCategory(ex, c) && CategorySum(ex, c) > limit
  {
    var tal := CategoryTotals(ex);
    var a := Above(tal, limit);
    if HasKey(a, c) {
      var i :| 0 <= i < |a| && a[i].key == c;
      assert a[i] in tal;
      var j :| 0 <= j < |tal| && tal[j] == a[i];
      CategoryTotalsKey(ex, j);
      CategoryTotalsEntry(ex, j);
    }
    if HasCategory(ex, c) && CategorySum(ex, c) > limit {
      CategoryTotalsHasKey(ex, c);
      var j :| 0 <= j < |tal| && tal[j].key == c;
      CategoryTotalsEntry(ex, j);
      assert tal[j] in a;
      var i :| 0 <= i < |a| && a[i] == tal[j];
    }
  }

  datatype CategoryReduction = CategoryReduction(category: string, currentSpending: real, potentialSavings: real)

  /** One subscription to review; the source copies the expense and adds its
      amount as the potential saving. */
  datatype AuditEntry = AuditEntry(subscription: Transaction, potentialSavings: real)

  /** The savings part of the report; `budgetOptimization` is always left
      empty by the source and is not modelled. */
  datatype SavingsOpportunities = SavingsOpportunities(
    categoryReductions: seq<CategoryReduction>,
    subscriptionAudit: seq<AuditEntry>,
    totalPotentialSavings: real)

  /** The subscription filter compares the category as it is, without lower-casing. */
  predicate IsSubscription(t: Transaction) {
    t.category == "entertainment" && t.amount > 50.0
  }

  function Reductions(tal: seq<Tally<string>>): (r: seq<CategoryReduction>)
    ensures |r| == |tal|
    ensures forall i :: 0 <= i < |r| ==> r[i] == CategoryReduction(tal[i].key, tal[i].amount, tal[i].amount * 0.2)
  {
    if tal == [] then [] else [CategoryReduction(tal[0].key, tal[0].amount, tal[0].amount * 0.2)] + Reductions(tal[1..])
  }

  function Audit(subs: seq<Transaction>): (r: seq<AuditEntry>)
    ensures |r| == |subs|
    ensures forall i :: 0 <= i < |r| ==> r[i] == AuditEntry(subs[i], subs[i].amount)
  {
    if subs == [] then [] else [AuditEntry(subs[0], subs[0].amount)] + Audit(subs[1..])
  }

  function ReductionSavings(rs: seq<CategoryReduction>): real {
    if rs == [] then 0.0 else rs[0].potentialSavings + ReductionSavings(rs[1..])
  }

  function AuditSavings(es: seq<AuditEntry>): real {
    if es == [] then 0.0 else es[0].potentialSavings + AuditSavings(es[1..])
  }

  lemma {:induction false} ReductionSavingsFifth(tal: seq<Tally<string>>)
    ensures ReductionSavings(Reductions(tal)) == SumTallies(tal) * 0.2
  {
    if tal != [] {
      ReductionSavingsFifth(tal[1..]);
      assert Reductions(tal)[1..] == Reductions(tal[1..]);
    }
  }

  lemma {:induction false} AuditSavingsSum(subs: seq<Transaction>)
    ensures AuditSavings(Audit(subs)) == Sum(subs)
  {
    if subs != [] {
      AuditSavingsSum(subs[1..]);
      assert Audit(subs)[1..] == Audit(subs[1..]);
    }
  }

  /** `findSavingsOpportunities` over `ts`: the total counts an expense
      twice when it is both a reviewed subscription and part of a category
      over 200. */
  function FindSavingsOpportunities(ts: seq<Transaction>): (s: SavingsOpportunities)
    ensures s.totalPotentialSavings == ReductionSavings(s.categoryReductions) + AuditSavings(s.subscriptionAudit)
    ensures s.totalPotentialSavings ==
              SumTallies(Above(CategoryTotals(Expenses(ts)), 200.0)) * 0.2 + Sum(Filter(Expenses(ts), IsSubscription))
  {
    var ex := Expenses(ts);
    var large := Above(CategoryTotals(ex), 200.0);
    var subs := Filter(ex, IsSubscription);
    var reductions := Reductions(large);
    var audit := Audit(subs);
    ReductionSavingsFifth(large);
    AuditSavingsSum(subs);
    SavingsOpportunities(reductions, audit, ReductionSavings(reductions) + AuditSavings(audit))
  }

  /** One reduction per expense category over 200 and none for any other,
      each holding the category's total and a fifth of it. */
  lemma CategoryReductionsSpec(ts: seq<Transaction>)
    ensures var rs := FindSavingsOpportunities(ts).categoryReductions;
      && (forall c :: (exists i :: 0 <= i < |rs| && rs[i].category == c)
            <==> HasCategory(Expenses(ts), c) && CategorySum(Expenses(ts), c) > 200.0)
      && (forall i, j :: 0 <= i < j < |rs| ==> rs[i].category != rs[j].category)
      && (forall i :: 0 <= i < |rs| ==>
            rs[i].currentSpending == CategorySum(Expenses(ts), rs[i].category)
            && rs[i].potentialSavings == rs[i].currentSpending * 0.2)
  {
    var ex := Expenses(ts);
    var large := Above(CategoryTotals(ex), 200.0);
    var rs := Reductions(large);
    assert FindSavingsOpportunities(ts).categoryReductions == rs;
    forall c ensures (exists i :: 0 <= i < |rs| && rs[i].category == c) <==> HasCategory(ex, c) && CategorySum(ex, c) > 200.0 {
      ReductionNamesKey(large, c);
      AboveHasKey(ex, 200.0, c);
    }
    forall i | 0 <= i < |rs| ensures rs[i].currentSpending == CategorySum(ex, rs[i].category) {
      AboveEntry(ex, 200.0, i);
    }
    assert DistinctKeys(large) by {
      AboveCategories(ex, 200.0);
    }
    ReductionsDistinct(large);
  }

  /** The reductions name exactly the keys of the dictionary. */
  lemma ReductionNamesKey(large: seq<Tally<string>>, c: string)
    ensures (exists i :: 0 <= i < |Reductions(large)| && Reductions(large)[i].category == c) <==> HasKey(large, c)
  {
    var rs := Reductions(large);
    if HasKey(large, c) {
      var i :| 0 <= i < |large| && large[i].key == c;
      assert 0 <= i < |rs| && rs[i].category == c;
      assert exists j :: 0 <= j < |Reductions(large)| && Reductions(large)[j].category == c;
    } else {
      forall i | 0 <= i < |rs| ensures rs[i].category != c {
        assert rs[i].category == large[i].key;
      }
    }
  }

  /** Distinct keys give distinct reductions. */
  lemma ReductionsDistinct(large: seq<Tally<string>>)
    requires DistinctKeys(large)
    ensures forall i, j :: 0 <= i < j < |Reductions(large)| ==> Reductions(large)[i].category != Reductions(large)[j].category
  {
  }

  /** One review per expense whose category is exactly `entertainment` and
      whose amount is over 50, in list order and one for each such row
      (two equal rows are two reviews), saving that amount. */
  lemma SubscriptionAuditSpec(ts: seq<Transaction>)
    ensures var es := FindSavingsOpportunities(ts).subscriptionAudit;
      && |es| == |Filter(Expenses(ts), IsSubscription)|
      && (forall i :: 0 <= i < |es| ==> es[i].subscription == Filter(Expenses(ts), IsSubscription)[i])
      && (forall t :: (exists i :: 0 <= i < |es| && es[i].subscription == t)
            <==> t in ts && IsExpense(t) && t.category == "entertainment" && t.amount > 50.0)
      && (forall i :: 0 <= i < |es| ==> es[i].potentialSavings == es[i].subscription.amount)
  {
    var ex := Expenses(ts);
    var subs := Filter(ex, IsSubscription);
    var es := FindSavingsOpportunities(ts).subscriptionAudit;
    assert es == Audit(subs);
    forall t ensures (exists i :: 0 <= i < |es| && es[i].subscription == t)
                     <==> t in ts && IsExpense(t) && t.category == "entertainment" && t.amount > 50.0 {
      assert t in subs <==> t in ex && IsSubscription(t);
      assert t in ex <==> t in ts && IsExpense(t);
      if t in subs {
        var i :| 0 <= i < |subs| && subs[i] == t;
        assert es[i].subscription == t;
      }
    }
  }
}
