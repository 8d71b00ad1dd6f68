/** `generateAIRecommendations` and `generateSpendingAlerts`: fixed-order
    lists of items, each item guarded by its own threshold on the figures
    the analyzers produced.  Titles, descriptions and actions are fixed or
    formatted text and are represented by the item's kind. */
module Advice {
  import opened Ledger
  import opened Tallies
  import opened Patterns
  import opened Waste
  import opened Savings

  /** `impact` of a recommendation, `severity` of an alert. */
  datatype Level = High | Medium | Low

  datatype RecommendationKind = ReduceWaste | OptimizeCategories | ReduceDaily | AutomateSavings

  /** The position of each kind in the list. */
  function KindRank(k: RecommendationKind): nat {
    match k
    case ReduceWaste => 0
    case OptimizeCategories => 1
    case ReduceDaily => 2
    case AutomateSavings => 3
  }

  datatype Recommendation = Recommendation(kind: RecommendationKind, impact: Level, potentialSavings: real)

  /** The item of each kind, with its impact and estimated saving. */
  function ItemOf(k: RecommendationKind, p: SpendingPatterns, w: WasteAnalysis, s: SavingsOpportunities): Recommendation {
    match k
    case ReduceWaste => Recommendation(ReduceWaste, High, w.totalWaste * 0.5)
    case OptimizeCategories => Recommendation(OptimizeCategories, High, s.totalPotentialSavings)
    case ReduceDaily => Recommendation(ReduceDaily, Medium, p.averageDaily * 0.2 * 30.0)
    case AutomateSavings => Recommendation(AutomateSavings, Low, 200.0)
  }

  /** `generateAIRecommendations(analysis)`; the guards on a missing
      analysis or part never fire here, since the report always has every
      part. */
  function GenerateRecommendations(p: SpendingPatterns, w: WasteAnalysis, s: SavingsOpportunities): (r: seq<Recommendation>)
    ensures 1 <= |r| <= 4
    ensures r[|r| - 1] == Recommendation(AutomateSavings, Low, 200.0)
    ensures forall i, j :: 0 <= i < j < |r| ==> KindRank(r[i].kind) < KindRank(r[j].kind)
    ensures forall x :: x in r ==> x == ItemOf(x.kind, p, w, s)
  {
    Guarded(w.wastePercentage > 15.0, ItemOf(ReduceWaste, p, w, s))
      + Guarded(s.totalPotentialSavings > 100.0, ItemOf(OptimizeCategories, p, w, s))
      + Guarded(p.averageDaily > 50.0, ItemOf(ReduceDaily, p, w, s))
      + [ItemOf(AutomateSavings, p, w, s)]
  }

  /** One conditional `push`: the item when its condition holds, else nothing. */
  function Guarded(c: bool, x: Recommendation): (r: seq<Recommendation>)
    ensures |r| <= 1 && (forall y :: y in r ==> y == x) && (x in r <==> c)
  {
    if c then [x] else []
  }

  /** The kinds keep their fixed order, and each conditional item is present
      exactly when its own condition holds. */
  lemma RecommendationsSpec(p: SpendingPatterns, w: WasteAnalysis, s: SavingsOpportunities)
    ensures var r := GenerateRecommendations(p, w, s);
      && (forall i, j :: 0 <= i < j < |r| ==> KindRank(r[i].kind) < KindRank(r[j].kind))
      && (ItemOf(ReduceWaste, p, w, s) in r <==> w.wastePercentage > 15.0)
      && (ItemOf(OptimizeCategories, p, w, s) in r <==> s.totalPotentialSavings > 100.0)
      && (ItemOf(ReduceDaily, p, w, s) in r <==> p.averageDaily > 50.0)
  {
  }

  /** With every guard false the automated-savings item is the whole list. */
  lemma OnlyAutomation(p: SpendingPatterns, w: WasteAnalysis, s: SavingsOpportunities)
    requires w.wastePercentage <= 15.0 && s.totalPotentialSavings <= 100.0 && p.averageDaily <= 50.0
    ensures GenerateRecommendations(p, w, s) == [Recommendation(AutomateSavings, Low, 200.0)]
  {
    assert GenerateRecommendations(p, w, s) == [ItemOf(AutomateSavings, p, w, s)];
  }

  datatype AlertTopic = DailySpending | WastefulSpending | CategorySpending(category: string, amount: real)

  datatype Alert = Alert(topic: AlertTopic, severity: Level)

  /** The position of each topic in the list: daily, then waste, then categories. */
  function TopicRank(t: AlertTopic): nat {
    match t
    case DailySpending => 0
    case WastefulSpending => 1
    case CategorySpending(_, _) => 2
  }

  function CategoryAlerts(large: seq<Tally<string>>): (r: seq<Alert>)
    ensures |r| == |large|
    ensures forall i :: 0 <= i < |r| ==> r[i] == Alert(CategorySpending(large[i].key, large[i].amount), Medium)
  {
    if large == [] then []
    else [Alert(CategorySpending(large[0].key, large[0].amount), Medium)] + CategoryAlerts(large[1..])
  }

  /** `generateSpendingAlerts(analysis)` with the expenses of `ts` (the list
      swapped in for the run). */
  function GenerateSpendingAlerts(p: SpendingPatterns, w: WasteAnalysis, ts: seq<Transaction>): (r: seq<Alert>)
    ensures |r| == (if p.averageDaily > 100.0 then 1 else 0) + (if w.wastePercentage > 20.0 then 1 else 0)
                   + |Above(CategoryTotals(Expenses(ts)), 500.0)|
    ensures forall i, j :: 0 <= i < j < |r| ==> TopicRank(r[i].topic) <= TopicRank(r[j].topic)
    ensures forall i :: 0 <= i < |r| ==> r[i].severity == if r[i].topic.CategorySpending? then Medium else High
    ensures Alert(DailySpending, High) in r <==> p.averageDaily > 100.0
    ensures Alert(WastefulSpending, High) in r <==> w.wastePercentage > 20.0
  {
    Assemble(p.averageDaily > 100.0, w.wastePercentage > 20.0, CategoryAlerts(Above(CategoryTotals(Expenses(ts)), 500.0)))
  }

  /** The daily alert when `daily`, the waste alert when `waste`, then the
      category alerts. */
  function Assemble(daily: bool, waste: bool, categories: seq<Alert>): (r: seq<Alert>)
    requires forall i :: 0 <= i < |categories| ==> categories[i].topic.CategorySpending? && categories[i].severity == Medium
    ensures |r| == (if daily then 1 else 0) + (if waste then 1 else 0) + |categories|
    ensures r[|r| - |categories|..] == categories
    ensures forall i, j :: 0 <= i < j < |r| ==> TopicRank(r[i].topic) <= TopicRank(r[j].topic)
    ensures forall i :: 0 <= i < |r| ==> r[i].severity == if r[i].topic.CategorySpending? then Medium else High
    ensures Alert(DailySpending, High) in r <==> daily
    ensures Alert(WastefulSpending, High) in r <==> waste
  {
    var first := if daily then [Alert(DailySpending, High)] else [];
    var second := if waste then [Alert(WastefulSpending, High)] else [];
    assert Alert(DailySpending, High) !in categories;
    assert Alert(WastefulSpending, High) !in categories;
    first + second + categories
  }

  /** One alert for each expense category whose total is over 500, naming
      that category and its total, and none for any other. */
  lemma CategoryAlertsSpec(p: SpendingPatterns, w: WasteAnalysis, ts: seq<Transaction>)
    ensures forall c, a :: Alert(CategorySpending(c, a), Medium) in GenerateSpendingAlerts(p, w, ts) <==>
              HasCategory(Expenses(ts), c) && a == CategorySum(Expenses(ts), c) && a > 500.0
  {
    var ex := Expenses(ts);
    var large := Above(CategoryTotals(ex), 500.0);
    var cats := CategoryAlerts(large);
    var daily := if p.averageDaily > 100.0 then [Alert(DailySpending, High)] else [];
    var waste := if w.wastePercentage > 20.0 then [Alert(WastefulSpending, High)] else [];
    assert GenerateSpendingAlerts(p, w, ts) == daily + waste + cats;
    forall c, a ensures Alert(CategorySpending(c, a), Medium) in daily + waste + cats <==>
                        HasCategory(ex, c) && a == CategorySum(ex, c) && a > 500.0 {
      CategoryAlertFor(ex, large, c, a);
    }
  }

  lemma CategoryAlertFor(ex: seq<Transaction>, large: seq<Tally<string>>, c: string, a: real)
    requires large == Above(CategoryTotals(ex), 500.0)
    ensures Alert(CategorySpending(c, a), Medium) in CategoryAlerts(large) <==>
            HasCategory(ex, c) && a == CategorySum(ex, c) && a > 500.0
  {
    var x := Alert(CategorySpending(c, a), Medium);
    var cats := CategoryAlerts(large);
    AboveHasKey(ex, 500.0, c);
    if x in cats {
      var k :| 0 <= k < |cats| && cats[k] == x;
      AboveEntry(ex, 500.0, k);
      assert large[k].key == c && large[k].amount == a;
    }
    if HasCategory(ex, c) && a == CategorySum(ex, c) && a > 500.0 {
      var k :| 0 <= k < |large| && large[k].key == c;
      AboveEntry(ex, 500.0, k);
      assert cats[k] == x;
    }
  }

  /** No two alerts name the same category. */
  lemma CategoryAlertsDistinct(p: SpendingPatterns, w: WasteAnalysis, ts: seq<Transaction>)
    ensures var r := GenerateSpendingAlerts(p, w, ts);
      forall i, j :: 0 <= i < j < |r| && r[i].topic.CategorySpending? && r[j].topic.CategorySpending? ==>
        r[i].topic.category != r[j].topic.category
  {
    var ex := Expenses(ts);
    var large := Above(CategoryTotals(ex), 500.0);
    var daily := if p.averageDaily > 100.0 then [Alert(DailySpending, High)] else [];
    var waste := if w.wastePercentage > 20.0 then [Alert(WastefulSpending, High)] else [];
    assert GenerateSpendingAlerts(p, w, ts) == (daily + waste) + CategoryAlerts(large);
    CategoryTotalsSpec(ex);
    AboveDistinct(CategoryTotals(ex), 500.0);
    DistinctAfter(daily + waste, large);
  }

  lemma DistinctAfter(pre: seq<Alert>, large: seq<Tally<string>>)
    requires forall k :: 0 <= k < |pre| ==> !pre[k].topic.CategorySpending?
    requires DistinctKeys(large)
    ensures var r := pre + CategoryAlerts(large);
      forall i, j :: 0 <= i < j < |r| && r[i].topic.CategorySpending? && r[j].topic.CategorySpending? ==>
        r[i].topic.category != r[j].topic.category
  {
    var cats := CategoryAlerts(large);
    var r := pre + cats;
    var n := |pre|;
    forall i, j | 0 <= i < j < |r| && r[i].topic.CategorySpending? && r[j].topic.CategorySpending?
      ensures r[i].topic.category != r[j].topic.category
    {
      if n <= i {
        assert r[i] == cats[i - n] && r[j] == cats[j - n];
      }
    }
  }
}
