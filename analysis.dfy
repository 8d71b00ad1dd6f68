/** `analyzeCategories` and the report `performComprehensiveAnalysis`
    assembles from every analyzer, with the facts that tie its parts
    together. */
module Analysis {
  import opened Text
  import opened Ledger
  import opened Tallies
  import opened Patterns
  import opened Waste
  import opened Savings
  import opened Trends
  import opened Advice

  /** The categories part of the report: the totals per category of the
      expenses and of the income, and the five largest of each. */
  datatype CategoryAnalysis = CategoryAnalysis(
    expenseCategories: seq<Tally<string>>,
    incomeCategories: seq<Tally<string>>,
    topExpenseCategories: seq<Tally<string>>,
    topIncomeCategories: seq<Tally<string>>)

  /** `analyzeCategories` over `ts`: the per-category totals of the
      expenses and of the income, each with its five largest categories. */
  function AnalyzeCategories(ts: seq<Transaction>): (c: CategoryAnalysis)
    ensures c.expenseCategories == CategoryTotals(Expenses(ts))
    ensures c.incomeCategories == CategoryTotals(Filter(ts, IsIncome))
    ensures IsTopFive(Expenses(ts), c.topExpenseCategories)
    ensures IsTopFive(Filter(ts, IsIncome), c.topIncomeCategories)
  {
    var expense := CategoryTotals(Expenses(ts));
    var income := CategoryTotals(Filter(ts, IsIncome));
    TopCategories(Expenses(ts));
    TopCategories(Filter(ts, IsIncome));
    CategoryAnalysis(expense, income, TopN(expense, 5), TopN(income, 5))
  }

  /** `top` holds the five largest categories of `ts` (all of them when
      there are fewer), in descending order of their totals: each is a
      category of `ts` holding its total, and no category left out has a
      larger total than one kept. */
  ghost predicate IsTopFive(ts: seq<Transaction>, top: seq<Tally<string>>) {
    && |top| == (if |CategoryTotals(ts)| < 5 then |CategoryTotals(ts)| else 5)
    && Descending(top)
    && (forall i :: 0 <= i < |top| ==> HasCategory(ts, top[i].key) && top[i].amount == CategorySum(ts, top[i].key))
    && (forall c :: HasCategory(ts, c) && !HasKey(top, c) ==>
          forall i :: 0 <= i < |top| ==> CategorySum(ts, c) <= top[i].amount)
  }

  /** The top-five slice of the category totals is the top five. */
  lemma TopCategories(ts: seq<Transaction>)
    ensures IsTopFive(ts, TopN(CategoryTotals(ts), 5))
  {
    TopNSpec(CategoryTotals(ts), 5);
    TopEntries(ts);
    TopKeepsLargest(ts);
  }

  lemma TopEntries(ts: seq<Transaction>)
    ensures var top := TopN(CategoryTotals(ts), 5);
      forall i :: 0 <= i < |top| ==> HasCategory(ts, top[i].key) && top[i].amount == CategorySum(ts, top[i].key)
  {
    var tal := CategoryTotals(ts);
    var top := TopN(tal, 5);
    TopNSpec(tal, 5);
    forall i | 0 <= i < |top|
      ensures HasCategory(ts, top[i].key) && top[i].amount == CategorySum(ts, top[i].key)
    {
      assert top[i] in multiset(tal);
      var j :| 0 <= j < |tal| && tal[j] == top[i];
      CategoryTotalsKey(ts, j);
      CategoryTotalsEntry(ts, j);
    }
  }

  lemma TopKeepsLargest(ts: seq<Transaction>)
    ensures var top := TopN(CategoryTotals(ts), 5);
      forall c :: HasCategory(ts, c) && !HasKey(top, c) ==>
        forall i :: 0 <= i < |top| ==> CategorySum(ts, c) <= top[i].amount
  {
    forall c | HasCategory(ts, c) && !HasKey(TopN(CategoryTotals(ts), 5), c)
      ensures forall i :: 0 <= i < |TopN(CategoryTotals(ts), 5)| ==> CategorySum(ts, c) <= TopN(CategoryTotals(ts), 5)[i].amount
    {
      TopKeepsLarger(ts, c);
    }
  }

  lemma TopKeepsLarger(ts: seq<Transaction>, c: string)
    requires HasCategory(ts, c) && !HasKey(TopN(CategoryTotals(ts), 5), c)
    ensures forall i :: 0 <= i < |TopN(CategoryTotals(ts), 5)| ==> CategorySum(ts, c) <= TopN(CategoryTotals(ts), 5)[i].amount
  {
    var tal := CategoryTotals(ts);
    CategoryTotalsHasKey(ts, c);
    var j :| 0 <= j < |tal| && tal[j].key == c;
    assert tal[j] !in TopN(tal, 5);
    TopNLeavesSmaller(tal, 5, tal[j]);
    CategoryTotalsEntry(ts, j);
  }

  /** The report of one analysis run. */
  datatype Report = Report(
    spendingPatterns: SpendingPatterns,
    wasteAnalysis: WasteAnalysis,
    savingsOpportunities: SavingsOpportunities,
    trends: TrendsAnalysis,
    categories: CategoryAnalysis,
    recommendations: seq<Recommendation>,
    alerts: seq<Alert>)

  /** The analyzers run in the source's order over `ts`; the recommendations
      and alerts read the parts computed before them. */
  function Analyze(ts: seq<Transaction>, clock: Clock): Report {
    var patterns := AnalyzeSpendingPatterns(ts, clock);
    var waste := AnalyzeWastefulSpending(ts);
    var savings := FindSavingsOpportunities(ts);
    var trends := AnalyzeTrends(ts);
    var categories := AnalyzeCategories(ts);
    Report(patterns, waste, savings, trends, categories,
           GenerateRecommendations(patterns, waste, savings),
           GenerateSpendingAlerts(patterns, waste, ts))
  }

  /** The thresholds nest: a waste alert (over 20 per cent) comes with the
      waste recommendation (over 15), and a daily alert (over 100 a day) comes
      with the daily recommendation (over 50) and needs more than 3000 of
      expenses, since the average divides by at least 30 days. */
  lemma AlertsImplyRecommendations(ts: seq<Transaction>, clock: Clock)
    ensures var r := Analyze(ts, clock);
      && (Alert(WastefulSpending, High) in r.alerts ==>
            ItemOf(ReduceWaste, r.spendingPatterns, r.wasteAnalysis, r.savingsOpportunities) in r.recommendations)
      && (Alert(DailySpending, High) in r.alerts ==>
            && ItemOf(ReduceDaily, r.spendingPatterns, r.wasteAnalysis, r.savingsOpportunities) in r.recommendations
            && Sum(Expenses(ts)) > 3000.0)
  {
    var p := AnalyzeSpendingPatterns(ts, clock);
    var w := AnalyzeWastefulSpending(ts);
    var r := Analyze(ts, clock);
    assert r.alerts == GenerateSpendingAlerts(p, w, ts);
    assert r.recommendations == GenerateRecommendations(p, w, FindSavingsOpportunities(ts));
    if Alert(DailySpending, High) in r.alerts {
      assert p.averageDaily > 100.0;
      assert 30.0 * p.averageDaily <= p.totalSpent == Sum(Expenses(ts));
    }
  }

  /** With no expenses there is nothing to flag: no alerts, and automated
      savings as the only recommendation. */
  lemma NoExpensesNoAdvice(ts: seq<Transaction>, clock: Clock)
    requires Expenses(ts) == []
    ensures Analyze(ts, clock).alerts == []
    ensures Analyze(ts, clock).recommendations == [Recommendation(AutomateSavings, Low, 200.0)]
  {
    var p := AnalyzeSpendingPatterns(ts, clock);
    var w := AnalyzeWastefulSpending(ts);
    var s := FindSavingsOpportunities(ts);
    QuietParts(ts, clock);
    assert Analyze(ts, clock).alerts == GenerateSpendingAlerts(p, w, ts);
    assert Analyze(ts, clock).recommendations == GenerateRecommendations(p, w, s);
    OnlyAutomation(p, w, s);
    assert |GenerateSpendingAlerts(p, w, ts)| == 0;
  }

  lemma QuietParts(ts: seq<Transaction>, clock: Clock)
    requires Expenses(ts) == []
    ensures AnalyzeSpendingPatterns(ts, clock).averageDaily == 0.0
    ensures AnalyzeWastefulSpending(ts).wastePercentage == 0.0
    ensures FindSavingsOpportunities(ts).totalPotentialSavings == 0.0
    ensures Above(CategoryTotals(Expenses(ts)), 500.0) == []
  {
    assert CategoryTotals(Expenses(ts)) == [];
    assert Filter(Expenses(ts), IsSubscription) == [];
  }

  /** A date for the examples below. */
  const SampleDay: IsoDate := "2024-03-05"

  /** The waste rules lower-case the category but the subscription audit
      does not: a 60 expense filed under `Entertainment` is flagged as
      subscription waste and yet never audited. */
  lemma CaseSensitiveAudit()
    ensures var t := Transaction(Expense, 60.0, "Entertainment", "cinema", SampleDay);
      && t in AnalyzeWastefulSpending([t]).subscriptionWaste
      && FindSavingsOpportunities([t]).subscriptionAudit == []
  {
    var t := Transaction(Expense, 60.0, "Entertainment", "cinema", SampleDay);
    assert ToLower(t.category) == "entertainment";
    assert !IsSubscription(t);
    SubscriptionAuditSpec([t]);
  }

  /** The savings total does not deduplicate: one 250 entertainment expense
      is counted once as a category over 200 (a fifth, 50) and once as an
      audited subscription (250). */
  lemma SavingsDoubleCount()
    ensures var t := Transaction(Expense, 250.0, "entertainment", "concert", SampleDay);
      FindSavingsOpportunities([t]).totalPotentialSavings == 300.0
  {
    var t := Transaction(Expense, 250.0, "entertainment", "concert", SampleDay);
    assert Expenses([t]) == [t];
    assert CategoryTotals([t]) == [Tally("entertainment", 250.0)];
    assert Above([Tally("entertainment", 250.0)], 200.0) == [Tally("entertainment", 250.0)];
    assert Filter([t], IsSubscription) == [t];
  }
}
