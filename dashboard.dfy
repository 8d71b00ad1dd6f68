/** The dashboard's figures: the running balance, the display form of a
    category key, and the one-line insight about the top category of a
    month. */
module Dashboard {
  import opened Basics
  import opened Text
  import opened Ledger
  import opened Tallies

  /** `calculateTotalBalance`: the left fold adding income and subtracting
      every other row. */
  function Balance(ts: seq<Transaction>): real {
    if ts == [] then 0.0
    else
      var t := ts[|ts| - 1];
      var a: real := t.amount;
      Balance(ts[..|ts| - 1]) + (if t.kind == Income then a else -a)
  }

  /** The balance is the income total less the total of all other rows. */
  lemma {:induction false} BalanceSpec(ts: seq<Transaction>)
    ensures Balance(ts) == Sum(Filter(ts, IsIncome)) - Sum(Filter(ts, NotIncome))
  {
    if ts != [] {
      var init, t := ts[..|ts| - 1], ts[|ts| - 1];
      BalanceSpec(init);
      assert init + [t] == ts;
      FilterSumSnoc(init, t, IsIncome);
      FilterSumSnoc(init, t, NotIncome);
    }
  }

  /** `word.charAt(0).toUpperCase() + word.slice(1)`. */
  function Capitalize(w: string): (r: string)
    ensures |r| == |w|
    ensures w != [] ==> r[0] == UpperChar(w[0]) && r[1..] == w[1..]
  {
    if w == [] then [] else [UpperChar(w[0])] + w[1..]
  }

  function CapitalizeAll(ws: seq<string>): (r: seq<string>)
    ensures |r| == |ws|
    ensures forall i :: 0 <= i < |ws| ==> r[i] == Capitalize(ws[i])
  {
    seq(|ws|, i requires 0 <= i < |ws| => Capitalize(ws[i]))
  }

  /** `formatCategory`: `Uncategorized` for the empty key, otherwise the
      words between underscores, each with its first letter upper-cased,
      joined by spaces. */
  function FormatCategory(category: string): (r: string)
    ensures category == [] ==> r == "Uncategorized"
    ensures category != [] ==> r == Titled(category)
  {
    if category == [] then "Uncategorized"
    else
      TitledSplit(category);
      Join(CapitalizeAll(Split(category, '_')), ' ')
  }

  /** The same text produced one character at a time: an underscore becomes
      a space, a character that starts the text or follows an underscore is
      upper-cased, and every other character is kept. */
  function Titled(s: string): string {
    seq(|s|, i requires 0 <= i < |s| => TitleChar(s, i))
  }

  function TitleChar(s: string, i: nat): char
    requires i < |s|
  {
    if s[i] == '_' then ' ' else if i == 0 || s[i - 1] == '_' then UpperChar(s[i]) else s[i]
  }

  lemma TitledSnoc(init: string, c: char)
    ensures Titled(init + [c]) == Titled(init) + [TitleChar(init + [c], |init|)]
  {
    var s := init + [c];
    forall i | 0 <= i < |init| ensures TitleChar(s, i) == TitleChar(init, i) {
      assert s[i] == init[i];
      assert i > 0 ==> s[i - 1] == init[i - 1];
    }
  }

  /** Splitting at underscores, capitalizing and joining with spaces is the
      character-by-character rewrite. */
  lemma {:induction false} TitledSplit(s: string)
    ensures Join(CapitalizeAll(Split(s, '_')), ' ') == Titled(s)
  {
    if s != [] {
      var init, c := s[..|s| - 1], s[|s| - 1];
      TitledSplit(init);
      assert init + [c] == s;
      if c == '_' {
        TitledSplitSeparator(init);
      } else {
        TitledSplitLetter(init, c);
      }
    }
  }

  lemma CapitalizeAllSnoc(ws: seq<string>, x: string)
    ensures CapitalizeAll(ws + [x]) == CapitalizeAll(ws) + [Capitalize(x)]
  {
  }

  lemma TitledSplitSeparator(init: string)
    requires Join(CapitalizeAll(Split(init, '_')), ' ') == Titled(init)
    ensures Join(CapitalizeAll(Split(init + ['_'], '_')), ' ') == Titled(init + ['_'])
  {
    var s := init + ['_'];
    var w := Split(init, '_');
    assert s[..|s| - 1] == init;
    assert Split(s, '_') == w + [[]];
    CapitalizeAllSnoc(w, []);
    var cw := CapitalizeAll(w);
    assert (cw + [[]])[..|cw|] == cw;
    TitledSnoc(init, '_');
  }

  /** A letter extends the last piece of the split. */
  lemma SplitSnocLetter(init: string, c: char)
    requires c != '_'
    ensures var w := Split(init, '_');
      Split(init + [c], '_') == w[..|w| - 1] + [w[|w| - 1] + [c]]
  {
    var s := init + [c];
    assert s[..|s| - 1] == init;
  }

  lemma CapitalizeSnoc(w: string, c: char)
    ensures Capitalize(w + [c]) == Capitalize(w) + [if w == [] then UpperChar(c) else c]
  {
    if w != [] {
      assert (w + [c])[1..] == w[1..] + [c];
    }
  }

  lemma TitledSplitLetter(init: string, c: char)
    requires c != '_'
    requires Join(CapitalizeAll(Split(init, '_')), ' ') == Titled(init)
    ensures Join(CapitalizeAll(Split(init + [c], '_')), ' ') == Titled(init + [c])
  {
    var w := Split(init, '_');
    var front, last := w[..|w| - 1], w[|w| - 1];
    assert w == front + [last];
    var c' := if last == [] then UpperChar(c) else c;
    assert c' == TitleChar(init + [c], |init|);
    TitledSnoc(init, c);
    SplitSnocLetter(init, c);
    CapitalizeSnoc(last, c);
    CapitalizeAllSnoc(front, last);
    CapitalizeAllSnoc(front, last + [c]);
    var cw := CapitalizeAll(w);
    assert cw[..|cw| - 1] == CapitalizeAll(front);
    JoinExtendLast(cw, ' ', c');
  }

  /** The three messages of `generateExpenseInsights`. */
  datatype Tone = Diversify | Balanced | WellDistributed

  /** The insight: its message, the formatted top category, and the top
      category's share in per cent, `None` where the source divides by a
      zero total. */
  datatype Insight = Insight(tone: Tone, category: string, share: Option<real>)

  /** The message chosen for a top amount out of a total.  Over a zero total
      the share is `Infinity` when the top amount is positive (above 40) and
      `NaN` or `-Infinity` otherwise (above neither threshold). */
  function ToneOf(top: real, total: real): (r: Tone)
    ensures total != 0.0 ==> (r == Diversify <==> top / total * 100.0 > 40.0)
    ensures total != 0.0 ==> (r == Balanced <==> 25.0 < top / total * 100.0 <= 40.0)
    ensures total == 0.0 ==> (r == Diversify <==> top > 0.0)
    ensures r != Balanced || total != 0.0
  {
    if total == 0.0 then (if top > 0.0 then Diversify else WellDistributed)
    else
      var share := top / total * 100.0;
      if share > 40.0 then Diversify else if share > 25.0 then Balanced else WellDistributed
  }

  /** `generateExpenseInsights(categories, totalExpenses)`: the top category
      is the head of the stable descending sort, so the first entry holding
      the largest amount. */
  function GenerateExpenseInsights(categories: seq<Tally<string>>, total: real): (r: Insight)
    requires categories != []
    ensures var top := categories[FirstMaxIndex(categories)];
      && r.category == FormatCategory(top.key)
      && r.tone == ToneOf(top.amount, total)
      && (total == 0.0 <==> r.share.None?)
      && (r.share.Some? ==> r.share.value == top.amount / total * 100.0)
  {
    var top := SortDesc(categories)[0];
    SortDescHead(categories);
    Insight(ToneOf(top.amount, total), FormatCategory(top.key), if total == 0.0 then None else Some(top.amount / total * 100.0))
  }

  /** `n` copies of `m` added up: `n * m` without a product, which keeps
      the callers' arithmetic linear. */
  function Copies(n: nat, m: real): real {
    if n == 0 then 0.0 else m + Copies(n - 1, m)
  }

  lemma {:induction false} CopiesProduct(n: nat, m: real)
    ensures Copies(n, m) == n as real * m
  {
    if n > 0 {
      CopiesProduct(n - 1, m);
    }
  }

  /** Every amount is at most `m`, so the amounts add up to at most `|ts| * m`. */
  lemma {:induction false} SumTalliesBound<K>(ts: seq<Tally<K>>, m: real)
    requires forall i :: 0 <= i < |ts| ==> ts[i].amount <= m
    ensures SumTallies(ts) <= Copies(|ts|, m)
  {
    if ts != [] {
      SumTalliesBound(ts[1..], m);
    }
  }

  /** Over a month's categories (positive amounts adding up to the total):
      a single category always draws the diversify message, the balanced
      message needs at least three categories and the well-distributed one
      at least four. */
  lemma InsightSpread(categories: seq<Tally<string>>, total: real)
    requires categories != []
    requires forall i :: 0 <= i < |categories| ==> categories[i].amount > 0.0
    requires total == SumTallies(categories)
    ensures |categories| == 1 ==> GenerateExpenseInsights(categories, total).tone == Diversify
    ensures GenerateExpenseInsights(categories, total).tone == Balanced ==> |categories| >= 3
    ensures GenerateExpenseInsights(categories, total).tone == WellDistributed ==> |categories| >= 4
  {
    var p := FirstMaxIndex(categories);
    SumTalliesBound(categories, categories[p].amount);
    SumTalliesAtLeast(categories, p);
    ToneSpread(categories[p].amount, total, |categories|);
  }

  /** The message for a positive top amount out of a total between it and
      `n` times it. */
  lemma ToneSpread(top: real, total: real, n: nat)
    requires 0.0 < top <= total <= Copies(n, top)
    ensures n == 1 ==> ToneOf(top, total) == Diversify
    ensures ToneOf(top, total) == Balanced ==> n >= 3
    ensures ToneOf(top, total) == WellDistributed ==> n >= 4
  {
    CopiesProduct(n, top);
    if n == 1 {
      assert total == top;
      assert top / total == 1.0;
    }
    if ToneOf(top, total) == Balanced {
      ShareNeedsEntries(top, total, n, 40.0);
    }
    if ToneOf(top, total) == WellDistributed {
      ShareNeedsEntries(top, total, n, 25.0);
    }
  }

  /** A top amount of at most `pct` per cent of a total no larger than `n`
      times that top amount needs `n * pct` to reach 100. */
  lemma ShareNeedsEntries(top: real, total: real, n: nat, pct: real)
    requires top > 0.0 && total > 0.0 && total <= n as real * top
    requires top / total * 100.0 <= pct
    ensures n as real * pct >= 100.0
  {
    var q := top / total;
    assert q * total == top;
    var nq := n as real * q;
    assert nq * total == n as real * top;
    assert 1.0 <= nq;
    assert nq * 100.0 <= n as real * pct;
  }

  /** With positive amounts every single amount is at most the total. */
  lemma {:induction false} SumTalliesAtLeast<K>(ts: seq<Tally<K>>, i: nat)
    requires i < |ts|
    requires forall j :: 0 <= j < |ts| ==> ts[j].amount > 0.0
    ensures ts[i].amount <= SumTallies(ts)
  {
    if i == 0 {
      SumTalliesPositive(ts[1..]);
    } else {
      SumTalliesAtLeast(ts[1..], i - 1);
    }
  }

  lemma {:induction false} SumTalliesPositive<K>(ts: seq<Tally<K>>)
    requires forall i :: 0 <= i < |ts| ==> ts[i].amount > 0.0
    ensures SumTallies(ts) >= 0.0
  {
    if ts != [] {
      SumTalliesPositive(ts[1..]);
    }
  }
}
