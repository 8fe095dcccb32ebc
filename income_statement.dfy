/** The whole engine on one evaluation: rows are bucketed, the totals are
    computed, and the Sankey label and link lists are built. */
module IncomeStatement {
  import opened Lists
  import opened Classification
  import opened OrderedDicts
  import opened Aggregates
  import opened Bucketing
  import opened Sankey

  /** Bucket the rows, compute the totals, build the diagram. */
  method Run(rows: seq<Row>, captions: Captions) returns (totals: Totals, g: Graph)
    ensures var b := Bucketed(rows);
      totals == ComputeTotals(b.revenueItems, b.cogsValue, b.expenseItems)
      && g == Build(Items(b.revenueItems), b.cogsValue, totals.grossProfit, Items(b.expenseItems), totals.netIncome, captions)
    ensures WellFormed(g)
    ensures totals.grossProfit == totals.totalRevenue - CategorySum(rows, CostOfRevenue)
  {
    var revenueItems, cogsValue, expenseItems := LoadRows(rows);
    totals := ComputeTotals(revenueItems, cogsValue, expenseItems);
    g := BuildSankey(revenueItems, cogsValue, totals.grossProfit, expenseItems, totals.netIncome, captions);
    CogsIsCategorySum(rows);
  }

  /** When no two revenue rows and no two expense rows share a name, every
      total is the plain sum over the rows of its category. */
  lemma TotalsFromRows(rows: seq<Row>)
    requires Distinct(Names(RowsOf(rows, Revenue))) && Distinct(Names(RowsOf(rows, Expense)))
    ensures var b := Bucketed(rows);
      var t := ComputeTotals(b.revenueItems, b.cogsValue, b.expenseItems);
      t.totalRevenue == CategorySum(rows, Revenue)
      && t.totalExpenses == CategorySum(rows, Expense)
      && t.grossProfit == CategorySum(rows, Revenue) - CategorySum(rows, CostOfRevenue)
      && t.netIncome == CategorySum(rows, Revenue) - CategorySum(rows, CostOfRevenue) - CategorySum(rows, Expense)
  {
    TotalWhenNamesDistinct(rows, Revenue);
    TotalWhenNamesDistinct(rows, Expense);
    CogsIsCategorySum(rows);
  }

  /** Two revenue rows with the same name: the second replaces the first, so
      total revenue is 50, not the 150 the two rows add up to. */
  lemma RepeatedRevenueNameCountsOnce(revenueType: string)
    requires Classify(revenueType) == Revenue
    ensures var rows := [Row("A", 100.0, revenueType), Row("A", 50.0, revenueType)];
      var b := Bucketed(rows);
      b.revenueItems.keys == ["A"] && Sum(b.revenueItems) == 50.0
      && CategorySum(rows, Revenue) == 150.0
  {
    var r1, r2 := Row("A", 100.0, revenueType), Row("A", 50.0, revenueType);
    var rows := [r1, r2];
    EmptyValid();
    var first := AddRow(Buckets(Empty, 0.0, Empty), r1);
    assert first.revenueItems == Dict(["A"], map["A" := 100.0]) by {
      assert Empty.keys + ["A"] == ["A"];
    }
    var d := AddRow(first, r2).revenueItems;
    assert d == Dict(["A"], map["A" := 50.0]);
    assert Sum(d) == 50.0 by {
      assert Items(d) == [("A", 50.0)];
      SumValuesOne(("A", 50.0));
    }
    BucketedTwo(r1, r2);
    assert CategorySum(rows, Revenue) == 150.0 by {
      RowsOfTwo(r1, r2, Revenue);
      PairsTwo(r1, r2);
      SumValuesTwo(("A", 100.0), ("A", 50.0));
    }
  }

  lemma BucketedTwo(r1: Row, r2: Row)
    ensures Bucketed([r1, r2]) == AddRow(AddRow(Buckets(Empty, 0.0, Empty), r1), r2)
  {
    assert [r1, r2][..1] == [r1] && [r1][..0] == [];
    assert Bucketed([r1]) == AddRow(Bucketed([]), r1);
  }

  lemma PairsTwo(r1: Row, r2: Row)
    ensures Pairs([r1, r2]) == [(r1.name, r1.value), (r2.name, r2.value)]
  {
    var p := Pairs([r1, r2]);
    assert p[0] == (r1.name, r1.value) && p[1] == (r2.name, r2.value);
  }

  lemma RowsOfTwo(r1: Row, r2: Row, cat: Category)
    requires Classify(r1.rowType) == cat && Classify(r2.rowType) == cat
    ensures RowsOf([r1, r2], cat) == [r1, r2]
  {
    assert [r1, r2][..1] == [r1] && [r1][..0] == [];
  }

  /** Two sources, a cost of revenue and one expense, whatever their names:
      every flow is present and in order, and net income is what remains. */
  lemma ProfitableStatement(a: string, b: string, expense: string, captions: Captions)
    ensures var revenue := [(a, 100.0), (b, 50.0)];
      var expenses := [(expense, 20.0)];
      var grossProfit := SumValues(revenue) - 60.0;
      var netIncome := grossProfit - SumValues(expenses);
      grossProfit == 90.0 && netIncome == 70.0
      && Linked(Build(revenue, 60.0, grossProfit, expenses, netIncome, captions))
      && Flows(Build(revenue, 60.0, grossProfit, expenses, netIncome, captions)) == [
           Flow(a, captions.totalRevenue, 100.0),
           Flow(b, captions.totalRevenue, 50.0),
           Flow(captions.totalRevenue, captions.cogs, 60.0),
           Flow(captions.totalRevenue, captions.grossProfit, 90.0),
           Flow(captions.grossProfit, expense, 20.0),
           Flow(captions.grossProfit, captions.netIncome, 70.0)]
  {
    var revenue := [(a, 100.0), (b, 50.0)];
    var expenses := [(expense, 20.0)];
    SumValuesTwo((a, 100.0), (b, 50.0));
    SumValuesOne((expense, 20.0));
    var flowA := Flow(a, captions.totalRevenue, 100.0);
    var flowB := Flow(b, captions.totalRevenue, 50.0);
    assert ItemEdges(revenue, captions.totalRevenue, true) == [flowA] + [flowB] by {
      assert revenue[..1] == [(a, 100.0)];
      ItemEdgesSnoc(revenue, captions.totalRevenue, true);
      ItemEdgesOne((a, 100.0), captions.totalRevenue, true);
      ItemEdgesOne((b, 50.0), captions.totalRevenue, true);
    }
    var cogsFlow := Flow(captions.totalRevenue, captions.cogs, 60.0);
    var profitFlow := Flow(captions.totalRevenue, captions.grossProfit, 90.0);
    var expenseFlow := Flow(captions.grossProfit, expense, 20.0);
    var netFlow := Flow(captions.grossProfit, captions.netIncome, 70.0);
    assert ExpectedFlows(revenue, 60.0, 90.0, expenses, 70.0, captions)
      == [flowA] + [flowB] + [cogsFlow] + [profitFlow] + [expenseFlow] + [netFlow] by {
      ItemEdgesOne((expense, 20.0), captions.grossProfit, false);
    }
    assert [flowA] + [flowB] + [cogsFlow] + [profitFlow] + [expenseFlow] + [netFlow]
      == [flowA, flowB, cogsFlow, profitFlow, expenseFlow, netFlow];
    BuildFlows(revenue, 60.0, 90.0, expenses, 70.0, captions);
  }

  /** Cost of revenue above revenue: there is no Total Revenue to Gross
      Profit flow and no Net Income flow, yet the positive expense still
      flows out of Gross Profit. */
  lemma LossStillEmitsExpenseFlows(source: string, expense: string, captions: Captions)
    ensures var revenue := [(source, 30.0)];
      var expenses := [(expense, 5.0)];
      var grossProfit := SumValues(revenue) - 50.0;
      var netIncome := grossProfit - SumValues(expenses);
      grossProfit == -20.0 && netIncome == -25.0
      && Linked(Build(revenue, 50.0, grossProfit, expenses, netIncome, captions))
      && Flows(Build(revenue, 50.0, grossProfit, expenses, netIncome, captions)) == [
           Flow(source, captions.totalRevenue, 30.0),
           Flow(captions.totalRevenue, captions.cogs, 50.0),
           Flow(captions.grossProfit, expense, 5.0)]
  {
    var revenue, expenses := [(source, 30.0)], [(expense, 5.0)];
    SumValuesOne((source, 30.0));
    SumValuesOne((expense, 5.0));
    var revenueFlow := Flow(source, captions.totalRevenue, 30.0);
    var cogsFlow := Flow(captions.totalRevenue, captions.cogs, 50.0);
    var expenseFlow := Flow(captions.grossProfit, expense, 5.0);
    assert ExpectedFlows(revenue, 50.0, -20.0, expenses, -25.0, captions)
      == [revenueFlow] + [cogsFlow] + [] + [expenseFlow] + [] by {
      ItemEdgesOne((source, 30.0), captions.totalRevenue, true);
      ItemEdgesOne((expense, 5.0), captions.grossProfit, false);
    }
    assert [revenueFlow] + [cogsFlow] + [] + [expenseFlow] + [] == [revenueFlow, cogsFlow, expenseFlow];
    BuildFlows(revenue, 50.0, -20.0, expenses, -25.0, captions);
  }

  /** Nothing positive: no flow at all, but the Total Revenue, COGS and Gross
      Profit labels are still registered, in that order. */
  lemma EmptyStatementKeepsAggregateLabels(captions: Captions)
    requires captions.totalRevenue != captions.cogs
    requires captions.grossProfit != captions.totalRevenue && captions.grossProfit != captions.cogs
    ensures var g := Build([], 0.0, 0.0, [], 0.0, captions);
      g.labels == [captions.totalRevenue, captions.cogs, captions.grossProfit] && g.values == []
  {
    var tr, c, gp := captions.totalRevenue, captions.cogs, captions.grossProfit;
    var start := Graph([tr], [], [], []);
    var aggregates := Graph([tr, c, gp], [], [], []);
    assert Register([], tr) == ([tr], 0);
    assert ItemFlows(start, [], 0, true) == start;
    assert Register([tr], c) == ([tr, c], 1) by {
      assert c !in [tr];
      assert [tr] + [c] == [tr, c];
    }
    assert Register([tr, c], gp) == ([tr, c, gp], 2) by {
      assert gp !in [tr, c];
      assert [tr, c] + [gp] == [tr, c, gp];
    }
    assert CostAndProfitLinks(aggregates, 0, 1, 2, 0.0, 0.0) == aggregates;
    assert RevenueSide([], 0.0, 0.0, captions) == (aggregates, 2);
    assert ItemFlows(aggregates, [], 2, false) == aggregates;
  }

  /** A revenue source and an expense with the same name, and no cost of
      revenue: the name is the source of the first flow and the target of
      the third. */
  lemma SharedNameFlows(name: string, captions: Captions)
    ensures var revenue, expenses := [(name, 10.0)], [(name, 4.0)];
      var grossProfit := SumValues(revenue) - 0.0;
      var netIncome := grossProfit - SumValues(expenses);
      grossProfit == 10.0 && netIncome == 6.0
      && Linked(Build(revenue, 0.0, grossProfit, expenses, netIncome, captions))
      && Flows(Build(revenue, 0.0, grossProfit, expenses, netIncome, captions)) == [
           Flow(name, captions.totalRevenue, 10.0),
           Flow(captions.totalRevenue, captions.grossProfit, 10.0),
           Flow(captions.grossProfit, name, 4.0),
           Flow(captions.grossProfit, captions.netIncome, 6.0)]
  {
    var revenue, expenses := [(name, 10.0)], [(name, 4.0)];
    SumValuesOne((name, 10.0));
    SumValuesOne((name, 4.0));
    var revenueFlow := Flow(name, captions.totalRevenue, 10.0);
    var profitFlow := Flow(captions.totalRevenue, captions.grossProfit, 10.0);
    var expenseFlow := Flow(captions.grossProfit, name, 4.0);
    var netFlow := Flow(captions.grossProfit, captions.netIncome, 6.0);
    assert ExpectedFlows(revenue, 0.0, 10.0, expenses, 6.0, captions)
      == [revenueFlow] + [] + [profitFlow] + [expenseFlow] + [netFlow] by {
      ItemEdgesOne((name, 10.0), captions.totalRevenue, true);
      ItemEdgesOne((name, 4.0), captions.grossProfit, false);
    }
    assert [revenueFlow] + [] + [profitFlow] + [expenseFlow] + [netFlow]
      == [revenueFlow, profitFlow, expenseFlow, netFlow];
    BuildFlows(revenue, 0.0, 10.0, expenses, 6.0, captions);
  }

  /** In that statement the revenue flow leaves the very node the expense
      flow enters: a shared name is one node. */
  lemma SharedNameSharesNode(name: string, captions: Captions)
    ensures var g := Build([(name, 10.0)], 0.0, 10.0, [(name, 4.0)], 6.0, captions);
      |g.sourceIndices| == 4 && |g.targetIndices| == 4
      && g.sourceIndices[0] == g.targetIndices[2]
  {
    var g := Build([(name, 10.0)], 0.0, 10.0, [(name, 4.0)], 6.0, captions);
    SharedNameFlows(name, captions);
    BuildLabelsDistinct([(name, 10.0)], 0.0, 10.0, [(name, 4.0)], 6.0, captions);
    assert g.labels[g.sourceIndices[0]] == Flows(g)[0].source;
    assert g.labels[g.targetIndices[2]] == Flows(g)[2].target;
  }
}
