/** The flow builder: a label list grown by `get_idx` (append if absent,
    return the position) and three parallel lists of source index, target
    index and value, filled in a fixed order with only positive flows. */
module Sankey {
  import opened Lists
  import opened OrderedDicts

  /** The four captions of the aggregate nodes, in the chosen language. */
  datatype Captions = Captions(totalRevenue: string, cogs: string, grossProfit: string, netIncome: string)

  /** The label list and the three parallel link lists handed to the chart. */
  datatype Graph = Graph(labels: seq<string>, sourceIndices: seq<nat>, targetIndices: seq<nat>, values: seq<real>)

  /** A link read through the label list: source caption, target caption, value. */
  datatype Flow = Flow(source: string, target: string, value: real)

  /** The link lists have one entry per link and no index dangles. */
  ghost predicate Linked(g: Graph) {
    |g.sourceIndices| == |g.values| && |g.targetIndices| == |g.values|
    && (forall e :: 0 <= e < |g.sourceIndices| ==> g.sourceIndices[e] < |g.labels|)
    && (forall e :: 0 <= e < |g.targetIndices| ==> g.targetIndices[e] < |g.labels|)
  }

  /** What the chart relies on: no duplicate label, no dangling index, no
      link of non-positive weight. */
  ghost predicate WellFormed(g: Graph) {
    Linked(g) && Distinct(g.labels) && forall e :: 0 <= e < |g.values| ==> g.values[e] > 0.0
  }

  /** `get_idx(name)` on a label list: the list after the call and the
      returned position. */
  function Register(labels: seq<string>, name: string): (r: (seq<string>, nat))
    ensures r.1 < |r.0| && r.0[r.1] == name
    ensures labels <= r.0
    ensures |r.0| == if name in labels then |labels| else |labels| + 1
    ensures name !in labels ==> r.1 == |labels|
    ensures Distinct(labels) ==> Distinct(r.0)
  {
    if name in labels then (labels, IndexOf(labels, name))
    else
      assert Distinct(labels) ==> Distinct(labels + [name]) by {
        if Distinct(labels) {
          DistinctAppend(labels, name);
        }
      }
      (labels + [name], IndexOf(labels + [name], name))
  }

  /** Asking for the same label twice changes nothing the second time and
      returns the same position. */
  lemma RegisterTwice(labels: seq<string>, name: string)
    ensures Register(Register(labels, name).0, name) == Register(labels, name)
  {
  }

  /** In a duplicate-free list the position returned is the only one holding
      the label. */
  lemma RegisterUnique(labels: seq<string>, name: string, k: nat)
    requires Distinct(labels)
    requires k < |Register(labels, name).0| && Register(labels, name).0[k] == name
    ensures Register(labels, name).1 == k
  {
  }

  /** Registering labels one after another. */
  function RegisterAll(labels: seq<string>, names: seq<string>): (seq<string>, seq<nat>)
  {
    if names == [] then (labels, [])
    else
      var prev := RegisterAll(labels, names[..|names| - 1]);
      var r := Register(prev.0, names[|names| - 1]);
      (r.0, prev.1 + [r.1])
  }

  /** Distinct new labels are appended in first-seen order and receive the
      consecutive positions after the existing ones. */
  lemma {:induction false} RegisterAllFresh(labels: seq<string>, names: seq<string>)
    requires Distinct(names)
    requires forall k :: 0 <= k < |names| ==> names[k] !in labels
    ensures RegisterAll(labels, names).0 == labels + names
    ensures |RegisterAll(labels, names).1| == |names|
    ensures forall k :: 0 <= k < |names| ==> RegisterAll(labels, names).1[k] == |labels| + k
  {
    if names != [] {
      var init, last := names[..|names| - 1], names[|names| - 1];
      assert Distinct(init);
      RegisterAllFresh(labels, init);
      assert last !in init by {
        forall k | 0 <= k < |init| ensures init[k] != last {
          assert names[k] == init[k];
        }
      }
      assert labels + init + [last] == labels + names;
    }
  }

  /** Append one link to the three parallel lists. */
  function Link(g: Graph, source: nat, target: nat, value: real): Graph {
    Graph(g.labels, g.sourceIndices + [source], g.targetIndices + [target], g.values + [value])
  }

  /** The links of `g`, each read through the label list. */
  function Flows(g: Graph): (r: seq<Flow>)
    requires Linked(g)
    ensures |r| == |g.values|
    ensures forall e :: 0 <= e < |r| ==> r[e].value == g.values[e]
  {
    seq(|g.values|, e requires 0 <= e < |g.values| && Linked(g) =>
      Flow(g.labels[g.sourceIndices[e]], g.labels[g.targetIndices[e]], g.values[e]))
  }

  /** A link to labels that exist is one more flow at the end. */
  lemma LinkFlows(g: Graph, source: nat, target: nat, value: real)
    requires Linked(g) && source < |g.labels| && target < |g.labels|
    ensures Linked(Link(g, source, target, value))
    ensures Flows(Link(g, source, target, value)) == Flows(g) + [Flow(g.labels[source], g.labels[target], value)]
  {
  }

  /** Labels appended to the list leave every existing link's flow as it was. */
  lemma GrowLabels(g: Graph, labels: seq<string>)
    requires Linked(g) && g.labels <= labels
    ensures Linked(g.(labels := labels))
    ensures Flows(g.(labels := labels)) == Flows(g)
  {
    var h := g.(labels := labels);
    forall e | 0 <= e < |g.values| ensures Flows(h)[e] == Flows(g)[e] {
      assert g.labels[g.sourceIndices[e]] == labels[g.sourceIndices[e]];
      assert g.labels[g.targetIndices[e]] == labels[g.targetIndices[e]];
    }
  }

  /** One item of a loop: a positive item registers its name and appends
      its flow; any other item changes nothing. */
  function ItemStep(g: Graph, item: (string, real), hub: nat, intoHub: bool): Graph {
    if item.1 > 0.0 then
      var r := Register(g.labels, item.0);
      if intoHub then Link(g.(labels := r.0), r.1, hub, item.1)
      else Link(g.(labels := r.0), hub, r.1, item.1)
    else g
  }

  /** One loop over a dictionary's items, in order. */
  function ItemFlows(g: Graph, items: seq<(string, real)>, hub: nat, intoHub: bool): Graph {
    if items == [] then g
    else ItemStep(ItemFlows(g, items[..|items| - 1], hub, intoHub), items[|items| - 1], hub, intoHub)
  }

  /** Total Revenue to COGS and Total Revenue to Gross Profit, each only
      when its value is positive. */
  function CostAndProfitLinks(g: Graph, totalRev: nat, cogsIdx: nat, gpIdx: nat, cogsValue: real, grossProfit: real): Graph {
    var withCogs := if cogsValue > 0.0 then Link(g, totalRev, cogsIdx, cogsValue) else g;
    if grossProfit > 0.0 then Link(withCogs, totalRev, gpIdx, grossProfit) else withCogs
  }

  /** Gross Profit to Net Income, registering the Net Income label, only when
      net income is positive. */
  function NetIncomeLink(g: Graph, gpIdx: nat, caption: string, netIncome: real): Graph {
    if netIncome > 0.0 then
      var ni := Register(g.labels, caption);
      Link(g.(labels := ni.0), gpIdx, ni.1, netIncome)
    else g
  }

  /** The first half of the builder: Total Revenue, the revenue loop into
      it, the COGS and Gross Profit labels and the two links out of Total
      Revenue. Returns the graph and the position of Gross Profit. */
  function RevenueSide(revenue: seq<(string, real)>, cogsValue: real, grossProfit: real, captions: Captions): (Graph, nat) {
    var totalRev := Register([], captions.totalRevenue);
    var withRevenue := ItemFlows(Graph(totalRev.0, [], [], []), revenue, totalRev.1, true);
    var cogs := Register(withRevenue.labels, captions.cogs);
    var gp := Register(cogs.0, captions.grossProfit);
    (CostAndProfitLinks(withRevenue.(labels := gp.0), totalRev.1, cogs.1, gp.1, cogsValue, grossProfit), gp.1)
  }

  /** The second half: the expense loop out of Gross Profit, then the Net
      Income link. */
  function ExpenseSide(g: Graph, gpIdx: nat, expenses: seq<(string, real)>, netIncome: real, caption: string): Graph {
    NetIncomeLink(ItemFlows(g, expenses, gpIdx, false), gpIdx, caption, netIncome)
  }

  /** The graph the builder produces from the revenue and expense items in
      dictionary order, the cost of revenue, and the gross profit and net
      income computed before it. */
  function Build(revenue: seq<(string, real)>, cogsValue: real, grossProfit: real,
                 expenses: seq<(string, real)>, netIncome: real, captions: Captions): Graph
  {
    var half := RevenueSide(revenue, cogsValue, grossProfit, captions);
    ExpenseSide(half.0, half.1, expenses, netIncome, captions.netIncome)
  }

  /** The flows of one item loop, by caption: one per positive item, in
      item order. */
  function ItemEdges(items: seq<(string, real)>, hub: string, intoHub: bool): (r: seq<Flow>)
    ensures forall e :: 0 <= e < |r| ==> r[e].value > 0.0
  {
    if items == [] then []
    else
      var item := items[|items| - 1];
      ItemEdges(items[..|items| - 1], hub, intoHub)
      + if item.1 <= 0.0 then []
        else if intoHub then [Flow(item.0, hub, item.1)]
        else [Flow(hub, item.0, item.1)]
  }

  /** The intended diagram, by caption: revenue sources into Total Revenue,
      then Total Revenue to COGS, Total Revenue to Gross Profit, Gross Profit
      to each expense, Gross Profit to Net Income, each only when positive. */
  function ExpectedFlows(revenue: seq<(string, real)>, cogsValue: real, grossProfit: real,
                         expenses: seq<(string, real)>, netIncome: real, captions: Captions): (r: seq<Flow>)
    ensures forall e :: 0 <= e < |r| ==> r[e].value > 0.0
  {
    ItemEdges(revenue, captions.totalRevenue, true)
    + (if cogsValue > 0.0 then [Flow(captions.totalRevenue, captions.cogs, cogsValue)] else [])
    + (if grossProfit > 0.0 then [Flow(captions.totalRevenue, captions.grossProfit, grossProfit)] else [])
    + ItemEdges(expenses, captions.grossProfit, false)
    + (if netIncome > 0.0 then [Flow(captions.grossProfit, captions.netIncome, netIncome)] else [])
  }

  /** Names of the items with a positive value. */
  function PositiveNames(items: seq<(string, real)>): set<string> {
    set i | 0 <= i < |items| && items[i].1 > 0.0 :: items[i].0
  }

  /** The labels as a set. */
  function LabelSet(labels: seq<string>): set<string> {
    set x | x in labels
  }

  /** One item step keeps the graph linked, only appends labels, keeps them
      duplicate-free, adds the item's name when positive, and appends the
      item's flow. */
  lemma ItemStepSpec(g: Graph, item: (string, real), hub: nat, intoHub: bool)
    requires Linked(g) && hub < |g.labels|
    ensures var r := ItemStep(g, item, hub, intoHub);
      Linked(r) && g.labels <= r.labels
      && (Distinct(g.labels) ==> Distinct(r.labels))
      && LabelSet(r.labels) == LabelSet(g.labels) + (if item.1 > 0.0 then {item.0} else {})
      && Flows(r) == Flows(g) + ItemEdges([item], g.labels[hub], intoHub)
  {
    ItemEdgesOne(item, g.labels[hub], intoHub);
    if item.1 > 0.0 {
      var r := Register(g.labels, item.0);
      var grown := g.(labels := r.0);
      assert Linked(grown) && Flows(grown) == Flows(g) && grown.labels[hub] == g.labels[hub] by {
        GrowLabels(g, r.0);
      }
      if intoHub {
        LinkFlows(grown, r.1, hub, item.1);
      } else {
        LinkFlows(grown, hub, r.1, item.1);
      }
      LabelSetRegister(g.labels, item.0);
    }
  }

  lemma PositiveNamesSnoc(items: seq<(string, real)>)
    requires items != []
    ensures var item := items[|items| - 1];
      PositiveNames(items) == PositiveNames(items[..|items| - 1]) + (if item.1 > 0.0 then {item.0} else {})
  {
    var init, item := items[..|items| - 1], items[|items| - 1];
    forall x | x in PositiveNames(items) ensures x in PositiveNames(init) + (if item.1 > 0.0 then {item.0} else {}) {
      var i :| 0 <= i < |items| && items[i].1 > 0.0 && items[i].0 == x;
      if i < |init| {
        assert init[i] == items[i];
      }
    }
    forall x | x in PositiveNames(init) ensures x in PositiveNames(items) {
      var i :| 0 <= i < |init| && init[i].1 > 0.0 && init[i].0 == x;
      assert items[i] == init[i];
    }
  }

  /** The flow list of a single item. */
  lemma ItemEdgesOne(item: (string, real), hub: string, intoHub: bool)
    ensures ItemEdges([item], hub, intoHub)
      == if item.1 <= 0.0 then [] else if intoHub then [Flow(item.0, hub, item.1)] else [Flow(hub, item.0, item.1)]
  {
    assert [item][..0] == [];
  }

  lemma ItemEdgesSnoc(items: seq<(string, real)>, hub: string, intoHub: bool)
    requires items != []
    ensures ItemEdges(items, hub, intoHub)
      == ItemEdges(items[..|items| - 1], hub, intoHub) + ItemEdges([items[|items| - 1]], hub, intoHub)
  {
    assert [items[|items| - 1]][..0] == [];
  }

  /** An item loop keeps the link lists aligned and appends exactly the
      item flows. */
  lemma {:induction false} ItemFlowsSpec(g: Graph, items: seq<(string, real)>, hub: nat, intoHub: bool)
    requires Linked(g) && hub < |g.labels|
    ensures var r := ItemFlows(g, items, hub, intoHub);
      Linked(r) && g.labels <= r.labels
      && Flows(r) == Flows(g) + ItemEdges(items, g.labels[hub], intoHub)
  {
    if items != [] {
      var init, item := items[..|items| - 1], items[|items| - 1];
      var prev := ItemFlows(g, init, hub, intoHub);
      var r := ItemFlows(g, items, hub, intoHub);
      assert r == ItemStep(prev, item, hub, intoHub);
      ItemFlowsSpec(g, init, hub, intoHub);
      assert prev.labels[hub] == g.labels[hub];
      ItemStepSpec(prev, item, hub, intoHub);
      calc {
        Flows(r);
        Flows(prev) + ItemEdges([item], g.labels[hub], intoHub);
        Flows(g) + ItemEdges(init, g.labels[hub], intoHub) + ItemEdges([item], g.labels[hub], intoHub);
        { ItemEdgesSnoc(items, g.labels[hub], intoHub); }
        Flows(g) + ItemEdges(items, g.labels[hub], intoHub);
      }
    }
  }

  /** An item loop only appends labels, keeps them duplicate-free, and adds
      exactly the names of the positive items. */
  lemma {:induction false} ItemFlowsLabels(g: Graph, items: seq<(string, real)>, hub: nat, intoHub: bool)
    requires Linked(g) && hub < |g.labels|
    ensures var r := ItemFlows(g, items, hub, intoHub);
      Linked(r) && g.labels <= r.labels
      && (Distinct(g.labels) ==> Distinct(r.labels))
      && LabelSet(r.labels) == LabelSet(g.labels) + PositiveNames(items)
  {
    if items == [] {
      assert PositiveNames(items) == {};
    } else {
      var init, item := items[..|items| - 1], items[|items| - 1];
      var prev := ItemFlows(g, init, hub, intoHub);
      assert ItemFlows(g, items, hub, intoHub) == ItemStep(prev, item, hub, intoHub);
      ItemFlowsLabels(g, init, hub, intoHub);
      ItemStepSpec(prev, item, hub, intoHub);
      PositiveNamesSnoc(items);
    }
  }

  /** Number of items with a positive value. */
  function PositiveCount(items: seq<(string, real)>): nat {
    if items == [] then 0
    else PositiveCount(items[..|items| - 1]) + if items[|items| - 1].1 > 0.0 then 1 else 0
  }

  lemma {:induction false} ItemEdgesCount(items: seq<(string, real)>, hub: string, intoHub: bool)
    ensures |ItemEdges(items, hub, intoHub)| == PositiveCount(items)
  {
    if items != [] {
      ItemEdgesCount(items[..|items| - 1], hub, intoHub);
    }
  }

  lemma CostAndProfitLinksSpec(g: Graph, totalRev: nat, cogsIdx: nat, gpIdx: nat, cogsValue: real, grossProfit: real)
    requires Linked(g) && totalRev < |g.labels| && cogsIdx < |g.labels| && gpIdx < |g.labels|
    ensures var r := CostAndProfitLinks(g, totalRev, cogsIdx, gpIdx, cogsValue, grossProfit);
      Linked(r) && r.labels == g.labels
      && Flows(r) == Flows(g)
         + (if cogsValue > 0.0 then [Flow(g.labels[totalRev], g.labels[cogsIdx], cogsValue)] else [])
         + (if grossProfit > 0.0 then [Flow(g.labels[totalRev], g.labels[gpIdx], grossProfit)] else [])
  {
    var withCogs := if cogsValue > 0.0 then Link(g, totalRev, cogsIdx, cogsValue) else g;
    if cogsValue > 0.0 {
      LinkFlows(g, totalRev, cogsIdx, cogsValue);
    }
    if grossProfit > 0.0 {
      LinkFlows(withCogs, totalRev, gpIdx, grossProfit);
    }
  }

  lemma NetIncomeLinkSpec(g: Graph, gpIdx: nat, caption: string, netIncome: real)
    requires Linked(g) && gpIdx < |g.labels|
    ensures var r := NetIncomeLink(g, gpIdx, caption, netIncome);
      Linked(r) && g.labels <= r.labels
      && (Distinct(g.labels) ==> Distinct(r.labels))
      && LabelSet(r.labels) == LabelSet(g.labels) + (if netIncome > 0.0 then {caption} else {})
      && Flows(r) == Flows(g) + (if netIncome > 0.0 then [Flow(g.labels[gpIdx], caption, netIncome)] else [])
  {
    if netIncome > 0.0 {
      var ni := Register(g.labels, caption);
      GrowLabels(g, ni.0);
      LinkFlows(g.(labels := ni.0), gpIdx, ni.1, netIncome);
      LabelSetRegister(g.labels, caption);
    }
  }

  /** The first half is linked, puts Total Revenue first and Gross Profit
      at the returned position, and its flows are the revenue flows followed
      by the guarded COGS and Gross Profit flows. */
  lemma RevenueSideFlows(revenue: seq<(string, real)>, cogsValue: real, grossProfit: real, captions: Captions)
    ensures var r := RevenueSide(revenue, cogsValue, grossProfit, captions);
      Linked(r.0) && r.1 < |r.0.labels| && r.0.labels[r.1] == captions.grossProfit
      && 0 < |r.0.labels| && r.0.labels[0] == captions.totalRevenue
      && Flows(r.0) == ItemEdges(revenue, captions.totalRevenue, true)
         + (if cogsValue > 0.0 then [Flow(captions.totalRevenue, captions.cogs, cogsValue)] else [])
         + (if grossProfit > 0.0 then [Flow(captions.totalRevenue, captions.grossProfit, grossProfit)] else [])
  {
    var totalRev := Register([], captions.totalRevenue);
    var g0 := Graph(totalRev.0, [], [], []);
    assert totalRev.0 == [captions.totalRevenue] && totalRev.1 == 0;
    var withRevenue := ItemFlows(g0, revenue, 0, true);
    assert Linked(withRevenue) && g0.labels <= withRevenue.labels
      && Flows(withRevenue) == ItemEdges(revenue, captions.totalRevenue, true) by {
      ItemFlowsSpec(g0, revenue, 0, true);
      assert Flows(g0) == [];
    }
    var cogs := Register(withRevenue.labels, captions.cogs);
    var gp := Register(cogs.0, captions.grossProfit);
    var g2 := withRevenue.(labels := gp.0);
    assert Linked(g2) && Flows(g2) == Flows(withRevenue) by {
      GrowLabels(withRevenue, gp.0);
    }
    assert g2.labels[0] == captions.totalRevenue && g2.labels[cogs.1] == captions.cogs
      && g2.labels[gp.1] == captions.grossProfit;
    CostAndProfitLinksSpec(g2, 0, cogs.1, gp.1, cogsValue, grossProfit);
  }

  /** The labels of the first half are duplicate-free: Total Revenue, the
      positive revenue names, COGS and Gross Profit, and nothing else. */
  lemma RevenueSideLabels(revenue: seq<(string, real)>, cogsValue: real, grossProfit: real, captions: Captions)
    ensures var r := RevenueSide(revenue, cogsValue, grossProfit, captions);
      Distinct(r.0.labels)
      && LabelSet(r.0.labels) == {captions.totalRevenue, captions.cogs, captions.grossProfit} + PositiveNames(revenue)
  {
    var totalRev := Register([], captions.totalRevenue);
    var g0 := Graph(totalRev.0, [], [], []);
    assert totalRev.0 == [captions.totalRevenue] && totalRev.1 == 0;
    assert LabelSet(g0.labels) == {captions.totalRevenue};
    var withRevenue := ItemFlows(g0, revenue, 0, true);
    var s1 := {captions.totalRevenue} + PositiveNames(revenue);
    assert Linked(withRevenue) && Distinct(withRevenue.labels) && LabelSet(withRevenue.labels) == s1 by {
      ItemFlowsLabels(g0, revenue, 0, true);
    }
    var cogs := Register(withRevenue.labels, captions.cogs);
    var gp := Register(cogs.0, captions.grossProfit);
    assert LabelSet(gp.0) == {captions.totalRevenue, captions.cogs, captions.grossProfit} + PositiveNames(revenue) by {
      LabelSetRegister(withRevenue.labels, captions.cogs);
      LabelSetRegister(cogs.0, captions.grossProfit);
      assert LabelSet(gp.0) == s1 + {captions.cogs} + {captions.grossProfit};
    }
    var g2 := withRevenue.(labels := gp.0);
    assert Linked(g2) by {
      GrowLabels(withRevenue, gp.0);
    }
    CostAndProfitLinksSpec(g2, 0, cogs.1, gp.1, cogsValue, grossProfit);
  }

  /** The second half keeps the graph linked, only appends labels (the
      positive expense names and, when net income is positive, Net Income),
      keeps them duplicate-free, and appends the expense flows followed by
      the guarded Net Income flow. */
  lemma ExpenseSideSpec(g: Graph, gpIdx: nat, expenses: seq<(string, real)>, netIncome: real, caption: string)
    requires Linked(g) && gpIdx < |g.labels|
    ensures var r := ExpenseSide(g, gpIdx, expenses, netIncome, caption);
      Linked(r) && g.labels <= r.labels
      && (Distinct(g.labels) ==> Distinct(r.labels))
      && LabelSet(r.labels) == LabelSet(g.labels) + PositiveNames(expenses)
         + (if netIncome > 0.0 then {caption} else {})
      && Flows(r) == Flows(g) + ItemEdges(expenses, g.labels[gpIdx], false)
         + (if netIncome > 0.0 then [Flow(g.labels[gpIdx], caption, netIncome)] else [])
  {
    var withExpenses := ItemFlows(g, expenses, gpIdx, false);
    ItemFlowsSpec(g, expenses, gpIdx, false);
    ItemFlowsLabels(g, expenses, gpIdx, false);
    assert withExpenses.labels[gpIdx] == g.labels[gpIdx];
    NetIncomeLinkSpec(withExpenses, gpIdx, caption, netIncome);
  }

  /** The built graph is linked, and its flows, read by caption, are
      exactly the intended diagram in the intended order. */
  lemma BuildFlows(revenue: seq<(string, real)>, cogsValue: real, grossProfit: real,
                   expenses: seq<(string, real)>, netIncome: real, captions: Captions)
    ensures Linked(Build(revenue, cogsValue, grossProfit, expenses, netIncome, captions))
    ensures Flows(Build(revenue, cogsValue, grossProfit, expenses, netIncome, captions))
      == ExpectedFlows(revenue, cogsValue, grossProfit, expenses, netIncome, captions)
  {
    var half := RevenueSide(revenue, cogsValue, grossProfit, captions);
    RevenueSideFlows(revenue, cogsValue, grossProfit, captions);
    ExpenseSideSpec(half.0, half.1, expenses, netIncome, captions.netIncome);
  }

  /** The built label list is duplicate-free and starts with Total Revenue. */
  lemma BuildLabelsDistinct(revenue: seq<(string, real)>, cogsValue: real, grossProfit: real,
                            expenses: seq<(string, real)>, netIncome: real, captions: Captions)
    ensures var g := Build(revenue, cogsValue, grossProfit, expenses, netIncome, captions);
      Distinct(g.labels) && |g.labels| > 0 && g.labels[0] == captions.totalRevenue
  {
    var half := RevenueSide(revenue, cogsValue, grossProfit, captions);
    RevenueSideFlows(revenue, cogsValue, grossProfit, captions);
    RevenueSideLabels(revenue, cogsValue, grossProfit, captions);
    ExpenseSideSpec(half.0, half.1, expenses, netIncome, captions.netIncome);
  }

  /** The labels are the three captions registered unconditionally, the
      names of the positive items, and Net Income when net income is
      positive: no other label is created. */
  lemma BuildLabelSet(revenue: seq<(string, real)>, cogsValue: real, grossProfit: real,
                      expenses: seq<(string, real)>, netIncome: real, captions: Captions)
    ensures LabelSet(Build(revenue, cogsValue, grossProfit, expenses, netIncome, captions).labels)
      == {captions.totalRevenue, captions.cogs, captions.grossProfit}
         + PositiveNames(revenue) + PositiveNames(expenses)
         + (if netIncome > 0.0 then {captions.netIncome} else {})
  {
    var half := RevenueSide(revenue, cogsValue, grossProfit, captions);
    RevenueSideFlows(revenue, cogsValue, grossProfit, captions);
    RevenueSideLabels(revenue, cogsValue, grossProfit, captions);
    ExpenseSideSpec(half.0, half.1, expenses, netIncome, captions.netIncome);
  }

  /** Registering a label adds it to the label set and nothing else. */
  lemma LabelSetRegister(labels: seq<string>, name: string)
    ensures LabelSet(Register(labels, name).0) == LabelSet(labels) + {name}
  {
    if name !in labels {
      assert Register(labels, name).0 == labels + [name];
    }
  }

  /** No duplicate label, no dangling index, no non-positive link. */
  lemma BuildWellFormed(revenue: seq<(string, real)>, cogsValue: real, grossProfit: real,
                        expenses: seq<(string, real)>, netIncome: real, captions: Captions)
    ensures WellFormed(Build(revenue, cogsValue, grossProfit, expenses, netIncome, captions))
  {
    var g := Build(revenue, cogsValue, grossProfit, expenses, netIncome, captions);
    BuildFlows(revenue, cogsValue, grossProfit, expenses, netIncome, captions);
    BuildLabelsDistinct(revenue, cogsValue, grossProfit, expenses, netIncome, captions);
    forall e | 0 <= e < |g.values| ensures g.values[e] > 0.0 {
      assert Flows(g)[e].value == g.values[e];
    }
  }

  /** One link per positive revenue item, per positive expense item, and per
      aggregate flow whose guard holds. */
  lemma BuildLinkCount(revenue: seq<(string, real)>, cogsValue: real, grossProfit: real,
                       expenses: seq<(string, real)>, netIncome: real, captions: Captions)
    ensures |Build(revenue, cogsValue, grossProfit, expenses, netIncome, captions).values|
      == PositiveCount(revenue) + PositiveCount(expenses)
         + (if cogsValue > 0.0 then 1 else 0) + (if grossProfit > 0.0 then 1 else 0)
         + (if netIncome > 0.0 then 1 else 0)
  {
    BuildFlows(revenue, cogsValue, grossProfit, expenses, netIncome, captions);
    ItemEdgesCount(revenue, captions.totalRevenue, true);
    ItemEdgesCount(expenses, captions.grossProfit, false);
  }

  /** The label list and the three link lists, filled in place. */
  class SankeyBuilder {
    var labels: seq<string>
    var sourceIndices: seq<nat>
    var targetIndices: seq<nat>
    var values: seq<real>

    function State(): Graph
      reads this
    {
      Graph(labels, sourceIndices, targetIndices, values)
    }

    constructor ()
      ensures State() == Graph([], [], [], [])
    {
      labels, sourceIndices, targetIndices, values := [], [], [], [];
    }

    /** `get_idx(name)`: append the label if absent, return its position. */
    method GetIdx(name: string) returns (i: nat)
      modifies this
      ensures (labels, i) == Register(old(labels), name)
      ensures sourceIndices == old(sourceIndices) && targetIndices == old(targetIndices) && values == old(values)
    {
      if name !in labels {
        labels := labels + [name];
      }
      i := IndexOf(labels, name);
    }

    /** The three `append` calls that add one link. */
    method AddLink(source: nat, target: nat, value: real)
      modifies this
      ensures State() == Link(old(State()), source, target, value)
    {
      sourceIndices := sourceIndices + [source];
      targetIndices := targetIndices + [target];
      values := values + [value];
    }

    /** One of the two item loops: each positive item registers its name
        and is linked into the hub (revenue) or out of it (expenses). */
    method AddItems(items: seq<(string, real)>, hub: nat, intoHub: bool)
      modifies this
      ensures State() == ItemFlows(old(State()), items, hub, intoHub)
    {
      ghost var start := State();
      for i := 0 to |items|
        invariant State() == ItemFlows(start, items[..i], hub, intoHub)
      {
        assert items[..i + 1][..i] == items[..i];
        var (name, val) := items[i];
        if val > 0.0 {
          var idx := GetIdx(name);
          if intoHub {
            AddLink(idx, hub, val);
          } else {
            AddLink(hub, idx, val);
          }
        }
      }
      assert items[..|items|] == items;
    }
  }

  /** The flow construction, step by step on a fresh builder, reading the
      two dictionaries in key order and the totals computed before it. */
  method BuildSankey(revenueItems: Dict, cogsValue: real, grossProfit: real,
                     expenseItems: Dict, netIncome: real, captions: Captions)
    returns (g: Graph)
    requires Valid(revenueItems) && Valid(expenseItems)
    ensures g == Build(Items(revenueItems), cogsValue, grossProfit, Items(expenseItems), netIncome, captions)
    ensures WellFormed(g)
    ensures Flows(g) == ExpectedFlows(Items(revenueItems), cogsValue, grossProfit, Items(expenseItems), netIncome, captions)
  {
    var b := new SankeyBuilder();
    var totalRevIdx := b.GetIdx(captions.totalRevenue);
    b.AddItems(Items(revenueItems), totalRevIdx, true);
    var cogsIdx := b.GetIdx(captions.cogs);
    var gpIdx := b.GetIdx(captions.grossProfit);
    if cogsValue > 0.0 {
      b.AddLink(totalRevIdx, cogsIdx, cogsValue);
    }
    if grossProfit > 0.0 {
      b.AddLink(totalRevIdx, gpIdx, grossProfit);
    }
    ghost var half := b.State();
    assert (half, gpIdx) == RevenueSide(Items(revenueItems), cogsValue, grossProfit, captions);

    b.AddItems(Items(expenseItems), gpIdx, false);
    if netIncome > 0.0 {
      var niIdx := b.GetIdx(captions.netIncome);
      b.AddLink(gpIdx, niIdx, netIncome);
    }
    g := b.State();
    assert g == ExpenseSide(half, gpIdx, Items(expenseItems), netIncome, captions.netIncome);
    BuildFlows(Items(revenueItems), cogsValue, grossProfit, Items(expenseItems), netIncome, captions);
    BuildWellFormed(Items(revenueItems), cogsValue, grossProfit, Items(expenseItems), netIncome, captions);
  }
}
