/** The income-statement totals derived from the buckets, without clamping:
    gross profit and net income may come out negative. */
module Aggregates {
  import opened OrderedDicts

  datatype Totals = Totals(totalRevenue: real, grossProfit: real, totalExpenses: real, netIncome: real)

  function ComputeTotals(revenueItems: Dict, cogsValue: real, expenseItems: Dict): (t: Totals)
    requires Valid(revenueItems) && Valid(expenseItems)
    ensures t.totalRevenue == Sum(revenueItems) && t.totalExpenses == Sum(expenseItems)
    ensures t.grossProfit == t.totalRevenue - cogsValue
    ensures t.netIncome == t.grossProfit - t.totalExpenses
  {
    var totalRevenue := Sum(revenueItems);
    var grossProfit := totalRevenue - cogsValue;
    var totalExpenses := Sum(expenseItems);
    Totals(totalRevenue, grossProfit, totalExpenses, totalRevenue - cogsValue - totalExpenses)
  }
}
