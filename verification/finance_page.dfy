/**
 * The finance overview page (src/app/finance/page.tsx).
 *
 * The page reads every transaction from the backend and shows the total
 * revenue (income amounts), the total expenses (expense amounts) and the net
 * profit. When the backend gives no data, both totals fall back to 0.
 */
module FinancePage {
  import opened Common
  import opened TransactionList

  datatype Overview = Overview(totalRevenue: int, totalExpenses: int, netProfit: int)

  /** `transactions?.filter(...).reduce(...) || 0`: the sum for one type, or 0 without data. */
  function TotalOf(data: Option<seq<Transaction>>, kind: string): int {
    if data.Some? then SumOfType(data.value, kind) else 0
  }

  /** The three figures of the page. */
  function FinanceOverview(data: Option<seq<Transaction>>): (o: Overview)
    ensures o.netProfit == o.totalRevenue - o.totalExpenses
  {
    var revenue := TotalOf(data, "income");
    var expenses := TotalOf(data, "expense");
    Overview(revenue, expenses, revenue - expenses)
  }

  /** Without data every figure is 0. */
  lemma AbsentDataIsZero()
    ensures FinanceOverview(None) == Overview(0, 0, 0)
  {
  }

  /** On the same transactions the page's figures are the transaction list's summary. */
  lemma OverviewMatchesSummary(ts: seq<Transaction>)
    ensures var o, s := FinanceOverview(Some(ts)), CalculateSummary(ts);
            o.totalRevenue == s.income && o.totalExpenses == s.expense && o.netProfit == s.balance
  {
  }

  /** Revenue is the sum of the income amounts and expenses the sum of the expense amounts; other types are ignored. */
  lemma OverviewSumsByType(ts: seq<Transaction>)
    ensures FinanceOverview(Some(ts)).totalRevenue == SumWhere(ts, "income")
    ensures FinanceOverview(Some(ts)).totalExpenses == SumWhere(ts, "expense")
  {
    SumOfTypeIsSumWhere(ts, "income");
    SumOfTypeIsSumWhere(ts, "expense");
  }
}
