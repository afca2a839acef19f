/**
 * The finance transaction list (src/app/finance/components/TransactionList.tsx).
 *
 * The list keeps the transactions fetched from the backend and a summary of
 * them that is recomputed whenever the list changes: the total of the income
 * amounts, the total of the expense amounts, and their difference. Saving a
 * transaction inserts it in the backend and, when the backend returns the
 * inserted row, puts that row first. The balance card shows the size of the
 * balance with the label Surplus or Deficit.
 *
 * Amounts are integer cents. The transaction record is defined in
 * TransactionModal.tsx, which is not part of this model; only its type and
 * amount matter here, the rest is kept as a description.
 */
module TransactionList {
  import opened Common

  datatype Transaction = Transaction(kind: string, amount: int, description: string)

  datatype Summary = Summary(income: int, expense: int, balance: int)

  /** What the insert call gives: an error, the inserted row, or no data. */
  datatype SaveResponse = SaveFailed(error: string) | Inserted(row: Transaction) | NoData

  /** `reduce((sum, t) => sum + t.amount, 0)`. */
  function SumAmounts(ts: seq<Transaction>): int {
    if ts == [] then 0 else ts[0].amount + SumAmounts(ts[1..])
  }

  /** `filter(t => t.type === kind).reduce(...)`. */
  function SumOfType(ts: seq<Transaction>, kind: string): int {
    SumAmounts(Filter(ts, (t: Transaction) => t.kind == kind))
  }

  /** `calculateSummary`. */
  function CalculateSummary(ts: seq<Transaction>): (s: Summary)
    ensures s.balance == s.income - s.expense
  {
    var income := SumOfType(ts, "income");
    var expense := SumOfType(ts, "expense");
    Summary(income, expense, income - expense)
  }

  /** The balance card: the size of the balance and its label. */
  function BalanceDisplay(balance: int): (shown: (nat, string))
    ensures shown.1 == "Surplus" || shown.1 == "Deficit"
    ensures shown.1 == "Surplus" <==> balance >= 0
  {
    if balance >= 0 then (balance, "Surplus") else (-balance, "Deficit")
  }

  /** The balance a card stands for, read back from what it shows. */
  function DisplayedBalance(shown: (nat, string)): int {
    if shown.1 == "Surplus" then shown.0 as int else -(shown.0 as int)
  }

  /** The list and its summary. */
  class TransactionListState {
    var transactions: seq<Transaction>
    var summary: Summary

    /** The summary is that of the list (the effect that recomputes it has run). */
    ghost predicate Valid()
      reads this
    {
      summary == CalculateSummary(transactions)
    }

    constructor ()
      ensures Valid() && transactions == []
    {
      transactions := [];
      summary := Summary(0, 0, 0);
    }

    /** `handleSaveTransaction`: a returned row goes first; a failure or no data leaves the list as it was. */
    method HandleSaveTransaction(response: SaveResponse)
      requires Valid()
      modifies this
      ensures Valid()
      ensures transactions == if response.Inserted? then [response.row] + old(transactions) else old(transactions)
    {
      if response.Inserted? {
        transactions := [response.row] + transactions;
        summary := CalculateSummary(transactions);
      }
    }
  }

  // ---------------------------------------------------------------------------
  // Properties

  /** A reference sum over the transactions of one type, without filtering first. */
  function SumWhere(ts: seq<Transaction>, kind: string): int {
    if ts == [] then 0
    else (if ts[0].kind == kind then ts[0].amount else 0) + SumWhere(ts[1..], kind)
  }

  /** Filtering then summing is summing the amounts of that type. */
  lemma {:induction false} SumOfTypeIsSumWhere(ts: seq<Transaction>, kind: string)
    ensures SumOfType(ts, kind) == SumWhere(ts, kind)
  {
    if ts != [] {
      var keep := (t: Transaction) => t.kind == kind;
      SumOfTypeIsSumWhere(ts[1..], kind);
      if keep(ts[0]) {
        assert Filter(ts, keep) == [ts[0]] + Filter(ts[1..], keep);
        assert (([ts[0]] + Filter(ts[1..], keep)))[1..] == Filter(ts[1..], keep);
      }
    }
  }

  /** An empty list has an all-zero summary. */
  lemma EmptySummary()
    ensures CalculateSummary([]) == Summary(0, 0, 0)
  {
  }

  /**
   * Putting a row first adds its amount to the income total when it is
   * income, to the expense total when it is an expense, and changes nothing
   * for any other type.
   */
  lemma PrependUpdatesSummary(t: Transaction, ts: seq<Transaction>)
    ensures var before, after := CalculateSummary(ts), CalculateSummary([t] + ts);
            after == if t.kind == "income" then Summary(before.income + t.amount, before.expense, before.balance + t.amount)
                     else if t.kind == "expense" then Summary(before.income, before.expense + t.amount, before.balance - t.amount)
                     else before
  {
    assert ([t] + ts)[1..] == ts;
    SumOfTypeIsSumWhere([t] + ts, "income");
    SumOfTypeIsSumWhere([t] + ts, "expense");
    SumOfTypeIsSumWhere(ts, "income");
    SumOfTypeIsSumWhere(ts, "expense");
  }

  /** The card shows the balance's size, and the label gives back its sign. */
  lemma BalanceDisplayRoundTrip(balance: int)
    ensures DisplayedBalance(BalanceDisplay(balance)) == balance
    ensures BalanceDisplay(balance).0 == if balance >= 0 then balance else -balance
  {
  }
}
