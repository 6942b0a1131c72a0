/**
 * The transactions page: it maps expense records to table rows, taking them from the
 * user context when the context holds them and fetching them otherwise.
 */
module TransactionsPage {
  import opened Wrappers
  import opened Js
  import opened Records
  import opened Http
  import opened TransactionList

  /** The row an expense record becomes. Unlike the user context, no currency stripping. */
  function MapExpense(eng: Engine, e: RawExpense): Tx {
    Tx(
      e.expense_id,
      if Truthy(e.timestamp) then Localized(e.timestamp) else NotAvailable,
      e.description,
      e.expense_category,
      Negate(Abs(ParseFloat(eng, Or(e.monthly_amount, Number(Num(0.0)))))),
      "expense")
  }

  function MapExpenses(eng: Engine, exps: seq<RawExpense>): (r: seq<Tx>)
    ensures |r| == |exps|
    ensures forall i :: 0 <= i < |exps| ==> r[i] == MapExpense(eng, exps[i])
  {
    seq(|exps|, i requires 0 <= i < |exps| => MapExpense(eng, exps[i]))
  }

  /**
   * One row per record, in the records' order; each carries the record's id, description
   * and category, the type 'expense', its timestamp to be localized or 'N/A' for a missing
   * one, and an amount that is never positive, so it is never shown in the income colour.
   */
  lemma MapExpensesMeaning(eng: Engine, exps: seq<RawExpense>)
    ensures |MapExpenses(eng, exps)| == |exps|
    ensures forall i :: 0 <= i < |exps| ==>
      var tx := MapExpenses(eng, exps)[i];
      tx.id == exps[i].expense_id && tx.description == exps[i].description
      && tx.category == exps[i].expense_category && tx.kind == "expense"
      && (tx.date == NotAvailable <==> !Truthy(exps[i].timestamp))
      && (Truthy(exps[i].timestamp) ==> tx.date == Localized(exps[i].timestamp))
      && (tx.amount.NaN? || tx.amount.value <= 0.0)
      && AmountColor(tx.kind, tx.amount) != Green
  {
  }

  /** An amount that parses to a non-zero number is shown in red. */
  lemma NonZeroExpenseIsRed(eng: Engine, e: RawExpense)
    requires ParseFloat(eng, Or(e.monthly_amount, Number(Num(0.0)))).Num?
    requires ParseFloat(eng, Or(e.monthly_amount, Number(Num(0.0)))).value != 0.0
    ensures AmountColor(MapExpense(eng, e).kind, MapExpense(eng, e).amount) == Red
  {
  }

  const FetchErrorPrefix := "Failed to fetch transactions: "

  /** The context's `error` is truthy: present and not the empty string. */
  predicate HasError(e: Option<string>) {
    e.Some? && e.value != ""
  }

  /** What the page's effect does when the user context changes. */
  datatype Step = WaitForContext | UsedContext | FetchStarted

  class Page {
    var transactions: seq<Tx>
    var loading: bool
    var error: Option<string>

    constructor()
      ensures transactions == [] && loading && error.None?
    {
      transactions := [];
      loading := true;
      error := None;
    }

    /**
     * The effect run on each context change. While the context loads nothing happens.
     * Otherwise, unless the context reports an error, its cached expenses become the
     * rows with no request made; with an error, a request starts.
     */
    method OnContextChange(eng: Engine, cached: seq<RawExpense>, userLoading: bool, userError: Option<string>)
      returns (step: Step)
      modifies this
      ensures userLoading ==>
        step == WaitForContext && transactions == old(transactions) && loading == old(loading) && error == old(error)
      ensures !userLoading && !HasError(userError) ==>
        step == UsedContext && transactions == MapExpenses(eng, cached) && !loading && error.None?
      ensures !userLoading && HasError(userError) ==>
        step == FetchStarted && transactions == old(transactions) && loading && error.None?
    {
      if userLoading {
        return WaitForContext;
      }
      loading := true;
      error := None;
      if !HasError(userError) {
        transactions := MapExpenses(eng, cached);
        loading := false;
        return UsedContext;
      }
      return FetchStarted;
    }

    /**
     * The request settles: the fetched records become the rows, or the error is
     * recorded. A `null` body makes `data.map` throw a TypeError.
     */
    method FetchSettled(eng: Engine, outcome: Outcome<seq<RawExpense>>)
      modifies this
      ensures !loading
      ensures outcome.Received? ==> transactions == MapExpenses(eng, outcome.data) && error == old(error)
      ensures outcome.ReceivedNull? ==> transactions == old(transactions) && error == Some(NullRead("map"))
      ensures outcome.Rejected? ==> transactions == old(transactions) && error == Some(outcome.message)
      ensures outcome.HttpError? ==>
        transactions == old(transactions) && error == Some(FailureMessage(eng, FetchErrorPrefix, outcome.status, outcome.body))
    {
      match outcome {
        case Received(data) => transactions := MapExpenses(eng, data);
        case ReceivedNull => error := Some(NullRead("map"));
        case Rejected(m) => error := Some(m);
        case HttpError(status, body) => error := Some(FailureMessage(eng, FetchErrorPrefix, status, body));
      }
      loading := false;
    }
  }
}
