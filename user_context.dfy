/**
 * The user context: the dashboard's view of the signed-in user, built from one
 * comprehensive-details response, and the fetch lifecycle that replaces it.
 */
module UserContext {
  import opened Wrappers
  import opened Js
  import opened Text
  import opened Dictionary
  import opened Records
  import opened Numeric
  import opened ExpenseSummary
  import opened KnowledgeTransform
  import opened GoalTransform
  import opened Http

  /** One entry of `financialProfile.detailedDebts`; a falsy minimum payment is null (None). */
  datatype DetailedDebt = DetailedDebt(
    id: Value, name: Value, amount: Number, interest_rate: Value, min_monthly_payment: Option<Number>)

  /**
   * The user snapshot. An amount field is None where the snapshot shows 'N/A'; a
   * shown amount is the number `formatCurrency` renders (`netHouseholdIncome` with
   * ' monthly' after it). Fields that are constant 'N/A' placeholders are omitted.
   */
  datatype UserView = UserView(
    name: Value, email: Value, memberSince: string, accountType: string,
    age: Value, netHouseholdIncome: Option<real>, employmentStatus: Value,
    dependentAdults: int, dependentChildren: Value,
    financialGoals: seq<Goal>, financialKnowledge: Dict<KnowledgeView>,
    liabilities: Option<real>, totalDebt: Option<real>,
    numberOfDebtAccounts: nat, detailedDebts: seq<DetailedDebt>,
    topCategory: string, expenseSummary: Dict<real>,
    expenseSummaryForLatestMonth: Dict<real>, latestMonthForSummary: Option<string>,
    rawProfile: Option<RawProfile>, rawIncome: seq<RawIncome>, rawDebts: seq<RawDebt>,
    rawExpenses: seq<RawExpense>, rawFinancialKnowledge: seq<RawKnowledge>)

  /** The snapshot shown before any data has arrived. */
  function DefaultUser(): UserView {
    UserView(
      Str("Alex Johnson"), Str("alex.j@example.com"), "2023-01-15", "Premium",
      Str("N/A"), None, Str("N/A"), 0, Number(Num(0.0)),
      [], Empty(), None, None, 0, [],
      "N/A", Empty(), Empty(), None,
      None, [], [], [], [])
  }

  function DetailedDebtOf(eng: Engine, d: RawDebt): DetailedDebt {
    DetailedDebt(
      d.debt_id, Or(d.account_name, Str("N/A")), ParseCurrency(eng, d.current_balance), d.interest_rate,
      if Truthy(d.min_monthly_payment) then Some(ParseCurrency(eng, d.min_monthly_payment)) else None)
  }

  /** `data.debts ? data.debts.map(...) : []`. */
  function DetailedDebts(eng: Engine, debts: Option<seq<RawDebt>>): (r: seq<DetailedDebt>)
    ensures |r| == if debts.Some? then |debts.value| else 0
    ensures forall i :: 0 <= i < |r| ==> r[i] == DetailedDebtOf(eng, debts.value[i])
  {
    if debts.None? then []
    else seq(|debts.value|, i requires 0 <= i < |debts.value| => DetailedDebtOf(eng, debts.value[i]))
  }

  /** `data.profile?.field`. */
  function ProfileField(p: Option<RawProfile>, f: RawProfile -> Value): Value {
    if p.Some? then f(p.value) else Undefined
  }

  /**
   * The snapshot a successful response produces. `prev` is the snapshot before the
   * fetch: name and email fall back to it, and membership fields are carried over.
   * A null goal value makes the goal transform throw, and the whole update fails.
   */
  function BuildUser(eng: Engine, data: RawData, prev: UserView): Result<UserView> {
    var goals := if data.profile.Some? then TransformGoals(eng, data.profile.value.goals) else Ok([]);
    if goals.Err? then Err(goals.message)
    else
      var income := IncomeTotal(eng, data.income);
      var debt := DebtTotal(eng, data.debts);
      var knowledge := if data.financial_knowledge.Some? then data.financial_knowledge.value else [];
      Ok(UserView(
        Or(ProfileField(data.profile, (p: RawProfile) => p.name), prev.name),
        Or(ProfileField(data.profile, (p: RawProfile) => p.email), prev.email),
        prev.memberSince, prev.accountType,
        Or(ProfileField(data.profile, (p: RawProfile) => p.age), Str("N/A")),
        if income > 0.0 then Some(income) else None,
        Or(ProfileField(data.profile, (p: RawProfile) => p.retirement_status), Str("N/A")),
        0,
        Or(ProfileField(data.profile, (p: RawProfile) => p.num_children), Number(Num(0.0))),
        goals.value,
        TransformKnowledge(Some(knowledge)),
        Some(debt), Some(debt),
        if data.debts.Some? then |data.debts.value| else 0,
        DetailedDebts(eng, data.debts),
        TopSpendingCategory(eng, data.expenses),
        AllTimeSummary(eng, data.expenses),
        LatestMonthSummary(eng, data.expenses),
        LatestMonthKey(data.expenses),
        data.profile,
        data.income.GetOr([]), data.debts.GetOr([]), data.expenses.GetOr([]), knowledge))
  }

  /**
   * What a successful response yields: it fails only on a null goal value; names
   * fall back to the previous snapshot; income shows only when positive; the debt
   * count, list and total are those of the debts received; goals, knowledge and the
   * expense summaries are the transforms of the received data.
   */
  lemma BuildUserMeaning(eng: Engine, data: RawData, prev: UserView)
    ensures BuildUser(eng, data, prev).Err? <==>
      data.profile.Some? && data.profile.value.goals.GoalsObject?
      && exists i :: 0 <= i < |data.profile.value.goals.entries| && data.profile.value.goals.entries[i].1 == GoalScalar(Null)
    ensures BuildUser(eng, data, prev).Ok? ==>
      var u := BuildUser(eng, data, prev).value;
      (u.name == if data.profile.Some? && Truthy(data.profile.value.name) then data.profile.value.name else prev.name)
      && (u.email == if data.profile.Some? && Truthy(data.profile.value.email) then data.profile.value.email else prev.email)
      && u.memberSince == prev.memberSince && u.accountType == prev.accountType
      && (u.netHouseholdIncome.Some? <==> IncomeTotal(eng, data.income) > 0.0)
      && (u.netHouseholdIncome.Some? ==> u.netHouseholdIncome.value == IncomeTotal(eng, data.income))
      && u.numberOfDebtAccounts == |u.detailedDebts| == |u.rawDebts|
      && u.totalDebt == u.liabilities == Some(DebtTotal(eng, data.debts))
      && u.topCategory == TopSpendingCategory(eng, data.expenses)
    ensures BuildUser(eng, data, prev).Ok? ==>
      var u := BuildUser(eng, data, prev).value;
      u.numberOfDebtAccounts == |data.debts.GetOr([])|
      && u.detailedDebts == DetailedDebts(eng, data.debts)
      && u.rawDebts == data.debts.GetOr([])
    ensures BuildUser(eng, data, prev).Ok? ==>
      var u := BuildUser(eng, data, prev).value;
      (data.profile.None? ==> u.financialGoals == [])
      && (data.profile.Some? ==> Ok(u.financialGoals) == TransformGoals(eng, data.profile.value.goals))
      && u.financialKnowledge == TransformKnowledge(Some(data.financial_knowledge.GetOr([])))
    ensures BuildUser(eng, data, prev).Ok? ==>
      var u := BuildUser(eng, data, prev).value;
      u.expenseSummary == AllTimeSummary(eng, data.expenses)
      && u.expenseSummaryForLatestMonth == LatestMonthSummary(eng, data.expenses)
      && u.latestMonthForSummary == LatestMonthKey(data.expenses)
  {
  }

  /**
   * The snapshot's debt list describes the received debts one for one, and its
   * latest-month summary is empty exactly when no expense carries a valid date.
   */
  lemma SnapshotReflectsData(eng: Engine, data: RawData, prev: UserView)
    requires BuildUser(eng, data, prev).Ok?
    ensures var u := BuildUser(eng, data, prev).value;
      |u.detailedDebts| == |data.debts.GetOr([])|
      && forall i :: 0 <= i < |u.detailedDebts| ==>
        u.detailedDebts[i].id == data.debts.value[i].debt_id
        && (Truthy(data.debts.value[i].account_name) ==> u.detailedDebts[i].name == data.debts.value[i].account_name)
        && (!Truthy(data.debts.value[i].account_name) ==> u.detailedDebts[i].name == Str("N/A"))
    ensures var u := BuildUser(eng, data, prev).value;
      data.expenses.Some? ==>
        (|u.expenseSummaryForLatestMonth.keys| == 0 <==> LatestMonth(data.expenses.value).None?)
  {
    BuildUserMeaning(eng, data, prev);
    if data.debts.Some? {
      DetailedDebtsMeaning(eng, data.debts.value);
    }
    if data.expenses.Some? {
      LatestMonthSummaryEmptyIff(eng, data.expenses.value);
    }
  }

  /** Each listed debt shows its account name or 'N/A', and no minimum payment unless one was truthy. */
  lemma DetailedDebtsMeaning(eng: Engine, debts: seq<RawDebt>)
    ensures forall i :: 0 <= i < |debts| ==>
      var d := DetailedDebts(eng, Some(debts))[i];
      d.id == debts[i].debt_id
      && (Truthy(debts[i].account_name) ==> d.name == debts[i].account_name)
      && (!Truthy(debts[i].account_name) ==> d.name == Str("N/A"))
      && (d.min_monthly_payment.None? <==> !Truthy(debts[i].min_monthly_payment))
  {
  }

  const FetchErrorPrefix := "Failed to fetch user data: "

  /**
   * The new snapshot, or the message the failed fetch stores in `error`. A `null`
   * body makes `data.income` throw a TypeError, whose message is stored.
   */
  function FetchResult(eng: Engine, outcome: Outcome<RawData>, prev: UserView): Result<UserView> {
    match outcome
    case Rejected(m) => Err(m)
    case HttpError(status, body) => Err(FailureMessage(eng, FetchErrorPrefix, status, body))
    case ReceivedNull => Err(NullRead("income"))
    case Received(data) => BuildUser(eng, data, prev)
  }

  /**
   * Only a received record can replace the snapshot. A rejected request keeps its own
   * message, a failed response's message names its status after the fetch prefix, and a
   * `null` body fails with the TypeError of reading `income` from it.
   */
  lemma FetchResultMeaning(eng: Engine, outcome: Outcome<RawData>, prev: UserView)
    ensures FetchResult(eng, outcome, prev).Ok? ==> outcome.Received?
    ensures outcome.Rejected? ==> FetchResult(eng, outcome, prev) == Err(outcome.message)
    ensures outcome.HttpError? && !outcome.body.NullBody? ==>
      FetchResult(eng, outcome, prev).Err?
      && FetchResult(eng, outcome, prev).message[..|FetchErrorPrefix|] == FetchErrorPrefix
    ensures outcome.ReceivedNull? ==>
      FetchResult(eng, outcome, prev) == Err("Cannot read properties of null (reading 'income')")
  {
  }

  /** `UserProvider`: the snapshot with its `loading` and `error` flags. */
  class UserProvider {
    var user: UserView
    var loading: bool
    var error: Option<string>

    constructor()
      ensures user == DefaultUser() && loading && error.None?
    {
      user := DefaultUser();
      loading := true;
      error := None;
    }

    /**
     * The effect run when `isLoggedIn` changes: logged out, loading ends and nothing is
     * fetched (the snapshot is not reset); logged in, a fetch starts with the error cleared.
     * Returns whether the request is issued.
     */
    method OnLoginChange(isLoggedIn: bool) returns (fetches: bool)
      modifies this
      ensures fetches == isLoggedIn
      ensures user == old(user)
      ensures loading == isLoggedIn
      ensures error == if isLoggedIn then None else old(error)
    {
      if !isLoggedIn {
        loading := false;
        return false;
      }
      loading := true;
      error := None;
      return true;
    }

    /** The fetch settles: success replaces the whole snapshot, failure keeps it and records the error. */
    method FetchSettled(eng: Engine, outcome: Outcome<RawData>)
      modifies this
      ensures !loading
      ensures FetchResult(eng, outcome, old(user)).Ok? ==>
        user == FetchResult(eng, outcome, old(user)).value && error == old(error)
      ensures FetchResult(eng, outcome, old(user)).Err? ==>
        user == old(user) && error == Some(FetchResult(eng, outcome, old(user)).message)
    {
      var result := FetchResult(eng, outcome, user);
      match result {
        case Ok(u) => user := u;
        case Err(m) => error := Some(m);
      }
      loading := false;
    }
  }

  const UseUserMessage := "useUser must be used within a UserProvider"

  /** `useUser()`: the provider's value, or the error thrown outside a `UserProvider`. */
  function UseUser<T>(context: Option<T>): (r: Result<T>)
    ensures r.Ok? <==> context.Some?
    ensures r.Ok? ==> r.value == context.value
    ensures r.Err? ==> r.message == UseUserMessage
  {
    match context
    case None => Err(UseUserMessage)
    case Some(c) => Ok(c)
  }
}
