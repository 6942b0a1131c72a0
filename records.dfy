/**
 * The records of the comprehensive-details response, as the dashboard reads them.
 * Scalar fields keep their JavaScript value; category names and object keys are
 * strings; timestamps come with the date they parse to.
 */
module Records {
  import opened Wrappers
  import opened Js

  /** A zero-based month, as `Date.prototype.getMonth` returns it. */
  type Month = m: int | 0 <= m < 12

  /** Local year and month of a timestamp that `new Date(...)` parsed to a valid date. */
  datatype YearMonth = YearMonth(year: int, month: Month)

  /** A valid `Date`: its `getTime()` in milliseconds, and its local year and month. */
  datatype ParsedDate = ParsedDate(time: int, ym: YearMonth)

  datatype RawIncome = RawIncome(
    income_id: Value, income_source: Value, monthly_income: Value, description: Value)

  datatype RawDebt = RawDebt(
    debt_id: Value, account_name: Value, current_balance: Value,
    interest_rate: Value, min_monthly_payment: Value)

  /**
   * An expense. `parsedDate` is what `new Date(timestamp)` yields: None for an
   * invalid date. It is only consulted when `timestamp` is truthy.
   */
  datatype RawExpense = RawExpense(
    expense_id: Value, expense_category: Option<string>, monthly_amount: Value,
    description: Value, timestamp: Value, parsedDate: Option<ParsedDate>)

  datatype RawKnowledge = RawKnowledge(category: string, level: int, description: Value)

  /** One value of the `goals` object: a nested object (its title and description) or a scalar. */
  datatype GoalValue = GoalRecord(title: Value, description: Value) | GoalScalar(v: Value)

  /** The `goals` field: a scalar (undefined when absent) or an object in key-enumeration order. */
  datatype Goals = GoalsScalar(v: Value) | GoalsObject(entries: seq<(string, GoalValue)>)

  datatype RawProfile = RawProfile(
    user_id: Value, name: Value, email: Value, age: Value, marital_status: Value,
    retirement_status: Value, num_children: Value, goals: Goals)

  /**
   * The response body. A list that is missing or null is None; for
   * `financial_knowledge` None also stands for any value that is not an array.
   */
  datatype RawData = RawData(
    profile: Option<RawProfile>,
    income: Option<seq<RawIncome>>,
    debts: Option<seq<RawDebt>>,
    expenses: Option<seq<RawExpense>>,
    financial_knowledge: Option<seq<RawKnowledge>>)
}
