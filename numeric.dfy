/**
 * The currency-string normalisation of the user context: `String(v || '0')`, then
 * every character other than a digit, `.` or `-` removed, then `parseFloat`; and the
 * income and debt totals built on it.
 */
module Numeric {
  import opened Wrappers
  import opened Js
  import opened Seqs
  import opened Text
  import opened Records

  predicate IsNumericChar(c: char) {
    IsDigit(c) || c == '.' || c == '-'
  }

  /** `s.replace(/[^0-9.-]+/g, "")`. */
  function Strip(s: string): (r: string)
    ensures forall i :: 0 <= i < |r| ==> IsNumericChar(r[i])
    ensures IsSubsequence(r, s)
    ensures forall c :: multiset(r)[c] == if IsNumericChar(c) then multiset(s)[c] else 0
  {
    Filter(s, IsNumericChar)
  }

  /** A string made only of digits, `.` and `-` is left as it is. */
  lemma StripKeeps(s: string)
    requires forall i :: 0 <= i < |s| ==> IsNumericChar(s[i])
    ensures Strip(s) == s
  {
    FilterAll(s, IsNumericChar);
  }

  /** Stripping twice is stripping once. */
  lemma StripIdempotent(s: string)
    ensures Strip(Strip(s)) == Strip(s)
  {
    StripKeeps(Strip(s));
  }

  /** The text handed to `parseFloat`: `String(v || '0')` stripped. */
  function CurrencyText(eng: Engine, v: Value): string {
    Strip(ToString(eng, Or(v, Str("0"))))
  }

  /** A falsy value is read as the text "0". */
  lemma FalsyReadsAsZero(eng: Engine, v: Value)
    requires !Truthy(v)
    ensures CurrencyText(eng, v) == "0"
  {
    StripKeeps("0");
  }

  /** `parseFloat(String(v || '0').replace(/[^0-9.-]+/g, ""))`, NaN included. */
  function ParseCurrency(eng: Engine, v: Value): Number {
    eng.parseFloat(CurrencyText(eng, v))
  }

  /** The same with `isNaN(x) ? 0 : x` applied. */
  function AmountOrZero(eng: Engine, v: Value): (r: real)
    ensures ParseCurrency(eng, v).NaN? ==> r == 0.0
    ensures ParseCurrency(eng, v).Num? ==> r == ParseCurrency(eng, v).value
  {
    match ParseCurrency(eng, v)
    case NaN => 0.0
    case Num(x) => x
  }

  /** The amount each income record contributes to the monthly total. */
  function IncomeAmounts(eng: Engine, items: seq<RawIncome>): (r: seq<real>)
    ensures |r| == |items|
    ensures forall i :: 0 <= i < |items| ==> r[i] == AmountOrZero(eng, items[i].monthly_income)
  {
    seq(|items|, i requires 0 <= i < |items| => AmountOrZero(eng, items[i].monthly_income))
  }

  /** `data.income?.reduce(...) || 0`: the sum of the income amounts, 0 for a missing list. */
  function IncomeTotal(eng: Engine, income: Option<seq<RawIncome>>): real {
    match income
    case None => 0.0
    case Some(items) => Sum(IncomeAmounts(eng, items))
  }

  /** The reduce of the income list, as the loop it is. */
  method TotalMonthlyIncome(eng: Engine, income: Option<seq<RawIncome>>) returns (total: real)
    ensures total == IncomeTotal(eng, income)
  {
    total := 0.0;
    if income.None? {
      return;
    }
    var items := income.value;
    var i := 0;
    while i < |items|
      invariant 0 <= i <= |items|
      invariant total == Sum(IncomeAmounts(eng, items[..i]))
    {
      var amounts := IncomeAmounts(eng, items[..i + 1]);
      assert amounts[..i] == IncomeAmounts(eng, items[..i]);
      total := total + AmountOrZero(eng, items[i].monthly_income);
      i := i + 1;
    }
    assert items[..i] == items;
  }

  /** An income list whose entries all fail to parse totals 0. */
  lemma {:induction false} UnparsableIncomeCountsZero(eng: Engine, items: seq<RawIncome>)
    requires forall i :: 0 <= i < |items| ==> ParseCurrency(eng, items[i].monthly_income).NaN?
    ensures IncomeTotal(eng, Some(items)) == 0.0
  {
    if items != [] {
      var prefix := items[..|items| - 1];
      UnparsableIncomeCountsZero(eng, prefix);
      assert IncomeAmounts(eng, items)[..|items| - 1] == IncomeAmounts(eng, prefix);
    }
  }

  /** Adding one income record adds its amount to the total. */
  lemma IncomeTotalAppend(eng: Engine, items: seq<RawIncome>, x: RawIncome)
    ensures IncomeTotal(eng, Some(items + [x]))
         == IncomeTotal(eng, Some(items)) + AmountOrZero(eng, x.monthly_income)
  {
    assert IncomeAmounts(eng, items + [x])[..|items|] == IncomeAmounts(eng, items);
  }

  /** The balances summed for the debt total: `parseFloat` without the NaN guard. */
  function DebtBalances(eng: Engine, debts: seq<RawDebt>): (r: seq<Number>)
    ensures |r| == |debts|
    ensures forall i :: 0 <= i < |debts| ==> r[i] == ParseCurrency(eng, debts[i].current_balance)
  {
    seq(|debts|, i requires 0 <= i < |debts| => ParseCurrency(eng, debts[i].current_balance))
  }

  /** `reduce((sum, item) => sum + parseFloat(...), 0)` on numbers: one NaN makes the sum NaN. */
  function NumberSum(s: seq<Number>): Number {
    if s == [] then Num(0.0) else Add(NumberSum(s[..|s| - 1]), s[|s| - 1])
  }

  /** The values of a list of numbers (0 standing in for NaN). */
  function Values(s: seq<Number>): (r: seq<real>)
    ensures |r| == |s|
    ensures forall i :: 0 <= i < |s| ==> r[i] == if s[i].Num? then s[i].value else 0.0
  {
    seq(|s|, i requires 0 <= i < |s| => if s[i].Num? then s[i].value else 0.0)
  }

  /** One NaN in the list makes the sum NaN; otherwise the sum is the sum of the values. */
  lemma {:induction false} NumberSumMeaning(s: seq<Number>)
    ensures NumberSum(s).NaN? <==> exists i :: 0 <= i < |s| && s[i].NaN?
    ensures NumberSum(s).Num? ==> NumberSum(s).value == Sum(Values(s))
  {
    if s != [] {
      var prefix := s[..|s| - 1];
      NumberSumMeaning(prefix);
      assert Values(s)[..|s| - 1] == Values(prefix);
      if exists i :: 0 <= i < |prefix| && prefix[i].NaN? {
        var i :| 0 <= i < |prefix| && prefix[i].NaN?;
        assert s[i].NaN?;
      }
      if exists i :: 0 <= i < |s| && s[i].NaN? {
        var i :| 0 <= i < |s| && s[i].NaN?;
        if i < |s| - 1 {
          assert prefix[i].NaN?;
        }
      }
    }
  }

  /** The amount `formatCurrency` renders: it shows NaN as 0 (src/utils/formatters.js). */
  function FormattedAmount(n: Number): real {
    match n
    case NaN => 0.0
    case Num(x) => x
  }

  /** `liabilities` and `totalDebt`: the formatted debt sum, `formatCurrency(0)` for no debts. */
  function DebtTotal(eng: Engine, debts: Option<seq<RawDebt>>): real {
    if debts.Some? && |debts.value| > 0 then FormattedAmount(NumberSum(DebtBalances(eng, debts.value)))
    else 0.0
  }

  /** The debt total is the sum of the balances when all parse, and shows as 0 when one does not. */
  lemma DebtTotalMeaning(eng: Engine, debts: seq<RawDebt>)
    ensures (exists i :: 0 <= i < |debts| && DebtBalances(eng, debts)[i].NaN?)
            ==> DebtTotal(eng, Some(debts)) == 0.0
    ensures (forall i :: 0 <= i < |debts| ==> DebtBalances(eng, debts)[i].Num?)
            ==> DebtTotal(eng, Some(debts)) == Sum(Values(DebtBalances(eng, debts)))
  {
    NumberSumMeaning(DebtBalances(eng, debts));
  }
}
