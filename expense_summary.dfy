/**
 * The expense metrics of the user context: the latest month that has a dated
 * expense, the per-category totals of that month, the all-time per-category totals
 * and the top spending category.
 */
module ExpenseSummary {
  import opened Wrappers
  import opened Js
  import opened Seqs
  import opened Text
  import opened Dictionary
  import opened Records
  import opened Numeric

  /** `exp.expense_category || 'Uncategorized'`. */
  function CategoryOf(e: RawExpense): string {
    TextOr(e.expense_category, "Uncategorized")
  }

  /** The valid date of an expense: `exp.timestamp ? new Date(exp.timestamp) : null`, kept when valid. */
  function DateOf(e: RawExpense): Option<ParsedDate> {
    if Truthy(e.timestamp) then e.parsedDate else None
  }

  predicate IsDated(e: RawExpense) {
    DateOf(e).Some?
  }

  /** The (category, amount) pair each expense contributes to a summary. */
  function Items(eng: Engine, exps: seq<RawExpense>): (r: seq<(string, real)>)
    ensures |r| == |exps|
    ensures forall i :: 0 <= i < |exps| ==> r[i] == (CategoryOf(exps[i]), AmountOrZero(eng, exps[i].monthly_amount))
  {
    seq(|exps|, i requires 0 <= i < |exps| => (CategoryOf(exps[i]), AmountOrZero(eng, exps[i].monthly_amount)))
  }

  /** The reduce step: `acc[category] = (acc[category] || 0) + amount`. */
  function Accumulate(acc: Dict<real>, item: (string, real)): (r: Dict<real>)
    requires acc.Valid()
    ensures r.Valid()
  {
    acc.Put(item.0, (if item.0 in acc.values then acc.values[item.0] else 0.0) + item.1)
  }

  /** `items.reduce(step, {})`. */
  function Summarize(items: seq<(string, real)>): (r: Dict<real>)
    ensures r.Valid()
  {
    if items == [] then Empty() else Accumulate(Summarize(items[..|items| - 1]), items[|items| - 1])
  }

  /** The reference total: the amounts of every item with key `k`, added up. */
  function SumFor(items: seq<(string, real)>, k: string): real {
    if items == [] then 0.0
    else SumFor(items[..|items| - 1], k) + (if items[|items| - 1].0 == k then items[|items| - 1].1 else 0.0)
  }

  /**
   * A summary has one key per distinct category, in order of first appearance, and
   * maps each to the total of that category's amounts.
   */
  lemma {:induction false} SummarizeMeaning(items: seq<(string, real)>)
    ensures Summarize(items).keys == Dedup(FirstOf(items))
    ensures forall k :: k in Summarize(items).values ==> Summarize(items).values[k] == SumFor(items, k)
  {
    if items != [] {
      var prefix := items[..|items| - 1];
      var last := items[|items| - 1];
      SummarizeMeaning(prefix);
      assert FirstOf(items)[..|items| - 1] == FirstOf(prefix);
      var before := Summarize(prefix);
      forall k | k in Summarize(items).values
        ensures Summarize(items).values[k] == SumFor(items, k)
      {
        if k != last.0 {
          assert k in before.values;
        } else if k !in before.values {
          assert k !in Dedup(FirstOf(prefix));
          SumForAbsent(prefix, k);
        }
      }
    }
  }

  /** A key that no item carries totals 0. */
  lemma {:induction false} SumForAbsent(items: seq<(string, real)>, k: string)
    requires k !in FirstOf(items)
    ensures SumFor(items, k) == 0.0
  {
    if items != [] {
      var prefix := items[..|items| - 1];
      assert FirstOf(items)[..|items| - 1] == FirstOf(prefix);
      assert forall x :: x in FirstOf(prefix) ==> x in FirstOf(items);
      SumForAbsent(prefix, k);
    }
  }

  /** The reduce, written as the loop it runs. */
  method SummarizeByCategory(items: seq<(string, real)>) returns (acc: Dict<real>)
    ensures acc == Summarize(items)
  {
    acc := Empty();
    var i := 0;
    while i < |items|
      invariant 0 <= i <= |items|
      invariant acc == Summarize(items[..i])
    {
      var next := items[..i + 1];
      assert next[..|next| - 1] == items[..i] && next[|next| - 1] == items[i];
      assert Summarize(next) == Accumulate(acc, items[i]);
      var category := items[i].0;
      var previous := if category in acc.values then acc.values[category] else 0.0;
      acc := acc.Put(category, previous + items[i].1);
      i := i + 1;
    }
    assert items[..i] == items;
  }

  /** Chronological order of months. */
  predicate NotAfter(a: YearMonth, b: YearMonth) {
    a.year < b.year || (a.year == b.year && a.month <= b.month)
  }

  /** `getTime()` of a dated expense (0 for an undated one, which is never asked). */
  function TimeOf(e: RawExpense): int {
    if IsDated(e) then DateOf(e).value.time else 0
  }

  /** The local year and month of a dated expense. */
  function MonthOf(e: RawExpense): YearMonth {
    if IsDated(e) then DateOf(e).value.ym else YearMonth(0, 0)
  }

  /** `expensesWithDates`: the validly dated expenses, in their order. */
  function Dated(exps: seq<RawExpense>): seq<RawExpense> {
    Filter(exps, IsDated)
  }

  /** Newest first: no expense is newer than one before it. */
  predicate NewestFirst(s: seq<RawExpense>) {
    forall i, j :: 0 <= i < j < |s| ==> TimeOf(s[i]) >= TimeOf(s[j])
  }

  /** Places `e` before the first expense that is not newer, so equal times keep their order. */
  function InsertNewest(e: RawExpense, s: seq<RawExpense>): (r: seq<RawExpense>)
    requires NewestFirst(s)
    ensures NewestFirst(r)
    ensures multiset(r) == multiset(s) + multiset{e}
    ensures r != [] && (r[0] == e || (s != [] && r[0] == s[0]))
  {
    if s == [] || TimeOf(s[0]) <= TimeOf(e) then [e] + s
    else
      var rest := InsertNewest(e, s[1..]);
      assert s == [s[0]] + s[1..];
      RestNotNewer(e, s, rest);
      [s[0]] + rest
  }

  /** What `InsertNewest` puts after the head of `s` is no newer than that head. */
  lemma RestNotNewer(e: RawExpense, s: seq<RawExpense>, rest: seq<RawExpense>)
    requires NewestFirst(s) && s != [] && TimeOf(e) < TimeOf(s[0])
    requires multiset(rest) == multiset(s[1..]) + multiset{e}
    ensures forall x :: x in rest ==> TimeOf(x) <= TimeOf(s[0])
  {
    forall x | x in rest
      ensures TimeOf(x) <= TimeOf(s[0])
    {
      assert x in multiset(rest);
      if x != e {
        assert x in multiset(s[1..]);
        var j :| 0 <= j < |s[1..]| && s[1..][j] == x;
        assert s[j + 1] == x;
      }
    }
  }

  /** The head of a newest-first list is at least as new as every member. */
  lemma HeadIsNewest(s: seq<RawExpense>)
    requires NewestFirst(s) && s != []
    ensures forall x :: x in s ==> TimeOf(x) <= TimeOf(s[0])
  {
    forall x | x in s
      ensures TimeOf(x) <= TimeOf(s[0])
    {
      var j :| 0 <= j < |s| && s[j] == x;
      if j > 0 {
        assert TimeOf(s[0]) >= TimeOf(s[j]);
      }
    }
  }

  /**
   * `expensesWithDates.sort((a, b) => b.date.getTime() - a.date.getTime())`: a newest-first
   * permutation; `Array.prototype.sort` is stable, and so is this insertion sort.
   */
  function SortNewestFirst(s: seq<RawExpense>): (r: seq<RawExpense>)
    ensures NewestFirst(r)
    ensures multiset(r) == multiset(s)
  {
    if s == [] then []
    else
      assert s == [s[0]] + s[1..];
      InsertNewest(s[0], SortNewestFirst(s[1..]))
  }

  /** A list already newest first is left as it is: ties are never reordered. */
  lemma {:induction false} SortKeepsNewestFirst(s: seq<RawExpense>)
    requires NewestFirst(s)
    ensures SortNewestFirst(s) == s
  {
    if s != [] {
      SortKeepsNewestFirst(s[1..]);
      assert s == [s[0]] + s[1..];
    }
  }

  /** The tail of a newest-first list is newest first. */
  lemma NewestFirstTail(s: seq<RawExpense>)
    requires NewestFirst(s) && s != []
    ensures NewestFirst(s[1..])
  {
    forall i, j | 0 <= i < j < |s[1..]|
      ensures TimeOf(s[1..][i]) >= TimeOf(s[1..][j])
    {
      assert s[1..][i] == s[i + 1] && s[1..][j] == s[j + 1];
    }
  }

  /**
   * Inserting an expense does not reorder the expenses of any one time: among those
   * with time `t` the order is that of `[e] + s`.
   */
  lemma {:induction false} InsertKeepsTies(e: RawExpense, s: seq<RawExpense>, t: int, p: RawExpense -> bool)
    requires NewestFirst(s)
    requires forall x :: p(x) <==> TimeOf(x) == t
    ensures Filter(InsertNewest(e, s), p) == Filter([e] + s, p)
  {
    if s == [] || TimeOf(s[0]) <= TimeOf(e) {
      assert InsertNewest(e, s) == [e] + s;
    } else {
      NewestFirstTail(s);
      var rest := InsertNewest(e, s[1..]);
      assert InsertNewest(e, s) == [s[0]] + rest;
      InsertKeepsTies(e, s[1..], t, p);
      FilterCons([s[0]] + rest, p);
      assert ([s[0]] + rest)[1..] == rest;
      FilterCons([e] + s, p);
      assert ([e] + s)[1..] == s;
      FilterCons(s, p);
      FilterCons([e] + s[1..], p);
      assert ([e] + s[1..])[1..] == s[1..];
      if p(s[0]) {
        assert !p(e);
      }
    }
  }

  /**
   * The sort is stable: the expenses of any one time come out in their input order,
   * as with `Array.prototype.sort`.
   */
  lemma {:induction false} SortIsStable(s: seq<RawExpense>, t: int, p: RawExpense -> bool)
    requires forall x :: p(x) <==> TimeOf(x) == t
    ensures Filter(SortNewestFirst(s), p) == Filter(s, p)
  {
    if s != [] {
      var sorted := SortNewestFirst(s[1..]);
      assert SortNewestFirst(s) == InsertNewest(s[0], sorted);
      InsertKeepsTies(s[0], sorted, t, p);
      SortIsStable(s[1..], t, p);
      FilterCons([s[0]] + sorted, p);
      assert ([s[0]] + sorted)[1..] == sorted;
      FilterCons(s, p);
    }
  }

  /** The dated expenses after the in-place sort. */
  function NewestDated(exps: seq<RawExpense>): seq<RawExpense> {
    SortNewestFirst(Dated(exps))
  }

  /** The month of `expensesWithDates[0]` after the sort; None when no expense is dated. */
  function LatestMonth(exps: seq<RawExpense>): Option<YearMonth> {
    var sorted := NewestDated(exps);
    if sorted == [] then None else Some(MonthOf(sorted[0]))
  }

  /** The local calendar never runs backwards: a later time is not in an earlier month. */
  predicate CalendarAgrees(exps: seq<RawExpense>) {
    forall a, b :: a in exps && b in exps && IsDated(a) && IsDated(b) && TimeOf(a) <= TimeOf(b) ==>
      NotAfter(MonthOf(a), MonthOf(b))
  }

  /** The sorted list holds exactly the dated expenses. */
  lemma NewestDatedMembers(exps: seq<RawExpense>)
    ensures forall e :: e in NewestDated(exps) <==> e in exps && IsDated(e)
  {
    var d := Dated(exps);
    var sorted := NewestDated(exps);
    forall e ensures e in sorted <==> e in d {
      assert e in sorted <==> e in multiset(sorted);
    }
  }

  /**
   * None exactly when nothing is dated. Otherwise it is the month of a dated expense with
   * the greatest time; when the calendar agrees with time, no dated expense is in a later month.
   */
  lemma LatestMonthMeaning(exps: seq<RawExpense>)
    ensures LatestMonth(exps).None? <==> forall e :: e in exps ==> !IsDated(e)
    ensures LatestMonth(exps).Some? ==>
      exists e :: e in exps && IsDated(e) && MonthOf(e) == LatestMonth(exps).value
        && forall x :: x in exps && IsDated(x) ==> TimeOf(x) <= TimeOf(e)
    ensures LatestMonth(exps).Some? && CalendarAgrees(exps) ==>
      forall e :: e in exps && IsDated(e) ==> NotAfter(MonthOf(e), LatestMonth(exps).value)
  {
    var sorted := NewestDated(exps);
    NewestDatedMembers(exps);
    if sorted != [] {
      assert sorted[0] in sorted;
      HeadIsNewest(sorted);
    } else {
      forall e | e in exps
        ensures !IsDated(e)
      {
        assert !(e in sorted);
      }
    }
  }

  /** `${year}-${String(month + 1).padStart(2, '0')}`. */
  function MonthKey(ym: YearMonth): string {
    IntToString(ym.year) + "-" + PadStart2(NatToString(ym.month + 1))
  }

  /** The key ends in two digits that read back as the one-based month. */
  lemma MonthKeyMeaning(ym: YearMonth)
    ensures var k := MonthKey(ym);
      |k| >= 4 && k[..|k| - 3] == IntToString(ym.year) && k[|k| - 3] == '-'
      && IsDigit(k[|k| - 2]) && IsDigit(k[|k| - 1]) && DigitsValue(k[|k| - 2..]) == ym.month + 1
  {
    var m := NatToString(ym.month + 1);
    var p := PadStart2(m);
    NatToStringRoundTrip(ym.month + 1);
    var k := MonthKey(ym);
    assert k == IntToString(ym.year) + "-" + p;
    assert k[|k| - 2..] == p;
    if |m| == 1 {
      assert p == "0" + m;
      assert p[..1] == "0";
      assert DigitsValue(p) == DigitsValue(p[..1]) * 10 + DigitsValue(m);
    }
  }

  predicate InMonth(e: RawExpense, ym: YearMonth) {
    IsDated(e) && MonthOf(e) == ym
  }

  /** `latestMonthForSummary`. */
  function LatestMonthKey(exps: Option<seq<RawExpense>>): Option<string> {
    if exps.None? then None
    else match LatestMonth(exps.value)
      case None => None
      case Some(ym) => Some(MonthKey(ym))
  }

  /** `latestMonthExpenses`: the sorted dated expenses of the latest month, newest first. */
  function LatestMonthExpenses(exps: seq<RawExpense>): seq<RawExpense> {
    match LatestMonth(exps)
    case None => []
    case Some(ym) => Filter(NewestDated(exps), e => InMonth(e, ym))
  }

  /** Keeping some expenses of a newest-first list leaves it newest first. */
  lemma {:induction false} FilterKeepsNewestFirst(s: seq<RawExpense>, p: RawExpense -> bool)
    requires NewestFirst(s)
    ensures NewestFirst(Filter(s, p))
  {
    if s != [] {
      FilterCons(s, p);
      var rest := Filter(s[1..], p);
      assert NewestFirst(s[1..]) by {
        forall i, j | 0 <= i < j < |s[1..]|
          ensures TimeOf(s[1..][i]) >= TimeOf(s[1..][j])
        {
          assert s[1..][i] == s[i + 1] && s[1..][j] == s[j + 1];
        }
      }
      FilterKeepsNewestFirst(s[1..], p);
      if p(s[0]) {
        HeadIsNewest(s);
        var r := [s[0]] + rest;
        forall i, j | 0 <= i < j < |r|
          ensures TimeOf(r[i]) >= TimeOf(r[j])
        {
          assert r[j] == rest[j - 1];
          if i == 0 {
            assert rest[j - 1] in s[1..];
            assert rest[j - 1] in s;
          } else {
            assert r[i] == rest[i - 1];
          }
        }
      }
    }
  }

  /** `expenseSummaryForLatestMonth`. */
  function LatestMonthSummary(eng: Engine, exps: Option<seq<RawExpense>>): Dict<real> {
    if exps.None? then Empty() else Summarize(Items(eng, LatestMonthExpenses(exps.value)))
  }

  /** `expenseSummary`: every expense counts, dated or not, in the response's order. */
  function AllTimeSummary(eng: Engine, exps: Option<seq<RawExpense>>): Dict<real> {
    if exps.Some? && |exps.value| > 0 then Summarize(Items(eng, exps.value)) else Empty()
  }

  /**
   * The latest-month summary covers exactly the expenses dated in the latest month, taken
   * newest first, so its keys come in the order their newest expense has.
   */
  lemma LatestMonthSummaryMeaning(eng: Engine, exps: seq<RawExpense>)
    ensures forall e :: e in LatestMonthExpenses(exps) <==>
      e in exps && IsDated(e) && LatestMonth(exps) == Some(MonthOf(e))
    ensures NewestFirst(LatestMonthExpenses(exps))
    ensures LatestMonthSummary(eng, Some(exps)).keys == Dedup(FirstOf(Items(eng, LatestMonthExpenses(exps))))
    ensures forall k :: k in LatestMonthSummary(eng, Some(exps)).values ==>
      LatestMonthSummary(eng, Some(exps)).values[k] == SumFor(Items(eng, LatestMonthExpenses(exps)), k)
  {
    SummarizeMeaning(Items(eng, LatestMonthExpenses(exps)));
    NewestDatedMembers(exps);
    if LatestMonth(exps).Some? {
      FilterKeepsNewestFirst(NewestDated(exps), e => InMonth(e, LatestMonth(exps).value));
    }
  }

  /** The categories of a summary are exactly the categories of its expenses. */
  lemma SummaryCategories(eng: Engine, exps: seq<RawExpense>)
    ensures forall k :: k in Summarize(Items(eng, exps)).keys <==> exists e :: e in exps && CategoryOf(e) == k
  {
    var items := Items(eng, exps);
    SummarizeMeaning(items);
    forall k ensures k in FirstOf(items) <==> exists e :: e in exps && CategoryOf(e) == k {
      if k in FirstOf(items) {
        var i :| 0 <= i < |items| && FirstOf(items)[i] == k;
        assert exps[i] in exps;
      }
      if exists e :: e in exps && CategoryOf(e) == k {
        var e :| e in exps && CategoryOf(e) == k;
        var i :| 0 <= i < |exps| && exps[i] == e;
        assert FirstOf(items)[i] == k;
      }
    }
  }

  /** Every category of the latest-month summary is also a category of the all-time summary. */
  lemma LatestKeysAreAllTimeKeys(eng: Engine, exps: seq<RawExpense>)
    ensures forall k :: k in LatestMonthSummary(eng, Some(exps)).keys ==> k in AllTimeSummary(eng, Some(exps)).keys
  {
    var latest := LatestMonthExpenses(exps);
    LatestMonthSummaryMeaning(eng, exps);
    SummaryCategories(eng, latest);
    SummaryCategories(eng, exps);
    if exps == [] {
      assert NewestDated(exps) == [];
    }
  }

  /** The index of the first largest value: where a stable descending sort puts its head. */
  function FirstMaxIndex(vals: seq<real>): (r: nat)
    requires |vals| > 0
    ensures r < |vals|
    ensures forall j :: 0 <= j < |vals| ==> vals[j] <= vals[r]
    ensures forall j :: 0 <= j < r ==> vals[j] < vals[r]
  {
    if |vals| == 1 then 0
    else
      var m := FirstMaxIndex(vals[..|vals| - 1]);
      if vals[|vals| - 1] > vals[m] then |vals| - 1 else m
  }

  function ValuesOf(d: Dict<real>): (r: seq<real>)
    requires d.Valid()
    ensures |r| == |d.keys|
    ensures forall i :: 0 <= i < |r| ==> r[i] == d.values[d.keys[i]]
  {
    seq(|d.keys|, i requires 0 <= i < |d.keys| => d.values[d.keys[i]])
  }

  /** `Object.entries(d).sort(([, a], [, b]) => b - a)[0][0]`. */
  function TopKey(d: Dict<real>): string
    requires d.Valid() && |d.keys| > 0
  {
    d.keys[FirstMaxIndex(ValuesOf(d))]
  }

  /** `topCategory`: the latest month's top, else the all-time top, else 'N/A'. */
  function TopCategory(latest: Dict<real>, allTime: Dict<real>): string
    requires latest.Valid() && allTime.Valid()
  {
    if |latest.keys| > 0 then TopKey(latest)
    else if |allTime.keys| > 0 then TopKey(allTime)
    else "N/A"
  }

  /** The key with the largest total; of several such keys, the one entered first. */
  predicate IsFirstLargest(d: Dict<real>, k: string)
    requires d.Valid()
  {
    exists i :: 0 <= i < |d.keys| && d.keys[i] == k
      && (forall j :: 0 <= j < |d.keys| ==> d.values[d.keys[j]] <= d.values[k])
      && (forall j :: 0 <= j < i ==> d.values[d.keys[j]] < d.values[k])
  }

  /** The three-level fallback of the top spending category. */
  lemma TopCategoryFallback(latest: Dict<real>, allTime: Dict<real>)
    requires latest.Valid() && allTime.Valid()
    ensures |latest.keys| > 0 ==> IsFirstLargest(latest, TopCategory(latest, allTime))
    ensures |latest.keys| == 0 && |allTime.keys| > 0 ==> IsFirstLargest(allTime, TopCategory(latest, allTime))
    ensures |latest.keys| == 0 && |allTime.keys| == 0 ==> TopCategory(latest, allTime) == "N/A"
  {
    if |latest.keys| > 0 {
      var i := FirstMaxIndex(ValuesOf(latest));
      assert forall j :: 0 <= j < |latest.keys| ==> ValuesOf(latest)[j] == latest.values[latest.keys[j]];
    } else if |allTime.keys| > 0 {
      var i := FirstMaxIndex(ValuesOf(allTime));
      assert forall j :: 0 <= j < |allTime.keys| ==> ValuesOf(allTime)[j] == allTime.values[allTime.keys[j]];
    }
  }

  /** The latest-month summary is empty exactly when no expense has a valid date. */
  lemma LatestMonthSummaryEmptyIff(eng: Engine, exps: seq<RawExpense>)
    ensures |LatestMonthSummary(eng, Some(exps)).keys| == 0 <==> LatestMonth(exps).None?
  {
    var latest := LatestMonthExpenses(exps);
    LatestMonthSummaryMeaning(eng, exps);
    SummaryCategories(eng, latest);
    if LatestMonth(exps).Some? {
      LatestMonthMeaning(exps);
      var e :| e in exps && IsDated(e) && MonthOf(e) == LatestMonth(exps).value
        && forall x :: x in exps && IsDated(x) ==> TimeOf(x) <= TimeOf(e);
      assert e in latest;
      assert CategoryOf(e) in LatestMonthSummary(eng, Some(exps)).keys;
    }
  }

  /** The all-time summary is empty exactly when there are no expenses. */
  lemma AllTimeSummaryEmptyIff(eng: Engine, exps: Option<seq<RawExpense>>)
    ensures |AllTimeSummary(eng, exps).keys| == 0 <==> exps.None? || exps.value == []
  {
    if exps.Some? && exps.value != [] {
      SummaryCategories(eng, exps.value);
      assert CategoryOf(exps.value[0]) in AllTimeSummary(eng, exps).keys;
    }
  }

  /** `spendingHabit.topCategory` of a response's expenses. */
  function TopSpendingCategory(eng: Engine, exps: Option<seq<RawExpense>>): string {
    TopCategory(LatestMonthSummary(eng, exps), AllTimeSummary(eng, exps))
  }

  /**
   * The top category is the largest category of the latest month when some expense
   * has a valid date, else the largest category of all time when there are expenses,
   * else 'N/A'; ties go to the category met first.
   */
  lemma TopSpendingCategoryMeaning(eng: Engine, exps: Option<seq<RawExpense>>)
    ensures exps.Some? && LatestMonth(exps.value).Some? ==>
      IsFirstLargest(LatestMonthSummary(eng, exps), TopSpendingCategory(eng, exps))
    ensures exps.Some? && exps.value != [] && LatestMonth(exps.value).None? ==>
      IsFirstLargest(AllTimeSummary(eng, exps), TopSpendingCategory(eng, exps))
    ensures exps.None? || exps.value == [] ==> TopSpendingCategory(eng, exps) == "N/A"
  {
    var latest := LatestMonthSummary(eng, exps);
    var allTime := AllTimeSummary(eng, exps);
    TopCategoryFallback(latest, allTime);
    AllTimeSummaryEmptyIff(eng, exps);
    if exps.Some? {
      LatestMonthSummaryEmptyIff(eng, exps.value);
    } else {
      assert latest.keys == [];
    }
    if exps.Some? && exps.value == [] {
      assert NewestDated(exps.value) == [];
    }
  }

  /** Two expenses that both pass a filter are both kept. */
  lemma FilterTwo(a: RawExpense, b: RawExpense, p: RawExpense -> bool)
    requires p(a) && p(b)
    ensures Filter([a, b], p) == [a, b]
  {
    FilterAll([a, b], p);
  }

  /** Two expenses, the second newer, swap places. */
  lemma SortTwo(a: RawExpense, b: RawExpense)
    requires TimeOf(a) < TimeOf(b)
    ensures SortNewestFirst([a, b]) == [b, a]
  {
    assert [a, b][1..] == [b];
    assert [b][1..] == [];
    assert SortNewestFirst([b]) == [b];
  }

  /** Two expenses of one month, the second newer: the latest month holds both, newest first. */
  lemma LatestOfTwo(older: RawExpense, newer: RawExpense)
    requires IsDated(older) && IsDated(newer) && MonthOf(older) == MonthOf(newer)
    requires TimeOf(older) < TimeOf(newer)
    ensures LatestMonthExpenses([older, newer]) == [newer, older]
  {
    var exps := [older, newer];
    assert Dated(exps) == exps by {
      FilterTwo(older, newer, IsDated);
    }
    SortTwo(older, newer);
    assert NewestDated(exps) == [newer, older];
    var ym := MonthOf(newer);
    assert LatestMonth(exps) == Some(ym);
    FilterTwo(newer, older, e => InMonth(e, ym));
  }

  /** Two items of distinct categories: a summary holding both, in item order. */
  lemma SummarizeTwo(items: seq<(string, real)>)
    requires |items| == 2 && items[0].0 != items[1].0
    ensures Summarize(items).keys == [items[0].0, items[1].0]
    ensures Summarize(items).values == map[items[0].0 := items[0].1, items[1].0 := items[1].1]
  {
    var one := items[..1];
    assert one[..0] == [] && one[0] == items[0] && |one| == 1;
    var head := Summarize(one);
    assert head == Accumulate(Summarize([]), items[0]);
    assert head.keys == [items[0].0] && head.values == map[items[0].0 := items[0].1];
    assert Summarize(items) == head.Put(items[1].0, 0.0 + items[1].1);
  }

  /** Of two keys with equal totals, the top key is the one entered first. */
  lemma TopOfEqualPair(d: Dict<real>)
    requires d.Valid() && |d.keys| == 2 && d.values[d.keys[0]] == d.values[d.keys[1]]
    ensures TopKey(d) == d.keys[0]
  {
    var vals := ValuesOf(d);
    assert vals[0] == vals[1];
  }

  /**
   * Two expenses of the same month and amount, in the response's order: the newer one is
   * summarised first.
   */
  lemma NewerExpenseSummarisedFirst(eng: Engine, older: RawExpense, newer: RawExpense)
    requires IsDated(older) && IsDated(newer) && MonthOf(older) == MonthOf(newer)
    requires TimeOf(older) < TimeOf(newer)
    requires CategoryOf(older) != CategoryOf(newer)
    requires AmountOrZero(eng, older.monthly_amount) == AmountOrZero(eng, newer.monthly_amount)
    ensures var latest := LatestMonthSummary(eng, Some([older, newer]));
      var x := AmountOrZero(eng, newer.monthly_amount);
      latest.keys == [CategoryOf(newer), CategoryOf(older)]
      && latest.values == map[CategoryOf(newer) := x, CategoryOf(older) := x]
  {
    LatestOfTwo(older, newer);
    var sorted := LatestMonthExpenses([older, newer]);
    assert |sorted| == 2 && sorted[0] == newer && sorted[1] == older;
    SummarizeTwo(Items(eng, sorted));
  }

  /** So the newer expense's category wins the tie for the top spending category. */
  lemma NewerExpenseWinsTie(eng: Engine, older: RawExpense, newer: RawExpense)
    requires IsDated(older) && IsDated(newer) && MonthOf(older) == MonthOf(newer)
    requires TimeOf(older) < TimeOf(newer)
    requires CategoryOf(older) != CategoryOf(newer)
    requires AmountOrZero(eng, older.monthly_amount) == AmountOrZero(eng, newer.monthly_amount)
    ensures TopSpendingCategory(eng, Some([older, newer])) == CategoryOf(newer)
  {
    NewerExpenseSummarisedFirst(eng, older, newer);
    TopOfEqualPair(LatestMonthSummary(eng, Some([older, newer])));
  }
}
