/**
 * The financial-profile card: which values are worth showing, the slices of the
 * latest month's spending chart, and which sections, dividers and fallback text
 * the card renders.
 */
module FinancialProfile {
  import opened Wrappers
  import opened Js
  import opened Seqs
  import opened Text
  import opened Dictionary

  /** `isValidValue`: not null, undefined or 'N/A', and not blank once converted to a string. */
  predicate IsValidValue(eng: Engine, v: Value) {
    v != Null && v != Undefined && v != Str("N/A") && Trim(ToString(eng, v)) != ""
  }

  /** A value is hidden exactly when it is null, undefined, 'N/A' or all white space. */
  lemma IsValidValueIff(eng: Engine, v: Value)
    ensures !IsValidValue(eng, v) <==> v == Null || v == Undefined || v == Str("N/A") || IsBlank(ToString(eng, v))
  {
    TrimEmptyIff(ToString(eng, v));
  }

  /** One slice of the spending chart. */
  datatype Slice = Slice(name: string, value: real)

  function AbsReal(x: real): real {
    if x < 0.0 then -x else x
  }

  predicate IsPositive(s: Slice) {
    s.value > 0.0
  }

  /** Non-increasing by value. */
  predicate Descending(s: seq<Slice>) {
    forall i :: 0 < i < |s| ==> s[i - 1].value >= s[i].value
  }

  /** Places `x` before the first slice that is not larger, so equal values keep their order. */
  function InsertDesc(x: Slice, s: seq<Slice>): (r: seq<Slice>)
    requires Descending(s)
    ensures Descending(r)
    ensures multiset(r) == multiset(s) + multiset{x}
    ensures r[0] == x || (s != [] && r[0] == s[0])
  {
    if s == [] || s[0].value <= x.value then [x] + s
    else
      var rest := InsertDesc(x, s[1..]);
      assert s == [s[0]] + s[1..];
      [s[0]] + rest
  }

  /** `sort((a, b) => b.value - a.value)`: a descending permutation. */
  function SortDesc(s: seq<Slice>): (r: seq<Slice>)
    ensures Descending(r)
    ensures multiset(r) == multiset(s)
  {
    if s == [] then []
    else
      assert s == [s[0]] + s[1..];
      InsertDesc(s[0], SortDesc(s[1..]))
  }

  /** The entries of the summary with their absolute values. */
  function AbsEntries(d: Dict<real>): (r: seq<Slice>)
    requires d.Valid()
    ensures |r| == |d.keys|
    ensures forall i :: 0 <= i < |r| ==> r[i] == Slice(d.keys[i], AbsReal(d.values[d.keys[i]]))
  {
    seq(|d.keys|, i requires 0 <= i < |d.keys| => Slice(d.keys[i], AbsReal(d.values[d.keys[i]])))
  }

  /** `latestMonthExpenseData`: an absent summary draws no chart. */
  function PieSlices(summary: Option<Dict<real>>): seq<Slice>
    requires summary.Some? ==> summary.value.Valid()
  {
    if summary.None? then [] else SortDesc(Filter(AbsEntries(summary.value), IsPositive))
  }

  /** An absent summary draws no chart; there are never more slices than categories. */
  lemma PieSlicesBound(summary: Option<Dict<real>>)
    requires summary.Some? ==> summary.value.Valid()
    ensures summary.None? ==> PieSlices(summary) == []
    ensures summary.Some? ==> |PieSlices(summary)| <= |summary.value.keys|
  {
    if summary.Some? {
      var kept := Filter(AbsEntries(summary.value), IsPositive);
      var r := PieSlices(summary);
      assert |r| == |multiset(r)|;
      assert |kept| == |multiset(kept)|;
    }
  }

  /**
   * Each slice is a category of the summary with the absolute value of its total, and
   * strictly positive; the slices are in non-increasing order.
   */
  lemma PieSlicesSound(summary: Option<Dict<real>>)
    requires summary.Some? ==> summary.value.Valid()
    ensures Descending(PieSlices(summary))
    ensures summary.Some? ==> forall s :: s in PieSlices(summary) ==>
      s.value > 0.0 && s.name in summary.value.values && s.value == AbsReal(summary.value.values[s.name])
  {
    if summary.Some? {
      var d := summary.value;
      var entries := AbsEntries(d);
      var kept := Filter(entries, IsPositive);
      var r := PieSlices(summary);
      forall s | s in r
        ensures s.value > 0.0 && s.name in d.values && s.value == AbsReal(d.values[s.name])
      {
        assert s in multiset(r);
        assert s in multiset(kept);
        assert s in kept;
        assert s in entries;
      }
    }
  }

  /** Every category with a non-zero total has exactly one slice. */
  lemma PieSlicesComplete(summary: Dict<real>)
    requires summary.Valid()
    ensures forall k :: k in summary.values && summary.values[k] != 0.0 ==>
      multiset(PieSlices(Some(summary)))[Slice(k, AbsReal(summary.values[k]))] == 1
  {
    var entries := AbsEntries(summary);
    forall k | k in summary.values && summary.values[k] != 0.0
      ensures multiset(PieSlices(Some(summary)))[Slice(k, AbsReal(summary.values[k]))] == 1
    {
      var i :| 0 <= i < |summary.keys| && summary.keys[i] == k;
      DistinctOnce(entries, i);
      assert IsPositive(entries[i]);
    }
  }

  /** In a list with distinct names every element occurs once. */
  lemma {:induction false} DistinctOnce(e: seq<Slice>, i: int)
    requires 0 <= i < |e|
    requires forall a, b :: 0 <= a < b < |e| ==> e[a].name != e[b].name
    ensures multiset(e)[e[i]] == 1
  {
    var x := e[i];
    var p := e[..|e| - 1];
    assert e == p + [e[|e| - 1]];
    if i == |e| - 1 {
      forall j | 0 <= j < |p| ensures p[j] != x {
        assert p[j].name == e[j].name;
      }
      assert x !in p;
    } else {
      DistinctOnce(p, i);
      assert e[i].name != e[|e| - 1].name;
    }
  }

  /** A labelled value of the overview or habits lists. */
  datatype Item = Item(caption: string, value: Value)

  datatype SpendingView = SpendingView(
    topCategory: Value, style: Value,
    expenseSummaryForLatestMonth: Option<Dict<real>>, latestMonthForSummary: Value)

  datatype SavingsView = SavingsView(savingsRate: Value, emergencyFundStatus: Value)

  /** The `profile` prop: the snapshot's financial profile; the debts are counted only. */
  datatype ProfileView = ProfileView(
    netWorth: Value, assets: Value, savingsAmount: Value, liabilities: Value,
    totalDebt: Value, dti: Value, detailedDebtCount: Option<nat>,
    spendingHabit: Option<SpendingView>, savingsHabit: Option<SavingsView>)

  function OverviewItems(p: ProfileView): seq<Item> {
    [Item("Net Worth", p.netWorth), Item("Assets", p.assets), Item("Savings Amount", p.savingsAmount),
     Item("Liabilities", p.liabilities), Item("Total Debt", p.totalDebt), Item("Debt-to-Income (DTI)", p.dti)]
  }

  /** `profile.spendingHabit?.x` and `profile.savingsHabit?.x`: undefined when the habit is absent. */
  function HabitItems(p: ProfileView): seq<Item> {
    var s := p.spendingHabit;
    var v := p.savingsHabit;
    [Item("Top Spending Category", if s.Some? then s.value.topCategory else Undefined),
     Item("Spending Style", if s.Some? then s.value.style else Undefined),
     Item("Savings Rate", if v.Some? then v.value.savingsRate else Undefined),
     Item("Emergency Fund Status", if v.Some? then v.value.emergencyFundStatus else Undefined)]
  }

  function ValidItems(eng: Engine, items: seq<Item>): (r: seq<Item>)
    ensures IsSubsequence(r, items)
    ensures forall it :: it in r <==> it in items && IsValidValue(eng, it.value)
  {
    Filter(items, (it: Item) => IsValidValue(eng, it.value))
  }

  function ProfilePieSlices(p: ProfileView): seq<Slice>
    requires p.spendingHabit.Some? && p.spendingHabit.value.expenseSummaryForLatestMonth.Some? ==>
      p.spendingHabit.value.expenseSummaryForLatestMonth.value.Valid()
  {
    if p.spendingHabit.None? then [] else PieSlices(p.spendingHabit.value.expenseSummaryForLatestMonth)
  }

  /** What the card shows, top to bottom. */
  datatype Block = Loading | Overview | DebtAccounts | Habits | Distribution | Divider | NothingToShow

  predicate SummaryValid(p: ProfileView) {
    p.spendingHabit.Some? && p.spendingHabit.value.expenseSummaryForLatestMonth.Some? ==>
      p.spendingHabit.value.expenseSummaryForLatestMonth.value.Valid()
  }

  /**
   * The card body given which sections have content: overview `o`, debts `d`, habits
   * `h` and chart `c`, each divider under the condition the component tests.
   */
  function Layout(o: bool, d: bool, h: bool, c: bool): seq<Block> {
    (if o then [Overview] else [])
    + (if d then (if o then [Divider] else []) + [DebtAccounts] else [])
    + (if h then (if o || d then [Divider] else []) + [Habits] else [])
    + (if c then (if o || d || h then [Divider] else []) + [Distribution] else [])
    + (if !o && !d && !h && !c then [NothingToShow] else [])
  }

  /** The sections that have content, in card order. */
  function SectionList(o: bool, d: bool, h: bool, c: bool): seq<Block> {
    (if o then [Overview] else []) + (if d then [DebtAccounts] else [])
    + (if h then [Habits] else []) + (if c then [Distribution] else [])
  }

  /** `parts` with a separator between each two neighbours. */
  function Intersperse(parts: seq<Block>, sep: Block): seq<Block> {
    if |parts| <= 1 then parts else [parts[0], sep] + Intersperse(parts[1..], sep)
  }

  /**
   * The sections with content, a divider between each two of them (so a divider
   * precedes a section exactly when an earlier section is shown), and the fallback
   * message alone exactly when no section has content.
   */
  lemma LayoutMeaning(o: bool, d: bool, h: bool, c: bool)
    ensures SectionList(o, d, h, c) == [] ==> Layout(o, d, h, c) == [NothingToShow]
    ensures SectionList(o, d, h, c) != [] ==> Layout(o, d, h, c) == Intersperse(SectionList(o, d, h, c), Divider)
    ensures NothingToShow in Layout(o, d, h, c) <==> !o && !d && !h && !c
  {
    var s := SectionList(o, d, h, c);
    if |s| >= 2 {
      assert Intersperse(s, Divider) == [s[0], Divider] + Intersperse(s[1..], Divider);
      if |s| >= 3 {
        assert Intersperse(s[1..], Divider) == [s[1], Divider] + Intersperse(s[2..], Divider);
        if |s| == 4 {
          assert Intersperse(s[2..], Divider) == [s[2], Divider] + Intersperse(s[3..], Divider);
        }
      }
    }
  }

  /** Which blocks a layout holds: each section exactly when it has content, never the loading line. */
  lemma BlockInLayout(x: Block, o: bool, d: bool, h: bool, c: bool)
    requires x != Divider
    ensures x in Layout(o, d, h, c) <==>
      || (x == Overview && o) || (x == DebtAccounts && d) || (x == Habits && h)
      || (x == Distribution && c) || (x == NothingToShow && !o && !d && !h && !c)
  {
    var a := if o then [Overview] else [];
    var b := if d then (if o then [Divider] else []) + [DebtAccounts] else [];
    var e := if h then (if o || d then [Divider] else []) + [Habits] else [];
    var f := if c then (if o || d || h then [Divider] else []) + [Distribution] else [];
    var g := if !o && !d && !h && !c then [NothingToShow] else [];
    assert Layout(o, d, h, c) == a + b + e + f + g;
  }

  /** Some item survives the validity filter exactly when some item has a valid value. */
  lemma AnyValid(eng: Engine, items: seq<Item>)
    ensures |ValidItems(eng, items)| > 0 <==> exists it :: it in items && IsValidValue(eng, it.value)
  {
    var r := ValidItems(eng, items);
    if |r| > 0 {
      assert r[0] in r;
    }
  }

  /** The card: a loading line until a profile arrives, then the layout of its sections. */
  function Card(eng: Engine, profile: Option<ProfileView>): (r: seq<Block>)
    requires profile.Some? ==> SummaryValid(profile.value)
    ensures Loading in r <==> profile.None?
    ensures profile.None? ==> r == [Loading]
  {
    if profile.None? then [Loading]
    else
      var p := profile.value;
      var o := |ValidItems(eng, OverviewItems(p))| > 0;
      var d := p.detailedDebtCount.Some? && p.detailedDebtCount.value > 0;
      var h := |ValidItems(eng, HabitItems(p))| > 0;
      var c := |ProfilePieSlices(p)| > 0;
      BlockInLayout(Loading, o, d, h, c);
      Layout(o, d, h, c)
  }

  /**
   * Once a profile has arrived, the overview shows exactly when one of its values is
   * valid, the habits likewise, and the fallback message exactly when no section has
   * anything to show.
   */
  lemma CardShows(eng: Engine, p: ProfileView)
    requires SummaryValid(p)
    ensures Overview in Card(eng, Some(p)) <==> exists it :: it in OverviewItems(p) && IsValidValue(eng, it.value)
    ensures Habits in Card(eng, Some(p)) <==> exists it :: it in HabitItems(p) && IsValidValue(eng, it.value)
    ensures NothingToShow in Card(eng, Some(p)) <==>
      (forall it :: it in OverviewItems(p) ==> !IsValidValue(eng, it.value))
      && (p.detailedDebtCount.None? || p.detailedDebtCount.value == 0)
      && (forall it :: it in HabitItems(p) ==> !IsValidValue(eng, it.value))
      && ProfilePieSlices(p) == []
  {
    AnyValid(eng, OverviewItems(p));
    AnyValid(eng, HabitItems(p));
    var o := |ValidItems(eng, OverviewItems(p))| > 0;
    var d := p.detailedDebtCount.Some? && p.detailedDebtCount.value > 0;
    var h := |ValidItems(eng, HabitItems(p))| > 0;
    var c := |ProfilePieSlices(p)| > 0;
    assert Card(eng, Some(p)) == Layout(o, d, h, c);
    BlockInLayout(Overview, o, d, h, c);
    BlockInLayout(Habits, o, d, h, c);
    BlockInLayout(NothingToShow, o, d, h, c);
  }
}
