/**
 * The modal that adds or edits a financial-knowledge entry: its category options, its
 * level options, the level read back from an entry's "Level n" text, and the guarded
 * submit.
 */
module KnowledgeModal {
  import opened Wrappers
  import opened Js
  import opened Seqs
  import opened Text
  import opened Records
  import opened Forms

  /** The fallback categories as the source lists them. */
  const DefaultCategoryList: seq<string> :=
    ["Budgeting", "Investing", "Credit & Debt", "Retirement Planning", "Insurance", "Taxation", "Estate Planning"]

  /** The fallback after `.sort()`. */
  const DefaultCategories: seq<string> := Sort(DefaultCategoryList)

  /** The fallback holds the seven categories of the source list, strictly ascending. */
  lemma DefaultCategoriesSorted()
    ensures |DefaultCategories| == 7
    ensures multiset(DefaultCategories) == multiset(DefaultCategoryList)
    ensures StrictlySorted(DefaultCategories)
  {
    assert Distinct(DefaultCategoryList);
  }

  /** The level options: value and caption. */
  const KnowledgeLevels: seq<(int, string)> := [
    (1, "Level 1 (Beginner)"), (2, "Level 2 (Novice)"), (3, "Level 3 (Intermediate)"),
    (4, "Level 4 (Advanced)"), (5, "Level 5 (Expert)")]

  /** The options are exactly the levels 1 through 5, in order. */
  lemma KnowledgeLevelsAreOneToFive()
    ensures |KnowledgeLevels| == 5
    ensures forall i :: 0 <= i < |KnowledgeLevels| ==> KnowledgeLevels[i].0 == i + 1
  {
  }

  /** `[...new Set(categories)].sort()`, or the fallback when that is empty or the load failed. */
  function AvailableCategories(loaded: Option<seq<string>>): (r: seq<string>)
    ensures loaded.None? || loaded.value == [] ==> r == DefaultCategories
    ensures loaded.Some? && loaded.value != [] ==>
      StrictlySorted(r) && forall c :: c in r <==> c in loaded.value
  {
    if loaded.None? then DefaultCategories
    else
      var unique := Sort(Dedup(loaded.value));
      assert forall c :: c in unique <==> c in multiset(unique);
      assert loaded.value != [] ==> loaded.value[0] in loaded.value;
      if unique != [] then unique else DefaultCategories
  }

  /** The length of the run of digits at the start of `s`. */
  function DigitRun(s: string): (n: nat)
    ensures n <= |s|
    ensures forall i :: 0 <= i < n ==> IsDigit(s[i])
    ensures n < |s| ==> !IsDigit(s[n])
  {
    if s != [] && IsDigit(s[0]) then 1 + DigitRun(s[1..]) else 0
  }

  /** `s.match(/\d+/)`: the leftmost, longest run of digits. */
  function FirstDigits(s: string): (r: Option<string>)
    ensures r.Some? ==> r.value != [] && forall i :: 0 <= i < |r.value| ==> IsDigit(r.value[i])
    ensures r.None? <==> forall i :: 0 <= i < |s| ==> !IsDigit(s[i])
    ensures r.Some? ==> exists k :: MatchAt(s, k, r.value)
  {
    if s == [] then None
    else if IsDigit(s[0]) then
      var d := s[..DigitRun(s)];
      assert MatchAt(s, 0, d);
      Some(d)
    else
      var r := FirstDigits(s[1..]);
      assert forall i :: 1 <= i < |s| ==> s[i] == s[1..][i - 1];
      if r.Some? then
        var k :| MatchAt(s[1..], k, r.value);
        MatchAtTail(s, k, r.value);
        r
      else r
  }

  /** `d` occurs in `s` at `k`, no digit comes before it, and no digit follows it. */
  predicate MatchAt(s: string, k: nat, d: string) {
    k + |d| <= |s| && s[k..k + |d|] == d
    && (forall i :: 0 <= i < k ==> !IsDigit(s[i]))
    && (k + |d| < |s| ==> !IsDigit(s[k + |d|]))
  }

  /** A leftmost maximal match in the tail of `s`, after a non-digit, is one in `s`. */
  lemma MatchAtTail(s: string, k: nat, d: string)
    requires s != [] && !IsDigit(s[0]) && MatchAt(s[1..], k, d)
    ensures MatchAt(s, k + 1, d)
  {
    assert s[k + 1..k + 1 + |d|] == s[1..][k..k + |d|];
    forall i | 0 <= i < k + 1
      ensures !IsDigit(s[i])
    {
      if i > 0 {
        assert s[i] == s[1..][i - 1];
      }
    }
    if k + 1 + |d| < |s| {
      assert s[k + 1 + |d|] == s[1..][k + |d|];
    }
  }

  /** The form's level when editing: the first run of digits as an integer, or '' when there is none. */
  function LevelOf(level: Option<string>): Value {
    if level.None? then Str("")
    else match FirstDigits(level.value)
      case None => Str("")
      case Some(d) => Number(Num(DigitsValue(d) as real))
  }

  /** The text the user context gives a level, "Level n", reads back as `n`. */
  lemma LevelRoundTrip(n: nat)
    ensures LevelOf(Some("Level " + NatToString(n))) == Number(Num(n as real))
  {
    var digits := NatToString(n);
    var s := "Level " + digits;
    SkipNonDigits("Level ", digits);
    DigitRunAll(digits);
    assert digits[..DigitRun(digits)] == digits;
    assert FirstDigits(digits) == Some(digits);
    NatToStringRoundTrip(n);
  }

  /** A prefix without digits does not change the first run of digits. */
  lemma {:induction false} SkipNonDigits(p: string, s: string)
    requires forall i :: 0 <= i < |p| ==> !IsDigit(p[i])
    ensures FirstDigits(p + s) == FirstDigits(s)
  {
    if p != [] {
      assert (p + s)[0] == p[0];
      assert (p + s)[1..] == p[1..] + s;
      assert forall i :: 0 <= i < |p[1..]| ==> p[1..][i] == p[i + 1];
      SkipNonDigits(p[1..], s);
      assert FirstDigits(p + s) == FirstDigits((p + s)[1..]);
    } else {
      assert p + s == s;
    }
  }

  lemma {:induction false} DigitRunAll(s: string)
    requires forall i :: 0 <= i < |s| ==> IsDigit(s[i])
    ensures DigitRun(s) == |s|
  {
    if s != [] {
      DigitRunAll(s[1..]);
    }
  }

  /** The entry being edited, as the knowledge list passes it. */
  datatype KnowledgeItem = KnowledgeItem(category: Value, level: Option<string>)

  /** `Boolean(knowledgeItem && knowledgeItem.category)`. */
  predicate IsEditMode(item: Option<KnowledgeItem>) {
    item.Some? && Truthy(item.value.category)
  }

  /** The category select is disabled in edit mode and while the definitions load. */
  predicate CategoryDisabled(item: Option<KnowledgeItem>, definitionsLoading: bool) {
    IsEditMode(item) || definitionsLoading
  }

  datatype KnowledgeForm = KnowledgeForm(category: Value, level: Value)

  const EmptyForm := KnowledgeForm(Str(""), Str(""))

  /** The body of the save call: exactly the category and the level. */
  datatype KnowledgePayload = KnowledgePayload(category: Value, level: Value)

  const NoUserMessage := "User ID not found. Cannot save knowledge."
  const MissingFieldsMessage := "Category and Level are required."
  const SaveFailedMessage := "Failed to save knowledge. Please try again."

  datatype Field = CategoryField | LevelField

  class Modal {
    var form: KnowledgeForm
    var isLoading: bool
    var error: Option<string>
    /** What the last definitions load produced: None before the first load and after a failed one. */
    var lastLoad: Option<seq<string>>
    var definitionsLoading: bool

    /** The `availableCategories` state: always what the last load makes of it. */
    function CategoryOptions(): seq<string>
      reads this
    {
      AvailableCategories(lastLoad)
    }

    constructor()
      ensures form == EmptyForm && !isLoading && error.None?
      ensures lastLoad.None? && !definitionsLoading
    {
      form := EmptyForm;
      isLoading := false;
      error := None;
      lastLoad := None;
      definitionsLoading := false;
    }

    /** Before any load the options are the fallback categories. */
    lemma InitialOptions()
      requires lastLoad.None?
      ensures CategoryOptions() == DefaultCategories
    {
    }

    /** The effect when the modal opens: start loading the definitions and fill the form. */
    method Open(item: Option<KnowledgeItem>)
      modifies this
      ensures definitionsLoading && error.None?
      ensures CategoryDisabled(item, definitionsLoading)
      ensures IsEditMode(item) ==> form == KnowledgeForm(OrEmpty(item.value.category), LevelOf(item.value.level))
      ensures !IsEditMode(item) ==> form == EmptyForm
      ensures isLoading == old(isLoading) && lastLoad == old(lastLoad)
    {
      definitionsLoading := true;
      if IsEditMode(item) {
        form := KnowledgeForm(OrEmpty(item.value.category), LevelOf(item.value.level));
      } else {
        form := EmptyForm;
      }
      error := None;
    }

    /**
     * The definitions arrive (their categories) or fail to load (None); from then on the
     * category select is disabled only in edit mode.
     */
    method DefinitionsLoaded(loaded: Option<seq<string>>)
      modifies this
      ensures lastLoad == loaded && !definitionsLoading
      ensures forall item :: CategoryDisabled(item, definitionsLoading) <==> IsEditMode(item)
      ensures form == old(form) && isLoading == old(isLoading) && error == old(error)
    {
      lastLoad := loaded;
      definitionsLoading := false;
    }

    /** `handleChange`: a chosen level is stored as `parseInt(value, 10)`. */
    method Change(eng: Engine, field: Field, value: string)
      modifies this
      ensures field == CategoryField ==> form == old(form).(category := Str(value))
      ensures field == LevelField ==> form == old(form).(level := Number(eng.parseInt10(value)))
      ensures isLoading == old(isLoading) && error == old(error)
      ensures lastLoad == old(lastLoad) && definitionsLoading == old(definitionsLoading)
    {
      match field {
        case CategoryField => form := form.(category := Str(value));
        case LevelField => form := form.(level := Number(eng.parseInt10(value)));
      }
    }

    /**
     * `handleSubmit` up to the remote call. Without a user id, or with a blank category
     * or level, it stops with a message and calls nothing; otherwise it returns the
     * call, which saves exactly the category and the level, and stays loading.
     */
    method Submit(rawProfile: Option<RawProfile>) returns (call: Option<(Value, KnowledgePayload)>)
      modifies this
      ensures UserIdOf(rawProfile).None? ==> call.None? && error == Some(NoUserMessage) && !isLoading
      ensures UserIdOf(rawProfile).Some? && !(Truthy(form.category) && Truthy(form.level)) ==>
        call.None? && error == Some(MissingFieldsMessage) && !isLoading
      ensures UserIdOf(rawProfile).Some? && Truthy(form.category) && Truthy(form.level) ==>
        call == Some((UserIdOf(rawProfile).value, KnowledgePayload(form.category, form.level))) && error.None? && isLoading
      ensures form == old(form) && lastLoad == old(lastLoad)
      ensures definitionsLoading == old(definitionsLoading)
    {
      isLoading := true;
      error := None;
      var userId := UserIdOf(rawProfile);
      if userId.None? {
        error := Some(NoUserMessage);
        isLoading := false;
        return None;
      }
      if !Truthy(form.category) || !Truthy(form.level) {
        error := Some(MissingFieldsMessage);
        isLoading := false;
        return None;
      }
      return Some((userId.value, KnowledgePayload(form.category, form.level)));
    }

    /** The save call settles: `failure` is the thrown error's message, None on success. */
    method Settled(failure: Option<string>) returns (saved: bool)
      modifies this
      ensures saved <==> failure.None?
      ensures failure.Some? ==> error == Some(ErrorText(failure.value, SaveFailedMessage))
      ensures failure.None? ==> error == old(error)
      ensures !isLoading && form == old(form)
      ensures lastLoad == old(lastLoad) && definitionsLoading == old(definitionsLoading)
    {
      if failure.Some? {
        error := Some(ErrorText(failure.value, SaveFailedMessage));
      }
      isLoading := false;
      return failure.None?;
    }
  }
}
