/**
 * `transformGoals`: the `goals` object of the profile becomes a list of goals with
 * an id, a title and a description.
 */
module GoalTransform {
  import opened Wrappers
  import opened Js
  import opened Text
  import opened Records

  datatype Goal = Goal(id: string, title: Value, description: Value)

  /** What reading `value.title` on a null goal value throws, as V8 words it. */
  const NullGoalMessage := "Cannot read properties of null (reading 'title')"

  /** A character of the regular-expression class `\w`. */
  predicate IsWordChar(c: char) {
    'a' <= c <= 'z' || 'A' <= c <= 'Z' || IsDigit(c) || c == '_'
  }

  predicate IsLower(c: char) {
    'a' <= c <= 'z'
  }

  /** `toUpperCase` on a `\w` character. */
  function Upper(c: char): (u: char)
    ensures IsWordChar(c) <==> IsWordChar(u)
    ensures !IsLower(u)
    ensures IsLower(c) ==> u as int == c as int - 32
    ensures !IsLower(c) ==> u == c
  {
    if IsLower(c) then (c as int - 'a' as int + 'A' as int) as char else c
  }

  /** Position `i` matches `\b\w`: a word character not preceded by one. */
  predicate AtWordStart(s: string, i: int)
    requires 0 <= i < |s|
  {
    IsWordChar(s[i]) && (i == 0 || !IsWordChar(s[i - 1]))
  }

  /** `s.replace(/_/g, ' ')`. */
  function Spaces(s: string): (r: string)
    ensures |r| == |s|
    ensures forall i :: 0 <= i < |s| ==> r[i] == if s[i] == '_' then ' ' else s[i]
  {
    seq(|s|, i requires 0 <= i < |s| => if s[i] == '_' then ' ' else s[i])
  }

  /** `s.replace(/\b\w/g, l => l.toUpperCase())`. */
  function Capitalize(s: string): (r: string)
    ensures |r| == |s|
    ensures forall i :: 0 <= i < |s| ==> r[i] == if AtWordStart(s, i) then Upper(s[i]) else s[i]
  {
    seq(|s|, i requires 0 <= i < |s| => if AtWordStart(s, i) then Upper(s[i]) else s[i])
  }

  /** The title of a goal given as a plain string: its key with words spaced and capitalised. */
  function Humanize(key: string): string {
    Capitalize(Spaces(key))
  }

  /**
   * The title keeps the key's length, has a space for every underscore, begins every
   * word with the key's own character upper-cased, and leaves every other character as
   * it was.
   */
  lemma HumanizeMeaning(key: string)
    ensures |Humanize(key)| == |key|
    ensures forall i :: 0 <= i < |key| ==> (key[i] == '_' <==> Humanize(key)[i] == ' ' && key[i] != ' ')
    ensures forall i :: 0 <= i < |key| ==> Humanize(key)[i] != '_'
    ensures forall i :: 0 <= i < |key| && AtWordStart(Humanize(key), i) ==> !IsLower(Humanize(key)[i])
    ensures forall i :: 0 <= i < |key| && AtWordStart(Humanize(key), i) ==> key[i] != '_' && Humanize(key)[i] == Upper(key[i])
    ensures forall i :: 0 <= i < |key| && !AtWordStart(Humanize(key), i) && key[i] != '_' ==> Humanize(key)[i] == key[i]
  {
    var s := Spaces(key);
    var h := Humanize(key);
    forall i | 0 <= i < |key|
      ensures AtWordStart(h, i) <==> AtWordStart(s, i)
    {
    }
  }

  /** Titles are already humanised: humanising again changes nothing. */
  lemma HumanizeIdempotent(key: string)
    ensures Humanize(Humanize(key)) == Humanize(key)
  {
    var h := Humanize(key);
    var s := Spaces(key);
    assert Spaces(h) == h;
    forall i | 0 <= i < |h|
      ensures AtWordStart(h, i) <==> AtWordStart(s, i)
    {
    }
  }

  /** The goal one entry of the object yields; a null value makes the transform throw. */
  function GoalOf(eng: Engine, key: string, v: GoalValue): (r: Result<Goal>)
    ensures r.Ok? ==> r.value.id == key
    ensures r.Err? <==> v == GoalScalar(Null)
  {
    match v
    case GoalRecord(title, description) =>
      if Truthy(title) && Truthy(description) then Ok(Goal(key, title, description))
      else Ok(Goal(key, Str("Goal Detail"), Str("[object Object]")))
    case GoalScalar(x) =>
      match x
      case Null => Err(NullGoalMessage)
      case Str(s) => Ok(Goal(key, Str(Humanize(key)), Str(s)))
      case _ => Ok(Goal(key, Str("Goal Detail"), Str(ToString(eng, x))))
  }

  /** `Object.entries(goals).map(...)`: the first null value aborts with its error. */
  function GoalList(eng: Engine, entries: seq<(string, GoalValue)>): (r: Result<seq<Goal>>)
    ensures r.Ok? <==> forall i :: 0 <= i < |entries| ==> entries[i].1 != GoalScalar(Null)
    ensures r.Err? ==> r.message == NullGoalMessage
    ensures r.Ok? ==> |r.value| == |entries|
    ensures r.Ok? ==> forall i :: 0 <= i < |r.value| ==>
      r.value[i].id == entries[i].0 && GoalOf(eng, entries[i].0, entries[i].1) == Ok(r.value[i])
  {
    if entries == [] then Ok([])
    else
      var rest := GoalList(eng, entries[1..]);
      match GoalOf(eng, entries[0].0, entries[0].1)
      case Err(m) => Err(m)
      case Ok(g) =>
        if rest.Err? then Err(rest.message)
        else
          assert forall i :: 1 <= i < |entries| ==> entries[i] == entries[1..][i - 1];
          Ok([g] + rest.value)
  }

  /**
   * `transformGoals(goals)`: anything but an object, or an empty object, gives `[]`; an
   * object gives one goal per entry, in order, unless one of its values is null.
   */
  function TransformGoals(eng: Engine, goals: Goals): (r: Result<seq<Goal>>)
    ensures goals.GoalsScalar? || goals == GoalsObject([]) ==> r == Ok([])
    ensures r.Err? <==> goals.GoalsObject? && exists i :: 0 <= i < |goals.entries| && goals.entries[i].1 == GoalScalar(Null)
    ensures r.Ok? && goals.GoalsObject? ==> |r.value| == |goals.entries|
    ensures r.Ok? && goals.GoalsObject? ==> forall i :: 0 <= i < |r.value| ==> r.value[i].id == goals.entries[i].0
  {
    match goals
    case GoalsScalar(_) => Ok([])
    case GoalsObject(entries) => GoalList(eng, entries)
  }

  /**
   * A goal value that is a string becomes the description under the humanised key;
   * a nested object with a title and a description keeps both; any other value is
   * shown as a "Goal Detail".
   */
  lemma GoalShapes(eng: Engine, key: string, v: GoalValue)
    ensures v.GoalScalar? && v.v.Str? ==> GoalOf(eng, key, v) == Ok(Goal(key, Str(Humanize(key)), v.v))
    ensures v.GoalRecord? && Truthy(v.title) && Truthy(v.description) ==> GoalOf(eng, key, v) == Ok(Goal(key, v.title, v.description))
    ensures v.GoalRecord? && !(Truthy(v.title) && Truthy(v.description)) ==>
      GoalOf(eng, key, v) == Ok(Goal(key, Str("Goal Detail"), Str("[object Object]")))
    ensures v.GoalScalar? && !v.v.Str? && !v.v.Null? ==> GoalOf(eng, key, v).value == Goal(key, Str("Goal Detail"), Str(ToString(eng, v.v)))
  {
  }
}
