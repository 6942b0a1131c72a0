/**
 * `transformFinancialKnowledge`: the knowledge records of the response become an
 * object keyed by category, each entry holding the displayed level, the description
 * and the category name the API knows it by.
 */
module KnowledgeTransform {
  import opened Wrappers
  import opened Js
  import opened Text
  import opened Dictionary
  import opened Records

  datatype KnowledgeView = KnowledgeView(level: string, description: Value, apiCategory: string)

  /** The entry one record produces: `{ level: 'Level ' + level, description, apiCategory: category }`. */
  function ViewOf(item: RawKnowledge): KnowledgeView {
    KnowledgeView("Level " + IntToString(item.level), item.description, item.category)
  }

  /** The categories of the records, in order. */
  function Categories(list: seq<RawKnowledge>): (r: seq<string>)
    ensures |r| == |list|
    ensures forall i :: 0 <= i < |list| ==> r[i] == list[i].category
  {
    seq(|list|, i requires 0 <= i < |list| => list[i].category)
  }

  /** The `reduce` over the records: each record assigns its category's entry. */
  function Knowledge(list: seq<RawKnowledge>): (r: Dict<KnowledgeView>)
    ensures r.Valid()
  {
    if list == [] then Empty()
    else Knowledge(list[..|list| - 1]).Put(list[|list| - 1].category, ViewOf(list[|list| - 1]))
  }

  /**
   * `transformFinancialKnowledge(list)`: a missing, non-array or empty list gives `{}`;
   * otherwise there is one entry for each category that some record has.
   */
  function TransformKnowledge(list: Option<seq<RawKnowledge>>): (r: Dict<KnowledgeView>)
    ensures r.Valid()
    ensures forall k :: k in r.values <==> list.Some? && exists i :: 0 <= i < |list.value| && list.value[i].category == k
  {
    if list.None? || list.value == [] then Empty()
    else
      KnowledgeMeaning(list.value);
      assert forall k :: k in Categories(list.value) ==> exists i :: 0 <= i < |list.value| && list.value[i].category == k;
      Knowledge(list.value)
  }

  /** The reference: the last record of a category, if any. */
  function LastWith(list: seq<RawKnowledge>, k: string): Option<RawKnowledge> {
    if list == [] then None
    else if list[|list| - 1].category == k then Some(list[|list| - 1])
    else LastWith(list[..|list| - 1], k)
  }

  /**
   * One entry per distinct category, in order of first appearance; the entry shows
   * the last record of that category, so a later record overrides an earlier one.
   */
  lemma {:induction false} KnowledgeMeaning(list: seq<RawKnowledge>)
    ensures Knowledge(list).keys == Dedup(Categories(list))
    ensures forall k :: k in Knowledge(list).values <==> LastWith(list, k).Some?
    ensures forall k :: k in Knowledge(list).values ==> Knowledge(list).values[k] == ViewOf(LastWith(list, k).value)
  {
    if list != [] {
      var prefix := list[..|list| - 1];
      KnowledgeMeaning(prefix);
      assert Categories(list)[..|list| - 1] == Categories(prefix);
    }
  }

  /** Every entry is keyed by its own API category and shows its level as "Level n". */
  lemma EntriesNameTheirCategory(list: Option<seq<RawKnowledge>>)
    ensures forall k :: k in TransformKnowledge(list).values ==>
      TransformKnowledge(list).values[k].apiCategory == k
      && |TransformKnowledge(list).values[k].level| >= 6
      && TransformKnowledge(list).values[k].level[..6] == "Level "
  {
    if list.Some? && list.value != [] {
      KnowledgeMeaning(list.value);
      forall k | k in TransformKnowledge(list).values
        ensures TransformKnowledge(list).values[k].apiCategory == k
      {
        LastWithCategory(list.value, k);
      }
    }
  }

  lemma {:induction false} LastWithCategory(list: seq<RawKnowledge>, k: string)
    ensures LastWith(list, k).Some? ==> LastWith(list, k).value.category == k
  {
    if list != [] && list[|list| - 1].category != k {
      LastWithCategory(list[..|list| - 1], k);
    }
  }
}
