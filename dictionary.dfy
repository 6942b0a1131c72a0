/**
 * A plain JavaScript object used as a dictionary: string keys kept in insertion
 * order (assigning to a key that is already present keeps its place) and a value
 * per key. `Object.keys` and `Object.entries` read it back in that order.
 */
module Dictionary {
  import opened Seqs

  datatype Dict<V> = Dict(keys: seq<string>, values: map<string, V>) {

    /** The keys are distinct and are exactly the keys that have a value. */
    predicate Valid() {
      Distinct(keys) && (forall k :: k in values ==> k in keys) && (forall k :: k in keys ==> k in values)
    }

    /** `obj[k] = v`. */
    function Put(k: string, v: V): (r: Dict<V>)
      requires Valid()
      ensures r.Valid()
      ensures r.keys == if k in keys then keys else keys + [k]
      ensures r.values == values[k := v]
    {
      Dict(if k in keys then keys else keys + [k], values[k := v])
    }

    /** `Object.entries(obj)`. */
    function Entries(): (r: seq<(string, V)>)
      requires Valid()
      ensures |r| == |keys|
      ensures forall i :: 0 <= i < |r| ==> r[i] == (keys[i], values[keys[i]])
    {
      seq(|keys|, i requires 0 <= i < |keys| => (keys[i], values[keys[i]]))
    }
  }

  /** `{}`. */
  function Empty<V>(): (r: Dict<V>)
    ensures r.Valid() && r.keys == []
  {
    Dict([], map[])
  }

  /** The first components of a list of pairs. */
  function FirstOf<V>(s: seq<(string, V)>): (r: seq<string>)
    ensures |r| == |s|
    ensures forall i :: 0 <= i < |s| ==> r[i] == s[i].0
  {
    seq(|s|, i requires 0 <= i < |s| => s[i].0)
  }
}
