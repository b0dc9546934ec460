/** A JavaScript `Map` keyed by strings: entries are kept and iterated in insertion order. */
module JsMaps {

  datatype JsMap<V> = JsMap(keys: seq<string>, values: map<string, V>)

  /** The order lists every key once. */
  ghost predicate Ordered<V>(m: JsMap<V>) {
    && (forall i, j :: 0 <= i < j < |m.keys| ==> m.keys[i] != m.keys[j])
    && (forall k :: k in m.keys <==> k in m.values)
  }

  function Without(keys: seq<string>, key: string): (rest: seq<string>)
    ensures key !in keys ==> rest == keys
    ensures key in keys ==> |rest| == |keys| - 1
    ensures forall k :: k in rest ==> k in keys
    ensures forall k :: k in keys && k != key ==> k in rest
  {
    if keys == [] then [] else if keys[0] == key then keys[1..] else [keys[0]] + Without(keys[1..], key)
  }

  /** Setting a present key keeps its position. */
  function Set<V>(m: JsMap<V>, key: string, value: V): JsMap<V> {
    JsMap(if key in m.values then m.keys else m.keys + [key], m.values[key := value])
  }

  function Delete<V>(m: JsMap<V>, key: string): JsMap<V> {
    JsMap(Without(m.keys, key), m.values - {key})
  }

  /** Delete every listed entry whose value is dead. */
  function Prune<V>(m: JsMap<V>, keys: seq<string>, dead: V -> bool): JsMap<V>
    decreases |keys|
  {
    if keys == [] then m
    else Prune(if keys[0] in m.values && dead(m.values[keys[0]]) then Delete(m, keys[0]) else m, keys[1..], dead)
  }

  /** Delete the oldest entries until no more than `cap` are left. */
  function Trim<V>(m: JsMap<V>, cap: nat): (t: JsMap<V>)
    ensures |t.keys| <= cap
    decreases |m.keys|
  {
    if |m.keys| <= cap then m else Trim(Delete(m, m.keys[0]), cap)
  }

  lemma {:induction false} WithoutOrdered(keys: seq<string>, key: string)
    requires forall i, j :: 0 <= i < j < |keys| ==> keys[i] != keys[j]
    ensures key !in Without(keys, key)
    ensures forall i, j :: 0 <= i < j < |Without(keys, key)| ==> Without(keys, key)[i] != Without(keys, key)[j]
  {
    if keys != [] && keys[0] != key {
      WithoutOrdered(keys[1..], key);
      assert keys[0] !in keys[1..];
    }
  }

  lemma DeleteOrdered<V>(m: JsMap<V>, key: string)
    requires Ordered(m)
    ensures Ordered(Delete(m, key))
    ensures |Delete(m, key).keys| == |m.keys| - if key in m.values then 1 else 0
  {
    WithoutOrdered(m.keys, key);
  }

  lemma DeleteShortens<V>(m: JsMap<V>, key: string)
    requires key in m.keys
    ensures |Delete(m, key).keys| < |m.keys|
  {
  }

  lemma SetOrdered<V>(m: JsMap<V>, key: string, value: V)
    requires Ordered(m)
    ensures Ordered(Set(m, key, value))
    ensures |Set(m, key, value).keys| == |m.keys| + if key in m.values then 0 else 1
  {
  }

  /** Pruning over all keys deletes exactly the dead entries. */
  lemma {:induction false} PruneExact<V>(m: JsMap<V>, keys: seq<string>, dead: V -> bool)
    requires Ordered(m)
    ensures Ordered(Prune(m, keys, dead)) && |Prune(m, keys, dead).keys| <= |m.keys|
    ensures Prune(m, keys, dead).values == map k | k in m.values && !(k in keys && dead(m.values[k])) :: m.values[k]
    decreases |keys|
  {
    hide Ordered, Without;
    if keys != [] {
      var m' := if keys[0] in m.values && dead(m.values[keys[0]]) then Delete(m, keys[0]) else m;
      DeleteOrdered(m, keys[0]);
      PruneExact(m', keys[1..], dead);
      assert forall k :: k in keys <==> k == keys[0] || k in keys[1..];
    }
  }

  lemma DeleteOldest<V>(m: JsMap<V>)
    requires Ordered(m) && m.keys != []
    ensures Ordered(Delete(m, m.keys[0])) && Delete(m, m.keys[0]).keys == m.keys[1..]
    ensures forall k :: k in Delete(m, m.keys[0]).values ==>
      k in m.values && Delete(m, m.keys[0]).values[k] == m.values[k]
  {
    DeleteOrdered(m, m.keys[0]);
  }

  /** What is left after trimming are the newest entries, unchanged. */
  lemma {:induction false} TrimNewest<V>(m: JsMap<V>, cap: nat)
    requires Ordered(m)
    ensures Ordered(Trim(m, cap))
    ensures Trim(m, cap).keys == m.keys[if |m.keys| > cap then |m.keys| - cap else 0..]
    ensures forall k :: k in Trim(m, cap).values ==> k in m.values && Trim(m, cap).values[k] == m.values[k]
    decreases |m.keys|
  {
    hide Ordered, Delete;
    if |m.keys| > cap {
      DeleteOldest(m);
      TrimNewest(Delete(m, m.keys[0]), cap);
    }
  }
}
