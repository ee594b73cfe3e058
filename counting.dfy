/**
 * The `counts[k] = counts.get(k, 0) + 1` idiom: a dictionary counting how many
 * times each key occurs, and the total of a dictionary's values.
 */
module Counting {

  /** The dictionary the counting loop builds from `keys`, one key after the other. */
  function Tally<K(!new)>(keys: seq<K>): (m: map<K, int>)
    ensures forall k :: k in m <==> k in keys
    ensures forall k :: k in m ==> m[k] == multiset(keys)[k]
  {
    if keys == [] then map[]
    else
      var init := keys[..|keys| - 1];
      var k := keys[|keys| - 1];
      assert keys == init + [k];
      var m := Tally(init);
      m[k := (if k in m then m[k] else 0) + 1]
  }

  /** One more key counted: the loop step of `CountKeys`. */
  lemma TallyStep<K(!new)>(keys: seq<K>, i: nat)
    requires i < |keys|
    ensures Tally(keys[..i + 1])
         == Tally(keys[..i])[keys[i] := (if keys[i] in Tally(keys[..i]) then Tally(keys[..i])[keys[i]] else 0) + 1]
  {
    var pre := keys[..i + 1];
    assert pre[..|pre| - 1] == keys[..i];
    assert pre[|pre| - 1] == keys[i];
  }

  /** Counts every key of `keys` into a fresh dictionary. */
  method CountKeys<K(!new)>(keys: seq<K>) returns (m: map<K, int>)
    ensures m == Tally(keys)
  {
    m := map[];
    var i := 0;
    while i < |keys|
      invariant 0 <= i <= |keys|
      invariant m == Tally(keys[..i])
    {
      var k := keys[i];
      TallyStep(keys, i);
      m := m[k := (if k in m then m[k] else 0) + 1];
      i := i + 1;
    }
    assert keys[..i] == keys;
  }

  /** `sum(m.values())`. */
  ghost function SumValues<K>(m: map<K, int>): int
    decreases |m|
  {
    if m == map[] then 0
    else
      var k :| k in m;
      m[k] + SumValues(m - {k})
  }

  /** The sum does not depend on which key is taken out first. */
  lemma {:induction false} SumValuesRemove<K>(m: map<K, int>, k: K)
    requires k in m
    ensures SumValues(m) == m[k] + SumValues(m - {k})
    decreases |m|
  {
    var j :| j in m && SumValues(m) == m[j] + SumValues(m - {j});
    if j != k {
      assert |m - {j}| < |m| by { assert j in m.Keys && (m - {j}).Keys == m.Keys - {j}; }
      assert |m - {k}| < |m| by { assert k in m.Keys && (m - {k}).Keys == m.Keys - {k}; }
      SumValuesRemove(m - {j}, k);
      SumValuesRemove(m - {k}, j);
      assert m - {j} - {k} == m - {k} - {j};
    }
  }

  /** Adding one to a key (new or old) adds one to the total. */
  lemma SumValuesIncrement<K>(m: map<K, int>, k: K)
    ensures SumValues(m[k := (if k in m then m[k] else 0) + 1]) == SumValues(m) + 1
  {
    var m' := m[k := (if k in m then m[k] else 0) + 1];
    SumValuesRemove(m', k);
    if k in m {
      SumValuesRemove(m, k);
      assert m' - {k} == m - {k};
    } else {
      assert m' - {k} == m;
    }
  }

  /** The counts add up to the number of keys counted. */
  lemma {:induction false} TallyTotal<K(!new)>(keys: seq<K>)
    ensures SumValues(Tally(keys)) == |keys|
  {
    if keys != [] {
      TallyTotal(keys[..|keys| - 1]);
      SumValuesIncrement(Tally(keys[..|keys| - 1]), keys[|keys| - 1]);
    }
  }
}
