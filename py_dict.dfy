/** An insertion-ordered Python dict with string keys, and the dynamically
    typed values that the parameter models put into such dicts. */
module PyDict {
  import opened Wrappers

  /** The values that `model_dump` and the serialisers produce. */
  datatype Value =
    | NoneV
    | IntV(i: int)
    | FloatV(r: real)
    | StrV(s: string)
    | StrListV(items: seq<string>)
    | StrMapV(m: map<string, string>)
    | StrMapListV(maps: seq<map<string, string>>)

  /** Entries in insertion order; a well-formed dict has distinct keys. */
  type Dict<V> = seq<(string, V)>

  function Keys<V>(d: Dict<V>): seq<string> {
    seq(|d|, i requires 0 <= i < |d| => d[i].0)
  }

  lemma KeysCons<V>(d: Dict<V>)
    requires d != []
    ensures Keys(d) == [d[0].0] + Keys(d[1..])
  {
    assert forall i :: 0 <= i < |d| ==> Keys(d)[i] == ([d[0].0] + Keys(d[1..]))[i];
  }

  predicate Distinct(ks: seq<string>) {
    forall i, j :: 0 <= i < j < |ks| ==> ks[i] != ks[j]
  }

  predicate WellFormed<V>(d: Dict<V>) {
    Distinct(Keys(d))
  }

  /** `d.get(k)`. */
  function Get<V>(d: Dict<V>, k: string): (r: Option<V>)
    ensures r.None? <==> k !in Keys(d)
    ensures r.Some? ==> exists i :: 0 <= i < |d| && d[i] == (k, r.value)
  {
    if d == [] then None
    else if d[0].0 == k then
      assert Keys(d)[0] == k;
      Some(d[0].1)
    else
      var r := Get(d[1..], k);
      assert r.Some? ==> exists i :: 0 <= i < |d[1..]| && d[1..][i] == (k, r.value);
      KeysCons(d);
      r
  }

  /** `d[k] = v`: an existing key keeps its position, a new key goes last. */
  function Set<V>(d: Dict<V>, k: string, v: V): Dict<V> {
    if d == [] then [(k, v)]
    else if d[0].0 == k then [(k, v)] + d[1..]
    else [d[0]] + Set(d[1..], k, v)
  }

  /** Setting keeps the key order, and a new key is appended to it. */
  lemma {:induction false} SetKeys<V>(d: Dict<V>, k: string, v: V)
    ensures k in Keys(d) ==> Keys(Set(d, k, v)) == Keys(d)
    ensures k !in Keys(d) ==> Keys(Set(d, k, v)) == Keys(d) + [k]
  {
    var r := Set(d, k, v);
    if d != [] {
      KeysCons(d);
      KeysCons(r);
      if d[0].0 == k {
        assert r[1..] == d[1..];
      } else {
        SetKeys(d[1..], k, v);
        assert r[1..] == Set(d[1..], k, v);
        assert [d[0].0] + (Keys(d[1..]) + [k]) == ([d[0].0] + Keys(d[1..])) + [k];
      }
    }
  }

  /** After setting, `get` finds the new value at k and the old one elsewhere. */
  lemma {:induction false} SetGet<V>(d: Dict<V>, k: string, v: V)
    ensures Get(Set(d, k, v), k) == Some(v)
    ensures forall k' :: k' != k ==> Get(Set(d, k, v), k') == Get(d, k')
  {
    var r := Set(d, k, v);
    if d != [] {
      if d[0].0 == k {
        assert r[1..] == d[1..];
      } else {
        SetGet(d[1..], k, v);
        assert r[1..] == Set(d[1..], k, v);
      }
    }
  }

  /** The tail of a well-formed dict is well formed and lacks the head's key. */
  lemma TailWellFormed<V>(e: Dict<V>)
    requires WellFormed(e) && e != []
    ensures WellFormed(e[1..])
    ensures e[0].0 !in Keys(e[1..])
    ensures Keys(e) == [e[0].0] + Keys(e[1..])
  {
    KeysCons(e);
    forall a, b | 0 <= a < b < |e[1..]| ensures Keys(e[1..])[a] != Keys(e[1..])[b] {
      assert Keys(e)[a + 1] != Keys(e)[b + 1];
    }
    forall j | 0 <= j < |e[1..]| ensures Keys(e[1..])[j] != e[0].0 {
      assert Keys(e)[0] != Keys(e)[j + 1];
    }
  }

  /** `d.update(e)`: every entry of e is set on d, in e's order. */
  function Update<V>(d: Dict<V>, e: Dict<V>): Dict<V>
    decreases |e|
  {
    if e == [] then d else Update(Set(d, e[0].0, e[0].1), e[1..])
  }

  /** After the update, e's keys hold e's values and the others d's. */
  lemma {:induction false} UpdateGet<V>(d: Dict<V>, e: Dict<V>)
    requires WellFormed(e)
    ensures forall k :: k in Keys(e) ==> Get(Update(d, e), k) == Get(e, k)
    ensures forall k :: k !in Keys(e) ==> Get(Update(d, e), k) == Get(d, k)
    decreases |e|
  {
    if e != [] {
      TailWellFormed(e);
      SetGet(d, e[0].0, e[0].1);
      UpdateGet(Set(d, e[0].0, e[0].1), e[1..]);
    }
  }

  /** Setting a key that is not there appends the entry. */
  lemma {:induction false} SetNewAppends<V>(d: Dict<V>, k: string, v: V)
    requires k !in Keys(d)
    ensures Set(d, k, v) == d + [(k, v)]
  {
    if d != [] {
      KeysCons(d);
      SetNewAppends(d[1..], k, v);
      assert [d[0]] + (d[1..] + [(k, v)]) == d + [(k, v)];
    }
  }

  lemma KeysAppend<V>(d: Dict<V>, e: Dict<V>)
    ensures Keys(d + e) == Keys(d) + Keys(e)
  {
    assert forall i :: 0 <= i < |d| + |e| ==> Keys(d + e)[i] == (Keys(d) + Keys(e))[i];
  }

  /** One step of an update with a new key appends that entry. */
  lemma UpdateStep<V>(d: Dict<V>, e: Dict<V>)
    requires WellFormed(e) && e != []
    requires forall k :: k in Keys(e) ==> k !in Keys(d)
    ensures WellFormed(e[1..])
    ensures Update(d, e) == Update(d + [e[0]], e[1..])
    ensures forall k :: k in Keys(e[1..]) ==> k !in Keys(d + [e[0]])
  {
    TailWellFormed(e);
    assert e[0].0 !in Keys(d) by {
      assert e[0].0 in Keys(e);
    }
    SetNewAppends(d, e[0].0, e[0].1);
    KeysSnoc(d, e[0]);
    forall k | k in Keys(e[1..]) ensures k !in Keys(d + [e[0]]) {
      assert k in Keys(e);
    }
  }

  /** Updating with keys that are all new appends e's entries in e's order. */
  lemma {:induction false} UpdateAppends<V>(d: Dict<V>, e: Dict<V>)
    requires WellFormed(e)
    requires forall k :: k in Keys(e) ==> k !in Keys(d)
    ensures Update(d, e) == d + e
    ensures Keys(Update(d, e)) == Keys(d) + Keys(e)
    decreases |e|
  {
    if e == [] {
      assert d + e == d;
    } else {
      UpdateStep(d, e);
      UpdateAppends(d + [e[0]], e[1..]);
      assert d + [e[0]] + e[1..] == d + e;
    }
    KeysAppend(d, e);
  }

  lemma KeysSnoc<V>(d: Dict<V>, e: (string, V))
    ensures Keys(d + [e]) == Keys(d) + [e.0]
  {
    assert forall i :: 0 <= i < |d| + 1 ==> Keys(d + [e])[i] == (Keys(d) + [e.0])[i];
  }
}
