/** The two-level maps the results store keeps per (test case, model):
    `results`, `grades` and `executionStatus` are each an object from test case
    id to an object from model id to a value. These are the operations its
    reducers perform on one such map. */
module NestedMap {
  import opened Common

  type Nested<V> = map<string, map<string, V>>

  /** The entry at (`t`, `k`), if any. */
  function Lookup<V>(m: Nested<V>, t: string, k: string): Option<V> {
    if t in m && k in m[t] then Some(m[t][k]) else None
  }

  /** No test case maps to an empty inner object: the shape the pruning
      reducers keep. */
  predicate NoEmptyInner<V>(m: Nested<V>) {
    forall t :: t in m ==> |m[t]| > 0
  }

  /** `m[t][k] = v`, creating the inner object when `m[t]` is missing. */
  function Put<V>(m: Nested<V>, t: string, k: string, v: V): Nested<V> {
    m[t := (if t in m then m[t] else map[])[k := v]]
  }

  /** `delete m[t][k]` when `m[t]` exists, then `delete m[t]` when it has no
      keys left. */
  function Remove<V>(m: Nested<V>, t: string, k: string): Nested<V> {
    if t in m then
      var inner := m[t] - {k};
      if |inner| == 0 then m - {t} else m[t := inner]
    else m
  }

  /** `deleteAllResultsForModel` on one map: under every test case whose
      object has an entry for `k`, delete it and drop the object when it
      becomes empty, which is when `k` was its only key (`EmptiedIff`).
      Every stored value is an object or a non-empty string, so the
      truthiness test on `m[t][k]` is a presence test. */
  function DropModel<V>(m: Nested<V>, k: string): Nested<V> {
    map t | t in m && m[t].Keys != {k} :: m[t] - {k}
  }

  /** `Object.assign(m[t], rs)` after creating `m[t]` when missing. */
  function Merge<V>(m: Nested<V>, t: string, rs: map<string, V>): Nested<V> {
    m[t := (if t in m then m[t] else map[]) + rs]
  }

  // ---------------------------------------------------------------------------
  // Properties

  /** A write sets exactly its own entry. */
  lemma PutLookup<V>(m: Nested<V>, t: string, k: string, v: V, t': string, k': string)
    ensures Lookup(Put(m, t, k, v), t', k') == if t' == t && k' == k then Some(v) else Lookup(m, t', k')
  {
  }

  /** Writing the same entry twice keeps only the second value. */
  lemma PutOverwrites<V>(m: Nested<V>, t: string, k: string, v1: V, v2: V)
    ensures Put(Put(m, t, k, v1), t, k, v2) == Put(m, t, k, v2)
  {
    var inner := if t in m then m[t] else map[];
    assert inner[k := v1][k := v2] == inner[k := v2];
  }

  /** A write never leaves an empty inner object behind. */
  lemma PutKeepsShape<V>(m: Nested<V>, t: string, k: string, v: V)
    requires NoEmptyInner(m)
    ensures NoEmptyInner(Put(m, t, k, v))
  {
  }

  /** A deletion removes exactly its own entry. */
  lemma RemoveLookup<V>(m: Nested<V>, t: string, k: string, t': string, k': string)
    ensures Lookup(Remove(m, t, k), t', k') == if t' == t && k' == k then None else Lookup(m, t', k')
  {
  }

  /** A deletion prunes the inner object it empties. */
  lemma RemoveKeepsShape<V>(m: Nested<V>, t: string, k: string)
    requires NoEmptyInner(m)
    ensures NoEmptyInner(Remove(m, t, k))
    ensures t in Remove(m, t, k) <==> t in m && m[t].Keys != {k}
  {
  }

  /** Deleting an entry just written restores the map when the entry was new. */
  lemma RemoveUndoesPut<V>(m: Nested<V>, t: string, k: string, v: V)
    requires NoEmptyInner(m)
    requires Lookup(m, t, k).None?
    ensures Remove(Put(m, t, k, v), t, k) == m
  {
    var p := Put(m, t, k, v);
    if t in m {
      assert p[t] - {k} == m[t];
      assert p[t := m[t]] == m;
    } else {
      assert p[t] - {k} == map[];
      assert p - {t} == m;
    }
  }

  /** Dropping a model removes its entry under every test case and keeps
      every other model's entries. */
  lemma DropModelLookup<V>(m: Nested<V>, k: string, t': string, k': string)
    ensures Lookup(DropModel(m, k), t', k') == if k' == k then None else Lookup(m, t', k')
  {
    var d := DropModel(m, k);
    if k' != k && t' in m && k' in m[t'] {
      assert k' in m[t'] - {k};
      assert t' in d;
    }
  }

  /** Dropping a model prunes the objects it empties and keeps the others. */
  lemma DropModelKeepsShape<V>(m: Nested<V>, k: string)
    requires NoEmptyInner(m)
    ensures NoEmptyInner(DropModel(m, k))
    ensures forall t :: t in DropModel(m, k) <==> t in m && m[t].Keys != {k}
  {
    var d := DropModel(m, k);
    forall t | t in d
      ensures |d[t]| > 0
    {
      if k in m[t] {
        EmptiedIff(m[t], k);
      } else {
        assert m[t] - {k} == m[t];
      }
    }
  }

  /** Dropping a model that has no entries changes nothing. */
  lemma DropAbsentModel<V>(m: Nested<V>, k: string)
    requires NoEmptyInner(m)
    requires forall t :: t in m ==> k !in m[t]
    ensures DropModel(m, k) == m
  {
    forall t | t in m
      ensures m[t] - {k} == m[t]
    {
    }
  }

  /** Merging a run's results into a map that already holds each of them, as
      the step-by-step writes leave it, changes nothing. */
  lemma MergeAfterWrites<V>(m: Nested<V>, t: string, rs: map<string, V>)
    requires t in m
    requires forall k :: k in rs ==> Lookup(m, t, k) == Some(rs[k])
    ensures Merge(m, t, rs) == m
  {
    assert m[t] + rs == m[t];
  }

  /** After a merge, each merged entry is present and other entries keep
      their values. */
  lemma MergeLookup<V>(m: Nested<V>, t: string, rs: map<string, V>, t': string, k': string)
    ensures Lookup(Merge(m, t, rs), t', k') ==
      if t' == t && k' in rs then Some(rs[k']) else Lookup(m, t', k')
  {
  }
  /** The object `{}` after `o[keys[i]] = vals[i]` for each `i < n` in turn:
      a key written twice keeps its later value. */
  function Assigned<V>(keys: seq<string>, vals: seq<V>, n: nat): map<string, V>
    requires n <= |keys| && |vals| == |keys|
  {
    if n == 0 then map[] else Assigned(keys, vals, n - 1)[keys[n - 1] := vals[n - 1]]
  }

  /** `Put` of `(t, keys[i], vals[i])` for each `i < n` in turn. */
  function PutSeq<V>(m: Nested<V>, t: string, keys: seq<string>, vals: seq<V>, n: nat): Nested<V>
    requires n <= |keys| && |vals| == |keys|
  {
    if n == 0 then m else Put(PutSeq(m, t, keys, vals, n - 1), t, keys[n - 1], vals[n - 1])
  }

  /** The object has exactly the keys written. */
  lemma {:induction false} AssignedKeys<V>(keys: seq<string>, vals: seq<V>, n: nat)
    requires n <= |keys| && |vals| == |keys|
    ensures Assigned(keys, vals, n).Keys == set i | 0 <= i < n :: keys[i]
  {
    if n > 0 {
      AssignedKeys(keys, vals, n - 1);
    }
  }

  /** The value a key ends with is the one of its last write. */
  lemma {:induction false} AssignedLastWins<V>(keys: seq<string>, vals: seq<V>, n: nat, i: nat)
    requires n <= |keys| && |vals| == |keys|
    requires i < n
    requires forall j :: i < j < n ==> keys[j] != keys[i]
    ensures keys[i] in Assigned(keys, vals, n) && Assigned(keys, vals, n)[keys[i]] == vals[i]
  {
    if i < n - 1 {
      AssignedLastWins(keys, vals, n - 1, i);
    }
  }

  /** A non-empty run of writes under one test case is one merge of the
      object they assign. */
  lemma {:induction false} PutSeqMerge<V>(m: Nested<V>, t: string, keys: seq<string>, vals: seq<V>, n: nat)
    requires 0 < n <= |keys| && |vals| == |keys|
    ensures PutSeq(m, t, keys, vals, n) == Merge(m, t, Assigned(keys, vals, n))
  {
    var k, v := keys[n - 1], vals[n - 1];
    if n == 1 {
      PutIsMerge(m, t, k, v);
    } else {
      PutSeqMerge(m, t, keys, vals, n - 1);
      PutAfterMerge(m, t, Assigned(keys, vals, n - 1), k, v);
    }
  }

  lemma PutIsMerge<V>(m: Nested<V>, t: string, k: string, v: V)
    ensures Put(m, t, k, v) == Merge(m, t, map[k := v])
  {
    var base := if t in m then m[t] else map[];
    assert base[k := v] == base + map[k := v];
  }

  lemma PutAfterMerge<V>(m: Nested<V>, t: string, a: map<string, V>, k: string, v: V)
    ensures Put(Merge(m, t, a), t, k, v) == Merge(m, t, a[k := v])
  {
    var base := if t in m then m[t] else map[];
    assert (base + a)[k := v] == base + a[k := v];
  }

  /** A merge repeated with the same object changes nothing more. */
  lemma MergeTwice<V>(m: Nested<V>, t: string, rs: map<string, V>)
    ensures Merge(Merge(m, t, rs), t, rs) == Merge(m, t, rs)
  {
    var base := if t in m then m[t] else map[];
    assert base + rs + rs == base + rs;
  }

  /** Deleting `k` from an object that has it empties the object exactly
      when `k` is its only key. */
  lemma EmptiedIff<V>(inner: map<string, V>, k: string)
    requires k in inner
    ensures |inner - {k}| == 0 <==> inner.Keys == {k}
  {
    if inner.Keys == {k} {
      assert (inner - {k}).Keys == {};
    } else {
      var j :| j in inner && j != k;
      assert j in (inner - {k}).Keys;
    }
  }
}
