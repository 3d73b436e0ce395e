/** The identity index of a collection merge: a map from normalised
    identity keys to positions in the output list, and the search that
    resolves a translation entry through it. */
module Index {
  import opened Values
  import opened Keys

  /** Every position the index holds points into a list of length `n`. */
  predicate InRange(idx: map<string, nat>, n: nat) {
    forall k :: k in idx ==> idx[k] < n
  }

  /** Position `p` is the last element of `out` that has `k` among its
      candidate keys. */
  predicate Owns(out: seq<Json>, fields: seq<string>, p: int, k: string) {
    && 0 <= p < |out|
    && k in Candidates(out[p], fields)
    && forall j :: p < j < |out| ==> k !in Candidates(out[j], fields)
  }

  /** `ks.forEach(k => idx.set(k, n))`: every key of `ks` now maps to `n`,
      every other key keeps its entry. */
  function SetAll(idx: map<string, nat>, ks: seq<string>, n: nat): (r: map<string, nat>)
    ensures forall k :: k in r <==> k in idx || k in ks
    ensures forall k :: k in ks ==> r[k] == n
    ensures forall k :: k in idx && k !in ks ==> r[k] == idx[k]
    decreases |ks|
  {
    if ks == [] then idx else SetAll(idx[ks[0] := n], ks[1..], n)
  }

  /** The map left by setting, element after element, each candidate key of
      the element to its position. */
  function IndexOf(out: seq<Json>, fields: seq<string>): (m: map<string, nat>)
    ensures InRange(m, |out|)
    decreases |out|
  {
    if out == [] then map[]
    else
      var n := |out| - 1;
      SetAll(IndexOf(out[..n], fields), Candidates(out[n], fields), n)
  }

  /** An owner in a prefix stays the owner when the next element does not
      carry the key. */
  lemma OwnsExtend(out: seq<Json>, fields: seq<string>, p: int, k: string)
    requires |out| > 0
    requires Owns(out[..|out| - 1], fields, p, k)
    requires k !in Candidates(out[|out| - 1], fields)
    ensures Owns(out, fields, p, k)
  {
    var n := |out| - 1;
    var pre := out[..n];
    assert 0 <= p < n && k in Candidates(pre[p], fields);
    assert pre[p] == out[p];
    forall j | p < j < |out| ensures k !in Candidates(out[j], fields) {
      if j < n {
        assert pre[j] == out[j];
        assert k !in Candidates(pre[j], fields);
      }
    }
  }

  /** A key shared by several elements ends up with the position of the
      LAST of them, because a later `set` overwrites an earlier one. */
  lemma {:induction false} IndexOwners(out: seq<Json>, fields: seq<string>)
    ensures forall k :: k in IndexOf(out, fields) ==> Owns(out, fields, IndexOf(out, fields)[k], k)
    decreases |out|
  {
    if out != [] {
      var n := |out| - 1;
      var ks := Candidates(out[n], fields);
      var m := IndexOf(out[..n], fields);
      IndexOwners(out[..n], fields);
      forall k | k in IndexOf(out, fields)
        ensures Owns(out, fields, IndexOf(out, fields)[k], k)
      {
        if k !in ks {
          OwnsExtend(out, fields, m[k], k);
        }
      }
    }
  }

  /** The last element's keys are set by the last step of `IndexOf`. */
  lemma IndexLast(out: seq<Json>, fields: seq<string>, k: string)
    requires |out| > 0 && k in Candidates(out[|out| - 1], fields)
    ensures k in IndexOf(out, fields)
  {
  }

  /** A key of the prefix's index survives the last step. */
  lemma IndexPrefix(out: seq<Json>, fields: seq<string>, k: string)
    requires |out| > 0 && k in IndexOf(out[..|out| - 1], fields)
    ensures k in IndexOf(out, fields)
  {
  }

  /** Every candidate key of every element is in the index. */
  lemma {:induction false} IndexComplete(out: seq<Json>, fields: seq<string>, i: int, k: string)
    requires 0 <= i < |out| && k in Candidates(out[i], fields)
    ensures k in IndexOf(out, fields)
    decreases |out|
  {
    var n := |out| - 1;
    if i < n {
      assert out[..n][i] == out[i];
      IndexComplete(out[..n], fields, i, k);
      IndexPrefix(out, fields, k);
    } else {
      IndexLast(out, fields, k);
    }
  }

  /** `keys[i]` is the first of `keys` that the index knows. */
  predicate FirstHit(idx: map<string, nat>, keys: seq<string>, i: int) {
    && 0 <= i < |keys|
    && keys[i] in idx
    && forall j :: 0 <= j < i ==> keys[j] !in idx
  }

  /** The search `for (const k of keys) if (idx.has(k)) { found = idx.get(k); break; }`:
      the position of the first key present, or nothing when none is. */
  function Find(idx: map<string, nat>, keys: seq<string>): (r: Option<nat>)
    ensures r.None? <==> forall k :: k in keys ==> k !in idx
  {
    if keys == [] then None
    else if keys[0] in idx then Some(idx[keys[0]])
    else Find(idx, keys[1..])
  }

  /** A position found is the index entry of the first key present. */
  lemma {:induction false} FindHit(idx: map<string, nat>, keys: seq<string>)
    requires Find(idx, keys).Some?
    ensures Find(idx, keys).value in idx.Values
    ensures exists i :: FirstHit(idx, keys, i) && Find(idx, keys).value == idx[keys[i]]
    decreases |keys|
  {
    if keys[0] in idx {
      assert FirstHit(idx, keys, 0);
    } else {
      FindHit(idx, keys[1..]);
      var i :| FirstHit(idx, keys[1..], i) && Find(idx, keys).value == idx[keys[1..][i]];
      assert FirstHit(idx, keys, i + 1);
    }
  }

  /** No element is null or undefined, so reading its identity fields
      cannot throw. */
  predicate AllPresent(out: seq<Json>) {
    forall i :: 0 <= i < |out| ==> !Nullish(out[i])
  }

  /** The index of `out`, or the `TypeError` raised by reading a field of a
      null or undefined element. */
  function Indexed(out: seq<Json>, fields: seq<string>): Result<map<string, nat>> {
    if AllPresent(out) then Ok(IndexOf(out, fields)) else Throw(TypeError)
  }

  /** Indexing one more present element extends the index by its keys. */
  lemma IndexStep(out: seq<Json>, fields: seq<string>, i: nat)
    requires i < |out| && AllPresent(out[..i]) && !Nullish(out[i])
    ensures AllPresent(out[..i + 1])
    ensures IndexOf(out[..i + 1], fields) == SetAll(IndexOf(out[..i], fields), Candidates(out[i], fields), i)
  {
    assert out[..i + 1][..i] == out[..i];
  }

  /** Builds the index with the two nested `forEach` loops of the source. */
  method BuildIndex(out: seq<Json>, fields: seq<string>) returns (res: Result<map<string, nat>>)
    ensures res == Indexed(out, fields)
  {
    var idx: map<string, nat> := map[];
    var i := 0;
    while i < |out|
      invariant 0 <= i <= |out|
      invariant AllPresent(out[..i])
      invariant idx == IndexOf(out[..i], fields)
    {
      if Nullish(out[i]) {
        assert !AllPresent(out) by { assert Nullish(out[i]); }
        return Throw(TypeError);
      }
      idx := SetKeys(idx, Candidates(out[i], fields), i);
      IndexStep(out, fields, i);
      i := i + 1;
    }
    assert out[..i] == out;
    return Ok(idx);
  }

  /** `keys.forEach(k => idx.set(k, n))`. */
  method SetKeys(idx: map<string, nat>, keys: seq<string>, n: nat) returns (r: map<string, nat>)
    ensures r == SetAll(idx, keys, n)
  {
    r := idx;
    var j := 0;
    while j < |keys|
      invariant 0 <= j <= |keys|
      invariant SetAll(r, keys[j..], n) == SetAll(idx, keys, n)
    {
      assert keys[j..][1..] == keys[j + 1..];
      r := r[keys[j] := n];
      j := j + 1;
    }
  }

  /** The `break`-ing key search of the source. */
  method FindFirst(idx: map<string, nat>, keys: seq<string>) returns (found: Option<nat>)
    ensures found == Find(idx, keys)
  {
    var j := 0;
    while j < |keys|
      invariant 0 <= j <= |keys|
      invariant Find(idx, keys) == Find(idx, keys[j..])
    {
      assert keys[j..][0] == keys[j] && keys[j..][1..] == keys[j + 1..];
      if keys[j] in idx {
        return Some(idx[keys[j]]);
      }
      j := j + 1;
    }
    assert keys[j..] == [];
    return None;
  }
}
