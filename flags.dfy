/** `safeMergeFlags`: a copy of the source flags with the translation's
    flags merged in by Foundry's `mergeObject`, with the options the call
    site leaves at their defaults (keys and values inserted, leaves
    overwritten, plain objects merged recursively). */
module Flags {
  import opened Values

  /** What `mergeObject` stores under a key the translation carries: the
      two objects merged when both are plain objects, the translation's
      value otherwise. */
  function Combine(x: Json, v: Json): Json {
    if x.Obj? && v.Obj? then MergeFrom(x, v, 0).value else v
  }

  /** The loop `for (let k of Object.keys(other))` of `mergeObject` from
      entry `i` on, on a copy of `orig`. An existing key holding a plain
      object is merged recursively with a plain-object value; any other
      existing key is overwritten and a missing key inserted. A named
      property written onto an array stops the model. */
  function MergeFrom(orig: Json, other: Json, i: nat): (r: Result<Json>)
    ensures orig.Obj? ==> r.Ok? && r.value.Obj?
    ensures orig.Obj? ==> forall k {:trigger HasKey(r.value, k)} :: HasKey(orig, k) ==> HasKey(r.value, k)
    decreases other, |Props(other)| - i
  {
    var ps := Props(other);
    if i >= |ps| then Ok(orig)
    else if !orig.Obj? then Throw(ArrayProperty)
    else
      var k := ps[i].0;
      var v := ps[i].1;
      var x := Get(orig, k);
      if x.Obj? && v.Obj? then
        assert v < other by {
          if other.Obj? { assert k in other.vals && v == other.vals[k]; }
        }
        var merged := MergeFrom(x, v, 0);
        MergeFrom(Set(orig, k, merged.value), other, i + 1)
      else
        MergeFrom(Set(orig, k, v), other, i + 1)
  }

  /** `mergeObject(original, other)`: a falsy `other` counts as `{}`, and
      both arguments must be objects (plain objects or arrays). */
  function MergeObject(orig: Json, other: Json): Result<Json> {
    var o := Or(other, Empty);
    if !(orig.Obj? || orig.Arr?) || !(o.Obj? || o.Arr?) then Throw(MergeError)
    else MergeFrom(orig, o, 0)
  }

  /** `safeMergeFlags(sourceFlags = {}, translationFlags = {})`: an omitted
      argument is `{}`; the clones are values here. */
  function SafeMergeFlags(sourceFlags: Json, translationFlags: Json): Result<Json> {
    var s := if sourceFlags.Undefined? then Empty else sourceFlags;
    var t := if translationFlags.Undefined? then Empty else translationFlags;
    MergeObject(s, t)
  }

  /** Each key the translation carries from entry `i` on holds the combined
      value, every other key keeps its value, and exactly the keys of both
      sides are present. */
  lemma {:induction false} MergeFromGet(orig: Json, other: Json, i: nat)
    requires orig.Obj? && other.Obj? && Wf(other) && i <= |other.keys|
    ensures var r := MergeFrom(orig, other, i).value;
      && (forall k :: Get(r, k) == if k in other.keys[i..] then Combine(Get(orig, k), Get(other, k)) else Get(orig, k))
      && (forall k :: HasKey(r, k) <==> HasKey(orig, k) || k in other.keys[i..])
    decreases |other.keys| - i
  {
    if i < |other.keys| {
      var k := other.keys[i];
      var next := Set(orig, k, Combine(Get(orig, k), Get(other, k)));
      assert Props(other)[i] == (k, Get(other, k));
      assert MergeFrom(orig, other, i) == MergeFrom(next, other, i + 1);
      MergeFromGet(next, other, i + 1);
      assert k !in other.keys[i + 1..];
      var r := MergeFrom(orig, other, i).value;
      forall j
        ensures Get(r, j) == if j in other.keys[i..] then Combine(Get(orig, j), Get(other, j)) else Get(orig, j)
        ensures HasKey(r, j) <==> HasKey(orig, j) || j in other.keys[i..]
      {
        assert j in other.keys[i..] <==> j == k || j in other.keys[i + 1..];
      }
    }
  }

  /** When every key still to come is already present, the key order is
      unchanged. */
  lemma {:induction false} MergeFromKeys(orig: Json, other: Json, i: nat)
    requires orig.Obj? && other.Obj? && Wf(other) && i <= |other.keys|
    requires forall j :: i <= j < |other.keys| ==> other.keys[j] in orig.vals
    ensures MergeFrom(orig, other, i).value.keys == orig.keys
    decreases |other.keys| - i
  {
    if i < |other.keys| {
      var k := other.keys[i];
      var next := Set(orig, k, Combine(Get(orig, k), Get(other, k)));
      assert Props(other)[i] == (k, Get(other, k));
      assert MergeFrom(orig, other, i) == MergeFrom(next, other, i + 1);
      MergeFromKeys(next, other, i + 1);
    }
  }

  /** Two objects with the same key order and the same value under every
      key are the same object. */
  lemma SameObject(p: Json, q: Json)
    requires p.Obj? && q.Obj? && p.keys == q.keys
    requires forall k :: HasKey(p, k) <==> HasKey(q, k)
    requires forall k :: Get(p, k) == Get(q, k)
    ensures p == q
  {
    forall k | k in p.vals ensures k in q.vals && p.vals[k] == q.vals[k] {
      assert HasKey(p, k) && Get(p, k) == Get(q, k);
    }
    forall k | k in q.vals ensures k in p.vals {
      assert HasKey(q, k);
    }
    assert p.vals == q.vals;
  }

  /** An object as JavaScript holds it, all the way down. */
  ghost predicate DeepWf(o: Json)
    decreases o
  {
    && Wf(o)
    && (o.Obj? ==> forall k :: k in o.vals ==> DeepWf(o.vals[k]))
  }

  /** Merging an object into itself gives it back. */
  lemma {:induction false} SelfMerge(b: Json)
    requires b.Obj? && DeepWf(b)
    ensures MergeFrom(b, b, 0).value == b
    decreases b
  {
    var r := MergeFrom(b, b, 0).value;
    MergeFromGet(b, b, 0);
    MergeFromKeys(b, b, 0);
    forall k ensures Get(r, k) == Get(b, k) {
      if k in b.keys {
        var g := Get(b, k);
        if g.Obj? {
          assert g == b.vals[k];
          SelfMerge(g);
        }
      }
    }
    SameObject(r, b);
  }

  /** Merging the same translation a second time changes nothing. */
  lemma {:induction false} MergeIdempotent(x: Json, v: Json)
    requires x.Obj? && v.Obj? && DeepWf(v)
    ensures MergeFrom(MergeFrom(x, v, 0).value, v, 0) == MergeFrom(x, v, 0)
    decreases v
  {
    var r1 := MergeFrom(x, v, 0).value;
    var r2 := MergeFrom(r1, v, 0).value;
    MergeFromGet(x, v, 0);
    MergeFromGet(r1, v, 0);
    MergeFromKeys(r1, v, 0);
    forall k ensures Get(r2, k) == Get(r1, k) {
      if k in v.keys {
        var a := Get(x, k);
        var b := Get(v, k);
        if b.Obj? {
          assert b == v.vals[k];
          if a.Obj? {
            MergeIdempotent(a, b);
          } else {
            SelfMerge(b);
          }
        }
      }
    }
    SameObject(r2, r1);
  }

  /** The merge stops only on arguments that are not objects (`mergeObject`
      throws) or on translation keys written onto an array. */
  lemma SafeMergeFlagsOk(sourceFlags: Json, translationFlags: Json)
    ensures var s := if sourceFlags.Undefined? then Empty else sourceFlags;
      var o := Or(if translationFlags.Undefined? then Empty else translationFlags, Empty);
      && (SafeMergeFlags(sourceFlags, translationFlags).Ok? <==>
            (o.Obj? || o.Arr?) && (s.Obj? || (s.Arr? && Props(o) == [])))
      && (SafeMergeFlags(sourceFlags, translationFlags) == Throw(MergeError) <==>
            !(s.Obj? || s.Arr?) || !(o.Obj? || o.Arr?))
  {
  }

  /** Without translation flags the source flags come back as they are. */
  lemma SafeMergeFlagsNothing(sourceFlags: Json, translationFlags: Json)
    requires sourceFlags.Obj? && !Truthy(translationFlags)
    ensures SafeMergeFlags(sourceFlags, translationFlags) == Ok(sourceFlags)
  {
    assert Props(Empty) == [];
  }

  /** Every source flag survives; a key the translation does not carry
      keeps its source value; a translated leaf, or a translated value
      meeting a non-object, wins; two plain objects are merged by the same
      rules, one level down. */
  lemma SafeMergeFlagsFields(sourceFlags: Json, translationFlags: Json)
    requires sourceFlags.Obj? && translationFlags.Obj? && Wf(translationFlags)
    ensures SafeMergeFlags(sourceFlags, translationFlags).Ok?
    ensures var r := SafeMergeFlags(sourceFlags, translationFlags).value;
      var t := translationFlags;
      && (forall k :: HasKey(r, k) <==> HasKey(sourceFlags, k) || HasKey(t, k))
      && (forall k :: !HasKey(t, k) ==> Get(r, k) == Get(sourceFlags, k))
      && (forall k :: HasKey(t, k) && !(Get(sourceFlags, k).Obj? && Get(t, k).Obj?) ==> Get(r, k) == Get(t, k))
      && (forall k :: HasKey(t, k) && Get(sourceFlags, k).Obj? && Get(t, k).Obj? ==>
            Get(r, k) == MergeFrom(Get(sourceFlags, k), Get(t, k), 0).value)
  {
    MergeFromGet(sourceFlags, translationFlags, 0);
    assert translationFlags.keys[0..] == translationFlags.keys;
  }

  /** Merging the same translation flags twice gives what merging them once
      gave. */
  lemma SafeMergeFlagsIdempotent(sourceFlags: Json, translationFlags: Json)
    requires sourceFlags.Obj? && translationFlags.Obj? && DeepWf(translationFlags)
    ensures SafeMergeFlags(sourceFlags, translationFlags).Ok?
    ensures SafeMergeFlags(SafeMergeFlags(sourceFlags, translationFlags).value, translationFlags)
         == SafeMergeFlags(sourceFlags, translationFlags)
  {
    MergeIdempotent(sourceFlags, translationFlags);
  }
}
