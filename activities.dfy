/** `safeMergeActivities`: merges a translation's activities into a copy of
    the source activities by key, inserting what the source lacks and
    otherwise only ever overwriting `name`. */
module Activities {
  import opened Values

  /** The value of `out[k]` after the loop body has run for `[k, v]`:
      `v` itself when `out[k]` was falsy, otherwise the old entry with its
      `name` replaced by a truthy `v.name`. */
  function Merged(prev: Json, v: Json): Json {
    if !Truthy(prev) then v
    else if Truthy(Get(v, "name")) && prev.Obj? then Set(prev, "name", Get(v, "name"))
    else prev
  }

  /** The loop body can run for `[k, v]` over the entry `prev`: a truthy
      entry is only renamed through a non-null `v`, and only when it is an
      object. */
  predicate Fits(prev: Json, v: Json) {
    Truthy(prev) ==> !Nullish(v) && (Truthy(Get(v, "name")) ==> prev.Obj?)
  }

  /** The loop body for one translation entry `[k, v]`. */
  function ActivityStep(out: Json, k: string, v: Json): Result<Json> {
    if !Truthy(Get(out, k)) then Write(out, k, v)
    else
      var name :- Read(v, "name");
      if Truthy(name) then Assign(out, [k, "name"], name) else Ok(out)
  }

  /** The loop over `Object.entries(translationActivities)`. */
  function ActivityFold(out: Json, ps: Fields): Result<Json>
    decreases |ps|
  {
    if ps == [] then Ok(out)
    else
      var o :- ActivityStep(out, ps[0].0, ps[0].1);
      ActivityFold(o, ps[1..])
  }

  /** `safeMergeActivities(sourceActivities = {}, translationActivities = {})`:
      a falsy translation hands back the source itself, otherwise the
      entries are merged into a copy of `sourceActivities || {}`. */
  function ActivitiesMerge(source: Json, translation: Json): Result<Json> {
    var s := if source.Undefined? then Empty else source;
    var t := if translation.Undefined? then Empty else translation;
    if !Truthy(t) then Ok(s) else ActivityFold(Or(s, Empty), Props(t))
  }

  /** `safeMergeActivities`, with its `for ... of` loop. */
  method SafeMergeActivities(source: Json, translation: Json) returns (res: Result<Json>)
    ensures res == ActivitiesMerge(source, translation)
  {
    var s := if source.Undefined? then Empty else source;
    var t := if translation.Undefined? then Empty else translation;
    if !Truthy(t) {
      return Ok(s);
    }
    res := MergeActivities(Or(s, Empty), Props(t));
  }

  /** The `for (const [k, v] of Object.entries(translationActivities))` loop. */
  method MergeActivities(out0: Json, ps: Fields) returns (res: Result<Json>)
    ensures res == ActivityFold(out0, ps)
  {
    var out := out0;
    var i := 0;
    while i < |ps|
      invariant 0 <= i <= |ps|
      invariant ActivityFold(out, ps[i..]) == ActivityFold(out0, ps)
    {
      assert ps[i..][0] == ps[i] && ps[i..][1..] == ps[i + 1..];
      out :- MergeActivity(out, ps[i].0, ps[i].1);
      i := i + 1;
    }
    assert ps[i..] == [];
    return Ok(out);
  }

  /** The loop body: insert a missing entry, or rename an existing one. */
  method MergeActivity(out: Json, k: string, v: Json) returns (res: Result<Json>)
    ensures res == ActivityStep(out, k, v)
  {
    if !Truthy(Get(out, k)) {
      return Write(out, k, v);
    }
    var name :- Read(v, "name");
    if Truthy(name) {
      return Assign(out, [k, "name"], name);
    }
    return Ok(out);
  }

  /** One entry changes only its own key, to `Merged`, and drops no key. */
  lemma ActivityStepGet(out: Json, k: string, v: Json)
    requires ActivityStep(out, k, v).Ok?
    ensures var o := ActivityStep(out, k, v).value;
      && Fits(Get(out, k), v)
      && Get(o, k) == Merged(Get(out, k), v)
      && (forall j :: j != k ==> Get(o, j) == Get(out, j))
      && (forall j :: HasKey(out, j) ==> HasKey(o, j))
  {
    var prev := Get(out, k);
    if Truthy(prev) {
      var name := Get(v, "name");
      if Truthy(name) {
        if prev.Obj? {
          AssignIs2(out, k, "name", name);
        } else {
          AssignFails2(out, k, "name", name);
        }
      }
    }
  }

  /** The result of the loop, key by key: a key the entries name holds the
      merge of its old value and its translation, every other key keeps its
      value, and no key is dropped. */
  lemma {:induction false} ActivityFoldGet(out: Json, ps: Fields)
    requires DistinctKeys(ps) && ActivityFold(out, ps).Ok?
    ensures var r := ActivityFold(out, ps).value;
      && (forall i :: 0 <= i < |ps| ==>
            Fits(Get(out, ps[i].0), ps[i].1) && Get(r, ps[i].0) == Merged(Get(out, ps[i].0), ps[i].1))
      && (forall j :: j !in Keys(ps) ==> Get(r, j) == Get(out, j))
      && (forall j :: HasKey(out, j) ==> HasKey(r, j))
    decreases |ps|
  {
    if ps != [] {
      var o := ActivityStep(out, ps[0].0, ps[0].1).value;
      ActivityStepGet(out, ps[0].0, ps[0].1);
      ActivityFoldGet(o, ps[1..]);
      var r := ActivityFold(out, ps).value;
      forall i | 0 <= i < |ps|
        ensures Fits(Get(out, ps[i].0), ps[i].1) && Get(r, ps[i].0) == Merged(Get(out, ps[i].0), ps[i].1)
      {
        if i > 0 {
          assert ps[1..][i - 1] == ps[i];
          assert ps[i].0 != ps[0].0;
        } else {
          assert forall m :: 0 <= m < |ps[1..]| ==> ps[1..][m].0 != ps[0].0;
          assert ps[0].0 !in Keys(ps[1..]);
        }
      }
      forall j | j !in Keys(ps) ensures Get(r, j) == Get(out, j) {
        assert j != ps[0].0;
        assert j !in Keys(ps[1..]);
      }
    }
  }

  /** Merging into an object: every source key is kept; a key the
      translation names holds the translated value verbatim when the source
      entry was missing or falsy, and otherwise the source entry with only
      its `name` overwritten by a truthy translated `name`; every other key
      keeps its source value. */
  lemma ActivitiesMergeFields(source: Json, translation: Json)
    requires source.Obj? && translation.Obj? && Wf(translation)
    requires ActivitiesMerge(source, translation).Ok?
    ensures var r := ActivitiesMerge(source, translation).value;
      && (forall j :: HasKey(source, j) ==> HasKey(r, j))
      && (forall j :: HasKey(translation, j) && !Truthy(Get(source, j)) ==> Get(r, j) == Get(translation, j))
      && (forall j :: HasKey(translation, j) && Truthy(Get(source, j)) ==>
            && Get(Get(r, j), "name") == Or(Get(Get(translation, j), "name"), Get(Get(source, j), "name"))
            && forall f :: f != "name" ==> Get(Get(r, j), f) == Get(Get(source, j), f))
      && (forall j :: !HasKey(translation, j) ==> Get(r, j) == Get(source, j))
  {
    var ps := Props(translation);
    assert DistinctKeys(ps);
    ActivityFoldGet(source, ps);
    var r := ActivitiesMerge(source, translation).value;
    forall j | HasKey(translation, j)
      ensures Fits(Get(source, j), Get(translation, j)) && Get(r, j) == Merged(Get(source, j), Get(translation, j))
    {
      var i :| 0 <= i < |translation.keys| && translation.keys[i] == j;
      assert ps[i] == (j, Get(translation, j));
    }
    forall j | !HasKey(translation, j) ensures Get(r, j) == Get(source, j) {
      assert j !in Keys(ps);
    }
  }

  /** A falsy translation (other than `undefined`, which defaults to `{}`)
      returns the source as it is, uncopied and unmerged. */
  lemma ActivitiesFalsy(source: Json, translation: Json)
    requires !Truthy(translation) && !translation.Undefined?
    ensures ActivitiesMerge(source, translation) == Ok(if source.Undefined? then Empty else source)
  {
  }

  /** On an object, an entry that fits its slot goes through. */
  lemma ActivityStepOk(out: Json, k: string, v: Json)
    requires out.Obj? && Fits(Get(out, k), v)
    ensures ActivityStep(out, k, v).Ok? && ActivityStep(out, k, v).value.Obj?
  {
    if Truthy(Get(out, k)) && Truthy(Get(v, "name")) {
      AssignIs2(out, k, "name", Get(v, "name"));
    }
  }

  /** On an object, entries with distinct keys that all fit their slots go
      through. */
  lemma {:induction false} ActivityFoldOk(out: Json, ps: Fields)
    requires out.Obj? && DistinctKeys(ps)
    requires forall i :: 0 <= i < |ps| ==> Fits(Get(out, ps[i].0), ps[i].1)
    ensures ActivityFold(out, ps).Ok?
    decreases |ps|
  {
    if ps != [] {
      ActivityStepOk(out, ps[0].0, ps[0].1);
      ActivityStepGet(out, ps[0].0, ps[0].1);
      var o := ActivityStep(out, ps[0].0, ps[0].1).value;
      forall i | 0 <= i < |ps[1..]| ensures Fits(Get(o, ps[1..][i].0), ps[1..][i].1) {
        assert ps[1..][i] == ps[i + 1];
      }
      ActivityFoldOk(o, ps[1..]);
    }
  }

  /** Over an object or falsy source and an object translation, the merge
      succeeds exactly when every translated entry fits its slot: it throws
      when a truthy source entry meets a null or undefined translation, or
      a truthy translated `name` meets a truthy source entry that is not an
      object. */
  lemma ActivitiesMergeOk(source: Json, translation: Json)
    requires source.Obj? || !Truthy(source)
    requires translation.Obj? && Wf(translation)
    ensures var base := Or(source, Empty);
      ActivitiesMerge(source, translation).Ok? <==>
        forall j :: HasKey(translation, j) ==> Fits(Get(base, j), Get(translation, j))
  {
    var base := Or(source, Empty);
    var ps := Props(translation);
    assert DistinctKeys(ps);
    assert ActivitiesMerge(source, translation) == ActivityFold(base, ps);
    if forall j :: HasKey(translation, j) ==> Fits(Get(base, j), Get(translation, j)) {
      ActivityFoldOk(base, ps);
    }
    if ActivityFold(base, ps).Ok? {
      ActivityFoldGet(base, ps);
      forall j | HasKey(translation, j) ensures Fits(Get(base, j), Get(translation, j)) {
        var i :| 0 <= i < |translation.keys| && translation.keys[i] == j;
        assert ps[i] == (j, Get(translation, j));
      }
    }
  }
}
