/** `safeMergeEntity`: the top-level converter. A keyed pass walks the
    translation's own entries and hands the structured ones to the
    collection merges; three final passes then merge effects, advancements
    and `system.activities` again from the source and the whole
    translation. */
module Entity {
  import opened Values
  import opened Collections
  import opened Activities
  import opened Advancements
  import opened Flags

  predicate IsItemsKey(k: string) {
    k == "items" || k == "features" || k == "embeddedItems"
  }

  predicate IsActivitiesKey(k: string) {
    k == "activities" || k == "system.activities"
  }

  predicate IsAdvancementKey(k: string) {
    k == "advancement" || k == "system.advancement"
  }

  /** The top-level fields of the output that the keyed pass may rewrite
      for the translation key `k`. */
  predicate Rewrites(k: string, j: string) {
    if k == "effects" then j == "effects"
    else if IsItemsKey(k) then j == "items"
    else if IsActivitiesKey(k) then j == "activities" || j == "system"
    else if IsAdvancementKey(k) then j == "advancement" || j == "system"
    else j == k
  }

  /** The loop body of the keyed pass for the entry `[k, v]`. */
  function EntryStep(source: Json, out: Json, k: string, v: Json): Result<Json> {
    if Nullish(v) then Ok(out)
    else if k == "effects" then EffectsEntry(source, out, v)
    else if IsItemsKey(k) then ItemsEntry(source, out, v)
    else if IsActivitiesKey(k) then ActivitiesEntry(source, out, v)
    else if IsAdvancementKey(k) then AdvancementEntry(source, out, v)
    else if k == "flags" then FlagsEntry(source, out, v)
    else Write(out, k, v)
  }

  /** `out.effects = safeMergeEffects(source.effects, v)`. A right-hand
      side is computed before the assignment it feeds, so an assignment to
      a property of a non-object throws only after it. */
  function EffectsEntry(source: Json, out: Json, v: Json): Result<Json> {
    var se :- Read(source, "effects");
    var e :- Merge(Effects, se, v);
    Write(out, "effects", Arr(e))
  }

  /** `out.items = safeMergeEmbedded(source.items || source.embeddedItems || [], v)`. */
  function ItemsEntry(source: Json, out: Json, v: Json): Result<Json> {
    var si :- Read(source, "items");
    var e :- Merge(Items, Or(Or(si, Get(source, "embeddedItems")), Arr([])), v);
    Write(out, "items", Arr(e))
  }

  /** `out.activities` merged from `source.activities`, and, when
      `out.system` is truthy, `out.system.activities` merged from
      `source.system.activities`, both with `v`. */
  function ActivitiesEntry(source: Json, out: Json, v: Json): Result<Json> {
    var sa :- Read(source, "activities");
    var a :- ActivitiesMerge(Or(sa, Empty), v);
    var o1 :- Write(out, "activities", a);
    SystemActivities(source, o1, v)
  }

  /** The `out.system.activities` half of the activities step. */
  function SystemActivities(source: Json, o1: Json, v: Json): Result<Json> {
    var sys := Get(o1, "system");
    if Truthy(sys) then
      var a2 :- ActivitiesMerge(Or(Get(Get(source, "system"), "activities"), Empty), v);
      var sys2 :- Write(sys, "activities", a2);
      Ok(Set(o1, "system", sys2))
    else Ok(o1)
  }

  /** `out.advancement`, and `out.system.advancement` when `out.system` is
      truthy, receive what `safeMergeAdvancements` returns: `undefined`.
      The two calls still run on the source's lists, and may throw. */
  function AdvancementEntry(source: Json, out: Json, v: Json): Result<Json> {
    var sa :- Read(source, "advancement");
    var discarded :- AdvancementsMerge(Or(sa, Arr([])), v);
    var o1 :- Write(out, "advancement", Undefined);
    SystemAdvancement(source, o1, v)
  }

  /** The `out.system.advancement` half of the advancement step. */
  function SystemAdvancement(source: Json, o1: Json, v: Json): Result<Json> {
    var sys := Get(o1, "system");
    if Truthy(sys) then
      var discarded :- AdvancementsMerge(Or(Get(Get(source, "system"), "advancement"), Arr([])), v);
      var sys2 :- Write(sys, "advancement", Undefined);
      Ok(Set(o1, "system", sys2))
    else Ok(o1)
  }

  /** `out.flags = safeMergeFlags(source.flags || {}, v)`. */
  function FlagsEntry(source: Json, out: Json, v: Json): Result<Json> {
    var sf :- Read(source, "flags");
    var f :- SafeMergeFlags(Or(sf, Empty), v);
    Write(out, "flags", f)
  }

  /** The keyed pass over the entries `ps` of the translation. */
  function KeyedFold(source: Json, out: Json, ps: Fields): Result<Json>
    decreases |ps|
  {
    if ps == [] then Ok(out)
    else
      var o :- EntryStep(source, out, ps[0].0, ps[0].1);
      KeyedFold(source, o, ps[1..])
  }

  /** `out.effects = safeMergeEffects(source.effects, translation.effects)`
      when the source has effects or the translation names some. */
  function FinalEffects(source: Json, translation: Json, out: Json): Result<Json> {
    var se :- Read(source, "effects");
    if Truthy(Get(se, "length")) || Truthy(Get(translation, "effects")) then
      var e :- Merge(Effects, se, Get(translation, "effects"));
      Write(out, "effects", Arr(e))
    else Ok(out)
  }

  /** The advancement pass, when the source has advancements or the
      translation names some under `system`; its return value is dropped,
      its effect on `out` is kept. */
  function FinalAdvancement(source: Json, translation: Json, out: Json): Result<Json> {
    if Truthy(Get(Get(Get(source, "system"), "advancement"), "length"))
       || Truthy(Get(Get(translation, "system"), "advancement"))
    then AdvancementsMerge(out, translation)
    else Ok(out)
  }

  /** The activities pass: when the source has activities or the
      translation names some under `system`, `out.system.activities` is
      recomputed from the source's. */
  function FinalActivities(source: Json, translation: Json, out: Json): Result<Json> {
    var sa := Get(Get(source, "system"), "activities");
    var ta := Get(Get(translation, "system"), "activities");
    if (Truthy(sa) && |Props(sa)| > 0) || Truthy(ta) then
      var sys := Get(out, "system");
      var a :- ActivitiesMerge(Or(sa, Empty), Or(ta, Empty));
      var sys2 :- Write(sys, "activities", a);
      Write(out, "system", sys2)
    else Ok(out)
  }

  /** `safeMergeEntity(source, translation)`: a falsy translation hands back
      the source itself; otherwise the keyed pass and the three final
      passes run on a copy of it. */
  function EntityMerge(source: Json, translation: Json): Result<Json> {
    if !Truthy(translation) then Ok(source)
    else
      var o1 :- KeyedFold(source, source, Props(translation));
      var o2 :- FinalEffects(source, translation, o1);
      var o3 :- FinalAdvancement(source, translation, o2);
      FinalActivities(source, translation, o3)
  }

  /** The entries whose value is neither null nor undefined. */
  function Present(ps: Fields): (r: Fields)
    ensures |r| <= |ps|
    ensures forall i :: 0 <= i < |r| ==> !Nullish(r[i].1)
    decreases |ps|
  {
    if ps == [] then []
    else if Nullish(ps[0].1) then Present(ps[1..])
    else [ps[0]] + Present(ps[1..])
  }

  /** Entries with a null or undefined value are skipped: the keyed pass
      over all entries is the pass over the others. */
  lemma {:induction false} KeyedFoldSkipsNull(source: Json, out: Json, ps: Fields)
    ensures KeyedFold(source, out, ps) == KeyedFold(source, out, Present(ps))
    decreases |ps|
  {
    if ps != [] {
      KeyedFoldCons(source, out, ps);
      if Nullish(ps[0].1) {
        assert EntryStep(source, out, ps[0].0, ps[0].1) == Ok(out);
        KeyedFoldSkipsNull(source, out, ps[1..]);
      } else {
        var q := [ps[0]] + Present(ps[1..]);
        assert Present(ps) == q;
        assert q[0] == ps[0] && q[1..] == Present(ps[1..]);
        KeyedFoldCons(source, out, q);
        var o := EntryStep(source, out, ps[0].0, ps[0].1);
        if o.Ok? {
          KeyedFoldSkipsNull(source, o.value, ps[1..]);
        }
      }
    }
  }

  /** One step of the keyed pass. */
  lemma KeyedFoldCons(source: Json, out: Json, ps: Fields)
    requires ps != []
    ensures var o := EntryStep(source, out, ps[0].0, ps[0].1);
      KeyedFold(source, out, ps) == if o.Ok? then KeyedFold(source, o.value, ps[1..]) else Throw(o.fault)
  {
  }

  /** The `effects`, `items` and `flags` steps change only the field they
      assign. */
  lemma EffectsEntryFrame(source: Json, out: Json, v: Json)
    requires EffectsEntry(source, out, v).Ok?
    ensures forall j :: j != "effects" ==> Get(EffectsEntry(source, out, v).value, j) == Get(out, j)
  {
  }

  lemma ItemsEntryFrame(source: Json, out: Json, v: Json)
    requires ItemsEntry(source, out, v).Ok?
    ensures forall j :: j != "items" ==> Get(ItemsEntry(source, out, v).value, j) == Get(out, j)
  {
  }

  lemma FlagsEntryFrame(source: Json, out: Json, v: Json)
    requires FlagsEntry(source, out, v).Ok?
    ensures forall j :: j != "flags" ==> Get(FlagsEntry(source, out, v).value, j) == Get(out, j)
  {
  }

  /** The activities step changes only `activities` and `system`. */
  lemma ActivitiesEntryFrame(source: Json, out: Json, v: Json)
    requires ActivitiesEntry(source, out, v).Ok?
    ensures forall j :: j != "activities" && j != "system" ==> Get(ActivitiesEntry(source, out, v).value, j) == Get(out, j)
  {
  }

  /** The step for a top-level `advancement` (or `system.advancement`) key
      writes `undefined` into `advancement`, and into `system.advancement`
      when there is a `system`, and changes nothing else. */
  lemma AdvancementEntryFields(source: Json, out: Json, v: Json)
    requires AdvancementEntry(source, out, v).Ok?
    ensures var r := AdvancementEntry(source, out, v).value;
      && Get(r, "advancement") == Undefined
      && (Truthy(Get(out, "system")) ==> Get(Get(r, "system"), "advancement") == Undefined)
      && (!Truthy(Get(out, "system")) ==> Get(r, "system") == Get(out, "system"))
      && (forall j :: j != "advancement" && j != "system" ==> Get(r, j) == Get(out, j))
  {
  }

  /** One keyed step changes no top-level field but those its key
      rewrites. */
  lemma EntryStepFrame(source: Json, out: Json, k: string, v: Json)
    requires EntryStep(source, out, k, v).Ok?
    ensures forall j :: !Rewrites(k, j) ==> Get(EntryStep(source, out, k, v).value, j) == Get(out, j)
  {
    if Nullish(v) {
    } else if k == "effects" {
      EffectsEntryFrame(source, out, v);
    } else if IsItemsKey(k) {
      ItemsEntryFrame(source, out, v);
    } else if IsActivitiesKey(k) {
      ActivitiesEntryFrame(source, out, v);
    } else if IsAdvancementKey(k) {
      AdvancementEntryFields(source, out, v);
    } else if k == "flags" {
      FlagsEntryFrame(source, out, v);
    }
  }

  /** A field no translation key rewrites leaves the keyed pass as it came
      in. */
  lemma {:induction false} KeyedFoldFrame(source: Json, out: Json, ps: Fields, j: string)
    requires KeyedFold(source, out, ps).Ok?
    requires forall i :: 0 <= i < |ps| ==> !Rewrites(ps[i].0, j)
    ensures Get(KeyedFold(source, out, ps).value, j) == Get(out, j)
    decreases |ps|
  {
    if ps != [] {
      var o := EntryStep(source, out, ps[0].0, ps[0].1).value;
      EntryStepFrame(source, out, ps[0].0, ps[0].1);
      assert forall i :: 0 <= i < |ps[1..]| ==> ps[1..][i] == ps[i + 1];
      KeyedFoldFrame(source, o, ps[1..], j);
    }
  }

  /** Any key that is not specially handled, `name` and `system` among
      them, overwrites the output field wholesale. */
  lemma EntryStepOverwrites(source: Json, out: Json, k: string, v: Json)
    requires !Nullish(v) && out.Obj?
    requires k != "effects" && k != "flags" && !IsItemsKey(k) && !IsActivitiesKey(k) && !IsAdvancementKey(k)
    ensures EntryStep(source, out, k, v) == Ok(Set(out, k, v))
  {
  }

  /** A `flags` entry merges recursively into the source's flags: every
      source flag survives and the translation's leaves win. */
  lemma FlagsEntryFields(source: Json, out: Json, v: Json)
    requires out.Obj? && source.Obj? && v.Obj? && Wf(v)
    requires Or(Get(source, "flags"), Empty).Obj?
    ensures EntryStep(source, out, "flags", v).Ok?
    ensures var f := Get(EntryStep(source, out, "flags", v).value, "flags");
      var sf := Or(Get(source, "flags"), Empty);
      && (forall j :: HasKey(sf, j) ==> HasKey(f, j))
      && (forall j :: HasKey(v, j) && !(Get(sf, j).Obj? && Get(v, j).Obj?) ==> Get(f, j) == Get(v, j))
      && (forall j :: !HasKey(v, j) ==> Get(f, j) == Get(sf, j))
  {
    var sf := Or(Get(source, "flags"), Empty);
    SafeMergeFlagsFields(sf, v);
    assert EntryStep(source, out, "flags", v) == FlagsEntry(source, out, v);
  }

  /** The top-level `advancement` quirk: since `safeMergeAdvancements`
      returns `undefined`, the step sets `advancement`, and
      `system.advancement` when there is a `system`, to undefined. */
  lemma AdvancementEntryLoses(source: Json, out: Json, k: string, v: Json)
    requires IsAdvancementKey(k) && !Nullish(v)
    requires EntryStep(source, out, k, v).Ok?
    ensures var r := EntryStep(source, out, k, v).value;
      && Get(r, "advancement") == Undefined
      && (Truthy(Get(out, "system")) ==> Get(Get(r, "system"), "advancement") == Undefined)
  {
    AdvancementEntryFields(source, out, v);
  }

  /** The keyed pass over `ps + [e]` is the pass over `ps`, then the step
      for `e`. */
  lemma {:induction false} KeyedFoldLast(source: Json, out: Json, ps: Fields, e: (string, Json))
    ensures KeyedFold(source, out, ps + [e]) ==
      (var o :- KeyedFold(source, out, ps); EntryStep(source, o, e.0, e.1))
    decreases |ps|
  {
    if ps == [] {
      assert [] + [e] == [e] && [e][1..] == [];
    } else {
      assert (ps + [e])[0] == ps[0] && (ps + [e])[1..] == ps[1..] + [e];
      var o := EntryStep(source, out, ps[0].0, ps[0].1);
      if o.Ok? {
        KeyedFoldLast(source, o.value, ps[1..], e);
      }
    }
  }

  /** The final effects pass changes only `effects`, which it sets to the
      merge of the source's effects with the translation's when either is
      there. */
  lemma FinalEffectsFields(source: Json, translation: Json, out: Json)
    requires FinalEffects(source, translation, out).Ok?
    ensures var r := FinalEffects(source, translation, out).value;
      var se := Get(source, "effects");
      && (forall j :: j != "effects" ==> Get(r, j) == Get(out, j))
      && (Truthy(Get(se, "length")) || Truthy(Get(translation, "effects")) ==>
            Merge(Effects, se, Get(translation, "effects")).Ok?
            && Get(r, "effects") == Arr(Merge(Effects, se, Get(translation, "effects")).value))
  {
  }

  /** The final advancement pass changes only `system` and `advancement`,
      and nothing at all when the output has no advancement array. */
  lemma FinalAdvancementFields(source: Json, translation: Json, out: Json)
    requires FinalAdvancement(source, translation, out).Ok?
    ensures var r := FinalAdvancement(source, translation, out).value;
      && (forall j :: j != "system" && j != "advancement" ==> Get(r, j) == Get(out, j))
      && (Table(out).Ok? && !Table(out).value.Arr? ==> r == out)
  {
    if FinalAdvancement(source, translation, out) != Ok(out) {
      AdvancementsMergeFields(out, translation);
    }
  }

  /** The final activities pass changes only `system.activities`, which it
      recomputes from the source's activities when there are any or the
      translation names some under `system`. */
  lemma FinalActivitiesFields(source: Json, translation: Json, out: Json)
    requires FinalActivities(source, translation, out).Ok?
    ensures var r := FinalActivities(source, translation, out).value;
      var sa := Get(Get(source, "system"), "activities");
      var ta := Get(Get(translation, "system"), "activities");
      && (forall j :: j != "system" ==> Get(r, j) == Get(out, j))
      && (forall j :: j != "activities" && Get(out, "system").Obj? ==> Get(Get(r, "system"), j) == Get(Get(out, "system"), j))
      && ((Truthy(sa) && |Props(sa)| > 0) || Truthy(ta) ==>
            && ActivitiesMerge(Or(sa, Empty), Or(ta, Empty)).Ok?
            && Get(Get(r, "system"), "activities") == ActivitiesMerge(Or(sa, Empty), Or(ta, Empty)).value)
      && (!((Truthy(sa) && |Props(sa)| > 0) || Truthy(ta)) ==> r == out)
  {
  }

  /** A falsy translation hands back the source itself. */
  lemma EntityFalsy(source: Json, translation: Json)
    requires !Truthy(translation)
    ensures EntityMerge(source, translation) == Ok(source)
  {
  }

  /** When the source has effects or the translation names some, the
      output's effects are exactly `safeMergeEffects(source.effects,
      translation.effects)`, whatever the keyed pass did. */
  lemma EntityEffects(source: Json, translation: Json)
    requires Truthy(translation) && EntityMerge(source, translation).Ok?
    requires Truthy(Get(Get(source, "effects"), "length")) || Truthy(Get(translation, "effects"))
    ensures Merge(Effects, Get(source, "effects"), Get(translation, "effects")).Ok?
    ensures Get(EntityMerge(source, translation).value, "effects")
         == Arr(Merge(Effects, Get(source, "effects"), Get(translation, "effects")).value)
  {
    var o1 := KeyedFold(source, source, Props(translation)).value;
    var o2 := FinalEffects(source, translation, o1).value;
    var o3 := FinalAdvancement(source, translation, o2).value;
    FinalEffectsFields(source, translation, o1);
    FinalAdvancementFields(source, translation, o2);
    FinalActivitiesFields(source, translation, o3);
  }

  /** When the source has activities under `system` or the translation
      names some there, `system.activities` is recomputed from the source's
      and `translation.system.activities || {}`: what the keyed pass wrote
      there for a top-level `activities` key is discarded. */
  lemma EntityActivitiesRecomputed(source: Json, translation: Json)
    requires Truthy(translation) && EntityMerge(source, translation).Ok?
    requires var sa := Get(Get(source, "system"), "activities");
      (Truthy(sa) && |Props(sa)| > 0) || Truthy(Get(Get(translation, "system"), "activities"))
    ensures var sa := Get(Get(source, "system"), "activities");
      var ta := Get(Get(translation, "system"), "activities");
      && ActivitiesMerge(Or(sa, Empty), Or(ta, Empty)).Ok?
      && Get(Get(EntityMerge(source, translation).value, "system"), "activities")
         == ActivitiesMerge(Or(sa, Empty), Or(ta, Empty)).value
  {
    var o1 := KeyedFold(source, source, Props(translation)).value;
    var o2 := FinalEffects(source, translation, o1).value;
    var o3 := FinalAdvancement(source, translation, o2).value;
    FinalActivitiesFields(source, translation, o3);
  }

  /** A top-level field that no translation key rewrites, and that is not
      `effects`, `system` or `advancement`, comes out as the source has
      it. */
  lemma EntityKeeps(source: Json, translation: Json, j: string)
    requires Truthy(translation) && EntityMerge(source, translation).Ok?
    requires j != "effects" && j != "system" && j != "advancement"
    requires forall i :: 0 <= i < |Props(translation)| ==> !Rewrites(Props(translation)[i].0, j)
    ensures Get(EntityMerge(source, translation).value, j) == Get(source, j)
  {
    var o1 := KeyedFold(source, source, Props(translation)).value;
    var o2 := FinalEffects(source, translation, o1).value;
    var o3 := FinalAdvancement(source, translation, o2).value;
    KeyedFoldFrame(source, source, Props(translation), j);
    FinalEffectsFields(source, translation, o1);
    FinalAdvancementFields(source, translation, o2);
    FinalActivitiesFields(source, translation, o3);
  }

  /** A translation none of whose entries rewrites the field `k`, where
      `k` is one of the fields its own key rewrites, has no value there. */
  lemma Unnamed(translation: Json, k: string)
    requires Wf(translation) && k != "length" && Rewrites(k, k)
    requires forall i :: 0 <= i < |Props(translation)| ==> !Rewrites(Props(translation)[i].0, k)
    ensures Get(translation, k) == Undefined
  {
    if HasKey(translation, k) {
      PropsHasKey(translation, k);
    }
  }

  /** The entries of `translation` leave `effects`, `system` and
      `advancement` alone. */
  ghost predicate Isolated(translation: Json) {
    var ps := Props(translation);
    && (forall i :: 0 <= i < |ps| ==> !Rewrites(ps[i].0, "effects"))
    && (forall i :: 0 <= i < |ps| ==> !Rewrites(ps[i].0, "system"))
    && (forall i :: 0 <= i < |ps| ==> !Rewrites(ps[i].0, "advancement"))
  }

  /** A translation that mentions none of `effects`, `system` and
      `advancement` (for example `{name: x}`) leaves them as the source
      has them: the final effects pass gives back the source's effects
      array, the advancement pass finds no table, and the activities pass
      recomputes `system.activities` from the source's with the empty
      table `{}`. `Wf` is the shape every JavaScript object has. */
  lemma EntityIsolates(source: Json, translation: Json)
    requires Truthy(translation) && Wf(translation) && Isolated(translation)
    requires EntityMerge(source, translation).Ok?
    ensures var r := EntityMerge(source, translation).value;
      var se := Get(source, "effects");
      && (se.Arr? || !Truthy(Get(se, "length")) ==> Get(r, "effects") == se)
      && Get(r, "system") == Get(source, "system")
      && Get(r, "advancement") == Get(source, "advancement")
  {
    var ps := Props(translation);
    Unnamed(translation, "effects");
    Unnamed(translation, "system");
    Unnamed(translation, "advancement");
    var o1 := KeyedFold(source, source, ps).value;
    KeyedFoldFrame(source, source, ps, "effects");
    KeyedFoldFrame(source, source, ps, "system");
    KeyedFoldFrame(source, source, ps, "advancement");
    var o2 := FinalEffects(source, translation, o1).value;
    FinalEffectsFields(source, translation, o1);
    AdvancementsUntouched(source, translation, o2);
    assert FinalAdvancement(source, translation, o2) == Ok(o2);
    FinalActivitiesIdle(source, translation, o2);
    assert EntityMerge(source, translation) == Ok(o2);
  }

  /** Without a table in the translation the final advancement pass is a
      no-op. */
  lemma AdvancementsUntouched(source: Json, translation: Json, o2: Json)
    requires Get(translation, "system") == Undefined && Get(translation, "advancement") == Undefined
    requires FinalAdvancement(source, translation, o2).Ok?
    ensures FinalAdvancement(source, translation, o2).value == o2
  {
    if FinalAdvancement(source, translation, o2) != Ok(o2) {
      GetProperty2(translation, "system", "advancement");
      assert Table(translation).Ok? ==> Table(translation).value == Undefined;
      AdvancementsMergeFields(o2, translation);
    }
  }

  /** Without activities under the translation's `system`, the final
      activities pass writes back what `out.system.activities` already
      holds when it is the source's. */
  lemma FinalActivitiesIdle(source: Json, translation: Json, o3: Json)
    requires Get(translation, "system") == Undefined
    requires Get(o3, "system") == Get(source, "system")
    requires FinalActivities(source, translation, o3).Ok?
    ensures FinalActivities(source, translation, o3).value == o3
  {
    var sa := Get(Get(source, "system"), "activities");
    if Truthy(sa) && |Props(sa)| > 0 {
      var sys := Get(o3, "system");
      assert ActivitiesMerge(Or(sa, Empty), Empty) == Ok(sa);
      SetIdle(sys, "activities");
      SetIdle(o3, "system");
    }
  }

  /** The empty translation `{}` hands back an object source unchanged
      when its `effects` is an array or has no truthy `length`. */
  lemma EntityEmptyTranslation(source: Json)
    requires source.Obj?
    requires var se := Get(source, "effects"); se.Arr? || !Truthy(Get(se, "length"))
    ensures EntityMerge(source, Empty) == Ok(source)
  {
    assert Props(Empty) == [];
    var se := Get(source, "effects");
    if Truthy(Get(se, "length")) {
      assert Merge(Effects, se, Undefined) == Ok(se.elems);
      SetIdle(source, "effects");
    }
    assert FinalEffects(source, Empty, source) == Ok(source);
    GetProperty2(Empty, "system", "advancement");
    assert Table(Empty) == Ok(Undefined);
    assert FinalAdvancement(source, Empty, source) == Ok(source);
    var sa := Get(Get(source, "system"), "activities");
    if Truthy(sa) && |Props(sa)| > 0 {
      assert ActivitiesMerge(Or(sa, Empty), Empty) == Ok(sa);
      SetIdle(Get(source, "system"), "activities");
      SetIdle(source, "system");
    }
  }

  /** `out` carries no advancement list, at the top level or under a
      truthy `system`. */
  predicate NoAdvancement(out: Json) {
    && Get(out, "advancement") == Undefined
    && (Truthy(Get(out, "system")) ==> Get(Get(out, "system"), "advancement") == Undefined)
  }

  /** With a translation whose last entry is a non-null top-level
      `advancement`, the keyed pass leaves no advancement list. */
  lemma KeyedLosesAdvancement(source: Json, translation: Json, v: Json)
    requires KeyedFold(source, source, Props(translation)).Ok?
    requires |Props(translation)| > 0 && Props(translation)[|Props(translation)| - 1] == ("advancement", v)
    requires !Nullish(v)
    ensures NoAdvancement(KeyedFold(source, source, Props(translation)).value)
  {
    var ps := Props(translation);
    var n := |ps| - 1;
    assert ps == ps[..n] + [("advancement", v)];
    KeyedFoldLast(source, source, ps[..n], ("advancement", v));
    var o0 := KeyedFold(source, source, ps[..n]).value;
    AdvancementEntryFields(source, o0, v);
  }

  /** The final passes bring no advancement list back. */
  lemma FinalKeepsNoAdvancement(source: Json, translation: Json, o1: Json)
    requires NoAdvancement(o1)
    requires FinalEffects(source, translation, o1).Ok?
    requires FinalAdvancement(source, translation, FinalEffects(source, translation, o1).value).Ok?
    requires var o2 := FinalEffects(source, translation, o1).value;
      FinalActivities(source, translation, FinalAdvancement(source, translation, o2).value).Ok?
    ensures var o2 := FinalEffects(source, translation, o1).value;
      var o3 := FinalAdvancement(source, translation, o2).value;
      NoAdvancement(FinalActivities(source, translation, o3).value)
  {
    var o2 := FinalEffects(source, translation, o1).value;
    EffectsKeepNoAdvancement(source, translation, o1);
    AdvancementKeepsNoAdvancement(source, translation, o2);
    ActivitiesKeepNoAdvancement(source, translation, o2);
  }

  lemma EffectsKeepNoAdvancement(source: Json, translation: Json, o1: Json)
    requires NoAdvancement(o1) && FinalEffects(source, translation, o1).Ok?
    ensures NoAdvancement(FinalEffects(source, translation, o1).value)
  {
    FinalEffectsFields(source, translation, o1);
  }

  /** Without an advancement list the final advancement pass is a no-op. */
  lemma AdvancementKeepsNoAdvancement(source: Json, translation: Json, o2: Json)
    requires NoAdvancement(o2) && FinalAdvancement(source, translation, o2).Ok?
    ensures FinalAdvancement(source, translation, o2).value == o2
  {
    GetProperty2(o2, "system", "advancement");
    assert Table(o2).Ok? ==> Table(o2).value == Undefined;
    FinalAdvancementFields(source, translation, o2);
  }

  lemma ActivitiesKeepNoAdvancement(source: Json, translation: Json, o3: Json)
    requires NoAdvancement(o3) && FinalActivities(source, translation, o3).Ok?
    ensures NoAdvancement(FinalActivities(source, translation, o3).value)
  {
    FinalActivitiesFields(source, translation, o3);
  }

  /** With a translation whose last entry is a non-null top-level
      `advancement`, the output has no `advancement`, and no
      `system.advancement` either when it has a `system`: the final
      advancement pass finds no array to work on. */
  lemma EntityLosesAdvancement(source: Json, translation: Json, v: Json)
    requires Truthy(translation) && EntityMerge(source, translation).Ok?
    requires |Props(translation)| > 0 && Props(translation)[|Props(translation)| - 1] == ("advancement", v)
    requires !Nullish(v)
    ensures NoAdvancement(EntityMerge(source, translation).value)
  {
    KeyedLosesAdvancement(source, translation, v);
    FinalKeepsNoAdvancement(source, translation, KeyedFold(source, source, Props(translation)).value);
  }

  /** A null or undefined source with a truthy translation always throws a
      `TypeError`: some property of it is read or assigned. */
  lemma EntityNullishSource(source: Json, translation: Json)
    requires Nullish(source) && Truthy(translation)
    ensures EntityMerge(source, translation) == Throw(TypeError)
  {
    NullishKeyedFold(source, Props(translation));
  }

  lemma {:induction false} NullishKeyedFold(source: Json, ps: Fields)
    requires Nullish(source)
    ensures KeyedFold(source, source, ps) == Ok(source) || KeyedFold(source, source, ps) == Throw(TypeError)
    decreases |ps|
  {
    if ps != [] {
      var k := ps[0].0;
      var v := ps[0].1;
      if Nullish(v) {
        NullishKeyedFold(source, ps[1..]);
      } else {
        assert EntryStep(source, source, k, v) == Throw(TypeError);
      }
    }
  }

  /** The body of the keyed loop: skip a null or undefined value, hand a
      structured key to its merge, overwrite any other key. */
  method ApplyKey(source: Json, out: Json, k: string, v: Json) returns (res: Result<Json>)
    ensures res == EntryStep(source, out, k, v)
  {
    if Nullish(v) {
      res := Ok(out);
    } else if k == "effects" {
      res := ApplyEffects(source, out, v);
      assert EntryStep(source, out, k, v) == EffectsEntry(source, out, v);
    } else if IsItemsKey(k) {
      res := ApplyItems(source, out, v);
      assert EntryStep(source, out, k, v) == ItemsEntry(source, out, v);
    } else if IsActivitiesKey(k) {
      res := ApplyActivities(source, out, v);
      assert EntryStep(source, out, k, v) == ActivitiesEntry(source, out, v);
    } else if IsAdvancementKey(k) {
      res := ApplyAdvancement(source, out, v);
      assert EntryStep(source, out, k, v) == AdvancementEntry(source, out, v);
    } else if k == "flags" {
      res := ApplyFlags(source, out, v);
      assert EntryStep(source, out, k, v) == FlagsEntry(source, out, v);
    } else {
      res := Write(out, k, v);
    }
  }

  method ApplyEffects(source: Json, out: Json, v: Json) returns (res: Result<Json>)
    ensures res == EffectsEntry(source, out, v)
  {
    var se :- Read(source, "effects");
    var e :- SafeMergeEffects(se, v);
    res := Write(out, "effects", Arr(e));
  }

  method ApplyItems(source: Json, out: Json, v: Json) returns (res: Result<Json>)
    requires !Nullish(v)
    ensures res == ItemsEntry(source, out, v)
  {
    var si :- Read(source, "items");
    var e :- SafeMergeEmbedded(Or(Or(si, Get(source, "embeddedItems")), Arr([])), v);
    res := Write(out, "items", Arr(e));
  }

  method ApplyFlags(source: Json, out: Json, v: Json) returns (res: Result<Json>)
    ensures res == FlagsEntry(source, out, v)
  {
    var sf :- Read(source, "flags");
    var f :- SafeMergeFlags(Or(sf, Empty), v);
    res := Write(out, "flags", f);
  }

  method ApplyActivities(source: Json, out: Json, v: Json) returns (res: Result<Json>)
    ensures res == ActivitiesEntry(source, out, v)
  {
    var sa :- Read(source, "activities");
    var a :- SafeMergeActivities(Or(sa, Empty), v);
    var o :- Write(out, "activities", a);
    assert ActivitiesEntry(source, out, v) == SystemActivities(source, o, v);
    res := ApplySystemActivities(source, o, v);
  }

  method ApplySystemActivities(source: Json, o: Json, v: Json) returns (res: Result<Json>)
    ensures res == SystemActivities(source, o, v)
  {
    var sys := Get(o, "system");
    if Truthy(sys) {
      var a2 :- SafeMergeActivities(Or(Get(Get(source, "system"), "activities"), Empty), v);
      sys :- Write(sys, "activities", a2);
      return Ok(Set(o, "system", sys));
    }
    return Ok(o);
  }

  method ApplyAdvancement(source: Json, out: Json, v: Json) returns (res: Result<Json>)
    ensures res == AdvancementEntry(source, out, v)
  {
    var sa :- Read(source, "advancement");
    var discarded :- SafeMergeAdvancements(Or(sa, Arr([])), v);
    var o :- Write(out, "advancement", Undefined);
    assert AdvancementEntry(source, out, v) == SystemAdvancement(source, o, v);
    res := ApplySystemAdvancement(source, o, v);
  }

  method ApplySystemAdvancement(source: Json, o: Json, v: Json) returns (res: Result<Json>)
    ensures res == SystemAdvancement(source, o, v)
  {
    var sys := Get(o, "system");
    if Truthy(sys) {
      var discarded :- SafeMergeAdvancements(Or(Get(Get(source, "system"), "advancement"), Arr([])), v);
      sys :- Write(sys, "advancement", Undefined);
      return Ok(Set(o, "system", sys));
    }
    return Ok(o);
  }

  /** `safeMergeEntity`, with its loop over `Object.entries(translation)`
      and the three final passes. */
  method SafeMergeEntity(source: Json, translation: Json) returns (res: Result<Json>)
    ensures res == EntityMerge(source, translation)
  {
    if !Truthy(translation) {
      return Ok(source);
    }
    var out :- KeyedPass(source, Props(translation));
    out :- ApplyFinalEffects(source, translation, out);
    out :- ApplyFinalAdvancement(source, translation, out);
    res := ApplyFinalActivities(source, translation, out);
  }

  /** `for (const [k, v] of Object.entries(translation))` over a copy of
      the source. */
  method KeyedPass(source: Json, ps: Fields) returns (res: Result<Json>)
    ensures res == KeyedFold(source, source, ps)
  {
    var out := source;
    var i := 0;
    while i < |ps|
      invariant 0 <= i <= |ps|
      invariant KeyedFold(source, out, ps[i..]) == KeyedFold(source, source, ps)
    {
      assert ps[i..][0] == ps[i] && ps[i..][1..] == ps[i + 1..];
      out :- ApplyKey(source, out, ps[i].0, ps[i].1);
      i := i + 1;
    }
    assert ps[i..] == [];
    return Ok(out);
  }

  method ApplyFinalEffects(source: Json, translation: Json, out: Json) returns (res: Result<Json>)
    ensures res == FinalEffects(source, translation, out)
  {
    var se :- Read(source, "effects");
    res := Ok(out);
    if Truthy(Get(se, "length")) || Truthy(Get(translation, "effects")) {
      var e :- SafeMergeEffects(se, Get(translation, "effects"));
      res := Write(out, "effects", Arr(e));
    }
  }

  method ApplyFinalAdvancement(source: Json, translation: Json, out: Json) returns (res: Result<Json>)
    ensures res == FinalAdvancement(source, translation, out)
  {
    res := Ok(out);
    if Truthy(Get(Get(Get(source, "system"), "advancement"), "length"))
       || Truthy(Get(Get(translation, "system"), "advancement"))
    {
      res := SafeMergeAdvancements(out, translation);
    }
  }

  method ApplyFinalActivities(source: Json, translation: Json, out: Json) returns (res: Result<Json>)
    ensures res == FinalActivities(source, translation, out)
  {
    res := Ok(out);
    var sa := Get(Get(source, "system"), "activities");
    var ta := Get(Get(translation, "system"), "activities");
    if (Truthy(sa) && |Props(sa)| > 0) || Truthy(ta) {
      var sys := Get(out, "system");
      var a :- SafeMergeActivities(Or(sa, Empty), Or(ta, Empty));
      sys :- Write(sys, "activities", a);
      res := Write(out, "system", sys);
    }
  }
}
