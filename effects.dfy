/** The text patch of a matched active effect (`applyEffectTextFields`) and
    the effect synthesised for a translation entry that matches nothing. */
module EffectText {
  import opened Values

  /** The default icon of a synthesised effect. */
  const MysteryMan := "icons/svg/mystery-man.svg"

  /** The fields a matched effect may have rewritten. */
  predicate Patched(f: string) {
    f == "label" || f == "icon" || f == "flags" || f == "description"
  }

  /** `applyEffectTextFields(target, te)` on values: `label` from `name`,
      then from `label`, then `icon`, each only when truthy; a truthy
      `description` is stored under `flags.babele` and, through
      `setProperty`, at the top level and under `flags.dnd5e` and
      `flags.core`. */
  function EffectPatch(target: Json, te: Json): Result<Json> {
    var t3 :- Relabelled(target, te);
    var desc := Get(te, "description");
    if Truthy(desc) then Describe(t3, desc) else Ok(t3)
  }

  /** The three plain assignments of `applyEffectTextFields`: `label`
      from `name`, then from `label`, then `icon`. */
  function Relabelled(target: Json, te: Json): Result<Json> {
    var name :- Read(te, "name");
    var t1 :- if Truthy(name) then Write(target, "label", name) else Ok(target);
    var caption := Get(te, "label");
    var t2 :- if Truthy(caption) then Write(t1, "label", caption) else Ok(t1);
    var icon := Get(te, "icon");
    if Truthy(icon) then Write(t2, "icon", icon) else Ok(t2)
  }

  /** The description branch of `applyEffectTextFields`. */
  function Describe(t: Json, desc: Json): Result<Json> {
    var t3 :- Nest(t, "flags", "babele", "description", desc);
    Mirror(t3, desc)
  }

  /** The three `setProperty` copies of the description. */
  function Mirror(t: Json, desc: Json): Result<Json> {
    var t4 :- SetProperty(t, ["description"], desc);
    var t5 :- SetProperty(t4, ["flags", "dnd5e", "description"], desc);
    SetProperty(t5, ["flags", "core", "description"], desc)
  }

  /** `applyEffectTextFields`, statement by statement. */
  method ApplyEffectTextFields(target: Json, te: Json) returns (res: Result<Json>)
    ensures res == EffectPatch(target, te)
  {
    var t :- RelabelEffect(target, te);
    var desc := Get(te, "description");
    if Truthy(desc) {
      res := DescribeEffect(t, desc);
    } else {
      res := Ok(t);
    }
  }

  /** The `label` and `icon` assignments. */
  method RelabelEffect(target: Json, te: Json) returns (res: Result<Json>)
    ensures res == Relabelled(target, te)
  {
    var name :- Read(te, "name");
    var t := target;
    if Truthy(name) {
      t :- Write(t, "label", name);
    }
    var caption := Get(te, "label");
    if Truthy(caption) {
      t :- Write(t, "label", caption);
    }
    var icon := Get(te, "icon");
    if Truthy(icon) {
      t :- Write(t, "icon", icon);
    }
    return Ok(t);
  }

  /** The description branch: the nested store under `flags.babele`, then
      the three `setProperty` copies. */
  method DescribeEffect(t0: Json, desc: Json) returns (res: Result<Json>)
    ensures res == Describe(t0, desc)
  {
    var flags :- Read(t0, "flags");
    var t :- Write(t0, "flags", Or(flags, Empty));
    t :- Assign(t, ["flags", "babele"], Or(Get(Get(t, "flags"), "babele"), Empty));
    t :- Assign(t, ["flags", "babele", "description"], desc);
    assert Nest(t0, "flags", "babele", "description", desc) == Ok(t);
    t :- SetProperty(t, ["description"], desc);
    t :- SetProperty(t, ["flags", "dnd5e", "description"], desc);
    res := SetProperty(t, ["flags", "core", "description"], desc);
  }

  /** `setProperty` can reach `flags.dnd5e` and `flags.core`. */
  predicate MirrorReady(t: Json) {
    && t.Obj?
    && Container(t, "flags")
    && Container(Child(t, "flags"), "dnd5e")
    && Container(Child(t, "flags"), "core")
  }

  /** The effect's `flags` can take the description in all four places. */
  predicate DescribableFlags(t: Json) {
    && NestReady(t, "flags", "babele")
    && (Get(t, "flags").Obj? ==> Container(Get(t, "flags"), "dnd5e") && Container(Get(t, "flags"), "core"))
  }

  /** The three copies succeed exactly when `setProperty` can reach
      `flags.dnd5e` and `flags.core`. */
  lemma MirrorOk(t: Json, desc: Json)
    ensures Mirror(t, desc).Ok? <==> MirrorReady(t)
  {
    if t.Obj? {
      var t4 := Set(t, "description", desc);
      assert SetProperty(t, ["description"], desc) == Ok(t4);
      assert Child(t4, "flags") == Child(t, "flags");
      assert Container(t4, "flags") == Container(t, "flags");
      var f := Child(t, "flags");
      if Container(t, "flags") && Container(f, "dnd5e") {
        var f5 := Set(f, "dnd5e", Set(Child(f, "dnd5e"), "description", desc));
        var t5 := Set(t4, "flags", f5);
        SetPropertyIs3(t4, "flags", "dnd5e", "description", desc);
        assert Child(t5, "flags") == f5;
        assert Child(f5, "core") == Child(f, "core");
        if Container(f, "core") {
          SetPropertyIs3(t5, "flags", "core", "description", desc);
        } else {
          SetPropertyFails3(t5, "flags", "core", "description", desc);
        }
      } else {
        SetPropertyFails3(t4, "flags", "dnd5e", "description", desc);
      }
    }
  }

  /** The three `setProperty` calls of `Mirror`, one after the other. */
  lemma MirrorSteps(t: Json, desc: Json)
    requires MirrorReady(t)
    ensures SetProperty(t, ["description"], desc).Ok?
    ensures var t4 := SetProperty(t, ["description"], desc).value;
      && SetProperty(t4, ["flags", "dnd5e", "description"], desc).Ok?
      && var t5 := SetProperty(t4, ["flags", "dnd5e", "description"], desc).value;
      && Mirror(t, desc) == SetProperty(t5, ["flags", "core", "description"], desc)
      && Mirror(t, desc).Ok?
  {
    MirrorOk(t, desc);
  }

  /** The three copies land in place, and only `description`, `flags.dnd5e`
      and `flags.core` change. */
  lemma MirrorFields(t: Json, desc: Json)
    requires MirrorReady(t)
    ensures Mirror(t, desc).Ok?
    ensures var r := Mirror(t, desc).value;
      && Get(r, "description") == desc
      && Get(Get(Get(r, "flags"), "dnd5e"), "description") == desc
      && Get(Get(Get(r, "flags"), "core"), "description") == desc
      && (forall j :: j != "flags" && j != "description" ==> Get(r, j) == Get(t, j))
      && (forall j :: j != "dnd5e" && j != "core" ==> Get(Get(r, "flags"), j) == Get(Child(t, "flags"), j))
  {
    MirrorSteps(t, desc);
    var t4 := SetProperty(t, ["description"], desc).value;
    var t5 := SetProperty(t4, ["flags", "dnd5e", "description"], desc).value;
    var r := Mirror(t, desc).value;
    SetPropertyChanged1(t, t4, "description", desc);
    SetPropertyChanged3(t4, t5, "flags", "dnd5e", "description", desc);
    SetPropertyChanged3(t5, r, "flags", "core", "description", desc);
    forall j | j != "dnd5e" && j != "core"
      ensures Get(Get(r, "flags"), j) == Get(Child(t, "flags"), j)
    {
      assert Get(Get(r, "flags"), j) == Get(Get(t5, "flags"), j) == Get(Get(t4, "flags"), j);
    }
  }

  /** Inside `flags.dnd5e` and `flags.core`, the copies change only
      `description`. */
  lemma MirrorInner(t: Json, desc: Json)
    requires MirrorReady(t)
    ensures Mirror(t, desc).Ok?
    ensures var r := Mirror(t, desc).value;
      && (forall j :: j != "description" ==>
            Get(Get(Get(r, "flags"), "dnd5e"), j) == Get(Child(Child(t, "flags"), "dnd5e"), j))
      && (forall j :: j != "description" ==>
            Get(Get(Get(r, "flags"), "core"), j) == Get(Child(Child(t, "flags"), "core"), j))
  {
    MirrorSteps(t, desc);
    var t4 := Set(t, "description", desc);
    assert SetProperty(t, ["description"], desc) == Ok(t4);
    var f := Child(t, "flags");
    assert Child(t4, "flags") == f;
    SetPropertyIs3(t4, "flags", "dnd5e", "description", desc);
    SetPropertyInner3(t4, "flags", "dnd5e", "description", desc);
    var f5 := Set(f, "dnd5e", Set(Child(f, "dnd5e"), "description", desc));
    var t5 := Set(t4, "flags", f5);
    assert Child(t5, "flags") == f5;
    assert Child(f5, "core") == Child(f, "core");
    SetPropertyIs3(t5, "flags", "core", "description", desc);
    SetPropertyInner3(t5, "flags", "core", "description", desc);
    var r := Mirror(t, desc).value;
    assert Get(Get(r, "flags"), "dnd5e") == Get(f5, "dnd5e");
  }

  /** Every entry of an object `flags` value `f` other than the
      description is kept in the new value `g`:
      the other namespaces whole, and every other key of `babele` (when it
      is an object), `dnd5e` and `core`. */
  ghost predicate FlagsKept(f: Json, g: Json) {
    f.Obj? ==>
      && (forall j :: j != "babele" && j != "dnd5e" && j != "core" ==> Get(g, j) == Get(f, j))
      && (Get(f, "babele").Obj? ==>
            forall j :: j != "description" ==> Get(Get(g, "babele"), j) == Get(Get(f, "babele"), j))
      && (forall j :: j != "description" ==> Get(Get(g, "dnd5e"), j) == Get(Get(f, "dnd5e"), j))
      && (forall j :: j != "description" ==> Get(Get(g, "core"), j) == Get(Get(f, "core"), j))
  }

  /** The description branch keeps every flag it does not write. */
  lemma DescribeKeeps(t: Json, desc: Json)
    requires Describe(t, desc).Ok?
    ensures FlagsKept(Get(t, "flags"), Get(Describe(t, desc).value, "flags"))
  {
    var f := Get(t, "flags");
    if f.Obj? {
      DescribeOk(t, desc);
      NestIs(t, "flags", "babele", "description", desc);
      var t3 := Nest(t, "flags", "babele", "description", desc).value;
      var b := Or(Get(f, "babele"), Empty);
      var f3 := Set(f, "babele", Set(b, "description", desc));
      assert Child(t3, "flags") == f3;
      MirrorOk(t3, desc);
      MirrorFields(t3, desc);
      MirrorInner(t3, desc);
      assert Child(f3, "dnd5e") == Child(f, "dnd5e");
      assert Child(f3, "core") == Child(f, "core");
      ChildGet(f, "dnd5e");
      ChildGet(f, "core");
    }
  }

  /** The description branch succeeds exactly when the effect is an object
      whose flags can take the description in all four places. */
  lemma DescribeOk(t: Json, desc: Json)
    ensures Describe(t, desc).Ok? <==> t.Obj? && DescribableFlags(t)
  {
    NestIs(t, "flags", "babele", "description", desc);
    if Nest(t, "flags", "babele", "description", desc).Ok? {
      var t3 := Nest(t, "flags", "babele", "description", desc).value;
      MirrorOk(t3, desc);
      var f := Get(t, "flags");
      var f1 := Or(f, Empty);
      var b := Or(Get(f1, "babele"), Empty);
      var f3 := Set(f1, "babele", Set(b, "description", desc));
      assert Child(t3, "flags") == f3;
      assert Container(f3, "dnd5e") == Container(f1, "dnd5e");
      assert Container(f3, "core") == Container(f1, "core");
    }
  }

  /** The description lands in all four places, and nothing else changes
      but the top-level `flags` and `description` and, inside `flags`, the
      `babele`, `dnd5e` and `core` entries. */
  lemma DescribeFields(t: Json, desc: Json)
    requires Describe(t, desc).Ok?
    ensures var r := Describe(t, desc).value;
      && Get(Get(Get(r, "flags"), "babele"), "description") == desc
      && Get(r, "description") == desc
      && Get(Get(Get(r, "flags"), "dnd5e"), "description") == desc
      && Get(Get(Get(r, "flags"), "core"), "description") == desc
      && (forall j :: j != "flags" && j != "description" ==> Get(r, j) == Get(t, j))
      && (Get(t, "flags").Obj? ==>
            forall j :: j != "babele" && j != "dnd5e" && j != "core" ==>
              Get(Get(r, "flags"), j) == Get(Get(t, "flags"), j))
  {
    NestIs(t, "flags", "babele", "description", desc);
    var t3 := Nest(t, "flags", "babele", "description", desc).value;
    MirrorOk(t3, desc);
    MirrorFields(t3, desc);
    var f1 := Or(Get(t, "flags"), Empty);
    var b := Or(Get(f1, "babele"), Empty);
    var f3 := Set(f1, "babele", Set(b, "description", desc));
    assert Child(t3, "flags") == f3;
  }

  /** The matched-effect patch: `label` comes from the translation's
      `label`, else its `name`, else stays; `icon` is overwritten when given;
      a given description is written to all four places, keeping every
      other flag; `changes`,
      `duration`, `disabled`, the effect's own `name` and every other field
      but `flags` and `description` are untouched. */
  lemma EffectPatchFields(target: Json, te: Json)
    requires EffectPatch(target, te).Ok?
    ensures var r := EffectPatch(target, te).value;
      var desc := Get(te, "description");
      && Get(r, "label") == Or(Get(te, "label"), Or(Get(te, "name"), Get(target, "label")))
      && Get(r, "icon") == Or(Get(te, "icon"), Get(target, "icon"))
      && (forall j :: !Patched(j) ==> Get(r, j) == Get(target, j))
      && (!Truthy(desc) ==> Get(r, "flags") == Get(target, "flags") && Get(r, "description") == Get(target, "description"))
      && (Truthy(desc) ==>
            && Get(Get(Get(r, "flags"), "babele"), "description") == desc
            && Get(r, "description") == desc
            && Get(Get(Get(r, "flags"), "dnd5e"), "description") == desc
            && Get(Get(Get(r, "flags"), "core"), "description") == desc
            && FlagsKept(Get(target, "flags"), Get(r, "flags")))
  {
    if Truthy(Get(te, "description")) {
      EffectPatchDescribed(target, te);
    } else {
      RelabelledFields(target, te);
    }
  }

  /** The patch with a description to write. */
  lemma EffectPatchDescribed(target: Json, te: Json)
    requires EffectPatch(target, te).Ok? && Truthy(Get(te, "description"))
    ensures var r := EffectPatch(target, te).value;
      var desc := Get(te, "description");
      && Get(r, "label") == Or(Get(te, "label"), Or(Get(te, "name"), Get(target, "label")))
      && Get(r, "icon") == Or(Get(te, "icon"), Get(target, "icon"))
      && (forall j :: !Patched(j) ==> Get(r, j) == Get(target, j))
      && Get(Get(Get(r, "flags"), "babele"), "description") == desc
      && Get(r, "description") == desc
      && Get(Get(Get(r, "flags"), "dnd5e"), "description") == desc
      && Get(Get(Get(r, "flags"), "core"), "description") == desc
      && FlagsKept(Get(target, "flags"), Get(r, "flags"))
  {
    RelabelledFields(target, te);
    var t3 := Relabelled(target, te).value;
    var desc := Get(te, "description");
    DescribeFields(t3, desc);
    DescribeKeeps(t3, desc);
  }

  /** The assignments succeed exactly when the translation is not null or
      undefined and the effect is an object whenever one of them runs. */
  lemma RelabelledOk(target: Json, te: Json)
    ensures Relabelled(target, te).Ok? <==>
      && !Nullish(te)
      && ((Truthy(Get(te, "name")) || Truthy(Get(te, "label")) || Truthy(Get(te, "icon"))) ==> target.Obj?)
  {
  }

  /** `label` becomes the translation's `label`, else its `name`, else
      stays; `icon` is overwritten when given; nothing else changes. */
  lemma RelabelledFields(target: Json, te: Json)
    requires Relabelled(target, te).Ok?
    ensures var t3 := Relabelled(target, te).value;
      && Get(t3, "label") == Or(Get(te, "label"), Or(Get(te, "name"), Get(target, "label")))
      && Get(t3, "icon") == Or(Get(te, "icon"), Get(target, "icon"))
      && (forall j :: j != "label" && j != "icon" ==> Get(t3, j) == Get(target, j))
      && (t3.Obj? <==> target.Obj?)
  {
  }

  /** The patch succeeds exactly when the translation is not null or
      undefined, the effect is an object whenever something is written to
      it, and its flags can take a given description. */
  lemma EffectPatchOk(target: Json, te: Json)
    ensures EffectPatch(target, te).Ok? <==>
      var desc := Get(te, "description");
      && !Nullish(te)
      && ((Truthy(Get(te, "name")) || Truthy(Get(te, "label")) || Truthy(Get(te, "icon")) || Truthy(desc)) ==> target.Obj?)
      && (Truthy(desc) ==> DescribableFlags(target))
  {
    RelabelledOk(target, te);
    if Relabelled(target, te).Ok? {
      RelabelledFields(target, te);
      var t3 := Relabelled(target, te).value;
      var desc := Get(te, "description");
      assert Container(Get(t3, "flags"), "dnd5e") == Container(Get(target, "flags"), "dnd5e");
      assert Container(Get(t3, "flags"), "core") == Container(Get(target, "flags"), "core");
      DescribeOk(t3, desc);
    }
  }

  /** The object literal of a synthesised effect. */
  function NewEffectShell(te: Json): Json {
    Obj(["label", "icon", "changes", "duration", "disabled", "flags"], map[
      "label" := Or(Or(Get(te, "name"), Get(te, "_key")), Str("Unnamed Effect")),
      "icon" := Or(Get(te, "icon"), Str(MysteryMan)),
      "changes" := Or(Get(te, "changes"), Arr([])),
      "duration" := Or(Get(te, "duration"), Empty),
      "disabled" := Or(Get(te, "disabled"), Bool(false)),
      "flags" := Or(Get(te, "flags"), Empty)])
  }

  /** The effect built for a translation entry that matched nothing. */
  function NewEffect(te: Json): Result<Json> {
    var e := NewEffectShell(te);
    var desc := Get(te, "description");
    if Truthy(desc) then Nest(e, "flags", "babele", "description", desc) else Ok(e)
  }

  /** Synthesising fails only when the translation's own `flags` (or their
      `babele`) cannot hold a given description. */
  lemma NewEffectOk(te: Json)
    ensures var flags := Or(Get(te, "flags"), Empty);
      NewEffect(te).Ok? <==>
        !Truthy(Get(te, "description")) || (flags.Obj? && (Get(flags, "babele").Obj? || !Truthy(Get(flags, "babele"))))
  {
    NestIs(NewEffectShell(te), "flags", "babele", "description", Get(te, "description"));
  }

  /** A synthesised effect: `label` is `name || _key || "Unnamed Effect"`
      (the translation's own `label` plays no part), the mechanical fields
      take the translation's values or empty defaults, and a description is
      kept under `flags.babele` beside the translation's other flags. */
  lemma NewEffectFields(te: Json)
    requires NewEffect(te).Ok?
    ensures var r := NewEffect(te).value;
      var flags := Or(Get(te, "flags"), Empty);
      var desc := Get(te, "description");
      && Get(r, "label") == Or(Or(Get(te, "name"), Get(te, "_key")), Str("Unnamed Effect"))
      && Get(r, "icon") == Or(Get(te, "icon"), Str(MysteryMan))
      && Get(r, "changes") == Or(Get(te, "changes"), Arr([]))
      && Get(r, "duration") == Or(Get(te, "duration"), Empty)
      && Get(r, "disabled") == Or(Get(te, "disabled"), Bool(false))
      && (!Truthy(desc) ==> Get(r, "flags") == flags)
      && (Truthy(desc) ==>
            && Get(Get(Get(r, "flags"), "babele"), "description") == desc
            && forall j :: j != "babele" ==> Get(Get(r, "flags"), j) == Get(flags, j))
  {
    var e := NewEffectShell(te);
    var desc := Get(te, "description");
    NestIs(e, "flags", "babele", "description", desc);
  }
}
