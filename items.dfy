/** The patch of a matched embedded item and the item synthesised for a
    translation entry that matches nothing (the two branches of the
    translation loop of `safeMergeEmbedded`). */
module ItemText {
  import opened Values

  /** `te.system && te.system.description &&
      typeof te.system.description.value === "string"`. */
  predicate TextDescription(te: Json) {
    var sys := Get(te, "system");
    && Truthy(sys)
    && Truthy(Get(sys, "description"))
    && Get(Get(sys, "description"), "value").Str?
  }

  /** The translated description text, when `TextDescription` holds. */
  function DescriptionText(te: Json): Json {
    Get(Get(Get(te, "system"), "description"), "value")
  }

  /** The matched-item patch on values: `name` when truthy, then
      `system.description.value` when the translation carries a string
      there, creating `system` and `system.description` when falsy. */
  function ItemPatch(target: Json, te: Json): Result<Json> {
    var name :- Read(te, "name");
    var t1 :- if Truthy(name) then Write(target, "name", name) else Ok(target);
    if TextDescription(te) then Nest(t1, "system", "description", "value", DescriptionText(te))
    else Ok(t1)
  }

  /** The matched-item branch, statement by statement. */
  method PatchItem(target: Json, te: Json) returns (res: Result<Json>)
    ensures res == ItemPatch(target, te)
  {
    var name :- Read(te, "name");
    var t := target;
    if Truthy(name) {
      t :- Write(t, "name", name);
    }
    if TextDescription(te) {
      var sys :- Read(t, "system");
      t :- Write(t, "system", Or(sys, Empty));
      t :- Assign(t, ["system", "description"], Or(Get(Get(t, "system"), "description"), Empty));
      t :- Assign(t, ["system", "description", "value"], DescriptionText(te));
    }
    return Ok(t);
  }

  /** The patch succeeds exactly when the translation is not null or
      undefined, the item is an object whenever something is written to
      it, and its `system` and `system.description` are objects or falsy
      when a description is written. */
  lemma ItemPatchOk(target: Json, te: Json)
    ensures ItemPatch(target, te).Ok? <==>
      && !Nullish(te)
      && ((Truthy(Get(te, "name")) || TextDescription(te)) ==> target.Obj?)
      && (TextDescription(te) ==> NestReady(target, "system", "description"))
  {
    if !Nullish(te) {
      var name := Get(te, "name");
      var t1 := if Truthy(name) && target.Obj? then Set(target, "name", name) else target;
      assert Get(t1, "system") == Get(target, "system");
      NestIs(t1, "system", "description", "value", DescriptionText(te));
    }
  }

  /** The patch overwrites `name` when the translation has one, stores a
      string description at `system.description.value` keeping every other
      entry of an existing `system` and `system.description`, and leaves every other
      field of the item (`type`, `flags`, `_id`, ...) as it was. */
  lemma ItemPatchFields(target: Json, te: Json)
    requires ItemPatch(target, te).Ok?
    ensures var r := ItemPatch(target, te).value;
      && Get(r, "name") == Or(Get(te, "name"), Get(target, "name"))
      && (forall j :: j != "name" && j != "system" ==> Get(r, j) == Get(target, j))
      && (!TextDescription(te) ==> Get(r, "system") == Get(target, "system"))
      && (TextDescription(te) ==>
            && Get(Get(Get(r, "system"), "description"), "value") == DescriptionText(te)
            && (Get(target, "system").Obj? ==>
                  forall j :: j != "description" ==>
                    Get(Get(r, "system"), j) == Get(Get(target, "system"), j))
            && (Get(Get(target, "system"), "description").Obj? ==>
                  forall j :: j != "value" ==>
                    Get(Get(Get(r, "system"), "description"), j) == Get(Get(Get(target, "system"), "description"), j)))
  {
    var name := Get(te, "name");
    var t1 := if Truthy(name) then Set(target, "name", name) else target;
    assert Get(t1, "system") == Get(target, "system");
    NestIs(t1, "system", "description", "value", DescriptionText(te));
  }

  /** The object literal of a synthesised item. */
  function NewItem(te: Json): Json {
    Obj(["name", "type", "system", "flags"], map[
      "name" := Or(Or(Get(te, "name"), Get(te, "_key")), Str("Unnamed")),
      "type" := Or(Get(te, "type"), Str("item")),
      "system" := Or(Get(te, "system"), Empty),
      "flags" := Or(Get(te, "flags"), Empty)])
  }

  /** A synthesised item is a well-formed object with exactly the four
      fields `name`, `type`, `system` and `flags`, all truthy: `name` falls
      back to the translation key and then to "Unnamed", `type` to "item",
      and `system` and `flags` to `{}`. */
  lemma NewItemFields(te: Json)
    ensures var r := NewItem(te);
      && Wf(r)
      && r.keys == ["name", "type", "system", "flags"]
      && Truthy(Get(r, "name")) && Truthy(Get(r, "type"))
      && Truthy(Get(r, "system")) && Truthy(Get(r, "flags"))
      && Get(r, "name") == Or(Or(Get(te, "name"), Get(te, "_key")), Str("Unnamed"))
      && Get(r, "type") == Or(Get(te, "type"), Str("item"))
      && Get(r, "system") == Or(Get(te, "system"), Empty)
      && Get(r, "flags") == Or(Get(te, "flags"), Empty)
  {
  }
}
