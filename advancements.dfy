/** `safeMergeAdvancements`: stamps translated titles and hints onto the
    advancement entries of a document whose `title` exactly equals a key of
    the translation's advancement table. The source function mutates the
    entries in place and returns `undefined`; here it returns the updated
    document, and the entity merge uses `Undefined` where it uses the
    return value. */
module Advancements {
  import opened Values

  /** `a || o.k`: the property is read (and may throw) only when `a` is
      falsy. */
  function OrRead(a: Json, o: Json, k: string): Result<Json> {
    if Truthy(a) then Ok(a) else Read(o, k)
  }

  /** `Object.entries(tAdv).find(([key]) => key === adv.title)`: the value
      of the first entry whose key is exactly the title. `adv.title` is read
      once per entry tried, so a null or undefined `adv` throws only when
      there is an entry to try. */
  function FindEntry(ps: Fields, adv: Json): (r: Result<Option<Json>>)
    ensures r.Throw? <==> ps != [] && Nullish(adv)
    decreases |ps|
  {
    if ps == [] then Ok(None)
    else
      var title :- Read(adv, "title");
      if Str(ps[0].0) == title then Ok(Some(ps[0].1)) else FindEntry(ps[1..], adv)
  }

  /** A value found belongs to the first entry whose key is exactly the
      title; nothing is found exactly when no key is. */
  lemma {:induction false} FindEntryHit(ps: Fields, adv: Json)
    requires FindEntry(ps, adv).Ok?
    ensures var r := FindEntry(ps, adv).value;
      && (r.Some? ==>
            exists i :: 0 <= i < |ps| && Get(adv, "title") == Str(ps[i].0) && r.value == ps[i].1
              && forall j :: 0 <= j < i ==> Get(adv, "title") != Str(ps[j].0))
      && (r.None? <==> forall i :: 0 <= i < |ps| ==> Get(adv, "title") != Str(ps[i].0))
    decreases |ps|
  {
    if ps != [] && Str(ps[0].0) != Get(adv, "title") {
      var r := FindEntry(ps, adv).value;
      assert FindEntry(ps, adv) == FindEntry(ps[1..], adv);
      FindEntryHit(ps[1..], adv);
      if r.Some? {
        var i :| 0 <= i < |ps[1..]| && Get(adv, "title") == Str(ps[1..][i].0) && r.value == ps[1..][i].1
          && forall j :: 0 <= j < i ==> Get(adv, "title") != Str(ps[1..][j].0);
        assert ps[1..][i] == ps[i + 1];
        forall j | 0 <= j < i + 1 ensures Get(adv, "title") != Str(ps[j].0) {
          if j > 0 { assert ps[1..][j - 1] == ps[j]; }
        }
      } else {
        forall i | 0 <= i < |ps| ensures Get(adv, "title") != Str(ps[i].0) {
          if i > 0 { assert ps[1..][i - 1] == ps[i]; }
        }
      }
    }
  }

  /** The loop body for one advancement entry. */
  function AdvStep(adv: Json, ps: Fields): Result<Json> {
    var m :- FindEntry(ps, adv);
    if m.None? then Ok(adv)
    else
      var value := m.value;
      var name :- Read(value, "name");
      var desc := Get(value, "description");
      var a2 :- Relabel(adv, name, desc);
      Stamp(a2, Or(name, Get(a2, "title")), desc)
  }

  /** `if (value.name && adv.title !== value.name) adv.title = value.name;
      if (value.description) adv.hint = value.description;` */
  function Relabel(adv: Json, name: Json, desc: Json): Result<Json> {
    var a1 :- if Truthy(name) && Get(adv, "title") != name then Write(adv, "title", name) else Ok(adv);
    if Truthy(desc) then Write(a1, "hint", desc) else Ok(a1)
  }

  /** The two `setProperty` calls recording the name and the description
      (or, failing a translated one, the current hint) under
      `flags.babele`. */
  function Stamp(a2: Json, n: Json, desc: Json): Result<Json> {
    var a3 :- SetProperty(a2, ["flags", "babele", "name"], n);
    SetProperty(a3, ["flags", "babele", "description"], Or(desc, Get(a3, "hint")))
  }

  /** The `for (let adv of oAdv)` loop from position `i` on, each entry
      updated where it stands. */
  function AdvFrom(advs: seq<Json>, ps: Fields, i: nat): Result<seq<Json>>
    requires i <= |advs|
    decreases |advs| - i
  {
    if i == |advs| then Ok(advs)
    else
      var a :- AdvStep(advs[i], ps);
      AdvFrom(advs[i := a], ps, i + 1)
  }

  /** `getProperty(o, "system.advancement") || o.advancement`: where both
      the translation's table and the document's list are looked up. */
  function Table(o: Json): Result<Json> {
    OrRead(GetProperty(o, ["system", "advancement"]), o, "advancement")
  }

  /** The document `target` after `safeMergeAdvancements(target, translated)`:
      the translation's table is `translated.system.advancement ||
      translated.advancement`, the document's list is
      `target.system.advancement || target.advancement`, and nothing happens
      unless the list is an array and the table is truthy. */
  function AdvancementsMerge(target: Json, translated: Json): Result<Json> {
    var tAdv :- Table(translated);
    var inSystem := GetProperty(target, ["system", "advancement"]);
    var oAdv :- Table(target);
    if !oAdv.Arr? || !Truthy(tAdv) then Ok(target)
    else
      var advs :- AdvFrom(oAdv.elems, Props(tAdv), 0);
      if Truthy(inSystem) then Ok(PutProperty(target, ["system", "advancement"], Arr(advs)))
      else
        assert target.Obj?;
        Ok(Set(target, "advancement", Arr(advs)))
  }

  /** The advancement fields a matched entry may have rewritten. */
  predicate Stamped(f: string) {
    f == "title" || f == "hint" || f == "flags"
  }

  /** `flags.babele` of an entry can be reached by `setProperty`. */
  predicate Stampable(adv: Json) {
    Container(adv, "flags") && Container(Child(adv, "flags"), "babele")
  }

  /** The stamp succeeds exactly on an object whose `flags` and
      `flags.babele` are absent or objects. */
  lemma StampOk(a2: Json, n: Json, desc: Json)
    ensures Stamp(a2, n, desc).Ok? <==> a2.Obj? && Stampable(a2)
  {
    if a2.Obj? && Stampable(a2) {
      StampFields(a2, n, desc);
    } else {
      SetPropertyFails3(a2, "flags", "babele", "name", n);
    }
  }

  /** The stamp then holds the name and the description (or the hint), and
      changes nothing else. */
  lemma StampFields(a2: Json, n: Json, desc: Json)
    requires a2.Obj? && Stampable(a2)
    ensures Stamp(a2, n, desc).Ok?
    ensures var r := Stamp(a2, n, desc).value;
      && Get(Get(Get(r, "flags"), "babele"), "name") == n
      && Get(Get(Get(r, "flags"), "babele"), "description") == Or(desc, Get(a2, "hint"))
      && (forall j :: j != "flags" ==> Get(r, j) == Get(a2, j))
      && (forall j :: j != "babele" ==> Get(Get(r, "flags"), j) == Get(Child(a2, "flags"), j))
  {
    SetPropertyIs3(a2, "flags", "babele", "name", n);
    var f := Child(a2, "flags");
    var b := Child(f, "babele");
    var f3 := Set(f, "babele", Set(b, "name", n));
    var a3 := Set(a2, "flags", f3);
    assert Child(a3, "flags") == f3;
    assert Child(f3, "babele") == Set(b, "name", n);
    var d := Or(desc, Get(a3, "hint"));
    SetPropertyIs3(a3, "flags", "babele", "description", d);
    assert Stamp(a2, n, desc) == SetProperty(a3, ["flags", "babele", "description"], d);
  }

  /** Relabelling an object succeeds; the title becomes the truthy name, the
      hint the truthy description, and nothing else changes. */
  lemma RelabelFields(adv: Json, name: Json, desc: Json)
    requires adv.Obj?
    ensures Relabel(adv, name, desc).Ok?
    ensures var a2 := Relabel(adv, name, desc).value;
      && a2.Obj?
      && Get(a2, "title") == Or(name, Get(adv, "title"))
      && Get(a2, "hint") == Or(desc, Get(adv, "hint"))
      && (forall j :: j != "title" && j != "hint" ==> Get(a2, j) == Get(adv, j))
      && Child(a2, "flags") == Child(adv, "flags")
      && Stampable(a2) == Stampable(adv)
  {
    RelabelIs(adv, name, desc);
    if Truthy(name) && Get(adv, "title") != name {
      SetKeepsFlags(adv, "title", name);
      RelabelHint(Set(adv, "title", name), desc);
    } else {
      RelabelHint(adv, desc);
    }
  }

  /** The conditional `hint` assignment. */
  lemma RelabelHint(a1: Json, desc: Json)
    requires a1.Obj?
    ensures var a2 := if Truthy(desc) then Set(a1, "hint", desc) else a1;
      && a2.Obj?
      && Get(a2, "hint") == Or(desc, Get(a1, "hint"))
      && (forall j :: j != "hint" ==> Get(a2, j) == Get(a1, j))
      && Child(a2, "flags") == Child(a1, "flags")
      && Stampable(a2) == Stampable(a1)
  {
    if Truthy(desc) {
      SetKeepsFlags(a1, "hint", desc);
    }
  }

  /** The two conditional assignments, as one value. */
  lemma RelabelIs(adv: Json, name: Json, desc: Json)
    requires adv.Obj?
    ensures var a1 := if Truthy(name) && Get(adv, "title") != name then Set(adv, "title", name) else adv;
      Relabel(adv, name, desc) == Ok(if Truthy(desc) then Set(a1, "hint", desc) else a1)
  {
  }

  /** Writing a key other than `flags` leaves `flags` as it was. */
  lemma SetKeepsFlags(o: Json, k: string, v: Json)
    requires o.Obj? && k != "flags"
    ensures Child(Set(o, k, v), "flags") == Child(o, "flags")
    ensures Stampable(Set(o, k, v)) == Stampable(o)
  {
    assert HasKey(Set(o, k, v), "flags") == HasKey(o, "flags");
  }

  /** One entry succeeds unless reading its title or the matched value
      throws, or its `flags` or `flags.babele` exists and is no object. */
  lemma AdvStepOk(adv: Json, ps: Fields)
    ensures AdvStep(adv, ps).Ok? <==>
      && FindEntry(ps, adv).Ok?
      && (FindEntry(ps, adv).value.Some? ==> !Nullish(FindEntry(ps, adv).value.value) && Stampable(adv))
  {
    var m := FindEntry(ps, adv);
    if m.Ok? && m.value.Some? && !Nullish(m.value.value) {
      var value := m.value.value;
      var name := Get(value, "name");
      var desc := Get(value, "description");
      FindEntryHit(ps, adv);
      assert Get(adv, "title").Str?;
      RelabelFields(adv, name, desc);
      var a2 := Relabel(adv, name, desc).value;
      StampOk(a2, Or(name, Get(a2, "title")), desc);
    }
  }

  /** An entry whose `title` is no key of the table is left as it is. A
      matched entry takes the translated `name` as its title and the
      translated `description` as its hint when they are truthy, and
      records the resulting title and hint under `flags.babele`; its other
      fields, and the other entries of its `flags`, are untouched. */
  lemma AdvStepFields(adv: Json, ps: Fields)
    requires AdvStep(adv, ps).Ok?
    ensures FindEntry(ps, adv).value.None? ==> AdvStep(adv, ps).value == adv
    ensures FindEntry(ps, adv).value.Some? ==>
      var value := FindEntry(ps, adv).value.value;
      var r := AdvStep(adv, ps).value;
      && Get(r, "title") == Or(Get(value, "name"), Get(adv, "title"))
      && Get(r, "hint") == Or(Get(value, "description"), Get(adv, "hint"))
      && Get(Get(Get(r, "flags"), "babele"), "name") == Get(r, "title")
      && Get(Get(Get(r, "flags"), "babele"), "description") == Get(r, "hint")
      && (forall j :: !Stamped(j) ==> Get(r, j) == Get(adv, j))
      && (forall j :: j != "babele" ==> Get(Get(r, "flags"), j) == Get(Child(adv, "flags"), j))
  {
    var m := FindEntry(ps, adv);
    if m.value.Some? {
      var value := m.value.value;
      var name := Get(value, "name");
      var desc := Get(value, "description");
      FindEntryHit(ps, adv);
      assert Get(adv, "title").Str?;
      RelabelFields(adv, name, desc);
      var a2 := Relabel(adv, name, desc).value;
      StampOk(a2, Or(name, Get(a2, "title")), desc);
      StampFields(a2, Or(name, Get(a2, "title")), desc);
    }
  }

  /** The loop from position `i` on throws exactly when the step of one of
      the entries it visits does. */
  lemma {:induction false} AdvFromOk(advs: seq<Json>, ps: Fields, i: nat)
    requires i <= |advs|
    ensures AdvFrom(advs, ps, i).Ok? <==> forall j :: i <= j < |advs| ==> AdvStep(advs[j], ps).Ok?
    decreases |advs| - i
  {
    if i < |advs| {
      var a := AdvStep(advs[i], ps);
      if a.Ok? {
        var next := advs[i := a.value];
        AdvFromOk(next, ps, i + 1);
        assert AdvFrom(advs, ps, i) == AdvFrom(next, ps, i + 1);
        assert forall j :: i + 1 <= j < |advs| ==> next[j] == advs[j];
      }
    }
  }

  /** When the loop from position `i` on succeeds, every entry it visits
      is replaced by its step, and the earlier ones are kept. */
  lemma {:induction false} AdvFromValues(advs: seq<Json>, ps: Fields, i: nat)
    requires i <= |advs| && AdvFrom(advs, ps, i).Ok?
    ensures var r := AdvFrom(advs, ps, i).value;
      && |r| == |advs|
      && (forall j :: 0 <= j < i ==> r[j] == advs[j])
      && (forall j :: i <= j < |advs| ==> AdvStep(advs[j], ps).Ok? && r[j] == AdvStep(advs[j], ps).value)
    decreases |advs| - i
  {
    if i < |advs| {
      var a := AdvStep(advs[i], ps);
      var next := advs[i := a.value];
      assert AdvFrom(advs, ps, i) == AdvFrom(next, ps, i + 1);
      AdvFromValues(next, ps, i + 1);
      var r := AdvFrom(next, ps, i + 1).value;
      forall j | i <= j < |advs|
        ensures AdvStep(advs[j], ps).Ok? && r[j] == AdvStep(advs[j], ps).value
      {
        if j > i {
          assert next[j] == advs[j];
        }
      }
    }
  }

  /** Where `AdvancementsMerge` leaves its document: untouched when the
      document has no advancement array or the translation no truthy
      table; otherwise the list is found where it was, of the same length,
      with every entry updated by `AdvStep`, and nothing but the place the
      list was found changes: `system.advancement`, keeping the rest of
      `system` and the top-level `advancement`, or else the top-level
      `advancement`, keeping `system`. */
  lemma AdvancementsMergeFields(target: Json, translated: Json)
    requires AdvancementsMerge(target, translated).Ok?
    ensures var tAdv := Table(translated).value;
      var oAdv := Table(target).value;
      var r := AdvancementsMerge(target, translated).value;
      && (!oAdv.Arr? || !Truthy(tAdv) ==> r == target)
      && (oAdv.Arr? && Truthy(tAdv) ==>
            && Table(r).Ok? && Table(r).value.Arr?
            && |Table(r).value.elems| == |oAdv.elems|
            && (forall j :: 0 <= j < |oAdv.elems| ==>
                  AdvStep(oAdv.elems[j], Props(tAdv)).Ok? && Table(r).value.elems[j] == AdvStep(oAdv.elems[j], Props(tAdv)).value)
            && (forall k :: k != "system" && k != "advancement" ==> Get(r, k) == Get(target, k))
            && (Truthy(GetProperty(target, ["system", "advancement"])) ==>
                  && Get(r, "advancement") == Get(target, "advancement")
                  && forall k :: k != "advancement" ==> Get(Get(r, "system"), k) == Get(Get(target, "system"), k))
            && (!Truthy(GetProperty(target, ["system", "advancement"])) ==> Get(r, "system") == Get(target, "system")))
  {
    var tAdv := Table(translated).value;
    var oAdv := Table(target).value;
    var inSystem := GetProperty(target, ["system", "advancement"]);
    if oAdv.Arr? && Truthy(tAdv) {
      AdvFromValues(oAdv.elems, Props(tAdv), 0);
      var advs := AdvFrom(oAdv.elems, Props(tAdv), 0).value;
      var r := AdvancementsMerge(target, translated).value;
      GetProperty2(target, "system", "advancement");
      if Truthy(inSystem) {
        PutProperty2(target, "system", "advancement", Arr(advs));
        assert r == Set(target, "system", Set(Get(target, "system"), "advancement", Arr(advs)));
        GetProperty2(r, "system", "advancement");
        assert Table(r) == Ok(Arr(advs));
      } else {
        assert r == Set(target, "advancement", Arr(advs));
        GetProperty2(r, "system", "advancement");
        assert Table(r) == Ok(Arr(advs));
      }
    }
  }

  /** On an array, as the keyed pass hands it `source.advancement || []`,
      the call finds no list under `system.advancement` or `advancement`
      and changes nothing; with a translation value that is neither null
      nor undefined it does not throw either. */
  lemma AdvancementsMergeOnList(list: Json, translated: Json)
    requires list.Arr? && !Nullish(translated)
    ensures AdvancementsMerge(list, translated) == Ok(list)
  {
    assert GetProperty(list, ["system", "advancement"]) == Undefined;
    assert Table(list) == Ok(Undefined);
  }

  /** The call throws exactly when reading a table throws, or an entry's
      step does. */
  lemma AdvancementsMergeOk(target: Json, translated: Json)
    ensures AdvancementsMerge(target, translated).Ok? <==>
      && Table(translated).Ok? && Table(target).Ok?
      && var oAdv := Table(target).value;
         (oAdv.Arr? && Truthy(Table(translated).value) ==>
            forall j :: 0 <= j < |oAdv.elems| ==> AdvStep(oAdv.elems[j], Props(Table(translated).value)).Ok?)
  {
    if Table(translated).Ok? && Table(target).Ok? {
      var oAdv := Table(target).value;
      if oAdv.Arr? && Truthy(Table(translated).value) {
        AdvFromOk(oAdv.elems, Props(Table(translated).value), 0);
      }
    }
  }

  /** The `.find` search, as a loop that stops at the first hit. */
  method FindMatch(ps: Fields, adv: Json) returns (res: Result<Option<Json>>)
    ensures res == FindEntry(ps, adv)
  {
    var i := 0;
    assert ps[i..] == ps;
    while i < |ps|
      invariant 0 <= i <= |ps|
      invariant FindEntry(ps[i..], adv) == FindEntry(ps, adv)
    {
      assert ps[i..][0] == ps[i] && ps[i..][1..] == ps[i + 1..];
      var title :- Read(adv, "title");
      if Str(ps[i].0) == title {
        return Ok(Some(ps[i].1));
      }
      i := i + 1;
    }
    assert ps[i..] == [];
    return Ok(None);
  }

  /** The `for (let adv of oAdv)` loop, each entry replaced where it
      stands. */
  method UpdateEntries(advs0: seq<Json>, ps: Fields) returns (res: Result<seq<Json>>)
    ensures res == AdvFrom(advs0, ps, 0)
  {
    var advs := advs0;
    var i := 0;
    while i < |advs|
      invariant 0 <= i <= |advs|
      invariant AdvFrom(advs, ps, i) == AdvFrom(advs0, ps, 0)
    {
      var adv :- UpdateEntry(advs[i], ps);
      advs := advs[i := adv];
      i := i + 1;
    }
    return Ok(advs);
  }

  /** The loop body for one entry. */
  method UpdateEntry(adv0: Json, ps: Fields) returns (res: Result<Json>)
    ensures res == AdvStep(adv0, ps)
  {
    var m :- FindMatch(ps, adv0);
    if m.None? {
      return Ok(adv0);
    }
    var value := m.value;
    var name :- Read(value, "name");
    var desc := Get(value, "description");
    var adv :- RelabelEntry(adv0, name, desc);
    res := StampEntry(adv, Or(name, Get(adv, "title")), desc);
  }

  /** The title and hint assignments. */
  method RelabelEntry(adv0: Json, name: Json, desc: Json) returns (res: Result<Json>)
    ensures res == Relabel(adv0, name, desc)
  {
    var adv := adv0;
    if Truthy(name) && Get(adv, "title") != name {
      adv :- Write(adv, "title", name);
    }
    if Truthy(desc) {
      adv :- Write(adv, "hint", desc);
    }
    return Ok(adv);
  }

  /** The two `setProperty` stamps under `flags.babele`. */
  method StampEntry(adv0: Json, n: Json, desc: Json) returns (res: Result<Json>)
    ensures res == Stamp(adv0, n, desc)
  {
    var adv :- SetProperty(adv0, ["flags", "babele", "name"], n);
    res := SetProperty(adv, ["flags", "babele", "description"], Or(desc, Get(adv, "hint")));
  }

  /** `safeMergeAdvancements`, with its loop over the entries. */
  method SafeMergeAdvancements(target: Json, translated: Json) returns (res: Result<Json>)
    ensures res == AdvancementsMerge(target, translated)
  {
    var tAdv :- Table(translated);
    var inSystem := GetProperty(target, ["system", "advancement"]);
    var oAdv :- Table(target);
    if !oAdv.Arr? || !Truthy(tAdv) {
      return Ok(target);
    }
    var advs :- UpdateEntries(oAdv.elems, Props(tAdv));
    if Truthy(inSystem) {
      return Ok(PutProperty(target, ["system", "advancement"], Arr(advs)));
    }
    return Ok(Set(target, "advancement", Arr(advs)));
  }
}
