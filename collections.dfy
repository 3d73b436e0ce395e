/** `safeMergeEffects` and `safeMergeEmbedded`: copy the source collection,
    index it by normalised identity keys, then patch or append one
    translation entry after the other. The two functions differ only in the
    identity fields they read and in what a match or a miss does, which
    `Kind` selects. */
module Collections {
  import opened Values
  import opened Keys
  import opened Index
  import opened EffectText
  import opened ItemText

  datatype Kind = Effects | Items

  /** The identity fields read from a source element. */
  function SourceFields(k: Kind): seq<string> {
    match k
    case Effects => ["label", "name", "_id", "id"]
    case Items => ["name", "_id", "id"]
  }

  /** The identity fields read from a translation entry, in search order. */
  function EntryFields(k: Kind): seq<string> {
    match k
    case Effects => ["_key", "name", "label", "id"]
    case Items => ["_key", "name", "id"]
  }

  /** The fields a match may rewrite on an element. */
  predicate Touched(k: Kind, f: string) {
    match k
    case Effects => Patched(f)
    case Items => f == "name" || f == "system"
  }

  /** The copy the merge starts from: an array as it is, the values of any
      other truthy value, `[]` for a falsy one. */
  function SourceList(v: Json): seq<Json> {
    if v.Arr? then v.elems else if Truthy(v) then ObjectValues(v) else []
  }

  /** `{ _key: k, ...v }`. */
  function Spread(k: string, v: Json): Json {
    SpreadFrom(Obj(["_key"], map["_key" := Str(k)]), Props(v))
  }

  /** Copies the entries `ps` onto `o`, one assignment after the other. */
  function SpreadFrom(o: Json, ps: Fields): (r: Json)
    requires o.Obj?
    ensures r.Obj?
    decreases |ps|
  {
    if ps == [] then o else SpreadFrom(Set(o, ps[0].0, ps[0].1), ps[1..])
  }

  /** The translation as a list: an array as it is, otherwise one entry per
      `Object.entries` pair with the pair's key stored as `_key`. */
  function Entries(t: Json): seq<Json> {
    if t.Arr? then t.elems
    else
      var ps := Props(t);
      seq(|ps|, i requires 0 <= i < |ps| => Spread(ps[i].0, ps[i].1))
  }

  /** What a match does to the element it found. */
  function Patch(k: Kind, target: Json, te: Json): Result<Json> {
    match k
    case Effects => EffectPatch(target, te)
    case Items => ItemPatch(target, te)
  }

  /** The element a miss appends. */
  function Fresh(k: Kind, te: Json): Result<Json> {
    match k
    case Effects => NewEffect(te)
    case Items => Ok(NewItem(te))
  }

  /** The key under which an appended element is indexed. */
  function FreshKey(k: Kind, e: Json): string {
    match k
    case Effects => Lc(Get(e, "label"))
    case Items => Lc(Get(e, "name"))
  }

  /** The output list and the index while the translations are applied. */
  datatype State = State(out: seq<Json>, idx: map<string, nat>)

  /** Every indexed position is a position of the output. */
  predicate Good(s: State) {
    InRange(s.idx, |s.out|)
  }

  /** A position found through the index is one of the output's. */
  lemma FoundInRange(s: State, keys: seq<string>)
    requires Good(s)
    ensures Find(s.idx, keys).Some? ==> Find(s.idx, keys).value < |s.out|
  {
    if Find(s.idx, keys).Some? {
      FindHit(s.idx, keys);
    }
  }

  /** One translation entry: reading its identity fields throws on null or
      undefined; a hit patches the element found, a miss appends a new one
      and indexes it at its position. */
  function Step(k: Kind, s: State, te: Json): (r: Result<State>)
    requires Good(s)
    ensures r.Ok? ==> Good(r.value) && |s.out| <= |r.value.out| <= |s.out| + 1
  {
    if Nullish(te) then Throw(TypeError)
    else
      var keys := Candidates(te, EntryFields(k));
      FoundInRange(s, keys);
      match Find(s.idx, keys)
      case Some(p) =>
        var e :- Patch(k, s.out[p], te);
        Ok(State(s.out[p := e], s.idx))
      case None =>
        var e :- Fresh(k, te);
        Ok(State(s.out + [e], s.idx[FreshKey(k, e) := |s.out|]))
  }

  /** The translation entries applied in order; the first throw ends the
      merge. */
  function Fold(k: Kind, s: State, ts: seq<Json>): Result<seq<Json>>
    requires Good(s)
    decreases |ts|
  {
    if ts == [] then Ok(s.out)
    else
      var s' :- Step(k, s, ts[0]);
      Fold(k, s', ts[1..])
  }

  /** The whole merge. */
  function Merge(k: Kind, source: Json, translation: Json): Result<seq<Json>> {
    var out := SourceList(source);
    if !Truthy(translation) then Ok(out)
    else
      var idx :- Indexed(out, SourceFields(k));
      Fold(k, State(out, idx), Entries(translation))
  }

  /** The merge loop of `safeMergeEffects` and `safeMergeEmbedded`. */
  method MergeCollection(k: Kind, source: Json, translation: Json) returns (res: Result<seq<Json>>)
    ensures res == Merge(k, source, translation)
  {
    var out := SourceList(source);
    if !Truthy(translation) {
      return Ok(out);
    }
    var idx: map<string, nat> :- BuildIndex(out, SourceFields(k));
    res := ApplyEntries(k, State(out, idx), Entries(translation));
  }

  /** `translations.forEach(te => ...)`: the entries applied in order. */
  method ApplyEntries(k: Kind, s0: State, ts: seq<Json>) returns (res: Result<seq<Json>>)
    requires Good(s0)
    ensures res == Fold(k, s0, ts)
  {
    var s := s0;
    var i := 0;
    while i < |ts|
      invariant 0 <= i <= |ts|
      invariant Good(s)
      invariant Fold(k, s, ts[i..]) == Fold(k, s0, ts)
    {
      assert ts[i..][0] == ts[i] && ts[i..][1..] == ts[i + 1..];
      var r := ApplyEntry(k, s, ts[i]);
      if r.Throw? {
        return Throw(r.fault);
      }
      s := r.value;
      i := i + 1;
    }
    assert ts[i..] == [];
    return Ok(s.out);
  }

  /** The body of `translations.forEach(te => ...)`: search the index, then
      patch `out[found]` or push a new element and index it. */
  method ApplyEntry(k: Kind, s: State, te: Json) returns (res: Result<State>)
    requires Good(s)
    ensures res == Step(k, s, te)
  {
    if Nullish(te) {
      return Throw(TypeError);
    }
    var out, idx := s.out, s.idx;
    var found := FindFirst(idx, Candidates(te, EntryFields(k)));
    FoundInRange(s, Candidates(te, EntryFields(k)));
    if found.Some? {
      var e: Json;
      match k {
        case Effects => e :- ApplyEffectTextFields(out[found.value], te);
        case Items => e :- PatchItem(out[found.value], te);
      }
      out := out[found.value := e];
    } else {
      var e :- Fresh(k, te);
      idx := idx[FreshKey(k, e) := |out|];
      out := out + [e];
    }
    return Ok(State(out, idx));
  }

  /** `safeMergeEffects(sourceEffects, translationEffects)`. */
  method SafeMergeEffects(source: Json, translation: Json) returns (res: Result<seq<Json>>)
    ensures res == Merge(Effects, source, translation)
  {
    res := MergeCollection(Effects, source, translation);
  }

  /** `safeMergeEmbedded(sourceEmbedded = [], translationEmbedded = {})`:
      an undefined translation defaults to `{}`, which is truthy. */
  method SafeMergeEmbedded(source: Json, translation: Json) returns (res: Result<seq<Json>>)
    ensures res == Merge(Items, source, if translation.Undefined? then Empty else translation)
  {
    var s := if source.Undefined? then Arr([]) else source;
    var t := if translation.Undefined? then Empty else translation;
    res := MergeCollection(Items, s, t);
  }

  /** `b` extends `a`: nothing is removed or moved, and the fields a match
      never rewrites keep their values at every old position. */
  ghost predicate Keeps(k: Kind, a: seq<Json>, b: seq<Json>) {
    && |a| <= |b|
    && forall i, j :: 0 <= i < |a| && !Touched(k, j) ==> Get(b[i], j) == Get(a[i], j)
  }

  /** A patch rewrites only the fields `Touched` names. */
  lemma PatchKeeps(k: Kind, target: Json, te: Json)
    requires Patch(k, target, te).Ok?
    ensures forall j :: !Touched(k, j) ==> Get(Patch(k, target, te).value, j) == Get(target, j)
  {
    match k
    case Effects => EffectPatchFields(target, te);
    case Items => ItemPatchFields(target, te);
  }

  /** One entry keeps every old position and adds at most one. */
  lemma StepKeeps(k: Kind, s: State, te: Json)
    requires Good(s) && Step(k, s, te).Ok?
    ensures Keeps(k, s.out, Step(k, s, te).value.out)
  {
    var keys := Candidates(te, EntryFields(k));
    FoundInRange(s, keys);
    var r := Step(k, s, te).value.out;
    match Find(s.idx, keys)
    case Some(p) =>
      PatchKeeps(k, s.out[p], te);
    case None =>
      assert forall i :: 0 <= i < |s.out| ==> r[i] == s.out[i];
  }

  /** The merge loop keeps every old position and appends at most one
      element per translation entry. */
  lemma {:induction false} FoldKeeps(k: Kind, s: State, ts: seq<Json>)
    requires Good(s) && Fold(k, s, ts).Ok?
    ensures Keeps(k, s.out, Fold(k, s, ts).value)
    ensures |Fold(k, s, ts).value| <= |s.out| + |ts|
    decreases |ts|
  {
    if ts != [] {
      var s' := Step(k, s, ts[0]).value;
      StepKeeps(k, s, ts[0]);
      FoldKeeps(k, s', ts[1..]);
    }
  }

  /** The merged list starts with the source elements at their positions,
      with only the fields a match rewrites changed, and has at most one
      more element per translation entry. */
  lemma MergeKeeps(k: Kind, source: Json, translation: Json)
    requires Merge(k, source, translation).Ok?
    ensures var r := Merge(k, source, translation).value;
      && Keeps(k, SourceList(source), r)
      && |r| <= |SourceList(source)| + |Entries(translation)|
  {
    var out := SourceList(source);
    if Truthy(translation) {
      FoldKeeps(k, State(out, IndexOf(out, SourceFields(k))), Entries(translation));
    }
  }

  /** A falsy translation returns the copy of the source unchanged. */
  lemma MergeFalsy(k: Kind, source: Json, translation: Json)
    requires !Truthy(translation)
    ensures Merge(k, source, translation) == Ok(SourceList(source))
  {
  }

  /** The first translation entry resolves through the source index to the
      LAST source element that carries the first of its keys the index
      knows. */
  lemma FirstEntryTarget(k: Kind, out: seq<Json>, te: Json)
    requires Find(IndexOf(out, SourceFields(k)), Candidates(te, EntryFields(k))).Some?
    ensures var idx := IndexOf(out, SourceFields(k));
      var keys := Candidates(te, EntryFields(k));
      exists i :: FirstHit(idx, keys, i) && Owns(out, SourceFields(k), Find(idx, keys).value, keys[i])
  {
    IndexOwners(out, SourceFields(k));
    FindHit(IndexOf(out, SourceFields(k)), Candidates(te, EntryFields(k)));
  }

  /** A spread entry that none of `ps` names keeps its value. */
  lemma {:induction false} SpreadFromMiss(o: Json, ps: Fields, j: string)
    requires o.Obj?
    requires forall i :: 0 <= i < |ps| ==> ps[i].0 != j
    ensures Get(SpreadFrom(o, ps), j) == Get(o, j)
    decreases |ps|
  {
    if ps != [] {
      SpreadFromMiss(Set(o, ps[0].0, ps[0].1), ps[1..], j);
    }
  }

  /** A spread entry takes the value of the one pair that names it. */
  lemma {:induction false} SpreadFromHit(o: Json, ps: Fields, i: int)
    requires o.Obj? && DistinctKeys(ps) && 0 <= i < |ps|
    ensures Get(SpreadFrom(o, ps), ps[i].0) == ps[i].1
    decreases |ps|
  {
    if i == 0 {
      SpreadFromMiss(Set(o, ps[0].0, ps[0].1), ps[1..], ps[0].0);
    } else {
      SpreadFromHit(Set(o, ps[0].0, ps[0].1), ps[1..], i - 1);
    }
  }

  /** `{ _key: k, ...v }` for an object `v`: every field of `v` is copied,
      and `_key` holds `k` unless `v` has its own `_key`. */
  lemma SpreadFields(k: string, v: Json)
    requires v.Obj? && Wf(v)
    ensures forall j :: HasKey(v, j) ==> Get(Spread(k, v), j) == Get(v, j)
    ensures !HasKey(v, "_key") ==> Get(Spread(k, v), "_key") == Str(k)
    ensures forall j :: !HasKey(v, j) && j != "_key" ==> Get(Spread(k, v), j) == Undefined
  {
    var o := Obj(["_key"], map["_key" := Str(k)]);
    var ps := Props(v);
    assert DistinctKeys(ps);
    forall j | HasKey(v, j) ensures Get(Spread(k, v), j) == Get(v, j) {
      var i :| 0 <= i < |v.keys| && v.keys[i] == j;
      SpreadFromHit(o, ps, i);
    }
    forall j | !HasKey(v, j) ensures Get(Spread(k, v), j) == Get(o, j) {
      SpreadFromMiss(o, ps, j);
    }
  }

  /** A merge with a truthy translation over present elements is the fold
      of the entries from the source index. */
  lemma MergeIs(k: Kind, source: Json, translation: Json)
    requires Truthy(translation) && AllPresent(SourceList(source))
    ensures var out := SourceList(source);
      Merge(k, source, translation) == Fold(k, State(out, IndexOf(out, SourceFields(k))), Entries(translation))
  {
  }

  /** A single entry's fold is its step. */
  lemma FoldOne(k: Kind, s: State, te: Json)
    requires Good(s)
    ensures var r := Step(k, s, te);
      Fold(k, s, [te]) == if r.Ok? then Ok(r.value.out) else Throw(r.fault)
  {
    assert [te][1..] == [];
  }

  /** An entry that hits position `p` patches that element and leaves the
      index alone. */
  lemma StepHit(k: Kind, s: State, te: Json, p: nat)
    requires Good(s) && !Nullish(te)
    requires Find(s.idx, Candidates(te, EntryFields(k))) == Some(p)
    ensures p < |s.out|
    ensures var e := Patch(k, s.out[p], te);
      Step(k, s, te) == if e.Ok? then Ok(State(s.out[p := e.value], s.idx)) else Throw(e.fault)
  {
    FoundInRange(s, Candidates(te, EntryFields(k)));
  }

  /** An entry that hits nothing appends its synthesised element and
      indexes it at the new position. */
  lemma StepMiss(k: Kind, s: State, te: Json)
    requires Good(s) && !Nullish(te)
    requires Find(s.idx, Candidates(te, EntryFields(k))).None?
    ensures var e := Fresh(k, te);
      Step(k, s, te) == if e.Ok? then Ok(State(s.out + [e.value], s.idx[FreshKey(k, e.value) := |s.out|])) else Throw(e.fault)
  {
  }

  /** The search stops at the first key: when the index knows it, its
      position is the answer. */
  lemma FindFirstKey(idx: map<string, nat>, keys: seq<string>)
    requires keys != [] && keys[0] in idx
    ensures Find(idx, keys) == Some(idx[keys[0]])
  {
  }

  /** Case does not matter: a source element whose identity field `f`
      equals a translation key up to the case of its letters is patched by
      that key's entry, and nothing is appended. */
  lemma MatchIgnoringCase(k: Kind, e: Json, f: string, key: string, v: Json)
    requires f in SourceFields(k) && Get(e, f).Str? && SameIgnoringCase(Get(e, f).s, key) && key != ""
    requires v.Obj? && Wf(v) && !HasKey(v, "_key")
    ensures var te := Spread(key, v);
      var r := Merge(k, Arr([e]), Obj([key], map[key := v]));
      && (r.Ok? <==> Patch(k, e, te).Ok?)
      && (r.Ok? ==> r.value == [Patch(k, e, te).value])
  {
    var t := Obj([key], map[key := v]);
    var te := Spread(key, v);
    var idx := IndexOf([e], SourceFields(k));
    KeyFindsElement(k, e, f, key, v);
    assert Merge(k, Arr([e]), t) == Fold(k, State([e], idx), [te]) by {
      MergeIs(k, Arr([e]), t);
    }
    StepSole(k, e, idx, te);
    FoldOne(k, State([e], idx), te);
  }

  /** The entry of a key equal to the element's field up to case finds the
      element. */
  lemma KeyFindsElement(k: Kind, e: Json, f: string, key: string, v: Json)
    requires f in SourceFields(k) && Get(e, f).Str? && SameIgnoringCase(Get(e, f).s, key) && key != ""
    requires v.Obj? && Wf(v) && !HasKey(v, "_key")
    ensures Entries(Obj([key], map[key := v])) == [Spread(key, v)]
    ensures Find(IndexOf([e], SourceFields(k)), Candidates(Spread(key, v), EntryFields(k))) == Some(0)
  {
    var t := Obj([key], map[key := v]);
    var te := Spread(key, v);
    LcIgnoresCase(Get(e, f).s, key);
    var lk := Lc(Str(key));
    var idx := IndexOf([e], SourceFields(k));
    assert lk in idx by {
      CandidatesHas(e, SourceFields(k), f);
      IndexComplete([e], SourceFields(k), 0, lk);
    }
    EntriesOne(key, v);
    assert Candidates(te, EntryFields(k))[0] == lk by {
      SpreadFields(key, v);
      assert Get(te, "_key") == Str(key) && EntryFields(k)[0] == "_key";
      CandidatesFirst(te, EntryFields(k));
    }
    assert idx[lk] == 0 by {
      assert InRange(idx, 1);
    }
    FindFirstKey(idx, Candidates(te, EntryFields(k)));
  }

  /** A one-entry translation object is one spread entry. */
  lemma EntriesOne(key: string, v: Json)
    ensures Entries(Obj([key], map[key := v])) == [Spread(key, v)]
  {
    assert Props(Obj([key], map[key := v])) == [(key, v)];
  }

  /** An element synthesised in a batch is indexed at once: a later entry
      of the same batch whose first key is the new element's normalised
      name patches it instead of adding a duplicate. */
  lemma LaterEntryPatchesFresh(k: Kind, te1: Json, te2: Json)
    requires !Nullish(te1) && !Nullish(te2) && Fresh(k, te1).Ok?
    requires var keys := Candidates(te2, EntryFields(k));
      keys != [] && keys[0] == FreshKey(k, Fresh(k, te1).value)
    ensures var e := Fresh(k, te1).value;
      var p := Patch(k, e, te2);
      Merge(k, Arr([]), Arr([te1, te2])) == if p.Ok? then Ok([p.value]) else Throw(p.fault)
  {
    var e := Fresh(k, te1).value;
    var s1 := State([e], map[FreshKey(k, e) := 0]);
    FirstEntryAppends(k, te1, te2);
    FindFirstKey(s1.idx, Candidates(te2, EntryFields(k)));
    StepSole(k, e, s1.idx, te2);
    FoldOne(k, s1, te2);
  }

  /** An entry that finds the only element of the output patches it. */
  lemma StepSole(k: Kind, e: Json, idx: map<string, nat>, te: Json)
    requires InRange(idx, 1) && !Nullish(te)
    requires Find(idx, Candidates(te, EntryFields(k))).Some?
    ensures var p := Patch(k, e, te);
      Step(k, State([e], idx), te) == if p.Ok? then Ok(State([p.value], idx)) else Throw(p.fault)
  {
    var s := State([e], idx);
    var p := Patch(k, e, te);
    FoundInRange(s, Candidates(te, EntryFields(k)));
    StepHit(k, s, te, 0);
    if p.Ok? {
      assert [e][0 := p.value] == [p.value];
    }
  }

  /** On an empty source the first entry is appended and indexed at 0. */
  lemma FirstEntryAppends(k: Kind, te1: Json, te2: Json)
    requires !Nullish(te1) && Fresh(k, te1).Ok?
    ensures var e := Fresh(k, te1).value;
      Merge(k, Arr([]), Arr([te1, te2])) == Fold(k, State([e], map[FreshKey(k, e) := 0]), [te2])
  {
    var e := Fresh(k, te1).value;
    var s0 := State([], map[]);
    var s1 := State([e], map[FreshKey(k, e) := 0]);
    assert Merge(k, Arr([]), Arr([te1, te2])) == Fold(k, s0, [te1, te2]) by {
      MergeIs(k, Arr([]), Arr([te1, te2]));
      assert IndexOf([], SourceFields(k)) == map[];
    }
    assert Step(k, s0, te1) == Ok(s1) by {
      var keys := Candidates(te1, EntryFields(k));
      assert Find(map[], keys).None?;
      StepMiss(k, s0, te1);
      assert s0.out + [e] == [e];
    }
    FoldCons(k, s0, [te1, te2]);
    assert [te1, te2][1..] == [te2];
  }

  /** The fold of a non-empty list is its first step followed by the fold
      of the rest. */
  lemma FoldCons(k: Kind, s: State, ts: seq<Json>)
    requires Good(s) && ts != []
    ensures var r := Step(k, s, ts[0]);
      Fold(k, s, ts) == if r.Ok? then Fold(k, r.value, ts[1..]) else Throw(r.fault)
  {
  }

  /** An entry with no identity key never matches, so it is appended. */
  lemma KeylessAppends(k: Kind, source: Json, te: Json)
    requires AllPresent(SourceList(source))
    requires !Nullish(te) && Candidates(te, EntryFields(k)) == [] && Fresh(k, te).Ok?
    ensures Merge(k, source, Arr([te])) == Ok(SourceList(source) + [Fresh(k, te).value])
  {
    var out := SourceList(source);
    var s := State(out, IndexOf(out, SourceFields(k)));
    MergeIs(k, source, Arr([te]));
    StepMiss(k, s, te);
    FoldOne(k, s, te);
  }

  /** Merging is not idempotent: an entry with no identity key (here `{}`)
      adds a new "Unnamed Effect" on every application. */
  lemma MergeNotIdempotent()
    ensures var t := Arr([Empty]);
      var once := Merge(Effects, Arr([]), t);
      && once.Ok? && |once.value| == 1
      && var twice := Merge(Effects, Arr(once.value), t);
      twice.Ok? && |twice.value| == 2
  {
    EmptyEntryIsKeyless();
    var e := Fresh(Effects, Empty).value;
    KeylessAppends(Effects, Arr([]), Empty);
    assert [] + [e] == [e];
    assert AllPresent([e]);
    KeylessAppends(Effects, Arr([e]), Empty);
  }

  /** `{}` has no identity key, and an effect can be synthesised from it. */
  lemma EmptyEntryIsKeyless()
    ensures Candidates(Empty, EntryFields(Effects)) == []
    ensures Fresh(Effects, Empty).Ok? && !Nullish(Fresh(Effects, Empty).value)
  {
    assert Candidates(Empty, EntryFields(Effects)) == [];
    assert Fresh(Effects, Empty) == Ok(NewEffectShell(Empty));
  }
}
