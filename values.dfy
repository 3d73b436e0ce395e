/** JSON-like values as the merge engine sees them, and the JavaScript and
    Foundry operations the engine performs on them: truthiness, `||`,
    property reads and writes, `Object.entries`, `foundry.utils.setProperty`
    and `foundry.utils.getProperty`.

    Objects keep their keys in insertion order, so `Object.entries` order is
    the order of `keys`. A JavaScript statement that throws is modelled by
    the `Throw` outcome of `Result`. */
module Values {

  datatype Json =
    | Undefined
    | Null
    | Bool(b: bool)
    | Num(n: int)
    | Str(s: string)
    | Arr(elems: seq<Json>)
    | Obj(keys: seq<string>, vals: map<string, Json>)  // keys in insertion order

  /** The entries of a value as `Object.entries` lists them. */
  type Fields = seq<(string, Json)>

  /** `{}`. */
  const Empty: Json := Obj([], map[])

  /** Why a statement of the engine stops instead of completing. */
  datatype Fault =
    | TypeError      // a property read on null/undefined, or a write or `in` on a primitive
    | MergeError     // Foundry's mergeObject handed something that is not an object
    | ArrayProperty  // a named property written onto an array, which `Json` cannot hold

  datatype Result<+T> = Ok(value: T) | Throw(fault: Fault) {
    predicate IsFailure() { Throw? }
    function PropagateFailure<U>(): Result<U>
      requires Throw?
    {
      Throw(fault)
    }
    function Extract(): T
      requires Ok?
    {
      value
    }
  }

  datatype Option<+T> = None | Some(value: T)

  predicate Nullish(v: Json) { v.Undefined? || v.Null? }

  /** JavaScript truthiness (`Boolean(v)`). */
  predicate Truthy(v: Json) {
    match v
    case Undefined => false
    case Null => false
    case Bool(b) => b
    case Num(n) => n != 0
    case Str(s) => s != ""
    case Arr(_) => true
    case Obj(_, _) => true
  }

  /** JavaScript's `a || b`. */
  function Or(a: Json, b: Json): Json {
    if Truthy(a) then a else b
  }

  /** An object as JavaScript holds it: every key listed once, and exactly
      the listed keys have a value. */
  predicate Wf(o: Json) {
    o.Obj? ==>
      && (forall i, j :: 0 <= i < j < |o.keys| ==> o.keys[i] != o.keys[j])
      && (forall k :: k in o.vals ==> k in o.keys)
      && (forall k :: k in o.keys ==> k in o.vals)
  }

  // ---------------------------------------------------------------------
  // Entry lists

  function Keys(fs: Fields): (ks: seq<string>)
    ensures |ks| == |fs|
    ensures forall i :: 0 <= i < |fs| ==> ks[i] == fs[i].0
  {
    seq(|fs|, i requires 0 <= i < |fs| => fs[i].0)
  }

  predicate DistinctKeys(fs: Fields) {
    forall i, j :: 0 <= i < j < |fs| ==> fs[i].0 != fs[j].0
  }

  // ---------------------------------------------------------------------
  // Property access

  /** `o.k` on a value that is not null or undefined (and `o?.k` on any
      value). Arrays and strings answer only `length`. */
  function Get(o: Json, k: string): Json {
    match o
    case Obj(_, m) => if k in m then m[k] else Undefined
    case Arr(es) => if k == "length" then Num(|es|) else Undefined
    case Str(s) => if k == "length" then Num(|s|) else Undefined
    case _ => Undefined
  }

  /** `Object.prototype.hasOwnProperty.call(o, k)` for objects. */
  predicate HasKey(o: Json, k: string) {
    o.Obj? && k in o.vals
  }

  /** `o[k] = v` on an object: an existing key keeps its place, a new key
      goes last. */
  function Set(o: Json, k: string, v: Json): (r: Json)
    requires o.Obj?
    ensures r.Obj? && Get(r, k) == v
    ensures forall j {:trigger Get(r, j)} :: j != k ==> Get(r, j) == Get(o, j)
    ensures forall j {:trigger HasKey(r, j)} :: HasKey(r, j) <==> j == k || HasKey(o, j)
    ensures r.keys == if k in o.vals then o.keys else o.keys + [k]
    ensures Wf(o) ==> Wf(r)
  {
    Obj(if k in o.vals then o.keys else o.keys + [k], o.vals[k := v])
  }

  /** Writing back the value a key already has changes nothing. */
  lemma SetIdle(o: Json, k: string)
    requires o.Obj? && HasKey(o, k)
    ensures Set(o, k, Get(o, k)) == o
  {
    assert o.vals[k := o.vals[k]] == o.vals;
  }

  /** `o.k`: throws on null and undefined. */
  function Read(o: Json, k: string): (r: Result<Json>)
    ensures r.Ok? <==> !Nullish(o)
  {
    if Nullish(o) then Throw(TypeError) else Ok(Get(o, k))
  }

  /** `o.k = v` in strict mode. */
  function Write(o: Json, k: string, v: Json): (r: Result<Json>)
    ensures r.Ok? <==> o.Obj?
  {
    match o
    case Obj(_, _) => Ok(Set(o, k, v))
    case Arr(_) => Throw(ArrayProperty)
    case _ => Throw(TypeError)
  }

  /** The value reached by following `path` with `Get`. */
  function GetPath(o: Json, path: seq<string>): Json
    decreases |path|
  {
    if path == [] then o else GetPath(Get(o, path[0]), path[1..])
  }

  /** The assignment `o.p1.p2 ... .pn = v`: every prefix is read (throwing
      on null/undefined) and the last step is a strict-mode write. */
  function Assign(o: Json, path: seq<string>, v: Json): (r: Result<Json>)
    requires |path| > 0
    ensures r.Ok? ==> o.Obj? && r.value.Obj?
    ensures r.Ok? ==> forall j {:trigger Get(r.value, j)} :: j != path[0] ==> Get(r.value, j) == Get(o, j)
    ensures r.Ok? && |path| > 1 ==>
      forall j {:trigger Get(Get(r.value, path[0]), j)} :: j != path[1] ==> Get(Get(r.value, path[0]), j) == Get(Get(o, path[0]), j)
    decreases |path|
  {
    if |path| == 1 then Write(o, path[0], v)
    else if Nullish(o) then Throw(TypeError)
    else
      var child :- Assign(Get(o, path[0]), path[1..], v);
      Write(o, path[0], child)
  }

  /** The container `setProperty` descends into under key `k`: the
      existing value, or a fresh `{}` when the key is absent. */
  function Child(o: Json, k: string): Json {
    if HasKey(o, k) then Get(o, k) else Empty
  }

  /** `setProperty` can descend into `o` under `k`: the key is absent, or
      holds an object. */
  predicate Container(o: Json, k: string) {
    !HasKey(o, k) || Get(o, k).Obj?
  }

  /** `foundry.utils.setProperty(o, "p1.p2...pn", v)`: missing containers
      along the path are created as `{}`; a container that exists but is
      not an object makes the call throw. */
  function SetProperty(o: Json, path: seq<string>, v: Json): (r: Result<Json>)
    requires |path| > 0
    ensures r.Ok? ==> o.Obj? && r.value.Obj?
    ensures r.Ok? ==> forall j {:trigger Get(r.value, j)} :: j != path[0] ==> Get(r.value, j) == Get(o, j)
    ensures r.Ok? && |path| > 1 ==>
      forall j {:trigger Get(Get(r.value, path[0]), j)} :: j != path[1] ==> Get(Get(r.value, path[0]), j) == Get(Get(o, path[0]), j)
    decreases |path|
  {
    match o
    case Obj(_, _) =>
      if |path| == 1 then Ok(Set(o, path[0], v))
      else
        var child' :- SetProperty(Child(o, path[0]), path[1..], v);
        Ok(Set(o, path[0], child'))
    case Arr(_) => Throw(ArrayProperty)
    case _ => Throw(TypeError)
  }

  /** After `setProperty`, the path leads to the value set. */
  lemma {:induction false} SetPropertyReaches(o: Json, path: seq<string>, v: Json)
    requires |path| > 0 && SetProperty(o, path, v).Ok?
    ensures GetPath(SetProperty(o, path, v).value, path) == v
    decreases |path|
  {
    if |path| > 1 {
      SetPropertyReaches(Child(o, path[0]), path[1..], v);
    }
  }

  /** `r` is `o` with the value under key `a` replaced by `v`. */
  ghost predicate Changed1(o: Json, r: Json, a: string, v: Json) {
    && Get(r, a) == v
    && (forall j {:trigger Get(r, j)} :: j != a ==> Get(r, j) == Get(o, j))
  }

  /** `r` is `o` with the value at `a.b.c` replaced by `v`. */
  ghost predicate Changed3(o: Json, r: Json, a: string, b: string, c: string, v: Json) {
    && Get(Get(Get(r, a), b), c) == v
    && (forall j {:trigger Get(r, j)} :: j != a ==> Get(r, j) == Get(o, j))
    && (forall j {:trigger Get(Get(r, a), j)} :: j != b ==> Get(Get(r, a), j) == Get(Get(o, a), j))
  }

  lemma SetPropertyChanged1(o: Json, r: Json, a: string, v: Json)
    requires SetProperty(o, [a], v) == Ok(r)
    ensures Changed1(o, r, a, v)
  {
  }

  lemma SetPropertyChanged3(o: Json, r: Json, a: string, b: string, c: string, v: Json)
    requires SetProperty(o, [a, b, c], v) == Ok(r)
    ensures Changed3(o, r, a, b, c, v)
  {
    SetPropertyReaches(o, [a, b, c], v);
    Reach3(r, a, b, c);
  }

  /** `setProperty` along `a.b.c` keeps every other entry of `o.a.b`. */
  lemma SetPropertyInner3(o: Json, a: string, b: string, c: string, v: Json)
    requires o.Obj? && Container(o, a) && Container(Child(o, a), b)
    ensures SetProperty(o, [a, b, c], v).Ok?
    ensures forall j :: j != c ==>
      Get(Get(Get(SetProperty(o, [a, b, c], v).value, a), b), j) == Get(Child(Child(o, a), b), j)
  {
    SetPropertyIs3(o, a, b, c, v);
  }

  /** Reading through `Child` is reading through `Get` where `setProperty`
      can descend. */
  lemma ChildGet(o: Json, k: string)
    requires Container(o, k)
    ensures forall j :: Get(Child(o, k), j) == Get(Get(o, k), j)
  {
  }

  lemma Reach3(r: Json, a: string, b: string, c: string)
    ensures GetPath(r, [a, b, c]) == Get(Get(Get(r, a), b), c)
  {
    assert [a, b, c][1..] == [b, c] && [b, c][1..] == [c];
    assert GetPath(r, [a, b, c]) == GetPath(Get(r, a), [b, c]);
    assert GetPath(Get(r, a), [b, c]) == GetPath(Get(Get(r, a), b), [c]);
    assert GetPath(Get(Get(r, a), b), [c]) == Get(Get(Get(r, a), b), c) by {
      assert [c][1..] == [];
    }
  }

  /** A two-step assignment through an object lands in a copy of it. */
  lemma AssignIs2(o: Json, a: string, b: string, v: Json)
    requires o.Obj? && Get(o, a).Obj?
    ensures Assign(o, [a, b], v) == Ok(Set(o, a, Set(Get(o, a), b, v)))
  {
    assert [a, b][1..] == [b];
  }

  /** A two-step assignment throws when the first step is not an object. */
  lemma AssignFails2(o: Json, a: string, b: string, v: Json)
    requires !Get(o, a).Obj?
    ensures Assign(o, [a, b], v).Throw?
  {
    assert [a, b][1..] == [b];
  }

  /** A three-step assignment through two objects. */
  lemma AssignIs3(o: Json, a: string, b: string, c: string, v: Json)
    requires o.Obj? && Get(o, a).Obj? && Get(Get(o, a), b).Obj?
    ensures Assign(o, [a, b, c], v) == Ok(Set(o, a, Set(Get(o, a), b, Set(Get(Get(o, a), b), c, v))))
  {
    AssignIs2(Get(o, a), b, c, v);
    assert [a, b, c][1..] == [b, c];
  }

  /** A three-step assignment throws when the second step is not an object. */
  lemma AssignFails3(o: Json, a: string, b: string, c: string, v: Json)
    requires !Get(Get(o, a), b).Obj?
    ensures Assign(o, [a, b, c], v).Throw?
  {
    assert [a, b, c][1..] == [b, c] && [b, c][1..] == [c];
  }

  /** A three-step `setProperty` through containers that exist or are
      created. */
  lemma SetPropertyIs3(o: Json, a: string, b: string, c: string, v: Json)
    requires o.Obj? && Container(o, a) && Container(Child(o, a), b)
    ensures SetProperty(o, [a, b, c], v)
         == Ok(Set(o, a, Set(Child(o, a), b, Set(Child(Child(o, a), b), c, v))))
  {
    var f := Child(o, a);
    assert SetProperty(f, [b, c], v) == Ok(Set(f, b, Set(Child(f, b), c, v))) by {
      assert [b, c][1..] == [c];
    }
    assert [a, b, c][1..] == [b, c];
  }

  /** A three-step `setProperty` throws when a container along the way
      exists but is not an object, or `o` itself is not one. */
  lemma SetPropertyFails3(o: Json, a: string, b: string, c: string, v: Json)
    requires !(o.Obj? && Container(o, a) && Container(Child(o, a), b))
    ensures SetProperty(o, [a, b, c], v).Throw?
  {
    assert [a, b, c][1..] == [b, c] && [b, c][1..] == [c];
  }

  /** Writing twice under the same key keeps only the second value. */
  lemma SetSet(o: Json, k: string, v: Json, w: Json)
    requires o.Obj?
    ensures Set(Set(o, k, v), k, w) == Set(o, k, w)
  {
    assert o.vals[k := v][k := w] == o.vals[k := w];
  }

  /** `t.a = t.a || {}; t.a.b = t.a.b || {}; t.a.b.c = v`: the statement
      sequence that stores a value two containers deep, creating the
      containers when they are falsy. */
  function Nest(t: Json, a: string, b: string, c: string, v: Json): Result<Json> {
    var outer :- Read(t, a);
    var t1 :- Write(t, a, Or(outer, Empty));
    var t2 :- Assign(t1, [a, b], Or(Get(Get(t1, a), b), Empty));
    Assign(t2, [a, b, c], v)
  }

  /** Both containers `Nest` passes through are objects or falsy. */
  predicate NestReady(t: Json, a: string, b: string) {
    var f := Get(t, a);
    && (f.Obj? || !Truthy(f))
    && (Get(Or(f, Empty), b).Obj? || !Truthy(Get(Or(f, Empty), b)))
  }

  /** `Nest` succeeds exactly on an object whose containers are objects or
      falsy, and then replaces `t.a` by a copy whose `b` holds `c: v`. */
  lemma NestIs(t: Json, a: string, b: string, c: string, v: Json)
    ensures Nest(t, a, b, c, v).Ok? <==> t.Obj? && NestReady(t, a, b)
    ensures Nest(t, a, b, c, v).Ok? ==>
      var f1 := Or(Get(t, a), Empty);
      var g := Or(Get(f1, b), Empty);
      Nest(t, a, b, c, v).value == Set(t, a, Set(f1, b, Set(g, c, v)))
  {
    if t.Obj? {
      var f1 := Or(Get(t, a), Empty);
      var t1 := Set(t, a, f1);
      if f1.Obj? {
        var g := Or(Get(f1, b), Empty);
        var f2 := Set(f1, b, g);
        var t2 := Set(t1, a, f2);
        assert Assign(t1, [a, b], g) == Ok(t2) by {
          AssignIs2(t1, a, b, g);
        }
        if g.Obj? {
          AssignIs3(t2, a, b, c, v);
          assert Nest(t, a, b, c, v) == Ok(Set(t2, a, Set(f2, b, Set(g, c, v))));
          SetSet(f1, b, g, Set(g, c, v));
          SetSet(t1, a, f2, Set(f1, b, Set(g, c, v)));
          SetSet(t, a, f1, Set(f1, b, Set(g, c, v)));
        } else {
          AssignFails3(t2, a, b, c, v);
        }
      } else {
        AssignFails2(t1, a, b, Or(Get(f1, b), Empty));
      }
    }
  }

  /** `foundry.utils.getProperty(o, "p1...pn")`: walks objects only and
      yields `undefined` as soon as a step is missing or not an object. */
  function GetProperty(o: Json, path: seq<string>): Json
    decreases |path|
  {
    if path == [] then o
    else if o.Obj? then GetProperty(Get(o, path[0]), path[1..])
    else Undefined
  }

  /** Writes `v` back where `GetProperty(o, path)` found its value. */
  function PutProperty(o: Json, path: seq<string>, v: Json): Json
    decreases |path|
  {
    if path == [] then v
    else if o.Obj? then Set(o, path[0], PutProperty(Get(o, path[0]), path[1..], v))
    else o
  }

  /** `getProperty` along a two-step path. */
  lemma GetProperty2(o: Json, a: string, b: string)
    ensures GetProperty(o, [a, b]) == if o.Obj? && Get(o, a).Obj? then Get(Get(o, a), b) else Undefined
  {
    assert [a, b][1..] == [b] && [b][1..] == [];
    if o.Obj? {
      assert GetProperty(o, [a, b]) == GetProperty(Get(o, a), [b]);
      if Get(o, a).Obj? {
        assert GetProperty(Get(o, a), [b]) == GetProperty(Get(Get(o, a), b), []);
      }
    }
  }

  /** Writing back along a two-step path that `getProperty` walked. */
  lemma PutProperty2(o: Json, a: string, b: string, v: Json)
    requires o.Obj? && Get(o, a).Obj?
    ensures PutProperty(o, [a, b], v) == Set(o, a, Set(Get(o, a), b, v))
  {
    assert [a, b][1..] == [b] && [b][1..] == [];
    assert PutProperty(o, [a, b], v) == Set(o, a, PutProperty(Get(o, a), [b], v));
    assert PutProperty(Get(o, a), [b], v) == Set(Get(o, a), b, PutProperty(Get(Get(o, a), b), [], v));
  }

  // ---------------------------------------------------------------------
  // Enumeration

  function DigitChar(d: nat): char
    requires d < 10
  {
    "0123456789"[d]
  }

  /** The property name of array index `i` ("0", "1", ..., "10", ...). */
  function IndexKey(i: nat): string
  {
    if i < 10 then [DigitChar(i)] else IndexKey(i / 10) + [DigitChar(i % 10)]
  }

  /** `Object.entries(o)`: an object's entries, an array's or a string's
      indexed elements, nothing for other values. */
  function Props(o: Json): Fields {
    match o
    case Obj(ks, m) => seq(|ks|, i requires 0 <= i < |ks| => (ks[i], Get(o, ks[i])))
    case Arr(es) => seq(|es|, i requires 0 <= i < |es| => (IndexKey(i), es[i]))
    case Str(s) => seq(|s|, i requires 0 <= i < |s| => (IndexKey(i), Str([s[i]])))
    case _ => []
  }

  /** Every key of a well-formed object is among its entries. */
  lemma PropsHasKey(o: Json, k: string)
    requires Wf(o) && HasKey(o, k)
    ensures exists i :: 0 <= i < |Props(o)| && Props(o)[i].0 == k
  {
    var i :| 0 <= i < |o.keys| && o.keys[i] == k;
    assert Props(o)[i].0 == k;
  }

  /** `Object.values(o)`. */
  function ObjectValues(o: Json): seq<Json> {
    var ps := Props(o);
    seq(|ps|, i requires 0 <= i < |ps| => ps[i].1)
  }
}
