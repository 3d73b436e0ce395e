/** Identity keys: the `lc` normaliser and the candidate keys read from an
    element (`[e.a, e.b, ...].filter(Boolean).map(lc)`). */
module Keys {
  import opened Values

  predicate IsUpper(c: char) { 'A' <= c <= 'Z' }

  function LowerChar(c: char): char {
    if IsUpper(c) then (c as int + 32) as char else c
  }

  /** `toLowerCase`, on ASCII letters. */
  function Lower(s: string): string {
    seq(|s|, i requires 0 <= i < |s| => LowerChar(s[i]))
  }

  /** The characters `String.prototype.trim` removes (ECMAScript WhiteSpace
      and LineTerminator). */
  predicate IsSpace(c: char) {
    || '\t' <= c <= '\r'   // tab, line feed, vertical tab, form feed, carriage return
    || c == ' ' || c == '\U{00A0}' || c == '\U{1680}'
    || '\U{2000}' <= c <= '\U{200A}'
    || c == '\U{2028}' || c == '\U{2029}' || c == '\U{202F}' || c == '\U{205F}'
    || c == '\U{3000}' || c == '\U{FEFF}'
  }

  function TrimStart(s: string): (r: string)
    ensures |r| <= |s| && r == s[|s| - |r|..]
    ensures forall i :: 0 <= i < |s| - |r| ==> IsSpace(s[i])
    ensures r == [] || !IsSpace(r[0])
  {
    if s != [] && IsSpace(s[0]) then TrimStart(s[1..]) else s
  }

  function TrimEnd(s: string): (r: string)
    ensures |r| <= |s| && r == s[..|r|]
    ensures forall i :: |r| <= i < |s| ==> IsSpace(s[i])
    ensures r == [] || !IsSpace(r[|r| - 1])
  {
    if s != [] && IsSpace(s[|s| - 1]) then TrimEnd(s[..|s| - 1]) else s
  }

  function Trim(s: string): string {
    TrimEnd(TrimStart(s))
  }

  lemma LowerHasNoUpper(s: string)
    ensures forall i :: 0 <= i < |Lower(s)| ==> !IsUpper(Lower(s)[i])
  {
  }

  lemma TrimIsSlice(s: string)
    ensures forall i :: 0 <= i < |Trim(s)| ==> Trim(s)[i] == s[|s| - |TrimStart(s)| + i]
  {
  }

  /** `lc = s => (typeof s === "string" ? s.toLowerCase().trim() : "")`. */
  function Lc(v: Json): (r: string)
    ensures !v.Str? ==> r == ""
    ensures v.Str? ==> |r| <= |v.s|
  {
    if v.Str? then Trim(Lower(v.s)) else ""
  }

  /** A key has no upper-case ASCII letter and no leading or trailing
      white space. */
  lemma LcShape(v: Json)
    ensures var r := Lc(v);
      && (forall i :: 0 <= i < |r| ==> !IsUpper(r[i]))
      && (r == [] || (!IsSpace(r[0]) && !IsSpace(r[|r| - 1])))
  {
    if v.Str? {
      LowerHasNoUpper(v.s);
      TrimIsSlice(Lower(v.s));
    }
  }

  /** The two strings are equal once ASCII letters are lower-cased. */
  predicate SameIgnoringCase(s: string, t: string) {
    |s| == |t| && forall i :: 0 <= i < |s| ==> LowerChar(s[i]) == LowerChar(t[i])
  }

  /** Matching is case-insensitive: strings that differ only in the case of
      their letters normalise to the same key. */
  lemma LcIgnoresCase(s: string, t: string)
    requires SameIgnoringCase(s, t)
    ensures Lc(Str(s)) == Lc(Str(t))
  {
    assert Lower(s) == Lower(t);
  }

  lemma {:induction false} TrimStartIdle(s: string)
    requires s == [] || !IsSpace(s[0])
    ensures TrimStart(s) == s
  {
  }

  lemma {:induction false} TrimEndIdle(s: string)
    requires s == [] || !IsSpace(s[|s| - 1])
    ensures TrimEnd(s) == s
  {
  }

  /** A string already in key form is its own key: `lc` changes exactly
      the case of ASCII letters and the surrounding white space. */
  lemma LcFixed(s: string)
    requires forall i :: 0 <= i < |s| ==> !IsUpper(s[i])
    requires s == [] || (!IsSpace(s[0]) && !IsSpace(s[|s| - 1]))
    ensures Lc(Str(s)) == s
  {
    assert Lower(s) == s;
    TrimStartIdle(s);
    TrimEndIdle(s);
  }

  /** Normalising a normalised key changes nothing. */
  lemma LcIdempotent(v: Json)
    ensures Lc(Str(Lc(v))) == Lc(v)
  {
    LcShape(v);
    LcFixed(Lc(v));
  }

  lemma LowerConcat(x: string, y: string)
    ensures Lower(x + y) == Lower(x) + Lower(y)
  {
  }

  lemma LowerSpaces(a: string)
    requires forall i :: 0 <= i < |a| ==> IsSpace(a[i])
    ensures Lower(a) == a
  {
  }

  /** Leading and trailing white space never tells two keys apart. */
  lemma LcIgnoresPadding(a: string, s: string, b: string)
    requires forall i :: 0 <= i < |a| ==> IsSpace(a[i])
    requires forall i :: 0 <= i < |b| ==> IsSpace(b[i])
    ensures Lc(Str(a + s + b)) == Lc(Str(s))
  {
    var inner := Lower(s);
    LowerConcat(a + s, b);
    LowerConcat(a, s);
    LowerSpaces(a);
    LowerSpaces(b);
    assert Lower(a + s + b) == a + (inner + b);
    TrimStartSkips(a, inner + b);
    TrimStartKeepsTail(inner, b);
    TrimEndSkips(TrimStart(inner), b);
  }

  lemma {:induction false} TrimStartSkips(a: string, s: string)
    requires forall i :: 0 <= i < |a| ==> IsSpace(a[i])
    ensures TrimStart(a + s) == TrimStart(s)
    decreases |a|
  {
    if a != [] {
      assert (a + s)[0] == a[0] && IsSpace(a[0]);
      assert (a + s)[1..] == a[1..] + s;
      assert TrimStart(a + s) == TrimStart(a[1..] + s);
      TrimStartSkips(a[1..], s);
    } else {
      assert a + s == s;
    }
  }

  lemma {:induction false} TrimStartKeepsTail(s: string, b: string)
    requires forall i :: 0 <= i < |b| ==> IsSpace(b[i])
    ensures TrimStart(s + b) == TrimStart(s) + b || (TrimStart(s) == [] && TrimStart(s + b) == [])
    decreases |s|
  {
    if s == [] {
      TrimStartSkips(b, []);
      assert b + [] == b;
    } else if IsSpace(s[0]) {
      assert (s + b)[1..] == s[1..] + b;
      TrimStartKeepsTail(s[1..], b);
    }
  }

  lemma {:induction false} TrimEndSkips(s: string, b: string)
    requires forall i :: 0 <= i < |b| ==> IsSpace(b[i])
    ensures TrimEnd(s + b) == TrimEnd(s)
    decreases |b|
  {
    if b != [] {
      var sb := s + b;
      assert sb[..|sb| - 1] == s + b[..|b| - 1];
      TrimEndSkips(s, b[..|b| - 1]);
    } else {
      assert s + b == s;
    }
  }

  /** `[e.f1, e.f2, ...].filter(Boolean).map(lc)`: the truthy fields of `e`,
      in the order given, each normalised; a truthy non-string gives "". */
  function Candidates(e: Json, fields: seq<string>): (r: seq<string>)
    ensures |r| <= |fields|
  {
    if fields == [] then []
    else
      var v := Get(e, fields[0]);
      (if Truthy(v) then [Lc(v)] else []) + Candidates(e, fields[1..])
  }

  /** A truthy first identity field gives the first candidate. */
  lemma CandidatesFirst(e: Json, fields: seq<string>)
    requires fields != [] && Truthy(Get(e, fields[0]))
    ensures Candidates(e, fields) != [] && Candidates(e, fields)[0] == Lc(Get(e, fields[0]))
  {
  }

  /** Every truthy identity field contributes its normalised value. */
  lemma {:induction false} CandidatesHas(e: Json, fields: seq<string>, f: string)
    requires f in fields && Truthy(Get(e, f))
    ensures Lc(Get(e, f)) in Candidates(e, fields)
    decreases |fields|
  {
    if fields[0] != f {
      CandidatesHas(e, fields[1..], f);
    }
  }

  /** Every candidate comes from a truthy identity field. */
  lemma {:induction false} CandidatesFrom(e: Json, fields: seq<string>, x: string)
    requires x in Candidates(e, fields)
    ensures exists f :: f in fields && Truthy(Get(e, f)) && x == Lc(Get(e, f))
    decreases |fields|
  {
    var v := Get(e, fields[0]);
    if !(Truthy(v) && x == Lc(v)) {
      CandidatesFrom(e, fields[1..], x);
      var f :| f in fields[1..] && Truthy(Get(e, f)) && x == Lc(Get(e, f));
      assert f in fields;
    }
  }
}
