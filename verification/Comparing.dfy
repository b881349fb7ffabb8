/** How Python compares, orders and iterates over JSON values, and where it raises. */
module Comparing {
  import opened Json
  import opened Ordering

  /** `str`, which turns any value into text. */
  type Text = Value -> string

  // ---- Equality ------------------------------------------------------------

  /** Booleans, integers and floats compare by their numeric value. */
  function Numeric(v: Value): Option<real> {
    match v
    case Bool(b) => Some(if b then 1.0 else 0.0)
    case Int(n) => Some(n as real)
    case Real(x) => Some(x)
    case _ => None
  }

  /** `a == b`. */
  predicate Same(a: Value, b: Value)
    decreases a
  {
    match a
    case Null => b.Null?
    case Str(s) => b == Str(s)
    case Arr(items) => b.Arr? && |b.items| == |items| && forall i :: 0 <= i < |items| ==> Same(items[i], b.items[i])
    case Obj(fields) => b.Obj? && b.fields.Keys == fields.Keys && forall k :: k in fields ==> Same(fields[k], b.fields[k])
    case _ => Numeric(b) == Numeric(a)
  }

  lemma {:induction false} SameReflexive(a: Value)
    ensures Same(a, a)
    decreases a
  {
    match a {
      case Arr(items) => forall i | 0 <= i < |items| ensures Same(items[i], items[i]) { SameReflexive(items[i]); }
      case Obj(fields) => forall k | k in fields ensures Same(fields[k], fields[k]) { SameReflexive(fields[k]); }
      case _ =>
    }
  }

  lemma {:induction false} SameSymmetric(a: Value, b: Value)
    requires Same(a, b)
    ensures Same(b, a)
    decreases a
  {
    match a {
      case Arr(items) => forall i | 0 <= i < |items| ensures Same(b.items[i], items[i]) { SameSymmetric(items[i], b.items[i]); }
      case Obj(fields) => forall k | k in fields ensures Same(b.fields[k], fields[k]) { SameSymmetric(fields[k], b.fields[k]); }
      case _ =>
    }
  }

  lemma {:induction false} SameTransitive(a: Value, b: Value, c: Value)
    requires Same(a, b) && Same(b, c)
    ensures Same(a, c)
    decreases a
  {
    match a {
      case Arr(items) =>
        forall i | 0 <= i < |items| ensures Same(items[i], c.items[i]) { SameTransitive(items[i], b.items[i], c.items[i]); }
      case Obj(fields) =>
        forall k | k in fields ensures Same(fields[k], c.fields[k]) { SameTransitive(fields[k], b.fields[k], c.fields[k]); }
      case _ =>
    }
  }

  /** Without booleans and floats. */
  ghost predicate Plain(v: Value)
    decreases v
  {
    match v
    case Bool(_) => false
    case Real(_) => false
    case Arr(items) => forall i :: 0 <= i < |items| ==> Plain(items[i])
    case Obj(fields) => forall k :: k in fields ==> Plain(fields[k])
    case _ => true
  }

  /** On plain values `==` is equality; across kinds of numbers it is equality of what they stand for. */
  lemma {:induction false} SameOnPlain(a: Value, b: Value)
    requires Plain(a) && Plain(b)
    ensures Same(a, b) <==> a == b
    decreases a
  {
    if a == b {
      SameReflexive(a);
    } else if a.Arr? && b.Arr? && |a.items| == |b.items| {
      var i :| 0 <= i < |a.items| && a.items[i] != b.items[i];
      SameOnPlain(a.items[i], b.items[i]);
    } else if a.Obj? && b.Obj? && a.fields.Keys == b.fields.Keys {
      var k :| k in a.fields && a.fields[k] != b.fields[k];
      SameOnPlain(a.fields[k], b.fields[k]);
    }
  }

  lemma SameOnNumbers(m: int, x: real, flag: bool)
    ensures Same(Int(m), Real(x)) <==> x == m as real
    ensures Same(Int(m), Bool(flag)) <==> m == if flag then 1 else 0
    ensures Same(Real(x), Bool(flag)) <==> x == if flag then 1.0 else 0.0
  {
  }

  // ---- Order ---------------------------------------------------------------

  /** `a > b`, where Python defines it: between numbers, between texts, and between lists by their first difference. */
  function Greater(a: Value, b: Value): Option<bool>
    decreases a, if a.Arr? then |a.items| + 1 else 0
  {
    if Numeric(a).Some? && Numeric(b).Some? then Some(Numeric(a).value > Numeric(b).value)
    else if a.Str? && b.Str? then Some(Less(b.text, a.text))
    else if a.Arr? && b.Arr? then GreaterFrom(a, b, 0)
    else None
  }

  function GreaterFrom(a: Value, b: Value, i: nat): Option<bool>
    requires a.Arr? && b.Arr? && i <= |a.items| && i <= |b.items|
    decreases a, |a.items| - i
  {
    if i == |a.items| || i == |b.items| then Some(|a.items| > |b.items|)
    else if Same(a.items[i], b.items[i]) then GreaterFrom(a, b, i + 1)
    else Greater(a.items[i], b.items[i])
  }

  /** Integers, floats and texts are ordered as they are; lists by their first difference, and a prefix comes first. */
  lemma OrderIsTheirs(m: int, n: int, x: real, s: string, t: string)
    ensures Greater(Int(m), Int(n)) == Some(m > n)
    ensures Greater(Int(m), Real(x)) == Some(m as real > x) && Greater(Real(x), Int(m)) == Some(x > m as real)
    ensures Greater(Str(s), Str(t)) == Some(Less(t, s))
    ensures Greater(Null, Null) == Greater(Int(m), Str(s)) == Greater(Str(s), Int(m)) == Greater(Obj(map[]), Obj(map[])) == None
    ensures Greater(Arr([Int(m), Int(n)]), Arr([Int(m)])) == Some(true) && Greater(Arr([Int(m)]), Arr([Int(m), Int(n)])) == Some(false)
    ensures m != n ==> Greater(Arr([Int(m)]), Arr([Int(n), Str(s)])) == Some(m > n)
  {
    var a, b, c := Arr([Int(m), Int(n)]), Arr([Int(m)]), Arr([Int(n), Str(s)]);
    assert Same(Int(m), Int(m));
    assert GreaterFrom(a, b, 1) == Some(true) && GreaterFrom(b, a, 1) == Some(false);
  }

  /** The comparison does not raise and finds a no greater than b. */
  predicate NotAbove(a: Value, b: Value) {
    Greater(a, b) == Some(false)
  }

  predicate NotAboveFrom(a: Value, b: Value, i: nat)
    requires a.Arr? && b.Arr? && i <= |a.items| && i <= |b.items|
  {
    GreaterFrom(a, b, i) == Some(false)
  }

  predicate Orderable(v: Value) {
    Numeric(v).Some? || v.Str? || v.Arr?
  }

  lemma {:induction false} SameListNotAbove(a: Value, i: nat)
    requires a.Arr? && i <= |a.items|
    ensures NotAboveFrom(a, a, i)
    decreases |a.items| - i
  {
    if i < |a.items| {
      SameReflexive(a.items[i]);
      SameListNotAbove(a, i + 1);
    }
  }

  /** Exactly what can be ordered at all is ordered against itself. */
  lemma NotAboveReflexive(a: Value)
    ensures NotAbove(a, a) <==> Orderable(a)
  {
    if a.Str? { LessIrreflexive(a.text); }
    if a.Arr? { SameListNotAbove(a, 0); }
  }

  /** Equal values are interchangeable on the right. */
  lemma {:induction false} GreaterThanSame(a: Value, b: Value, c: Value)
    requires Same(b, c)
    ensures Greater(a, b) == Greater(a, c)
    decreases a, if a.Arr? then |a.items| + 1 else 0
  {
    if a.Arr? && b.Arr? { GreaterThanSameFrom(a, b, c, 0); }
  }

  lemma {:induction false} GreaterThanSameFrom(a: Value, b: Value, c: Value, i: nat)
    requires a.Arr? && b.Arr? && c.Arr? && Same(b, c) && i <= |a.items| && i <= |b.items|
    ensures GreaterFrom(a, b, i) == GreaterFrom(a, c, i)
    decreases a, |a.items| - i
  {
    if i < |a.items| && i < |b.items| {
      var x, y, z := a.items[i], b.items[i], c.items[i];
      SameSymmetric(y, z);
      if Same(x, y) { SameTransitive(x, y, z); }
      if Same(x, z) { SameTransitive(x, z, y); }
      GreaterThanSame(x, y, z);
      GreaterThanSameFrom(a, b, c, i + 1);
    }
  }

  /** And on the left. */
  lemma {:induction false} SameIsGreater(a: Value, b: Value, c: Value)
    requires Same(a, b)
    ensures Greater(a, c) == Greater(b, c)
    decreases a, if a.Arr? then |a.items| + 1 else 0
  {
    if a.Arr? && c.Arr? { SameIsGreaterFrom(a, b, c, 0); }
  }

  lemma {:induction false} SameIsGreaterFrom(a: Value, b: Value, c: Value, i: nat)
    requires a.Arr? && b.Arr? && c.Arr? && Same(a, b) && i <= |a.items| && i <= |c.items|
    ensures GreaterFrom(a, c, i) == GreaterFrom(b, c, i)
    decreases a, |a.items| - i
  {
    if i < |a.items| && i < |c.items| {
      var x, y, z := a.items[i], b.items[i], c.items[i];
      SameSymmetric(x, y);
      if Same(x, z) { SameTransitive(y, x, z); }
      if Same(y, z) { SameTransitive(x, y, z); }
      SameIsGreater(x, y, z);
      SameIsGreaterFrom(a, b, c, i + 1);
    }
  }

  lemma {:induction false} NotAboveAntisymmetric(a: Value, b: Value)
    requires NotAbove(a, b) && NotAbove(b, a)
    ensures Same(a, b)
    decreases a, if a.Arr? then |a.items| + 1 else 0
  {
    if a.Str? && b.Str? { LessTotal(a.text, b.text); }
    if a.Arr? && b.Arr? { NotAboveAntisymmetricFrom(a, b, 0); }
  }

  lemma {:induction false} NotAboveAntisymmetricFrom(a: Value, b: Value, i: nat)
    requires a.Arr? && b.Arr? && i <= |a.items| && i <= |b.items| && NotAboveFrom(a, b, i) && NotAboveFrom(b, a, i)
    requires forall j :: 0 <= j < i ==> Same(a.items[j], b.items[j])
    ensures Same(a, b)
    decreases a, |a.items| - i
  {
    if i < |a.items| && i < |b.items| {
      var x, y := a.items[i], b.items[i];
      if Same(x, y) {
        SameSymmetric(x, y);
        NotAboveAntisymmetricFrom(a, b, i + 1);
      } else {
        if Same(y, x) { SameSymmetric(y, x); }
        NotAboveAntisymmetric(x, y);
      }
    }
  }

  lemma {:induction false} NotAboveTransitive(a: Value, b: Value, c: Value)
    requires NotAbove(a, b) && NotAbove(b, c)
    ensures NotAbove(a, c)
    decreases a, if a.Arr? then |a.items| + 1 else 0
  {
    if a.Str? && b.Str? { NotLessTransitive(a.text, b.text, c.text); }
    if a.Arr? && b.Arr? { NotAboveTransitiveFrom(a, b, c, 0); }
  }

  lemma {:induction false} NotAboveTransitiveFrom(a: Value, b: Value, c: Value, i: nat)
    requires a.Arr? && b.Arr? && c.Arr? && i <= |a.items| && i <= |b.items| && i <= |c.items|
    requires NotAboveFrom(a, b, i) && NotAboveFrom(b, c, i)
    ensures NotAboveFrom(a, c, i)
    decreases a, |a.items| - i
  {
    if i < |a.items| {
      var x, y, z := a.items[i], b.items[i], c.items[i];
      if Same(x, y) && Same(y, z) {
        SameTransitive(x, y, z);
        NotAboveTransitiveFrom(a, b, c, i + 1);
      } else {
        DifferentNotAbove(x, y, z);
      }
    }
  }

  /** At the first difference. */
  lemma {:induction false} DifferentNotAbove(x: Value, y: Value, z: Value)
    requires Same(x, y) || NotAbove(x, y)
    requires Same(y, z) || NotAbove(y, z)
    requires !Same(x, y) || !Same(y, z)
    ensures !Same(x, z) && NotAbove(x, z)
    decreases x, if x.Arr? then |x.items| + 2 else 1
  {
    if Same(x, y) {
      SameIsGreater(x, y, z);
      SameSymmetric(x, y);
      if Same(x, z) { SameTransitive(y, x, z); }
    } else if Same(y, z) {
      GreaterThanSame(x, y, z);
      SameSymmetric(y, z);
      if Same(x, z) { SameTransitive(x, z, y); }
    } else {
      NotAboveTransitive(x, y, z);
      if Same(x, z) {
        SameSymmetric(x, z);
        GreaterThanSame(y, z, x);
        NotAboveAntisymmetric(x, y);
      }
    }
  }

  // ---- Iteration -----------------------------------------------------------

  predicate Iterable(v: Value) {
    v.Arr? || v.Str? || v.Obj?
  }

  /** What iterating over a value yields: items, characters or keys. */
  function Elements(v: Value): set<Value> {
    match v
    case Arr(items) => set x | x in items
    case Str(s) => set c | c in s :: Str([c])
    case Obj(fields) => set k | k in fields :: Str(k)
    case _ => {}
  }

  /** `set(v)` does not raise: lists and objects cannot be members of a set. */
  predicate MakesSet(v: Value) {
    Iterable(v) && forall x :: x in Elements(v) ==> !x.Arr? && !x.Obj?
  }

  /** Lists yield their items, texts their characters, objects their keys; nothing else can be gone through. */
  lemma IterationIsTheirs(v: Value, x: Value)
    ensures Iterable(v) <==> !(v.Null? || v.Bool? || v.Int? || v.Real?)
    ensures v.Arr? ==> (x in Elements(v) <==> x in v.items)
    ensures v.Str? ==> (x in Elements(v) <==> x.Str? && |x.text| == 1 && x.text[0] in v.text)
    ensures v.Obj? ==> (x in Elements(v) <==> x.Str? && x.text in v.fields)
    ensures v.Arr? ==> (MakesSet(v) <==> forall i :: 0 <= i < |v.items| ==> !v.items[i].Arr? && !v.items[i].Obj?)
    ensures v.Str? || v.Obj? ==> MakesSet(v)
  {
    if v.Str? && x.Str? && |x.text| == 1 { assert x == Str([x.text[0]]); }
    if v.Arr? { assert forall i :: 0 <= i < |v.items| ==> v.items[i] in Elements(v); }
  }

  /** What counts as false: null, false, zero, and whatever is empty. */
  lemma FalsyValues(v: Value)
    ensures !Truthy(v) <==>
      v == Null || v == Bool(false) || v == Int(0) || v == Real(0.0) || v == Str("") || v == Arr([]) || v == Obj(map[])
  {
  }

  predicate Includes(all: set<Value>, v: Value) {
    exists x :: x in all && Same(x, v)
  }

  /** One set is part of another, members being compared by `==`. */
  predicate Covers(all: set<Value>, part: set<Value>) {
    forall x :: x in part ==> Includes(all, x)
  }

  function Missing(all: set<Value>, part: set<Value>): set<Value> {
    set x | x in part && !Includes(all, x)
  }

  lemma NothingMissing(all: set<Value>, part: set<Value>)
    ensures Missing(all, part) == {} <==> Covers(all, part)
  {
    assert forall x | x in part :: x in Missing(all, part) <==> !Includes(all, x);
  }

  lemma CoversItself(s: set<Value>)
    ensures Covers(s, s)
  {
    forall x | x in s ensures Includes(s, x) { SameReflexive(x); }
  }

  lemma CoversTransitive(a: set<Value>, b: set<Value>, c: set<Value>)
    requires Covers(a, b) && Covers(b, c)
    ensures Covers(a, c)
  {
    forall x | x in c ensures Includes(a, x) {
      var y :| y in b && Same(y, x);
      var z :| z in a && Same(z, y);
      SameTransitive(z, y, x);
    }
  }

  /** One text occurs in another. */
  predicate Occurs(part: string, s: string) {
    exists i :: 0 <= i <= |s| && part <= s[i..]
  }
}
