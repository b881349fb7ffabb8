/** The recursive comparison of a schema in the previous contract with the same schema in the current one. */
module OpenApiSchemas {
  import opened Json
  import opened Comparing

  // ---- Schemas -------------------------------------------------------------

  /** Keywords whose value may not change once it is there. */
  const SCALARS := {"type", "format", "$ref", "const", "pattern"}
  const COMPOSITIONS := {"allOf", "anyOf", "oneOf", "not"}
  const MINIMA := {"minimum", "exclusiveMinimum", "minLength", "minItems", "minProperties"}
  const MAXIMA := {"maximum", "exclusiveMaximum", "maxLength", "maxItems", "maxProperties"}

  function Enum(fields: Fields): Value {
    GetOr(fields, "enum", Arr([]))
  }

  function Required(fields: Fields): Value {
    GetOr(fields, "required", Arr([]))
  }

  predicate Keeps(prev: Fields, next: Fields, keyword: string) {
    keyword in prev ==> Same(Get(next, keyword), prev[keyword])
  }

  predicate KeepsAll(prev: Fields, next: Fields, keywords: set<string>) {
    forall k :: k in keywords ==> Keeps(prev, next, k)
  }

  predicate NoStricterMinimum(prev: Fields, next: Fields, keyword: string) {
    keyword in next ==> keyword in prev && NotAbove(next[keyword], prev[keyword])
  }

  predicate NoStricterMaximum(prev: Fields, next: Fields, keyword: string) {
    keyword in next ==> keyword in prev && NotAbove(prev[keyword], next[keyword])
  }

  predicate Closed(fields: Fields) {
    GetOr(fields, "additionalProperties", Bool(true)) == Bool(false)
  }

  function Properties(fields: Fields): Value {
    GetOr(fields, "properties", Obj(map[]))
  }

  predicate MinimaCompatible(prev: Fields, next: Fields) {
    forall k :: k in MINIMA ==> NoStricterMinimum(prev, next, k)
  }

  predicate MaximaCompatible(prev: Fields, next: Fields) {
    forall k :: k in MAXIMA ==> NoStricterMaximum(prev, next, k)
  }

  predicate EnumCompatible(prev: Fields, next: Fields) {
    "enum" in prev ==> Iterable(prev["enum"]) && Iterable(Enum(next)) && Elements(prev["enum"]) <= Elements(Enum(next))
  }

  predicate RequiredCompatible(prev: Fields, next: Fields) {
    && MakesSet(Required(prev)) && MakesSet(Required(next))
    && Covers(Elements(Required(prev)), Elements(Required(next)))
  }

  /** What a schema accepts at this level is not narrowed. */
  predicate BoundsCompatible(prev: Fields, next: Fields) {
    && EnumCompatible(prev, next) && RequiredCompatible(prev, next)
    && MinimaCompatible(prev, next) && MaximaCompatible(prev, next)
    && (Closed(next) ==> Closed(prev))
  }

  /** Everything `_schema_compatible` checks at one level, apart from what it recurses into. */
  predicate FlatCompatible(prev: Fields, next: Fields) {
    KeepsAll(prev, next, SCALARS) && KeepsAll(prev, next, COMPOSITIONS) && BoundsCompatible(prev, next)
  }

  /** `_schema_compatible` comes to its end and reports nothing. */
  predicate Compatible(prev: Value, next: Value)
    decreases prev, 1
  {
    if !prev.Obj? then Same(prev, next)
    else
      && next.Obj?
      && FlatCompatible(prev.fields, next.fields)
      && PropertiesCompatible(prev, next)
      && ItemsCompatible(prev, next)
  }

  /** An absent `properties` reads as an empty object; anything but an object is not looked into. */
  predicate PropertiesCompatible(prev: Value, next: Value)
    requires prev.Obj? && next.Obj?
    decreases prev, 0
  {
    && ("properties" !in prev.fields ==> Properties(next.fields).Obj?)
    && ("properties" in prev.fields && prev.fields["properties"].Obj? ==>
          && Properties(next.fields).Obj?
          && forall name :: name in prev.fields["properties"].fields ==>
               && name in Properties(next.fields).fields
               && Compatible(prev.fields["properties"].fields[name], Properties(next.fields).fields[name]))
  }

  predicate ItemsCompatible(prev: Value, next: Value)
    requires prev.Obj? && next.Obj?
    decreases prev, 0
  {
    "items" in prev.fields ==> Compatible(prev.fields["items"], Get(next.fields, "items"))
  }

  /** No keyword that is compared by value is null and no enum is empty, here or in any compared subschema. */
  predicate Firm(schema: Value)
    decreases schema
  {
    schema.Obj? ==>
      && (forall k :: k in SCALARS + COMPOSITIONS + {"items"} && k in schema.fields ==> !schema.fields[k].Null?)
      && ("enum" in schema.fields ==> Elements(schema.fields["enum"]) != {})
      && ("properties" in schema.fields && schema.fields["properties"].Obj? ==>
            forall name :: name in schema.fields["properties"].fields ==> Firm(schema.fields["properties"].fields[name]))
      && ("items" in schema.fields ==> Firm(schema.fields["items"]))
  }

  predicate SolidBounds(fields: Fields) {
    && ("enum" in fields ==> Iterable(fields["enum"])) && MakesSet(Required(fields))
    && forall k :: k in MINIMA + MAXIMA && k in fields ==> Orderable(fields[k])
  }

  /** What is iterated over can be, and what is ordered can be, here and in every compared subschema. */
  predicate Solid(schema: Value)
    decreases schema
  {
    schema.Obj? ==>
      && SolidBounds(schema.fields)
      && ("properties" in schema.fields && schema.fields["properties"].Obj? ==>
            forall name :: name in schema.fields["properties"].fields ==> Solid(schema.fields["properties"].fields[name]))
      && ("items" in schema.fields ==> Solid(schema.fields["items"]))
  }

  const BOUNDS := MINIMA + MAXIMA + {"enum", "required", "additionalProperties"}

  ghost predicate Agree(a: Fields, b: Fields, keys: set<string>) {
    forall k :: k in keys ==> (k in a <==> k in b) && (k in a ==> a[k] == b[k])
  }

  lemma BoundsAgreeing(a: Fields, b: Fields)
    requires Agree(a, b, BOUNDS) && SolidBounds(a)
    ensures BoundsCompatible(a, b)
  {
    assert Required(a) == Required(b) && Enum(a) == Enum(b);
    CoversItself(Elements(Required(a)));
    forall k | k in MINIMA + MAXIMA && k in a ensures NotAbove(a[k], a[k]) { NotAboveReflexive(a[k]); }
  }

  lemma BoundsReflexive(a: Fields)
    ensures BoundsCompatible(a, a) <==> SolidBounds(a)
  {
    if SolidBounds(a) { BoundsAgreeing(a, a); }
    forall k | k in MINIMA + MAXIMA && k in a ensures NotAbove(a[k], a[k]) <==> Orderable(a[k]) { NotAboveReflexive(a[k]); }
    if BoundsCompatible(a, a) {
      forall k | k in MINIMA + MAXIMA && k in a ensures Orderable(a[k]) {
        assert NoStricterMinimum(a, a, k) || NoStricterMaximum(a, a, k);
      }
    }
  }

  lemma KeywordsAgreeing(a: Fields, b: Fields, keys: set<string>)
    requires Agree(a, b, keys)
    ensures KeepsAll(a, b, keys)
  {
    forall k | k in keys && k in a ensures Same(a[k], a[k]) { SameReflexive(a[k]); }
  }

  /** What is not recursed into is compatible when it is the same. */
  lemma FlatAgreeing(a: Fields, b: Fields)
    requires Agree(a, b, SCALARS) && Agree(a, b, COMPOSITIONS) && Agree(a, b, BOUNDS) && SolidBounds(a)
    ensures FlatCompatible(a, b)
  {
    BoundsAgreeing(a, b);
    KeywordsAgreeing(a, b, SCALARS);
    KeywordsAgreeing(a, b, COMPOSITIONS);
  }

  lemma RecursedKeywords()
    ensures "properties" !in SCALARS && "properties" !in COMPOSITIONS && "properties" !in BOUNDS
    ensures "items" !in SCALARS && "items" !in COMPOSITIONS && "items" !in BOUNDS
    ensures (SCALARS + COMPOSITIONS) !! BOUNDS && SCALARS !! COMPOSITIONS
  {
  }

  lemma AgreeApartFrom(fields: Fields, k: string, x: Value, y: Value, keys: set<string>)
    requires k !in keys
    ensures Agree(fields[k := x], fields[k := y], keys)
    ensures Agree(fields, fields - {k}, keys) && Agree(fields - {k}, fields[k := x], keys)
  {
  }

  lemma FlatReflexive(a: Fields)
    ensures FlatCompatible(a, a) <==> SolidBounds(a)
  {
    BoundsReflexive(a);
    KeywordsAgreeing(a, a, SCALARS);
    KeywordsAgreeing(a, a, COMPOSITIONS);
  }

  lemma PropertiesReflexive(a: Value, b: Value)
    requires a.Obj? && b.Obj? && Solid(a)
    requires "properties" in a.fields <==> "properties" in b.fields
    requires "properties" in a.fields ==> a.fields["properties"] == b.fields["properties"]
    ensures PropertiesCompatible(a, b)
  {
    if "properties" in a.fields && a.fields["properties"].Obj? {
      var properties := a.fields["properties"].fields;
      forall name | name in properties ensures Compatible(properties[name], properties[name]) {
        CompatibleReflexive(properties[name]);
      }
    }
  }

  /** A schema is compatible with itself exactly if it can be compared with anything at all. */
  lemma {:induction false} CompatibleReflexive(a: Value)
    ensures Compatible(a, a) <==> Solid(a)
    decreases a
  {
    if a.Obj? {
      FlatReflexive(a.fields);
      if "properties" in a.fields && a.fields["properties"].Obj? {
        var properties := a.fields["properties"].fields;
        forall name | name in properties ensures Compatible(properties[name], properties[name]) <==> Solid(properties[name]) {
          CompatibleReflexive(properties[name]);
        }
      }
      if "items" in a.fields { CompatibleReflexive(a.fields["items"]); }
    } else {
      SameReflexive(a);
    }
  }

  lemma KeepsTransitive(a: Fields, b: Fields, c: Fields, k: string)
    requires Keeps(a, b, k) && Keeps(b, c, k) && (k in a ==> !a[k].Null?)
    ensures Keeps(a, c, k)
  {
    if k in a { SameTransitive(c[k], b[k], a[k]); }
  }

  lemma BoundsTransitive(a: Fields, b: Fields, c: Fields)
    requires BoundsCompatible(a, b) && BoundsCompatible(b, c) && ("enum" in a ==> Elements(a["enum"]) != {})
    ensures BoundsCompatible(a, c)
  {
    CoversTransitive(Elements(Required(a)), Elements(Required(b)), Elements(Required(c)));
    forall k | k in MINIMA ensures NoStricterMinimum(a, c, k) {
      assert NoStricterMinimum(a, b, k) && NoStricterMinimum(b, c, k);
      if k in c { NotAboveTransitive(c[k], b[k], a[k]); }
    }
    forall k | k in MAXIMA ensures NoStricterMaximum(a, c, k) {
      assert NoStricterMaximum(a, b, k) && NoStricterMaximum(b, c, k);
      if k in c { NotAboveTransitive(a[k], b[k], c[k]); }
    }
  }

  lemma FlatTransitive(a: Fields, b: Fields, c: Fields)
    requires FlatCompatible(a, b) && FlatCompatible(b, c)
    requires forall k :: k in SCALARS + COMPOSITIONS && k in a ==> !a[k].Null?
    requires "enum" in a ==> Elements(a["enum"]) != {}
    ensures FlatCompatible(a, c)
  {
    BoundsTransitive(a, b, c);
    forall k | k in SCALARS ensures Keeps(a, c, k) { KeepsTransitive(a, b, c, k); }
    forall k | k in COMPOSITIONS ensures Keeps(a, c, k) { KeepsTransitive(a, b, c, k); }
  }

  lemma NullOnlyFromNull(x: Value, y: Value)
    requires Compatible(x, y)
    ensures y.Null? ==> x.Null?
  {
  }

  /** Chains of accepted schemas are accepted end to end, if the first carries no null keyword value and no empty enum. */
  lemma {:induction false} CompatibleTransitive(a: Value, b: Value, c: Value)
    requires Firm(a) && Compatible(a, b) && Compatible(b, c)
    ensures Compatible(a, c)
    decreases a
  {
    if a.Obj? {
      FlatTransitive(a.fields, b.fields, c.fields);
      if "properties" in a.fields && a.fields["properties"].Obj? {
        var properties := a.fields["properties"].fields;
        forall name | name in properties
          ensures name in Properties(c.fields).fields && Compatible(properties[name], Properties(c.fields).fields[name])
        {
          CompatibleTransitive(properties[name], Properties(b.fields).fields[name], Properties(c.fields).fields[name]);
        }
      }
      if "items" in a.fields {
        NullOnlyFromNull(a.fields["items"], Get(b.fields, "items"));
        CompatibleTransitive(a.fields["items"], b.fields["items"], Get(c.fields, "items"));
      }
    } else {
      SameTransitive(a, b, c);
    }
  }

  // ---- Exactly when chains hold --------------------------------------------

  function WithProperty(fields: Fields, properties: Fields, name: string, x: Value): Value {
    Obj(fields["properties" := Obj(properties[name := x])])
  }

  function WithItems(fields: Fields, x: Value): Value {
    Obj(fields["items" := x])
  }

  lemma FlatApartFrom(fields: Fields, k: string, x: Value, y: Value)
    requires k in {"properties", "items"} && SolidBounds(fields)
    ensures FlatCompatible(fields[k := x], fields[k := y])
  {
    RecursedKeywords();
    AgreeApartFrom(fields, k, x, y, SCALARS);
    AgreeApartFrom(fields, k, x, y, COMPOSITIONS);
    AgreeApartFrom(fields, k, x, y, BOUNDS);
    FlatAgreeing(fields[k := x], fields[k := y]);
  }

  /** Inside a fixed surrounding, a schema is compatible exactly when its one replaced property is. */
  lemma PropertyDecides(fields: Fields, properties: Fields, name: string, x: Value, y: Value)
    requires Solid(Obj(fields)) && "properties" in fields && fields["properties"] == Obj(properties)
    ensures Compatible(WithProperty(fields, properties, name, x), WithProperty(fields, properties, name, y)) <==> Compatible(x, y)
  {
    var a, b := WithProperty(fields, properties, name, x), WithProperty(fields, properties, name, y);
    var p, q := properties[name := x], properties[name := y];
    FlatApartFrom(fields, "properties", Obj(p), Obj(q));
    if "items" in fields { CompatibleReflexive(fields["items"]); }
    assert ItemsCompatible(a, b);
    OnePropertyDecides(properties, name, x, y);
    assert a.fields["properties"].fields == p && Properties(b.fields) == Obj(q);
  }

  lemma OnePropertyDecides(properties: Fields, name: string, x: Value, y: Value)
    requires forall n :: n in properties ==> Solid(properties[n])
    ensures var p, q := properties[name := x], properties[name := y];
      (forall n :: n in p ==> n in q && Compatible(p[n], q[n])) <==> Compatible(x, y)
  {
    var p, q := properties[name := x], properties[name := y];
    forall n | n in p && n != name ensures n in q && Compatible(p[n], q[n]) { CompatibleReflexive(p[n]); }
    assert p[name] == x && q[name] == y;
  }

  lemma ItemsDecide(fields: Fields, x: Value, y: Value)
    requires Solid(Obj(fields))
    ensures Compatible(WithItems(fields, x), WithItems(fields, y)) <==> Compatible(x, y)
  {
    var a, b := WithItems(fields, x), WithItems(fields, y);
    FlatApartFrom(fields, "items", x, y);
    PropertiesReflexive(Obj(fields), Obj(fields));
    assert PropertiesCompatible(a, b);
    assert a.fields["items"] == x && Get(b.fields, "items") == y;
  }

  /** Without its one null keyword a schema has the same keywords, and any value may be put in its place. */
  lemma FlatAroundNull(fields: Fields, k: string, x: Value)
    requires k in SCALARS + COMPOSITIONS + {"items"} && k in fields && fields[k].Null? && SolidBounds(fields)
    ensures FlatCompatible(fields, fields - {k}) && FlatCompatible(fields - {k}, fields[k := x])
  {
    RecursedKeywords();
    AgreeApartFrom(fields, k, x, x, BOUNDS);
    BoundsAgreeing(fields, fields - {k});
    BoundsAgreeing(fields - {k}, fields[k := x]);
    forall key ensures Keeps(fields, fields - {k}, key) && Keeps(fields - {k}, fields[k := x], key) {
      if key in fields { SameReflexive(fields[key]); }
    }
  }

  lemma SubschemasAround(fields: Fields, k: string, x: Value)
    requires k in fields && k != "properties" && (k == "items" ==> fields[k].Null?) && Solid(Obj(fields))
    requires FlatCompatible(fields, fields - {k}) && FlatCompatible(fields - {k}, fields[k := x])
    ensures Compatible(Obj(fields), Obj(fields - {k})) && Compatible(Obj(fields - {k}), Obj(fields[k := x]))
  {
    PropertiesReflexive(Obj(fields), Obj(fields));
    assert PropertiesCompatible(Obj(fields), Obj(fields - {k})) && PropertiesCompatible(Obj(fields - {k}), Obj(fields[k := x]));
    if "items" in fields { CompatibleReflexive(fields["items"]); }
  }

  /** A null keyword may be dropped, and then given any value: the two steps pass, their sum does not. */
  lemma NullKeywordBreaks(fields: Fields, k: string)
    requires k in SCALARS + COMPOSITIONS + {"items"} && k in fields && fields[k].Null? && Solid(Obj(fields))
    ensures Compatible(Obj(fields), Obj(fields - {k})) && Compatible(Obj(fields - {k}), Obj(fields[k := Str("")]))
    ensures !Compatible(Obj(fields), Obj(fields[k := Str("")]))
  {
    FlatAroundNull(fields, k, Str(""));
    RecursedKeywords();
    SubschemasAround(fields, k, Str(""));
    assert k != "items" ==> !Keeps(fields, fields[k := Str("")], k);
    assert k == "items" ==> !ItemsCompatible(Obj(fields), Obj(fields[k := Str("")]));
  }

  /** An empty enum may be dropped, and then be null: the two steps pass, comparing their ends raises. */
  lemma EmptyEnumBreaks(fields: Fields)
    requires "enum" in fields && Elements(fields["enum"]) == {} && Solid(Obj(fields))
    ensures Compatible(Obj(fields), Obj(fields - {"enum"})) && Compatible(Obj(fields - {"enum"}), Obj(fields["enum" := Null]))
    ensures !Compatible(Obj(fields), Obj(fields["enum" := Null]))
  {
    BoundsReflexive(fields);
    BoundsAroundEnum(fields);
    KeywordsAroundEnum(fields);
    SubschemasAround(fields, "enum", Null);
    assert !EnumCompatible(fields, fields["enum" := Null]);
  }

  lemma BoundsAroundEnum(fields: Fields)
    requires "enum" in fields && Elements(fields["enum"]) == {} && BoundsCompatible(fields, fields)
    ensures BoundsCompatible(fields, fields - {"enum"}) && BoundsCompatible(fields - {"enum"}, fields["enum" := Null])
  {
    var b, c := fields - {"enum"}, fields["enum" := Null];
    assert Required(b) == Required(fields) == Required(c);
    forall k | k in MINIMA ensures NoStricterMinimum(fields, b, k) && NoStricterMinimum(b, c, k) { assert NoStricterMinimum(fields, fields, k); }
    forall k | k in MAXIMA ensures NoStricterMaximum(fields, b, k) && NoStricterMaximum(b, c, k) { assert NoStricterMaximum(fields, fields, k); }
  }

  lemma KeywordsAroundEnum(fields: Fields)
    requires "enum" in fields
    ensures KeepsAll(fields, fields - {"enum"}, SCALARS) && KeepsAll(fields - {"enum"}, fields["enum" := Null], SCALARS)
    ensures KeepsAll(fields, fields - {"enum"}, COMPOSITIONS) && KeepsAll(fields - {"enum"}, fields["enum" := Null], COMPOSITIONS)
  {
    RecursedKeywords();
    AgreeApartFrom(fields, "enum", Null, Null, SCALARS);
    AgreeApartFrom(fields, "enum", Null, Null, COMPOSITIONS);
    KeywordsAgreeing(fields, fields - {"enum"}, SCALARS);
    KeywordsAgreeing(fields, fields - {"enum"}, COMPOSITIONS);
    KeywordsAgreeing(fields - {"enum"}, fields["enum" := Null], SCALARS);
    KeywordsAgreeing(fields - {"enum"}, fields["enum" := Null], COMPOSITIONS);
  }

  lemma {:induction false} LooseSchemaBreaksChains(a: Value) returns (b: Value, c: Value)
    requires Solid(a) && !Firm(a)
    ensures Compatible(a, b) && Compatible(b, c) && !Compatible(a, c)
    decreases a
  {
    var f := a.fields;
    if k :| k in SCALARS + COMPOSITIONS + {"items"} && k in f && f[k].Null? {
      NullKeywordBreaks(f, k);
      b, c := Obj(f - {k}), Obj(f[k := Str("")]);
    } else if "enum" in f && Elements(f["enum"]) == {} {
      EmptyEnumBreaks(f);
      b, c := Obj(f - {"enum"}), Obj(f["enum" := Null]);
    } else if "items" in f && !Firm(f["items"]) {
      var x, y := LooseSchemaBreaksChains(f["items"]);
      b, c := WithItems(f, x), WithItems(f, y);
      ItemsBreak(f, x, y);
    } else {
      var properties := f["properties"].fields;
      var name :| name in properties && !Firm(properties[name]);
      var x, y := LooseSchemaBreaksChains(properties[name]);
      b, c := WithProperty(f, properties, name, x), WithProperty(f, properties, name, y);
      PropertyBreaks(f, properties, name, x, y);
    }
  }

  lemma ItemsBreak(f: Fields, x: Value, y: Value)
    requires Solid(Obj(f)) && "items" in f
    requires Compatible(f["items"], x) && Compatible(x, y) && !Compatible(f["items"], y)
    ensures Compatible(Obj(f), WithItems(f, x)) && Compatible(WithItems(f, x), WithItems(f, y))
    ensures !Compatible(Obj(f), WithItems(f, y))
  {
    assert f["items" := f["items"]] == f;
    ItemsDecide(f, f["items"], x);
    ItemsDecide(f, x, y);
    ItemsDecide(f, f["items"], y);
  }

  lemma PropertyBreaks(f: Fields, properties: Fields, name: string, x: Value, y: Value)
    requires Solid(Obj(f)) && "properties" in f && f["properties"] == Obj(properties) && name in properties
    requires Compatible(properties[name], x) && Compatible(x, y) && !Compatible(properties[name], y)
    ensures var b, c := WithProperty(f, properties, name, x), WithProperty(f, properties, name, y);
      Compatible(Obj(f), b) && Compatible(b, c) && !Compatible(Obj(f), c)
  {
    assert properties[name := properties[name]] == properties;
    assert f["properties" := f["properties"]] == f;
    PropertyDecides(f, properties, name, properties[name], x);
    PropertyDecides(f, properties, name, x, y);
    PropertyDecides(f, properties, name, properties[name], y);
  }

  /** Any two accepted steps from a schema add up to an accepted one. */
  ghost predicate ChainsHold(a: Value) {
    forall b, c :: Compatible(a, b) && Compatible(b, c) ==> Compatible(a, c)
  }

  /** From a schema that is compatible with itself, chains hold end to end exactly when it is firm. */
  lemma ChainsHoldIffFirm(a: Value)
    requires Compatible(a, a)
    ensures ChainsHold(a) <==> Firm(a)
  {
    CompatibleReflexive(a);
    if Firm(a) {
      forall b, c | Compatible(a, b) && Compatible(b, c) ensures Compatible(a, c) { CompatibleTransitive(a, b, c); }
    } else {
      var b, c := LooseSchemaBreaksChains(a);
      assert Compatible(a, b) && Compatible(b, c) && !Compatible(a, c);
    }
  }

  // ---- The comparison as it runs -------------------------------------------

  predicate EnumComparable(prev: Fields, next: Fields) {
    "enum" in prev ==> Iterable(prev["enum"]) && Iterable(Enum(next))
  }

  /** New required names that are no texts cannot be joined into a message. */
  predicate RequiredComparable(prev: Fields, next: Fields) {
    && MakesSet(Required(prev)) && MakesSet(Required(next))
    && forall x :: x in Elements(Required(next)) ==> x.Str? || Includes(Elements(Required(prev)), x)
  }

  predicate MinimumComparable(prev: Fields, next: Fields, keyword: string) {
    keyword in prev && keyword in next ==> Greater(next[keyword], prev[keyword]).Some?
  }

  predicate MaximumComparable(prev: Fields, next: Fields, keyword: string) {
    keyword in prev && keyword in next ==> Greater(prev[keyword], next[keyword]).Some?
  }

  predicate MinimaComparable(prev: Fields, next: Fields) {
    forall k :: k in MINIMA ==> MinimumComparable(prev, next, k)
  }

  predicate MaximaComparable(prev: Fields, next: Fields) {
    forall k :: k in MAXIMA ==> MaximumComparable(prev, next, k)
  }

  predicate BoundsComparable(prev: Fields, next: Fields) {
    EnumComparable(prev, next) && RequiredComparable(prev, next) && MinimaComparable(prev, next) && MaximaComparable(prev, next)
  }

  /** `_schema_compatible` does not raise, whatever it reports. */
  predicate Comparable(prev: Value, next: Value)
    decreases prev, 1
  {
    prev.Obj? && next.Obj? ==>
      BoundsComparable(prev.fields, next.fields) && PropertiesComparable(prev, next) && ItemsComparable(prev, next)
  }

  predicate PropertiesComparable(prev: Value, next: Value)
    requires prev.Obj? && next.Obj?
    decreases prev, 0
  {
    "properties" in prev.fields && prev.fields["properties"].Obj? && Properties(next.fields).Obj? ==>
      forall name :: name in prev.fields["properties"].fields && name in Properties(next.fields).fields ==>
        Comparable(prev.fields["properties"].fields[name], Properties(next.fields).fields[name])
  }

  predicate ItemsComparable(prev: Value, next: Value)
    requires prev.Obj? && next.Obj?
    decreases prev, 0
  {
    "items" in prev.fields ==> Comparable(prev.fields["items"], Get(next.fields, "items"))
  }

  lemma BoundsAreComparable(a: Fields, b: Fields)
    requires BoundsCompatible(a, b)
    ensures BoundsComparable(a, b)
  {
    forall k | k in MINIMA ensures MinimumComparable(a, b, k) { assert NoStricterMinimum(a, b, k); }
    forall k | k in MAXIMA ensures MaximumComparable(a, b, k) { assert NoStricterMaximum(a, b, k); }
  }

  /** What passes has not raised. */
  lemma {:induction false} CompatibleIsComparable(a: Value, b: Value)
    requires Compatible(a, b)
    ensures Comparable(a, b)
    decreases a
  {
    if a.Obj? {
      BoundsAreComparable(a.fields, b.fields);
      if "properties" in a.fields && a.fields["properties"].Obj? {
        var was, now := a.fields["properties"].fields, Properties(b.fields).fields;
        forall name | name in was ensures Comparable(was[name], now[name]) { CompatibleIsComparable(was[name], now[name]); }
      }
      if "items" in a.fields { CompatibleIsComparable(a.fields["items"], Get(b.fields, "items")); }
    }
  }

  /** A check added errors exactly if it failed, and every error it added names the place it looked at or one below. */
  ghost predicate Reported(before: seq<string>, after: seq<string>, location: string, ok: bool) {
    && before <= after
    && (after == before <==> ok)
    && forall i :: |before| <= i < |after| ==> location <= after[i]
  }

  lemma ReportedBoth(e0: seq<string>, e1: seq<string>, e2: seq<string>, location: string, p: bool, q: bool)
    requires Reported(e0, e1, location, p) && Reported(e1, e2, location, q)
    ensures Reported(e0, e2, location, p && q)
  {
    assert forall i :: |e0| <= i < |e1| ==> e2[i] == e1[i];
    if e2 == e0 { assert |e1| == |e0|; }
  }

  lemma ReportedBelow(e0: seq<string>, e1: seq<string>, location: string, child: string, p: bool)
    requires Reported(e0, e1, child, p) && location <= child
    ensures Reported(e0, e1, location, p)
  {
  }

  ghost predicate Holds<K(!new)>(keys: set<K>, check: K -> bool) {
    forall k :: k in keys ==> check(k)
  }

  /** One more turn of a loop that checks every key of a set. */
  lemma OneMoreKey<K(!new)>(e0: seq<string>, e1: seq<string>, e2: seq<string>, location: string,
                            keys: set<K>, pending: set<K>, key: K, check: K -> bool)
    requires key in pending && pending <= keys
    requires Reported(e0, e1, location, Holds(keys - pending, check)) && Reported(e1, e2, location, check(key))
    ensures Reported(e0, e2, location, Holds(keys - (pending - {key}), check))
  {
    ReportedBoth(e0, e1, e2, location, Holds(keys - pending, check), check(key));
    assert keys - (pending - {key}) == (keys - pending) + {key};
  }

  class Report {
    var errors: seq<string>

    constructor ()
      ensures errors == []
    {
      errors := [];
    }

    /** Appends an error unless the check holds. */
    method Check(ok: bool, location: string, message: string)
      modifies this
      ensures Reported(old(errors), errors, location, ok)
    {
      if !ok {
        errors := errors + [location + ": " + message];
        assert location <= location + ": " + message;
      }
    }

    method CheckKeywords(prev: Fields, next: Fields, keywords: set<string>, location: string)
      modifies this
      ensures Reported(old(errors), errors, location, KeepsAll(prev, next, keywords))
    {
      ghost var kept := k => Keeps(prev, next, k);
      var pending := keywords;
      while pending != {}
        invariant pending <= keywords
        invariant Reported(old(errors), errors, location, Holds(keywords - pending, kept))
      {
        ghost var sofar := errors;
        var k :| k in pending;
        Check(k !in prev || Same(Get(next, k), prev[k]), location, k + " changed");
        OneMoreKey(old(errors), sofar, errors, location, keywords, pending, k, kept);
        pending := pending - {k};
      }
      assert keywords - pending == keywords;
      assert Holds(keywords, kept) <==> KeepsAll(prev, next, keywords);
    }

    method CheckMinima(prev: Fields, next: Fields, location: string) returns (done: bool)
      modifies this
      ensures done <==> MinimaComparable(prev, next)
      ensures done ==> Reported(old(errors), errors, location, MinimaCompatible(prev, next))
    {
      ghost var fine, can := k => NoStricterMinimum(prev, next, k), k => MinimumComparable(prev, next, k);
      var pending := MINIMA;
      while pending != {}
        invariant pending <= MINIMA && Holds(MINIMA - pending, can)
        invariant Reported(old(errors), errors, location, Holds(MINIMA - pending, fine))
      {
        ghost var sofar := errors;
        var k :| k in pending;
        if !MinimumComparable(prev, next, k) { return false; }
        Check(k !in next || (k in prev && Greater(next[k], prev[k]) == Some(false)), location, k + " became stricter");
        OneMoreKey(old(errors), sofar, errors, location, MINIMA, pending, k, fine);
        pending := pending - {k};
      }
      assert MINIMA - pending == MINIMA;
      assert Holds(MINIMA, fine) <==> MinimaCompatible(prev, next);
      done := true;
    }

    method CheckMaxima(prev: Fields, next: Fields, location: string) returns (done: bool)
      modifies this
      ensures done <==> MaximaComparable(prev, next)
      ensures done ==> Reported(old(errors), errors, location, MaximaCompatible(prev, next))
    {
      ghost var fine, can := k => NoStricterMaximum(prev, next, k), k => MaximumComparable(prev, next, k);
      var pending := MAXIMA;
      while pending != {}
        invariant pending <= MAXIMA && Holds(MAXIMA - pending, can)
        invariant Reported(old(errors), errors, location, Holds(MAXIMA - pending, fine))
      {
        ghost var sofar := errors;
        var k :| k in pending;
        if !MaximumComparable(prev, next, k) { return false; }
        Check(k !in next || (k in prev && Greater(prev[k], next[k]) == Some(false)), location, k + " became stricter");
        OneMoreKey(old(errors), sofar, errors, location, MAXIMA, pending, k, fine);
        pending := pending - {k};
      }
      assert MAXIMA - pending == MAXIMA;
      assert Holds(MAXIMA, fine) <==> MaximaCompatible(prev, next);
      done := true;
    }

    /** Everything about one schema object except what it nests. */
    method CheckFlat(prev: Fields, next: Fields, location: string) returns (done: bool)
      modifies this
      ensures done <==> BoundsComparable(prev, next)
      ensures done ==> Reported(old(errors), errors, location, FlatCompatible(prev, next))
    {
      ghost var e0 := errors;
      CheckKeywords(prev, next, SCALARS, location);
      ghost var e1 := errors;
      done := CheckBounds(prev, next, location);
      if !done { return; }
      ghost var e2 := errors;
      CheckKeywords(prev, next, COMPOSITIONS, location);
      ReportedBoth(e0, e1, e2, location, KeepsAll(prev, next, SCALARS), BoundsCompatible(prev, next));
      ReportedBoth(e0, e2, errors, location, KeepsAll(prev, next, SCALARS) && BoundsCompatible(prev, next), KeepsAll(prev, next, COMPOSITIONS));
    }

    method CheckEnum(prev: Fields, next: Fields, location: string) returns (done: bool)
      modifies this
      ensures done <==> EnumComparable(prev, next)
      ensures done ==> Reported(old(errors), errors, location, EnumCompatible(prev, next))
    {
      if "enum" in prev {
        if !Iterable(prev["enum"]) || !Iterable(Enum(next)) { return false; }
        Check(Elements(prev["enum"]) <= Elements(Enum(next)), location, "enum values were removed");
      }
      done := true;
    }

    method CheckRequired(prev: Fields, next: Fields, location: string) returns (done: bool)
      modifies this
      ensures done <==> RequiredComparable(prev, next)
      ensures done ==> Reported(old(errors), errors, location, RequiredCompatible(prev, next))
    {
      if !MakesSet(Required(prev)) || !MakesSet(Required(next)) { return false; }
      var added := Missing(Elements(Required(prev)), Elements(Required(next)));
      if exists x :: x in added && !x.Str? { return false; }
      NothingMissing(Elements(Required(prev)), Elements(Required(next)));
      Check(added == {}, location, "new required fields");
      done := true;
    }

    method CheckBounds(prev: Fields, next: Fields, location: string) returns (done: bool)
      modifies this
      ensures done <==> BoundsComparable(prev, next)
      ensures done ==> Reported(old(errors), errors, location, BoundsCompatible(prev, next))
    {
      ghost var e0, enums := errors, EnumCompatible(prev, next);
      done := CheckEnum(prev, next, location);
      if !done { return; }
      ghost var e1, required := errors, RequiredCompatible(prev, next);
      done := CheckRequired(prev, next, location);
      if !done { return; }
      ghost var e2, minima := errors, MinimaCompatible(prev, next);
      done := CheckMinima(prev, next, location);
      if !done { return; }
      ghost var e3, maxima := errors, MaximaCompatible(prev, next);
      done := CheckMaxima(prev, next, location);
      if !done { return; }
      ghost var e4 := errors;
      var closed := Closed(prev) || !Closed(next);
      Check(closed, location, "additional properties are no longer accepted");
      ReportedBoth(e0, e1, e2, location, enums, required);
      ReportedBoth(e0, e2, e3, location, enums && required, minima);
      ReportedBoth(e0, e3, e4, location, enums && required && minima, maxima);
      ReportedBoth(e0, e4, errors, location, enums && required && minima && maxima, closed);
    }

    /** `_schema_compatible`; it is done unless it raises. */
    method CheckSchema(prev: Value, next: Value, location: string) returns (done: bool)
      modifies this
      ensures done <==> Comparable(prev, next)
      ensures done ==> Reported(old(errors), errors, location, Compatible(prev, next))
      decreases prev, 1
    {
      if !prev.Obj? {
        Check(Same(prev, next), location, "schema value changed");
      } else if !next.Obj? {
        Check(false, location, "schema object was removed");
      } else {
        ghost var e0, flat := errors, FlatCompatible(prev.fields, next.fields);
        done := CheckFlat(prev.fields, next.fields, location);
        if !done { return; }
        ghost var e1, properties := errors, PropertiesCompatible(prev, next);
        done := CheckProperties(prev, next, location);
        if !done { return; }
        ghost var e2, items := errors, ItemsCompatible(prev, next);
        done := CheckItems(prev, next, location);
        if !done { return; }
        ReportedBoth(e0, e1, e2, location, flat, properties);
        ReportedBoth(e0, e2, errors, location, flat && properties, items);
      }
      done := true;
    }

    method CheckItems(prev: Value, next: Value, location: string) returns (done: bool)
      requires prev.Obj? && next.Obj?
      modifies this
      ensures done <==> ItemsComparable(prev, next)
      ensures done ==> Reported(old(errors), errors, location, ItemsCompatible(prev, next))
      decreases prev, 0
    {
      done := true;
      if "items" in prev.fields {
        done := CheckSchema(prev.fields["items"], Get(next.fields, "items"), location + ".items");
        if done { ReportedBelow(old(errors), errors, location, location + ".items", ItemsCompatible(prev, next)); }
      }
    }

    method CheckProperties(prev: Value, next: Value, location: string) returns (done: bool)
      requires prev.Obj? && next.Obj?
      modifies this
      ensures done <==> PropertiesComparable(prev, next)
      ensures done ==> Reported(old(errors), errors, location, PropertiesCompatible(prev, next))
      decreases prev, 0
    {
      var was, now := Properties(prev.fields), Properties(next.fields);
      if !was.Obj? { return true; }
      if !now.Obj? {
        Check(false, location, "properties were removed");
        return true;
      }
      ghost var kept, can := name => PropertyKept(was.fields, now.fields, name), name => PropertyComparable(was.fields, now.fields, name);
      var pending := was.fields.Keys;
      while pending != {}
        invariant pending <= was.fields.Keys && Holds(was.fields.Keys - pending, can)
        invariant Reported(old(errors), errors, location, Holds(was.fields.Keys - pending, kept))
      {
        ghost var sofar := errors;
        var name :| name in pending;
        var child := location + (".properties." + name);
        if name !in now.fields {
          Check(false, child, "property was removed");
        } else {
          assert "properties" in prev.fields;
          done := CheckSchema(was.fields[name], now.fields[name], child);
          if !done { assert !PropertyComparable(was.fields, now.fields, name); return; }
        }
        ReportedBelow(sofar, errors, location, child, kept(name));
        OneMoreKey(old(errors), sofar, errors, location, was.fields.Keys, pending, name, kept);
        pending := pending - {name};
      }
      assert was.fields.Keys - pending == was.fields.Keys;
      assert Holds(was.fields.Keys, kept) <==> PropertiesCompatible(prev, next);
      assert Holds(was.fields.Keys, can) <==> PropertiesComparable(prev, next);
      done := true;
    }
  }

  ghost predicate PropertyKept(was: Fields, now: Fields, name: string) {
    name in was ==> name in now && Compatible(was[name], now[name])
  }

  ghost predicate PropertyComparable(was: Fields, now: Fields, name: string) {
    name in was && name in now ==> Comparable(was[name], now[name])
  }
}
