/** When the gate cannot compare: two schemas in the same place that Python cannot read against each other. */
module OpenApiRaising {
  import opened Json
  import opened Comparing
  import opened OpenApiPromises
  import opened OpenApiSchemas
  import opened OpenApiCompat
  import opened OpenApiGate

  // ---- In one place --------------------------------------------------------

  ghost predicate EnumsRead(prev: Fields, next: Fields) {
    "enum" in prev ==> Iterable(prev["enum"]) && Iterable(GetOr(next, "enum", Arr([])))
  }

  /** Both lists of names make sets, and a name that is new is a text. */
  ghost predicate NamesRead(prev: Fields, next: Fields) {
    && MakesSet(GetOr(prev, "required", Arr([]))) && MakesSet(GetOr(next, "required", Arr([])))
    && forall v :: v in Elements(GetOr(next, "required", Arr([]))) && !v.Str? ==>
         exists w :: w in Elements(GetOr(prev, "required", Arr([]))) && Same(w, v)
  }

  ghost predicate BoundsOrdered(prev: Fields, next: Fields) {
    && (forall k :: k in ["minimum", "exclusiveMinimum", "minLength", "minItems", "minProperties"] && k in prev && k in next ==>
          Greater(next[k], prev[k]) != None)
    && (forall k :: k in ["maximum", "exclusiveMaximum", "maxLength", "maxItems", "maxProperties"] && k in prev && k in next ==>
          Greater(prev[k], next[k]) != None)
  }

  ghost predicate Readable(prev: Value, next: Value) {
    prev.Obj? && next.Obj? ==>
      EnumsRead(prev.fields, next.fields) && NamesRead(prev.fields, next.fields) && BoundsOrdered(prev.fields, next.fields)
  }

  /** In every place that both schemas have. */
  ghost predicate SchemaReadable(prev: Value, next: Value) {
    forall path :: At(prev, path).Some? && NewAt(next, path).Some? ==> Readable(At(prev, path).value, NewAt(next, path).value)
  }

  ghost predicate DownComparable(a: Value, b: Value, step: Step) {
    Down(a, step).Some? && NewDown(b, step).Some? ==> Comparable(Down(a, step).value, NewDown(b, step).value)
  }

  lemma BoundsRead(a: Fields, b: Fields)
    ensures BoundsComparable(a, b) <==> EnumsRead(a, b) && NamesRead(a, b) && BoundsOrdered(a, b)
  {
    KeywordLists();
    NamesAgree(a, b);
    if BoundsOrdered(a, b) {
      forall k | k in MINIMA ensures MinimumComparable(a, b, k) { }
      forall k | k in MAXIMA ensures MaximumComparable(a, b, k) { }
    }
    if MinimaComparable(a, b) && MaximaComparable(a, b) {
      forall k | k in ["minimum", "exclusiveMinimum", "minLength", "minItems", "minProperties"] && k in a && k in b
        ensures Greater(b[k], a[k]) != None
      {
        assert MinimumComparable(a, b, k);
      }
      forall k | k in ["maximum", "exclusiveMaximum", "maxLength", "maxItems", "maxProperties"] && k in a && k in b
        ensures Greater(a[k], b[k]) != None
      {
        assert MaximumComparable(a, b, k);
      }
    }
  }

  lemma NamesAgree(a: Fields, b: Fields)
    ensures RequiredComparable(a, b) <==> NamesRead(a, b)
  {
  }

  lemma ComparableOneLevel(a: Value, b: Value)
    ensures Comparable(a, b) <==> Readable(a, b) && forall step :: DownComparable(a, b, step)
  {
    if a.Obj? && b.Obj? {
      BoundsRead(a.fields, b.fields);
      PropertiesReadOneLevel(a, b);
      assert DownComparable(a, b, Items) <==> ItemsComparable(a, b);
    }
  }

  lemma PropertiesReadOneLevel(a: Value, b: Value)
    requires a.Obj? && b.Obj?
    ensures PropertiesComparable(a, b) <==> forall name :: DownComparable(a, b, Property(name))
  {
    if "properties" in a.fields && a.fields["properties"].Obj? && Properties(b.fields).Obj? {
      var was, now := a.fields["properties"].fields, Properties(b.fields).fields;
      forall name | name in was && name in now ensures DownComparable(a, b, Property(name)) <==> Comparable(was[name], now[name]) { }
    }
  }

  lemma {:induction false} ComparableAt(a: Value, b: Value, path: seq<Step>)
    requires Comparable(a, b) && At(a, path).Some? && NewAt(b, path).Some?
    ensures Comparable(At(a, path).value, NewAt(b, path).value)
    decreases |path|
  {
    ComparableOneLevel(a, b);
    if path != [] {
      assert DownComparable(a, b, path[0]);
      ComparableAt(Down(a, path[0]).value, NewDown(b, path[0]).value, path[1..]);
    }
  }

  lemma ReadableBelow(a: Value, b: Value, step: Step)
    requires SchemaReadable(a, b) && Down(a, step).Some? && NewDown(b, step).Some?
    ensures SchemaReadable(Down(a, step).value, NewDown(b, step).value)
  {
    var x, y := Down(a, step).value, NewDown(b, step).value;
    forall path | At(x, path).Some? && NewAt(y, path).Some? ensures Readable(At(x, path).value, NewAt(y, path).value) {
      DownFirst(a, step, path);
      NewDownFirst(b, step, path);
      assert At(a, [step] + path).Some?;
    }
  }

  lemma {:induction false} ReadableIsComparable(a: Value, b: Value)
    requires SchemaReadable(a, b)
    ensures Comparable(a, b)
    decreases a
  {
    assert At(a, []) == Some(a) && NewAt(b, []) == Some(b) && Readable(a, b);
    forall step ensures DownComparable(a, b, step) {
      if Down(a, step).Some? && NewDown(b, step).Some? {
        ReadableBelow(a, b, step);
        match step {
          case Property(name) => ReadableIsComparable(a.fields["properties"].fields[name], NewDown(b, step).value);
          case Items => ReadableIsComparable(a.fields["items"], NewDown(b, step).value);
        }
      }
    }
    ComparableOneLevel(a, b);
  }

  /** The recursive comparison comes to its end exactly if in every place that both schemas have they can be read. */
  lemma ComparableIffReadable(a: Value, b: Value)
    ensures Comparable(a, b) <==> SchemaReadable(a, b)
  {
    if Comparable(a, b) {
      forall path | At(a, path).Some? && NewAt(b, path).Some? ensures Readable(At(a, path).value, NewAt(b, path).value) {
        ComparableAt(a, b, path);
        ComparableOneLevel(At(a, path).value, NewAt(b, path).value);
      }
    }
    if SchemaReadable(a, b) { ReadableIsComparable(a, b); }
  }

  // ---- In a contract -------------------------------------------------------

  ghost predicate ParametersReadable(text: Text, a: Fields, b: Fields, path: string, verb: string) {
    forall name, place, p, q :: HasParameter(text, a, path, verb, name, place, p) && HasParameter(text, b, path, verb, name, place, q) ==>
      SchemaReadable(SchemaOf(p), SchemaOf(q))
  }

  ghost predicate ContentReadable(a: Option<Fields>, b: Option<Fields>) {
    forall media :: MediaIn(a, media).Some? && MediaIn(b, media).Some? ==>
      SchemaReadable(SchemaOf(MediaIn(a, media).value), SchemaOf(MediaIn(b, media).value))
  }

  ghost predicate OperationReadable(text: Text, a: Fields, b: Fields, path: string, verb: string) {
    && ParametersReadable(text, a, b, path, verb)
    && ContentReadable(BodyAt(a, path, verb), BodyAt(b, path, verb))
    && forall status :: ContentReadable(ResponseAt(a, path, verb, status), ResponseAt(b, path, verb, status))
  }

  ghost predicate SharedReadable(a: Fields, b: Fields) {
    forall name :: SharedSchema(a, name).Some? && SharedSchema(b, name).Some? ==>
      SchemaReadable(SharedSchema(a, name).value, SharedSchema(b, name).value)
  }

  /** Wherever both contracts have a schema, the two can be read. */
  ghost predicate ContractReadable(text: Text, a: Fields, b: Fields) {
    && (forall path, verb :: OperationAt(a, path, verb).Some? && OperationAt(b, path, verb).Some? ==> OperationReadable(text, a, b, path, verb))
    && SharedReadable(a, b)
  }

  lemma ParametersAreReadable(text: Text, a: Fields, b: Fields, path: string, verb: string,
                              ai: Fields, ao: Fields, bi: Fields, bo: Fields)
    requires ItemAt(a, path) == Some(ai) && OperationAt(a, path, verb) == Some(ao)
    requires ItemAt(b, path) == Some(bi) && OperationAt(b, path, verb) == Some(bo)
    ensures ParametersComparable(ParametersOf(text, ai, ao), ParametersOf(text, bi, bo)) <==> ParametersReadable(text, a, b, path, verb)
  {
    var ps, qs := ParametersOf(text, ai, ao), ParametersOf(text, bi, bo);
    forall name, place, p { HasCollected(text, a, path, verb, ai, ao, name, place, p); }
    forall name, place, q { HasCollected(text, b, path, verb, bi, bo, name, place, q); }
    forall p, q { ComparableIffReadable(p, q); }
    if ParametersComparable(ps, qs) {
      forall name, place, p, q | HasParameter(text, a, path, verb, name, place, p) && HasParameter(text, b, path, verb, name, place, q)
        ensures SchemaReadable(SchemaOf(p), SchemaOf(q))
      {
        assert ParameterComparable(ps, qs, (name, place));
      }
    }
    if ParametersReadable(text, a, b, path, verb) {
      forall id: Identity | id in ps ensures ParameterComparable(ps, qs, id) {
        if id in qs {
          assert HasParameter(text, a, path, verb, id.0, id.1, ps[id]) && HasParameter(text, b, path, verb, id.0, id.1, qs[id]);
        }
      }
    }
  }

  lemma ContentIsReadable(a: Fields, b: Fields)
    requires SolidContent(a) && SolidContent(b)
    ensures ContentComparable(a, b) <==> ContentReadable(Some(a), Some(b))
  {
    var x, y := Section(a, "content"), Section(b, "content");
    forall p, q { ComparableIffReadable(p, q); }
    if ContentComparable(a, b) {
      forall media | MediaIn(Some(a), media).Some? && MediaIn(Some(b), media).Some?
        ensures SchemaReadable(SchemaOf(MediaIn(Some(a), media).value), SchemaOf(MediaIn(Some(b), media).value))
      {
        assert MediaComparable(x, y, media);
      }
    }
    if ContentReadable(Some(a), Some(b)) {
      forall media | media in x ensures MediaComparable(x, y, media) {
        if media in y { assert MediaIn(Some(a), media).Some? && MediaIn(Some(b), media).Some?; }
      }
    }
  }

  lemma BodyIsReadable(a: Fields, b: Fields, path: string, verb: string, ao: Fields, bo: Fields)
    requires OperationAt(a, path, verb) == Some(ao) && OperationAt(b, path, verb) == Some(bo)
    requires SolidBody(Get(ao, "requestBody")) && SolidBody(Get(bo, "requestBody"))
    ensures BodyComparable(Get(ao, "requestBody"), Get(bo, "requestBody")) <==> ContentReadable(BodyAt(a, path, verb), BodyAt(b, path, verb))
  {
    var x, y := Get(ao, "requestBody"), Get(bo, "requestBody");
    if x.Obj? && y.Obj? { ContentIsReadable(x.fields, y.fields); }
  }

  lemma ResponseIsReadable(a: Fields, b: Fields, path: string, verb: string, ao: Fields, bo: Fields, status: string)
    requires OperationAt(a, path, verb) == Some(ao) && OperationAt(b, path, verb) == Some(bo)
    requires SolidResponses(Section(ao, "responses")) && SolidResponses(Section(bo, "responses")) && status in Section(ao, "responses")
    ensures ResponseComparable(Section(ao, "responses"), Section(bo, "responses"), status) <==>
      ContentReadable(ResponseAt(a, path, verb, status), ResponseAt(b, path, verb, status))
  {
    var x, y := Section(ao, "responses"), Section(bo, "responses");
    if status in y { ContentIsReadable(x[status].fields, y[status].fields); }
  }

  lemma ResponsesAreReadable(a: Fields, b: Fields, path: string, verb: string, ao: Fields, bo: Fields)
    requires OperationAt(a, path, verb) == Some(ao) && OperationAt(b, path, verb) == Some(bo)
    requires SolidResponsesOf(ao) && SolidResponsesOf(bo)
    ensures ResponsesComparable(ao, bo) <==>
      forall status :: ContentReadable(ResponseAt(a, path, verb, status), ResponseAt(b, path, verb, status))
  {
    var x, y := Section(ao, "responses"), Section(bo, "responses");
    forall status | status in x
      ensures ResponseComparable(x, y, status) <==> ContentReadable(ResponseAt(a, path, verb, status), ResponseAt(b, path, verb, status))
    {
      ResponseIsReadable(a, b, path, verb, ao, bo, status);
    }
    forall status | status !in x ensures ContentReadable(ResponseAt(a, path, verb, status), ResponseAt(b, path, verb, status)) { }
  }

  lemma OperationIsReadable(text: Text, a: Fields, b: Fields, path: string, verb: string,
                            ai: Fields, ao: Fields, bi: Fields, bo: Fields)
    requires ItemAt(a, path) == Some(ai) && OperationAt(a, path, verb) == Some(ao)
    requires ItemAt(b, path) == Some(bi) && OperationAt(b, path, verb) == Some(bo)
    requires SolidOperation(text, ai, ao) && SolidOperation(text, bi, bo)
    ensures OperationComparable(text, ai, ao, bi, bo) <==> OperationReadable(text, a, b, path, verb)
  {
    ParametersAreReadable(text, a, b, path, verb, ai, ao, bi, bo);
    BodyIsReadable(a, b, path, verb, ao, bo);
    ResponsesAreReadable(a, b, path, verb, ao, bo);
  }

  lemma VerbIsReadable(text: Text, a: Fields, b: Fields, path: string, ai: Fields, bi: Fields, verb: string)
    requires SolidItem(text, ai) && SolidItem(text, bi) && ItemAt(a, path) == Some(ai) && ItemAt(b, path) == Some(bi)
    requires verb in METHODS && verb in ai
    ensures VerbComparable(text, Obj(ai), bi, verb) <==> (OperationAt(b, path, verb).Some? ==> OperationReadable(text, a, b, path, verb))
    ensures OperationAt(a, path, verb).Some?
  {
    VerbsAreMethods();
    if verb in bi {
      OperationIsReadable(text, a, b, path, verb, ai, ai[verb].fields, bi, bi[verb].fields);
    }
  }

  /** Of one path, all the operations that both contracts have there. */
  ghost predicate PathReadable(text: Text, a: Fields, b: Fields, path: string) {
    forall verb :: OperationAt(a, path, verb).Some? && OperationAt(b, path, verb).Some? ==> OperationReadable(text, a, b, path, verb)
  }

  lemma PathIsReadable(text: Text, a: Fields, b: Fields, path: string)
    requires SolidDocument(text, a) && SolidDocument(text, b) && path in Section(a, "paths")
    ensures PathComparable(text, Section(a, "paths"), Section(b, "paths"), path) <==> PathReadable(text, a, b, path)
  {
    var x, y := Section(a, "paths"), Section(b, "paths");
    var ai := x[path].fields;
    VerbsAreMethods();
    VerbsOfObject(ai);
    if path in y {
      var bi := y[path].fields;
      forall verb | verb in METHODS && verb in ai
        ensures VerbComparable(text, Obj(ai), bi, verb) <==> (OperationAt(b, path, verb).Some? ==> OperationReadable(text, a, b, path, verb))
        ensures OperationAt(a, path, verb).Some?
      {
        VerbIsReadable(text, a, b, path, ai, bi, verb);
      }
    }
  }

  lemma SharedAreReadable(text: Text, a: Fields, b: Fields)
    requires SolidDocument(text, a) && SolidDocument(text, b)
    ensures SchemasComparable(a, b) <==> SharedReadable(a, b)
  {
    var s, t := SharedSchemas(a), SchemasValue(b);
    forall p, q { ComparableIffReadable(p, q); }
    if SchemasComparable(a, b) {
      forall name | SharedSchema(a, name).Some? && SharedSchema(b, name).Some?
        ensures SchemaReadable(SharedSchema(a, name).value, SharedSchema(b, name).value)
      {
        assert SchemaComparable(s, t, name);
      }
    }
    if SharedReadable(a, b) {
      forall name | name in s ensures SchemaComparable(s, t, name) { assert SharedSchema(a, name).Some?; }
    }
  }

  /**
   Between contracts that pass against themselves, the gate comes to its end exactly if wherever both have a schema,
   the two can be read: whatever else has changed is reported and raises nothing.
   */
  lemma RaisesOnlyInSchemas(text: Text, a: Fields, b: Fields)
    requires SolidDocument(text, a) && SolidDocument(text, b)
    ensures DocumentComparable(text, a, b) <==> ContractReadable(text, a, b)
  {
    var x, y := Section(a, "paths"), Section(b, "paths");
    forall path | path in x ensures PathComparable(text, x, y, path) <==> PathReadable(text, a, b, path) { PathIsReadable(text, a, b, path); }
    SharedAreReadable(text, a, b);
    if ContractReadable(text, a, b) {
      forall path | path in x ensures PathComparable(text, x, y, path) { assert PathReadable(text, a, b, path); }
    }
    if AllPathsComparable(text, x, y) {
      forall path, verb | OperationAt(a, path, verb).Some? && OperationAt(b, path, verb).Some? ensures OperationReadable(text, a, b, path, verb) {
        assert PathComparable(text, x, y, path);
      }
    }
  }
}
