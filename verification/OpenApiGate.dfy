/** The gate keeps what a release promises, and stops nothing else. */
module OpenApiGate {
  import opened Json
  import opened Comparing
  import opened OpenApiPromises
  import opened OpenApiSchemas
  import opened OpenApiCompat

  // ---- Schemas -------------------------------------------------------------

  lemma KeywordLists()
    ensures forall k :: k in SCALARS <==> k in ["type", "format", "$ref", "const", "pattern"]
    ensures forall k :: k in COMPOSITIONS <==> k in ["allOf", "anyOf", "oneOf", "not"]
    ensures forall k :: k in MINIMA <==> k in ["minimum", "exclusiveMinimum", "minLength", "minItems", "minProperties"]
    ensures forall k :: k in MAXIMA <==> k in ["maximum", "exclusiveMaximum", "maxLength", "maxItems", "maxProperties"]
  {
  }

  lemma KeywordsAreKept(a: Fields, b: Fields)
    ensures KeywordsStay(a, b) <==> KeepsAll(a, b, SCALARS) && KeepsAll(a, b, COMPOSITIONS)
  {
    KeywordLists();
  }

  lemma BoundsAreKept(a: Fields, b: Fields)
    ensures NoBoundTightened(a, b) <==> MinimaCompatible(a, b) && MaximaCompatible(a, b)
  {
    KeywordLists();
  }

  lemma ListsAreKept(a: Fields, b: Fields)
    ensures NoEnumValueLost(a, b) <==> EnumCompatible(a, b)
    ensures NoNameNewlyRequired(a, b) <==> RequiredCompatible(a, b)
  {
  }

  lemma FlatIsUnbroken(a: Fields, b: Fields)
    ensures FlatCompatible(a, b) <==>
      KeywordsStay(a, b) && NoEnumValueLost(a, b) && NoNameNewlyRequired(a, b) && NoBoundTightened(a, b) && NotClosed(a, b)
  {
    KeywordsAreKept(a, b);
    BoundsAreKept(a, b);
    ListsAreKept(a, b);
  }

  ghost predicate DownCompatible(a: Value, b: Value, step: Step) {
    Down(a, step).Some? ==> NewDown(b, step).Some? && Compatible(Down(a, step).value, NewDown(b, step).value)
  }

  /** One level of the comparison, and what it nests. */
  lemma CompatibleOneLevel(a: Value, b: Value)
    ensures Compatible(a, b) <==> Unbroken(a, b) && forall step :: DownCompatible(a, b, step)
  {
    if a.Obj? && b.Obj? {
      FlatIsUnbroken(a.fields, b.fields);
      PropertiesOneLevel(a, b);
      assert DownCompatible(a, b, Items) <==> ItemsCompatible(a, b);
    }
  }

  lemma PropertiesOneLevel(a: Value, b: Value)
    requires a.Obj? && b.Obj?
    ensures PropertiesCompatible(a, b) <==>
      NoPropertyLost(a.fields, b.fields) && forall name :: DownCompatible(a, b, Property(name))
  {
    if "properties" in a.fields && a.fields["properties"].Obj? && Properties(b.fields).Obj? {
      var was, now := a.fields["properties"].fields, Properties(b.fields).fields;
      forall name | name in was && name in now ensures DownCompatible(a, b, Property(name)) <==> Compatible(was[name], now[name]) { }
    }
  }

  lemma {:induction false} CompatibleAt(a: Value, b: Value, path: seq<Step>)
    requires Compatible(a, b) && At(a, path).Some?
    ensures NewAt(b, path).Some? && Compatible(At(a, path).value, NewAt(b, path).value)
    decreases |path|
  {
    CompatibleOneLevel(a, b);
    if path != [] {
      assert DownCompatible(a, b, path[0]);
      CompatibleAt(Down(a, path[0]).value, NewDown(b, path[0]).value, path[1..]);
    }
  }

  lemma DownFirst(schema: Value, step: Step, path: seq<Step>)
    requires Down(schema, step).Some?
    ensures At(schema, [step] + path) == At(Down(schema, step).value, path)
  {
    assert ([step] + path)[1..] == path;
  }

  lemma NewDownFirst(schema: Value, step: Step, path: seq<Step>)
    ensures NewAt(schema, [step] + path) == if NewDown(schema, step).Some? then NewAt(NewDown(schema, step).value, path) else None
  {
    assert ([step] + path)[1..] == path;
  }

  lemma UnbrokenBelow(a: Value, b: Value, step: Step)
    requires SchemaUnbroken(a, b) && Down(a, step).Some?
    ensures NewDown(b, step).Some? && SchemaUnbroken(Down(a, step).value, NewDown(b, step).value)
  {
    DownFirst(a, step, []);
    NewDownFirst(b, step, []);
    assert At(a, [step] + []).Some? && NewDown(b, step).Some?;
    var x, y := Down(a, step).value, NewDown(b, step).value;
    forall path | At(x, path).Some? ensures NewAt(y, path).Some? && Unbroken(At(x, path).value, NewAt(y, path).value) {
      DownFirst(a, step, path);
      NewDownFirst(b, step, path);
      assert At(a, [step] + path).Some?;
    }
  }

  lemma {:induction false} UnbrokenIsCompatible(a: Value, b: Value)
    requires SchemaUnbroken(a, b)
    ensures Compatible(a, b)
    decreases a
  {
    assert At(a, []) == Some(a) && NewAt(b, []) == Some(b) && Unbroken(a, b);
    forall step ensures DownCompatible(a, b, step) {
      if Down(a, step).Some? {
        UnbrokenBelow(a, b, step);
        match step {
          case Property(name) => UnbrokenIsCompatible(a.fields["properties"].fields[name], NewDown(b, step).value);
          case Items => UnbrokenIsCompatible(a.fields["items"], NewDown(b, step).value);
        }
      }
    }
    CompatibleOneLevel(a, b);
  }

  /** The recursive comparison of two schemas passes exactly if nothing is broken in any place of the old one. */
  lemma CompatibleIffUnbroken(a: Value, b: Value)
    ensures Compatible(a, b) <==> SchemaUnbroken(a, b)
  {
    if Compatible(a, b) {
      forall path | At(a, path).Some? ensures NewAt(b, path).Some? && Unbroken(At(a, path).value, NewAt(b, path).value) {
        CompatibleAt(a, b, path);
        CompatibleOneLevel(At(a, path).value, NewAt(b, path).value);
      }
    }
    if SchemaUnbroken(a, b) { UnbrokenIsCompatible(a, b); }
  }

  // ---- Parameters ----------------------------------------------------------

  lemma {:induction false} CollectedIsDeclared(text: Text, list: seq<Value>, name: string, place: string, p: Fields)
    ensures DeclaredAs(text, list, name, place, p) <==> (name, place) in Collect(text, list) && Collect(text, list)[(name, place)] == p
    decreases |list|
  {
    if list != [] {
      var n := |list| - 1;
      CollectedIsDeclared(text, list[..n], name, place, p);
      LastDeclarationGrows(text, list, name, place, p);
    }
  }

  lemma LastDeclarationGrows(text: Text, list: seq<Value>, name: string, place: string, p: Fields)
    requires list != []
    ensures var n := |list| - 1;
      DeclaredAs(text, list, name, place, p) <==>
        if Declares(text, list[n], name, place) then list[n] == Obj(p) else DeclaredAs(text, list[..n], name, place, p)
  {
    var n := |list| - 1;
    if Declares(text, list[n], name, place) {
      assert LastDeclaration(text, list, n, name, place);
      forall i: nat | LastDeclaration(text, list, i, name, place) ensures i == n { }
    } else {
      forall i: nat ensures LastDeclaration(text, list, i, name, place) <==> LastDeclaration(text, list[..n], i, name, place) {
        if LastDeclaration(text, list[..n], i, name, place) {
          forall j | i < j < |list| ensures !Declares(text, list[j], name, place) { assert j < n ==> list[..n][j] == list[j]; }
        }
        if LastDeclaration(text, list, i, name, place) {
          assert i != n;
          forall j | i < j < n ensures !Declares(text, list[..n][j], name, place) { assert list[..n][j] == list[j]; }
        }
      }
      if i :| 0 <= i < |list| && LastDeclaration(text, list, i, name, place) && list[i] == Obj(p) { assert list[..n][i] == list[i]; }
    }
  }

  lemma ParameterIsUnbroken(p: Fields, q: Fields)
    ensures ParameterCompatible(p, q) <==> ParameterUnbroken(p, q)
  {
    CompatibleIffUnbroken(SchemaIn(p), SchemaIn(q));
    assert forall k :: k in PRESENTATION <==> k in ["style", "explode", "allowEmptyValue"];
  }

  /** The parameters that an operation of a contract has are those that are collected for it. */
  lemma HasCollected(text: Text, document: Fields, path: string, verb: string, item: Fields, operation: Fields,
                     name: string, place: string, p: Fields)
    requires ItemAt(document, path) == Some(item) && OperationAt(document, path, verb) == Some(operation)
    ensures HasParameter(text, document, path, verb, name, place, p) <==>
      var ps := ParametersOf(text, item, operation); (name, place) in ps && ps[(name, place)] == p
  {
    CollectedIsDeclared(text, List(item, "parameters") + List(operation, "parameters"), name, place, p);
  }

  lemma ParametersAreUnbroken(text: Text, a: Fields, b: Fields, path: string, verb: string,
                              ai: Fields, ao: Fields, bi: Fields, bo: Fields)
    requires ItemAt(a, path) == Some(ai) && OperationAt(a, path, verb) == Some(ao)
    requires ItemAt(b, path) == Some(bi) && OperationAt(b, path, verb) == Some(bo)
    ensures ParametersCompatible(ParametersOf(text, ai, ao), ParametersOf(text, bi, bo)) <==> ParametersUnbroken(text, a, b, path, verb)
  {
    var ps, qs := ParametersOf(text, ai, ao), ParametersOf(text, bi, bo);
    forall name, place, p { HasCollected(text, a, path, verb, ai, ao, name, place, p); }
    forall name, place, q { HasCollected(text, b, path, verb, bi, bo, name, place, q); }
    forall p, q { ParameterIsUnbroken(p, q); }
    if ParametersCompatible(ps, qs) {
      forall name, place, p | HasParameter(text, a, path, verb, name, place, p)
        ensures exists q :: HasParameter(text, b, path, verb, name, place, q) && ParameterUnbroken(p, q)
      {
        assert ParameterKept(ps, qs, (name, place));
        assert HasParameter(text, b, path, verb, name, place, qs[(name, place)]);
      }
      forall name, place, q | HasParameter(text, b, path, verb, name, place, q) && IsRequired(q)
        ensures exists p :: HasParameter(text, a, path, verb, name, place, p)
      {
        assert NotNewlyRequired(ps, qs, (name, place));
        assert HasParameter(text, a, path, verb, name, place, ps[(name, place)]);
      }
    }
    if ParametersUnbroken(text, a, b, path, verb) {
      forall id: Identity | id in ps ensures ParameterKept(ps, qs, id) { assert HasParameter(text, a, path, verb, id.0, id.1, ps[id]); }
      forall id: Identity | id in qs ensures NotNewlyRequired(ps, qs, id) { assert HasParameter(text, b, path, verb, id.0, id.1, qs[id]); }
    }
  }

  // ---- Bodies and responses ------------------------------------------------

  lemma ContentIsUnbroken(a: Fields, b: Fields)
    ensures ContentCompatible(a, b) ==> ContentUnbroken(Some(a), Some(b))
    ensures SolidContent(a) && SolidContent(b) && ContentUnbroken(Some(a), Some(b)) ==> ContentCompatible(a, b)
  {
    var x, y := Section(a, "content"), Section(b, "content");
    forall p, q { CompatibleIffUnbroken(p, q); }
    if ContentCompatible(a, b) {
      forall media | MediaIn(Some(a), media).Some?
        ensures MediaIn(Some(b), media).Some?
          && SchemaUnbroken(SchemaOf(MediaIn(Some(a), media).value), SchemaOf(MediaIn(Some(b), media).value))
      {
        assert MediaKept(x, y, media);
      }
    }
    if SolidContent(a) && SolidContent(b) && ContentUnbroken(Some(a), Some(b)) {
      forall media | media in x ensures MediaKept(x, y, media) { assert MediaIn(Some(a), media).Some?; }
    }
  }

  lemma BodyIsUnbroken(a: Fields, b: Fields, path: string, verb: string, ao: Fields, bo: Fields)
    requires OperationAt(a, path, verb) == Some(ao) && OperationAt(b, path, verb) == Some(bo)
    ensures BodyCompatible(Get(ao, "requestBody"), Get(bo, "requestBody")) ==> BodyUnbroken(a, b, path, verb)
    ensures SolidBody(Get(ao, "requestBody")) && SolidBody(Get(bo, "requestBody")) && BodyUnbroken(a, b, path, verb) ==>
      BodyCompatible(Get(ao, "requestBody"), Get(bo, "requestBody"))
  {
    var x, y := Get(ao, "requestBody"), Get(bo, "requestBody");
    if x.Obj? && y.Obj? { ContentIsUnbroken(x.fields, y.fields); }
  }

  lemma ResponseIsUnbroken(a: Fields, b: Fields, path: string, verb: string, ao: Fields, bo: Fields, status: string)
    requires OperationAt(a, path, verb) == Some(ao) && OperationAt(b, path, verb) == Some(bo)
    requires status in Section(ao, "responses") && ResponseKept(Section(ao, "responses"), Section(bo, "responses"), status)
    ensures ResponseUnbroken(a, b, path, verb, status)
  {
    var x, y := Section(ao, "responses"), Section(bo, "responses");
    ContentIsUnbroken(x[status].fields, FieldsOf(y[status]));
    if y[status].Obj? {
      assert ResponseAt(b, path, verb, status) == Some(FieldsOf(y[status]));
    } else {
      assert Section(x[status].fields, "content") == map[];
      forall media ensures MediaIn(ResponseAt(a, path, verb, status), media).None? { }
    }
  }

  lemma ResponseIsKept(a: Fields, b: Fields, path: string, verb: string, ao: Fields, bo: Fields, status: string)
    requires OperationAt(a, path, verb) == Some(ao) && OperationAt(b, path, verb) == Some(bo)
    requires SolidResponses(Section(ao, "responses")) && SolidResponses(Section(bo, "responses"))
    requires status in Section(ao, "responses") && ResponseUnbroken(a, b, path, verb, status)
    ensures ResponseKept(Section(ao, "responses"), Section(bo, "responses"), status)
  {
    var x, y := Section(ao, "responses"), Section(bo, "responses");
    assert HasResponse(a, path, verb, status) && HasResponse(b, path, verb, status);
    ContentIsUnbroken(x[status].fields, y[status].fields);
  }

  ghost predicate SolidResponsesOf(operation: Fields) {
    IsSection(operation, "responses") && SolidResponses(Section(operation, "responses"))
  }

  lemma ResponsesAreUnbroken(a: Fields, b: Fields, path: string, verb: string, ao: Fields, bo: Fields)
    requires OperationAt(a, path, verb) == Some(ao) && OperationAt(b, path, verb) == Some(bo)
    ensures ResponsesCompatible(ao, bo) ==> forall status :: ResponseUnbroken(a, b, path, verb, status)
    ensures SolidResponsesOf(ao) && SolidResponsesOf(bo) && (forall status :: ResponseUnbroken(a, b, path, verb, status)) ==>
      ResponsesCompatible(ao, bo)
  {
    var x, y := Section(ao, "responses"), Section(bo, "responses");
    if ResponsesCompatible(ao, bo) {
      forall status ensures ResponseUnbroken(a, b, path, verb, status) {
        if status in x {
          assert ResponseKept(x, y, status);
          ResponseIsUnbroken(a, b, path, verb, ao, bo, status);
        }
      }
    }
    if SolidResponses(x) && SolidResponses(y) && forall status :: ResponseUnbroken(a, b, path, verb, status) {
      forall status | status in x ensures ResponseKept(x, y, status) { ResponseIsKept(a, b, path, verb, ao, bo, status); }
    }
  }

  // ---- Whole contracts -----------------------------------------------------

  lemma OperationIsUnbroken(text: Text, a: Fields, b: Fields, path: string, verb: string,
                            ai: Fields, ao: Fields, bi: Fields, bo: Fields)
    requires ItemAt(a, path) == Some(ai) && OperationAt(a, path, verb) == Some(ao)
    requires ItemAt(b, path) == Some(bi) && OperationAt(b, path, verb) == Some(bo)
    ensures OperationCompatible(text, ai, ao, bi, bo) ==> OperationUnbroken(text, a, b, path, verb)
    ensures SolidOperation(text, ai, ao) && SolidOperation(text, bi, bo) && OperationUnbroken(text, a, b, path, verb) ==>
      OperationCompatible(text, ai, ao, bi, bo)
  {
    ParametersAreUnbroken(text, a, b, path, verb, ai, ao, bi, bo);
    BodyIsUnbroken(a, b, path, verb, ao, bo);
    ResponsesAreUnbroken(a, b, path, verb, ao, bo);
  }

  lemma VerbsAreMethods()
    ensures forall verb :: verb in METHODS <==> IsVerb(verb)
  {
  }

  lemma KeptOperation(text: Text, a: Fields, b: Fields, path: string, verb: string)
    requires PathsCompatible(text, a, b) && OperationAt(a, path, verb).Some?
    ensures OperationUnbroken(text, a, b, path, verb)
  {
    var x, y := Section(a, "paths"), Section(b, "paths");
    var ai := ItemAt(a, path).value;
    VerbsAreMethods();
    VerbsOfObject(ai);
    assert PathKept(text, x, y, path) && VerbKept(text, Obj(ai), y[path].fields, verb);
    OperationIsUnbroken(text, a, b, path, verb, ai, ai[verb].fields, y[path].fields, y[path].fields[verb].fields);
  }

  /** What passes the gate breaks nothing that clients of the old contract rely on. */
  lemma PassingBreaksNothing(text: Text, a: Fields, b: Fields)
    requires DocumentCompatible(text, a, b)
    ensures ContractUnbroken(text, a, b)
  {
    var x, y := Section(a, "paths"), Section(b, "paths");
    forall path | path in x ensures ItemAt(b, path).Some? { assert PathKept(text, x, y, path); }
    forall path, verb ensures OperationUnbroken(text, a, b, path, verb) {
      if OperationAt(a, path, verb).Some? { KeptOperation(text, a, b, path, verb); }
    }
    SharedAreUnbroken(a, b);
  }

  ghost predicate SharedUnbroken(a: Fields, b: Fields) {
    forall name :: SharedSchema(a, name).Some? ==>
      SharedSchema(b, name).Some? && SchemaUnbroken(SharedSchema(a, name).value, SharedSchema(b, name).value)
  }

  lemma SharedAreUnbroken(a: Fields, b: Fields)
    ensures AllSchemasKept(SharedSchemas(a), SharedSchemas(b)) <==> SharedUnbroken(a, b)
  {
    var s, t := SharedSchemas(a), SharedSchemas(b);
    forall p, q { CompatibleIffUnbroken(p, q); }
    if AllSchemasKept(s, t) {
      forall name | SharedSchema(a, name).Some?
        ensures SharedSchema(b, name).Some? && SchemaUnbroken(SharedSchema(a, name).value, SharedSchema(b, name).value)
      {
        assert SchemaKept(s, t, name);
      }
    }
    if SharedUnbroken(a, b) {
      forall name | name in s ensures SchemaKept(s, t, name) { assert SharedSchema(a, name).Some?; }
    }
  }

  lemma UnbrokenPath(text: Text, a: Fields, b: Fields, path: string)
    requires SolidDocument(text, a) && SolidDocument(text, b) && ContractUnbroken(text, a, b) && path in Section(a, "paths")
    ensures PathKept(text, Section(a, "paths"), Section(b, "paths"), path)
  {
    assert ItemAt(b, path).Some?;
    var ai, bi := Section(a, "paths")[path].fields, Section(b, "paths")[path].fields;
    VerbsAreMethods();
    VerbsOfObject(ai);
    forall verb | verb in METHODS && verb in ai ensures VerbKept(text, Obj(ai), bi, verb) { UnbrokenVerb(text, a, b, path, ai, bi, verb); }
  }

  lemma UnbrokenVerb(text: Text, a: Fields, b: Fields, path: string, ai: Fields, bi: Fields, verb: string)
    requires SolidItem(text, ai) && SolidItem(text, bi) && ItemAt(a, path) == Some(ai) && ItemAt(b, path) == Some(bi)
    requires verb in METHODS && verb in ai && OperationUnbroken(text, a, b, path, verb)
    ensures VerbKept(text, Obj(ai), bi, verb)
  {
    assert OperationAt(a, path, verb) == Some(ai[verb].fields);
    OperationIsUnbroken(text, a, b, path, verb, ai, ai[verb].fields, bi, bi[verb].fields);
  }

  /** And of solid contracts, which are those that pass against themselves, whatever breaks nothing passes. */
  lemma BreakingNothingPasses(text: Text, a: Fields, b: Fields)
    requires SolidDocument(text, a) && SolidDocument(text, b) && ContractUnbroken(text, a, b)
    ensures DocumentCompatible(text, a, b)
  {
    var x, y := Section(a, "paths"), Section(b, "paths");
    forall path | path in x ensures PathKept(text, x, y, path) { UnbrokenPath(text, a, b, path); }
    SharedAreUnbroken(a, b);
  }

  /**
   `compatibility_errors`: it returns a list unless something it looks into raises; an empty list means that nothing
   is broken, and between solid contracts it means nothing else.
   */
  method CompatibilityErrors(text: Text, prev: Fields, next: Fields) returns (errors: Option<seq<string>>)
    ensures errors.Some? <==> DocumentComparable(text, prev, next)
    ensures errors == Some([]) <==> DocumentCompatible(text, prev, next)
    ensures errors == Some([]) ==> ContractUnbroken(text, prev, next)
    ensures SolidDocument(text, prev) && SolidDocument(text, next) ==>
      (errors == Some([]) <==> ContractUnbroken(text, prev, next))
  {
    ghost var passes := DocumentCompatible(text, prev, next);
    if passes { DocumentIsComparable(text, prev, next); PassingBreaksNothing(text, prev, next); }
    if SolidDocument(text, prev) && SolidDocument(text, next) && ContractUnbroken(text, prev, next) {
      BreakingNothingPasses(text, prev, next);
    }
    var report := new Report();
    var done := CheckPaths(text, prev, next, report);
    if !done { return None; }
    ghost var e1 := report.errors;
    done := CheckSharedSchemas(prev, next, report);
    if !done { return None; }
    ReportedBoth([], e1, report.errors, "", PathsCompatible(text, prev, next), SchemasCompatible(prev, next));
    errors := Some(report.errors);
  }
}
