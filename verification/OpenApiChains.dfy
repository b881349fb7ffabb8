/** Exactly which contracts head chains that hold end to end: those without null keyword values and empty enums where the comparison looks. */
module OpenApiChains {
  import opened Json
  import opened Comparing
  import opened OpenApiSchemas
  import opened OpenApiCompat

  // ---- Media types ---------------------------------------------------------

  function WithSchema(fields: Fields, x: Value): Fields {
    fields["schema" := x]
  }

  lemma MediaTypesDecide(content: Fields, media: string, b: Fields, c: Fields, x: Value, y: Value)
    requires SolidMediaTypes(content) && media in content
    requires media in b && b == content[media := b[media]] && b[media].Obj? && SchemaIn(b[media].fields) == x
    requires media in c && c == content[media := c[media]] && c[media].Obj? && SchemaIn(c[media].fields) == y
    ensures MediaTypesKept(b, c) <==> Compatible(x, y)
  {
    forall m | m in b && m != media ensures MediaKept(b, c, m) { CompatibleReflexive(SchemaIn(content[m].fields)); }
    assert MediaKept(b, c, media) <==> Compatible(x, y);
  }

  lemma MediaTypesBreak(content: Fields) returns (b: Fields, c: Fields)
    requires SolidMediaTypes(content) && !FirmContent(content)
    ensures MediaTypesKept(content, b) && MediaTypesKept(b, c) && !MediaTypesKept(content, c)
  {
    var media :| media in content && !Firm(SchemaIn(FieldsOf(content[media])));
    var fields := content[media].fields;
    var x, y := LooseSchemaBreaksChains(SchemaIn(fields));
    b, c := content[media := Obj(WithSchema(fields, x))], content[media := Obj(WithSchema(fields, y))];
    assert content == content[media := content[media]];
    MediaTypesDecide(content, media, content, b, SchemaIn(fields), x);
    MediaTypesDecide(content, media, b, c, x, y);
    MediaTypesDecide(content, media, content, c, SchemaIn(fields), y);
  }

  function WithContent(owner: Fields, x: Fields): Fields {
    owner["content" := Obj(x)]
  }

  lemma ContentBreaks(owner: Fields) returns (x: Fields, y: Fields)
    requires SolidContent(owner) && !FirmContent(Section(owner, "content"))
    ensures ContentCompatible(owner, WithContent(owner, x)) && ContentCompatible(WithContent(owner, x), WithContent(owner, y))
    ensures !ContentCompatible(owner, WithContent(owner, y))
  {
    x, y := MediaTypesBreak(Section(owner, "content"));
    ContentDecides(owner, Section(owner, "content"), owner, x);
    ContentDecides(owner, x, WithContent(owner, x), y);
    ContentDecides(owner, Section(owner, "content"), owner, y);
  }

  lemma ContentDecides(owner: Fields, x: Fields, b: Fields, y: Fields)
    requires IsSection(b, "content") && Section(b, "content") == x
    ensures ContentCompatible(b, WithContent(owner, y)) <==> MediaTypesKept(x, y)
    ensures Section(WithContent(owner, y), "content") == y && IsSection(WithContent(owner, y), "content")
  {
    assert GetOr(WithContent(owner, y), "content", EMPTY) == Obj(y);
  }

  // ---- Responses and bodies ------------------------------------------------

  lemma ResponsesDecide(responses: Fields, status: string, x: Fields, y: Fields)
    requires SolidResponses(responses) && status in responses
    ensures AllResponsesKept(responses[status := Obj(x)], responses[status := Obj(y)]) <==> ContentCompatible(x, y)
  {
    var b, c := responses[status := Obj(x)], responses[status := Obj(y)];
    forall s | s in b && s != status ensures ResponseKept(b, c, s) { ContentReflexive(responses[s].fields); }
    assert ResponseKept(b, c, status) <==> ContentCompatible(x, y);
  }

  lemma ResponsesBreak(responses: Fields) returns (b: Fields, c: Fields)
    requires SolidResponses(responses) && !FirmResponses(responses)
    ensures AllResponsesKept(responses, b) && AllResponsesKept(b, c) && !AllResponsesKept(responses, c)
  {
    var status :| status in responses && !FirmContent(Section(FieldsOf(responses[status]), "content"));
    var fields := responses[status].fields;
    var x, y := ContentBreaks(fields);
    b, c := responses[status := Obj(WithContent(fields, x))], responses[status := Obj(WithContent(fields, y))];
    OneResponseBreaks(responses, status, fields, WithContent(fields, x), WithContent(fields, y));
  }

  lemma OneResponseBreaks(responses: Fields, status: string, fields: Fields, x: Fields, y: Fields)
    requires SolidResponses(responses) && status in responses && responses[status] == Obj(fields)
    requires ContentCompatible(fields, x) && ContentCompatible(x, y) && !ContentCompatible(fields, y)
    ensures var b, c := responses[status := Obj(x)], responses[status := Obj(y)];
      AllResponsesKept(responses, b) && AllResponsesKept(b, c) && !AllResponsesKept(responses, c)
  {
    assert responses == responses[status := Obj(fields)];
    ResponsesDecide(responses, status, fields, x);
    ResponsesDecide(responses, status, x, y);
    ResponsesDecide(responses, status, fields, y);
  }

  lemma BodyBreaks(body: Value) returns (b: Value, c: Value)
    requires body.Obj? && SolidContent(body.fields) && !FirmContent(Section(body.fields, "content"))
    ensures BodyCompatible(body, b) && BodyCompatible(b, c) && !BodyCompatible(body, c)
  {
    var x, y := ContentBreaks(body.fields);
    b, c := Obj(WithContent(body.fields, x)), Obj(WithContent(body.fields, y));
    BodyDecides(body.fields, WithContent(body.fields, x));
    BodyDecides(WithContent(body.fields, x), WithContent(body.fields, y));
    BodyDecides(body.fields, WithContent(body.fields, y));
  }

  lemma BodyDecides(b: Fields, c: Fields)
    requires Get(b, "required") == Get(c, "required")
    ensures BodyCompatible(Obj(b), Obj(c)) <==> ContentCompatible(b, c)
  {
  }

  // ---- Parameters ----------------------------------------------------------

  /** What identifies a parameter, and whether it is required. */
  ghost predicate SameHead(a: Fields, b: Fields) {
    && Get(a, "name") == Get(b, "name") && Get(a, "in") == Get(b, "in") && Get(a, "required") == Get(b, "required")
    && ("name" in a <==> "name" in b) && ("in" in a <==> "in" in b)
  }

  lemma PresentationKeywords()
    ensures "schema" !in PRESENTATION && "name" !in PRESENTATION && "in" !in PRESENTATION && "required" !in PRESENTATION
  {
  }

  lemma SchemaParameterBreaks(fields: Fields) returns (b: Fields, c: Fields)
    requires Solid(SchemaIn(fields)) && !Firm(SchemaIn(fields))
    ensures ParameterCompatible(fields, b) && ParameterCompatible(b, c) && !ParameterCompatible(fields, c)
    ensures SameHead(fields, b) && SameHead(fields, c)
  {
    var x, y := LooseSchemaBreaksChains(SchemaIn(fields));
    b, c := WithSchema(fields, x), WithSchema(fields, y);
    PresentationKeywords();
    assert SchemaIn(b) == x && SchemaIn(c) == y;
    forall k | k in PRESENTATION ensures Keeps(fields, b, k) && Keeps(b, c, k) {
      if k in fields { SameReflexive(fields[k]); }
    }
  }

  lemma KeywordParameterBreaks(fields: Fields, key: string) returns (b: Fields, c: Fields)
    requires key in PRESENTATION && key in fields && fields[key].Null? && Solid(SchemaIn(fields))
    ensures ParameterCompatible(fields, b) && ParameterCompatible(b, c) && !ParameterCompatible(fields, c)
    ensures SameHead(fields, b) && SameHead(fields, c)
  {
    b, c := fields - {key}, fields[key := Str("")];
    PresentationKeywords();
    CompatibleReflexive(SchemaIn(fields));
    forall k ensures Keeps(fields, b, k) && Keeps(b, c, k) {
      if k in fields { SameReflexive(fields[k]); }
    }
    assert !Keeps(fields, c, key);
  }

  lemma ParametersDecide(ps: map<Identity, Fields>, id: Identity, b: map<Identity, Fields>, c: map<Identity, Fields>)
    requires SolidParameters(ps) && id in ps && id in b && id in c && b == ps[id := b[id]] && c == ps[id := c[id]]
    ensures ParametersCompatible(b, c) <==> ParameterCompatible(b[id], c[id])
  {
    forall i | i in b && i != id ensures ParameterKept(b, c, i) { ParameterReflexive(ps[i]); }
    assert ParameterKept(b, c, id) <==> ParameterCompatible(b[id], c[id]);
    forall i | i in c ensures NotNewlyRequired(b, c, i) {}
  }

  lemma ParametersBreak(ps: map<Identity, Fields>) returns (id: Identity, b: Fields, c: Fields)
    requires SolidParameters(ps) && !FirmParameters(ps)
    ensures id in ps && SameHead(ps[id], b) && SameHead(ps[id], c)
    ensures ParametersCompatible(ps, ps[id := b]) && ParametersCompatible(ps[id := b], ps[id := c]) && !ParametersCompatible(ps, ps[id := c])
  {
    id :| id in ps && !FirmParameter(ps[id]);
    if k :| k in PRESENTATION && k in ps[id] && ps[id][k].Null? {
      b, c := KeywordParameterBreaks(ps[id], k);
    } else {
      b, c := SchemaParameterBreaks(ps[id]);
    }
    assert ps == ps[id := ps[id]];
    ParametersDecide(ps, id, ps, ps[id := b]);
    ParametersDecide(ps, id, ps[id := b], ps[id := c]);
    ParametersDecide(ps, id, ps, ps[id := c]);
  }

  /** What is collected under an identity is a parameter of that identity. */
  lemma {:induction false} CollectedUnderItsIdentity(text: Text, list: seq<Value>, id: Identity)
    requires id in Collect(text, list)
    ensures IsParameter(Obj(Collect(text, list)[id])) && IdentityOf(text, Collect(text, list)[id]) == id
    decreases |list|
  {
    var last := list[|list| - 1];
    if !(IsParameter(last) && IdentityOf(text, last.fields) == id) { CollectedUnderItsIdentity(text, list[..|list| - 1], id); }
  }

  function WithParameter(operation: Fields, fields: Fields): Fields {
    operation["parameters" := Arr(List(operation, "parameters") + [Obj(fields)])]
  }

  lemma AppendedIsCollected(text: Text, list: seq<Value>, id: Identity, fields: Fields)
    requires id in Collect(text, list) && SameHead(Collect(text, list)[id], fields)
    ensures Collect(text, list + [Obj(fields)]) == Collect(text, list)[id := fields]
  {
    CollectedUnderItsIdentity(text, list, id);
    assert (list + [Obj(fields)])[..|list|] == list;
  }

  /** A parameter appended to an operation replaces the one of its identity. */
  lemma AppendedParameterReplaces(text: Text, item: Fields, operation: Fields, id: Identity, fields: Fields)
    requires id in ParametersOf(text, item, operation) && SameHead(ParametersOf(text, item, operation)[id], fields)
    ensures ParametersOf(text, item, WithParameter(operation, fields)) == ParametersOf(text, item, operation)[id := fields]
  {
    var before, after := List(item, "parameters"), List(operation, "parameters");
    AppendedIsCollected(text, before + after, id, fields);
    assert before + (after + [Obj(fields)]) == before + after + [Obj(fields)];
  }

  // ---- One operation -------------------------------------------------------

  /** What of an operation is compared, apart from its id and security. */
  datatype Parts = Parts(parameters: map<Identity, Fields>, body: Value, responses: Fields)

  function PartsOf(text: Text, item: Fields, operation: Fields): Parts {
    Parts(ParametersOf(text, item, operation), Get(operation, "requestBody"), Section(operation, "responses"))
  }

  predicate PartsCompatible(b: Parts, c: Parts) {
    && ParametersCompatible(b.parameters, c.parameters) && BodyCompatible(b.body, c.body)
    && AllResponsesKept(b.responses, c.responses)
  }

  predicate SameId(a: Fields, b: Fields) {
    && Get(a, "operationId") == Get(b, "operationId")
    && GetOr(a, "security", Arr([])) == GetOr(b, "security", Arr([]))
  }

  predicate HasParts(item: Fields, operation: Fields) {
    ListsParameters(item, operation) && IsSection(operation, "responses")
  }

  lemma PartsDecide(text: Text, item: Fields, b: Fields, c: Fields)
    requires SameId(b, c) && HasParts(item, b) && HasParts(item, c)
    ensures OperationCompatible(text, item, b, item, c) <==> PartsCompatible(PartsOf(text, item, b), PartsOf(text, item, c))
  {
    SameReflexive(Get(b, "operationId"));
    SameReflexive(GetOr(b, "security", Arr([])));
  }

  lemma SolidPartsAreReflexive(text: Text, item: Fields, operation: Fields)
    requires SolidOperation(text, item, operation)
    ensures PartsCompatible(PartsOf(text, item, operation), PartsOf(text, item, operation))
  {
    OperationReflexive(text, item, operation);
  }

  ghost predicate OperationBroken(text: Text, item: Fields, operation: Fields, b: Fields, c: Fields) {
    && OperationCompatible(text, item, operation, item, b) && OperationCompatible(text, item, b, item, c)
    && !OperationCompatible(text, item, operation, item, c)
  }

  /** An operation with the given parts in place of another's. */
  predicate WithParts(text: Text, item: Fields, operation: Fields, b: Fields, parts: Parts) {
    SameId(operation, b) && HasParts(item, b) && PartsOf(text, item, b) == parts
  }

  /** Two operations that differ from a third in their parts only break its chain if their parts do. */
  lemma PartsBreak(text: Text, item: Fields, operation: Fields, b: Fields, c: Fields, x: Parts, y: Parts)
    requires HasParts(item, operation) && WithParts(text, item, operation, b, x) && WithParts(text, item, operation, c, y)
    requires var p := PartsOf(text, item, operation); PartsCompatible(p, x) && PartsCompatible(x, y) && !PartsCompatible(p, y)
    ensures OperationBroken(text, item, operation, b, c)
  {
    PartsDecide(text, item, operation, b);
    PartsDecide(text, item, b, c);
    PartsDecide(text, item, operation, c);
  }

  lemma WithParameterParts(text: Text, item: Fields, operation: Fields, id: Identity, fields: Fields)
    requires HasParts(item, operation)
    requires id in ParametersOf(text, item, operation) && SameHead(ParametersOf(text, item, operation)[id], fields)
    ensures var p := PartsOf(text, item, operation);
      WithParts(text, item, operation, WithParameter(operation, fields), p.(parameters := p.parameters[id := fields]))
  {
    AppendedParameterReplaces(text, item, operation, id, fields);
  }

  lemma WithBodyParts(text: Text, item: Fields, operation: Fields, x: Value)
    requires HasParts(item, operation)
    ensures WithParts(text, item, operation, operation["requestBody" := x], PartsOf(text, item, operation).(body := x))
  {
    assert List(operation["requestBody" := x], "parameters") == List(operation, "parameters");
  }

  lemma WithResponsesParts(text: Text, item: Fields, operation: Fields, x: Fields)
    requires HasParts(item, operation)
    ensures WithParts(text, item, operation, operation["responses" := Obj(x)], PartsOf(text, item, operation).(responses := x))
  {
    assert List(operation["responses" := Obj(x)], "parameters") == List(operation, "parameters");
  }

  lemma ParametersBreakOperation(text: Text, item: Fields, operation: Fields) returns (b: Fields, c: Fields)
    requires SolidOperation(text, item, operation) && !FirmParameters(ParametersOf(text, item, operation))
    ensures OperationBroken(text, item, operation, b, c)
  {
    var p := PartsOf(text, item, operation);
    var id, x, y := ParametersBreak(p.parameters);
    b, c := WithParameter(operation, x), WithParameter(operation, y);
    WithParameterParts(text, item, operation, id, x);
    WithParameterParts(text, item, operation, id, y);
    SolidPartsAreReflexive(text, item, operation);
    PartsBreak(text, item, operation, b, c, p.(parameters := p.parameters[id := x]), p.(parameters := p.parameters[id := y]));
  }

  lemma BodyBreaksOperation(text: Text, item: Fields, operation: Fields) returns (b: Fields, c: Fields)
    requires SolidOperation(text, item, operation)
    requires !FirmContent(Section(FieldsOf(Get(operation, "requestBody")), "content"))
    ensures OperationBroken(text, item, operation, b, c)
  {
    var p := PartsOf(text, item, operation);
    var x, y := BodyBreaks(p.body);
    b, c := operation["requestBody" := x], operation["requestBody" := y];
    WithBodyParts(text, item, operation, x);
    WithBodyParts(text, item, operation, y);
    SolidPartsAreReflexive(text, item, operation);
    PartsBreak(text, item, operation, b, c, p.(body := x), p.(body := y));
  }

  lemma ResponsesBreakOperation(text: Text, item: Fields, operation: Fields) returns (b: Fields, c: Fields)
    requires SolidOperation(text, item, operation) && !FirmResponses(Section(operation, "responses"))
    ensures OperationBroken(text, item, operation, b, c)
  {
    var p := PartsOf(text, item, operation);
    var x, y := ResponsesBreak(p.responses);
    b, c := operation["responses" := Obj(x)], operation["responses" := Obj(y)];
    WithResponsesParts(text, item, operation, x);
    WithResponsesParts(text, item, operation, y);
    SolidPartsAreReflexive(text, item, operation);
    PartsBreak(text, item, operation, b, c, p.(responses := x), p.(responses := y));
  }

  lemma OperationBreaks(text: Text, item: Fields, operation: Fields) returns (b: Fields, c: Fields)
    requires SolidOperation(text, item, operation) && !FirmOperation(text, item, operation)
    ensures OperationBroken(text, item, operation, b, c)
  {
    if !FirmParameters(ParametersOf(text, item, operation)) {
      b, c := ParametersBreakOperation(text, item, operation);
    } else if !FirmContent(Section(FieldsOf(Get(operation, "requestBody")), "content")) {
      b, c := BodyBreaksOperation(text, item, operation);
    } else {
      b, c := ResponsesBreakOperation(text, item, operation);
    }
  }

  // ---- Whole documents -----------------------------------------------------

  /** The operation of a document. */
  ghost predicate IsOperation(document: Fields, path: string, verb: string, item: Fields, operation: Fields) {
    && IsSection(document, "paths") && Get(Section(document, "paths"), path) == Obj(item)
    && verb in METHODS && Get(item, verb) == Obj(operation)
  }

  /** A document like `a`, but for one operation. */
  ghost predicate Replaces(a: Fields, path: string, verb: string, item: Fields, d: Fields, operation: Fields) {
    && GetOr(d, "components", EMPTY) == GetOr(a, "components", EMPTY)
    && IsSection(d, "paths") && Section(d, "paths") == Section(a, "paths")[path := Obj(item[verb := Obj(operation)])]
  }

  lemma ItemDecides(text: Text, item: Fields, verb: string, o: Fields, p: Fields)
    requires SolidItem(text, item) && verb in METHODS && verb in item
    ensures var b, c := item[verb := Obj(o)], item[verb := Obj(p)];
      ItemCompatible(text, Obj(b), c) <==> OperationCompatible(text, item, o, item, p)
  {
    var b, c := item[verb := Obj(o)], item[verb := Obj(p)];
    VerbsOfObject(b);
    OneVerbDecides(text, item, verb, o, p);
    forall m | m in METHODS && m in b && m != verb ensures VerbKept(text, Obj(b), c, m) {
      OtherVerbsKept(text, item, b, c, m);
    }
  }

  lemma OneVerbDecides(text: Text, item: Fields, verb: string, o: Fields, p: Fields)
    requires verb in METHODS
    ensures var b, c := item[verb := Obj(o)], item[verb := Obj(p)];
      && GetOr(b, "parameters", Arr([])) == GetOr(item, "parameters", Arr([])) == GetOr(c, "parameters", Arr([]))
      && (VerbKept(text, Obj(b), c, verb) <==> OperationCompatible(text, item, o, item, p))
  {
    var b, c := item[verb := Obj(o)], item[verb := Obj(p)];
    assert "parameters" !in METHODS;
    SameItemSameOperations(text, item, b, c, o, p);
  }

  lemma OtherVerbsKept(text: Text, item: Fields, b: Fields, c: Fields, verb: string)
    requires SolidItem(text, item) && verb in METHODS && verb in item && Get(b, verb) == item[verb] == Get(c, verb)
    requires GetOr(b, "parameters", Arr([])) == GetOr(item, "parameters", Arr([])) == GetOr(c, "parameters", Arr([]))
    ensures VerbKept(text, Obj(b), c, verb)
  {
    SameItemSameOperations(text, item, b, c, item[verb].fields, item[verb].fields);
    OperationReflexive(text, item, item[verb].fields);
  }

  /** Comparing two operations looks at their items only for the parameters. */
  lemma SameItemSameOperations(text: Text, item: Fields, b: Fields, c: Fields, o: Fields, p: Fields)
    requires GetOr(b, "parameters", Arr([])) == GetOr(item, "parameters", Arr([])) == GetOr(c, "parameters", Arr([]))
    ensures OperationCompatible(text, b, o, c, p) == OperationCompatible(text, item, o, item, p)
  {
  }

  lemma PathsDecide(text: Text, paths: Fields, path: string, b: Fields, c: Fields)
    requires SolidPaths(text, paths) && path in paths
    ensures var x, y := paths[path := Obj(b)], paths[path := Obj(c)];
      AllPathsKept(text, x, y) <==> ItemCompatible(text, Obj(b), c)
  {
    var x, y := paths[path := Obj(b)], paths[path := Obj(c)];
    forall q | q in x && q != path ensures PathKept(text, x, y, q) { ItemReflexive(text, paths[q].fields); }
    assert PathKept(text, x, y, path) <==> ItemCompatible(text, Obj(b), c);
  }

  lemma DocumentDecides(text: Text, a: Fields, path: string, verb: string, item: Fields, operation: Fields,
                        b: Fields, o: Fields, c: Fields, p: Fields)
    requires SolidDocument(text, a) && IsOperation(a, path, verb, item, operation)
    requires Replaces(a, path, verb, item, b, o) && Replaces(a, path, verb, item, c, p)
    ensures DocumentCompatible(text, b, c) <==> OperationCompatible(text, item, o, item, p)
  {
    ItemDecides(text, item, verb, o, p);
    PathsDecide(text, Section(a, "paths"), path, item[verb := Obj(o)], item[verb := Obj(p)]);
    SchemasReflexive(SharedSchemas(a));
  }

  function WithOperation(a: Fields, path: string, verb: string, item: Fields, operation: Fields): Fields {
    a["paths" := Obj(Section(a, "paths")[path := Obj(item[verb := Obj(operation)])])]
  }

  lemma WithOperationReplaces(a: Fields, path: string, verb: string, item: Fields, operation: Fields, o: Fields)
    requires IsOperation(a, path, verb, item, operation)
    ensures Replaces(a, path, verb, item, WithOperation(a, path, verb, item, o), o)
    ensures Replaces(a, path, verb, item, a, operation)
  {
    assert item == item[verb := Obj(operation)];
    assert Section(a, "paths") == Section(a, "paths")[path := Obj(item)];
  }

  ghost predicate DocumentBroken(text: Text, a: Fields, b: Fields, c: Fields) {
    DocumentCompatible(text, a, b) && DocumentCompatible(text, b, c) && !DocumentCompatible(text, a, c)
  }

  lemma OperationBreaksDocument(text: Text, a: Fields, path: string, verb: string, item: Fields, operation: Fields)
    returns (b: Fields, c: Fields)
    requires SolidDocument(text, a) && IsOperation(a, path, verb, item, operation) && !FirmOperation(text, item, operation)
    ensures DocumentBroken(text, a, b, c)
  {
    var x, y := OperationBreaks(text, item, operation);
    b, c := WithOperation(a, path, verb, item, x), WithOperation(a, path, verb, item, y);
    WithOperationReplaces(a, path, verb, item, operation, x);
    WithOperationReplaces(a, path, verb, item, operation, y);
    DocumentDecides(text, a, path, verb, item, operation, a, operation, b, x);
    DocumentDecides(text, a, path, verb, item, operation, b, x, c, y);
    DocumentDecides(text, a, path, verb, item, operation, a, operation, c, y);
  }

  function WithShared(a: Fields, name: string, x: Value): Fields {
    a["components" := Obj(Section(a, "components")["schemas" := Obj(SharedSchemas(a)[name := x])])]
  }

  /** A document like `a`, but for one shared schema. */
  ghost predicate ReplacesShared(a: Fields, name: string, d: Fields, x: Value) {
    && GetOr(d, "paths", EMPTY) == GetOr(a, "paths", EMPTY)
    && IsSection(d, "components") && IsSection(Section(d, "components"), "schemas")
    && SharedSchemas(d) == SharedSchemas(a)[name := x]
  }

  lemma WithSharedReplaces(a: Fields, name: string, x: Value)
    requires IsSection(a, "components") && IsSection(Section(a, "components"), "schemas") && name in SharedSchemas(a)
    ensures ReplacesShared(a, name, WithShared(a, name, x), x)
    ensures ReplacesShared(a, name, a, SharedSchemas(a)[name])
  {
    assert SharedSchemas(a) == SharedSchemas(a)[name := SharedSchemas(a)[name]];
  }

  lemma SharedDecides(text: Text, a: Fields, name: string, b: Fields, x: Value, c: Fields, y: Value)
    requires SolidDocument(text, a) && name in SharedSchemas(a)
    requires ReplacesShared(a, name, b, x) && ReplacesShared(a, name, c, y)
    ensures DocumentCompatible(text, b, c) <==> Compatible(x, y)
  {
    PathsReflexive(text, Section(a, "paths"));
    var s, t := SharedSchemas(b), SharedSchemas(c);
    forall n | n in s && n != name ensures SchemaKept(s, t, n) { CompatibleReflexive(SharedSchemas(a)[n]); }
    assert SchemaKept(s, t, name) <==> Compatible(x, y);
  }

  lemma SharedSchemaBreaksDocument(text: Text, a: Fields, name: string) returns (b: Fields, c: Fields)
    requires SolidDocument(text, a) && name in SharedSchemas(a) && !Firm(SharedSchemas(a)[name])
    ensures DocumentBroken(text, a, b, c)
  {
    var z := SharedSchemas(a)[name];
    var x, y := LooseSchemaBreaksChains(z);
    b, c := WithShared(a, name, x), WithShared(a, name, y);
    WithSharedReplaces(a, name, x);
    WithSharedReplaces(a, name, y);
    SharedDecides(text, a, name, a, z, b, x);
    SharedDecides(text, a, name, b, x, c, y);
    SharedDecides(text, a, name, a, z, c, y);
  }

  /** From every contract that is not firm, two accepted releases lead to one that is not accepted. */
  lemma LooseDocumentBreaksChains(text: Text, a: Fields) returns (b: Fields, c: Fields)
    requires SolidDocument(text, a) && !FirmDocument(text, a)
    ensures DocumentBroken(text, a, b, c)
  {
    if name :| name in SharedSchemas(a) && !Firm(SharedSchemas(a)[name]) {
      b, c := SharedSchemaBreaksDocument(text, a, name);
    } else {
      var paths := Section(a, "paths");
      var path, verb :| path in paths && verb in METHODS && verb in FieldsOf(paths[path])
        && !FirmOperation(text, FieldsOf(paths[path]), FieldsOf(FieldsOf(paths[path])[verb]));
      b, c := OperationBreaksDocument(text, a, path, verb, paths[path].fields, paths[path].fields[verb].fields);
    }
  }

  /** Any two accepted releases after a document are, together, an accepted change of it. */
  ghost predicate ChainsHoldFrom(text: Text, a: Fields) {
    forall b, c :: DocumentCompatible(text, a, b) && DocumentCompatible(text, b, c) ==> DocumentCompatible(text, a, c)
  }

  /** From a contract that passes against itself, chains of releases hold end to end exactly when it is firm. */
  lemma DocumentChainsHoldIffFirm(text: Text, a: Fields)
    requires DocumentCompatible(text, a, a)
    ensures ChainsHoldFrom(text, a) <==> FirmDocument(text, a)
  {
    DocumentReflexive(text, a);
    if FirmDocument(text, a) {
      forall b, c | DocumentCompatible(text, a, b) && DocumentCompatible(text, b, c) ensures DocumentCompatible(text, a, c) {
        DocumentTransitive(text, a, b, c);
      }
    } else {
      var b, c := LooseDocumentBreaksChains(text, a);
      assert DocumentBroken(text, a, b, c);
    }
  }
}
