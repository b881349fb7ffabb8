/** The gate on a whole contract: paths, operations, parameters, bodies, responses and shared schemas. */
module OpenApiCompat {
  import opened Json
  import opened Comparing
  import opened OpenApiSchemas

  // ---- Parameters ----------------------------------------------------------

  /** A parameter is identified by its name and the place it is passed in. */
  type Identity = (string, string)

  const EMPTY: Value := Obj(map[])

  function FieldsOf(v: Value): Fields {
    if v.Obj? then v.fields else map[]
  }

  /** `d.get(key, {})`. */
  function Section(fields: Fields, key: string): Fields {
    FieldsOf(GetOr(fields, key, EMPTY))
  }

  /** The members of a list; texts and objects may stand in its place, but yield no parameters. */
  function List(fields: Fields, key: string): seq<Value> {
    var v := GetOr(fields, key, Arr([]));
    if v.Arr? then v.items else []
  }

  predicate IsSection(fields: Fields, key: string) {
    GetOr(fields, key, EMPTY).Obj?
  }

  predicate IsIterable(fields: Fields, key: string) {
    Iterable(GetOr(fields, key, Arr([])))
  }

  /** `d.get(key, {})` is gone through on the old side; it is looked up in on the new side if that has members. */
  predicate SectionsMeet(prev: Fields, next: Fields, key: string) {
    IsSection(prev, key) && (Section(prev, key) != map[] ==> IsSection(next, key))
  }

  predicate IsParameter(v: Value) {
    v.Obj? && "name" in v.fields && "in" in v.fields
  }

  function IdentityOf(text: Text, fields: Fields): Identity {
    (text(Get(fields, "name")), text(Get(fields, "in")))
  }

  /** What the list of parameters comes to when later entries replace earlier ones of the same identity. */
  function Collect(text: Text, list: seq<Value>): map<Identity, Fields>
    decreases |list|
  {
    if list == [] then map[]
    else
      var last := list[|list| - 1];
      var rest := Collect(text, list[..|list| - 1]);
      if IsParameter(last) then rest[IdentityOf(text, last.fields) := last.fields] else rest
  }

  /** Operation-level parameters override those of the path and leave the others in place. */
  lemma {:induction false} OperationOverridesPath(text: Text, path: seq<Value>, operation: seq<Value>)
    ensures Collect(text, path + operation) == Collect(text, path) + Collect(text, operation)
    decreases |operation|
  {
    if operation == [] {
      assert path + operation == path;
    } else {
      var n := |operation| - 1;
      OperationOverridesPath(text, path, operation[..n]);
      assert (path + operation)[..|path| + n] == path + operation[..n];
      assert (path + operation)[|path| + n] == operation[n];
    }
  }

  // ---- The relation --------------------------------------------------------

  // Each predicate says that its part of the comparison comes to its end and reports nothing.

  const PRESENTATION := {"style", "explode", "allowEmptyValue"}
  const METHODS := {"get", "put", "post", "delete", "options", "head", "patch", "trace"}

  predicate StaysOptional(prev: Fields, next: Fields) {
    Truthy(Get(next, "required")) ==> Truthy(Get(prev, "required"))
  }

  function SchemaIn(fields: Fields): Value {
    GetOr(fields, "schema", EMPTY)
  }

  predicate ParameterCompatible(prev: Fields, next: Fields) {
    StaysOptional(prev, next) && KeepsAll(prev, next, PRESENTATION) && Compatible(SchemaIn(prev), SchemaIn(next))
  }

  predicate ParameterKept(prev: map<Identity, Fields>, next: map<Identity, Fields>, id: Identity) {
    id in prev ==> id in next && ParameterCompatible(prev[id], next[id])
  }

  predicate NotNewlyRequired(prev: map<Identity, Fields>, next: map<Identity, Fields>, id: Identity) {
    id in next && id !in prev ==> !Truthy(Get(next[id], "required"))
  }

  predicate AllKept(prev: map<Identity, Fields>, next: map<Identity, Fields>) {
    forall id :: id in prev ==> ParameterKept(prev, next, id)
  }

  predicate NoneNewlyRequired(prev: map<Identity, Fields>, next: map<Identity, Fields>) {
    forall id :: id in next ==> NotNewlyRequired(prev, next, id)
  }

  predicate ParametersCompatible(prev: map<Identity, Fields>, next: map<Identity, Fields>) {
    AllKept(prev, next) && NoneNewlyRequired(prev, next)
  }

  /** A media type that is null counts as removed. */
  predicate MediaKept(prev: Fields, next: Fields, media: string) {
    && Get(prev, media).Obj? && Get(next, media).Obj?
    && Compatible(SchemaIn(Get(prev, media).fields), SchemaIn(Get(next, media).fields))
  }

  predicate MediaTypesKept(prev: Fields, next: Fields) {
    forall media :: media in prev ==> MediaKept(prev, next, media)
  }

  /** The content of a body or response. */
  predicate ContentCompatible(prev: Fields, next: Fields) {
    SectionsMeet(prev, next, "content") && MediaTypesKept(Section(prev, "content"), Section(next, "content"))
  }

  predicate BodyCompatible(prev: Value, next: Value) {
    prev.Null? || (prev.Obj? && next.Obj? && StaysOptional(prev.fields, next.fields) && ContentCompatible(prev.fields, next.fields))
  }

  /** Of a response without content only its presence counts. */
  predicate ResponseKept(prev: Fields, next: Fields, status: string) {
    && !Get(next, status).Null? && Get(prev, status).Obj?
    && ContentCompatible(Get(prev, status).fields, FieldsOf(Get(next, status)))
    && (Section(Get(prev, status).fields, "content") != map[] ==> Get(next, status).Obj?)
  }

  predicate AllResponsesKept(prev: Fields, next: Fields) {
    forall status :: status in prev ==> ResponseKept(prev, next, status)
  }

  predicate ResponsesCompatible(prev: Fields, next: Fields) {
    SectionsMeet(prev, next, "responses") && AllResponsesKept(Section(prev, "responses"), Section(next, "responses"))
  }

  function ParametersOf(text: Text, item: Fields, operation: Fields): map<Identity, Fields> {
    Collect(text, List(item, "parameters") + List(operation, "parameters"))
  }

  predicate ListsParameters(item: Fields, operation: Fields) {
    IsIterable(item, "parameters") && IsIterable(operation, "parameters")
  }

  predicate OperationCompatible(text: Text, prevItem: Fields, prev: Fields, nextItem: Fields, next: Fields) {
    && Same(Get(prev, "operationId"), Get(next, "operationId"))
    && Same(GetOr(prev, "security", Arr([])), GetOr(next, "security", Arr([])))
    && ListsParameters(prevItem, prev) && ListsParameters(nextItem, next)
    && ParametersCompatible(ParametersOf(text, prevItem, prev), ParametersOf(text, nextItem, next))
    && BodyCompatible(Get(prev, "requestBody"), Get(next, "requestBody"))
    && ResponsesCompatible(prev, next)
  }

  predicate OperationKept(text: Text, prev: Fields, next: Fields, verb: string) {
    && Get(prev, verb).Obj? && Get(next, verb).Obj?
    && OperationCompatible(text, prev, Get(prev, verb).fields, next, Get(next, verb).fields)
  }

  /** The operations of a path: the method names that iterating over it yields. */
  function Verbs(item: Value): set<string> {
    set verb | verb in METHODS && Str(verb) in Elements(item)
  }

  predicate VerbKept(text: Text, prev: Value, next: Fields, verb: string) {
    prev.Obj? && OperationKept(text, prev.fields, next, verb)
  }

  predicate AllVerbsKept(text: Text, prev: Value, next: Fields) {
    forall verb :: verb in Verbs(prev) ==> VerbKept(text, prev, next, verb)
  }

  predicate ItemCompatible(text: Text, prev: Value, next: Fields) {
    MakesSet(prev) && AllVerbsKept(text, prev, next)
  }

  predicate PathKept(text: Text, prev: Fields, next: Fields, path: string) {
    Get(next, path).Obj? && ItemCompatible(text, Get(prev, path), Get(next, path).fields)
  }

  predicate AllPathsKept(text: Text, prev: Fields, next: Fields) {
    forall path :: path in prev ==> PathKept(text, prev, next, path)
  }

  predicate PathsCompatible(text: Text, prev: Fields, next: Fields) {
    SectionsMeet(prev, next, "paths") && AllPathsKept(text, Section(prev, "paths"), Section(next, "paths"))
  }

  predicate SchemaKept(prev: Fields, next: Fields, name: string) {
    name in next && Compatible(Get(prev, name), next[name])
  }

  predicate AllSchemasKept(prev: Fields, next: Fields) {
    forall name :: name in prev ==> SchemaKept(prev, next, name)
  }

  function SharedSchemas(document: Fields): Fields {
    Section(Section(document, "components"), "schemas")
  }

  predicate SchemasCompatible(prev: Fields, next: Fields) {
    && IsSection(prev, "components") && IsSection(next, "components")
    && SectionsMeet(Section(prev, "components"), Section(next, "components"), "schemas")
    && AllSchemasKept(SharedSchemas(prev), SharedSchemas(next))
  }

  /** `compatibility_errors` returns the empty list. */
  predicate DocumentCompatible(text: Text, prev: Fields, next: Fields) {
    PathsCompatible(text, prev, next) && SchemasCompatible(prev, next)
  }

  // ---- Which documents -----------------------------------------------------

  // A document passes against itself if what is looked into can be, and nothing that is compared is null.

  ghost predicate SolidMediaTypes(content: Fields) {
    forall media :: media in content ==> content[media].Obj? && Solid(SchemaIn(content[media].fields))
  }

  ghost predicate SolidContent(owner: Fields) {
    IsSection(owner, "content") && SolidMediaTypes(Section(owner, "content"))
  }

  ghost predicate SolidParameters(parameters: map<Identity, Fields>) {
    forall id :: id in parameters ==> Solid(SchemaIn(parameters[id]))
  }

  ghost predicate SolidResponses(responses: Fields) {
    forall status :: status in responses ==> responses[status].Obj? && SolidContent(responses[status].fields)
  }

  ghost predicate SolidBody(body: Value) {
    body.Null? || (body.Obj? && SolidContent(body.fields))
  }

  ghost predicate SolidOperation(text: Text, item: Fields, operation: Fields) {
    && ListsParameters(item, operation) && SolidParameters(ParametersOf(text, item, operation))
    && SolidBody(Get(operation, "requestBody"))
    && IsSection(operation, "responses") && SolidResponses(Section(operation, "responses"))
  }

  ghost predicate SolidItem(text: Text, item: Fields) {
    forall verb :: verb in METHODS && verb in item ==> item[verb].Obj? && SolidOperation(text, item, item[verb].fields)
  }

  ghost predicate SolidPaths(text: Text, paths: Fields) {
    forall path :: path in paths ==> paths[path].Obj? && SolidItem(text, paths[path].fields)
  }

  ghost predicate SolidSchemas(schemas: Fields) {
    forall name :: name in schemas ==> Solid(schemas[name])
  }

  ghost predicate SolidDocument(text: Text, document: Fields) {
    && IsSection(document, "paths")
    && SolidPaths(text, Section(document, "paths"))
    && IsSection(document, "components") && IsSection(Section(document, "components"), "schemas")
    && SolidSchemas(SharedSchemas(document))
  }

  // A document is firm if no keyword that is compared by value is null and no enum is empty anywhere the comparison looks.

  ghost predicate FirmContent(content: Fields) {
    forall media :: media in content ==> Firm(SchemaIn(FieldsOf(content[media])))
  }

  ghost predicate FirmParameter(fields: Fields) {
    Firm(SchemaIn(fields)) && forall k :: k in PRESENTATION && k in fields ==> !fields[k].Null?
  }

  ghost predicate FirmParameters(parameters: map<Identity, Fields>) {
    forall id :: id in parameters ==> FirmParameter(parameters[id])
  }

  ghost predicate FirmResponses(responses: Fields) {
    forall status :: status in responses ==> FirmContent(Section(FieldsOf(responses[status]), "content"))
  }

  ghost predicate FirmOperation(text: Text, item: Fields, operation: Fields) {
    && FirmParameters(ParametersOf(text, item, operation))
    && FirmContent(Section(FieldsOf(Get(operation, "requestBody")), "content"))
    && FirmResponses(Section(operation, "responses"))
  }

  ghost predicate FirmDocument(text: Text, document: Fields) {
    && (forall path, verb :: path in Section(document, "paths") && verb in METHODS && verb in FieldsOf(Section(document, "paths")[path]) ==>
          FirmOperation(text, FieldsOf(Section(document, "paths")[path]), FieldsOf(FieldsOf(Section(document, "paths")[path])[verb])))
    && (forall name :: name in SharedSchemas(document) ==> Firm(SharedSchemas(document)[name]))
  }

  // ---- Reflexive -----------------------------------------------------------

  lemma MediaTypesReflexive(content: Fields)
    ensures MediaTypesKept(content, content) <==> SolidMediaTypes(content)
  {
    forall media | media in content
      ensures MediaKept(content, content, media) <==> content[media].Obj? && Solid(SchemaIn(content[media].fields))
    {
      if content[media].Obj? { CompatibleReflexive(SchemaIn(content[media].fields)); }
    }
  }

  lemma ContentReflexive(owner: Fields)
    ensures ContentCompatible(owner, owner) <==> SolidContent(owner)
  {
    MediaTypesReflexive(Section(owner, "content"));
  }

  lemma ParameterReflexive(fields: Fields)
    ensures ParameterCompatible(fields, fields) <==> Solid(SchemaIn(fields))
  {
    CompatibleReflexive(SchemaIn(fields));
    forall k | k in PRESENTATION && k in fields ensures Same(fields[k], fields[k]) { SameReflexive(fields[k]); }
  }

  lemma ParametersReflexive(ps: map<Identity, Fields>)
    ensures ParametersCompatible(ps, ps) <==> SolidParameters(ps)
  {
    forall id | id in ps ensures ParameterKept(ps, ps, id) <==> Solid(SchemaIn(ps[id])) { ParameterReflexive(ps[id]); }
  }

  lemma ResponsesReflexive(responses: Fields)
    ensures AllResponsesKept(responses, responses) <==> SolidResponses(responses)
  {
    forall status | status in responses
      ensures ResponseKept(responses, responses, status) <==> responses[status].Obj? && SolidContent(responses[status].fields)
    {
      if responses[status].Obj? { ContentReflexive(responses[status].fields); }
    }
  }

  lemma BodyReflexive(body: Value)
    ensures BodyCompatible(body, body) <==> SolidBody(body)
  {
    if body.Obj? { ContentReflexive(body.fields); }
  }

  lemma OperationReflexive(text: Text, item: Fields, operation: Fields)
    ensures OperationCompatible(text, item, operation, item, operation) <==> SolidOperation(text, item, operation)
  {
    SameReflexive(Get(operation, "operationId"));
    SameReflexive(GetOr(operation, "security", Arr([])));
    ParametersReflexive(ParametersOf(text, item, operation));
    BodyReflexive(Get(operation, "requestBody"));
    ResponsesReflexive(Section(operation, "responses"));
  }

  /** Iterating over an object yields its keys. */
  lemma VerbsOfObject(fields: Fields)
    ensures MakesSet(Obj(fields)) && forall verb :: verb in Verbs(Obj(fields)) <==> verb in METHODS && verb in fields
  {
    forall k ensures Str(k) in Elements(Obj(fields)) <==> k in fields { }
  }

  lemma ItemReflexive(text: Text, item: Fields)
    ensures ItemCompatible(text, Obj(item), item) <==> SolidItem(text, item)
  {
    VerbsOfObject(item);
    forall m | m in METHODS && m in item
      ensures OperationKept(text, item, item, m) <==> item[m].Obj? && SolidOperation(text, item, item[m].fields)
    {
      if item[m].Obj? { OperationReflexive(text, item, item[m].fields); }
    }
  }

  lemma SchemasReflexive(schemas: Fields)
    ensures AllSchemasKept(schemas, schemas) <==> SolidSchemas(schemas)
  {
    forall name | name in schemas ensures SchemaKept(schemas, schemas, name) <==> Solid(schemas[name]) { CompatibleReflexive(schemas[name]); }
  }

  lemma PathsReflexive(text: Text, paths: Fields)
    ensures AllPathsKept(text, paths, paths) <==> SolidPaths(text, paths)
  {
    forall path | path in paths ensures PathKept(text, paths, paths, path) <==> paths[path].Obj? && SolidItem(text, paths[path].fields) {
      if paths[path].Obj? { ItemReflexive(text, paths[path].fields); }
    }
  }

  /** Exactly which contracts pass against themselves. */
  lemma DocumentReflexive(text: Text, a: Fields)
    ensures DocumentCompatible(text, a, a) <==> SolidDocument(text, a)
  {
    PathsReflexive(text, Section(a, "paths"));
    SchemasReflexive(SharedSchemas(a));
  }

  /** A contract that is reported as incompatible with itself: a path that is null reads as removed. */
  lemma NullPathFailsItself(text: Text, path: string)
    ensures var document := map["paths" := Obj(map[path := Null])];
      DocumentComparable(text, document, document) && !DocumentCompatible(text, document, document)
  {
    var paths := map[path := Null];
    assert Get(paths, path) == Null;
    assert !PathKept(text, paths, paths, path);
  }

  // ---- Transitive ----------------------------------------------------------

  lemma ContentTransitive(a: Fields, b: Fields, c: Fields)
    requires FirmContent(Section(a, "content")) && ContentCompatible(a, b) && ContentCompatible(b, c)
    ensures ContentCompatible(a, c)
  {
    var x, y, z := Section(a, "content"), Section(b, "content"), Section(c, "content");
    forall media | media in x ensures MediaKept(x, z, media) {
      assert MediaKept(x, y, media) && MediaKept(y, z, media);
      CompatibleTransitive(SchemaIn(x[media].fields), SchemaIn(y[media].fields), SchemaIn(Get(z, media).fields));
    }
    if media :| media in x { assert MediaKept(x, y, media); }
  }

  lemma ParameterTransitive(a: Fields, b: Fields, c: Fields)
    requires FirmParameter(a)
    requires ParameterCompatible(a, b) && ParameterCompatible(b, c)
    ensures ParameterCompatible(a, c)
  {
    CompatibleTransitive(SchemaIn(a), SchemaIn(b), SchemaIn(c));
    forall k | k in PRESENTATION ensures Keeps(a, c, k) { KeepsTransitive(a, b, c, k); }
  }

  lemma ParametersTransitive(a: map<Identity, Fields>, b: map<Identity, Fields>, c: map<Identity, Fields>)
    requires FirmParameters(a) && ParametersCompatible(a, b) && ParametersCompatible(b, c)
    ensures ParametersCompatible(a, c)
  {
    forall id | id in a ensures ParameterKept(a, c, id) {
      assert ParameterKept(a, b, id) && ParameterKept(b, c, id);
      ParameterTransitive(a[id], b[id], c[id]);
    }
    forall id | id in c ensures NotNewlyRequired(a, c, id) {
      assert NotNewlyRequired(b, c, id) && (id in b ==> ParameterKept(b, c, id) && NotNewlyRequired(a, b, id));
    }
  }

  lemma ResponseTransitive(a: Fields, b: Fields, c: Fields, status: string)
    requires status in a && status in b && ResponseKept(a, b, status) && ResponseKept(b, c, status)
    requires FirmContent(Section(FieldsOf(a[status]), "content"))
    ensures ResponseKept(a, c, status)
  {
    var x, y := Section(a[status].fields, "content"), Section(b[status].fields, "content");
    ContentTransitive(a[status].fields, b[status].fields, FieldsOf(Get(c, status)));
    if media :| media in x { assert MediaKept(x, y, media); }
  }

  lemma ResponsesTransitive(a: Fields, b: Fields, c: Fields)
    requires ResponsesCompatible(a, b) && ResponsesCompatible(b, c)
    requires FirmResponses(Section(a, "responses"))
    ensures ResponsesCompatible(a, c)
  {
    var x, y, z := Section(a, "responses"), Section(b, "responses"), Section(c, "responses");
    forall status | status in x ensures ResponseKept(x, z, status) {
      assert ResponseKept(x, y, status) && ResponseKept(y, z, status);
      ResponseTransitive(x, y, z, status);
    }
    if status :| status in x { assert ResponseKept(x, y, status) && status in y; }
  }

  lemma BodyTransitive(a: Value, b: Value, c: Value)
    requires BodyCompatible(a, b) && BodyCompatible(b, c) && FirmContent(Section(FieldsOf(a), "content"))
    ensures BodyCompatible(a, c)
  {
    if !a.Null? { ContentTransitive(a.fields, b.fields, c.fields); }
  }

  lemma OperationTransitive(text: Text, ai: Fields, a: Fields, bi: Fields, b: Fields, ci: Fields, c: Fields)
    requires FirmOperation(text, ai, a) && OperationCompatible(text, ai, a, bi, b) && OperationCompatible(text, bi, b, ci, c)
    ensures OperationCompatible(text, ai, a, ci, c)
  {
    SameTransitive(Get(a, "operationId"), Get(b, "operationId"), Get(c, "operationId"));
    SameTransitive(GetOr(a, "security", Arr([])), GetOr(b, "security", Arr([])), GetOr(c, "security", Arr([])));
    ParametersTransitive(ParametersOf(text, ai, a), ParametersOf(text, bi, b), ParametersOf(text, ci, c));
    BodyTransitive(Get(a, "requestBody"), Get(b, "requestBody"), Get(c, "requestBody"));
    ResponsesTransitive(a, b, c);
  }

  lemma PathTransitive(text: Text, a: Fields, b: Fields, c: Fields, path: string)
    requires path in a && PathKept(text, a, b, path) && PathKept(text, b, c, path)
    requires forall verb :: verb in METHODS && verb in FieldsOf(a[path]) ==> FirmOperation(text, FieldsOf(a[path]), FieldsOf(FieldsOf(a[path])[verb]))
    ensures PathKept(text, a, c, path)
  {
    var bi, ci := Get(b, path).fields, Get(c, path).fields;
    forall m | m in Verbs(a[path]) ensures VerbKept(text, a[path], ci, m) {
      var ai := a[path].fields;
      VerbsOfObject(ai);
      VerbsOfObject(bi);
      assert OperationKept(text, ai, bi, m) && m in Verbs(Obj(bi)) && OperationKept(text, bi, ci, m);
      OperationTransitive(text, ai, ai[m].fields, bi, bi[m].fields, ci, ci[m].fields);
    }
  }

  lemma PathsTransitive(text: Text, a: Fields, b: Fields, c: Fields)
    requires FirmDocument(text, a) && PathsCompatible(text, a, b) && PathsCompatible(text, b, c)
    ensures PathsCompatible(text, a, c)
  {
    var x, y, z := Section(a, "paths"), Section(b, "paths"), Section(c, "paths");
    forall path | path in x ensures PathKept(text, x, z, path) {
      assert PathKept(text, x, y, path) && path in y && PathKept(text, y, z, path);
      PathTransitive(text, x, y, z, path);
    }
    if path :| path in x { assert PathKept(text, x, y, path) && path in y; }
  }

  lemma SchemasTransitive(text: Text, a: Fields, b: Fields, c: Fields)
    requires FirmDocument(text, a) && SchemasCompatible(a, b) && SchemasCompatible(b, c)
    ensures SchemasCompatible(a, c)
  {
    var s, t, u := SharedSchemas(a), SharedSchemas(b), SharedSchemas(c);
    forall name | name in s ensures SchemaKept(s, u, name) {
      assert SchemaKept(s, t, name) && SchemaKept(t, u, name);
      CompatibleTransitive(s[name], t[name], u[name]);
    }
    if name :| name in s { assert SchemaKept(s, t, name); }
  }

  /** A chain of accepted releases is acceptable from end to end. */
  lemma DocumentTransitive(text: Text, a: Fields, b: Fields, c: Fields)
    requires FirmDocument(text, a) && DocumentCompatible(text, a, b) && DocumentCompatible(text, b, c)
    ensures DocumentCompatible(text, a, c)
  {
    PathsTransitive(text, a, b, c);
    SchemasTransitive(text, a, b, c);
  }

  /** Every release passed against the one before it. */
  ghost predicate Accepted(text: Text, releases: seq<Fields>) {
    forall i :: 0 < i < |releases| ==> DocumentCompatible(text, releases[i - 1], releases[i])
  }

  /** Steps compose from a release on if any two do. */
  lemma {:induction false} StepsCompose<T(!new)>(steps: seq<T>, i: nat, j: nat, ok: (T, T) -> bool)
    requires i < j < |steps| && forall k :: i < k <= j ==> ok(steps[k - 1], steps[k])
    requires forall b, c :: ok(steps[i], b) && ok(b, c) ==> ok(steps[i], c)
    ensures ok(steps[i], steps[j])
    decreases j
  {
    assert ok(steps[j - 1], steps[j]);
    if i < j - 1 { StepsCompose(steps, i, j - 1, ok); }
  }

  /** So a firm release is compatible with every later one. */
  lemma ReleasesCompose(text: Text, releases: seq<Fields>, i: nat, j: nat)
    requires Accepted(text, releases) && i < j < |releases| && FirmDocument(text, releases[i])
    ensures DocumentCompatible(text, releases[i], releases[j])
  {
    var ok := (b, c) => DocumentCompatible(text, b, c);
    forall b, c | ok(releases[i], b) && ok(b, c) ensures ok(releases[i], c) { DocumentTransitive(text, releases[i], b, c); }
    StepsCompose(releases, i, j, ok);
  }

  // ---- Where the comparison raises -----------------------------------------

  // Each predicate says that its part of the comparison does not raise, whatever it reports.

  predicate MediaComparable(was: Fields, now: Fields, media: string) {
    !Get(now, media).Null? ==>
      && Get(was, media).Obj? && Get(now, media).Obj?
      && Comparable(SchemaIn(Get(was, media).fields), SchemaIn(Get(now, media).fields))
  }

  predicate MediaTypesComparable(was: Fields, now: Fields) {
    forall media :: media in was ==> MediaComparable(was, now, media)
  }

  predicate ContentComparable(prev: Fields, next: Fields) {
    SectionsMeet(prev, next, "content") && MediaTypesComparable(Section(prev, "content"), Section(next, "content"))
  }

  predicate ResponseComparable(was: Fields, now: Fields, status: string) {
    !Get(now, status).Null? ==>
      && Get(was, status).Obj? && ContentComparable(Get(was, status).fields, FieldsOf(Get(now, status)))
      && (Section(Get(was, status).fields, "content") != map[] ==> Get(now, status).Obj?)
  }

  predicate AllResponsesComparable(was: Fields, now: Fields) {
    forall status :: status in was ==> ResponseComparable(was, now, status)
  }

  predicate ResponsesComparable(prev: Fields, next: Fields) {
    SectionsMeet(prev, next, "responses") && AllResponsesComparable(Section(prev, "responses"), Section(next, "responses"))
  }

  predicate BodyComparable(was: Value, now: Value) {
    !was.Null? && now.Obj? ==> was.Obj? && ContentComparable(was.fields, now.fields)
  }

  predicate ParameterComparable(was: map<Identity, Fields>, now: map<Identity, Fields>, id: Identity) {
    id in was && id in now ==> Comparable(SchemaIn(was[id]), SchemaIn(now[id]))
  }

  predicate ParametersComparable(was: map<Identity, Fields>, now: map<Identity, Fields>) {
    forall id :: id in was ==> ParameterComparable(was, now, id)
  }

  predicate OperationComparable(text: Text, prevItem: Fields, prev: Fields, nextItem: Fields, next: Fields) {
    && ListsParameters(prevItem, prev) && ListsParameters(nextItem, next)
    && ParametersComparable(ParametersOf(text, prevItem, prev), ParametersOf(text, nextItem, next))
    && BodyComparable(Get(prev, "requestBody"), Get(next, "requestBody"))
    && ResponsesComparable(prev, next)
  }

  predicate VerbComparable(text: Text, prev: Value, next: Fields, verb: string) {
    verb in next ==>
      && prev.Obj? && Get(prev.fields, verb).Obj? && next[verb].Obj?
      && OperationComparable(text, prev.fields, Get(prev.fields, verb).fields, next, next[verb].fields)
  }

  predicate AllVerbsComparable(text: Text, prev: Value, next: Fields) {
    forall verb :: verb in Verbs(prev) ==> VerbComparable(text, prev, next, verb)
  }

  predicate ItemComparable(text: Text, prev: Value, next: Fields) {
    MakesSet(prev) && AllVerbsComparable(text, prev, next)
  }

  predicate PathComparable(text: Text, was: Fields, now: Fields, path: string) {
    Get(now, path).Obj? ==> ItemComparable(text, Get(was, path), Get(now, path).fields)
  }

  predicate AllPathsComparable(text: Text, was: Fields, now: Fields) {
    forall path :: path in was ==> PathComparable(text, was, now, path)
  }

  predicate PathsComparable(text: Text, prev: Fields, next: Fields) {
    SectionsMeet(prev, next, "paths") && AllPathsComparable(text, Section(prev, "paths"), Section(next, "paths"))
  }

  /** A name is searched for in whatever the new schemas are; found outside an object, it cannot be looked up. */
  predicate SchemaComparable(was: Fields, now: Value, name: string) {
    match now
    case Obj(fields) => name in fields ==> Comparable(Get(was, name), fields[name])
    case Arr(items) => Str(name) !in items
    case Str(s) => !Occurs(name, s)
    case _ => false
  }

  predicate AllSchemasComparable(was: Fields, now: Value) {
    forall name :: name in was ==> SchemaComparable(was, now, name)
  }

  function SchemasValue(document: Fields): Value {
    GetOr(Section(document, "components"), "schemas", EMPTY)
  }

  predicate SchemasComparable(prev: Fields, next: Fields) {
    && IsSection(prev, "components") && IsSection(next, "components") && IsSection(Section(prev, "components"), "schemas")
    && AllSchemasComparable(SharedSchemas(prev), SchemasValue(next))
  }

  predicate DocumentComparable(text: Text, prev: Fields, next: Fields) {
    PathsComparable(text, prev, next) && SchemasComparable(prev, next)
  }

  // What passes has not raised.

  lemma ContentIsComparable(a: Fields, b: Fields)
    requires ContentCompatible(a, b)
    ensures ContentComparable(a, b)
  {
    var x, y := Section(a, "content"), Section(b, "content");
    forall media | media in x ensures MediaComparable(x, y, media) {
      assert MediaKept(x, y, media);
      CompatibleIsComparable(SchemaIn(Get(x, media).fields), SchemaIn(Get(y, media).fields));
    }
  }

  lemma ResponsesAreComparable(a: Fields, b: Fields)
    requires ResponsesCompatible(a, b)
    ensures ResponsesComparable(a, b)
  {
    var x, y := Section(a, "responses"), Section(b, "responses");
    forall status | status in x ensures ResponseComparable(x, y, status) {
      assert ResponseKept(x, y, status);
      ContentIsComparable(Get(x, status).fields, FieldsOf(Get(y, status)));
    }
  }

  lemma ParametersAreComparable(a: map<Identity, Fields>, b: map<Identity, Fields>)
    requires ParametersCompatible(a, b)
    ensures ParametersComparable(a, b)
  {
    forall id | id in a ensures ParameterComparable(a, b, id) {
      assert ParameterKept(a, b, id);
      CompatibleIsComparable(SchemaIn(a[id]), SchemaIn(b[id]));
    }
  }

  lemma OperationIsComparable(text: Text, ai: Fields, a: Fields, bi: Fields, b: Fields)
    requires OperationCompatible(text, ai, a, bi, b)
    ensures OperationComparable(text, ai, a, bi, b)
  {
    ParametersAreComparable(ParametersOf(text, ai, a), ParametersOf(text, bi, b));
    if !Get(a, "requestBody").Null? { ContentIsComparable(Get(a, "requestBody").fields, Get(b, "requestBody").fields); }
    ResponsesAreComparable(a, b);
  }

  lemma PathsAreComparable(text: Text, a: Fields, b: Fields)
    requires PathsCompatible(text, a, b)
    ensures PathsComparable(text, a, b)
  {
    var x, y := Section(a, "paths"), Section(b, "paths");
    forall path | path in x ensures PathComparable(text, x, y, path) {
      assert PathKept(text, x, y, path);
      forall verb | verb in Verbs(Get(x, path)) ensures VerbComparable(text, Get(x, path), Get(y, path).fields, verb) {
        var item, item' := Get(x, path).fields, Get(y, path).fields;
        OperationIsComparable(text, item, Get(item, verb).fields, item', Get(item', verb).fields);
      }
    }
  }

  lemma SchemasAreComparable(a: Fields, b: Fields)
    requires SchemasCompatible(a, b)
    ensures SchemasComparable(a, b)
  {
    var x, y := SharedSchemas(a), SharedSchemas(b);
    forall name | name in x ensures SchemaComparable(x, SchemasValue(b), name) {
      assert SchemaKept(x, y, name);
      CompatibleIsComparable(x[name], y[name]);
    }
  }

  lemma DocumentIsComparable(text: Text, a: Fields, b: Fields)
    requires DocumentCompatible(text, a, b)
    ensures DocumentComparable(text, a, b)
  {
    PathsAreComparable(text, a, b);
    SchemasAreComparable(a, b);
  }

  // ---- The comparison as it runs -------------------------------------------

  // A method is done unless its part of the comparison raises.

  method CollectList(text: Text, list: seq<Value>) returns (result: map<Identity, Fields>)
    ensures result == Collect(text, list)
  {
    result := map[];
    for i := 0 to |list|
      invariant result == Collect(text, list[..i])
    {
      var p := list[i];
      assert list[..i + 1][..i] == list[..i];
      if IsParameter(p) { result := result[IdentityOf(text, p.fields) := p.fields]; }
    }
    assert list[..|list|] == list;
  }

  /** `_parameters`. */
  method CollectParameters(text: Text, item: Fields, operation: Fields) returns (done: bool, result: map<Identity, Fields>)
    ensures done <==> ListsParameters(item, operation)
    ensures done ==> result == ParametersOf(text, item, operation)
  {
    if !ListsParameters(item, operation) { return false, map[]; }
    done := true;
    result := CollectList(text, List(item, "parameters") + List(operation, "parameters"));
  }

  method CheckMedia(was: Fields, now: Fields, media: string, location: string, report: Report) returns (done: bool)
    requires media in was
    modifies report
    ensures done <==> MediaComparable(was, now, media)
    ensures done ==> Reported(old(report.errors), report.errors, location, MediaKept(was, now, media))
  {
    if Get(now, media).Null? {
      report.Check(false, location, "media type was removed");
      return true;
    }
    if !was[media].Obj? || !now[media].Obj? { return false; }
    done := report.CheckSchema(SchemaIn(was[media].fields), SchemaIn(now[media].fields), location + ".schema");
    if done { ReportedBelow(old(report.errors), report.errors, location, location + ".schema", MediaKept(was, now, media)); }
  }

  method CheckContent(prev: Fields, next: Fields, location: string, report: Report) returns (done: bool)
    modifies report
    ensures done <==> ContentComparable(prev, next)
    ensures done ==> Reported(old(report.errors), report.errors, location, ContentCompatible(prev, next))
  {
    if !SectionsMeet(prev, next, "content") { return false; }
    var was, now := Section(prev, "content"), Section(next, "content");
    ghost var kept, can := media => MediaKept(was, now, media), media => MediaComparable(was, now, media);
    var pending := was.Keys;
    while pending != {}
      invariant pending <= was.Keys && Holds(was.Keys - pending, can)
      invariant Reported(old(report.errors), report.errors, location, Holds(was.Keys - pending, kept))
    {
      ghost var sofar := report.errors;
      var media :| media in pending;
      done := CheckMedia(was, now, media, location + ("." + media), report);
      if !done { return; }
      ReportedBelow(sofar, report.errors, location, location + ("." + media), kept(media));
      OneMoreKey(old(report.errors), sofar, report.errors, location, was.Keys, pending, media, kept);
      pending := pending - {media};
    }
    assert was.Keys - pending == was.Keys;
    assert Holds(was.Keys, kept) <==> MediaTypesKept(was, now);
    assert Holds(was.Keys, can) <==> MediaTypesComparable(was, now);
    done := true;
  }

  method CheckResponse(was: Fields, now: Fields, status: string, location: string, report: Report) returns (done: bool)
    requires status in was
    modifies report
    ensures done <==> ResponseComparable(was, now, status)
    ensures done ==> Reported(old(report.errors), report.errors, location, ResponseKept(was, now, status))
  {
    if Get(now, status).Null? {
      report.Check(false, location, "response was removed");
      return true;
    }
    if !was[status].Obj? { return false; }
    if Section(was[status].fields, "content") != map[] && !now[status].Obj? { return false; }
    done := CheckContent(was[status].fields, FieldsOf(now[status]), location, report);
  }

  method CheckResponses(prev: Fields, next: Fields, location: string, report: Report) returns (done: bool)
    modifies report
    ensures done <==> ResponsesComparable(prev, next)
    ensures done ==> Reported(old(report.errors), report.errors, location, ResponsesCompatible(prev, next))
  {
    if !SectionsMeet(prev, next, "responses") { return false; }
    var was, now := Section(prev, "responses"), Section(next, "responses");
    ghost var kept, can := status => ResponseKept(was, now, status), status => ResponseComparable(was, now, status);
    var pending := was.Keys;
    while pending != {}
      invariant pending <= was.Keys && Holds(was.Keys - pending, can)
      invariant Reported(old(report.errors), report.errors, location, Holds(was.Keys - pending, kept))
    {
      ghost var sofar := report.errors;
      var status :| status in pending;
      done := CheckResponse(was, now, status, location + (".responses." + status), report);
      if !done { return; }
      ReportedBelow(sofar, report.errors, location, location + (".responses." + status), kept(status));
      OneMoreKey(old(report.errors), sofar, report.errors, location, was.Keys, pending, status, kept);
      pending := pending - {status};
    }
    assert was.Keys - pending == was.Keys;
    assert Holds(was.Keys, kept) <==> AllResponsesKept(was, now);
    assert Holds(was.Keys, can) <==> AllResponsesComparable(was, now);
    done := true;
  }

  method CheckBody(was: Value, now: Value, location: string, report: Report) returns (done: bool)
    modifies report
    ensures done <==> BodyComparable(was, now)
    ensures done ==> Reported(old(report.errors), report.errors, location, BodyCompatible(was, now))
  {
    var child := location + ".requestBody";
    if was.Null? { return true; }
    if !now.Obj? {
      report.Check(false, child, "request body was removed");
      ReportedBelow(old(report.errors), report.errors, location, child, false);
      return true;
    }
    if !was.Obj? { return false; }
    ghost var e0 := report.errors;
    report.Check(StaysOptional(was.fields, now.fields), child, "request body became required");
    ghost var e1 := report.errors;
    done := CheckContent(was.fields, now.fields, child, report);
    if !done { return; }
    ReportedBoth(e0, e1, report.errors, child, StaysOptional(was.fields, now.fields), ContentCompatible(was.fields, now.fields));
    ReportedBelow(e0, report.errors, location, child, BodyCompatible(was, now));
  }

  method CheckParameter(prev: Fields, next: Fields, location: string, report: Report) returns (done: bool)
    modifies report
    ensures done <==> Comparable(SchemaIn(prev), SchemaIn(next))
    ensures done ==> Reported(old(report.errors), report.errors, location, ParameterCompatible(prev, next))
  {
    ghost var e0 := report.errors;
    report.Check(StaysOptional(prev, next), location, "optional parameter became required");
    ghost var e1 := report.errors;
    report.CheckKeywords(prev, next, PRESENTATION, location);
    ghost var e2, child := report.errors, location + ".schema";
    done := report.CheckSchema(SchemaIn(prev), SchemaIn(next), location + ".schema");
    if !done { return; }
    ReportedBelow(e2, report.errors, location, child, Compatible(SchemaIn(prev), SchemaIn(next)));
    ReportedBoth(e0, e1, e2, location, StaysOptional(prev, next), KeepsAll(prev, next, PRESENTATION));
    ReportedBoth(e0, e2, report.errors, location, StaysOptional(prev, next) && KeepsAll(prev, next, PRESENTATION),
                 Compatible(SchemaIn(prev), SchemaIn(next)));
  }

  method CheckKeptParameter(was: map<Identity, Fields>, now: map<Identity, Fields>, id: Identity, location: string, report: Report)
    returns (done: bool)
    requires id in was
    modifies report
    ensures done <==> ParameterComparable(was, now, id)
    ensures done ==> Reported(old(report.errors), report.errors, location, ParameterKept(was, now, id))
  {
    if id !in now {
      report.Check(false, location, "parameter was removed");
      return true;
    }
    done := CheckParameter(was[id], now[id], location, report);
  }

  method CheckKeptParameters(was: map<Identity, Fields>, now: map<Identity, Fields>, location: string, report: Report)
    returns (done: bool)
    modifies report
    ensures done <==> ParametersComparable(was, now)
    ensures done ==> Reported(old(report.errors), report.errors, location, AllKept(was, now))
  {
    ghost var kept, can := id => ParameterKept(was, now, id), id => ParameterComparable(was, now, id);
    var pending := was.Keys;
    while pending != {}
      invariant pending <= was.Keys && Holds(was.Keys - pending, can)
      invariant Reported(old(report.errors), report.errors, location, Holds(was.Keys - pending, kept))
    {
      ghost var sofar := report.errors;
      var id :| id in pending;
      var child := location + (".parameters." + id.1 + ":" + id.0);
      done := CheckKeptParameter(was, now, id, child, report);
      if !done { return; }
      ReportedBelow(sofar, report.errors, location, child, kept(id));
      OneMoreKey(old(report.errors), sofar, report.errors, location, was.Keys, pending, id, kept);
      pending := pending - {id};
    }
    assert was.Keys - pending == was.Keys;
    assert Holds(was.Keys, kept) <==> AllKept(was, now);
    assert Holds(was.Keys, can) <==> ParametersComparable(was, now);
    done := true;
  }

  method CheckNewParameters(was: map<Identity, Fields>, now: map<Identity, Fields>, location: string, report: Report)
    modifies report
    ensures Reported(old(report.errors), report.errors, location, NoneNewlyRequired(was, now))
  {
    ghost var fine := id => NotNewlyRequired(was, now, id);
    var pending := now.Keys;
    while pending != {}
      invariant pending <= now.Keys
      invariant Reported(old(report.errors), report.errors, location, Holds(now.Keys - pending, fine))
    {
      ghost var sofar := report.errors;
      var id :| id in pending;
      report.Check(id in was || !Truthy(Get(now[id], "required")), location, "new required parameter " + id.1 + ":" + id.0);
      OneMoreKey(old(report.errors), sofar, report.errors, location, now.Keys, pending, id, fine);
      pending := pending - {id};
    }
    assert now.Keys - pending == now.Keys;
    assert Holds(now.Keys, fine) <==> NoneNewlyRequired(was, now);
  }

  method CompareParameters(was: map<Identity, Fields>, now: map<Identity, Fields>, location: string, report: Report)
    returns (done: bool)
    modifies report
    ensures done <==> ParametersComparable(was, now)
    ensures done ==> Reported(old(report.errors), report.errors, location, ParametersCompatible(was, now))
  {
    done := CheckKeptParameters(was, now, location, report);
    if !done { return; }
    ghost var sofar := report.errors;
    CheckNewParameters(was, now, location, report);
    ReportedBoth(old(report.errors), sofar, report.errors, location, AllKept(was, now), NoneNewlyRequired(was, now));
  }

  method CheckParameters(text: Text, prevItem: Fields, prev: Fields, nextItem: Fields, next: Fields, location: string, report: Report)
    returns (done: bool)
    modifies report
    ensures done <==>
      && ListsParameters(prevItem, prev) && ListsParameters(nextItem, next)
      && ParametersComparable(ParametersOf(text, prevItem, prev), ParametersOf(text, nextItem, next))
    ensures done ==> Reported(old(report.errors), report.errors, location,
                              ParametersCompatible(ParametersOf(text, prevItem, prev), ParametersOf(text, nextItem, next)))
  {
    var was, now;
    done, was := CollectParameters(text, prevItem, prev);
    if !done { return; }
    done, now := CollectParameters(text, nextItem, next);
    if !done { return; }
    done := CompareParameters(was, now, location, report);
  }

  /** `_operation_compatible`. */
  method CheckOperation(text: Text, prevItem: Fields, prev: Fields, nextItem: Fields, next: Fields, location: string, report: Report)
    returns (done: bool)
    modifies report
    ensures done <==> OperationComparable(text, prevItem, prev, nextItem, next)
    ensures done ==> Reported(old(report.errors), report.errors, location, OperationCompatible(text, prevItem, prev, nextItem, next))
  {
    ghost var e0 := report.errors;
    var sameId := Same(Get(prev, "operationId"), Get(next, "operationId"));
    report.Check(sameId, location, "operationId changed");
    ghost var e1 := report.errors;
    var sameSecurity := Same(GetOr(prev, "security", Arr([])), GetOr(next, "security", Arr([])));
    report.Check(sameSecurity, location, "security requirements changed");
    ghost var e2, parameters := report.errors, ParametersCompatible(ParametersOf(text, prevItem, prev), ParametersOf(text, nextItem, next));
    done := CheckParameters(text, prevItem, prev, nextItem, next, location, report);
    if !done { return; }
    ghost var e3, body := report.errors, BodyCompatible(Get(prev, "requestBody"), Get(next, "requestBody"));
    done := CheckBody(Get(prev, "requestBody"), Get(next, "requestBody"), location, report);
    if !done { return; }
    ghost var e4, responses := report.errors, ResponsesCompatible(prev, next);
    done := CheckResponses(prev, next, location, report);
    if !done { return; }
    ReportedBoth(e0, e1, e2, location, sameId, sameSecurity);
    ReportedBoth(e0, e2, e3, location, sameId && sameSecurity, parameters);
    ReportedBoth(e0, e3, e4, location, sameId && sameSecurity && parameters, body);
    ReportedBoth(e0, e4, report.errors, location, sameId && sameSecurity && parameters && body, responses);
  }

  method CheckVerb(text: Text, prev: Value, next: Fields, verb: string, location: string, report: Report) returns (done: bool)
    modifies report
    ensures done <==> VerbComparable(text, prev, next, verb)
    ensures done ==> Reported(old(report.errors), report.errors, location, VerbKept(text, prev, next, verb))
  {
    if verb !in next {
      report.Check(false, location, "operation was removed");
      return true;
    }
    if !prev.Obj? || !Get(prev.fields, verb).Obj? || !next[verb].Obj? { return false; }
    done := CheckOperation(text, prev.fields, prev.fields[verb].fields, next, next[verb].fields, location, report);
  }

  method CheckVerbs(text: Text, prev: Value, next: Fields, location: string, report: Report) returns (done: bool)
    modifies report
    ensures done <==> AllVerbsComparable(text, prev, next)
    ensures done ==> Reported(old(report.errors), report.errors, location, AllVerbsKept(text, prev, next))
  {
    ghost var kept, can := verb => VerbKept(text, prev, next, verb), verb => VerbComparable(text, prev, next, verb);
    var verbs := Verbs(prev);
    var pending := verbs;
    while pending != {}
      invariant pending <= verbs && Holds(verbs - pending, can)
      invariant Reported(old(report.errors), report.errors, location, Holds(verbs - pending, kept))
    {
      ghost var sofar := report.errors;
      var verb :| verb in pending;
      done := CheckVerb(text, prev, next, verb, location + ("." + verb), report);
      if !done { return; }
      ReportedBelow(sofar, report.errors, location, location + ("." + verb), kept(verb));
      OneMoreKey(old(report.errors), sofar, report.errors, location, verbs, pending, verb, kept);
      pending := pending - {verb};
    }
    assert verbs - pending == verbs;
    VerbsPass(text, prev, next, kept, can);
    done := true;
  }

  lemma VerbsPass(text: Text, prev: Value, next: Fields, kept: string -> bool, can: string -> bool)
    requires forall verb :: kept(verb) <==> VerbKept(text, prev, next, verb)
    requires forall verb :: can(verb) <==> VerbComparable(text, prev, next, verb)
    ensures Holds(Verbs(prev), kept) <==> AllVerbsKept(text, prev, next)
    ensures Holds(Verbs(prev), can) <==> AllVerbsComparable(text, prev, next)
  {
  }

  method CheckItem(text: Text, prev: Value, next: Fields, location: string, report: Report) returns (done: bool)
    modifies report
    ensures done <==> ItemComparable(text, prev, next)
    ensures done ==> Reported(old(report.errors), report.errors, location, ItemCompatible(text, prev, next))
  {
    if !MakesSet(prev) { return false; }
    done := CheckVerbs(text, prev, next, location, report);
  }

  method CheckPath(text: Text, was: Fields, now: Fields, path: string, location: string, report: Report) returns (done: bool)
    requires path in was
    modifies report
    ensures done <==> PathComparable(text, was, now, path)
    ensures done ==> Reported(old(report.errors), report.errors, location, PathKept(text, was, now, path))
  {
    if !Get(now, path).Obj? {
      report.Check(false, location, "path was removed");
      return true;
    }
    done := CheckItem(text, was[path], now[path].fields, location, report);
  }

  method CheckPaths(text: Text, prev: Fields, next: Fields, report: Report) returns (done: bool)
    modifies report
    ensures done <==> PathsComparable(text, prev, next)
    ensures done ==> Reported(old(report.errors), report.errors, "", PathsCompatible(text, prev, next))
  {
    if !SectionsMeet(prev, next, "paths") { return false; }
    var was, now := Section(prev, "paths"), Section(next, "paths");
    ghost var kept, can := path => PathKept(text, was, now, path), path => PathComparable(text, was, now, path);
    var pending := was.Keys;
    while pending != {}
      invariant pending <= was.Keys && Holds(was.Keys - pending, can)
      invariant Reported(old(report.errors), report.errors, "", Holds(was.Keys - pending, kept))
    {
      ghost var sofar := report.errors;
      var path :| path in pending;
      done := CheckPath(text, was, now, path, "paths." + path, report);
      if !done { return; }
      ReportedBelow(sofar, report.errors, "", "paths." + path, kept(path));
      OneMoreKey(old(report.errors), sofar, report.errors, "", was.Keys, pending, path, kept);
      pending := pending - {path};
    }
    assert was.Keys - pending == was.Keys;
    assert Holds(was.Keys, kept) <==> AllPathsKept(text, was, now);
    assert Holds(was.Keys, can) <==> AllPathsComparable(text, was, now);
    done := true;
  }

  method CheckSharedSchema(was: Fields, now: Value, name: string, report: Report) returns (done: bool)
    requires name in was
    modifies report
    ensures done <==> SchemaComparable(was, now, name)
    ensures done ==> Reported(old(report.errors), report.errors, "", now.Obj? && SchemaKept(was, now.fields, name))
  {
    var location := "components.schemas." + name;
    done := true;
    match now {
      case Obj(fields) =>
        if name !in fields {
          report.Check(false, location, "schema was removed");
        } else {
          done := report.CheckSchema(was[name], fields[name], location);
        }
      case Arr(items) =>
        if Str(name) in items { return false; }
        report.Check(false, location, "schema was removed");
      case Str(s) =>
        if Occurs(name, s) { return false; }
        report.Check(false, location, "schema was removed");
      case _ => return false;
    }
    if done { ReportedBelow(old(report.errors), report.errors, "", location, now.Obj? && SchemaKept(was, now.fields, name)); }
  }

  method CheckSharedSchemas(prev: Fields, next: Fields, report: Report) returns (done: bool)
    modifies report
    ensures done <==> SchemasComparable(prev, next)
    ensures done ==> Reported(old(report.errors), report.errors, "", SchemasCompatible(prev, next))
  {
    if !IsSection(prev, "components") || !IsSection(next, "components") { return false; }
    if !IsSection(Section(prev, "components"), "schemas") { return false; }
    var was, now := SharedSchemas(prev), SchemasValue(next);
    ghost var kept, can := name => now.Obj? && SchemaKept(was, now.fields, name), name => SchemaComparable(was, now, name);
    var pending := was.Keys;
    while pending != {}
      invariant pending <= was.Keys && Holds(was.Keys - pending, can)
      invariant Reported(old(report.errors), report.errors, "", Holds(was.Keys - pending, kept))
    {
      ghost var sofar := report.errors;
      var name :| name in pending;
      done := CheckSharedSchema(was, now, name, report);
      if !done { return; }
      OneMoreKey(old(report.errors), sofar, report.errors, "", was.Keys, pending, name, kept);
      pending := pending - {name};
    }
    assert was.Keys - pending == was.Keys;
    SchemasPass(prev, next, kept);
    assert Holds(was.Keys, can) <==> AllSchemasComparable(was, now);
    done := true;
  }

  lemma SchemasPass(prev: Fields, next: Fields, kept: string -> bool)
    requires IsSection(prev, "components") && IsSection(next, "components") && IsSection(Section(prev, "components"), "schemas")
    requires var was, now := SharedSchemas(prev), SchemasValue(next);
      forall name :: kept(name) <==> now.Obj? && SchemaKept(was, now.fields, name)
    ensures Holds(SharedSchemas(prev).Keys, kept) <==> SchemasCompatible(prev, next)
  {
    var was, now := SharedSchemas(prev), SchemasValue(next);
    if name :| name in was {
      assert Holds(was.Keys, kept) ==> kept(name);
      assert SchemasCompatible(prev, next) ==> now.Obj?;
    }
  }
}
