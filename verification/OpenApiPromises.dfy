/**
 What a release promises its clients, place by place: the schemas that two contracts have in the same place, and
 what of them may not change. Nothing here follows the order in which a comparison looks at them.
 */
module OpenApiPromises {
  import opened Json
  import opened Comparing

  // ---- Places inside a schema ----------------------------------------------

  /** From a schema to one that it nests. */
  datatype Step = Property(name: string) | Items

  ghost function Down(schema: Value, step: Step): Option<Value> {
    if !schema.Obj? then None
    else
      match step
      case Property(name) =>
        if "properties" in schema.fields && schema.fields["properties"].Obj? && name in schema.fields["properties"].fields then
          Some(schema.fields["properties"].fields[name])
        else None
      case Items => if "items" in schema.fields then Some(schema.fields["items"]) else None
  }

  ghost function At(schema: Value, path: seq<Step>): Option<Value>
    decreases |path|
  {
    if path == [] then Some(schema)
    else
      match Down(schema, path[0])
      case None => None
      case Some(nested) => At(nested, path[1..])
  }

  /** In a new schema, absent items read as null. */
  ghost function NewDown(schema: Value, step: Step): Option<Value> {
    if schema.Obj? && step == Items && "items" !in schema.fields then Some(Null) else Down(schema, step)
  }

  ghost function NewAt(schema: Value, path: seq<Step>): Option<Value>
    decreases |path|
  {
    if path == [] then Some(schema)
    else
      match NewDown(schema, path[0])
      case None => None
      case Some(nested) => NewAt(nested, path[1..])
  }

  // ---- What may not change in one place ------------------------------------

  /** What was fixed by a keyword is fixed to the same. */
  ghost predicate KeywordsStay(prev: Fields, next: Fields) {
    && (forall k :: k in ["type", "format", "$ref", "const", "pattern"] && k in prev ==> Same(Get(next, k), prev[k]))
    && (forall k :: k in ["allOf", "anyOf", "oneOf", "not"] && k in prev ==> Same(Get(next, k), prev[k]))
  }

  ghost predicate NoEnumValueLost(prev: Fields, next: Fields) {
    "enum" in prev ==>
      && Iterable(prev["enum"]) && Iterable(GetOr(next, "enum", Arr([])))
      && forall v :: v in Elements(prev["enum"]) ==> v in Elements(GetOr(next, "enum", Arr([])))
  }

  ghost predicate NoNameNewlyRequired(prev: Fields, next: Fields) {
    && MakesSet(GetOr(prev, "required", Arr([]))) && MakesSet(GetOr(next, "required", Arr([])))
    && forall v :: v in Elements(GetOr(next, "required", Arr([]))) ==>
         exists w :: w in Elements(GetOr(prev, "required", Arr([]))) && Same(w, v)
  }

  ghost predicate NoBoundTightened(prev: Fields, next: Fields) {
    && (forall k :: k in ["minimum", "exclusiveMinimum", "minLength", "minItems", "minProperties"] && k in next ==>
          k in prev && Greater(next[k], prev[k]) == Some(false))
    && (forall k :: k in ["maximum", "exclusiveMaximum", "maxLength", "maxItems", "maxProperties"] && k in next ==>
          k in prev && Greater(prev[k], next[k]) == Some(false))
  }

  ghost predicate NotClosed(prev: Fields, next: Fields) {
    Get(next, "additionalProperties") == Bool(false) ==> Get(prev, "additionalProperties") == Bool(false)
  }

  /** Properties stay what they are: an object, with at least the names it had. */
  ghost predicate NoPropertyLost(prev: Fields, next: Fields) {
    && ("properties" !in prev || prev["properties"].Obj? ==> GetOr(next, "properties", Obj(map[])).Obj?)
    && ("properties" in prev && prev["properties"].Obj? ==>
          forall name :: name in prev["properties"].fields ==> name in GetOr(next, "properties", Obj(map[])).fields)
  }

  /** Nothing that the old schema accepts in this place is refused by keywords of the new one. */
  ghost predicate Unbroken(prev: Value, next: Value) {
    if !prev.Obj? then Same(prev, next)
    else
      && next.Obj?
      && KeywordsStay(prev.fields, next.fields) && NoEnumValueLost(prev.fields, next.fields)
      && NoNameNewlyRequired(prev.fields, next.fields) && NoBoundTightened(prev.fields, next.fields)
      && NotClosed(prev.fields, next.fields) && NoPropertyLost(prev.fields, next.fields)
  }

  /** And so in every place inside it. */
  ghost predicate SchemaUnbroken(prev: Value, next: Value) {
    forall path :: At(prev, path).Some? ==> NewAt(next, path).Some? && Unbroken(At(prev, path).value, NewAt(next, path).value)
  }

  // ---- Places in a contract ------------------------------------------------

  ghost function SectionOf(fields: Fields, key: string): Fields {
    if key in fields && fields[key].Obj? then fields[key].fields else map[]
  }

  ghost function ObjectAt(fields: Fields, key: string): Option<Fields> {
    if key in fields && fields[key].Obj? then Some(fields[key].fields) else None
  }

  /** The item of a path, and an operation of it. */
  ghost function ItemAt(document: Fields, path: string): Option<Fields> {
    ObjectAt(SectionOf(document, "paths"), path)
  }

  ghost predicate IsVerb(verb: string) {
    verb in ["get", "put", "post", "delete", "options", "head", "patch", "trace"]
  }

  ghost function OperationAt(document: Fields, path: string, verb: string): Option<Fields> {
    if IsVerb(verb) && ItemAt(document, path).Some? then ObjectAt(ItemAt(document, path).value, verb) else None
  }

  ghost function ParameterList(fields: Fields): seq<Value> {
    if "parameters" in fields && fields["parameters"].Arr? then fields["parameters"].items else []
  }

  /** A list entry that declares the parameter of this name, passed in this place. */
  ghost predicate Declares(text: Text, entry: Value, name: string, place: string) {
    && entry.Obj? && "name" in entry.fields && "in" in entry.fields
    && text(entry.fields["name"]) == name && text(entry.fields["in"]) == place
  }

  /** The declaration that counts is the last one, those of the path coming before those of the operation. */
  ghost predicate DeclaredAs(text: Text, list: seq<Value>, name: string, place: string, parameter: Fields) {
    exists i :: 0 <= i < |list| && LastDeclaration(text, list, i, name, place) && list[i] == Obj(parameter)
  }

  ghost predicate LastDeclaration(text: Text, list: seq<Value>, i: nat, name: string, place: string) {
    i < |list| && Declares(text, list[i], name, place) && forall j :: i < j < |list| ==> !Declares(text, list[j], name, place)
  }

  ghost predicate HasParameter(text: Text, document: Fields, path: string, verb: string, name: string, place: string, parameter: Fields) {
    && OperationAt(document, path, verb).Some?
    && DeclaredAs(text, ParameterList(ItemAt(document, path).value) + ParameterList(OperationAt(document, path, verb).value),
                  name, place, parameter)
  }

  ghost function BodyAt(document: Fields, path: string, verb: string): Option<Fields> {
    if OperationAt(document, path, verb).Some? then ObjectAt(OperationAt(document, path, verb).value, "requestBody") else None
  }

  /** A response, which counts as there unless it is null. */
  ghost predicate HasResponse(document: Fields, path: string, verb: string, status: string) {
    && OperationAt(document, path, verb).Some?
    && var responses := SectionOf(OperationAt(document, path, verb).value, "responses");
       status in responses && !responses[status].Null?
  }

  ghost function ResponseAt(document: Fields, path: string, verb: string, status: string): Option<Fields> {
    if OperationAt(document, path, verb).Some? then ObjectAt(SectionOf(OperationAt(document, path, verb).value, "responses"), status)
    else None
  }

  ghost function MediaIn(owner: Option<Fields>, media: string): Option<Fields> {
    if owner.Some? then ObjectAt(SectionOf(owner.value, "content"), media) else None
  }

  ghost function SchemaOf(fields: Fields): Value {
    if "schema" in fields then fields["schema"] else Obj(map[])
  }

  ghost predicate IsRequired(fields: Fields) {
    "required" in fields && Truthy(fields["required"])
  }

  // ---- What may not change in a contract -----------------------------------

  ghost predicate ParameterUnbroken(prev: Fields, next: Fields) {
    && (IsRequired(next) ==> IsRequired(prev))
    && (forall k :: k in ["style", "explode", "allowEmptyValue"] && k in prev ==> Same(Get(next, k), prev[k]))
    && SchemaUnbroken(SchemaOf(prev), SchemaOf(next))
  }

  ghost predicate ParametersUnbroken(text: Text, prev: Fields, next: Fields, path: string, verb: string) {
    && (forall name, place, p :: HasParameter(text, prev, path, verb, name, place, p) ==>
          exists q :: HasParameter(text, next, path, verb, name, place, q) && ParameterUnbroken(p, q))
    && (forall name, place, q :: HasParameter(text, next, path, verb, name, place, q) && IsRequired(q) ==>
          exists p :: HasParameter(text, prev, path, verb, name, place, p))
  }

  ghost predicate ContentUnbroken(prev: Option<Fields>, next: Option<Fields>) {
    forall media :: MediaIn(prev, media).Some? ==>
      MediaIn(next, media).Some? && SchemaUnbroken(SchemaOf(MediaIn(prev, media).value), SchemaOf(MediaIn(next, media).value))
  }

  ghost predicate BodyUnbroken(prev: Fields, next: Fields, path: string, verb: string) {
    BodyAt(prev, path, verb).Some? ==>
      && BodyAt(next, path, verb).Some?
      && (IsRequired(BodyAt(next, path, verb).value) ==> IsRequired(BodyAt(prev, path, verb).value))
      && ContentUnbroken(BodyAt(prev, path, verb), BodyAt(next, path, verb))
  }

  ghost predicate ResponseUnbroken(prev: Fields, next: Fields, path: string, verb: string, status: string) {
    HasResponse(prev, path, verb, status) ==>
      && HasResponse(next, path, verb, status)
      && ContentUnbroken(ResponseAt(prev, path, verb, status), ResponseAt(next, path, verb, status))
  }

  ghost predicate OperationUnbroken(text: Text, prev: Fields, next: Fields, path: string, verb: string) {
    OperationAt(prev, path, verb).Some? ==>
      && OperationAt(next, path, verb).Some?
      && Same(Get(OperationAt(prev, path, verb).value, "operationId"), Get(OperationAt(next, path, verb).value, "operationId"))
      && Same(GetOr(OperationAt(prev, path, verb).value, "security", Arr([])), GetOr(OperationAt(next, path, verb).value, "security", Arr([])))
      && ParametersUnbroken(text, prev, next, path, verb)
      && BodyUnbroken(prev, next, path, verb)
      && forall status :: ResponseUnbroken(prev, next, path, verb, status)
  }

  ghost function SharedSchema(document: Fields, name: string): Option<Value> {
    var schemas := SectionOf(SectionOf(document, "components"), "schemas");
    if name in schemas then Some(schemas[name]) else None
  }

  /** Nothing that clients of the old contract rely on is gone or narrower in the new one. */
  ghost predicate ContractUnbroken(text: Text, prev: Fields, next: Fields) {
    && (forall path :: path in SectionOf(prev, "paths") ==> ItemAt(next, path).Some?)
    && (forall path, verb :: OperationUnbroken(text, prev, next, path, verb))
    && (forall name :: SharedSchema(prev, name).Some? ==>
          SharedSchema(next, name).Some? && SchemaUnbroken(SharedSchema(prev, name).value, SharedSchema(next, name).value))
  }
}
