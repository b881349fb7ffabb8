/**
 The versioned indexing event: its identity and keys, the digest that binds an event
 id to the mutation it stands for, and the strict parser at the Kafka boundary.
 */
module EventEnvelope {
  import opened Json
  import opened Encoding
  import Ordering

  const SEPARATOR: char := 0x1f as char
  const MAX_INT64 := 0x7fff_ffff_ffff_ffff

  datatype Identity = Identity(tenant: string, collection: string, document: string)
  datatype Operation = Upsert | Delete | Tombstone
  datatype Trace = Trace(requestId: string, correlationId: string, traceparent: string, tracestate: string)

  datatype Event = Event(
    eventId: string,
    identity: Identity,
    documentVersion: int,
    sequence: int,
    operation: Operation,
    routingRevision: int,
    rolloutId: Option<string>,
    targets: seq<string>,
    occurredAt: int,
    trace: Trace,
    document: Option<Value>,
    deleteFilter: Option<string>)

  // ---- Text formats --------------------------------------------------------

  predicate Alphanumeric(c: char) {
    'A' <= c <= 'Z' || 'a' <= c <= 'z' || '0' <= c <= '9'
  }

  predicate IsName(s: string) {
    1 <= |s| <= 128 && forall i :: 0 <= i < |s| ==> Alphanumeric(s[i]) || s[i] in "_-"
  }

  predicate IsDocumentId(s: string) {
    1 <= |s| <= 256 && forall i :: 0 <= i < |s| ==> Alphanumeric(s[i]) || s[i] in "_.-"
  }

  predicate IsEventId(s: string) {
    8 <= |s| <= 128 && forall i :: 0 <= i < |s| ==> Alphanumeric(s[i]) || s[i] in "_.:-"
  }

  /** The characters that `str.strip` removes. */
  predicate IsSpace(c: char) {
    var n := c as int;
    || 0x09 <= n <= 0x0d || 0x1c <= n <= 0x20 || n == 0x85 || n == 0xa0 || n == 0x1680
    || 0x2000 <= n <= 0x200a || n == 0x2028 || n == 0x2029 || n == 0x202f || n == 0x205f || n == 0x3000
  }

  function Strip(s: string): string {
    if s != "" && IsSpace(s[0]) then Strip(s[1..])
    else if s != "" && IsSpace(s[|s| - 1]) then Strip(s[..|s| - 1]) else s
  }

  /** `str.lower` on ASCII letters; no other character lowers to a letter of an operation name. */
  function Lower(s: string): (r: string)
    ensures |r| == |s|
  {
    seq(|s|, i requires 0 <= i < |s| => if 'A' <= s[i] <= 'Z' then (s[i] as int + 32) as char else s[i])
  }

  /**
   What the platform decides about text: which characters are printable, how a float, array or object reads
   as text, and the formats of timestamps and trace headers, which carry no key material.
   */
  datatype TextRules = TextRules(
    printable: char -> bool,
    otherText: Value -> string,
    readTimestamp: Value -> Option<int>,
    readTrace: Value -> Option<Trace>)

  /** `s.strip() == s`. */
  predicate Stripped(s: string) {
    s == "" || (!IsSpace(s[0]) && !IsSpace(s[|s| - 1]))
  }

  lemma StrippedIsUnchanged(s: string)
    ensures Stripped(s) <==> Strip(s) == s
  {
    StripShortens(s);
  }

  lemma {:induction false} StripShortens(s: string)
    ensures |Strip(s)| <= |s| && (|Strip(s)| == |s| ==> Stripped(s) && Strip(s) == s)
  {
    if s != "" && IsSpace(s[0]) { StripShortens(s[1..]); }
    else if s != "" && IsSpace(s[|s| - 1]) { StripShortens(s[..|s| - 1]); }
  }

  predicate SafeText(rules: TextRules, s: string, maximum: nat) {
    && Stripped(s)
    && 1 <= |s| <= maximum
    && forall i :: 0 <= i < |s| ==> rules.printable(s[i])
  }

  // ---- Delete filters ------------------------------------------------------

  /** The first place of a character, or the length of the text. */
  function Find(c: char, s: string): (i: nat)
    ensures i <= |s| && c !in s[..i] && (i < |s| ==> s[i] == c)
  {
    if s == "" || s[0] == c then 0 else 1 + Find(c, s[1..])
  }

  predicate IsFieldName(s: string) {
    && s != "" && !('0' <= s[0] <= '9') && s[0] != '.'
    && forall i :: 0 <= i < |s| ==> Alphanumeric(s[i]) || s[i] in "_."
  }

  /** One or more names, separated by commas. */
  predicate IsNameList(s: string) {
    var i := Find(',', s);
    IsName(s[..i]) && (i == |s| || IsNameList(s[i + 1..]))
  }

  predicate IsFilterValue(s: string) {
    IsName(s) || (|s| >= 2 && s[0] == '[' && s[|s| - 1] == ']' && IsNameList(s[1..|s| - 1]))
  }

  /** `(id:=<document>) && <tenant field>:=<value or list>`, for exactly this document. */
  predicate IsDeleteFilter(s: string, document: string) {
    var head := "(id:=" + document + ") && ";
    && head <= s
    && var rest := s[|head|..];
       var i := Find(':', rest);
       && IsFieldName(rest[..i]) && i + 2 <= |rest| && rest[i + 1] == '='
       && IsFilterValue(rest[i + 2..])
  }

  // ---- Keys ----------------------------------------------------------------

  function LogicalKey(id: Identity): string {
    id.tenant + [SEPARATOR] + id.collection + [SEPARATOR] + id.document
  }

  function KafkaKey(id: Identity): seq<Byte> {
    Utf8(LogicalKey(id))
  }

  predicate ValidIdentity(id: Identity) {
    && 1 <= |id.tenant| <= 256 && SEPARATOR !in id.tenant
    && IsName(id.collection)
    && IsDocumentId(id.document)
  }

  /** Two fields joined by a character that the first one cannot contain can be told apart. */
  lemma SplitAt(c: char, a: string, x: string, b: string, y: string)
    requires a + [c] + x == b + [c] + y
    requires c !in a && c !in b
    ensures a == b && x == y
  {
    var s := a + [c] + x;
    assert s[|a|] == c && s[|b|] == c;
    assert a == s[..|a|] && b == s[..|b|];
    assert x == s[|a| + 1..] && y == s[|b| + 1..];
  }

  lemma NamesHaveNoSeparator(id: Identity)
    requires ValidIdentity(id)
    ensures SEPARATOR !in id.collection && SEPARATOR !in id.document
  {
  }

  /** Different accepted identities have different logical keys. */
  lemma LogicalKeyInjective(id: Identity, other: Identity)
    requires ValidIdentity(id) && ValidIdentity(other)
    requires LogicalKey(id) == LogicalKey(other)
    ensures id == other
  {
    NamesHaveNoSeparator(id);
    NamesHaveNoSeparator(other);
    var rest := id.collection + [SEPARATOR] + id.document;
    var rest' := other.collection + [SEPARATOR] + other.document;
    assert LogicalKey(id) == id.tenant + [SEPARATOR] + rest;
    assert LogicalKey(other) == other.tenant + [SEPARATOR] + rest';
    SplitAt(SEPARATOR, id.tenant, rest, other.tenant, rest');
    SplitAt(SEPARATOR, id.collection, id.document, other.collection, other.document);
  }

  /** The same holds of the UTF-8 bytes used as Kafka keys. */
  lemma KafkaKeyInjective(id: Identity, other: Identity)
    requires ValidIdentity(id) && ValidIdentity(other)
    ensures KafkaKey(id) == KafkaKey(other) <==> id == other
  {
    if KafkaKey(id) == KafkaKey(other) {
      Utf8Injective(LogicalKey(id), LogicalKey(other));
      LogicalKeyInjective(id, other);
    }
  }

  // ---- Digest --------------------------------------------------------------

  /** What the digest covers: everything but diagnostics, with the targets in canonical order. */
  datatype Mutation = Mutation(
    eventId: string,
    identity: Identity,
    documentVersion: int,
    sequence: int,
    operation: Operation,
    routingRevision: int,
    rolloutId: Option<string>,
    targets: seq<string>,
    document: Option<Value>,
    deleteFilter: Option<string>)

  /** SHA-256 of canonical material; equal only for equal material. */
  datatype Digest = Sha256(mutation: Mutation)

  function EventDigest(e: Event): Digest {
    Sha256(Mutation(e.eventId, e.identity, e.documentVersion, e.sequence, e.operation, e.routingRevision,
                    e.rolloutId, Ordering.Sort(e.targets), e.document, e.deleteFilter))
  }

  /** Two deliveries ask for the same change: they may differ in target order, time and trace only. */
  ghost predicate SameMutation(e: Event, f: Event) {
    && e.(targets := [], occurredAt := 0, trace := f.trace) == f.(targets := [], occurredAt := 0)
    && multiset(e.targets) == multiset(f.targets)
  }

  /** The digest distinguishes mutations and nothing else. */
  lemma DigestBindsMutation(e: Event, f: Event)
    ensures EventDigest(e) == EventDigest(f) <==> SameMutation(e, f)
  {
    Ordering.SortEqualIffPermutation(e.targets, f.targets);
  }

  // ---- Parser --------------------------------------------------------------

  predicate PositiveInt(v: Value) {
    v.Int? && 1 <= v.number <= MAX_INT64
  }

  function ParseIdentity(rules: TextRules, v: Value): (id: Option<Identity>)
    ensures id.Some? ==> ValidIdentity(id.value)
  {
    if !v.Obj? || !(v.fields.Keys <= {"tenant_id", "collection", "document_id"}) then None
    else
      var tenant := Get(v.fields, "tenant_id");
      var collection := Get(v.fields, "collection");
      var document := Get(v.fields, "document_id");
      if && tenant.Str? && SafeText(rules, tenant.text, 256) && SEPARATOR !in tenant.text
         && collection.Str? && Stripped(collection.text) && IsName(collection.text)
         && document.Str? && Stripped(document.text) && IsDocumentId(document.text)
      then Some(Identity(tenant.text, collection.text, document.text))
      else None
  }

  /** Surrounding white space and case do not matter; anything but a string reads as no operation. */
  function ParseOperation(v: Value): Option<Operation> {
    var text := if v.Str? then Lower(Strip(v.text)) else "";
    if text == "upsert" then Some(Upsert)
    else if text == "delete" then Some(Delete)
    else if text == "tombstone" then Some(Tombstone) else None
  }

  /** `str(value or "")`. */
  function IdentifierText(rules: TextRules, v: Value): string {
    if !Truthy(v) then ""
    else
      match v
      case Str(s) => s
      case Int(n) => if n < 0 then "-" + Decimal(-n) else Decimal(n)
      case Bool(_) => "True"
      case _ => rules.otherText(v)
  }

  predicate IsIdentifier(v: Value, format: string -> bool) {
    v.Str? && Stripped(v.text) && format(v.text)
  }

  predicate DistinctTargets(items: seq<Value>) {
    forall i, j :: 0 <= i < j < |items| ==> items[i] != items[j]
  }

  function ParseTargets(v: Value): (targets: Option<seq<string>>)
    ensures targets.Some? ==>
      && |targets.value| > 0
      && Ordering.Distinct(targets.value)
      && forall i :: 0 <= i < |targets.value| ==> IsName(targets.value[i])
  {
    if && v.Arr? && v.items != []
       && (forall i :: 0 <= i < |v.items| ==> IsIdentifier(v.items[i], IsName))
       && DistinctTargets(v.items)
    then Some(seq(|v.items|, i requires 0 <= i < |v.items| && v.items[i].Str? => v.items[i].text))
    else None
  }

  /** The document and the delete filter that an operation may carry. */
  function ParseBody(rules: TextRules, operation: Operation, id: Identity, document: Value, filter: Value)
    : Option<(Option<Value>, Option<string>)>
  {
    if operation == Upsert then
      if && document.Obj? && document.fields != map[]
         && IdentifierText(rules, Get(document.fields, "id")) == id.document
         && filter.Null?
      then Some((Some(document), None))
      else None
    else if !document.Null? then None
    else if filter.Null? then Some((None, None))
    else if filter.Str? && SafeText(rules, filter.text, 1024) && IsDeleteFilter(filter.text, id.document) then
      Some((None, Some(filter.text)))
    else None
  }

  const V2_FIELDS := {"envelope_version", "event_id", "identity", "document_version", "sequence", "operation",
                      "routing_revision", "rollout_id", "target_clusters", "occurred_at", "trace", "document",
                      "delete_filter"}

  /** `value == 2` in Python, which a float also satisfies. */
  predicate IsVersionTwo(v: Value) {
    v == Int(2) || v == Real(2.0)
  }

  /** Every field of an accepted event is well formed. */
  predicate ValidEvent(e: Event) {
    && IsEventId(e.eventId)
    && ValidIdentity(e.identity)
    && 1 <= e.documentVersion <= MAX_INT64
    && 1 <= e.sequence <= MAX_INT64
    && 1 <= e.routingRevision <= MAX_INT64
    && |e.targets| > 0
    && (forall i, j :: 0 <= i < j < |e.targets| ==> e.targets[i] != e.targets[j])
    && (forall i :: 0 <= i < |e.targets| ==> IsName(e.targets[i]))
    && (e.rolloutId.Some? ==> IsName(e.rolloutId.value))
    && (e.operation == Upsert <==> e.document.Some?)
    && (e.deleteFilter.Some? ==> e.operation != Upsert && IsDeleteFilter(e.deleteFilter.value, e.identity.document))
  }

  /** `parse_indexing_event` with legacy events refused. */
  function ParseEvent(rules: TextRules, payload: Value): (event: Option<Event>)
    ensures event.Some? ==> ValidEvent(event.value)
  {
    if !payload.Obj? || !IsVersionTwo(Get(payload.fields, "envelope_version")) then None
    else if !(payload.fields.Keys <= V2_FIELDS) then None
    else
      var p := payload.fields;
      var eventId := Get(p, "event_id");
      var rollout := Get(p, "rollout_id");
      if !IsIdentifier(eventId, IsEventId)
         || !PositiveInt(Get(p, "document_version"))
         || !PositiveInt(Get(p, "sequence"))
         || !PositiveInt(Get(p, "routing_revision"))
         || !(rollout.Null? || IsIdentifier(rollout, IsName))
      then None
      else
        match (ParseIdentity(rules, Get(p, "identity")),
               ParseOperation(Get(p, "operation")),
               ParseTargets(Get(p, "target_clusters")),
               rules.readTimestamp(Get(p, "occurred_at")),
               rules.readTrace(Get(p, "trace")))
        case (Some(id), Some(operation), Some(targets), Some(occurredAt), Some(trace)) =>
          (match ParseBody(rules, operation, id, Get(p, "document"), Get(p, "delete_filter"))
           case Some(body) =>
             Some(Event(eventId.text, id, Get(p, "document_version").number, Get(p, "sequence").number,
                        operation, Get(p, "routing_revision").number,
                        if rollout.Null? then None else Some(rollout.text),
                        targets, occurredAt, trace, body.0, body.1))
           case None => None)
        case _ => None
  }
}
