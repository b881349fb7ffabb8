/**
 Quarantine and its undoing: the wrapper the worker publishes to the dead-letter topic, the resolver's strict
 reading of it, the decision on one explicitly selected record, and the offset ledger that concurrent resolver
 calls share.
 */
module DlqResolver {
  import opened Json
  import opened Encoding
  import opened EventEnvelope

  datatype Result<+T> = Ok(value: T) | Err(code: string)

  // ---- The worker's wrapper ------------------------------------------------

  /** A Kafka key as the worker may hold it; anything that is not bytes is quarantined as its text. */
  datatype MessageKey = NoKey | TextKey(text: string) | BytesKey(bytes: seq<Byte>)

  function RawKey(key: MessageKey): Option<seq<Byte>> {
    match key
    case NoKey => None
    case TextKey(text) => Some(Utf8(text))
    case BytesKey(bytes) => Some(bytes)
  }

  function OptionalInt(n: Option<int>): Value {
    if n.Some? then Int(n.value) else Null
  }

  /** What the worker knows about a message it could not process. */
  datatype Failure = Failure(
    sourceTopic: string,
    error: string,
    errorMessage: string,
    message: Value,
    key: MessageKey,
    partition: Option<int>,
    offset: Option<int>)

  /** `publish_to_dlq`, with the key in base64 (RFC 4648, section 4). */
  function Wrapper(f: Failure): map<string, Value> {
    var plain := map[
      "source_topic" := Str(f.sourceTopic),
      "error" := Str(f.error),
      "error_message" := Str(f.errorMessage),
      "message" := f.message,
      "source_partition" := OptionalInt(f.partition),
      "source_offset" := OptionalInt(f.offset)];
    match RawKey(f.key)
    case None => plain
    case Some(bytes) => plain["message_key" := Str(Base64(bytes))]["message_key_encoding" := Str("base64")]
  }

  // ---- Reading the wrapper -------------------------------------------------

  predicate IsTopic(s: string) {
    1 <= |s| <= 249 && forall i :: 0 <= i < |s| ==> Alphanumeric(s[i]) || s[i] in "._-"
  }

  /** Error classes, operation ids, reasons and approvers. */
  predicate IsCode(s: string) {
    1 <= |s| <= 128 && forall i :: 0 <= i < |s| ==> Alphanumeric(s[i]) || s[i] in "._:@-"
  }

  const MAX_ERROR_MESSAGE_BYTES := 16384
  const MAX_KEY_BYTES := 2048

  /** A record value: some bytes, and the strict JSON value that they spell, if any. */
  datatype Raw = NotBytes | Raw(size: nat, json: Option<Value>)

  datatype Parsed = Parsed(
    sourceTopic: string,
    partition: int,
    offset: int,
    error: string,
    errorMessage: string,
    message: Value,
    key: Option<seq<Byte>>)

  const REQUIRED := {"source_topic", "source_partition", "source_offset", "error", "error_message", "message"}
  const ALLOWED := REQUIRED + {"message_key", "message_key_encoding"}

  predicate NonNegative(v: Value) {
    v.Int? && v.number >= 0
  }

  function ParseKey(key: Value, encoding: Value): Result<Option<seq<Byte>>> {
    if key.Null? then if encoding.Null? then Ok(None) else Err("malformed_dlq_wrapper")
    else if !key.Str? || encoding != Str("base64") then Err("malformed_dlq_wrapper")
    else
      match Unbase64(key.text)
      case None => Err("malformed_dlq_wrapper")
      case Some(bytes) => if 1 <= |bytes| <= MAX_KEY_BYTES then Ok(Some(bytes)) else Err("malformed_dlq_wrapper")
  }

  /** `parse_dlq_envelope`. */
  function ParseDlqEnvelope(maxBytes: nat, raw: Raw, expectedSourceTopic: string): Result<Parsed> {
    if raw.NotBytes? then Err("malformed_dlq_value")
    else if raw.size == 0 || raw.size > maxBytes then Err("invalid_record_size")
    else if raw.json.None? then Err("malformed_dlq_json")
    else if !raw.json.value.Obj? then Err("malformed_dlq_wrapper")
    else
      var w := raw.json.value.fields;
      if !(REQUIRED <= w.Keys <= ALLOWED) then Err("malformed_dlq_wrapper")
      else if !w["source_topic"].Str? || !IsTopic(w["source_topic"].text) then Err("malformed_dlq_wrapper")
      else if w["source_topic"].text != expectedSourceTopic then Err("source_topic_mismatch")
      else if !NonNegative(w["source_partition"]) || !NonNegative(w["source_offset"]) then Err("malformed_dlq_wrapper")
      else if !w["error"].Str? || !IsCode(w["error"].text) then Err("malformed_dlq_wrapper")
      else if !w["error_message"].Str? || |Utf8(w["error_message"].text)| > MAX_ERROR_MESSAGE_BYTES then
        Err("malformed_dlq_wrapper")
      else
        match ParseKey(Get(w, "message_key"), Get(w, "message_key_encoding"))
        case Err(code) => Err(code)
        case Ok(key) =>
          Ok(Parsed(expectedSourceTopic, w["source_partition"].number, w["source_offset"].number,
                    w["error"].text, w["error_message"].text, w["message"], key))
  }

  /** The limits and formats the resolver insists on, said of the failure itself. */
  predicate WithinLimits(f: Failure, size: nat, maxBytes: nat) {
    && 1 <= size <= maxBytes
    && IsTopic(f.sourceTopic) && IsCode(f.error) && |Utf8(f.errorMessage)| <= MAX_ERROR_MESSAGE_BYTES
    && f.partition.Some? && f.partition.value >= 0 && f.offset.Some? && f.offset.value >= 0
    && (RawKey(f.key).Some? ==> 1 <= |RawKey(f.key).value| <= MAX_KEY_BYTES)
  }

  function Reading(f: Failure): Parsed
    requires f.partition.Some? && f.offset.Some?
  {
    Parsed(f.sourceTopic, f.partition.value, f.offset.value, f.error, f.errorMessage, f.message, RawKey(f.key))
  }

  lemma WrapperFields(f: Failure)
    ensures REQUIRED <= Wrapper(f).Keys <= ALLOWED
    ensures var w := Wrapper(f);
      && w["source_topic"] == Str(f.sourceTopic) && w["error"] == Str(f.error)
      && w["error_message"] == Str(f.errorMessage) && w["message"] == f.message
      && w["source_partition"] == OptionalInt(f.partition) && w["source_offset"] == OptionalInt(f.offset)
  {
  }

  lemma KeyRoundTrip(f: Failure)
    ensures var w := Wrapper(f);
      ParseKey(Get(w, "message_key"), Get(w, "message_key_encoding")) ==
        if RawKey(f.key).Some? && !(1 <= |RawKey(f.key).value| <= MAX_KEY_BYTES) then Err("malformed_dlq_wrapper")
        else Ok(RawKey(f.key))
  {
    if RawKey(f.key).Some? { Base64RoundTrip(RawKey(f.key).value); }
  }

  /** Reading what the worker quarantined recovers message, key bytes and source coordinates, exactly within the limits. */
  lemma QuarantineRoundTrip(f: Failure, size: nat, maxBytes: nat)
    ensures var r := ParseDlqEnvelope(maxBytes, Raw(size, Some(Obj(Wrapper(f)))), f.sourceTopic);
      && (r.Ok? <==> WithinLimits(f, size, maxBytes))
      && (r.Ok? ==> r.value == Reading(f))
  {
    WrapperFields(f);
    KeyRoundTrip(f);
  }

  // ---- Replay validation ---------------------------------------------------

  datatype ReplayMetadata = ReplayMetadata(eventId: string, logicalKey: seq<Byte>, operation: string, sequence: int, targets: nat)

  /** Testing an array or an object for membership in a set of names raises something other than a resolver error. */
  datatype Verdict = Replayable(metadata: ReplayMetadata) | Ineligible(code: string) | Crashes

  const OPERATIONS := {"upsert", "delete", "tombstone"}

  predicate StrictPositive(v: Value) {
    v.Int? && v.number >= 1
  }

  predicate ReplayIdentity(rules: TextRules, v: Value) {
    && v.Obj? && v.fields.Keys == {"tenant_id", "collection", "document_id"}
    && var tenant, collection, document := v.fields["tenant_id"], v.fields["collection"], v.fields["document_id"];
       && tenant.Str? && SafeText(rules, tenant.text, 256) && SEPARATOR !in tenant.text
       && collection.Str? && IsName(collection.text)
       && document.Str? && IsDocumentId(document.text)
  }

  predicate ReplayTargets(v: Value) {
    && v.Arr? && v.items != []
    && (forall i :: 0 <= i < |v.items| ==> v.items[i].Str? && IsName(v.items[i].text))
    && DistinctTargets(v.items)
  }

  predicate ReplayBody(p: map<string, Value>, operation: string, document: string) {
    if operation == "upsert" then
      && Get(p, "document").Obj? && Get(Get(p, "document").fields, "id") == Str(document)
      && Get(p, "delete_filter").Null?
    else Get(p, "document").Null?
  }

  predicate EndsWith(s: string, tail: string) {
    |tail| <= |s| && s[|s| - |tail|..] == tail
  }

  /** `validate_replay_payload`. */
  function ValidateReplay(rules: TextRules, envelope: Parsed, dlqTopic: Option<string>): Verdict {
    if !envelope.message.Obj? then Ineligible("replay_payload_invalid")
    else
      var p := envelope.message.fields;
      var eventId, identity, operation := Get(p, "event_id"), Get(p, "identity"), Get(p, "operation");
      if !IsVersionTwo(Get(p, "envelope_version"))
         || !eventId.Str? || !IsEventId(eventId.text)
         || !ReplayIdentity(rules, identity)
         || !StrictPositive(Get(p, "sequence"))
         || !StrictPositive(Get(p, "document_version"))
         || !StrictPositive(Get(p, "routing_revision"))
      then Ineligible("replay_payload_invalid")
      else if operation.Arr? || operation.Obj? then Crashes
      else if !operation.Str? || operation.text !in OPERATIONS
         || !ReplayTargets(Get(p, "target_clusters"))
         || !ReplayBody(p, operation.text, identity.fields["document_id"].text)
      then Ineligible("replay_payload_invalid")
      else
        var id := Identity(identity.fields["tenant_id"].text, identity.fields["collection"].text, identity.fields["document_id"].text);
        if envelope.key != Some(KafkaKey(id)) then Ineligible("replay_key_mismatch")
        else if !EndsWith(envelope.sourceTopic, "_" + id.collection) then Ineligible("replay_source_topic_mismatch")
        else if dlqTopic.Some?
          && dlqTopic.value != envelope.sourceTopic[..|envelope.sourceTopic| - |id.collection| - 1] + "_dlq"
        then Ineligible("replay_dlq_topic_mismatch")
        else Replayable(ReplayMetadata(eventId.text, KafkaKey(id), operation.text, Get(p, "sequence").number,
                                       |Get(p, "target_clusters").items|))
  }

  /** The worker accepts the payload, under this key. */
  predicate WorkerAccepts(rules: TextRules, payload: Value, key: Option<seq<Byte>>) {
    ParseEvent(rules, payload).Some? && key == Some(KafkaKey(ParseEvent(rules, payload).value.identity))
  }

  /** What replay asks beyond the worker: the plain operation name and, for an upsert, the document id as a string. */
  predicate PlainlyWritten(payload: Value, document: string) {
    && payload.Obj?
    && var operation := Get(payload.fields, "operation");
       && operation.Str? && operation.text in OPERATIONS
       && (operation.text == "upsert" ==>
             Get(payload.fields, "document").Obj? && Get(Get(payload.fields, "document").fields, "id") == Str(document))
  }

  predicate TopicsMatch(sourceTopic: string, dlqTopic: Option<string>, collection: string) {
    && EndsWith(sourceTopic, "_" + collection)
    && (dlqTopic.Some? ==> dlqTopic.value == sourceTopic[..|sourceTopic| - |collection| - 1] + "_dlq")
  }

  function IdentityIn(v: Value): Identity
    requires v.Obj? && {"tenant_id", "collection", "document_id"} <= v.fields.Keys
    requires v.fields["tenant_id"].Str? && v.fields["collection"].Str? && v.fields["document_id"].Str?
  {
    Identity(v.fields["tenant_id"].text, v.fields["collection"].text, v.fields["document_id"].text)
  }

  /** The fields that replay checks in the same way as the worker. */
  predicate CommonFields(rules: TextRules, p: map<string, Value>) {
    && IsVersionTwo(Get(p, "envelope_version"))
    && Get(p, "event_id").Str? && IsEventId(Get(p, "event_id").text)
    && ReplayIdentity(rules, Get(p, "identity"))
    && StrictPositive(Get(p, "sequence")) && StrictPositive(Get(p, "document_version")) && StrictPositive(Get(p, "routing_revision"))
    && ReplayTargets(Get(p, "target_clusters"))
  }

  /** An accepted identity is one that replay accepts, with the same reading. */
  lemma AcceptedIdentity(rules: TextRules, v: Value)
    requires ParseIdentity(rules, v).Some?
    ensures ReplayIdentity(rules, v) && ParseIdentity(rules, v).value == IdentityIn(v)
  {
  }

  lemma AcceptedFields(rules: TextRules, payload: Value)
    requires ParseEvent(rules, payload).Some?
    ensures payload.Obj? && CommonFields(rules, payload.fields)
    ensures var p, e := payload.fields, ParseEvent(rules, payload).value;
      && e.identity == IdentityIn(Get(p, "identity")) && e.eventId == Get(p, "event_id").text
      && e.sequence == Get(p, "sequence").number && |e.targets| == |Get(p, "target_clusters").items|
      && ParseOperation(Get(p, "operation")) == Some(e.operation)
      && ParseBody(rules, e.operation, e.identity, Get(p, "document"), Get(p, "delete_filter")).Some?
  {
    AcceptedIdentity(rules, Get(payload.fields, "identity"));
  }

  /** With the common fields and the key in order, replay turns on the operation, the body and the topics. */
  lemma ReplayDecides(rules: TextRules, envelope: Parsed, dlqTopic: Option<string>)
    requires envelope.message.Obj? && CommonFields(rules, envelope.message.fields)
    requires envelope.key == Some(KafkaKey(IdentityIn(Get(envelope.message.fields, "identity"))))
    ensures var p, verdict := envelope.message.fields, ValidateReplay(rules, envelope, dlqTopic);
      var id, operation := IdentityIn(Get(p, "identity")), Get(p, "operation");
      && (verdict.Replayable? <==>
            && operation.Str? && operation.text in OPERATIONS && ReplayBody(p, operation.text, id.document)
            && TopicsMatch(envelope.sourceTopic, dlqTopic, id.collection))
      && (verdict.Replayable? ==>
            && verdict.metadata.eventId == Get(p, "event_id").text && verdict.metadata.logicalKey == KafkaKey(id)
            && verdict.metadata.operation == operation.text && verdict.metadata.sequence == Get(p, "sequence").number
            && verdict.metadata.targets == |Get(p, "target_clusters").items|)
  {
  }

  /** The plain operation names read as themselves. */
  lemma PlainNames(text: string)
    requires text in OPERATIONS
    ensures Lower(Strip(text)) == text
  {
    StrippedIsUnchanged(text);
    assert forall i :: 0 <= i < |text| ==> Lower(text)[i] == text[i];
  }

  lemma AcceptedBody(rules: TextRules, p: map<string, Value>, id: Identity)
    requires Get(p, "operation").Str? && Get(p, "operation").text in OPERATIONS
    requires ParseOperation(Get(p, "operation")).Some?
    requires ParseBody(rules, ParseOperation(Get(p, "operation")).value, id, Get(p, "document"), Get(p, "delete_filter")).Some?
    ensures ReplayBody(p, Get(p, "operation").text, id.document) <==> PlainlyWritten(Obj(p), id.document)
  {
    PlainNames(Get(p, "operation").text);
  }

  /** A payload that the worker accepts is replayable exactly when it is plainly written and the topics match. */
  lemma AcceptedIsReplayable(rules: TextRules, envelope: Parsed, dlqTopic: Option<string>)
    requires WorkerAccepts(rules, envelope.message, envelope.key)
    ensures var e := ParseEvent(rules, envelope.message).value;
      var verdict := ValidateReplay(rules, envelope, dlqTopic);
      && (verdict.Replayable? <==>
            PlainlyWritten(envelope.message, e.identity.document) && TopicsMatch(envelope.sourceTopic, dlqTopic, e.identity.collection))
      && (verdict.Replayable? ==>
            && verdict.metadata.eventId == e.eventId && verdict.metadata.logicalKey == KafkaKey(e.identity)
            && verdict.metadata.sequence == e.sequence && verdict.metadata.targets == |e.targets|)
  {
    var p := envelope.message.fields;
    AcceptedFields(rules, envelope.message);
    ReplayDecides(rules, envelope, dlqTopic);
    if Get(p, "operation").Str? && Get(p, "operation").text in OPERATIONS {
      AcceptedBody(rules, p, IdentityIn(Get(p, "identity")));
    }
  }

  /**
   From quarantine to replay: an event that the worker accepts, read from its own topic and quarantined by any
   later failure, parses and replays exactly when it is plainly written.
   */
  lemma QuarantineIsReplayable(rules: TextRules, f: Failure, prefix: string, size: nat, maxBytes: nat)
    requires WithinLimits(f, size, maxBytes) && WorkerAccepts(rules, f.message, RawKey(f.key))
    requires f.sourceTopic == prefix + "_" + ParseEvent(rules, f.message).value.identity.collection
    ensures var r := ParseDlqEnvelope(maxBytes, Raw(size, Some(Obj(Wrapper(f)))), f.sourceTopic);
      && r.Ok?
      && (ValidateReplay(rules, r.value, Some(prefix + "_dlq")).Replayable? <==>
            PlainlyWritten(f.message, ParseEvent(rules, f.message).value.identity.document))
  {
    QuarantineRoundTrip(f, size, maxBytes);
    AcceptedIsReplayable(rules, Reading(f), Some(prefix + "_dlq"));
    OwnTopicsMatch(prefix, ParseEvent(rules, f.message).value.identity.collection);
  }

  lemma OwnTopicsMatch(prefix: string, collection: string)
    ensures TopicsMatch(prefix + "_" + collection, Some(prefix + "_dlq"), collection)
  {
    var topic := prefix + "_" + collection;
    assert topic == prefix + ("_" + collection);
    assert topic[..|topic| - |collection| - 1] == prefix;
  }

  // ---- One resolver call ---------------------------------------------------

  datatype TopicPartition = TopicPartition(topic: string, number: int)

  datatype Action = Inspect | DryRun | Replay | Disposition

  datatype Selection = Selection(dlqTopic: string, partition: int, offset: int, expectedSourceTopic: string)

  datatype Call = Call(
    action: Action,
    selection: Selection,
    operationId: string,
    commit: bool,
    confirm: string,
    reason: string,
    approver: string)

  predicate ValidSelection(s: Selection) {
    && IsTopic(s.dlqTopic) && IsTopic(s.expectedSourceTopic)
    && s.dlqTopic != s.expectedSourceTopic
    && s.partition >= 0 && s.offset >= 0
  }

  function Token(s: Selection): string
    requires ValidSelection(s)
  {
    s.dlqTopic + ":" + Decimal(s.partition) + ":" + Decimal(s.offset)
  }

  lemma PartsAreUnique(a: string, b: string, c: string, x: string, y: string, z: string)
    requires ':' !in a && ':' !in b && ':' !in x && ':' !in y
    ensures a + ":" + b + ":" + c == x + ":" + y + ":" + z ==> a == x && b == y && c == z
  {
    if a + ":" + b + ":" + c == x + ":" + y + ":" + z {
      var rest, rest' := b + [':'] + c, y + [':'] + z;
      assert a + ":" + b + ":" + c == a + [':'] + rest && x + ":" + y + ":" + z == x + [':'] + rest';
      SplitAt(':', a, rest, x, rest');
      SplitAt(':', b, c, y, z);
    }
  }

  /** A confirmation names one record: different selections have different tokens. */
  lemma TokenNamesOneRecord(s: Selection, t: Selection)
    requires ValidSelection(s) && ValidSelection(t)
    ensures Token(s) == Token(t) <==> s.dlqTopic == t.dlqTopic && s.partition == t.partition && s.offset == t.offset
  {
    DecimalLength(s.partition);
    DecimalLength(t.partition);
    PartsAreUnique(s.dlqTopic, Decimal(s.partition), Decimal(s.offset), t.dlqTopic, Decimal(t.partition), Decimal(t.offset));
    if Token(s) == Token(t) {
      DecimalInjective(s.partition, t.partition);
      DecimalInjective(s.offset, t.offset);
    }
  }

  /** What Kafka shows of the selected partition; `value` is the record at the selected offset when the poll returns it. */
  datatype View = View(present: bool, beginning: int, end: int, value: Option<Raw>)

  datatype Fetch = Fetch(offset: int, beginning: int, end: int, committed: Option<int>, value: Raw) {
    function ExpectedNext(): int {
      if committed.None? then beginning else committed.value
    }

    /** `resolution_order_eligible`. */
    predicate Eligible() {
      !(committed.Some? && committed.value < beginning) && offset == ExpectedNext()
    }
  }

  /** `_fetch_exact`. */
  function FetchExact(view: View, committed: Option<int>, offset: int): Result<Fetch> {
    if !view.present then Err("partition_not_found")
    else if offset < view.beginning then Err("offset_expired")
    else if offset >= view.end then Err("offset_not_available")
    else if view.value.None? then Err("exact_record_not_returned")
    else Ok(Fetch(offset, view.beginning, view.end, committed, view.value.value))
  }

  /** `_require_resolution_order`: the error it raises, if any. */
  function OrderError(f: Fetch): Option<string> {
    if f.committed.Some? && f.committed.value < f.beginning then Some("committed_offset_expired")
    else if f.offset != f.ExpectedNext() then Some("partition_order_violation")
    else None
  }

  /** The order check passes exactly on the reported eligibility; with an offset stored, only on that very offset. */
  lemma OrderIsEligibility(f: Fetch)
    ensures OrderError(f).None? <==> f.Eligible()
    ensures f.Eligible() && f.committed.Some? ==> f.committed == Some(f.offset)
  {
  }

  datatype Plan = Refuse(code: string) | Report(outcome: Outcome) | Send(envelope: Parsed) | Dispose

  datatype Outcome =
    | Inspected
    | Planned
    | ReplayedUncommitted
    | ReplayedAndCommitted
    | DispositionCommitted
    | Failed(code: string)

  /** Everything `resolve` decides before it touches Kafka again. */
  function Decide(rules: TextRules, maxBytes: nat, call: Call, fetched: Result<Fetch>): Plan {
    if !ValidSelection(call.selection) then Refuse("invalid_selector")
    else if !IsCode(call.operationId) then Refuse("invalid_operation_id")
    else if fetched.Err? then Refuse(fetched.code)
    else
      var fetch := fetched.value;
      match ParseDlqEnvelope(maxBytes, fetch.value, call.selection.expectedSourceTopic)
      case Err(code) => Refuse(code)
      case Ok(envelope) => DecideOn(call, fetch, envelope, ValidateReplay(rules, envelope, Some(call.selection.dlqTopic)))
  }

  function DecideOn(call: Call, fetch: Fetch, envelope: Parsed, verdict: Verdict): Plan
    requires ValidSelection(call.selection)
  {
    if verdict.Crashes? then Refuse("unexpected_resolver_failure")
    else
      match call.action
      case Inspect => if call.commit then Refuse("commit_not_allowed") else Report(Inspected)
      case DryRun =>
        if call.commit then Refuse("commit_not_allowed")
        else if OrderError(fetch).Some? then Refuse(OrderError(fetch).value)
        else if verdict.Ineligible? then Refuse(verdict.code)
        else Report(Planned)
      case Replay =>
        if OrderError(fetch).Some? then Refuse(OrderError(fetch).value)
        else if verdict.Ineligible? then Refuse(verdict.code)
        else if call.confirm != (if call.commit then "REPLAY-AND-COMMIT:" else "REPLAY:") + Token(call.selection) then
          Refuse("confirmation_mismatch")
        else Send(envelope)
      case Disposition =>
        if OrderError(fetch).Some? then Refuse(OrderError(fetch).value)
        else if !call.commit then Refuse("explicit_commit_required")
        else if !IsCode(call.reason) || !IsCode(call.approver) then Refuse("invalid_disposition")
        else if call.confirm != "DISPOSITION-AND-COMMIT:" + Token(call.selection) then Refuse("confirmation_mismatch")
        else Dispose
  }

  /** A replay that Kafka acknowledged on the source topic and flushed. */
  datatype Sent = Sent(partition: TopicPartition, offset: int, topic: string, key: Option<seq<Byte>>, message: Value, confirm: string)

  datatype Ack = Flushed(topic: string) | NotAcked

  /** A commit is confirmed, or fails with or without having been applied. */
  datatype CommitReply = Confirmed | Unconfirmed(applied: bool)

  function Lookup(committed: map<TopicPartition, int>, p: TopicPartition): Option<int> {
    if p in committed then Some(committed[p]) else None
  }

  /** `_commit_exact`, its check and its commit taken as one step. */
  function CommitExact(committed: map<TopicPartition, int>, p: TopicPartition, offset: int, reply: CommitReply)
    : (map<TopicPartition, int>, Option<string>)
  {
    if Lookup(committed, p) != Some(offset) then (committed, Some("concurrent_offset_change"))
    else
      (if reply == Unconfirmed(false) then committed else committed[p := offset + 1],
       if reply.Confirmed? then None else Some("offset_commit_failed"))
  }

  function Where(call: Call): TopicPartition {
    TopicPartition(call.selection.dlqTopic, call.selection.partition)
  }

  function SentFor(call: Call, envelope: Parsed): Sent {
    Sent(Where(call), call.selection.offset, envelope.sourceTopic, envelope.key, envelope.message, call.confirm)
  }

  datatype Resolution = Resolution(outcome: Outcome, committed: map<TopicPartition, int>, sent: seq<Sent>)

  /** What a call does once it has decided, if no other call overlaps it. */
  function Carried(plan: Plan, call: Call, ack: Ack, reply: CommitReply,
                   committed: map<TopicPartition, int>, sent: seq<Sent>): Resolution
  {
    match plan
    case Refuse(code) => Resolution(Failed(code), committed, sent)
    case Report(outcome) => Resolution(outcome, committed, sent)
    case Send(envelope) =>
      if ack.NotAcked? then Resolution(Failed("replay_ack_failed"), committed, sent)
      else if ack.topic != envelope.sourceTopic then Resolution(Failed("replay_ack_mismatch"), committed, sent)
      else
        var sent' := sent + [SentFor(call, envelope)];
        if !call.commit then Resolution(ReplayedUncommitted, committed, sent')
        else
          var (committed', error) := CommitExact(committed, Where(call), call.selection.offset, reply);
          Resolution(if error.None? then ReplayedAndCommitted else Failed(error.value), committed', sent')
    case Dispose =>
      var (committed', error) := CommitExact(committed, Where(call), call.selection.offset, reply);
      Resolution(if error.None? then DispositionCommitted else Failed(error.value), committed', sent)
  }

  function PlanFor(rules: TextRules, maxBytes: nat, call: Call, view: View, committed: map<TopicPartition, int>): Plan {
    Decide(rules, maxBytes, call, FetchExact(view, Lookup(committed, Where(call)), call.selection.offset))
  }

  function Resolved(rules: TextRules, maxBytes: nat, call: Call, view: View, ack: Ack, reply: CommitReply,
                    committed: map<TopicPartition, int>, sent: seq<Sent>): Resolution
  {
    Carried(PlanFor(rules, maxBytes, call, view, committed), call, ack, reply, committed, sent)
  }

  /** A confirmation names what is to be done, and the topic, partition and offset of the one record it is for. */
  ghost predicate ConfirmedAs(confirm: string, prefix: string, p: TopicPartition, offset: int) {
    && IsTopic(p.topic) && p.number >= 0 && offset >= 0
    && confirm == prefix + ":" + p.topic + ":" + Decimal(p.number) + ":" + Decimal(offset)
  }

  /** The operator confirmed exactly this: replaying, replaying and committing, or disposing of the selected record. */
  ghost predicate Confirms(call: Call) {
    match call.action
    case Replay => ConfirmedAs(call.confirm, if call.commit then "REPLAY-AND-COMMIT" else "REPLAY", Where(call), call.selection.offset)
    case Disposition => call.commit && ConfirmedAs(call.confirm, "DISPOSITION-AND-COMMIT", Where(call), call.selection.offset)
    case _ => false
  }

  /** The prefixes contain no colon, so what follows the first one is the token. */
  lemma ConfirmationNamesOneRecord(confirm: string, a: string, p: TopicPartition, m: int, b: string, q: TopicPartition, n: int)
    requires ':' !in a && ':' !in b && ConfirmedAs(confirm, a, p, m) && ConfirmedAs(confirm, b, q, n)
    ensures a == b && p == q && m == n
  {
    var x, y := p.topic + ":" + Decimal(p.number) + ":" + Decimal(m), q.topic + ":" + Decimal(q.number) + ":" + Decimal(n);
    Joined(a, p.topic, Decimal(p.number), Decimal(m));
    Joined(b, q.topic, Decimal(q.number), Decimal(n));
    assert confirm == a + [':'] + x && confirm == b + [':'] + y;
    SplitAt(':', a, x, b, y);
    DecimalLength(p.number);
    DecimalLength(q.number);
    PartsAreUnique(p.topic, Decimal(p.number), Decimal(m), q.topic, Decimal(q.number), Decimal(n));
    DecimalInjective(p.number, q.number);
    DecimalInjective(m, n);
  }

  /** What a record must have been for a call to be allowed past it. */
  ghost predicate Justified(rules: TextRules, maxBytes: nat, call: Call, view: View, plan: Plan) {
    && view.beginning <= call.selection.offset < view.end && view.value.Some? && Confirms(call)
    && match plan
       case Send(envelope) =>
         && call.action == Replay
         && ParseDlqEnvelope(maxBytes, view.value.value, call.selection.expectedSourceTopic) == Ok(envelope)
         && ValidateReplay(rules, envelope, Some(call.selection.dlqTopic)).Replayable?
       case Dispose => call.action == Disposition && call.commit && IsCode(call.reason) && IsCode(call.approver)
       case _ => false
  }

  /** The selected partition's offset moved by one, past the selected record, and no other offset moved. */
  predicate MovedByOne(call: Call, before: map<TopicPartition, int>, after: map<TopicPartition, int>) {
    && Where(call) in before && before[Where(call)] == call.selection.offset
    && after == before[Where(call) := call.selection.offset + 1]
  }

  class Group {
    /** The resolver group's offsets, and the replays that Kafka has acknowledged. */
    var committed: map<TopicPartition, int>
    var sent: seq<Sent>

    constructor (committed: map<TopicPartition, int>)
      ensures this.committed == committed && sent == []
    {
      this.committed, sent := committed, [];
    }

    method Commit(p: TopicPartition, offset: int, reply: CommitReply) returns (error: Option<string>)
      modifies this`committed
      ensures (committed, error) == CommitExact(old(committed), p, offset, reply)
      ensures committed == old(committed)
        || (p in old(committed) && old(committed)[p] == offset && committed == old(committed)[p := offset + 1])
      ensures error.None? <==> p in old(committed) && old(committed)[p] == offset && reply.Confirmed?
      ensures error.None? ==> committed == old(committed)[p := offset + 1]
    {
      if p !in committed || committed[p] != offset { return Some("concurrent_offset_change"); }
      if reply != Unconfirmed(false) { committed := committed[p := offset + 1]; }
      error := if reply.Confirmed? then None else Some("offset_commit_failed");
    }

    /** `resolve`. */
    method Resolve(rules: TextRules, maxBytes: nat, call: Call, view: View, ack: Ack, reply: CommitReply)
      returns (outcome: Outcome)
      modifies this
      ensures Resolution(outcome, committed, sent)
        == Resolved(rules, maxBytes, call, view, ack, reply, old(committed), old(sent))
      ensures committed == old(committed)
        || (MovedByOne(call, old(committed), committed) && call.commit
            && Justified(rules, maxBytes, call, view, PlanFor(rules, maxBytes, call, view, old(committed))))
      ensures outcome in {ReplayedAndCommitted, DispositionCommitted} ==> MovedByOne(call, old(committed), committed)
      ensures call.action in {Inspect, DryRun} ==> committed == old(committed) && sent == old(sent)
      ensures committed != old(committed) || sent != old(sent) ==>
        call.confirm == (match call.action
                         case Replay => if call.commit then "REPLAY-AND-COMMIT:" else "REPLAY:"
                         case _ => "DISPOSITION-AND-COMMIT:")
                        + Token(call.selection)
    {
      CallMovesByOne(rules, maxBytes, call, view, ack, reply, committed, sent);
      var fetched := FetchExact(view, Lookup(committed, Where(call)), call.selection.offset);
      match Decide(rules, maxBytes, call, fetched) {
        case Refuse(code) => return Failed(code);
        case Report(reported) => return reported;
        case Send(envelope) =>
          if ack.NotAcked? { return Failed("replay_ack_failed"); }
          if ack.topic != envelope.sourceTopic { return Failed("replay_ack_mismatch"); }
          sent := sent + [SentFor(call, envelope)];
          if !call.commit { return ReplayedUncommitted; }
          var error := Commit(Where(call), call.selection.offset, reply);
          outcome := if error.None? then ReplayedAndCommitted else Failed(error.value);
        case Dispose =>
          var error := Commit(Where(call), call.selection.offset, reply);
          outcome := if error.None? then DispositionCommitted else Failed(error.value);
      }
    }
  }

  // ---- Exactly when a call acts --------------------------------------------

  /** The call selects one retained record, by a topic, partition and offset that can be, and Kafka returns it. */
  ghost predicate Selects(call: Call, view: View) {
    var s := call.selection;
    && IsTopic(s.dlqTopic) && IsTopic(s.expectedSourceTopic) && s.dlqTopic != s.expectedSourceTopic
    && s.partition >= 0 && s.offset >= 0 && IsCode(call.operationId)
    && view.present && view.beginning <= s.offset < view.end && view.value.Some?
  }

  /** It is the next unresolved record of its partition: the stored offset, or without one the first retained. */
  ghost predicate IsNext(call: Call, view: View, committed: map<TopicPartition, int>) {
    if Where(call) in committed then committed[Where(call)] == call.selection.offset else call.selection.offset == view.beginning
  }

  function Read(maxBytes: nat, call: Call, view: View): Result<Parsed>
    requires view.value.Some?
  {
    ParseDlqEnvelope(maxBytes, view.value.value, call.selection.expectedSourceTopic)
  }

  /** What a call decides to do, for each of the four things it can do. */
  ghost predicate ActsExactlyIf(call: Call, view: View, committed: map<TopicPartition, int>, verdict: Verdict, plan: Plan) {
    && (plan.Send? <==> call.action == Replay && IsNext(call, view, committed) && verdict.Replayable? && Confirms(call))
    && (plan.Dispose? <==>
          && call.action == Disposition && IsNext(call, view, committed) && !verdict.Crashes?
          && IsCode(call.reason) && IsCode(call.approver) && Confirms(call))
    && (plan == Report(Planned) <==> call.action == DryRun && !call.commit && IsNext(call, view, committed) && verdict.Replayable?)
    && (plan == Report(Inspected) <==> call.action == Inspect && !call.commit && !verdict.Crashes?)
  }

  lemma DecisionActs(call: Call, view: View, committed: map<TopicPartition, int>, envelope: Parsed, verdict: Verdict)
    requires Selects(call, view)
    ensures var fetch := Fetch(call.selection.offset, view.beginning, view.end, Lookup(committed, Where(call)), view.value.value);
      var plan := DecideOn(call, fetch, envelope, verdict);
      ActsExactlyIf(call, view, committed, verdict, plan) && (plan.Send? ==> plan.envelope == envelope)
  {
    var fetch := Fetch(call.selection.offset, view.beginning, view.end, Lookup(committed, Where(call)), view.value.value);
    assert OrderError(fetch).None? <==> IsNext(call, view, committed);
    TokenIsWritten(call);
  }

  lemma Joined(prefix: string, a: string, b: string, c: string)
    ensures prefix + ":" + a + ":" + b + ":" + c == prefix + ":" + (a + ":" + b + ":" + c)
  {
  }

  lemma TokenIsWritten(call: Call)
    requires ValidSelection(call.selection)
    ensures call.action == Replay ==>
      (Confirms(call) <==> call.confirm == (if call.commit then "REPLAY-AND-COMMIT:" else "REPLAY:") + Token(call.selection))
    ensures call.action == Disposition ==>
      (Confirms(call) <==> call.commit && call.confirm == "DISPOSITION-AND-COMMIT:" + Token(call.selection))
  {
    var s := call.selection;
    Joined("REPLAY-AND-COMMIT", s.dlqTopic, Decimal(s.partition), Decimal(s.offset));
    Joined("REPLAY", s.dlqTopic, Decimal(s.partition), Decimal(s.offset));
    Joined("DISPOSITION-AND-COMMIT", s.dlqTopic, Decimal(s.partition), Decimal(s.offset));
    assert "REPLAY-AND-COMMIT" + ":" == "REPLAY-AND-COMMIT:" && "REPLAY" + ":" == "REPLAY:";
    assert "DISPOSITION-AND-COMMIT" + ":" == "DISPOSITION-AND-COMMIT:";
  }

  /**
   Exactly when a call sends, disposes, plans or inspects: it selected a retained record that reads as a quarantined
   message, and action, order, validation, reason, approver and confirmation are as they have to be.
   */
  lemma CallsAct(rules: TextRules, maxBytes: nat, call: Call, view: View, committed: map<TopicPartition, int>)
    ensures var plan := PlanFor(rules, maxBytes, call, view, committed);
      if Selects(call, view) && Read(maxBytes, call, view).Ok? then
        var envelope := Read(maxBytes, call, view).value;
        && ActsExactlyIf(call, view, committed, ValidateReplay(rules, envelope, Some(call.selection.dlqTopic)), plan)
        && (plan.Send? ==> plan.envelope == envelope)
      else plan.Refuse?
  {
    if Selects(call, view) && Read(maxBytes, call, view).Ok? {
      var envelope := Read(maxBytes, call, view).value;
      DecisionActs(call, view, committed, envelope, ValidateReplay(rules, envelope, Some(call.selection.dlqTopic)));
    }
  }

  /** What stands against a call, in the order in which it is looked at. */
  type Objections = seq<(bool, string)>

  ghost predicate FirstAt(objections: Objections, i: nat) {
    i < |objections| && objections[i].0 && forall j :: 0 <= j < i ==> !objections[j].0
  }

  /** The call is refused exactly if something stands against it, and under the name of the first such thing. */
  ghost predicate RefusedFor(plan: Plan, objections: Objections) {
    if plan.Refuse? then exists i: nat :: FirstAt(objections, i) && plan.code == objections[i].1
    else forall i :: 0 <= i < |objections| ==> !objections[i].0
  }

  ghost function AgainstSelection(call: Call, view: View): Objections {
    var s := call.selection;
    [(!IsTopic(s.dlqTopic) || !IsTopic(s.expectedSourceTopic) || s.dlqTopic == s.expectedSourceTopic || s.partition < 0 || s.offset < 0,
      "invalid_selector"),
     (!IsCode(call.operationId), "invalid_operation_id"),
     (!view.present, "partition_not_found"),
     (s.offset < view.beginning, "offset_expired"),
     (s.offset >= view.end, "offset_not_available"),
     (view.value.None?, "exact_record_not_returned")]
  }

  ghost function AgainstAction(call: Call, view: View, committed: map<TopicPartition, int>, verdict: Verdict): Objections {
    [(verdict.Crashes?, "unexpected_resolver_failure"),
     (call.commit && (call.action == Inspect || call.action == DryRun), "commit_not_allowed"),
     (call.action != Inspect && Where(call) in committed && committed[Where(call)] < view.beginning, "committed_offset_expired"),
     (call.action != Inspect && !IsNext(call, view, committed), "partition_order_violation"),
     (verdict.Ineligible? && (call.action == DryRun || call.action == Replay), if verdict.Ineligible? then verdict.code else ""),
     (call.action == Disposition && !call.commit, "explicit_commit_required"),
     (call.action == Disposition && !(IsCode(call.reason) && IsCode(call.approver)), "invalid_disposition"),
     ((call.action == Replay || call.action == Disposition) && !Confirms(call), "confirmation_mismatch")]
  }

  lemma DecisionIsNamed(call: Call, view: View, committed: map<TopicPartition, int>, envelope: Parsed, verdict: Verdict)
    requires Selects(call, view)
    ensures var fetch := Fetch(call.selection.offset, view.beginning, view.end, Lookup(committed, Where(call)), view.value.value);
      RefusedFor(DecideOn(call, fetch, envelope, verdict), AgainstAction(call, view, committed, verdict))
  {
    TokenIsWritten(call);
    var fetch := Fetch(call.selection.offset, view.beginning, view.end, Lookup(committed, Where(call)), view.value.value);
    var plan, against := DecideOn(call, fetch, envelope, verdict), AgainstAction(call, view, committed, verdict);
    assert IsNext(call, view, committed) <==> fetch.offset == fetch.ExpectedNext();
    if plan.Refuse? {
      var i :=
        if against[0].0 then 0 else if against[1].0 then 1 else if against[2].0 then 2 else if against[3].0 then 3
        else if against[4].0 then 4 else if against[5].0 then 5 else if against[6].0 then 6 else 7;
      assert FirstAt(against, i) && plan.code == against[i].1;
    }
  }

  /** A refused call is refused for the first thing that stands against it: its selection, the record, or the action. */
  lemma RefusalsAreNamed(rules: TextRules, maxBytes: nat, call: Call, view: View, committed: map<TopicPartition, int>)
    ensures var plan := PlanFor(rules, maxBytes, call, view, committed);
      if !Selects(call, view) then RefusedFor(plan, AgainstSelection(call, view))
      else
        match Read(maxBytes, call, view)
        case Err(code) => plan == Refuse(code)
        case Ok(envelope) =>
          RefusedFor(plan, AgainstAction(call, view, committed, ValidateReplay(rules, envelope, Some(call.selection.dlqTopic))))
  {
    if !Selects(call, view) {
      var against := AgainstSelection(call, view);
      var i :=
        if against[0].0 then 0 else if against[1].0 then 1 else if against[2].0 then 2
        else if against[3].0 then 3 else if against[4].0 then 4 else 5;
      assert FirstAt(against, i) && PlanFor(rules, maxBytes, call, view, committed) == Refuse(against[i].1);
    } else if Read(maxBytes, call, view).Ok? {
      var envelope := Read(maxBytes, call, view).value;
      DecisionIsNamed(call, view, committed, envelope, ValidateReplay(rules, envelope, Some(call.selection.dlqTopic)));
    }
  }

  /** A call sends or disposes only of the retained record it selected, and only if that record justifies it. */
  lemma OnlyJustifiedPlans(rules: TextRules, maxBytes: nat, call: Call, view: View, committed: map<TopicPartition, int>)
    ensures var plan := PlanFor(rules, maxBytes, call, view, committed);
      && (plan.Send? || plan.Dispose? ==> Justified(rules, maxBytes, call, view, plan))
      && (plan.Send? || plan.Dispose? ==> IsNext(call, view, committed))
      && (plan.Report? ==> call.action in {Inspect, DryRun} && plan.outcome in {Inspected, Planned})
  {
    CallsAct(rules, maxBytes, call, view, committed);
  }

  /** A replay takes the record's message and key, unchanged, back to the topic it came from. */
  ghost function ReplayOf(call: Call, envelope: Parsed): Sent {
    Sent(TopicPartition(call.selection.dlqTopic, call.selection.partition), call.selection.offset,
         envelope.sourceTopic, envelope.key, envelope.message, call.confirm)
  }

  lemma CarriedMovesByOne(plan: Plan, call: Call, ack: Ack, reply: CommitReply, committed: map<TopicPartition, int>, sent: seq<Sent>)
    ensures var r := Carried(plan, call, ack, reply, committed, sent);
      && (r.committed == committed || MovedByOne(call, committed, r.committed))
      && (r.committed != committed ==> plan.Dispose? || (plan.Send? && call.commit && r.sent != sent))
      && r.sent == (if plan.Send? && ack == Flushed(plan.envelope.sourceTopic) then sent + [ReplayOf(call, plan.envelope)] else sent)
      && (r.outcome in {ReplayedAndCommitted, DispositionCommitted} && !plan.Report? ==> MovedByOne(call, committed, r.committed))
  {
  }

  /**
   Whatever Kafka answers, a call leaves all offsets as they are or moves the selected partition's by one, past
   the selected record, which it then has replayed with acknowledgement or disposed of with reason and approver.
   Success means that it moved; inspection, dry runs and partitions without a stored offset never do.
   */
  lemma CallMovesByOne(rules: TextRules, maxBytes: nat, call: Call, view: View, ack: Ack, reply: CommitReply,
                       committed: map<TopicPartition, int>, sent: seq<Sent>)
    ensures var r := Resolved(rules, maxBytes, call, view, ack, reply, committed, sent);
      var plan := PlanFor(rules, maxBytes, call, view, committed);
      && (r.committed == committed || MovedByOne(call, committed, r.committed))
      && (r.committed != committed ==>
            Justified(rules, maxBytes, call, view, plan) && call.commit && (plan.Send? ==> r.sent != sent))
      && r.sent == (if plan.Send? && ack == Flushed(plan.envelope.sourceTopic) then sent + [ReplayOf(call, plan.envelope)] else sent)
      && (plan.Refuse? || plan.Report? ==> r.committed == committed && r.outcome == (if plan.Refuse? then Failed(plan.code) else plan.outcome))
      && (r.outcome in {ReplayedAndCommitted, DispositionCommitted} ==> MovedByOne(call, committed, r.committed))
      && (call.action in {Inspect, DryRun} ==> r.committed == committed && r.sent == sent)
  {
    var plan := PlanFor(rules, maxBytes, call, view, committed);
    OnlyJustifiedPlans(rules, maxBytes, call, view, committed);
    CarriedMovesByOne(plan, call, ack, reply, committed, sent);
  }

  /**
   On a partition without a stored offset the order check accepts the first retained record, but no commit can
   follow: a fully acknowledged replay-and-commit sends the record and then fails, and so does a disposition.
   */
  lemma NothingStoredNothingCommitted(rules: TextRules, maxBytes: nat, call: Call, view: View, ack: Ack, reply: CommitReply,
                                      committed: map<TopicPartition, int>, sent: seq<Sent>, envelope: Parsed)
    requires Where(call) !in committed && call.commit && ack == Flushed(envelope.sourceTopic)
    requires PlanFor(rules, maxBytes, call, view, committed) in {Send(envelope), Dispose}
    ensures call.selection.offset == view.beginning
    ensures var r := Resolved(rules, maxBytes, call, view, ack, reply, committed, sent);
      && r.outcome == Failed("concurrent_offset_change") && r.committed == committed
      && (call.action == Replay ==> r.sent == sent + [SentFor(call, envelope)])
  {
    OnlyJustifiedPlans(rules, maxBytes, call, view, committed);
  }

  /**
   A call that Kafka confirms throughout, once it has passed every check and asks to commit, succeeds exactly if
   the partition has a stored offset.
   */
  lemma ConfirmedCallsSucceedIffStored(rules: TextRules, maxBytes: nat, call: Call, view: View, ack: Ack, reply: CommitReply,
                                       committed: map<TopicPartition, int>, sent: seq<Sent>, envelope: Parsed)
    requires PlanFor(rules, maxBytes, call, view, committed) in {Send(envelope), Dispose}
    requires call.commit && ack == Flushed(envelope.sourceTopic) && reply == Confirmed
    ensures var r := Resolved(rules, maxBytes, call, view, ack, reply, committed, sent);
      && (r.outcome in {ReplayedAndCommitted, DispositionCommitted} <==> Where(call) in committed)
      && (Where(call) in committed ==> MovedByOne(call, committed, r.committed))
  {
    OnlyJustifiedPlans(rules, maxBytes, call, view, committed);
  }
}
