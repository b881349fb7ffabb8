/** One event, quarantined and resolved: inputs at which the resolver falls short of the worker, or of its own order check. */
module QuarantineExamples {
  import opened Json
  import opened Encoding
  import opened EventEnvelope
  import opened DlqResolver

  const TIME := Str("2026-01-01T00:00:00Z")

  /** The platform prints letters and digits, and reads the one time stamp and an absent trace. */
  predicate Ordinary(rules: TextRules) {
    && (forall c :: Alphanumeric(c) ==> rules.printable(c))
    && rules.readTimestamp(TIME).Some? && rules.readTrace(Null).Some?
  }

  function IdentityFields(document: string): map<string, Value> {
    map["tenant_id" := Str("t"), "collection" := Str("c"), "document_id" := Str(document)]
  }

  /** An upsert of a document, with the operation and the id inside the document as given. */
  function Upserting(operation: string, document: string, id: Value): map<string, Value> {
    map["envelope_version" := Int(2),
        "event_id" := Str("event-01"),
        "identity" := Obj(IdentityFields(document)),
        "document_version" := Int(1),
        "sequence" := Int(1),
        "operation" := Str(operation),
        "routing_revision" := Int(1),
        "target_clusters" := Arr([Str("a")]),
        "occurred_at" := TIME,
        "document" := Obj(map["id" := id])]
  }

  /** The members of such an event, the absent ones included. */
  predicate IsUpserting(p: map<string, Value>, operation: string, document: string, id: Value) {
    && p.Keys <= V2_FIELDS
    && Get(p, "envelope_version") == Int(2) && Get(p, "event_id") == Str("event-01")
    && Get(p, "identity") == Obj(IdentityFields(document))
    && Get(p, "document_version") == Get(p, "sequence") == Get(p, "routing_revision") == Int(1)
    && Get(p, "operation") == Str(operation) && Get(p, "target_clusters") == Arr([Str("a")])
    && Get(p, "occurred_at") == TIME && Get(p, "document") == Obj(map["id" := id])
    && Get(p, "rollout_id") == Get(p, "trace") == Get(p, "delete_filter") == Null
  }

  lemma UpsertingHasItsFields(operation: string, document: string, id: Value)
    ensures IsUpserting(Upserting(operation, document, id), operation, document, id)
  {
  }

  lemma IdentityIsRead(rules: TextRules, document: string)
    requires Ordinary(rules) && IsDocumentId(document) && Stripped(document)
    ensures ParseIdentity(rules, Obj(IdentityFields(document))) == Some(Identity("t", "c", document))
  {
    var fields := IdentityFields(document);
    assert fields.Keys == {"tenant_id", "collection", "document_id"};
    assert Alphanumeric("t"[0]) && Alphanumeric("c"[0]);
  }

  lemma TargetsAreRead()
    ensures ParseTargets(Arr([Str("a")])) == Some(["a"])
  {
    var v := Arr([Str("a")]);
    assert Alphanumeric("a"[0]);
    assert forall i :: 0 <= i < |v.items| ==> IsIdentifier(v.items[i], IsName);
    assert DistinctTargets(v.items);
    assert ParseTargets(v).value == ["a"];
  }

  lemma BodyIsRead(rules: TextRules, document: string, id: Value)
    requires IdentifierText(rules, id) == document
    ensures ParseBody(rules, Upsert, Identity("t", "c", document), Obj(map["id" := id]), Null) == Some((Some(Obj(map["id" := id])), None))
  {
    var fields := map["id" := id];
    assert "id" in fields && Get(fields, "id") == id;
  }

  /** The worker accepts the event if its operation reads as an upsert and the id as the document's. */
  lemma WorkerAcceptsUpserting(rules: TextRules, p: map<string, Value>, operation: string, document: string, id: Value)
    requires Ordinary(rules) && IsDocumentId(document) && Stripped(document) && IsUpserting(p, operation, document, id)
    requires Lower(Strip(operation)) == "upsert" && IdentifierText(rules, id) == document
    ensures WorkerAccepts(rules, Obj(p), Some(KafkaKey(Identity("t", "c", document))))
    ensures ParseEvent(rules, Obj(p)).value.identity == Identity("t", "c", document)
  {
    IdentityIsRead(rules, document);
    TargetsAreRead();
    BodyIsRead(rules, document, id);
    assert IsIdentifier(Str("event-01"), IsEventId);
    assert ParseOperation(Get(p, "operation")) == Some(Upsert);
  }

  function Envelope(p: map<string, Value>, document: string): Parsed {
    Parsed("p_c", 0, 0, "TargetError", "", Obj(p), Some(KafkaKey(Identity("t", "c", document))))
  }

  lemma RefusedIfNotPlain(rules: TextRules, p: map<string, Value>, operation: string, document: string, id: Value, dlqTopic: Option<string>)
    requires IsUpserting(p, operation, document, id) && (operation !in OPERATIONS || (operation == "upsert" && id != Str(document)))
    ensures ValidateReplay(rules, Envelope(p, document), dlqTopic) == Ineligible("replay_payload_invalid")
  {
    assert Get(map["id" := id], "id") == id;
  }

  /** The worker accepts an operation in capitals; replay refuses the same payload. */
  lemma CapitalsAreRefused(rules: TextRules, dlqTopic: Option<string>)
    requires Ordinary(rules)
    ensures var envelope := Envelope(Upserting("UPSERT", "d", Str("d")), "d");
      && WorkerAccepts(rules, envelope.message, envelope.key)
      && ValidateReplay(rules, envelope, dlqTopic) == Ineligible("replay_payload_invalid")
  {
    var p := Upserting("UPSERT", "d", Str("d"));
    UpsertingHasItsFields("UPSERT", "d", Str("d"));
    CapitalsReadAsUpsert();
    assert Alphanumeric("d"[0]);
    WorkerAcceptsUpserting(rules, p, "UPSERT", "d", Str("d"));
    RefusedIfNotPlain(rules, p, "UPSERT", "d", Str("d"), dlqTopic);
  }

  lemma CapitalsReadAsUpsert()
    ensures Lower(Strip("UPSERT")) == "upsert" && "UPSERT" !in OPERATIONS
  {
    StrippedIsUnchanged("UPSERT");
    assert Lower("UPSERT") == "upsert";
  }

  /** The worker accepts a number as the document's id; replay refuses the same payload. */
  lemma NumbersAreRefused(rules: TextRules, dlqTopic: Option<string>)
    requires Ordinary(rules)
    ensures var envelope := Envelope(Upserting("upsert", "7", Int(7)), "7");
      && WorkerAccepts(rules, envelope.message, envelope.key)
      && ValidateReplay(rules, envelope, dlqTopic) == Ineligible("replay_payload_invalid")
  {
    var p := Upserting("upsert", "7", Int(7));
    UpsertingHasItsFields("upsert", "7", Int(7));
    PlainNames("upsert");
    assert Decimal(7) == "7";
    assert Alphanumeric("7"[0]);
    WorkerAcceptsUpserting(rules, p, "upsert", "7", Int(7));
    RefusedIfNotPlain(rules, p, "upsert", "7", Int(7), dlqTopic);
  }

  // ---- A replay with and without a stored offset ---------------------------

  const PLAIN := Identity("t", "c", "d")

  function PlainFailure(): Failure {
    FailureOf(Upserting("upsert", "d", Str("d")))
  }

  function FailureOf(p: map<string, Value>): Failure {
    Failure("p_c", "TargetError", "", Obj(p), BytesKey(KafkaKey(PLAIN)), Some(0), Some(0))
  }

  function ReplayCall(offset: nat): Call {
    Call(Replay, Selection("p_dlq", 0, offset, "p_c"), "op", true, "REPLAY-AND-COMMIT:p_dlq:0:" + Decimal(offset), "", "")
  }

  lemma {:induction false} AsciiLength(s: string)
    requires forall i :: 0 <= i < |s| ==> s[i] as int < 0x80
    ensures |Utf8(s)| == |s|
  {
    if s != "" { AsciiLength(s[1..]); }
  }

  lemma FailureIsWithinLimits(p: map<string, Value>, size: nat, maxBytes: nat)
    requires 1 <= size <= maxBytes
    ensures WithinLimits(FailureOf(p), size, maxBytes)
  {
    AsciiLength(LogicalKey(PLAIN));
    assert |LogicalKey(PLAIN)| == 5;
    assert IsTopic("p_c") && IsCode("TargetError") && Utf8("") == [];
  }

  lemma PlainIsPlain(rules: TextRules, p: map<string, Value>)
    requires Ordinary(rules) && IsUpserting(p, "upsert", "d", Str("d"))
    ensures PlainlyWritten(Obj(p), "d") && WorkerAccepts(rules, Obj(p), Some(KafkaKey(PLAIN)))
    ensures ParseEvent(rules, Obj(p)).value.identity == PLAIN
  {
    PlainNames("upsert");
    assert Alphanumeric("d"[0]);
    WorkerAcceptsUpserting(rules, p, "upsert", "d", Str("d"));
    assert Get(map["id" := Str("d")], "id") == Str("d");
  }

  lemma ItsTopicsMatch()
    ensures TopicsMatch("p_c", Some("p_dlq"), "c")
  {
    OwnTopicsMatch("p", "c");
    assert "p_c" == "p" + "_" + "c" && "p_dlq" == "p" + "_dlq";
  }

  lemma PlainIsReplayable(rules: TextRules, envelope: Parsed)
    requires envelope.sourceTopic == "p_c" && WorkerAccepts(rules, envelope.message, envelope.key)
    requires ParseEvent(rules, envelope.message).value.identity == PLAIN && PlainlyWritten(envelope.message, "d")
    ensures ValidateReplay(rules, envelope, Some("p_dlq")).Replayable?
  {
    ItsTopicsMatch();
    AcceptedIsReplayable(rules, envelope, Some("p_dlq"));
  }

  lemma FailureIsReplayable(rules: TextRules, p: map<string, Value>)
    requires Ordinary(rules) && IsUpserting(p, "upsert", "d", Str("d"))
    ensures ValidateReplay(rules, Reading(FailureOf(p)), Some("p_dlq")).Replayable?
  {
    PlainIsPlain(rules, p);
    PlainIsReplayable(rules, Reading(FailureOf(p)));
  }

  lemma FailureIsParsed(p: map<string, Value>, size: nat, maxBytes: nat)
    requires 1 <= size <= maxBytes
    ensures ParseDlqEnvelope(maxBytes, Raw(size, Some(Obj(Wrapper(FailureOf(p))))), "p_c") == Ok(Reading(FailureOf(p)))
  {
    FailureIsWithinLimits(p, size, maxBytes);
    QuarantineRoundTrip(FailureOf(p), size, maxBytes);
  }

  lemma ReplayCallIsConfirmed(offset: nat)
    ensures var call := ReplayCall(offset);
      ValidSelection(call.selection) && IsCode(call.operationId) && call.confirm == "REPLAY-AND-COMMIT:" + Token(call.selection)
  {
    assert IsTopic("p_c") && IsTopic("p_dlq") && IsCode("op");
    assert Decimal(0) == "0";
    assert Token(ReplayCall(offset).selection) == "p_dlq:0:" + Decimal(offset);
    assert "REPLAY-AND-COMMIT:" + ("p_dlq:0:" + Decimal(offset)) == "REPLAY-AND-COMMIT:p_dlq:0:" + Decimal(offset);
  }

  lemma ReplayIsDecided(offset: nat, fetch: Fetch, envelope: Parsed, verdict: Verdict)
    requires verdict.Replayable? && OrderError(fetch).None?
    ensures ValidSelection(ReplayCall(offset).selection) && DecideOn(ReplayCall(offset), fetch, envelope, verdict) == Send(envelope)
  {
    ReplayCallIsConfirmed(offset);
  }

  lemma ReplayIsPlanned(rules: TextRules, maxBytes: nat, offset: nat, end: int, raw: Raw, envelope: Parsed, committed: map<TopicPartition, int>)
    requires offset < end && ParseDlqEnvelope(maxBytes, raw, "p_c") == Ok(envelope)
    requires ValidateReplay(rules, envelope, Some("p_dlq")).Replayable?
    requires var p := TopicPartition("p_dlq", 0); p in committed ==> committed[p] == offset
    ensures PlanFor(rules, maxBytes, ReplayCall(offset), View(true, offset, end, Some(raw)), committed) == Send(envelope)
  {
    var fetch := Fetch(offset, offset, end, Lookup(committed, TopicPartition("p_dlq", 0)), raw);
    ReplayIsDecided(offset, fetch, envelope, ValidateReplay(rules, envelope, Some("p_dlq")));
    ReplayCallIsConfirmed(offset);
  }

  /**
   The same replay of the first retained record, acknowledged and flushed: with its offset stored it commits,
   with nothing stored it is sent and then fails.
   */
  lemma FirstReplayNeedsAStoredOffset(rules: TextRules, maxBytes: nat, offset: nat, end: int, size: nat)
    requires Ordinary(rules) && 1 <= size <= maxBytes && offset < end
    ensures var p, call := TopicPartition("p_dlq", 0), ReplayCall(offset);
      var view := View(true, offset, end, Some(Raw(size, Some(Obj(Wrapper(PlainFailure()))))));
      var seeded := Resolved(rules, maxBytes, call, view, Flushed("p_c"), Confirmed, map[p := offset], []);
      var unseeded := Resolved(rules, maxBytes, call, view, Flushed("p_c"), Confirmed, map[], []);
      && seeded.outcome == ReplayedAndCommitted && seeded.committed == map[p := offset + 1]
      && unseeded.outcome == Failed("concurrent_offset_change") && unseeded.committed == map[]
      && unseeded.sent == [SentFor(call, Reading(PlainFailure()))]
  {
    var event := Upserting("upsert", "d", Str("d"));
    UpsertingHasItsFields("upsert", "d", Str("d"));
    FailureIsReplayable(rules, event);
    FailureIsParsed(event, size, maxBytes);
    ResolvedBothWays(rules, maxBytes, offset, end, Raw(size, Some(Obj(Wrapper(FailureOf(event))))), Reading(FailureOf(event)));
  }

  lemma ResolvedBothWays(rules: TextRules, maxBytes: nat, offset: nat, end: int, raw: Raw, envelope: Parsed)
    requires offset < end && ParseDlqEnvelope(maxBytes, raw, "p_c") == Ok(envelope)
    requires ValidateReplay(rules, envelope, Some("p_dlq")).Replayable? && envelope.sourceTopic == "p_c"
    ensures var p, call, view := TopicPartition("p_dlq", 0), ReplayCall(offset), View(true, offset, end, Some(raw));
      var seeded := Resolved(rules, maxBytes, call, view, Flushed("p_c"), Confirmed, map[p := offset], []);
      var unseeded := Resolved(rules, maxBytes, call, view, Flushed("p_c"), Confirmed, map[], []);
      && seeded.outcome == ReplayedAndCommitted && seeded.committed == map[p := offset + 1]
      && unseeded.outcome == Failed("concurrent_offset_change") && unseeded.committed == map[]
      && unseeded.sent == [SentFor(call, envelope)]
  {
    var p, call, view := TopicPartition("p_dlq", 0), ReplayCall(offset), View(true, offset, end, Some(raw));
    ReplayIsPlanned(rules, maxBytes, offset, end, raw, envelope, map[p := offset]);
    ReplayIsPlanned(rules, maxBytes, offset, end, raw, envelope, map[]);
    assert map[p := offset][p := offset + 1] == map[p := offset + 1];
    assert [] + [SentFor(call, envelope)] == [SentFor(call, envelope)];
  }
}
