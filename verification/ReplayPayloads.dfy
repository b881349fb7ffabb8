/** Which records the resolver reads, and which of them it replays, said of the record and what is read from it together. */
module ReplayPayloads {
  import opened Json
  import opened Encoding
  import opened EventEnvelope
  import opened EventPayloads
  import opened DlqResolver

  // ---- The wrapper ---------------------------------------------------------

  ghost predicate SpellsKey(key: Value, encoding: Value, bytes: Option<seq<Byte>>) {
    if bytes.None? then key == Null && encoding == Null
    else key.Str? && encoding == Str("base64") && Unbase64(key.text) == bytes && 1 <= |bytes.value| <= 2048
  }

  /** The record is a wrapper of this reading. */
  ghost predicate SpellsWrapper(maxBytes: nat, raw: Raw, topic: string, r: Parsed) {
    && raw.Raw? && 1 <= raw.size <= maxBytes
    && raw.json.Some? && raw.json.value.Obj? && var w := raw.json.value.fields;
    && {"source_topic", "source_partition", "source_offset", "error", "error_message", "message"} <= w.Keys
    && w.Keys <= {"source_topic", "source_partition", "source_offset", "error", "error_message", "message", "message_key", "message_key_encoding"}
    && w["source_topic"] == Str(topic) && r.sourceTopic == topic && Word(topic, 1, 249, "._-")
    && w["source_partition"] == Int(r.partition) && r.partition >= 0
    && w["source_offset"] == Int(r.offset) && r.offset >= 0
    && w["error"] == Str(r.error) && Word(r.error, 1, 128, "._:@-")
    && w["error_message"] == Str(r.errorMessage) && |Utf8(r.errorMessage)| <= 16384
    && w["message"] == r.message
    && SpellsKey(Get(w, "message_key"), Get(w, "message_key_encoding"), r.key)
  }

  lemma KeysAgree(key: Value, encoding: Value, bytes: Option<seq<Byte>>)
    ensures ParseKey(key, encoding) == Ok(bytes) <==> SpellsKey(key, encoding, bytes)
  {
  }

  /** A record is read exactly if it is a wrapper, and as what it wraps. */
  lemma ReadsIffWrapped(maxBytes: nat, raw: Raw, topic: string, r: Parsed)
    ensures ParseDlqEnvelope(maxBytes, raw, topic) == Ok(r) <==> SpellsWrapper(maxBytes, raw, topic, r)
  {
    if raw.Raw? && raw.json.Some? && raw.json.value.Obj? {
      var w := raw.json.value.fields;
      KeysAgree(Get(w, "message_key"), Get(w, "message_key_encoding"), r.key);
    }
  }

  // ---- The message ---------------------------------------------------------

  ghost predicate SpellsCounter(v: Value) {
    v.Int? && v.number >= 1
  }

  ghost predicate SpellsBody(p: map<string, Value>, operation: string, document: string) {
    if operation == "upsert" then
      && Get(p, "document").Obj? && Get(Get(p, "document").fields, "id") == Str(document)
      && Get(p, "delete_filter") == Null
    else (operation == "delete" || operation == "tombstone") && Get(p, "document") == Null
  }

  /** The topic of a collection, and the dead-letter topic beside it. */
  ghost predicate TopicsBelong(source: string, dlq: Option<string>, prefix: string, collection: string) {
    source == prefix + "_" + collection && (dlq.None? || dlq.value == prefix + "_dlq")
  }

  /** The record may be replayed: an event of this identity, for these targets, under its own key and from its own topic. */
  ghost predicate Replays(rules: TextRules, r: Parsed, dlq: Option<string>, m: ReplayMetadata, id: Identity, targets: seq<string>, prefix: string) {
    && r.message.Obj? && var p := r.message.fields;
    && (Get(p, "envelope_version") == Int(2) || Get(p, "envelope_version") == Real(2.0))
    && Get(p, "event_id") == Str(m.eventId) && Word(m.eventId, 8, 128, "_.:-")
    && ReadsIdentity(rules, Get(p, "identity"), id)
    && Get(p, "sequence") == Int(m.sequence) && m.sequence >= 1
    && SpellsCounter(Get(p, "document_version")) && SpellsCounter(Get(p, "routing_revision"))
    && Get(p, "operation") == Str(m.operation)
    && ReadsTargets(Get(p, "target_clusters"), targets) && m.targets == |targets|
    && SpellsBody(p, m.operation, id.document)
    && r.key == Some(KafkaKey(id)) && m.logicalKey == KafkaKey(id)
    && TopicsBelong(r.sourceTopic, dlq, prefix, id.collection)
  }

  lemma ReplayIdentityAgrees(rules: TextRules, v: Value, id: Identity)
    ensures ReplayIdentity(rules, v) && IdentityIn(v) == id <==> ReadsIdentity(rules, v, id)
  {
    if ReplayIdentity(rules, v) && IdentityIn(v) == id {
      assert v.fields == map["tenant_id" := Str(id.tenant), "collection" := Str(id.collection), "document_id" := Str(id.document)];
    }
    if ReadsIdentity(rules, v, id) {
      assert v.fields.Keys == {"tenant_id", "collection", "document_id"};
    }
  }

  ghost function Names(v: Value): seq<string>
    requires ReplayTargets(v)
  {
    seq(|v.items|, i requires 0 <= i < |v.items| => v.items[i].text)
  }

  lemma ReplayTargetsAgree(v: Value, targets: seq<string>)
    ensures ReplayTargets(v) && Names(v) == targets <==> ReadsTargets(v, targets)
  {
    if ReplayTargets(v) && Names(v) == targets {
      forall i | 0 <= i < |targets| ensures v.items[i] == Str(targets[i]) && Word(targets[i], 1, 128, "_-") { }
    }
    if ReadsTargets(v, targets) {
      assert Names(v) == targets;
    }
  }

  lemma BelongingMatches(source: string, dlq: Option<string>, prefix: string, collection: string)
    requires TopicsBelong(source, dlq, prefix, collection)
    ensures TopicsMatch(source, dlq, collection)
  {
    assert source == prefix + ("_" + collection) && source[..|source| - |collection| - 1] == prefix;
  }

  lemma MatchingBelongs(source: string, dlq: Option<string>, collection: string) returns (prefix: string)
    requires TopicsMatch(source, dlq, collection)
    ensures TopicsBelong(source, dlq, prefix, collection)
  {
    prefix := source[..|source| - |collection| - 1];
    assert source == prefix + ("_" + collection);
  }

  /** What the check finds, once the identity and the targets are read. */
  lemma ReplayDecided(rules: TextRules, r: Parsed, dlq: Option<string>, m: ReplayMetadata)
    ensures ValidateReplay(rules, r, dlq) == Replayable(m) <==>
      && r.message.Obj? && CommonFields(rules, r.message.fields)
      && var p := r.message.fields; var id := IdentityIn(Get(p, "identity"));
      && Get(p, "operation") == Str(m.operation) && SpellsBody(p, m.operation, id.document)
      && r.key == Some(KafkaKey(id)) && TopicsMatch(r.sourceTopic, dlq, id.collection)
      && m == ReplayMetadata(Get(p, "event_id").text, KafkaKey(id), m.operation, Get(p, "sequence").number, |Get(p, "target_clusters").items|)
  {
  }

  /** A record is replayable exactly if it spells an event, for some identity, targets and topic prefix. */
  lemma ReplayableIffSpelled(rules: TextRules, r: Parsed, dlq: Option<string>, m: ReplayMetadata)
    ensures ValidateReplay(rules, r, dlq) == Replayable(m) <==> exists id, targets, prefix :: Replays(rules, r, dlq, m, id, targets, prefix)
  {
    ReplayDecided(rules, r, dlq, m);
    if ValidateReplay(rules, r, dlq) == Replayable(m) {
      var p := r.message.fields;
      var id, targets := IdentityIn(Get(p, "identity")), Names(Get(p, "target_clusters"));
      ReplayIdentityAgrees(rules, Get(p, "identity"), id);
      ReplayTargetsAgree(Get(p, "target_clusters"), targets);
      var prefix := MatchingBelongs(r.sourceTopic, dlq, id.collection);
      assert Replays(rules, r, dlq, m, id, targets, prefix);
    }
    if id, targets, prefix :| Replays(rules, r, dlq, m, id, targets, prefix) {
      ReplayIdentityAgrees(rules, Get(r.message.fields, "identity"), id);
      ReplayTargetsAgree(Get(r.message.fields, "target_clusters"), targets);
      BelongingMatches(r.sourceTopic, dlq, prefix, id.collection);
    }
  }
}
