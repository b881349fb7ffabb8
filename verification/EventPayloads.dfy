/** What the strict parser reads, said of the payload and the event together, and the payload that spells an event. */
module EventPayloads {
  import opened Json
  import opened EventEnvelope

  // ---- Formats -------------------------------------------------------------

  /** Letters, digits and the extra characters, within the given lengths. */
  ghost predicate Word(s: string, least: nat, most: nat, extra: string) {
    least <= |s| <= most
    && forall i :: 0 <= i < |s| ==> 'A' <= s[i] <= 'Z' || 'a' <= s[i] <= 'z' || '0' <= s[i] <= '9' || s[i] in extra
  }

  /** Printable, and without white space at either end. */
  ghost predicate SafelyWritten(rules: TextRules, s: string, most: nat) {
    && 1 <= |s| <= most && !IsSpace(s[0]) && !IsSpace(s[|s| - 1])
    && forall i :: 0 <= i < |s| ==> rules.printable(s[i])
  }

  ghost predicate Counter(n: int) {
    1 <= n <= 0x7fff_ffff_ffff_ffff
  }

  lemma WordsAreStripped(s: string, least: nat, most: nat, extra: string)
    requires Word(s, least, most, extra) && least >= 1 && forall c :: c in extra ==> !IsSpace(c)
    ensures Stripped(s)
  {
    assert forall i :: 0 <= i < |s| ==> !IsSpace(s[i]);
  }

  // ---- Delete filters ------------------------------------------------------

  /** Words separated by commas. */
  ghost predicate Listed(s: string, words: seq<string>)
    decreases |words|
  {
    && words != [] && Word(words[0], 1, 128, "_-")
    && if |words| == 1 then s == words[0]
       else |words[0]| < |s| && s[..|words[0]|] == words[0] && s[|words[0]|] == ',' && Listed(s[|words[0]| + 1..], words[1..])
  }

  ghost predicate FilterValue(value: string) {
    Word(value, 1, 128, "_-") || exists inner, words :: value == "[" + inner + "]" && Listed(inner, words)
  }

  ghost predicate FieldName(s: string) {
    s != "" && Word(s, 1, |s|, "_.") && !('0' <= s[0] <= '9') && s[0] != '.'
  }

  /** `(id:=<document>) && <field>:=<value>`. */
  ghost predicate FilterFor(s: string, document: string) {
    exists field, value :: s == "(id:=" + document + ") && " + field + ":=" + value && FieldName(field) && FilterValue(value)
  }

  lemma {:induction false} FoundAt(c: char, s: string, n: nat)
    requires n < |s| && s[n] == c && c !in s[..n]
    ensures Find(c, s) == n
    decreases n
  {
    if n > 0 {
      assert s[..n][0] == s[0] && s[1..][..n - 1] == s[..n][1..];
      FoundAt(c, s[1..], n - 1);
    }
  }

  lemma {:induction false} ListedIsList(s: string, words: seq<string>)
    requires Listed(s, words)
    ensures IsNameList(s)
    decreases |words|
  {
    var i := Find(',', s);
    var w := words[0];
    if |words| == 1 {
      assert ',' !in w;
    } else {
      FoundAt(',', s, |w|);
      ListedIsList(s[|w| + 1..], words[1..]);
    }
  }

  lemma {:induction false} ListIsListed(s: string) returns (words: seq<string>)
    requires IsNameList(s)
    ensures Listed(s, words)
    decreases |s|
  {
    var i := Find(',', s);
    if i == |s| {
      words := [s];
      assert s[..i] == s;
    } else {
      var rest := ListIsListed(s[i + 1..]);
      words := [s[..i]] + rest;
      assert words[1..] == rest;
    }
  }

  lemma ValuesAgree(value: string)
    ensures IsFilterValue(value) <==> FilterValue(value)
  {
    if |value| >= 2 && value[0] == '[' && value[|value| - 1] == ']' && IsNameList(value[1..|value| - 1]) {
      var inner := value[1..|value| - 1];
      var words := ListIsListed(inner);
      assert value == "[" + inner + "]";
    }
    if inner, words :| value == "[" + inner + "]" && Listed(inner, words) {
      ListedIsList(inner, words);
      assert value[1..|value| - 1] == inner;
    }
  }

  /** The filters that the parser accepts for a document. */
  lemma FiltersAgree(s: string, document: string)
    ensures IsDeleteFilter(s, document) <==> FilterFor(s, document)
  {
    if IsDeleteFilter(s, document) { ReadFilterIsWritten(s, document); }
    if field, value :| s == "(id:=" + document + ") && " + field + ":=" + value && FieldName(field) && FilterValue(value) {
      ValuesAgree(value);
      FilterIsRead(s, document, field, value);
    }
  }

  lemma ReadFilterIsWritten(s: string, document: string)
    requires IsDeleteFilter(s, document)
    ensures FilterFor(s, document)
  {
    var head := "(id:=" + document + ") && ";
    var rest := s[|head|..];
    var i := Find(':', rest);
    var field, value := rest[..i], rest[i + 2..];
    ValuesAgree(value);
    assert rest == field + ":=" + value;
    assert s == head + rest;
    assert s == "(id:=" + document + ") && " + field + ":=" + value;
    assert FieldName(field);
  }

  lemma FilterIsRead(s: string, document: string, field: string, value: string)
    requires s == "(id:=" + document + ") && " + field + ":=" + value && FieldName(field) && IsFilterValue(value)
    ensures IsDeleteFilter(s, document)
  {
    var head, rest := "(id:=" + document + ") && ", field + ":=" + value;
    assert s == head + rest && s[|head|..] == rest;
    var i := Find(':', rest);
    assert rest[..|field|] == field;
    FoundAt(':', rest, |field|);
    assert rest[..i] == field && rest[i + 2..] == value;
  }

  // ---- Keys ----------------------------------------------------------------

  /** A key reads back as tenant, collection and document, in this order. */
  lemma LogicalKeyReadsBack(id: Identity)
    requires ValidIdentity(id)
    ensures var key, unit := LogicalKey(id), 0x1f as char;
      && Find(unit, key) == |id.tenant| < |key| && key[..|id.tenant|] == id.tenant
      && var rest := key[|id.tenant| + 1..];
         Find(unit, rest) == |id.collection| < |rest| && rest[..|id.collection|] == id.collection
         && rest[|id.collection| + 1..] == id.document
  {
    NamesHaveNoSeparator(id);
    var key := LogicalKey(id);
    var rest := id.collection + [SEPARATOR] + id.document;
    assert key == id.tenant + ([SEPARATOR] + rest);
    assert key[..|id.tenant|] == id.tenant && key[|id.tenant| + 1..] == rest && rest[..|id.collection|] == id.collection;
    FoundAt(SEPARATOR, key, |id.tenant|);
    FoundAt(SEPARATOR, rest, |id.collection|);
  }

  // ---- Payloads ------------------------------------------------------------

  ghost predicate NamesOperation(v: Value, operation: Operation) {
    v.Str? && Lower(Strip(v.text)) == match operation { case Upsert => "upsert" case Delete => "delete" case Tombstone => "tombstone" }
  }

  ghost predicate ReadsIdentity(rules: TextRules, v: Value, id: Identity) {
    && v.Obj? && v.fields == map["tenant_id" := Str(id.tenant), "collection" := Str(id.collection), "document_id" := Str(id.document)]
    && SafelyWritten(rules, id.tenant, 256) && 0x1f as char !in id.tenant
    && Word(id.collection, 1, 128, "_-") && Word(id.document, 1, 256, "_.-")
  }

  ghost predicate ReadsTargets(v: Value, targets: seq<string>) {
    && v.Arr? && |v.items| == |targets| > 0
    && (forall i :: 0 <= i < |targets| ==> v.items[i] == Str(targets[i]) && Word(targets[i], 1, 128, "_-"))
    && forall i, j :: 0 <= i < j < |targets| ==> targets[i] != targets[j]
  }

  /** An upsert carries its document, under its own id; a delete or tombstone carries at most a filter for that id. */
  ghost predicate ReadsBody(rules: TextRules, document: Value, filter: Value, e: Event) {
    if e.operation == Upsert then
      && document.Obj? && document.fields != map[] && e.document == Some(document)
      && IdentifierText(rules, Get(document.fields, "id")) == e.identity.document
      && filter == Null && e.deleteFilter == None
    else
      && document == Null && e.document == None
      && (filter == Null ==> e.deleteFilter == None)
      && (filter != Null ==>
            && filter.Str? && e.deleteFilter == Some(filter.text)
            && SafelyWritten(rules, filter.text, 1024) && FilterFor(filter.text, e.identity.document))
  }

  /** The members that are single words or numbers, as the payload spells them. */
  ghost predicate SpellsMembers(p: map<string, Value>, e: Event) {
    && p.Keys <= {"envelope_version", "event_id", "identity", "document_version", "sequence", "operation", "routing_revision",
                  "rollout_id", "target_clusters", "occurred_at", "trace", "document", "delete_filter"}
    && (Get(p, "envelope_version") == Int(2) || Get(p, "envelope_version") == Real(2.0))
    && Get(p, "event_id") == Str(e.eventId) && Word(e.eventId, 8, 128, "_.:-")
    && Get(p, "document_version") == Int(e.documentVersion) && Counter(e.documentVersion)
    && Get(p, "sequence") == Int(e.sequence) && Counter(e.sequence)
    && Get(p, "routing_revision") == Int(e.routingRevision) && Counter(e.routingRevision)
    && (if e.rolloutId.None? then Get(p, "rollout_id") == Null
        else Get(p, "rollout_id") == Str(e.rolloutId.value) && Word(e.rolloutId.value, 1, 128, "_-"))
  }

  /** The payload spells the event. */
  ghost predicate Spells(rules: TextRules, p: map<string, Value>, e: Event) {
    && SpellsMembers(p, e)
    && ReadsIdentity(rules, Get(p, "identity"), e.identity)
    && NamesOperation(Get(p, "operation"), e.operation)
    && ReadsTargets(Get(p, "target_clusters"), e.targets)
    && rules.readTimestamp(Get(p, "occurred_at")) == Some(e.occurredAt)
    && rules.readTrace(Get(p, "trace")) == Some(e.trace)
    && ReadsBody(rules, Get(p, "document"), Get(p, "delete_filter"), e)
  }

  /** White space around a text is what `Strip` takes away. */
  lemma {:induction false} StripTakesSpaces(before: string, s: string, after: string)
    requires Stripped(s) && s != "" && forall c :: c in before + after ==> IsSpace(c)
    ensures Strip(before + s + after) == s
    decreases |before| + |after|
  {
    var t := before + s + after;
    if before != "" {
      assert t[0] in before + after && t[1..] == before[1..] + s + after;
      StripTakesSpaces(before[1..], s, after);
    } else if after != "" {
      var n := |after| - 1;
      assert t[|t| - 1] == after[n] && after[n] in before + after && t[..|t| - 1] == before + s + after[..n];
      StripTakesSpaces(before, s, after[..n]);
    } else {
      assert t == s;
    }
  }

  /** The name of an operation is read whatever its case and whatever white space surrounds it. */
  lemma OperationsAreRead(before: string, name: string, after: string)
    requires Stripped(name) && forall c :: c in before + after ==> IsSpace(c)
    ensures Lower(name) == "upsert" ==> ParseOperation(Str(before + name + after)) == Some(Upsert)
    ensures Lower(name) == "delete" ==> ParseOperation(Str(before + name + after)) == Some(Delete)
    ensures Lower(name) == "tombstone" ==> ParseOperation(Str(before + name + after)) == Some(Tombstone)
  {
    if name != "" { StripTakesSpaces(before, name, after); }
  }

  lemma IdentitiesAgree(rules: TextRules, v: Value, id: Identity)
    ensures ParseIdentity(rules, v) == Some(id) <==> ReadsIdentity(rules, v, id)
  {
    if ReadsIdentity(rules, v, id) {
      WordsAreStripped(id.collection, 1, 128, "_-");
      WordsAreStripped(id.document, 1, 256, "_.-");
    }
    if ParseIdentity(rules, v) == Some(id) {
      assert v.fields.Keys == {"tenant_id", "collection", "document_id"};
      assert v.fields == map["tenant_id" := Str(id.tenant), "collection" := Str(id.collection), "document_id" := Str(id.document)];
    }
  }

  lemma TargetsAgree(v: Value, targets: seq<string>)
    ensures ParseTargets(v) == Some(targets) <==> ReadsTargets(v, targets)
  {
    if ReadsTargets(v, targets) {
      forall i | 0 <= i < |targets| ensures IsIdentifier(v.items[i], IsName) { WordsAreStripped(targets[i], 1, 128, "_-"); }
      assert ParseTargets(v).Some?;
      assert ParseTargets(v).value == targets;
    }
  }

  lemma BodiesAgree(rules: TextRules, document: Value, filter: Value, e: Event)
    ensures ParseBody(rules, e.operation, e.identity, document, filter) == Some((e.document, e.deleteFilter))
       <==> ReadsBody(rules, document, filter, e)
  {
    if filter.Str? { FiltersAgree(filter.text, e.identity.document); }
  }

  /** What the parser reads from the members that are single words or numbers. */
  ghost predicate ReadsMembers(p: map<string, Value>, e: Event) {
    && IsVersionTwo(Get(p, "envelope_version")) && p.Keys <= V2_FIELDS
    && IsIdentifier(Get(p, "event_id"), IsEventId) && e.eventId == Get(p, "event_id").text
    && PositiveInt(Get(p, "document_version")) && e.documentVersion == Get(p, "document_version").number
    && PositiveInt(Get(p, "sequence")) && e.sequence == Get(p, "sequence").number
    && PositiveInt(Get(p, "routing_revision")) && e.routingRevision == Get(p, "routing_revision").number
    && var rollout := Get(p, "rollout_id");
       if rollout.Null? then e.rolloutId.None? else IsIdentifier(rollout, IsName) && e.rolloutId == Some(rollout.text)
  }

  ghost predicate ReadsParts(rules: TextRules, p: map<string, Value>, e: Event) {
    && ParseIdentity(rules, Get(p, "identity")) == Some(e.identity)
    && ParseOperation(Get(p, "operation")) == Some(e.operation)
    && ParseTargets(Get(p, "target_clusters")) == Some(e.targets)
    && rules.readTimestamp(Get(p, "occurred_at")) == Some(e.occurredAt)
    && rules.readTrace(Get(p, "trace")) == Some(e.trace)
    && ParseBody(rules, e.operation, e.identity, Get(p, "document"), Get(p, "delete_filter")) == Some((e.document, e.deleteFilter))
  }

  lemma ParsedInParts(rules: TextRules, p: map<string, Value>, e: Event)
    ensures ParseEvent(rules, Obj(p)) == Some(e) <==> ReadsMembers(p, e) && ReadsParts(rules, p, e)
  {
  }

  lemma MembersAgree(p: map<string, Value>, e: Event)
    ensures ReadsMembers(p, e) <==> SpellsMembers(p, e)
  {
    if SpellsMembers(p, e) {
      WordsAreStripped(e.eventId, 8, 128, "_.:-");
      if e.rolloutId.Some? { WordsAreStripped(e.rolloutId.value, 1, 128, "_-"); }
    }
  }

  /** The parser accepts exactly the payloads that spell an event, and reads that event. */
  lemma ParsesIffSpells(rules: TextRules, payload: Value, e: Event)
    ensures ParseEvent(rules, payload) == Some(e) <==> payload.Obj? && Spells(rules, payload.fields, e)
  {
    if payload.Obj? {
      ParsedInParts(rules, payload.fields, e);
      PartsAgree(rules, payload.fields, e);
    }
  }

  lemma PartsAgree(rules: TextRules, p: map<string, Value>, e: Event)
    ensures ReadsMembers(p, e) && ReadsParts(rules, p, e) <==> Spells(rules, p, e)
  {
    MembersAgree(p, e);
    IdentitiesAgree(rules, Get(p, "identity"), e.identity);
    TargetsAgree(Get(p, "target_clusters"), e.targets);
    BodiesAgree(rules, Get(p, "document"), Get(p, "delete_filter"), e);
  }

  // ---- The payload of an event ---------------------------------------------

  function OwnName(operation: Operation): string {
    match operation
    case Upsert => "upsert"
    case Delete => "delete"
    case Tombstone => "tombstone"
  }

  function IdentityValue(id: Identity): Value {
    Obj(map["tenant_id" := Str(id.tenant), "collection" := Str(id.collection), "document_id" := Str(id.document)])
  }

  function TargetValues(e: Event): seq<Value> {
    seq(|e.targets|, i requires 0 <= i < |e.targets| => Str(e.targets[i]))
  }

  function PayloadOf(e: Event, occurredAt: Value, trace: Value): map<string, Value> {
    map["envelope_version" := Int(2),
        "event_id" := Str(e.eventId),
        "identity" := IdentityValue(e.identity),
        "document_version" := Int(e.documentVersion),
        "sequence" := Int(e.sequence),
        "operation" := Str(OwnName(e.operation)),
        "routing_revision" := Int(e.routingRevision),
        "rollout_id" := if e.rolloutId.None? then Null else Str(e.rolloutId.value),
        "target_clusters" := Arr(TargetValues(e)),
        "occurred_at" := occurredAt,
        "trace" := trace,
        "document" := if e.document.None? then Null else e.document.value,
        "delete_filter" := if e.deleteFilter.None? then Null else Str(e.deleteFilter.value)]
  }

  /** Round trip: every event that the parser can produce is read back from its own payload. */
  lemma PayloadRoundTrip(rules: TextRules, payload: Value, e: Event)
    requires ParseEvent(rules, payload) == Some(e)
    ensures ParseEvent(rules, Obj(PayloadOf(e, Get(payload.fields, "occurred_at"), Get(payload.fields, "trace")))) == Some(e)
  {
    ParsesIffSpells(rules, payload, e);
    var p := PayloadOf(e, Get(payload.fields, "occurred_at"), Get(payload.fields, "trace"));
    OwnPayloadSpells(rules, payload.fields, e);
    ParsesIffSpells(rules, Obj(p), e);
  }

  lemma OwnPayloadSpells(rules: TextRules, q: map<string, Value>, e: Event)
    requires Spells(rules, q, e)
    ensures Spells(rules, PayloadOf(e, Get(q, "occurred_at"), Get(q, "trace")), e)
  {
    var p := PayloadOf(e, Get(q, "occurred_at"), Get(q, "trace"));
    PayloadMembers(e, Get(q, "occurred_at"), Get(q, "trace"));
    OwnNames(e.operation);
    OwnTargets(e);
    assert ReadsBody(rules, Get(p, "document"), Get(p, "delete_filter"), e);
  }

  lemma OwnTargets(e: Event)
    requires e.targets != [] && forall i :: 0 <= i < |e.targets| ==> Word(e.targets[i], 1, 128, "_-")
    requires forall i, j :: 0 <= i < j < |e.targets| ==> e.targets[i] != e.targets[j]
    ensures ReadsTargets(Arr(TargetValues(e)), e.targets)
  {
  }

  lemma PayloadMembers(e: Event, occurredAt: Value, trace: Value)
    ensures var p := PayloadOf(e, occurredAt, trace);
      && p.Keys == {"envelope_version", "event_id", "identity", "document_version", "sequence", "operation", "routing_revision",
                    "rollout_id", "target_clusters", "occurred_at", "trace", "document", "delete_filter"}
      && p["envelope_version"] == Int(2) && p["event_id"] == Str(e.eventId) && p["identity"] == IdentityValue(e.identity)
      && p["document_version"] == Int(e.documentVersion) && p["sequence"] == Int(e.sequence)
      && p["operation"] == Str(OwnName(e.operation)) && p["routing_revision"] == Int(e.routingRevision)
      && p["rollout_id"] == (if e.rolloutId.None? then Null else Str(e.rolloutId.value))
      && p["target_clusters"] == Arr(TargetValues(e)) && p["occurred_at"] == occurredAt && p["trace"] == trace
      && p["document"] == (if e.document.None? then Null else e.document.value)
      && p["delete_filter"] == (if e.deleteFilter.None? then Null else Str(e.deleteFilter.value))
  {
  }

  lemma OwnNames(operation: Operation)
    ensures NamesOperation(Str(OwnName(operation)), operation)
  {
    var text := OwnName(operation);
    StrippedIsUnchanged(text);
    assert Lower(text) == text;
  }
}
