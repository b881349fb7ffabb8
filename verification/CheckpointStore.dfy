/**
 Per-target checkpoints of indexing events: what a checkpoint records, how an event is
 judged against it, and the two backends that advance it.
 */
module CheckpointStore {
  import opened Json
  import opened EventEnvelope

  datatype TargetCheckpoint = TargetCheckpoint(
    identityKey: string,
    tenant: string,
    collection: string,
    document: string,
    target: string,
    sequence: int,
    documentVersion: int,
    operation: Operation,
    eventId: string,
    digest: Digest,
    occurredAt: int,
    appliedAtMs: int,
    tombstone: bool,
    routingRevision: int,
    rolloutId: string)

  function CheckpointFromEvent(e: Event, target: string, appliedAtMs: int): TargetCheckpoint {
    TargetCheckpoint(LogicalKey(e.identity), e.identity.tenant, e.identity.collection, e.identity.document,
                     target, e.sequence, e.documentVersion, e.operation, e.eventId, EventDigest(e),
                     e.occurredAt, appliedAtMs, e.operation != Upsert, e.routingRevision,
                     if e.rolloutId.Some? then e.rolloutId.value else "")
  }

  // ---- Keys ----------------------------------------------------------------

  /** One physical copy of one document. */
  datatype Slot = Slot(identity: Identity, target: string)

  /** SHA-256 of key material; equal only for equal material. */
  datatype Key = Sha256Key(material: string)

  predicate ValidSlot(x: Slot) {
    ValidIdentity(x.identity) && IsName(x.target)
  }

  /** `checkpoint_id`. */
  function SlotKey(x: Slot): Key {
    Sha256Key(LogicalKey(x.identity) + [SEPARATOR] + x.target)
  }

  /** `checkpoint_document_id`. */
  function SavedKey(c: TargetCheckpoint): Key {
    Sha256Key(c.identityKey + [SEPARATOR] + c.target)
  }

  /** Fence keys and rows never conflate two copies. */
  lemma SlotKeyInjective(x: Slot, y: Slot)
    requires ValidSlot(x) && ValidSlot(y)
    ensures SlotKey(x) == SlotKey(y) <==> x == y
  {
    if SlotKey(x) == SlotKey(y) {
      var a := x.identity;
      var b := y.identity;
      NamesHaveNoSeparator(a);
      NamesHaveNoSeparator(b);
      var ra := a.collection + [SEPARATOR] + (a.document + [SEPARATOR] + x.target);
      var rb := b.collection + [SEPARATOR] + (b.document + [SEPARATOR] + y.target);
      assert LogicalKey(a) + [SEPARATOR] + x.target == a.tenant + [SEPARATOR] + ra;
      assert LogicalKey(b) + [SEPARATOR] + y.target == b.tenant + [SEPARATOR] + rb;
      SplitAt(SEPARATOR, a.tenant, ra, b.tenant, rb);
      SplitAt(SEPARATOR, a.collection, a.document + [SEPARATOR] + x.target, b.collection, b.document + [SEPARATOR] + y.target);
      SplitAt(SEPARATOR, a.document, x.target, b.document, y.target);
    }
  }

  /** The key an event looks under is the key its checkpoint is saved under. */
  lemma SavedUnderSlotKey(e: Event, target: string, appliedAtMs: int)
    ensures SavedKey(CheckpointFromEvent(e, target, appliedAtMs)) == SlotKey(Slot(e.identity, target))
    ensures SlotKey(Slot(e.identity, target)).material == LogicalKey(e.identity) + [0x1f as char] + target
  {
  }

  // ---- Classification ------------------------------------------------------

  datatype Verdict = Apply | Duplicate | Stale | OrderingError

  function Classify(e: Event, checkpoint: Option<TargetCheckpoint>): Verdict {
    match checkpoint
    case None => Apply
    case Some(c) =>
      var samePosition := e.sequence == c.sequence && e.documentVersion == c.documentVersion;
      if e.eventId == c.eventId then
        if samePosition && e.operation == c.operation && EventDigest(e) == c.digest then Duplicate
        else OrderingError
      else if samePosition then OrderingError
      else if e.sequence < c.sequence && e.documentVersion < c.documentVersion then Stale
      else if e.sequence <= c.sequence || e.documentVersion <= c.documentVersion then OrderingError
      else Apply
  }

  /** Both coordinates strictly smaller. */
  predicate Precedes(e: Event, f: Event) {
    e.sequence < f.sequence && e.documentVersion < f.documentVersion
  }

  /**
   Judged against the checkpoint of another event, a verdict is a comparison of the two events;
   target order, time of application and trace data play no part in it.
   */
  lemma ClassifyComparesEvents(e: Event, f: Event, target: string, appliedAtMs: int)
    ensures var v := Classify(e, Some(CheckpointFromEvent(f, target, appliedAtMs)));
      && (v == Duplicate <==> SameMutation(e, f))
      && (v == Apply <==> e.eventId != f.eventId && f.sequence < e.sequence && f.documentVersion < e.documentVersion)
      && (v == Stale <==> e.eventId != f.eventId && e.sequence < f.sequence && e.documentVersion < f.documentVersion)
  {
    DigestBindsMutation(e, f);
  }

  /** Judging is antisymmetric: one event is obsolete for the other exactly when the other supersedes it. */
  lemma StaleMirrorsApply(e: Event, f: Event, target: string, atE: int, atF: int)
    ensures Classify(e, Some(CheckpointFromEvent(f, target, atF))) == Stale
       <==> Classify(f, Some(CheckpointFromEvent(e, target, atE))) == Apply
    ensures Classify(e, Some(CheckpointFromEvent(f, target, atF))) == Duplicate
       <==> Classify(f, Some(CheckpointFromEvent(e, target, atE))) == Duplicate
  {
    ClassifyComparesEvents(e, f, target, atF);
    ClassifyComparesEvents(f, e, target, atE);
  }

  // ---- Stored checkpoints --------------------------------------------------

  /** The checkpoint is what some event with this mutation would have saved. */
  ghost predicate Faithful(c: TargetCheckpoint) {
    var m := c.digest.mutation;
    && ValidIdentity(m.identity)
    && IsName(c.target)
    && c.identityKey == LogicalKey(m.identity)
    && c.tenant == m.identity.tenant && c.collection == m.identity.collection && c.document == m.identity.document
    && (c.tombstone <==> m.operation == Delete || m.operation == Tombstone) && (c.tombstone <==> m.document.None?)
    && c.routingRevision == m.routingRevision && m.rolloutId == (if c.rolloutId == "" then None else Some(c.rolloutId))
    && c.eventId == m.eventId
    && c.sequence == m.sequence
    && c.documentVersion == m.documentVersion
    && c.operation == m.operation
  }

  /** Rows sit under their own key. */
  ghost predicate WellFiled(records: map<Key, TargetCheckpoint>) {
    forall k :: k in records ==> Faithful(records[k]) && SavedKey(records[k]) == k
  }

  function Lookup(records: map<Key, TargetCheckpoint>, k: Key): Option<TargetCheckpoint> {
    if k in records then Some(records[k]) else None
  }

  lemma FromEventIsFaithful(e: Event, target: string, appliedAtMs: int)
    requires ValidEvent(e) && IsName(target)
    ensures Faithful(CheckpointFromEvent(e, target, appliedAtMs))
  {
  }

  /** Both coordinates of `c` are strictly greater. */
  predicate Advances(old': TargetCheckpoint, c: TargetCheckpoint) {
    old'.sequence < c.sequence && old'.documentVersion < c.documentVersion
  }

  predicate SamePoint(a: TargetCheckpoint, b: TargetCheckpoint) {
    a.eventId == b.eventId && a.digest == b.digest && a.sequence == b.sequence && a.documentVersion == b.documentVersion
  }

  /** `_validate_advance`: what the in-memory backend accepts over the current row. */
  predicate MemoryAccepts(current: Option<TargetCheckpoint>, c: TargetCheckpoint) {
    current.None? || SamePoint(c, current.value) || Advances(current.value, c)
  }

  /** The compare-and-set predicate of the PostgreSQL upsert. */
  predicate PostgresAccepts(current: Option<TargetCheckpoint>, c: TargetCheckpoint) {
    || current.None?
    || (&& current.value.identityKey == c.identityKey
        && current.value.target == c.target
        && Advances(current.value, c))
  }

  /** A plan to apply is a promise that the save will be accepted, by either backend. */
  lemma ApplyIsAccepted(records: map<Key, TargetCheckpoint>, e: Event, target: string, appliedAtMs: int)
    requires WellFiled(records) && ValidEvent(e) && IsName(target)
    requires Classify(e, Lookup(records, SlotKey(Slot(e.identity, target)))) == Apply
    ensures var current := Lookup(records, SlotKey(Slot(e.identity, target)));
      var c := CheckpointFromEvent(e, target, appliedAtMs);
      MemoryAccepts(current, c) && PostgresAccepts(current, c)
  {
    var k := SlotKey(Slot(e.identity, target));
    if k in records {
      var c := records[k];
      SlotKeyInjective(Slot(c.digest.mutation.identity, c.target), Slot(e.identity, target));
    }
  }

  /** On rows of one key the backends differ only in whether saving the same point again is refused. */
  lemma BackendsDifferOnResaveOnly(current: TargetCheckpoint, c: TargetCheckpoint)
    requires Faithful(current) && Faithful(c) && SavedKey(current) == SavedKey(c)
    ensures PostgresAccepts(Some(current), c) ==> MemoryAccepts(Some(current), c)
    ensures MemoryAccepts(Some(current), c) && !PostgresAccepts(Some(current), c) <==> SamePoint(c, current)
  {
    SlotKeyInjective(Slot(current.digest.mutation.identity, current.target), Slot(c.digest.mutation.identity, c.target));
  }

  // ---- The in-memory backend -----------------------------------------------

  /** A commit that would move some row backwards. */
  predicate Regresses(current: Option<TargetCheckpoint>, c: TargetCheckpoint) {
    current.Some? && (c.sequence < current.value.sequence || c.documentVersion < current.value.documentVersion)
  }

  /** Neither number of `c` is smaller. */
  ghost predicate NotBefore(c: TargetCheckpoint, row: TargetCheckpoint) {
    row.sequence <= c.sequence && row.documentVersion <= c.documentVersion
  }

  /** Some of the staged rows have been written, each over a row that it does not precede. */
  ghost predicate Written(before: map<Key, TargetCheckpoint>, staged: map<Key, TargetCheckpoint>, done: set<Key>, records: map<Key, TargetCheckpoint>) {
    && (forall k :: k in done ==> k in staged && Lookup(records, k) == Some(staged[k]) && (k in before ==> NotBefore(staged[k], before[k])))
    && (forall k :: k !in done ==> Lookup(records, k) == Lookup(before, k))
  }

  lemma WriteOne(before: map<Key, TargetCheckpoint>, staged: map<Key, TargetCheckpoint>, done: set<Key>, records: map<Key, TargetCheckpoint>, k: Key)
    requires Written(before, staged, done, records) && k in staged && k !in done
    ensures Regresses(Lookup(records, k), staged[k]) <==> k in before && !NotBefore(staged[k], before[k])
    ensures !Regresses(Lookup(records, k), staged[k]) ==> Written(before, staged, done + {k}, records[k := staged[k]])
  {
    assert Lookup(records, k) == Lookup(before, k);
  }

  lemma WrittenKeepsRows(before: map<Key, TargetCheckpoint>, staged: map<Key, TargetCheckpoint>, done: set<Key>, records: map<Key, TargetCheckpoint>)
    requires Written(before, staged, done, records)
    ensures forall k :: Lookup(records, k) == Lookup(before, k) || (k in staged && Lookup(records, k) == Some(staged[k]))
    ensures forall k :: k in before ==> k in records && NotBefore(records[k], before[k])
    ensures done == staged.Keys ==> records == before + staged
  {
    forall k | k in before ensures k in records && NotBefore(records[k], before[k]) {
      assert Lookup(before, k) == Some(before[k]);
    }
    if done == staged.Keys { Merged(before, staged, records); }
  }

  lemma Merged(before: map<Key, TargetCheckpoint>, staged: map<Key, TargetCheckpoint>, after: map<Key, TargetCheckpoint>)
    requires forall k :: k in staged ==> Lookup(after, k) == Some(staged[k])
    requires forall k :: k !in staged ==> Lookup(after, k) == Lookup(before, k)
    ensures after == before + staged
  {
    forall k ensures Lookup(after, k) == Lookup(before + staged, k) {}
    SameLookups(after, before + staged);
  }

  lemma SameLookups(a: map<Key, TargetCheckpoint>, b: map<Key, TargetCheckpoint>)
    requires forall k :: Lookup(a, k) == Lookup(b, k)
    ensures a == b
  {
    assert forall k :: k in a <==> Lookup(a, k).Some?;
    assert forall k :: k in b <==> Lookup(b, k).Some?;
  }

  class InMemoryCheckpointStore {
    var records: map<Key, TargetCheckpoint>

    constructor ()
      ensures records == map[]
    {
      records := map[];
    }

    /** `_commit_staged`: writes the staged rows one by one and stops at the first that would regress. */
    method CommitStaged(staged: map<Key, TargetCheckpoint>) returns (ok: bool)
      modifies this
      ensures ok <==> forall k :: k in staged && k in old(records) ==> NotBefore(staged[k], old(records)[k])
      ensures ok ==> records == old(records) + staged
      ensures forall k :: Lookup(records, k) == Lookup(old(records), k) || (k in staged && Lookup(records, k) == Some(staged[k]))
      ensures forall k :: k in old(records) ==> k in records && NotBefore(records[k], old(records)[k])
    {
      var pending := staged.Keys;
      ghost var done := {};
      while pending != {}
        invariant done + pending == staged.Keys && done !! pending
        invariant Written(old(records), staged, done, records)
        decreases |pending|
      {
        var k :| k in pending;
        WriteOne(old(records), staged, done, records, k);
        if Regresses(Lookup(records, k), staged[k]) {
          WrittenKeepsRows(old(records), staged, done, records);
          return false;
        }
        records := records[k := staged[k]];
        pending := pending - {k};
        done := done + {k};
      }
      WrittenKeepsRows(old(records), staged, done, records);
      ok := true;
    }
  }

  /** The session an event works in while every one of its fences is held. */
  class EventSession {
    const store: InMemoryCheckpointStore
    const event: Event
    var staged: map<Key, TargetCheckpoint>

    constructor (store: InMemoryCheckpointStore, event: Event)
      ensures this.store == store && this.event == event && staged == map[]
    {
      this.store := store;
      this.event := event;
      staged := map[];
    }

    /** Staged progress is visible to later loads of the same session. */
    method Load(e: Event, target: string) returns (checkpoint: Option<TargetCheckpoint>, fenced: bool)
      ensures fenced <==> e.identity == event.identity && target in event.targets
      ensures fenced ==> checkpoint == Lookup(store.records + staged, SlotKey(Slot(e.identity, target)))
    {
      fenced := e.identity == event.identity && target in event.targets;
      var k := SlotKey(Slot(e.identity, target));
      checkpoint := if k in staged then Some(staged[k]) else Lookup(store.records, k);
    }

    method Save(c: TargetCheckpoint) returns (accepted: bool)
      modifies this
      ensures accepted <==> c.target in event.targets && MemoryAccepts(Lookup(store.records, SavedKey(c)), c)
      ensures accepted <==> c.target in event.targets && (SavedKey(c) in store.records ==>
        var row := store.records[SavedKey(c)];
        || (row.sequence < c.sequence && row.documentVersion < c.documentVersion)
        || (row.sequence == c.sequence && row.documentVersion == c.documentVersion && row.eventId == c.eventId && row.digest == c.digest))
      ensures staged == if accepted then old(staged)[SavedKey(c) := c] else old(staged)
    {
      accepted := c.target in event.targets && MemoryAccepts(Lookup(store.records, SavedKey(c)), c);
      if accepted { staged := staged[SavedKey(c) := c]; }
    }
  }
}
