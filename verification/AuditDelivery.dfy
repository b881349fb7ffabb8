/**
 Delivery of the tamper-evident audit chain: verification of pages, the durable cursor of one
 destination, and any number of delivery workers that race on it while the chain grows.
 */
module AuditDelivery {
  import opened Json

  // ---- The chain -----------------------------------------------------------

  /** What an audit event says. */
  datatype Body = Body(
    id: string,
    revision: Option<int>,
    timestamp: int,
    actor: string,
    action: string,
    resourceType: string,
    resourceId: string,
    status: string,
    requestId: string,
    details: Value)

  /** `build_audit_material`. */
  datatype Material = Material(body: Body, sequence: int, previousHash: Hash)

  /** SHA-256 of canonical material, equal only for equal material; or the all-zero start of the chain. */
  datatype Hash = ZeroHash | Sha256(material: Material)

  datatype Record = Record(body: Body, sequence: int, previousHash: Hash, eventHash: Hash)

  function RecordHash(r: Record): Hash {
    Sha256(Material(r.body, r.sequence, r.previousHash))
  }

  /** The hash that record i of a page must link to; for the length of the page, the hash it ends in. */
  function HashBefore(start: Hash, records: seq<Record>, i: nat): Hash
    requires i <= |records|
  {
    if i == 0 then start else records[i - 1].eventHash
  }

  function EndHash(start: Hash, records: seq<Record>): Hash {
    HashBefore(start, records, |records|)
  }

  predicate Fits(r: Record, sequence: int, previous: Hash) {
    r.sequence == sequence && r.previousHash == previous && r.eventHash == RecordHash(r)
  }

  /** Consecutive, linked and correctly hashed records that continue a given point of the chain. */
  ghost predicate Linked(after: int, start: Hash, records: seq<Record>)
    decreases |records|
  {
    records == [] || (Fits(records[0], after + 1, start) && Linked(after + 1, records[0].eventHash, records[1..]))
  }

  /** A record with the next number, which names the hash of the one before and is hashed over all that it says. */
  ghost predicate InPlace(after: int, start: Hash, records: seq<Record>, i: int)
    requires 0 <= i < |records|
  {
    var r := records[i];
    && r.sequence == after + 1 + i
    && r.previousHash == (if i == 0 then start else records[i - 1].eventHash)
    && r.eventHash == Sha256(Material(r.body, r.sequence, r.previousHash))
  }

  /** The same as `Linked`, place by place. */
  ghost predicate Chained(after: int, start: Hash, records: seq<Record>) {
    forall i :: 0 <= i < |records| ==> InPlace(after, start, records, i)
  }

  lemma {:induction false} LinkedIffChained(after: int, start: Hash, records: seq<Record>)
    ensures Linked(after, start, records) <==> Chained(after, start, records)
    decreases |records|
  {
    if Linked(after, start, records) {
      forall i | 0 <= i < |records| ensures InPlace(after, start, records, i) { LinkedAt(after, start, records, i); }
    } else if InPlace(after, start, records, 0) {
      var next, rest := records[0].eventHash, records[1..];
      LinkedIffChained(after + 1, next, rest);
      var i :| 0 <= i < |rest| && !InPlace(after + 1, next, rest, i);
      assert !InPlace(after, start, records, i + 1);
    }
  }

  /** `_verify_page`. */
  method VerifyPage(after: int, start: Hash, records: seq<Record>) returns (ok: bool)
    ensures ok <==> Linked(after, start, records)
    ensures ok <==> Chained(after, start, records)
  {
    LinkedIffChained(after, start, records);
    var previous, expected := start, after + 1;
    for i := 0 to |records|
      invariant Linked(after, start, records) <==> Linked(expected - 1, previous, records[i..])
    {
      var r := records[i];
      assert records[i..][1..] == records[i + 1..];
      if r.sequence != expected || r.previousHash != previous || RecordHash(r) != r.eventHash { return false; }
      previous, expected := r.eventHash, expected + 1;
    }
    ok := true;
  }

  /** Every record of a verified page fits its own place. */
  lemma {:induction false} LinkedAt(after: int, start: Hash, records: seq<Record>, i: nat)
    requires Linked(after, start, records) && i < |records|
    ensures Fits(records[i], after + 1 + i, HashBefore(start, records, i))
    decreases i
  {
    if i > 0 { LinkedAt(after + 1, records[0].eventHash, records[1..], i - 1); }
  }

  /** A page may be cut anywhere: it verifies exactly when both parts do, the second from where the first ends. */
  lemma {:induction false} LinkedSplits(after: int, start: Hash, a: seq<Record>, b: seq<Record>)
    ensures Linked(after, start, a + b) <==> Linked(after, start, a) && Linked(after + |a|, EndHash(start, a), b)
    decreases |a|
  {
    if a == [] {
      assert a + b == b;
    } else {
      assert (a + b)[1..] == a[1..] + b;
      LinkedSplits(after + 1, a[0].eventHash, a[1..], b);
    }
  }

  function Flatten(pages: seq<seq<Record>>): seq<Record> {
    if pages == [] then [] else pages[0] + Flatten(pages[1..])
  }

  /** Page-wise verification, each page from the end of the one before. */
  ghost predicate PagesVerify(after: int, start: Hash, pages: seq<seq<Record>>)
    decreases |pages|
  {
    pages == []
    || (Linked(after, start, pages[0]) && PagesVerify(after + |pages[0]|, EndHash(start, pages[0]), pages[1..]))
  }

  /** Page sizes do not matter: pages verify one after the other exactly when the whole verifies at once. */
  lemma {:induction false} PageIndependence(after: int, start: Hash, pages: seq<seq<Record>>)
    ensures PagesVerify(after, start, pages) <==> Linked(after, start, Flatten(pages))
    decreases |pages|
  {
    if pages != [] {
      PageIndependence(after + |pages[0]|, EndHash(start, pages[0]), pages[1..]);
      LinkedSplits(after, start, pages[0], Flatten(pages[1..]));
    }
  }

  /** The end hash of an accepted page pins down everything in it. */
  lemma {:induction false} ChainUniqueness(after: int, start: Hash, a: seq<Record>, b: seq<Record>)
    requires a != [] && b != [] && Linked(after, start, a) && Linked(after, start, b)
    requires EndHash(start, a) == EndHash(start, b)
    ensures a == b
    decreases |a|
  {
    var m, n := |a| - 1, |b| - 1;
    LinkedAt(after, start, a, m);
    LinkedAt(after, start, b, n);
    assert a[m] == b[n] && m == n;
    assert a == a[..m] + [a[m]] && b == b[..n] + [b[n]];
    if m > 0 {
      LinkedSplits(after, start, a[..m], [a[m]]);
      LinkedSplits(after, start, b[..n], [b[n]]);
      ChainUniqueness(after, start, a[..m], b[..n]);
    }
  }

  // ---- The cursor ----------------------------------------------------------

  datatype Cursor = Cursor(
    sequence: nat,
    hash: Hash,
    failures: nat,
    lastError: Option<string>,
    nextRetry: Option<int>)

  const START := Cursor(0, ZeroHash, 0, None, None)

  datatype Batch = Batch(after: nat, previousHash: Hash, records: seq<Record>)

  datatype Ack = Ack(sequence: int, hash: Hash)

  function ExactAck(b: Batch): Ack {
    Ack(b.after + |b.records|, EndHash(b.previousHash, b.records))
  }

  datatype Fetched = Ready(batch: Batch) | Deferred | IntegrityError

  function HashAt(chain: seq<Record>, n: nat): Hash
    requires n <= |chain|
  {
    HashBefore(ZeroHash, chain, n)
  }

  /** The cursor names a boundary of the chain. */
  predicate OnBoundary(chain: seq<Record>, c: Cursor) {
    if c.sequence == 0 then c.hash == ZeroHash else c.sequence <= |chain| && chain[c.sequence - 1].eventHash == c.hash
  }

  function Page(chain: seq<Record>, after: nat, limit: nat): seq<Record> {
    if after >= |chain| then [] else if after + limit <= |chain| then chain[after..after + limit] else chain[after..]
  }

  /** `next_batch`: the checkpoint and the head were read before the rows. */
  ghost function NextBatch(chain: seq<Record>, c: Cursor, head: nat, limit: nat, now: int): Fetched
    requires head <= |chain|
  {
    if !OnBoundary(chain, c) then IntegrityError
    else if c.nextRetry.Some? && c.nextRetry.value > now then Deferred
    else
      var records := Page(chain, c.sequence, limit);
      if head > c.sequence && records == [] then IntegrityError
      else if !Linked(c.sequence, c.hash, records) then IntegrityError
      else if records != [] && records[|records| - 1].sequence == head && records[|records| - 1].eventHash != HashAt(chain, head) then IntegrityError
      else if head < c.sequence then IntegrityError
      else Ready(Batch(c.sequence, c.hash, records))
  }

  /** The records that a page of the chain shows. */
  ghost predicate Shows(chain: seq<Record>, after: nat, limit: nat, records: seq<Record>) {
    after + |records| <= |chain| && records == chain[after..after + |records|]
    && |records| <= limit && (|records| < limit ==> after + |records| == |chain|)
  }

  lemma PageShows(chain: seq<Record>, after: nat, limit: nat)
    requires after <= |chain|
    ensures Shows(chain, after, limit, Page(chain, after, limit))
  {
  }

  /** The cursor names a record of the chain with its hash, or nothing has been delivered yet. */
  ghost predicate Known(chain: seq<Record>, c: Cursor) {
    if c.sequence == 0 then c.hash == ZeroHash else c.sequence <= |chain| && c.hash == chain[c.sequence - 1].eventHash
  }

  ghost predicate Waits(c: Cursor, now: int) {
    c.nextRetry.Some? && now < c.nextRetry.value
  }

  /** The batch is the page behind the cursor, chained to it. */
  ghost predicate ContinuesFrom(chain: seq<Record>, c: Cursor, limit: nat, b: Batch) {
    b.after == c.sequence && b.previousHash == c.hash && Shows(chain, c.sequence, limit, b.records) && Chained(c.sequence, c.hash, b.records)
  }

  ghost predicate BreaksBehind(chain: seq<Record>, c: Cursor, limit: nat) {
    exists page :: Shows(chain, c.sequence, limit, page) && !Chained(c.sequence, c.hash, page)
  }

  /**
   What a read of a possibly damaged chain answers: a waiting destination is left alone, and otherwise the next page is
   handed out exactly if it is chained to the cursor and the head that was read is not behind it.
   */
  lemma FetchIsDecided(chain: seq<Record>, c: Cursor, head: nat, limit: nat, now: int)
    requires limit >= 1 && head <= |chain|
    ensures var f := NextBatch(chain, c, head, limit, now);
      && (f == Deferred <==> Known(chain, c) && Waits(c, now))
      && (f == IntegrityError <==> !Known(chain, c) || (!Waits(c, now) && (BreaksBehind(chain, c, limit) || head < c.sequence)))
      && (f.Ready? ==> ContinuesFrom(chain, c, limit, f.batch))
  {
    if OnBoundary(chain, c) {
      var page := Page(chain, c.sequence, limit);
      PageShows(chain, c.sequence, limit);
      LinkedIffChained(c.sequence, c.hash, page);
      if Chained(c.sequence, c.hash, page) && page != [] {
        assert InPlace(c.sequence, c.hash, page, |page| - 1);
        assert page[|page| - 1] == chain[c.sequence + |page| - 1];
      }
      forall other | Shows(chain, c.sequence, limit, other) ensures other == page { }
    }
  }

  /** A repeated acknowledgement reports whether it names the cursor itself. */
  datatype Advanced = Moved | NotAhead(same: bool) | NotABoundary

  /** `advance`: forward only, and only to the hash the chain has at the acknowledged sequence. */
  function Advance(chain: seq<Record>, c: Cursor, ack: Ack): (Cursor, Advanced) {
    if ack.sequence < 1 then (c, NotABoundary)
    else if ack.sequence <= c.sequence then (c, NotAhead(ack.sequence == c.sequence && ack.hash == c.hash))
    else if ack.sequence > |chain| || chain[ack.sequence - 1].eventHash != ack.hash then (c, NotABoundary)
    else (Cursor(ack.sequence, ack.hash, 0, None, None), Moved)
  }

  /** What an acknowledgement does to the cursor, and how the call answers. */
  lemma AdvanceIsDecided(chain: seq<Record>, c: Cursor, ack: Ack)
    ensures var (after, result) := Advance(chain, c, ack);
      && (result == Moved <==> c.sequence < ack.sequence <= |chain| && chain[ack.sequence - 1].eventHash == ack.hash)
      && (result.NotAhead? <==> 1 <= ack.sequence <= c.sequence)
      && (result.NotAhead? ==> (result.same <==> ack.sequence == c.sequence && ack.hash == c.hash))
      && after == if result == Moved then Cursor(ack.sequence, ack.hash, 0, None, None) else c
  {
  }

  function RecordFailure(c: Cursor, code: string, retryAt: int): Cursor {
    c.(failures := c.failures + 1, lastError := Some(code), nextRetry := Some(retryAt))
  }

  // ---- Back-off ------------------------------------------------------------

  function Power2(n: nat): nat { if n == 0 then 1 else 2 * Power2(n - 1) }

  /** The wait after a failure, with the failures recorded so far. */
  function Delay(base: nat, max: nat, failures: nat): nat {
    if Grown(base, failures) < max then Grown(base, failures) else max
  }

  lemma {:induction false} Power2Grows(m: nat, n: nat)
    requires m <= n
    ensures 1 <= Power2(m) <= Power2(n)
    decreases n
  {
    if m < n { Power2Grows(m, n - 1); }
    else if n > 0 { Power2Grows(n - 1, n - 1); }
  }

  function Grown(base: nat, failures: nat): nat {
    base * Power2(if failures < 10 then failures else 10)
  }

  lemma GrownIsMonotone(base: nat, m: nat, n: nat)
    requires m <= n
    ensures base <= Grown(base, m) <= Grown(base, n)
  {
    var p, q := if m < 10 then m else 10, if n < 10 then n else 10;
    Power2Grows(p, q);
    Scale(base, 1, Power2(p));
    Scale(base, Power2(p), Power2(q));
  }

  lemma Scale(base: nat, x: nat, y: nat)
    requires x <= y
    ensures base * x <= base * y
  {
  }

  lemma GrownDoubles(base: nat, m: nat)
    requires m < 10
    ensures Grown(base, m + 1) == 2 * Grown(base, m)
  {
    var p := Power2(m);
    assert Power2(m + 1) == 2 * p;
    assert base * (2 * p) == 2 * (base * p);
  }

  /** Waits lie between the base and the cap, never shrink as failures repeat, and double until the cap. */
  lemma BackoffIsCappedAndMonotone(base: nat, max: nat, m: nat, n: nat)
    requires 1 <= base <= max && m <= n
    ensures base <= Delay(base, max, m) <= Delay(base, max, n) <= max
    ensures Delay(base, max, 0) == base
    ensures m < 10 ==> Delay(base, max, m + 1) == if 2 * Delay(base, max, m) < max then 2 * Delay(base, max, m) else max
    ensures m >= 10 ==> Delay(base, max, n) == Delay(base, max, m)
  {
    GrownIsMonotone(base, m, n);
    if m < 10 { GrownDoubles(base, m); }
  }

  // ---- The repository and the coordinator ----------------------------------

  class Repository {
    var chain: seq<Record>
    var cursor: Cursor

    constructor ()
      ensures chain == [] && cursor == START
    {
      chain, cursor := [], START;
    }

    method Fetch(limit: nat, now: int) returns (f: Fetched)
      ensures f == NextBatch(chain, cursor, |chain|, limit, now)
      ensures limit >= 1 ==> (f == Deferred <==> Known(chain, cursor) && Waits(cursor, now))
      ensures limit >= 1 ==> (f == IntegrityError <==> !Known(chain, cursor) || (!Waits(cursor, now) && BreaksBehind(chain, cursor, limit)))
      ensures limit >= 1 && f.Ready? ==> ContinuesFrom(chain, cursor, limit, f.batch)
    {
      if limit >= 1 { FetchIsDecided(chain, cursor, |chain|, limit, now); }
      var c, head := cursor, |chain|;
      if !OnBoundary(chain, c) { return IntegrityError; }
      if c.nextRetry.Some? && c.nextRetry.value > now { return Deferred; }
      var records := Page(chain, c.sequence, limit);
      if head > c.sequence && records == [] { return IntegrityError; }
      var ok := VerifyPage(c.sequence, c.hash, records);
      if !ok { return IntegrityError; }
      if records != [] && records[|records| - 1].sequence == head && records[|records| - 1].eventHash != HashAt(chain, head) {
        return IntegrityError;
      }
      if head < c.sequence { return IntegrityError; }
      f := Ready(Batch(c.sequence, c.hash, records));
    }

    method AdvanceTo(ack: Ack) returns (result: Advanced)
      modifies this`cursor
      ensures (cursor, result) == Advance(chain, old(cursor), ack)
      ensures result == Moved <==> old(cursor).sequence < ack.sequence <= |chain| && chain[ack.sequence - 1].eventHash == ack.hash
      ensures result.NotAhead? <==> 1 <= ack.sequence <= old(cursor).sequence
      ensures result.NotAhead? ==> (result.same <==> ack.sequence == old(cursor).sequence && ack.hash == old(cursor).hash)
      ensures cursor == if result == Moved then Cursor(ack.sequence, ack.hash, 0, None, None) else old(cursor)
    {
      if ack.sequence < 1 { return NotABoundary; }
      if ack.sequence <= cursor.sequence { return NotAhead(ack.sequence == cursor.sequence && ack.hash == cursor.hash); }
      if ack.sequence > |chain| || chain[ack.sequence - 1].eventHash != ack.hash { return NotABoundary; }
      cursor := Cursor(ack.sequence, ack.hash, 0, None, None);
      result := Moved;
    }
  }

  /** How a sink answers: it acknowledges something, or raises. */
  datatype Reply = Acked(ack: Ack) | SinkError(code: string) | Crashed

  /** A sink's answer, and the records it has durably taken by then. */
  datatype Answer = Answer(reply: Reply, taken: set<Record>)

  /** A sink that acknowledges exactly has taken the whole batch; one that answers anything else, any part of it. */
  function Taken(b: Batch, answer: Answer): set<Record> {
    var all := set r | r in b.records;
    if answer.reply == Acked(ExactAck(b)) then all else all * answer.taken
  }

  /** The reply names the last record of the batch. */
  ghost predicate Exact(b: Batch, reply: Reply)
    requires b.records != []
  {
    reply == Acked(Ack(b.after + |b.records|, b.records[|b.records| - 1].eventHash))
  }

  /**
   What becomes of the cursor `c`: it moves behind the batch and forgets its failures, or it stays, with one failure
   more, the reason, and the time before which nothing is tried again.
   */
  ghost predicate Answered(c: Cursor, b: Batch, reply: Reply, retryAt: int, after: Cursor)
    requires b.records != []
  {
    if Exact(b, reply) then
      after == Cursor(b.after + |b.records|, b.records[|b.records| - 1].eventHash, 0, None, None)
    else
      && after.sequence == c.sequence && after.hash == c.hash
      && after.failures == c.failures + 1 && after.nextRetry == Some(retryAt)
      && (reply.Acked? ==> after.lastError == Some("sink_ack_mismatch"))
      && (reply.SinkError? ==> after.lastError == Some(reply.code))
      && (reply.Crashed? ==> after.lastError == Some("sink_unexpected_error"))
  }

  /** The page just read is a stretch of the chain, so that acknowledging its last record moves the cursor. */
  lemma FetchedIsABoundary(chain: seq<Record>, c: Cursor, limit: nat, now: int)
    requires NextBatch(chain, c, |chain|, limit, now).Ready? && NextBatch(chain, c, |chain|, limit, now).batch.records != []
    ensures var b := NextBatch(chain, c, |chain|, limit, now).batch;
      && b.after == c.sequence && b.after + |b.records| <= |chain|
      && chain[b.after + |b.records| - 1] == b.records[|b.records| - 1]
  {
    PageShows(chain, c.sequence, limit);
  }

  class Coordinator {
    const repository: Repository
    const base: nat
    const max: nat
    /** What the sink has accepted. */
    ghost var accepted: set<Record>

    constructor (repository: Repository, base: nat, max: nat)
      requires 1 <= base <= max
      ensures this.repository == repository && this.base == base && this.max == max && accepted == {}
    {
      this.repository, this.base, this.max := repository, base, max;
      accepted := {};
    }

    /** `deliver_once`, when no other worker runs: the cursor moves over the batch, or the failure is recorded. */
    method DeliverOnce(limit: nat, now: int, sink: Batch -> Answer) returns (f: Fetched)
      requires 1 <= base <= max && repository as object != this
      modifies this`accepted, repository`cursor
      ensures f == NextBatch(repository.chain, old(repository.cursor), |repository.chain|, limit, now)
      ensures f.Ready? && f.batch.records != [] ==> accepted == old(accepted) + Taken(f.batch, sink(f.batch))
      ensures f.Ready? && f.batch.records != [] ==>
        Answered(old(repository.cursor), f.batch, sink(f.batch).reply, now + Delay(base, max, old(repository.cursor).failures),
                 repository.cursor)
      ensures !(f.Ready? && f.batch.records != []) ==> repository.cursor == old(repository.cursor) && accepted == old(accepted)
    {
      f := repository.Fetch(limit, now);
      if !f.Ready? || f.batch.records == [] { return; }
      FetchedIsABoundary(repository.chain, repository.cursor, limit, now);
      var code: Option<string> := None;
      accepted := accepted + Taken(f.batch, sink(f.batch));
      match sink(f.batch).reply {
        case Acked(ack) =>
          if ack != ExactAck(f.batch) {
            code := Some("sink_ack_mismatch");
          } else {
            var result := repository.AdvanceTo(ack);
            if result == NotABoundary { code := Some("sink_unexpected_error"); }
          }
        case SinkError(c) => code := Some(c);
        case Crashed => code := Some("sink_unexpected_error");
      }
      if code.Some? {
        var retryAt := now + Delay(base, max, repository.cursor.failures);
        repository.cursor := RecordFailure(repository.cursor, code.value, retryAt);
      }
    }
  }

  // ---- Racing workers ------------------------------------------------------

  /** A worker's progress through one delivery; what it read may be out of date by the time it is used. */
  datatype Worker =
    | HasCursor(cursor: Cursor)
    | HasHead(cursor: Cursor, head: nat)
    | HasBatch(batch: Batch)
    | HasAck(batch: Batch)
    | MustReport(code: string)

  datatype State = State(chain: seq<Record>, cursor: Cursor, accepted: set<Record>, workers: map<nat, Worker>)

  datatype Action =
    | Append(body: Body)
    | ReadCursor(worker: nat)
    | ReadHead(worker: nat)
    | ReadRows(worker: nat, limit: nat, now: int)
    | Deliver(worker: nat, answer: Answer)
    | Commit(worker: nat)
    | Report(worker: nat, retryAt: int)

  /** The next record as the control plane writes it. */
  function NextRecord(chain: seq<Record>, body: Body): Record {
    var previous := EndHash(ZeroHash, chain);
    var sequence := |chain| + 1;
    Record(body, sequence, previous, Sha256(Material(body, sequence, previous)))
  }

  ghost predicate Enabled(s: State, a: Action) {
    match a
    case Append(_) => true
    case ReadCursor(w) => w !in s.workers
    case ReadHead(w) => w in s.workers && s.workers[w].HasCursor?
    case ReadRows(w, limit, _) => w in s.workers && s.workers[w].HasHead? && s.workers[w].head <= |s.chain| && limit >= 1
    case Deliver(w, _) => w in s.workers && s.workers[w].HasBatch?
    case Commit(w) => w in s.workers && s.workers[w].HasAck?
    case Report(w, _) => w in s.workers && s.workers[w].MustReport?
  }

  function Put(s: State, w: nat, worker: Worker): State {
    s.(workers := s.workers[w := worker])
  }

  function Done(s: State, w: nat): State {
    s.(workers := s.workers - {w})
  }

  ghost function Do(s: State, a: Action): State
    requires Enabled(s, a)
  {
    match a
    case Append(body) => s.(chain := s.chain + [NextRecord(s.chain, body)])
    case ReadCursor(w) => Put(s, w, HasCursor(s.cursor))
    case ReadHead(w) => Put(s, w, HasHead(s.workers[w].cursor, |s.chain|))
    case ReadRows(w, limit, now) =>
      (match NextBatch(s.chain, s.workers[w].cursor, s.workers[w].head, limit, now)
       case Ready(b) => if b.records == [] then Done(s, w) else Put(s, w, HasBatch(b))
       case Deferred => Done(s, w)
       case IntegrityError => Done(s, w))
    case Deliver(w, answer) =>
      var b := s.workers[w].batch;
      var worker :=
        match answer.reply
        case Acked(ack) => if ack == ExactAck(b) then HasAck(b) else MustReport("sink_ack_mismatch")
        case SinkError(code) => MustReport(code)
        case Crashed => MustReport("sink_unexpected_error");
      Put(s.(accepted := s.accepted + Taken(b, answer)), w, worker)
    case Commit(w) =>
      var (cursor, result) := Advance(s.chain, s.cursor, ExactAck(s.workers[w].batch));
      if result == NotABoundary then Put(s, w, MustReport("sink_unexpected_error"))
      else Done(s.(cursor := cursor), w)
    case Report(w, retryAt) => Done(s.(cursor := RecordFailure(s.cursor, s.workers[w].code, retryAt)), w)
  }

  /** The first n records have reached the sink. */
  ghost predicate Covered(s: State, n: nat) {
    n <= |s.chain| && forall i :: 0 <= i < n ==> s.chain[i] in s.accepted
  }

  /** A cursor value, current or remembered: a boundary of the chain with everything before it delivered. */
  ghost predicate GoodCursor(s: State, c: Cursor) {
    Covered(s, c.sequence) && c.hash == HashAt(s.chain, c.sequence)
  }

  ghost predicate GoodBatch(s: State, b: Batch) {
    && Covered(s, b.after) && b.previousHash == HashAt(s.chain, b.after)
    && b.records != [] && b.after + |b.records| <= |s.chain|
    && b.records == s.chain[b.after..b.after + |b.records|]
  }

  ghost predicate GoodWorker(s: State, w: Worker) {
    match w
    case HasCursor(c) => GoodCursor(s, c) && c.sequence <= s.cursor.sequence
    case HasHead(c, head) => GoodCursor(s, c) && c.sequence <= s.cursor.sequence && c.sequence <= head <= |s.chain|
    case HasBatch(b) => GoodBatch(s, b)
    case HasAck(b) => GoodBatch(s, b) && Covered(s, b.after + |b.records|)
    case MustReport(_) => true
  }

  ghost predicate Inv(s: State) {
    && Linked(0, ZeroHash, s.chain)
    && GoodCursor(s, s.cursor)
    && forall w :: w in s.workers ==> GoodWorker(s, s.workers[w])
  }

  /** Appending and accepting lose nothing that was established. */
  lemma GrowthKeepsWorker(s: State, s': State, w: Worker)
    requires GoodWorker(s, w)
    requires s.chain <= s'.chain && s.accepted <= s'.accepted && s.cursor.sequence <= s'.cursor.sequence
    ensures GoodWorker(s', w)
  {
    assert forall n :: 0 <= n <= |s.chain| ==> s'.chain[..n] == s.chain[..n];
    if w.HasBatch? || w.HasAck? {
      var b := w.batch;
      assert s'.chain[b.after..b.after + |b.records|] == s.chain[b.after..b.after + |b.records|];
    }
  }

  lemma GrowthKeepsCursor(s: State, s': State, c: Cursor)
    requires GoodCursor(s, c) && s.chain <= s'.chain && s.accepted <= s'.accepted
    ensures GoodCursor(s', c)
  {
    assert s'.chain[..c.sequence] == s.chain[..c.sequence];
  }

  /** A stretch of a valid chain verifies from the boundary where it starts. */
  lemma StretchIsLinked(chain: seq<Record>, from: nat, to: nat)
    requires Linked(0, ZeroHash, chain) && from <= to <= |chain|
    ensures Linked(from, HashAt(chain, from), chain[from..to])
  {
    assert chain == chain[..from] + (chain[from..to] + chain[to..]);
    LinkedSplits(0, ZeroHash, chain[..from], chain[from..to] + chain[to..]);
    LinkedSplits(from, HashAt(chain, from), chain[from..to], chain[to..]);
  }

  /** Appending keeps the chain valid. */
  lemma AppendIsLinked(chain: seq<Record>, body: Body)
    requires Linked(0, ZeroHash, chain)
    ensures Linked(0, ZeroHash, chain + [NextRecord(chain, body)])
  {
    var r := NextRecord(chain, body);
    assert [r][..0] == [];
    assert Linked(|chain|, EndHash(ZeroHash, chain), [r]);
    LinkedSplits(0, ZeroHash, chain, [r]);
  }

  /** A page read from a boundary of a valid chain is a stretch of it that verifies. */
  lemma PageIsAStretch(chain: seq<Record>, after: nat, limit: nat)
    requires Linked(0, ZeroHash, chain) && after <= |chain| && limit >= 1
    ensures var records := Page(chain, after, limit);
      && after + |records| <= |chain|
      && records == chain[after..after + |records|]
      && Linked(after, HashAt(chain, after), records)
      && (records != [] ==> records[|records| - 1].sequence == after + |records|)
      && (records != [] ==> records[|records| - 1].eventHash == HashAt(chain, after + |records|))
      && (after < |chain| ==> records != [])
  {
    var records := Page(chain, after, limit);
    StretchIsLinked(chain, after, after + |records|);
    if records != [] {
      LinkedAt(0, ZeroHash, chain, after + |records| - 1);
    }
  }

  /** On a valid chain, reading a batch from a good cursor never reports an integrity error. */
  lemma ReadingNeverFails(s: State, c: Cursor, head: nat, limit: nat, now: int)
    requires Linked(0, ZeroHash, s.chain) && GoodCursor(s, c) && c.sequence <= head <= |s.chain| && limit >= 1
    ensures var f := NextBatch(s.chain, c, head, limit, now);
      && f != IntegrityError
      && (f.Ready? && f.batch.records != [] ==> GoodBatch(s, f.batch) && f.batch.after == c.sequence)
      && (f.Ready? && head > c.sequence ==> f.batch.records != [])
  {
    PageIsAStretch(s.chain, c.sequence, limit);
  }

  /** An exact acknowledgement of a good batch names a boundary. */
  lemma ExactAckIsBoundary(s: State, b: Batch)
    requires GoodBatch(s, b)
    ensures var ack := ExactAck(b);
      && 1 <= ack.sequence <= |s.chain| && ack.sequence == b.after + |b.records|
      && s.chain[ack.sequence - 1].eventHash == ack.hash == HashAt(s.chain, ack.sequence)
  {
    assert b.records[|b.records| - 1] == s.chain[b.after + |b.records| - 1];
  }

  lemma StepKeepsInv(s: State, a: Action)
    requires Inv(s) && Enabled(s, a)
    ensures Inv(Do(s, a)) && s.cursor.sequence <= Do(s, a).cursor.sequence
  {
    var s' := Do(s, a);
    match a {
      case Append(body) => AppendIsLinked(s.chain, body);
      case ReadCursor(_) =>
      case ReadHead(_) =>
      case ReadRows(w, limit, now) => ReadingNeverFails(s, s.workers[w].cursor, s.workers[w].head, limit, now);
      case Deliver(_, _) => DeliverKeepsWorker(s, a);
      case Commit(w) => CommitKeepsCursor(s, w);
      case Report(_, _) =>
    }
    if !a.Commit? { GrowthKeepsCursor(s, s', s.cursor); }
    forall v | v in s'.workers ensures GoodWorker(s', s'.workers[v]) {
      if v in s.workers && s'.workers[v] == s.workers[v] { GrowthKeepsWorker(s, s', s.workers[v]); }
      else { NewWorkerIsGood(s, a, v); }
    }
  }

  lemma NewWorkerIsGood(s: State, a: Action, v: nat)
    requires Inv(s) && Enabled(s, a) && v in Do(s, a).workers && (v !in s.workers || Do(s, a).workers[v] != s.workers[v])
    ensures GoodWorker(Do(s, a), Do(s, a).workers[v])
  {
    match a {
      case ReadRows(w, limit, now) => ReadingNeverFails(s, s.workers[w].cursor, s.workers[w].head, limit, now);
      case Deliver(_, _) => DeliverKeepsWorker(s, a);
      case _ =>
    }
  }

  lemma DeliverKeepsWorker(s: State, a: Action)
    requires Inv(s) && a.Deliver? && Enabled(s, a)
    ensures GoodWorker(Do(s, a), Do(s, a).workers[a.worker])
  {
    var s', b := Do(s, a), s.workers[a.worker].batch;
    GrowthKeepsWorker(s, s', HasBatch(b));
    if s'.workers[a.worker].HasAck? {
      forall i | b.after <= i < b.after + |b.records| ensures s.chain[i] in s'.accepted {
        assert s.chain[i] == b.records[i - b.after];
      }
    }
  }

  lemma CommitKeepsCursor(s: State, w: nat)
    requires Inv(s) && Enabled(s, Commit(w))
    ensures GoodCursor(Do(s, Commit(w)), Do(s, Commit(w)).cursor) && s.cursor.sequence <= Do(s, Commit(w)).cursor.sequence
    ensures w !in Do(s, Commit(w)).workers
  {
    ExactAckIsBoundary(s, s.workers[w].batch);
  }

  /** Committing moves the cursor behind the batch, unless another worker has been there already. */
  lemma CommitGoesForward(s: State, w: nat)
    requires Inv(s) && Enabled(s, Commit(w))
    ensures var b, s' := s.workers[w].batch, Do(s, Commit(w));
      && s' == s.(cursor := s'.cursor, workers := s.workers - {w})
      && s'.cursor == if s.cursor.sequence < b.after + |b.records|
                      then Cursor(b.after + |b.records|, b.records[|b.records| - 1].eventHash, 0, None, None) else s.cursor
  {
    ExactAckIsBoundary(s, s.workers[w].batch);
  }

  /** What is appended stays, under the next number; and a report adds one failure to whatever the cursor is by then. */
  lemma AppendsAndReports(s: State, body: Body, w: nat, retryAt: int)
    ensures var s' := Do(s, Append(body));
      && |s'.chain| == |s.chain| + 1 && s'.chain[..|s.chain|] == s.chain && s' == s.(chain := s'.chain)
      && s'.chain[|s.chain|].body == body && s'.chain[|s.chain|].sequence == |s.chain| + 1
    ensures Enabled(s, Report(w, retryAt)) ==>
      var c := s.cursor;
      Do(s, Report(w, retryAt))
        == s.(cursor := Cursor(c.sequence, c.hash, c.failures + 1, Some(s.workers[w].code), Some(retryAt)), workers := s.workers - {w})
  {
  }

  /** The steps of one worker, from reading the cursor to the sink's answer. */
  ghost predicate Delivers(s: State, w: nat, limit: nat, now: int, answer: Answer, s': State) {
    && Enabled(s, ReadCursor(w)) && var s1 := Do(s, ReadCursor(w));
    && Enabled(s1, ReadHead(w)) && var s2 := Do(s1, ReadHead(w));
    && Enabled(s2, ReadRows(w, limit, now)) && var s3 := Do(s2, ReadRows(w, limit, now));
    && Enabled(s3, Deliver(w, answer)) && s' == Do(s3, Deliver(w, answer))
  }

  /** The last step: commit what was acknowledged, report what was not. */
  ghost function Settled(s: State, w: nat, retryAt: int): State
    requires Enabled(s, Commit(w)) || Enabled(s, Report(w, retryAt))
  {
    if Enabled(s, Commit(w)) then Do(s, Commit(w)) else Do(s, Report(w, retryAt))
  }

  /**
   A worker that is alone makes progress: unless the destination waits or has everything, it reads the next page,
   and its steps do to the cursor and the sink what one call of the coordinator does.
   */
  lemma LoneDeliveryProgresses(s: State, w: nat, limit: nat, now: int, answer: Answer, retryAt: int) returns (b: Batch, s': State)
    requires Inv(s) && w !in s.workers && limit >= 1 && s.cursor.sequence < |s.chain|
    requires s.cursor.nextRetry.Some? ==> s.cursor.nextRetry.value <= now
    ensures b.records != [] && b.after == s.cursor.sequence && Shows(s.chain, b.after, limit, b.records)
    ensures NextBatch(s.chain, s.cursor, |s.chain|, limit, now) == Ready(b)
    ensures Delivers(s, w, limit, now, answer, s') && s'.accepted == s.accepted + Taken(b, answer)
    ensures Enabled(s', Commit(w)) <==> Exact(b, answer.reply)
    ensures Enabled(s', Report(w, retryAt)) <==> !Exact(b, answer.reply)
    ensures Settled(s', w, retryAt) == s.(cursor := Settled(s', w, retryAt).cursor, accepted := s'.accepted)
    ensures Answered(s.cursor, b, answer.reply, retryAt, Settled(s', w, retryAt).cursor)
  {
    ReadingNeverFails(s, s.cursor, |s.chain|, limit, now);
    PageShows(s.chain, s.cursor.sequence, limit);
    b := NextBatch(s.chain, s.cursor, |s.chain|, limit, now).batch;
    ReadingIsThreeSteps(s, w, limit, now, b);
    s' := AnswerSettles(s, b, w, answer, retryAt);
  }

  /** A worker that is alone and holds the batch at the cursor. */
  lemma AnswerSettles(s: State, b: Batch, w: nat, answer: Answer, retryAt: int) returns (s': State)
    requires GoodBatch(s, b) && b.after == s.cursor.sequence && w !in s.workers
    ensures s' == Do(Put(s, w, HasBatch(b)), Deliver(w, answer)) && s'.accepted == s.accepted + Taken(b, answer)
    ensures Enabled(s', Commit(w)) <==> Exact(b, answer.reply)
    ensures Enabled(s', Report(w, retryAt)) <==> !Exact(b, answer.reply)
    ensures Settled(s', w, retryAt) == s.(cursor := Settled(s', w, retryAt).cursor, accepted := s'.accepted)
    ensures Answered(s.cursor, b, answer.reply, retryAt, Settled(s', w, retryAt).cursor)
  {
    s' := Do(Put(s, w, HasBatch(b)), Deliver(w, answer));
    ExactAckIsBoundary(s, b);
    assert s'.workers - {w} == s.workers;
  }

  lemma ReadingIsThreeSteps(s: State, w: nat, limit: nat, now: int, b: Batch)
    requires w !in s.workers && limit >= 1 && NextBatch(s.chain, s.cursor, |s.chain|, limit, now) == Ready(b) && b.records != []
    ensures var s1 := Do(s, ReadCursor(w));
      && Enabled(s1, ReadHead(w)) && var s2 := Do(s1, ReadHead(w));
      && Enabled(s2, ReadRows(w, limit, now)) && Do(s2, ReadRows(w, limit, now)) == Put(s, w, HasBatch(b))
  {
  }

  ghost predicate Runnable(s: State, run: seq<Action>)
    decreases |run|
  {
    run == [] || (Enabled(s, run[0]) && Runnable(Do(s, run[0]), run[1..]))
  }

  ghost function Run(s: State, run: seq<Action>): State
    requires Runnable(s, run)
    decreases |run|
  {
    if run == [] then s else Run(Do(s, run[0]), run[1..])
  }

  lemma {:induction false} RunKeepsInv(s: State, run: seq<Action>)
    requires Inv(s) && Runnable(s, run)
    ensures Inv(Run(s, run)) && s.cursor.sequence <= Run(s, run).cursor.sequence
    decreases |run|
  {
    if run != [] {
      StepKeepsInv(s, run[0]);
      RunKeepsInv(Do(s, run[0]), run[1..]);
    }
  }

  /**
   Audit coverage: in every run of any number of workers against a growing chain, every record at or below
   the cursor has been accepted by the sink, the cursor carries the hash of its record, and it never moves back.
   */
  lemma AuditCoverage(first: seq<Action>, more: seq<Action>, i: nat)
    requires Runnable(State([], START, {}, map[]), first)
    requires Runnable(Run(State([], START, {}, map[]), first), more)
    requires i < Run(Run(State([], START, {}, map[]), first), more).cursor.sequence
    ensures var s := Run(State([], START, {}, map[]), first);
      var s' := Run(s, more);
      && s.cursor.sequence <= s'.cursor.sequence <= |s'.chain|
      && s'.chain[i] in s'.accepted && s'.chain[i].sequence == i + 1
      && s'.cursor.hash == s'.chain[s'.cursor.sequence - 1].eventHash
  {
    var zero := State([], START, {}, map[]);
    assert Inv(zero);
    RunKeepsInv(zero, first);
    RunKeepsInv(Run(zero, first), more);
    LinkedAt(0, ZeroHash, Run(Run(zero, first), more).chain, i);
  }
}
