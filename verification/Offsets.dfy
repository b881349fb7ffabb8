/**
 Offset commits of the poll loop, one partition at a time. The loop handles a polled batch in order,
 commits each record right after it is settled (processed, or acknowledged by the DLQ), and leaves
 the batch at the first record that is not. It never seeks back.
 */
module Offsets {
  import opened Json
  import opened Encoding
  import opened EventEnvelope
  import opened CheckpointStore
  import opened Consumer
  import opened Retries

  /** How handling one record ends. */
  datatype Fate = Committed | SettledOnly | Unsettled

  /**
   A record as the loop meets it, with what its handling meets: the clients at hand, the surroundings of the
   attempts, and whether the commit is accepted. A payload that is not JSON goes straight to the DLQ.
   */
  datatype Record =
    | Undecodable(hasQuarantine: bool, quarantineAcks: bool, commitAccepted: bool)
    | Decoded(payload: Value, key: Option<seq<Byte>>, clients: set<string>, surroundings: Surroundings, commitAccepted: bool)

  /** The checkpoint rows and the search targets, which handling a record may change. */
  datatype Data = Data(rows: map<Key, TargetCheckpoint>, targets: Targets)

  /** What `process_message_with_retries` makes of a decoded record. */
  function Treated(rules: TextRules, r: Record, d: Data): Result
    requires r.Decoded?
  {
    RetryFrom(r.surroundings, ReadMessage(rules, r.payload, r.key), 1, r.clients, d.rows, d.targets)
  }

  /** Settled: processed, or acknowledged by the DLQ. */
  predicate IsSettled(rules: TextRules, r: Record, d: Data) {
    match r
    case Undecodable(has, acks, _) => has && acks
    case Decoded(_, _, _, _, _) => Treated(rules, r, d).ending != Raised
  }

  function AfterRecord(rules: TextRules, r: Record, d: Data): Data {
    if r.Undecodable? then d else var result := Treated(rules, r, d); Data(result.rows, result.targets)
  }

  function FateOf(rules: TextRules, r: Record, d: Data): Fate {
    if !IsSettled(rules, r, d) then Unsettled else if r.commitAccepted then Committed else SettledOnly
  }

  /** The records behind the first that is not committed are not handled. */
  function Fates(rules: TextRules, records: seq<Record>, d: Data): (fates: seq<Fate>)
    ensures |fates| == |records|
  {
    if records == [] then []
    else
      var fate := FateOf(rules, records[0], d);
      [fate] + if fate == Committed then Fates(rules, records[1..], AfterRecord(rules, records[0], d))
               else seq(|records| - 1, _ => Unsettled)
  }

  /** Rows and targets after the batch, the first record that is not committed included. */
  function AfterRecords(rules: TextRules, records: seq<Record>, d: Data): Data {
    if records == [] then d
    else if FateOf(rules, records[0], d) != Committed then AfterRecord(rules, records[0], d)
    else AfterRecords(rules, records[1..], AfterRecord(rules, records[0], d))
  }

  /** Rows and targets before record i, if the ones before it were all handled. */
  function DataBefore(rules: TextRules, records: seq<Record>, d: Data, i: nat): Data
    requires i <= |records|
    decreases i
  {
    if i == 0 then d else DataBefore(rules, records[1..], AfterRecord(rules, records[0], d), i - 1)
  }

  /** The group's offset, and the records settled so far. */
  datatype Ledger = Ledger(committed: nat, settled: set<nat>)

  /** Consecutive records as one poll returned them. */
  datatype Batch = Batch(start: nat, fates: seq<Fate>)

  function After(l: Ledger, b: Batch): Ledger
    decreases |b.fates|
  {
    if b.fates == [] then l
    else
      match b.fates[0]
      case Unsettled => l
      case SettledOnly => Ledger(l.committed, l.settled + {b.start})
      case Committed => After(Ledger(b.start + 1, l.settled + {b.start}), Batch(b.start + 1, b.fates[1..]))
  }

  /** Consumer state for one partition. */
  class Partition {
    var committed: nat
    ghost var settled: set<nat>

    ghost function State(): Ledger
      reads this
    {
      Ledger(committed, settled)
    }

    constructor (origin: nat)
      ensures committed == origin && settled == {}
    {
      committed := origin;
      settled := {};
    }

    /** One turn of the inner loop; it goes on if the record was committed. */
    method HandleRecord(rules: TextRules, offset: nat, r: Record, store: InMemoryCheckpointStore, world: SearchTargets)
      returns (goesOn: bool)
      requires WellFiled(store.records)
      modifies this, store, world
      ensures var d := old(Data(store.records, world.State()));
        && Data(store.records, world.State()) == AfterRecord(rules, r, d)
        && goesOn == (FateOf(rules, r, d) == Committed)
        && State() == Settle(FateOf(rules, r, d), offset, old(State()))
      ensures WellFiled(store.records)
    {
      match r {
        case Undecodable(has, acks, _) =>
          if !has || !acks { return false; }
        case Decoded(payload, key, clients, surroundings, _) =>
          var ending := ProcessMessageWithRetries(surroundings, rules, payload, key, clients, store, world);
          if ending.Raised? { return false; }
      }
      settled := settled + {offset};
      if !r.commitAccepted { return false; }
      committed := offset + 1;
      goesOn := true;
    }

    /** The inner loop over one partition's records. */
    method HandleBatch(rules: TextRules, start: nat, records: seq<Record>, store: InMemoryCheckpointStore, world: SearchTargets)
      requires WellFiled(store.records)
      modifies this, store, world
      ensures var d := old(Data(store.records, world.State()));
        && State() == After(old(State()), Batch(start, Fates(rules, records, d)))
        && Data(store.records, world.State()) == AfterRecords(rules, records, d)
      ensures WellFiled(store.records)
    {
      ghost var goal := Goal(rules, start, records, State(), Data(store.records, world.State()));
      GoalIsTheBatch(rules, start, records, State(), Data(store.records, world.State()));
      var i := 0;
      while i < |records|
        invariant 0 <= i <= |records| && WellFiled(store.records)
        invariant Goal(rules, start + i, records[i..], State(), Data(store.records, world.State())) == goal
      {
        GoalGoesOn(rules, start + i, records[i..], State(), Data(store.records, world.State()));
        assert records[i..][1..] == records[i + 1..];
        var goesOn := HandleRecord(rules, start + i, records[i], store, world);
        if !goesOn { return; }
        i := i + 1;
      }
    }
  }

  /** The ledger after one record. */
  function Settle(fate: Fate, offset: nat, l: Ledger): Ledger {
    match fate
    case Unsettled => l
    case SettledOnly => Ledger(l.committed, l.settled + {offset})
    case Committed => Ledger(offset + 1, l.settled + {offset})
  }

  /** Where the records lead, one by one. */
  ghost function Goal(rules: TextRules, start: nat, records: seq<Record>, l: Ledger, d: Data): (Ledger, Data)
    decreases |records|
  {
    if records == [] then (l, d)
    else
      var fate, d' := FateOf(rules, records[0], d), AfterRecord(rules, records[0], d);
      if fate == Committed then Goal(rules, start + 1, records[1..], Settle(fate, start, l), d') else (Settle(fate, start, l), d')
  }

  lemma GoalGoesOn(rules: TextRules, start: nat, records: seq<Record>, l: Ledger, d: Data)
    requires records != []
    ensures var fate, d' := FateOf(rules, records[0], d), AfterRecord(rules, records[0], d);
      Goal(rules, start, records, l, d) ==
        if fate == Committed then Goal(rules, start + 1, records[1..], Settle(fate, start, l), d') else (Settle(fate, start, l), d')
  {
  }

  lemma {:induction false} GoalIsTheBatch(rules: TextRules, start: nat, records: seq<Record>, l: Ledger, d: Data)
    ensures Goal(rules, start, records, l, d) == (After(l, Batch(start, Fates(rules, records, d))), AfterRecords(rules, records, d))
    decreases |records|
  {
    if records != [] && FateOf(rules, records[0], d) == Committed {
      var d' := AfterRecord(rules, records[0], d);
      assert Fates(rules, records, d)[1..] == Fates(rules, records[1..], d');
      GoalIsTheBatch(rules, start + 1, records[1..], Settle(Committed, start, l), d');
    }
  }

  // ---- Inside one batch ----------------------------------------------------

  function CommittedPrefix(fates: seq<Fate>): (k: nat)
    ensures k <= |fates|
  {
    if fates == [] || fates[0] != Committed then 0 else 1 + CommittedPrefix(fates[1..])
  }

  /** Settled records of a batch: the committed prefix, and the record whose commit failed. */
  function SettledPrefix(fates: seq<Fate>): (k: nat)
    ensures CommittedPrefix(fates) <= k <= |fates|
  {
    var k := CommittedPrefix(fates);
    if k < |fates| && fates[k] == SettledOnly then k + 1 else k
  }

  /** Some record of the batch was left behind. */
  predicate LeavesGap(b: Batch) {
    SettledPrefix(b.fates) < |b.fates|
  }

  predicate Commits(b: Batch) {
    CommittedPrefix(b.fates) > 0
  }

  /** A batch commits one past a prefix of its records, every one of which is settled. */
  lemma {:induction false} BatchCommitsPrefix(l: Ledger, b: Batch)
    ensures After(l, b).committed == if Commits(b) then b.start + CommittedPrefix(b.fates) else l.committed
    ensures forall o :: o in After(l, b).settled <==> o in l.settled || b.start <= o < b.start + SettledPrefix(b.fates)
    decreases |b.fates|
  {
    if b.fates != [] && b.fates[0] == Committed {
      BatchCommitsPrefix(Ledger(b.start + 1, l.settled + {b.start}), Batch(b.start + 1, b.fates[1..]));
    }
  }

  /** The last attempt that the retry loop makes completes, or asks for no refresh that fails and the DLQ acknowledges the record. */
  ghost predicate SettlesAt(s: Surroundings, read: Option<Event>, l: LoopState, n: nat) {
    && Makes(s, read, 1, l, n) && !Makes(s, read, 1, l, n + 1)
    && var o := Try(s, read, n, Retries.Before(s, read, 1, l, n)).outcome;
       || o in {Applied, StaleEvent, DuplicateEvent}
       || (s.hasQuarantine && s.quarantineAcks && !(o == MissingCluster && s.canRefresh && s.refreshed(n).None?))
  }

  /** What it takes to be settled; a record that is not JSON only needs the acknowledgement. */
  ghost predicate Justified(rules: TextRules, r: Record, d: Data) {
    match r
    case Undecodable(has, acks, _) => has && acks
    case Decoded(payload, key, clients, s, _) =>
      exists n :: SettlesAt(s, ReadMessage(rules, payload, key), LoopState(clients, d.rows, d.targets), n)
  }

  lemma SettledIffJustified(rules: TextRules, r: Record, d: Data)
    ensures IsSettled(rules, r, d) <==> Justified(rules, r, d)
  {
    if r.Decoded? {
      var read, l := ReadMessage(rules, r.payload, r.key), LoopState(r.clients, d.rows, d.targets);
      var last := ReturnsIffSettled(r.surroundings, read, l);
      LastAttemptDecides(r.surroundings, read, l, last);
      assert IsSettled(rules, r, d) ==> SettlesAt(r.surroundings, read, l, last);
      if n :| SettlesAt(r.surroundings, read, l, n) { LastAttemptDecides(r.surroundings, read, l, n); }
    }
  }

  /**
   Where a batch stops, told by its records, each with the rows and targets the ones before it left: the committed
   prefix is justified and its commits are accepted; the record behind it has its commit refused, or is not justified.
   */
  lemma {:induction false} BatchStops(rules: TextRules, records: seq<Record>, d: Data, i: nat)
    requires i < |records| && i <= CommittedPrefix(Fates(rules, records, d))
    ensures var k, r, before := CommittedPrefix(Fates(rules, records, d)), records[i], DataBefore(rules, records, d, i);
      && (i < k <==> Justified(rules, r, before) && r.commitAccepted)
      && (i < SettledPrefix(Fates(rules, records, d)) <==> Justified(rules, r, before))
    decreases i
  {
    var fates, d' := Fates(rules, records, d), AfterRecord(rules, records[0], d);
    SettledIffJustified(rules, records[0], d);
    if i > 0 {
      assert fates[1..] == Fates(rules, records[1..], d');
      BatchStops(rules, records[1..], d', i - 1);
    }
  }

  // ---- Over whole runs -----------------------------------------------------

  function AfterAll(l: Ledger, batches: seq<Batch>): Ledger
    decreases |batches|
  {
    if batches == [] then l else AfterAll(After(l, batches[0]), batches[1..])
  }

  /** Every record below the committed offset is settled. */
  ghost predicate Safe(l: Ledger, origin: nat) {
    forall o :: origin <= o < l.committed ==> o in l.settled
  }

  /** Each poll resumes at the committed offset. */
  ghost predicate Resumes(l: Ledger, batches: seq<Batch>)
    decreases |batches|
  {
    batches == [] || (batches[0].start == l.committed && Resumes(After(l, batches[0]), batches[1..]))
  }

  /** If every poll resumes at the committed offset, no unsettled record is ever passed. */
  lemma {:induction false} ResumingIsSafe(l: Ledger, batches: seq<Batch>, origin: nat)
    requires Safe(l, origin) && origin <= l.committed && Resumes(l, batches)
    ensures Safe(AfterAll(l, batches), origin)
    decreases |batches|
  {
    if batches != [] {
      BatchCommitsPrefix(l, batches[0]);
      ResumingIsSafe(After(l, batches[0]), batches[1..], origin);
    }
  }

  /** Without a seek, each poll goes on where the previous one ended. */
  ghost predicate GoesOn(position: nat, batches: seq<Batch>)
    decreases |batches|
  {
    batches == [] || (batches[0].start == position && GoesOn(position + |batches[0].fates|, batches[1..]))
  }

  /** No batch that leaves a record behind is followed by one that commits. */
  ghost predicate NoOvertaking(batches: seq<Batch>) {
    forall i, j :: 0 <= i < j < |batches| && LeavesGap(batches[i]) ==> !Commits(batches[j])
  }

  /** With a gap behind the position, the run is safe exactly when nothing more is committed. */
  lemma {:induction false} GapMustNotBePassed(l: Ledger, batches: seq<Batch>, position: nat, origin: nat, gap: nat)
    requires GoesOn(position, batches) && origin <= gap < position && gap !in l.settled && l.committed <= position
    ensures gap !in AfterAll(l, batches).settled
    ensures l.committed <= AfterAll(l, batches).committed
    ensures (exists j :: 0 <= j < |batches| && Commits(batches[j])) ==> AfterAll(l, batches).committed > gap
    ensures !(exists j :: 0 <= j < |batches| && Commits(batches[j])) ==> AfterAll(l, batches).committed == l.committed
    decreases |batches|
  {
    if batches != [] {
      BatchCommitsPrefix(l, batches[0]);
      var rest := batches[1..];
      GapMustNotBePassed(After(l, batches[0]), rest, position + |batches[0].fates|, origin, gap);
      assert forall j :: 0 < j < |batches| ==> batches[j] == rest[j - 1];
      assert forall j :: 0 <= j < |rest| ==> rest[j] == batches[j + 1];
    }
  }

  /**
   As long as nothing was left behind, a run without seeks is safe exactly when no later batch
   overtakes an earlier one that left a record behind.
   */
  lemma {:induction false} SafeIffNoOvertaking(l: Ledger, batches: seq<Batch>, position: nat, origin: nat)
    requires GoesOn(position, batches) && origin <= l.committed <= position
    requires forall o :: origin <= o < position ==> o in l.settled
    requires forall o :: o in l.settled ==> o < position
    ensures Safe(AfterAll(l, batches), origin) <==> NoOvertaking(batches)
    decreases |batches|
  {
    if batches != [] {
      var b, rest := batches[0], batches[1..];
      var l' := After(l, b);
      var position' := position + |b.fates|;
      BatchCommitsPrefix(l, b);
      assert forall j :: 0 < j < |batches| ==> batches[j] == rest[j - 1];
      assert forall j :: 0 <= j < |rest| ==> rest[j] == batches[j + 1];
      if LeavesGap(b) {
        var gap := position + SettledPrefix(b.fates);
        GapMustNotBePassed(l', rest, position', origin, gap);
        GapDecides(batches, rest);
        if !(exists j :: 0 <= j < |rest| && Commits(rest[j])) {
          assert AfterAll(l', rest).committed == l'.committed <= gap;
          SettledOnlyGrows(l', rest);
        }
      } else {
        SafeIffNoOvertaking(l', rest, position', origin);
        NoGapDecides(batches, rest);
      }
    }
  }

  lemma GapDecides(batches: seq<Batch>, rest: seq<Batch>)
    requires batches != [] && rest == batches[1..] && LeavesGap(batches[0])
    ensures NoOvertaking(batches) <==> !(exists j :: 0 <= j < |rest| && Commits(rest[j]))
  {
    if exists j :: 0 <= j < |rest| && Commits(rest[j]) {
      var j :| 0 <= j < |rest| && Commits(rest[j]);
      assert Commits(batches[j + 1]);
    } else {
      forall j | 0 < j < |batches| ensures !Commits(batches[j]) { assert batches[j] == rest[j - 1]; }
    }
  }

  lemma NoGapDecides(batches: seq<Batch>, rest: seq<Batch>)
    requires batches != [] && rest == batches[1..] && !LeavesGap(batches[0])
    ensures NoOvertaking(batches) <==> NoOvertaking(rest)
  {
    if NoOvertaking(batches) {
      forall i, j | 0 <= i < j < |rest| && LeavesGap(rest[i]) ensures !Commits(rest[j]) {
        assert rest[i] == batches[i + 1] && rest[j] == batches[j + 1];
      }
    }
    if NoOvertaking(rest) {
      forall i, j | 0 <= i < j < |batches| && LeavesGap(batches[i]) ensures !Commits(batches[j]) {
        assert i > 0 && batches[i] == rest[i - 1] && batches[j] == rest[j - 1];
      }
    }
  }

  lemma {:induction false} SettledOnlyGrows(l: Ledger, batches: seq<Batch>)
    ensures l.settled <= AfterAll(l, batches).settled
    decreases |batches|
  {
    if batches != [] {
      BatchCommitsPrefix(l, batches[0]);
      SettledOnlyGrows(After(l, batches[0]), batches[1..]);
    }
  }

  /** A record that fails in one poll is passed by a success in the next. */
  lemma FailureCanBeOvertaken()
    ensures var batches := [Batch(0, [Unsettled]), Batch(1, [Committed])];
      GoesOn(0, batches) && !Safe(AfterAll(Ledger(0, {}), batches), 0)
  {
    var batches := [Batch(0, [Unsettled]), Batch(1, [Committed])];
    var l := Ledger(0, {});
    assert batches[1..][1..] == [] && [Committed][1..] == [];
    var l1 := After(l, batches[0]);
    assert l1 == l;
    BatchCommitsPrefix(l1, batches[1]);
    assert CommittedPrefix([Committed]) == 1;
    var l2 := After(l1, batches[1]);
    assert AfterAll(l, batches) == AfterAll(l1, batches[1..]) == AfterAll(l2, batches[1..][1..]) == l2;
    assert 0 !in l2.settled && l2.committed == 2;
  }
}
