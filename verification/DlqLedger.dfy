/** The resolver group's offsets under any number of overlapping calls. */
module DlqLedger {
  import opened Json
  import opened EventEnvelope
  import opened DlqResolver

  datatype How = Replayed(sent: Sent) | Disposed(reason: string, approver: string)

  /** One move of the group's offset, and the operator's confirmation of it. */
  datatype Entry = Entry(partition: TopicPartition, offset: int, how: How, confirm: string)

  /** A call between its decision and its end. */
  datatype Stage = Sending(call: Call, envelope: Parsed) | Committing(call: Call, how: How)

  datatype State = State(
    committed: map<TopicPartition, int>,
    sent: seq<Sent>,
    journal: seq<Entry>,
    calls: map<nat, Stage>)

  /** Fixed surroundings: the text rules, the size bound and the records, which never change once written. */
  datatype World = World(rules: TextRules, maxBytes: nat, record: (TopicPartition, int) -> Raw)

  datatype Step =
    | Begin(id: nat, call: Call, view: View)
    | Transmit(id: nat, ack: Ack)
    | Commit(id: nat, reply: CommitReply)
    | Die(id: nat)

  predicate Enabled(w: World, s: State, a: Step) {
    match a
    case Begin(id, call, view) =>
      id !in s.calls && (view.value.Some? ==> view.value.value == w.record(Where(call), call.selection.offset))
    case Transmit(id, _) => id in s.calls && s.calls[id].Sending?
    case Commit(id, _) => id in s.calls && s.calls[id].Committing?
    case Die(id) => id in s.calls
  }

  function Started(w: World, s: State, id: nat, call: Call, view: View): State {
    match PlanFor(w.rules, w.maxBytes, call, view, s.committed)
    case Send(envelope) => s.(calls := s.calls[id := Sending(call, envelope)])
    case Dispose => s.(calls := s.calls[id := Committing(call, Disposed(call.reason, call.approver))])
    case _ => s
  }

  function Ended(s: State, id: nat): State {
    s.(calls := s.calls - {id})
  }

  function Transmitted(s: State, id: nat, ack: Ack): State
    requires id in s.calls && s.calls[id].Sending?
  {
    var call, envelope := s.calls[id].call, s.calls[id].envelope;
    if ack.NotAcked? || ack.topic != envelope.sourceTopic then Ended(s, id)
    else
      var sent := SentFor(call, envelope);
      var s' := s.(sent := s.sent + [sent]);
      if call.commit then s'.(calls := s.calls[id := Committing(call, Replayed(sent))]) else Ended(s', id)
  }

  function Committed(s: State, id: nat, reply: CommitReply): State
    requires id in s.calls && s.calls[id].Committing?
  {
    var call, how := s.calls[id].call, s.calls[id].how;
    var p, offset := Where(call), call.selection.offset;
    var (committed, _) := CommitExact(s.committed, p, offset, reply);
    if committed == s.committed then Ended(s, id)
    else Ended(s.(committed := committed, journal := s.journal + [Entry(p, offset, how, call.confirm)]), id)
  }

  function Do(w: World, s: State, a: Step): State
    requires Enabled(w, s, a)
  {
    match a
    case Begin(id, call, view) => Started(w, s, id, call, view)
    case Transmit(id, ack) => Transmitted(s, id, ack)
    case Commit(id, reply) => Committed(s, id, reply)
    case Die(id) => Ended(s, id)
  }

  /** The record at an offset was replayed, acknowledged and flushed as it stands, or was disposed of by name. */
  ghost predicate Accounted(w: World, sent: seq<Sent>, p: TopicPartition, offset: int, how: How, confirm: string) {
    match how
    case Replayed(r) =>
      && ConfirmedAs(confirm, "REPLAY-AND-COMMIT", p, offset) && r.confirm == confirm
      && r in sent && r.partition == p && r.offset == offset
      && var parsed := ParseDlqEnvelope(w.maxBytes, w.record(p, offset), r.topic);
         && parsed.Ok? && parsed.value.message == r.message && parsed.value.key == r.key
         && ValidateReplay(w.rules, parsed.value, Some(p.topic)).Replayable?
    case Disposed(reason, approver) => IsCode(reason) && IsCode(approver) && ConfirmedAs(confirm, "DISPOSITION-AND-COMMIT", p, offset)
  }

  ghost predicate AccountedEntry(w: World, sent: seq<Sent>, e: Entry) {
    Accounted(w, sent, e.partition, e.offset, e.how, e.confirm)
  }

  /** Every replay was confirmed for the very record it sent. */
  ghost predicate ConfirmedReplay(r: Sent) {
    ConfirmedAs(r.confirm, "REPLAY", r.partition, r.offset) || ConfirmedAs(r.confirm, "REPLAY-AND-COMMIT", r.partition, r.offset)
  }

  /** The offsets are what the journal's moves make of the initial ones, each from exactly where it found the offset. */
  ghost predicate Explains(initial: map<TopicPartition, int>, journal: seq<Entry>, committed: map<TopicPartition, int>)
    decreases |journal|
  {
    if journal == [] then committed == initial
    else
      var e := journal[|journal| - 1];
      && e.partition in committed && committed[e.partition] == e.offset + 1
      && Explains(initial, journal[..|journal| - 1], committed[e.partition := e.offset])
  }

  ghost predicate GoodStage(w: World, sent: seq<Sent>, stage: Stage) {
    match stage
    case Sending(call, envelope) =>
      && call.action == Replay && Confirms(call)
      && ParseDlqEnvelope(w.maxBytes, w.record(Where(call), call.selection.offset), envelope.sourceTopic) == Ok(envelope)
      && ValidateReplay(w.rules, envelope, Some(call.selection.dlqTopic)).Replayable?
    case Committing(call, how) => Accounted(w, sent, Where(call), call.selection.offset, how, call.confirm)
  }

  ghost predicate Inv(w: World, initial: map<TopicPartition, int>, s: State) {
    && Explains(initial, s.journal, s.committed)
    && (forall i :: 0 <= i < |s.journal| ==> AccountedEntry(w, s.sent, s.journal[i]))
    && (forall i :: 0 <= i < |s.sent| ==> ConfirmedReplay(s.sent[i]))
    && forall id :: id in s.calls ==> GoodStage(w, s.sent, s.calls[id])
  }

  lemma BeginIsGood(w: World, initial: map<TopicPartition, int>, s: State, id: nat, call: Call, view: View)
    requires Inv(w, initial, s) && Enabled(w, s, Begin(id, call, view))
    ensures Inv(w, initial, Started(w, s, id, call, view))
  {
    OnlyJustifiedPlans(w.rules, w.maxBytes, call, view, s.committed);
    var plan := PlanFor(w.rules, w.maxBytes, call, view, s.committed);
    if plan.Send? { SourceTopicIsExpected(w.maxBytes, view.value.value, call.selection.expectedSourceTopic, plan.envelope); }
  }

  lemma SourceTopicIsExpected(maxBytes: nat, raw: Raw, expected: string, envelope: Parsed)
    requires ParseDlqEnvelope(maxBytes, raw, expected) == Ok(envelope)
    ensures envelope.sourceTopic == expected
  {
  }

  lemma AccountedGrows(w: World, sent: seq<Sent>, more: Sent, p: TopicPartition, offset: int, how: How, confirm: string)
    requires Accounted(w, sent, p, offset, how, confirm)
    ensures Accounted(w, sent + [more], p, offset, how, confirm)
  {
  }

  lemma StageGrows(w: World, sent: seq<Sent>, more: Sent, stage: Stage)
    requires GoodStage(w, sent, stage)
    ensures GoodStage(w, sent + [more], stage)
  {
    if stage.Committing? { AccountedGrows(w, sent, more, Where(stage.call), stage.call.selection.offset, stage.how, stage.call.confirm); }
  }

  lemma SentIsAccounted(w: World, sent: seq<Sent>, call: Call, envelope: Parsed)
    requires GoodStage(w, sent, Sending(call, envelope))
    ensures ConfirmedReplay(SentFor(call, envelope))
    ensures call.commit ==>
      Accounted(w, sent + [SentFor(call, envelope)], Where(call), call.selection.offset, Replayed(SentFor(call, envelope)), call.confirm)
  {
    var all := sent + [SentFor(call, envelope)];
    assert all[|sent|] == SentFor(call, envelope);
  }

  lemma SendingKeepsInv(w: World, initial: map<TopicPartition, int>, s: State, more: Sent)
    requires Inv(w, initial, s) && ConfirmedReplay(more)
    ensures Inv(w, initial, s.(sent := s.sent + [more]))
  {
    forall i | 0 <= i < |s.journal| ensures AccountedEntry(w, s.sent + [more], s.journal[i]) {
      var e := s.journal[i];
      AccountedGrows(w, s.sent, more, e.partition, e.offset, e.how, e.confirm);
    }
    forall id | id in s.calls ensures GoodStage(w, s.sent + [more], s.calls[id]) { StageGrows(w, s.sent, more, s.calls[id]); }
  }

  lemma StageKeepsInv(w: World, initial: map<TopicPartition, int>, s: State, id: nat, stage: Stage)
    requires Inv(w, initial, s) && GoodStage(w, s.sent, stage)
    ensures Inv(w, initial, s.(calls := s.calls[id := stage])) && Inv(w, initial, Ended(s, id))
  {
  }

  lemma TransmitIsGood(w: World, initial: map<TopicPartition, int>, s: State, id: nat, ack: Ack)
    requires Inv(w, initial, s) && Enabled(w, s, Transmit(id, ack))
    ensures Inv(w, initial, Transmitted(s, id, ack))
  {
    var call, envelope := s.calls[id].call, s.calls[id].envelope;
    var sent := SentFor(call, envelope);
    SentIsAccounted(w, s.sent, call, envelope);
    SendingKeepsInv(w, initial, s, sent);
    StageKeepsInv(w, initial, s, id, s.calls[id]);
    if call.commit { StageKeepsInv(w, initial, s.(sent := s.sent + [sent]), id, Committing(call, Replayed(sent))); }
  }

  lemma OneMoreMove(initial: map<TopicPartition, int>, journal: seq<Entry>, committed: map<TopicPartition, int>, e: Entry)
    requires Explains(initial, journal, committed) && e.partition in committed && committed[e.partition] == e.offset
    ensures Explains(initial, journal + [e], committed[e.partition := e.offset + 1])
  {
    assert (journal + [e])[..|journal|] == journal;
    assert committed[e.partition := e.offset + 1][e.partition := e.offset] == committed;
  }

  lemma MoveKeepsInv(w: World, initial: map<TopicPartition, int>, s: State, e: Entry)
    requires Inv(w, initial, s) && AccountedEntry(w, s.sent, e)
    requires e.partition in s.committed && s.committed[e.partition] == e.offset
    ensures Inv(w, initial, Advanced(s, e))
  {
    OneMoreMove(initial, s.journal, s.committed, e);
  }

  /** The journal entry that a committing call is about to make. */
  function EntryOf(stage: Stage): Entry
    requires stage.Committing?
  {
    Entry(Where(stage.call), stage.call.selection.offset, stage.how, stage.call.confirm)
  }

  function Advanced(s: State, e: Entry): State {
    s.(committed := s.committed[e.partition := e.offset + 1], journal := s.journal + [e])
  }

  lemma CommitEndsOrAdvances(s: State, id: nat, reply: CommitReply)
    requires id in s.calls && s.calls[id].Committing?
    ensures var e := EntryOf(s.calls[id]);
      || Committed(s, id, reply) == Ended(s, id)
      || (e.partition in s.committed && s.committed[e.partition] == e.offset && Committed(s, id, reply) == Ended(Advanced(s, e), id))
  {
  }

  lemma AdvancedIsGood(w: World, initial: map<TopicPartition, int>, s: State, id: nat)
    requires Inv(w, initial, s) && id in s.calls && s.calls[id].Committing?
    requires var e := EntryOf(s.calls[id]); e.partition in s.committed && s.committed[e.partition] == e.offset
    ensures Inv(w, initial, Ended(Advanced(s, EntryOf(s.calls[id])), id))
  {
    var stage := s.calls[id];
    MoveKeepsInv(w, initial, s, EntryOf(stage));
    StageKeepsInv(w, initial, Advanced(s, EntryOf(stage)), id, stage);
  }

  lemma CommitIsGood(w: World, initial: map<TopicPartition, int>, s: State, id: nat, reply: CommitReply)
    requires Inv(w, initial, s) && Enabled(w, s, Commit(id, reply))
    ensures Inv(w, initial, Committed(s, id, reply))
  {
    CommitEndsOrAdvances(s, id, reply);
    if Committed(s, id, reply) == Ended(s, id) {
      StageKeepsInv(w, initial, s, id, s.calls[id]);
    } else {
      AdvancedIsGood(w, initial, s, id);
    }
  }

  ghost predicate Runnable(w: World, s: State, run: seq<Step>)
    decreases |run|
  {
    run == [] || (Enabled(w, s, run[0]) && Runnable(w, Do(w, s, run[0]), run[1..]))
  }

  ghost function Run(w: World, s: State, run: seq<Step>): State
    requires Runnable(w, s, run)
    decreases |run|
  {
    if run == [] then s else Run(w, Do(w, s, run[0]), run[1..])
  }

  lemma {:induction false} RunKeepsInv(w: World, initial: map<TopicPartition, int>, s: State, run: seq<Step>)
    requires Inv(w, initial, s) && Runnable(w, s, run)
    ensures Inv(w, initial, Run(w, s, run))
    decreases |run|
  {
    if run != [] {
      match run[0] {
        case Begin(id, call, view) => BeginIsGood(w, initial, s, id, call, view);
        case Transmit(id, ack) => TransmitIsGood(w, initial, s, id, ack);
        case Commit(id, reply) => CommitIsGood(w, initial, s, id, reply);
        case Die(_) =>
      }
      RunKeepsInv(w, initial, Do(w, s, run[0]), run[1..]);
    }
  }

  /** The journal holds exactly one move for every offset between the initial and the present one, in order. */
  lemma {:induction false} JournalCoversOffsets(initial: map<TopicPartition, int>, journal: seq<Entry>, committed: map<TopicPartition, int>)
    requires Explains(initial, journal, committed)
    ensures committed.Keys == initial.Keys
    ensures forall p :: p in initial ==> initial[p] <= committed[p]
    ensures forall i :: 0 <= i < |journal| ==>
      var p := journal[i].partition; p in initial && initial[p] <= journal[i].offset < committed[p]
    ensures forall i, j :: 0 <= i < j < |journal| && journal[i].partition == journal[j].partition ==>
      journal[i].offset < journal[j].offset
    ensures forall p, o :: p in initial && initial[p] <= o < committed[p] ==> Moved(journal, p, o)
    decreases |journal|
  {
    if journal != [] {
      var e, rest := journal[|journal| - 1], journal[..|journal| - 1];
      var before := committed[e.partition := e.offset];
      JournalCoversOffsets(initial, rest, before);
      assert before.Keys == committed.Keys;
      forall p, o | p in initial && initial[p] <= o < committed[p] ensures Moved(journal, p, o) {
        if p == e.partition && o == e.offset {
          assert journal[|journal| - 1] == e;
        } else {
          assert Moved(rest, p, o);
          var i :| 0 <= i < |rest| && rest[i].partition == p && rest[i].offset == o;
          assert journal[i] == rest[i];
        }
      }
    }
  }

  ghost predicate Moved(journal: seq<Entry>, p: TopicPartition, o: int) {
    exists i :: 0 <= i < |journal| && journal[i].partition == p && journal[i].offset == o
  }

  /** Some move past this offset is accounted for. */
  ghost predicate Settled(w: World, s: State, p: TopicPartition, o: int) {
    exists i :: 0 <= i < |s.journal| && s.journal[i].partition == p && s.journal[i].offset == o
      && AccountedEntry(w, s.sent, s.journal[i])
  }

  /**
   The offset ledger: in every run of any number of overlapping calls, partitions without a stored offset never
   get one, stored offsets never move back, and every offset that was passed was passed once, after its record
   was replayed with acknowledgement and flush, or disposed of with reason and approver.
   */
  lemma OffsetLedger(w: World, initial: map<TopicPartition, int>, run: seq<Step>)
    requires Runnable(w, State(initial, [], [], map[]), run)
    ensures var s := Run(w, State(initial, [], [], map[]), run);
      && s.committed.Keys == initial.Keys
      && (forall p :: p in initial ==> initial[p] <= s.committed[p])
      && (forall p, o :: p in initial && initial[p] <= o < s.committed[p] ==> Settled(w, s, p, o))
      && (forall i, j :: 0 <= i < j < |s.journal| && s.journal[i].partition == s.journal[j].partition ==>
            s.journal[i].offset < s.journal[j].offset)
      && (forall i :: 0 <= i < |s.sent| ==> ConfirmedReplay(s.sent[i]))
  {
    var zero := State(initial, [], [], map[]);
    RunKeepsInv(w, initial, zero, run);
    var s := Run(w, zero, run);
    JournalCoversOffsets(initial, s.journal, s.committed);
    forall p, o | p in initial && initial[p] <= o < s.committed[p] ensures Settled(w, s, p, o) {
      assert Moved(s.journal, p, o);
    }
  }

  /** In every run, whatever was done under one confirmation was done to one record. */
  lemma OneConfirmationOneRecord(w: World, initial: map<TopicPartition, int>, run: seq<Step>, i: nat, j: nat)
    requires Runnable(w, State(initial, [], [], map[]), run)
    ensures var s := Run(w, State(initial, [], [], map[]), run);
      && (i < |s.sent| && j < |s.sent| && s.sent[i].confirm == s.sent[j].confirm ==>
            s.sent[i].partition == s.sent[j].partition && s.sent[i].offset == s.sent[j].offset)
      && (i < |s.journal| && j < |s.journal| && s.journal[i].confirm == s.journal[j].confirm ==> i == j)
      && (i < |s.sent| && j < |s.journal| && s.sent[i].confirm == s.journal[j].confirm ==>
            s.sent[i].partition == s.journal[j].partition && s.sent[i].offset == s.journal[j].offset)
  {
    RunKeepsInv(w, initial, State(initial, [], [], map[]), run);
    var s := Run(w, State(initial, [], [], map[]), run);
    JournalCoversOffsets(initial, s.journal, s.committed);
    if i < |s.sent| && j < |s.sent| && s.sent[i].confirm == s.sent[j].confirm { SameReplay(s.sent[i], s.sent[j]); }
    if i < |s.journal| && j < |s.journal| && s.journal[i].confirm == s.journal[j].confirm { SameEntry(w, s.sent, s.journal[i], s.journal[j]); }
    if i < |s.sent| && j < |s.journal| && s.sent[i].confirm == s.journal[j].confirm { SameReplayAndEntry(w, s.sent, s.sent[i], s.journal[j]); }
  }

  lemma EntryIsConfirmed(w: World, sent: seq<Sent>, e: Entry) returns (prefix: string)
    requires AccountedEntry(w, sent, e)
    ensures ':' !in prefix && ConfirmedAs(e.confirm, prefix, e.partition, e.offset)
  {
    prefix := if e.how.Replayed? then "REPLAY-AND-COMMIT" else "DISPOSITION-AND-COMMIT";
  }

  lemma ReplayIsConfirmed(r: Sent) returns (prefix: string)
    requires ConfirmedReplay(r)
    ensures ':' !in prefix && ConfirmedAs(r.confirm, prefix, r.partition, r.offset)
  {
    prefix := if ConfirmedAs(r.confirm, "REPLAY", r.partition, r.offset) then "REPLAY" else "REPLAY-AND-COMMIT";
  }

  lemma SameReplay(r: Sent, t: Sent)
    requires ConfirmedReplay(r) && ConfirmedReplay(t) && r.confirm == t.confirm
    ensures r.partition == t.partition && r.offset == t.offset
  {
    var a := ReplayIsConfirmed(r);
    var b := ReplayIsConfirmed(t);
    ConfirmationNamesOneRecord(r.confirm, a, r.partition, r.offset, b, t.partition, t.offset);
  }

  lemma SameEntry(w: World, sent: seq<Sent>, e: Entry, f: Entry)
    requires AccountedEntry(w, sent, e) && AccountedEntry(w, sent, f) && e.confirm == f.confirm
    ensures e.partition == f.partition && e.offset == f.offset
  {
    var a := EntryIsConfirmed(w, sent, e);
    var b := EntryIsConfirmed(w, sent, f);
    ConfirmationNamesOneRecord(e.confirm, a, e.partition, e.offset, b, f.partition, f.offset);
  }

  lemma SameReplayAndEntry(w: World, sent: seq<Sent>, r: Sent, e: Entry)
    requires ConfirmedReplay(r) && AccountedEntry(w, sent, e) && r.confirm == e.confirm
    ensures r.partition == e.partition && r.offset == e.offset
  {
    var a := ReplayIsConfirmed(r);
    var b := EntryIsConfirmed(w, sent, e);
    ConfirmationNamesOneRecord(r.confirm, a, r.partition, r.offset, b, e.partition, e.offset);
  }

  /** The steps of a call that no other call overlaps. */
  function RunOf(w: World, s: State, id: nat, call: Call, view: View, ack: Ack, reply: CommitReply): seq<Step> {
    match PlanFor(w.rules, w.maxBytes, call, view, s.committed)
    case Send(envelope) =>
      if ack.NotAcked? || ack.topic != envelope.sourceTopic || !call.commit then [Begin(id, call, view), Transmit(id, ack)]
      else [Begin(id, call, view), Transmit(id, ack), Commit(id, reply)]
    case Dispose => [Begin(id, call, view), Commit(id, reply)]
    case _ => []
  }

  lemma Steps(w: World, s: State, run: seq<Step>)
    ensures |run| >= 1 && Enabled(w, s, run[0]) && Runnable(w, Do(w, s, run[0]), run[1..]) ==>
      Runnable(w, s, run) && Run(w, s, run) == Run(w, Do(w, s, run[0]), run[1..])
  {
  }

  lemma SendingIsARun(w: World, s: State, id: nat, call: Call, envelope: Parsed, ack: Ack, reply: CommitReply)
    requires id in s.calls && s.calls[id] == Sending(call, envelope)
    ensures var acked := ack.Flushed? && ack.topic == envelope.sourceTopic && call.commit;
      var run := if acked then [Transmit(id, ack), Commit(id, reply)] else [Transmit(id, ack)];
      var r := Carried(Send(envelope), call, ack, reply, s.committed, s.sent);
      && Runnable(w, s, run)
      && Run(w, s, run).committed == r.committed && Run(w, s, run).sent == r.sent && Run(w, s, run).calls == s.calls - {id}
  {
    var s1 := Transmitted(s, id, ack);
    assert [Transmit(id, ack), Commit(id, reply)][1..] == [Commit(id, reply)];
    assert Runnable(w, s1, []) && Run(w, s1, []) == s1;
    if id in s1.calls { CommittingIsARun(w, s1, id, reply); }
  }

  lemma CommittingIsARun(w: World, s: State, id: nat, reply: CommitReply)
    requires id in s.calls && s.calls[id].Committing?
    ensures Runnable(w, s, [Commit(id, reply)]) && Run(w, s, [Commit(id, reply)]) == Committed(s, id, reply)
  {
    assert [Commit(id, reply)][1..] == [];
  }

  /** A call that nothing overlaps is a run of the step system, with the same effect. */
  lemma ResolveIsARun(w: World, s: State, id: nat, call: Call, view: View, ack: Ack, reply: CommitReply)
    requires Enabled(w, s, Begin(id, call, view))
    ensures var run, r := RunOf(w, s, id, call, view, ack, reply), Resolved(w.rules, w.maxBytes, call, view, ack, reply, s.committed, s.sent);
      && Runnable(w, s, run)
      && Run(w, s, run).committed == r.committed && Run(w, s, run).sent == r.sent && Run(w, s, run).calls == s.calls
  {
    var plan := PlanFor(w.rules, w.maxBytes, call, view, s.committed);
    var run := RunOf(w, s, id, call, view, ack, reply);
    var s1 := Started(w, s, id, call, view);
    if plan.Send? || plan.Dispose? {
      assert s1.calls - {id} == s.calls;
      if plan.Send? { SendingIsARun(w, s1, id, call, plan.envelope, ack, reply); }
      else { CommittingIsARun(w, s1, id, reply); }
      Steps(w, s, run);
    }
  }
}
