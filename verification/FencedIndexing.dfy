/**
 The fenced fan-out protocol as a step system. Any number of workers process events at once.
 A worker holds the fences of all its event's targets from Begin to Finish or Abort; in between
 its loads, target writes and saves interleave freely with those of other workers. Deliveries may
 repeat and come in any order, and any target call may fail, which ends the attempt.
 */
module FencedIndexing {
  import opened Json
  import opened EventEnvelope
  import opened CheckpointStore

  /** What one target holds for one document. */
  datatype Content = Absent | Present(document: Value)

  function Effect(e: Event): Content {
    if e.operation == Upsert && e.document.Some? then Present(e.document.value) else Absent
  }

  /** After an upsert a copy is the event's document, after a delete or tombstone there is none. */
  ghost predicate Carries(c: Content, e: Event) {
    match e.operation
    case Upsert => e.document.Some? ==> c == Present(e.document.value)
    case Delete => c == Absent
    case Tombstone => c == Absent
  }

  /** The effect of the event that a checkpoint records. */
  function RecordedEffect(c: TargetCheckpoint): Content {
    var m := c.digest.mutation;
    if m.operation == Upsert && m.document.Some? then Present(m.document.value) else Absent
  }

  datatype Phase = Planning | Applying | Written

  /**
   One attempt: the plan covers a prefix of the targets while Planning; afterwards `next` is the
   target being treated, and Written means its document is changed but its checkpoint not yet saved.
   */
  datatype Attempt = Attempt(
    event: Event,
    plan: seq<Verdict>,
    phase: Phase,
    next: nat,
    staged: map<Key, TargetCheckpoint>)

  function SlotAt(e: Event, i: nat): Slot
    requires i < |e.targets|
  {
    Slot(e.identity, e.targets[i])
  }

  function KeyAt(e: Event, i: nat): Key
    requires i < |e.targets|
  {
    SlotKey(SlotAt(e, i))
  }

  /** The plan says to change target i, and no target has moved past the event. */
  predicate Writes(plan: seq<Verdict>, i: nat) {
    i < |plan| && plan[i] == Apply && Stale !in plan
  }

  /** Target i has been changed by this attempt. */
  predicate Touched(t: Attempt, i: nat) {
    && i < |t.event.targets|
    && Writes(t.plan, i)
    && ((t.phase != Planning && i < t.next) || (t.phase == Written && i == t.next))
  }

  datatype WriteRecord = WriteRecord(slot: Slot, event: Event)

  datatype World = World(
    committed: map<Key, TargetCheckpoint>,
    contents: map<Slot, Content>,
    attempts: map<nat, Attempt>,
    log: seq<WriteRecord>)

  datatype Action =
    | Begin(worker: nat, event: Event)
    | Load(worker: nat)
    | Turn(worker: nat)
    | Skip(worker: nat)
    | Write(worker: nat)
    | Save(worker: nat, appliedAtMs: int)
    | Finish(worker: nat)
    | Abort(worker: nat)

  function EventKeys(e: Event): set<Key> {
    set t | t in e.targets :: SlotKey(Slot(e.identity, t))
  }

  /** Whether an attempt that reads these rows can take this step. */
  predicate Ready(committed: map<Key, TargetCheckpoint>, t: Attempt, a: Action) {
    match a
    case Begin(_, _) => false
    case Load(_) =>
      && t.phase == Planning && |t.plan| < |t.event.targets|
      && Classify(t.event, Lookup(committed, KeyAt(t.event, |t.plan|))) != OrderingError
    case Turn(_) => t.phase == Planning && |t.plan| == |t.event.targets|
    case Skip(_) => t.phase == Applying && t.next < |t.event.targets| && !Writes(t.plan, t.next)
    case Write(_) => t.phase == Applying && t.next < |t.event.targets| && Writes(t.plan, t.next)
    case Save(_, _) => t.phase == Written && t.next < |t.event.targets|
    case Finish(_) => t.phase == Applying && t.next == |t.event.targets|
    case Abort(_) => t.phase != Written
  }

  predicate Enabled(s: World, a: Action) {
    if a.Begin? then
      && a.worker !in s.attempts
      && ValidEvent(a.event)
      && forall v :: v in s.attempts ==> EventKeys(a.event) !! EventKeys(s.attempts[v].event)
    else
      a.worker in s.attempts && Ready(s.committed, s.attempts[a.worker], a)
  }

  /** The step as the attempt sees it, while the attempt stays open. */
  function Moved(committed: map<Key, TargetCheckpoint>, t: Attempt, a: Action): Attempt
    requires Ready(committed, t, a) && !a.Finish? && !a.Abort?
  {
    match a
    case Load(_) => t.(plan := t.plan + [Classify(t.event, Lookup(committed, KeyAt(t.event, |t.plan|)))])
    case Turn(_) => t.(phase := Applying)
    case Skip(_) => t.(next := t.next + 1)
    case Write(_) => t.(phase := Written)
    case Save(_, ms) =>
      var c := CheckpointFromEvent(t.event, t.event.targets[t.next], ms);
      t.(phase := Applying, next := t.next + 1, staged := t.staged[SavedKey(c) := c])
  }

  function Set(s: World, w: nat, t: Attempt): World {
    s.(attempts := s.attempts[w := t])
  }

  /** Commit whatever was saved, release the fences. */
  function Close(s: World, w: nat): World
    requires w in s.attempts
  {
    s.(committed := s.committed + s.attempts[w].staged, attempts := s.attempts - {w})
  }

  function Do(s: World, a: Action): World
    requires Enabled(s, a)
  {
    if a.Begin? then Set(s, a.worker, Attempt(a.event, [], Planning, 0, map[]))
    else if a.Finish? || a.Abort? then Close(s, a.worker)
    else
      var t := s.attempts[a.worker];
      var s' := Set(s, a.worker, Moved(s.committed, t, a));
      if a.Write? then
        s'.(contents := s.contents[SlotAt(t.event, t.next) := Effect(t.event)],
            log := s.log + [WriteRecord(SlotAt(t.event, t.next), t.event)])
      else s'
  }

  ghost predicate Runnable(s: World, run: seq<Action>)
    decreases |run|
  {
    run == [] || (Enabled(s, run[0]) && Runnable(Do(s, run[0]), run[1..]))
  }

  ghost function Run(s: World, run: seq<Action>): World
    requires Runnable(s, run)
    decreases |run|
  {
    if run == [] then s else Run(Do(s, run[0]), run[1..])
  }

  // ---- Invariant -----------------------------------------------------------

  /** No two attempts hold the same fence. */
  ghost predicate Fenced(attempts: map<nat, Attempt>) {
    forall v, w :: v in attempts && w in attempts && v != w ==> EventKeys(attempts[v].event) !! EventKeys(attempts[w].event)
  }

  /** The plan still describes the committed rows. */
  ghost predicate PlanSound(committed: map<Key, TargetCheckpoint>, e: Event, plan: seq<Verdict>) {
    && |plan| <= |e.targets|
    && forall i :: 0 <= i < |plan| ==>
         plan[i] != OrderingError && plan[i] == Classify(e, Lookup(committed, KeyAt(e, i)))
  }

  /** The staged rows are those of the first `next` targets that the plan changes. */
  ghost predicate StagedSound(e: Event, plan: seq<Verdict>, next: nat, staged: map<Key, TargetCheckpoint>) {
    && next <= |e.targets|
    && (forall i :: 0 <= i < next && Writes(plan, i) ==>
          && KeyAt(e, i) in staged
          && staged[KeyAt(e, i)] == CheckpointFromEvent(e, e.targets[i], staged[KeyAt(e, i)].appliedAtMs))
    && (forall k :: k in staged ==> exists i :: 0 <= i < next && Writes(plan, i) && KeyAt(e, i) == k)
  }

  ghost predicate Sound(committed: map<Key, TargetCheckpoint>, t: Attempt) {
    && ValidEvent(t.event)
    && PlanSound(committed, t.event, t.plan)
    && StagedSound(t.event, t.plan, t.next, t.staged)
    && (t.phase == Planning ==> t.next == 0 && t.staged == map[])
    && (t.phase != Planning ==> |t.plan| == |t.event.targets|)
    && (t.phase == Written ==> t.next < |t.event.targets| && Writes(t.plan, t.next))
  }

  ghost predicate TouchedBySome(s: World, x: Slot) {
    exists w, i :: w in s.attempts && Touched(s.attempts[w], i) && SlotAt(s.attempts[w].event, i) == x
  }

  /** Content and checkpoint of a copy that no open attempt has changed. */
  ghost predicate Agrees(s: World, x: Slot) {
    SlotKey(x) in s.committed ==> x in s.contents && s.contents[x] == RecordedEffect(s.committed[SlotKey(x)])
  }

  ghost predicate Consistent(committed: map<Key, TargetCheckpoint>, attempts: map<nat, Attempt>) {
    && WellFiled(committed)
    && Fenced(attempts)
    && forall w :: w in attempts ==> Sound(committed, attempts[w])
  }

  ghost predicate Protocol(s: World) {
    Consistent(s.committed, s.attempts)
  }

  ghost predicate Agreement(s: World) {
    && (forall w, i :: w in s.attempts && Touched(s.attempts[w], i) ==>
          var x := SlotAt(s.attempts[w].event, i);
          x in s.contents && s.contents[x] == Effect(s.attempts[w].event))
    && (forall x :: ValidSlot(x) && !TouchedBySome(s, x) ==> Agrees(s, x))
  }

  // ---- Structural lemmas ---------------------------------------------------

  lemma KeyAtInKeys(e: Event, i: nat)
    requires i < |e.targets|
    ensures KeyAt(e, i) in EventKeys(e)
  {
    assert e.targets[i] in e.targets;
  }

  /** Inside one attempt, different targets have different keys. */
  lemma KeysDiffer(e: Event, i: nat, j: nat)
    requires ValidEvent(e) && i < |e.targets| && j < |e.targets|
    ensures KeyAt(e, i) == KeyAt(e, j) <==> i == j
  {
    SlotKeyInjective(SlotAt(e, i), SlotAt(e, j));
  }

  /** A copy touched by one attempt is not covered by another. */
  lemma OneToucher(s: World, v: nat, i: nat, w: nat, j: nat)
    requires Protocol(s) && v in s.attempts && w in s.attempts
    requires i < |s.attempts[v].event.targets| && j < |s.attempts[w].event.targets|
    requires SlotAt(s.attempts[v].event, i) == SlotAt(s.attempts[w].event, j)
    ensures v == w && i == j
  {
    KeyAtInKeys(s.attempts[v].event, i);
    KeyAtInKeys(s.attempts[w].event, j);
    KeysDiffer(s.attempts[w].event, i, j);
  }

  /** Committing one attempt leaves every row fenced by another alone. */
  lemma CloseKeepsOthers(s: World, w: nat, v: nat)
    requires Protocol(s) && w in s.attempts && v in s.attempts && v != w
    ensures Sound(s.committed + s.attempts[w].staged, s.attempts[v])
  {
    var t, u := s.attempts[w], s.attempts[v];
    forall i | 0 <= i < |u.event.targets| ensures KeyAt(u.event, i) !in t.staged {
      KeyAtInKeys(u.event, i);
      forall k | k in t.staged ensures k in EventKeys(t.event) {
        var j :| 0 <= j < t.next && Writes(t.plan, j) && KeyAt(t.event, j) == k;
        KeyAtInKeys(t.event, j);
      }
    }
  }

  /** A staged row is filed under its key and advances the committed one. */
  lemma StagedRows(committed: map<Key, TargetCheckpoint>, t: Attempt, k: Key)
    requires Sound(committed, t) && k in t.staged
    ensures Faithful(t.staged[k]) && SavedKey(t.staged[k]) == k && t.staged[k].digest == EventDigest(t.event)
    ensures k in committed ==> Advances(committed[k], t.staged[k])
  {
    var i :| 0 <= i < t.next && Writes(t.plan, i) && KeyAt(t.event, i) == k;
    FromEventIsFaithful(t.event, t.event.targets[i], t.staged[k].appliedAtMs);
  }

  lemma CloseKeepsProtocol(s: World, w: nat)
    requires Protocol(s) && w in s.attempts
    ensures Protocol(Close(s, w))
  {
    var s' := Close(s, w);
    forall k | k in s'.committed ensures Faithful(s'.committed[k]) && SavedKey(s'.committed[k]) == k {
      if k in s.attempts[w].staged { StagedRows(s.committed, s.attempts[w], k); }
    }
    forall v | v in s'.attempts ensures Sound(s'.committed, s'.attempts[v]) { CloseKeepsOthers(s, w, v); }
  }

  lemma SkipKeepsStaged(e: Event, plan: seq<Verdict>, next: nat, staged: map<Key, TargetCheckpoint>)
    requires StagedSound(e, plan, next, staged) && next < |e.targets| && !Writes(plan, next)
    ensures StagedSound(e, plan, next + 1, staged)
  {
    forall k | k in staged ensures exists i :: 0 <= i < next + 1 && Writes(plan, i) && KeyAt(e, i) == k {
      var i :| 0 <= i < next && Writes(plan, i) && KeyAt(e, i) == k;
    }
  }

  /** The rows staged once the next target is saved as well. */
  function Saved(e: Event, next: nat, staged: map<Key, TargetCheckpoint>, ms: int): map<Key, TargetCheckpoint>
    requires next < |e.targets|
  {
    staged[KeyAt(e, next) := CheckpointFromEvent(e, e.targets[next], ms)]
  }

  lemma SaveKeepsStaged(e: Event, plan: seq<Verdict>, next: nat, staged: map<Key, TargetCheckpoint>, ms: int)
    requires ValidEvent(e) && StagedSound(e, plan, next, staged) && next < |e.targets| && Writes(plan, next)
    ensures StagedSound(e, plan, next + 1, Saved(e, next, staged, ms))
  {
    var staged' := Saved(e, next, staged, ms);
    forall i | 0 <= i < next + 1 && Writes(plan, i)
      ensures KeyAt(e, i) in staged'
      ensures staged'[KeyAt(e, i)] == CheckpointFromEvent(e, e.targets[i], staged'[KeyAt(e, i)].appliedAtMs)
    {
      KeysDiffer(e, i, next);
    }
    forall k | k in staged' ensures exists i :: 0 <= i < next + 1 && Writes(plan, i) && KeyAt(e, i) == k {
      if k in staged {
        var i :| 0 <= i < next && Writes(plan, i) && KeyAt(e, i) == k;
      }
    }
  }

  /** A step keeps the attempt that takes it sound. */
  lemma MovedIsSound(committed: map<Key, TargetCheckpoint>, t: Attempt, a: Action)
    requires Sound(committed, t) && Ready(committed, t, a) && !a.Finish? && !a.Abort?
    ensures Sound(committed, Moved(committed, t, a)) && Moved(committed, t, a).event == t.event
  {
    if a.Save? { SaveKeepsStaged(t.event, t.plan, t.next, t.staged, a.appliedAtMs); }
    if a.Skip? { SkipKeepsStaged(t.event, t.plan, t.next, t.staged); }
  }

  /** Replacing the state of an open attempt by another sound state of the same event. */
  lemma ReplaceKeepsConsistent(committed: map<Key, TargetCheckpoint>, attempts: map<nat, Attempt>, w: nat, t: Attempt)
    requires Consistent(committed, attempts) && w in attempts && t.event == attempts[w].event && Sound(committed, t)
    ensures Consistent(committed, attempts[w := t])
  {
  }

  lemma BeginKeepsProtocol(s: World, a: Action)
    requires Protocol(s) && a.Begin? && Enabled(s, a)
    ensures Protocol(Do(s, a))
  {
    assert Sound(s.committed, Attempt(a.event, [], Planning, 0, map[]));
  }

  /** Every step keeps the protocol invariant. */
  lemma StepKeepsProtocol(s: World, a: Action)
    requires Protocol(s) && Enabled(s, a)
    ensures Protocol(Do(s, a))
  {
    if a.Begin? {
      BeginKeepsProtocol(s, a);
    } else if a.Finish? || a.Abort? {
      CloseKeepsProtocol(s, a.worker);
    } else {
      var t := s.attempts[a.worker];
      MovedIsSound(s.committed, t, a);
      ReplaceKeepsConsistent(s.committed, s.attempts, a.worker, Moved(s.committed, t, a));
    }
  }

  // ---- Agreement -----------------------------------------------------------

  /** What was touched stays touched when every attempt stays open and forgets no target. */
  lemma TouchCarries(s: World, s': World, x: Slot)
    requires forall w, i: nat :: w in s.attempts && Touched(s.attempts[w], i) ==>
      w in s'.attempts && Touched(s'.attempts[w], i) && s'.attempts[w].event == s.attempts[w].event
    ensures TouchedBySome(s, x) ==> TouchedBySome(s', x)
  {
    if TouchedBySome(s, x) {
      var w, i :| w in s.attempts && Touched(s.attempts[w], i) && SlotAt(s.attempts[w].event, i) == x;
      assert Touched(s'.attempts[w], i) && SlotAt(s'.attempts[w].event, i) == x;
    }
  }

  /** Closing an attempt forgets only the targets whose rows it commits. */
  lemma CloseTouch(s: World, w: nat, x: Slot)
    requires Protocol(s) && w in s.attempts && s.attempts[w].phase != Written && SlotKey(x) !in s.attempts[w].staged
    ensures TouchedBySome(s, x) ==> TouchedBySome(Close(s, w), x)
  {
    if TouchedBySome(s, x) {
      var s' := Close(s, w);
      var v, i :| v in s.attempts && Touched(s.attempts[v], i) && SlotAt(s.attempts[v].event, i) == x;
      assert v in s'.attempts && Touched(s'.attempts[v], i) && SlotAt(s'.attempts[v].event, i) == x;
    }
  }

  /** A step that changes no document and commits nothing keeps agreement. */
  lemma QuietKeepsAgreement(s: World, s': World)
    requires Agreement(s) && s'.committed == s.committed && s'.contents == s.contents
    requires forall w :: w in s.attempts ==> w in s'.attempts && s'.attempts[w].event == s.attempts[w].event
    requires forall w, i: nat :: w in s'.attempts ==>
      (Touched(s'.attempts[w], i) <==> w in s.attempts && Touched(s.attempts[w], i))
    ensures Agreement(s')
  {
    forall x | ValidSlot(x) && !TouchedBySome(s', x) ensures Agrees(s', x) {
      TouchCarries(s, s', x);
      assert Agrees(s, x);
    }
  }

  lemma WriteKeepsAgreement(s: World, a: Action)
    requires Protocol(s) && Agreement(s) && a.Write? && Enabled(s, a)
    ensures Agreement(Do(s, a))
  {
    var s' := Do(s, a);
    forall v, i | v in s'.attempts && Touched(s'.attempts[v], i)
      ensures var y := SlotAt(s'.attempts[v].event, i); y in s'.contents && s'.contents[y] == Effect(s'.attempts[v].event)
    {
      WriteKeepsTouched(s, a, v, i);
    }
    WriteTouches(s, a);
    forall w, i: nat | w in s.attempts && Touched(s.attempts[w], i)
      ensures w in s'.attempts && Touched(s'.attempts[w], i) && s'.attempts[w].event == s.attempts[w].event
    {
      TouchPersists(s, a, w, i);
    }
    forall y | ValidSlot(y) && !TouchedBySome(s', y) ensures Agrees(s', y) {
      TouchCarries(s, s', y);
      assert Agrees(s, y);
    }
  }

  lemma WriteKeepsTouched(s: World, a: Action, v: nat, i: nat)
    requires Protocol(s) && Agreement(s) && a.Write? && Enabled(s, a)
    requires v in Do(s, a).attempts && Touched(Do(s, a).attempts[v], i)
    ensures var s' := Do(s, a); var y := SlotAt(s'.attempts[v].event, i);
      y in s'.contents && s'.contents[y] == Effect(s'.attempts[v].event)
  {
    var t := s.attempts[a.worker];
    WriteTouchesOne(s, a, v, i);
    var y := SlotAt(s.attempts[v].event, i);
    WriteChangesOne(s, a, y);
    if v != a.worker || i != t.next {
      DistinctSlots(s, v, i, a.worker, t.next);
      TouchedHolds(s, v, i);
    }
  }

  lemma TouchedHolds(s: World, v: nat, i: nat)
    requires Agreement(s) && v in s.attempts && Touched(s.attempts[v], i)
    ensures var y := SlotAt(s.attempts[v].event, i); y in s.contents && s.contents[y] == Effect(s.attempts[v].event)
  {
  }

  lemma WriteChangesOne(s: World, a: Action, y: Slot)
    requires a.Write? && Enabled(s, a)
    ensures var t := s.attempts[a.worker];
      if y == SlotAt(t.event, t.next) then y in Do(s, a).contents && Do(s, a).contents[y] == Effect(t.event)
      else (y in Do(s, a).contents <==> y in s.contents) && (y in s.contents ==> Do(s, a).contents[y] == s.contents[y])
  {
  }

  lemma WriteTouchesOne(s: World, a: Action, v: nat, i: nat)
    requires a.Write? && Enabled(s, a) && v in Do(s, a).attempts && Touched(Do(s, a).attempts[v], i)
    ensures v in s.attempts && s.attempts[v].event == Do(s, a).attempts[v].event
    ensures (v == a.worker && i == s.attempts[v].next) || Touched(s.attempts[v], i)
  {
  }

  lemma DistinctSlots(s: World, v: nat, i: nat, w: nat, j: nat)
    requires Protocol(s) && v in s.attempts && w in s.attempts && (v != w || i != j)
    requires i < |s.attempts[v].event.targets| && j < |s.attempts[w].event.targets|
    ensures SlotAt(s.attempts[v].event, i) != SlotAt(s.attempts[w].event, j)
  {
    if SlotAt(s.attempts[v].event, i) == SlotAt(s.attempts[w].event, j) { OneToucher(s, v, i, w, j); }
  }

  lemma WriteTouches(s: World, a: Action)
    requires Protocol(s) && a.Write? && Enabled(s, a)
    ensures TouchedBySome(Do(s, a), SlotAt(s.attempts[a.worker].event, s.attempts[a.worker].next))
  {
    var s', t := Do(s, a), s.attempts[a.worker];
    assert Touched(s'.attempts[a.worker], t.next) && SlotAt(s'.attempts[a.worker].event, t.next) == SlotAt(t.event, t.next);
  }

  lemma CloseKeepsAgreement(s: World, w: nat)
    requires Protocol(s) && Agreement(s) && w in s.attempts && s.attempts[w].phase != Written
    ensures Agreement(Close(s, w))
  {
    var s', t := Close(s, w), s.attempts[w];
    forall v, i | v in s'.attempts && Touched(s'.attempts[v], i)
      ensures var y := SlotAt(s'.attempts[v].event, i); y in s'.contents && s'.contents[y] == Effect(s'.attempts[v].event)
    {
      assert Touched(s.attempts[v], i);
    }
    forall x | ValidSlot(x) && !TouchedBySome(s', x) ensures Agrees(s', x) {
      if SlotKey(x) in t.staged {
        var i :| 0 <= i < t.next && Writes(t.plan, i) && KeyAt(t.event, i) == SlotKey(x);
        SlotKeyInjective(SlotAt(t.event, i), x);
        assert Touched(t, i);
      } else {
        CloseTouch(s, w, x);
        assert Agrees(s, x);
      }
    }
  }

  /** Loads, turns, skips and saves touch nothing further, and forget nothing. */
  lemma QuietTouch(s: World, a: Action)
    requires Enabled(s, a) && !a.Write? && !a.Finish? && !a.Abort?
    requires a.Turn? ==> s.attempts[a.worker].next == 0
    ensures Do(s, a).committed == s.committed && Do(s, a).contents == s.contents
    ensures forall w :: w in s.attempts ==> w in Do(s, a).attempts && Do(s, a).attempts[w].event == s.attempts[w].event
    ensures forall w, i: nat :: w in Do(s, a).attempts ==>
      (Touched(Do(s, a).attempts[w], i) <==> w in s.attempts && Touched(s.attempts[w], i))
  {
  }

  /** Every step keeps content and checkpoint in agreement. */
  lemma StepKeepsAgreement(s: World, a: Action)
    requires Protocol(s) && Agreement(s) && Enabled(s, a)
    ensures Agreement(Do(s, a))
  {
    if a.Write? { WriteKeepsAgreement(s, a); }
    else if a.Finish? || a.Abort? { CloseKeepsAgreement(s, a.worker); }
    else {
      if a.Turn? { assert Sound(s.committed, s.attempts[a.worker]); }
      QuietTouch(s, a);
      QuietKeepsAgreement(s, Do(s, a));
    }
  }

  /** A world in which every worker is idle and every checkpointed copy agrees with its checkpoint. */
  ghost predicate Quiescent(s: World) {
    && WellFiled(s.committed) && s.attempts == map[]
    && forall x :: ValidSlot(x) ==> Agrees(s, x)
  }

  lemma QuiescentIsGood(s: World)
    requires Quiescent(s)
    ensures Protocol(s) && Agreement(s)
  {
  }

  lemma {:induction false} RunKeepsInvariant(s: World, run: seq<Action>)
    requires Protocol(s) && Agreement(s) && Runnable(s, run)
    ensures Protocol(Run(s, run)) && Agreement(Run(s, run))
    decreases |run|
  {
    if run != [] {
      StepKeepsProtocol(s, run[0]);
      StepKeepsAgreement(s, run[0]);
      RunKeepsInvariant(Do(s, run[0]), run[1..]);
    }
  }

  /** The copy is the document of the mutation that the checkpoint records, or there is none and the row is a tombstone. */
  ghost predicate Records(c: TargetCheckpoint, contents: map<Slot, Content>, x: Slot) {
    && x in contents
    && (contents[x] == Absent <==> c.tombstone)
    && (c.digest.mutation.document.Some? <==> !c.tombstone)
    && (!c.tombstone ==> contents[x] == Present(c.digest.mutation.document.value))
  }

  /**
   Agreement in every run: a copy that no open attempt has changed holds the effect of the event its
   checkpoint records, and one that an open attempt has changed holds that attempt's effect.
   */
  lemma AgreementInEveryRun(s: World, run: seq<Action>, x: Slot)
    requires Quiescent(s) && Runnable(s, run) && ValidSlot(x)
    ensures var s' := Run(s, run);
      && (!TouchedBySome(s', x) ==> Agrees(s', x))
      && (forall w, i :: w in s'.attempts && Touched(s'.attempts[w], i) && SlotAt(s'.attempts[w].event, i) == x ==>
            x in s'.contents && Carries(s'.contents[x], s'.attempts[w].event))
      && (!TouchedBySome(s', x) && SlotKey(x) in s'.committed ==> Records(s'.committed[SlotKey(x)], s'.contents, x))
      && (s'.attempts == map[] ==> Quiescent(s'))
  {
    QuiescentIsGood(s);
    RunKeepsInvariant(s, run);
    var s' := Run(s, run);
    if s'.attempts == map[] {
      forall y | ValidSlot(y) ensures Agrees(s', y) { assert !TouchedBySome(s', y); }
    }
  }

  // ---- Checkpoints only advance --------------------------------------------

  ghost predicate OnlyAdvances(before: map<Key, TargetCheckpoint>, after: map<Key, TargetCheckpoint>) {
    forall k :: k in before ==>
      && k in after
      && (after[k] == before[k]
          || (before[k].sequence < after[k].sequence && before[k].documentVersion < after[k].documentVersion))
  }

  lemma AdvancesCompose(a: map<Key, TargetCheckpoint>, b: map<Key, TargetCheckpoint>, c: map<Key, TargetCheckpoint>)
    requires OnlyAdvances(a, b) && OnlyAdvances(b, c)
    ensures OnlyAdvances(a, c)
  {
  }

  lemma StepOnlyAdvances(s: World, a: Action)
    requires Protocol(s) && Enabled(s, a)
    ensures OnlyAdvances(s.committed, Do(s, a).committed)
  {
    if a.Finish? || a.Abort? { StagedAdvances(s.committed, s.attempts[a.worker]); }
  }

  lemma StagedAdvances(committed: map<Key, TargetCheckpoint>, t: Attempt)
    requires Sound(committed, t)
    ensures OnlyAdvances(committed, committed + t.staged)
  {
    forall k | k in committed && k in t.staged ensures Advances(committed[k], t.staged[k]) {
      StagedRows(committed, t, k);
    }
  }

  /** Over any run, a row is never lost and changes only to a point with both coordinates strictly greater. */
  lemma {:induction false} CheckpointsOnlyAdvance(s: World, run: seq<Action>)
    requires Protocol(s) && Runnable(s, run)
    ensures OnlyAdvances(s.committed, Run(s, run).committed)
    decreases |run|
  {
    if run != [] {
      StepKeepsProtocol(s, run[0]);
      StepOnlyAdvances(s, run[0]);
      CheckpointsOnlyAdvance(Do(s, run[0]), run[1..]);
      AdvancesCompose(s.committed, Do(s, run[0]).committed, Run(s, run).committed);
    }
  }

  // ---- Writes --------------------------------------------------------------

  /** The checkpoint lies after the event in at least one coordinate. */
  ghost predicate Newer(c: TargetCheckpoint, e: Event) {
    c.sequence > e.sequence || c.documentVersion > e.documentVersion
  }

  /**
   No obsolete writes: when an event changes a target, none of its own targets has a newer checkpoint,
   committed or staged by anyone, and the target it changes has only an older one.
   */
  lemma WriteIsNeverObsolete(s: World, a: Action, i: nat)
    requires Protocol(s) && a.Write? && Enabled(s, a) && i < |s.attempts[a.worker].event.targets|
    ensures var e := s.attempts[a.worker].event;
      && (KeyAt(e, i) in s.committed ==> !Newer(s.committed[KeyAt(e, i)], e))
      && (forall v :: v in s.attempts && KeyAt(e, i) in s.attempts[v].staged ==> !Newer(s.attempts[v].staged[KeyAt(e, i)], e))
      && (i == s.attempts[a.worker].next && KeyAt(e, i) in s.committed ==>
            s.committed[KeyAt(e, i)].sequence < e.sequence && s.committed[KeyAt(e, i)].documentVersion < e.documentVersion)
  {
    var t := s.attempts[a.worker];
    if KeyAt(t.event, i) in s.committed { PlannedIsNotNewer(s.committed, t, i); }
    forall v | v in s.attempts && KeyAt(t.event, i) in s.attempts[v].staged
      ensures !Newer(s.attempts[v].staged[KeyAt(t.event, i)], t.event)
    {
      StagedIsOwn(s, v, a.worker, i);
    }
  }

  lemma PlannedIsNotNewer(committed: map<Key, TargetCheckpoint>, t: Attempt, i: nat)
    requires Sound(committed, t) && i < |t.plan| && Stale !in t.plan && KeyAt(t.event, i) in committed
    ensures !Newer(committed[KeyAt(t.event, i)], t.event)
    ensures t.plan[i] == Apply ==>
      committed[KeyAt(t.event, i)].sequence < t.event.sequence && committed[KeyAt(t.event, i)].documentVersion < t.event.documentVersion
  {
    assert t.plan[i] in t.plan;
  }

  lemma StagedUnderOwnFence(s: World, v: nat, w: nat, i: nat)
    requires Protocol(s) && v in s.attempts && w in s.attempts && i < |s.attempts[w].event.targets|
    requires KeyAt(s.attempts[w].event, i) in s.attempts[v].staged
    ensures v == w
  {
    var t, u := s.attempts[w], s.attempts[v];
    KeyAtInKeys(t.event, i);
    var j :| 0 <= j < u.next && Writes(u.plan, j) && KeyAt(u.event, j) == KeyAt(t.event, i);
    KeyAtInKeys(u.event, j);
  }

  /** Whatever is staged under a fence was staged by the holder of the fence, from its own event. */
  lemma StagedIsOwn(s: World, v: nat, w: nat, i: nat)
    requires Protocol(s) && v in s.attempts && w in s.attempts && i < |s.attempts[w].event.targets|
    requires KeyAt(s.attempts[w].event, i) in s.attempts[v].staged
    ensures v == w && s.attempts[v].staged[KeyAt(s.attempts[w].event, i)].digest == EventDigest(s.attempts[w].event)
    ensures !Newer(s.attempts[v].staged[KeyAt(s.attempts[w].event, i)], s.attempts[w].event)
  {
    StagedUnderOwnFence(s, v, w, i);
    StagedRows(s.committed, s.attempts[w], KeyAt(s.attempts[w].event, i));
  }

  /** Everything ever written to a copy is at or before what it now stands for. */
  ghost predicate Reflected(s: World, r: WriteRecord) {
    || (SlotKey(r.slot) in s.committed && !Outruns(r.event, s.committed[SlotKey(r.slot)]))
    || (exists w, i :: w in s.attempts && Touched(s.attempts[w], i)
          && SlotAt(s.attempts[w].event, i) == r.slot && s.attempts[w].event == r.event)
  }

  /** The event lies after the checkpoint in some coordinate. */
  ghost predicate Outruns(e: Event, c: TargetCheckpoint) {
    e.sequence > c.sequence || e.documentVersion > c.documentVersion
  }

  ghost predicate LogReflected(s: World) {
    forall n :: 0 <= n < |s.log| ==> ValidSlot(s.log[n].slot) && Reflected(s, s.log[n])
  }

  /** Successive writes to one copy strictly increase in both coordinates. */
  ghost predicate LogIncreases(log: seq<WriteRecord>) {
    forall m, n :: 0 <= m < n < |log| && log[m].slot == log[n].slot ==> Precedes(log[m].event, log[n].event)
  }

  lemma RowsStayAhead(before: map<Key, TargetCheckpoint>, after: map<Key, TargetCheckpoint>, r: WriteRecord)
    requires OnlyAdvances(before, after) && SlotKey(r.slot) in before && !Outruns(r.event, before[SlotKey(r.slot)])
    ensures SlotKey(r.slot) in after && !Outruns(r.event, after[SlotKey(r.slot)])
  {
  }

  lemma ReflectedSurvives(s: World, a: Action, r: WriteRecord)
    requires Protocol(s) && Enabled(s, a) && ValidSlot(r.slot) && Reflected(s, r)
    ensures Reflected(Do(s, a), r)
  {
    if SlotKey(r.slot) in s.committed && !Outruns(r.event, s.committed[SlotKey(r.slot)]) {
      StepOnlyAdvances(s, a);
      RowsStayAhead(s.committed, Do(s, a).committed, r);
    } else {
      var w, i :| w in s.attempts && Touched(s.attempts[w], i)
        && SlotAt(s.attempts[w].event, i) == r.slot && s.attempts[w].event == r.event;
      OpenRecordSurvives(s, a, r, w, i);
    }
  }

  lemma OpenRecordSurvives(s: World, a: Action, r: WriteRecord, w: nat, i: nat)
    requires Protocol(s) && Enabled(s, a) && w in s.attempts && Touched(s.attempts[w], i)
    requires SlotAt(s.attempts[w].event, i) == r.slot && s.attempts[w].event == r.event
    ensures Reflected(Do(s, a), r)
  {
    if (a.Finish? || a.Abort?) && a.worker == w {
      assert KeyAt(r.event, i) in s.attempts[w].staged;
    } else {
      TouchPersists(s, a, w, i);
    }
  }

  lemma TouchPersists(s: World, a: Action, w: nat, i: nat)
    requires Enabled(s, a) && w in s.attempts && Touched(s.attempts[w], i)
    requires !((a.Finish? || a.Abort?) && a.worker == w)
    ensures w in Do(s, a).attempts && Touched(Do(s, a).attempts[w], i)
    ensures Do(s, a).attempts[w].event == s.attempts[w].event
  {
  }

  lemma EarlierWritePrecedes(s: World, a: Action, r: WriteRecord)
    requires Protocol(s) && a.Write? && Enabled(s, a) && Reflected(s, r)
    requires var t := s.attempts[a.worker]; r.slot == SlotAt(t.event, t.next)
    ensures Precedes(r.event, s.attempts[a.worker].event)
  {
    var t := s.attempts[a.worker];
    if SlotKey(r.slot) in s.committed && !Outruns(r.event, s.committed[SlotKey(r.slot)]) {
      assert t.plan[t.next] == Classify(t.event, Lookup(s.committed, KeyAt(t.event, t.next)));
    } else {
      var w, i :| w in s.attempts && Touched(s.attempts[w], i)
        && SlotAt(s.attempts[w].event, i) == r.slot && s.attempts[w].event == r.event;
      OneToucher(s, w, i, a.worker, t.next);
    }
  }

  lemma WriteExtendsLog(s: World, a: Action)
    requires Protocol(s) && LogReflected(s) && LogIncreases(s.log) && a.Write? && Enabled(s, a)
    ensures LogIncreases(Do(s, a).log)
  {
    var t := s.attempts[a.worker];
    forall m | 0 <= m < |s.log| && s.log[m].slot == SlotAt(t.event, t.next) ensures Precedes(s.log[m].event, t.event) {
      EarlierWritePrecedes(s, a, s.log[m]);
    }
  }

  lemma StepKeepsLog(s: World, a: Action)
    requires Protocol(s) && LogReflected(s) && LogIncreases(s.log) && Enabled(s, a)
    ensures LogReflected(Do(s, a)) && LogIncreases(Do(s, a).log)
  {
    var s' := Do(s, a);
    forall n | 0 <= n < |s.log| ensures Reflected(s', s.log[n]) { ReflectedSurvives(s, a, s.log[n]); }
    if a.Write? {
      WriteExtendsLog(s, a);
      var t := s.attempts[a.worker];
      assert Touched(s'.attempts[a.worker], t.next);
    }
  }

  lemma {:induction false} RunKeepsLog(s: World, run: seq<Action>)
    requires Protocol(s) && LogReflected(s) && LogIncreases(s.log) && Runnable(s, run)
    ensures LogReflected(Run(s, run)) && LogIncreases(Run(s, run).log)
    decreases |run|
  {
    if run != [] {
      StepKeepsProtocol(s, run[0]);
      StepKeepsLog(s, run[0]);
      RunKeepsLog(Do(s, run[0]), run[1..]);
    }
  }

  /**
   Retries resume: over any run, however often an event is redelivered, retried or interrupted,
   each of its targets is changed by it at most once.
   */
  lemma EachTargetWrittenOnce(s: World, run: seq<Action>, m: nat, n: nat)
    requires Quiescent(s) && s.log == [] && Runnable(s, run)
    requires m < n < |Run(s, run).log| && Run(s, run).log[m].slot == Run(s, run).log[n].slot
    ensures var e, f := Run(s, run).log[m].event, Run(s, run).log[n].event;
      e.sequence < f.sequence && e.documentVersion < f.documentVersion && !SameMutation(e, f)
  {
    QuiescentIsGood(s);
    RunKeepsLog(s, run);
  }
}
