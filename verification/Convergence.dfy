/**
 Order-independent convergence of the fenced protocol. Fix an event `m` that every other delivery
 for its document either repeats or precedes in both coordinates. Once an attempt of `m` finishes,
 every target of `m` holds its effect and its checkpoint for good, whatever was delivered before,
 is still open, or comes later.
 */
module Convergence {
  import opened Json
  import opened EventEnvelope
  import opened CheckpointStore
  import opened FencedIndexing

  /** A delivery that repeats `m` or is an older event. */
  ghost predicate Below(e: Event, m: Event) {
    SameMutation(e, m) || (e.eventId != m.eventId && Precedes(e, m))
  }

  ghost predicate RowBelow(c: TargetCheckpoint, m: Event) {
    || c.digest == EventDigest(m)
    || (c.eventId != m.eventId && c.sequence < m.sequence && c.documentVersion < m.documentVersion)
  }

  ghost predicate RowsBelow(committed: map<Key, TargetCheckpoint>, m: Event) {
    forall k :: k in committed && committed[k].digest.mutation.identity == m.identity ==> RowBelow(committed[k], m)
  }

  ghost predicate OpenBelow(attempts: map<nat, Attempt>, m: Event) {
    forall w :: w in attempts && attempts[w].event.identity == m.identity ==> Below(attempts[w].event, m)
  }

  /** Deliveries of the run for the document of `m`. */
  ghost predicate DeliveriesBelow(run: seq<Action>, m: Event) {
    forall n :: 0 <= n < |run| && run[n].Begin? && run[n].event.identity == m.identity ==> Below(run[n].event, m)
  }

  /** Target `x` carries the effect of `m` and a checkpoint that records `m`. */
  ghost predicate Holds(s: World, m: Event, x: Slot) {
    && SlotKey(x) in s.committed && s.committed[SlotKey(x)].digest == EventDigest(m)
    && x in s.contents && s.contents[x] == Effect(m)
  }

  // ---- Judging below and against m -----------------------------------------

  lemma MatchesAreNotStale(m: Event, c: TargetCheckpoint)
    requires Faithful(c) && RowBelow(c, m)
    ensures Classify(m, Some(c)) == if c.digest == EventDigest(m) then Duplicate else Apply
  {
  }

  lemma BelowNeverApplies(e: Event, m: Event, c: TargetCheckpoint)
    requires Faithful(c) && c.digest == EventDigest(m) && Below(e, m)
    ensures Classify(e, Some(c)) == if SameMutation(e, m) then Duplicate else Stale
  {
    DigestBindsMutation(e, m);
  }

  lemma SameMutationSameDigest(e: Event, m: Event)
    requires SameMutation(e, m)
    ensures EventDigest(e) == EventDigest(m) && Effect(e) == Effect(m)
  {
    DigestBindsMutation(e, m);
  }

  // ---- Everything stays below m --------------------------------------------

  lemma StepKeepsBelow(s: World, a: Action, m: Event)
    requires Protocol(s) && Enabled(s, a) && RowsBelow(s.committed, m) && OpenBelow(s.attempts, m)
    requires a.Begin? && a.event.identity == m.identity ==> Below(a.event, m)
    ensures RowsBelow(Do(s, a).committed, m) && OpenBelow(Do(s, a).attempts, m)
  {
    if a.Finish? || a.Abort? { CloseKeepsRowsBelow(s.committed, s.attempts[a.worker], m); }
    StepKeepsOpenBelow(s, a, m);
  }

  lemma StepKeepsOpenBelow(s: World, a: Action, m: Event)
    requires Enabled(s, a) && OpenBelow(s.attempts, m)
    requires a.Begin? && a.event.identity == m.identity ==> Below(a.event, m)
    ensures OpenBelow(Do(s, a).attempts, m)
  {
    if a.Begin? {
      OneMoreBelow(s.attempts, a.worker, Attempt(a.event, [], Planning, 0, map[]), m);
    } else if !a.Finish? && !a.Abort? {
      OneMoreBelow(s.attempts, a.worker, Moved(s.committed, s.attempts[a.worker], a), m);
    }
  }

  lemma OneMoreBelow(attempts: map<nat, Attempt>, w: nat, t: Attempt, m: Event)
    requires OpenBelow(attempts, m) && (t.event.identity == m.identity ==> Below(t.event, m))
    ensures OpenBelow(attempts[w := t], m)
  {
  }

  lemma CloseKeepsRowsBelow(committed: map<Key, TargetCheckpoint>, t: Attempt, m: Event)
    requires Sound(committed, t) && RowsBelow(committed, m)
    requires t.event.identity == m.identity ==> Below(t.event, m)
    ensures RowsBelow(committed + t.staged, m)
  {
    forall k | k in t.staged && t.staged[k].digest.mutation.identity == m.identity ensures RowBelow(t.staged[k], m) {
      StagedRows(committed, t, k);
      if SameMutation(t.event, m) { SameMutationSameDigest(t.event, m); }
    }
  }

  // ---- Finishing m establishes it ------------------------------------------

  /** At the end of an attempt of `m`, every target was either changed by it or already recorded it. */
  lemma PlanOfGreatest(committed: map<Key, TargetCheckpoint>, t: Attempt, i: nat)
    requires WellFiled(committed) && Sound(committed, t) && RowsBelow(committed, t.event)
    requires i < |t.plan|
    ensures KeyAt(t.event, i) in committed ==>
      committed[KeyAt(t.event, i)].digest == EventDigest(t.event) || t.plan[i] == Apply
    ensures KeyAt(t.event, i) !in committed ==> t.plan[i] == Apply
    ensures t.plan[i] != Stale
  {
    var k := KeyAt(t.event, i);
    if k in committed {
      var c := committed[k];
      SlotKeyInjective(Slot(c.digest.mutation.identity, c.target), SlotAt(t.event, i));
      MatchesAreNotStale(t.event, c);
    }
  }

  lemma FinishEstablishes(s: World, w: nat, i: nat)
    requires Protocol(s) && Agreement(s) && Enabled(s, Finish(w))
    requires RowsBelow(s.committed, s.attempts[w].event) && i < |s.attempts[w].event.targets|
    ensures Holds(Do(s, Finish(w)), s.attempts[w].event, SlotAt(s.attempts[w].event, i))
  {
    var t := s.attempts[w];
    forall j | 0 <= j < |t.plan| ensures t.plan[j] != Stale { PlanOfGreatest(s.committed, t, j); }
    PlanOfGreatest(s.committed, t, i);
    var k := KeyAt(t.event, i);
    if t.plan[i] == Apply {
      assert Writes(t.plan, i) && Touched(t, i);
      StagedRows(s.committed, t, k);
      TouchedHolds(s, w, i);
    } else {
      UnwrittenKeepsRow(s, w, i);
    }
  }

  lemma UnwrittenKeepsRow(s: World, w: nat, i: nat)
    requires Protocol(s) && Agreement(s) && Enabled(s, Finish(w))
    requires i < |s.attempts[w].event.targets| && !Writes(s.attempts[w].plan, i)
    requires KeyAt(s.attempts[w].event, i) in s.committed
    requires s.committed[KeyAt(s.attempts[w].event, i)].digest == EventDigest(s.attempts[w].event)
    ensures Holds(Do(s, Finish(w)), s.attempts[w].event, SlotAt(s.attempts[w].event, i))
  {
    var t := s.attempts[w];
    var x := SlotAt(t.event, i);
    UnwrittenIsUntouched(s, w, i);
    assert Agrees(s, x);
    assert KeyAt(t.event, i) !in t.staged by { UnwrittenIsUnstaged(s.committed, t, i); }
  }

  lemma UnwrittenIsUnstaged(committed: map<Key, TargetCheckpoint>, t: Attempt, i: nat)
    requires Sound(committed, t) && i < |t.event.targets| && !Writes(t.plan, i)
    ensures KeyAt(t.event, i) !in t.staged
  {
    forall k | k in t.staged ensures k != KeyAt(t.event, i) {
      var j :| 0 <= j < t.next && Writes(t.plan, j) && KeyAt(t.event, j) == k;
      KeysDiffer(t.event, i, j);
    }
  }

  lemma UnwrittenIsUntouched(s: World, w: nat, i: nat)
    requires Protocol(s) && w in s.attempts && i < |s.attempts[w].event.targets| && !Writes(s.attempts[w].plan, i)
    ensures !TouchedBySome(s, SlotAt(s.attempts[w].event, i))
  {
    if TouchedBySome(s, SlotAt(s.attempts[w].event, i)) {
      var v, j :| v in s.attempts && Touched(s.attempts[v], j) && SlotAt(s.attempts[v].event, j) == SlotAt(s.attempts[w].event, i);
      OneToucher(s, v, j, w, i);
    }
  }

  // ---- Nothing undoes it ---------------------------------------------------

  /** Where `m` is recorded, no attempt below `m` plans a change. */
  lemma NoPlanToChange(committed: map<Key, TargetCheckpoint>, t: Attempt, m: Event, i: nat)
    requires WellFiled(committed) && Sound(committed, t) && i < |t.event.targets|
    requires t.event.identity == m.identity ==> Below(t.event, m)
    requires KeyAt(t.event, i) in committed && committed[KeyAt(t.event, i)].digest == EventDigest(m)
    ensures !Writes(t.plan, i)
  {
    var c := committed[KeyAt(t.event, i)];
    SlotKeyInjective(Slot(c.digest.mutation.identity, c.target), SlotAt(t.event, i));
    BelowNeverApplies(t.event, m, c);
  }

  lemma StepKeepsHolds(s: World, a: Action, m: Event, x: Slot)
    requires Protocol(s) && Enabled(s, a) && OpenBelow(s.attempts, m) && ValidSlot(x) && Holds(s, m, x)
    ensures Holds(Do(s, a), m, x)
  {
    if a.Finish? || a.Abort? {
      CloseKeepsHolds(s, a.worker, m, x);
    } else if a.Write? {
      var t := s.attempts[a.worker];
      if SlotAt(t.event, t.next) == x { NoPlanToChange(s.committed, t, m, t.next); }
    }
  }

  lemma CloseKeepsHolds(s: World, w: nat, m: Event, x: Slot)
    requires Protocol(s) && w in s.attempts && OpenBelow(s.attempts, m) && ValidSlot(x) && Holds(s, m, x)
    ensures Holds(Close(s, w), m, x)
  {
    var t := s.attempts[w];
    if SlotKey(x) in t.staged {
      var i :| 0 <= i < t.next && Writes(t.plan, i) && KeyAt(t.event, i) == SlotKey(x);
      NoPlanToChange(s.committed, t, m, i);
    }
  }

  // ---- Over runs -----------------------------------------------------------

  lemma {:induction false} RunKeepsBelow(s: World, run: seq<Action>, m: Event)
    requires Protocol(s) && Runnable(s, run) && DeliveriesBelow(run, m)
    requires RowsBelow(s.committed, m) && OpenBelow(s.attempts, m)
    ensures RowsBelow(Run(s, run).committed, m) && OpenBelow(Run(s, run).attempts, m)
    decreases |run|
  {
    if run != [] {
      StepKeepsProtocol(s, run[0]);
      StepKeepsBelow(s, run[0], m);
      RunKeepsBelow(Do(s, run[0]), run[1..], m);
    }
  }

  lemma {:induction false} RunKeepsHolds(s: World, run: seq<Action>, m: Event, x: Slot)
    requires Protocol(s) && Runnable(s, run) && DeliveriesBelow(run, m) && ValidSlot(x)
    requires RowsBelow(s.committed, m) && OpenBelow(s.attempts, m) && Holds(s, m, x)
    ensures Holds(Run(s, run), m, x)
    decreases |run|
  {
    if run != [] {
      StepKeepsProtocol(s, run[0]);
      StepKeepsBelow(s, run[0], m);
      StepKeepsHolds(s, run[0], m, x);
      RunKeepsHolds(Do(s, run[0]), run[1..], m, x);
    }
  }

  /** Convergence: finishing the greatest event settles all its targets for the rest of the run. */
  lemma Converges(s0: World, before: seq<Action>, w: nat, after: seq<Action>, m: Event, target: string)
    requires Quiescent(s0) && RowsBelow(s0.committed, m)
    requires Runnable(s0, before) && DeliveriesBelow(before, m)
    requires Enabled(Run(s0, before), Finish(w)) && Run(s0, before).attempts[w].event == m
    requires Runnable(Do(Run(s0, before), Finish(w)), after) && DeliveriesBelow(after, m)
    requires target in m.targets
    ensures var s := Run(Do(Run(s0, before), Finish(w)), after);
      Holds(s, m, Slot(m.identity, target)) && Carries(s.contents[Slot(m.identity, target)], m)
  {
    QuiescentIsGood(s0);
    RunKeepsInvariant(s0, before);
    RunKeepsBelow(s0, before, m);
    var s := Run(s0, before);
    var i :| 0 <= i < |m.targets| && m.targets[i] == target;
    FinishEstablishes(s, w, i);
    StepKeepsProtocol(s, Finish(w));
    StepKeepsBelow(s, Finish(w), m);
    RunKeepsHolds(Do(s, Finish(w)), after, m, Slot(m.identity, target));
  }

  /** Two histories that both finish the greatest event leave its targets in the same state. */
  lemma OrderIndependence(s0: World, before: seq<Action>, w: nat, after: seq<Action>,
                          s0': World, before': seq<Action>, w': nat, after': seq<Action>, m: Event, target: string)
    requires Quiescent(s0) && RowsBelow(s0.committed, m) && Quiescent(s0') && RowsBelow(s0'.committed, m)
    requires Runnable(s0, before) && DeliveriesBelow(before, m)
    requires Runnable(s0', before') && DeliveriesBelow(before', m)
    requires Enabled(Run(s0, before), Finish(w)) && Run(s0, before).attempts[w].event == m
    requires Enabled(Run(s0', before'), Finish(w')) && Run(s0', before').attempts[w'].event == m
    requires Runnable(Do(Run(s0, before), Finish(w)), after) && DeliveriesBelow(after, m)
    requires Runnable(Do(Run(s0', before'), Finish(w')), after') && DeliveriesBelow(after', m)
    requires target in m.targets
    ensures var x := Slot(m.identity, target);
      var s, s' := Run(Do(Run(s0, before), Finish(w)), after), Run(Do(Run(s0', before'), Finish(w')), after');
      && x in s.contents && x in s'.contents && s.contents[x] == s'.contents[x]
      && SlotKey(x) in s.committed && SlotKey(x) in s'.committed
      && s.committed[SlotKey(x)].digest == s'.committed[SlotKey(x)].digest
  {
    Converges(s0, before, w, after, m, target);
    Converges(s0', before', w', after', m, target);
  }
}
