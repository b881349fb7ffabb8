/**
 The worker's code is a run of the protocol: executing one attempt from beginning to end, whatever
 other attempts stand open meanwhile, takes the protocol's own steps and ends where the code ends.
 So what holds of every run holds of the code.
 */
module AttemptRuns {
  import opened Json
  import opened EventEnvelope
  import opened CheckpointStore
  import opened FencedIndexing
  import opened Consumer
  import opened Convergence
  import opened Retries

  lemma RunSingle(s: World, a: Action)
    requires Enabled(s, a)
    ensures Runnable(s, [a]) && Run(s, [a]) == Do(s, a)
  {
    assert Runnable(Do(s, a), []);
  }

  lemma RunCons(s: World, a: Action, rest: seq<Action>)
    requires Enabled(s, a) && Runnable(Do(s, a), rest)
    ensures Runnable(s, [a] + rest) && Run(s, [a] + rest) == Run(Do(s, a), rest)
  {
    assert ([a] + rest)[1..] == rest;
  }

  lemma {:induction false} RunAppend(s: World, first: seq<Action>, second: seq<Action>)
    requires Runnable(s, first) && Runnable(Run(s, first), second)
    ensures Runnable(s, first + second) && Run(s, first + second) == Run(Run(s, first), second)
    decreases |first|
  {
    if first == [] {
      assert first + second == second;
    } else {
      var s1 := Do(s, first[0]);
      RunAppend(s1, first[1..], second);
      RunCons(s, first[0], first[1..] + second);
      assert first + second == [first[0]] + (first[1..] + second);
    }
  }

  /** The first pass, as loads. */
  lemma {:induction false} PlanRun(s: World, w: nat, e: Event, clients: set<string>, done: seq<Verdict>)
    returns (run: seq<Action>, seen: seq<Verdict>)
    requires w in s.attempts && s.attempts[w] == Attempt(e, done, Planning, 0, map[]) && |done| <= |e.targets|
    ensures Runnable(s, run) && Run(s, run) == Set(s, w, Attempt(e, seen, Planning, 0, map[]))
    ensures PlanFrom(e, clients, s.committed, done).Plan? ==>
      seen == PlanFrom(e, clients, s.committed, done).decisions && |seen| == |e.targets|
    ensures forall n :: 0 <= n < |run| ==> run[n] == Load(w)
    decreases |e.targets| - |done|
  {
    run, seen := [], done;
    assert s.attempts == s.attempts[w := s.attempts[w]];
    if |done| < |e.targets| && e.targets[|done|] in clients {
      var v := Classify(e, Lookup(s.committed, KeyAt(e, |done|)));
      if v != OrderingError {
        var s' := Do(s, Load(w));
        assert s'.attempts[w] == Attempt(e, done + [v], Planning, 0, map[]);
        var rest;
        rest, seen := PlanRun(s', w, e, clients, done + [v]);
        RunCons(s, Load(w), rest);
        run := [Load(w)] + rest;
      }
    }
  }

  ghost predicate OnlyWork(run: seq<Action>, w: nat) {
    forall n :: 0 <= n < |run| ==> run[n].worker == w && !run[n].Begin? && !run[n].Finish? && !run[n].Abort?
  }

  /** The targets as the world shows them. */
  function TargetsOf(s: World): Targets {
    Targets(s.contents, s.log)
  }

  /** One turn of the second pass, as steps. */
  lemma TurnRun(s: World, w: nat, ms: int) returns (run: seq<Action>)
    requires w in s.attempts && s.attempts[w].phase == Applying && s.attempts[w].next < |s.attempts[w].event.targets|
    ensures Runnable(s, run) && OnlyWork(run, w)
    ensures var t := s.attempts[w]; var s' := Run(s, run); var i := t.next;
      && s'.committed == s.committed
      && TargetsOf(s') == (if Writes(t.plan, i) then TargetsOf(s).Change(SlotAt(t.event, i), t.event) else TargetsOf(s))
      && s'.attempts == s.attempts[w := t.(next := i + 1, staged :=
           if Writes(t.plan, i) then t.staged[KeyAt(t.event, i) := CheckpointFromEvent(t.event, t.event.targets[i], ms)] else t.staged)]
  {
    var t := s.attempts[w];
    if Writes(t.plan, t.next) {
      SavedUnderSlotKey(t.event, t.event.targets[t.next], ms);
      var s1 := Do(s, Write(w));
      var s2 := Do(s1, Save(w, ms));
      RunSingle(s1, Save(w, ms));
      RunCons(s, Write(w), [Save(w, ms)]);
      run := [Write(w)] + [Save(w, ms)];
      assert s2.attempts == s.attempts[w := s2.attempts[w]];
    } else {
      RunSingle(s, Skip(w));
      run := [Skip(w)];
    }
  }

  /** An attempt's standing after the second pass. */
  ghost predicate Passed(s: World, s': World, w: nat, p: Progress)
    requires w in s.attempts
  {
    && s'.committed == s.committed && TargetsOf(s') == p.targets
    && w in s'.attempts && s'.attempts == s.attempts[w := s'.attempts[w]]
    && s'.attempts[w].event == s.attempts[w].event && s'.attempts[w].staged == p.staged && s'.attempts[w].phase == Applying
    && (!p.failed ==> s'.attempts[w].next == |s.attempts[w].event.targets|)
  }

  /** The second pass, as writes, saves and skips. */
  lemma {:induction false} ApplyRun(s: World, w: nat, down: set<string>, clock: nat -> int) returns (run: seq<Action>)
    requires w in s.attempts && s.attempts[w].phase == Applying
    requires |s.attempts[w].plan| == |s.attempts[w].event.targets| && s.attempts[w].next <= |s.attempts[w].event.targets|
    ensures Runnable(s, run) && OnlyWork(run, w)
    ensures var t := s.attempts[w];
      Passed(s, Run(s, run), w, ApplyFrom(t.event, t.plan, down, clock, t.next, TargetsOf(s), t.staged))
    decreases |s.attempts[w].event.targets| - s.attempts[w].next
  {
    var t := s.attempts[w];
    run := [];
    assert s.attempts == s.attempts[w := t];
    if t.next < |t.event.targets| {
      OneTurn(t.event, t.plan, down, clock, t.next, TargetsOf(s), t.staged);
      if !(Writes(t.plan, t.next) && t.event.targets[t.next] in down) {
        var first := TurnRun(s, w, clock(t.next));
        var rest := ApplyRun(Run(s, first), w, down, clock);
        RunAppend(s, first, rest);
        run := first + rest;
      }
    }
  }

  /** Steps of one worker: it opens its event first, and closes nothing. */
  ghost predicate OpensAndWorks(run: seq<Action>, w: nat, e: Event) {
    && run != [] && run[0] == Begin(w, e)
    && OnlyWork(run[1..], w)
  }

  /** The first pass, from the opening on. */
  lemma JudgeRun(s: World, w: nat, e: Event, clients: set<string>) returns (run: seq<Action>, seen: seq<Verdict>)
    requires Enabled(s, Begin(w, e))
    ensures OpensAndWorks(run, w, e)
    ensures Runnable(s, run) && Run(s, run) == Set(s, w, Attempt(e, seen, Planning, 0, map[]))
    ensures var planned := PlanFrom(e, clients, s.committed, []);
      planned.Plan? ==> seen == planned.decisions && |seen| == |e.targets|
  {
    var s1 := Do(s, Begin(w, e));
    var loads;
    loads, seen := PlanRun(s1, w, e, clients, []);
    RunCons(s, Begin(w, e), loads);
    run := [Begin(w, e)] + loads;
    assert run[1..] == loads;
  }

  /** From the plan on: the turn, and the second pass. */
  lemma ChangeRun(s: World, w: nat, down: set<string>, clock: nat -> int) returns (run: seq<Action>)
    requires w in s.attempts && s.attempts[w].phase == Planning && s.attempts[w].next == 0
    requires |s.attempts[w].plan| == |s.attempts[w].event.targets| && s.attempts[w].staged == map[]
    ensures Runnable(s, run) && OnlyWork(run, w)
    ensures var t := s.attempts[w];
      Passed(s, Run(s, run), w, ApplyFrom(t.event, t.plan, down, clock, 0, TargetsOf(s), map[]))
  {
    var s' := Do(s, Turn(w));
    var changes := ApplyRun(s', w, down, clock);
    RunCons(s, Turn(w), changes);
    run := [Turn(w)] + changes;
    assert s'.attempts == s.attempts[w := s'.attempts[w]];
  }

  /** Judging and then changing, as one run. */
  lemma PlannedRun(s: World, w: nat, e: Event, clients: set<string>, down: set<string>, clock: nat -> int) returns (run: seq<Action>)
    requires Enabled(s, Begin(w, e)) && PlanFrom(e, clients, s.committed, []).Plan?
    ensures Runnable(s, run) && OpensAndWorks(run, w, e)
    ensures var plan := PlanFrom(e, clients, s.committed, []).decisions;
      var p := ApplyFrom(e, plan, down, clock, 0, TargetsOf(s), map[]); var s' := Run(s, run);
      && s'.committed == s.committed && TargetsOf(s') == p.targets
      && w in s'.attempts && s'.attempts == s.attempts[w := s'.attempts[w]]
      && s'.attempts[w].event == e && s'.attempts[w].staged == p.staged && s'.attempts[w].phase == Applying
      && (!p.failed ==> s'.attempts[w].next == |e.targets|)
  {
    var judge, seen := JudgeRun(s, w, e, clients);
    var s1 := Run(s, judge);
    var change := ChangeRun(s1, w, down, clock);
    RunAppend(s, judge, change);
    run := judge + change;
    assert run[1..] == judge[1..] + change;
    assert TargetsOf(s1) == TargetsOf(s);
    ReplacedTwice(s.attempts, s1.attempts, Run(s, run).attempts, w);
  }

  lemma ReplacedTwice(a: map<nat, Attempt>, b: map<nat, Attempt>, c: map<nat, Attempt>, w: nat)
    requires w in b && b == a[w := b[w]] && w in c && c == b[w := c[w]]
    ensures c == a[w := c[w]]
  {
  }

  /** What is left behind by a run of one worker and the step that closes it. */
  ghost predicate LeavesBehind(s: World, work: seq<Action>, last: Action, w: nat, e: Event, d: Delivery) {
    && Runnable(s, work) && OpensAndWorks(work, w, e) && Enabled(Run(s, work), last)
    && last == (if d.outcome in {Applied, StaleEvent, DuplicateEvent} then Finish(w) else Abort(w))
    && w in Run(s, work).attempts && Run(s, work).attempts[w].event == e
    && var s' := Do(Run(s, work), last);
       s'.committed == d.rows && TargetsOf(s') == d.targets && s'.attempts == s.attempts
  }

  /**
   Refinement: the code's attempt is a run of protocol steps of one worker, its target calls are the run's writes,
   in order, and it ends with Finish exactly when the code reports no error.
   */
  lemma AttemptIsARun(s: World, w: nat, e: Event, clients: set<string>, down: set<string>, clock: nat -> int)
    returns (work: seq<Action>, last: Action)
    requires Enabled(s, Begin(w, e))
    ensures LeavesBehind(s, work, last, w, e, Attempted(e, clients, down, clock, s.committed, TargetsOf(s)))
  {
    var planned := PlanFrom(e, clients, s.committed, []);
    if planned.Plan? {
      work := PlannedRun(s, w, e, clients, down, clock);
      last := if ApplyFrom(e, planned.decisions, down, clock, 0, TargetsOf(s), map[]).failed then Abort(w) else Finish(w);
      CloseLeavesOthers(s.attempts, Run(s, work).attempts, w);
    } else {
      work, last := UnplannedRun(s, w, e, clients);
    }
  }

  lemma UnplannedRun(s: World, w: nat, e: Event, clients: set<string>) returns (work: seq<Action>, last: Action)
    requires Enabled(s, Begin(w, e)) && !PlanFrom(e, clients, s.committed, []).Plan?
    ensures var o := if PlanFrom(e, clients, s.committed, []).NoClient? then MissingCluster else OrderingRejected;
      LeavesBehind(s, work, last, w, e, Delivery(s.committed, TargetsOf(s), o))
  {
    var seen;
    work, seen := JudgeRun(s, w, e, clients);
    last := Abort(w);
    CloseLeavesOthers(s.attempts, Run(s, work).attempts, w);
    assert s.committed + map[] == s.committed;
  }

  lemma CloseLeavesOthers(before: map<nat, Attempt>, after: map<nat, Attempt>, w: nat)
    requires w !in before && w in after && after == before[w := after[w]]
    ensures after - {w} == before
  {
  }

  /** A delivery that the code completes settles its targets, if nothing recorded so far supersedes it. */
  lemma CompletedDeliverySettles(s: World, e: Event, clients: set<string>, down: set<string>, clock: nat -> int, target: string)
    requires Quiescent(s) && ValidEvent(e) && RowsBelow(s.committed, e) && target in e.targets
    ensures var d := Attempted(e, clients, down, clock, s.committed, TargetsOf(s));
      var x := Slot(e.identity, target);
      d.outcome in {Applied, StaleEvent, DuplicateEvent} ==>
        && d.outcome != StaleEvent
        && SlotKey(x) in d.rows && d.rows[SlotKey(x)].digest == EventDigest(e)
        && x in d.targets.contents && d.targets.contents[x] == Effect(e)
  {
    var d := Attempted(e, clients, down, clock, s.committed, TargetsOf(s));
    if d.outcome in {Applied, StaleEvent, DuplicateEvent} {
      var work, last := AttemptIsARun(s, 0, e, clients, down, clock);
      var end := Do(Run(s, work), last);
      assert Run(end, []) == end;
      assert SameMutation(e, e);
      OneWorkerDelivers(work, 0, e);
      Converges(s, work, 0, [], e, target);
      NotStale(s, e, clients);
    }
  }

  lemma OneWorkerDelivers(work: seq<Action>, w: nat, e: Event)
    requires OpensAndWorks(work, w, e)
    ensures DeliveriesBelow(work, e) && OnlyBegins(work, e)
    ensures forall n :: 0 <= n < |work| ==> work[n].worker == w
  {
    forall n | 0 <= n < |work| ensures work[n].worker == w && (work[n].Begin? ==> work[n].event == e) {
      if n > 0 { assert work[n] == work[1..][n - 1]; }
    }
    assert SameMutation(e, e);
  }

  lemma NotStale(s: World, e: Event, clients: set<string>)
    requires Quiescent(s) && ValidEvent(e) && RowsBelow(s.committed, e)
    ensures PlanFrom(e, clients, s.committed, []).Plan? ==> Stale !in PlanFrom(e, clients, s.committed, []).decisions
  {
    var planned := PlanFrom(e, clients, s.committed, []);
    PlanIsSound(e, clients, s.committed, []);
    if planned.Plan? {
      var t := Attempt(e, planned.decisions, Applying, 0, map[]);
      forall i | 0 <= i < |t.plan| ensures t.plan[i] != Stale { PlanOfGreatest(s.committed, t, i); }
    }
  }

  // ---- Retries -------------------------------------------------------------

  ghost predicate OnlyBegins(run: seq<Action>, e: Event) {
    forall n :: 0 <= n < |run| && run[n].Begin? ==> run[n].event == e
  }

  /** All open work and all past changes come from one event. */
  ghost predicate AllFrom(s: World, e: Event) {
    && (forall w :: w in s.attempts ==> s.attempts[w].event == e)
    && (forall n :: 0 <= n < |s.log| ==> s.log[n].event == e && s.log[n].slot.identity == e.identity)
  }

  lemma StepKeepsAllFrom(s: World, a: Action, e: Event)
    requires Enabled(s, a) && AllFrom(s, e) && (a.Begin? ==> a.event == e)
    ensures AllFrom(Do(s, a), e)
  {
  }

  lemma {:induction false} RunKeepsAllFrom(s: World, run: seq<Action>, e: Event)
    requires Runnable(s, run) && AllFrom(s, e) && OnlyBegins(run, e)
    ensures AllFrom(Run(s, run), e)
    decreases |run|
  {
    if run != [] {
      StepKeepsAllFrom(s, run[0], e);
      RunKeepsAllFrom(Do(s, run[0]), run[1..], e);
    }
  }

  /** One turn of the retry loop; one whose fences or rows cannot be had takes no step. */
  lemma OneTryIsARun(s: World, c: Surroundings, e: Event, attempt: nat, clients: set<string>) returns (run: seq<Action>)
    requires ValidEvent(e) && s.attempts == map[]
    ensures Runnable(s, run) && OnlyBegins(run, e) && forall n :: 0 <= n < |run| ==> run[n].worker == 0
    ensures var d := OneAttempt(c, Some(e), attempt, clients, s.committed, TargetsOf(s)); var s' := Run(s, run);
      s'.committed == d.rows && TargetsOf(s') == d.targets && s'.attempts == map[]
  {
    if !c.reachable(attempt) { return []; }
    var work, last := AttemptIsARun(s, 0, e, clients, c.down(attempt), c.clock(attempt));
    RunSingle(Run(s, work), last);
    RunAppend(s, work, [last]);
    OneWorkerDelivers(work, 0, e);
    run := work + [last];
  }

  /** The whole retry loop is a run of the protocol as well: one worker's, with the code's target calls as its writes. */
  lemma {:induction false} RetriesAreARun(s: World, c: Surroundings, e: Event, attempt: nat, clients: set<string>)
    returns (run: seq<Action>)
    requires ValidEvent(e) && s.attempts == map[] && 1 <= attempt <= Attempts(c)
    ensures Runnable(s, run) && OnlyBegins(run, e) && forall n :: 0 <= n < |run| ==> run[n].worker == 0
    ensures var r := RetryFrom(c, Some(e), attempt, clients, s.committed, TargetsOf(s)); var s' := Run(s, run);
      s'.committed == r.rows && TargetsOf(s') == r.targets && s'.attempts == map[]
    decreases Attempts(c) - attempt
  {
    run := OneTryIsARun(s, c, e, attempt, clients);
    var s' := Run(s, run);
    var d := OneAttempt(c, Some(e), attempt, clients, s.committed, TargetsOf(s));
    RetryStep(c, Some(e), attempt, clients, s.committed, TargetsOf(s), d);
    if GoesOn(c, attempt, d.outcome) && attempt < Attempts(c) {
      var rest := RetriesAreARun(s', c, e, attempt + 1, NextClients(c, attempt, d.outcome, clients));
      RunAppend(s, run, rest);
      run := run + rest;
    }
  }

  /** Over all retries of one event, each target is called with effect at most once, and only for this event. */
  lemma RetriesWriteOnce(rows: map<Key, TargetCheckpoint>, contents: map<Slot, Content>, c: Surroundings, e: Event, clients: set<string>)
    requires ValidEvent(e) && Quiescent(World(rows, contents, map[], []))
    ensures var writes := RetryFrom(c, Some(e), 1, clients, rows, Targets(contents, [])).targets.writes;
      && (forall n :: 0 <= n < |writes| ==> writes[n].event == e && writes[n].slot.identity == e.identity)
      && (forall m, n :: 0 <= m < n < |writes| ==> writes[m].slot != writes[n].slot)
  {
    var s := World(rows, contents, map[], []);
    var run := RetriesAreARun(s, c, e, 1, clients);
    var log := Run(s, run).log;
    RunKeepsAllFrom(s, run, e);
    forall m, n | 0 <= m < n < |log| ensures log[m].slot != log[n].slot {
      if log[m].slot == log[n].slot { EachTargetWrittenOnce(s, run, m, n); }
    }
  }
}
