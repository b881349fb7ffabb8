/**
 The bounded retry loop around one message: retry transient failures, refresh the clusters when one is
 missing, give up at once on events that no retry can mend, and quarantine what could not be processed.
 */
module Retries {
  import opened Json
  import opened Encoding
  import opened EventEnvelope
  import opened CheckpointStore
  import opened Consumer

  /** The worker's surroundings while it works on one message; attempts are numbered from 1. */
  datatype Surroundings = Surroundings(
    maxAttempts: int,
    reachable: nat -> bool,
    down: nat -> set<string>,
    clock: nat -> (nat -> int),
    canRefresh: bool,
    refreshed: nat -> Option<set<string>>,
    hasQuarantine: bool,
    quarantineAcks: bool)

  datatype Ending = Processed(outcome: Outcome) | Quarantined(error: Outcome) | Raised

  datatype Result = Result(ending: Ending, rows: map<Key, TargetCheckpoint>, targets: Targets)

  predicate Success(o: Outcome) {
    o in {Applied, StaleEvent, DuplicateEvent, NoopMixed}
  }

  /** A second try cannot change the verdict on these. */
  predicate Hopeless(o: Outcome) {
    o == Malformed || o == OrderingRejected
  }

  function Attempts(s: Surroundings): nat {
    if s.maxAttempts < 1 then 1 else s.maxAttempts
  }

  /** Quarantine the last error, or raise it when that is impossible. */
  function GiveUp(s: Surroundings, error: Outcome): Ending {
    if s.hasQuarantine && s.quarantineAcks then Quarantined(error) else Raised
  }

  function OneAttempt(s: Surroundings, e: Option<Event>, attempt: nat, clients: set<string>,
                      rows: map<Key, TargetCheckpoint>, targets: Targets): Delivery {
    Handled(e, s.reachable(attempt), clients, s.down(attempt), s.clock(attempt), rows, targets)
  }

  /** The loop from the given attempt on. */
  function RetryFrom(s: Surroundings, e: Option<Event>, attempt: nat, clients: set<string>,
                     rows: map<Key, TargetCheckpoint>, targets: Targets): Result
    requires 1 <= attempt <= Attempts(s)
    decreases Attempts(s) - attempt
  {
    var d := OneAttempt(s, e, attempt, clients, rows, targets);
    if Success(d.outcome) then Result(Processed(d.outcome), d.rows, d.targets)
    else if Hopeless(d.outcome) || (d.outcome == MissingCluster && !s.canRefresh) then
      Result(GiveUp(s, d.outcome), d.rows, d.targets)
    else if d.outcome == MissingCluster && s.refreshed(attempt).None? then Result(Raised, d.rows, d.targets)
    else if attempt == Attempts(s) then Result(GiveUp(s, d.outcome), d.rows, d.targets)
    else
      RetryFrom(s, e, attempt + 1, if d.outcome == MissingCluster then s.refreshed(attempt).value else clients,
                d.rows, d.targets)
  }

  /** Whether the loop goes on after an attempt, and with which clusters. */
  predicate GoesOn(s: Surroundings, attempt: nat, o: Outcome) {
    !Success(o) && !Hopeless(o) && (o == MissingCluster ==> s.canRefresh && s.refreshed(attempt).Some?)
  }

  function NextClients(s: Surroundings, attempt: nat, o: Outcome, clients: set<string>): set<string>
    requires GoesOn(s, attempt, o)
  {
    if o == MissingCluster then s.refreshed(attempt).value else clients
  }

  /** How the message fares once the loop stops after an attempt. */
  function StopAfter(s: Surroundings, o: Outcome): Ending {
    if Success(o) then Processed(o) else if o == MissingCluster && s.canRefresh then Raised else GiveUp(s, o)
  }

  lemma RetryStep(s: Surroundings, e: Option<Event>, attempt: nat, clients: set<string>,
                  rows: map<Key, TargetCheckpoint>, targets: Targets, d: Delivery)
    requires 1 <= attempt <= Attempts(s) && d == OneAttempt(s, e, attempt, clients, rows, targets)
    ensures RetryFrom(s, e, attempt, clients, rows, targets) ==
      if !GoesOn(s, attempt, d.outcome) then Result(StopAfter(s, d.outcome), d.rows, d.targets)
      else if attempt == Attempts(s) then Result(GiveUp(s, d.outcome), d.rows, d.targets)
      else RetryFrom(s, e, attempt + 1, NextClients(s, attempt, d.outcome, clients), d.rows, d.targets)
  {
  }

  /** The loop over attempts. */
  method RetryMessage(s: Surroundings, e: Option<Event>, initialClients: set<string>,
                      store: InMemoryCheckpointStore, world: SearchTargets) returns (ending: Ending)
    requires (e.Some? ==> ValidEvent(e.value)) && WellFiled(store.records)
    modifies store, world
    ensures Result(ending, store.records, world.State())
         == RetryFrom(s, e, 1, initialClients, old(store.records), old(world.State()))
    ensures ending.Quarantined? ==> s.hasQuarantine && s.quarantineAcks && !Success(ending.error)
    ensures WellFiled(store.records)
  {
    ghost var goal := RetryFrom(s, e, 1, initialClients, store.records, world.State());
    var clients, attempt, lastError := initialClients, 1, Malformed;
    while attempt <= Attempts(s)
      invariant 1 <= attempt <= Attempts(s) + 1 && WellFiled(store.records) && !Success(lastError)
      invariant attempt <= Attempts(s) ==> goal == RetryFrom(s, e, attempt, clients, store.records, world.State())
      invariant attempt > Attempts(s) ==> goal == Result(GiveUp(s, lastError), store.records, world.State())
    {
      ghost var rows, targets := store.records, world.State();
      var outcome := ProcessMessage(e, s.reachable(attempt), clients, s.down(attempt), s.clock(attempt), store, world);
      RetryStep(s, e, attempt, clients, rows, targets, Delivery(store.records, world.State(), outcome));
      if Success(outcome) { return Processed(outcome); }
      lastError := outcome;
      if Hopeless(outcome) || (outcome == MissingCluster && !s.canRefresh) { break; }
      if outcome == MissingCluster {
        if s.refreshed(attempt).None? { return Raised; }
        clients := s.refreshed(attempt).value;
      }
      attempt := attempt + 1;
    }
    ending := GiveUp(s, lastError);
  }

  // ---- When the loop returns normally --------------------------------------

  datatype LoopState = LoopState(clients: set<string>, rows: map<Key, TargetCheckpoint>, targets: Targets)

  function Try(s: Surroundings, e: Option<Event>, attempt: nat, l: LoopState): Delivery {
    OneAttempt(s, e, attempt, l.clients, l.rows, l.targets)
  }

  function AfterTry(s: Surroundings, e: Option<Event>, attempt: nat, l: LoopState): LoopState {
    var d := Try(s, e, attempt, l);
    LoopState(if GoesOn(s, attempt, d.outcome) then NextClients(s, attempt, d.outcome, l.clients) else l.clients, d.rows, d.targets)
  }

  /** The loop, in state l before attempt `first`, comes to attempt n. */
  predicate Makes(s: Surroundings, e: Option<Event>, first: nat, l: LoopState, n: nat)
    decreases n - first
  {
    && first <= n <= Attempts(s)
    && (n == first || (GoesOn(s, first, Try(s, e, first, l).outcome) && Makes(s, e, first + 1, AfterTry(s, e, first, l), n)))
  }

  /** Its state before attempt n. */
  function Before(s: Surroundings, e: Option<Event>, first: nat, l: LoopState, n: nat): LoopState
    decreases n - first
  {
    if n <= first then l else Before(s, e, first + 1, AfterTry(s, e, first, l), n)
  }

  /** Attempt n is made, from the state the loop is then in, and completes. */
  predicate Completes(s: Surroundings, e: Option<Event>, first: nat, l: LoopState, n: nat) {
    Makes(s, e, first, l, n) && Try(s, e, n, Before(s, e, first, l, n)).outcome in {Applied, StaleEvent, DuplicateEvent}
  }

  lemma TryIsLabelled(s: Surroundings, e: Option<Event>, n: nat, l: LoopState)
    ensures Success(Try(s, e, n, l).outcome) <==> Try(s, e, n, l).outcome in {Applied, StaleEvent, DuplicateEvent}
  {
  }

  predicate RefreshFails(s: Surroundings, attempt: nat, o: Outcome) {
    o == MissingCluster && s.canRefresh && s.refreshed(attempt).None?
  }

  /** How the loop ends, told by the attempts it makes: `last` is the last of them. */
  ghost predicate EndsAt(s: Surroundings, e: Option<Event>, first: nat, l: LoopState, r: Result, last: nat) {
    && Makes(s, e, first, l, last) && (forall n: nat :: Makes(s, e, first, l, n) ==> n <= last)
    && (forall n: nat :: Completes(s, e, first, l, n) ==> n == last)
    && var d := Try(s, e, last, Before(s, e, first, l, last));
       && r.rows == d.rows && r.targets == d.targets
       && r.ending == if Success(d.outcome) then Processed(d.outcome)
                      else if RefreshFails(s, last, d.outcome) then Raised
                      else GiveUp(s, d.outcome)
  }

  /** The loop ends as its last attempt does, and leaves what that attempt leaves; only the last one can complete. */
  lemma {:induction false} LoopEnds(s: Surroundings, e: Option<Event>, first: nat, l: LoopState) returns (last: nat)
    requires 1 <= first <= Attempts(s)
    ensures EndsAt(s, e, first, l, RetryFrom(s, e, first, l.clients, l.rows, l.targets), last)
    decreases Attempts(s) - first
  {
    last := first;
    var d := Try(s, e, first, l);
    TryIsLabelled(s, e, first, l);
    RetryStep(s, e, first, l.clients, l.rows, l.targets, d);
    if GoesOn(s, first, d.outcome) && first < Attempts(s) {
      var l' := AfterTry(s, e, first, l);
      last := LoopEnds(s, e, first + 1, l');
      LoopShifts(s, e, first, l, last);
      forall n: nat | Makes(s, e, first, l, n) ensures n <= last { if n > first { LoopShifts(s, e, first, l, n); } }
      forall n: nat | Completes(s, e, first, l, n) ensures n == last {
        LoopShifts(s, e, first, l, last);
        if n > first { LoopShifts(s, e, first, l, n); }
      }
    }
  }

  lemma LoopShifts(s: Surroundings, e: Option<Event>, first: nat, l: LoopState, last: nat)
    requires GoesOn(s, first, Try(s, e, first, l).outcome) && first < last
    ensures Makes(s, e, first + 1, AfterTry(s, e, first, l), last) <==> Makes(s, e, first, l, last)
    ensures Before(s, e, first, l, last) == Before(s, e, first + 1, AfterTry(s, e, first, l), last)
    ensures Completes(s, e, first, l, last) == Completes(s, e, first + 1, AfterTry(s, e, first, l), last)
    ensures !Completes(s, e, first, l, first)
  {
  }

  // ---- How many attempts ---------------------------------------------------

  /** What an attempt reports: that the message cannot be read, that fences or rows cannot be had, or how the event fared. */
  ghost predicate Reports(s: Surroundings, e: Option<Event>, n: nat, l: LoopState, o: Outcome) {
    && (o == Malformed <==> e.None?)
    && (o == Unavailable <==> e.Some? && !s.reachable(n))
    && (e.Some? && s.reachable(n) ==> EndsAs(e.value, l.clients, s.down(n), l.rows, o))
    && o in {Malformed, Unavailable, Applied, StaleEvent, DuplicateEvent, OrderingRejected, MissingCluster, TargetFailed}
  }

  lemma TryReports(s: Surroundings, e: Option<Event>, n: nat, l: LoopState)
    requires e.Some? ==> ValidEvent(e.value)
    ensures Reports(s, e, n, l, Try(s, e, n, l).outcome)
  {
    if e.Some? && s.reachable(n) {
      AttemptIsDecided(e.value, l.clients, s.down(n), s.clock(n), l.rows, l.targets);
      AttemptIsLabelled(e.value, l.clients, s.down(n), s.clock(n), l.rows, l.targets);
    }
  }

  lemma MakesUpTo(s: Surroundings, e: Option<Event>, first: nat, l: LoopState, n: nat)
    requires Makes(s, e, first, l, n)
    ensures first <= n
    ensures Makes(s, e, first, l, n + 1) <==> n < Attempts(s) && GoesOn(s, n, Try(s, e, n, Before(s, e, first, l, n)).outcome)
    ensures Makes(s, e, first, l, n + 1) ==> Before(s, e, first, l, n + 1) == AfterTry(s, e, n, Before(s, e, first, l, n))
    decreases n - first
  {
    if n > first { MakesUpTo(s, e, first + 1, AfterTry(s, e, first, l), n); }
  }

  /** The outcomes after which the loop tries again. */
  ghost predicate Passing(s: Surroundings, n: nat, o: Outcome) {
    o == TargetFailed || o == Unavailable || (o == MissingCluster && s.canRefresh && s.refreshed(n).Some?)
  }

  /**
   The first attempt is always made. After attempt n one more is made exactly if fewer than max(1, maxAttempts) were and
   this one ended in a failed call, without fences or rows, or without a cluster that a refresh then supplied; it
   starts from what attempt n left, with the refreshed clients in the last case.
   */
  lemma NextAttempt(s: Surroundings, e: Option<Event>, l: LoopState, n: nat)
    requires (e.Some? ==> ValidEvent(e.value)) && Makes(s, e, 1, l, n)
    ensures Makes(s, e, 1, l, 1) && Before(s, e, 1, l, 1) == l
    ensures var d := Try(s, e, n, Before(s, e, 1, l, n)); var next := Before(s, e, 1, l, n + 1);
      && (Makes(s, e, 1, l, n + 1) <==> (n < s.maxAttempts || n < 1) && Passing(s, n, d.outcome))
      && (Makes(s, e, 1, l, n + 1) ==>
            && next.rows == d.rows && next.targets == d.targets
            && next.clients == if d.outcome == MissingCluster then s.refreshed(n).value else Before(s, e, 1, l, n).clients)
  {
    TryReports(s, e, n, Before(s, e, 1, l, n));
    MakesUpTo(s, e, 1, l, n);
  }

  lemma {:induction false} MadeBefore(s: Surroundings, e: Option<Event>, l: LoopState, n: nat, m: nat)
    requires 1 <= n <= m && Makes(s, e, 1, l, m)
    ensures Makes(s, e, 1, l, n)
    decreases m - n
  {
    if n < m {
      MakesInOrder(s, e, 1, l, m);
      MadeBefore(s, e, l, n, m - 1);
    }
  }

  /**
   The attempt after which no other is made decides: rows and targets are what it leaves; the message is processed if
   it completed, raised if the refresh it asked for failed, and otherwise quarantined or, where that cannot be, raised.
   */
  lemma LastAttemptDecides(s: Surroundings, e: Option<Event>, l: LoopState, n: nat)
    requires Makes(s, e, 1, l, n) && !Makes(s, e, 1, l, n + 1)
    ensures var r, d := RetryFrom(s, e, 1, l.clients, l.rows, l.targets), Try(s, e, n, Before(s, e, 1, l, n));
      && r.rows == d.rows && r.targets == d.targets
      && r.ending ==
           if d.outcome in {Applied, StaleEvent, DuplicateEvent} then Processed(d.outcome)
           else if d.outcome == MissingCluster && s.canRefresh && s.refreshed(n).None? then Raised
           else if s.hasQuarantine && s.quarantineAcks then Quarantined(d.outcome) else Raised
  {
    var last := LoopEnds(s, e, 1, l);
    if n < last { MadeBefore(s, e, l, n + 1, last); }
    TryIsLabelled(s, e, n, Before(s, e, 1, l, n));
  }

  /** If every attempt fails in passing, exactly max(1, maxAttempts) of them are made. */
  lemma {:induction false} AllAttemptsAreMade(s: Surroundings, e: Option<Event>, l: LoopState, n: nat)
    requires e.Some? ==> ValidEvent(e.value)
    requires forall m: nat :: Makes(s, e, 1, l, m) ==> Passing(s, m, Try(s, e, m, Before(s, e, 1, l, m)).outcome)
    ensures Makes(s, e, 1, l, n) <==> 1 <= n && (n <= s.maxAttempts || n == 1)
  {
    if n == 1 {
      assert Makes(s, e, 1, l, 1);
    } else if n > 1 {
      AllAttemptsAreMade(s, e, l, n - 1);
      if Makes(s, e, 1, l, n) { MakesInOrder(s, e, 1, l, n); }
      if Makes(s, e, 1, l, n - 1) { NextAttempt(s, e, l, n - 1); }
    }
  }

  lemma {:induction false} MakesInOrder(s: Surroundings, e: Option<Event>, first: nat, l: LoopState, n: nat)
    requires first < n && Makes(s, e, first, l, n)
    ensures Makes(s, e, first, l, n - 1)
    decreases n - first
  {
    if n - 1 > first { MakesInOrder(s, e, first + 1, AfterTry(s, e, first, l), n); }
  }

  /**
   The loop returns normally exactly if one of the attempts it makes completes, or none does, the clusters could
   be refreshed whenever one was missing, and the DLQ acknowledges the message.
   */
  lemma ReturnsIffSettled(s: Surroundings, e: Option<Event>, l: LoopState) returns (last: nat)
    ensures var r := RetryFrom(s, e, 1, l.clients, l.rows, l.targets);
      && EndsAt(s, e, 1, l, r, last)
      && (r.ending.Processed? <==> exists n: nat :: Completes(s, e, 1, l, n))
      && (r.ending.Quarantined? <==>
            && (forall n: nat :: !Completes(s, e, 1, l, n))
            && !RefreshFails(s, last, Try(s, e, last, Before(s, e, 1, l, last)).outcome)
            && s.hasQuarantine && s.quarantineAcks)
  {
    last := LoopEnds(s, e, 1, l);
    TryIsLabelled(s, e, last, Before(s, e, 1, l, last));
    assert Success(Try(s, e, last, Before(s, e, 1, l, last)).outcome) ==> Completes(s, e, 1, l, last);
  }

  /**
   `process_message_with_retries`. A normal return means that some attempt completed or that the
   message sits acknowledged in quarantine; whatever attempts achieved before stays committed.
   Reading a message has no effect, so the attempts share one reading.
   */
  method ProcessMessageWithRetries(s: Surroundings, rules: TextRules, payload: Value, key: Option<seq<Byte>>,
                                   clients: set<string>, store: InMemoryCheckpointStore, world: SearchTargets)
    returns (ending: Ending)
    requires WellFiled(store.records)
    modifies store, world
    ensures Result(ending, store.records, world.State())
         == RetryFrom(s, ReadMessage(rules, payload, key), 1, clients, old(store.records), old(world.State()))
    ensures var read, l := ReadMessage(rules, payload, key), LoopState(clients, old(store.records), old(world.State()));
      && (ending.Processed? <==> exists n: nat :: Completes(s, read, 1, l, n))
      && (ending.Quarantined? ==> (forall n: nat :: !Completes(s, read, 1, l, n)) && s.hasQuarantine && s.quarantineAcks)
      && (ending.Raised? ==>
            && (forall n: nat :: !Completes(s, read, 1, l, n))
            && (!s.hasQuarantine || !s.quarantineAcks
                || exists n: nat :: Makes(s, read, 1, l, n) && RefreshFails(s, n, Try(s, read, n, Before(s, read, 1, l, n)).outcome)))
    ensures WellFiled(store.records)
  {
    ghost var l := LoopState(clients, store.records, world.State());
    ghost var last := ReturnsIffSettled(s, ReadMessage(rules, payload, key), l);
    ending := RetryMessage(s, ReadMessage(rules, payload, key), clients, store, world);
  }

  /** Events that contradict the recorded order, or cannot be read, never reach a target, however often retried. */
  lemma HopelessLeavesNoTrace(s: Surroundings, e: Option<Event>, attempt: nat, clients: set<string>,
                              rows: map<Key, TargetCheckpoint>, targets: Targets)
    requires 1 <= attempt <= Attempts(s)
    requires Hopeless(OneAttempt(s, e, attempt, clients, rows, targets).outcome)
    ensures RetryFrom(s, e, attempt, clients, rows, targets)
         == Result(GiveUp(s, OneAttempt(s, e, attempt, clients, rows, targets).outcome), rows, targets)
  {
    assert forall plan :: Summary(plan) in {StaleEvent, Applied, DuplicateEvent};
  }
}
