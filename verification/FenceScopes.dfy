/**
 The two fence implementations under the fan-out protocol. The protocol assumes that open attempts cover disjoint
 keys; here that is what the fences give. Workers take fences and work in any interleaving; the only rules are
 those of the code: an event is begun inside its fences, and they are left after the attempt is closed.
 */
module FenceScopes {
  import opened Ordering
  import opened EventEnvelope
  import opened CheckpointStore
  import opened FencedIndexing
  import LockRegistry
  import AdvisoryLocks

  /** The fences of an event, one for each target, under the text of its key. */
  function FenceKeys(hex: Key -> string, e: Event): seq<string> {
    SortedSet(TargetKeys(hex, e))
  }

  function TargetKeys(hex: Key -> string, e: Event): (keys: seq<string>)
    ensures |keys| == |e.targets| && forall i :: 0 <= i < |keys| ==> keys[i] == hex(KeyAt(e, i))
  {
    seq(|e.targets|, i requires 0 <= i < |e.targets| => hex(KeyAt(e, i)))
  }

  /** Who is inside which fences. */
  type Holders = map<nat, seq<string>>

  ghost predicate Exclusive(holders: Holders) {
    forall x, y, k :: x in holders && y in holders && x != y && k in holders[x] ==> k !in holders[y]
  }

  datatype Joint = Joint(holders: Holders, world: World)

  datatype Step = Fence(after: Holders) | Work(a: Action)

  /** Fences come and go, exclusively, but not those of an open attempt; work begins inside the event's fences. */
  ghost predicate Allowed(hex: Key -> string, j: Joint, step: Step) {
    match step
    case Fence(after) => Exclusive(after) && forall w :: w in j.world.attempts && w in j.holders ==> w in after && after[w] == j.holders[w]
    case Work(a) =>
      if a.Begin? then
        && a.worker in j.holders && a.worker !in j.world.attempts
        && j.holders[a.worker] == FenceKeys(hex, a.event) && ValidEvent(a.event)
      else Enabled(j.world, a)
  }

  ghost predicate Scoped(hex: Key -> string, j: Joint) {
    && Exclusive(j.holders)
    && forall w :: w in j.world.attempts ==> w in j.holders && j.holders[w] == FenceKeys(hex, j.world.attempts[w].event)
  }

  lemma KeyIsFenced(hex: Key -> string, e: Event, k: Key)
    requires k in EventKeys(e)
    ensures hex(k) in FenceKeys(hex, e)
  {
    var keys := TargetKeys(hex, e);
    var t :| t in e.targets && SlotKey(Slot(e.identity, t)) == k;
    var i :| 0 <= i < |e.targets| && e.targets[i] == t;
    assert keys[i] == hex(k);
    SortedSetIsStrict(keys);
  }

  /** Inside its fences, an event may begin as the protocol demands: no open attempt covers any of its keys. */
  lemma FencedEventsMayBegin(hex: Key -> string, j: Joint, a: Action)
    requires Scoped(hex, j) && Allowed(hex, j, Work(a))
    ensures Enabled(j.world, a)
  {
    forall v | a.Begin? && v in j.world.attempts ensures EventKeys(a.event) !! EventKeys(j.world.attempts[v].event) {
      forall k | k in EventKeys(a.event) ensures k !in EventKeys(j.world.attempts[v].event) {
        KeyIsFenced(hex, a.event, k);
        if k in EventKeys(j.world.attempts[v].event) { KeyIsFenced(hex, j.world.attempts[v].event, k); }
      }
    }
  }

  ghost function After(hex: Key -> string, j: Joint, step: Step): Joint
    requires Scoped(hex, j) && Allowed(hex, j, step)
  {
    match step
    case Fence(after) => j.(holders := after)
    case Work(a) =>
      FencedEventsMayBegin(hex, j, a);
      j.(world := Do(j.world, a))
  }

  lemma StepStaysScoped(hex: Key -> string, j: Joint, step: Step)
    requires Scoped(hex, j) && Allowed(hex, j, step)
    ensures Scoped(hex, After(hex, j, step))
  {
    if step.Work? {
      FencedEventsMayBegin(hex, j, step.a);
      AttemptsKeepTheirEvents(j.world, step.a);
    }
  }

  lemma AttemptsKeepTheirEvents(s: World, a: Action)
    requires Enabled(s, a)
    ensures forall w :: w in Do(s, a).attempts ==>
      var e := Do(s, a).attempts[w].event; if a.Begin? && w == a.worker then e == a.event else w in s.attempts && e == s.attempts[w].event
  {
  }

  ghost predicate Runs(hex: Key -> string, j: Joint, run: seq<Step>)
    requires Scoped(hex, j)
    decreases |run|
  {
    run == [] || (Allowed(hex, j, run[0]) && (StepStaysScoped(hex, j, run[0]); Runs(hex, After(hex, j, run[0]), run[1..])))
  }

  ghost function End(hex: Key -> string, j: Joint, run: seq<Step>): Joint
    requires Scoped(hex, j) && Runs(hex, j, run)
    decreases |run|
  {
    if run == [] then j
    else
      StepStaysScoped(hex, j, run[0]);
      End(hex, After(hex, j, run[0]), run[1..])
  }

  /** The protocol's own steps in a joint run. */
  function Works(run: seq<Step>): seq<Action> {
    if run == [] then [] else (if run[0].Work? then [run[0].a] else []) + Works(run[1..])
  }

  /** Whatever fences and workers do together is, for the workers, a run of the protocol. */
  lemma {:induction false} JointRunsAreProtocolRuns(hex: Key -> string, j: Joint, run: seq<Step>)
    requires Scoped(hex, j) && Runs(hex, j, run)
    ensures Runnable(j.world, Works(run)) && Run(j.world, Works(run)) == End(hex, j, run).world
    decreases |run|
  {
    if run != [] {
      StepStaysScoped(hex, j, run[0]);
      var j' := After(hex, j, run[0]);
      JointRunsAreProtocolRuns(hex, j', run[1..]);
      if run[0].Work? {
        FencedEventsMayBegin(hex, j, run[0].a);
        assert Works(run)[0] == run[0].a && Works(run)[1..] == Works(run[1..]);
      } else {
        assert Works(run) == Works(run[1..]);
      }
    }
  }

  // ---- The registry --------------------------------------------------------

  ghost function InsideRegistry(s: LockRegistry.State): Holders {
    map x | x in s.threads && s.threads[x].phase == LockRegistry.Inside :: s.threads[x].keys
  }

  lemma OneThreadInside(s: LockRegistry.State, x: nat, y: nat, k: string)
    requires LockRegistry.Inv(s) && x in InsideRegistry(s) && y in InsideRegistry(s)
    ensures k in InsideRegistry(s)[x] && k in InsideRegistry(s)[y] ==> x == y
  {
    if k in s.threads[x].keys && k in s.threads[y].keys {
      var i :| 0 <= i < |s.threads[x].keys| && s.threads[x].keys[i] == k;
      var j :| 0 <= j < |s.threads[y].keys| && s.threads[y].keys[j] == k;
      assert s.owner[s.threads[x].locks[i]] == x && s.owner[s.threads[y].locks[j]] == y;
    }
  }

  /** Threads inside the registry's fences hold disjoint keys. */
  lemma RegistryExcludes(s: LockRegistry.State)
    requires LockRegistry.Inv(s)
    ensures Exclusive(InsideRegistry(s))
  {
    var h := InsideRegistry(s);
    forall x, y, k | x in h && y in h && x != y && k in h[x] ensures k !in h[y] { OneThreadInside(s, x, y, k); }
  }

  lemma OnlyLeavingLeaves(s: LockRegistry.State, a: LockRegistry.Action, w: nat)
    requires LockRegistry.Enabled(s, a) && w in InsideRegistry(s) && !(a.Leave? && a.thread == w)
    ensures w in InsideRegistry(LockRegistry.Do(s, a)) && InsideRegistry(LockRegistry.Do(s, a))[w] == InsideRegistry(s)[w]
  {
  }

  /** Every step of the registry is a fence step, if no thread leaves while its attempt is open. */
  lemma RegistryStepsAreFenceSteps(hex: Key -> string, s: LockRegistry.State, a: LockRegistry.Action, world: World)
    requires LockRegistry.Inv(s) && LockRegistry.Enabled(s, a) && (a.Leave? ==> a.thread !in world.attempts)
    ensures LockRegistry.Inv(LockRegistry.Do(s, a))
    ensures Allowed(hex, Joint(InsideRegistry(s), world), Fence(InsideRegistry(LockRegistry.Do(s, a))))
  {
    LockRegistry.StepKeepsInv(s, a);
    RegistryExcludes(LockRegistry.Do(s, a));
    var h, h' := InsideRegistry(s), InsideRegistry(LockRegistry.Do(s, a));
    forall w | w in world.attempts && w in h ensures w in h' && h'[w] == h[w] { OnlyLeavingLeaves(s, a, w); }
  }

  // ---- PostgreSQL ----------------------------------------------------------

  ghost function InsideTransactions(s: AdvisoryLocks.State): Holders {
    map x | x in s.sessions && s.sessions[x].taken == |s.sessions[x].keys| :: s.sessions[x].keys
  }

  lemma OneTransactionInside(s: AdvisoryLocks.State, x: nat, y: nat, k: string)
    requires AdvisoryLocks.Inv(s) && x in InsideTransactions(s) && y in InsideTransactions(s)
    ensures k in InsideTransactions(s)[x] && k in InsideTransactions(s)[y] ==> x == y
  {
    var keys, keys' := s.sessions[x].keys, s.sessions[y].keys;
    if k in keys && k in keys' {
      var i :| 0 <= i < |keys| && keys[i] == k;
      var j :| 0 <= j < |keys'| && keys'[j] == k;
      assert s.owner[AdvisoryLocks.LockKey(keys[i])] == x && s.owner[AdvisoryLocks.LockKey(keys'[j])] == y;
    }
  }

  /** Transactions that hold all their advisory locks fence disjoint keys. */
  lemma TransactionsExclude(s: AdvisoryLocks.State)
    requires AdvisoryLocks.Inv(s)
    ensures Exclusive(InsideTransactions(s))
  {
    var h := InsideTransactions(s);
    forall x, y, k | x in h && y in h && x != y && k in h[x] ensures k !in h[y] { OneTransactionInside(s, x, y, k); }
  }

  /** Every step of the transactions is a fence step, if none ends while its attempt is open. */
  lemma TransactionStepsAreFenceSteps(hex: Key -> string, s: AdvisoryLocks.State, a: AdvisoryLocks.Action, world: World)
    requires AdvisoryLocks.Inv(s) && AdvisoryLocks.Enabled(s, a)
    requires a.Commit? || a.Rollback? ==> a.session !in world.attempts
    ensures AdvisoryLocks.Inv(AdvisoryLocks.Do(s, a))
    ensures Allowed(hex, Joint(InsideTransactions(s), world), Fence(InsideTransactions(AdvisoryLocks.Do(s, a))))
  {
    AdvisoryLocks.StepKeepsInv(s, a);
    TransactionsExclude(AdvisoryLocks.Do(s, a));
  }

  // ---- Fences and workers together -----------------------------------------

  /** Either implementation, in its own state. */
  datatype Fences = InProcess(registry: LockRegistry.State) | InDatabase(sessions: AdvisoryLocks.State)

  datatype FenceAction = Registry(a: LockRegistry.Action) | Session(b: AdvisoryLocks.Action)

  ghost predicate Sound(f: Fences) {
    match f
    case InProcess(s) => LockRegistry.Inv(s)
    case InDatabase(s) => AdvisoryLocks.Inv(s)
  }

  ghost function Inside(f: Fences): Holders {
    match f
    case InProcess(s) => InsideRegistry(s)
    case InDatabase(s) => InsideTransactions(s)
  }

  /** A step of the locks themselves; a worker leaves its fences only after closing its attempt. */
  ghost predicate MayTake(f: Fences, world: World, m: FenceAction) {
    match (f, m)
    case (InProcess(s), Registry(a)) => LockRegistry.Enabled(s, a) && (a.Leave? ==> a.thread !in world.attempts)
    case (InDatabase(s), Session(b)) => AdvisoryLocks.Enabled(s, b) && (b.Commit? || b.Rollback? ==> b.session !in world.attempts)
    case _ => false
  }

  ghost function Taken(f: Fences, world: World, m: FenceAction): Fences
    requires MayTake(f, world, m)
  {
    match (f, m)
    case (InProcess(s), Registry(a)) => InProcess(LockRegistry.Do(s, a))
    case (InDatabase(s), Session(b)) => InDatabase(AdvisoryLocks.Do(s, b))
  }

  lemma LockStepsAreFenceSteps(hex: Key -> string, f: Fences, world: World, m: FenceAction)
    requires Sound(f) && MayTake(f, world, m)
    ensures Sound(Taken(f, world, m)) && Allowed(hex, Joint(Inside(f), world), Fence(Inside(Taken(f, world, m))))
  {
    match f {
      case InProcess(s) => RegistryStepsAreFenceSteps(hex, s, m.a, world);
      case InDatabase(s) => TransactionStepsAreFenceSteps(hex, s, m.b, world);
    }
  }

  datatype System = System(fences: Fences, world: World)

  datatype Move = Lock(m: FenceAction) | Act(a: Action)

  ghost function View(x: System): Joint {
    Joint(Inside(x.fences), x.world)
  }

  ghost predicate Good(hex: Key -> string, x: System) {
    Sound(x.fences) && Scoped(hex, View(x))
  }

  /** The locks' own guards, and work that begins inside the event's fences; exclusion is no part of it. */
  ghost predicate CanMove(hex: Key -> string, x: System, move: Move) {
    match move
    case Lock(m) => MayTake(x.fences, x.world, m)
    case Act(a) => Allowed(hex, View(x), Work(a))
  }

  ghost function Moved(hex: Key -> string, x: System, move: Move): System
    requires Good(hex, x) && CanMove(hex, x, move)
  {
    match move
    case Lock(m) => x.(fences := Taken(x.fences, x.world, m))
    case Act(a) =>
      FencedEventsMayBegin(hex, View(x), a);
      x.(world := Do(x.world, a))
  }

  function StepOf(x: Holders, move: Move): Step {
    match move
    case Lock(_) => Fence(x)
    case Act(a) => Work(a)
  }

  lemma MovesAreSteps(hex: Key -> string, x: System, move: Move)
    requires Good(hex, x) && CanMove(hex, x, move)
    ensures var x' := Moved(hex, x, move); var step := StepOf(Inside(x'.fences), move);
      Good(hex, x') && Allowed(hex, View(x), step) && After(hex, View(x), step) == View(x')
  {
    var x' := Moved(hex, x, move);
    if move.Lock? { LockStepsAreFenceSteps(hex, x.fences, x.world, move.m); }
    StepStaysScoped(hex, View(x), StepOf(Inside(x'.fences), move));
  }

  ghost predicate CanRun(hex: Key -> string, x: System, moves: seq<Move>)
    requires Good(hex, x)
    decreases |moves|
  {
    moves == [] || (CanMove(hex, x, moves[0]) && (MovesAreSteps(hex, x, moves[0]); CanRun(hex, Moved(hex, x, moves[0]), moves[1..])))
  }

  ghost function AfterMoves(hex: Key -> string, x: System, moves: seq<Move>): System
    requires Good(hex, x) && CanRun(hex, x, moves)
    decreases |moves|
  {
    if moves == [] then x
    else
      MovesAreSteps(hex, x, moves[0]);
      AfterMoves(hex, Moved(hex, x, moves[0]), moves[1..])
  }

  /** The protocol's own steps in a run of the system. */
  function Acts(moves: seq<Move>): seq<Action> {
    if moves == [] then [] else (if moves[0].Act? then [moves[0].a] else []) + Acts(moves[1..])
  }

  /** A run of locks and workers together is a run of the protocol, whatever the locks do: they exclude by themselves. */
  lemma {:induction false} SystemRunsAreProtocolRuns(hex: Key -> string, x: System, moves: seq<Move>)
    requires Good(hex, x) && CanRun(hex, x, moves)
    ensures Runnable(x.world, Acts(moves)) && Run(x.world, Acts(moves)) == AfterMoves(hex, x, moves).world
    decreases |moves|
  {
    if moves != [] {
      MovesAreSteps(hex, x, moves[0]);
      SystemRunsAreProtocolRuns(hex, Moved(hex, x, moves[0]), moves[1..]);
      if moves[0].Act? {
        FencedEventsMayBegin(hex, View(x), moves[0].a);
        assert Acts(moves)[0] == moves[0].a && Acts(moves)[1..] == Acts(moves[1..]);
      } else {
        assert Acts(moves) == Acts(moves[1..]);
      }
    }
  }

  /** Nobody holds or wants a lock. */
  predicate Unused(f: Fences) {
    match f
    case InProcess(s) => s == LockRegistry.IDLE
    case InDatabase(s) => s == AdvisoryLocks.State(map[], map[])
  }

  /** Every run of the system may start there. */
  lemma UnusedIsGood(hex: Key -> string, x: System)
    requires Unused(x.fences) && x.world.attempts == map[]
    ensures Good(hex, x)
  {
    LockRegistry.IdleIsGood();
  }

  /**
   With either kind of locks, from unused ones and a settled world on: in every run of locks and workers each copy
   that no open attempt has changed holds the effect of the event its checkpoint records.
   */
  lemma WorkersBehindLocksAgree(hex: Key -> string, x: System, moves: seq<Move>, slot: Slot)
    requires Unused(x.fences) && Quiescent(x.world) && ValidSlot(slot)
    requires Good(hex, x) && CanRun(hex, x, moves)
    ensures var world := AfterMoves(hex, x, moves).world;
      (!TouchedBySome(world, slot) ==> Agrees(world, slot)) && (world.attempts == map[] ==> Quiescent(world))
  {
    SystemRunsAreProtocolRuns(hex, x, moves);
    AgreementInEveryRun(x.world, Acts(moves), slot);
  }
}
