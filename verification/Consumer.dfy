/**
 One delivery as the worker executes it: parse and check the key, open the fenced scope, plan every
 target, then change them one by one, and commit the progress made. The bounded retry loop around it
 ends in success, quarantine or an error.
 */
module Consumer {
  import opened Json
  import opened Encoding
  import opened EventEnvelope
  import opened CheckpointStore
  import opened FencedIndexing

  datatype Outcome =
    | Applied | StaleEvent | DuplicateEvent | NoopMixed
    | Malformed | OrderingRejected | MissingCluster
    | TargetFailed | Unavailable | SaveRejected | CommitRejected

  /** What the targets hold, and every change made to them so far. */
  datatype Targets = Targets(contents: map<Slot, Content>, writes: seq<WriteRecord>) {
    function Change(x: Slot, e: Event): Targets {
      Targets(contents[x := Effect(e)], writes + [WriteRecord(x, e)])
    }
  }

  /** The physical targets, as far as the worker changes them. */
  class SearchTargets {
    var contents: map<Slot, Content>
    ghost var writes: seq<WriteRecord>

    ghost function State(): Targets
      reads this
    {
      Targets(contents, writes)
    }

    constructor ()
      ensures State() == Targets(map[], [])
    {
      contents, writes := map[], [];
    }

    /** One upsert or delete call; a target that is down refuses it without effect. */
    method Change(e: Event, target: string, down: set<string>) returns (ok: bool)
      modifies this
      ensures ok <==> target !in down
      ensures State() == if ok then old(State()).Change(Slot(e.identity, target), e) else old(State())
      ensures ok ==>
        && Slot(e.identity, target) in contents && Carries(contents[Slot(e.identity, target)], e)
        && writes == old(writes) + [WriteRecord(Slot(e.identity, target), e)]
    {
      ok := target !in down;
      if ok {
        contents := contents[Slot(e.identity, target) := Effect(e)];
        writes := writes + [WriteRecord(Slot(e.identity, target), e)];
      }
    }
  }

  // ---- What one attempt does -----------------------------------------------

  datatype Planned = Plan(decisions: seq<Verdict>) | NoClient | Contradiction

  /** The first pass, from the targets already judged. */
  function PlanFrom(e: Event, clients: set<string>, rows: map<Key, TargetCheckpoint>, done: seq<Verdict>): Planned
    requires |done| <= |e.targets|
    decreases |e.targets| - |done|
  {
    if |done| == |e.targets| then Plan(done)
    else if e.targets[|done|] !in clients then NoClient
    else
      var v := Classify(e, Lookup(rows, KeyAt(e, |done|)));
      if v == OrderingError then Contradiction else PlanFrom(e, clients, rows, done + [v])
  }

  datatype Progress = Progress(targets: Targets, staged: map<Key, TargetCheckpoint>, failed: bool)

  /** The second pass, from target i on. */
  function ApplyFrom(e: Event, plan: seq<Verdict>, down: set<string>, clock: nat -> int, i: nat,
                     targets: Targets, staged: map<Key, TargetCheckpoint>): Progress
    requires i <= |e.targets|
    decreases |e.targets| - i
  {
    if i == |e.targets| then Progress(targets, staged, false)
    else if !Writes(plan, i) then ApplyFrom(e, plan, down, clock, i + 1, targets, staged)
    else if e.targets[i] in down then Progress(targets, staged, true)
    else ApplyFrom(e, plan, down, clock, i + 1, targets.Change(SlotAt(e, i), e),
                   staged[KeyAt(e, i) := CheckpointFromEvent(e, e.targets[i], clock(i))])
  }

  /** The label of a pass that met no failure. */
  function Summary(plan: seq<Verdict>): Outcome {
    if Stale in plan then StaleEvent else if Apply in plan then Applied else DuplicateEvent
  }

  datatype Delivery = Delivery(rows: map<Key, TargetCheckpoint>, targets: Targets, outcome: Outcome)

  /** What a whole fenced attempt leaves behind. */
  function Attempted(e: Event, clients: set<string>, down: set<string>, clock: nat -> int,
                     rows: map<Key, TargetCheckpoint>, targets: Targets): Delivery {
    match PlanFrom(e, clients, rows, [])
    case NoClient => Delivery(rows, targets, MissingCluster)
    case Contradiction => Delivery(rows, targets, OrderingRejected)
    case Plan(plan) =>
      var p := ApplyFrom(e, plan, down, clock, 0, targets, map[]);
      Delivery(rows + p.staged, p.targets, if p.failed then TargetFailed else Summary(plan))
  }

  lemma {:induction false} PlanIsSound(e: Event, clients: set<string>, rows: map<Key, TargetCheckpoint>, done: seq<Verdict>)
    requires PlanSound(rows, e, done)
    ensures PlanFrom(e, clients, rows, done).Plan? ==>
      var p := PlanFrom(e, clients, rows, done).decisions; PlanSound(rows, e, p) && |p| == |e.targets|
    decreases |e.targets| - |done|
  {
    if |done| < |e.targets| && e.targets[|done|] in clients {
      var v := Classify(e, Lookup(rows, KeyAt(e, |done|)));
      if v != OrderingError { PlanIsSound(e, clients, rows, done + [v]); }
    }
  }

  /** Staged rows belong to the event's own targets and advance what is committed. */
  ghost predicate StagedWithin(e: Event, rows: map<Key, TargetCheckpoint>, staged: map<Key, TargetCheckpoint>) {
    forall k :: k in staged ==>
      && k in EventKeys(e) && Faithful(staged[k]) && SavedKey(staged[k]) == k
      && (k in rows ==> Advances(rows[k], staged[k]))
  }

  /** Up to some target, the planned ones are staged and no others. */
  ghost predicate StagedPrefix(e: Event, plan: seq<Verdict>, staged: map<Key, TargetCheckpoint>) {
    exists next: nat :: StagedSound(e, plan, next, staged)
  }

  lemma StagedAreAdvances(rows: map<Key, TargetCheckpoint>, e: Event, plan: seq<Verdict>, staged: map<Key, TargetCheckpoint>)
    requires ValidEvent(e) && PlanSound(rows, e, plan) && |plan| == |e.targets| && StagedPrefix(e, plan, staged)
    ensures StagedWithin(e, rows, staged)
  {
    var next: nat :| StagedSound(e, plan, next, staged);
    var t := Attempt(e, plan, Applying, next, staged);
    assert Sound(rows, t);
    forall k | k in staged ensures k in EventKeys(e) && Faithful(staged[k]) && SavedKey(staged[k]) == k
      && (k in rows ==> Advances(rows[k], staged[k]))
    {
      StagedRows(rows, t, k);
      var i :| 0 <= i < next && Writes(plan, i) && KeyAt(e, i) == k;
      KeyAtInKeys(e, i);
    }
  }

  lemma OneTurn(e: Event, plan: seq<Verdict>, down: set<string>, clock: nat -> int, i: nat,
                targets: Targets, staged: map<Key, TargetCheckpoint>)
    requires i < |e.targets|
    ensures var p := ApplyFrom(e, plan, down, clock, i, targets, staged);
      if !Writes(plan, i) then p == ApplyFrom(e, plan, down, clock, i + 1, targets, staged)
      else if e.targets[i] in down then p == Progress(targets, staged, true)
      else p == ApplyFrom(e, plan, down, clock, i + 1, targets.Change(SlotAt(e, i), e),
                          staged[KeyAt(e, i) := CheckpointFromEvent(e, e.targets[i], clock(i))])
  {
  }

  /** A plan with an obsolete target, or without a new one, changes nothing at all. */
  lemma {:induction false} NothingToApply(e: Event, plan: seq<Verdict>, down: set<string>, clock: nat -> int, i: nat,
                                          targets: Targets, staged: map<Key, TargetCheckpoint>)
    requires i <= |e.targets|
    ensures Stale in plan || Apply !in plan ==>
      ApplyFrom(e, plan, down, clock, i, targets, staged) == Progress(targets, staged, false)
    decreases |e.targets| - i
  {
    if i < |e.targets| && !Writes(plan, i) { NothingToApply(e, plan, down, clock, i + 1, targets, staged); }
  }

  // ---- How an attempt ends, told by its targets -----------------------------

  /** What the committed rows say about target j. */
  function Judged(e: Event, rows: map<Key, TargetCheckpoint>, j: nat): Verdict
    requires j < |e.targets|
  {
    Classify(e, Lookup(rows, SlotKey(Slot(e.identity, e.targets[j]))))
  }

  ghost predicate Clear(e: Event, clients: set<string>, rows: map<Key, TargetCheckpoint>, j: nat)
    requires j < |e.targets|
  {
    e.targets[j] in clients && Judged(e, rows, j) != OrderingError
  }

  /** Targets from `from` on are clear up to i, where the worker has no client. */
  ghost predicate LacksClientAt(e: Event, clients: set<string>, rows: map<Key, TargetCheckpoint>, from: nat, i: nat) {
    && from <= i < |e.targets| && e.targets[i] !in clients
    && forall j :: from <= j < i ==> Clear(e, clients, rows, j)
  }

  ghost predicate ContradictedAt(e: Event, clients: set<string>, rows: map<Key, TargetCheckpoint>, from: nat, i: nat) {
    && from <= i < |e.targets| && e.targets[i] in clients && Judged(e, rows, i) == OrderingError
    && forall j :: from <= j < i ==> Clear(e, clients, rows, j)
  }

  /** The first pass stops at the first target without a client or with a contradiction, whichever comes first. */
  ghost predicate PlannedFrom(e: Event, clients: set<string>, rows: map<Key, TargetCheckpoint>, from: nat, planned: Planned) {
    && (planned.NoClient? <==> exists i :: LacksClientAt(e, clients, rows, from, i))
    && (planned.Contradiction? <==> exists i :: ContradictedAt(e, clients, rows, from, i))
    && (planned.Plan? <==> forall j :: from <= j < |e.targets| ==> Clear(e, clients, rows, j))
    && (planned.Plan? ==>
          && |planned.decisions| == |e.targets|
          && forall j :: from <= j < |e.targets| ==> planned.decisions[j] == Judged(e, rows, j))
  }

  lemma {:induction false} PlanIsDecided(e: Event, clients: set<string>, rows: map<Key, TargetCheckpoint>, done: seq<Verdict>)
    requires |done| <= |e.targets|
    ensures PlannedFrom(e, clients, rows, |done|, PlanFrom(e, clients, rows, done))
    ensures PlanFrom(e, clients, rows, done).Plan? ==> done <= PlanFrom(e, clients, rows, done).decisions
    decreases |e.targets| - |done|
  {
    var n := |done|;
    if n < |e.targets| {
      if e.targets[n] !in clients {
        StopsAt(e, clients, rows, n);
        assert LacksClientAt(e, clients, rows, n, n);
      } else if Judged(e, rows, n) == OrderingError {
        StopsAt(e, clients, rows, n);
        assert ContradictedAt(e, clients, rows, n, n);
      } else {
        PlanIsDecided(e, clients, rows, done + [Judged(e, rows, n)]);
        ClearGoesOn(e, clients, rows, n, n + 1);
      }
    }
  }

  lemma StopsAt(e: Event, clients: set<string>, rows: map<Key, TargetCheckpoint>, n: nat)
    requires n < |e.targets| && !Clear(e, clients, rows, n)
    ensures forall i :: LacksClientAt(e, clients, rows, n, i) || ContradictedAt(e, clients, rows, n, i) ==> i == n
  {
  }

  lemma ClearGoesOn(e: Event, clients: set<string>, rows: map<Key, TargetCheckpoint>, n: nat, next: nat)
    requires n < |e.targets| && Clear(e, clients, rows, n) && next == n + 1
    ensures (exists i :: LacksClientAt(e, clients, rows, n, i)) <==> exists i :: LacksClientAt(e, clients, rows, next, i)
    ensures (exists i :: ContradictedAt(e, clients, rows, n, i)) <==> exists i :: ContradictedAt(e, clients, rows, next, i)
  {
    forall i: nat ensures LacksClientAt(e, clients, rows, n, i) <==> LacksClientAt(e, clients, rows, next, i) { }
    forall i: nat ensures ContradictedAt(e, clients, rows, n, i) <==> ContradictedAt(e, clients, rows, next, i) { }
  }

  /** The second pass comes to target j and changes it: j is planned, and no planned target up to it is down. */
  ghost predicate Treated(e: Event, plan: seq<Verdict>, down: set<string>, from: nat, j: nat) {
    && from <= j < |e.targets| && Writes(plan, j)
    && forall m :: from <= m <= j && Writes(plan, m) ==> e.targets[m] !in down
  }

  /** One turn of the second pass, for what it treats: the first planned target that is down ends it. */
  lemma TreatedFromNext(e: Event, plan: seq<Verdict>, down: set<string>, i: nat, j: nat)
    requires i < |e.targets|
    ensures !Writes(plan, i) ==> (Treated(e, plan, down, i, j) <==> Treated(e, plan, down, i + 1, j))
    ensures Writes(plan, i) && e.targets[i] in down ==> !Treated(e, plan, down, i, j)
    ensures Writes(plan, i) && e.targets[i] !in down ==>
      (Treated(e, plan, down, i, j) <==> j == i || Treated(e, plan, down, i + 1, j))
  {
    if Writes(plan, i) && e.targets[i] !in down && Treated(e, plan, down, i + 1, j) {
      forall m | i <= m <= j && Writes(plan, m) ensures e.targets[m] !in down { }
    }
  }

  lemma {:induction false} PassFails(e: Event, plan: seq<Verdict>, down: set<string>, clock: nat -> int, i: nat,
                                     targets: Targets, staged: map<Key, TargetCheckpoint>)
    requires i <= |e.targets|
    ensures ApplyFrom(e, plan, down, clock, i, targets, staged).failed
      <==> exists j :: i <= j < |e.targets| && Writes(plan, j) && e.targets[j] in down
    decreases |e.targets| - i
  {
    if i < |e.targets| {
      if !Writes(plan, i) {
        PassFails(e, plan, down, clock, i + 1, targets, staged);
      } else if e.targets[i] !in down {
        PassFails(e, plan, down, clock, i + 1, targets.Change(SlotAt(e, i), e),
                  staged[KeyAt(e, i) := CheckpointFromEvent(e, e.targets[i], clock(i))]);
      }
    }
  }

  /** A call to a treated target. */
  ghost predicate CallOf(e: Event, plan: seq<Verdict>, down: set<string>, from: nat, r: WriteRecord) {
    exists j :: Treated(e, plan, down, from, j) && r == WriteRecord(SlotAt(e, j), e)
  }

  /** The calls of a pass: to treated targets only, and to every one of them. */
  ghost predicate CallsTreated(e: Event, plan: seq<Verdict>, down: set<string>, from: nat, before: seq<WriteRecord>, after: seq<WriteRecord>) {
    && before <= after
    && (forall n :: |before| <= n < |after| ==> CallOf(e, plan, down, from, after[n]))
    && (forall j :: Treated(e, plan, down, from, j) ==> WriteRecord(SlotAt(e, j), e) in after[|before|..])
  }

  lemma {:induction false} PassCalls(e: Event, plan: seq<Verdict>, down: set<string>, clock: nat -> int, i: nat,
                                     targets: Targets, staged: map<Key, TargetCheckpoint>)
    requires i <= |e.targets|
    ensures CallsTreated(e, plan, down, i, targets.writes, ApplyFrom(e, plan, down, clock, i, targets, staged).targets.writes)
    decreases |e.targets| - i
  {
    if i < |e.targets| {
      forall j: nat { TreatedFromNext(e, plan, down, i, j); }
      if !Writes(plan, i) {
        PassCalls(e, plan, down, clock, i + 1, targets, staged);
        SkippedCall(e, plan, down, i, targets.writes, ApplyFrom(e, plan, down, clock, i, targets, staged).targets.writes);
      } else if e.targets[i] !in down {
        var targets' := targets.Change(SlotAt(e, i), e);
        var staged' := staged[KeyAt(e, i) := CheckpointFromEvent(e, e.targets[i], clock(i))];
        PassCalls(e, plan, down, clock, i + 1, targets', staged');
        OneMoreCall(e, plan, down, i, targets.writes, ApplyFrom(e, plan, down, clock, i + 1, targets', staged').targets.writes);
      }
    }
  }

  lemma CallOfNext(e: Event, plan: seq<Verdict>, down: set<string>, i: nat, r: WriteRecord)
    requires i < |e.targets| && (Writes(plan, i) ==> e.targets[i] !in down) && CallOf(e, plan, down, i + 1, r)
    ensures CallOf(e, plan, down, i, r)
  {
    var j :| Treated(e, plan, down, i + 1, j) && r == WriteRecord(SlotAt(e, j), e);
    TreatedFromNext(e, plan, down, i, j);
  }

  lemma SkippedCall(e: Event, plan: seq<Verdict>, down: set<string>, i: nat, before: seq<WriteRecord>, after: seq<WriteRecord>)
    requires i < |e.targets| && !Writes(plan, i) && CallsTreated(e, plan, down, i + 1, before, after)
    ensures CallsTreated(e, plan, down, i, before, after)
  {
    forall j: nat { TreatedFromNext(e, plan, down, i, j); }
    forall n | |before| <= n < |after| ensures CallOf(e, plan, down, i, after[n]) { CallOfNext(e, plan, down, i, after[n]); }
  }

  lemma OneMoreCall(e: Event, plan: seq<Verdict>, down: set<string>, i: nat, before: seq<WriteRecord>, after: seq<WriteRecord>)
    requires i < |e.targets| && Writes(plan, i) && e.targets[i] !in down
    requires CallsTreated(e, plan, down, i + 1, before + [WriteRecord(SlotAt(e, i), e)], after)
    ensures CallsTreated(e, plan, down, i, before, after)
  {
    var more := before + [WriteRecord(SlotAt(e, i), e)];
    forall j: nat { TreatedFromNext(e, plan, down, i, j); }
    assert after[|before|] == more[|before|] && |more| == |before| + 1;
    forall n | |before| <= n < |after| ensures CallOf(e, plan, down, i, after[n]) {
      if n == |before| { assert Treated(e, plan, down, i, i); } else { CallOfNext(e, plan, down, i, after[n]); }
    }
    forall j | Treated(e, plan, down, i, j) ensures WriteRecord(SlotAt(e, j), e) in after[|before|..] {
      if j == i {
        assert after[|before|..][0] == WriteRecord(SlotAt(e, i), e);
      } else {
        assert after[|before|..][1..] == after[|more|..];
      }
    }
  }

  /** What a pass leaves at a copy: the event's document if its target is treated, or else what was there. */
  ghost predicate ContentsTreated(e: Event, plan: seq<Verdict>, down: set<string>, from: nat, before: map<Slot, Content>, after: map<Slot, Content>) {
    && (forall j :: Treated(e, plan, down, from, j) ==> SlotAt(e, j) in after && Carries(after[SlotAt(e, j)], e))
    && (forall x :: x in before ==> x in after)
    && (forall x :: x in after && (forall j :: Treated(e, plan, down, from, j) ==> SlotAt(e, j) != x) ==> x in before && after[x] == before[x])
  }

  lemma {:induction false} PassContents(e: Event, plan: seq<Verdict>, down: set<string>, clock: nat -> int, i: nat,
                                        targets: Targets, staged: map<Key, TargetCheckpoint>)
    requires i <= |e.targets| && ValidEvent(e)
    ensures ContentsTreated(e, plan, down, i, targets.contents, ApplyFrom(e, plan, down, clock, i, targets, staged).targets.contents)
    decreases |e.targets| - i
  {
    if i < |e.targets| {
      if !Writes(plan, i) {
        PassContents(e, plan, down, clock, i + 1, targets, staged);
        SkippedContent(e, plan, down, i, targets.contents, ApplyFrom(e, plan, down, clock, i, targets, staged).targets.contents);
      } else if e.targets[i] !in down {
        var targets' := targets.Change(SlotAt(e, i), e);
        var staged' := staged[KeyAt(e, i) := CheckpointFromEvent(e, e.targets[i], clock(i))];
        PassContents(e, plan, down, clock, i + 1, targets', staged');
        OneMoreContent(e, plan, down, i, targets.contents, ApplyFrom(e, plan, down, clock, i + 1, targets', staged').targets.contents);
      }
    }
  }

  lemma SkippedContent(e: Event, plan: seq<Verdict>, down: set<string>, i: nat, before: map<Slot, Content>, after: map<Slot, Content>)
    requires i < |e.targets| && !Writes(plan, i) && ContentsTreated(e, plan, down, i + 1, before, after)
    ensures ContentsTreated(e, plan, down, i, before, after)
  {
    forall j: nat { TreatedFromNext(e, plan, down, i, j); }
  }

  lemma OneMoreContent(e: Event, plan: seq<Verdict>, down: set<string>, i: nat, before: map<Slot, Content>, after: map<Slot, Content>)
    requires ValidEvent(e) && i < |e.targets| && Writes(plan, i) && e.targets[i] !in down
    requires ContentsTreated(e, plan, down, i + 1, before[SlotAt(e, i) := Effect(e)], after)
    ensures ContentsTreated(e, plan, down, i, before, after)
  {
    forall j: nat { TreatedFromNext(e, plan, down, i, j); }
    forall j | Treated(e, plan, down, i + 1, j) ensures SlotAt(e, j) != SlotAt(e, i) { }
    assert Treated(e, plan, down, i, i);
    forall x | x in after && (forall j :: Treated(e, plan, down, i, j) ==> SlotAt(e, j) != x) ensures x in before && after[x] == before[x] {
      assert x != SlotAt(e, i);
    }
  }

  /** The rows a pass stages: one for each treated target, at the time of its save, and no others. */
  ghost predicate StagesTreated(e: Event, plan: seq<Verdict>, down: set<string>, clock: nat -> int, from: nat,
                                before: map<Key, TargetCheckpoint>, after: map<Key, TargetCheckpoint>) {
    && (forall j: nat :: Treated(e, plan, down, from, j) ==>
          KeyAt(e, j) in after && after[KeyAt(e, j)] == CheckpointFromEvent(e, e.targets[j], clock(j)))
    && (forall k :: k in before ==> k in after)
    && (forall k :: k in after && (forall j :: Treated(e, plan, down, from, j) ==> KeyAt(e, j) != k) ==> k in before && after[k] == before[k])
  }

  lemma {:induction false} PassStages(e: Event, plan: seq<Verdict>, down: set<string>, clock: nat -> int, i: nat,
                                      targets: Targets, staged: map<Key, TargetCheckpoint>)
    requires i <= |e.targets| && ValidEvent(e)
    ensures StagesTreated(e, plan, down, clock, i, staged, ApplyFrom(e, plan, down, clock, i, targets, staged).staged)
    decreases |e.targets| - i
  {
    if i < |e.targets| {
      if !Writes(plan, i) {
        PassStages(e, plan, down, clock, i + 1, targets, staged);
        SkippedRow(e, plan, down, clock, i, staged, ApplyFrom(e, plan, down, clock, i, targets, staged).staged);
      } else if e.targets[i] !in down {
        var targets' := targets.Change(SlotAt(e, i), e);
        var staged' := staged[KeyAt(e, i) := CheckpointFromEvent(e, e.targets[i], clock(i))];
        PassStages(e, plan, down, clock, i + 1, targets', staged');
        OneMoreRow(e, plan, down, clock, i, staged, ApplyFrom(e, plan, down, clock, i + 1, targets', staged').staged);
      }
    }
  }

  lemma SkippedRow(e: Event, plan: seq<Verdict>, down: set<string>, clock: nat -> int, i: nat,
                   before: map<Key, TargetCheckpoint>, after: map<Key, TargetCheckpoint>)
    requires i < |e.targets| && !Writes(plan, i) && StagesTreated(e, plan, down, clock, i + 1, before, after)
    ensures StagesTreated(e, plan, down, clock, i, before, after)
  {
    forall j: nat { TreatedFromNext(e, plan, down, i, j); }
  }

  lemma OneMoreRow(e: Event, plan: seq<Verdict>, down: set<string>, clock: nat -> int, i: nat,
                   before: map<Key, TargetCheckpoint>, after: map<Key, TargetCheckpoint>)
    requires ValidEvent(e) && i < |e.targets| && Writes(plan, i) && e.targets[i] !in down
    requires StagesTreated(e, plan, down, clock, i + 1, before[KeyAt(e, i) := CheckpointFromEvent(e, e.targets[i], clock(i))], after)
    ensures StagesTreated(e, plan, down, clock, i, before, after)
  {
    forall j: nat { TreatedFromNext(e, plan, down, i, j); }
    forall j | Treated(e, plan, down, i + 1, j) ensures KeyAt(e, j) != KeyAt(e, i) { KeysDiffer(e, j, i); }
    assert Treated(e, plan, down, i, i);
    forall k | k in after && (forall j :: Treated(e, plan, down, i, j) ==> KeyAt(e, j) != k) ensures k in before && after[k] == before[k] {
      assert k != KeyAt(e, i);
    }
  }

  ghost predicate AllClear(e: Event, clients: set<string>, rows: map<Key, TargetCheckpoint>) {
    forall j :: 0 <= j < |e.targets| ==> Clear(e, clients, rows, j)
  }

  ghost predicate SomeJudged(e: Event, rows: map<Key, TargetCheckpoint>, v: Verdict) {
    exists j :: 0 <= j < |e.targets| && Judged(e, rows, j) == v
  }

  /** A target that is to be changed, but whose call fails. */
  ghost predicate CallFailsAt(e: Event, down: set<string>, rows: map<Key, TargetCheckpoint>, j: nat) {
    j < |e.targets| && Judged(e, rows, j) == Apply && e.targets[j] in down
  }

  ghost predicate SomeCallFails(e: Event, down: set<string>, rows: map<Key, TargetCheckpoint>) {
    exists j :: CallFailsAt(e, down, rows, j)
  }

  ghost predicate AllDuplicates(e: Event, rows: map<Key, TargetCheckpoint>) {
    forall j :: 0 <= j < |e.targets| ==> Judged(e, rows, j) == Duplicate
  }

  ghost predicate LacksClient(e: Event, clients: set<string>, rows: map<Key, TargetCheckpoint>) {
    exists i :: LacksClientAt(e, clients, rows, 0, i)
  }

  ghost predicate Contradicted(e: Event, clients: set<string>, rows: map<Key, TargetCheckpoint>) {
    exists i :: ContradictedAt(e, clients, rows, 0, i)
  }

  /** How an attempt ends, told by the clients at hand, the committed rows and the targets that are down. */
  ghost predicate EndsAs(e: Event, clients: set<string>, down: set<string>, rows: map<Key, TargetCheckpoint>, o: Outcome) {
    && (o == MissingCluster <==> LacksClient(e, clients, rows))
    && (o == OrderingRejected <==> Contradicted(e, clients, rows))
    && (o == StaleEvent <==> AllClear(e, clients, rows) && SomeJudged(e, rows, Stale))
    && (o == TargetFailed <==> AllClear(e, clients, rows) && !SomeJudged(e, rows, Stale) && SomeCallFails(e, down, rows))
    && (o == Applied <==>
          && AllClear(e, clients, rows) && !SomeJudged(e, rows, Stale) && SomeJudged(e, rows, Apply)
          && !SomeCallFails(e, down, rows))
    && (o == DuplicateEvent <==> AllClear(e, clients, rows) && AllDuplicates(e, rows))
  }

  /** An attempt changes target j: nothing speaks against the event, j is new to it, and no call failed up to j. */
  ghost predicate Reaches(e: Event, clients: set<string>, down: set<string>, rows: map<Key, TargetCheckpoint>, j: nat) {
    && j < |e.targets| && AllClear(e, clients, rows) && !SomeJudged(e, rows, Stale)
    && Judged(e, rows, j) == Apply && forall m :: 0 <= m <= j ==> !CallFailsAt(e, down, rows, m)
  }

  /** A call to a target that an attempt reaches. */
  ghost predicate CallReached(e: Event, clients: set<string>, down: set<string>, rows: map<Key, TargetCheckpoint>, r: WriteRecord) {
    exists j :: Reaches(e, clients, down, rows, j) && r == WriteRecord(SlotAt(e, j), e)
  }

  /** The calls an attempt makes: to the targets it reaches, and to nothing else. */
  ghost predicate CallsReached(e: Event, clients: set<string>, down: set<string>, rows: map<Key, TargetCheckpoint>,
                               before: seq<WriteRecord>, after: seq<WriteRecord>) {
    && before <= after
    && (forall j: nat :: Reaches(e, clients, down, rows, j) ==> WriteRecord(SlotAt(e, j), e) in after[|before|..])
    && (forall n :: |before| <= n < |after| ==> CallReached(e, clients, down, rows, after[n]))
  }

  /** What it leaves in the copies: the effect of the event in those it reaches, and the others as they were. */
  ghost predicate ChangesReached(e: Event, clients: set<string>, down: set<string>, rows: map<Key, TargetCheckpoint>,
                                 before: map<Slot, Content>, after: map<Slot, Content>) {
    && (forall j: nat :: Reaches(e, clients, down, rows, j) ==> SlotAt(e, j) in after && Carries(after[SlotAt(e, j)], e))
    && (forall x :: x in before ==> x in after)
    && (forall x :: x in after && (forall j :: Reaches(e, clients, down, rows, j) ==> SlotAt(e, j) != x) ==>
          x in before && after[x] == before[x])
  }

  /** And in the rows: a checkpoint of the event for every target it reaches, and the others as they were. */
  ghost predicate RecordsReached(e: Event, clients: set<string>, down: set<string>, clock: nat -> int,
                                 rows: map<Key, TargetCheckpoint>, after: map<Key, TargetCheckpoint>) {
    && (forall j: nat :: Reaches(e, clients, down, rows, j) ==>
          KeyAt(e, j) in after && after[KeyAt(e, j)] == CheckpointFromEvent(e, e.targets[j], clock(j)))
    && (forall k :: (forall j :: Reaches(e, clients, down, rows, j) ==> KeyAt(e, j) != k) ==> Lookup(after, k) == Lookup(rows, k))
  }

  lemma PlanTellsVerdicts(e: Event, clients: set<string>, rows: map<Key, TargetCheckpoint>, plan: seq<Verdict>)
    requires PlanFrom(e, clients, rows, []) == Plan(plan)
    ensures AllClear(e, clients, rows) && |plan| == |e.targets|
    ensures forall j :: 0 <= j < |plan| ==> plan[j] == Judged(e, rows, j)
    ensures forall v :: v in plan <==> SomeJudged(e, rows, v)
    ensures forall j: nat :: Writes(plan, j) <==> j < |plan| && Judged(e, rows, j) == Apply && !SomeJudged(e, rows, Stale)
  {
    PlanIsDecided(e, clients, rows, []);
    forall v ensures v in plan <==> SomeJudged(e, rows, v) {
      if v in plan {
        var j :| 0 <= j < |plan| && plan[j] == v;
        assert Judged(e, rows, j) == v;
      }
    }
  }

  lemma ReachedIsTreated(e: Event, clients: set<string>, down: set<string>, rows: map<Key, TargetCheckpoint>, plan: seq<Verdict>, j: nat)
    requires PlanFrom(e, clients, rows, []) == Plan(plan)
    ensures Treated(e, plan, down, 0, j) <==> Reaches(e, clients, down, rows, j)
  {
    PlanTellsVerdicts(e, clients, rows, plan);
    if Reaches(e, clients, down, rows, j) {
      forall m | 0 <= m <= j && Writes(plan, m) ensures e.targets[m] !in down { assert !CallFailsAt(e, down, rows, m); }
    }
  }

  /** How an attempt ends is decided by the clients, the committed rows and the targets that are down. */
  lemma AttemptIsDecided(e: Event, clients: set<string>, down: set<string>, clock: nat -> int,
                         rows: map<Key, TargetCheckpoint>, targets: Targets)
    requires ValidEvent(e)
    ensures EndsAs(e, clients, down, rows, Attempted(e, clients, down, clock, rows, targets).outcome)
  {
    PlanIsDecided(e, clients, rows, []);
    if PlanFrom(e, clients, rows, []).Plan? { PlannedAttemptEnds(e, clients, down, clock, rows, targets); }
  }

  lemma PlannedAttemptEnds(e: Event, clients: set<string>, down: set<string>, clock: nat -> int,
                           rows: map<Key, TargetCheckpoint>, targets: Targets)
    requires ValidEvent(e) && PlanFrom(e, clients, rows, []).Plan?
    ensures EndsAs(e, clients, down, rows, Attempted(e, clients, down, clock, rows, targets).outcome)
  {
    var plan := PlanFrom(e, clients, rows, []).decisions;
    PlanTellsVerdicts(e, clients, rows, plan);
    ClearLacksNothing(e, clients, rows);
    ClearKinds(e, clients, down, rows);
    PassFails(e, plan, down, clock, 0, targets, map[]);
    PlannedCallsFail(e, clients, down, rows, plan);
  }

  lemma ClearKinds(e: Event, clients: set<string>, down: set<string>, rows: map<Key, TargetCheckpoint>)
    requires |e.targets| > 0 && AllClear(e, clients, rows)
    ensures AllDuplicates(e, rows) <==> !SomeJudged(e, rows, Stale) && !SomeJudged(e, rows, Apply)
    ensures SomeCallFails(e, down, rows) ==> SomeJudged(e, rows, Apply)
  {
    forall j | 0 <= j < |e.targets| ensures Judged(e, rows, j) in {Apply, Stale, Duplicate} { assert Clear(e, clients, rows, j); }
    assert Judged(e, rows, 0) == Judged(e, rows, 0);
  }

  lemma ClearLacksNothing(e: Event, clients: set<string>, rows: map<Key, TargetCheckpoint>)
    requires AllClear(e, clients, rows)
    ensures !LacksClient(e, clients, rows) && !Contradicted(e, clients, rows)
  {
    forall i: nat ensures !LacksClientAt(e, clients, rows, 0, i) && !ContradictedAt(e, clients, rows, 0, i) {
      assert i < |e.targets| ==> Clear(e, clients, rows, i);
    }
  }

  lemma PlannedCallsFail(e: Event, clients: set<string>, down: set<string>, rows: map<Key, TargetCheckpoint>, plan: seq<Verdict>)
    requires PlanFrom(e, clients, rows, []) == Plan(plan)
    ensures (exists j :: 0 <= j < |e.targets| && Writes(plan, j) && e.targets[j] in down)
      <==> !SomeJudged(e, rows, Stale) && SomeCallFails(e, down, rows)
  {
    PlanTellsVerdicts(e, clients, rows, plan);
    forall j: nat ensures Writes(plan, j) && e.targets[j] in down <==> !SomeJudged(e, rows, Stale) && CallFailsAt(e, down, rows, j) { }
  }

  lemma UnplannedReachesNothing(e: Event, clients: set<string>, down: set<string>, rows: map<Key, TargetCheckpoint>)
    requires !PlanFrom(e, clients, rows, []).Plan?
    ensures forall j :: !Reaches(e, clients, down, rows, j)
  {
    PlanIsDecided(e, clients, rows, []);
  }

  lemma AttemptIsLabelled(e: Event, clients: set<string>, down: set<string>, clock: nat -> int,
                          rows: map<Key, TargetCheckpoint>, targets: Targets)
    ensures Attempted(e, clients, down, clock, rows, targets).outcome
      in {Applied, StaleEvent, DuplicateEvent, OrderingRejected, MissingCluster, TargetFailed}
  {
  }

  lemma AttemptLeaves(e: Event, clients: set<string>, down: set<string>, clock: nat -> int,
                      rows: map<Key, TargetCheckpoint>, targets: Targets)
    requires ValidEvent(e)
    ensures var d := Attempted(e, clients, down, clock, rows, targets);
      && CallsReached(e, clients, down, rows, targets.writes, d.targets.writes)
      && ChangesReached(e, clients, down, rows, targets.contents, d.targets.contents)
      && RecordsReached(e, clients, down, clock, rows, d.rows)
  {
    AttemptCalls(e, clients, down, clock, rows, targets);
    AttemptChanges(e, clients, down, clock, rows, targets);
    AttemptRecords(e, clients, down, clock, rows, targets);
  }

  lemma TreatedCalls(e: Event, clients: set<string>, down: set<string>, rows: map<Key, TargetCheckpoint>, plan: seq<Verdict>,
                     before: seq<WriteRecord>, after: seq<WriteRecord>)
    requires forall j: nat :: Treated(e, plan, down, 0, j) <==> Reaches(e, clients, down, rows, j)
    requires CallsTreated(e, plan, down, 0, before, after)
    ensures CallsReached(e, clients, down, rows, before, after)
  {
    forall n | |before| <= n < |after| ensures CallReached(e, clients, down, rows, after[n]) {
      var r := after[n];
      var j :| Treated(e, plan, down, 0, j) && r == WriteRecord(SlotAt(e, j), e);
      assert Reaches(e, clients, down, rows, j);
    }
  }

  lemma TreatedRows(e: Event, clients: set<string>, down: set<string>, clock: nat -> int, rows: map<Key, TargetCheckpoint>,
                    plan: seq<Verdict>, staged: map<Key, TargetCheckpoint>)
    requires forall j: nat :: Treated(e, plan, down, 0, j) <==> Reaches(e, clients, down, rows, j)
    requires StagesTreated(e, plan, down, clock, 0, map[], staged)
    ensures RecordsReached(e, clients, down, clock, rows, rows + staged)
  {
    forall k | forall j :: Reaches(e, clients, down, rows, j) ==> KeyAt(e, j) != k ensures Lookup(rows + staged, k) == Lookup(rows, k) {
      assert k !in staged;
    }
  }

  lemma AttemptCalls(e: Event, clients: set<string>, down: set<string>, clock: nat -> int,
                     rows: map<Key, TargetCheckpoint>, targets: Targets)
    ensures CallsReached(e, clients, down, rows, targets.writes, Attempted(e, clients, down, clock, rows, targets).targets.writes)
  {
    match PlanFrom(e, clients, rows, []) {
      case Plan(plan) =>
        forall j: nat { ReachedIsTreated(e, clients, down, rows, plan, j); }
        PassCalls(e, plan, down, clock, 0, targets, map[]);
        TreatedCalls(e, clients, down, rows, plan, targets.writes, ApplyFrom(e, plan, down, clock, 0, targets, map[]).targets.writes);
      case _ => UnplannedReachesNothing(e, clients, down, rows);
    }
  }

  lemma AttemptChanges(e: Event, clients: set<string>, down: set<string>, clock: nat -> int,
                       rows: map<Key, TargetCheckpoint>, targets: Targets)
    requires ValidEvent(e)
    ensures ChangesReached(e, clients, down, rows, targets.contents, Attempted(e, clients, down, clock, rows, targets).targets.contents)
  {
    match PlanFrom(e, clients, rows, []) {
      case Plan(plan) =>
        forall j: nat { ReachedIsTreated(e, clients, down, rows, plan, j); }
        PassContents(e, plan, down, clock, 0, targets, map[]);
      case _ => UnplannedReachesNothing(e, clients, down, rows);
    }
  }

  lemma AttemptRecords(e: Event, clients: set<string>, down: set<string>, clock: nat -> int,
                       rows: map<Key, TargetCheckpoint>, targets: Targets)
    requires ValidEvent(e)
    ensures RecordsReached(e, clients, down, clock, rows, Attempted(e, clients, down, clock, rows, targets).rows)
  {
    match PlanFrom(e, clients, rows, []) {
      case Plan(plan) =>
        forall j: nat { ReachedIsTreated(e, clients, down, rows, plan, j); }
        PassStages(e, plan, down, clock, 0, targets, map[]);
        TreatedRows(e, clients, down, clock, rows, plan, ApplyFrom(e, plan, down, clock, 0, targets, map[]).staged);
      case _ => UnplannedReachesNothing(e, clients, down, rows);
    }
  }

  // ---- The two passes as the worker runs them ------------------------------

  /** First pass: judge every target before any of them is changed. */
  method PlanTargets(e: Event, clients: set<string>, session: EventSession) returns (plan: Planned)
    requires ValidEvent(e) && session.event == e && session.staged == map[]
    ensures plan == PlanFrom(e, clients, session.store.records, [])
    ensures plan.Plan? ==> PlanSound(session.store.records, e, plan.decisions) && |plan.decisions| == |e.targets|
    ensures PlannedFrom(e, clients, session.store.records, 0, plan)
  {
    ghost var rows := session.store.records;
    PlanIsDecided(e, clients, rows, []);
    assert rows + map[] == rows;
    var decisions: seq<Verdict> := [];
    while |decisions| < |e.targets|
      invariant |decisions| <= |e.targets|
      invariant PlanFrom(e, clients, rows, []) == PlanFrom(e, clients, rows, decisions)
      invariant PlanSound(rows, e, decisions)
      decreases |e.targets| - |decisions|
    {
      var target := e.targets[|decisions|];
      if target !in clients { return NoClient; }
      var checkpoint, _ := session.Load(e, target);
      var v := Classify(e, checkpoint);
      if v == OrderingError { return Contradiction; }
      decisions := decisions + [v];
    }
    plan := Plan(decisions);
  }

  datatype PassResult = Completed | CallFailed | SaveFailed

  /** One turn of the second pass: a planned target is changed and then saved, any other is left alone. */
  method TreatTarget(e: Event, decisions: seq<Verdict>, i: nat, down: set<string>, ms: int, session: EventSession,
                     world: SearchTargets, ghost rows: map<Key, TargetCheckpoint>) returns (result: PassResult)
    requires ValidEvent(e) && session.event == e && session.store.records == rows && WellFiled(rows)
    requires PlanSound(rows, e, decisions) && |decisions| == |e.targets| && i < |e.targets|
    modifies session, world
    ensures result != SaveFailed
    ensures result == CallFailed <==> Writes(decisions, i) && e.targets[i] in down
    ensures result == CallFailed || !Writes(decisions, i) ==>
      session.staged == old(session.staged) && world.State() == old(world.State())
    ensures result == Completed && Writes(decisions, i) ==>
      && world.State() == old(world.State()).Change(SlotAt(e, i), e)
      && session.staged == old(session.staged)[KeyAt(e, i) := CheckpointFromEvent(e, e.targets[i], ms)]
  {
    var target := e.targets[i];
    if decisions[i] == Apply && Stale !in decisions {
      var ok := world.Change(e, target, down);
      if !ok { return CallFailed; }
      SaveIsAccepted(rows, e, decisions, i, ms);
      var accepted := session.Save(CheckpointFromEvent(e, target, ms));
      if !accepted { return SaveFailed; }
    }
    result := Completed;
  }

  /** Second pass: change and save target by target; the first failing call ends it. */
  method ApplyTargets(e: Event, decisions: seq<Verdict>, down: set<string>, clock: nat -> int,
                      session: EventSession, world: SearchTargets) returns (result: PassResult)
    requires ValidEvent(e) && session.event == e && session.staged == map[] && WellFiled(session.store.records)
    requires PlanSound(session.store.records, e, decisions) && |decisions| == |e.targets|
    modifies session, world
    ensures ApplyFrom(e, decisions, down, clock, 0, old(world.State()), map[])
         == Progress(world.State(), session.staged, result == CallFailed)
    ensures result != SaveFailed
  {
    ghost var rows, before := session.store.records, world.State();
    ghost var goal := ApplyFrom(e, decisions, down, clock, 0, before, map[]);
    var i := 0;
    result := Completed;
    while i < |e.targets| && result == Completed
      invariant 0 <= i <= |e.targets| && result != SaveFailed
      invariant result == Completed ==> goal == ApplyFrom(e, decisions, down, clock, i, world.State(), session.staged)
      invariant result == CallFailed ==> goal == Progress(world.State(), session.staged, true)
      invariant session.store.records == rows
      decreases |e.targets| - i, if result == Completed then 1 else 0
    {
      OneTurn(e, decisions, down, clock, i, world.State(), session.staged);
      result := TreatTarget(e, decisions, i, down, clock(i), session, world, rows);
      if result == Completed { i := i + 1; }
    }
  }

  lemma SaveIsAccepted(rows: map<Key, TargetCheckpoint>, e: Event, plan: seq<Verdict>, i: nat, ms: int)
    requires ValidEvent(e) && WellFiled(rows) && PlanSound(rows, e, plan) && i < |plan| == |e.targets| && Writes(plan, i)
    ensures var c := CheckpointFromEvent(e, e.targets[i], ms);
      SavedKey(c) == KeyAt(e, i) && MemoryAccepts(Lookup(rows, KeyAt(e, i)), c) && c.target in e.targets
  {
    ApplyIsAccepted(rows, e, e.targets[i], ms);
    SavedUnderSlotKey(e, e.targets[i], ms);
  }

  /** A turn of the second pass that completes keeps `inv`, a property of the next target and the staged rows. */
  ghost predicate TurnsKeep(e: Event, plan: seq<Verdict>, clock: nat -> int, inv: (nat, map<Key, TargetCheckpoint>) -> bool) {
    forall i: nat, staged | i < |e.targets| && inv(i, staged) ::
      inv(i + 1, if Writes(plan, i) then staged[KeyAt(e, i) := CheckpointFromEvent(e, e.targets[i], clock(i))] else staged)
  }

  lemma {:induction false} PassKeeps(e: Event, plan: seq<Verdict>, down: set<string>, clock: nat -> int, i: nat, targets: Targets,
                                     staged: map<Key, TargetCheckpoint>, inv: (nat, map<Key, TargetCheckpoint>) -> bool)
    returns (reached: nat)
    requires i <= |e.targets| && TurnsKeep(e, plan, clock, inv) && inv(i, staged)
    ensures inv(reached, ApplyFrom(e, plan, down, clock, i, targets, staged).staged)
    decreases |e.targets| - i
  {
    reached := i;
    if i < |e.targets| {
      if !Writes(plan, i) {
        reached := PassKeeps(e, plan, down, clock, i + 1, targets, staged, inv);
      } else if e.targets[i] !in down {
        reached := PassKeeps(e, plan, down, clock, i + 1, targets.Change(SlotAt(e, i), e),
                             staged[KeyAt(e, i) := CheckpointFromEvent(e, e.targets[i], clock(i))], inv);
      }
    }
  }

  /** What a pass stages is what the plan changes, up to the target where it stopped. */
  lemma PassIsSound(e: Event, plan: seq<Verdict>, down: set<string>, clock: nat -> int, targets: Targets)
    requires ValidEvent(e)
    ensures StagedPrefix(e, plan, ApplyFrom(e, plan, down, clock, 0, targets, map[]).staged)
  {
    var inv := (i: nat, staged: map<Key, TargetCheckpoint>) => StagedSound(e, plan, i, staged);
    forall i: nat, staged | i < |e.targets| && inv(i, staged)
      ensures inv(i + 1, if Writes(plan, i) then staged[KeyAt(e, i) := CheckpointFromEvent(e, e.targets[i], clock(i))] else staged)
    {
      if Writes(plan, i) { SaveKeepsStaged(e, plan, i, staged, clock(i)); } else { SkipKeepsStaged(e, plan, i, staged); }
    }
    var reached := PassKeeps(e, plan, down, clock, 0, targets, map[], inv);
  }

  /** `_process_v2_event`: both passes, and the label of the result. */
  method ProcessV2Event(e: Event, clients: set<string>, down: set<string>, clock: nat -> int,
                        session: EventSession, world: SearchTargets) returns (outcome: Outcome)
    requires ValidEvent(e) && session.event == e && session.staged == map[] && WellFiled(session.store.records)
    modifies session, world
    ensures var d := Attempted(e, clients, down, clock, session.store.records, old(world.State()));
      outcome == d.outcome && world.State() == d.targets && session.store.records + session.staged == d.rows
    ensures StagedWithin(e, session.store.records, session.staged)
    ensures outcome in {MissingCluster, OrderingRejected, StaleEvent, DuplicateEvent} ==>
      session.staged == map[] && world.State() == old(world.State())
    ensures outcome in {Applied, StaleEvent, DuplicateEvent, TargetFailed, MissingCluster, OrderingRejected}
    ensures EndsAs(e, clients, down, session.store.records, outcome)
  {
    assert session.store.records + map[] == session.store.records;
    AttemptIsDecided(e, clients, down, clock, session.store.records, world.State());
    var plan := PlanTargets(e, clients, session);
    if plan.NoClient? { return MissingCluster; }
    if plan.Contradiction? { return OrderingRejected; }
    var decisions := plan.decisions;
    ghost var before := world.State();
    var result := ApplyTargets(e, decisions, down, clock, session, world);
    PassIsSound(e, decisions, down, clock, before);
    StagedAreAdvances(session.store.records, e, decisions, session.staged);
    NothingToApply(e, decisions, down, clock, 0, before, map[]);
    if result == CallFailed { return TargetFailed; }
    if result == SaveFailed { return SaveRejected; }
    if Apply in decisions && Stale !in decisions {
      outcome := Applied;
    } else if Stale in decisions {
      outcome := StaleEvent;
    } else if forall j :: 0 <= j < |decisions| ==> decisions[j] == Duplicate {
      outcome := DuplicateEvent;
    } else {
      outcome := NoopMixed;
    }
  }

  lemma CommitIsSafe(e: Event, rows: map<Key, TargetCheckpoint>, staged: map<Key, TargetCheckpoint>)
    requires WellFiled(rows) && StagedWithin(e, rows, staged)
    ensures WellFiled(rows + staged) && OnlyAdvances(rows, rows + staged)
    ensures forall k :: k in staged ==> !Regresses(Lookup(rows, k), staged[k])
  {
  }

  /** `event_scope` around the two passes: whatever was staged is committed, also after a failure. */
  method ProcessInScope(e: Event, clients: set<string>, down: set<string>, clock: nat -> int,
                        store: InMemoryCheckpointStore, world: SearchTargets) returns (outcome: Outcome)
    requires ValidEvent(e) && WellFiled(store.records)
    modifies store, world
    ensures Delivery(store.records, world.State(), outcome)
         == Attempted(e, clients, down, clock, old(store.records), old(world.State()))
    ensures WellFiled(store.records) && OnlyAdvances(old(store.records), store.records)
    ensures outcome !in {NoopMixed, SaveRejected, CommitRejected}
    ensures EndsAs(e, clients, down, old(store.records), outcome)
    ensures CallsReached(e, clients, down, old(store.records), old(world.writes), world.writes)
    ensures ChangesReached(e, clients, down, old(store.records), old(world.contents), world.contents)
    ensures RecordsReached(e, clients, down, clock, old(store.records), store.records)
  {
    AttemptLeaves(e, clients, down, clock, store.records, world.State());
    var session := new EventSession(store, e);
    outcome := ProcessV2Event(e, clients, down, clock, session, world);
    ghost var rows, staged := store.records, session.staged;
    CommitIsSafe(e, rows, staged);
    var committed := store.CommitStaged(session.staged);
    if !committed { outcome := CommitRejected; }
  }

  /** The message as the worker reads it: parsed, and delivered under its own key. */
  function ReadMessage(rules: TextRules, payload: Value, key: Option<seq<Byte>>): (e: Option<Event>)
    ensures e.Some? ==> ValidEvent(e.value) && key == Some(KafkaKey(e.value.identity)) && ParseEvent(rules, payload) == e
    ensures e.None? ==> ParseEvent(rules, payload).None? || key != Some(KafkaKey(ParseEvent(rules, payload).value.identity))
  {
    match ParseEvent(rules, payload)
    case Some(event) => if key == Some(KafkaKey(event.identity)) then Some(event) else None
    case None => None
  }

  /**
   What handling a message leaves behind. An unreadable one is rejected before anything is touched, and so is one
   whose fences or rows cannot be had this time.
   */
  function Handled(e: Option<Event>, reachable: bool, clients: set<string>, down: set<string>, clock: nat -> int,
                   rows: map<Key, TargetCheckpoint>, targets: Targets): Delivery {
    match e
    case None => Delivery(rows, targets, Malformed)
    case Some(event) => if !reachable then Delivery(rows, targets, Unavailable) else Attempted(event, clients, down, clock, rows, targets)
  }

  /** `process_message` for version 2 events, given what was read. */
  method ProcessMessage(e: Option<Event>, reachable: bool, clients: set<string>, down: set<string>, clock: nat -> int,
                        store: InMemoryCheckpointStore, world: SearchTargets) returns (outcome: Outcome)
    requires (e.Some? ==> ValidEvent(e.value)) && WellFiled(store.records)
    modifies store, world
    ensures Delivery(store.records, world.State(), outcome)
         == Handled(e, reachable, clients, down, clock, old(store.records), old(world.State()))
    ensures WellFiled(store.records)
    ensures outcome == Malformed <==> e.None?
    ensures outcome == Unavailable <==> e.Some? && !reachable
    ensures e.Some? && reachable ==> EndsAs(e.value, clients, down, old(store.records), outcome)
    ensures e.None? || !reachable ==> store.records == old(store.records) && world.State() == old(world.State())
  {
    if e.None? { return Malformed; }
    if !reachable { return Unavailable; }
    outcome := ProcessInScope(e.value, clients, down, clock, store, world);
  }
}
