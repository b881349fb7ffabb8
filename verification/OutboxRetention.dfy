/**
 Bounded retention of the two PostgreSQL outboxes: batches of published, aged, unheld and superseded rows are
 deleted in separate transactions while other sessions keep inserting and publishing rows.
 */
module OutboxRetention {
  import opened Json
  import opened Ordering

  // ---- Tables and candidates -----------------------------------------------

  /** For the control outbox `position` is the revision and all rows form one stream. */
  datatype Kind = ControlOutbox | IndexingOutbox

  datatype Row = Row(identityHash: string, position: int, publishedAt: Option<int>)

  type Rows = map<string, Row>

  datatype Policy = Policy(retention: nat, maxUnpublished: nat, heldRevisions: set<int>, heldIdentityHashes: set<string>)

  /** One table's policy with the cutoff of this run and the batch limits. */
  datatype Job = Job(kind: Kind, policy: Policy, cutoff: int, batchSize: nat, maxBatches: nat)

  predicate SameStream(kind: Kind, a: Row, b: Row) {
    kind.ControlOutbox? || a.identityHash == b.identityHash
  }

  predicate Held(kind: Kind, policy: Policy, r: Row) {
    match kind
    case ControlOutbox => r.position in policy.heldRevisions
    case IndexingOutbox => r.identityHash in policy.heldIdentityHashes
  }

  /** Row k supersedes r. */
  predicate Supersedes(kind: Kind, rows: Rows, k: string, r: Row)
    requires k in rows
  {
    SameStream(kind, rows[k], r) && rows[k].position > r.position
  }

  predicate HasNewer(kind: Kind, rows: Rows, r: Row) {
    exists k :: k in rows && Supersedes(kind, rows, k, r)
  }

  predicate Aged(job: Job, r: Row) {
    r.publishedAt.Some? && r.publishedAt.value < job.cutoff
  }

  predicate Candidate(job: Job, rows: Rows, id: string)
    requires id in rows
  {
    Aged(job, rows[id]) && !Held(job.kind, job.policy, rows[id]) && HasNewer(job.kind, rows, rows[id])
  }

  function Candidates(job: Job, rows: Rows): set<string> {
    set id | id in rows && Candidate(job, rows, id)
  }

  function Unpublished(rows: Rows): nat {
    |set id | id in rows && rows[id].publishedAt.None?|
  }

  /** All of the ids are in the table; the trigger keeps the solver from asking about every row whether it is one of them. */
  predicate Within(ids: set<string>, rows: Rows) {
    forall id {:trigger id in ids} :: id in ids ==> id in rows
  }

  /** Inclusion, asked only about members of the smaller set. */
  predicate Part(ids: set<string>, all: set<string>) {
    forall id {:trigger id in ids} :: id in ids ==> id in all
  }

  // ---- One batch -----------------------------------------------------------

  function Time(r: Row): int {
    if r.publishedAt.Some? then r.publishedAt.value else 0
  }

  /** The order in which a batch takes rows. */
  predicate Before(rows: Rows, a: string, b: string)
    requires a in rows && b in rows
  {
    Time(rows[a]) < Time(rows[b]) || (Time(rows[a]) == Time(rows[b]) && Less(a, b))
  }

  lemma {:induction false} HasLeast(rows: Rows, ids: set<string>)
    requires ids != {} && Within(ids, rows)
    ensures exists m :: m in ids && forall x :: x in ids - {m} ==> Before(rows, m, x)
    decreases ids
  {
    var y :| y in ids;
    var rest := ids - {y};
    if rest == {} {
      assert ids - {y} == {};
    } else {
      HasLeast(rows, rest);
      var m :| m in rest && forall x :: x in rest - {m} ==> Before(rows, m, x);
      LessTotal(y, m);
      if Before(rows, m, y) {
        assert forall x :: x in ids - {m} ==> x == y || x in rest - {m};
      } else {
        forall x | x in ids - {y} ensures Before(rows, y, x) {
          if x != m {
            assert x in rest - {m} && Before(rows, m, x);
            if Time(rows[y]) == Time(rows[m]) == Time(rows[x]) { LessTransitive(y, m, x); }
          }
        }
      }
    }
  }

  lemma BeforeAsymmetric(rows: Rows, a: string, b: string)
    requires a in rows && b in rows && Before(rows, a, b)
    ensures !Before(rows, b, a)
  {
    if Less(a, b) { LessAsymmetric(a, b); }
  }

  function Least(rows: Rows, ids: set<string>): (m: string)
    requires ids != {} && Within(ids, rows)
    ensures m in ids && forall x :: x in ids - {m} ==> Before(rows, m, x)
  {
    HasLeast(rows, ids);
    assert forall a, b | a in ids && b in ids && Before(rows, a, b) :: !Before(rows, b, a) by {
      forall a, b | a in ids && b in ids && Before(rows, a, b) ensures !Before(rows, b, a) { BeforeAsymmetric(rows, a, b); }
    }
    var m :| m in ids && forall x :: x in ids - {m} ==> Before(rows, m, x);
    m
  }

  /** The first `size` of the given rows. */
  function Batch(rows: Rows, ids: set<string>, size: nat): (batch: set<string>)
    requires Within(ids, rows)
    ensures Part(batch, ids) && |batch| == if |ids| < size then |ids| else size
    decreases size
  {
    if size == 0 || ids == {} then {}
    else var m := Least(rows, ids); {m} + Batch(rows, ids - {m}, size - 1)
  }

  /** Every row taken comes before every row passed over. */
  lemma {:induction false} BatchIsOldestFirst(rows: Rows, ids: set<string>, size: nat, a: string, b: string)
    requires Within(ids, rows) && a in Batch(rows, ids, size) && b in ids - Batch(rows, ids, size)
    ensures Before(rows, a, b)
    decreases size
  {
    var m := Least(rows, ids);
    if a != m { BatchIsOldestFirst(rows, ids - {m}, size - 1, a, b); }
  }

  function Lower(a: Option<int>, b: Option<int>): Option<int> {
    if a.None? || (b.Some? && b.value < a.value) then b else a
  }

  function Higher(a: Option<int>, b: Option<int>): Option<int> {
    if a.None? || (b.Some? && b.value > a.value) then b else a
  }

  function Oldest(rows: Rows, ids: set<string>): Option<int>
    requires Within(ids, rows)
  {
    if ids == {} then None else Some(Time(rows[Least(rows, ids)]))
  }

  function Newest(rows: Rows, ids: set<string>): Option<int>
    requires Within(ids, rows)
    decreases ids
  {
    if ids == {} then None
    else
      var m := Least(rows, ids);
      Higher(Some(Time(rows[m])), Newest(rows, ids - {m}))
  }

  ghost predicate IsRange(rows: Rows, ids: set<string>, oldest: Option<int>, newest: Option<int>)
    requires Within(ids, rows)
  {
    if ids == {} then oldest == newest == None
    else
      && oldest.Some? && newest.Some?
      && (exists id :: id in ids && Time(rows[id]) == oldest.value)
      && (exists id :: id in ids && Time(rows[id]) == newest.value)
      && forall id :: id in ids ==> oldest.value <= Time(rows[id]) <= newest.value
  }

  lemma {:induction false} OldestAndNewestAreRange(rows: Rows, ids: set<string>)
    requires Within(ids, rows)
    ensures IsRange(rows, ids, Oldest(rows, ids), Newest(rows, ids))
    decreases ids
  {
    if ids != {} {
      var m := Least(rows, ids);
      OldestAndNewestAreRange(rows, ids - {m});
      assert forall id :: id in ids ==> id == m || id in ids - {m};
      assert m in ids;
    }
  }

  lemma RangeIsUnique(rows: Rows, ids: set<string>, lo: Option<int>, hi: Option<int>, lo': Option<int>, hi': Option<int>)
    requires Within(ids, rows) && IsRange(rows, ids, lo, hi) && IsRange(rows, ids, lo', hi')
    ensures lo == lo' && hi == hi'
  {
  }

  // ---- Other sessions ------------------------------------------------------

  datatype Change = InsertRow(id: string, row: Row) | PublishRow(id: string, at: int)

  function Apply(rows: Rows, change: Change): Rows {
    match change
    case InsertRow(id, row) => if id in rows then rows else rows[id := row]
    case PublishRow(id, at) =>
      if id in rows && rows[id].publishedAt.None? then rows[id := rows[id].(publishedAt := Some(at))] else rows
  }

  function ApplyAll(rows: Rows, changes: seq<Change>): Rows
    decreases |changes|
  {
    if changes == [] then rows else ApplyAll(Apply(rows, changes[0]), changes[1..])
  }

  /** What others commit before the count (2k) and before the delete (2k+1) of turn k, and the rows they hold locked. */
  datatype World = World(changes: nat -> seq<Change>, locked: nat -> set<string>)

  // ---- One table -----------------------------------------------------------

  datatype TableResult = TableResult(
    initialUnpublished: nat,
    candidatesBefore: nat,
    candidateOldest: Option<int>,
    candidateNewest: Option<int>,
    deleted: nat,
    deletedOldest: Option<int>,
    deletedNewest: Option<int>,
    batches: nat,
    remaining: nat)

  datatype Outcome = Completed(result: TableResult) | BacklogExceedsPolicy | BacklogRising

  /** One committed batch: the table it was taken from and the rows it took. */
  datatype Deletion = Deletion(before: Rows, gone: set<string>)

  /** The end of a run, its batches, and the table at each recount of the backlog. */
  datatype Run = Run(rows: Rows, outcome: Outcome, history: seq<Deletion>, counted: seq<Rows>) {
    predicate SameEnd(other: Run) {
      rows == other.rows && outcome == other.outcome
    }
  }

  function Initial(job: Job, rows: Rows): TableResult {
    var ids := Candidates(job, rows);
    TableResult(Unpublished(rows), |ids|, Oldest(rows, ids), Newest(rows, ids), 0, None, None, 0, |ids|)
  }

  function Counted(result: TableResult, rows: Rows, gone: set<string>): TableResult
    requires Within(gone, rows)
  {
    result.(batches := result.batches + 1, deleted := result.deleted + |gone|,
            deletedOldest := Lower(result.deletedOldest, Oldest(rows, gone)),
            deletedNewest := Higher(result.deletedNewest, Newest(rows, gone)))
  }

  predicate Rising(job: Job, result: TableResult, rows: Rows) {
    Unpublished(rows) > result.initialUnpublished || Unpublished(rows) > job.policy.maxUnpublished
  }

  function Chosen(job: Job, world: World, k: nat, rows: Rows): (batch: set<string>)
    ensures Within(batch, rows) && Part(batch, Candidates(job, rows))
  {
    Batch(rows, Candidates(job, rows) - world.locked(k), job.batchSize)
  }

  /** What one turn of the delete loop comes to: the end of the loop, or a committed batch. */
  datatype Turned =
    | Stopped(rows: Rows, outcome: Outcome, counted: seq<Rows>)
    | Went(deletion: Deletion, result: TableResult, counted: seq<Rows>)

  /** The last recount, at the start of turn k. */
  function Finish(job: Job, world: World, k: nat, rows: Rows, result: TableResult, counted: seq<Rows>): Turned {
    var last := ApplyAll(rows, world.changes(2 * k));
    Stopped(last, Completed(result.(remaining := |Candidates(job, last)|)), counted)
  }

  function OneTurn(job: Job, world: World, k: nat, rows: Rows, result: TableResult): (t: Turned)
    ensures t.Went? ==> k < job.maxBatches
  {
    if k >= job.maxBatches then Finish(job, world, k, rows, result, [])
    else
      var counted := ApplyAll(rows, world.changes(2 * k));
      if Rising(job, result, counted) then Stopped(counted, BacklogRising, [counted])
      else
        var before := ApplyAll(counted, world.changes(2 * k + 1));
        var gone := Chosen(job, world, k, before);
        if gone == {} then Finish(job, world, k + 1, before, result, [counted])
        else Went(Deletion(before, gone), Counted(result, before, gone), [counted])
  }

  function Left(d: Deletion): Rows {
    d.before - d.gone
  }

  /** What a loop does in a turn, given the turn's number, the table and the counts so far. */
  type Turn = (nat, Rows, TableResult) -> Turned

  ghost predicate StopsAt(turn: Turn, max: nat) {
    forall k: nat, rows, result :: turn(k, rows, result).Went? ==> k < max
  }

  /** Turns k and later of a loop. */
  function Loop(turn: Turn, ghost max: nat, k: nat, rows: Rows, result: TableResult): Run
    requires StopsAt(turn, max)
    decreases max - k
  {
    match turn(k, rows, result)
    case Stopped(last, outcome, counted) => Run(last, outcome, [], counted)
    case Went(d, result', counted) =>
      var rest := Loop(turn, max, k + 1, Left(d), result');
      Run(rest.rows, rest.outcome, [d] + rest.history, counted + rest.counted)
  }

  function DeleteTurn(job: Job, world: World): (turn: Turn)
    ensures StopsAt(turn, job.maxBatches)
  {
    (k: nat, rows: Rows, result: TableResult) => OneTurn(job, world, k, rows, result)
  }

  /** Turns k and later of the delete loop. */
  function Turns(job: Job, world: World, k: nat, rows: Rows, result: TableResult): Run {
    Loop(DeleteTurn(job, world), job.maxBatches, k, rows, result)
  }

  function Process(job: Job, world: World, rows: Rows, apply: bool): Run {
    if Unpublished(rows) > job.policy.maxUnpublished then Run(rows, BacklogExceedsPolicy, [], [])
    else if !apply then Run(rows, Completed(Initial(job, rows)), [], [])
    else Turns(job, world, 0, rows, Initial(job, rows))
  }

  datatype Verdict = Rose | FoundNothing | Deleted

  class PostgresRetention {
    const batchSize: nat
    const maxBatches: nat
    var rows: Rows

    constructor (rows: Rows, batchSize: nat, maxBatches: nat)
      ensures this.rows == rows && this.batchSize == batchSize && this.maxBatches == maxBatches
    {
      this.rows, this.batchSize, this.maxBatches := rows, batchSize, maxBatches;
    }

    /** Other sessions commit. */
    method Elsewhere(changes: seq<Change>)
      modifies this`rows
      ensures rows == ApplyAll(old(rows), changes)
    {
      for i := 0 to |changes|
        invariant ApplyAll(rows, changes[i..]) == ApplyAll(old(rows), changes)
      {
        assert changes[i..][1..] == changes[i + 1..];
        rows := Apply(rows, changes[i]);
      }
    }

    /** One turn of the delete loop. */
    method Turn(job: Job, world: World, k: nat, result: TableResult) returns (verdict: Verdict, next: TableResult, ghost counted: Rows)
      requires k < job.maxBatches
      modifies this`rows
      ensures match verdict
        case Rose => OneTurn(job, world, k, old(rows), result) == Stopped(rows, BacklogRising, [rows])
        case FoundNothing => OneTurn(job, world, k, old(rows), result) == Finish(job, world, k + 1, rows, next, [counted])
        case Deleted => Turns(job, world, k, old(rows), result).SameEnd(Turns(job, world, k + 1, rows, next))
    {
      Elsewhere(world.changes(2 * k));
      counted := rows;
      if Rising(job, result, rows) { return Rose, result, rows; }
      Elsewhere(world.changes(2 * k + 1));
      var gone := Chosen(job, world, k, rows);
      if gone == {} { return FoundNothing, result, counted; }
      next := Counted(result, rows, gone);
      rows := rows - gone;
      verdict := Deleted;
    }

    /** `_process_table`. */
    method ProcessTable(kind: Kind, policy: Policy, now: int, apply: bool, world: World) returns (outcome: Outcome)
      modifies this`rows
      ensures var run := Process(Job(kind, policy, now - policy.retention, batchSize, maxBatches), world, old(rows), apply);
        outcome == run.outcome && rows == run.rows
    {
      var job := Job(kind, policy, now - policy.retention, batchSize, maxBatches);
      if Unpublished(rows) > policy.maxUnpublished { return BacklogExceedsPolicy; }
      var result := Initial(job, rows);
      if !apply { return Completed(result); }
      ghost var goal := Turns(job, world, 0, rows, result);
      var k, verdict := 0, Deleted;
      while verdict.Deleted? && k < maxBatches
        invariant k <= maxBatches && !verdict.Rose?
        invariant verdict.Deleted? ==> Turns(job, world, k, rows, result).SameEnd(goal)
        invariant verdict.FoundNothing? ==>
          exists counted :: Finish(job, world, k, rows, result, counted) == Stopped(goal.rows, goal.outcome, counted)
        decreases verdict.Deleted?, maxBatches - k
      {
        ghost var counted;
        verdict, result, counted := Turn(job, world, k, result);
        assert verdict.FoundNothing? ==>
          Finish(job, world, k + 1, rows, result, [counted]) == Stopped(goal.rows, goal.outcome, [counted]);
        if verdict.Rose? { return BacklogRising; }
        k := k + 1;
      }
      Elsewhere(world.changes(2 * k));
      outcome := Completed(result.(remaining := |Candidates(job, rows)|));
    }
  }

  // ---- What deleting candidates leaves alone -------------------------------

  function Above(kind: Kind, rows: Rows, r: Row): set<string> {
    set k | k in rows && Supersedes(kind, rows, k, r)
  }

  /** Rows that are superseded may go all at once: some row of the stream, at least as new, stays. */
  lemma {:induction false} NewestSurvives(kind: Kind, rows: Rows, gone: set<string>, id: string) returns (m: string)
    requires id in rows && Within(gone, rows) && forall g :: g in gone ==> HasNewer(kind, rows, rows[g])
    ensures m in rows - gone && SameStream(kind, rows[m], rows[id]) && rows[m].position >= rows[id].position
    decreases Above(kind, rows, rows[id])
  {
    if id !in gone { return id; }
    var k :| k in rows && Supersedes(kind, rows, k, rows[id]);
    assert k in Above(kind, rows, rows[id]) && k !in Above(kind, rows, rows[k]);
    m := NewestSurvives(kind, rows, gone, k);
  }

  /** Deleting superseded rows, superseded rows stay superseded. */
  lemma StillSuperseded(kind: Kind, rows: Rows, gone: set<string>, id: string)
    requires id in rows && Within(gone, rows) && forall g :: g in gone ==> HasNewer(kind, rows, rows[g])
    requires HasNewer(kind, rows, rows[id])
    ensures HasNewer(kind, rows - gone, rows[id])
  {
    var k :| k in rows && Supersedes(kind, rows, k, rows[id]);
    var m := NewestSurvives(kind, rows, gone, k);
    assert Supersedes(kind, rows - gone, m, rows[id]);
  }

  /** Deleting any candidates leaves the candidate status of every other row as it was. */
  lemma DeletingKeepsCandidates(job: Job, rows: Rows, gone: set<string>)
    requires gone <= Candidates(job, rows)
    ensures Candidates(job, rows - gone) == Candidates(job, rows) - gone
    ensures Unpublished(rows - gone) == Unpublished(rows)
  {
    forall id | id in rows - gone ensures Candidate(job, rows - gone, id) <==> Candidate(job, rows, id) {
      if HasNewer(job.kind, rows, rows[id]) { StillSuperseded(job.kind, rows, gone, id); }
      if HasNewer(job.kind, rows - gone, rows[id]) {
        var k :| k in rows - gone && Supersedes(job.kind, rows - gone, k, rows[id]);
        assert Supersedes(job.kind, rows, k, rows[id]);
      }
    }
    assert (set id | id in rows - gone && (rows - gone)[id].publishedAt.None?) == set id | id in rows && rows[id].publishedAt.None?;
  }

  // ---- Induction over turns ------------------------------------------------

  /** What a turn comes to: `inv` holds again, or where the loop stops `done` does. */
  ghost predicate Keeps(t: Turned, k: nat, inv: (nat, Rows, TableResult) -> bool, done: (Rows, Outcome) -> bool) {
    match t
    case Went(d, result, _) => inv(k + 1, Left(d), result)
    case Stopped(last, outcome, _) => done(last, outcome)
  }

  lemma {:induction false} LoopEnds(turn: Turn, max: nat, k: nat, rows: Rows, result: TableResult,
                                    inv: (nat, Rows, TableResult) -> bool, done: (Rows, Outcome) -> bool)
    requires StopsAt(turn, max) && inv(k, rows, result)
    requires forall k: nat, rows, result :: inv(k, rows, result) ==> Keeps(turn(k, rows, result), k, inv, done)
    ensures var run := Loop(turn, max, k, rows, result); done(run.rows, run.outcome)
    decreases max - k
  {
    match turn(k, rows, result) {
      case Went(d, result', _) => LoopEnds(turn, max, k + 1, Left(d), result', inv, done);
      case Stopped(_, _, _) =>
    }
  }

  // ---- Safety beside other sessions ----------------------------------------

  /** A row that may go: published before the cutoff, not held, and with a newer row of its stream in the table. */
  ghost predicate Eligible(job: Job, rows: Rows, id: string) {
    && id in rows && rows[id].publishedAt.Some? && rows[id].publishedAt.value < job.cutoff
    && (match job.kind
        case ControlOutbox => rows[id].position !in job.policy.heldRevisions
        case IndexingOutbox => rows[id].identityHash !in job.policy.heldIdentityHashes)
    && exists k :: k in rows && NewerInStream(job.kind, rows[k], rows[id])
  }

  ghost predicate NewerInStream(kind: Kind, newer: Row, r: Row) {
    newer.position > r.position && (kind == IndexingOutbox ==> newer.identityHash == r.identityHash)
  }

  lemma CandidatesAreEligible(job: Job, rows: Rows)
    ensures forall id :: id in Candidates(job, rows) <==> Eligible(job, rows, id)
  {
    forall id ensures id in Candidates(job, rows) <==> Eligible(job, rows, id) {
      if id in rows {
        forall k | k in rows ensures Supersedes(job.kind, rows, k, rows[id]) <==> NewerInStream(job.kind, rows[k], rows[id]) { }
        if HasNewer(job.kind, rows, rows[id]) { var k :| k in rows && Supersedes(job.kind, rows, k, rows[id]); }
      }
    }
  }

  ghost function Backlog(rows: Rows): nat {
    |set id | id in rows && rows[id].publishedAt == None|
  }

  lemma BacklogIsUnpublished(rows: Rows)
    ensures Backlog(rows) == Unpublished(rows)
  {
    assert (set id | id in rows && rows[id].publishedAt == None) == set id | id in rows && rows[id].publishedAt.None?;
  }

  /** The backlog has risen since the first count, or exceeds the policy's limit. */
  ghost predicate Over(job: Job, first: Rows, now: Rows) {
    Backlog(now) > Backlog(first) || Backlog(now) > job.policy.maxUnpublished
  }

  /** A committed batch took only rows that may go, each superseded by a row that it left in place. */
  ghost predicate SafeDeletion(job: Job, d: Deletion) {
    && Within(d.gone, d.before) && 1 <= |d.gone| <= job.batchSize
    && forall id :: id in d.gone ==>
         Eligible(job, d.before, id) && exists k :: k in d.before - d.gone && NewerInStream(job.kind, d.before[k], d.before[id])
  }

  function Total(history: seq<Deletion>): nat {
    if history == [] then 0 else |history[0].gone| + Total(history[1..])
  }

  lemma ChosenIsSafe(job: Job, world: World, k: nat, before: Rows)
    requires Chosen(job, world, k, before) != {}
    ensures SafeDeletion(job, Deletion(before, Chosen(job, world, k, before)))
  {
    var gone := Chosen(job, world, k, before);
    CandidatesAreEligible(job, before);
    forall id | id in gone ensures exists k :: k in before - gone && NewerInStream(job.kind, before[k], before[id]) {
      StillSuperseded(job.kind, before, gone, id);
      var k :| k in before - gone && Supersedes(job.kind, before - gone, k, before[id]);
    }
  }

  /** How many rows turn k and later can delete at most. */
  function Room(job: Job, k: nat): nat
    decreases job.maxBatches - k
  {
    if k >= job.maxBatches then 0 else job.batchSize + Room(job, k + 1)
  }

  lemma {:induction false} RoomIsProduct(job: Job, k: nat)
    requires k <= job.maxBatches
    ensures Room(job, k) == job.batchSize * (job.maxBatches - k)
    decreases job.maxBatches - k
  {
    if k < job.maxBatches { RoomIsProduct(job, k + 1); }
  }

  /** What a turn deletes and adds to the counts. */
  ghost predicate SafeTurn(job: Job, result: TableResult, t: Turned) {
    match t
    case Went(d, result', _) =>
      SafeDeletion(job, d) && result'.deleted == result.deleted + |d.gone| && result'.batches == result.batches + 1
    case Stopped(last, outcome, _) =>
      && !outcome.BacklogExceedsPolicy?
      && (outcome.Completed? ==> outcome.result == result.(remaining := |Candidates(job, last)|))
  }

  lemma TurnIsSafe(job: Job, world: World, k: nat, rows: Rows, result: TableResult)
    ensures SafeTurn(job, result, OneTurn(job, world, k, rows, result))
  {
    var t := OneTurn(job, world, k, rows, result);
    if t.Went? { ChosenIsSafe(job, world, k, t.deletion.before); }
  }

  ghost predicate AlwaysSafe(job: Job, turn: Turn) {
    forall k: nat, rows, result :: SafeTurn(job, result, turn(k, rows, result))
  }

  /** The batches and totals of turns k and later. */
  ghost predicate SafeTurns(job: Job, k: nat, result: TableResult, run: Run) {
    && |run.history| + k <= job.maxBatches
    && (forall i :: 0 <= i < |run.history| ==> SafeDeletion(job, run.history[i]))
    && Total(run.history) <= Room(job, k)
    && !run.outcome.BacklogExceedsPolicy?
    && (run.outcome.Completed? ==>
          && run.outcome.result.deleted == result.deleted + Total(run.history)
          && run.outcome.result.batches == result.batches + |run.history|
          && run.outcome.result.remaining == |Candidates(job, run.rows)|)
  }

  lemma {:induction false} TurnsAreSafe(job: Job, turn: Turn, k: nat, rows: Rows, result: TableResult)
    requires StopsAt(turn, job.maxBatches) && AlwaysSafe(job, turn) && k <= job.maxBatches
    ensures SafeTurns(job, k, result, Loop(turn, job.maxBatches, k, rows, result))
    decreases job.maxBatches - k
  {
    var t := turn(k, rows, result);
    assert SafeTurn(job, result, t);
    match t {
      case Went(d, result', _) =>
        TurnsAreSafe(job, turn, k + 1, Left(d), result');
        assert ([d] + Loop(turn, job.maxBatches, k + 1, Left(d), result').history)[1..] == Loop(turn, job.maxBatches, k + 1, Left(d), result').history;
      case Stopped(_, _, _) =>
    }
  }

  /** Every batch is safe, and the totals are bounded and reported truthfully. */
  ghost predicate SafeRun(job: Job, first: Rows, run: Run) {
    && (forall i :: 0 <= i < |run.history| ==> SafeDeletion(job, run.history[i]))
    && |run.history| <= |run.counted| && (forall i :: 0 <= i < |run.history| ==> !Over(job, first, run.counted[i]))
    && |run.history| <= job.maxBatches && Total(run.history) <= job.batchSize * job.maxBatches
    && (run.outcome.Completed? ==>
          && run.outcome.result.deleted == Total(run.history)
          && run.outcome.result.batches == |run.history|
          && run.outcome.result.remaining == |set id | id in run.rows && Eligible(job, run.rows, id)|)
  }

  lemma LoopIsSafe(job: Job, world: World, rows: Rows)
    ensures SafeTurns(job, 0, Initial(job, rows), Turns(job, world, 0, rows, Initial(job, rows)))
  {
    var turn := DeleteTurn(job, world);
    forall k: nat, x, result ensures SafeTurn(job, result, turn(k, x, result)) { TurnIsSafe(job, world, k, x, result); }
    TurnsAreSafe(job, turn, 0, rows, Initial(job, rows));
  }

  lemma SafeTurnsAreSafe(job: Job, world: World, first: Rows, result: TableResult, run: Run)
    requires SafeTurns(job, 0, result, run) && Follows(job, world, first, 0, first, run)
    requires result.deleted == 0 && result.batches == 0
    ensures SafeRun(job, first, run)
  {
    RoomIsProduct(job, 0);
    FollowsNeverOver(job, world, first, 0, first, run);
    CandidatesCounted(job, run.rows);
  }

  lemma CandidatesCounted(job: Job, rows: Rows)
    ensures |Candidates(job, rows)| == |set id | id in rows && Eligible(job, rows, id)|
  {
    CandidatesAreEligible(job, rows);
    assert Candidates(job, rows) == set id | id in rows && Eligible(job, rows, id);
  }

  /**
   Whatever other sessions insert, publish or lock between and during the batches: every batch is safe, the
   totals are bounded and reported truthfully, and a dry run or a refused run touches nothing.
   */
  lemma RetentionIsSafe(job: Job, world: World, rows: Rows, apply: bool)
    ensures var run := Process(job, world, rows, apply);
      && SafeRun(job, rows, run)
      && (run.outcome.BacklogExceedsPolicy? <==> Backlog(rows) > job.policy.maxUnpublished)
      && (!apply || run.outcome.BacklogExceedsPolicy? ==> run.rows == rows && run.history == [])
  {
    BacklogIsUnpublished(rows);
    CandidatesCounted(job, rows);
    if apply {
      LoopIsSafe(job, world, rows);
      TurnsFollow(job, world, rows);
      SafeTurnsAreSafe(job, world, rows, Initial(job, rows), Turns(job, world, 0, rows, Initial(job, rows)));
    } else {
      assert 0 <= job.batchSize * job.maxBatches;
    }
  }

  // ---- A run, told by the tables it met ------------------------------------

  /** The order in which rows go. */
  ghost predicate Earlier(rows: Rows, a: string, b: string)
    requires a in rows && b in rows
  {
    && rows[a].publishedAt.Some? && rows[b].publishedAt.Some?
    && (rows[a].publishedAt.value < rows[b].publishedAt.value
        || (rows[a].publishedAt == rows[b].publishedAt && Less(a, b)))
  }

  /** The first rows that may go and that nobody holds locked, as many as the batch size allows. */
  ghost predicate TakesFirst(job: Job, locked: set<string>, rows: Rows, gone: set<string>) {
    && (forall id :: id in gone ==> Eligible(job, rows, id) && id !in locked)
    && |gone| == Smaller(|set id | id in rows && Eligible(job, rows, id) && id !in locked|, job.batchSize)
    && forall a, b :: a in gone && b !in gone && Eligible(job, rows, b) && b !in locked ==> Earlier(rows, a, b)
  }

  lemma FreeRows(job: Job, rows: Rows, locked: set<string>)
    ensures Candidates(job, rows) - locked == set id | id in rows && Eligible(job, rows, id) && id !in locked
  {
    CandidatesAreEligible(job, rows);
  }

  lemma ChosenTakesFirst(job: Job, world: World, k: nat, rows: Rows)
    ensures TakesFirst(job, world.locked(k), rows, Chosen(job, world, k, rows))
  {
    FreeRows(job, rows, world.locked(k));
    BatchTakesFirst(job, world.locked(k), rows, Candidates(job, rows) - world.locked(k));
  }

  lemma BatchTakesFirst(job: Job, locked: set<string>, rows: Rows, ids: set<string>)
    requires ids == set id | id in rows && Eligible(job, rows, id) && id !in locked
    ensures TakesFirst(job, locked, rows, Batch(rows, ids, job.batchSize))
  {
    BatchGoesInOrder(rows, ids, job.batchSize);
    assert forall id :: id in ids <==> id in rows && Eligible(job, rows, id) && id !in locked;
  }

  lemma BatchGoesInOrder(rows: Rows, ids: set<string>, size: nat)
    requires Within(ids, rows) && forall id :: id in ids ==> rows[id].publishedAt.Some?
    ensures var gone := Batch(rows, ids, size);
      gone <= ids && |gone| == Smaller(|ids|, size) && forall a, b :: a in gone && b in ids - gone ==> Earlier(rows, a, b)
  {
    var gone := Batch(rows, ids, size);
    forall a, b | a in gone && b in ids - gone ensures Earlier(rows, a, b) { BatchIsOldestFirst(rows, ids, size, a, b); }
  }

  /** The table after i batches. */
  ghost function TableAt(rows: Rows, run: Run, i: nat): Rows
    requires i <= |run.history|
  {
    if i == 0 then rows else run.history[i - 1].before - run.history[i - 1].gone
  }

  /** Turn k + i counts the backlog of the table that others have changed since the last batch. */
  ghost predicate CountsAt(world: World, k: nat, rows: Rows, run: Run, i: nat) {
    i <= |run.history| && i < |run.counted| && run.counted[i] == ApplyAll(TableAt(rows, run, i), world.changes(2 * (k + i)))
  }

  /** It does not stop there, and deletes the first rows that may go then. */
  ghost predicate DeletesAt(job: Job, world: World, first: Rows, k: nat, run: Run, i: nat) {
    && i < |run.history| && i < |run.counted| && !Over(job, first, run.counted[i])
    && run.history[i].before == ApplyAll(run.counted[i], world.changes(2 * (k + i) + 1))
    && run.history[i].gone != {} && TakesFirst(job, world.locked(k + i), run.history[i].before, run.history[i].gone)
  }

  /** The end: all turns are used up, or the backlog is over, or there was nothing to delete. */
  ghost predicate EndsAfter(job: Job, world: World, first: Rows, k: nat, rows: Rows, run: Run) {
    var n := |run.history|;
    if k + n >= job.maxBatches then
      && |run.counted| == n
      && run.outcome.Completed? && run.rows == ApplyAll(TableAt(rows, run, n), world.changes(2 * (k + n)))
    else
      && |run.counted| == n + 1
      && if Over(job, first, run.counted[n]) then run.outcome == BacklogRising && run.rows == run.counted[n]
         else
           var before := ApplyAll(run.counted[n], world.changes(2 * (k + n) + 1));
           && TakesFirst(job, world.locked(k + n), before, {})
           && run.outcome.Completed? && run.rows == ApplyAll(before, world.changes(2 * (k + n + 1)))
  }

  ghost predicate Follows(job: Job, world: World, first: Rows, k: nat, rows: Rows, run: Run) {
    && EndsAfter(job, world, first, k, rows, run)
    && (forall i :: 0 <= i < |run.counted| ==> CountsAt(world, k, rows, run, i))
    && (forall i :: 0 <= i < |run.history| ==> DeletesAt(job, world, first, k, run, i))
  }

  /** A turn counts, and deletes or ends the run. */
  ghost predicate Goes(job: Job, world: World, first: Rows, k: nat, rows: Rows, t: Turned) {
    if t.Went? then
      && k < job.maxBatches && t.result.initialUnpublished == Unpublished(first)
      && t.counted == [ApplyAll(rows, world.changes(2 * k))] && !Over(job, first, t.counted[0])
      && t.deletion.before == ApplyAll(t.counted[0], world.changes(2 * k + 1))
      && t.deletion.gone != {} && TakesFirst(job, world.locked(k), t.deletion.before, t.deletion.gone)
    else Follows(job, world, first, k, rows, Run(t.rows, t.outcome, [], t.counted))
  }

  ghost predicate AlwaysGoes(job: Job, world: World, first: Rows, turn: Turn) {
    forall k: nat, rows, result: TableResult ::
      result.initialUnpublished == Unpublished(first) ==> Goes(job, world, first, k, rows, turn(k, rows, result))
  }

  lemma {:induction false} LoopFollows(job: Job, world: World, first: Rows, turn: Turn, k: nat, rows: Rows, result: TableResult)
    requires StopsAt(turn, job.maxBatches) && AlwaysGoes(job, world, first, turn) && result.initialUnpublished == Unpublished(first)
    ensures Follows(job, world, first, k, rows, Loop(turn, job.maxBatches, k, rows, result))
    decreases job.maxBatches - k
  {
    var t := turn(k, rows, result);
    assert Goes(job, world, first, k, rows, t);
    match t {
      case Went(d, result', counted) =>
        LoopFollows(job, world, first, turn, k + 1, Left(d), result');
        FollowsOn(job, world, first, k, rows, d, counted[0], Loop(turn, job.maxBatches, k + 1, Left(d), result'));
      case Stopped(_, _, _) =>
    }
  }

  lemma TurnsFollow(job: Job, world: World, rows: Rows)
    ensures Follows(job, world, rows, 0, rows, Turns(job, world, 0, rows, Initial(job, rows)))
  {
    var turn := DeleteTurn(job, world);
    forall k: nat, x, result: TableResult | result.initialUnpublished == Unpublished(rows)
      ensures Goes(job, world, rows, k, x, turn(k, x, result))
    {
      TurnFollows(job, world, rows, k, x, result);
    }
    LoopFollows(job, world, rows, turn, 0, rows, Initial(job, rows));
  }

  lemma TurnFollows(job: Job, world: World, first: Rows, k: nat, rows: Rows, result: TableResult)
    requires result.initialUnpublished == Unpublished(first)
    ensures Goes(job, world, first, k, rows, OneTurn(job, world, k, rows, result))
  {
    var counted := ApplyAll(rows, world.changes(2 * k));
    var before := ApplyAll(counted, world.changes(2 * k + 1));
    RisingIsOver(job, first, result, counted);
    if k >= job.maxBatches {
      NoTurnFollows(job, world, first, k, rows, Completed(result.(remaining := |Candidates(job, counted)|)));
    } else if Over(job, first, counted) {
      RisingFollows(job, world, first, k, rows);
    } else {
      ChosenTakesFirst(job, world, k, before);
      if Chosen(job, world, k, before) == {} {
        var last := ApplyAll(before, world.changes(2 * (k + 1)));
        NothingFollows(job, world, first, k, rows, Completed(result.(remaining := |Candidates(job, last)|)));
      }
    }
  }

  lemma RisingIsOver(job: Job, first: Rows, result: TableResult, counted: Rows)
    requires result.initialUnpublished == Unpublished(first)
    ensures Rising(job, result, counted) <==> Over(job, first, counted)
  {
    BacklogIsUnpublished(first);
    BacklogIsUnpublished(counted);
  }

  lemma NoTurnFollows(job: Job, world: World, first: Rows, k: nat, rows: Rows, outcome: Outcome)
    requires k >= job.maxBatches && outcome.Completed?
    ensures Follows(job, world, first, k, rows, Run(ApplyAll(rows, world.changes(2 * k)), outcome, [], []))
  {
  }

  lemma RisingFollows(job: Job, world: World, first: Rows, k: nat, rows: Rows)
    requires k < job.maxBatches && Over(job, first, ApplyAll(rows, world.changes(2 * k)))
    ensures var counted := ApplyAll(rows, world.changes(2 * k));
      Follows(job, world, first, k, rows, Run(counted, BacklogRising, [], [counted]))
  {
  }

  lemma NothingFollows(job: Job, world: World, first: Rows, k: nat, rows: Rows, outcome: Outcome)
    requires k < job.maxBatches && outcome.Completed? && !Over(job, first, ApplyAll(rows, world.changes(2 * k)))
    requires TakesFirst(job, world.locked(k), ApplyAll(ApplyAll(rows, world.changes(2 * k)), world.changes(2 * k + 1)), {})
    ensures var counted := ApplyAll(rows, world.changes(2 * k));
      var last := ApplyAll(ApplyAll(counted, world.changes(2 * k + 1)), world.changes(2 * (k + 1)));
      Follows(job, world, first, k, rows, Run(last, outcome, [], [counted]))
  {
  }

  lemma FollowsNeverOver(job: Job, world: World, first: Rows, k: nat, rows: Rows, run: Run)
    requires Follows(job, world, first, k, rows, run)
    ensures |run.history| <= |run.counted| && forall i :: 0 <= i < |run.history| ==> !Over(job, first, run.counted[i])
  {
    forall i | 0 <= i < |run.history| ensures !Over(job, first, run.counted[i]) { assert DeletesAt(job, world, first, k, run, i); }
  }

  lemma FollowsOn(job: Job, world: World, first: Rows, k: nat, rows: Rows, d: Deletion, counted: Rows, rest: Run)
    requires k < job.maxBatches && Follows(job, world, first, k + 1, Left(d), rest)
    requires counted == ApplyAll(rows, world.changes(2 * k)) && !Over(job, first, counted)
    requires d.before == ApplyAll(counted, world.changes(2 * k + 1))
    requires d.gone != {} && TakesFirst(job, world.locked(k), d.before, d.gone)
    ensures Follows(job, world, first, k, rows, Grown(d, counted, rest))
  {
    var run := Grown(d, counted, rest);
    EndShifts(job, world, first, k, rows, d, counted, rest);
    forall i | 0 <= i < |run.counted| ensures CountsAt(world, k, rows, run, i) {
      if i > 0 { CountsShift(world, k, rows, d, counted, rest, i - 1); }
    }
    forall i | 0 <= i < |run.history| ensures DeletesAt(job, world, first, k, run, i) {
      if i > 0 { DeletesShift(job, world, first, k, d, counted, rest, i - 1); }
    }
  }

  /** A run with one more turn before it. */
  ghost function Grown(d: Deletion, counted: Rows, rest: Run): Run {
    Run(rest.rows, rest.outcome, [d] + rest.history, [counted] + rest.counted)
  }

  lemma EndShifts(job: Job, world: World, first: Rows, k: nat, rows: Rows, d: Deletion, counted: Rows, rest: Run)
    requires k < job.maxBatches && EndsAfter(job, world, first, k + 1, Left(d), rest)
    ensures EndsAfter(job, world, first, k, rows, Grown(d, counted, rest))
  {
    TableShifts(rows, d, counted, rest, |rest.history|);
    assert k + 1 + |rest.history| == k + |Grown(d, counted, rest).history|;
  }

  lemma CountsShift(world: World, k: nat, rows: Rows, d: Deletion, counted: Rows, rest: Run, i: nat)
    requires CountsAt(world, k + 1, Left(d), rest, i)
    ensures CountsAt(world, k, rows, Grown(d, counted, rest), i + 1)
  {
    TableShifts(rows, d, counted, rest, i);
    assert k + 1 + i == k + (i + 1);
  }

  lemma TableShifts(rows: Rows, d: Deletion, counted: Rows, rest: Run, i: nat)
    requires i <= |rest.history|
    ensures TableAt(rows, Grown(d, counted, rest), i + 1) == TableAt(Left(d), rest, i)
  {
  }

  lemma DeletesShift(job: Job, world: World, first: Rows, k: nat, d: Deletion, counted: Rows, rest: Run, i: nat)
    requires i < |rest.history| && DeletesAt(job, world, first, k + 1, rest, i)
    ensures DeletesAt(job, world, first, k, Grown(d, counted, rest), i + 1)
  {
    assert k + 1 + i == k + (i + 1);
  }

  /**
   What a run does, turn by turn: it counts the backlog, stops if it is over, and deletes the first rows that may go;
   it ends when the turns are used up or nothing is left to delete.
   */
  lemma RunFollows(job: Job, world: World, rows: Rows)
    requires Backlog(rows) <= job.policy.maxUnpublished
    ensures Follows(job, world, rows, 0, rows, Process(job, world, rows, true))
  {
    BacklogIsUnpublished(rows);
    TurnsFollow(job, world, rows);
  }

  /** A run that was not refused ends as rising exactly if some recount is over. */
  lemma RisingIffOver(job: Job, world: World, rows: Rows)
    requires Backlog(rows) <= job.policy.maxUnpublished
    ensures var run := Process(job, world, rows, true);
      run.outcome == BacklogRising <==> exists i :: 0 <= i < |run.counted| && Over(job, rows, run.counted[i])
  {
    RunFollows(job, world, rows);
    FollowsRises(job, world, rows, 0, rows, Process(job, world, rows, true));
  }

  lemma FollowsRises(job: Job, world: World, first: Rows, k: nat, rows: Rows, run: Run)
    requires Follows(job, world, first, k, rows, run)
    ensures run.outcome == BacklogRising <==> exists i :: 0 <= i < |run.counted| && Over(job, first, run.counted[i])
  {
    FollowsNeverOver(job, world, first, k, rows, run);
    if |run.counted| > |run.history| { assert run.counted[|run.history|] == run.counted[|run.counted| - 1]; }
  }

  ghost predicate OnlyPublish(changes: seq<Change>) {
    forall i :: 0 <= i < |changes| ==> changes[i].PublishRow?
  }

  lemma {:induction false} PublishingNeverRaises(rows: Rows, changes: seq<Change>)
    requires OnlyPublish(changes)
    ensures Backlog(ApplyAll(rows, changes)) <= Backlog(rows)
    decreases |changes|
  {
    if changes != [] {
      OneChangeCounts(rows, changes[0]);
      PublishingNeverRaises(Apply(rows, changes[0]), changes[1..]);
    }
  }

  ghost function Waiting(rows: Rows): set<string> {
    set id | id in rows && rows[id].publishedAt == None
  }

  lemma PublishingCounts(rows: Rows, id: string, at: int)
    ensures var after := Apply(rows, PublishRow(id, at));
      && after.Keys == rows.Keys && (forall k :: k in rows && k != id ==> after[k] == rows[k])
      && (id in rows ==> after[id].publishedAt == if rows[id].publishedAt.None? then Some(at) else rows[id].publishedAt)
      && Waiting(after) == Waiting(rows) - {id}
  {
  }

  lemma InsertingCounts(rows: Rows, id: string, row: Row)
    ensures var after := Apply(rows, InsertRow(id, row));
      && after == (if id in rows then rows else rows[id := row])
      && Waiting(after) == if id !in rows && row.publishedAt.None? then Waiting(rows) + {id} else Waiting(rows)
  {
  }

  /** Publishing takes a waiting row off the backlog and keeps the table; a new waiting row adds one; nothing else counts. */
  lemma OneChangeCounts(rows: Rows, change: Change)
    ensures change.PublishRow? ==>
      && Apply(rows, change).Keys == rows.Keys
      && Backlog(Apply(rows, change)) == Backlog(rows) - if change.id in Waiting(rows) then 1 else 0
    ensures change.InsertRow? ==>
      && Apply(rows, change) == (if change.id in rows then rows else rows[change.id := change.row])
      && Backlog(Apply(rows, change)) == Backlog(rows) + if change.id !in rows && change.row.publishedAt.None? then 1 else 0
  {
    match change {
      case PublishRow(id, at) => PublishingCounts(rows, id, at);
      case InsertRow(id, row) => InsertingCounts(rows, id, row);
    }
    assert Backlog(rows) == |Waiting(rows)| && Backlog(Apply(rows, change)) == |Waiting(Apply(rows, change))|;
  }

  lemma {:induction false} SubsetIsNoLarger(a: set<string>, b: set<string>)
    requires a <= b
    ensures |a| <= |b|
  {
    assert |b| == |a| + |b - a| by { assert a + (b - a) == b; }
  }

  lemma DeletingNeverRaises(rows: Rows, gone: set<string>)
    ensures Backlog(rows - gone) <= Backlog(rows)
  {
    var before := set id | id in rows && rows[id].publishedAt == None;
    var after := set id | id in rows - gone && (rows - gone)[id].publishedAt == None;
    assert after <= before;
    SubsetIsNoLarger(after, before);
  }

  /** Sessions that only publish never stop a run. */
  lemma PublishersNeverStopARun(job: Job, world: World, rows: Rows)
    requires Backlog(rows) <= job.policy.maxUnpublished && forall i :: OnlyPublish(world.changes(i))
    ensures Process(job, world, rows, true).outcome.Completed?
  {
    var run := Process(job, world, rows, true);
    RunFollows(job, world, rows);
    RisingIffOver(job, world, rows);
    forall i: nat | i < |run.counted| ensures !Over(job, rows, run.counted[i]) { CountsNeverRise(job, world, rows, run, i); }
  }

  lemma {:induction false} CountsNeverRise(job: Job, world: World, rows: Rows, run: Run, i: nat)
    requires Follows(job, world, rows, 0, rows, run) && (forall i :: OnlyPublish(world.changes(i))) && i < |run.counted|
    ensures Backlog(run.counted[i]) <= Backlog(rows)
  {
    assert CountsAt(world, 0, rows, run, i);
    PublishingNeverRaises(TableAt(rows, run, i), world.changes(2 * i));
    if i > 0 {
      CountsNeverRise(job, world, rows, run, i - 1);
      assert DeletesAt(job, world, rows, 0, run, i - 1);
      PublishingNeverRaises(run.counted[i - 1], world.changes(2 * (i - 1) + 1));
      DeletingNeverRaises(run.history[i - 1].before, run.history[i - 1].gone);
    }
  }

  // ---- What a run reports --------------------------------------------------

  ghost predicate Deleted(history: seq<Deletion>, at: int) {
    exists i, id :: 0 <= i < |history| && DeletedIn(history[i], id, at)
  }

  ghost predicate DeletedIn(d: Deletion, id: string, at: int) {
    id in d.gone && id in d.before && d.before[id].publishedAt == Some(at)
  }

  /** The least and greatest times of publication among all rows deleted, if any. */
  ghost predicate ReportsRange(history: seq<Deletion>, oldest: Option<int>, newest: Option<int>) {
    && (oldest.Some? <==> history != []) && (newest.Some? <==> history != [])
    && (oldest.Some? ==> Deleted(history, oldest.value)) && (newest.Some? ==> Deleted(history, newest.value))
    && forall at :: Deleted(history, at) ==> oldest.Some? && oldest.value <= at && newest.Some? && at <= newest.value
  }

  lemma OneMoreReported(done: seq<Deletion>, oldest: Option<int>, newest: Option<int>, d: Deletion)
    requires ReportsRange(done, oldest, newest) && d.gone != {} && Within(d.gone, d.before)
    requires forall id :: id in d.gone ==> d.before[id].publishedAt.Some?
    ensures ReportsRange(done + [d], Lower(oldest, Oldest(d.before, d.gone)), Higher(newest, Newest(d.before, d.gone)))
  {
    OldestAndNewestAreRange(d.before, d.gone);
    forall at ensures Deleted(done + [d], at) <==> Deleted(done, at) || exists id :: DeletedIn(d, id, at) { DeletedLater(done, d, at); }
    var lo :| lo in d.gone && Time(d.before[lo]) == Oldest(d.before, d.gone).value;
    var hi :| hi in d.gone && Time(d.before[hi]) == Newest(d.before, d.gone).value;
    assert DeletedIn(d, lo, Time(d.before[lo])) && DeletedIn(d, hi, Time(d.before[hi]));
  }

  lemma DeletedLater(done: seq<Deletion>, d: Deletion, at: int)
    ensures Deleted(done + [d], at) <==> Deleted(done, at) || exists id :: DeletedIn(d, id, at)
  {
    var all := done + [d];
    if Deleted(all, at) {
      var i, id :| 0 <= i < |all| && DeletedIn(all[i], id, at);
      assert i < |done| ==> DeletedIn(done[i], id, at);
    }
    if Deleted(done, at) {
      var i, id :| 0 <= i < |done| && DeletedIn(done[i], id, at);
      assert DeletedIn(all[i], id, at);
    }
    if id :| DeletedIn(d, id, at) { assert DeletedIn(all[|done|], id, at); }
  }

  predicate SameFirstCount(a: TableResult, b: TableResult) {
    && a.initialUnpublished == b.initialUnpublished && a.candidatesBefore == b.candidatesBefore
    && a.candidateOldest == b.candidateOldest && a.candidateNewest == b.candidateNewest
  }

  /** After the batches in `done`, a turn adds its own to the report, or ends with the report as it is. */
  ghost predicate ReportsOn(result: TableResult, done: seq<Deletion>, t: Turned) {
    ReportsRange(done, result.deletedOldest, result.deletedNewest) ==>
      if t.Went? then
        ReportsRange(done + [t.deletion], t.result.deletedOldest, t.result.deletedNewest) && SameFirstCount(t.result, result)
      else
        t.outcome.Completed? ==>
          && SameFirstCount(t.outcome.result, result)
          && t.outcome.result.deletedOldest == result.deletedOldest && t.outcome.result.deletedNewest == result.deletedNewest
  }

  lemma {:induction false} LoopReports(turn: Turn, max: nat, k: nat, rows: Rows, result: TableResult, done: seq<Deletion>)
    requires StopsAt(turn, max) && ReportsRange(done, result.deletedOldest, result.deletedNewest)
    requires forall k: nat, rows, result, done :: ReportsOn(result, done, turn(k, rows, result))
    ensures var run := Loop(turn, max, k, rows, result);
      run.outcome.Completed? ==>
        && ReportsRange(done + run.history, run.outcome.result.deletedOldest, run.outcome.result.deletedNewest)
        && SameFirstCount(run.outcome.result, result)
    decreases max - k
  {
    var t := turn(k, rows, result);
    assert ReportsOn(result, done, t);
    if t.Went? {
      LoopReports(turn, max, k + 1, Left(t.deletion), t.result, done + [t.deletion]);
      var rest := Loop(turn, max, k + 1, Left(t.deletion), t.result).history;
      assert done + [t.deletion] + rest == done + ([t.deletion] + rest);
    } else {
      assert done + [] == done;
    }
  }

  lemma TurnReports(job: Job, world: World, k: nat, rows: Rows, result: TableResult, done: seq<Deletion>)
    ensures ReportsOn(result, done, OneTurn(job, world, k, rows, result))
  {
    var t := OneTurn(job, world, k, rows, result);
    if t.Went? && ReportsRange(done, result.deletedOldest, result.deletedNewest) {
      ChosenTakesFirst(job, world, k, t.deletion.before);
      OneMoreReported(done, result.deletedOldest, result.deletedNewest, t.deletion);
    }
  }

  /** The least and greatest times of publication among the rows that may go, if any. */
  ghost predicate EligibleRange(job: Job, rows: Rows, oldest: Option<int>, newest: Option<int>) {
    && (oldest.Some? <==> exists id :: Eligible(job, rows, id)) && (newest.Some? <==> oldest.Some?)
    && (oldest.Some? ==> exists id :: Eligible(job, rows, id) && rows[id].publishedAt == oldest)
    && (newest.Some? ==> exists id :: Eligible(job, rows, id) && rows[id].publishedAt == newest)
    && forall id :: Eligible(job, rows, id) ==> oldest.value <= rows[id].publishedAt.value <= newest.value
  }

  lemma FirstCountIsRange(job: Job, rows: Rows)
    ensures EligibleRange(job, rows, Oldest(rows, Candidates(job, rows)), Newest(rows, Candidates(job, rows)))
  {
    var ids := Candidates(job, rows);
    CandidatesAreEligible(job, rows);
    OldestAndNewestAreRange(rows, ids);
    if ids != {} {
      var lo :| lo in ids && Time(rows[lo]) == Oldest(rows, ids).value;
      var hi :| hi in ids && Time(rows[hi]) == Newest(rows, ids).value;
      assert Eligible(job, rows, lo) && Eligible(job, rows, hi);
    }
  }

  /** What a completed run reports of its first count and of the rows it deleted. */
  lemma ReportIsTruthful(job: Job, world: World, rows: Rows, apply: bool)
    ensures var run := Process(job, world, rows, apply);
      run.outcome.Completed? ==>
        var r := run.outcome.result;
        && r.initialUnpublished == Backlog(rows)
        && r.candidatesBefore == |set id | id in rows && Eligible(job, rows, id)|
        && EligibleRange(job, rows, r.candidateOldest, r.candidateNewest)
        && ReportsRange(run.history, r.deletedOldest, r.deletedNewest)
  {
    BacklogIsUnpublished(rows);
    CandidatesCounted(job, rows);
    FirstCountIsRange(job, rows);
    if apply { TurnsReport(job, world, rows); }
  }

  lemma TurnsReport(job: Job, world: World, rows: Rows)
    ensures var run := Turns(job, world, 0, rows, Initial(job, rows));
      run.outcome.Completed? ==>
        && ReportsRange(run.history, run.outcome.result.deletedOldest, run.outcome.result.deletedNewest)
        && SameFirstCount(run.outcome.result, Initial(job, rows))
  {
    var turn := DeleteTurn(job, world);
    forall k: nat, x, result, done ensures ReportsOn(result, done, turn(k, x, result)) { TurnReports(job, world, k, x, result, done); }
    LoopReports(turn, job.maxBatches, 0, rows, Initial(job, rows), []);
    var history := Turns(job, world, 0, rows, Initial(job, rows)).history;
    assert [] + history == history;
  }

  /** A row of the stream that is at least as new as the given position. */
  ghost predicate Reaches(kind: Kind, rows: Rows, r: Row) {
    exists m :: m in rows && SameStream(kind, rows[m], r) && rows[m].position >= r.position
  }

  lemma {:induction false} ChangesKeepRows(rows: Rows, changes: seq<Change>, id: string)
    requires id in rows
    ensures var after := ApplyAll(rows, changes);
      && id in after && after[id].identityHash == rows[id].identityHash && after[id].position == rows[id].position
    decreases |changes|
  {
    if changes != [] { ChangesKeepRows(Apply(rows, changes[0]), changes[1..], id); }
  }

  lemma ChangesKeepReach(kind: Kind, rows: Rows, changes: seq<Change>, r: Row)
    requires Reaches(kind, rows, r)
    ensures Reaches(kind, ApplyAll(rows, changes), r)
  {
    var m :| m in rows && SameStream(kind, rows[m], r) && rows[m].position >= r.position;
    ChangesKeepRows(rows, changes, m);
  }

  lemma DeletingKeepsReach(job: Job, rows: Rows, gone: set<string>, r: Row)
    requires gone <= Candidates(job, rows) && Reaches(job.kind, rows, r)
    ensures Reaches(job.kind, rows - gone, r)
  {
    var m :| m in rows && SameStream(job.kind, rows[m], r) && rows[m].position >= r.position;
    var n := NewestSurvives(job.kind, rows, gone, m);
    assert SameStream(job.kind, (rows - gone)[n], r);
  }

  /** Neither the other sessions' changes nor the deletion of a turn loses the reach. */
  ghost predicate KeepsReach(kind: Kind, r: Row, rows: Rows, t: Turned) {
    match t
    case Went(d, _, _) =>
      (Reaches(kind, rows, r) ==> Reaches(kind, d.before, r)) && (Reaches(kind, d.before, r) ==> Reaches(kind, Left(d), r))
    case Stopped(last, _, _) => Reaches(kind, rows, r) ==> Reaches(kind, last, r)
  }

  /** A turn keeps whatever the changes before its count, before its deletion and before the last count keep, and its deletion. */
  lemma TurnKeeps(job: Job, world: World, k: nat, rows: Rows, result: TableResult, p: Rows -> bool)
    requires var counted := ApplyAll(rows, world.changes(2 * k)); var before := ApplyAll(counted, world.changes(2 * k + 1));
      && (p(rows) ==> p(counted)) && (p(counted) ==> p(before)) && (p(before) ==> p(ApplyAll(before, world.changes(2 * (k + 1)))))
      && (p(before) ==> p(before - Chosen(job, world, k, before)))
    ensures match OneTurn(job, world, k, rows, result)
      case Went(d, _, _) => (p(rows) ==> p(d.before)) && (p(d.before) ==> p(Left(d)))
      case Stopped(last, _, _) => p(rows) ==> p(last)
  {
  }

  lemma TurnKeepsReach(job: Job, world: World, k: nat, rows: Rows, result: TableResult, r: Row)
    ensures KeepsReach(job.kind, r, rows, OneTurn(job, world, k, rows, result))
  {
    var counted := ApplyAll(rows, world.changes(2 * k));
    var before := ApplyAll(counted, world.changes(2 * k + 1));
    if Reaches(job.kind, rows, r) { ChangesKeepReach(job.kind, rows, world.changes(2 * k), r); }
    if Reaches(job.kind, counted, r) { ChangesKeepReach(job.kind, counted, world.changes(2 * k + 1), r); }
    if Reaches(job.kind, before, r) {
      ChangesKeepReach(job.kind, before, world.changes(2 * (k + 1)), r);
      DeletingKeepsReach(job, before, Chosen(job, world, k, before), r);
    }
    TurnKeeps(job, world, k, rows, result, x => Reaches(job.kind, x, r));
  }

  ghost predicate AlwaysKeepsReach(kind: Kind, r: Row, turn: Turn) {
    forall k: nat, rows, result :: KeepsReach(kind, r, rows, turn(k, rows, result))
  }

  lemma {:induction false} LoopKeepsReach(kind: Kind, r: Row, turn: Turn, max: nat, k: nat, rows: Rows, result: TableResult)
    requires StopsAt(turn, max) && AlwaysKeepsReach(kind, r, turn) && Reaches(kind, rows, r)
    ensures Reaches(kind, Loop(turn, max, k, rows, result).rows, r)
    decreases max - k
  {
    match turn(k, rows, result) {
      case Went(d, result', _) => LoopKeepsReach(kind, r, turn, max, k + 1, Left(d), result');
      case Stopped(_, _, _) =>
    }
  }

  lemma {:induction false} BatchesKeepReach(kind: Kind, r: Row, turn: Turn, max: nat, k: nat, rows: Rows, result: TableResult, i: nat)
    requires StopsAt(turn, max) && AlwaysKeepsReach(kind, r, turn)
    requires var run := Loop(turn, max, k, rows, result); i < |run.history| && Reaches(kind, run.history[i].before, r)
    ensures Reaches(kind, Loop(turn, max, k, rows, result).rows, r)
    decreases i
  {
    var t := turn(k, rows, result);
    if i > 0 {
      BatchesKeepReach(kind, r, turn, max, k + 1, Left(t.deletion), t.result, i - 1);
    } else {
      LoopKeepsReach(kind, r, turn, max, k + 1, Left(t.deletion), t.result);
    }
  }

  /** No run loses the newest row of a stream: whatever was in the table at its start or before any batch is still reached. */
  lemma StreamsKeepTheirNewest(job: Job, world: World, rows: Rows, apply: bool, r: Row)
    requires Reaches(job.kind, rows, r)
      || exists i :: 0 <= i < |Process(job, world, rows, apply).history| && Reaches(job.kind, Process(job, world, rows, apply).history[i].before, r)
    ensures Reaches(job.kind, Process(job, world, rows, apply).rows, r)
  {
    var turn, first, run := DeleteTurn(job, world), Initial(job, rows), Process(job, world, rows, apply);
    forall k: nat, x, result ensures KeepsReach(job.kind, r, x, turn(k, x, result)) { TurnKeepsReach(job, world, k, x, result, r); }
    if Reaches(job.kind, rows, r) {
      LoopKeepsReach(job.kind, r, turn, job.maxBatches, 0, rows, first);
    } else {
      var i :| 0 <= i < |run.history| && Reaches(job.kind, run.history[i].before, r);
      BatchesKeepReach(job.kind, r, turn, job.maxBatches, 0, rows, first, i);
    }
  }

  // ---- Without other writers -----------------------------------------------

  ghost predicate Quiet(world: World) {
    forall i :: world.changes(i) == []
  }

  /** So far `gone` has been deleted from `all`, which only held candidates. */
  ghost predicate Progress(job: Job, all: Rows, gone: set<string>, rows: Rows, result: TableResult) {
    && gone <= Candidates(job, all) && rows == all - gone
    && result.initialUnpublished == Unpublished(all) <= job.policy.maxUnpublished
    && result.candidatesBefore == |Candidates(job, all)|
    && result.deleted == |gone|
    && result.deletedOldest == Oldest(all, gone) && result.deletedNewest == Newest(all, gone)
  }

  lemma RangeGrows(all: Rows, gone: set<string>, more: set<string>)
    requires Within(gone, all) && Within(more, all) && gone !! more
    ensures Oldest(all, gone + more) == Lower(Oldest(all, gone), Oldest(all - gone, more))
    ensures Newest(all, gone + more) == Higher(Newest(all, gone), Newest(all - gone, more))
  {
    OldestAndNewestAreRange(all, gone);
    OldestAndNewestAreRange(all - gone, more);
    OldestAndNewestAreRange(all, gone + more);
    var lo, hi := Lower(Oldest(all, gone), Oldest(all - gone, more)), Higher(Newest(all, gone), Newest(all - gone, more));
    RangesJoin(all, gone, more, Oldest(all, gone), Newest(all, gone), Oldest(all - gone, more), Newest(all - gone, more));
    RangeIsUnique(all, gone + more, lo, hi, Oldest(all, gone + more), Newest(all, gone + more));
  }

  lemma RangesJoin(all: Rows, gone: set<string>, more: set<string>, lo: Option<int>, hi: Option<int>, lo': Option<int>, hi': Option<int>)
    requires Within(gone, all) && Within(more, all) && gone !! more
    requires IsRange(all, gone, lo, hi) && IsRange(all - gone, more, lo', hi')
    ensures IsRange(all, gone + more, Lower(lo, lo'), Higher(hi, hi'))
  {
    assert forall id :: id in gone ==> id in gone + more;
    assert forall id :: id in more ==> id in gone + more && (all - gone)[id] == all[id];
  }

  lemma QuietTurn(job: Job, world: World, k: nat, all: Rows, gone: set<string>, rows: Rows, result: TableResult)
    requires Progress(job, all, gone, rows, result)
    ensures !Rising(job, result, rows)
    ensures Candidates(job, rows) == Candidates(job, all) - gone
    ensures var more := Chosen(job, world, k, rows);
      Progress(job, all, gone + more, rows - more, Counted(result, rows, more))
  {
    DeletingKeepsCandidates(job, all, gone);
    var more := Chosen(job, world, k, rows);
    CountedKeepsProgress(job, all, gone, rows, result, more);
  }

  lemma DeletingTwice(all: Rows, gone: set<string>, more: set<string>)
    requires gone !! more
    ensures (all - gone) - more == all - (gone + more)
    ensures |gone + more| == |gone| + |more|
  {
  }

  lemma CountedKeepsProgress(job: Job, all: Rows, gone: set<string>, rows: Rows, result: TableResult, more: set<string>)
    requires Progress(job, all, gone, rows, result) && more <= Candidates(job, all) - gone && Within(more, rows)
    ensures Progress(job, all, gone + more, rows - more, Counted(result, rows, more))
  {
    RangeGrows(all, gone, more);
    DeletingTwice(all, gone, more);
  }

  /** Without other writers a turn deletes what it chooses, or finds nothing left that is not locked. */
  lemma QuietOneTurn(job: Job, world: World, k: nat, all: Rows, gone: set<string>, rows: Rows, result: TableResult)
    requires Quiet(world) && Progress(job, all, gone, rows, result)
    ensures match OneTurn(job, world, k, rows, result)
      case Went(d, result', _) =>
        && d.before == rows && d.gone == Chosen(job, world, k, rows) != {}
        && Progress(job, all, gone + d.gone, Left(d), result')
      case Stopped(last, outcome, _) =>
        && (k >= job.maxBatches || Chosen(job, world, k, rows) == {})
        && last == rows && outcome == Completed(result.(remaining := |Candidates(job, all) - gone|))
  {
    QuietTurn(job, world, k, all, gone, rows, result);
    assert world.changes(2 * k) == [] && world.changes(2 * k + 1) == [] && world.changes(2 * (k + 1)) == [];
  }

  /** What has gone so far from the table. */
  function Gone(all: Rows, rows: Rows): set<string> {
    all.Keys - rows.Keys
  }

  ghost predicate OnTrack(job: Job, all: Rows, rows: Rows, result: TableResult) {
    Progress(job, all, Gone(all, rows), rows, result)
  }

  ghost predicate EndsOnTrack(job: Job, all: Rows, rows: Rows, outcome: Outcome) {
    && outcome.Completed? && OnTrack(job, all, rows, outcome.result)
    && outcome.result.remaining == |Candidates(job, all) - Gone(all, rows)|
  }

  lemma GoneIsTracked(job: Job, all: Rows, gone: set<string>, rows: Rows, result: TableResult)
    requires Progress(job, all, gone, rows, result)
    ensures Gone(all, rows) == gone && OnTrack(job, all, rows, result)
  {
    PartOfCandidates(all, Candidates(job, all), gone);
  }

  lemma QuietTurnStaysOnTrack(job: Job, world: World, k: nat, all: Rows, rows: Rows, result: TableResult)
    requires Quiet(world) && OnTrack(job, all, rows, result)
    ensures match OneTurn(job, world, k, rows, result)
      case Went(d, result', _) => OnTrack(job, all, Left(d), result') && Gone(all, Left(d)) == Gone(all, rows) + d.gone
      case Stopped(last, outcome, _) => EndsOnTrack(job, all, last, outcome)
  {
    var gone := Gone(all, rows);
    QuietOneTurn(job, world, k, all, gone, rows, result);
    match OneTurn(job, world, k, rows, result) {
      case Went(d, result', _) => GoneIsTracked(job, all, gone + d.gone, Left(d), result');
      case Stopped(_, _, _) =>
    }
  }

  lemma QuietRunEndsOnTrack(job: Job, world: World, rows: Rows)
    requires Quiet(world) && Unpublished(rows) <= job.policy.maxUnpublished
    ensures var run := Turns(job, world, 0, rows, Initial(job, rows)); EndsOnTrack(job, rows, run.rows, run.outcome)
  {
    var turn := DeleteTurn(job, world);
    var inv := (k: nat, x: Rows, result: TableResult) => OnTrack(job, rows, x, result);
    var done := (x: Rows, outcome: Outcome) => EndsOnTrack(job, rows, x, outcome);
    forall k: nat, x, result | inv(k, x, result) ensures Keeps(turn(k, x, result), k, inv, done)
    {
      QuietTurnStaysOnTrack(job, world, k, rows, x, result);
    }
    NothingGoneYet(job, rows);
    LoopEnds(turn, job.maxBatches, 0, rows, Initial(job, rows), inv, done);
  }

  lemma NothingGoneYet(job: Job, rows: Rows)
    requires Unpublished(rows) <= job.policy.maxUnpublished
    ensures OnTrack(job, rows, rows, Initial(job, rows))
  {
    assert rows - {} == rows;
    assert Gone(rows, rows) == {};
  }

  /**
   Batches agree with one deletion of all candidates: without other writers a run completes for every batch size
   and every choice of locked rows, what it deleted and what remains add up to what was counted first, and
   nothing remains exactly when the table is what deleting all candidates at once would have left.
   */
  lemma BatchingRefinesOneShot(job: Job, world: World, rows: Rows)
    requires Quiet(world) && Unpublished(rows) <= job.policy.maxUnpublished
    ensures var run := Process(job, world, rows, true);
      && run.outcome.Completed?
      && var result, gone := run.outcome.result, Gone(rows, run.rows);
      && gone <= Candidates(job, rows) && run.rows == rows - gone
      && result.deleted == |gone| && result.candidatesBefore == |Candidates(job, rows)|
      && result.deleted + result.remaining == result.candidatesBefore
      && result.deletedOldest == Oldest(rows, gone) && result.deletedNewest == Newest(rows, gone)
      && (result.remaining == 0 <==> run.rows == rows - Candidates(job, rows))
  {
    QuietRunEndsOnTrack(job, world, rows);
    PartOfCandidates(rows, Candidates(job, rows), Gone(rows, Turns(job, world, 0, rows, Initial(job, rows)).rows));
  }

  lemma PartOfCandidates(rows: Rows, all: set<string>, gone: set<string>)
    requires gone <= all && Within(all, rows)
    ensures rows.Keys - (rows - gone).Keys == gone
    ensures |gone| + |all - gone| == |all|
    ensures |all - gone| == 0 <==> rows - gone == rows - all
  {
    if |all - gone| == 0 {
      assert all - gone == {};
      assert all == gone;
    }
    if rows - gone == rows - all {
      assert rows.Keys - (rows - gone).Keys == gone;
      assert rows.Keys - (rows - all).Keys == all;
    }
  }

  lemma UnlockedTurn(job: Job, world: World, k: nat, all: Rows, gone: set<string>, rows: Rows, result: TableResult)
    requires Progress(job, all, gone, rows, result) && world.locked(k) == {}
    ensures var more, left := Chosen(job, world, k, rows), |Candidates(job, all)| - |gone|;
      && |more| == (if left < job.batchSize then left else job.batchSize)
      && |gone + more| == |gone| + |more|
  {
    DeletingKeepsCandidates(job, all, gone);
    ChosenUnlocked(job, world, k, rows);
    PartOfCandidates(all, Candidates(job, all), gone);
    DeletingTwice(all, gone, Chosen(job, world, k, rows));
  }

  lemma ChosenUnlocked(job: Job, world: World, k: nat, rows: Rows)
    requires world.locked(k) == {}
    ensures var left := |Candidates(job, rows)|; |Chosen(job, world, k, rows)| == if left < job.batchSize then left else job.batchSize
  {
    assert Candidates(job, rows) - {} == Candidates(job, rows);
  }

  function Smaller(a: int, b: int): int {
    if a < b then a else b
  }

  /** How many rows k batches can take. */
  function Full(job: Job, k: nat): nat {
    job.batchSize * k
  }

  /** After k full turns, as much is gone as k batches can hold. */
  ghost predicate Filled(job: Job, count: int, k: nat, deleted: int) {
    k <= job.maxBatches && deleted == Smaller(count, Full(job, k))
  }

  ghost predicate FilledUp(job: Job, count: int, outcome: Outcome) {
    outcome.Completed? && Filled(job, count, job.maxBatches, outcome.result.deleted)
  }

  /** The turn deletes a whole batch or all that is left. */
  ghost predicate Fills(job: Job, count: int, k: nat, deleted: int, t: Turned) {
    match t
    case Went(_, result, _) => k < job.maxBatches && result.deleted == deleted + Smaller(count - deleted, job.batchSize)
    case Stopped(_, outcome, _) =>
      && outcome.Completed? && outcome.result.deleted == deleted
      && (k >= job.maxBatches || Smaller(count - deleted, job.batchSize) == 0)
  }

  lemma FillingUp(job: Job, count: int, k: nat, deleted: int, t: Turned)
    requires Filled(job, count, k, deleted) && Fills(job, count, k, deleted, t)
    ensures match t
      case Went(_, result, _) => Filled(job, count, k + 1, result.deleted)
      case Stopped(_, outcome, _) => FilledUp(job, count, outcome)
  {
    var size := job.batchSize;
    assert size * (k + 1) == size * k + size;
    assert size * k <= size * job.maxBatches;
    if size == 0 { assert size * k == 0 && size * job.maxBatches == 0; }
  }

  lemma UnlockedTurnFills(job: Job, world: World, k: nat, all: Rows, rows: Rows, result: TableResult)
    requires Quiet(world) && world.locked(k) == {} && OnTrack(job, all, rows, result)
    ensures Fills(job, |Candidates(job, all)|, k, result.deleted, OneTurn(job, world, k, rows, result))
  {
    var gone := Gone(all, rows);
    QuietOneTurn(job, world, k, all, gone, rows, result);
    UnlockedTurn(job, world, k, all, gone, rows, result);
  }

  ghost predicate OnTrackAndFilled(job: Job, all: Rows, k: nat, rows: Rows, result: TableResult) {
    OnTrack(job, all, rows, result) && Filled(job, |Candidates(job, all)|, k, result.deleted)
  }

  ghost predicate KeepsFilling(job: Job, all: Rows, k: nat, t: Turned) {
    match t
    case Went(d, result, _) => OnTrackAndFilled(job, all, k + 1, Left(d), result)
    case Stopped(_, outcome, _) => FilledUp(job, |Candidates(job, all)|, outcome)
  }

  lemma UnlockedTurnKeepsFilling(job: Job, world: World, k: nat, all: Rows, rows: Rows, result: TableResult)
    requires Quiet(world) && world.locked(k) == {} && OnTrackAndFilled(job, all, k, rows, result)
    ensures KeepsFilling(job, all, k, OneTurn(job, world, k, rows, result))
  {
    QuietTurnStaysOnTrack(job, world, k, all, rows, result);
    UnlockedTurnFills(job, world, k, all, rows, result);
    FillingUp(job, |Candidates(job, all)|, k, result.deleted, OneTurn(job, world, k, rows, result));
  }

  lemma NothingFilledYet(job: Job, rows: Rows)
    requires Unpublished(rows) <= job.policy.maxUnpublished
    ensures OnTrackAndFilled(job, rows, 0, rows, Initial(job, rows))
  {
    NothingGoneYet(job, rows);
    assert Full(job, 0) == 0;
  }

  ghost predicate AlwaysKeepsFilling(job: Job, all: Rows, turn: Turn) {
    forall k: nat, rows, result ::
      OnTrackAndFilled(job, all, k, rows, result) ==> KeepsFilling(job, all, k, turn(k, rows, result))
  }

  lemma FillingLoopEnds(job: Job, all: Rows, turn: Turn, result: TableResult)
    requires StopsAt(turn, job.maxBatches) && AlwaysKeepsFilling(job, all, turn) && OnTrackAndFilled(job, all, 0, all, result)
    ensures FilledUp(job, |Candidates(job, all)|, Loop(turn, job.maxBatches, 0, all, result).outcome)
  {
    var inv := (k: nat, rows: Rows, result: TableResult) => OnTrackAndFilled(job, all, k, rows, result);
    var done := (rows: Rows, outcome: Outcome) => FilledUp(job, |Candidates(job, all)|, outcome);
    LoopEnds(turn, job.maxBatches, 0, all, result, inv, done);
  }

  /** With nothing locked, a run deletes as many candidates as its limits allow. */
  lemma UnlockedRunsUseTheirLimits(job: Job, world: World, rows: Rows)
    requires Quiet(world) && (forall i :: world.locked(i) == {}) && Unpublished(rows) <= job.policy.maxUnpublished
    ensures var run := Process(job, world, rows, true);
      run.outcome.Completed? && run.outcome.result.deleted == Smaller(|Candidates(job, rows)|, job.batchSize * job.maxBatches)
  {
    var turn := DeleteTurn(job, world);
    forall k: nat, x, result | OnTrackAndFilled(job, rows, k, x, result) ensures KeepsFilling(job, rows, k, turn(k, x, result)) {
      UnlockedTurnKeepsFilling(job, world, k, rows, x, result);
    }
    NothingFilledYet(job, rows);
    FillingLoopEnds(job, rows, turn, Initial(job, rows));
  }
}
