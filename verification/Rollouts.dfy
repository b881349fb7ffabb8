/**
 Routing rollouts: the runs that the transition table allows, and what its phases mean for readers when writes
 fan out asynchronously, backfill copies old versions and cutover waits for parity.
 */
module Rollouts {

  // ---- The transition table ------------------------------------------------

  datatype Phase =
    | Draft
    | Validating
    | DualWrite
    | Backfill
    | Verifying
    | Cutover
    | Drain
    | Completed
    | Failed
    | RollingBack
    | RolledBack
    | Cancelled

  /** `ALLOWED_ROLLOUT_TRANSITIONS`. */
  function Allowed(p: Phase): set<Phase> {
    match p
    case Draft => {Validating, Cancelled}
    case Validating => {DualWrite, Failed, Cancelled}
    case DualWrite => {Backfill, RollingBack, Failed}
    case Backfill => {Verifying, RollingBack, Failed}
    case Verifying => {Backfill, Cutover, RollingBack, Failed}
    case Cutover => {Drain, RollingBack, Failed}
    case Drain => {Completed, RollingBack, Failed}
    case Failed => {RollingBack}
    case RollingBack => {RolledBack, Failed}
    case _ => {}
  }

  ghost predicate IsPath(path: seq<Phase>) {
    forall i :: 0 < i < |path| ==> path[i] in Allowed(path[i - 1])
  }

  ghost predicate Leads(path: seq<Phase>, from: Phase, to: Phase) {
    path != [] && path[0] == from && path[|path| - 1] == to && IsPath(path)
  }

  function Rounds(n: nat): seq<Phase> {
    if n == 0 then [] else [Backfill, Verifying] + Rounds(n - 1)
  }

  const LAST_PHASES := [Cutover, Drain, Completed]

  /** The forward run with n rounds of copying and checking. */
  function Forward(n: nat): seq<Phase> {
    [Draft, Validating, DualWrite] + (Rounds(n) + LAST_PHASES)
  }

  const ABANDONED := {Failed, RollingBack, RolledBack, Cancelled}

  /** Once a rollout fails, rolls back or is cancelled, it can never complete. */
  lemma {:induction false} AbandonedStaysAbandoned(path: seq<Phase>)
    requires path != [] && IsPath(path) && path[0] in ABANDONED
    ensures path[|path| - 1] in ABANDONED
    decreases |path|
  {
    if |path| > 1 {
      assert path[1] in Allowed(path[0]);
      AbandonedStaysAbandoned(path[1..]);
    }
  }

  lemma Rest(path: seq<Phase>, from: Phase)
    requires Leads(path, from, Completed) && from != Completed
    ensures |path| > 1 && path[1] in Allowed(from) && path[1] !in ABANDONED && Leads(path[1..], path[1], Completed)
  {
    if path[1] in ABANDONED { AbandonedStaysAbandoned(path[1..]); }
  }

  lemma NothingAfterCompleted(path: seq<Phase>)
    requires path != [] && IsPath(path)
    ensures path[0] == Completed ==> path == [Completed]
  {
    assert |path| > 1 ==> path[1] in Allowed(path[0]);
  }

  lemma FromCutover(path: seq<Phase>)
    requires Leads(path, Cutover, Completed)
    ensures path == LAST_PHASES
  {
    Rest(path, Cutover);
    Rest(path[1..], Drain);
    NothingAfterCompleted(path[1..][1..]);
    assert path == [path[0]] + ([path[1..][0]] + path[1..][1..]);
  }

  lemma {:induction false} FromBackfill(path: seq<Phase>) returns (n: nat)
    requires Leads(path, Backfill, Completed)
    ensures n >= 1 && path == Rounds(n) + LAST_PHASES
    decreases |path|
  {
    Rest(path, Backfill);
    var rest := path[1..];
    Rest(rest, Verifying);
    assert path == [Backfill, Verifying] + rest[1..];
    if rest[1] == Cutover {
      FromCutover(rest[1..]);
      n := 1;
      assert Rounds(1) == [Backfill, Verifying] + Rounds(0);
    } else {
      var m := FromBackfill(rest[1..]);
      n := m + 1;
      assert Rounds(n) + LAST_PHASES == [Backfill, Verifying] + (Rounds(m) + LAST_PHASES);
    }
  }

  lemma PrependIsPath(p: Phase, path: seq<Phase>)
    requires path != [] && IsPath(path) && path[0] in Allowed(p)
    ensures IsPath([p] + path)
  {
    forall i | 0 < i < |path| + 1 ensures ([p] + path)[i] in Allowed(([p] + path)[i - 1]) {
      if i > 1 { assert path[i - 1] in Allowed(path[i - 2]); }
    }
  }

  lemma {:induction false} RoundsArePaths(n: nat)
    requires n >= 1
    ensures Leads(Rounds(n) + LAST_PHASES, Backfill, Completed)
  {
    var rest := Rounds(n - 1) + LAST_PHASES;
    if n > 1 { RoundsArePaths(n - 1); }
    assert rest[0] in Allowed(Verifying) && IsPath(rest) && rest[|rest| - 1] == Completed;
    PrependIsPath(Verifying, rest);
    PrependIsPath(Backfill, [Verifying] + rest);
    assert Rounds(n) + LAST_PHASES == [Backfill] + ([Verifying] + rest);
  }

  lemma ForwardIsPath(n: nat)
    requires n >= 1
    ensures Leads(Forward(n), Draft, Completed)
  {
    var rest := Rounds(n) + LAST_PHASES;
    RoundsArePaths(n);
    PrependIsPath(DualWrite, rest);
    PrependIsPath(Validating, [DualWrite] + rest);
    PrependIsPath(Draft, [Validating] + ([DualWrite] + rest));
    assert Forward(n) == [Draft] + ([Validating] + ([DualWrite] + rest));
  }

  /** The runs from draft to completed are exactly the forward ones, with one or more rounds before cutover. */
  lemma CompletedRuns(path: seq<Phase>)
    ensures Leads(path, Draft, Completed) <==> exists n: nat :: n >= 1 && path == Forward(n)
  {
    if Leads(path, Draft, Completed) {
      Rest(path, Draft);
      var p1 := path[1..];
      Rest(p1, Validating);
      var p2 := p1[1..];
      Rest(p2, DualWrite);
      var n := FromBackfill(p2[1..]);
      assert path == [Draft, Validating, DualWrite] + p2[1..];
      assert path == Forward(n);
    }
    forall n: nat | n >= 1 && path == Forward(n) ensures Leads(path, Draft, Completed) { ForwardIsPath(n); }
  }

  // ---- Coverage ------------------------------------------------------------

  datatype Placement = Active | Candidate

  /** The documented read and write placements of each phase. */
  function Reads(p: Phase): set<Placement> {
    match p
    case Draft => {Active}
    case Validating => {Active}
    case DualWrite => {Active, Candidate}
    case Backfill => {Active, Candidate}
    case Verifying => {Active, Candidate}
    case Cutover => {Candidate}
    case Drain => {Candidate}
    case Completed => {Candidate}
    case Failed => {Active, Candidate}
    case RollingBack => {Active, Candidate}
    case Cancelled => {Active}
    case RolledBack => {Active}
  }

  function Writes(p: Phase): set<Placement> {
    match p
    case Draft => {Active}
    case Validating => {Active}
    case Completed => {Candidate}
    case Cancelled => {Active}
    case RolledBack => {Active}
    case _ => {Active, Candidate}
  }

  /**
   Table and coverage fit: rollback can begin exactly from where both placements are written, cancelling is
   possible exactly while a rollout has not got that far, failing exactly from where work is under way, it ends
   exactly where nothing more is allowed, and readers consult every placement that is written, except that cutover and
   drain leave the active one to the writers.
   */
  lemma TableFitsCoverage(p: Phase)
    ensures RollingBack in Allowed(p) <==> Writes(p) == {Active, Candidate} && p != RollingBack
    ensures Cancelled in Allowed(p) <==> Writes(p) == {Active} && Allowed(p) != {}
    ensures Allowed(p) == {} <==> |Writes(p)| == 1 && Cancelled !in Allowed(p)
    ensures Completed in Allowed(p) ==> Reads(p) == Reads(Completed)
    ensures Failed in Allowed(p) <==> p != Draft && p != Failed && p != Completed && p != RolledBack && p != Cancelled
    ensures RolledBack in Allowed(p) <==> p == RollingBack
    ensures Active in Writes(p) <==> p != Completed
    ensures Candidate in Writes(p) <==> p != Draft && p != Validating && p != Cancelled && p != RolledBack
    ensures Reads(p) == if p == Cutover || p == Drain then Writes(p) - {Active} else Writes(p)
  {
    assert Active in Writes(p) || Candidate in Writes(p);
    assert |{Active, Candidate}| == 2 && |{Active}| == 1 && |{Candidate}| == 1;
    assert Validating in Allowed(Draft) && DualWrite in Allowed(Validating) && Backfill in Allowed(DualWrite);
    assert Verifying in Allowed(Backfill) && Cutover in Allowed(Verifying) && Drain in Allowed(Cutover);
    assert Completed in Allowed(Drain) && RollingBack in Allowed(Failed) && RolledBack in Allowed(RollingBack);
  }

  type Store = map<string, nat>

  /** A write on its way to one placement. */
  datatype Write = Write(placement: Placement, document: string, version: nat)

  /** The latest accepted version of each document, what each placement holds, and the writes still on their way. */
  datatype State = State(phase: Phase, latest: Store, active: Store, candidate: Store, pending: set<Write>) {
    function Held(p: Placement): Store {
      if p.Active? then active else candidate
    }
  }

  datatype Step =
    | Move(to: Phase)
    | Accept(document: string)
    | Deliver(write: Write)
    | Copy(document: string, version: nat)

  /** Cutover waits for parity and for every write to have arrived; backfill copies versions accepted some time before. */
  predicate Enabled(s: State, a: Step) {
    match a
    case Move(to) => to in Allowed(s.phase) && (to == Cutover ==> s.pending == {} && s.active == s.candidate)
    case Accept(_) => true
    case Deliver(write) => write in s.pending
    case Copy(document, version) =>
      s.phase in {Backfill, Verifying} && document in s.latest && version <= s.latest[document]
  }

  /** A placement keeps the newer of what it has and what it is sent. */
  function Put(store: Store, document: string, version: nat): Store {
    if document in store && store[document] >= version then store else store[document := version]
  }

  function Stored(s: State, w: Write): State {
    match w.placement
    case Active => s.(active := Put(s.active, w.document, w.version))
    case Candidate => s.(candidate := Put(s.candidate, w.document, w.version))
  }

  function NextVersion(s: State, document: string): nat {
    if document in s.latest then s.latest[document] + 1 else 1
  }

  function Sends(p: Phase, document: string, version: nat): set<Write> {
    set placement | placement in Writes(p) :: Write(placement, document, version)
  }

  function Do(s: State, a: Step): State {
    match a
    case Move(to) => s.(phase := to)
    case Accept(document) =>
      var version := NextVersion(s, document);
      s.(latest := s.latest[document := version], pending := s.pending + Sends(s.phase, document, version))
    case Deliver(w) => Stored(s.(pending := s.pending - {w}), w)
    case Copy(document, version) => Stored(s, Write(Candidate, document, version))
  }

  /** Accepting gives a document its next version, and sends it to exactly the placements that the phase writes. */
  lemma AcceptSendsNextVersion(s: State, document: string)
    ensures var s' := Do(s, Accept(document));
      && document in s'.latest && s'.latest[document] == (if document in s.latest then s.latest[document] else 0) + 1
      && (forall d :: d != document ==> (d in s'.latest <==> d in s.latest) && (d in s.latest ==> s'.latest[d] == s.latest[d]))
      && (forall w :: w in s'.pending <==>
            w in s.pending || (w.document == document && w.version == s'.latest[document] && w.placement in Writes(s.phase)))
      && s'.active == s.active && s'.candidate == s.candidate && s'.phase == s.phase
  {
    var version := NextVersion(s, document);
    forall w: Write | w.document == document && w.version == version && w.placement in Writes(s.phase)
      ensures w in Sends(s.phase, document, version)
    {
      assert w == Write(w.placement, document, version);
    }
  }

  /** A placement holds the version, or it is on its way there. */
  ghost predicate Reached(s: State, p: Placement, document: string, version: nat) {
    (document in s.Held(p) && s.Held(p)[document] == version) || Write(p, document, version) in s.pending
  }

  ghost predicate UpToDate(s: State, p: Placement) {
    forall d :: d in s.latest ==> Reached(s, p, d, s.latest[d])
  }

  /** Nothing runs ahead of what was accepted. */
  ghost predicate Within(store: Store, latest: Store) {
    forall d :: d in store ==> d in latest && store[d] <= latest[d]
  }

  ghost predicate Bounded(s: State) {
    && Within(s.active, s.latest) && Within(s.candidate, s.latest)
    && (forall w :: w in s.pending ==> w.document in s.latest && w.version <= s.latest[w.document])
  }

  ghost predicate Inv(s: State) {
    && Bounded(s)
    && (s.phase != Completed ==> UpToDate(s, Active))
    && (s.phase in {Cutover, Drain, Completed} ==> UpToDate(s, Candidate))
  }

  lemma AcceptKeepsUpToDate(s: State, document: string, p: Placement)
    requires p in Writes(s.phase) && UpToDate(s, p)
    ensures UpToDate(Do(s, Accept(document)), p)
  {
    var s', version := Do(s, Accept(document)), NextVersion(s, document);
    forall d | d in s'.latest ensures Reached(s', p, d, s'.latest[d]) {
      if d == document { assert Write(p, document, version) in Sends(s.phase, document, version); }
      else { assert Reached(s, p, d, s.latest[d]); }
    }
  }

  lemma AcceptKeepsInv(s: State, document: string)
    requires Inv(s)
    ensures Inv(Do(s, Accept(document)))
  {
    if s.phase != Completed { AcceptKeepsUpToDate(s, document, Active); }
    if s.phase in {Cutover, Drain, Completed} { AcceptKeepsUpToDate(s, document, Candidate); }
  }

  /** Storing one more version keeps a placement up to date, whether it came off the wire or from a copy. */
  lemma StoringKeepsUpToDate(s: State, s': State, w: Write, p: Placement)
    requires Bounded(s) && UpToDate(s, p) && w.document in s.latest && w.version <= s.latest[w.document]
    requires s' == Stored(s.(pending := s.pending - {w}), w) || (s' == Stored(s, w) && w.placement == Candidate)
    ensures UpToDate(s', p)
  {
    forall d | d in s'.latest ensures Reached(s', p, d, s'.latest[d]) { assert Reached(s, p, d, s.latest[d]); }
  }

  lemma StoringKeepsInv(s: State, s': State, w: Write)
    requires Inv(s) && w.document in s.latest && w.version <= s.latest[w.document]
    requires s' == Stored(s.(pending := s.pending - {w}), w) || (s' == Stored(s, w) && w.placement == Candidate)
    ensures Inv(s')
  {
    if s.phase != Completed { StoringKeepsUpToDate(s, s', w, Active); }
    if s.phase in {Cutover, Drain, Completed} { StoringKeepsUpToDate(s, s', w, Candidate); }
  }

  lemma MoveKeepsInv(s: State, to: Phase)
    requires Inv(s) && Enabled(s, Move(to))
    ensures Inv(Do(s, Move(to)))
  {
    var s' := Do(s, Move(to));
    forall p, d | d in s.latest && Reached(s, p, d, s.latest[d]) ensures Reached(s', p, d, s.latest[d]) { }
    if to == Cutover {
      forall d | d in s'.latest ensures Reached(s', Candidate, d, s'.latest[d]) { assert Reached(s, Active, d, s.latest[d]); }
    }
  }

  lemma StepKeepsInv(s: State, a: Step)
    requires Inv(s) && Enabled(s, a)
    ensures Inv(Do(s, a))
  {
    match a {
      case Move(to) => MoveKeepsInv(s, to);
      case Accept(document) => AcceptKeepsInv(s, document);
      case Deliver(w) => StoringKeepsInv(s, Do(s, a), w);
      case Copy(document, version) => StoringKeepsInv(s, Do(s, a), Write(Candidate, document, version));
    }
  }

  predicate Runnable(s: State, run: seq<Step>)
    decreases |run|
  {
    run == [] || (Enabled(s, run[0]) && Runnable(Do(s, run[0]), run[1..]))
  }

  function Run(s: State, run: seq<Step>): State
    requires Runnable(s, run)
    decreases |run|
  {
    if run == [] then s else Run(Do(s, run[0]), run[1..])
  }

  lemma {:induction false} RunKeepsInv(s: State, run: seq<Step>)
    requires Inv(s) && Runnable(s, run)
    ensures Inv(Run(s, run))
    decreases |run|
  {
    if run != [] {
      StepKeepsInv(s, run[0]);
      RunKeepsInv(Do(s, run[0]), run[1..]);
    }
  }

  /** The version a reader finds: the newest in the placements that the phase reads. */
  ghost predicate Finds(s: State, document: string, version: nat) {
    && (exists p :: p in Reads(s.phase) && document in s.Held(p) && s.Held(p)[document] == version)
    && (forall p :: p in Reads(s.phase) && document in s.Held(p) ==> s.Held(p)[document] <= version)
  }

  /** A rollout starts in draft with the active placement up to date and nothing newer in the candidate. */
  ghost predicate Initial(s: State) {
    s.phase == Draft && s.pending == {} && s.active == s.latest && Within(s.candidate, s.latest)
  }

  /**
   Coverage in every phase of every run: the latest accepted version of each document has reached, or is on its
   way to, a placement that readers consult; and whenever no write is on its way, readers find exactly it.
   */
  lemma CoverageNeverLapses(s: State, run: seq<Step>, document: string)
    requires Initial(s) && Runnable(s, run) && document in Run(s, run).latest
    ensures var s' := Run(s, run);
      && (exists p :: p in Reads(s'.phase) && Reached(s', p, document, s'.latest[document]))
      && (s'.pending == {} ==> Finds(s', document, s'.latest[document]))
  {
    RunKeepsInv(s, run);
    var s' := Run(s, run);
    var p := if s'.phase in {Cutover, Drain, Completed} then Candidate else Active;
    assert p in Reads(s'.phase) && Reached(s', p, document, s'.latest[document]);
    forall q ensures Within(s'.Held(q), s'.latest) { }
  }

  // ---- Why cutover waits for parity ----------------------------------------

  lemma FindsAtCutover(s: State, d: string)
    requires Inv(s) && d in s.latest
    ensures Finds(s.(phase := Cutover), d, s.latest[d]) <==> d in s.candidate && s.candidate[d] == s.latest[d]
  {
    var s' := s.(phase := Cutover);
    assert Reads(Cutover) == {Candidate};
    if d in s.candidate && s.candidate[d] == s.latest[d] { assert Candidate in Reads(s'.phase) && d in s'.Held(Candidate); }
  }

  lemma SettledActiveIsLatest(s: State)
    requires Inv(s) && s.phase != Completed && s.pending == {}
    ensures s.active == s.latest
  {
    forall d | d in s.latest ensures d in s.active && s.active[d] == s.latest[d] { assert Reached(s, Active, d, s.latest[d]); }
  }

  /** Once all writes have arrived, entering cutover keeps every latest version readable exactly if there is parity. */
  lemma ParityDecides(s: State)
    requires Inv(s) && s.phase == Verifying && s.pending == {}
    ensures s.active == s.candidate <==> forall d :: d in s.latest ==> Finds(s.(phase := Cutover), d, s.latest[d])
  {
    SettledActiveIsLatest(s);
    forall d | d in s.latest ensures Finds(s.(phase := Cutover), d, s.latest[d]) <==> d in s.candidate && s.candidate[d] == s.latest[d] {
      FindsAtCutover(s, d);
    }
    if forall d :: d in s.latest ==> d in s.candidate && s.candidate[d] == s.latest[d] {
      assert s.candidate == s.latest;
    }
  }

  /**
   A run that would enter cutover if parity were not asked for: a document that backfill never copies is readable
   in every phase before, and disappears.
   */
  lemma ParityIsNeeded(document: string, version: nat)
    ensures var s := State(Draft, map[document := version], map[document := version], map[], {});
      var run := [Move(Validating), Move(DualWrite), Move(Backfill), Move(Verifying)];
      && Initial(s) && Runnable(s, run)
      && var s' := Run(s, run);
         && Cutover in Allowed(s'.phase) && s'.pending == {} && !Enabled(s', Move(Cutover))
         && Finds(s', document, version) && !Finds(Do(s', Move(Cutover)), document, version)
  {
    var s := State(Draft, map[document := version], map[document := version], map[], {});
    var run := [Move(Validating), Move(DualWrite), Move(Backfill), Move(Verifying)];
    assert run[1..] == [Move(DualWrite), Move(Backfill), Move(Verifying)];
    assert run[1..][1..] == [Move(Backfill), Move(Verifying)];
    assert run[1..][1..][1..] == [Move(Verifying)];
    assert run[1..][1..][1..][1..] == [];
    var s' := s.(phase := Verifying);
    assert Run(s, run) == s';
    assert Active in Reads(s'.phase) && document in s'.Held(Active);
    assert document in s'.active && document !in s'.candidate;
  }

  function Uncopied(s: State): set<string> {
    set d | d in s.latest && (d !in s.candidate || s.candidate[d] != s.latest[d])
  }

  lemma CopyingIsProgress(s: State, d: string)
    requires Inv(s) && s.phase in {Backfill, Verifying} && d in Uncopied(s)
    ensures Enabled(s, Copy(d, s.latest[d]))
    ensures var s' := Do(s, Copy(d, s.latest[d])); s' == s.(candidate := s'.candidate) && Uncopied(s') == Uncopied(s) - {d}
  {
  }

  /** Parity can be reached: where backfill may copy, copies alone bring the candidate to the latest version of everything. */
  lemma {:induction false} CopyingReachesParity(s: State) returns (run: seq<Step>)
    requires Inv(s) && (s.phase == Backfill || s.phase == Verifying)
    ensures Runnable(s, run) && Run(s, run) == s.(candidate := s.latest)
    ensures s.phase == Verifying && s.pending == {} ==> Enabled(Run(s, run), Move(Cutover))
    decreases |Uncopied(s)|
  {
    if d :| d in Uncopied(s) {
      CopyingIsProgress(s, d);
      var a := Copy(d, s.latest[d]);
      StepKeepsInv(s, a);
      var rest := CopyingReachesParity(Do(s, a));
      run := [a] + rest;
      RunOne(s, a, rest);
    } else {
      run := [];
      assert forall d :: d in s.latest ==> d !in Uncopied(s);
      assert s.candidate == s.latest;
    }
    if s.phase == Verifying && s.pending == {} { SettledActiveIsLatest(s); }
  }

  // ---- What readers find never goes back -----------------------------------

  /** Whatever version of a document readers find, they find it or a newer one afterwards. */
  ghost predicate KeepsReadable(s: State, s': State) {
    forall d, v :: Finds(s, d, v) ==> exists w :: w >= v && Finds(s', d, w)
  }

  predicate BehindCandidate(s: State, d: string) {
    d in s.candidate && (d !in s.active || s.active[d] < s.candidate[d])
  }

  /** The candidate holds something that the active placement does not have yet. */
  predicate CandidateAhead(s: State) {
    exists d :: d in s.candidate && BehindCandidate(s, d)
  }

  /** The newest version among the placements that the phase reads. */
  function Newest(s: State, d: string): nat
    requires exists p :: p in Reads(s.phase) && d in s.Held(p)
  {
    if Active !in Reads(s.phase) || d !in s.active then s.candidate[d]
    else if Candidate !in Reads(s.phase) || d !in s.candidate || s.candidate[d] < s.active[d] then s.active[d]
    else s.candidate[d]
  }

  lemma NewestIsFound(s: State, p: Placement, d: string)
    requires p in Reads(s.phase) && d in s.Held(p)
    ensures Finds(s, d, Newest(s, d)) && s.Held(p)[d] <= Newest(s, d)
  {
    var n := Newest(s, d);
    assert Active in Reads(s.phase) || Candidate in Reads(s.phase);
    assert s.Held(Active) == s.active && s.Held(Candidate) == s.candidate;
    forall q | q in Reads(s.phase) && d in s.Held(q) ensures s.Held(q)[d] <= n { }
  }

  /** If every placement that was read has a successor that is read and holds no less, nothing goes back. */
  lemma HoldingKeepsReadable(s: State, s': State)
    requires forall p, d :: p in Reads(s.phase) && d in s.Held(p) ==>
      exists q :: q in Reads(s'.phase) && d in s'.Held(q) && s'.Held(q)[d] >= s.Held(p)[d]
    ensures KeepsReadable(s, s')
  {
    forall d, v | Finds(s, d, v) ensures exists w :: w >= v && Finds(s', d, w) {
      var p :| p in Reads(s.phase) && d in s.Held(p) && s.Held(p)[d] == v;
      var q :| q in Reads(s'.phase) && d in s'.Held(q) && s'.Held(q)[d] >= v;
      NewestIsFound(s', q, d);
    }
  }

  lemma EndingRollbackAhead(s: State, d: string)
    requires s.phase == RollingBack && BehindCandidate(s, d)
    ensures Finds(s, d, s.candidate[d]) && forall w :: w >= s.candidate[d] ==> !Finds(Do(s, Move(RolledBack)), d, w)
  {
    assert s.Held(Active) == s.active && s.Held(Candidate) == s.candidate;
    assert Candidate in Reads(s.phase) && d in s.Held(Candidate);
    var s' := Do(s, Move(RolledBack));
    assert Reads(s'.phase) == {Active} && s'.Held(Active) == s.active;
  }

  lemma OtherMovesKeepReadable(s: State, to: Phase)
    requires Enabled(s, Move(to)) && (to == RolledBack ==> !CandidateAhead(s))
    ensures KeepsReadable(s, Do(s, Move(to)))
  {
    var s' := Do(s, Move(to));
    forall p, d | p in Reads(s.phase) && d in s.Held(p)
      ensures exists q :: q in Reads(s'.phase) && d in s'.Held(q) && s'.Held(q)[d] >= s.Held(p)[d]
    {
      var q := if to == Cutover then Candidate else if to == RolledBack then Active else p;
      assert to == RolledBack ==> !BehindCandidate(s, d);
      assert q in Reads(s'.phase) && d in s'.Held(q) && s'.Held(q)[d] >= s.Held(p)[d];
    }
    HoldingKeepsReadable(s, s');
  }

  /** A move keeps every version readable exactly if it does not end a rollback while the candidate is ahead. */
  lemma MoveKeepsReadable(s: State, to: Phase)
    requires Enabled(s, Move(to))
    ensures KeepsReadable(s, Do(s, Move(to))) <==> (to == RolledBack ==> !CandidateAhead(s))
  {
    if to == RolledBack && CandidateAhead(s) {
      var d :| d in s.candidate && BehindCandidate(s, d);
      EndingRollbackAhead(s, d);
      assert !KeepsReadable(s, Do(s, Move(to)));
    } else {
      OtherMovesKeepReadable(s, to);
    }
  }

  /** Ending a rollback while the candidate is ahead. */
  predicate Hasty(s: State, a: Step) {
    a == Move(RolledBack) && CandidateAhead(s)
  }

  lemma StepKeepsReadable(s: State, a: Step)
    requires Enabled(s, a)
    ensures KeepsReadable(s, Do(s, a)) <==> !Hasty(s, a)
  {
    if a.Move? {
      MoveKeepsReadable(s, a.to);
    } else {
      var s' := Do(s, a);
      forall p, d | p in Reads(s.phase) && d in s.Held(p) ensures d in s'.Held(p) && s'.Held(p)[d] >= s.Held(p)[d] { }
      HoldingKeepsReadable(s, s');
    }
  }

  /** The state before step i of a run, or after all of it. */
  function At(s: State, run: seq<Step>, i: nat): State
    requires Runnable(s, run) && i <= |run|
    decreases i
  {
    if i == 0 then s else At(Do(s, run[0]), run[1..], i - 1)
  }

  lemma {:induction false} AtGoesOn(s: State, run: seq<Step>, i: nat)
    requires Runnable(s, run) && i < |run|
    ensures Enabled(At(s, run, i), run[i]) && At(s, run, i + 1) == Do(At(s, run, i), run[i])
    decreases i
  {
    if i > 0 { AtGoesOn(Do(s, run[0]), run[1..], i - 1); }
  }

  lemma {:induction false} CarefulRunsKeepReadable(s: State, run: seq<Step>, i: nat, j: nat)
    requires Runnable(s, run) && i <= j <= |run|
    requires forall k :: i <= k < j ==> !Hasty(At(s, run, k), run[k])
    ensures KeepsReadable(At(s, run, i), At(s, run, j))
    decreases j
  {
    if i < j {
      CarefulRunsKeepReadable(s, run, i, j - 1);
      AtGoesOn(s, run, j - 1);
      StepKeepsReadable(At(s, run, j - 1), run[j - 1]);
    }
  }

  /** Over a whole run, what readers find never goes back exactly if no rollback ends while the candidate is ahead. */
  lemma ReadableStaysReadable(s: State, run: seq<Step>)
    requires Runnable(s, run)
    ensures (forall i, j :: 0 <= i <= j <= |run| ==> KeepsReadable(At(s, run, i), At(s, run, j)))
      <==> (forall k :: 0 <= k < |run| ==> !Hasty(At(s, run, k), run[k]))
  {
    if k :| 0 <= k < |run| && Hasty(At(s, run, k), run[k]) {
      AtGoesOn(s, run, k);
      StepKeepsReadable(At(s, run, k), run[k]);
      assert !KeepsReadable(At(s, run, k), At(s, run, k + 1));
    } else {
      forall i, j | 0 <= i <= j <= |run| ensures KeepsReadable(At(s, run, i), At(s, run, j)) { CarefulRunsKeepReadable(s, run, i, j); }
    }
  }

  // ---- Waiting for the active placement ------------------------------------

  /** Once every write to the active placement has arrived, the candidate is not ahead. */
  lemma SettledActiveIsNotBehind(s: State)
    requires Inv(s) && s.phase != Completed && forall w :: w in s.pending ==> w.placement != Active
    ensures !CandidateAhead(s)
  {
    forall d | d in s.candidate ensures !BehindCandidate(s, d) {
      assert Reached(s, Active, d, s.latest[d]);
      assert s.Held(Active) == s.active;
    }
  }

  /** If rollback is ended only after all writes to the active placement have arrived, a readable document stays readable. */
  lemma WaitingRollbackKeepsReadable(s: State, run: seq<Step>, i: nat, j: nat)
    requires Initial(s) && Runnable(s, run) && i <= j <= |run|
    requires forall k :: 0 <= k < |run| && run[k] == Move(RolledBack) ==>
      forall w :: w in At(s, run, k).pending ==> w.placement != Active
    ensures KeepsReadable(At(s, run, i), At(s, run, j))
  {
    forall k | i <= k < j ensures !Hasty(At(s, run, k), run[k]) {
      if run[k] == Move(RolledBack) {
        AtKeepsInv(s, run, k);
        AtGoesOn(s, run, k);
        SettledActiveIsNotBehind(At(s, run, k));
      }
    }
    CarefulRunsKeepReadable(s, run, i, j);
  }

  lemma {:induction false} AtKeepsInv(s: State, run: seq<Step>, i: nat)
    requires Inv(s) && Runnable(s, run) && i <= |run|
    ensures Inv(At(s, run, i))
    decreases i
  {
    if i > 0 {
      StepKeepsInv(s, run[0]);
      AtKeepsInv(Do(s, run[0]), run[1..], i - 1);
    }
  }

  const HIDING_START := State(Draft, map[], map[], map[], {})

  function HidingRun(document: string): seq<Step> {
    [Move(Validating)] + ([Move(DualWrite)] + ([Accept(document)] + ([Deliver(Write(Candidate, document, 1))] + [Move(RollingBack)])))
  }

  /** The document is in the candidate, and its write to the active placement is still on its way. */
  function HalfWritten(phase: Phase, document: string): State {
    State(phase, map[document := 1], map[], map[document := 1], {Write(Active, document, 1)})
  }

  lemma HidingRunEnds(document: string)
    ensures Runnable(HIDING_START, HidingRun(document))
    ensures Run(HIDING_START, HidingRun(document)) == HalfWritten(RollingBack, document)
  {
    var s, w := HIDING_START, Write(Candidate, document, 1);
    var accepted := State(DualWrite, map[document := 1], map[], map[], {Write(Active, document, 1), w});
    assert Do(s.(phase := DualWrite), Accept(document)) == accepted by { assert Sends(DualWrite, document, 1) == accepted.pending; }
    assert Do(accepted, Deliver(w)) == HalfWritten(DualWrite, document) by {
      assert accepted.pending - {w} == {Write(Active, document, 1)};
    }
    assert Run(HalfWritten(DualWrite, document), [Move(RollingBack)]) == HalfWritten(RollingBack, document) by {
      assert [Move(RollingBack)][1..] == [];
    }
    RunOne(accepted, Deliver(w), [Move(RollingBack)]);
    RunOne(s.(phase := DualWrite), Accept(document), [Deliver(w)] + [Move(RollingBack)]);
    RunOne(s.(phase := Validating), Move(DualWrite), [Accept(document)] + ([Deliver(w)] + [Move(RollingBack)]));
    RunOne(s, Move(Validating), [Move(DualWrite)] + ([Accept(document)] + ([Deliver(w)] + [Move(RollingBack)])));
  }

  lemma RunOne(s: State, a: Step, rest: seq<Step>)
    requires Enabled(s, a) && Runnable(Do(s, a), rest)
    ensures Runnable(s, [a] + rest) && Run(s, [a] + rest) == Run(Do(s, a), rest)
  {
    assert ([a] + rest)[1..] == rest;
  }

  /**
   A run that hides a document: accepted during dual write, it reaches the candidate and is found there; rollback
   ends before the write to the active placement arrives, and no version of it is found any more.
   */
  lemma RollbackCanHide(document: string)
    ensures var s, run := HIDING_START, HidingRun(document);
      && Initial(s) && Runnable(s, run)
      && var s' := Run(s, run);
         && Finds(s', document, 1) && Enabled(s', Move(RolledBack))
         && forall v :: !Finds(Do(s', Move(RolledBack)), document, v)
  {
    HidingRunEnds(document);
    var s' := HalfWritten(RollingBack, document);
    EndingRollbackAhead(s', document);
    assert Reads(RolledBack) == {Active} && s'.Held(Active) == map[];
  }
}
