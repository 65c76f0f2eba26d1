/** What the run protocol guarantees, over every interleaving of workers, routes and
    reapers, crashes and re-deliveries. Every statement about a state `s` with
    `Inv(s)` holds of every reachable state (RunInvariants.ReachableIsInv). */
module RunTheorems {
  import opened Domain
  import opened RunRepository
  import opened EngineStep
  import opened RunProtocol
  import opened RunInvariants

  // -------------------------------------------------------------- fencing

  predicate By(e: Event, a: nat) {
    !e.Tick? && e.a == a
  }

  /** The events in which an actor reads the row afresh. */
  predicate ReadsAgain(e: Event, a: nat) {
    Reads(e) && e.a == a
  }

  ghost predicate SavesNothing(s: State, t: State) {
    t.log == s.log && t.writers == s.writers && SameModuloExpiry(t.row, s.row)
  }

  /** The actor replaced the very version it had read. */
  ghost predicate SavesNext(s: State, t: State, a: nat) {
    && t.log == s.log + [t.row] && t.row.version == s.row.version + 1
    && t.writers == s.writers + [a]
    && a in s.actors && Snapshotted(s.actors[a])
    && s.actors[a].snap.version == s.row.version
    && SameModuloExpiry(s.actors[a].snap, s.row)
  }

  /** Only the actor of an event moves, and without a read or a write of its own it
      keeps the snapshot it had. */
  ghost predicate OthersStay(s: State, t: State, a: nat) {
    && (forall b :: b in t.actors && b != a ==> b in s.actors && t.actors[b] == s.actors[b])
    && (a in t.actors && Snapshotted(t.actors[a]) && SavesNothing(s, t) ==>
          a in s.actors && Snapshotted(s.actors[a]) && t.actors[a].snap == s.actors[a].snap)
  }

  lemma CommitMoves(s: State, a: nat, u: Update, p: Phase)
    requires Inv(s) && a in s.actors && Snapshotted(s.actors[a])
    requires Snapshotted(p) && p.snap == s.actors[a].snap
    ensures
      var t := Commit(s, a, s.actors[a].snap, u, p);
      (SavesNothing(s, t) || SavesNext(s, t, a)) && OthersStay(s, t, a)
  {
    var snap := s.actors[a].snap;
    assert PhaseOk(s, a, s.actors[a]);
    if snap.version == s.row.version { CurrentSnapshot(s, snap); }
  }

  lemma EndStepMoves(s: State, e: Event)
    requires Inv(s) && Enabled(s, e) && e.EndStep?
    ensures
      var t := Next(s, e);
      (SavesNothing(s, t) || SavesNext(s, t, e.a)) && OthersStay(s, t, e.a)
  {
    var p := s.actors[e.a];
    assert PhaseOk(s, e.a, p);
    if p.snap.version == s.row.version { CurrentSnapshot(s, p.snap); }
  }

  predicate Checkpointing(e: Event) {
    e.Begin? || e.Stop? || e.AdoptSkill? || e.UnlockTool? || e.LlmFails?
  }

  lemma CheckpointMoves(s: State, e: Event)
    requires Inv(s) && Enabled(s, e) && Checkpointing(e)
    ensures
      var t := Next(s, e);
      (SavesNothing(s, t) || SavesNext(s, t, e.a)) && OthersStay(s, t, e.a)
  {
    var p := s.actors[e.a];
    match e {
      case Begin(a) => CommitMoves(s, a, To(Running), p);
      case Stop(a, elapsed) => CommitMoves(s, a, To(Guard(p.snap, elapsed).value), Top(p.snap));
      case AdoptSkill(a) => CommitMoves(s, a, NoChange, p);
      case UnlockTool(a) => CommitMoves(s, a, NoChange, p);
      case LlmFails(a) => CommitMoves(s, a, To(Failed), Top(p.snap));
    }
  }

  lemma AcquireMoves(s: State, a: nat, now: int, ttl: nat)
    requires Inv(s) && Enabled(s, Acquire(a, now, ttl))
    ensures
      var t := Next(s, Acquire(a, now, ttl));
      (SavesNothing(s, t) || SavesNext(s, t, a)) && OthersStay(s, t, a)
  {
    var p := s.actors[a];
    assert PhaseOk(s, a, p);
    if p.snap.version == s.row.version { CurrentSnapshot(s, p.snap); }
  }

  lemma ReleaseMoves(s: State, a: nat)
    requires Inv(s) && Enabled(s, Release(a))
    ensures
      var t := Next(s, Release(a));
      (SavesNothing(s, t) || SavesNext(s, t, a)) && OthersStay(s, t, a)
  {
    var p := s.actors[a];
    assert PhaseOk(s, a, p);
    if p.snap.version == s.row.version { CurrentSnapshot(s, p.snap); }
  }

  lemma ClientMoves(s: State, a: nat)
    requires Inv(s) && Enabled(s, ClientWrites(a))
    ensures
      var t := Next(s, ClientWrites(a));
      (SavesNothing(s, t) || SavesNext(s, t, a)) && OthersStay(s, t, a)
  {
    var p := s.actors[a];
    assert PhaseOk(s, a, p);
    if p.snap.version == s.row.version { CurrentSnapshot(s, p.snap); }
  }

  /** The rest of the run's state is left alone, up to the lease expiry. */
  ghost predicate Bystanders(s: State, t: State, e: Event)
    requires !e.Tick?
  {
    && SavesNothing(s, t)
    && (!ReadsAgain(e, e.a) ==> OthersStay(s, t, e.a))
    && (forall b :: b in t.actors && b != e.a ==> b in s.actors && t.actors[b] == s.actors[b])
  }

  predicate Reads(e: Event) {
    e.Deliver? || e.Load? || e.ReadForRelease? || e.ClientReads? || e.ReaperReads? || e.HandOff?
  }

  lemma ReadsMove(s: State, e: Event)
    requires Enabled(s, e) && Reads(e)
    ensures Bystanders(s, Next(s, e), e)
  {}

  lemma LeavesMove(s: State, e: Event)
    requires Enabled(s, e) && (e.Observe? || e.Leave? || e.Fail? || e.Crash?)
    ensures Bystanders(s, Next(s, e), e)
  {}

  lemma RecordsMove(s: State, e: Event)
    requires Enabled(s, e) && (e.Compact? || e.LlmReplies? || e.CommitCall? || e.Heartbeat?)
    ensures Bystanders(s, Next(s, e), e)
  {}

  lemma OthersMove(s: State, e: Event)
    requires Enabled(s, e) && !e.Tick?
    requires !Checkpointing(e) && !e.EndStep? && !e.Acquire? && !e.Release? && !e.ClientWrites?
    ensures Bystanders(s, Next(s, e), e)
  {
    if Reads(e) {
      ReadsMove(s, e);
    } else if e.Compact? || e.LlmReplies? || e.CommitCall? || e.Heartbeat? {
      RecordsMove(s, e);
    } else {
      LeavesMove(s, e);
    }
  }

  /** Every event leaves the row alone up to its lease expiry, or saves the next
      version; the saver held a snapshot of exactly the version it replaced. */
  lemma VersionMoves(s: State, e: Event)
    requires Inv(s) && Enabled(s, e)
    ensures
      var t := Next(s, e);
      if e.Tick? then SavesNothing(s, t) && t.actors == s.actors
      else
        && (SavesNothing(s, t) || SavesNext(s, t, e.a))
        && (!ReadsAgain(e, e.a) ==> OthersStay(s, t, e.a))
        && (forall b :: b in t.actors && b != e.a ==> b in s.actors && t.actors[b] == s.actors[b])
  {
    if e.Tick? {
    } else if Checkpointing(e) {
      CheckpointMoves(s, e);
    } else if e.EndStep? {
      EndStepMoves(s, e);
    } else if e.Acquire? {
      AcquireMoves(s, e.a, e.now, e.ttl);
    } else if e.Release? {
      ReleaseMoves(s, e.a);
    } else if e.ClientWrites? {
      ClientMoves(s, e.a);
    } else {
      OthersMove(s, e);
    }
  }

  /** How many events of a run moved the row from version `v` to `v + 1`. */
  ghost function WritesOf(s: State, trace: seq<Event>, v: nat): nat
    requires ValidTrace(s, trace)
    decreases |trace|
  {
    if trace == [] then 0
    else
      var t := Next(s, trace[0]);
      (if s.row.version == v && t.row.version == v + 1 then 1 else 0) + WritesOf(t, trace[1..], v)
  }

  /** No lost updates: in every run, each version has exactly one successful writer. */
  lemma {:induction false} OneWriterPerVersion(s: State, trace: seq<Event>, v: nat)
    requires Inv(s) && ValidTrace(s, trace)
    ensures s.row.version <= Run(s, trace).row.version
    ensures WritesOf(s, trace, v) == if s.row.version <= v < Run(s, trace).row.version then 1 else 0
    decreases |trace|
  {
    if trace != [] {
      VersionMoves(s, trace[0]);
      InvIsPreserved(s, trace[0]);
      OneWriterPerVersion(Next(s, trace[0]), trace[1..], v);
    }
  }

  /** The log of the earlier state is a prefix of the later one's. */
  lemma {:induction false} RunsExtendLog(s: State, trace: seq<Event>)
    requires Inv(s) && ValidTrace(s, trace)
    ensures s.log <= Run(s, trace).log && Inv(Run(s, trace))
    decreases |trace|
  {
    if trace != [] {
      VersionMoves(s, trace[0]);
      InvIsPreserved(s, trace[0]);
      RunsExtendLog(Next(s, trace[0]), trace[1..]);
    }
  }

  /** The actor's snapshot, if it holds one, predates a write by someone else. */
  predicate Outdated(s: State, a: nat) {
    a in s.actors && Snapshotted(s.actors[a]) ==> s.actors[a].snap.version < s.row.version
  }

  ghost function WritesBy(s: State, trace: seq<Event>, a: nat): nat
    requires ValidTrace(s, trace)
    decreases |trace|
  {
    if trace == [] then 0
    else
      var t := Next(s, trace[0]);
      (if By(trace[0], a) && t.row.version != s.row.version then 1 else 0) + WritesBy(t, trace[1..], a)
  }

  /** Fencing: an actor whose snapshot predates another party's acquire, release or
      checkpoint never writes the row again, whatever else happens, until it reads. */
  lemma {:induction false} OutdatedActorsNeverWrite(s: State, trace: seq<Event>, a: nat)
    requires Inv(s) && Outdated(s, a) && ValidTrace(s, trace)
    requires forall e :: e in trace ==> !ReadsAgain(e, a)
    ensures WritesBy(s, trace, a) == 0
    decreases |trace|
  {
    if trace != [] {
      var e := trace[0];
      assert !ReadsAgain(e, a);
      VersionMoves(s, e);
      InvIsPreserved(s, e);
      StaysOutdated(s, e, a);
      OutdatedActorsNeverWrite(Next(s, e), trace[1..], a);
    }
  }

  lemma StaysOutdated(s: State, e: Event, a: nat)
    requires Inv(s) && Enabled(s, e) && Outdated(s, a) && !ReadsAgain(e, a)
    ensures Outdated(Next(s, e), a)
  {
    VersionMoves(s, e);
  }

  /** The committed statuses are a path in the transition table, and terminal
      statuses absorb: for every state later in any run. */
  lemma StatusesFollowTheTable(s: State, trace: seq<Event>, v: nat, w: nat)
    requires Inv(s) && ValidTrace(s, trace)
    requires v <= w < |Run(s, trace).log|
    ensures
      var log := Run(s, trace).log;
      && (w == v + 1 ==> ValidTransition(log[v].status, log[w].status))
      && (Terminal(log[v].status) ==> log[w].status == log[v].status)
      && log[|log| - 1].status == Run(s, trace).row.status
  {
    RunsExtendLog(s, trace);
    var t := Run(s, trace);
    LogIsMonotone(t, v, w);
    if w == v + 1 { assert LogStep(t.log[v], t.log[w]); }
  }

  /** The update an event asks the repository to check and write. */
  ghost function Asked(s: State, e: Event): Update
    requires Enabled(s, e)
  {
    match e
    case Begin(_) => To(Running)
    case Stop(a, elapsed) => To(Guard(s.actors[a].snap, elapsed).value)
    case LlmFails(_) => To(Failed)
    case EndStep(a, tiers, limit, controls) =>
      var p := s.actors[a];
      EndOfStep(p.snap, |p.step.calls|, p.tokens, BatchOf(tiers, limit, controls))
    case ClientWrites(a) => RequestUpdate(s.actors[a].request, s.actors[a].snap)
    case _ => NoChange
  }

  /** `assert_valid_transition` never fires: every status a step, a guard, a route or
      a reaper asks for is allowed from the status it read. */
  lemma TransitionsAreAlwaysAllowed(s: State, e: Event)
    requires Reachable(s) && Enabled(s, e)
    requires !e.Tick? && e.a in s.actors && Snapshotted(s.actors[e.a])
    ensures !CheckpointOf(s.row, s.actors[e.a].snap, Asked(s, e)).InvalidTransition?
  {
    ReachableIsInv(s);
    assert PhaseOk(s, e.a, s.actors[e.a]);
  }

  // --------------------------------------------------------- cancellation

  /** Once a cancellation is committed, nothing any worker, route or reaper does raises
      the run's counters, and the only terminal status it can reach is cancelled. */
  lemma CancellationIsSafe(s: State, trace: seq<Event>)
    requires Inv(s) && s.row.cancelRequested && ValidTrace(s, trace)
    ensures
      var t := Run(s, trace);
      && t.row.cancelRequested
      && t.row.currentStep == s.row.currentStep
      && t.row.toolCallsUsed == s.row.toolCallsUsed
      && t.row.tokensUsed == s.row.tokensUsed
      && (Terminal(t.row.status) ==> t.row.status.Cancelled?)
  {
    RunsExtendLog(s, trace);
    var t := Run(s, trace);
    assert t.log[s.row.version] == s.log[s.row.version];
    LogIsMonotone(t, s.row.version, t.row.version);
  }

  /** Where a run can come from, version by version: it completes and waits only from running,
      fails only from running or while it waits for an approval, and times out only once it ran. */
  lemma WhereRunsComeFrom(s: State, v: nat)
    requires Reachable(s) && v + 1 < |s.log| && s.log[v + 1].status != s.log[v].status
    ensures
      match s.log[v + 1].status
      case Pending => false
      case Completed => s.log[v].status.Running?
      case WaitingUserInput => s.log[v].status.Running?
      case WaitingApproval => s.log[v].status.Running?
      case Failed => s.log[v].status.Running? || s.log[v].status.WaitingApproval?
      case TimedOut => s.log[v].status.Running? || Waiting(s.log[v].status)
      case Running => s.log[v].status.Pending? || Waiting(s.log[v].status)
      case Cancelled => !Terminal(s.log[v].status)
  {
    ReachableIsInv(s);
    LogIsMonotone(s, v, v + 1);
    assert LogStep(s.log[v], s.log[v + 1]);
  }

  /** Which requests are taken up at all: a cancellation of any run that is not over, a message
      for a waiting one, and decisions and expiries for one that waits for an approval. */
  lemma RequestsAreTaken(s: State, a: nat, request: Request)
    requires a !in s.actors
    ensures Enabled(s, ClientReads(a, request)) <==>
      match request
      case Cancel => !(s.row.status in {Completed, Failed, Cancelled, TimedOut})
      case PostMessage => s.row.status in {WaitingUserInput, WaitingApproval}
      case Resume => s.row.status == WaitingApproval
      case ExpireApproval => s.row.status == WaitingApproval
  {}

  /** What a client's or the approval reaper's request does, exactly: nothing, once the row has
      moved on from the version it read; else it cancels a waiting run, asks a pending or
      running one to stop, sets a waiting one running, or times out one whose approval has
      expired, and touches nothing else. */
  lemma RequestsDo(s: State, a: nat)
    requires Reachable(s) && Enabled(s, ClientWrites(a))
    ensures
      var t, p := Next(s, ClientWrites(a)), s.actors[a];
      && t.actors == s.actors - {a} && t.steps == s.steps && t.usage == s.usage
      && (if p.snap.version == s.row.version then Does(p.request, s.row, t.row) else t.row == s.row)
  {
    ReachableIsInv(s);
    var p := s.actors[a];
    assert PhaseOk(s, a, p);
    if p.snap.version == s.row.version {
      CurrentSnapshot(s, p.snap);
      RequestIsWritten(s.row, p.snap, p.request);
    }
  }

  /** The update is allowed, and does that. */
  lemma RequestIsWritten(row: RunRow, snap: RunRow, request: Request)
    requires RequestOk(request, snap) && SameModuloExpiry(snap, row)
    ensures
      var r := CheckpointOf(row, snap, RequestUpdate(request, snap));
      r.Saved? && Does(request, row, r.row)
  {}

  predicate Does(request: Request, before: RunRow, after: RunRow) {
    && after == before.(status := after.status, cancelRequested := after.cancelRequested, version := before.version + 1)
    && (after.cancelRequested <==> before.cancelRequested || request.Cancel?)
    && match request
       case Cancel =>
         if before.status in {WaitingUserInput, WaitingApproval} then after.status == Cancelled
         else before.status in {Pending, Running} && after.status == before.status
       case PostMessage => before.status in {WaitingUserInput, WaitingApproval} && after.status == Running
       case Resume => before.status == WaitingApproval && after.status == Running
       case ExpireApproval => before.status == WaitingApproval && after.status == TimedOut
  }

  /** A running run without a lease that only cancelling clients look at. */
  predicate Orphaned(s: State) {
    && s.row.status.Running? && s.row.lease.None?
    && forall a :: a in s.actors ==> s.actors[a].Requesting? && s.actors[a].request.Cancel? && s.actors[a].snap.status.Running?
  }

  /** Cancelling is safe but not live: unless a message is delivered, an orphaned run
      stays running forever, for the reaper only looks at leased runs. */
  lemma {:induction false} OrphansStayRunning(s: State, trace: seq<Event>)
    requires Orphaned(s) && ValidTrace(s, trace) && forall e :: e in trace ==> !e.Deliver?
    ensures Orphaned(Run(s, trace))
    decreases |trace|
  {
    if trace != [] {
      var e := trace[0];
      assert !e.Deliver?;
      assert Orphaned(Next(s, e));
      OrphansStayRunning(Next(s, e), trace[1..]);
    }
  }

  const SampleRow := RunRow(Pending, 0, 0, 10, 10, 1000, 0, 0, None, false)

  const SampleRunning := SampleRow.(version := 2, status := Running, lease := Some(Lease(1, 60)))
  const SampleCancelled := SampleRunning.(version := 3, cancelRequested := true)

  function SampleState(row: RunRow, actors: map<nat, Phase>): State {
    State(row, 0, map[], [], actors, [], [])
  }

  /** And cancelling a running run does orphan it: the worker's step goes stale, the
      worker gives its lease back, and nobody is left. */
  lemma CancellingOrphans()
    ensures exists s :: Reachable(s) && Orphaned(s) && s.row.cancelRequested && s.actors == map[]
  {
    var s2 := ClaimSample();
    var s3 := CancelSample(s2);
    var s4 := LeaveSample(s3);
    QuietIsReachable(s4);
    assert Orphaned(s4);
  }

  const SampleLeased := SampleRow.(version := 1, lease := Some(Lease(1, 60)))

  /** Worker 1 leases the sample run and loads it. */
  lemma LeaseSample() returns (s: State)
    ensures QuietlyReachable(s)
    ensures s == SampleState(SampleLeased, map[1 := Top(SampleLeased)]).(log := s.log, writers := s.writers)
  {
    var s0 := Initial(SampleRow);
    var s1 := Next(s0, Deliver(1));
    var s2 := Next(s1, Acquire(1, 0, 60));
    s := Next(s2, Load(1));
    assert s.actors == map[1 := Top(SampleLeased)];
    assert QuietlyReachable(s0) by { assert ValidTrace(s0, []) && Run(s0, []) == s0; }
    QuietStep(s0, Deliver(1));
    QuietStep(s1, Acquire(1, 0, 60));
    QuietStep(s2, Load(1));
  }

  /** And calls the LLM for its first step. */
  lemma ClaimSample() returns (s: State)
    ensures QuietlyReachable(s)
    ensures s == SampleState(SampleRunning, map[1 := Llm(SampleRunning, None)]).(log := s.log, writers := s.writers)
  {
    var s1 := LeaseSample();
    var s2 := Next(s1, Begin(1));
    s := Next(s2, Observe(1));
    assert s.actors == map[1 := Llm(SampleRunning, None)];
    QuietStep(s1, Begin(1));
    QuietStep(s2, Observe(1));
  }

  lemma CancelReads(s: State) returns (t: State)
    requires QuietlyReachable(s) && s.row == SampleRunning && s.actors == map[1 := Llm(SampleRunning, None)]
    ensures QuietlyReachable(t)
    ensures t == s.(actors := map[1 := Llm(SampleRunning, None), 2 := Requesting(SampleRunning, Cancel)])
  {
    t := Next(s, ClientReads(2, Cancel));
    QuietStep(s, ClientReads(2, Cancel));
  }

  /** A client cancels while the worker waits for the LLM. */
  lemma CancelSample(s: State) returns (t: State)
    requires QuietlyReachable(s)
    requires s == SampleState(SampleRunning, map[1 := Llm(SampleRunning, None)]).(log := s.log, writers := s.writers)
    ensures QuietlyReachable(t)
    ensures t == SampleState(SampleCancelled, map[1 := Llm(SampleRunning, None)]).(log := t.log, writers := t.writers)
  {
    var s1 := CancelReads(s);
    t := Next(s1, ClientWrites(2));
    assert t.actors == map[1 := Llm(SampleRunning, None)];
    QuietStep(s1, ClientWrites(2));
  }

  /** The worker's step goes stale, and the worker gives its lease back. */
  lemma LeaveSample(s: State) returns (t: State)
    requires QuietlyReachable(s)
    requires s == SampleState(SampleCancelled, map[1 := Llm(SampleRunning, None)]).(log := s.log, writers := s.writers)
    ensures QuietlyReachable(t) && t.actors == map[]
    ensures t.row == SampleCancelled.(version := 4, lease := None)
  {
    var s1 := LateStep(s);
    t := GiveBack(s1);
  }

  lemma LateStep(s: State) returns (t: State)
    requires QuietlyReachable(s)
    requires s == SampleState(SampleCancelled, map[1 := Llm(SampleRunning, None)]).(log := s.log, writers := s.writers)
    ensures QuietlyReachable(t) && t.row == SampleCancelled && t.actors == map[1 := Finishing]
  {
    var s1 := Next(s, LlmReplies(1, StepRow([], 5)));
    t := Next(s1, EndStep(1, [], 1, []));
    assert t.actors == map[1 := Finishing];
    QuietStep(s, LlmReplies(1, StepRow([], 5)));
    QuietStep(s1, EndStep(1, [], 1, []));
  }

  lemma GiveBack(s: State) returns (t: State)
    requires QuietlyReachable(s) && s.row == SampleCancelled && s.actors == map[1 := Finishing]
    ensures QuietlyReachable(t) && t.actors == map[]
    ensures t.row == SampleCancelled.(version := 4, lease := None)
  {
    var s1 := Next(s, ReadForRelease(1));
    t := Next(s1, Release(1));
    assert t.actors == map[];
    QuietStep(s, ReadForRelease(1));
    QuietStep(s1, Release(1));
  }

  /** Nobody crashes, raises or loses an LLM call. */
  predicate Quiet(e: Event) {
    !e.Crash? && !e.Fail? && !e.LlmFails?
  }

  /** Reachable without a crash, an exception or an LLM error. */
  ghost predicate QuietlyReachable(s: State) {
    exists row, trace ::
      && NewRun(row) && ValidTrace(Initial(row), trace) && Run(Initial(row), trace) == s
      && forall e :: e in trace ==> Quiet(e)
  }

  lemma QuietIsReachable(s: State)
    requires QuietlyReachable(s)
    ensures Reachable(s)
  {}

  lemma QuietStep(s: State, e: Event)
    requires QuietlyReachable(s) && Enabled(s, e) && Quiet(e)
    ensures QuietlyReachable(Next(s, e))
  {
    var row, trace :|
      && NewRun(row) && ValidTrace(Initial(row), trace) && Run(Initial(row), trace) == s
      && forall e :: e in trace ==> Quiet(e);
    RunAppend(Initial(row), trace, e);
    assert forall f :: f in trace + [e] ==> Quiet(f);
  }

  lemma ReachableStep(s: State, e: Event)
    requires Reachable(s) && Enabled(s, e)
    ensures Reachable(Next(s, e))
  {
    var row, trace :| NewRun(row) && ValidTrace(Initial(row), trace) && Run(Initial(row), trace) == s;
    RunAppend(Initial(row), trace, e);
  }

  lemma {:induction false} RunAppend(s: State, trace: seq<Event>, e: Event)
    requires ValidTrace(s, trace) && Enabled(Run(s, trace), e)
    ensures ValidTrace(s, trace + [e]) && Run(s, trace + [e]) == Next(Run(s, trace), e)
    decreases |trace|
  {
    if trace == [] {
      assert ValidTrace(Next(s, e), []);
      assert ([] + [e])[1..] == [];
    } else {
      RunAppend(Next(s, trace[0]), trace[1..], e);
      assert (trace + [e])[1..] == trace[1..] + [e];
    }
  }
}
