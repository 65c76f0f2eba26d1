/** Replay discipline, budgets, token accounting and lease safety of the run
    protocol, over every interleaving. */
module RunBudgets {
  import opened Domain
  import opened RunRepository
  import opened EngineStep
  import opened RunProtocol
  import opened RunInvariants
  import opened RunTheorems

  // --------------------------------------------------- replay discipline

  /** In every reachable state, crashes included, the persisted steps are exactly
      0..currentStep-1 and possibly currentStep, and a run parked for an approval
      has its current step persisted. */
  lemma StepsArePersistedInOrder(s: State, k: nat)
    requires Reachable(s)
    ensures k < s.row.currentStep ==> k in s.steps
    ensures k in s.steps ==> k <= s.row.currentStep
    ensures s.row.status.WaitingApproval? ==> s.row.currentStep in s.steps
  {
    ReachableIsInv(s);
  }

  /** The workers whose LLM call for step `k` is under way. */
  ghost predicate Calling(s: State, a: nat, k: nat) {
    a in s.actors && s.actors[a].Llm? && s.actors[a].snap.currentStep == k
  }

  ghost predicate StepsStay(s: State, t: State) {
    forall k :: k in s.steps ==> k in t.steps && t.steps[k] == s.steps[k]
  }

  lemma EventKeepsSteps(s: State, e: Event)
    requires Inv(s) && Enabled(s, e)
    ensures StepsStay(s, Next(s, e))
  {
    if e.CommitCall? || e.EndStep? {
      PersistKeepsSteps(s, e.a);
    } else {
      OthersKeepSteps(s, e);
    }
  }

  lemma PersistKeepsSteps(s: State, a: nat)
    requires Inv(s) && a in s.actors && s.actors[a].Acting?
    ensures StepsStay(s, Persist(s, a, s.actors[a]))
  {
    assert PhaseOk(s, a, s.actors[a]);
  }

  lemma OthersKeepSteps(s: State, e: Event)
    requires Enabled(s, e) && !e.CommitCall? && !e.EndStep?
    ensures Next(s, e).steps == s.steps
  {}

  lemma EventStartsNoCall(s: State, e: Event, a: nat, k: nat)
    requires Inv(s) && Enabled(s, e) && k in s.steps && Calling(Next(s, e), a, k)
    ensures Calling(s, a, k)
  {
    if e.Tick? || e.a != a {
      VersionMoves(s, e);
    } else {
      if a in s.actors && s.actors[a].Llm? {
        CallGoesOn(s, e);
      } else if !e.EndStep? {
        OnlyAnAbsentStepIsCalled(s, e);
      }
    }
  }

  lemma CallGoesOn(s: State, e: Event)
    requires Inv(s) && Enabled(s, e) && !e.Tick? && e.a in s.actors && s.actors[e.a].Llm?
    requires e.a in Next(s, e).actors && Next(s, e).actors[e.a].Llm?
    ensures Next(s, e).actors[e.a].snap.currentStep == s.actors[e.a].snap.currentStep
  {
    var p := s.actors[e.a];
    assert PhaseOk(s, e.a, p);
    if p.snap.version == s.row.version { CurrentSnapshot(s, p.snap); }
  }

  lemma OnlyAnAbsentStepIsCalled(s: State, e: Event)
    requires Inv(s) && Enabled(s, e) && !e.Tick? && !e.EndStep?
    requires e.a in s.actors ==> !s.actors[e.a].Llm?
    requires e.a in Next(s, e).actors && Next(s, e).actors[e.a].Llm?
    ensures e.Observe? && Next(s, e).actors[e.a].snap.currentStep !in s.steps
  {
    if e.UnlockTool? || e.Begin? || e.Stop? { StaysOutOfLlm(s, e); }
  }

  lemma StaysOutOfLlm(s: State, e: Event)
    requires Enabled(s, e) && (e.UnlockTool? || e.Begin? || e.Stop?)
    ensures e.a in Next(s, e).actors ==> !Next(s, e).actors[e.a].Llm?
  {}

  /** A persisted step is never sent to the LLM again: its row never changes, and from
      then on no worker starts an LLM call for it, whatever it crashed or re-read. */
  lemma {:induction false} PersistedStepIsNeverRecalled(s: State, trace: seq<Event>, a: nat, k: nat)
    requires Inv(s) && ValidTrace(s, trace) && k in s.steps
    ensures
      var t := Run(s, trace);
      && k in t.steps && t.steps[k] == s.steps[k]
      && (Calling(t, a, k) ==> Calling(s, a, k))
    decreases |trace|
  {
    if trace != [] {
      var s' := Next(s, trace[0]);
      InvIsPreserved(s, trace[0]);
      EventKeepsSteps(s, trace[0]);
      PersistedStepIsNeverRecalled(s', trace[1..], a, k);
      if Calling(s', a, k) { EventStartsNoCall(s, trace[0], a, k); }
    }
  }

  /** And a call that was already under way is discarded: its reply is not kept. */
  lemma LateReplyIsDiscarded(s: State, a: nat, step: StepRow)
    requires Enabled(s, LlmReplies(a, step)) && s.actors[a].snap.currentStep in s.steps
    ensures
      var t := Next(s, LlmReplies(a, step));
      t.steps == s.steps && t.usage == s.usage && t.actors[a] == Finishing
  {}

  // --------------------------------------------------------------- budgets

  lemma {:induction false} LimitsAreConstant(s: State, trace: seq<Event>)
    requires Inv(s) && ValidTrace(s, trace)
    ensures
      var t := Run(s, trace);
      && t.row.maxSteps == s.row.maxSteps && t.row.maxToolCalls == s.row.maxToolCalls
      && t.row.tokenBudget == s.row.tokenBudget
    decreases |trace|
  {
    if trace != [] {
      var s' := Next(s, trace[0]);
      InvIsPreserved(s, trace[0]);
      VersionMoves(s, trace[0]);
      if s'.row.version == s.row.version + 1 {
        assert LogStep(s'.log[s.row.version], s'.log[s'.row.version]);
      }
      LimitsAreConstant(s', trace[1..]);
    }
  }

  lemma NewRunIsInv(row: RunRow)
    requires NewRun(row)
    ensures Inv(Initial(row))
  {}

  /** Always within limits, for every run: exactly when the limits the caller asked for
      are not negative, which the API does not check. */
  lemma BudgetsHoldExactlyWhenSane(row: RunRow)
    requires NewRun(row)
    ensures AlwaysWithinLimits(row) <==> 0 <= row.maxSteps && 0 <= row.maxToolCalls && 0 <= row.tokenBudget
  {
    NewRunIsInv(row);
    var none: seq<Event> := [];
    assert ValidTrace(Initial(row), none) && Run(Initial(row), none) == Initial(row);
    if 0 <= row.maxSteps && 0 <= row.maxToolCalls && 0 <= row.tokenBudget {
      forall trace | ValidTrace(Initial(row), trace)
        ensures WithinLimits(Run(Initial(row), trace).row)
      {
        RunsKeepInv(Initial(row), trace);
        LimitsAreConstant(Initial(row), trace);
      }
    }
  }

  ghost predicate AlwaysWithinLimits(row: RunRow) {
    forall trace :: ValidTrace(Initial(row), trace) ==> WithinLimits(Run(Initial(row), trace).row)
  }

  predicate WithinLimits(r: RunRow) {
    && r.currentStep <= r.maxSteps && r.toolCallsUsed <= r.maxToolCalls
    && (!Terminal(r.status) ==> r.tokensUsed <= r.tokenBudget)
  }

  /** While a run is not terminal, its tool-call count is the sum of the calls of the
      steps below its current one. */
  lemma ToolCallsAreTheStepsBelow(s: State)
    requires Reachable(s) && !Terminal(s.row.status)
    ensures s.row.toolCallsUsed == CallsBelow(s.steps, s.row.currentStep)
  {
    ReachableIsInv(s);
  }

  // ----------------------------------------------------------- lease safety

  /** Every change of lease owner saves a version; a renewal changes only the expiry. */
  lemma OwnerChangesAreFenced(s: State, e: Event)
    requires Reachable(s) && Enabled(s, e)
    ensures
      var t := Next(s, e);
      && ((t.row.lease.None? != s.row.lease.None?
           || (t.row.lease.Some? && t.row.lease.value.owner != s.row.lease.value.owner))
          ==> t.row.version == s.row.version + 1)
      && (e.Heartbeat? ==> SameModuloExpiry(t.row, s.row))
  {
    ReachableIsInv(s);
    VersionMoves(s, e);
  }

  /** A worker's final read-check-release never clears another owner's lease. */
  lemma ReleaseIsTheOwners(s: State, a: nat)
    requires Reachable(s) && Enabled(s, Release(a))
    ensures
      var t := Next(s, Release(a));
      t.row.lease == s.row.lease || (OwnedBy(s.row, a) && t.row.lease.None?)
  {
    ReachableIsInv(s);
    if !OwnedBy(s.row, a) { ReleaseNeedsTheOwner(s, a); }
  }

  /** An acquire never displaces an unexpired lease, however late its clock reading. */
  lemma AcquireTakesOnlyExpired(s: State, a: nat, now: int, ttl: nat)
    requires Enabled(s, Acquire(a, now, ttl))
    ensures
      var t := Next(s, Acquire(a, now, ttl));
      t.row != s.row ==>
        OwnedBy(t.row, a) && (s.row.lease.None? || s.row.lease.value.expires < s.clock)
  {}

  /** The owner gives its lease back, from the version it read. */
  ghost predicate GivesBack(s: State, e: Event, owner: nat)
    requires Enabled(s, e)
  {
    e == Release(owner) && s.actors[owner].snap.version == s.row.version
  }

  /** Another worker takes a lease that it found expired, at the version it read. */
  ghost predicate TakesExpired(s: State, e: Event, owner: nat)
    requires Enabled(s, e) && OwnedBy(s.row, owner)
  {
    && e.Acquire? && e.a != owner
    && s.actors[e.a].snap.version == s.row.version && s.row.lease.value.expires < e.now
  }

  lemma CheckpointsKeepLease(s: State, e: Event)
    requires Enabled(s, e) && (Checkpointing(e) || e.EndStep?)
    ensures Next(s, e).row.lease == s.row.lease
  {}

  lemma ClientsKeepLease(s: State, e: Event, owner: nat)
    requires Enabled(s, e) && (e.ClientWrites? || e.Heartbeat?) && OwnedBy(s.row, owner)
    ensures OwnedBy(Next(s, e).row, owner)
  {}

  lemma OthersKeepLease(s: State, e: Event)
    requires Enabled(s, e) && !Checkpointing(e) && !e.EndStep?
    requires !e.Acquire? && !e.Release? && !e.ClientWrites? && !e.Heartbeat?
    ensures Next(s, e).row == s.row
  {}

  lemma ReleaseNeedsTheOwner(s: State, a: nat)
    requires Inv(s) && Enabled(s, Release(a)) && !OwnedBy(s.row, a)
    ensures Next(s, Release(a)).row == s.row
  {
    assert PhaseOk(s, a, s.actors[a]);
    var snap := s.actors[a].snap;
    if snap.version == s.row.version { CurrentSnapshot(s, snap); }
  }

  lemma ReleaseLeaves(s: State, a: nat, owner: nat)
    requires Inv(s) && Enabled(s, Release(a)) && OwnedBy(s.row, owner)
    ensures !OwnedBy(Next(s, Release(a)).row, owner) <==> GivesBack(s, Release(a), owner)
  {
    if a != owner { ReleaseNeedsTheOwner(s, a); }
  }

  /** A lease leaves its owner exactly when the owner gives it back, or another worker takes
      it after it expired. No checkpoint, request, heartbeat or reaper moves it. */
  lemma LeaseLeavesExactlyWhen(s: State, e: Event, owner: nat)
    requires Reachable(s) && Enabled(s, e) && OwnedBy(s.row, owner)
    ensures !OwnedBy(Next(s, e).row, owner) <==> GivesBack(s, e, owner) || TakesExpired(s, e, owner)
  {
    ReachableIsInv(s);
    LeaseLeaves(s, e, owner);
  }

  lemma LeaseLeaves(s: State, e: Event, owner: nat)
    requires Inv(s) && Enabled(s, e) && OwnedBy(s.row, owner)
    ensures !OwnedBy(Next(s, e).row, owner) <==> GivesBack(s, e, owner) || TakesExpired(s, e, owner)
  {
    if Checkpointing(e) || e.EndStep? {
      CheckpointsKeepLease(s, e);
    } else if e.Release? {
      ReleaseLeaves(s, e.a, owner);
    } else if e.ClientWrites? || e.Heartbeat? {
      ClientsKeepLease(s, e, owner);
    } else if !e.Acquire? {
      OthersKeepLease(s, e);
    }
  }

  /** Somewhere along the run the lease leaves `owner` in one of the two ways. */
  ghost predicate Leaves(s: State, trace: seq<Event>, owner: nat)
    requires ValidTrace(s, trace)
    decreases |trace|
  {
    trace != []
    && (|| (OwnedBy(s.row, owner) && (GivesBack(s, trace[0], owner) || TakesExpired(s, trace[0], owner)))
        || Leaves(Next(s, trace[0]), trace[1..], owner))
  }

  /** Along any run, whatever reapers do, an owner that lost its lease gave it back or let
      it expire. */
  lemma {:induction false} LostLeasesWereGivenBackOrExpired(s: State, trace: seq<Event>, owner: nat)
    requires Inv(s) && ValidTrace(s, trace) && OwnedBy(s.row, owner)
    ensures OwnedBy(Run(s, trace).row, owner) || Leaves(s, trace, owner)
    decreases |trace|
  {
    if trace != [] {
      InvIsPreserved(s, trace[0]);
      LeaseLeaves(s, trace[0], owner);
      if OwnedBy(Next(s, trace[0]).row, owner) {
        LostLeasesWereGivenBackOrExpired(Next(s, trace[0]), trace[1..], owner);
      }
    }
  }

  /** The lease has not expired at any state of the run. */
  ghost predicate NeverExpires(s: State, trace: seq<Event>)
    requires ValidTrace(s, trace)
    decreases |trace|
  {
    && (s.row.lease.Some? ==> s.clock <= s.row.lease.value.expires)
    && (trace != [] ==> NeverExpires(Next(s, trace[0]), trace[1..]))
  }

  /** So an unexpired lease stays its owner's along any run, through everything that anyone
      does, until the owner releases it. */
  lemma {:induction false} UnexpiredLeaseIsKept(s: State, trace: seq<Event>, owner: nat)
    requires Inv(s) && ValidTrace(s, trace) && OwnedBy(s.row, owner)
    requires NeverExpires(s, trace) && Release(owner) !in trace
    ensures OwnedBy(Run(s, trace).row, owner)
    decreases |trace|
  {
    if trace != [] {
      InvIsPreserved(s, trace[0]);
      LeaseLeaves(s, trace[0], owner);
      UnexpiredLeaseIsKept(Next(s, trace[0]), trace[1..], owner);
    }
  }

  // ------------------------------------------------------------- the reaper

  /** A late heartbeat does not keep the reaper from handing a live run to another worker:
      it does so exactly when the version it read is current, which a renewal leaves alone.
      But the row is not touched, and the worker that gets the message is turned away as
      long as the renewed lease has not expired. */
  lemma ReaperHandsOffExactlyOnVersion(s: State, reaper: nat, worker: nat, now: int, ttl: nat, later: int, ttl2: nat)
    requires Reachable(s) && Enabled(s, HandOff(reaper))
    requires Enabled(s, Heartbeat(worker, now, ttl)) && OwnedBy(s.row, worker)
    ensures
      var renewed := Next(s, Heartbeat(worker, now, ttl));
      && Enabled(renewed, HandOff(reaper))
      && var t := Next(renewed, HandOff(reaper));
      && t.row == renewed.row && t.log == renewed.log
      && (reaper in t.actors <==> s.actors[reaper].snap.version == s.row.version)
      && (Enabled(t, Acquire(reaper, later, ttl2)) && later <= now + ttl ==>
            Next(t, Acquire(reaper, later, ttl2)).row == t.row && reaper !in Next(t, Acquire(reaper, later, ttl2)).actors)
  {
    ReachableIsInv(s);
  }

  lemma StepThenRun(s: State, e: Event, rest: seq<Event>)
    requires Enabled(s, e) && ValidTrace(Next(s, e), rest)
    ensures ValidTrace(s, [e] + rest) && Run(s, [e] + rest) == Run(Next(s, e), rest)
  {
    assert ([e] + rest)[1..] == rest;
  }

  /** Worker `a` has the message and takes the expired lease. */
  lemma ClaimTakesOver(s: State, a: nat, ttl: nat)
    requires Expired(s.row, s.clock) && a in s.actors && s.actors[a] == Claiming(s.row)
    ensures
      var row := s.row.(version := s.row.version + 1, lease := Some(Lease(a, s.clock + ttl)));
      && var trace := [Acquire(a, s.clock, ttl)] + ([Load(a)] + []);
      && ValidTrace(s, trace) && Run(s, trace).row == row && Run(s, trace).actors == s.actors[a := Top(row)]
  {
    var s1 := Next(s, Acquire(a, s.clock, ttl));
    assert a in s1.actors && s1.actors[a] == Acquired;
    StepThenRun(s1, Load(a), []);
    StepThenRun(s, Acquire(a, s.clock, ttl), [Load(a)] + []);
  }

  lemma ReapedAndHandedOff(s: State, a: nat) returns (s1: State)
    requires Expired(s.row, s.clock) && a !in s.actors
    ensures Enabled(s, ReaperReads(a)) && s1 == Next(s, ReaperReads(a))
    ensures Enabled(s1, HandOff(a)) && Next(s1, HandOff(a)) == s.(actors := s.actors[a := Claiming(s.row)])
  {
    s1 := Next(s, ReaperReads(a));
    assert Next(s1, HandOff(a)).actors == s.actors[a := Claiming(s.row)];
  }

  /** A run whose worker died goes on: once its lease has expired a reaper finds it, and the
      worker it hands the run to, if nobody wrote the row in between, takes the lease. */
  lemma StaleRunIsTakenOver(s: State, a: nat, ttl: nat)
    requires Expired(s.row, s.clock) && a !in s.actors
    ensures
      var row := s.row.(version := s.row.version + 1, lease := Some(Lease(a, s.clock + ttl)));
      && var trace := [ReaperReads(a)] + ([HandOff(a)] + ([Acquire(a, s.clock, ttl)] + ([Load(a)] + [])));
      && ValidTrace(s, trace) && Run(s, trace).row == row && Run(s, trace).actors == s.actors[a := Top(row)]
  {
    var s1 := ReapedAndHandedOff(s, a);
    ClaimTakesOver(Next(s1, HandOff(a)), a, ttl);
    var rest := [Acquire(a, s.clock, ttl)] + ([Load(a)] + []);
    StepThenRun(s1, HandOff(a), rest);
    StepThenRun(s, ReaperReads(a), [HandOff(a)] + rest);
  }

  /** A concrete run in which the reaper hands off a live run: its lease is renewed well past
      the clock, and the second worker is turned away. */
  lemma ReaperHandsOffALiveRun()
    ensures exists s, reaper ::
      && Reachable(s) && Enabled(s, HandOff(reaper))
      && s.row.lease.Some? && s.clock < s.row.lease.value.expires
      && reaper in Next(s, HandOff(reaper)).actors && Next(s, HandOff(reaper)).row == s.row
  {
    var s1 := ClaimSample();
    QuietIsReachable(s1);
    var s2 := Next(s1, Tick(61));
    ReachableStep(s1, Tick(61));
    var t := ReadThenRenew(s2);
    assert Enabled(t, HandOff(2)) && 2 in Next(t, HandOff(2)).actors && Next(t, HandOff(2)).row == t.row;
  }

  /** The reaper reads the expired lease; then the worker renews it. */
  lemma ReadThenRenew(s: State) returns (t: State)
    requires Reachable(s)
    requires s.row == SampleRunning && s.clock == 61 && s.actors == map[1 := Llm(SampleRunning, None)]
    ensures Reachable(t) && t.clock == 61 && t.row == SampleRunning.(lease := Some(Lease(1, 121)))
    ensures 2 in t.actors && t.actors[2] == Reaping(SampleRunning)
  {
    var s1 := Next(s, ReaperReads(2));
    t := Next(s1, Heartbeat(1, 61, 60));
    ReachableStep(s, ReaperReads(2));
    ReachableStep(s1, Heartbeat(1, 61, 60));
  }
}
