/** The durable run protocol: one run row shared by any number of workers, routes
    and reapers.

    Every commit, read of a snapshot, crash and re-delivery is one event. A worker
    or a client acts on the snapshot it read; between reading and writing, anyone
    else may write. Handlers, approvals and tool rows are the subject of
    ToolProtocol; here a worker's tool calls only commit its step row. */
module RunProtocol {
  import opened Domain
  import opened RunRepository
  import opened EngineStep

  /** A persisted llm_call step. */
  datatype StepRow = StepRow(calls: seq<Call>, tokens: nat)

  /** A usage record. `counted` is history: some checkpoint added it to `tokensUsed`. */
  datatype Usage = Usage(tokens: nat, counted: bool)

  /** Where the reply a worker acts on stands. A pending reply is inserted but not
      committed, which reserves its step number until the worker commits or dies. */
  datatype Reply = Replayed | Uncommitted | Recorded(usage: nat)

  datatype Request = Cancel | PostMessage | Resume | ExpireApproval

  datatype Phase =
    | Claiming(snap: RunRow)
    | Acquired
    | Top(snap: RunRow)
    | Llm(snap: RunRow, compaction: Option<nat>)
    | Acting(snap: RunRow, compaction: Option<nat>, step: StepRow, reply: Reply, tokens: nat)
    | Finishing
    | Releasing(snap: RunRow)
    | Requesting(snap: RunRow, request: Request)
    | Reaping(snap: RunRow)

  /** `log[v]` is the row as the commit of version `v` left it and `writers[v]` the
      actor that moved the row from `v` to `v + 1`. */
  datatype State = State(
    row: RunRow,
    clock: int,
    steps: map<nat, StepRow>,
    usage: seq<Usage>,
    actors: map<nat, Phase>,
    log: seq<RunRow>,
    writers: seq<nat>)

  datatype Event =
    | Tick(now: int)
    | Deliver(a: nat)
    | Acquire(a: nat, now: int, ttl: nat)
    | Load(a: nat)
    | Begin(a: nat)
    | Stop(a: nat, elapsed: bool)
    | Observe(a: nat)
    | Compact(a: nat, tokens: nat)
    | AdoptSkill(a: nat)
    | LlmFails(a: nat)
    | LlmReplies(a: nat, step: StepRow)
    | CommitCall(a: nat)
    | UnlockTool(a: nat)
    | EndStep(a: nat, tiers: seq<Option<RiskTier>>, limit: nat, controls: seq<CallControl>)
    | Leave(a: nat)
    | Fail(a: nat)
    | Crash(a: nat)
    | Heartbeat(a: nat, now: int, ttl: nat)
    | ReadForRelease(a: nat)
    | Release(a: nat)
    | ClientReads(a: nat, request: Request)
    | ClientWrites(a: nat)
    | ReaperReads(a: nat)
    | HandOff(a: nat)

  predicate Snapshotted(p: Phase) {
    !p.Acquired? && !p.Finishing?
  }

  /** The heartbeat task lives while the worker holds its engine session. */
  predicate InEngine(p: Phase) {
    p.Acquired? || p.Top? || p.Llm? || p.Acting?
  }

  predicate Accepts(request: Request, row: RunRow, clock: int) {
    match request
    case Cancel => !Terminal(row.status)
    case PostMessage => Waiting(row.status)
    case Resume => row.status.WaitingApproval?
    case ExpireApproval => row.status.WaitingApproval?
  }

  function RequestUpdate(request: Request, snap: RunRow): Update {
    match request
    case Cancel =>
      if Waiting(snap.status) then To(Cancelled).(cancelRequested := true)
      else NoChange.(cancelRequested := true)
    case PostMessage => To(Running)
    case Resume => To(Running)
    case ExpireApproval => To(TimedOut)
  }

  /** What the reaper looks for. */
  predicate Expired(row: RunRow, clock: int) {
    row.status.Running? && row.lease.Some? && row.lease.value.expires < clock
  }

  predicate AtTop(s: State, a: nat, status: RunStatus) {
    a in s.actors && s.actors[a].Top? && s.actors[a].snap.status == status
  }

  ghost predicate Enabled(s: State, e: Event) {
    match e
    case Tick(now) => s.clock <= now
    case Deliver(a) => a !in s.actors
    case Acquire(a, now, _) => a in s.actors && s.actors[a].Claiming? && now <= s.clock
    case Load(a) => a in s.actors && s.actors[a].Acquired?
    case Begin(a) => AtTop(s, a, Pending)
    case Stop(a, elapsed) =>
      AtTop(s, a, Running) && Guard(s.actors[a].snap, elapsed).Some?
    case Observe(a) =>
      AtTop(s, a, Running) && Guard(s.actors[a].snap, false).None?
    case Compact(a, _) => a in s.actors && s.actors[a].Llm? && s.actors[a].compaction.None?
    case AdoptSkill(a) => a in s.actors && s.actors[a].Llm?
    case LlmFails(a) => a in s.actors && s.actors[a].Llm?
    case LlmReplies(a, _) =>
      && a in s.actors && s.actors[a].Llm?
      && !Reserved(s, s.actors[a].snap.currentStep)
    case CommitCall(a) =>
      && a in s.actors && s.actors[a].Acting?
      && CallsAllowed(s.actors[a])
    case UnlockTool(a) => a in s.actors && s.actors[a].Acting? && !s.actors[a].reply.Uncommitted? && CallsAllowed(s.actors[a])
    case EndStep(a, tiers, limit, controls) =>
      && a in s.actors && s.actors[a].Acting?
      && |tiers| == |s.actors[a].step.calls|
      && limit > 0 && Honest(tiers, controls)
    case Leave(a) =>
      a in s.actors && s.actors[a].Top? && !s.actors[a].snap.status.Pending? && !s.actors[a].snap.status.Running?
    case Fail(a) => a in s.actors && InEngine(s.actors[a])
    case Crash(a) => a in s.actors
    case Heartbeat(a, now, _) => a in s.actors && InEngine(s.actors[a]) && now <= s.clock
    case ReadForRelease(a) => a in s.actors && s.actors[a].Finishing?
    case Release(a) => a in s.actors && s.actors[a].Releasing?
    case ClientReads(a, request) => a !in s.actors && Accepts(request, s.row, s.clock)
    case ClientWrites(a) => a in s.actors && s.actors[a].Requesting?
    case ReaperReads(a) => a !in s.actors && Expired(s.row, s.clock)
    case HandOff(a) => a in s.actors && s.actors[a].Reaping?
  }

  /** Some worker's uncommitted insert holds this step number. */
  ghost predicate Reserved(s: State, step: nat) {
    exists b :: b in s.actors && Holds(s.actors[b], step)
  }

  predicate Holds(p: Phase, step: nat) {
    p.Acting? && p.reply.Uncommitted? && p.snap.currentStep == step
  }

  /** The step got past its budget checks, so its calls are being executed. */
  predicate CallsAllowed(p: Phase) {
    && p.Acting?
    && p.tokens <= p.snap.tokenBudget
    && p.step.calls != []
    && p.snap.toolCallsUsed + |p.step.calls| <= p.snap.maxToolCalls
  }

  function SetPhase(s: State, a: nat, p: Phase): State {
    s.(actors := s.actors[a := p])
  }

  function Remove(s: State, a: nat): State {
    s.(actors := s.actors - {a})
  }

  /** An exception leaves the engine block; the finally clause still releases. */
  function Abandon(s: State, a: nat): State {
    SetPhase(s, a, Finishing)
  }

  function Save(s: State, a: nat, row: RunRow): State {
    s.(row := row, log := s.log + [row], writers := s.writers + [a])
  }

  /** The reaper releases the lease at the version it read and, if that went through,
      publishes the run, which is `a`'s message from here on. It closes its session without
      a commit, so the release is undone and only the message counts. */
  function HandedOff(s: State, a: nat, snap: RunRow): State {
    if snap.version == s.row.version then SetPhase(s, a, Claiming(s.row)) else Remove(s, a)
  }

  /** The same phase, with the refreshed run object. */
  function Refresh(p: Phase, row: RunRow): Phase {
    match p
    case Top(_) => Top(row)
    case Llm(_, compaction) => Llm(row, compaction)
    case Acting(_, compaction, step, reply, tokens) => Acting(row, compaction, step, reply, tokens)
    case _ => p
  }

  /** A checkpoint by a worker, which then goes on in phase `p`. */
  function Commit(s: State, a: nat, snap: RunRow, u: Update, p: Phase): State {
    match CheckpointOf(s.row, snap, u)
    case Saved(row) => SetPhase(Save(s, a, row), a, Refresh(p, row))
    case Stale => Abandon(s, a)
    case InvalidTransition => Abandon(s, a)
  }

  function Count(usage: seq<Usage>, claim: Option<nat>): seq<Usage> {
    if claim.Some? && claim.value < |usage| then usage[claim.value := usage[claim.value].(counted := true)] else usage
  }

  function TokensAt(usage: seq<Usage>, claim: Option<nat>): nat {
    if claim.Some? && claim.value < |usage| then usage[claim.value].tokens else 0
  }

  function ReplyClaim(r: Reply): Option<nat> {
    match r
    case Recorded(i) => Some(i)
    case _ => None
  }

  /** The step row and its usage record become durable. */
  function Persist(s: State, a: nat, p: Phase): State
    requires p.Acting?
  {
    if p.reply.Uncommitted? then
      SetPhase(
        s.(steps := s.steps[p.snap.currentStep := p.step], usage := s.usage + [Usage(p.step.tokens, false)]),
        a, Acting(p.snap, p.compaction, p.step, Recorded(|s.usage|), p.tokens))
    else s
  }

  /** The checkpoint that ends a step, with whatever the session still had to commit. */
  function NextStep(s: State, a: nat, batch: Batch): State
    requires a in s.actors && s.actors[a].Acting?
    requires batch.Ended? ==> !batch.control.Proceed? && !batch.control.AwaitApproval?
  {
    var p := s.actors[a];
    var u := EndOfStep(p.snap, |p.step.calls|, p.tokens, batch);
    if CheckpointOf(s.row, p.snap, u).Saved? then
      var persisted := Persist(s, a, p);
      var counted := Count(Count(persisted.usage, p.compaction), ReplyClaim(persisted.actors[a].reply));
      Commit(persisted.(usage := counted), a, p.snap, u, Top(p.snap))
    else Abandon(s, a)
  }

  ghost function Next(s: State, e: Event): State
    requires Enabled(s, e)
  {
    match e
    case Tick(now) => s.(clock := now)
    case Deliver(a) => SetPhase(s, a, Claiming(s.row))
    case Acquire(a, now, ttl) =>
      (match AcquireOf(s.row, s.actors[a].snap, a, now, ttl)
       case Some(row) => SetPhase(Save(s, a, row), a, Acquired)
       case None => Remove(s, a))
    case Load(a) => SetPhase(s, a, Top(s.row))
    case Begin(a) => Commit(s, a, s.actors[a].snap, To(Running), s.actors[a])
    case Stop(a, elapsed) =>
      var snap := s.actors[a].snap;
      Commit(s, a, snap, To(Guard(snap, elapsed).value), Top(snap))
    case Observe(a) =>
      var snap := s.actors[a].snap;
      if snap.currentStep in s.steps
      then SetPhase(s, a, Acting(snap, None, s.steps[snap.currentStep], Replayed, snap.tokensUsed))
      else SetPhase(s, a, Llm(snap, None))
    case Compact(a, tokens) =>
      SetPhase(s.(usage := s.usage + [Usage(tokens, false)]), a, Llm(s.actors[a].snap, Some(|s.usage|)))
    case AdoptSkill(a) =>
      var p := s.actors[a];
      Commit(s, a, p.snap, NoChange, p)
    case LlmFails(a) =>
      Commit(s, a, s.actors[a].snap, To(Failed), Top(s.actors[a].snap))
    case LlmReplies(a, step) =>
      var p := s.actors[a];
      if p.snap.currentStep in s.steps then Abandon(s, a)
      else
        var tokens := p.snap.tokensUsed + TokensAt(s.usage, p.compaction) + step.tokens;
        SetPhase(s, a, Acting(p.snap, p.compaction, step, Uncommitted, tokens))
    case CommitCall(a) => Persist(s, a, s.actors[a])
    case UnlockTool(a) =>
      var p := s.actors[a];
      Commit(s, a, p.snap, NoChange, p)
    case EndStep(a, tiers, limit, controls) =>
      NextStep(s, a, BatchOf(tiers, limit, controls))
    case Leave(a) => SetPhase(s, a, Finishing)
    case Fail(a) => Abandon(s, a)
    case Crash(a) => Remove(s, a)
    case Heartbeat(a, now, ttl) =>
      if OwnedBy(s.row, a) then s.(row := RenewOf(s.row, a, now, ttl)) else Abandon(s, a)
    case ReadForRelease(a) =>
      if OwnedBy(s.row, a) then SetPhase(s, a, Releasing(s.row)) else Remove(s, a)
    case Release(a) =>
      (match VersionedUpdate(s.row, s.actors[a].snap, Released)
       case Some(row) => Remove(Save(s, a, row), a)
       case None => Remove(s, a))
    case ClientReads(a, request) => SetPhase(s, a, Requesting(s.row, request))
    case ClientWrites(a) =>
      var p := s.actors[a];
      (match CheckpointOf(s.row, p.snap, RequestUpdate(p.request, p.snap))
       case Saved(row) => Remove(Save(s, a, row), a)
       case _ => Remove(s, a))
    case ReaperReads(a) => SetPhase(s, a, Reaping(s.row))
    case HandOff(a) => HandedOff(s, a, s.actors[a].snap)
  }

  /** A freshly created run. */
  predicate NewRun(row: RunRow) {
    && row.status.Pending? && row.version == 0 && row.currentStep == 0
    && row.tokensUsed == 0 && row.toolCallsUsed == 0 && row.lease.None? && !row.cancelRequested
  }

  function Initial(row: RunRow): State {
    State(row, 0, map[], [], map[], [row], [])
  }

  ghost predicate ValidTrace(s: State, trace: seq<Event>)
    decreases |trace|
  {
    trace == [] || (Enabled(s, trace[0]) && ValidTrace(Next(s, trace[0]), trace[1..]))
  }

  ghost function Run(s: State, trace: seq<Event>): State
    requires ValidTrace(s, trace)
    decreases |trace|
  {
    if trace == [] then s else Run(Next(s, trace[0]), trace[1..])
  }

  /** The states the protocol can reach from a new run. */
  ghost predicate Reachable(s: State) {
    exists row, trace :: NewRun(row) && ValidTrace(Initial(row), trace) && Run(Initial(row), trace) == s
  }
}
