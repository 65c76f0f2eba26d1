/** The engine's loop over one run, as the code runs it: a loop that replays or calls
    the LLM, executes the calls and checkpoints, until the run is blocked.

    The loop is proved to be a run of RunProtocol by its worker, so everything proved
    there of every interleaving holds of it; here nobody else writes meanwhile. */
module RunEngine {
  import opened Domain
  import opened RunRepository
  import opened EngineStep
  import opened RunProtocol
  import opened RunInvariants
  import RunTheorems

  /** What the outside answers while a run executes, by step number. `compaction` is
      the usage of a summary call, when one is made; `adopts` says that a skill is chosen
      for the run; `reply` is None on an LLM error; `unlocks` and `control` are what
      executing a call of a step, by its index, saves and comes to. */
  datatype World = World(
    elapsed: nat -> bool,
    compaction: nat -> Option<nat>,
    adopts: nat -> bool,
    reply: nat -> Option<StepRow>,
    tier: string -> Option<RiskTier>,
    unlocks: (nat, nat, Call) -> bool,
    control: (nat, nat, Call) -> CallControl,
    limit: nat)

  function Tiers(world: World, calls: seq<Call>): (tiers: seq<Option<RiskTier>>)
    ensures |tiers| == |calls|
  {
    seq(|calls|, i requires 0 <= i < |calls| => world.tier(calls[i].name))
  }

  function Controls(world: World, step: nat, calls: seq<Call>): (controls: seq<CallControl>)
    ensures |controls| == |calls|
  {
    seq(|calls|, i requires 0 <= i < |calls| => world.control(step, i, calls[i]))
  }

  predicate Asks(world: World, call: Call) {
    world.tier(call.name).Some? && RequiresApproval(world.tier(call.name).value)
  }

  /** A call waits for approval only when its own tool's tier asks for one. */
  ghost predicate HonestWorld(world: World) {
    && world.limit > 0
    && forall step: nat, i: nat, call :: world.control(step, i, call).AwaitApproval? ==> Asks(world, call)
  }

  lemma HonestControls(world: World, step: nat, calls: seq<Call>)
    requires HonestWorld(world)
    ensures Honest(Tiers(world, calls), Controls(world, step, calls))
  {
    forall i: nat | i < |calls| && Controls(world, step, calls)[i].AwaitApproval?
      ensures Asks(world, calls[i])
    {
      assert world.control(step, i, calls[i]).AwaitApproval?;
    }
  }

  /** The checkpoint of a step, from what executing its calls comes to. */
  ghost function StepUpdate(world: World, run: RunRow, step: StepRow, tokens: nat): Update
    requires HonestWorld(world)
  {
    HonestControls(world, run.currentStep, step.calls);
    EndOfStep(
      run, |step.calls|, tokens,
      BatchOf(Tiers(world, step.calls), world.limit, Controls(world, run.currentStep, step.calls)))
  }

  // ------------------------------------------------- what a step comes to

  /** The step's first call runs alone, because it is not read-only. */
  predicate FirstAlone(world: World, step: StepRow) {
    step.calls != [] && !IsReadOnly(world.tier(step.calls[0].name))
  }

  /** What its first call tells the engine, if it runs alone: anything else is dropped. */
  function FirstControl(world: World, k: nat, step: StepRow): CallControl {
    if FirstAlone(world, step) then world.control(k, 0, step.calls[0]) else Proceed
  }

  /** The calls of the step are executed: both budgets let them. */
  predicate CallsRun(before: RunRow, step: StepRow, tokens: nat) {
    && tokens <= before.tokenBudget && step.calls != []
    && before.toolCallsUsed + |step.calls| <= before.maxToolCalls
  }

  predicate OverBudget(before: RunRow, step: StepRow, tokens: nat) {
    tokens > before.tokenBudget || (step.calls != [] && before.toolCallsUsed + |step.calls| > before.maxToolCalls)
  }

  predicate SameTerms(before: RunRow, after: RunRow) {
    && after.maxSteps == before.maxSteps && after.maxToolCalls == before.maxToolCalls
    && after.tokenBudget == before.tokenBudget
    && after.lease == before.lease && after.cancelRequested == before.cancelRequested
  }

  /** The status a step ends in, exactly, and its counters. */
  ghost predicate StepEnds(world: World, before: RunRow, step: StepRow, tokens: nat, after: RunRow) {
    var first, run := FirstControl(world, before.currentStep, step), CallsRun(before, step, tokens);
    && SameTerms(before, after) && before.version < after.version
    && (after.status.TimedOut? <==> OverBudget(before, step, tokens))
    && (after.status.WaitingUserInput? <==>
          (tokens <= before.tokenBudget && step.calls == []) || (run && first.AskUser?))
    && (after.status.WaitingApproval? <==> run && first.AwaitApproval?)
    && (after.status.Completed? <==> run && first.Complete?)
    && (after.status.Failed? <==> run && first.Fail?)
    && (after.status.Running? <==> run && first.Proceed?)
    && after.tokensUsed == tokens
    && after.currentStep == before.currentStep + (if after.status.WaitingApproval? then 0 else 1)
    && after.toolCallsUsed == before.toolCallsUsed + (if run && !first.AwaitApproval? then |step.calls| else 0)
  }

  lemma StepUpdateEnds(world: World, before: RunRow, step: StepRow, tokens: nat, after: RunRow)
    requires HonestWorld(world) && before.status.Running? && before.version < after.version
    requires after == Patch(before, StepUpdate(world, before, step, tokens)).(version := after.version)
    ensures StepEnds(world, before, step, tokens, after)
  {
    var tiers, controls := Tiers(world, step.calls), Controls(world, before.currentStep, step.calls);
    HonestControls(world, before.currentStep, step.calls);
    BatchControl(tiers, world.limit, controls);
    BatchIsOfTheFirst(tiers, world.limit, controls);
  }

  /** The guard before a step stops the run: a cancellation first, then the limits. */
  ghost predicate Stopped(before: RunRow, elapsed: bool, after: RunRow) {
    && (before.cancelRequested || before.currentStep >= before.maxSteps || elapsed)
    && (after.status.Cancelled? <==> before.cancelRequested)
    && (after.status.TimedOut? <==> !before.cancelRequested)
    && SameTerms(before, after) && SameCounters(before, after)
  }

  predicate SameCounters(before: RunRow, after: RunRow) {
    && after.currentStep == before.currentStep && after.tokensUsed == before.tokensUsed
    && after.toolCallsUsed == before.toolCallsUsed
  }

  /** The tokens of a new step: those before, of the summary call and of the reply. */
  function TokensWith(world: World, before: RunRow, reply: StepRow): nat {
    before.tokensUsed + reply.tokens
    + if world.compaction(before.currentStep).Some? then world.compaction(before.currentStep).value else 0
  }

  /** What one turn of the loop makes of a running run: `steps` are the persisted ones. */
  ghost predicate Turns(world: World, steps: map<nat, StepRow>, before: RunRow, after: RunRow) {
    var k := before.currentStep;
    if before.cancelRequested || k >= before.maxSteps || world.elapsed(k) then Stopped(before, world.elapsed(k), after)
    else if k in steps then StepEnds(world, before, steps[k], before.tokensUsed, after)
    else
      match world.reply(k)
      case None => after.status.Failed? && SameTerms(before, after) && SameCounters(before, after)
      case Some(reply) => StepEnds(world, before, reply, TokensWith(world, before, reply), after)
  }

  /** The rows the loop saves, one a turn, until the run is no longer running. */
  ghost predicate Path(world: World, steps: map<nat, StepRow>, rows: seq<RunRow>) {
    forall i :: 0 <= i < |rows| - 1 ==> rows[i].status.Running? && Turns(world, steps, rows[i], rows[i + 1])
  }

  /** A world with one tool to approve and read-only ones otherwise. */
  const Sample := World(
    _ => false, _ => None, _ => false, _ => None,
    (name: string) => if name == "pay" then Some(Destructive) else Some(ReadOnly),
    (_, _, _) => false,
    (_, _, call: Call) => if call.name == "pay" then AwaitApproval else Proceed,
    3)

  /** Runs park in such worlds exactly at the calls to approve: a step that starts with one
      waits for its approval, and a step of read-only calls goes on. */
  lemma SampleParks(run: RunRow, call: Call, tokens: nat)
    requires run.status.Running? && tokens <= run.tokenBudget && run.toolCallsUsed < run.maxToolCalls
    ensures HonestWorld(Sample) && Sample.tier("read_file") == Some(ReadOnly)
    ensures
      var next := Patch(run, StepUpdate(Sample, run, StepRow([call], tokens), tokens));
      && next.status == (if call.name == "pay" then WaitingApproval else Running)
      && next.currentStep == (if call.name == "pay" then run.currentStep else run.currentStep + 1)
      && next.toolCallsUsed == (if call.name == "pay" then run.toolCallsUsed else run.toolCallsUsed + 1)
  {
    var calls := [call];
    HonestControls(Sample, run.currentStep, calls);
    var tiers, controls := Tiers(Sample, calls), Controls(Sample, run.currentStep, calls);
    BatchControl(tiers, Sample.limit, controls);
    if call.name == "pay" {
      assert BatchOf(tiers, Sample.limit, controls) == Parked(0);
    } else {
      PlanPartitions(tiers, Sample.limit);
      ReadOnlyNeverParks(tiers, Plan(tiers, Sample.limit).0, controls, 0);
    }
  }

  // What each event does when the worker is alone and its snapshot is the row.

  ghost predicate Alone(s: State, a: nat, p: Phase) {
    s.actors == map[a := p] && (Snapshotted(p) ==> p.snap == s.row) && s.row.status.Running?
  }

  /** The row and the phase changed, nothing else did. */
  ghost predicate Became(s: State, t: State, a: nat, p: Phase) {
    t.actors == map[a := p] && t.steps == s.steps && t.usage == s.usage && (Snapshotted(p) ==> p.snap == t.row)
  }

  lemma AloneBegins(s: State, a: nat)
    requires s.actors == map[a := Top(s.row)] && s.row.status.Pending?
    ensures Enabled(s, Begin(a))
    ensures
      var t := Next(s, Begin(a));
      && t.row == Patch(s.row, To(Running)).(version := s.row.version + 1)
      && Became(s, t, a, Top(t.row))
  {}

  lemma AloneStops(s: State, a: nat, elapsed: bool)
    requires Alone(s, a, Top(s.row)) && Guard(s.row, elapsed).Some?
    ensures Enabled(s, Stop(a, elapsed))
    ensures
      var t := Next(s, Stop(a, elapsed));
      && t.row == Patch(s.row, To(Guard(s.row, elapsed).value)).(version := s.row.version + 1)
      && Became(s, t, a, Top(t.row))
  {}

  lemma AloneObserves(s: State, a: nat)
    requires Alone(s, a, Top(s.row)) && Guard(s.row, false).None?
    ensures Enabled(s, Observe(a))
    ensures
      var t := Next(s, Observe(a));
      var k := s.row.currentStep;
      && t.row == s.row
      && Became(s, t, a,
           if k in s.steps then Acting(s.row, None, s.steps[k], Replayed, s.row.tokensUsed) else Llm(s.row, None))
  {}

  lemma AloneCompacts(s: State, a: nat, tokens: nat)
    requires Alone(s, a, Llm(s.row, None))
    ensures Enabled(s, Compact(a, tokens))
    ensures
      var t := Next(s, Compact(a, tokens));
      && t.row == s.row && t.steps == s.steps && t.usage == s.usage + [Usage(tokens, false)]
      && t.actors == map[a := Llm(s.row, Some(|s.usage|))]
  {}

  lemma AloneAdopts(s: State, a: nat, c: Option<nat>)
    requires Alone(s, a, Llm(s.row, c))
    ensures Enabled(s, AdoptSkill(a))
    ensures
      var t := Next(s, AdoptSkill(a));
      && t.row == s.row.(version := s.row.version + 1)
      && Became(s, t, a, Llm(t.row, c))
  {}

  lemma AloneLlmFails(s: State, a: nat, c: Option<nat>)
    requires Alone(s, a, Llm(s.row, c))
    ensures Enabled(s, LlmFails(a))
    ensures
      var t := Next(s, LlmFails(a));
      && t.row == Patch(s.row, To(Failed)).(version := s.row.version + 1)
      && Became(s, t, a, Top(t.row))
  {}

  lemma AloneLlmReplies(s: State, a: nat, c: Option<nat>, step: StepRow)
    requires Alone(s, a, Llm(s.row, c)) && s.row.currentStep !in s.steps
    ensures Enabled(s, LlmReplies(a, step))
    ensures
      var t := Next(s, LlmReplies(a, step));
      && t.row == s.row
      && Became(s, t, a, Acting(s.row, c, step, Uncommitted, s.row.tokensUsed + TokensAt(s.usage, c) + step.tokens))
  {}

  lemma AloneCommits(s: State, a: nat, p: Phase)
    requires Alone(s, a, p) && CallsAllowed(p) && p.reply.Uncommitted?
    ensures Enabled(s, CommitCall(a))
    ensures
      var t := Next(s, CommitCall(a));
      && t.row == s.row
      && t.actors == map[a := Acting(p.snap, p.compaction, p.step, Recorded(|s.usage|), p.tokens)]
      && t.steps == s.steps[s.row.currentStep := p.step] && t.usage == s.usage + [Usage(p.step.tokens, false)]
  {}

  lemma AloneUnlocks(s: State, a: nat, p: Phase)
    requires Alone(s, a, p) && CallsAllowed(p) && !p.reply.Uncommitted?
    ensures Enabled(s, UnlockTool(a))
    ensures
      var t := Next(s, UnlockTool(a));
      && t.row == s.row.(version := s.row.version + 1)
      && Became(s, t, a, Acting(t.row, p.compaction, p.step, p.reply, p.tokens))
  {}

  lemma AloneSaves(s: State, a: nat, p: Phase, batch: Batch) returns (row: RunRow)
    requires Alone(s, a, p) && p.Acting?
    requires batch.Ended? ==> !batch.control.Proceed? && !batch.control.AwaitApproval?
    ensures row == Patch(s.row, EndOfStep(s.row, |p.step.calls|, p.tokens, batch)).(version := s.row.version + 1)
    ensures CheckpointOf(s.row, p.snap, EndOfStep(p.snap, |p.step.calls|, p.tokens, batch)) == Saved(row)
  {
    row := Patch(s.row, EndOfStep(s.row, |p.step.calls|, p.tokens, batch)).(version := s.row.version + 1);
  }

  /** Counting claims changes no record's tokens. */
  lemma CountKeepsTokens(usage: seq<Usage>, claim: Option<nat>)
    ensures |Count(usage, claim)| == |usage|
    ensures forall i :: 0 <= i < |usage| ==> Count(usage, claim)[i].tokens == usage[i].tokens
  {}

  lemma AloneEndsStep(s: State, a: nat, p: Phase, tiers: seq<Option<RiskTier>>, limit: nat, controls: seq<CallControl>)
    requires Alone(s, a, p) && p.Acting?
    requires |tiers| == |p.step.calls| && limit > 0 && Honest(tiers, controls)
    ensures Enabled(s, EndStep(a, tiers, limit, controls))
    ensures
      var t := Next(s, EndStep(a, tiers, limit, controls));
      var mid := Persist(s, a, p);
      && t.row == Patch(s.row, EndOfStep(s.row, |p.step.calls|, p.tokens, BatchOf(tiers, limit, controls)))
                  .(version := s.row.version + 1)
      && t.actors == map[a := Top(t.row)] && t.steps == mid.steps
      && |t.usage| == |mid.usage| && forall i :: 0 <= i < |t.usage| ==> t.usage[i].tokens == mid.usage[i].tokens
  {
    var batch := BatchOf(tiers, limit, controls);
    var row := AloneSaves(s, a, p, batch);
    RunInvariants.StepEndsInParts(s, a, batch, row);
    var mid := Persist(s, a, p);
    var q := mid.actors[a];
    CountKeepsTokens(mid.usage, q.compaction);
    CountKeepsTokens(Count(mid.usage, q.compaction), ReplyClaim(q.reply));
  }

  class RunEngine {
    const worker: nat
    var run: RunRow
    var steps: map<nat, StepRow>
    var usage: seq<nat>
    var asked: seq<nat>
    ghost var state: State

    /** An engine that has just loaded its run. */
    constructor (worker: nat, ghost state: State, run: RunRow, steps: map<nat, StepRow>, usage: seq<nat>)
      requires state.actors == map[worker := Top(run)] && state.row == run
      requires state.steps == steps && SameUsage(state.usage, usage)
      ensures Valid() && this.state == state && this.run == run && asked == []
    {
      this.worker, this.state := worker, state;
      this.run, this.steps, this.usage, asked := run, steps, usage, [];
    }

    /** The protocol state this engine is in, its worker being in phase `p`. */
    ghost predicate In(p: Phase)
      reads this
    {
      state.actors == map[worker := p] && state.row == run
    }

    ghost predicate Valid()
      reads this
    {
      In(Top(run)) && state.steps == steps && SameUsage(state.usage, usage)
    }

    static predicate SameUsage(records: seq<Usage>, tokens: seq<nat>) {
      |records| == |tokens| && forall i :: 0 <= i < |records| ==> records[i].tokens == tokens[i]
    }

    ghost predicate Follows(from: State, trace: seq<Event>)
      reads this
    {
      ValidTrace(from, trace) && Run(from, trace) == state
    }

    ghost method Perform(from: State, trace: seq<Event>, e: Event) returns (longer: seq<Event>)
      requires Follows(from, trace) && Enabled(state, e)
      modifies this`state
      ensures state == Next(old(state), e) && Follows(from, longer)
    {
      RunTheorems.RunAppend(from, trace, e);
      state := Next(state, e);
      longer := trace + [e];
    }

    /** The terminal checkpoint of a violated guard. */
    method StopRun(status: RunStatus, elapsed: bool, ghost from: State, ghost trace: seq<Event>)
      returns (ghost longer: seq<Event>)
      requires Valid() && run.status.Running? && Guard(run, elapsed) == Some(status) && Follows(from, trace)
      modifies this`run, this`state
      ensures Valid() && Follows(from, longer)
      ensures run == Patch(old(run), To(status)).(version := old(run).version + 1)
    {
      AloneStops(state, worker, elapsed);
      longer := Perform(from, trace, Stop(worker, elapsed));
      run := Patch(run, To(status)).(version := run.version + 1);
    }

    /** The summary call that compaction makes, when it makes one. */
    method MaybeCompact(world: World, ghost from: State, ghost trace: seq<Event>)
      returns (used: nat, compaction: Option<nat>, ghost longer: seq<Event>)
      requires In(Llm(run, None)) && state.steps == steps && SameUsage(state.usage, usage)
      requires run.status.Running? && Follows(from, trace)
      modifies this`state, this`usage
      ensures In(Llm(run, compaction)) && state.steps == steps && SameUsage(state.usage, usage)
      ensures TokensAt(state.usage, compaction) == used && Follows(from, longer)
      ensures used == if world.compaction(run.currentStep).Some? then world.compaction(run.currentStep).value else 0
    {
      var k := run.currentStep;
      longer, compaction, used := trace, None, 0;
      if world.compaction(k).Some? {
        used := world.compaction(k).value;
        compaction := Some(|usage|);
        AloneCompacts(state, worker, used);
        longer := Perform(from, longer, Compact(worker, used));
        usage := usage + [used];
      }
    }

    /** The checkpoint that adopts a skill for the run, when one is chosen. */
    method MaybeAdopt(world: World, ghost compaction: Option<nat>, ghost from: State, ghost trace: seq<Event>)
      returns (ghost longer: seq<Event>)
      requires In(Llm(run, compaction)) && state.steps == steps && SameUsage(state.usage, usage)
      requires run.status.Running? && Follows(from, trace)
      modifies this`state, this`run
      ensures In(Llm(run, compaction)) && state.steps == steps && SameUsage(state.usage, usage)
      ensures state.usage == old(state).usage && Follows(from, longer)
      ensures run == if world.adopts(old(run).currentStep) then old(run).(version := old(run).version + 1) else old(run)
    {
      longer := trace;
      if world.adopts(run.currentStep) {
        AloneAdopts(state, worker, compaction);
        longer := Perform(from, longer, AdoptSkill(worker));
        run := run.(version := run.version + 1);
      }
    }

    /** The checkpoint of a failed LLM call. */
    method FailRun(ghost compaction: Option<nat>, ghost from: State, ghost trace: seq<Event>)
      returns (ghost longer: seq<Event>)
      requires In(Llm(run, compaction)) && state.steps == steps && SameUsage(state.usage, usage)
      requires run.status.Running? && Follows(from, trace)
      modifies this`state, this`run
      ensures Valid() && Follows(from, longer)
      ensures run == old(run).(status := Failed, version := old(run).version + 1)
    {
      AloneLlmFails(state, worker, compaction);
      longer := Perform(from, trace, LlmFails(worker));
      run := Patch(run, To(Failed)).(version := run.version + 1);
    }

    /** An LLM call for an unpersisted step: None when it failed and the run with it. */
    method CallLlm(world: World, ghost from: State, ghost trace: seq<Event>)
      returns (outcome: Option<(StepRow, nat)>, p: Phase, ghost longer: seq<Event>)
      requires In(Llm(run, None)) && state.steps == steps && SameUsage(state.usage, usage)
      requires run.status.Running? && run.currentStep !in steps && Follows(from, trace)
      modifies this
      ensures Follows(from, longer) && asked == old(asked) + [old(run.currentStep)] && steps == old(steps)
      ensures outcome.None? <==> world.reply(old(run.currentStep)).None?
      ensures outcome.None? ==> Valid() && run == Adopted(world, old(run)).(status := Failed, version := run.version)
      ensures outcome.Some? ==>
        && outcome.value.0 == world.reply(old(run.currentStep)).value
        && outcome.value.1 == TokensWith(world, old(run), outcome.value.0)
        && run == Adopted(world, old(run)) && In(p) && state.steps == steps && SameUsage(state.usage, usage)
        && ActsOn(p, run, outcome.value.0, outcome.value.1, true)
    {
      var k := run.currentStep;
      asked := asked + [k];
      var used, compaction;
      used, compaction, longer := MaybeCompact(world, from, trace);
      longer := MaybeAdopt(world, compaction, from, longer);
      if world.reply(k).None? {
        longer := FailRun(compaction, from, longer);
        outcome, p := None, Finishing;
        return;
      }
      p, longer := TakeReply(world.reply(k).value, used, compaction, from, longer);
      outcome := Some((p.step, p.tokens));
    }

    /** The reply is a step to act on, with the tokens of both calls. */
    method TakeReply(step: StepRow, used: nat, compaction: Option<nat>, ghost from: State, ghost trace: seq<Event>)
      returns (p: Phase, ghost longer: seq<Event>)
      requires In(Llm(run, compaction)) && state.steps == steps && SameUsage(state.usage, usage)
      requires TokensAt(state.usage, compaction) == used && run.status.Running? && run.currentStep !in steps
      requires Follows(from, trace)
      modifies this`state
      ensures In(p) && ActsOn(p, run, step, run.tokensUsed + used + step.tokens, true)
      ensures state.steps == steps && SameUsage(state.usage, usage) && Follows(from, longer)
    {
      AloneLlmReplies(state, worker, compaction, step);
      longer := Perform(from, trace, LlmReplies(worker, step));
      p := Acting(run, compaction, step, Uncommitted, run.tokensUsed + used + step.tokens);
    }

    /** The run as the call leaves it: adopting a skill saves one version. */
    static function Adopted(world: World, run: RunRow): RunRow {
      if world.adopts(run.currentStep) then run.(version := run.version + 1) else run
    }

    static predicate ActsOn(p: Phase, run: RunRow, step: StepRow, tokens: nat, isNew: bool) {
      && p.Acting? && p.snap == run && p.step == step && p.tokens == tokens
      && p.reply == if isNew then Uncommitted else Replayed
    }

    /** The tool calls of a step: the first commit of the executor makes the step durable,
        and a call that unlocks a tool or a skill saves a version. */
    method ExecuteCalls(world: World, step: StepRow, p: Phase, ghost from: State, ghost trace: seq<Event>)
      returns (q: Phase, ghost longer: seq<Event>)
      requires In(p) && CallsAllowed(p) && p.snap == run && p.step == step && !p.reply.Recorded?
      requires run.status.Running? && state.steps == steps && SameUsage(state.usage, usage) && Follows(from, trace)
      modifies this`run, this`state, this`steps, this`usage
      ensures In(q) && q.Acting? && q.snap == run && q.step == step && q.tokens == p.tokens && !q.reply.Uncommitted?
      ensures state.steps == steps && SameUsage(state.usage, usage) && Follows(from, longer)
      ensures old(run).version <= run.version && run == old(run).(version := run.version)
      ensures steps == if p.reply.Uncommitted? then old(steps)[old(run.currentStep) := step] else old(steps)
    {
      q, longer := p, trace;
      if p.reply.Uncommitted? {
        q, longer := CommitStep(step, p, from, longer);
      }
      q, longer := UnlockTools(world, step, q, from, longer);
    }

    method CommitStep(step: StepRow, p: Phase, ghost from: State, ghost trace: seq<Event>)
      returns (q: Phase, ghost longer: seq<Event>)
      requires In(p) && CallsAllowed(p) && p.snap == run && p.step == step && p.reply.Uncommitted?
      requires run.status.Running? && state.steps == steps && SameUsage(state.usage, usage) && Follows(from, trace)
      modifies this`state, this`steps, this`usage
      ensures In(q) && q == Acting(run, p.compaction, step, Recorded(|old(usage)|), p.tokens)
      ensures state.steps == steps && SameUsage(state.usage, usage) && Follows(from, longer)
      ensures steps == old(steps)[run.currentStep := step]
    {
      AloneCommits(state, worker, p);
      q := Acting(run, p.compaction, step, Recorded(|usage|), p.tokens);
      longer := Perform(from, trace, CommitCall(worker));
      steps := steps[run.currentStep := step];
      usage := usage + [step.tokens];
    }

    method UnlockTools(world: World, step: StepRow, p: Phase, ghost from: State, ghost trace: seq<Event>)
      returns (q: Phase, ghost longer: seq<Event>)
      requires In(p) && CallsAllowed(p) && p.snap == run && p.step == step && !p.reply.Uncommitted?
      requires run.status.Running? && state.steps == steps && SameUsage(state.usage, usage) && Follows(from, trace)
      modifies this`run, this`state
      ensures In(q) && q == Acting(run, p.compaction, step, p.reply, p.tokens)
      ensures state.steps == steps && SameUsage(state.usage, usage) && Follows(from, longer)
      ensures old(run).version <= run.version && run == old(run).(version := run.version)
    {
      longer, q := trace, p;
      for i := 0 to |step.calls|
        invariant In(q) && CallsAllowed(q) && q == Acting(run, p.compaction, step, p.reply, p.tokens)
        invariant run.status.Running? && Follows(from, longer)
        invariant state.steps == steps && SameUsage(state.usage, usage)
        invariant old(run).version <= run.version && run == old(run).(version := run.version)
      {
        if world.unlocks(run.currentStep, i, step.calls[i]) {
          AloneUnlocks(state, worker, q);
          longer := Perform(from, longer, UnlockTool(worker));
          run := run.(version := run.version + 1);
          q := Acting(run, q.compaction, step, q.reply, q.tokens);
        }
      }
    }

    /** The checkpoint that ends a step, in the database and in the protocol. */
    method SaveStep(p: Phase, tiers: seq<Option<RiskTier>>, limit: nat, controls: seq<CallControl>, u: Update,
                    ghost from: State, ghost trace: seq<Event>)
      returns (ghost longer: seq<Event>)
      requires In(p) && p.Acting? && p.snap == run
      requires run.status.Running? && state.steps == steps && SameUsage(state.usage, usage)
      requires |tiers| == |p.step.calls| && limit > 0 && Honest(tiers, controls) && Follows(from, trace)
      requires u == EndOfStep(run, |p.step.calls|, p.tokens, BatchOf(tiers, limit, controls))
      modifies this`run, this`state, this`steps, this`usage
      ensures Valid() && Follows(from, longer)
      ensures run == Patch(old(run), u).(version := old(run).version + 1)
      ensures steps == if p.reply.Uncommitted? then old(steps)[old(run.currentStep) := p.step] else old(steps)
    {
      AloneEndsStep(state, worker, p, tiers, limit, controls);
      longer := Perform(from, trace, EndStep(worker, tiers, limit, controls));
      if p.reply.Uncommitted? {
        steps := steps[run.currentStep := p.step];
        usage := usage + [p.step.tokens];
      }
      run := Patch(run, u).(version := run.version + 1);
    }

    /** The tool calls, when the budgets let them run, and the checkpoint of the step. */
    method FinishStep(world: World, step: StepRow, tokens: nat, isNew: bool, p: Phase,
                      ghost from: State, ghost trace: seq<Event>)
      returns (ghost longer: seq<Event>)
      requires In(p) && ActsOn(p, run, step, tokens, isNew)
      requires run.status.Running? && state.steps == steps && SameUsage(state.usage, usage)
      requires HonestWorld(world) && Follows(from, trace)
      modifies this`run, this`state, this`steps, this`usage
      ensures Valid() && Follows(from, longer) && old(run).version < run.version
      ensures run == Patch(old(run), StepUpdate(world, old(run), step, tokens)).(version := run.version)
      ensures StepEnds(world, old(run), step, tokens, run)
      ensures run.status.Running? ==> run.currentStep == old(run.currentStep) + 1
      ensures !run.status.Pending? && run.maxSteps == old(run.maxSteps)
      ensures steps == if isNew then old(steps)[old(run.currentStep) := step] else old(steps)
    {
      longer := RunStep(world, step, tokens, isNew, p, from, trace);
      StepUpdateEnds(world, old(run), step, tokens, run);
    }

    method RunStep(world: World, step: StepRow, tokens: nat, isNew: bool, p: Phase,
                   ghost from: State, ghost trace: seq<Event>)
      returns (ghost longer: seq<Event>)
      requires In(p) && ActsOn(p, run, step, tokens, isNew)
      requires run.status.Running? && state.steps == steps && SameUsage(state.usage, usage)
      requires HonestWorld(world) && Follows(from, trace)
      modifies this`run, this`state, this`steps, this`usage
      ensures Valid() && Follows(from, longer) && old(run).version < run.version
      ensures run == Patch(old(run), StepUpdate(world, old(run), step, tokens)).(version := run.version)
      ensures steps == if isNew then old(steps)[old(run.currentStep) := step] else old(steps)
    {
      var tiers, controls := Tiers(world, step.calls), Controls(world, run.currentStep, step.calls);
      HonestControls(world, run.currentStep, step.calls);
      var batch, q := AllProceeded, p;
      longer := trace;
      if tokens <= run.tokenBudget && step.calls != [] && run.toolCallsUsed + |step.calls| <= run.maxToolCalls {
        q, longer := ExecuteCalls(world, step, p, from, longer);
        batch := ProcessToolCalls(tiers, world.limit, controls);
      }
      var u := EndOfStep(run, |step.calls|, tokens, batch);
      longer := SaveStep(q, tiers, world.limit, controls, u, from, longer);
    }

    /** One step: it ends the run, parks it, or advances it by one. The LLM is asked
        only for a step that is not persisted, and a persisted step is replayed. */
    method ExecuteStep(world: World, ghost from: State, ghost trace: seq<Event>) returns (ghost longer: seq<Event>)
      requires Valid() && run.status.Running? && HonestWorld(world) && Follows(from, trace)
      modifies this
      ensures Valid() && Follows(from, longer)
      ensures run.maxSteps == old(run.maxSteps) && !run.status.Pending?
      ensures run.status.Running? ==> run.currentStep == old(run.currentStep) + 1 <= run.maxSteps
      ensures asked == old(asked)
              || (asked == old(asked) + [old(run.currentStep)]
                  && old(run.currentStep) !in old(steps) && old(run.currentStep) < run.maxSteps)
      ensures Keeps(old(steps), steps)
      ensures forall k :: k in steps && k != old(run.currentStep) ==> k in old(steps)
      ensures Turns(world, old(steps), old(run), run)
    {
      var k := run.currentStep;
      var violation := Guard(run, world.elapsed(k));
      if violation.Some? {
        longer := StopRun(violation.value, world.elapsed(k), from, trace);
        return;
      }
      AloneObserves(state, worker);
      longer := Perform(from, trace, Observe(worker));
      if k in steps {
        longer := FinishStep(world, steps[k], run.tokensUsed, false,
          Acting(run, None, steps[k], Replayed, run.tokensUsed), from, longer);
        return;
      }
      var outcome, p;
      outcome, p, longer := CallLlm(world, from, longer);
      if outcome.Some? {
        longer := FinishStep(world, outcome.value.0, outcome.value.1, true, p, from, longer);
      }
    }

    /** A pending run is marked running. */
    method BeginRun() returns (ghost trace: seq<Event>)
      requires Valid()
      modifies this`run, this`state
      ensures Valid() && ValidTrace(old(state), trace) && Run(old(state), trace) == state
      ensures run == if old(run.status.Pending?) then old(run).(status := Running, version := old(run).version + 1) else old(run)
    {
      trace := [];
      if run.status.Pending? {
        AloneBegins(state, worker);
        trace := Perform(state, trace, Begin(worker));
        run := Patch(run, To(Running)).(version := run.version + 1);
      }
    }

    /** One step more, and the row it leaves. */
    method TakeTurn(world: World, ghost first: map<nat, StepRow>, ghost rows: seq<RunRow>, ghost from: State, ghost trace: seq<Event>)
      returns (ghost longer: seq<Event>, ghost more: seq<RunRow>)
      requires Valid() && run.status.Running? && HonestWorld(world) && Follows(from, trace)
      requires Keeps(first, steps) && GrowsBelow(first, steps, run.currentStep)
      requires rows != [] && rows[|rows| - 1] == run && Path(world, first, rows)
      modifies this
      ensures Valid() && Follows(from, longer)
      ensures run.maxSteps == old(run.maxSteps) && !run.status.Pending?
      ensures run.status.Running? ==> run.currentStep == old(run.currentStep) + 1 <= run.maxSteps
      ensures asked == old(asked)
              || (asked == old(asked) + [old(run.currentStep)]
                  && old(run.currentStep) !in first && old(run.currentStep) < run.maxSteps)
      ensures Keeps(first, steps) && (run.status.Running? ==> GrowsBelow(first, steps, run.currentStep))
      ensures more == rows + [run] && Path(world, first, more)
    {
      longer := ExecuteStep(world, from, trace);
      TurnsOnKnownSteps(world, first, old(steps), old(run), run);
      more := rows + [run];
    }

    /** The whole loop: it ends because a step that leaves the run running advances it. */
    method RunUntilBlocked(world: World) returns (ghost trace: seq<Event>, ghost rows: seq<RunRow>)
      requires Valid() && Inv(state) && HonestWorld(world)
      modifies this
      ensures Valid() && Inv(state) && ValidTrace(old(state), trace) && Run(old(state), trace) == state
      ensures !run.status.Running? && !run.status.Pending?
      ensures rows != [] && rows[|rows| - 1] == run && Path(world, old(steps), rows)
      ensures rows[0] == if old(run.status.Pending?) then old(run).(status := Running, version := old(run).version + 1) else old(run)
      ensures Keeps(old(steps), steps)
      ensures AskedOnlyAbsent(old(asked), asked, old(steps), old(run.currentStep), old(run.maxSteps))
    {
      ghost var from := state;
      trace := BeginRun();
      rows := [run];
      ghost var first := run;
      while run.status.Running?
        invariant Valid() && Follows(from, trace)
        invariant rows != [] && rows[0] == first && rows[|rows| - 1] == run && Path(world, old(steps), rows)
        invariant run.status.Running? ==> GrowsBelow(old(steps), steps, run.currentStep)
        invariant !run.status.Pending? && run.maxSteps == old(run.maxSteps)
        invariant run.status.Running? ==> old(run.currentStep) <= run.currentStep
        invariant Keeps(old(steps), steps)
        invariant AskedOnlyAbsent(old(asked), asked, old(steps), old(run.currentStep), old(run.maxSteps))
        invariant run.status.Running? ==> AskedBelow(old(asked), asked, run.currentStep)
        decreases if run.status.Running? then 1 else 0, run.maxSteps - run.currentStep
      {
        ghost var before, k := asked, run.currentStep;
        trace, rows := TakeTurn(world, old(steps), rows, from, trace);
        if asked != before { AsksOneMore(old(asked), before, old(steps), old(run.currentStep), run.maxSteps, k); }
      }
      RunsKeepInv(from, trace);
    }
  }

  /** The loop ends at its first row that is not running, and the steps count up to it. */
  lemma {:induction false} PathCountsUp(world: World, steps: map<nat, StepRow>, rows: seq<RunRow>, i: nat)
    requires Path(world, steps, rows) && i < |rows| && rows[i].status.Running?
    ensures rows[i].currentStep == rows[0].currentStep + i
    ensures SameTerms(rows[0], rows[i])
  {
    if i > 0 {
      assert Turns(world, steps, rows[i - 1], rows[i]);
      PathCountsUp(world, steps, rows, i - 1);
    }
  }

  /** A run left alone ends cancelled exactly if its cancellation was asked for, and then
      nothing else happens to it. */
  lemma CancelledExactlyWhenRequested(world: World, steps: map<nat, StepRow>, rows: seq<RunRow>)
    requires Path(world, steps, rows) && |rows| > 1 && !rows[|rows| - 1].status.Running?
    ensures rows[|rows| - 1].status.Cancelled? <==> rows[0].cancelRequested
    ensures rows[0].cancelRequested ==> |rows| == 2 && SameCounters(rows[0], rows[1])
  {
    var n := |rows| - 1;
    assert Turns(world, steps, rows[n - 1], rows[n]) && Turns(world, steps, rows[0], rows[1]);
    PathCountsUp(world, steps, rows, n - 1);
  }

  predicate Keeps(a: map<nat, StepRow>, b: map<nat, StepRow>) {
    forall k :: k in a ==> k in b && b[k] == a[k]
  }

  /** What was added is below `k`. */
  predicate GrowsBelow(a: map<nat, StepRow>, b: map<nat, StepRow>, k: nat) {
    forall j :: j in b && j >= k ==> j in a
  }

  lemma TurnsOnKnownSteps(world: World, a: map<nat, StepRow>, b: map<nat, StepRow>, before: RunRow, after: RunRow)
    requires Turns(world, b, before, after)
    requires before.currentStep in a <==> before.currentStep in b
    requires before.currentStep in a && before.currentStep in b ==> a[before.currentStep] == b[before.currentStep]
    ensures Turns(world, a, before, after)
  {}

  predicate AskedBelow(before: seq<nat>, after: seq<nat>, k: nat) {
    forall i :: |before| <= i < |after| ==> after[i] < k
  }

  lemma AsksOneMore(before: seq<nat>, asked: seq<nat>, steps: map<nat, StepRow>, first: nat, limit: int, k: nat)
    requires AskedOnlyAbsent(before, asked, steps, first, limit) && AskedBelow(before, asked, k)
    requires k !in steps && first <= k < limit
    ensures AskedOnlyAbsent(before, asked + [k], steps, first, limit) && AskedBelow(before, asked + [k], k + 1)
  {}

  /** The LLM calls made: one each, for unpersisted steps within the limit. */
  predicate AskedOnlyAbsent(before: seq<nat>, after: seq<nat>, steps: map<nat, StepRow>, first: nat, limit: int) {
    && before <= after
    && (forall i :: |before| <= i < |after| ==> after[i] !in steps && first <= after[i] < limit)
    && (forall i, j :: |before| <= i < j < |after| ==> after[i] < after[j])
  }
}
