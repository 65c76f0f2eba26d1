/** The run protocol and the tool protocol over one database.

    A worker acting on a step executes its calls through the tool executor; the
    executor's first commit is also the commit of the step row the session still
    holds. Every run of the product is a run of both protocols, so their theorems
    hold of it; what is proved here beyond them ties tool rows, approvals and
    effects to the steps they belong to. */
module DurableSystem {
  import opened Domain
  import opened ToolExecutor
  import P = RunProtocol
  import I = RunInvariants
  import R = RunTheorems
  import B = RunBudgets
  import S = EngineStep
  import T = ToolProtocol
  import D = RunRepository

  /** `schemaOf` is the fixed registry: the argument schema of every tool name. */
  datatype Config = Config(env: Env, schemaOf: string -> string)

  /** `owner` names the worker whose session each execution runs in. */
  datatype State = State(run: P.State, tools: T.State, owner: map<nat, nat>)

  datatype Event =
    | RunEvent(e: P.Event)
    | Execute(worker: nat, index: nat, tool: Option<Tool>)
    | ToolStep(task: nat, answer: Answer)
    | Decide(key: Key, decision: Decision, reason: Option<string>)

  predicate Executing(s: State, a: nat) {
    a in s.run.actors && s.run.actors[a].Acting? && P.CallsAllowed(s.run.actors[a])
  }

  /** A tool of an approval tier is the registered one, deferred or not. The
      placeholder for a name outside the registry is read-only. */
  predicate Registered(c: Config, name: string, tool: Option<Tool>) {
    tool.Some? && RequiresApproval(tool.value.tier) ==> tool.value.schema == c.schemaOf(name)
  }

  /** Execution `t` is worker `a`'s for call `index` and came back asking for approval. */
  predicate AsksApproval(s: State, t: nat, a: nat, index: nat) {
    && t in s.tools.tasks && t in s.owner && s.owner[t] == a
    && s.tools.tasks[t].key.index == index
    && s.tools.tasks[t].stage.Done? && s.tools.tasks[t].stage.outcome.needsApproval
  }

  /** A step ends when its executions have, and waits only when one of them asked to. */
  ghost predicate StepMayEnd(s: State, a: nat, controls: seq<S.CallControl>) {
    && (forall t :: t in s.tools.tasks && t in s.owner && s.owner[t] == a ==> Finished(s.tools.tasks[t].stage))
    && (forall i: nat :: i < |controls| && controls[i].AwaitApproval? && Executing(s, a) ==>
          exists t: nat :: AsksApproval(s, t, a, i))
  }

  ghost predicate Enabled(c: Config, s: State, e: Event) {
    match e
    case RunEvent(e) => P.Enabled(s.run, e) && !e.CommitCall? && (e.EndStep? ==> StepMayEnd(s, e.a, e.controls))
    case Execute(a, index, tool) =>
      && Executing(s, a) && index < |s.run.actors[a].step.calls|
      && Registered(c, s.run.actors[a].step.calls[index].name, tool)
    case ToolStep(t, answer) => T.Enabled(s.tools, T.Step(t, answer)) && t in s.owner && Executing(s, s.owner[t])
    case Decide(key, decision, reason) => T.Enabled(s.tools, T.Decide(key, decision, reason))
  }

  /** The executions of workers that have stopped acting: they die with the session. */
  function Orphans(tools: T.State, owner: map<nat, nat>, run: P.State): set<nat> {
    set t | t in tools.tasks && (t !in owner || owner[t] !in run.actors || !run.actors[owner[t]].Acting?)
  }

  function Drop(tools: T.State, dead: set<nat>): T.State {
    tools.(tasks := tools.tasks - dead)
  }

  ghost function Next(c: Config, s: State, e: Event): State
    requires Enabled(c, s, e)
  {
    match e
    case RunEvent(e) =>
      var run := P.Next(s.run, e);
      State(run, Drop(s.tools, Orphans(s.tools, s.owner, run)), s.owner)
    case Execute(a, index, tool) =>
      var p := s.run.actors[a];
      var key := Key(p.snap.currentStep, index);
      State(s.run, T.Next(c.env, s.tools, T.Spawn(key, p.step.calls[index], tool)), s.owner[s.tools.next := a])
    case ToolStep(t, answer) =>
      var tools := T.Next(c.env, s.tools, T.Step(t, answer));
      State(if tools.db == s.tools.db then s.run else P.Next(s.run, P.CommitCall(s.owner[t])), tools, s.owner)
    case Decide(key, decision, reason) =>
      State(s.run, T.Next(c.env, s.tools, T.Decide(key, decision, reason)), s.owner)
  }

  function Initial(row: D.RunRow): State {
    State(P.Initial(row), T.Initial, map[])
  }

  ghost predicate ValidTrace(c: Config, s: State, trace: seq<Event>)
    decreases |trace|
  {
    trace == [] || (Enabled(c, s, trace[0]) && ValidTrace(c, Next(c, s, trace[0]), trace[1..]))
  }

  ghost function Run(c: Config, s: State, trace: seq<Event>): State
    requires ValidTrace(c, s, trace)
    decreases |trace|
  {
    if trace == [] then s else Run(c, Next(c, s, trace[0]), trace[1..])
  }

  // ------------------------------------------------------------ invariants

  /** The key names a call of a persisted step. */
  predicate Persisted(s: State, key: Key) {
    key.step in s.run.steps && key.index < |s.run.steps[key.step].calls|
  }

  function Normal(c: Config, call: Call): Validation {
    c.env.normalize(c.schemaOf(call.name), call.arguments)
  }

  /** The arguments are the normalized ones of the persisted call. */
  predicate NormalArgs(c: Config, s: State, key: Key, args: string) {
    Persisted(s, key) && Normal(c, s.run.steps[key.step].calls[key.index]) == Valid(args)
  }

  /** The row an execution carries towards its gate or its insertion. */
  predicate CarriesNormalArgs(c: Config, task: Task) {
    task.stage.Gate? || task.stage.Request? || task.stage.InsertStarted? ==>
      && (!task.stage.InsertStarted? ==> RequiresApproval(task.stage.row.tier))
      && (RequiresApproval(task.stage.row.tier) ==> Normal(c, task.call) == Valid(task.stage.row.args))
  }

  predicate AsksOnlyRecorded(db: Database, task: Task) {
    && (task.stage.InsertFailed? ==> !task.stage.outcome.needsApproval)
    && (task.stage.Done? && task.stage.outcome.needsApproval ==> task.key in db.approvals)
  }

  ghost predicate TaskOk(c: Config, s: State, t: nat)
    requires t in s.tools.tasks
  {
    var task := s.tools.tasks[t];
    && t in s.owner && Executing(s, s.owner[t])
    && var p := s.run.actors[s.owner[t]];
       && task.key.step == p.snap.currentStep && task.key.index < |p.step.calls|
       && task.call == p.step.calls[task.key.index]
       && Registered(c, task.call.name, task.tool)
       && CarriesNormalArgs(c, task) && AsksOnlyRecorded(s.tools.db, task)
  }

  /** The tool tables, tied to the steps. */
  ghost predicate TablesOk(c: Config, s: State) {
    && (forall key :: key in s.tools.db.rows ==> Persisted(s, key))
    && (forall key :: key in s.tools.db.approvals ==> NormalArgs(c, s, key, s.tools.db.approvals[key].args))
    && (forall t, key :: T.Inserted(t, key, true) in s.tools.history && key in s.tools.db.rows ==>
          RequiresApproval(s.tools.db.rows[key].tier) ==> NormalArgs(c, s, key, s.tools.db.rows[key].args))
    && (forall t, key, d :: T.ReadDecision(t, key, d) in s.tools.history ==> key in s.tools.db.approvals)
  }

  /** A run parked for an approval has a request to decide, for its first call. */
  predicate ParkedOk(s: State) {
    s.run.row.status.WaitingApproval? ==> Key(s.run.row.currentStep, 0) in s.tools.db.approvals
  }

  ghost predicate Inv(c: Config, s: State) {
    && I.Inv(s.run) && T.Inv(s.tools)
    && (forall t :: t in s.tools.tasks ==> TaskOk(c, s, t))
    && TablesOk(c, s) && ParkedOk(s)
  }

  // ------------------------------------------------ events of the run alone

  lemma DropKeepsToolInv(tools: T.State, dead: set<nat>)
    requires T.Inv(tools)
    ensures T.Inv(Drop(tools, dead))
  {
    var t := Drop(tools, dead);
    forall u | u in t.tasks
      ensures T.TaskOk(t, u)
    {
      assert T.TaskOk(tools, u);
    }
  }

  /** Persisted steps never change, so what is tied to them stays tied. */
  lemma TablesAreStable(c: Config, s: State, t: State)
    requires TablesOk(c, s) && B.StepsStay(s.run, t.run)
    requires t.tools.db == s.tools.db && t.tools.history == s.tools.history
    ensures TablesOk(c, t)
  {}

  /** The same step, from a snapshot with the same counters and limits. */
  predicate SameWork(p: P.Phase, q: P.Phase)
    requires p.Acting? && q.Acting?
  {
    && q.step == p.step && q.tokens == p.tokens
    && q.snap.currentStep == p.snap.currentStep && q.snap.tokenBudget == p.snap.tokenBudget
    && q.snap.toolCallsUsed == p.snap.toolCallsUsed && q.snap.maxToolCalls == p.snap.maxToolCalls
  }

  lemma OwnActingGoesOn(s: P.State, e: P.Event)
    requires I.Inv(s) && P.Enabled(s, e) && !e.CommitCall? && !e.Tick? && e.a in s.actors && s.actors[e.a].Acting?
    requires e.a in P.Next(s, e).actors && P.Next(s, e).actors[e.a].Acting?
    ensures SameWork(s.actors[e.a], P.Next(s, e).actors[e.a])
  {
    if e.UnlockTool? {
      assert I.PhaseOk(s, e.a, s.actors[e.a]);
      if s.actors[e.a].snap.version == s.row.version { I.CurrentSnapshot(s, s.actors[e.a].snap); }
    }
  }

  /** A worker that goes on acting goes on with the same work. */
  lemma ActingGoesOn(s: P.State, e: P.Event, a: nat)
    requires I.Inv(s) && P.Enabled(s, e) && !e.CommitCall?
    requires a in s.actors && s.actors[a].Acting?
    requires a in P.Next(s, e).actors && P.Next(s, e).actors[a].Acting?
    ensures SameWork(s.actors[a], P.Next(s, e).actors[a])
  {
    if e.Tick? || e.a != a {
      R.VersionMoves(s, e);
    } else {
      OwnActingGoesOn(s, e);
    }
  }

  lemma RunEventKeepsTasks(c: Config, s: State, e: P.Event, t: nat)
    requires Inv(c, s) && Enabled(c, s, RunEvent(e))
    requires t in Next(c, s, RunEvent(e)).tools.tasks
    ensures TaskOk(c, Next(c, s, RunEvent(e)), t)
  {
    assert TaskOk(c, s, t);
    ActingGoesOn(s.run, e, s.owner[t]);
  }

  /** Only the end of a step parks a run, and a parked run keeps its step. */
  lemma OnlyStepsPark(s: P.State, e: P.Event)
    requires P.Enabled(s, e) && !e.EndStep? && P.Next(s, e).row.status.WaitingApproval?
    ensures s.row.status.WaitingApproval? && P.Next(s, e).row.currentStep == s.row.currentStep
  {}

  lemma StepParks(s: P.State, e: P.Event)
    requires I.Inv(s) && P.Enabled(s, e) && e.EndStep? && P.Next(s, e).row.status.WaitingApproval?
    ensures
      var p := s.actors[e.a];
      || P.Next(s, e).row == s.row
      || (P.CallsAllowed(p) && |e.controls| > 0 && e.controls[0].AwaitApproval?
          && P.Next(s, e).row.currentStep == p.snap.currentStep)
  {
    var p := s.actors[e.a];
    assert I.PhaseOk(s, e.a, p);
    S.BatchControl(e.tiers, e.limit, e.controls);
    if p.snap.version == s.row.version { I.CurrentSnapshot(s, p.snap); }
  }

  lemma RunEventKeepsParked(c: Config, s: State, e: P.Event)
    requires Inv(c, s) && Enabled(c, s, RunEvent(e))
    ensures ParkedOk(Next(c, s, RunEvent(e)))
  {
    if P.Next(s.run, e).row.status.WaitingApproval? {
      if e.EndStep? {
        StepParks(s.run, e);
        if P.Next(s.run, e).row != s.run.row {
          assert Executing(s, e.a);
          var t: nat :| AsksApproval(s, t, e.a, 0);
          assert TaskOk(c, s, t);
        }
      } else {
        OnlyStepsPark(s.run, e);
      }
    }
  }

  lemma RunEventKeepsInv(c: Config, s: State, e: P.Event)
    requires Inv(c, s) && Enabled(c, s, RunEvent(e))
    ensures Inv(c, Next(c, s, RunEvent(e)))
  {
    var t := Next(c, s, RunEvent(e));
    I.InvIsPreserved(s.run, e);
    DropKeepsToolInv(s.tools, Orphans(s.tools, s.owner, t.run));
    B.EventKeepsSteps(s.run, e);
    TablesAreStable(c, s, t);
    RunEventKeepsParked(c, s, e);
    forall u | u in t.tools.tasks
      ensures TaskOk(c, t, u)
    {
      RunEventKeepsTasks(c, s, e, u);
    }
  }

  // ------------------------------------------------------ events with tools

  lemma ExecuteKeepsInv(c: Config, s: State, e: Event)
    requires Inv(c, s) && Enabled(c, s, e) && e.Execute?
    ensures Inv(c, Next(c, s, e))
  {
    var t := Next(c, s, e);
    var p := s.run.actors[e.worker];
    T.InvIsPreserved(c.env, s.tools, T.Spawn(Key(p.snap.currentStep, e.index), p.step.calls[e.index], e.tool));
    forall u | u in t.tools.tasks
      ensures TaskOk(c, t, u)
    {
      if u in s.tools.tasks { assert TaskOk(c, s, u) && T.TaskOk(s.tools, u); }
    }
    TablesAreStable(c, s, t);
  }

  /** An approval changes its decision and nothing else. */
  lemma DecideKeepsInv(c: Config, s: State, e: Event)
    requires Inv(c, s) && Enabled(c, s, e) && e.Decide?
    ensures Inv(c, Next(c, s, e))
  {
    var t := Next(c, s, e);
    T.InvIsPreserved(c.env, s.tools, T.Decide(e.key, e.decision, e.reason));
    forall u | u in t.tools.tasks
      ensures TaskOk(c, t, u)
    {
      assert TaskOk(c, s, u);
    }
    assert forall key :: key in t.tools.db.approvals ==>
      key in s.tools.db.approvals && t.tools.db.approvals[key].args == s.tools.db.approvals[key].args;
  }

  predicate SameStep(p: P.Phase, q: P.Phase) {
    p.Acting? ==> q.Acting? && q == P.Acting(p.snap, p.compaction, p.step, q.reply, p.tokens)
  }

  /** Worker `a`'s step has become durable, and nothing else has changed for the workers. */
  ghost predicate Persists(s: P.State, t: P.State, a: nat)
    requires a in s.actors && s.actors[a].Acting?
  {
    var p := s.actors[a];
    && I.Inv(t) && B.StepsStay(s, t) && t.row == s.row
    && p.snap.currentStep in t.steps && t.steps[p.snap.currentStep] == p.step
    && (forall b :: b in s.actors ==> b in t.actors && SameStep(s.actors[b], t.actors[b]))
  }

  /** The first commit of an execution makes its worker's step durable. */
  lemma CommitPersists(s: P.State, a: nat)
    requires I.Inv(s) && P.Enabled(s, P.CommitCall(a))
    ensures Persists(s, P.Next(s, P.CommitCall(a)), a)
  {
    I.InvIsPreserved(s, P.CommitCall(a));
    B.EventKeepsSteps(s, P.CommitCall(a));
    assert I.PhaseOk(s, a, s.actors[a]);
  }

  /** What one stage does to the tables, as far as the steps are concerned. */
  ghost predicate Writes(c: Config, db: Database, db': Database, task: Task) {
    && (forall key :: key in db'.rows && key !in db.rows ==> key == task.key)
    && (forall key :: key in db.approvals ==> key in db'.approvals && db'.approvals[key] == db.approvals[key])
    && (forall key :: key in db'.approvals && key !in db.approvals ==>
          key == task.key && Normal(c, task.call) == Valid(db'.approvals[key].args))
  }

  lemma StageWrites(c: Config, db: Database, task: Task, answer: Answer)
    requires !Finished(task.stage) && WellFormed(task)
    requires Registered(c, task.call.name, task.tool) && CarriesNormalArgs(c, task) && AsksOnlyRecorded(db, task)
    ensures
      var (db', stage) := Advance(c.env, db, task, answer);
      && Writes(c, db, db', task)
      && CarriesNormalArgs(c, task.(stage := stage)) && AsksOnlyRecorded(db', task.(stage := stage))
  {}

  /** What one stage of execution `t` adds to the history. */
  ghost predicate Records(c: Config, s: State, s': State, task: Task) {
    && (forall u, key, d :: T.ReadDecision(u, key, d) in s'.tools.history ==>
          T.ReadDecision(u, key, d) in s.tools.history || key in s.tools.db.approvals)
    && (forall u, key :: T.Inserted(u, key, true) in s'.tools.history ==>
          || T.Inserted(u, key, true) in s.tools.history
          || (key == task.key && InsertedNormal(c, s, s', task)))
  }

  predicate InsertedNormal(c: Config, s: State, s': State, task: Task) {
    && s'.tools.db != s.tools.db && task.key in s'.tools.db.rows
    && (RequiresApproval(s'.tools.db.rows[task.key].tier) ==>
          Normal(c, task.call) == Valid(s'.tools.db.rows[task.key].args))
  }

  lemma StageRecords(c: Config, s: State, t: nat, answer: Answer)
    requires Enabled(c, s, ToolStep(t, answer)) && TaskOk(c, s, t) && T.TaskOk(s.tools, t)
    ensures Records(c, s, Next(c, s, ToolStep(t, answer)), s.tools.tasks[t])
  {
    var task := s.tools.tasks[t];
    var s' := Next(c, s, ToolStep(t, answer));
    if task.stage.InsertStarted? && task.key !in s.tools.db.rows {
      assert s'.tools.db.rows[task.key] == task.stage.row;
    }
  }

  /** One stage of execution `t`, as seen from the run: a change of the tables has made
      the worker's step durable. */
  ghost predicate RunMoves(s: State, s': State, t: nat)
    requires t in s.tools.tasks
  {
    var task := s.tools.tasks[t];
    && s'.owner == s.owner && B.StepsStay(s.run, s'.run)
    && (forall a :: a in s.run.actors ==> a in s'.run.actors && SameStep(s.run.actors[a], s'.run.actors[a]))
    && (s'.tools.db != s.tools.db ==>
          Persisted(s', task.key) && s'.run.steps[task.key.step].calls[task.key.index] == task.call)
  }

  /** And as seen from the tables. */
  ghost predicate TablesMove(c: Config, s: State, s': State, t: nat)
    requires t in s.tools.tasks
  {
    var task := s.tools.tasks[t];
    && t in s'.tools.tasks && s'.tools.tasks == s.tools.tasks[t := task.(stage := s'.tools.tasks[t].stage)]
    && CarriesNormalArgs(c, s'.tools.tasks[t]) && AsksOnlyRecorded(s'.tools.db, s'.tools.tasks[t])
    && Writes(c, s.tools.db, s'.tools.db, task)
    && (forall key :: key in s.tools.db.rows ==>
          key in s'.tools.db.rows && T.Identity(s.tools.db.rows[key], s'.tools.db.rows[key]))
    && Records(c, s, s', task)
  }

  lemma PersistingMoves(c: Config, s: State, s': State, t: nat)
    requires t in s.tools.tasks && TaskOk(c, s, t) && s'.owner == s.owner && Persists(s.run, s'.run, s.owner[t])
    ensures RunMoves(s, s', t)
  {}

  lemma StageMovesRun(c: Config, s: State, t: nat, answer: Answer)
    requires I.Inv(s.run) && Enabled(c, s, ToolStep(t, answer)) && TaskOk(c, s, t)
    ensures
      var s' := Next(c, s, ToolStep(t, answer));
      RunMoves(s, s', t) && I.Inv(s'.run) && s'.run.row == s.run.row
  {
    var s' := Next(c, s, ToolStep(t, answer));
    if s'.tools.db != s.tools.db {
      CommitPersists(s.run, s.owner[t]);
      PersistingMoves(c, s, s', t);
    }
  }

  lemma StageMovesTables(c: Config, s: State, t: nat, answer: Answer)
    requires Inv(c, s) && Enabled(c, s, ToolStep(t, answer))
    ensures TablesMove(c, s, Next(c, s, ToolStep(t, answer)), t)
  {
    assert TaskOk(c, s, t) && T.TaskOk(s.tools, t);
    T.StepKeepsRows(c.env, s.tools, t, answer);
    StageWrites(c, s.tools.db, s.tools.tasks[t], answer);
    StageRecords(c, s, t, answer);
  }

  lemma MovesKeepTables(c: Config, s: State, s': State, t: nat)
    requires TablesOk(c, s) && T.RowsAreBorn(s.tools)
    requires t in s.tools.tasks && RunMoves(s, s', t) && TablesMove(c, s, s', t)
    ensures TablesOk(c, s')
  {
    var task := s.tools.tasks[t];
    assert forall key :: key in s'.tools.db.rows && key !in s.tools.db.rows ==> s'.tools.db != s.tools.db;
    assert forall key :: key in s'.tools.db.approvals && key !in s.tools.db.approvals ==> s'.tools.db != s.tools.db;
    forall u, key | T.Inserted(u, key, true) in s'.tools.history && key in s'.tools.db.rows
      ensures RequiresApproval(s'.tools.db.rows[key].tier) ==> NormalArgs(c, s', key, s'.tools.db.rows[key].args)
    {
      if T.Inserted(u, key, true) in s.tools.history {
        assert key in s.tools.db.rows;
      }
    }
  }

  lemma MovesKeepTask(c: Config, s: State, s': State, t: nat, u: nat)
    requires t in s.tools.tasks && u in s.tools.tasks && TaskOk(c, s, t) && TaskOk(c, s, u)
    requires RunMoves(s, s', t) && TablesMove(c, s, s', t)
    ensures TaskOk(c, s', u)
  {}

  lemma ToolStepKeepsInv(c: Config, s: State, t: nat, answer: Answer)
    requires Inv(c, s) && Enabled(c, s, ToolStep(t, answer))
    ensures Inv(c, Next(c, s, ToolStep(t, answer)))
  {
    var s' := Next(c, s, ToolStep(t, answer));
    T.InvIsPreserved(c.env, s.tools, T.Step(t, answer));
    assert TaskOk(c, s, t);
    StageMovesRun(c, s, t, answer);
    StageMovesTables(c, s, t, answer);
    MovesKeepTables(c, s, s', t);
    forall u | u in s'.tools.tasks
      ensures TaskOk(c, s', u)
    {
      assert TaskOk(c, s, u);
      MovesKeepTask(c, s, s', t, u);
    }
  }

  lemma InvIsPreserved(c: Config, s: State, e: Event)
    requires Inv(c, s) && Enabled(c, s, e)
    ensures Inv(c, Next(c, s, e))
  {
    match e {
      case RunEvent(e) => RunEventKeepsInv(c, s, e);
      case Execute(_, _, _) => ExecuteKeepsInv(c, s, e);
      case ToolStep(t, answer) => ToolStepKeepsInv(c, s, t, answer);
      case Decide(_, _, _) => DecideKeepsInv(c, s, e);
    }
  }

  lemma {:induction false} RunsKeepInv(c: Config, s: State, trace: seq<Event>)
    requires Inv(c, s) && ValidTrace(c, s, trace)
    ensures Inv(c, Run(c, s, trace))
    decreases |trace|
  {
    if trace != [] {
      InvIsPreserved(c, s, trace[0]);
      RunsKeepInv(c, Next(c, s, trace[0]), trace[1..]);
    }
  }

  // ---------------------------------------------- runs of both protocols

  /** Cutting executions off is a sequence of crashes. */
  lemma {:induction false} DropIsCrashes(env: Env, tools: T.State, dead: set<nat>) returns (trace: seq<T.Event>)
    requires dead <= tools.tasks.Keys
    ensures T.ValidTrace(env, tools, trace) && T.Run(env, tools, trace) == Drop(tools, dead)
    decreases |dead|
  {
    trace := [];
    if dead == {} {
      assert tools.tasks - dead == tools.tasks;
    } else {
      var t :| t in dead;
      var next := T.Next(env, tools, T.Crash(t));
      var rest := DropIsCrashes(env, next, dead - {t});
      assert next.tasks - (dead - {t}) == tools.tasks - dead;
      trace := [T.Crash(t)] + rest;
      assert trace[1..] == rest;
    }
  }

  /** What the tool protocol sees of one event. */
  lemma ToolEvents(c: Config, s: State, e: Event) returns (trace: seq<T.Event>)
    requires Inv(c, s) && Enabled(c, s, e)
    ensures T.ValidTrace(c.env, s.tools, trace) && T.Run(c.env, s.tools, trace) == Next(c, s, e).tools
  {
    match e {
      case RunEvent(e) => trace := DropIsCrashes(c.env, s.tools, Orphans(s.tools, s.owner, P.Next(s.run, e)));
      case Execute(a, index, tool) =>
        var p := s.run.actors[a];
        trace := [T.Spawn(Key(p.snap.currentStep, index), p.step.calls[index], tool)];
        assert T.ValidTrace(c.env, T.Next(c.env, s.tools, trace[0]), trace[1..]);
      case ToolStep(t, answer) =>
        trace := [T.Step(t, answer)];
        assert T.ValidTrace(c.env, T.Next(c.env, s.tools, trace[0]), trace[1..]);
      case Decide(key, decision, reason) =>
        trace := [T.Decide(key, decision, reason)];
        assert T.ValidTrace(c.env, T.Next(c.env, s.tools, trace[0]), trace[1..]);
    }
  }

  lemma {:induction false} JoinToolRuns(env: Env, s: T.State, first: seq<T.Event>, rest: seq<T.Event>)
    requires T.ValidTrace(env, s, first) && T.ValidTrace(env, T.Run(env, s, first), rest)
    ensures T.ValidTrace(env, s, first + rest) && T.Run(env, s, first + rest) == T.Run(env, T.Run(env, s, first), rest)
    decreases |first|
  {
    if first == [] {
      assert first + rest == rest;
    } else {
      JoinToolRuns(env, T.Next(env, s, first[0]), first[1..], rest);
      assert (first + rest)[1..] == first[1..] + rest;
    }
  }

  /** What the run protocol sees of one event. */
  lemma RunEvents(c: Config, s: State, e: Event) returns (trace: seq<P.Event>)
    requires Inv(c, s) && Enabled(c, s, e)
    ensures P.ValidTrace(s.run, trace) && P.Run(s.run, trace) == Next(c, s, e).run
  {
    match e {
      case RunEvent(e) =>
        trace := [e];
        assert P.ValidTrace(P.Next(s.run, e), trace[1..]);
      case ToolStep(t, answer) =>
        if T.Next(c.env, s.tools, T.Step(t, answer)).db == s.tools.db {
          trace := [];
        } else {
          trace := [P.CommitCall(s.owner[t])];
          assert P.ValidTrace(P.Next(s.run, trace[0]), trace[1..]);
        }
      case _ => trace := [];
    }
  }

  lemma {:induction false} JoinRuns(s: P.State, first: seq<P.Event>, rest: seq<P.Event>)
    requires P.ValidTrace(s, first) && P.ValidTrace(P.Run(s, first), rest)
    ensures P.ValidTrace(s, first + rest) && P.Run(s, first + rest) == P.Run(P.Run(s, first), rest)
    decreases |first|
  {
    if first == [] {
      assert first + rest == rest;
    } else {
      JoinRuns(P.Next(s, first[0]), first[1..], rest);
      assert (first + rest)[1..] == first[1..] + rest;
    }
  }

  /** Refinement: every run of the system is a run of the run protocol and a run of the
      tool protocol, so the theorems of both hold of the system. */
  lemma {:induction false} SystemRunsRefineBoth(c: Config, s: State, trace: seq<Event>)
    returns (runTrace: seq<P.Event>, toolTrace: seq<T.Event>)
    requires Inv(c, s) && ValidTrace(c, s, trace)
    ensures P.ValidTrace(s.run, runTrace) && P.Run(s.run, runTrace) == Run(c, s, trace).run
    ensures T.ValidTrace(c.env, s.tools, toolTrace) && T.Run(c.env, s.tools, toolTrace) == Run(c, s, trace).tools
    decreases |trace|
  {
    runTrace, toolTrace := [], [];
    if trace != [] {
      var t := Next(c, s, trace[0]);
      InvIsPreserved(c, s, trace[0]);
      var run1 := RunEvents(c, s, trace[0]);
      var tools1 := ToolEvents(c, s, trace[0]);
      var run2, tools2 := SystemRunsRefineBoth(c, t, trace[1..]);
      JoinRuns(s.run, run1, run2);
      JoinToolRuns(c.env, s.tools, tools1, tools2);
      runTrace, toolTrace := run1 + run2, tools1 + tools2;
    }
  }

  // -------------------------------------------------------------- theorems

  lemma InitialIsInv(c: Config, row: D.RunRow)
    requires P.NewRun(row)
    ensures Inv(c, Initial(row))
  {
    B.NewRunIsInv(row);
  }

  /** Nothing outside the database: in every reachable state, crashes included, every
      tool row, every approval request and every handler invocation belongs to a call
      of a step that is persisted, and a parked run has its request. */
  lemma EverythingBelongsToAPersistedStep(c: Config, row: D.RunRow, trace: seq<Event>, key: Key)
    requires P.NewRun(row) && ValidTrace(c, Initial(row), trace)
    ensures
      var s := Run(c, Initial(row), trace);
      && (key in s.tools.db.rows || key in s.tools.db.approvals ==> Persisted(s, key))
      && (forall t, e :: T.Invoked(t, e) in s.tools.history && e.key == key ==> Persisted(s, key))
      && (s.run.row.status.WaitingApproval? ==> Key(s.run.row.currentStep, 0) in s.tools.db.approvals)
  {
    InitialIsInv(c, row);
    RunsKeepInv(c, Initial(row), trace);
    var s := Run(c, Initial(row), trace);
    forall t, e | T.Invoked(t, e) in s.tools.history && e.key == key
      ensures Persisted(s, key)
    {
      var i :| 0 <= i < |s.tools.history| && s.tools.history[i] == T.Invoked(t, e);
      assert T.Justified(s.tools.history[..i], s.tools.db.rows, t, e);
    }
  }

  /** The approval gate over whole runs: what an approval-tier handler is given is what
      was approved. Its own execution read the request for the same run, step and index
      as approved, and the request, the row and the invocation all carry the normalized
      arguments of that one persisted call. */
  lemma ApprovedArgumentsAreRun(c: Config, row: D.RunRow, trace: seq<Event>, t: nat, e: Effect)
    requires P.NewRun(row) && ValidTrace(c, Initial(row), trace)
    requires T.Invoked(t, e) in Run(c, Initial(row), trace).tools.history && RequiresApproval(e.tier)
    ensures
      var s := Run(c, Initial(row), trace);
      && T.ReadDecision(t, e.key, Approved) in s.tools.history
      && e.key in s.tools.db.approvals && e.key in s.tools.db.rows
      && s.tools.db.approvals[e.key].args == s.tools.db.rows[e.key].args == e.args
      && NormalArgs(c, s, e.key, e.args)
  {
    InitialIsInv(c, row);
    RunsKeepInv(c, Initial(row), trace);
    var s := Run(c, Initial(row), trace);
    var i :| 0 <= i < |s.tools.history| && s.tools.history[i] == T.Invoked(t, e);
    assert T.Justified(s.tools.history[..i], s.tools.db.rows, t, e);
    assert T.ReadDecision(t, e.key, Approved) in s.tools.history;
    assert T.Inserted(t, e.key, true) in s.tools.history;
  }

  /** A cancelled run starts no new step: whatever a worker still executes after the
      cancellation was committed belongs to a step no later than the one it stopped at. */
  lemma CancelledRunsStartNoStep(c: Config, s: State, trace: seq<Event>, t: nat, e: Effect)
    requires Inv(c, s) && s.run.row.cancelRequested && ValidTrace(c, s, trace)
    requires T.Invoked(t, e) in Run(c, s, trace).tools.history
    ensures e.key.step <= s.run.row.currentStep
  {
    RunsKeepInv(c, s, trace);
    var s' := Run(c, s, trace);
    var runTrace, _ := SystemRunsRefineBoth(c, s, trace);
    R.CancellationIsSafe(s.run, runTrace);
    var i :| 0 <= i < |s'.tools.history| && s'.tools.history[i] == T.Invoked(t, e);
    assert T.Justified(s'.tools.history[..i], s'.tools.db.rows, t, e);
    assert Persisted(s', e.key);
  }
}
