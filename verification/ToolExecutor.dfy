/** The write-ahead tool executor.

    One tool call goes through a fixed set of stages, each of which reads or
    commits at most one row. `Advance` is that stage machine; running it to the
    end without interference is `RunStages`, which the class `ToolExecutor`
    implements in place. ToolProtocol interleaves the same stages of many
    concurrent executions. */
module ToolExecutor {
  import opened Domain

  /** The idempotency key `run:step:index`, for one fixed run. */
  datatype Key = Key(step: nat, index: nat)

  datatype Tool = Tool(name: string, schema: string, tier: RiskTier, idempotent: bool)

  /** Error texts, by what they say rather than how they are worded. */
  datatype Text =
    | Message(text: string)
    | UnknownToolNamed(name: string)
    | CrashedMidExecution(needsReview: bool)
    | DeniedByApprover(decision: Decision, reason: Option<string>)
    | ToolCallFailed
    | NoSuchTool

  datatype ExecutionStatus = Started | Succeeded | Failed | Unknown

  datatype Row = Row(
    toolName: string,
    tier: RiskTier,
    idempotent: bool,
    args: string,
    status: ExecutionStatus,
    result: Option<string>,
    error: Option<Text>)

  datatype Decision = Pending | Approved | Rejected | Expired

  datatype Approval = Approval(tier: RiskTier, args: string, status: Decision, reason: Option<string>)

  datatype Code =
    | InvalidArgument
    | UnknownTool
    | ApprovalDenied
    | ExecutionFailed
    | OutcomeUnknown
    | PolicyDenied

  datatype Observation =
    | Nothing
    | Success(result: string)
    | Error(message: Text, code: Code, retryable: bool)

  datatype Outcome = Outcome(
    observation: Observation,
    fatal: bool,
    needsApproval: bool)

  /** What a handler does: return a result, or raise. A `ToolRuntimeError`
      carries its own code and retryability, any other exception does not. */
  datatype Answer =
    | Returned(result: string)
    | Raised(message: string, runtime: Option<(Code, bool)>)

  datatype Validation = Valid(args: string) | Invalid(message: string)

  /** The parts of the system whose text is not modelled: argument coercion and
      validation against a tool's schema, and result truncation. */
  datatype Env = Env(normalize: (string, string) -> Validation, truncate: string -> string)

  datatype Database = Database(rows: map<Key, Row>, approvals: map<Key, Approval>)

  /** Whether an execution inserted the row it runs, or found it `started`. */
  datatype Origin = Fresh | Recovered

  /** One invocation of a handler: the only thing the outside world sees. */
  datatype Effect = Effect(key: Key, tier: RiskTier, idempotent: bool, args: string, origin: Origin)

  datatype Stage =
    | Lookup
    | Gate(row: Row)
    | Request(row: Row)
    | InsertFailed(row: Row, outcome: Outcome)
    | InsertStarted(row: Row)
    | Invoke(row: Row, origin: Origin)
    | Finalize(row: Row, answer: Answer)
    | MarkUnknown(fatal: bool)
    | Done(outcome: Outcome)
    | Conflict

  datatype Task = Task(key: Key, call: Call, tool: Option<Tool>, stage: Stage)

  predicate Finished(stage: Stage) {
    stage.Done? || stage.Conflict?
  }

  // ---------------------------------------------------------------- rows

  function StartedRow(tool: Tool, args: string): Row {
    Row(tool.name, tool.tier, tool.idempotent, args, Started, None, None)
  }

  function FailedRow(tool: Tool, args: string, error: Text): Row {
    StartedRow(tool, args).(status := ExecutionStatus.Failed, error := Some(error))
  }

  function UnknownToolRow(call: Call): Row {
    Row(call.name, ReadOnly, false, call.arguments, ExecutionStatus.Failed, None, Some(UnknownToolNamed(call.name)))
  }

  /** Only the changed columns are written, so a concurrent change to the others survives. */
  function FinalizedRow(env: Env, row: Row, answer: Answer): Row {
    match answer
    case Returned(result) => row.(status := Succeeded, result := Some(env.truncate(result)))
    case Raised(message, _) => row.(status := ExecutionStatus.Failed, error := Some(Message(message)))
  }

  // ------------------------------------------------------------ outcomes

  function Plain(o: Observation): Outcome {
    Outcome(o, false, false)
  }

  /** An absent or empty text falls back to the default. */
  function TextOr(text: Option<Text>, default: Text): Text {
    if text.Some? && text.value != Message("") then text.value else default
  }

  function ResultOr(result: Option<string>, default: string): string {
    if result.Some? && result.value != "" then result.value else default
  }

  function FinalOutcome(env: Env, tool: Tool, answer: Answer): Outcome {
    match answer
    case Returned(result) => Plain(Success(env.truncate(result)))
    case Raised(message, Some((code, retryable))) => Plain(Error(Message(message), code, retryable))
    case Raised(message, None) =>
      Plain(Error(Message(message), ExecutionFailed, tool.tier.ReadOnly? || tool.idempotent))
  }

  /** What a finished row answers when its key is executed again. */
  function ReplayOutcome(row: Row): Outcome
    requires !row.status.Started?
  {
    match row.status
    case Succeeded => Plain(Success(ResultOr(row.result, "{}")))
    case Failed => Plain(Error(TextOr(row.error, ToolCallFailed), ExecutionFailed, false))
    case Unknown => Plain(Error(TextOr(row.error, ToolCallFailed), OutcomeUnknown, false))
  }

  // -------------------------------------------------------- stage machine

  /** Where the lookup of the key sends the execution. It only reads. */
  function AfterLookup(env: Env, db: Database, task: Task): Stage {
    if task.tool.None? then
      if task.key in db.rows then
        Done(Plain(Error(TextOr(db.rows[task.key].error, NoSuchTool), UnknownTool, false)))
      else
        var row := UnknownToolRow(task.call);
        InsertFailed(row, Plain(Error(row.error.value, UnknownTool, false)))
    else if task.key in db.rows then
      AfterExisting(db.rows[task.key])
    else
      var tool := task.tool.value;
      match env.normalize(tool.schema, task.call.arguments)
      case Invalid(message) =>
        InsertFailed(FailedRow(tool, task.call.arguments, Message(message)), Plain(Error(Message(message), InvalidArgument, true)))
      case Valid(args) =>
        var row := StartedRow(tool, args);
        if RequiresApproval(tool.tier) then Gate(row) else InsertStarted(row)
  }

  /** Recovery policy: the decision uses the tier stored in the row. */
  function AfterExisting(row: Row): Stage {
    if !row.status.Started? then Done(ReplayOutcome(row))
    else if RetrySafe(row.tier, row.idempotent) then Invoke(row, Recovered)
    else MarkUnknown(RequiresApproval(row.tier))
  }

  function AfterGate(db: Database, task: Task, row: Row): Stage {
    if task.key !in db.approvals then Request(row)
    else
      var approval := db.approvals[task.key];
      match approval.status
      case Pending => Done(Outcome(Nothing, false, true))
      case Approved => InsertStarted(row)
      case _ =>
        var error := DeniedByApprover(approval.status, approval.reason);
        InsertFailed(row.(status := ExecutionStatus.Failed, error := Some(error)), Plain(Error(error, ApprovalDenied, false)))
  }

  /** One read or one commit. A unique-key violation ends the execution in `Conflict`. */
  function Advance(env: Env, db: Database, task: Task, answer: Answer): (Database, Stage)
    requires !Finished(task.stage)
    requires task.stage.Finalize? ==> task.tool.Some?
  {
    var key := task.key;
    match task.stage
    case Lookup => (db, AfterLookup(env, db, task))
    case Gate(row) => (db, AfterGate(db, task, row))
    case Request(row) =>
      if key in db.approvals then (db, Conflict)
      else
        (db.(approvals := db.approvals[key := Approval(row.tier, row.args, Decision.Pending, None)]),
         Done(Outcome(Nothing, false, true)))
    case InsertFailed(row, outcome) =>
      if key in db.rows then (db, Conflict) else (db.(rows := db.rows[key := row]), Done(outcome))
    case InsertStarted(row) =>
      if key in db.rows then (db, Conflict) else (db.(rows := db.rows[key := row]), Invoke(row, Fresh))
    case Invoke(row, _) => (db, Finalize(row, answer))
    case Finalize(_, a) =>
      var outcome := FinalOutcome(env, task.tool.value, a);
      if key in db.rows then (db.(rows := db.rows[key := FinalizedRow(env, db.rows[key], a)]), Done(outcome))
      else (db, Done(outcome))
    case MarkUnknown(fatal) =>
      var outcome := Outcome(Error(CrashedMidExecution(fatal), OutcomeUnknown, false), fatal, false);
      if key in db.rows then
        (db.(rows := db.rows[key := db.rows[key].(status := Unknown, error := Some(CrashedMidExecution(fatal)))]),
         Done(outcome))
      else (db, Done(outcome))
  }

  function EffectOf(task: Task): seq<Effect> {
    match task.stage
    case Invoke(row, origin) => [Effect(task.key, row.tier, row.idempotent, row.args, origin)]
    case _ => []
  }

  function Rank(stage: Stage): nat {
    match stage
    case Lookup => 6
    case Gate(_) => 5
    case Request(_) => 4
    case InsertFailed(_, _) => 4
    case InsertStarted(_) => 4
    case Invoke(_, _) => 3
    case Finalize(_, _) => 2
    case MarkUnknown(_) => 2
    case Done(_) => 0
    case Conflict => 0
  }

  /** A task that knows which tool it runs, wherever the stages need one. */
  predicate WellFormed(task: Task) {
    task.tool.None? ==>
      task.stage.Lookup? || task.stage.InsertFailed? || Finished(task.stage)
  }

  /** Progress of an execution: what the database and the outside world look like. */
  datatype Progress = Progress(db: Database, task: Task, effects: seq<Effect>)

  function StepOnce(env: Env, handler: string -> Answer, p: Progress): (q: Progress)
    requires !Finished(p.task.stage) && WellFormed(p.task)
    ensures Rank(q.task.stage) < Rank(p.task.stage) && WellFormed(q.task)
    ensures q.task == p.task.(stage := q.task.stage)
    ensures !p.task.stage.Invoke? ==> q.effects == p.effects
  {
    var answer := if p.task.stage.Invoke? then handler(p.task.stage.row.args) else Returned("");
    var (db, stage) := Advance(env, p.db, p.task, answer);
    Progress(db, p.task.(stage := stage), p.effects + EffectOf(p.task))
  }

  /** Run the stages to the end with nobody else touching the database. */
  function RunStages(env: Env, handler: string -> Answer, p: Progress): (q: Progress)
    requires WellFormed(p.task)
    ensures Finished(q.task.stage)
    decreases Rank(p.task.stage)
  {
    if Finished(p.task.stage) then p else RunStages(env, handler, StepOnce(env, handler, p))
  }

  function Start(db: Database, key: Key, call: Call, tool: Option<Tool>, effects: seq<Effect>): Progress {
    Progress(db, Task(key, call, tool, Lookup), effects)
  }

  // ------------------------------------------------------- replay theorems

  /** Executing a key whose row is succeeded, failed or unknown changes nothing,
      runs nothing, and needs no handler: whatever the handler would have done. */
  lemma FinishedKeyIsInert(
    env: Env, handler: string -> Answer, db: Database, key: Key, call: Call, tool: Option<Tool>, effects: seq<Effect>)
    requires key in db.rows && !db.rows[key].status.Started?
    ensures
      var q := RunStages(env, handler, Start(db, key, call, tool, effects));
      && q.db == db && q.effects == effects
      && (tool.Some? ==> q.task.stage == Done(ReplayOutcome(db.rows[key])))
  {
    var p := Start(db, key, call, tool, effects);
    assert StepOnce(env, handler, p).task.stage.Done?;
  }

  /** The database after a worker died having completed `n` stages of an execution. */
  function CrashAfter(env: Env, handler: string -> Answer, p: Progress, n: nat): (q: Progress)
    requires WellFormed(p.task)
    ensures WellFormed(q.task)
    decreases n
  {
    if n == 0 || Finished(p.task.stage) then p
    else CrashAfter(env, handler, StepOnce(env, handler, p), n - 1)
  }

  /** The database after a whole sequence of attempts at the same call, attempt
      `i` dying after `crashes[i]` stages. */
  function AfterCrashes(
    env: Env, handler: string -> Answer, db: Database, key: Key, call: Call, tool: Option<Tool>, crashes: seq<nat>)
    : Database
    decreases |crashes|
  {
    if crashes == [] then db
    else
      var first := CrashAfter(env, handler, Start(db, key, call, tool, []), crashes[0]).db;
      AfterCrashes(env, handler, first, key, call, tool, crashes[1..])
  }

  /** The row the call writes ahead of its handler, when it gets that far. */
  predicate WritesAhead(env: Env, db: Database, key: Key, call: Call, tool: Option<Tool>) {
    && key !in db.rows
    && tool.Some?
    && env.normalize(tool.value.schema, call.arguments).Valid?
    && (RequiresApproval(tool.value.tier) ==> key in db.approvals && db.approvals[key].status.Approved?)
  }

  function AheadRow(env: Env, call: Call, tool: Tool): Row
    requires env.normalize(tool.schema, call.arguments).Valid?
  {
    StartedRow(tool, env.normalize(tool.schema, call.arguments).args)
  }

  /** The database a crash-free execution leaves. */
  function Clean(env: Env, handler: string -> Answer, db: Database, key: Key, call: Call, tool: Option<Tool>): Database {
    RunStages(env, handler, Start(db, key, call, tool, [])).db
  }

  /** How many stages a call completes up to and including its write-ahead commit. */
  function StagesToWriteAhead(tool: Tool): nat {
    if RequiresApproval(tool.tier) then 3 else 2
  }

  /** Some attempt died between its write-ahead commit and its final commit: the
      first attempt to get as far as the write-ahead did not get two stages further. */
  predicate StruckMidFlight(w: nat, crashes: seq<nat>) {
    crashes != [] &&
    if crashes[0] < w then StruckMidFlight(w, crashes[1..]) else crashes[0] < w + 2
  }

  /** The database left by a death between the two commits. */
  function Ahead(env: Env, db: Database, key: Key, call: Call, tool: Option<Tool>): Database
    requires WritesAhead(env, db, key, call, tool)
  {
    db.(rows := db.rows[key := AheadRow(env, call, tool.value)])
  }

  /** Every stage of a call that writes ahead, in closed form. */
  lemma WriteAheadStages(env: Env, handler: string -> Answer, db: Database, key: Key, call: Call, tool: Option<Tool>, n: nat)
    requires WritesAhead(env, db, key, call, tool)
    ensures
      var w := StagesToWriteAhead(tool.value);
      var row := AheadRow(env, call, tool.value);
      && Clean(env, handler, db, key, call, tool)
         == db.(rows := db.rows[key := FinalizedRow(env, row, handler(row.args))])
      && CrashAfter(env, handler, Start(db, key, call, tool, []), n).db
         == (if n < w then db
             else if n < w + 2 then Ahead(env, db, key, call, tool)
             else Clean(env, handler, db, key, call, tool))
  {
    var row := AheadRow(env, call, tool.value);
    var p := Start(db, key, call, tool, []);
    var p1 := StepOnce(env, handler, p);
    if RequiresApproval(tool.value.tier) {
      var p2 := StepOnce(env, handler, p1);
      InsertStages(env, handler, p2, row, if n < 2 then 0 else n - 2);
      assert RunStages(env, handler, p1) == RunStages(env, handler, p2);
      if n >= 2 {
        assert CrashAfter(env, handler, p, n) == CrashAfter(env, handler, p1, n - 1)
            == CrashAfter(env, handler, p2, n - 2);
      }
    } else {
      InsertStages(env, handler, p1, row, if n < 1 then 0 else n - 1);
    }
  }

  /** The part of that from the insert on. */
  lemma InsertStages(env: Env, handler: string -> Answer, p: Progress, row: Row, n: nat)
    requires p.task.stage == InsertStarted(row) && p.task.tool.Some? && p.task.key !in p.db.rows
    ensures
      var done := p.db.rows[p.task.key := FinalizedRow(env, row, handler(row.args))];
      && RunStages(env, handler, p).db == p.db.(rows := done)
      && CrashAfter(env, handler, p, n).db
         == (if n < 1 then p.db
             else if n < 3 then p.db.(rows := p.db.rows[p.task.key := row])
             else p.db.(rows := done))
  {
    var p1 := StepOnce(env, handler, p);
    var p2 := StepOnce(env, handler, p1);
    var p3 := StepOnce(env, handler, p2);
    var done := p.db.rows[p.task.key := FinalizedRow(env, row, handler(row.args))];
    assert p3.db.rows == done;
    assert RunStages(env, handler, p1) == RunStages(env, handler, p2) == p3;
    if n >= 3 {
      assert CrashAfter(env, handler, p, n) == CrashAfter(env, handler, p1, n - 1)
          == CrashAfter(env, handler, p2, n - 2) == CrashAfter(env, handler, p3, n - 3);
    } else if n == 2 {
      assert CrashAfter(env, handler, p, n) == CrashAfter(env, handler, p1, 1) == p2;
    }
  }

  /** A call that does not write ahead commits at most once, in its last stage,
      so a death leaves the database untouched or finished. */
  lemma {:induction false} NoneOrAll(env: Env, handler: string -> Answer, p: Progress, n: nat)
    requires WellFormed(p.task) && !p.task.stage.InsertStarted?
    requires p.task.stage.Lookup? ==> !WritesAhead(env, p.db, p.task.key, p.task.call, p.task.tool)
    requires p.task.stage.Gate? ==> p.task.key in p.db.approvals ==> !p.db.approvals[p.task.key].status.Approved?
    ensures
      var d := CrashAfter(env, handler, p, n).db;
      d == p.db || d == RunStages(env, handler, p).db
    decreases n
  {
    if n > 0 && !Finished(p.task.stage) {
      var q := StepOnce(env, handler, p);
      if Finished(q.task.stage) {
        assert CrashAfter(env, handler, q, n - 1) == q;
      } else {
        NoneOrAll(env, handler, q, n - 1);
      }
    }
  }

  /** Executing a call a second time leaves the database as the first time left it. */
  lemma CleanIsIdempotent(env: Env, handler: string -> Answer, db: Database, key: Key, call: Call, tool: Option<Tool>)
    ensures
      var once := Clean(env, handler, db, key, call, tool);
      Clean(env, handler, once, key, call, tool) == once
  {
    var once := Clean(env, handler, db, key, call, tool);
    if WritesAhead(env, db, key, call, tool) {
      WriteAheadStages(env, handler, db, key, call, tool, 0);
      FinishedKeyIsInert(env, handler, once, key, call, tool, []);
    } else {
      var p1 := StepOnce(env, handler, Start(db, key, call, tool, []));
      if Finished(p1.task.stage) {
        assert RunStages(env, handler, p1) == p1;
      } else {
        var p2 := StepOnce(env, handler, p1);
        assert RunStages(env, handler, p1) == RunStages(env, handler, p2);
        if !Finished(p2.task.stage) {
          var p3 := StepOnce(env, handler, p2);
          assert Finished(p3.task.stage);
          assert RunStages(env, handler, p2) == RunStages(env, handler, p3) == p3;
          if p2.task.stage.Request? {
            PendingIsInert(env, handler, once, key, call, tool);
          } else {
            FinishedKeyIsInert(env, handler, once, key, call, tool, []);
          }
        } else {
          assert RunStages(env, handler, p2) == p2;
          if key in once.rows {
            FinishedKeyIsInert(env, handler, once, key, call, tool, []);
          } else {
            PendingIsInert(env, handler, once, key, call, tool);
          }
        }
      }
    }
  }

  /** A call parked on a pending request stays parked. */
  lemma PendingIsInert(env: Env, handler: string -> Answer, db: Database, key: Key, call: Call, tool: Option<Tool>)
    requires tool.Some? && RequiresApproval(tool.value.tier) && key !in db.rows
    requires env.normalize(tool.value.schema, call.arguments).Valid?
    requires key in db.approvals && db.approvals[key].status.Pending?
    ensures Clean(env, handler, db, key, call, tool) == db
  {
    var p1 := StepOnce(env, handler, Start(db, key, call, tool, []));
    var p2 := StepOnce(env, handler, p1);
    assert RunStages(env, handler, p1) == RunStages(env, handler, p2) == p2;
  }

  /** What re-executing a written-ahead call leaves. */
  lemma CleanOfAhead(env: Env, handler: string -> Answer, db: Database, key: Key, call: Call, tool: Option<Tool>)
    requires WritesAhead(env, db, key, call, tool)
    ensures
      var ahead := Ahead(env, db, key, call, tool);
      var again := Clean(env, handler, ahead, key, call, tool);
      && (RetrySafe(tool.value.tier, tool.value.idempotent) ==> again == Clean(env, handler, db, key, call, tool))
      && (!RetrySafe(tool.value.tier, tool.value.idempotent) ==>
            key in again.rows && again.rows[key].status.Unknown?)
  {
    var ahead := Ahead(env, db, key, call, tool);
    var row := AheadRow(env, call, tool.value);
    WriteAheadStages(env, handler, db, key, call, tool, 0);
    var p1 := StepOnce(env, handler, Start(ahead, key, call, tool, []));
    var p2 := StepOnce(env, handler, p1);
    if RetrySafe(tool.value.tier, tool.value.idempotent) {
      var p3 := StepOnce(env, handler, p2);
      assert RunStages(env, handler, p1) == RunStages(env, handler, p2) == p3;
      assert p3.db.rows == db.rows[key := FinalizedRow(env, row, handler(row.args))];
    } else {
      assert RunStages(env, handler, p1) == p2;
    }
  }

  /** Where any sequence of deaths can leave the database. */
  lemma {:induction false} CrashesLeave(
    env: Env, handler: string -> Answer, db: Database, key: Key, call: Call, tool: Option<Tool>, crashes: seq<nat>)
    ensures
      var d := AfterCrashes(env, handler, db, key, call, tool, crashes);
      var clean := Clean(env, handler, db, key, call, tool);
      if !WritesAhead(env, db, key, call, tool) then d == db || d == clean
      else if !StruckMidFlight(StagesToWriteAhead(tool.value), crashes) then d == db || d == clean
      else
        var ahead := Ahead(env, db, key, call, tool);
        d == ahead || d == Clean(env, handler, ahead, key, call, tool)
    decreases |crashes|
  {
    if crashes != [] {
      var first := CrashAfter(env, handler, Start(db, key, call, tool, []), crashes[0]).db;
      CrashesLeave(env, handler, first, key, call, tool, crashes[1..]);
      CleanIsIdempotent(env, handler, db, key, call, tool);
      if WritesAhead(env, db, key, call, tool) {
        WriteAheadStages(env, handler, db, key, call, tool, crashes[0]);
      } else {
        NoneOrAll(env, handler, Start(db, key, call, tool, []), crashes[0]);
        if WritesAhead(env, first, key, call, tool) {
          WriteAheadStages(env, handler, first, key, call, tool, 0);
        }
      }
    }
  }

  /** Crash-then-replay equals the crash-free call, for every sequence of deaths,
      exactly when the call is retry-safe or no attempt died between its two commits. */
  lemma ReplayEquivalence(
    env: Env, handler: string -> Answer, db: Database, key: Key, call: Call, tool: Option<Tool>, crashes: seq<nat>)
    ensures
      var d := AfterCrashes(env, handler, db, key, call, tool, crashes);
      Clean(env, handler, d, key, call, tool) == Clean(env, handler, db, key, call, tool)
      <==>
      !(WritesAhead(env, db, key, call, tool)
        && !RetrySafe(tool.value.tier, tool.value.idempotent)
        && StruckMidFlight(StagesToWriteAhead(tool.value), crashes))
  {
    CrashesLeave(env, handler, db, key, call, tool, crashes);
    CleanIsIdempotent(env, handler, db, key, call, tool);
    if WritesAhead(env, db, key, call, tool) {
      WriteAheadStages(env, handler, db, key, call, tool, 0);
      CleanOfAhead(env, handler, db, key, call, tool);
      CleanIsIdempotent(env, handler, Ahead(env, db, key, call, tool), key, call, tool);
    }
  }

  lemma Continue(env: Env, handler: string -> Answer, p: Progress, q: Progress)
    requires WellFormed(p.task) && !Finished(p.task.stage) && q == StepOnce(env, handler, p)
    ensures RunStages(env, handler, p) == RunStages(env, handler, q)
    ensures Finished(q.task.stage) ==> RunStages(env, handler, p) == q
  {}

  // ------------------------------------- what an execution records and answers

  /** Only the row of the key was written. */
  ghost predicate OnlyRow(before: Database, after: Database, key: Key) {
    && after.approvals == before.approvals && key in after.rows
    && forall k :: k != key ==> (k in after.rows <==> k in before.rows) && (k in before.rows ==> after.rows[k] == before.rows[k])
  }

  /** The handler ran once, with the row's arguments. A result is stored, truncated, and
      answered; an error is stored by its message and answered with its own code, or as a
      failed execution that is worth a retry if the tool only reads or is idempotent. */
  ghost predicate Ran(
    env: Env, handler: string -> Answer, before: Database, key: Key, tool: Tool, row: Row, origin: Origin,
    after: Database, effects: seq<Effect>, outcome: Outcome)
  {
    && OnlyRow(before, after, key) && !outcome.fatal && !outcome.needsApproval
    && effects == [Effect(key, row.tier, row.idempotent, row.args, origin)]
    && match handler(row.args)
       case Returned(result) =>
         && after.rows[key] == row.(status := Succeeded, result := Some(env.truncate(result)))
         && outcome.observation == Success(env.truncate(result))
       case Raised(message, runtime) =>
         && after.rows[key] == row.(status := ExecutionStatus.Failed, error := Some(Message(message)))
         && outcome.observation.Error? && outcome.observation.message == Message(message)
         && (runtime.Some? ==> (outcome.observation.code, outcome.observation.retryable) == runtime.value)
         && (runtime.None? ==>
               && outcome.observation.code == ExecutionFailed
               && (outcome.observation.retryable <==> tool.tier.ReadOnly? || tool.idempotent))
  }

  /** Nothing ran: the call is recorded as failed, and answered, with the same text. */
  ghost predicate Refused(before: Database, key: Key, row: Row, code: Code, retryable: bool, after: Database, outcome: Outcome) {
    && OnlyRow(before, after, key) && after.rows[key] == row
    && row.status.Failed? && row.result == None && row.error.Some?
    && outcome == Outcome(Error(row.error.value, code, retryable), false, false)
  }

  /** What was stored, or a default for nothing. */
  predicate Says(stored: Option<Text>, default: Text, said: Text) {
    if stored == None || stored == Some(Message("")) then said == default else stored == Some(said)
  }

  /** An execution of a key that has a row. */
  ghost predicate Replayed(
    env: Env, handler: string -> Answer, before: Database, key: Key, tool: Tool,
    after: Database, effects: seq<Effect>, outcome: Outcome)
    requires key in before.rows
  {
    var row, o := before.rows[key], outcome.observation;
    match row.status
    case Succeeded =>
      && after == before && effects == [] && !outcome.fatal && !outcome.needsApproval && o.Success?
      && (if row.result == None || row.result == Some("") then o.result == "{}" else row.result == Some(o.result))
    case Failed =>
      && after == before && effects == [] && !outcome.fatal && !outcome.needsApproval
      && o.Error? && Says(row.error, ToolCallFailed, o.message) && o.code == ExecutionFailed && !o.retryable
    case Unknown =>
      && after == before && effects == [] && !outcome.fatal && !outcome.needsApproval
      && o.Error? && Says(row.error, ToolCallFailed, o.message) && o.code == OutcomeUnknown && !o.retryable
    case Started =>
      if row.tier.ReadOnly? || (row.tier.LowRiskWrite? && row.idempotent)
      then Ran(env, handler, before, key, tool, row, Recovered, after, effects, outcome)
      else
        var review := row.tier.SensitiveWrite? || row.tier.Destructive?;
        && OnlyRow(before, after, key) && effects == []
        && after.rows[key] == row.(status := Unknown, error := Some(CrashedMidExecution(review)))
        && outcome == Outcome(Error(CrashedMidExecution(review), OutcomeUnknown, false), review, false)
  }

  /** The first execution of a key with a known tool and valid arguments. */
  ghost predicate Gated(
    env: Env, handler: string -> Answer, before: Database, key: Key, tool: Tool, args: string,
    after: Database, effects: seq<Effect>, outcome: Outcome)
  {
    var asks := tool.tier.SensitiveWrite? || tool.tier.Destructive?;
    if asks && key !in before.approvals then
      && after.rows == before.rows && effects == [] && outcome == Outcome(Nothing, false, true)
      && after.approvals == before.approvals[key := Approval(tool.tier, args, Decision.Pending, None)]
    else if asks && before.approvals[key].status.Pending? then
      after == before && effects == [] && outcome == Outcome(Nothing, false, true)
    else if asks && !before.approvals[key].status.Approved? then
      var denial := DeniedByApprover(before.approvals[key].status, before.approvals[key].reason);
      && effects == []
      && Refused(
           before, key, Row(tool.name, tool.tier, tool.idempotent, args, ExecutionStatus.Failed, None, Some(denial)),
           ApprovalDenied, false, after, outcome)
    else
      Ran(
        env, handler, before, key, tool, Row(tool.name, tool.tier, tool.idempotent, args, Started, None, None), Fresh,
        after, effects, outcome)
  }

  /** Everything one undisturbed execution does: the rows and requests it leaves, the effects
      it has, and the answer it gives. */
  ghost predicate Executed(
    env: Env, handler: string -> Answer, before: Database, key: Key, call: Call, tool: Option<Tool>,
    after: Database, effects: seq<Effect>, outcome: Outcome)
  {
    match tool
    case None =>
      && effects == []
      && (if key in before.rows then
            && after == before && outcome.observation.Error?
            && Says(before.rows[key].error, NoSuchTool, outcome.observation.message)
            && outcome == Outcome(Error(outcome.observation.message, UnknownTool, false), false, false)
          else
            Refused(
              before, key,
              Row(call.name, ReadOnly, false, call.arguments, ExecutionStatus.Failed, None, Some(UnknownToolNamed(call.name))),
              UnknownTool, false, after, outcome))
    case Some(tool) =>
      if key in before.rows then Replayed(env, handler, before, key, tool, after, effects, outcome)
      else
        match env.normalize(tool.schema, call.arguments)
        case Valid(args) => Gated(env, handler, before, key, tool, args, after, effects, outcome)
        case Invalid(message) =>
          && effects == []
          && Refused(
               before, key,
               Row(tool.name, tool.tier, tool.idempotent, call.arguments, ExecutionStatus.Failed, None, Some(Message(message))),
               InvalidArgument, true, after, outcome)
  }

  lemma InvokeRuns(env: Env, handler: string -> Answer, p: Progress, row: Row, origin: Origin)
    requires p.task.stage == Invoke(row, origin) && p.task.tool.Some?
    requires p.task.key in p.db.rows && p.db.rows[p.task.key] == row
    ensures
      var q := RunStages(env, handler, p);
      && q.task.stage.Done? && p.effects <= q.effects
      && Ran(
           env, handler, p.db, p.task.key, p.task.tool.value, row, origin, q.db, q.effects[|p.effects|..], q.task.stage.outcome)
  {
    var p1 := StepOnce(env, handler, p);
    Continue(env, handler, p, p1);
    Continue(env, handler, p1, StepOnce(env, handler, p1));
  }

  lemma InsertRuns(env: Env, handler: string -> Answer, p: Progress, row: Row)
    requires p.task.stage == InsertStarted(row) && p.task.tool.Some? && p.task.key !in p.db.rows
    ensures
      var q := RunStages(env, handler, p);
      && q.task.stage.Done? && p.effects <= q.effects
      && Ran(
           env, handler, p.db, p.task.key, p.task.tool.value, row, Fresh, q.db, q.effects[|p.effects|..], q.task.stage.outcome)
  {
    var p1 := StepOnce(env, handler, p);
    Continue(env, handler, p, p1);
    InvokeRuns(env, handler, p1, row, Fresh);
  }

  lemma ExistingReplays(env: Env, handler: string -> Answer, db: Database, key: Key, call: Call, tool: Tool, effects: seq<Effect>)
    requires key in db.rows
    ensures
      var q := RunStages(env, handler, Start(db, key, call, Some(tool), effects));
      && q.task.stage.Done? && effects <= q.effects
      && Replayed(env, handler, db, key, tool, q.db, q.effects[|effects|..], q.task.stage.outcome)
  {
    var p := Start(db, key, call, Some(tool), effects);
    var p1 := StepOnce(env, handler, p);
    Continue(env, handler, p, p1);
    if p1.task.stage.Invoke? {
      InvokeRuns(env, handler, p1, db.rows[key], Recovered);
    } else if p1.task.stage.MarkUnknown? {
      Continue(env, handler, p1, StepOnce(env, handler, p1));
    }
  }

  lemma GateDecides(env: Env, handler: string -> Answer, p: Progress, args: string)
    requires p.task.tool.Some? && p.task.key !in p.db.rows
    requires RequiresApproval(p.task.tool.value.tier) && p.task.stage == Gate(StartedRow(p.task.tool.value, args))
    ensures
      var q := RunStages(env, handler, p);
      && q.task.stage.Done? && p.effects <= q.effects
      && Gated(
           env, handler, p.db, p.task.key, p.task.tool.value, args, q.db, q.effects[|p.effects|..], q.task.stage.outcome)
  {
    var p1 := StepOnce(env, handler, p);
    Continue(env, handler, p, p1);
    if p1.task.stage.InsertStarted? {
      InsertRuns(env, handler, p1, StartedRow(p.task.tool.value, args));
    } else if !Finished(p1.task.stage) {
      Continue(env, handler, p1, StepOnce(env, handler, p1));
    }
  }

  lemma FirstExecutes(env: Env, handler: string -> Answer, db: Database, key: Key, call: Call, tool: Tool, effects: seq<Effect>)
    requires key !in db.rows
    ensures
      var q := RunStages(env, handler, Start(db, key, call, Some(tool), effects));
      && q.task.stage.Done? && effects <= q.effects
      && Executed(env, handler, db, key, call, Some(tool), q.db, q.effects[|effects|..], q.task.stage.outcome)
  {
    var p := Start(db, key, call, Some(tool), effects);
    var p1 := StepOnce(env, handler, p);
    Continue(env, handler, p, p1);
    match env.normalize(tool.schema, call.arguments) {
      case Valid(args) =>
        if RequiresApproval(tool.tier) { GateDecides(env, handler, p1, args); }
        else { InsertRuns(env, handler, p1, StartedRow(tool, args)); }
      case Invalid(_) => Continue(env, handler, p1, StepOnce(env, handler, p1));
    }
  }

  /** The stages run to their end do all that. */
  lemma StagesExecute(
    env: Env, handler: string -> Answer, db: Database, key: Key, call: Call, tool: Option<Tool>, effects: seq<Effect>)
    ensures
      var q := RunStages(env, handler, Start(db, key, call, tool, effects));
      && q.task.stage.Done? && effects <= q.effects
      && Executed(env, handler, db, key, call, tool, q.db, q.effects[|effects|..], q.task.stage.outcome)
  {
    match tool {
      case Some(known) =>
        if key in db.rows { ExistingReplays(env, handler, db, key, call, known, effects); }
        else { FirstExecutes(env, handler, db, key, call, known, effects); }
      case None =>
        var p := Start(db, key, call, tool, effects);
        var p1 := StepOnce(env, handler, p);
        Continue(env, handler, p, p1);
        if !Finished(p1.task.stage) { Continue(env, handler, p1, StepOnce(env, handler, p1)); }
    }
  }

  /** Executing a key again, with whatever handler, answers what the first execution did: its
      result, or its error as a failed execution, the code of which is forgotten; and it runs
      nothing unless the first one left the call to be decided. */
  lemma SecondExecutionAnswersTheFirst(
    env: Env, handler: string -> Answer, again: string -> Answer, db: Database, key: Key, call: Call, tool: Tool,
    once: Database, effects: seq<Effect>, first: Outcome, twice: Database, more: seq<Effect>, second: Outcome)
    requires key !in db.rows
    requires Executed(env, handler, db, key, call, Some(tool), once, effects, first)
    requires Executed(env, again, once, key, call, Some(tool), twice, more, second)
    ensures first.observation.Success? ==>
      && twice == once && more == []
      && second.observation == Success(if first.observation.result == "" then "{}" else first.observation.result)
    ensures first.observation.Error? ==>
      && twice == once && more == []
      && second.observation.Error? && second.observation.code == ExecutionFailed && !second.observation.retryable
      && (first.observation.message != Message("") ==> second.observation.message == first.observation.message)
    ensures first.needsApproval ==> twice == once && more == [] && second == first
  {}

  // ------------------------------------------------------------- executor

  /** The executor itself: every commit updates a table in place. */
  class ToolExecutor {
    const env: Env
    var rows: map<Key, Row>
    var approvals: map<Key, Approval>
    var effects: seq<Effect>

    constructor (env: Env)
      ensures this.env == env && rows == map[] && approvals == map[] && effects == []
    {
      this.env := env;
      rows, approvals, effects := map[], map[], [];
    }

    function At(key: Key, call: Call, tool: Option<Tool>, stage: Stage): Progress
      reads this
    {
      Progress(Database(rows, approvals), Task(key, call, tool, stage), effects)
    }

    /** One call, recorded and answered; the tables, the effects and the outcome are also those
        of the stage machine run to its end. */
    method Execute(key: Key, call: Call, tool: Option<Tool>, handler: string -> Answer) returns (outcome: Outcome)
      modifies this
      ensures At(key, call, tool, Done(outcome)) == RunStages(env, handler, old(At(key, call, tool, Lookup)))
      ensures old(effects) <= effects
      ensures Executed(
        env, handler, Database(old(rows), old(approvals)), key, call, tool,
        Database(rows, approvals), effects[|old(effects)|..], outcome)
    {
      StagesExecute(env, handler, Database(rows, approvals), key, call, tool, effects);
      outcome := ExecuteInner(key, call, tool, handler);
    }

    method ExecuteInner(key: Key, call: Call, tool: Option<Tool>, handler: string -> Answer) returns (outcome: Outcome)
      modifies this
      ensures At(key, call, tool, Done(outcome)) == RunStages(env, handler, old(At(key, call, tool, Lookup)))
    {
      if tool.None? {
        outcome := RecordUnknownTool(key, call, handler);
        return;
      }
      ghost var start := At(key, call, tool, Lookup);
      ghost var next := StepOnce(env, handler, start);
      Continue(env, handler, start, next);
      if key in rows {
        outcome := ResolveExisting(key, call, tool.value, handler);
        return;
      }
      var row;
      match env.normalize(tool.value.schema, call.arguments) {
        case Invalid(message) =>
          outcome := Plain(Error(Message(message), InvalidArgument, true));
          InsertRow(key, FailedRow(tool.value, call.arguments, Message(message)));
          Continue(env, handler, next, At(key, call, tool, Done(outcome)));
          return;
        case Valid(args) =>
          row := StartedRow(tool.value, args);
      }
      if RequiresApproval(tool.value.tier) {
        assert next == At(key, call, tool, Gate(row));
        var gated := CheckApproval(key, call, tool.value, row, handler);
        if gated.Some? {
          return gated.value;
        }
        Continue(env, handler, next, At(key, call, tool, InsertStarted(row)));
      }
      ghost var ready := At(key, call, tool, InsertStarted(row));
      InsertRow(key, row);
      Continue(env, handler, ready, At(key, call, tool, Invoke(row, Fresh)));
      outcome := InvokeAndFinalize(key, call, tool.value, row, Fresh, handler);
    }

    method InsertRow(key: Key, row: Row)
      requires key !in rows
      modifies this`rows
      ensures rows == old(rows)[key := row]
    {
      rows := rows[key := row];
    }

    /** Returns None exactly when the call may proceed to its write-ahead row. */
    method CheckApproval(key: Key, call: Call, tool: Tool, row: Row, handler: string -> Answer)
      returns (gated: Option<Outcome>)
      requires key !in rows && row.status.Started?
      modifies this`rows, this`approvals
      ensures gated.None? <==> key in old(approvals) && old(approvals[key].status.Approved?)
      ensures gated.None? ==> rows == old(rows) && approvals == old(approvals)
      ensures gated.Some? ==>
        At(key, call, Some(tool), Done(gated.value))
        == RunStages(env, handler, old(At(key, call, Some(tool), Gate(row))))
    {
      ghost var start := At(key, call, Some(tool), Gate(row));
      ghost var next := StepOnce(env, handler, start);
      Continue(env, handler, start, next);
      if key !in approvals {
        approvals := approvals[key := Approval(row.tier, row.args, Decision.Pending, None)];
        gated := Some(Outcome(Nothing, false, true));
        Continue(env, handler, next, At(key, call, Some(tool), Done(gated.value)));
        return;
      }
      var approval := approvals[key];
      if approval.status.Pending? {
        return Some(Outcome(Nothing, false, true));
      }
      if approval.status.Approved? {
        return None;
      }
      var error := DeniedByApprover(approval.status, approval.reason);
      InsertRow(key, row.(status := ExecutionStatus.Failed, error := Some(error)));
      gated := Some(Plain(Error(error, ApprovalDenied, false)));
      Continue(env, handler, next, At(key, call, Some(tool), Done(gated.value)));
    }

    method RecordUnknownTool(key: Key, call: Call, handler: string -> Answer) returns (outcome: Outcome)
      modifies this`rows
      ensures At(key, call, None, Done(outcome)) == RunStages(env, handler, old(At(key, call, None, Lookup)))
    {
      ghost var start := At(key, call, None, Lookup);
      ghost var next := StepOnce(env, handler, start);
      Continue(env, handler, start, next);
      if key in rows {
        return Plain(Error(TextOr(rows[key].error, NoSuchTool), UnknownTool, false));
      }
      var row := UnknownToolRow(call);
      InsertRow(key, row);
      outcome := Plain(Error(row.error.value, UnknownTool, false));
      Continue(env, handler, next, At(key, call, None, Done(outcome)));
    }

    method ResolveExisting(key: Key, call: Call, tool: Tool, handler: string -> Answer) returns (outcome: Outcome)
      requires key in rows
      modifies this
      ensures At(key, call, Some(tool), Done(outcome))
              == RunStages(env, handler, old(At(key, call, Some(tool), AfterExisting(rows[key]))))
    {
      var row := rows[key];
      match row.status {
        case Succeeded => outcome := Plain(Success(ResultOr(row.result, "{}")));
        case Failed => outcome := Plain(Error(TextOr(row.error, ToolCallFailed), ExecutionFailed, false));
        case Unknown => outcome := Plain(Error(TextOr(row.error, ToolCallFailed), OutcomeUnknown, false));
        case Started => outcome := RecoverStarted(key, call, tool, handler);
      }
    }

    method RecoverStarted(key: Key, call: Call, tool: Tool, handler: string -> Answer) returns (outcome: Outcome)
      requires key in rows && rows[key].status.Started?
      modifies this
      ensures At(key, call, Some(tool), Done(outcome))
              == RunStages(env, handler, old(At(key, call, Some(tool), AfterExisting(rows[key]))))
    {
      var row := rows[key];
      if row.tier.ReadOnly? || (row.tier.LowRiskWrite? && row.idempotent) {
        outcome := InvokeAndFinalize(key, call, tool, row, Recovered, handler);
        return;
      }
      var fatal := row.tier.SensitiveWrite? || row.tier.Destructive?;
      ghost var start := At(key, call, Some(tool), MarkUnknown(fatal));
      assert AfterExisting(row) == MarkUnknown(fatal);
      rows := rows[key := row.(status := Unknown, error := Some(CrashedMidExecution(fatal)))];
      outcome := Outcome(Error(CrashedMidExecution(fatal), OutcomeUnknown, false), fatal, false);
      Continue(env, handler, start, At(key, call, Some(tool), Done(outcome)));
    }

    method InvokeAndFinalize(key: Key, call: Call, tool: Tool, row: Row, origin: Origin, handler: string -> Answer)
      returns (outcome: Outcome)
      requires key in rows && rows[key] == row
      modifies this`rows, this`effects
      ensures At(key, call, Some(tool), Done(outcome))
              == RunStages(env, handler, old(At(key, call, Some(tool), Invoke(row, origin))))
      ensures effects == old(effects) + [Effect(key, row.tier, row.idempotent, row.args, origin)]
    {
      ghost var start := At(key, call, Some(tool), Invoke(row, origin));
      ghost var next := StepOnce(env, handler, start);
      Continue(env, handler, start, next);
      effects := effects + [Effect(key, row.tier, row.idempotent, row.args, origin)];
      var answer := handler(row.args);
      match answer {
        case Returned(result) =>
          rows := rows[key := row.(status := Succeeded, result := Some(env.truncate(result)))];
          outcome := Plain(Success(env.truncate(result)));
        case Raised(message, runtime) =>
          rows := rows[key := row.(status := ExecutionStatus.Failed, error := Some(Message(message)))];
          outcome := Plain(match runtime
            case Some((code, retryable)) => Error(Message(message), code, retryable)
            case None => Error(Message(message), ExecutionFailed, tool.tier.ReadOnly? || tool.idempotent));
      }
      Continue(env, handler, next, At(key, call, Some(tool), Done(outcome)));
    }
  }
}
