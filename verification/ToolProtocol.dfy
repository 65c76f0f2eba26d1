/** Concurrent executions of tool calls over one shared database.

    Any number of executions, of any calls with any tools, run the stages of
    ToolExecutor in any interleaving. Any of them may die between two stages,
    the same key may be delivered again at any time, and an approval may be
    decided, expired or overwritten at any time: the route and the reaper write
    a decision without re-checking the one they read. */
module ToolProtocol {
  import opened Domain
  import opened ToolExecutor

  /** What happened, in order. `task` names the execution that did it. */
  datatype Fact =
    | FoundStarted(task: nat, key: Key)
    | ReadDecision(task: nat, key: Key, decision: Decision)
    | Inserted(task: nat, key: Key, started: bool)
    | Invoked(task: nat, effect: Effect)

  datatype State = State(db: Database, tasks: map<nat, Task>, next: nat, history: seq<Fact>)

  datatype Event =
    | Spawn(key: Key, call: Call, tool: Option<Tool>)
    | Step(task: nat, answer: Answer)
    | Crash(task: nat)
    | Decide(key: Key, decision: Decision, reason: Option<string>)

  predicate Enabled(s: State, e: Event) {
    match e
    case Spawn(_, _, _) => true
    case Step(t, _) => t in s.tasks && !Finished(s.tasks[t].stage) && WellFormed(s.tasks[t])
    case Crash(t) => t in s.tasks
    case Decide(key, decision, _) => key in s.db.approvals && !decision.Pending?
  }

  function FactsOf(db: Database, t: nat, task: Task): seq<Fact> {
    match task.stage
    case Lookup =>
      if task.tool.Some? && task.key in db.rows && db.rows[task.key].status.Started?
      then [FoundStarted(t, task.key)] else []
    case Gate(_) =>
      if task.key in db.approvals then [ReadDecision(t, task.key, db.approvals[task.key].status)] else []
    case InsertStarted(_) => if task.key in db.rows then [] else [Inserted(t, task.key, true)]
    case InsertFailed(_, _) => if task.key in db.rows then [] else [Inserted(t, task.key, false)]
    case Invoke(row, origin) => [Invoked(t, Effect(task.key, row.tier, row.idempotent, row.args, origin))]
    case _ => []
  }

  function Next(env: Env, s: State, e: Event): State
    requires Enabled(s, e)
  {
    match e
    case Spawn(key, call, tool) =>
      s.(tasks := s.tasks[s.next := Task(key, call, tool, Lookup)], next := s.next + 1)
    case Step(t, answer) =>
      var task := s.tasks[t];
      var (db, stage) := Advance(env, s.db, task, answer);
      s.(db := db, tasks := s.tasks[t := task.(stage := stage)], history := s.history + FactsOf(s.db, t, task))
    case Crash(t) => s.(tasks := s.tasks - {t})
    case Decide(key, decision, reason) =>
      var approval := s.db.approvals[key].(status := decision, reason := reason);
      s.(db := s.db.(approvals := s.db.approvals[key := approval]))
  }

  const Initial := State(Database(map[], map[]), map[], 0, [])

  /** A run is a sequence of events, each enabled where it happens. */
  predicate ValidTrace(env: Env, s: State, trace: seq<Event>)
    decreases |trace|
  {
    trace == [] || (Enabled(s, trace[0]) && ValidTrace(env, Next(env, s, trace[0]), trace[1..]))
  }

  function Run(env: Env, s: State, trace: seq<Event>): State
    requires ValidTrace(env, s, trace)
    decreases |trace|
  {
    if trace == [] then s else Run(env, Next(env, s, trace[0]), trace[1..])
  }

  // ------------------------------------------------------------ invariants

  predicate Identity(a: Row, b: Row) {
    a.toolName == b.toolName && a.tier == b.tier && a.idempotent == b.idempotent && a.args == b.args
  }

  ghost predicate Born(history: seq<Fact>, key: Key, started: bool) {
    exists t :: Inserted(t, key, started) in history
  }

  /** Rows and insertions correspond, one insertion per key, and a row inserted as
      failed stays failed. */
  ghost predicate RowsAreBorn(s: State) {
    && (forall key :: key in s.db.rows ==> Born(s.history, key, true) || Born(s.history, key, false))
    && (forall t, key, b :: Inserted(t, key, b) in s.history ==> key in s.db.rows)
    && (forall t, key :: Inserted(t, key, false) in s.history ==>
          key in s.db.rows && s.db.rows[key].status == ExecutionStatus.Failed)
    && (forall t, b, t', b', key :: Inserted(t, key, b) in s.history && Inserted(t', key, b') in s.history ==>
          t == t' && b == b')
  }

  ghost predicate TaskOk(s: State, t: nat) {
    t in s.tasks ==>
      var task := s.tasks[t];
      && t < s.next
      && WellFormed(task)
      && (task.stage.InsertFailed? ==> task.stage.row.status == ExecutionStatus.Failed)
      && (task.stage.InsertStarted? || task.stage.Gate? || task.stage.Request? ==> task.stage.row.status.Started?)
      && (task.stage.InsertStarted? && RequiresApproval(task.stage.row.tier) ==>
            ReadDecision(t, task.key, Approved) in s.history)
      && (task.stage.Finalize? || task.stage.MarkUnknown? ==> Born(s.history, task.key, true))
      && (task.stage.Invoke? ==> InvokeOk(s, t, task))
  }

  ghost predicate InvokeOk(s: State, t: nat, task: Task)
    requires task.stage.Invoke?
  {
    && Born(s.history, task.key, true)
    && task.key in s.db.rows
    && Identity(task.stage.row, s.db.rows[task.key])
    && match task.stage.origin
       case Fresh =>
         && Inserted(t, task.key, true) in s.history
         && (RequiresApproval(task.stage.row.tier) ==> ReadDecision(t, task.key, Approved) in s.history)
       case Recovered =>
         && RetrySafe(task.stage.row.tier, task.stage.row.idempotent)
         && FoundStarted(t, task.key) in s.history
  }

  /** Executions are numbered once, and one that has invoked is past invoking. */
  ghost predicate InvokesOnce(s: State) {
    && (forall t: nat, e :: Invoked(t, e) in s.history ==>
          t < s.next && (t in s.tasks ==> Rank(s.tasks[t].stage) < 3))
    && (forall i, j :: 0 <= i < j < |s.history| && s.history[i].Invoked? && s.history[j].Invoked? ==>
          s.history[i].task != s.history[j].task)
  }

  /** An invocation is justified by facts before it. */
  ghost predicate Justified(before: seq<Fact>, rows: map<Key, Row>, t: nat, e: Effect) {
    && e.key in rows && rows[e.key].tier == e.tier && rows[e.key].idempotent == e.idempotent
    && rows[e.key].args == e.args
    && Born(before, e.key, true)
    && match e.origin
       case Fresh =>
         && Inserted(t, e.key, true) in before
         && (RequiresApproval(e.tier) ==> ReadDecision(t, e.key, Approved) in before)
       case Recovered => RetrySafe(e.tier, e.idempotent) && FoundStarted(t, e.key) in before
  }

  ghost predicate InvocationsJustified(s: State) {
    forall i :: 0 <= i < |s.history| && s.history[i].Invoked? ==>
      Justified(s.history[..i], s.db.rows, s.history[i].task, s.history[i].effect)
  }

  predicate Denies(d: Decision) {
    d.Rejected? || d.Expired?
  }

  /** An execution that read a denial can only leave a failed row. */
  ghost predicate DenialsStick(s: State) {
    && (forall t: nat, key, d :: ReadDecision(t, key, d) in s.history && Denies(d) ==>
          t < s.next && (t in s.tasks ==> DeniedOk(s.history, t, s.tasks[t], key)))
    && (forall t: nat, key, d, e :: ReadDecision(t, key, d) in s.history && Denies(d) ==> Invoked(t, e) !in s.history)
  }

  predicate DeniedOk(history: seq<Fact>, t: nat, task: Task, key: Key) {
    && task.key == key
    && (task.stage.InsertFailed? || task.stage.Conflict?
        || (task.stage.Done? && Inserted(t, key, false) in history))
  }

  ghost predicate Inv(s: State) {
    && RowsAreBorn(s)
    && (forall t :: t in s.tasks ==> TaskOk(s, t))
    && InvokesOnce(s)
    && InvocationsJustified(s)
    && DenialsStick(s)
  }

  // ---------------------------------------------------------- preservation

  /** One stage changes no row's identity, and adds at most its own key. */
  lemma StageKeepsIdentity(env: Env, db: Database, task: Task, answer: Answer)
    requires !Finished(task.stage) && WellFormed(task)
    ensures
      var db' := Advance(env, db, task, answer).0;
      && (forall key :: key in db.rows ==> key in db'.rows && Identity(db.rows[key], db'.rows[key]))
      && (forall key :: key in db'.rows && key !in db.rows ==>
            key == task.key && (task.stage.InsertStarted? || task.stage.InsertFailed?))
      && (forall key :: key in db.rows && key != task.key ==> db'.rows[key] == db.rows[key])
  {}

  lemma StepKeepsBorn(env: Env, s: State, t: nat, answer: Answer, key: Key)
    requires RowsAreBorn(s) && Enabled(s, Step(t, answer)) && key in Next(env, s, Step(t, answer)).db.rows
    ensures
      var s' := Next(env, s, Step(t, answer));
      Born(s'.history, key, true) || Born(s'.history, key, false)
  {
    var s' := Next(env, s, Step(t, answer));
    var task := s.tasks[t];
    StageKeepsIdentity(env, s.db, task, answer);
    if key in s.db.rows {
      var u, b :| Inserted(u, key, b) in s.history;
      assert Inserted(u, key, b) in s'.history;
    } else {
      assert Inserted(t, key, task.stage.InsertStarted?) in s'.history;
    }
  }

  lemma StepKeepsAllBorn(env: Env, s: State, t: nat, answer: Answer)
    requires RowsAreBorn(s) && TaskOk(s, t) && Enabled(s, Step(t, answer))
    ensures RowsAreBorn(Next(env, s, Step(t, answer)))
  {
    var s' := Next(env, s, Step(t, answer));
    StageKeepsIdentity(env, s.db, s.tasks[t], answer);
    forall key | key in s'.db.rows
      ensures Born(s'.history, key, true) || Born(s'.history, key, false)
    {
      StepKeepsBorn(env, s, t, answer, key);
    }
  }

  lemma StepKeepsIdentity(env: Env, s: State, t: nat, answer: Answer)
    requires Enabled(s, Step(t, answer))
    ensures forall key :: key in s.db.rows ==>
      key in Next(env, s, Step(t, answer)).db.rows
      && Identity(s.db.rows[key], Next(env, s, Step(t, answer)).db.rows[key])
  {
    StageKeepsIdentity(env, s.db, s.tasks[t], answer);
  }

  lemma StepKeepsRows(env: Env, s: State, t: nat, answer: Answer)
    requires Inv(s) && Enabled(s, Step(t, answer))
    ensures RowsAreBorn(Next(env, s, Step(t, answer)))
    ensures forall key :: key in s.db.rows ==>
      key in Next(env, s, Step(t, answer)).db.rows
      && Identity(s.db.rows[key], Next(env, s, Step(t, answer)).db.rows[key])
  {
    assert TaskOk(s, t);
    StepKeepsAllBorn(env, s, t, answer);
    StepKeepsIdentity(env, s, t, answer);
  }

  lemma StepKeepsTask(env: Env, s: State, t: nat, answer: Answer, u: nat)
    requires Inv(s) && Enabled(s, Step(t, answer)) && u in s.tasks
    ensures TaskOk(Next(env, s, Step(t, answer)), u)
  {
    var s' := Next(env, s, Step(t, answer));
    StepKeepsRows(env, s, t, answer);
    assert TaskOk(s, t) && TaskOk(s, u);
    forall key, b | Born(s.history, key, b)
      ensures Born(s'.history, key, b)
    {
      var v :| Inserted(v, key, b) in s.history;
      assert Inserted(v, key, b) in s'.history;
    }
    if u == t {
      var task := s.tasks[t];
      match task.stage {
        case Lookup =>
        case Gate(row) => if s'.tasks[t].stage.InsertStarted? { assert ReadDecision(t, task.key, Approved) in s'.history; }
        case InsertStarted(row) => if task.key !in s.db.rows { assert Inserted(t, task.key, true) in s'.history; }
        case _ =>
      }
      if task.stage.Lookup? && (s'.tasks[t].stage.Invoke? || s'.tasks[t].stage.MarkUnknown?) {
        assert FoundStarted(t, task.key) in s'.history;
        assert Born(s.history, task.key, true);
      }
    }
  }

  /** A stage moves its execution on, and only the invoking stage reports an invocation. */
  lemma StageMovesOn(env: Env, s: State, t: nat, answer: Answer)
    requires Enabled(s, Step(t, answer))
    ensures
      var s' := Next(env, s, Step(t, answer));
      && Rank(s'.tasks[t].stage) < Rank(s.tasks[t].stage)
      && s'.history == s.history + FactsOf(s.db, t, s.tasks[t]) && |FactsOf(s.db, t, s.tasks[t])| <= 1
      && (forall f :: f in FactsOf(s.db, t, s.tasks[t]) && f.Invoked? ==> f.task == t && s.tasks[t].stage.Invoke?)
  {}

  lemma StepKeepsInvokesOnce(env: Env, s: State, t: nat, answer: Answer)
    requires InvokesOnce(s) && TaskOk(s, t) && Enabled(s, Step(t, answer))
    ensures InvokesOnce(Next(env, s, Step(t, answer)))
  {
    var s' := Next(env, s, Step(t, answer));
    StageMovesOn(env, s, t, answer);
    forall i, j | 0 <= i < j < |s'.history| && s'.history[i].Invoked? && s'.history[j].Invoked?
      ensures s'.history[i].task != s'.history[j].task
    {
      if j >= |s.history| {
        assert s'.history[j] in FactsOf(s.db, t, s.tasks[t]);
        assert Invoked(s'.history[i].task, s'.history[i].effect) in s.history;
      }
    }
  }

  lemma JustifiedIsStable(before: seq<Fact>, rows: map<Key, Row>, rows': map<Key, Row>, t: nat, e: Effect)
    requires Justified(before, rows, t, e)
    requires forall key :: key in rows ==> key in rows' && Identity(rows[key], rows'[key])
    ensures Justified(before, rows', t, e)
  {}

  lemma StepKeepsJustified(env: Env, s: State, t: nat, answer: Answer)
    requires Inv(s) && Enabled(s, Step(t, answer))
    ensures InvocationsJustified(Next(env, s, Step(t, answer)))
  {
    var s' := Next(env, s, Step(t, answer));
    StepKeepsRows(env, s, t, answer);
    assert TaskOk(s, t);
    forall i | 0 <= i < |s'.history| && s'.history[i].Invoked?
      ensures Justified(s'.history[..i], s'.db.rows, s'.history[i].task, s'.history[i].effect)
    {
      if i < |s.history| {
        assert s'.history[..i] == s.history[..i];
        JustifiedIsStable(s.history[..i], s.db.rows, s'.db.rows, s.history[i].task, s.history[i].effect);
      } else {
        assert s'.history[..i] == s.history;
        assert InvokeOk(s, t, s.tasks[t]);
      }
    }
  }

  lemma StepKeepsDenials(env: Env, s: State, t: nat, answer: Answer)
    requires Inv(s) && Enabled(s, Step(t, answer))
    ensures DenialsStick(Next(env, s, Step(t, answer)))
  {
    var s' := Next(env, s, Step(t, answer));
    assert TaskOk(s, t);
    var task := s.tasks[t];
    forall u: nat, key, d | ReadDecision(u, key, d) in s'.history && Denies(d)
      ensures u < s'.next
      ensures u in s'.tasks ==> DeniedOk(s'.history, u, s'.tasks[u], key)
    {
      if ReadDecision(u, key, d) in s.history {
        if u == t && task.stage.InsertFailed? && key !in s.db.rows {
          assert Inserted(t, key, false) in s'.history;
        }
      } else {
        assert u == t && task.stage.Gate?;
      }
    }
    forall u: nat, key, d, e | ReadDecision(u, key, d) in s'.history && Denies(d)
      ensures Invoked(u, e) !in s'.history
    {
      if ReadDecision(u, key, d) in s.history {
        assert Invoked(u, e) !in s.history;
        assert u == t ==> !task.stage.Invoke?;
      } else {
        assert u == t && task.stage.Gate?;
        assert Invoked(t, e) !in s.history;
      }
    }
  }

  lemma InvIsPreserved(env: Env, s: State, e: Event)
    requires Inv(s) && Enabled(s, e)
    ensures Inv(Next(env, s, e))
  {
    var s' := Next(env, s, e);
    match e {
      case Step(t, answer) =>
        StepKeepsRows(env, s, t, answer);
        StepKeepsInvokesOnce(env, s, t, answer);
        StepKeepsJustified(env, s, t, answer);
        StepKeepsDenials(env, s, t, answer);
        forall u | u in s'.tasks
          ensures TaskOk(s', u)
        {
          StepKeepsTask(env, s, t, answer, u);
        }
      case _ =>
        assert s'.history == s.history && s'.db.rows == s.db.rows;
        forall u | u in s'.tasks
          ensures TaskOk(s', u)
        {
          if u in s.tasks { assert TaskOk(s, u); }
        }
    }
  }

  lemma {:induction false} RunsKeepInv(env: Env, s: State, trace: seq<Event>)
    requires Inv(s) && ValidTrace(env, s, trace)
    ensures Inv(Run(env, s, trace))
    decreases |trace|
  {
    if trace != [] {
      InvIsPreserved(env, s, trace[0]);
      RunsKeepInv(env, Next(env, s, trace[0]), trace[1..]);
    }
  }

  // -------------------------------------------------------------- theorems

  predicate InvokesKey(f: Fact, key: Key) {
    f.Invoked? && f.effect.key == key
  }

  /** At-most-once: under every interleaving of executions, crashes and replays, a
      handler runs at most once for a key whose stored tier is not retry-safe. */
  lemma AtMostOnce(env: Env, trace: seq<Event>, i: nat, j: nat)
    requires ValidTrace(env, Initial, trace)
    requires
      var h := Run(env, Initial, trace).history;
      i < |h| && j < |h| && h[i].Invoked? && h[j].Invoked? && h[i].effect.key == h[j].effect.key
    ensures
      var s := Run(env, Initial, trace);
      var key := s.history[i].effect.key;
      && key in s.db.rows
      && (!RetrySafe(s.db.rows[key].tier, s.db.rows[key].idempotent) ==> i == j)
  {
    RunsKeepInv(env, Initial, trace);
    var s := Run(env, Initial, trace);
    var h := s.history;
    var key := h[i].effect.key;
    assert Justified(h[..i], s.db.rows, h[i].task, h[i].effect);
    assert Justified(h[..j], s.db.rows, h[j].task, h[j].effect);
    if !RetrySafe(s.db.rows[key].tier, s.db.rows[key].idempotent) {
      assert Inserted(h[i].task, key, true) in h;
      assert Inserted(h[j].task, key, true) in h;
    }
  }

  /** Every invocation was made by the execution that inserted the row, once, or by
      one that found the row `started` under a retry-safe stored tier. */
  lemma RerunsOnlyFromStarted(env: Env, trace: seq<Event>, i: nat)
    requires ValidTrace(env, Initial, trace)
    requires i < |Run(env, Initial, trace).history| && Run(env, Initial, trace).history[i].Invoked?
    ensures
      var s := Run(env, Initial, trace);
      var t, e := s.history[i].task, s.history[i].effect;
      && e.key in s.db.rows
      && (|| Inserted(t, e.key, true) in s.history[..i]
          || (RetrySafe(s.db.rows[e.key].tier, s.db.rows[e.key].idempotent)
              && FoundStarted(t, e.key) in s.history[..i]))
      && (forall j :: 0 <= j < |s.history| && s.history[j].Invoked? && s.history[j].task == t ==> j == i)
  {
    RunsKeepInv(env, Initial, trace);
    var s := Run(env, Initial, trace);
    assert Justified(s.history[..i], s.db.rows, s.history[i].task, s.history[i].effect);
  }

  /** Approval gate: a handler of an approval tier runs only after the same
      execution read the request for that same key as approved. */
  lemma ApprovalGate(env: Env, trace: seq<Event>, i: nat)
    requires ValidTrace(env, Initial, trace)
    requires i < |Run(env, Initial, trace).history| && Run(env, Initial, trace).history[i].Invoked?
    requires RequiresApproval(Run(env, Initial, trace).history[i].effect.tier)
    ensures
      var h := Run(env, Initial, trace).history;
      ReadDecision(h[i].task, h[i].effect.key, Approved) in h[..i]
  {
    RunsKeepInv(env, Initial, trace);
    var s := Run(env, Initial, trace);
    assert Justified(s.history[..i], s.db.rows, s.history[i].task, s.history[i].effect);
  }

  /** Denial: an execution that read its request as rejected or expired and came
      to an end left a failed row, unless another execution took the key first;
      and no handler ever runs for the key of a row inserted as failed. */
  lemma DenialNeverRuns(env: Env, trace: seq<Event>, t: nat, key: Key, d: Decision)
    requires ValidTrace(env, Initial, trace)
    requires
      var s := Run(env, Initial, trace);
      && ReadDecision(t, key, d) in s.history && Denies(d)
      && t in s.tasks && Finished(s.tasks[t].stage)
    ensures
      var s := Run(env, Initial, trace);
      && (forall e :: Invoked(t, e) !in s.history)
      && (s.tasks[t].stage.Done? ==>
            && key in s.db.rows && s.db.rows[key].status == ExecutionStatus.Failed
            && forall i :: 0 <= i < |s.history| ==> !InvokesKey(s.history[i], key))
  {
    RunsKeepInv(env, Initial, trace);
    var s := Run(env, Initial, trace);
    if s.tasks[t].stage.Done? {
      BornFailedNeverRuns(s, t, key);
    }
  }

  lemma BornFailedNeverRuns(s: State, t: nat, key: Key)
    requires Inv(s) && Inserted(t, key, false) in s.history
    ensures forall i :: 0 <= i < |s.history| ==> !InvokesKey(s.history[i], key)
  {
    forall i | 0 <= i < |s.history| && s.history[i].Invoked?
      ensures s.history[i].effect.key != key
    {
      var e := s.history[i].effect;
      assert Justified(s.history[..i], s.db.rows, s.history[i].task, e);
      var u :| Inserted(u, e.key, true) in s.history[..i];
      assert Inserted(u, e.key, true) in s.history;
    }
  }
}
