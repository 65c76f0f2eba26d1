/** The run protocol and the stored steps its workers render and compact.

    A step becomes a row when the worker that holds it commits; a summary becomes a row
    together with the usage record of the call that wrote it. Every run of the product
    is a run of the run protocol and a run of CompactionTheorems, whose numbering of the
    steps is so a theorem of the protocol and no assumption. */
module DurableContext {
  import opened Domain
  import P = RunProtocol
  import I = RunInvariants
  import B = RunBudgets
  import D = RunRepository
  import opened Context
  import opened Compaction
  import C = CompactionTheorems

  /** The protocol's state, and the versions of the step rows, latest last. */
  datatype State = State(run: P.State, past: C.Past)

  /** `content` and `now` are the text and the time of the step an event makes durable, if
      it does; `seen` is the version the compacting worker loaded. */
  datatype Event =
    | RunEvent(e: P.Event, content: Option<string>, now: int)
    | Compacts(a: nat, tokens: nat, compaction: C.Event)

  ghost predicate Enabled(env: Env, s: State, e: Event)
    requires C.Inv(s.past)
  {
    match e
    case RunEvent(e, _, _) => P.Enabled(s.run, e) && !e.Compact?
    case Compacts(a, tokens, c) =>
      && P.Enabled(s.run, P.Compact(a, tokens)) && c.Compact? && C.Enabled(s.past, c)
      && C.Next(env, s.past, c) != s.past
  }

  ghost function Next(env: Env, s: State, e: Event): State
    requires C.Inv(s.past) && Enabled(env, s, e)
  {
    match e
    case RunEvent(e, content, now) =>
      var run, k := P.Next(s.run, e), C.Last(s.past).calls;
      State(run, if k in run.steps then C.Next(env, s.past, C.AddCall(content, run.steps[k].calls, now)) else s.past)
    case Compacts(a, tokens, c) => State(P.Next(s.run, P.Compact(a, tokens)), C.Next(env, s.past, c))
  }

  /** The rows of the LLM calls are the persisted steps. */
  ghost predicate SameSteps(run: P.State, v: C.Version)
    requires C.RowsOk(v)
  {
    && (forall k: nat :: k in run.steps <==> k < v.calls)
    && (forall k: nat :: k < v.calls ==> v.steps[k].calls == run.steps[k].calls)
  }

  ghost predicate Inv(s: State) {
    I.Inv(s.run) && C.Inv(s.past) && SameSteps(s.run, C.Last(s.past))
  }

  /** An event makes at most one step durable: the run's current one. */
  lemma StepsGrowByOne(s: P.State, e: P.Event)
    requires I.Inv(s) && P.Enabled(s, e)
    ensures
      var t := P.Next(s, e);
      || t.steps == s.steps
      || (s.row.currentStep !in s.steps && s.row.currentStep in t.steps
          && t.steps == s.steps[s.row.currentStep := t.steps[s.row.currentStep]])
  {
    if e.CommitCall? || e.EndStep? {
      assert I.PhaseOk(s, e.a, s.actors[e.a]);
      if s.actors[e.a].reply.Uncommitted? { I.UncommittedIsCurrent(s, e.a); }
    } else {
      B.OthersKeepSteps(s, e);
    }
  }

  lemma RunEventKeepsInv(env: Env, s: State, e: Event)
    requires Inv(s) && Enabled(env, s, e) && e.RunEvent?
    ensures Inv(Next(env, s, e))
  {
    var v, t := C.Last(s.past), Next(env, s, e);
    I.InvIsPreserved(s.run, e.e);
    StepsGrowByOne(s.run, e.e);
    if t.run.steps == s.run.steps {
      assert v.calls !in t.run.steps;
    } else {
      assert s.run.row.currentStep == v.calls;
      C.NextKeepsInv(env, s.past, C.AddCall(e.content, t.run.steps[v.calls].calls, e.now));
    }
  }

  lemma LaterKeepsSteps(run: P.State, v: C.Version, w: C.Version)
    requires C.RowsOk(v) && C.RowsOk(w) && SameSteps(run, v) && C.Later(v, w) && w.calls == v.calls
    ensures SameSteps(run, w)
  {
    assert forall k: nat :: k < v.calls ==> k in v.steps;
  }

  lemma CompactsKeepsInv(env: Env, s: State, e: Event)
    requires Inv(s) && Enabled(env, s, e) && e.Compacts?
    ensures Inv(Next(env, s, e))
  {
    var t := Next(env, s, e);
    I.InvIsPreserved(s.run, P.Compact(e.a, e.tokens));
    C.NextKeepsInv(env, s.past, e.compaction);
    assert t.past != s.past && |t.past| == |s.past| + 1;
    assert C.Later(t.past[|s.past| - 1], t.past[|s.past|]);
    LaterKeepsSteps(t.run, C.Last(s.past), C.Last(t.past));
  }

  lemma NextKeepsInv(env: Env, s: State, e: Event)
    requires Inv(s) && Enabled(env, s, e)
    ensures Inv(Next(env, s, e))
  {
    if e.RunEvent? { RunEventKeepsInv(env, s, e); } else { CompactsKeepsInv(env, s, e); }
  }

  function Initial(row: D.RunRow): State {
    State(P.Initial(row), C.Empty)
  }

  lemma InitialIsInv(row: D.RunRow)
    requires P.NewRun(row)
    ensures Inv(Initial(row))
  {
    B.NewRunIsInv(row);
    assert C.Inv(C.Empty);
    assert P.Initial(row).steps == map[];
  }

  ghost predicate ValidTrace(env: Env, s: State, trace: seq<Event>)
    requires Inv(s)
    decreases |trace|
  {
    if trace == [] then true
    else Enabled(env, s, trace[0]) && (NextKeepsInv(env, s, trace[0]); ValidTrace(env, Next(env, s, trace[0]), trace[1..]))
  }

  ghost function Run(env: Env, s: State, trace: seq<Event>): (t: State)
    requires Inv(s) && ValidTrace(env, s, trace)
    ensures Inv(t)
    decreases |trace|
  {
    if trace == [] then s
    else
      NextKeepsInv(env, s, trace[0]);
      Run(env, Next(env, s, trace[0]), trace[1..])
  }

  // ------------------------------------------------------------- refinement

  lemma RunStep(env: Env, s: State, e: Event) returns (p: P.Event)
    requires Inv(s) && Enabled(env, s, e)
    ensures P.Enabled(s.run, p) && P.Next(s.run, p) == Next(env, s, e).run
  {
    p := if e.RunEvent? then e.e else P.Compact(e.a, e.tokens);
  }

  /** The rows stay, or take one step of their own. */
  lemma PastStep(env: Env, s: State, e: Event) returns (c: Option<C.Event>)
    requires Inv(s) && Enabled(env, s, e)
    ensures c == None ==> Next(env, s, e).past == s.past
    ensures c.Some? ==> C.Enabled(s.past, c.value) && C.Next(env, s.past, c.value) == Next(env, s, e).past
  {
    var k := C.Last(s.past).calls;
    c := match e
      case Compacts(_, _, compaction) => Some(compaction)
      case RunEvent(p, content, now) =>
        var steps := P.Next(s.run, p).steps;
        if k in steps then Some(C.AddCall(content, steps[k].calls, now)) else None;
  }

  /** Every run of the product is a run of the run protocol, and its rows evolve as a run
      of calls and compactions. */
  lemma {:induction false} RunsRefineBoth(env: Env, s: State, trace: seq<Event>)
    returns (runTrace: seq<P.Event>, pastTrace: seq<C.Event>)
    requires Inv(s) && ValidTrace(env, s, trace)
    ensures P.ValidTrace(s.run, runTrace) && P.Run(s.run, runTrace) == Run(env, s, trace).run
    ensures C.ValidTrace(env, s.past, pastTrace) && C.Run(env, s.past, pastTrace) == Run(env, s, trace).past
    decreases |trace|
  {
    runTrace, pastTrace := [], [];
    if trace != [] {
      NextKeepsInv(env, s, trace[0]);
      var t := Next(env, s, trace[0]);
      var p := RunStep(env, s, trace[0]);
      var c := PastStep(env, s, trace[0]);
      var run2, past2 := RunsRefineBoth(env, t, trace[1..]);
      runTrace := [p] + run2;
      assert runTrace[1..] == run2;
      pastTrace := past2;
      if c.Some? {
        C.RunCons(env, s.past, c.value, past2);
        pastTrace := [c.value] + past2;
      }
    }
  }

  // --------------------------------------------------------------- theorems

  /** In every reachable state of the durable system each persisted step of the run is sent
      to the LLM verbatim or stands under exactly one summary, and the last ten are
      verbatim, whatever workers, crashes and late compactions did. */
  lemma PersistedStepsAreShownOnce(env: Env, row: D.RunRow, trace: seq<Event>, k: nat)
    requires P.NewRun(row) && Inv(Initial(row)) && ValidTrace(env, Initial(row), trace)
    requires k in Run(env, Initial(row), trace).run.steps
    ensures
      var s := Run(env, Initial(row), trace);
      var v := C.Last(s.past);
      && C.Ok(v) && k < v.calls && v.steps[k].LlmCall? && v.steps[k].calls == s.run.steps[k].calls
      && C.ShownOnce(v, k)
      && (s.run.row.currentStep < k + KEEP_RECENT_STEPS ==>
            Visible(v.steps[k], k, Covered(v.steps, C.All(v))))
  {
    var s := Run(env, Initial(row), trace);
    var v := C.Last(s.past);
    C.VersionIsPartitioned(v, k);
    assert v.calls <= s.run.row.currentStep + 1 by {
      if v.calls > 0 { assert v.calls - 1 in s.run.steps; }
    }
  }
}
