/** The calls of one CLI step: what the loop reads off them, and what it must make of
    those that run at the same time. */
module ToolCalls {
  import opened Domain
  import opened TokenUtils
  import opened History
  import V = Verification
  import C = ResultCache

  /** What the loop is configured with, and what it reads off a call. `invalid` is the
      complaint about a call's arguments, if they do not fit the tool's schema. */
  datatype Env<!W> = Env(
    config: Config,
    toolbox: C.Toolbox<W>,
    canonical: Call -> string,
    invalid: Call -> Option<string>,
    process: (Call, C.Observation) -> V.ProcessChange,
    attempt: Call -> bool,
    evidence: (Call, C.Observation) -> bool,
    denial: Call -> string,
    maxSteps: nat,
    maxRepairs: nat,
    maxParallel: nat)

  function Key<W>(env: Env<W>, call: Call): C.Query {
    C.Query(call.name, env.canonical(call))
  }

  function Tiers<W>(t: C.Toolbox<W>): map<string, RiskTier> {
    map n | n in t.tools :: t.tools[n].tier
  }

  function ObservedOf<W>(env: Env<W>, call: Call, o: C.Observation): V.Observed {
    V.Observed(
      !o.error, env.process(call, o), C.Mutates(env.toolbox, Key(env, call)),
      env.attempt(call), env.evidence(call, o))
  }

  /** No read-only tool is marked as mutating the workspace. */
  ghost predicate ReadsDoNotMutate<W>(t: C.Toolbox<W>) {
    forall n :: n in t.tools && t.tools[n].tier.ReadOnly? ==> !t.tools[n].mutates
  }

  predicate IsRead<W>(env: Env<W>, call: Call) {
    call.name in env.toolbox.tools && env.toolbox.tools[call.name].tier.ReadOnly?
  }

  /** The calls that run together, and those that run one after the other behind them. */
  function Reads<W>(env: Env<W>, calls: seq<Call>): seq<Call> {
    if calls == [] then []
    else
      var rest, last := Reads(env, calls[..|calls| - 1]), calls[|calls| - 1];
      if IsRead(env, last) then rest + [last] else rest
  }

  function Writes<W>(env: Env<W>, calls: seq<Call>): seq<Call> {
    if calls == [] then []
    else
      var rest, last := Writes(env, calls[..|calls| - 1]), calls[|calls| - 1];
      if IsRead(env, last) then rest else rest + [last]
  }

  function Ordered<W>(env: Env<W>, calls: seq<Call>): seq<Call> {
    Reads(env, calls) + Writes(env, calls)
  }

  lemma {:induction false} AllAreReads<W>(env: Env<W>, calls: seq<Call>)
    ensures forall i :: 0 <= i < |Reads(env, calls)| ==> IsRead(env, Reads(env, calls)[i])
  {
    if calls != [] { AllAreReads(env, calls[..|calls| - 1]); }
  }

  lemma {:induction false} AllAreWrites<W>(env: Env<W>, calls: seq<Call>)
    ensures forall i :: 0 <= i < |Writes(env, calls)| ==> !IsRead(env, Writes(env, calls)[i])
  {
    if calls != [] { AllAreWrites(env, calls[..|calls| - 1]); }
  }

  lemma {:induction false} ReadsOfReads<W>(env: Env<W>, calls: seq<Call>)
    requires forall i :: 0 <= i < |calls| ==> IsRead(env, calls[i])
    ensures Reads(env, calls) == calls && Writes(env, calls) == []
  {
    if calls != [] { ReadsOfReads(env, calls[..|calls| - 1]); }
  }

  lemma {:induction false} OrderedCount<W>(env: Env<W>, calls: seq<Call>)
    ensures |Ordered(env, calls)| == |calls|
  {
    if calls != [] { OrderedCount(env, calls[..|calls| - 1]); }
  }

  function Half<W>(env: Env<W>, calls: seq<Call>, call: Call): seq<Call> {
    if IsRead(env, call) then Reads(env, calls) else Writes(env, calls)
  }

  lemma {:induction false} OrderedHasAll<W>(env: Env<W>, calls: seq<Call>, i: nat)
    requires i < |calls|
    ensures calls[i] in Half(env, calls, calls[i])
    decreases |calls|
  {
    var n := |calls| - 1;
    var half := Half(env, calls, calls[i]);
    if i < n {
      OrderedHasAll(env, calls[..n], i);
      var k :| 0 <= k < |Half(env, calls[..n], calls[i])| && Half(env, calls[..n], calls[i])[k] == calls[i];
      assert half[k] == calls[i];
    } else {
      assert half[|half| - 1] == calls[i];
    }
  }

  /** Complaints by call identifier: the last one counts. */
  function Refused<W>(env: Env<W>, calls: seq<Call>): map<string, C.Observation> {
    if calls == [] then map[]
    else
      var rest, last := Refused(env, calls[..|calls| - 1]), calls[|calls| - 1];
      match env.invalid(last)
      case None => rest
      case Some(text) => rest[last.id := C.Observation(text, true)]
  }

  /** Results by call identifier: the last one counts. */
  function Collected(calls: seq<Call>, own: seq<C.Observation>): map<string, C.Observation>
    requires |own| == |calls|
  {
    if calls == [] then map[]
    else
      var n := |calls| - 1;
      Collected(calls[..n], own[..n])[calls[n].id := own[n]]
  }

  /** So a call is answered with the result of the last call of its identifier. */
  lemma {:induction false} LastOfIdWins(calls: seq<Call>, own: seq<C.Observation>, j: nat)
    requires |own| == |calls| && j < |calls| && forall k :: j < k < |calls| ==> calls[k].id != calls[j].id
    ensures calls[j].id in Collected(calls, own) && Collected(calls, own)[calls[j].id] == own[j]
    decreases |calls|
  {
    var n := |calls| - 1;
    if j < n { LastOfIdWins(calls[..n], own[..n], j); }
  }

  lemma {:induction false} CollectedHasAll(calls: seq<Call>, own: seq<C.Observation>, call: Call)
    requires |own| == |calls| && call in calls
    ensures call.id in Collected(calls, own)
    decreases |calls|
  {
    var n := |calls| - 1;
    if call in calls[..n] { CollectedHasAll(calls[..n], own[..n], call); }
    else { assert call == calls[n]; }
  }

  // --------------------------------------------------- calls that run together

  predicate IsRunOf<W>(step: C.Step<W>, q: C.Query) {
    step == C.Do(q) || step == C.Late(q)
  }

  /** A call waits for its turn, or looked in vain and runs, or is done. */
  datatype Task = Waiting | Missed | Done(own: C.Observation)

  /** How far the calls are that run together. Each that is done was refused for its
      identifier, or is a step of its own, `at[i]`, whose observation it got. */
  ghost predicate Gathered<W>(
    env: Env<W>, calls: seq<Call>, refused: map<string, C.Observation>, tasks: seq<Task>,
    steps: seq<C.Step<W>>, outputs: seq<C.Observation>, at: map<nat, nat>)
  {
    && |outputs| == |steps| && Numbers(at, |steps|) && |tasks| == |calls|
    && (forall i :: i in at ==> i < |tasks|)
    && forall i: nat :: i < |tasks| ==> TaskOk(env, calls[i], refused, tasks[i], steps, outputs, i, at)
  }

  ghost predicate TaskOk<W>(
    env: Env<W>, call: Call, refused: map<string, C.Observation>, task: Task,
    steps: seq<C.Step<W>>, outputs: seq<C.Observation>, i: nat, at: map<nat, nat>)
  {
    match task
    case Waiting => i !in at
    case Missed => i !in at && call.id !in refused
    case Done(o) =>
      if call.id in refused then i !in at && o == refused[call.id]
      else i in at && at[i] < |steps| && at[i] < |outputs| && IsRunOf(steps[at[i]], Key(env, call)) && outputs[at[i]] == o
  }

  /** One-to-one onto the first `n` numbers. */
  ghost predicate Numbers(at: map<nat, nat>, n: nat) {
    && |at| == n
    && (forall i :: i in at ==> at[i] < n)
    && (forall i, j :: i in at && j in at && i != j ==> at[i] != at[j])
  }

  lemma NumberOne(at: map<nat, nat>, n: nat, i: nat)
    requires Numbers(at, n) && i !in at
    ensures Numbers(at[i := n], n + 1)
  {
    assert at[i := n].Keys == at.Keys + {i};
  }

  lemma TaskStays<W>(
    env: Env<W>, call: Call, refused: map<string, C.Observation>, task: Task,
    steps: seq<C.Step<W>>, outputs: seq<C.Observation>, k: nat, at: map<nat, nat>, i: nat, step: C.Step<W>, o: C.Observation)
    requires TaskOk(env, call, refused, task, steps, outputs, k, at) && i != k
    ensures TaskOk(env, call, refused, task, steps + [step], outputs + [o], k, at[i := |steps|])
  {}

  lemma TaskRuns<W>(
    env: Env<W>, call: Call, refused: map<string, C.Observation>,
    steps: seq<C.Step<W>>, outputs: seq<C.Observation>, at: map<nat, nat>, i: nat, step: C.Step<W>, o: C.Observation)
    requires call.id !in refused && IsRunOf(step, Key(env, call)) && |steps| == |outputs|
    ensures TaskOk(env, call, refused, Done(o), steps + [step], outputs + [o], i, at[i := |steps|])
  {}

  function Started(refused: map<string, C.Observation>, call: Call): Task {
    if call.id in refused then Done(refused[call.id]) else Missed
  }

  /** A call starts, or is refused. */
  lemma GatherMore<W>(
    env: Env<W>, calls: seq<Call>, refused: map<string, C.Observation>, tasks: seq<Task>,
    steps: seq<C.Step<W>>, outputs: seq<C.Observation>, at: map<nat, nat>, i: nat)
    requires Gathered(env, calls, refused, tasks, steps, outputs, at) && i < |tasks| && tasks[i].Waiting?
    ensures Gathered(env, calls, refused, tasks[i := Started(refused, calls[i])], steps, outputs, at)
  {}

  /** A call looks its result up, or ends. */
  lemma GatherOne<W>(
    env: Env<W>, calls: seq<Call>, refused: map<string, C.Observation>, tasks: seq<Task>,
    steps: seq<C.Step<W>>, outputs: seq<C.Observation>, at: map<nat, nat>, i: nat, step: C.Step<W>, o: C.Observation)
    requires Gathered(env, calls, refused, tasks, steps, outputs, at) && i < |tasks| && !tasks[i].Done?
    requires calls[i].id !in refused && IsRunOf(step, Key(env, calls[i]))
    ensures Gathered(env, calls, refused, tasks[i := Done(o)], steps + [step], outputs + [o], at[i := |steps|])
  {
    assert TaskOk(env, calls[i], refused, tasks[i], steps, outputs, i, at);
    NumberOne(at, |steps|, i);
    var next := tasks[i := Done(o)];
    forall k: nat | k < |next|
      ensures TaskOk(env, calls[k], refused, next[k], steps + [step], outputs + [o], k, at[i := |steps|])
    {
      if k == i { TaskRuns(env, calls[i], refused, steps, outputs, at, i, step, o); }
      else { TaskStays(env, calls[k], refused, tasks[k], steps, outputs, k, at, i, step, o); }
    }
  }

  /** What is left to do. */
  function Left(tasks: seq<Task>): nat {
    if tasks == [] then 0 else Left(tasks[..|tasks| - 1]) + Weight(tasks[|tasks| - 1])
  }

  function Weight(task: Task): nat {
    match task
    case Waiting => 2
    case Missed => 1
    case Done(_) => 0
  }

  lemma {:induction false} LeftOfUpdate(tasks: seq<Task>, i: nat, task: Task)
    requires i < |tasks|
    ensures Left(tasks[i := task]) == Left(tasks) - Weight(tasks[i]) + Weight(task)
    ensures Weight(tasks[i]) <= Left(tasks)
    decreases |tasks|
  {
    var n := |tasks| - 1;
    if i < n {
      LeftOfUpdate(tasks[..n], i, task);
      assert tasks[i := task][..n] == tasks[..n][i := task];
    } else {
      assert tasks[i := task][..n] == tasks[..n];
    }
  }

  lemma {:induction false} NothingLeft(tasks: seq<Task>)
    ensures Left(tasks) == 0 <==> forall i :: 0 <= i < |tasks| ==> tasks[i].Done?
  {
    if tasks != [] { NothingLeft(tasks[..|tasks| - 1]); }
  }

  /** Only lookups and runs. */
  ghost predicate OnlyCalls<W>(steps: seq<C.Step<W>>) {
    forall i :: 0 <= i < |steps| ==> steps[i].Do? || steps[i].Late?
  }

  /** Calls led from `s` to `t`, and no mutation waits behind reads. */
  ghost predicate CallsLead<W>(env: Env<W>, s: C.State<W>, steps: seq<C.Step<W>>, t: C.State<W>) {
    && t == C.RunCached(env.toolbox, s, steps) && t.revision == s.revision && OnlyCalls(steps)
    && s.seen <= t.seen && |t.seen| == |s.seen| + |steps|
  }

  ghost predicate StaysClean<W>(env: Env<W>, s: C.State<W>, steps: seq<C.Step<W>>, t: C.State<W>) {
    ReadsDoNotMutate(env.toolbox) && !s.dirty ==> !t.dirty && C.Clean(env.toolbox, s, steps)
  }

  lemma LeadOn<W>(env: Env<W>, s: C.State<W>, steps: seq<C.Step<W>>, t: C.State<W>, step: C.Step<W>)
    requires CallsLead(env, s, steps, t) && (step.Do? || step.Late?)
    ensures
      var next := C.Cached(env.toolbox, t, step);
      && CallsLead(env, s, steps + [step], next)
      && next.seen[|s.seen|..] == t.seen[|s.seen|..] + [next.seen[|t.seen|]]
  {
    C.CleanOne(env.toolbox, s, steps, step);
  }

  lemma CleanOn<W>(env: Env<W>, s: C.State<W>, steps: seq<C.Step<W>>, t: C.State<W>, step: C.Step<W>, call: Call)
    requires CallsLead(env, s, steps, t) && StaysClean(env, s, steps, t)
    requires IsRunOf(step, Key(env, call)) && IsRead(env, call)
    ensures StaysClean(env, s, steps + [step], C.Cached(env.toolbox, t, step))
  {
    C.CleanOne(env.toolbox, s, steps, step);
  }

  /** Where the calls that run together are, and where they led. */
  ghost predicate Gathering<W>(
    env: Env<W>, calls: seq<Call>, refused: map<string, C.Observation>, s: C.State<W>, t: C.State<W>,
    tasks: seq<Task>, steps: seq<C.Step<W>>, at: map<nat, nat>)
  {
    && CallsLead(env, s, steps, t) && StaysClean(env, s, steps, t)
    && Gathered(env, calls, refused, tasks, steps, t.seen[|s.seen|..], at)
  }

  lemma GatheringMore<W>(
    env: Env<W>, calls: seq<Call>, refused: map<string, C.Observation>, s: C.State<W>, t: C.State<W>,
    tasks: seq<Task>, steps: seq<C.Step<W>>, at: map<nat, nat>, i: nat)
    requires Gathering(env, calls, refused, s, t, tasks, steps, at) && i < |calls| && i < |tasks| && tasks[i].Waiting?
    ensures Gathering(env, calls, refused, s, t, tasks[i := Started(refused, calls[i])], steps, at)
  {
    GatherMore(env, calls, refused, tasks, steps, t.seen[|s.seen|..], at, i);
  }

  lemma GatheringRuns<W>(
    env: Env<W>, calls: seq<Call>, refused: map<string, C.Observation>, s: C.State<W>, t: C.State<W>,
    tasks: seq<Task>, steps: seq<C.Step<W>>, at: map<nat, nat>, i: nat, step: C.Step<W>)
    requires Gathering(env, calls, refused, s, t, tasks, steps, at)
    requires i < |calls| && i < |tasks| && !tasks[i].Done? && (tasks[i].Waiting? ==> calls[i].id !in refused)
    requires IsRunOf(step, Key(env, calls[i])) && IsRead(env, calls[i])
    ensures
      var next := C.Cached(env.toolbox, t, step);
      && |t.seen| < |next.seen|
      && Gathering(
           env, calls, refused, s, next, tasks[i := Done(next.seen[|t.seen|])], steps + [step], at[i := |steps|])
  {
    var next := C.Cached(env.toolbox, t, step);
    assert TaskOk(env, calls[i], refused, tasks[i], steps, t.seen[|s.seen|..], i, at);
    LeadOn(env, s, steps, t, step);
    CleanOn(env, s, steps, t, step, calls[i]);
    GatherOne(env, calls, refused, tasks, steps, t.seen[|s.seen|..], at, i, step, next.seen[|t.seen|]);
  }

  // ----------------------------------------------- calls one after the other

  /** A call that may change something: refused, or run. */
  function Written<W>(env: Env<W>, s: C.State<W>, calls: seq<Call>): (C.State<W>, seq<C.Observation>) {
    if calls == [] then (s, [])
    else
      var (before, own) := Written(env, s, calls[..|calls| - 1]);
      var last := calls[|calls| - 1];
      match env.invalid(last)
      case Some(text) => (before, own + [C.Observation(text, true)])
      case None =>
        var after := C.Cached(env.toolbox, before, C.Do(Key(env, last)));
        (after, own + [after.seen[|before.seen|]])
  }

  function WriteSteps<W>(env: Env<W>, calls: seq<Call>): seq<C.Step<W>> {
    if calls == [] then []
    else
      var rest, last := WriteSteps(env, calls[..|calls| - 1]), calls[|calls| - 1];
      if env.invalid(last).Some? then rest else rest + [C.Do(Key(env, last))]
  }

  /** The calls ran, `own` being what each observed: the reads together, in some order of
      their lookups and ends, and then the writes in order. */
  ghost predicate Ran<W(!new)>(env: Env<W>, s: C.State<W>, selected: seq<Call>, own: seq<C.Observation>, t: C.State<W>) {
    exists steps, at :: RanAs(env, s, selected, own, t, steps, at)
  }

  ghost predicate RanAs<W>(
    env: Env<W>, s: C.State<W>, selected: seq<Call>, own: seq<C.Observation>, t: C.State<W>,
    steps: seq<C.Step<W>>, at: map<nat, nat>)
  {
    var together, mid := Reads(env, selected), C.RunCached(env.toolbox, s, steps);
    && |s.seen| <= |mid.seen| && |together| <= |own|
    && Gathered(env, together, Refused(env, together), AllDone(own[..|together|]), steps, mid.seen[|s.seen|..], at)
    && (t, own[|together|..]) == Written(env, mid, Writes(env, selected))
  }

  function AllDone(own: seq<C.Observation>): seq<Task> {
    seq(|own|, i requires 0 <= i < |own| => Done(own[i]))
  }

  // ------------------------------------------------------ what a call is told

  /** No later call of the sequence has the identifier of call `j`. */
  predicate LastOf(calls: seq<Call>, j: nat) {
    j < |calls| && forall k :: j < k < |calls| ==> calls[k].id != calls[j].id
  }

  /** The arguments of call `j` were refused, and no later ones of its identifier. */
  predicate LastRefusal<W>(env: Env<W>, calls: seq<Call>, j: nat) {
    && j < |calls| && env.invalid(calls[j]).Some?
    && forall k :: j < k < |calls| && calls[k].id == calls[j].id ==> env.invalid(calls[k]).None?
  }

  predicate Unrefused<W>(env: Env<W>, calls: seq<Call>, id: string) {
    forall k :: 0 <= k < |calls| && calls[k].id == id ==> env.invalid(calls[k]).None?
  }

  /** Call `j` ran as its own step, `at[j]`, and this is what that step observed. */
  ghost predicate RanAt<W>(
    env: Env<W>, calls: seq<Call>, j: nat, o: C.Observation, steps: seq<C.Step<W>>, outputs: seq<C.Observation>, at: map<nat, nat>)
  {
    && j < |calls| && j in at && at[j] < |steps| && at[j] < |outputs|
    && IsRunOf(steps[at[j]], Key(env, calls[j])) && outputs[at[j]] == o
  }

  /** Call `i` is told what the last call of its identifier observed; or, if one of these was
      refused, the complaint about the last of those. */
  ghost predicate ToldOf<W>(
    env: Env<W>, calls: seq<Call>, i: nat, o: C.Observation, steps: seq<C.Step<W>>, outputs: seq<C.Observation>, at: map<nat, nat>)
    requires i < |calls|
  {
    exists j: nat :: j < |calls| && calls[j].id == calls[i].id && ToldBy(env, calls, j, o, steps, outputs, at)
  }

  ghost predicate ToldBy<W>(
    env: Env<W>, calls: seq<Call>, j: nat, o: C.Observation, steps: seq<C.Step<W>>, outputs: seq<C.Observation>, at: map<nat, nat>)
    requires j < |calls|
  {
    || (LastRefusal(env, calls, j) && o == C.Observation(env.invalid(calls[j]).value, true))
    || (Unrefused(env, calls, calls[j].id) && LastOf(calls, j) && RanAt(env, calls, j, o, steps, outputs, at))
  }

  /** Every call is told its own, and every step is some call's own. */
  ghost predicate Told<W>(
    env: Env<W>, calls: seq<Call>, observations: seq<C.Observation>,
    steps: seq<C.Step<W>>, outputs: seq<C.Observation>, at: map<nat, nat>)
  {
    && |observations| == |calls| && |outputs| == |steps| && Numbers(at, |steps|)
    && forall i: nat :: i < |calls| ==> ToldOf(env, calls, i, observations[i], steps, outputs, at)
  }

  /** So it is for the steps that the calls took from `s`, after which `seen` had been seen. */
  ghost predicate WasTold<W(!new)>(
    env: Env<W>, s: C.State<W>, calls: seq<Call>, observations: seq<C.Observation>, seen: seq<C.Observation>)
  {
    exists steps, at :: ToldFrom(env, s, calls, observations, seen, steps, at)
  }

  ghost predicate ToldFrom<W>(
    env: Env<W>, s: C.State<W>, calls: seq<Call>, observations: seq<C.Observation>, seen: seq<C.Observation>,
    steps: seq<C.Step<W>>, at: map<nat, nat>)
  {
    && C.RunCached(env.toolbox, s, steps).seen == seen && |s.seen| <= |seen|
    && Told(env, calls, observations, steps, seen[|s.seen|..], at)
  }

  lemma {:induction false} FindLast(calls: seq<Call>, i: nat) returns (j: nat)
    requires i < |calls|
    ensures LastOf(calls, j) && calls[j].id == calls[i].id
    decreases |calls|
  {
    var n := |calls| - 1;
    if calls[n].id == calls[i].id {
      j := n;
    } else {
      j := FindLast(calls[..n], i);
    }
  }

  lemma {:induction false} RefusedIsTheLast<W>(env: Env<W>, calls: seq<Call>, id: string) returns (j: nat)
    ensures id !in Refused(env, calls) ==> Unrefused(env, calls, id)
    ensures id in Refused(env, calls) ==>
      && LastRefusal(env, calls, j) && calls[j].id == id
      && Refused(env, calls)[id] == C.Observation(env.invalid(calls[j]).value, true)
    decreases |calls|
  {
    j := 0;
    if calls != [] {
      var n := |calls| - 1;
      j := RefusedIsTheLast(env, calls[..n], id);
      if calls[n].id == id && env.invalid(calls[n]).Some? { j := n; }
    }
  }

  lemma ReadIsTold<W>(
    env: Env<W>, calls: seq<Call>, own: seq<C.Observation>, i: nat, o: C.Observation,
    steps: seq<C.Step<W>>, outputs: seq<C.Observation>, at: map<nat, nat>)
    requires |own| == |calls| && i < |calls| && Gathered(env, calls, Refused(env, calls), AllDone(own), steps, outputs, at)
    requires calls[i].id in Collected(calls, own) && o == Collected(calls, own)[calls[i].id]
    ensures ToldOf(env, calls, i, o, steps, outputs, at)
  {
    var j := FindLast(calls, i);
    LastOfIdWins(calls, own, j);
    assert TaskOk(env, calls[j], Refused(env, calls), AllDone(own)[j], steps, outputs, j, at);
    var k := RefusedIsTheLast(env, calls, calls[i].id);
    if calls[i].id in Refused(env, calls) {
      assert ToldBy(env, calls, k, o, steps, outputs, at);
    } else {
      assert ToldBy(env, calls, j, o, steps, outputs, at);
    }
  }

  lemma ReadsAreTold<W(!new)>(
    env: Env<W>, s: C.State<W>, calls: seq<Call>, own: seq<C.Observation>, t: C.State<W>, observations: seq<C.Observation>)
    requires forall i :: 0 <= i < |calls| ==> IsRead(env, calls[i])
    requires Ran(env, s, calls, own, t) && |own| == |calls| == |observations|
    requires forall i :: 0 <= i < |calls| ==>
      calls[i].id in Collected(calls, own) && observations[i] == Collected(calls, own)[calls[i].id]
    ensures WasTold(env, s, calls, observations, t.seen)
  {
    ReadsOfReads(env, calls);
    var steps, at :| RanAs(env, s, calls, own, t, steps, at);
    assert own[..|calls|] == own;
    forall i: nat | i < |calls|
      ensures ToldOf(env, calls, i, observations[i], steps, t.seen[|s.seen|..], at)
    {
      ReadIsTold(env, calls, own, i, observations[i], steps, t.seen[|s.seen|..], at);
    }
    assert ToldFrom(env, s, calls, observations, t.seen, steps, at);
  }

  /** A call that runs alone: refused, or one step. */
  lemma LoneWrite<W(!new)>(env: Env<W>, s: C.State<W>, call: Call, own: seq<C.Observation>, t: C.State<W>)
    requires !IsRead(env, call) && |own| == 1 && Ran(env, s, [call], own, t)
    ensures
      match env.invalid(call)
      case Some(text) => t == s && own[0] == C.Observation(text, true)
      case None => t == C.Cached(env.toolbox, s, C.Do(Key(env, call))) && |s.seen| < |t.seen| && own[0] == t.seen[|s.seen|]
  {
    assert [call][..0] == [];
    assert Reads(env, [call]) == [] && Writes(env, [call]) == [call];
    var steps, at :| RanAs(env, s, [call], own, t, steps, at);
    assert at == map[] && steps == [];
    assert own[0..] == own && Written(env, s, [call][..0]) == (s, []);
  }

  lemma LoneWriteIsTold<W(!new)>(
    env: Env<W>, s: C.State<W>, call: Call, own: seq<C.Observation>, t: C.State<W>, observations: seq<C.Observation>)
    requires !IsRead(env, call) && |own| == 1 && Ran(env, s, [call], own, t) && observations == own
    ensures WasTold(env, s, [call], observations, t.seen)
  {
    LoneWrite(env, s, call, own, t);
    var steps: seq<C.Step<W>>, at: map<nat, nat> := [], map[];
    if env.invalid(call).None? {
      steps, at := [C.Do(Key(env, call))], map[0 := 0];
      C.RunOne(env.toolbox, s, C.Do(Key(env, call)));
    }
    assert ToldBy(env, [call], 0, own[0], steps, t.seen[|s.seen|..], at);
    assert ToldOf(env, [call], 0, own[0], steps, t.seen[|s.seen|..], at);
    assert ToldFrom(env, s, [call], observations, t.seen, steps, at);
  }

  // -------------------------------------------------------- what is recorded

  function Texts(observations: seq<C.Observation>): seq<string> {
    seq(|observations|, i requires 0 <= i < |observations| => observations[i].text)
  }

  function Observations<W>(env: Env<W>, calls: seq<Call>, observations: seq<C.Observation>): seq<V.Event>
    requires |observations| == |calls|
  {
    seq(|calls|, i requires 0 <= i < |calls| => V.Observes(ObservedOf(env, calls[i], observations[i])))
  }

  function Clears<W>(n: nat): seq<C.Step<W>> {
    seq(n, _ => C.Clear)
  }

  lemma {:induction false} ClearsOnly<W>(t: C.Toolbox<W>, s: C.State<W>, n: nat)
    ensures C.RunCached(t, s, Clears(n))
         == if n == 0 then s else s.(cache := map[], revision := s.revision + n, dirty := false)
    ensures C.Clean(t, s, Clears(n))
  {
    if n > 0 {
      ClearsOnly(t, s, n - 1);
      assert Clears<W>(n)[..n - 1] == Clears<W>(n - 1);
    }
  }
}
