/** One reasoning step of the engine: which of the model's tool calls run now,
    what their control results add up to, and which checkpoint the step ends in. */
module EngineStep {
  import opened Domain
  import opened RunRepository

  /** What executing one call tells the loop. */
  datatype CallControl = Proceed | AwaitApproval | AskUser | Complete | Fail

  datatype Batch =
    | AllProceeded
    | Parked(executed: nat)
    | Ended(control: CallControl)

  // ---------------------------------------------------------------- plan

  predicate IsReadOnly(tier: Option<RiskTier>) {
    tier.Some? && tier.value.ReadOnly?
  }

  /** The first `limit` read-only calls below `n`, and the others. */
  function Split(tiers: seq<Option<RiskTier>>, limit: nat, n: nat): (seq<nat>, seq<nat>)
    requires n <= |tiers|
  {
    if n == 0 then ([], [])
    else
      var (selected, deferred) := Split(tiers, limit, n - 1);
      if IsReadOnly(tiers[n - 1]) && |selected| < limit then (selected + [n - 1], deferred)
      else (selected, deferred + [n - 1])
  }

  function Plan(tiers: seq<Option<RiskTier>>, limit: nat): (seq<nat>, seq<nat>) {
    if tiers == [] then ([], [])
    else if !IsReadOnly(tiers[0]) then ([0], seq(|tiers| - 1, i requires i >= 0 => i + 1))
    else Split(tiers, limit, |tiers|)
  }

  ghost predicate Increasing(s: seq<nat>) {
    forall i, j :: 0 <= i < j < |s| ==> s[i] < s[j]
  }

  lemma {:induction false} SplitKeepsOrder(tiers: seq<Option<RiskTier>>, limit: nat, n: nat)
    requires n <= |tiers|
    ensures
      var (selected, deferred) := Split(tiers, limit, n);
      && Increasing(selected) && Increasing(deferred)
      && (forall i :: 0 <= i < |selected| ==> selected[i] < n)
      && (forall i :: 0 <= i < |deferred| ==> deferred[i] < n)
  {
    if n > 0 { SplitKeepsOrder(tiers, limit, n - 1); }
  }

  lemma {:induction false} SplitPartitions(tiers: seq<Option<RiskTier>>, limit: nat, n: nat)
    requires n <= |tiers|
    ensures
      var (selected, deferred) := Split(tiers, limit, n);
      && |selected| + |deferred| == n && |selected| <= limit
      && (forall i :: 0 <= i < n ==> (i in selected <==> i !in deferred))
      && (forall i :: i in selected ==> i < n && IsReadOnly(tiers[i]))
      && (forall i :: i in deferred ==> i < n)
      && (|selected| < limit ==> forall i :: i in deferred ==> !IsReadOnly(tiers[i]))
  {
    if n > 0 { SplitPartitions(tiers, limit, n - 1); }
  }

  /** The plan partitions the calls, keeps their order on both sides, runs either
      read-only calls up to the limit or exactly the first call, and never skips a
      read-only call it had room for. */
  lemma PlanPartitions(tiers: seq<Option<RiskTier>>, limit: nat)
    requires limit > 0
    ensures
      var (selected, deferred) := Plan(tiers, limit);
      && Increasing(selected) && Increasing(deferred)
      && |selected| + |deferred| == |tiers|
      && (forall i :: 0 <= i < |tiers| ==> (i in selected <==> i !in deferred))
      && (tiers != [] ==> 0 in selected)
      && (forall i :: i in selected ==> i < |tiers|)
      && (forall i :: i in selected && i < |tiers| && !IsReadOnly(tiers[i]) ==> selected == [0])
      && |selected| <= limit
      && (tiers != [] && IsReadOnly(tiers[0]) && |selected| < limit ==>
            forall i :: i in deferred ==> i < |tiers| && !IsReadOnly(tiers[i]))
  {
    if tiers != [] {
      if IsReadOnly(tiers[0]) {
        SplitPartitions(tiers, limit, |tiers|);
        SplitKeepsOrder(tiers, limit, |tiers|);
        FirstIsSelected(tiers, limit, |tiers|);
      } else {
        var deferred := Plan(tiers, limit).1;
        forall i | 0 <= i < |tiers|
          ensures i in [0] <==> i !in deferred
        {
          if i > 0 { assert deferred[i - 1] == i; }
        }
      }
    }
  }

  lemma {:induction false} FirstIsSelected(tiers: seq<Option<RiskTier>>, limit: nat, n: nat)
    requires 0 < n <= |tiers| && limit > 0 && IsReadOnly(tiers[0])
    ensures 0 in Split(tiers, limit, n).0
  {
    if n > 1 { FirstIsSelected(tiers, limit, n - 1); }
  }

  /** How many of the first `n` calls are read-only. */
  function ReadsBelow(tiers: seq<Option<RiskTier>>, n: nat): nat
    requires n <= |tiers|
  {
    if n == 0 then 0 else ReadsBelow(tiers, n - 1) + if IsReadOnly(tiers[n - 1]) then 1 else 0
  }

  lemma {:induction false} SplitTakesTheFirst(tiers: seq<Option<RiskTier>>, limit: nat, n: nat, i: nat)
    requires i < n <= |tiers|
    ensures i in Split(tiers, limit, n).0 <==> IsReadOnly(tiers[i]) && ReadsBelow(tiers, i) < limit
    ensures |Split(tiers, limit, n).0| == if ReadsBelow(tiers, n) < limit then ReadsBelow(tiers, n) else limit
    decreases n
  {
    SplitCounts(tiers, limit, n - 1);
    if i < n - 1 {
      SplitTakesTheFirst(tiers, limit, n - 1, i);
    } else {
      SplitPartitions(tiers, limit, n - 1);
    }
  }

  lemma {:induction false} SplitCounts(tiers: seq<Option<RiskTier>>, limit: nat, n: nat)
    requires n <= |tiers|
    ensures |Split(tiers, limit, n).0| == if ReadsBelow(tiers, n) < limit then ReadsBelow(tiers, n) else limit
  {
    if n > 0 { SplitCounts(tiers, limit, n - 1); }
  }

  /** Which calls run: the first one alone, if it is not read-only; else exactly the read-only
      ones with fewer than `limit` read-only ones before them. */
  lemma PlanRunsExactly(tiers: seq<Option<RiskTier>>, limit: nat, i: nat)
    requires i < |tiers|
    ensures i in Plan(tiers, limit).0 <==>
      if IsReadOnly(tiers[0]) then IsReadOnly(tiers[i]) && ReadsBelow(tiers, i) < limit else i == 0
  {
    if IsReadOnly(tiers[0]) { SplitTakesTheFirst(tiers, limit, |tiers|, i); }
  }

  method PlanToolCalls(tiers: seq<Option<RiskTier>>, limit: nat) returns (selected: seq<nat>, deferred: seq<nat>)
    ensures (selected, deferred) == Plan(tiers, limit)
  {
    selected, deferred := [], [];
    if tiers == [] {
      return;
    }
    if !IsReadOnly(tiers[0]) {
      selected := [0];
      for i := 1 to |tiers|
        invariant deferred == seq(i - 1, j requires j >= 0 => j + 1)
      {
        deferred := deferred + [i];
      }
      return;
    }
    for i := 0 to |tiers|
      invariant (selected, deferred) == Split(tiers, limit, i)
    {
      if IsReadOnly(tiers[i]) && |selected| < limit {
        selected := selected + [i];
      } else {
        deferred := deferred + [i];
      }
    }
  }

  // --------------------------------------------------------------- batch

  /** The executor asks for an approval only for a tool of an approval tier. */
  ghost predicate Honest(tiers: seq<Option<RiskTier>>, controls: seq<CallControl>) {
    && |controls| == |tiers|
    && forall i :: 0 <= i < |tiers| && controls[i].AwaitApproval? ==>
         tiers[i].Some? && RequiresApproval(tiers[i].value)
  }

  /** The read-only loop: it stops only at an approval wait. */
  function ReadOnlyBatch(selected: seq<nat>, controls: seq<CallControl>, k: nat): (b: Batch)
    requires k <= |selected| && forall i :: i in selected ==> i < |controls|
    ensures !b.Ended?
    decreases |selected| - k
  {
    if k == |selected| then AllProceeded
    else
      assert selected[k] in selected;
      if controls[selected[k]].AwaitApproval? then Parked(k) else ReadOnlyBatch(selected, controls, k + 1)
  }

  /** What the batch amounts to: when the first call is read-only every selected call
      is, and any control but an approval wait is dropped; otherwise the first call
      alone decides. */
  ghost function BatchOf(tiers: seq<Option<RiskTier>>, limit: nat, controls: seq<CallControl>): (b: Batch)
    requires |controls| == |tiers| && limit > 0
    ensures b.Ended? ==> !b.control.Proceed? && !b.control.AwaitApproval?
  {
    PlanPartitions(tiers, limit);
    if tiers == [] then AllProceeded
    else if IsReadOnly(tiers[0]) then ReadOnlyBatch(Plan(tiers, limit).0, controls, 0)
    else if controls[0].Proceed? then AllProceeded
    else if controls[0].AwaitApproval? then Parked(0)
    else Ended(controls[0])
  }

  /** The two loops over the selected calls. */
  method ProcessToolCalls(tiers: seq<Option<RiskTier>>, limit: nat, controls: seq<CallControl>) returns (b: Batch)
    requires |controls| == |tiers| && limit > 0
    ensures b == BatchOf(tiers, limit, controls)
  {
    var selected, deferred := PlanToolCalls(tiers, limit);
    PlanPartitions(tiers, limit);
    ghost var readsFirst := tiers != [] && IsReadOnly(tiers[0]);
    var executed := 0;
    var readOnly: seq<nat>, sequential: seq<nat> := [], [];
    for k := 0 to |selected|
      invariant forall i :: i in readOnly ==> i < |tiers|
      invariant if readsFirst then readOnly == selected[..k] && sequential == []
                else readOnly == [] && sequential == selected[..k]
    {
      assert selected[k] in selected;
      if IsReadOnly(tiers[selected[k]]) {
        readOnly := readOnly + [selected[k]];
      } else {
        sequential := sequential + [selected[k]];
      }
    }
    for k := 0 to |readOnly|
      invariant executed == k
      invariant readsFirst ==> ReadOnlyBatch(selected, controls, k) == ReadOnlyBatch(selected, controls, 0)
    {
      assert readOnly[k] in readOnly;
      if controls[readOnly[k]].AwaitApproval? {
        return Parked(executed);
      }
      executed := executed + 1;
    }
    for k := 0 to |sequential|
      invariant k > 0 ==> controls[0].Proceed?
      invariant executed == |readOnly| + k
    {
      var control := controls[sequential[k]];
      match control {
        case Proceed => executed := executed + 1;
        case AwaitApproval => return Parked(executed);
        case _ => return Ended(control);
      }
    }
    b := AllProceeded;
  }

  lemma {:induction false} ReadOnlyNeverParks(
    tiers: seq<Option<RiskTier>>, selected: seq<nat>, controls: seq<CallControl>, k: nat)
    requires Honest(tiers, controls) && k <= |selected|
    requires forall i :: i in selected ==> i < |tiers| && IsReadOnly(tiers[i])
    ensures ReadOnlyBatch(selected, controls, k) == AllProceeded
    decreases |selected| - k
  {
    if k < |selected| {
      assert selected[k] in selected;
      ReadOnlyNeverParks(tiers, selected, controls, k + 1);
    }
  }

  /** A parked batch always counts zero executed calls, and waits for its first call.
      A failed, finished or asking control ends the batch only on the sequential
      path: from a read-only call it is dropped. */
  lemma BatchControl(tiers: seq<Option<RiskTier>>, limit: nat, controls: seq<CallControl>)
    requires Honest(tiers, controls) && limit > 0
    ensures
      var b := BatchOf(tiers, limit, controls);
      && (b.Parked? ==> b.executed == 0 && tiers != [] && controls[0].AwaitApproval?)
      && (b.Ended? ==> !b.control.Proceed? && !b.control.AwaitApproval?)
      && (b.Ended? <==> tiers != [] && !IsReadOnly(tiers[0]) && !controls[0].Proceed? && !controls[0].AwaitApproval?)
  {
    if tiers != [] && IsReadOnly(tiers[0]) {
      PlanPartitions(tiers, limit);
      var selected := Plan(tiers, limit).0;
      ReadOnlyNeverParks(tiers, selected, controls, 0);
    }
  }

  /** So a batch is what its first call says, if it runs alone, and otherwise goes on. */
  lemma BatchIsOfTheFirst(tiers: seq<Option<RiskTier>>, limit: nat, controls: seq<CallControl>)
    requires Honest(tiers, controls) && limit > 0
    ensures
      var b := BatchOf(tiers, limit, controls);
      var alone := tiers != [] && !IsReadOnly(tiers[0]);
      && (b.AllProceeded? <==> !alone || controls[0].Proceed?)
      && (b.Parked? <==> alone && controls[0].AwaitApproval?)
      && (b.Ended? ==> alone && b.control == controls[0])
  {
    if tiers != [] && IsReadOnly(tiers[0]) {
      PlanPartitions(tiers, limit);
      ReadOnlyNeverParks(tiers, Plan(tiers, limit).0, controls, 0);
    }
  }

  // ------------------------------------------------------------ decisions

  /** `check_before_step`: the terminal status to apply, if any. */
  function Guard(run: RunRow, elapsed: bool): Option<RunStatus> {
    if run.cancelRequested then Some(Cancelled)
    else if run.currentStep >= run.maxSteps then Some(TimedOut)
    else if elapsed then Some(TimedOut)
    else None
  }

  function StatusOf(control: CallControl): RunStatus
    requires !control.Proceed? && !control.AwaitApproval?
  {
    match control
    case AskUser => WaitingUserInput
    case Complete => Completed
    case Fail => Failed
  }

  /** The checkpoint a step ends in. */
  function EndOfStep(run: RunRow, calls: nat, tokens: nat, batch: Batch): Update
    requires batch.Ended? ==> !batch.control.Proceed? && !batch.control.AwaitApproval?
  {
    var advance := NoChange.(currentStep := Some(run.currentStep + 1), tokensUsed := Some(tokens));
    if tokens > run.tokenBudget then advance.(status := Some(TimedOut))
    else if calls == 0 then advance.(status := Some(WaitingUserInput))
    else if run.toolCallsUsed + calls > run.maxToolCalls then advance.(status := Some(TimedOut))
    else
      match batch
      case Parked(executed) =>
        advance.(
          status := Some(WaitingApproval),
          currentStep := Some(run.currentStep),
          toolCallsUsed := Some(run.toolCallsUsed + executed))
      case AllProceeded => advance.(toolCallsUsed := Some(run.toolCallsUsed + calls))
      case Ended(control) =>
        advance.(status := Some(StatusOf(control)), toolCallsUsed := Some(run.toolCallsUsed + calls))
  }

  /** A step that leaves the run running has advanced it, which is why the loop ends. */
  lemma RunningStepsAdvance(run: RunRow, calls: nat, tokens: nat, batch: Batch)
    requires batch.Ended? ==> !batch.control.Proceed? && !batch.control.AwaitApproval?
    requires run.status.Running? && Patch(run, EndOfStep(run, calls, tokens, batch)).status.Running?
    ensures Patch(run, EndOfStep(run, calls, tokens, batch)).currentStep == run.currentStep + 1
    ensures batch.AllProceeded?
  {}
}
