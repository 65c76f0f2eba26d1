/** Token accounting of the run protocol: which usage records `tokensUsed` counts, and
    exactly which events make it fall behind. */
module RunTokens {
  import opened Domain
  import opened RunRepository
  import opened EngineStep
  import opened RunProtocol
  import opened RunInvariants
  import opened RunTheorems

  // ----------------------------------------------------- counted and total

  lemma {:induction false} CountedIsTotalExactlyWhen(usage: seq<Usage>)
    ensures Counted(usage) <= Total(usage)
    ensures Counted(usage) == Total(usage) <==>
      forall i :: 0 <= i < |usage| && !usage[i].counted ==> usage[i].tokens == 0
  {
    if usage != [] {
      var init := usage[..|usage| - 1];
      CountedIsTotalExactlyWhen(init);
      assert forall i :: 0 <= i < |init| ==> init[i] == usage[i];
    }
  }

  /** `tokensUsed` is the sum of the counted records, never above their total, and equal to
      it exactly when every record not counted has no tokens. */
  lemma TokensAreAccounted(s: State)
    requires Reachable(s)
    ensures s.row.tokensUsed == Counted(s.usage) <= Total(s.usage)
    ensures s.row.tokensUsed == Total(s.usage) <==>
      forall i :: 0 <= i < |s.usage| && !s.usage[i].counted ==> s.usage[i].tokens == 0
  {
    ReachableIsInv(s);
    CountedIsTotalExactlyWhen(s.usage);
  }

  // ------------------------------------------------------ a record's fate

  /** Some worker still has the record to account for. */
  ghost predicate Claimed(s: State, i: nat) {
    exists a :: a in s.actors && i in Claims(s.actors[a])
  }

  /** Nobody has, and it was not counted. */
  ghost predicate Lost(s: State, i: nat) {
    i < |s.usage| && !s.usage[i].counted && !Claimed(s, i)
  }

  /** Claims are kept or new, and only claimed records are counted. */
  ghost predicate HandsOn(s: State, t: State) {
    && |s.usage| <= |t.usage|
    && (forall b, i :: b in t.actors && i in Claims(t.actors[b]) && i < |s.usage| ==>
          b in s.actors && i in Claims(s.actors[b]))
    && (forall i: nat :: i < |s.usage| ==>
          t.usage[i] == s.usage[i] || (t.usage[i] == s.usage[i].(counted := true) && Claimed(s, i)))
    && (forall i: nat :: |s.usage| <= i < |t.usage| ==> t.usage[i].counted || Claimed(t, i))
  }

  predicate Appends(e: Event) {
    e.Compact? || e.CommitCall? || e.EndStep?
  }

  /** The mover keeps some of its claims, and no record changes. */
  ghost predicate KeepsClaims(s: State, t: State, a: nat) {
    t.usage == s.usage && (a in t.actors ==> Claims(t.actors[a]) <= if a in s.actors then Claims(s.actors[a]) else {})
  }

  lemma CheckpointsKeepClaims(s: State, e: Event)
    requires Enabled(s, e) && Checkpointing(e)
    ensures KeepsClaims(s, Next(s, e), e.a)
  {}

  lemma WritersKeepClaims(s: State, e: Event)
    requires Enabled(s, e) && (e.Acquire? || e.Release? || e.ClientWrites? || Reads(e))
    ensures KeepsClaims(s, Next(s, e), e.a)
  {}

  lemma LeaversKeepClaims(s: State, e: Event)
    requires Enabled(s, e) && (e.Observe? || e.Leave? || e.Fail? || e.Crash? || e.LlmReplies? || e.Heartbeat?)
    ensures KeepsClaims(s, Next(s, e), e.a)
  {}

  lemma OthersHandOn(s: State, e: Event)
    requires Inv(s) && Enabled(s, e) && !Appends(e)
    ensures HandsOn(s, Next(s, e))
  {
    VersionMoves(s, e);
    if !e.Tick? {
      if Checkpointing(e) {
        CheckpointsKeepClaims(s, e);
      } else if e.Acquire? || e.Release? || e.ClientWrites? || Reads(e) {
        WritersKeepClaims(s, e);
      } else {
        LeaversKeepClaims(s, e);
      }
    }
  }

  lemma CompactHandsOn(s: State, a: nat, tokens: nat)
    requires Enabled(s, Compact(a, tokens))
    ensures HandsOn(s, Next(s, Compact(a, tokens)))
  {
    var t := Next(s, Compact(a, tokens));
    assert a in t.actors && |s.usage| in Claims(t.actors[a]);
  }

  lemma PersistHandsOn(s: State, a: nat)
    requires a in s.actors && s.actors[a].Acting?
    ensures HandsOn(s, Persist(s, a, s.actors[a]))
    ensures
      var t := Persist(s, a, s.actors[a]);
      && (forall i: nat :: i < |s.usage| ==> t.usage[i] == s.usage[i])
      && Claims(s.actors[a]) <= Claims(t.actors[a])
      && (forall i: nat :: |s.usage| <= i < |t.usage| ==> i in Claims(t.actors[a]))
  {
    var t := Persist(s, a, s.actors[a]);
    if s.actors[a].reply.Uncommitted? { assert a in t.actors && |s.usage| in Claims(t.actors[a]); }
  }

  /** The checkpoint of a step counts exactly the worker's claims. */
  lemma CountingHandsOn(s: State, a: nat, row: RunRow)
    requires Inv(s) && a in s.actors && s.actors[a].Acting? && !s.actors[a].reply.Uncommitted?
    ensures
      var p := s.actors[a];
      var counted := Count(Count(s.usage, p.compaction), ReplyClaim(p.reply));
      var t := SetPhase(Save(s.(usage := counted), a, row), a, Top(row));
      && HandsOn(s, t)
      && forall i: nat :: i < |s.usage| && i in Claims(p) ==> t.usage[i].counted
  {
    var p := s.actors[a];
    assert PhaseOk(s, a, p);
    CountedOfClaims(s, p);
    assert forall i: nat :: i in Claims(p) ==> Claimed(s, i);
  }

  /** Persisting, then counting: what the worker claims on the way is counted at the end. */
  lemma HandsOnThrough(s: State, mid: State, t: State, a: nat)
    requires HandsOn(s, mid) && HandsOn(mid, t) && a in s.actors && a in mid.actors
    requires forall i: nat :: i < |s.usage| ==> mid.usage[i] == s.usage[i]
    requires Claims(s.actors[a]) <= Claims(mid.actors[a])
    requires forall i: nat :: |s.usage| <= i < |mid.usage| ==> i in Claims(mid.actors[a])
    requires forall i: nat :: i < |mid.usage| && i in Claims(mid.actors[a]) ==> t.usage[i].counted
    ensures HandsOn(s, t)
    ensures forall i: nat :: i < |s.usage| && i in Claims(s.actors[a]) ==> t.usage[i].counted
  {
    forall i: nat | i < |s.usage| && Claimed(mid, i)
      ensures Claimed(s, i)
    {
      var b :| b in mid.actors && i in Claims(mid.actors[b]);
    }
  }

  lemma SavedStepHandsOn(s: State, a: nat, batch: Batch, row: RunRow)
    requires Inv(s) && a in s.actors && s.actors[a].Acting?
    requires batch.Ended? ==> !batch.control.Proceed? && !batch.control.AwaitApproval?
    requires
      var p := s.actors[a];
      CheckpointOf(s.row, p.snap, EndOfStep(p.snap, |p.step.calls|, p.tokens, batch)) == Saved(row)
    ensures HandsOn(s, NextStep(s, a, batch))
    ensures forall i: nat :: i < |s.usage| && i in Claims(s.actors[a]) ==> NextStep(s, a, batch).usage[i].counted
  {
    var mid := Persist(s, a, s.actors[a]);
    PersistKeepsInv(s, a);
    StepEndsInParts(s, a, batch, row);
    PersistHandsOn(s, a);
    CountingHandsOn(mid, a, row);
    HandsOnThrough(s, mid, NextStep(s, a, batch), a);
  }

  predicate Stale(s: State, a: nat) {
    a in s.actors && Snapshotted(s.actors[a]) && s.actors[a].snap.version != s.row.version
  }

  lemma StaleStep(s: State, e: Event)
    requires Enabled(s, e) && e.EndStep? && Stale(s, e.a)
    ensures Next(s, e) == Abandon(s, e.a)
  {}

  lemma FreshStep(s: State, e: Event)
    requires Inv(s) && Enabled(s, e) && e.EndStep? && !Stale(s, e.a)
    ensures
      && HandsOn(s, Next(s, e))
      && forall i: nat :: i < |s.usage| && i in Claims(s.actors[e.a]) ==> Next(s, e).usage[i].counted
  {
    var p := s.actors[e.a];
    assert PhaseOk(s, e.a, p);
    BatchControl(e.tiers, e.limit, e.controls);
    var batch := BatchOf(e.tiers, e.limit, e.controls);
    match CheckpointOf(s.row, p.snap, EndOfStep(p.snap, |p.step.calls|, p.tokens, batch)) {
      case Saved(row) => SavedStepHandsOn(s, e.a, batch, row);
      case _ =>
    }
  }

  lemma StaleStepAbandons(s: State, e: Event)
    requires Inv(s) && Enabled(s, e) && e.EndStep?
    ensures Stale(s, e.a) ==> Next(s, e) == Abandon(s, e.a)
    ensures !Stale(s, e.a) ==>
      && HandsOn(s, Next(s, e))
      && forall i: nat :: i < |s.usage| && i in Claims(s.actors[e.a]) ==> Next(s, e).usage[i].counted
  {
    if Stale(s, e.a) { StaleStep(s, e); } else { FreshStep(s, e); }
  }

  lemma AbandonHandsOn(s: State, a: nat)
    requires a in s.actors
    ensures HandsOn(s, Abandon(s, a))
  {}

  lemma AppendsHandOn(s: State, e: Event)
    requires Enabled(s, e) && (e.Compact? || e.CommitCall?)
    ensures HandsOn(s, Next(s, e))
  {
    if e.Compact? { CompactHandsOn(s, e.a, e.tokens); } else { PersistHandsOn(s, e.a); }
  }

  lemma EndStepHandsOn(s: State, e: Event)
    requires Inv(s) && Enabled(s, e) && e.EndStep?
    ensures HandsOn(s, Next(s, e))
  {
    StaleStepAbandons(s, e);
    if Stale(s, e.a) { AbandonHandsOn(s, e.a); }
  }

  /** Every event hands claims on: only claimed records are counted, and a new record is
      counted or claimed. */
  lemma EventHandsOn(s: State, e: Event)
    requires Inv(s) && Enabled(s, e)
    ensures HandsOn(s, Next(s, e))
  {
    if e.EndStep? {
      EndStepHandsOn(s, e);
    } else if e.Compact? || e.CommitCall? {
      AppendsHandOn(s, e);
    } else {
      OthersHandOn(s, e);
    }
  }

  // ------------------------------------------------------- losing events

  /** The event that loses record `i`. */
  ghost predicate Loses(s: State, e: Event, i: nat)
    requires Enabled(s, e)
  {
    Claimed(s, i) && Lost(Next(s, e), i)
  }

  /** The worker gives up what it had to account for: it crashes, raises, loses the LLM call
      or its lease, comes late with a reply, or writes from a stale snapshot. */
  ghost predicate GivesUp(s: State, e: Event)
    requires Enabled(s, e)
  {
    match e
    case Crash(_) => true
    case Fail(_) => true
    case LlmFails(_) => true
    case Heartbeat(a, _, _) => !OwnedBy(s.row, a)
    case LlmReplies(a, _) => s.actors[a].snap.currentStep in s.steps
    case AdoptSkill(a) => Stale(s, a)
    case UnlockTool(a) => Stale(s, a)
    case EndStep(a, _, _, _) => Stale(s, a)
    case _ => false
  }

  lemma GivingUpDropsClaims(s: State, e: Event)
    requires Inv(s) && Enabled(s, e) && GivesUp(s, e)
    ensures Next(s, e).usage == s.usage
    ensures e.a in Next(s, e).actors ==> Claims(Next(s, e).actors[e.a]) == {}
  {
    if e.EndStep? { StaleStepAbandons(s, e); }
  }

  lemma CheckpointsKeepAllClaims(s: State, e: Event)
    requires Inv(s) && Enabled(s, e) && (e.AdoptSkill? || e.UnlockTool?) && !Stale(s, e.a)
    ensures e.a in Next(s, e).actors && Claims(Next(s, e).actors[e.a]) == Claims(s.actors[e.a])
  {}

  lemma WorkersKeepAllClaims(s: State, e: Event)
    requires Inv(s) && Enabled(s, e) && !GivesUp(s, e)
    requires e.Compact? || e.CommitCall? || e.LlmReplies? || e.Heartbeat?
    ensures e.a in Next(s, e).actors && Claims(s.actors[e.a]) <= Claims(Next(s, e).actors[e.a])
  {}

  predicate NeverClaims(e: Event) {
    || Reads(e) || e.Acquire? || e.Begin? || e.Stop? || e.Observe? || e.Leave? || e.Release? || e.ClientWrites?
  }

  lemma NothingToKeep(s: State, e: Event)
    requires Enabled(s, e) && NeverClaims(e) && e.a in s.actors
    ensures Claims(s.actors[e.a]) == {}
  {}

  /** Otherwise the worker keeps its claims or they are counted. */
  lemma NotGivingUpKeeps(s: State, e: Event, i: nat)
    requires Inv(s) && Enabled(s, e) && !e.Tick? && !GivesUp(s, e)
    requires e.a in s.actors && i in Claims(s.actors[e.a]) && i < |s.usage|
    ensures
      var t := Next(s, e);
      i < |t.usage| && (t.usage[i].counted || (e.a in t.actors && i in Claims(t.actors[e.a])))
  {
    EventHandsOn(s, e);
    if e.EndStep? {
      StaleStepAbandons(s, e);
    } else if e.AdoptSkill? || e.UnlockTool? {
      CheckpointsKeepAllClaims(s, e);
    } else if NeverClaims(e) {
      NothingToKeep(s, e);
    } else {
      WorkersKeepAllClaims(s, e);
    }
  }

  /** Other actors stay as they are. */
  ghost predicate Undisturbed(s: State, e: Event, b: nat)
    requires Enabled(s, e) && b in s.actors
  {
    b in Next(s, e).actors && Next(s, e).actors[b] == s.actors[b]
  }

  lemma CheckpointsDisturbNobody(s: State, e: Event, b: nat)
    requires Enabled(s, e) && (Checkpointing(e) || e.EndStep?) && b in s.actors && b != e.a
    ensures Undisturbed(s, e, b)
  {}

  lemma WritersDisturbNobody(s: State, e: Event, b: nat)
    requires Enabled(s, e) && (e.Acquire? || e.Release? || e.ClientWrites? || Reads(e)) && b in s.actors && b != e.a
    ensures Undisturbed(s, e, b)
  {}

  lemma BystandersKeepClaims(s: State, e: Event, b: nat)
    requires Enabled(s, e) && b in s.actors && (e.Tick? || b != e.a)
    ensures Undisturbed(s, e, b)
  {
    if !e.Tick? && (Checkpointing(e) || e.EndStep?) {
      CheckpointsDisturbNobody(s, e, b);
    } else if e.Acquire? || e.Release? || e.ClientWrites? || Reads(e) {
      WritersDisturbNobody(s, e, b);
    }
  }

  /** A record is lost exactly when the one worker that had it gives up. */
  lemma LostExactlyWhenGivenUp(s: State, e: Event, a: nat, i: nat)
    requires Inv(s) && Enabled(s, e) && a in s.actors && i in Claims(s.actors[a])
    ensures Loses(s, e, i) <==> !e.Tick? && e.a == a && GivesUp(s, e)
  {
    var t := Next(s, e);
    assert PhaseOk(s, a, s.actors[a]);
    EventHandsOn(s, e);
    assert Claimed(s, i);
    forall b | b in s.actors && i in Claims(s.actors[b])
      ensures b == a
    {
      assert b != a ==> Apart(s.actors[a], s.actors[b]);
    }
    if e.Tick? || e.a != a {
      BystandersKeepClaims(s, e, a);
      assert Claimed(t, i);
    } else if GivesUp(s, e) {
      GivingUpDropsClaims(s, e);
    } else {
      NotGivingUpKeeps(s, e, i);
    }
  }

  // --------------------------------------------------------- along a run

  /** How many events of a run lose record `i`. */
  ghost function Losses(s: State, trace: seq<Event>, i: nat): nat
    requires ValidTrace(s, trace)
    decreases |trace|
  {
    if trace == [] then 0
    else (if Loses(s, trace[0], i) then 1 else 0) + Losses(Next(s, trace[0]), trace[1..], i)
  }

  /** What is lost stays lost, and what is counted stays counted. */
  lemma FateOfARecord(s: State, e: Event, i: nat)
    requires Inv(s) && Enabled(s, e)
    ensures Lost(s, i) ==> Lost(Next(s, e), i)
    ensures !Lost(s, i) && Lost(Next(s, e), i) ==> Loses(s, e, i)
    ensures i < |s.usage| && s.usage[i].counted ==> !Lost(Next(s, e), i)
  {
    EventHandsOn(s, e);
  }

  /** Along any run a record is lost at most once, and it ends up lost exactly when some
      event of the run lost it. */
  lemma {:induction false} LostOnceOrNever(s: State, trace: seq<Event>, i: nat)
    requires Inv(s) && ValidTrace(s, trace)
    ensures
      var t := Run(s, trace);
      Losses(s, trace, i) == if Lost(t, i) && !Lost(s, i) then 1 else 0
    ensures Lost(s, i) ==> Lost(Run(s, trace), i)
    decreases |trace|
  {
    if trace != [] {
      InvIsPreserved(s, trace[0]);
      FateOfARecord(s, trace[0], i);
      LostOnceOrNever(Next(s, trace[0]), trace[1..], i);
    }
  }

  /** `tokensUsed` falls short of the usage records exactly when a record with tokens is
      still some worker's to account for, or was lost: at one event of the run, in which
      its worker gave up. */
  lemma FallsShortExactlyWhenLost(row: RunRow, trace: seq<Event>)
    requires NewRun(row) && ValidTrace(Initial(row), trace)
    ensures
      var t := Run(Initial(row), trace);
      t.row.tokensUsed < Total(t.usage) <==>
        exists i: nat :: i < |t.usage| && t.usage[i].tokens > 0
          && (Claimed(t, i) || Losses(Initial(row), trace, i) == 1)
  {
    var t := Run(Initial(row), trace);
    assert Reachable(t);
    ReachableIsInv(t);
    TokensAreAccounted(t);
    assert Inv(Initial(row));
    forall i: nat | i < |t.usage|
      ensures !t.usage[i].counted <==> Claimed(t, i) || Losses(Initial(row), trace, i) == 1
    {
      LostOnceOrNever(Initial(row), trace, i);
      if Claimed(t, i) {
        var b :| b in t.actors && i in Claims(t.actors[b]);
        assert PhaseOk(t, b, t.actors[b]);
      }
    }
    if t.row.tokensUsed < Total(t.usage) {
      var i: nat :| i < |t.usage| && !t.usage[i].counted && t.usage[i].tokens > 0;
      assert Claimed(t, i) || Losses(Initial(row), trace, i) == 1;
    }
  }

  /** A counted record stays counted and no record changes its tokens, so no LLM call
      is ever counted twice, across replays as across workers. */
  lemma {:induction false} RecordsAreCountedOnce(s: State, trace: seq<Event>, i: nat)
    requires Inv(s) && ValidTrace(s, trace) && i < |s.usage|
    ensures
      var t := Run(s, trace);
      && i < |t.usage| && t.usage[i].tokens == s.usage[i].tokens
      && (s.usage[i].counted ==> t.usage[i].counted)
    decreases |trace|
  {
    if trace != [] {
      InvIsPreserved(s, trace[0]);
      EventKeepsRecord(s, trace[0], i);
      RecordsAreCountedOnce(Next(s, trace[0]), trace[1..], i);
    }
  }

  lemma EventKeepsRecord(s: State, e: Event, i: nat)
    requires Inv(s) && Enabled(s, e) && i < |s.usage|
    ensures
      var t := Next(s, e);
      i < |t.usage| && t.usage[i].tokens == s.usage[i].tokens && (s.usage[i].counted ==> t.usage[i].counted)
  {
    if e.EndStep? {
      StepKeepsRecord(s, e.a, BatchOf(e.tiers, e.limit, e.controls), i);
    } else {
      OtherEventKeepsRecord(s, e, i);
    }
  }

  lemma OtherEventKeepsRecord(s: State, e: Event, i: nat)
    requires Enabled(s, e) && i < |s.usage| && !e.EndStep?
    ensures
      var t := Next(s, e);
      i < |t.usage| && t.usage[i].tokens == s.usage[i].tokens && (s.usage[i].counted ==> t.usage[i].counted)
  {}

  lemma StepKeepsRecord(s: State, a: nat, batch: Batch, i: nat)
    requires a in s.actors && s.actors[a].Acting? && i < |s.usage|
    requires batch.Ended? ==> !batch.control.Proceed? && !batch.control.AwaitApproval?
    ensures
      var t := NextStep(s, a, batch);
      i < |t.usage| && t.usage[i].tokens == s.usage[i].tokens && (s.usage[i].counted ==> t.usage[i].counted)
  {
    var p := Persist(s, a, s.actors[a]);
    assert p.usage[i] == s.usage[i];
  }

  // ------------------------------------------------------------- a witness

  const SampleStep := StepRow([Call("1", "read_file", "{}")], 5)

  /** A client cancels while the worker executes a call whose step is durable. The step's
      own checkpoint is stale, and its tokens are never counted, though nothing crashed,
      raised or failed. */
  lemma CancellingLosesTokens()
    ensures exists s ::
      && QuietlyReachable(s) && s.row.tokensUsed < Total(s.usage) && forall i: nat :: !Claimed(s, i)
  {
    var s := PersistSample();
    var cancelled := CancelPersisted(s);
    var t := StaleSample(cancelled);
    assert Total([Usage(5, false)]) == 5 by { assert [Usage(5, false)][..0] == []; }
    assert QuietlyReachable(t) && t.row.tokensUsed < Total(t.usage);
    assert forall i: nat :: !Claimed(t, i);
  }

  const SampleActing :=
    Acting(SampleRunning, None, SampleStep, Recorded(0), 5)

  lemma PersistSample() returns (s: State)
    ensures QuietlyReachable(s)
    ensures s.row == SampleRunning && s.actors == map[1 := SampleActing] && s.usage == [Usage(5, false)]
  {
    var s1 := ClaimSample();
    var s2 := Next(s1, LlmReplies(1, SampleStep));
    assert s2.actors == map[1 := Acting(SampleRunning, None, SampleStep, Uncommitted, 5)];
    s := Next(s2, CommitCall(1));
    assert s.actors == map[1 := SampleActing];
    QuietStep(s1, LlmReplies(1, SampleStep));
    QuietStep(s2, CommitCall(1));
  }

  lemma CancelReadsPersisted(s: State) returns (t: State)
    requires QuietlyReachable(s) && s.row == SampleRunning && s.actors == map[1 := SampleActing]
    ensures QuietlyReachable(t)
    ensures t == s.(actors := map[1 := SampleActing, 2 := Requesting(SampleRunning, Cancel)])
  {
    t := Next(s, ClientReads(2, Cancel));
    QuietStep(s, ClientReads(2, Cancel));
  }

  lemma CancelPersisted(s: State) returns (t: State)
    requires QuietlyReachable(s)
    requires s.row == SampleRunning && s.actors == map[1 := SampleActing] && s.usage == [Usage(5, false)]
    ensures QuietlyReachable(t)
    ensures t.row == SampleCancelled && t.usage == [Usage(5, false)] && t.actors == map[1 := SampleActing]
  {
    var s1 := CancelReadsPersisted(s);
    t := Next(s1, ClientWrites(2));
    assert t.actors == map[1 := SampleActing];
    QuietStep(s1, ClientWrites(2));
  }

  lemma StaleSample(s: State) returns (t: State)
    requires QuietlyReachable(s)
    requires s.row == SampleCancelled && s.actors == map[1 := SampleActing] && s.usage == [Usage(5, false)]
    ensures QuietlyReachable(t)
    ensures t.row == SampleCancelled && t.usage == [Usage(5, false)] && t.actors == map[1 := Finishing]
  {
    t := Next(s, EndStep(1, [Some(ReadOnly)], 1, [Proceed]));
    assert t.actors == map[1 := Finishing];
    QuietStep(s, EndStep(1, [Some(ReadOnly)], 1, [Proceed]));
  }
}
