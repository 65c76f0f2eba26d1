/** The inductive invariant of the run protocol, and its preservation by every event. */
module RunInvariants {
  import opened Domain
  import opened RunRepository
  import opened EngineStep
  import opened RunProtocol

  // -------------------------------------------------------------- the log

  /** What one successful versioned write may do to the row. */
  ghost predicate LogStep(p: RunRow, n: RunRow) {
    && n.version == p.version + 1
    && n.maxSteps == p.maxSteps && n.maxToolCalls == p.maxToolCalls && n.tokenBudget == p.tokenBudget
    && ValidTransition(p.status, n.status)
    && p.currentStep <= n.currentStep && p.tokensUsed <= n.tokensUsed && p.toolCallsUsed <= n.toolCallsUsed
    && (p.cancelRequested ==>
          && n.cancelRequested
          && n.currentStep == p.currentStep && n.tokensUsed == p.tokensUsed && n.toolCallsUsed == p.toolCallsUsed)
  }

  ghost predicate LogOk(s: State) {
    && |s.log| == s.row.version + 1 && |s.writers| == s.row.version
    && SameModuloExpiry(s.log[s.row.version], s.row)
    && (forall v :: 0 <= v < |s.log| ==> s.log[v].version == v)
    && (forall v, w :: 0 <= v && w == v + 1 && w < |s.log| ==> LogStep(s.log[v], s.log[w]))
  }

  ghost predicate RowOk(row: RunRow) {
    && row.currentStep <= Max(0, row.maxSteps)
    && row.toolCallsUsed <= Max(0, row.maxToolCalls)
    && (!Terminal(row.status) ==> row.tokensUsed <= Max(0, row.tokenBudget))
    && (row.cancelRequested ==> row.status.Pending? || row.status.Running? || row.status.Cancelled?)
  }

  // ------------------------------------------------------------ the steps

  function CallsBelow(steps: map<nat, StepRow>, n: nat): nat {
    if n == 0 then 0
    else CallsBelow(steps, n - 1) + if n - 1 in steps then |steps[n - 1].calls| else 0
  }

  /** The persisted steps are 0..currentStep-1 and possibly currentStep. */
  ghost predicate StepsOk(s: State) {
    && (forall k: nat :: k < s.row.currentStep ==> k in s.steps)
    && (forall k :: k in s.steps ==> k <= s.row.currentStep)
    && (s.row.status.WaitingApproval? ==> s.row.currentStep in s.steps)
    && (!Terminal(s.row.status) ==> s.row.toolCallsUsed == CallsBelow(s.steps, s.row.currentStep))
  }

  // ----------------------------------------------------------- the tokens

  function Counted(usage: seq<Usage>): nat {
    if usage == [] then 0
    else Counted(usage[..|usage| - 1]) + if usage[|usage| - 1].counted then usage[|usage| - 1].tokens else 0
  }

  function Total(usage: seq<Usage>): nat {
    if usage == [] then 0 else Total(usage[..|usage| - 1]) + usage[|usage| - 1].tokens
  }

  /** The usage records a worker still has to account for. */
  function Claims(p: Phase): set<nat> {
    match p
    case Llm(_, Some(i)) => {i}
    case Acting(_, compaction, _, reply, _) =>
      (if compaction.Some? then {compaction.value} else {}) + (if reply.Recorded? then {reply.usage} else {})
    case _ => {}
  }

  ghost predicate TokensOk(s: State) {
    s.row.tokensUsed == Counted(s.usage)
  }

  // ----------------------------------------------------------- the actors

  ghost predicate Agrees(s: State, snap: RunRow) {
    snap.version < |s.log| && SameModuloExpiry(snap, s.log[snap.version])
  }

  ghost predicate MayStep(snap: RunRow) {
    snap.status.Running? && !snap.cancelRequested && snap.currentStep < snap.maxSteps
  }

  ghost predicate ActingOk(s: State, p: Phase)
    requires p.Acting?
  {
    var k := p.snap.currentStep;
    && MayStep(p.snap)
    && (p.reply.Uncommitted? ==> k !in s.steps)
    && (!p.reply.Uncommitted? ==> k in s.steps && s.steps[k] == p.step)
    && (p.reply.Replayed? ==> p.compaction.None?)
    && (p.reply.Recorded? ==> p.reply.usage < |s.usage| && s.usage[p.reply.usage].tokens == p.step.tokens)
    && (p.reply.Recorded? && p.compaction.Some? ==> p.reply.usage != p.compaction.value)
    && p.tokens == p.snap.tokensUsed + TokensAt(s.usage, p.compaction)
                   + if p.reply.Replayed? then 0 else p.step.tokens
  }

  predicate RequestOk(request: Request, snap: RunRow) {
    match request
    case Cancel => !Terminal(snap.status)
    case PostMessage => Waiting(snap.status)
    case Resume => snap.status.WaitingApproval?
    case ExpireApproval => snap.status.WaitingApproval?
  }

  ghost predicate PhaseOk(s: State, a: nat, p: Phase) {
    && (Snapshotted(p) ==> Agrees(s, p.snap))
    && (p.Llm? ==> MayStep(p.snap))
    && (p.Acting? ==> ActingOk(s, p))
    && (p.Releasing? ==> OwnedBy(p.snap, a))
    && (p.Requesting? ==> RequestOk(p.request, p.snap))
    && (forall i :: i in Claims(p) ==> i < |s.usage| && !s.usage[i].counted)
  }

  /** No two workers hold the same uncommitted step, or claim the same usage record. */
  ghost predicate Apart(p: Phase, q: Phase) {
    && Claims(p) !! Claims(q)
    && !(p.Acting? && q.Acting? && p.reply.Uncommitted? && q.reply.Uncommitted?
         && p.snap.currentStep == q.snap.currentStep)
  }

  ghost predicate ActorsOk(s: State) {
    && (forall a :: a in s.actors ==> PhaseOk(s, a, s.actors[a]))
    && (forall a, b :: a in s.actors && b in s.actors && a != b ==> Apart(s.actors[a], s.actors[b]))
  }

  ghost predicate Inv(s: State) {
    LogOk(s) && RowOk(s.row) && StepsOk(s) && TokensOk(s) && ActorsOk(s)
  }

  // ------------------------------------------------------- general lemmas

  /** The fencing fact: a snapshot at the row's version is the row, up to the expiry. */
  lemma CurrentSnapshot(s: State, snap: RunRow)
    requires LogOk(s) && Agrees(s, snap) && snap.version == s.row.version
    ensures SameModuloExpiry(snap, s.row)
  {}

  lemma {:induction false} LogIsMonotone(s: State, v: nat, w: nat)
    requires LogOk(s) && v <= w < |s.log|
    ensures s.log[v].currentStep <= s.log[w].currentStep
    ensures s.log[v].cancelRequested ==>
      && s.log[w].cancelRequested
      && s.log[w].currentStep == s.log[v].currentStep
      && s.log[w].tokensUsed == s.log[v].tokensUsed
      && s.log[w].toolCallsUsed == s.log[v].toolCallsUsed
    ensures Terminal(s.log[v].status) ==> s.log[w].status == s.log[v].status
    decreases w - v
  {
    if v < w {
      LogIsMonotone(s, v, w - 1);
      assert LogStep(s.log[w - 1], s.log[w]);
    }
  }

  lemma SaveKeepsLog(s: State, a: nat, row: RunRow)
    requires LogOk(s) && LogStep(s.row, row)
    ensures LogOk(Save(s, a, row))
    ensures forall snap :: Agrees(s, snap) ==> Agrees(Save(s, a, row), snap)
    ensures Agrees(Save(s, a, row), row)
  {
    var t := Save(s, a, row);
    forall v, w | 0 <= v && w == v + 1 && w < |t.log|
      ensures LogStep(t.log[v], t.log[w])
    {
      if w < |s.log| {
        assert LogStep(s.log[v], s.log[w]);
      }
    }
  }

  /** The rest of the state may grow under an actor's feet without upsetting it. */
  ghost predicate Grows(s: State, t: State) {
    && s.log <= t.log
    && |s.usage| <= |t.usage|
    && (forall i :: 0 <= i < |s.usage| ==> t.usage[i].tokens == s.usage[i].tokens)
    && (forall k :: k in s.steps ==> k in t.steps && t.steps[k] == s.steps[k])
  }

  lemma PhaseIsStable(s: State, t: State, a: nat, p: Phase)
    requires PhaseOk(s, a, p) && Grows(s, t)
    requires forall i :: i in Claims(p) ==> i < |s.usage| && t.usage[i] == s.usage[i]
    requires p.Acting? && p.reply.Uncommitted? ==> p.snap.currentStep !in t.steps
    ensures PhaseOk(t, a, p)
  {
    if p.Acting? && p.compaction.Some? {
      assert p.compaction.value in Claims(p);
    }
  }

  lemma CallsBelowIsStable(s: map<nat, StepRow>, t: map<nat, StepRow>, n: nat)
    requires forall k: nat :: k < n ==> k in s && k in t && t[k] == s[k]
    ensures CallsBelow(s, n) == CallsBelow(t, n)
  {}

  lemma CountedOfMark(usage: seq<Usage>, i: nat)
    requires i < |usage| && !usage[i].counted
    ensures Counted(usage[i := usage[i].(counted := true)]) == Counted(usage) + usage[i].tokens
  {
    var marked := usage[i := usage[i].(counted := true)];
    var n := |usage| - 1;
    if i == n {
      assert marked[..n] == usage[..n];
    } else {
      CountedOfMark(usage[..n], i);
      assert marked[..n] == usage[..n][i := usage[i].(counted := true)];
    }
  }

  lemma CountedOfAppend(usage: seq<Usage>, u: Usage)
    ensures Counted(usage + [u]) == Counted(usage) + if u.counted then u.tokens else 0
  {
    assert (usage + [u])[..|usage|] == usage;
  }

  function With(actors: map<nat, Phase>, a: nat, p: Option<Phase>): map<nat, Phase> {
    match p
    case Some(phase) => actors[a := phase]
    case None => actors - {a}
  }

  /** One actor moves, the others stay: what is left to show is about the mover. */
  lemma ActorsKeep(s: State, t: State, a: nat, p: Option<Phase>)
    requires ActorsOk(s) && Grows(s, t) && t.actors == With(s.actors, a, p)
    requires forall b, i :: b in s.actors && b != a && i in Claims(s.actors[b]) ==>
      i < |s.usage| && t.usage[i] == s.usage[i]
    requires forall b :: b in s.actors && b != a && s.actors[b].Acting? && s.actors[b].reply.Uncommitted? ==>
      s.actors[b].snap.currentStep !in t.steps
    requires p.Some? ==> PhaseOk(t, a, p.value)
    requires p.Some? ==> forall b :: b in s.actors && b != a ==> Apart(p.value, s.actors[b])
    ensures ActorsOk(t)
  {
    forall b | b in t.actors
      ensures PhaseOk(t, b, t.actors[b])
    {
      if b != a { PhaseIsStable(s, t, b, s.actors[b]); }
    }
  }

  // -------------------------------------------- events that save no version

  /** A read, a crash, a renewal: the row stays as it was up to its expiry, and one
      actor changes phase. */
  lemma QuietMove(s: State, t: State, a: nat, p: Option<Phase>)
    requires Inv(s)
    requires t.log == s.log && t.writers == s.writers && t.usage == s.usage && t.steps == s.steps
    requires SameModuloExpiry(s.row, t.row) && t.actors == With(s.actors, a, p)
    requires p.Some? ==> PhaseOk(t, a, p.value)
    requires p.Some? ==> Claims(p.value) <= if a in s.actors then Claims(s.actors[a]) else {}
    requires p.Some? && p.value.Acting? && p.value.reply.Uncommitted? ==>
      forall b :: b in s.actors && b != a ==> !Holds(s.actors[b], p.value.snap.currentStep)
    ensures Inv(t)
  {
    forall b | b in s.actors && b != a && p.Some?
      ensures Apart(p.value, s.actors[b])
    {
      if a in s.actors { assert Apart(s.actors[a], s.actors[b]); }
    }
    assert forall b :: b in s.actors ==> PhaseOk(s, b, s.actors[b]);
    ActorsKeep(s, t, a, p);
  }

  lemma RowAgreesWithItself(s: State)
    requires LogOk(s)
    ensures Agrees(s, s.row)
  {}

  predicate MovesPhase(e: Event) {
    || e.Deliver? || e.Load? || e.Leave? || e.Fail? || e.Crash? || e.ReadForRelease? || e.ClientReads?
    || e.ReaperReads? || e.HandOff?
  }

  lemma ReadersKeepInv(s: State, e: Event)
    requires Inv(s) && Enabled(s, e) && (e.Deliver? || e.Load? || e.ClientReads? || e.ReaperReads?)
    ensures Inv(Next(s, e))
  {
    RowAgreesWithItself(s);
    QuietMove(s, Next(s, e), e.a, Some(Next(s, e).actors[e.a]));
  }

  lemma FinishersKeepInv(s: State, e: Event)
    requires Inv(s) && Enabled(s, e) && (e.Leave? || e.Fail? || e.ReadForRelease?) && e.a in Next(s, e).actors
    ensures Inv(Next(s, e))
  {
    RowAgreesWithItself(s);
    QuietMove(s, Next(s, e), e.a, Some(Next(s, e).actors[e.a]));
  }

  lemma HandOffKeepsInv(s: State, a: nat)
    requires Inv(s) && Enabled(s, HandOff(a)) && a in Next(s, HandOff(a)).actors
    ensures Inv(Next(s, HandOff(a)))
  {
    RowAgreesWithItself(s);
    QuietMove(s, Next(s, HandOff(a)), a, Some(Claiming(s.row)));
  }

  lemma LeaversKeepInv(s: State, e: Event)
    requires Inv(s) && Enabled(s, e) && MovesPhase(e) && e.a !in Next(s, e).actors
    ensures Inv(Next(s, e))
  {
    QuietMove(s, Next(s, e), e.a, None);
  }

  lemma MoversKeepInv(s: State, e: Event)
    requires Inv(s) && Enabled(s, e) && MovesPhase(e)
    ensures Inv(Next(s, e))
  {
    if e.Deliver? || e.Load? || e.ClientReads? || e.ReaperReads? {
      ReadersKeepInv(s, e);
    } else if e.a !in Next(s, e).actors {
      LeaversKeepInv(s, e);
    } else if e.HandOff? {
      HandOffKeepsInv(s, e.a);
    } else {
      FinishersKeepInv(s, e);
    }
  }

  lemma ObserveKeepsInv(s: State, a: nat)
    requires Inv(s) && Enabled(s, Observe(a))
    ensures Inv(Next(s, Observe(a)))
  {
    assert PhaseOk(s, a, s.actors[a]);
    var t := Next(s, Observe(a));
    QuietMove(s, t, a, Some(t.actors[a]));
  }

  lemma AcceptedReplyKeepsInv(s: State, a: nat, step: StepRow)
    requires Inv(s) && Enabled(s, LlmReplies(a, step)) && s.actors[a].snap.currentStep !in s.steps
    ensures Inv(Next(s, LlmReplies(a, step)))
  {
    var p := s.actors[a];
    assert PhaseOk(s, a, p);
    var t := Next(s, LlmReplies(a, step));
    assert forall b :: b in s.actors && b != a ==> !Holds(s.actors[b], p.snap.currentStep);
    QuietMove(s, t, a, Some(t.actors[a]));
  }

  lemma LlmRepliesKeepsInv(s: State, a: nat, step: StepRow)
    requires Inv(s) && Enabled(s, LlmReplies(a, step))
    ensures Inv(Next(s, LlmReplies(a, step)))
  {
    if s.actors[a].snap.currentStep in s.steps {
      AbandonKeepsInv(s, a);
    } else {
      AcceptedReplyKeepsInv(s, a, step);
    }
  }

  lemma HeartbeatKeepsInv(s: State, a: nat, now: int, ttl: nat)
    requires Inv(s) && Enabled(s, Heartbeat(a, now, ttl))
    ensures Inv(Next(s, Heartbeat(a, now, ttl)))
  {
    var t := Next(s, Heartbeat(a, now, ttl));
    assert PhaseOk(s, a, s.actors[a]);
    assert t.actors[a] == s.actors[a] ==> t.actors == s.actors;
    if t.actors == s.actors {
      PhaseIsStable(s, t, a, s.actors[a]);
      if s.actors[a].Acting? && s.actors[a].reply.Uncommitted? {
        forall b | b in s.actors && b != a
          ensures !Holds(s.actors[b], s.actors[a].snap.currentStep)
        {
          assert Apart(s.actors[a], s.actors[b]);
        }
      }
    }
    QuietMove(s, t, a, Some(t.actors[a]));
  }

  // ------------------------------------- events that save a version, no step

  /** A versioned write that leaves the counters alone. */
  ghost predicate SavesStatus(was: RunRow, row: RunRow) {
    && LogStep(was, row)
    && row.currentStep == was.currentStep && row.tokensUsed == was.tokensUsed && row.toolCallsUsed == was.toolCallsUsed
    && (row.status.WaitingApproval? ==> was.status.WaitingApproval?)
    && (row.cancelRequested ==> row.status.Pending? || row.status.Running? || row.status.Cancelled?)
  }

  lemma SaveMove(s: State, t: State, a: nat, row: RunRow, p: Option<Phase>)
    requires Inv(s) && SavesStatus(s.row, row)
    requires t == Save(s, a, row).(actors := t.actors) && t.actors == With(s.actors, a, p)
    requires a in s.actors
    requires p.Some? ==> PhaseOk(Save(s, a, row), a, p.value)
    requires p.Some? ==> Claims(p.value) <= Claims(s.actors[a])
    requires p.Some? && p.value.Acting? ==> !p.value.reply.Uncommitted?
    ensures Inv(t)
  {
    SaveKeepsLog(s, a, row);
    assert t.log == Save(s, a, row).log;
    forall b | b in s.actors && b != a && p.Some?
      ensures Apart(p.value, s.actors[b])
    {
      assert Apart(s.actors[a], s.actors[b]);
    }
    assert forall b :: b in s.actors ==> PhaseOk(s, b, s.actors[b]);
    if p.Some? { PhaseIsStable(Save(s, a, row), t, a, p.value); }
    ActorsKeep(s, t, a, p);
  }

  /** An exception in the engine: the worker goes on to release. */
  lemma AbandonKeepsInv(s: State, a: nat)
    requires Inv(s) && a in s.actors
    ensures Inv(Abandon(s, a))
  {
    QuietMove(s, Abandon(s, a), a, Some(Finishing));
  }

  lemma DropKeepsInv(s: State, a: nat)
    requires Inv(s) && a in s.actors && Claims(s.actors[a]) == {}
    ensures Inv(Remove(s, a))
  {
    QuietMove(s, Remove(s, a), a, None);
  }

  /** A worker's checkpoint of its status or of nothing. */
  ghost predicate StatusOnly(snap: RunRow, u: Update) {
    && (u == NoChange || (u.status.Some? && u == To(u.status.value) && !u.status.value.WaitingApproval?))
    && (snap.cancelRequested && u.status.Some? ==> u.status.value.Running? || u.status.value.Cancelled?)
  }

  lemma SavedStatusIsAStep(s: State, snap: RunRow, u: Update, row: RunRow)
    requires Inv(s) && Agrees(s, snap) && StatusOnly(snap, u) && CheckpointOf(s.row, snap, u) == Saved(row)
    ensures SavesStatus(s.row, row)
  {
    CurrentSnapshot(s, snap);
  }

  lemma CommitKeepsInv(s: State, a: nat, u: Update, p: Phase)
    requires Inv(s) && a in s.actors && Snapshotted(s.actors[a]) && StatusOnly(s.actors[a].snap, u)
    requires p.Top? || (u == NoChange && p == s.actors[a] && (p.Llm? || (p.Acting? && !p.reply.Uncommitted?)))
    requires p.Top? ==> Claims(s.actors[a]) == {}
    ensures Inv(Commit(s, a, s.actors[a].snap, u, p))
  {
    var snap := s.actors[a].snap;
    assert PhaseOk(s, a, s.actors[a]);
    match CheckpointOf(s.row, snap, u) {
      case Saved(row) =>
        SavedStatusIsAStep(s, snap, u, row);
        SaveKeepsLog(s, a, row);
        RefreshedIsOk(s, a, snap, u, row, p);
        SaveMove(s, Commit(s, a, snap, u, p), a, row, Some(Refresh(p, row)));
      case _ => AbandonKeepsInv(s, a);
    }
  }

  lemma RefreshedIsOk(s: State, a: nat, snap: RunRow, u: Update, row: RunRow, p: Phase)
    requires Inv(s) && a in s.actors && Agrees(s, snap) && CheckpointOf(s.row, snap, u) == Saved(row)
    requires SavesStatus(s.row, row)
    requires p.Top?
      || (u == NoChange && p == s.actors[a] && (p.Llm? || (p.Acting? && !p.reply.Uncommitted?)) && p.snap == snap)
    ensures PhaseOk(Save(s, a, row), a, Refresh(p, row))
  {
    CurrentSnapshot(s, snap);
    SaveKeepsLog(s, a, row);
    if !p.Top? {
      assert PhaseOk(s, a, p);
      PhaseIsStable(s, Save(s, a, row), a, p);
    }
  }

  lemma AcquireKeepsInv(s: State, a: nat, now: int, ttl: nat)
    requires Inv(s) && Enabled(s, Acquire(a, now, ttl))
    ensures Inv(Next(s, Acquire(a, now, ttl)))
  {
    match AcquireOf(s.row, s.actors[a].snap, a, now, ttl) {
      case Some(row) => SaveMove(s, Next(s, Acquire(a, now, ttl)), a, row, Some(Acquired));
      case None => DropKeepsInv(s, a);
    }
  }

  lemma ReleaseKeepsInv(s: State, a: nat)
    requires Inv(s) && Enabled(s, Release(a))
    ensures Inv(Next(s, Release(a)))
  {
    match VersionedUpdate(s.row, s.actors[a].snap, Released) {
      case Some(row) => SaveMove(s, Next(s, Release(a)), a, row, None);
      case None => DropKeepsInv(s, a);
    }
  }

  lemma ClientWritesKeepsInv(s: State, a: nat)
    requires Inv(s) && Enabled(s, ClientWrites(a))
    ensures Inv(Next(s, ClientWrites(a)))
  {
    var p := s.actors[a];
    assert PhaseOk(s, a, p);
    match CheckpointOf(s.row, p.snap, RequestUpdate(p.request, p.snap)) {
      case Saved(row) =>
        CurrentSnapshot(s, p.snap);
        SaveMove(s, Next(s, ClientWrites(a)), a, row, None);
      case _ => DropKeepsInv(s, a);
    }
  }

  predicate Checkpoints(e: Event) {
    e.Begin? || e.Stop? || e.AdoptSkill? || e.UnlockTool?
  }

  lemma CheckpointsKeepInv(s: State, e: Event)
    requires Inv(s) && Enabled(s, e) && Checkpoints(e)
    ensures Inv(Next(s, e))
  {
    var p := s.actors[e.a];
    assert PhaseOk(s, e.a, p);
    match e {
      case Begin(a) => CommitKeepsInv(s, a, To(Running), p);
      case Stop(a, elapsed) => CommitKeepsInv(s, a, To(Guard(p.snap, elapsed).value), Top(p.snap));
      case AdoptSkill(a) => CommitKeepsInv(s, a, NoChange, p);
      case UnlockTool(a) => CommitKeepsInv(s, a, NoChange, p);
    }
  }

  lemma LlmFailsKeepsInv(s: State, a: nat)
    requires Inv(s) && Enabled(s, LlmFails(a))
    ensures Inv(Next(s, LlmFails(a)))
  {
    var p := s.actors[a];
    assert PhaseOk(s, a, p);
    match CheckpointOf(s.row, p.snap, To(Failed)) {
      case Saved(row) =>
        CurrentSnapshot(s, p.snap);
        SaveKeepsLog(s, a, row);
        SaveMove(s, Next(s, LlmFails(a)), a, row, Some(Top(row)));
      case _ => AbandonKeepsInv(s, a);
    }
  }

  // ------------------------------------------- events that write other rows

  lemma TickKeepsInv(s: State, now: int)
    requires Inv(s)
    ensures Inv(s.(clock := now))
  {
    var t := s.(clock := now);
    forall a | a in t.actors
      ensures PhaseOk(t, a, t.actors[a])
    {
      PhaseIsStable(s, t, a, s.actors[a]);
    }
  }

  lemma CompactKeepsInv(s: State, a: nat, tokens: nat)
    requires Inv(s) && Enabled(s, Compact(a, tokens))
    ensures Inv(Next(s, Compact(a, tokens)))
  {
    var t := Next(s, Compact(a, tokens));
    assert PhaseOk(s, a, s.actors[a]);
    CountedOfAppend(s.usage, Usage(tokens, false));
    forall b | b in s.actors && b != a
      ensures Apart(t.actors[a], s.actors[b])
    {
      assert PhaseOk(s, b, s.actors[b]);
    }
    assert forall b :: b in s.actors ==> PhaseOk(s, b, s.actors[b]);
    ActorsKeep(s, t, a, Some(t.actors[a]));
  }

  /** An unpersisted step can only be the run's current one, however old the
      snapshot of the worker that holds it. */
  lemma UncommittedIsCurrent(s: State, a: nat)
    requires Inv(s) && a in s.actors && s.actors[a].Acting? && s.actors[a].reply.Uncommitted?
    ensures s.actors[a].snap.currentStep == s.row.currentStep
  {
    var p := s.actors[a];
    assert PhaseOk(s, a, p);
    LogIsMonotone(s, p.snap.version, s.row.version);
  }

  /** The worker itself, once its step is durable. */
  lemma PersistKeepsPhase(s: State, a: nat)
    requires Inv(s) && a in s.actors && s.actors[a].Acting? && s.actors[a].reply.Uncommitted?
    ensures PhaseOk(Persist(s, a, s.actors[a]), a, Persist(s, a, s.actors[a]).actors[a])
  {
    var p := s.actors[a];
    assert PhaseOk(s, a, p);
    if p.compaction.Some? { assert p.compaction.value in Claims(p); }
  }

  lemma PersistKeepsActors(s: State, a: nat)
    requires Inv(s) && a in s.actors && s.actors[a].Acting? && s.actors[a].reply.Uncommitted?
    ensures ActorsOk(Persist(s, a, s.actors[a]))
  {
    var t := Persist(s, a, s.actors[a]);
    PersistKeepsPhase(s, a);
    assert PhaseOk(s, a, s.actors[a]);
    forall b | b in s.actors && b != a
      ensures Apart(t.actors[a], s.actors[b])
      ensures s.actors[b].Acting? && s.actors[b].reply.Uncommitted? ==> s.actors[b].snap.currentStep !in t.steps
      ensures forall i :: i in Claims(s.actors[b]) ==> i < |s.usage| && t.usage[i] == s.usage[i]
    {
      assert PhaseOk(s, b, s.actors[b]) && Apart(s.actors[a], s.actors[b]);
    }
    ActorsKeep(s, t, a, Some(t.actors[a]));
  }

  /** The step it adds is the run's current one. */
  lemma PersistKeepsStepsOk(s: State, a: nat)
    requires Inv(s) && a in s.actors && s.actors[a].Acting? && s.actors[a].reply.Uncommitted?
    ensures StepsOk(Persist(s, a, s.actors[a]))
  {
    var t := Persist(s, a, s.actors[a]);
    assert PhaseOk(s, a, s.actors[a]);
    UncommittedIsCurrent(s, a);
    CallsBelowIsStable(s.steps, t.steps, s.row.currentStep);
  }

  /** And the record it adds is its writer's to count. */
  lemma PersistKeepsTokensOk(s: State, a: nat)
    requires Inv(s) && a in s.actors && s.actors[a].Acting? && s.actors[a].reply.Uncommitted?
    ensures TokensOk(Persist(s, a, s.actors[a]))
  {
    var t := Persist(s, a, s.actors[a]);
    CountedOfAppend(s.usage, Usage(s.actors[a].step.tokens, false));
  }

  lemma PersistKeepsInv(s: State, a: nat)
    requires Inv(s) && a in s.actors && s.actors[a].Acting?
    ensures Inv(Persist(s, a, s.actors[a]))
  {
    if s.actors[a].reply.Uncommitted? {
      PersistKeepsStepsOk(s, a);
      PersistKeepsTokensOk(s, a);
      PersistKeepsActors(s, a);
    }
  }

  /** The row a step ends in, from a current snapshot whose step is persisted. */
  lemma StepEndsWell(s: State, p: Phase, batch: Batch, row: RunRow)
    requires Inv(s) && p.Acting? && !p.reply.Uncommitted? && ActingOk(s, p) && Agrees(s, p.snap)
    requires batch.Ended? ==> !batch.control.Proceed? && !batch.control.AwaitApproval?
    requires batch.Parked? ==> batch.executed == 0
    requires CheckpointOf(s.row, p.snap, EndOfStep(p.snap, |p.step.calls|, p.tokens, batch)) == Saved(row)
    ensures LogStep(s.row, row) && RowOk(row) && row.tokensUsed == p.tokens
    ensures forall k: nat :: k < row.currentStep ==> k in s.steps
    ensures s.row.currentStep <= row.currentStep
    ensures row.status.WaitingApproval? ==> row.currentStep in s.steps
    ensures !Terminal(row.status) ==> row.toolCallsUsed == CallsBelow(s.steps, row.currentStep)
  {
    CurrentSnapshot(s, p.snap);
    var k := s.row.currentStep;
    assert CallsBelow(s.steps, k + 1) == CallsBelow(s.steps, k) + |p.step.calls|;
  }

  /** Marking a worker's claims adds exactly their tokens. */
  lemma CountedOfClaims(s: State, p: Phase)
    requires p.Acting? && !p.reply.Uncommitted? && ActingOk(s, p)
    requires forall i :: i in Claims(p) ==> i < |s.usage| && !s.usage[i].counted
    ensures
      var counted := Count(Count(s.usage, p.compaction), ReplyClaim(p.reply));
      && |counted| == |s.usage|
      && Counted(counted) == Counted(s.usage) + (p.tokens - p.snap.tokensUsed)
      && (forall i :: 0 <= i < |counted| ==>
            counted[i] == if i in Claims(p) then s.usage[i].(counted := true) else s.usage[i])
  {
    var once := Count(s.usage, p.compaction);
    if p.compaction.Some? {
      assert p.compaction.value in Claims(p);
      CountedOfMark(s.usage, p.compaction.value);
    }
    if p.reply.Recorded? {
      assert p.reply.usage in Claims(p);
      CountedOfMark(once, p.reply.usage);
    }
  }

  /** The end of a step, as its parts: the step becomes durable, the claims are counted, the
      row is saved. */
  lemma StepEndsInParts(s: State, a: nat, batch: Batch, row: RunRow)
    requires a in s.actors && s.actors[a].Acting?
    requires batch.Ended? ==> !batch.control.Proceed? && !batch.control.AwaitApproval?
    requires
      var p := s.actors[a];
      CheckpointOf(s.row, p.snap, EndOfStep(p.snap, |p.step.calls|, p.tokens, batch)) == Saved(row)
    ensures
      var t := Persist(s, a, s.actors[a]);
      var p := t.actors[a];
      && t.row == s.row && p.Acting? && !p.reply.Uncommitted?
      && p.snap == s.actors[a].snap && p.step == s.actors[a].step && p.tokens == s.actors[a].tokens
      && NextStep(s, a, batch)
         == SetPhase(Save(t.(usage := Count(Count(t.usage, p.compaction), ReplyClaim(p.reply))), a, row), a, Top(row))
  {}

  lemma EndStepKeepsInv(s: State, e: Event)
    requires Inv(s) && Enabled(s, e) && e.EndStep?
    ensures Inv(Next(s, e))
  {
    var EndStep(a, tiers, limit, controls) := e;
    var p := s.actors[a];
    BatchControl(tiers, limit, controls);
    var batch := BatchOf(tiers, limit, controls);
    match CheckpointOf(s.row, p.snap, EndOfStep(p.snap, |p.step.calls|, p.tokens, batch)) {
      case Saved(row) =>
        assert PhaseOk(s, a, p);
        PersistKeepsInv(s, a);
        StepEndsInParts(s, a, batch, row);
        SavedStepKeepsInv(Persist(s, a, p), a, batch, row);
      case _ => AbandonKeepsInv(s, a);
    }
  }

  /** The end of a step whose row is durable already. */
  lemma SavedStepKeepsInv(s: State, a: nat, batch: Batch, row: RunRow)
    requires Inv(s) && a in s.actors && s.actors[a].Acting? && !s.actors[a].reply.Uncommitted?
    requires batch.Ended? ==> !batch.control.Proceed? && !batch.control.AwaitApproval?
    requires batch.Parked? ==> batch.executed == 0
    requires
      var p := s.actors[a];
      CheckpointOf(s.row, p.snap, EndOfStep(p.snap, |p.step.calls|, p.tokens, batch)) == Saved(row)
    ensures
      var p := s.actors[a];
      var counted := Count(Count(s.usage, p.compaction), ReplyClaim(p.reply));
      Inv(SetPhase(Save(s.(usage := counted), a, row), a, Top(row)))
  {
    var p := s.actors[a];
    assert PhaseOk(s, a, p);
    StepEndsWell(s, p, batch, row);
    CurrentSnapshot(s, p.snap);
    CountedOfClaims(s, p);
    var counted := Count(Count(s.usage, p.compaction), ReplyClaim(p.reply));
    EndKeepsInv(s, SetPhase(Save(s.(usage := counted), a, row), a, Top(row)), a, row);
  }

  lemma EndKeepsInv(s: State, t: State, a: nat, row: RunRow)
    requires Inv(s) && a in s.actors && s.actors[a].Acting? && !s.actors[a].reply.Uncommitted?
    requires LogStep(s.row, row) && RowOk(row) && row.tokensUsed == s.actors[a].tokens
    requires s.actors[a].snap.tokensUsed == s.row.tokensUsed
    requires s.row.currentStep <= row.currentStep
    requires StepsOk(s.(row := row))
    requires
      var counted := Count(Count(s.usage, s.actors[a].compaction), ReplyClaim(s.actors[a].reply));
      t == SetPhase(Save(s.(usage := counted), a, row), a, Top(row))
    ensures Inv(t)
  {
    var p := s.actors[a];
    assert PhaseOk(s, a, p);
    SaveKeepsLog(s, a, row);
    assert t.log == Save(s, a, row).log;
    CountedOfClaims(s, p);
    forall b | b in s.actors && b != a
      ensures Apart(Top(row), s.actors[b])
      ensures forall i :: i in Claims(s.actors[b]) ==> i < |s.usage| && t.usage[i] == s.usage[i]
    {
      assert PhaseOk(s, b, s.actors[b]) && Apart(p, s.actors[b]);
    }
    assert forall b :: b in s.actors ==> PhaseOk(s, b, s.actors[b]);
    ActorsKeep(s, t, a, Some(Top(row)));
  }

  // ------------------------------------------------------------- all events

  predicate WritesRecords(e: Event) {
    e.Tick? || e.Observe? || e.Compact? || e.LlmReplies? || e.CommitCall? || e.Heartbeat?
  }

  lemma RecordsKeepInv(s: State, e: Event)
    requires Inv(s) && Enabled(s, e) && WritesRecords(e)
    ensures Inv(Next(s, e))
  {
    match e {
      case Tick(now) => TickKeepsInv(s, now);
      case Observe(a) => ObserveKeepsInv(s, a);
      case Compact(a, tokens) => CompactKeepsInv(s, a, tokens);
      case LlmReplies(a, step) => LlmRepliesKeepsInv(s, a, step);
      case CommitCall(a) => PersistKeepsInv(s, a);
      case Heartbeat(a, now, ttl) => HeartbeatKeepsInv(s, a, now, ttl);
    }
  }

  lemma InvIsPreserved(s: State, e: Event)
    requires Inv(s) && Enabled(s, e)
    ensures Inv(Next(s, e))
  {
    if WritesRecords(e) {
      RecordsKeepInv(s, e);
    } else if Checkpoints(e) {
      CheckpointsKeepInv(s, e);
    } else if MovesPhase(e) {
      MoversKeepInv(s, e);
    } else {
      match e {
        case Acquire(a, now, ttl) => AcquireKeepsInv(s, a, now, ttl);
        case LlmFails(a) => LlmFailsKeepsInv(s, a);
        case EndStep(_, _, _, _) => EndStepKeepsInv(s, e);
        case Release(a) => ReleaseKeepsInv(s, a);
        case ClientWrites(a) => ClientWritesKeepsInv(s, a);
      }
    }
  }

  lemma {:induction false} RunsKeepInv(s: State, trace: seq<Event>)
    requires Inv(s) && ValidTrace(s, trace)
    ensures Inv(Run(s, trace))
    decreases |trace|
  {
    if trace != [] {
      InvIsPreserved(s, trace[0]);
      RunsKeepInv(Next(s, trace[0]), trace[1..]);
    }
  }

  /** Every reachable state of the protocol satisfies the invariant. */
  lemma ReachableIsInv(s: State)
    requires Reachable(s)
    ensures Inv(s)
  {
    var row, trace :| NewRun(row) && ValidTrace(Initial(row), trace) && Run(Initial(row), trace) == s;
    RunsKeepInv(Initial(row), trace);
  }
}
