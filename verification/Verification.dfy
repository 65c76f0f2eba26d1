/** Revisions, verification evidence and started processes over a CLI session.

    A session is described by the log of what its turns observed. The three fields
    the loop keeps are checked against what the log says: which check was the last,
    which mutation was never followed by one, which process was never stopped. */
module Verification {
  import opened Domain

  datatype ProcessChange = NoProcess | Starts(pid: string) | Stops(pid: string)

  /** What the loop reads off one call and its observation. */
  datatype Observed = Observed(
    succeeded: bool,
    process: ProcessChange,
    mutates: bool,
    attempt: bool,
    evidence: bool)

  /** `continuing` says that the turn carries on with an earlier contract. When a turn
      typed at the prompt is over, however it ended, its caller closes the process manager
      and forgets the processes; a turn started by a command is not followed by this. */
  datatype Event = TurnStarts(continuing: bool) | Observes(call: Observed) | Clears | ProcessesReaped

  datatype Evidence = Evidence(revision: nat)

  datatype Session = Session(
    revision: nat,
    unverified: Option<nat>,
    evidence: Option<Evidence>,
    processes: set<string>)

  const Fresh := Session(0, None, None, {})

  predicate Mutation(e: Event) {
    e.Observes? && e.call.succeeded && e.call.mutates
  }

  predicate Passes(e: Event) {
    e.Observes? && e.call.attempt && e.call.evidence
  }

  predicate FailedCheck(e: Event) {
    e.Observes? && e.call.attempt && !e.call.evidence
  }

  function AfterProcess(processes: set<string>, o: Observed): set<string> {
    if !o.succeeded then processes
    else
      match o.process
      case NoProcess => processes
      case Starts(pid) => processes + {pid}
      case Stops(pid) => processes - {pid}
  }

  /** The bookkeeping of one observation: processes, then the mutation, then the check. */
  function AfterObservation(s: Session, o: Observed): Session {
    var processes := AfterProcess(s.processes, o);
    var moved :=
      if o.succeeded && o.mutates then Session(s.revision + 1, Some(s.revision + 1), None, processes)
      else s.(processes := processes);
    if !o.attempt then moved
    else if o.evidence then moved.(evidence := Some(Evidence(moved.revision)), unverified := None)
    else moved.(evidence := None)
  }

  function After(s: Session, e: Event): Session {
    match e
    case TurnStarts(continuing) => if continuing then s else s.(evidence := None)
    case Observes(o) => AfterObservation(s, o)
    case Clears => s.(evidence := None, unverified := None)
    case ProcessesReaped => s.(processes := {})
  }

  function Replay(s: Session, log: seq<Event>): Session {
    if log == [] then s else After(Replay(s, log[..|log| - 1]), log[|log| - 1])
  }

  lemma {:induction false} ReplayConcat(s: Session, a: seq<Event>, b: seq<Event>)
    ensures Replay(s, a + b) == Replay(Replay(s, a), b)
    decreases |b|
  {
    if b == [] {
      assert a + b == a;
    } else {
      var n := |b| - 1;
      ReplayConcat(s, a, b[..n]);
      assert (a + b)[..|a + b| - 1] == a + b[..n];
    }
  }

  // -------------------------------------------------- what the log says

  /** Drops earlier evidence: a mutation, a failed check, a fresh turn, a clear. */
  predicate Spoils(e: Event) {
    || (Mutation(e) && !Passes(e)) || FailedCheck(e)
    || (e.TurnStarts? && !e.continuing) || e.Clears?
  }

  /** The check at `i` passed, and nothing since has spoiled it. */
  ghost predicate StandsAt(log: seq<Event>, i: nat) {
    i < |log| && Passes(log[i]) && forall j :: i < j < |log| ==> !Spoils(log[j])
  }

  ghost predicate Stands(log: seq<Event>) {
    exists i: nat :: StandsAt(log, i)
  }

  /** The mutation at `i` is not a passing check itself, and neither a passing check nor
      a clear came after it. */
  ghost predicate OpenAt(log: seq<Event>, i: nat) {
    && i < |log| && Mutation(log[i]) && !Passes(log[i])
    && forall j :: i < j < |log| ==> !Passes(log[j]) && !log[j].Clears?
  }

  ghost predicate Open(log: seq<Event>) {
    exists i: nat :: OpenAt(log, i)
  }

  predicate StartsAt(e: Event, pid: string) {
    e.Observes? && e.call.succeeded && e.call.process == Starts(pid)
  }

  /** The process is stopped by name, or with all others. */
  predicate StopsAt(e: Event, pid: string) {
    e.ProcessesReaped? || (e.Observes? && e.call.succeeded && e.call.process == Stops(pid))
  }

  ghost predicate RunsSince(log: seq<Event>, pid: string, i: nat) {
    i < |log| && StartsAt(log[i], pid) && forall j :: i < j < |log| ==> !StopsAt(log[j], pid)
  }

  ghost predicate Running(log: seq<Event>, pid: string) {
    exists i: nat :: RunsSince(log, pid, i)
  }

  lemma StandsAfter(log: seq<Event>, e: Event)
    ensures Stands(log + [e]) <==> Passes(e) || (Stands(log) && !Spoils(e))
  {
    var all := log + [e];
    if Passes(e) { assert StandsAt(all, |log|); }
    if Stands(log) && !Spoils(e) {
      var i: nat :| StandsAt(log, i);
      assert StandsAt(all, i);
    }
    if Stands(all) && !Passes(e) {
      var i: nat :| StandsAt(all, i);
      assert all[|log|] == e;
      assert forall j :: i < j < |log| ==> all[j] == log[j];
      assert StandsAt(log, i);
    }
  }

  lemma OpenAfter(log: seq<Event>, e: Event)
    ensures Open(log + [e]) <==> !Passes(e) && (Mutation(e) || (Open(log) && !e.Clears?))
  {
    var all := log + [e];
    if !Passes(e) && Mutation(e) { assert OpenAt(all, |log|); }
    if Open(log) && !Passes(e) && !e.Clears? {
      var i: nat :| OpenAt(log, i);
      assert OpenAt(all, i);
    }
    if Open(all) {
      var i: nat :| OpenAt(all, i);
      assert all[|log|] == e;
      assert forall j :: i < j < |log| ==> all[j] == log[j];
      assert i < |log| ==> OpenAt(log, i);
    }
  }

  lemma RunningAfter(log: seq<Event>, e: Event, pid: string)
    ensures Running(log + [e], pid) <==> StartsAt(e, pid) || (Running(log, pid) && !StopsAt(e, pid))
  {
    var all := log + [e];
    if StartsAt(e, pid) { assert RunsSince(all, pid, |log|); }
    if Running(log, pid) && !StopsAt(e, pid) {
      var i: nat :| RunsSince(log, pid, i);
      assert RunsSince(all, pid, i);
    }
    if Running(all, pid) {
      var i: nat :| RunsSince(all, pid, i);
      assert all[|log|] == e;
      assert forall j :: i < j < |log| ==> all[j] == log[j];
      assert i < |log| ==> RunsSince(log, pid, i);
    }
  }

  /** The fields say exactly what the log says, after every session: the evidence is the
      last check if it passed and nothing spoiled it, and is stamped with the current
      revision; the unverified revision is a mutation no passing check followed; the
      revision counts the mutations; the processes are those started and not stopped. */
  lemma {:induction false} FieldsMatchTheLog(log: seq<Event>, pid: string)
    ensures
      var s := Replay(Fresh, log);
      && (s.evidence.Some? <==> Stands(log))
      && (s.evidence.Some? ==> s.evidence.value.revision == s.revision && s.unverified.None?)
      && (s.unverified.Some? <==> Open(log))
      && (s.unverified.Some? ==> s.unverified.value == s.revision)
      && s.revision == Mutations(log)
      && (pid in s.processes <==> Running(log, pid))
    decreases |log|
  {
    if log != [] {
      var n := |log| - 1;
      var e := log[n];
      FieldsMatchTheLog(log[..n], pid);
      assert log == log[..n] + [e];
      StandsAfter(log[..n], e);
      OpenAfter(log[..n], e);
      RunningAfter(log[..n], e, pid);
    }
  }

  lemma {:induction false} RevisionCountsMutations(log: seq<Event>, more: seq<Event>)
    ensures Replay(Fresh, log + more).revision == Replay(Fresh, log).revision + Mutations(more)
    decreases |more|
  {
    if more == [] {
      assert log + more == log;
    } else {
      var n := |more| - 1;
      RevisionCountsMutations(log, more[..n]);
      assert (log + more)[..|log + more| - 1] == log + more[..n];
    }
  }

  function Mutations(log: seq<Event>): nat {
    if log == [] then 0 else Mutations(log[..|log| - 1]) + if Mutation(log[|log| - 1]) then 1 else 0
  }

  // ------------------------------------------------------- final answers

  datatype Policy = NoVerification | Requested | AfterMutation

  predicate Current(s: Session) {
    s.evidence.Some? && s.evidence.value.revision == s.revision
  }

  predicate Required(policy: Policy, s: Session) {
    policy.Requested? || (policy.AfterMutation? && s.unverified.Some?)
  }

  /** The loop's decision on a reply without tool calls. */
  predicate MayFinish(policy: Policy, s: Session) {
    s.processes == {} && (Required(policy, s) ==> Current(s))
  }

  /** A final answer under each policy, in terms of what happened: no process is left
      running; under `requested` the last check of this turn passed, with no mutation
      after it; under `after_mutation` every mutation since the last clear is, or is
      followed by, a passing check. */
  lemma FinalAnswers(policy: Policy, log: seq<Event>)
    ensures
      MayFinish(policy, Replay(Fresh, log)) <==>
        && (forall pid :: !Running(log, pid))
        && (policy.Requested? ==> Stands(log))
        && (policy.AfterMutation? ==> !Open(log))
  {
    var s := Replay(Fresh, log);
    FieldsMatchTheLog(log, "");
    forall pid
      ensures pid in s.processes <==> Running(log, pid)
    {
      FieldsMatchTheLog(log, pid);
    }
    if s.processes != {} {
      var pid :| pid in s.processes;
      assert Running(log, pid);
    }
  }

  /** Standing evidence belongs to the current turn, if the turn is not a continuation. */
  lemma EvidenceIsThisTurns(log: seq<Event>, start: nat)
    requires start < |log| && log[start] == TurnStarts(false) && Stands(log)
    ensures exists i: nat :: start < i && StandsAt(log, i)
  {
    var i: nat :| StandsAt(log, i);
    assert Spoils(log[start]);
    assert start < i;
  }

  /** And what still runs was started since the processes were last closed, so only a turn's
      own processes, or a command's before it, hold its answer back. */
  lemma ProcessesAreSinceReaping(log: seq<Event>, reaped: nat, pid: string)
    requires reaped < |log| && log[reaped] == ProcessesReaped
    ensures pid in Replay(Fresh, log).processes <==> exists i: nat :: reaped < i && RunsSince(log, pid, i)
  {
    FieldsMatchTheLog(log, pid);
    if pid in Replay(Fresh, log).processes {
      var i: nat :| RunsSince(log, pid, i);
      assert StopsAt(log[reaped], pid);
      assert reaped < i;
    }
  }

  /** The last check of the log failed. */
  ghost predicate LastCheckFailed(log: seq<Event>) {
    exists i: nat :: i < |log| && FailedCheck(log[i])
      && forall j :: i < j < |log| ==> log[j].Observes? && !log[j].call.attempt
  }

  /** Under `after_mutation` a check that fails after one that passed does not block the
      answer: it clears the evidence, but the revision stays verified. */
  lemma FailedCheckDoesNotReopen()
    ensures exists log ::
      LastCheckFailed(log) && Mutations(log) > 0 && MayFinish(AfterMutation, Replay(Fresh, log))
  {
    var edit := Observes(Observed(true, NoProcess, true, false, false));
    var pass := Observes(Observed(true, NoProcess, false, true, true));
    var fail := Observes(Observed(true, NoProcess, false, true, false));
    ReplayOne(Fresh, [], edit);
    ReplayOne(Fresh, [edit], pass);
    ReplayOne(Fresh, [edit, pass], fail);
    var log := [edit, pass] + [fail];
    assert log[2] == fail && FailedCheck(log[2]);
    assert log[..2] == [edit] + [pass] && log[..2][..1] == [edit];
  }

  lemma ReplayOne(s: Session, log: seq<Event>, e: Event)
    ensures Replay(s, log + [e]) == After(Replay(s, log), e)
    ensures Mutations(log + [e]) == Mutations(log) + if Mutation(e) then 1 else 0
  {
    assert (log + [e])[..|log|] == log;
  }

  /** Exactly when that happens: whether such an answer goes out depends only on what
      came before the failed check, as if it had not been made. */
  lemma FailedCheckChangesNoAnswer(log: seq<Event>, e: Event)
    requires FailedCheck(e) && !Mutation(e) && e.call.process.NoProcess?
    ensures MayFinish(AfterMutation, Replay(Fresh, log + [e])) <==> MayFinish(AfterMutation, Replay(Fresh, log))
    ensures !MayFinish(Requested, Replay(Fresh, log + [e]))
  {
    assert (log + [e])[..|log|] == log;
    FieldsMatchTheLog(log, "");
  }
}
