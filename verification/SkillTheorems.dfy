/** What holds of the skill registry: in every state that one session at a time can
    reach, and, between concurrent sessions, exactly when. */
module SkillTheorems {
  import opened Domain
  import opened SkillRegistry

  // ------------------------------------------------------------- invariant

  function CountOf(revisions: seq<Revision>, skill: nat): nat {
    if revisions == [] then 0
    else CountOf(revisions[..|revisions| - 1], skill) + if revisions[|revisions| - 1].skill == skill then 1 else 0
  }

  /** Published exactly when it has an active revision, which is its own and published. */
  predicate SkillOk(revisions: seq<Revision>, skill: nat, row: Skill) {
    && (row.status.Published? <==> row.active.Some?)
    && (row.active.Some? ==>
          && row.active.value < |revisions|
          && revisions[row.active.value].skill == skill
          && revisions[row.active.value].status.Published?)
  }

  ghost predicate SkillsOk(db: Database) {
    forall k :: k in db.skills ==> SkillOk(db.revisions, k, db.skills[k])
  }

  /** Whatever is published passed its evaluation. */
  ghost predicate PublishedPassed(db: Database) {
    forall i :: 0 <= i < |db.revisions| && db.revisions[i].status.Published? ==>
      db.revisions[i].evaluation == Some("passed")
  }

  ghost predicate VersionsOk(revisions: seq<Revision>) {
    forall i :: 0 <= i < |revisions| ==> revisions[i].version == CountOf(revisions[..i + 1], revisions[i].skill)
  }

  ghost predicate Ok(db: Database) {
    SkillsOk(db) && PublishedPassed(db) && VersionsOk(db.revisions)
  }

  // -------------------------------------------------------------- versions

  lemma {:induction false} CountGrows(revisions: seq<Revision>, skill: nat, i: nat, j: nat)
    requires i <= j <= |revisions|
    ensures CountOf(revisions[..i], skill) <= CountOf(revisions[..j], skill)
    decreases j - i
  {
    if i < j {
      CountGrows(revisions, skill, i, j - 1);
      assert revisions[..j][..j - 1] == revisions[..j - 1];
    }
  }

  lemma {:induction false} MaxVersionIsCount(revisions: seq<Revision>, skill: nat)
    requires VersionsOk(revisions)
    ensures MaxVersion(revisions, skill) == CountOf(revisions, skill)
  {
    if revisions != [] {
      var n := |revisions| - 1;
      assert revisions[..n + 1] == revisions;
      forall i | 0 <= i < n
        ensures revisions[..n][i].version == CountOf(revisions[..n][..i + 1], revisions[..n][i].skill)
      {
        assert revisions[..n][..i + 1] == revisions[..i + 1];
      }
      MaxVersionIsCount(revisions[..n], skill);
    }
  }

  ghost predicate IsVersion(revisions: seq<Revision>, skill: nat, i: nat, v: nat) {
    i < |revisions| && revisions[i].skill == skill && revisions[i].version == v
  }

  lemma CountStep(revisions: seq<Revision>, skill: nat, n: nat)
    requires n < |revisions|
    ensures CountOf(revisions[..n + 1], skill) == CountOf(revisions[..n], skill) + if revisions[n].skill == skill then 1 else 0
  {
    assert revisions[..n + 1][..n] == revisions[..n];
  }

  lemma {:induction false} FindVersion(revisions: seq<Revision>, skill: nat, v: nat, n: nat) returns (i: nat)
    requires VersionsOk(revisions) && n <= |revisions| && 1 <= v <= CountOf(revisions[..n], skill)
    ensures i < n && IsVersion(revisions, skill, i, v)
    decreases n
  {
    CountStep(revisions, skill, n - 1);
    if revisions[n - 1].skill == skill && revisions[n - 1].version == v {
      i := n - 1;
    } else {
      i := FindVersion(revisions, skill, v, n - 1);
    }
  }

  lemma VersionsIncrease(revisions: seq<Revision>, i: nat, j: nat)
    requires VersionsOk(revisions) && i < j < |revisions| && revisions[i].skill == revisions[j].skill
    ensures revisions[i].version < revisions[j].version
  {
    CountGrows(revisions, revisions[i].skill, i + 1, j);
    CountStep(revisions, revisions[i].skill, j);
  }

  /** The versions of a skill are 1 to n, each once, in the order of creation. */
  lemma VersionsAreOneToN(revisions: seq<Revision>, skill: nat, v: nat)
    requires VersionsOk(revisions)
    ensures (exists i: nat :: IsVersion(revisions, skill, i, v)) <==> 1 <= v <= CountOf(revisions, skill)
    ensures forall i: nat, j: nat ::
      i < j < |revisions| && revisions[i].skill == skill && revisions[j].skill == skill ==>
      revisions[i].version < revisions[j].version
  {
    assert revisions[..|revisions|] == revisions;
    if 1 <= v <= CountOf(revisions, skill) { var i := FindVersion(revisions, skill, v, |revisions|); }
    if i: nat :| IsVersion(revisions, skill, i, v) {
      CountGrows(revisions, skill, i + 1, |revisions|);
      CountStep(revisions, skill, i);
    }
    forall i: nat, j: nat | i < j < |revisions| && revisions[i].skill == skill && revisions[j].skill == skill
      ensures revisions[i].version < revisions[j].version
    {
      VersionsIncrease(revisions, i, j);
    }
  }

  // ------------------------------------------------- one session at a time

  datatype Event =
    | CreateSkill(tenant: nat, skill: nat)
    | CreateRevision(tenant: nat, skill: nat, instruction: string, reason: string, tools: seq<string>)
    | Approve(tenant: nat, skill: nat, revision: nat)
    | Publish(tenant: nat, skill: nat, revision: nat)
    | Evaluate(tenant: nat, skill: nat, revision: nat, status: string, result: string)
    | Deprecate(tenant: nat, skill: nat)
    | Edit(revision: nat, instruction: string)

  predicate Enabled(db: Database, e: Event) {
    && (e.CreateSkill? ==> e.skill !in db.skills)
    && (e.Edit? ==> e.revision < |db.revisions|)
  }

  /** What an event answers. `Edit` is any other UPDATE of an instruction, by anyone. */
  function Answer(env: Env, db: Database, e: Event): Outcome
    requires Enabled(db, e)
  {
    match e
    case CreateSkill(tenant, skill) => Done(CreateSkillOf(db, tenant, skill))
    case CreateRevision(tenant, skill, instruction, reason, tools) =>
      CreateRevisionOf(env, db, tenant, skill, instruction, reason, tools)
    case Approve(tenant, skill, revision) => ApproveOf(db, db, tenant, skill, revision)
    case Publish(tenant, skill, revision) => PublishOf(db, db, tenant, skill, revision)
    case Evaluate(tenant, skill, revision, status, result) => EvaluateOf(db, db, tenant, skill, revision, status, result)
    case Deprecate(tenant, skill) => DeprecateOf(db, db, tenant, skill)
    case Edit(revision, instruction) => Update(db, revision, db.revisions[revision].(instruction := instruction))
  }

  function Next(env: Env, db: Database, e: Event): Database
    requires Enabled(db, e)
  {
    var r := Answer(env, db, e);
    if r.Done? then r.db else db
  }

  predicate ValidTrace(env: Env, db: Database, trace: seq<Event>)
    decreases |trace|
  {
    trace == [] || (Enabled(db, trace[0]) && ValidTrace(env, Next(env, db, trace[0]), trace[1..]))
  }

  function Run(env: Env, db: Database, trace: seq<Event>): Database
    requires ValidTrace(env, db, trace)
    decreases |trace|
  {
    if trace == [] then db else Run(env, Next(env, db, trace[0]), trace[1..])
  }

  const Empty := Database(map[], [])

  lemma {:induction false} CountIgnoresOtherColumns(a: seq<Revision>, b: seq<Revision>, skill: nat)
    requires |a| == |b| && forall i :: 0 <= i < |a| ==> a[i].skill == b[i].skill
    ensures CountOf(a, skill) == CountOf(b, skill)
  {
    if a != [] { CountIgnoresOtherColumns(a[..|a| - 1], b[..|b| - 1], skill); }
  }

  /** An update that touches neither the skill nor the version keeps the numbering. */
  lemma UpdateKeepsVersions(revisions: seq<Revision>, r: nat, next: Revision)
    requires VersionsOk(revisions) && r < |revisions|
    requires next.skill == revisions[r].skill && next.version == revisions[r].version
    ensures VersionsOk(revisions[r := next])
  {
    var updated := revisions[r := next];
    forall i | 0 <= i < |updated|
      ensures updated[i].version == CountOf(updated[..i + 1], updated[i].skill)
    {
      CountIgnoresOtherColumns(revisions[..i + 1], updated[..i + 1], updated[i].skill);
    }
  }

  lemma EarlierCount(revisions: seq<Revision>, next: Revision, i: nat, skill: nat)
    requires i <= |revisions|
    ensures CountOf((revisions + [next])[..i], skill) == CountOf(revisions[..i], skill)
  {
    assert (revisions + [next])[..i] == revisions[..i];
  }

  lemma LastCount(revisions: seq<Revision>, next: Revision)
    ensures CountOf((revisions + [next])[..|revisions| + 1], next.skill) == CountOf(revisions, next.skill) + 1
  {
    var all := revisions + [next];
    CountStep(all, next.skill, |revisions|);
    assert all[..|revisions|] == revisions;
  }

  lemma AppendKeepsVersions(revisions: seq<Revision>, next: Revision)
    requires VersionsOk(revisions) && next.version == MaxVersion(revisions, next.skill) + 1
    ensures VersionsOk(revisions + [next])
  {
    var all := revisions + [next];
    MaxVersionIsCount(revisions, next.skill);
    LastCount(revisions, next);
    forall i | 0 <= i < |all|
      ensures all[i].version == CountOf(all[..i + 1], all[i].skill)
    {
      if i < |revisions| { EarlierCount(revisions, next, i + 1, revisions[i].skill); }
    }
  }

  /** An update of an unpublished revision that does not publish it. */
  lemma UpdateKeepsOk(db: Database, r: nat, next: Revision)
    requires Ok(db) && r < |db.revisions| && !db.revisions[r].status.Published? && !next.status.Published?
    requires next.skill == db.revisions[r].skill && next.version == db.revisions[r].version
    ensures Ok(db.(revisions := db.revisions[r := next]))
  {
    UpdateKeepsVersions(db.revisions, r, next);
    var t := db.(revisions := db.revisions[r := next]);
    forall k | k in t.skills
      ensures SkillOk(t.revisions, k, t.skills[k])
    {
      assert SkillOk(db.revisions, k, db.skills[k]);
    }
  }

  lemma NextKeepsOk(env: Env, db: Database, e: Event)
    requires Ok(db) && Enabled(db, e)
    ensures Ok(Next(env, db, e))
  {
    var next := Next(env, db, e);
    match e {
      case CreateRevision(_, _, _, _, _) =>
        if next != db { AppendKeepsVersions(db.revisions, next.revisions[|db.revisions|]); }
      case Publish(tenant, skill, revision) =>
        if next != db { StalePublishIsSafeExactlyWhen(db, db, tenant, skill, revision); }
      case Deprecate(tenant, skill) =>
        if next != db { StaleDeprecateIsSafeExactlyWhen(db, db, tenant, skill); }
      case CreateSkill(_, _) =>
      case _ =>
        if next != db { UpdateKeepsOk(db, e.revision, next.revisions[e.revision]); }
    }
  }

  /** In every reachable state a skill is published exactly when it has an active
      revision; that revision is its own, published and passed; and versions are 1..n. */
  lemma {:induction false} RunsKeepOk(env: Env, db: Database, trace: seq<Event>)
    requires Ok(db) && ValidTrace(env, db, trace)
    ensures Ok(Run(env, db, trace))
    decreases |trace|
  {
    if trace != [] {
      NextKeepsOk(env, db, trace[0]);
      RunsKeepOk(env, Next(env, db, trace[0]), trace[1..]);
    }
  }

  /** A published revision never changes, whatever happens and whoever edits: the
      instruction a run chose is the instruction it keeps. */
  lemma {:induction false} PublishedNeverChanges(env: Env, db: Database, trace: seq<Event>, r: nat)
    requires ValidTrace(env, db, trace) && r < |db.revisions| && db.revisions[r].status.Published?
    ensures
      var t := Run(env, db, trace);
      r < |t.revisions| && t.revisions[r] == db.revisions[r]
    decreases |trace|
  {
    if trace != [] { PublishedNeverChanges(env, Next(env, db, trace[0]), trace[1..], r); }
  }

  /** What a run that picks the published skill `k` gets, and keeps. */
  lemma ChosenInstructionIsKept(env: Env, first: seq<Event>, rest: seq<Event>, k: nat)
    requires ValidTrace(env, Empty, first)
    requires
      var db := Run(env, Empty, first);
      && ValidTrace(env, db, rest) && k in db.skills && db.skills[k].status.Published?
    ensures
      var db := Run(env, Empty, first);
      var active := db.skills[k].active;
      && active.Some? && active.value < |db.revisions| && db.revisions[active.value].skill == k
      && db.revisions[active.value].evaluation == Some("passed")
      && active.value < |Run(env, db, rest).revisions|
      && Run(env, db, rest).revisions[active.value] == db.revisions[active.value]
  {
    RunsKeepOk(env, Empty, first);
    var db := Run(env, Empty, first);
    assert SkillOk(db.revisions, k, db.skills[k]);
    PublishedNeverChanges(env, db, rest, db.skills[k].active.value);
  }

  // ------------------------------------------------- concurrent sessions

  /** `now` is a later database than `snap`. */
  ghost predicate Later(snap: Database, now: Database) {
    && |snap.revisions| <= |now.revisions| && snap.skills.Keys <= now.skills.Keys
    && (forall i :: 0 <= i < |snap.revisions| ==>
          && now.revisions[i].skill == snap.revisions[i].skill
          && now.revisions[i].version == snap.revisions[i].version
          && (snap.revisions[i].status.Published? ==> now.revisions[i] == snap.revisions[i]))
  }

  /** Approvals are safe from however old a reading. */
  lemma StaleApprovalsAreSafe(snap: Database, now: Database, tenant: nat, skill: nat, revision: nat)
    requires Ok(snap) && Ok(now) && Later(snap, now) && ApproveOf(snap, now, tenant, skill, revision).Done?
    ensures Ok(ApproveOf(snap, now, tenant, skill, revision).db)
  {
    var t := ApproveOf(snap, now, tenant, skill, revision).db;
    if t != now { UpdateKeepsOk(now, revision, t.revisions[revision]); }
  }

  /** So are evaluations: the trigger refuses those that come too late. */
  lemma StaleEvaluationsAreSafe(
    snap: Database, now: Database, tenant: nat, skill: nat, revision: nat, status: string, result: string)
    requires Ok(snap) && Ok(now) && Later(snap, now)
    requires EvaluateOf(snap, now, tenant, skill, revision, status, result).Done?
    ensures Ok(EvaluateOf(snap, now, tenant, skill, revision, status, result).db)
  {
    var t := EvaluateOf(snap, now, tenant, skill, revision, status, result).db;
    if t != now { UpdateKeepsOk(now, revision, t.revisions[revision]); }
  }

  /** A publication decided on an older reading keeps the registry right exactly when the
      revision it freezes is still passed, and the skill it re-points was not deprecated
      in between. */
  lemma StalePublishIsSafeExactlyWhen(snap: Database, now: Database, tenant: nat, skill: nat, revision: nat)
    requires Ok(snap) && Ok(now) && Later(snap, now)
    requires PublishOf(snap, now, tenant, skill, revision).Done?
    ensures
      Ok(PublishOf(snap, now, tenant, skill, revision).db) <==>
        && now.revisions[revision].evaluation == Some("passed")
        && (snap.skills[skill].status.Published? && snap.skills[skill].active != Some(revision) ==>
              now.skills[skill].status.Published?)
  {
    var next := PublishOf(snap, now, tenant, skill, revision).db;
    assert SkillOk(snap.revisions, skill, snap.skills[skill]) && SkillOk(now.revisions, skill, now.skills[skill]);
    if next.revisions != now.revisions {
      UpdateKeepsVersions(now.revisions, revision, next.revisions[revision]);
    }
    assert next.revisions[revision].status.Published?;
    assert skill in next.skills;
    if now.revisions[revision].evaluation == Some("passed") && SkillOk(next.revisions, skill, next.skills[skill]) {
      assert SkillsOk(next);
    }
  }

  /** A deprecation decided on an older reading keeps it right exactly when it had an
      active revision to clear, or still finds none, or changes nothing. */
  lemma StaleDeprecateIsSafeExactlyWhen(snap: Database, now: Database, tenant: nat, skill: nat)
    requires Ok(snap) && Ok(now) && Later(snap, now)
    requires DeprecateOf(snap, now, tenant, skill).Done?
    ensures
      Ok(DeprecateOf(snap, now, tenant, skill).db) <==>
        || snap.skills[skill].status.Deprecated?
        || snap.skills[skill].active.Some?
        || now.skills[skill].active.None?
  {
    var next := DeprecateOf(snap, now, tenant, skill).db;
    assert SkillOk(snap.revisions, skill, snap.skills[skill]) && SkillOk(now.revisions, skill, now.skills[skill]);
    assert skill in next.skills;
    if SkillOk(next.revisions, skill, next.skills[skill]) {
      assert SkillsOk(next);
    }
  }

  lemma SampleIsOk(r: Revision)
    requires r.skill == 0 && r.version == 1 && r.status.Approved?
    ensures Ok(Database(map[0 := Skill(0, Draft, None)], [r]))
  {
    assert [r][..1] == [r] && [r][..0] == [];
  }

  /** A concrete race: while one session publishes a passed revision, another records
      that it failed. The failed revision ends up published and active. */
  lemma PublishRacesEvaluation()
    ensures exists snap, now ::
      && Ok(snap) && Ok(now) && Later(snap, now)
      && EvaluateOf(snap, snap, 0, 0, 0, "failed", "{}") == Done(now)
      && PublishOf(snap, now, 0, 0, 0).Done?
      && !Ok(PublishOf(snap, now, 0, 0, 0).db)
  {
    var passed := Revision(0, 1, Approved, "x", [], "", Some("passed"), None);
    var failed := passed.(evaluation := Some("failed"), result := Some("{}"));
    var snap := Database(map[0 := Skill(0, Draft, None)], [passed]);
    var now := Database(map[0 := Skill(0, Draft, None)], [failed]);
    SampleIsOk(passed);
    SampleIsOk(failed);
    assert snap.revisions[0 := failed] == now.revisions;
    assert EvaluateOf(snap, snap, 0, 0, 0, "failed", "{}") == Done(now);
    var next := PublishOf(snap, now, 0, 0, 0).db;
    assert next.revisions[0].status.Published? && next.revisions[0].evaluation != Some("passed");
  }
}
