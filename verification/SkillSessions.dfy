/** The skill registry between any number of concurrent sessions: each operation decides
    on a skill row and a revision row it read at some time, and writes on the latest. */
module SkillSessions {
  import opened Domain
  import opened SkillRegistry
  import T = SkillTheorems

  /** All databases there have been, the latest last. */
  type Past = seq<Database>

  /** An operation that read the skills at version `skills` and, later, the revisions at
      version `revisions`. Creations read under a lock, and edits read nothing. */
  datatype Event = Event(op: T.Event, skills: nat, revisions: nat)

  /** Rows are only added; a revision keeps its skill and number, and freezes when
      published. */
  ghost predicate Grown(past: Past) {
    past != [] && forall i, j :: 0 <= i <= j < |past| ==> T.Later(past[i], past[j])
  }

  ghost predicate AllOk(past: Past) {
    forall i :: 0 <= i < |past| ==> T.Ok(past[i])
  }

  function Last(past: Past): Database
    requires past != []
  {
    past[|past| - 1]
  }

  predicate Enabled(past: Past, e: Event) {
    past != [] && T.Enabled(Last(past), e.op) && e.skills <= e.revisions < |past|
  }

  /** What the operation read. */
  function View(past: Past, e: Event): Database
    requires Enabled(past, e)
  {
    Database(past[e.skills].skills, past[e.revisions].revisions)
  }

  lemma ViewIsEarlier(past: Past, e: Event)
    requires Grown(past) && Enabled(past, e)
    ensures T.Later(View(past, e), Last(past))
    ensures T.Ok(past[e.skills]) && T.Ok(past[e.revisions]) ==> T.Ok(View(past, e))
  {
    assert T.Later(past[e.skills], past[e.revisions]);
    assert T.Later(past[e.skills], Last(past)) && T.Later(past[e.revisions], Last(past));
    if T.Ok(past[e.skills]) {
      forall k | k in past[e.skills].skills
        ensures T.SkillOk(past[e.revisions].revisions, k, past[e.skills].skills[k])
      {
        assert T.SkillOk(past[e.skills].revisions, k, past[e.skills].skills[k]);
      }
    }
  }

  ghost function Answer(env: Env, past: Past, e: Event): Outcome
    requires Grown(past) && Enabled(past, e)
  {
    ViewIsEarlier(past, e);
    var view, now := View(past, e), Last(past);
    match e.op
    case Approve(tenant, skill, revision) => ApproveOf(view, now, tenant, skill, revision)
    case Publish(tenant, skill, revision) => PublishOf(view, now, tenant, skill, revision)
    case Evaluate(tenant, skill, revision, status, result) => EvaluateOf(view, now, tenant, skill, revision, status, result)
    case Deprecate(tenant, skill) => DeprecateOf(view, now, tenant, skill)
    case _ => T.Answer(env, now, e.op)
  }

  ghost function Next(env: Env, past: Past, e: Event): Past
    requires Grown(past) && Enabled(past, e)
  {
    var r := Answer(env, past, e);
    past + [if r.Done? then r.db else Last(past)]
  }

  // ---------------------------------------------------------------- growth

  lemma LaterIsTransitive(a: Database, b: Database, c: Database)
    requires T.Later(a, b) && T.Later(b, c)
    ensures T.Later(a, c)
  {}

  lemma AppendKeepsGrown(past: Past, db: Database)
    requires Grown(past) && T.Later(Last(past), db)
    ensures Grown(past + [db])
  {
    var next := past + [db];
    forall i, j | 0 <= i <= j < |next|
      ensures T.Later(next[i], next[j])
    {
      if i < j == |past| { LaterIsTransitive(past[i], Last(past), db); }
    }
  }

  lemma UpdateIsLater(now: Database, revision: nat, next: Revision)
    requires revision < |now.revisions|
    requires next.skill == now.revisions[revision].skill && next.version == now.revisions[revision].version
    ensures Update(now, revision, next).Done? ==> T.Later(now, Update(now, revision, next).db)
  {}

  lemma PublishIsLater(view: Database, now: Database, tenant: nat, skill: nat, revision: nat)
    requires T.Later(view, now) && PublishOf(view, now, tenant, skill, revision).Done?
    ensures T.Later(now, PublishOf(view, now, tenant, skill, revision).db)
  {
    UpdateIsLater(now, revision, now.revisions[revision].(status := Published));
  }

  lemma NextIsLater(env: Env, past: Past, e: Event)
    requires Grown(past) && Enabled(past, e)
    ensures T.Later(Last(past), Last(Next(env, past, e)))
  {
    ViewIsEarlier(past, e);
    var now, next := Last(past), Last(Next(env, past, e));
    if Answer(env, past, e).Done? {
      match e.op {
        case Publish(tenant, skill, revision) => PublishIsLater(View(past, e), now, tenant, skill, revision);
        case Approve(_, _, revision) => if next != now { UpdateIsLater(now, revision, next.revisions[revision]); }
        case Evaluate(_, _, revision, _, _) => if next != now { UpdateIsLater(now, revision, next.revisions[revision]); }
        case Edit(revision, _) => UpdateIsLater(now, revision, next.revisions[revision]);
        case _ =>
      }
    }
  }

  lemma NextKeepsGrown(env: Env, past: Past, e: Event)
    requires Grown(past) && Enabled(past, e)
    ensures Grown(Next(env, past, e))
  {
    NextIsLater(env, past, e);
    AppendKeepsGrown(past, Last(Next(env, past, e)));
  }

  // ---------------------------------------------------------------- safety

  /** A publication freezes a revision that is still passed, and does not lean on a skill
      that was deprecated meanwhile. */
  predicate PublishIsSafe(view: Database, now: Database, skill: nat, revision: nat)
    requires skill in view.skills && skill in now.skills && revision < |now.revisions|
  {
    && now.revisions[revision].evaluation == Some("passed")
    && (view.skills[skill].status.Published? && view.skills[skill].active != Some(revision) ==>
          now.skills[skill].status.Published?)
  }

  /** A deprecation had an active revision to clear, or finds none now, or writes nothing. */
  predicate DeprecateIsSafe(view: Database, now: Database, skill: nat)
    requires skill in view.skills && skill in now.skills
  {
    view.skills[skill].status.Deprecated? || view.skills[skill].active.Some? || now.skills[skill].active.None?
  }

  /** The publications and deprecations that go through meet their conditions; nothing is
      asked of any other operation. */
  ghost predicate Safe(env: Env, past: Past, e: Event)
    requires Grown(past) && Enabled(past, e)
  {
    ViewIsEarlier(past, e);
    var view, now := View(past, e), Last(past);
    Answer(env, past, e).Done? ==>
      && (e.op.Publish? ==> PublishIsSafe(view, now, e.op.skill, e.op.revision))
      && (e.op.Deprecate? ==> DeprecateIsSafe(view, now, e.op.skill))
  }

  lemma StepIsOkExactlyWhenSafe(env: Env, past: Past, e: Event)
    requires Grown(past) && AllOk(past) && Enabled(past, e)
    ensures T.Ok(Last(Next(env, past, e))) <==> Safe(env, past, e)
  {
    ViewIsEarlier(past, e);
    var view, now := View(past, e), Last(past);
    if Answer(env, past, e).Done? {
      match e.op {
        case Approve(tenant, skill, revision) => T.StaleApprovalsAreSafe(view, now, tenant, skill, revision);
        case Publish(tenant, skill, revision) => T.StalePublishIsSafeExactlyWhen(view, now, tenant, skill, revision);
        case Evaluate(tenant, skill, revision, status, result) =>
          T.StaleEvaluationsAreSafe(view, now, tenant, skill, revision, status, result);
        case Deprecate(tenant, skill) => T.StaleDeprecateIsSafeExactlyWhen(view, now, tenant, skill);
        case _ => T.NextKeepsOk(env, now, e.op);
      }
    }
  }

  // ------------------------------------------------------------ whole runs

  ghost predicate ValidTrace(env: Env, past: Past, trace: seq<Event>)
    requires Grown(past)
    decreases |trace|
  {
    if trace == [] then true
    else Enabled(past, trace[0]) && (NextKeepsGrown(env, past, trace[0]); ValidTrace(env, Next(env, past, trace[0]), trace[1..]))
  }

  ghost function Run(env: Env, past: Past, trace: seq<Event>): (r: Past)
    requires Grown(past) && ValidTrace(env, past, trace)
    ensures Grown(r) && past <= r
    decreases |trace|
  {
    if trace == [] then past
    else
      NextKeepsGrown(env, past, trace[0]);
      Run(env, Next(env, past, trace[0]), trace[1..])
  }

  /** Every operation of the interleaving is safe when it comes. */
  ghost predicate AllSafe(env: Env, past: Past, trace: seq<Event>)
    requires Grown(past) && ValidTrace(env, past, trace)
    decreases |trace|
  {
    if trace == [] then true
    else
      NextKeepsGrown(env, past, trace[0]);
      Safe(env, past, trace[0]) && AllSafe(env, Next(env, past, trace[0]), trace[1..])
  }

  /** Over every interleaving of sessions, the registry is right at every moment if and
      only if each publication and each deprecation met its condition. */
  lemma {:induction false} RunsAreOkExactlyWhenSafe(env: Env, past: Past, trace: seq<Event>)
    requires Grown(past) && AllOk(past) && ValidTrace(env, past, trace)
    ensures AllOk(Run(env, past, trace)) <==> AllSafe(env, past, trace)
    decreases |trace|
  {
    if trace != [] {
      NextKeepsGrown(env, past, trace[0]);
      StepIsOkExactlyWhenSafe(env, past, trace[0]);
      var next := Next(env, past, trace[0]);
      if Safe(env, past, trace[0]) {
        assert AllOk(next);
        RunsAreOkExactlyWhenSafe(env, next, trace[1..]);
      } else {
        assert Run(env, past, trace)[|past|] == next[|past|];
      }
    }
  }

  /** Safe or not, no interleaving changes a revision once it is published. */
  lemma PublishedNeverChanges(env: Env, past: Past, trace: seq<Event>, i: nat, j: nat, r: nat)
    requires Grown(past) && ValidTrace(env, past, trace) && i <= j < |Run(env, past, trace)|
    requires
      var db := Run(env, past, trace)[i];
      r < |db.revisions| && db.revisions[r].status.Published?
    ensures
      var all := Run(env, past, trace);
      r < |all[j].revisions| && all[j].revisions[r] == all[i].revisions[r]
  {
    assert T.Later(Run(env, past, trace)[i], Run(env, past, trace)[j]);
  }

  lemma NextKeepsVersions(env: Env, past: Past, e: Event)
    requires Grown(past) && Enabled(past, e) && T.VersionsOk(Last(past).revisions)
    ensures T.VersionsOk(Last(Next(env, past, e)).revisions)
  {
    ViewIsEarlier(past, e);
    var now, next := Last(past), Last(Next(env, past, e));
    if next.revisions != now.revisions {
      match e.op {
        case CreateRevision(_, _, _, _, _) => T.AppendKeepsVersions(now.revisions, next.revisions[|now.revisions|]);
        case CreateSkill(_, _) =>
        case Deprecate(_, _) =>
        case _ => T.UpdateKeepsVersions(now.revisions, e.op.revision, next.revisions[e.op.revision]);
      }
    }
  }

  /** Nor does any disturb the numbering: versions stay 1 to n in order of creation. */
  lemma {:induction false} VersionsAreKept(env: Env, past: Past, trace: seq<Event>)
    requires Grown(past) && ValidTrace(env, past, trace) && T.VersionsOk(Last(past).revisions)
    ensures T.VersionsOk(Last(Run(env, past, trace)).revisions)
    decreases |trace|
  {
    if trace != [] {
      NextKeepsGrown(env, past, trace[0]);
      NextKeepsVersions(env, past, trace[0]);
      VersionsAreKept(env, Next(env, past, trace[0]), trace[1..]);
    }
  }

  lemma RunCons(env: Env, past: Past, e: Event, rest: seq<Event>)
    requires Grown(past) && Enabled(past, e) && Grown(Next(env, past, e)) && ValidTrace(env, Next(env, past, e), rest)
    ensures ValidTrace(env, past, [e] + rest)
    ensures Run(env, past, [e] + rest) == Run(env, Next(env, past, e), rest)
  {
    assert ([e] + rest)[1..] == rest;
  }

  /** An operation that just read writes what one session alone would, in a run. */
  lemma RunAlone(env: Env, past: Past, op: T.Event, db: Database)
    requires Grown(past) && T.Enabled(Last(past), op) && T.Answer(env, Last(past), op) == Done(db)
    ensures
      var e := Event(op, |past| - 1, |past| - 1);
      Enabled(past, e) && Next(env, past, e) == past + [db] && Grown(past + [db])
  {
    var e := Event(op, |past| - 1, |past| - 1);
    assert View(past, e) == Last(past);
    NextKeepsGrown(env, past, e);
  }

  function One(status: Status, evaluation: Option<string>): Revision {
    Revision(0, 1, status, "x", [], "", evaluation, if evaluation.Some? then Some("") else None)
  }

  function OneSkill(revisions: seq<Revision>): Database {
    Database(map[0 := Skill(0, Draft, None)], revisions)
  }

  lemma UpdateOne(skills: map<nat, Skill>, r: Revision, next: Revision)
    requires !r.status.Published?
    ensures Update(Database(skills, [r]), 0, next) == Done(Database(skills, [next]))
  {
    assert [r][0 := next] == [next];
  }

  lemma RaceFrom(env: Env, past: Past) returns (trace: seq<Event>)
    requires Grown(past) && Last(past) == OneSkill([One(Approved, Some("passed"))])
    ensures
      && ValidTrace(env, past, trace)
      && Last(Run(env, past, trace)) == Database(map[0 := Skill(0, Published, Some(0))], [One(Published, Some("failed"))])
  {
    var n := |past| - 1;
    var failed := OneSkill([One(Approved, Some("failed"))]);
    var last := Database(map[0 := Skill(0, Published, Some(0))], [One(Published, Some("failed"))]);
    UpdateOne(failed.skills, One(Approved, Some("passed")), One(Approved, Some("failed")));
    UpdateOne(failed.skills, One(Approved, Some("failed")), One(Published, Some("failed")));
    RunAlone(env, past, T.Evaluate(0, 0, 0, "failed", ""), failed);
    var next, e := past + [failed], Event(T.Publish(0, 0, 0), n, n);
    assert View(next, e) == Last(past);
    assert failed.skills[0 := Skill(0, Published, Some(0))] == last.skills;
    assert Answer(env, next, e) == Done(last);
    NextKeepsGrown(env, next, e);
    RunCons(env, next, e, []);
    trace := [Event(T.Evaluate(0, 0, 0, "failed", ""), n, n)] + ([e] + []);
    RunCons(env, past, trace[0], [e] + []);
  }

  lemma CreateOne(env: Env)
    requires !env.isSpace('x')
    ensures
      CreateRevisionOf(env, OneSkill([]), 0, 0, "x", "", []) == Done(OneSkill([One(Draft, None)]))
  {
    assert Strip(env, "x") == "x";
  }

  /** One session records that a passed revision failed after another has read it to
      publish it: from an empty registry, a failed revision ends up published. */
  lemma RaceIsReachable(env: Env) returns (trace: seq<Event>)
    requires !env.isSpace('x')
    ensures ValidTrace(env, [T.Empty], trace) && !AllSafe(env, [T.Empty], trace)
    ensures
      Last(Run(env, [T.Empty], trace))
      == Database(map[0 := Skill(0, Published, Some(0))], [One(Published, Some("failed"))])
  {
    var draft, approved, passed := One(Draft, None), One(Approved, None), One(Approved, Some("passed"));
    CreateOne(env);
    UpdateOne(OneSkill([]).skills, draft, approved);
    UpdateOne(OneSkill([]).skills, approved, passed);
    var p0 := [T.Empty];
    RunAlone(env, p0, T.CreateSkill(0, 0), OneSkill([]));
    var p1 := p0 + [OneSkill([])];
    RunAlone(env, p1, T.CreateRevision(0, 0, "x", "", []), OneSkill([draft]));
    var p2 := p1 + [OneSkill([draft])];
    RunAlone(env, p2, T.Approve(0, 0, 0), OneSkill([approved]));
    var p3 := p2 + [OneSkill([approved])];
    RunAlone(env, p3, T.Evaluate(0, 0, 0, "passed", ""), OneSkill([passed]));
    var p4 := p3 + [OneSkill([passed])];
    var t4 := RaceFrom(env, p4);
    var t3 := [Event(T.Evaluate(0, 0, 0, "passed", ""), 3, 3)] + t4;
    RunCons(env, p3, t3[0], t4);
    var t2 := [Event(T.Approve(0, 0, 0), 2, 2)] + t3;
    RunCons(env, p2, t2[0], t3);
    var t1 := [Event(T.CreateRevision(0, 0, "x", "", []), 1, 1)] + t2;
    RunCons(env, p1, t1[0], t2);
    trace := [Event(T.CreateSkill(0, 0), 0, 0)] + t1;
    RunCons(env, p0, trace[0], t1);
    var last := Last(Run(env, p0, trace));
    assert last.revisions[0].status.Published? && last.revisions[0].evaluation != Some("passed");
    RunsAreOkExactlyWhenSafe(env, p0, trace);
  }
}
