/** The skill registry: a skill's lifecycle, its numbered revisions, and the database
    trigger that freezes a published revision.

    An operation reads the rows, decides, and then updates only the columns it
    changed. `snap` is the database as it was read and `now` as it is written: in one
    session at a time they are the same, and between concurrent sessions they need
    not be. */
module SkillRegistry {
  import opened Domain

  datatype Status = Draft | Approved | Published | Deprecated

  /** `revisions` holds every revision ever created, by its identity. */
  datatype Skill = Skill(tenant: nat, status: Status, active: Option<nat>)

  datatype Revision = Revision(
    skill: nat,
    version: nat,
    status: Status,
    instruction: string,
    requiredTools: seq<string>,
    changeReason: string,
    evaluation: Option<string>,
    result: Option<string>)

  datatype Database = Database(skills: map<nat, Skill>, revisions: seq<Revision>)

  datatype Reason = EmptyInstruction | LongInstruction | LongReason | DuplicateTools | NotApproved | NotPassed

  datatype Outcome = Done(db: Database) | NotFound | Rejected(reason: Reason) | Immutable

  const MAX_INSTRUCTION := 100000
  const MAX_REASON := 10000

  /** Which characters `strip` removes. */
  datatype Env = Env(isSpace: char -> bool)

  function Strip(env: Env, s: string): (r: string)
    ensures |r| <= |s|
    decreases |s|
  {
    if s == "" then ""
    else if env.isSpace(s[0]) then Strip(env, s[1..])
    else if env.isSpace(s[|s| - 1]) then Strip(env, s[..|s| - 1])
    else s
  }

  // ------------------------------------------------------------ operations

  predicate HasSkill(db: Database, tenant: nat, skill: nat) {
    skill in db.skills && db.skills[skill].tenant == tenant
  }

  predicate HasRevision(db: Database, tenant: nat, skill: nat, revision: nat) {
    HasSkill(db, tenant, skill) && revision < |db.revisions| && db.revisions[revision].skill == skill
  }

  function MaxVersion(revisions: seq<Revision>, skill: nat): nat {
    if revisions == [] then 0
    else
      var rest, last := MaxVersion(revisions[..|revisions| - 1], skill), revisions[|revisions| - 1];
      if last.skill == skill then Max(rest, last.version) else rest
  }

  predicate Distinct(tools: seq<string>) {
    forall i, j :: 0 <= i < j < |tools| ==> tools[i] != tools[j]
  }

  function CreateSkillOf(db: Database, tenant: nat, skill: nat): Database {
    db.(skills := db.skills[skill := Skill(tenant, Draft, None)])
  }

  function Problem(env: Env, instruction: string, reason: string, tools: seq<string>): Option<Reason> {
    if Strip(env, instruction) == "" then Some(EmptyInstruction)
    else if |instruction| > MAX_INSTRUCTION then Some(LongInstruction)
    else if |Strip(env, reason)| > MAX_REASON then Some(LongReason)
    else if !Distinct(tools) then Some(DuplicateTools)
    else None
  }

  /** The skill row is locked while the next version is read, so `snap` is `now`. */
  function CreateRevisionOf(
    env: Env, db: Database, tenant: nat, skill: nat, instruction: string, reason: string, tools: seq<string>): Outcome
  {
    if !HasSkill(db, tenant, skill) then NotFound
    else
      match Problem(env, instruction, reason, tools)
      case Some(problem) => Rejected(problem)
      case None =>
        var revision := Revision(skill, MaxVersion(db.revisions, skill) + 1, Draft, instruction, tools, reason, None, None);
        Done(db.(revisions := db.revisions + [revision]))
  }

  /** The trigger: any update of a published revision raises. */
  function Update(now: Database, revision: nat, next: Revision): Outcome
    requires revision < |now.revisions|
  {
    if now.revisions[revision].status.Published? then Immutable
    else Done(now.(revisions := now.revisions[revision := next]))
  }

  function ApproveOf(snap: Database, now: Database, tenant: nat, skill: nat, revision: nat): Outcome
    requires |snap.revisions| <= |now.revisions|
  {
    if !HasRevision(snap, tenant, skill, revision) then NotFound
    else if !snap.revisions[revision].status.Draft? then Done(now)
    else Update(now, revision, now.revisions[revision].(status := Approved))
  }

  /** Only the columns that differ from the ones read are written. */
  function WriteSkill(snap: Skill, now: Skill, status: Status, active: Option<nat>): Skill {
    now.(
      status := if status == snap.status then now.status else status,
      active := if active == snap.active then now.active else active)
  }

  function PublishOf(snap: Database, now: Database, tenant: nat, skill: nat, revision: nat): Outcome
    requires |snap.revisions| <= |now.revisions| && snap.skills.Keys <= now.skills.Keys
  {
    if !HasRevision(snap, tenant, skill, revision) then NotFound
    else
      var read := snap.revisions[revision];
      if !read.status.Approved? && !read.status.Published? then Rejected(NotApproved)
      else if read.evaluation != Some("passed") then Rejected(NotPassed)
      else
        var frozen :=
          if read.status.Approved? then Update(now, revision, now.revisions[revision].(status := Published)) else Done(now);
        if !frozen.Done? then frozen
        else
          var row := WriteSkill(snap.skills[skill], now.skills[skill], Published, Some(revision));
          Done(frozen.db.(skills := frozen.db.skills[skill := row]))
  }

  /** Recording what is there already updates nothing. */
  function EvaluateOf(
    snap: Database, now: Database, tenant: nat, skill: nat, revision: nat, status: string, result: string): Outcome
    requires |snap.revisions| <= |now.revisions|
  {
    if !HasRevision(snap, tenant, skill, revision) then NotFound
    else
      var read, row := snap.revisions[revision], now.revisions[revision];
      if read.evaluation == Some(status) && read.result == Some(result) then Done(now)
      else
        Update(now, revision, row.(
          evaluation := if read.evaluation == Some(status) then row.evaluation else Some(status),
          result := if read.result == Some(result) then row.result else Some(result)))
  }

  function DeprecateOf(snap: Database, now: Database, tenant: nat, skill: nat): Outcome
    requires snap.skills.Keys <= now.skills.Keys
  {
    if !HasSkill(snap, tenant, skill) then NotFound
    else
      var row := WriteSkill(snap.skills[skill], now.skills[skill], Deprecated, None);
      Done(now.(skills := now.skills[skill := row]))
  }

  // ---------------------------------------------- what an operation changes

  /** Only the row of this skill. */
  ghost predicate OnlySkill(before: Database, after: Database, skill: nat) {
    && after.revisions == before.revisions && skill in before.skills && after.skills.Keys == before.skills.Keys
    && forall k :: k in before.skills && k != skill ==> after.skills[k] == before.skills[k]
  }

  /** Only the row of this revision, and of it neither skill nor number nor what it says. */
  ghost predicate OnlyRevision(before: Database, after: Database, revision: nat) {
    && after.skills == before.skills && revision < |before.revisions| == |after.revisions|
    && (forall i :: 0 <= i < |before.revisions| && i != revision ==> after.revisions[i] == before.revisions[i])
    && after.revisions[revision] == before.revisions[revision].(
         status := after.revisions[revision].status,
         evaluation := after.revisions[revision].evaluation, result := after.revisions[revision].result)
  }

  predicate HasVersion(revisions: seq<Revision>, skill: nat, v: int) {
    exists i | 0 <= i < |revisions| :: revisions[i].skill == skill && revisions[i].version == v
  }

  /** A new revision at the end, numbered above all of its skill. */
  ghost predicate Appends(before: Database, after: Database, skill: nat, instruction: string, reason: string, tools: seq<string>) {
    && after.skills == before.skills && |after.revisions| == |before.revisions| + 1
    && after.revisions[..|before.revisions|] == before.revisions
    && var r := after.revisions[|before.revisions|];
    && r == Revision(skill, r.version, Draft, instruction, tools, reason, None, None)
    && r.version > 0
    && (forall i :: 0 <= i < |before.revisions| && before.revisions[i].skill == skill ==>
          before.revisions[i].version < r.version)
    && (r.version > 1 ==> HasVersion(before.revisions, skill, r.version - 1))
  }

  lemma {:induction false} MaxVersionIsTheMost(revisions: seq<Revision>, skill: nat)
    ensures forall i :: 0 <= i < |revisions| && revisions[i].skill == skill ==>
      revisions[i].version <= MaxVersion(revisions, skill)
    ensures MaxVersion(revisions, skill) > 0 ==> HasVersion(revisions, skill, MaxVersion(revisions, skill))
  {
    if revisions != [] {
      var n := |revisions| - 1;
      MaxVersionIsTheMost(revisions[..n], skill);
      if revisions[n].skill == skill && revisions[n].version == MaxVersion(revisions, skill) {
        assert 0 <= n < |revisions|;
      } else if MaxVersion(revisions[..n], skill) > 0 {
        var i :| 0 <= i < n && revisions[..n][i].skill == skill && revisions[..n][i].version == MaxVersion(revisions[..n], skill);
        assert revisions[i] == revisions[..n][i];
      }
    }
  }

  /** The registry of one session. */
  class SkillRegistry {
    var db: Database

    constructor ()
      ensures db == Database(map[], [])
    {
      db := Database(map[], []);
    }

    method CreateSkill(tenant: nat, skill: nat)
      requires skill !in db.skills
      modifies this
      ensures db == CreateSkillOf(old(db), tenant, skill)
    {
      db := db.(skills := db.skills[skill := Skill(tenant, Draft, None)]);
    }

    method CreateRevision(env: Env, tenant: nat, skill: nat, instruction: string, reason: string, tools: seq<string>)
      returns (r: Outcome)
      modifies this
      ensures r == CreateRevisionOf(env, old(db), tenant, skill, instruction, reason, tools)
      ensures db == if r.Done? then r.db else old(db)
      ensures r.NotFound? <==> !(skill in old(db).skills && old(db).skills[skill].tenant == tenant)
      ensures r.Rejected? <==>
        && !r.NotFound?
        && (Strip(env, instruction) == "" || |instruction| > 100000 || |Strip(env, reason)| > 10000
            || exists i, j | 0 <= i < j < |tools| :: tools[i] == tools[j])
      ensures r.Done? ==> Appends(old(db), db, skill, instruction, reason, tools)
      ensures !r.Immutable?
    {
      MaxVersionIsTheMost(db.revisions, skill);
      if !HasSkill(db, tenant, skill) { return NotFound; }
      if Strip(env, instruction) == "" { return Rejected(EmptyInstruction); }
      if |instruction| > MAX_INSTRUCTION { return Rejected(LongInstruction); }
      if |Strip(env, reason)| > MAX_REASON { return Rejected(LongReason); }
      if exists i, j | 0 <= i < j < |tools| :: tools[i] == tools[j] { return Rejected(DuplicateTools); }
      var next := 0;
      for i := 0 to |db.revisions|
        invariant next == MaxVersion(db.revisions[..i], skill) && db == old(db)
      {
        assert db.revisions[..i + 1][..i] == db.revisions[..i];
        if db.revisions[i].skill == skill { next := Max(next, db.revisions[i].version); }
      }
      assert db.revisions[..|db.revisions|] == db.revisions;
      db := db.(revisions := db.revisions + [Revision(skill, next + 1, Draft, instruction, tools, reason, None, None)]);
      r := Done(db);
    }

    method ApproveRevision(tenant: nat, skill: nat, revision: nat) returns (r: Outcome)
      modifies this
      ensures r == ApproveOf(old(db), old(db), tenant, skill, revision)
      ensures db == if r.Done? then r.db else old(db)
      ensures r.Done? <==> HasRevision(old(db), tenant, skill, revision)
      ensures r.Done? && old(db).revisions[revision].status != Draft ==> db == old(db)
      ensures r.Done? && old(db).revisions[revision].status == Draft ==>
        && OnlyRevision(old(db), db, revision)
        && db.revisions[revision] == old(db).revisions[revision].(status := Approved)
    {
      if !HasRevision(db, tenant, skill, revision) { return NotFound; }
      if !db.revisions[revision].status.Draft? { return Done(db); }
      r := UpdateRow(revision, db.revisions[revision].(status := Approved));
    }

    method UpdateRow(revision: nat, next: Revision) returns (r: Outcome)
      requires revision < |db.revisions|
      modifies this
      ensures r == Update(old(db), revision, next)
      ensures db == if r.Done? then r.db else old(db)
    {
      if db.revisions[revision].status.Published? { return Immutable; }
      db := db.(revisions := db.revisions[revision := next]);
      r := Done(db);
    }

    method PublishRevision(tenant: nat, skill: nat, revision: nat) returns (r: Outcome)
      modifies this
      ensures r == PublishOf(old(db), old(db), tenant, skill, revision)
      ensures db == if r.Done? then r.db else old(db)
      ensures r.NotFound? <==> !HasRevision(old(db), tenant, skill, revision)
      ensures r.Done? <==>
        && HasRevision(old(db), tenant, skill, revision)
        && old(db).revisions[revision].status in {Approved, Published}
        && old(db).revisions[revision].evaluation == Some("passed")
      ensures r.Done? ==>
        && OnlyRevision(old(db), db.(skills := old(db).skills), revision)
        && OnlySkill(old(db), db.(revisions := old(db).revisions), skill)
        && db.revisions[revision] == old(db).revisions[revision].(status := Published)
        && db.skills[skill] == old(db).skills[skill].(status := Published, active := Some(revision))
    {
      if !HasRevision(db, tenant, skill, revision) { return NotFound; }
      var read := db.revisions[revision];
      if read.status != Approved && read.status != Published { return Rejected(NotApproved); }
      if read.evaluation != Some("passed") { return Rejected(NotPassed); }
      if read.status.Approved? {
        r := UpdateRow(revision, read.(status := Published));
      }
      db := db.(skills := db.skills[skill := db.skills[skill].(status := Published, active := Some(revision))]);
      r := Done(db);
    }

    method RecordEvaluation(tenant: nat, skill: nat, revision: nat, status: string, result: string) returns (r: Outcome)
      modifies this
      ensures r == EvaluateOf(old(db), old(db), tenant, skill, revision, status, result)
      ensures db == if r.Done? then r.db else old(db)
      ensures r.NotFound? <==> !HasRevision(old(db), tenant, skill, revision)
      ensures r.Immutable? <==>
        && !r.NotFound? && old(db).revisions[revision].status == Published
        && (old(db).revisions[revision].evaluation, old(db).revisions[revision].result) != (Some(status), Some(result))
      ensures !r.NotFound? && !r.Immutable? ==>
        && r.Done? && OnlyRevision(old(db), db, revision)
        && db.revisions[revision] == old(db).revisions[revision].(evaluation := Some(status), result := Some(result))
    {
      if !HasRevision(db, tenant, skill, revision) { return NotFound; }
      var next := db.revisions[revision].(evaluation := Some(status), result := Some(result));
      if next == db.revisions[revision] { return Done(db); }
      r := UpdateRow(revision, next);
    }

    method Rollback(tenant: nat, skill: nat, revision: nat) returns (r: Outcome)
      modifies this
      ensures r == PublishOf(old(db), old(db), tenant, skill, revision)
      ensures db == if r.Done? then r.db else old(db)
    {
      r := PublishRevision(tenant, skill, revision);
    }

    method DeprecateSkill(tenant: nat, skill: nat) returns (r: Outcome)
      modifies this
      ensures r == DeprecateOf(old(db), old(db), tenant, skill)
      ensures db == if r.Done? then r.db else old(db)
      ensures r.Done? <==> skill in old(db).skills && old(db).skills[skill].tenant == tenant
      ensures r.Done? ==>
        OnlySkill(old(db), db, skill) && db.skills[skill] == old(db).skills[skill].(status := Deprecated, active := None)
    {
      if !HasSkill(db, tenant, skill) { return NotFound; }
      db := db.(skills := db.skills[skill := db.skills[skill].(status := Deprecated, active := None)]);
      r := Done(db);
    }
  }
}
