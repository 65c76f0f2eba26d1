/** The run row and its version-fenced writes. */
module RunRepository {
  import opened Domain

  datatype Lease = Lease(owner: nat, expires: int)

  datatype RunRow = RunRow(
    status: RunStatus,
    version: nat,
    currentStep: nat,
    maxSteps: int,
    maxToolCalls: int,
    tokenBudget: int,
    tokensUsed: nat,
    toolCallsUsed: nat,
    lease: Option<Lease>,
    cancelRequested: bool)

  /** The columns one UPDATE sets. */
  datatype Update = Update(
    status: Option<RunStatus>,
    currentStep: Option<nat>,
    tokensUsed: Option<nat>,
    toolCallsUsed: Option<nat>,
    cancelRequested: bool,
    lease: Option<Option<Lease>>)

  const NoChange := Update(None, None, None, None, false, None)

  function To(status: RunStatus): Update {
    NoChange.(status := Some(status))
  }

  function Patch(row: RunRow, u: Update): RunRow {
    row.(
      status := if u.status.Some? then u.status.value else row.status,
      currentStep := if u.currentStep.Some? then u.currentStep.value else row.currentStep,
      tokensUsed := if u.tokensUsed.Some? then u.tokensUsed.value else row.tokensUsed,
      toolCallsUsed := if u.toolCallsUsed.Some? then u.toolCallsUsed.value else row.toolCallsUsed,
      cancelRequested := u.cancelRequested || row.cancelRequested,
      lease := if u.lease.Some? then u.lease.value else row.lease)
  }

  /** The UPDATE ... WHERE version = :read, SET version = :read + 1. */
  function VersionedUpdate(row: RunRow, snap: RunRow, u: Update): Option<RunRow> {
    if row.version != snap.version then None
    else Some(Patch(row, u).(version := snap.version + 1))
  }

  datatype Checkpoint = Saved(row: RunRow) | Stale | InvalidTransition

  /** A checkpoint validates the transition from the status it read, then writes. */
  function CheckpointOf(row: RunRow, snap: RunRow, u: Update): Checkpoint {
    if u.status.Some? && !ValidTransition(snap.status, u.status.value) then InvalidTransition
    else
      match VersionedUpdate(row, snap, u)
      case Some(saved) => Saved(saved)
      case None => Stale
  }

  predicate Leasable(row: RunRow, now: int) {
    row.lease.None? || row.lease.value.expires < now
  }

  function AcquireOf(row: RunRow, snap: RunRow, owner: nat, now: int, ttl: nat): Option<RunRow> {
    if Leasable(row, now)
    then VersionedUpdate(row, snap, NoChange.(lease := Some(Some(Lease(owner, now + ttl)))))
    else None
  }

  predicate OwnedBy(row: RunRow, owner: nat) {
    row.lease.Some? && row.lease.value.owner == owner
  }

  /** Renewal is not fenced: it touches only the expiry, and only for the owner. */
  function RenewOf(row: RunRow, owner: nat, now: int, ttl: nat): RunRow {
    if OwnedBy(row, owner) then row.(lease := Some(Lease(owner, now + ttl))) else row
  }

  const Released := NoChange.(lease := Some(None))

  /** Equal up to the lease expiry, the one column written outside the fence. */
  predicate SameModuloExpiry(a: RunRow, b: RunRow) {
    && a.(lease := None) == b.(lease := None)
    && (a.lease.None? <==> b.lease.None?)
    && (a.lease.Some? ==> a.lease.value.owner == b.lease.value.owner)
  }

  /** The repository over the stored row. `snap` is the object a session read
      earlier; a successful write refreshes it. */
  class RunRepository {
    var row: RunRow

    constructor (row: RunRow)
      ensures this.row == row
    {
      this.row := row;
    }

    method UpdateVersioned(snap: RunRow, u: Update, extra: bool) returns (ok: bool, refreshed: RunRow)
      modifies this
      ensures ok <==> extra && VersionedUpdate(old(row), snap, u).Some?
      ensures ok ==> row == refreshed == VersionedUpdate(old(row), snap, u).value
      ensures !ok ==> row == old(row) && refreshed == snap
    {
      var expected := snap.version;
      if !(row.version == expected && extra) {
        return false, snap;
      }
      row := Patch(row, u).(version := expected + 1);
      return true, row;
    }

    method Checkpoint(snap: RunRow, u: Update) returns (r: Checkpoint)
      modifies this
      ensures r == CheckpointOf(old(row), snap, u)
      ensures row == if r.Saved? then r.row else old(row)
    {
      if u.status.Some? && !ValidTransition(snap.status, u.status.value) {
        return InvalidTransition;
      }
      var ok, refreshed := UpdateVersioned(snap, u, true);
      r := if ok then Saved(refreshed) else Stale;
    }

    method TryAcquireLease(snap: RunRow, owner: nat, now: int, ttl: nat) returns (ok: bool)
      modifies this
      ensures ok <==> AcquireOf(old(row), snap, owner, now, ttl).Some?
      ensures row == if ok then AcquireOf(old(row), snap, owner, now, ttl).value else old(row)
    {
      var refreshed;
      var free := row.lease.None? || row.lease.value.expires < now;
      ok, refreshed := UpdateVersioned(snap, NoChange.(lease := Some(Some(Lease(owner, now + ttl)))), free);
    }

    method RenewLeaseById(owner: nat, now: int, ttl: nat) returns (ok: bool)
      modifies this
      ensures ok <==> OwnedBy(old(row), owner)
      ensures row == RenewOf(old(row), owner, now, ttl)
      ensures SameModuloExpiry(old(row), row)
    {
      ok := row.lease.Some? && row.lease.value.owner == owner;
      if ok {
        row := row.(lease := Some(Lease(owner, now + ttl)));
      }
    }

    method ReleaseLease(snap: RunRow) returns (ok: bool)
      modifies this
      ensures ok <==> old(row).version == snap.version
      ensures row == if ok then old(row).(lease := None, version := snap.version + 1) else old(row)
    {
      var refreshed;
      ok, refreshed := UpdateVersioned(snap, Released, true);
    }
  }
}
