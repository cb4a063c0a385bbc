/** src/branches */
module Branches {
  import opened Common
  import opened Schema

  predicate BranchNamed(branches: map<Id, Branch>, tenantId: Id, name: string, except: Option<Id>) {
    exists i :: i in branches && branches[i].tenantId == tenantId && branches[i].name == name
      && branches[i].deletedAt.None? && Some(i) != except
  }

  function AfterCreateBranch(db: Db, tenantId: Id, name: string, newId: Id): Result<Db> {
    if BranchNamed(db.branches, tenantId, name, None) then Err(Conflict)
    else if newId in db.branches then Err(UniqueIndex)
    else Ok(db.(branches := db.branches[newId := Branch(tenantId, name, None)]))
  }

  function AfterUpdateBranch(db: Db, tenantId: Id, id: Id, name: Patch<string>): Result<Db> {
    if !LiveBranch(db.branches, tenantId, id) then Err(NotFound)
    else if Truthy(name) && name.value != db.branches[id].name
      && BranchNamed(db.branches, tenantId, name.value, Some(id)) then Err(Conflict)
    else if name.Null? then Err(NotNull)
    else Ok(db.(branches :=
      db.branches[id := db.branches[id].(name := if name.Set? then name.value else db.branches[id].name)]))
  }

  function UnlinkedUsers(users: map<Id, User>, branchId: Id): map<Id, User> {
    map i | i in users :: if users[i].branchId == Some(branchId) then users[i].(branchId := None) else users[i]
  }

  function UnlinkedVehicles(vehicles: map<Id, Vehicle>, branchId: Id): map<Id, Vehicle> {
    map i | i in vehicles :: if vehicles[i].branchId == Some(branchId) then vehicles[i].(branchId := None)
      else vehicles[i]
  }

  function UnlinkedDrivers(drivers: map<Id, Driver>, branchId: Id): map<Id, Driver> {
    map i | i in drivers :: if drivers[i].branchId == Some(branchId) then drivers[i].(branchId := None) else drivers[i]
  }

  /** The transaction of `remove`: unlink users, user-branch rows, vehicles and drivers, then soft-delete. */
  function AfterRemoveBranch(db: Db, tenantId: Id, id: Id, now: Time): Result<Db> {
    if !LiveBranch(db.branches, tenantId, id) then Err(NotFound)
    else Ok(db.(
      users := UnlinkedUsers(db.users, id),
      userBranches := (set ub | ub in db.userBranches && ub.branchId != id),
      vehicles := UnlinkedVehicles(db.vehicles, id),
      drivers := UnlinkedDrivers(db.drivers, id),
      branches := db.branches[id := db.branches[id].(deletedAt := Some(now))]))
  }

  // ── Calls that write branches ──────────────────────────────────────────────

  datatype Call =
    | Create(tenantId: Id, name: string, newId: Id)
    | Update(tenantId: Id, id: Id, change: Patch<string>)
    | Remove(tenantId: Id, id: Id)

  function Outcome(db: Db, c: Call, now: Time): Result<Db> {
    match c
    case Create(tenantId, name, newId) => AfterCreateBranch(db, tenantId, name, newId)
    case Update(tenantId, id, change) => AfterUpdateBranch(db, tenantId, id, change)
    case Remove(tenantId, id) => AfterRemoveBranch(db, tenantId, id, now)
  }

  /** Apart from branch links, a branch call leaves users, vehicles and drivers as they are. */
  ghost predicate OnlyLinksChange(before: Db, after: Db) {
    && after.users.Keys == before.users.Keys && after.vehicles.Keys == before.vehicles.Keys
      && after.drivers.Keys == before.drivers.Keys
    && (forall i :: i in before.users ==> after.users[i] == before.users[i].(branchId := after.users[i].branchId))
    && (forall i :: i in before.vehicles ==>
      after.vehicles[i] == before.vehicles[i].(branchId := after.vehicles[i].branchId))
    && (forall i :: i in before.drivers ==>
      after.drivers[i] == before.drivers[i].(branchId := after.drivers[i].branchId))
  }

  lemma CallKeepsRows(db: Db, c: Call, now: Time, after: Db)
    requires Outcome(db, c, now) == Ok(after)
    ensures OnlyLinksChange(db, after)
    ensures after == db.(users := after.users, userBranches := after.userBranches, vehicles := after.vehicles,
                         drivers := after.drivers, branches := after.branches)
  {
    match c
    case Create(_, _, _) =>
    case Update(_, _, _) =>
    case Remove(_, _) =>
  }

  class BranchesService {
    const prisma: Database

    constructor (prisma: Database)
      ensures this.prisma == prisma
    {
      this.prisma := prisma;
    }

    method Create(tenantId: Id, name: string, newId: Id) returns (r: Result<()>)
      modifies prisma`branches
      ensures Realises(
        AfterCreateBranch(old(prisma.Snapshot()), tenantId, name, newId),
        old(prisma.Snapshot()), prisma.Snapshot(), r)
    {
      if BranchNamed(prisma.branches, tenantId, name, None) {
        return Err(Conflict);
      }
      if newId in prisma.branches {
        return Err(UniqueIndex);
      }
      prisma.branches := prisma.branches[newId := Branch(tenantId, name, None)];
      return Ok(());
    }

    method Update(tenantId: Id, id: Id, name: Patch<string>) returns (r: Result<()>)
      modifies prisma`branches
      ensures Realises(
        AfterUpdateBranch(old(prisma.Snapshot()), tenantId, id, name),
        old(prisma.Snapshot()), prisma.Snapshot(), r)
    {
      if !LiveBranch(prisma.branches, tenantId, id) {
        return Err(NotFound);
      }
      var branch := prisma.branches[id];
      if Truthy(name) && name.value != branch.name {
        if BranchNamed(prisma.branches, tenantId, name.value, Some(id)) {
          return Err(Conflict);
        }
      }
      if name.Null? {
        return Err(NotNull);
      }
      if name.Set? {
        branch := branch.(name := name.value);
      }
      prisma.branches := prisma.branches[id := branch];
      return Ok(());
    }

    method Remove(tenantId: Id, id: Id, now: Time) returns (r: Result<()>)
      requires prisma.Valid()
      modifies prisma`users, prisma`userBranches, prisma`vehicles, prisma`drivers, prisma`branches
      ensures prisma.Valid()
      ensures Realises(
        AfterRemoveBranch(old(prisma.Snapshot()), tenantId, id, now),
        old(prisma.Snapshot()), prisma.Snapshot(), r)
    {
      if !LiveBranch(prisma.branches, tenantId, id) {
        return Err(NotFound);
      }
      prisma.users := UnlinkedUsers(prisma.users, id);
      prisma.userBranches := set ub | ub in prisma.userBranches && ub.branchId != id;
      prisma.vehicles := UnlinkedVehicles(prisma.vehicles, id);
      prisma.drivers := UnlinkedDrivers(prisma.drivers, id);
      prisma.branches := prisma.branches[id := prisma.branches[id].(deletedAt := Some(now))];
      return Ok(());
    }
  }
}
