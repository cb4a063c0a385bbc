/** src/drivers */
module Drivers {
  import opened Common
  import opened Schema
  import opened Validator

  datatype CreateDriver = CreateDriver(phone: string, licenseNo: string, userId: Patch<Id>, branchId: Patch<Id>)

  datatype UpdateDriver = UpdateDriver(
    phone: Patch<string>,
    licenseNo: Patch<string>,
    isAvailable: Patch<bool>,
    branchId: Patch<Id>,
    others: bool)

  /** The row a new driver would violate: primary key or one of the unique indexes. */
  predicate DriverIndexed(drivers: map<Id, Driver>, newId: Id, d: Driver) {
    || newId in drivers
    || PhoneTaken(drivers, d.phone, None, false)
    || LicenseTaken(drivers, d.licenseNo, None, false)
    || (d.userId.Some? && UserTaken(drivers, d.userId.value, false))
  }

  function AfterCreateDriver(db: Db, tenantId: Id, dto: CreateDriver, newId: Id): Result<Db> {
    if PhoneTaken(db.drivers, dto.phone, None, true) then Err(Conflict)
    else if LicenseTaken(db.drivers, dto.licenseNo, None, true) then Err(Conflict)
    else if Truthy(dto.userId) && !LiveUser(db.users, tenantId, dto.userId.value) then Err(NotFound)
    else if Truthy(dto.userId) && UserTaken(db.drivers, dto.userId.value, true) then Err(Conflict)
    else if BranchRefused(db.branches, tenantId, dto.branchId) then Err(NotFound)
    else
      var d := Driver(tenantId, dto.branchId.OrNull(), dto.userId.OrNull(), dto.phone, dto.licenseNo, true, None);
      if DriverIndexed(db.drivers, newId, d) then Err(UniqueIndex)
      else if !BranchKeyHolds(db.branches, d.branchId) || (d.userId.Some? && d.userId.value !in db.users) then
        Err(ForeignKey)
      else Ok(db.(drivers := db.drivers[newId := d]))
  }

  function PatchedDriver(d: Driver, dto: UpdateDriver): Driver {
    d.(phone := if dto.phone.Set? then dto.phone.value else d.phone,
       licenseNo := if dto.licenseNo.Set? then dto.licenseNo.value else d.licenseNo,
       isAvailable := if dto.isAvailable.Set? then dto.isAvailable.value else d.isAvailable,
       branchId := PatchedBranch(d.branchId, dto.branchId))
  }

  function AfterUpdateDriver(db: Db, tenantId: Id, id: Id, dto: UpdateDriver): Result<Db> {
    if !LiveDriver(db.drivers, tenantId, id) then Err(NotFound)
    else
      var d := db.drivers[id];
      if Truthy(dto.phone) && dto.phone.value != d.phone
        && PhoneTaken(db.drivers, dto.phone.value, Some(id), true) then Err(Conflict)
      else if Truthy(dto.licenseNo) && dto.licenseNo.value != d.licenseNo
        && LicenseTaken(db.drivers, dto.licenseNo.value, Some(id), true) then Err(Conflict)
      else if BranchRefused(db.branches, tenantId, dto.branchId) then Err(NotFound)
      else if dto.phone.Absent? && dto.licenseNo.Absent? && dto.isAvailable.Absent? && dto.branchId.Absent?
        && !dto.others then Err(BadRequest)
      else if dto.phone.Null? || dto.licenseNo.Null? || dto.isAvailable.Null? then Err(NotNull)
      else if dto.phone.Set? && PhoneTaken(db.drivers, dto.phone.value, Some(id), false) then Err(UniqueIndex)
      else if dto.licenseNo.Set? && LicenseTaken(db.drivers, dto.licenseNo.value, Some(id), false) then Err(UniqueIndex)
      else Ok(db.(drivers := db.drivers[id := PatchedDriver(d, dto)]))
  }

  function AfterRemoveDriver(db: Db, tenantId: Id, id: Id, now: Time): Result<Db> {
    if !LiveDriver(db.drivers, tenantId, id) then Err(NotFound)
    else Ok(db.(drivers := db.drivers[id := db.drivers[id].(deletedAt := Some(now))]))
  }

  // ── Calls that write drivers ───────────────────────────────────────────────

  datatype Call =
    | Create(tenantId: Id, driver: CreateDriver, newId: Id)
    | Update(tenantId: Id, id: Id, change: UpdateDriver)
    | Remove(tenantId: Id, id: Id)

  function Outcome(db: Db, c: Call, now: Time): Result<Db> {
    match c
    case Create(tenantId, driver, newId) => AfterCreateDriver(db, tenantId, driver, newId)
    case Update(tenantId, id, change) => AfterUpdateDriver(db, tenantId, id, change)
    case Remove(tenantId, id) => AfterRemoveDriver(db, tenantId, id, now)
  }

  /** The call takes a driver off duty by hand. */
  predicate TakesOffDuty(c: Call) {
    c.Update? && c.change.isAvailable == Set(false)
  }

  /** Rows stay, keep their tenant, and nobody becomes unavailable unless taken off duty by hand. */
  ghost predicate RowsStay(before: map<Id, Driver>, after: map<Id, Driver>, offDuty: bool) {
    && (forall i :: i in before ==>
          i in after && after[i].tenantId == before[i].tenantId
            && (offDuty || (before[i].isAvailable ==> after[i].isAvailable)))
    && (forall i :: i in after && i !in before ==> after[i].isAvailable)
  }

  /** What every driver call leaves alone. */
  lemma CallKeepsRows(db: Db, c: Call, now: Time, after: Db)
    requires Outcome(db, c, now) == Ok(after)
    ensures after == db.(drivers := after.drivers) && RowsStay(db.drivers, after.drivers, TakesOffDuty(c))
  {
    match c
    case Create(_, _, _) =>
    case Update(_, _, _) =>
    case Remove(_, _) =>
  }

  /** Only creation sets `userId`, so every other write keeps its unique index. */
  lemma SameUserKeepsIndex(drivers: map<Id, Driver>, id: Id, d: Driver)
    requires DriverUsersUnique(drivers) && id in drivers && d.userId == drivers[id].userId
    ensures DriverUsersUnique(drivers[id := d])
  {
    forall i, j | i in drivers && j in drivers && drivers[id := d][i].userId.Some?
      && drivers[id := d][i].userId == drivers[id := d][j].userId
      ensures i == j
    {
      assert drivers[id := d][i].userId == drivers[i].userId && drivers[id := d][j].userId == drivers[j].userId;
    }
  }

  class DriversService {
    const prisma: Database

    constructor (prisma: Database)
      ensures this.prisma == prisma
    {
      this.prisma := prisma;
    }

    method Create(tenantId: Id, dto: CreateDriver, newId: Id) returns (r: Result<()>)
      requires prisma.Valid()
      modifies prisma`drivers
      ensures prisma.Valid()
      ensures Realises(
        AfterCreateDriver(old(prisma.Snapshot()), tenantId, dto, newId),
        old(prisma.Snapshot()), prisma.Snapshot(), r)
    {
      if PhoneTaken(prisma.drivers, dto.phone, None, true) || LicenseTaken(prisma.drivers, dto.licenseNo, None, true) {
        return Err(Conflict);
      }
      if Truthy(dto.userId) {
        if !LiveUser(prisma.users, tenantId, dto.userId.value) {
          return Err(NotFound);
        }
        if UserTaken(prisma.drivers, dto.userId.value, true) {
          return Err(Conflict);
        }
      }
      if BranchRefused(prisma.branches, tenantId, dto.branchId) {
        return Err(NotFound);
      }
      var d := Driver(tenantId, dto.branchId.OrNull(), dto.userId.OrNull(), dto.phone, dto.licenseNo, true, None);
      if DriverIndexed(prisma.drivers, newId, d) {
        return Err(UniqueIndex);
      }
      if (d.branchId.Some? && d.branchId.value !in prisma.branches)
        || (d.userId.Some? && d.userId.value !in prisma.users) {
        return Err(ForeignKey);
      }
      prisma.drivers := prisma.drivers[newId := d];
      return Ok(());
    }

    method Update(tenantId: Id, id: Id, dto: UpdateDriver) returns (r: Result<()>)
      requires prisma.Valid()
      modifies prisma`drivers
      ensures prisma.Valid()
      ensures Realises(
        AfterUpdateDriver(old(prisma.Snapshot()), tenantId, id, dto),
        old(prisma.Snapshot()), prisma.Snapshot(), r)
    {
      if !LiveDriver(prisma.drivers, tenantId, id) {
        return Err(NotFound);
      }
      var data := prisma.drivers[id];
      if Truthy(dto.phone) && dto.phone.value != data.phone
        && PhoneTaken(prisma.drivers, dto.phone.value, Some(id), true) {
        return Err(Conflict);
      }
      if Truthy(dto.licenseNo) && dto.licenseNo.value != data.licenseNo
        && LicenseTaken(prisma.drivers, dto.licenseNo.value, Some(id), true) {
        return Err(Conflict);
      }
      if !dto.branchId.Absent? && BranchRefused(prisma.branches, tenantId, dto.branchId) {
        return Err(NotFound);
      }
      if dto.phone.Absent? && dto.licenseNo.Absent? && dto.isAvailable.Absent? && dto.branchId.Absent? && !dto.others {
        return Err(BadRequest);
      }
      if dto.phone.Null? || dto.licenseNo.Null? || dto.isAvailable.Null? {
        return Err(NotNull);
      }
      if dto.phone.Set? {
        if PhoneTaken(prisma.drivers, dto.phone.value, Some(id), false) {
          return Err(UniqueIndex);
        }
        data := data.(phone := dto.phone.value);
      }
      if dto.licenseNo.Set? {
        if LicenseTaken(prisma.drivers, dto.licenseNo.value, Some(id), false) {
          return Err(UniqueIndex);
        }
        data := data.(licenseNo := dto.licenseNo.value);
      }
      if dto.isAvailable.Set? {
        data := data.(isAvailable := dto.isAvailable.value);
      }
      if !dto.branchId.Absent? {
        data := data.(branchId := if Truthy(dto.branchId) then Some(dto.branchId.value) else None);
      }
      assert data == PatchedDriver(prisma.drivers[id], dto);
      SameUserKeepsIndex(prisma.drivers, id, data);
      prisma.drivers := prisma.drivers[id := data];
      return Ok(());
    }

    method Remove(tenantId: Id, id: Id, now: Time) returns (r: Result<()>)
      requires prisma.Valid()
      modifies prisma`drivers
      ensures prisma.Valid()
      ensures Realises(
        AfterRemoveDriver(old(prisma.Snapshot()), tenantId, id, now),
        old(prisma.Snapshot()), prisma.Snapshot(), r)
    {
      if !LiveDriver(prisma.drivers, tenantId, id) {
        return Err(NotFound);
      }
      prisma.drivers := prisma.drivers[id := prisma.drivers[id].(deletedAt := Some(now))];
      return Ok(());
    }
  }
}
