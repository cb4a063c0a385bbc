/** src/vehicles, and the vehicle that src/contracts creates along with a source contract. */
module Vehicles {
  import opened Common
  import opened Schema
  import opened Validator

  /** `contract` is the pair of contract dates, when the body has one. */
  datatype CreateVehicle = CreateVehicle(
    registrationNo: string,
    branchId: Patch<Id>,
    contractual: bool,
    contract: Option<(Time, Time)>)

  /** `others` says whether some column without modelled behaviour is sent. */
  datatype UpdateVehicle = UpdateVehicle(
    registrationNo: Patch<string>,
    status: Patch<VehicleStatus>,
    branchId: Patch<Id>,
    others: bool)

  /** The unique index on the plate, which also counts soft-deleted vehicles. */
  predicate PlateIndexed(vehicles: map<Id, Vehicle>, plate: string, except: Option<Id>) {
    exists i :: i in vehicles && vehicles[i].registrationNo == plate && Some(i) != except
  }

  function InsertVehicle(db: Db, tenantId: Id, plate: string, branchId: Patch<Id>, newId: Id): Result<Db> {
    if newId in db.vehicles || PlateIndexed(db.vehicles, plate, None) then Err(UniqueIndex)
    else if !BranchKeyHolds(db.branches, branchId.OrNull()) then Err(ForeignKey)
    else Ok(db.(vehicles := db.vehicles[newId := Vehicle(tenantId, branchId.OrNull(), plate, AVAILABLE, None)]))
  }

  function AfterCreateVehicle(db: Db, tenantId: Id, dto: CreateVehicle, newId: Id): Result<Db> {
    if PlateInUse(db.vehicles, dto.registrationNo, None) then Err(Conflict)
    else if BranchRefused(db.branches, tenantId, dto.branchId) then Err(NotFound)
    else if dto.contractual && dto.contract.None? then Err(BadRequest)
    else if dto.contractual && dto.contract.value.1 <= dto.contract.value.0 then Err(BadRequest)
    else InsertVehicle(db, tenantId, dto.registrationNo, dto.branchId, newId)
  }

  /** `ContractsService.create` for a VEHICLE_SOURCE contract with a vehicle in the body. */
  function AfterCreateContractVehicle(db: Db, tenantId: Id, start: Time, end: Time, plate: string, branchId: Patch<Id>,
    newId: Id): Result<Db> {
    if end <= start then Err(BadRequest)
    else if PlateInUse(db.vehicles, plate, None) then Err(Conflict)
    else if BranchRefused(db.branches, tenantId, branchId) then Err(NotFound)
    else InsertVehicle(db, tenantId, plate, branchId, newId)
  }

  function AfterUpdateVehicle(db: Db, tenantId: Id, id: Id, dto: UpdateVehicle): Result<Db> {
    if !LiveVehicle(db.vehicles, tenantId, id) then Err(NotFound)
    else
      var v := db.vehicles[id];
      if Truthy(dto.registrationNo) && dto.registrationNo.value != v.registrationNo
        && PlateInUse(db.vehicles, dto.registrationNo.value, Some(id)) then Err(Conflict)
      else if BranchRefused(db.branches, tenantId, dto.branchId) then Err(NotFound)
      else if dto.registrationNo.Absent? && dto.status.Absent? && dto.branchId.Absent? && !dto.others then
        Err(BadRequest)
      else if dto.registrationNo.Null? || dto.status.Null? then Err(NotNull)
      else if dto.registrationNo.Set? && PlateIndexed(db.vehicles, dto.registrationNo.value, Some(id)) then
        Err(UniqueIndex)
      else Ok(db.(vehicles := db.vehicles[id := v.(
        registrationNo := if dto.registrationNo.Set? then dto.registrationNo.value else v.registrationNo,
        status := if dto.status.Set? then dto.status.value else v.status,
        branchId := PatchedBranch(v.branchId, dto.branchId))]))
  }

  function AfterRemoveVehicle(db: Db, tenantId: Id, id: Id, now: Time): Result<Db> {
    if !LiveVehicle(db.vehicles, tenantId, id) then Err(NotFound)
    else Ok(db.(vehicles := db.vehicles[id := db.vehicles[id].(deletedAt := Some(now))]))
  }

  // ── Calls that write vehicles ──────────────────────────────────────────────

  datatype Call =
    | Create(tenantId: Id, vehicle: CreateVehicle, newId: Id)
    | CreateByContract(tenantId: Id, start: Time, end: Time, plate: string, branchId: Patch<Id>, newId: Id)
    | Update(tenantId: Id, id: Id, change: UpdateVehicle)
    | Remove(tenantId: Id, id: Id)

  function Outcome(db: Db, c: Call, now: Time): Result<Db> {
    match c
    case Create(tenantId, vehicle, newId) => AfterCreateVehicle(db, tenantId, vehicle, newId)
    case CreateByContract(tenantId, start, end, plate, branchId, newId) =>
      AfterCreateContractVehicle(db, tenantId, start, end, plate, branchId, newId)
    case Update(tenantId, id, change) => AfterUpdateVehicle(db, tenantId, id, change)
    case Remove(tenantId, id) => AfterRemoveVehicle(db, tenantId, id, now)
  }

  /** The call patches a status by hand so that the vehicle goes into or out of ON_TRIP. */
  predicate MovesOnTrip(vehicles: map<Id, Vehicle>, c: Call) {
    c.Update? && c.id in vehicles && c.change.status.Set?
      && ((c.change.status.value == ON_TRIP) != (vehicles[c.id].status == ON_TRIP))
  }

  /** Rows stay, keep their tenant, and stay in or out of ON_TRIP unless moved by hand; new rows are AVAILABLE. */
  ghost predicate RowsStay(before: map<Id, Vehicle>, after: map<Id, Vehicle>, moved: bool) {
    && (forall i :: i in before ==>
          i in after && after[i].tenantId == before[i].tenantId
            && (moved || (after[i].status == ON_TRIP <==> before[i].status == ON_TRIP)))
    && (forall i :: i in after && i !in before ==> after[i].status == AVAILABLE)
  }

  /** What every vehicle call leaves alone. */
  lemma CallKeepsRows(db: Db, c: Call, now: Time, after: Db)
    requires Outcome(db, c, now) == Ok(after)
    ensures after == db.(vehicles := after.vehicles)
      && RowsStay(db.vehicles, after.vehicles, MovesOnTrip(db.vehicles, c))
  {
    match c
    case Create(_, _, _) =>
    case CreateByContract(_, _, _, _, _, _) =>
    case Update(_, _, _) =>
    case Remove(_, _) =>
  }

  class VehiclesService {
    const prisma: Database

    constructor (prisma: Database)
      ensures this.prisma == prisma
    {
      this.prisma := prisma;
    }

    method Create(tenantId: Id, dto: CreateVehicle, newId: Id) returns (r: Result<()>)
      modifies prisma`vehicles
      ensures Realises(
        AfterCreateVehicle(old(prisma.Snapshot()), tenantId, dto, newId),
        old(prisma.Snapshot()), prisma.Snapshot(), r)
    {
      if PlateInUse(prisma.vehicles, dto.registrationNo, None) {
        return Err(Conflict);
      }
      if BranchRefused(prisma.branches, tenantId, dto.branchId) {
        return Err(NotFound);
      }
      if dto.contractual {
        if dto.contract.None? {
          return Err(BadRequest);
        }
        var (start, end) := dto.contract.value;
        if end <= start {
          return Err(BadRequest);
        }
      }
      if newId in prisma.vehicles || PlateIndexed(prisma.vehicles, dto.registrationNo, None) {
        return Err(UniqueIndex);
      }
      var branchId := dto.branchId.OrNull();
      if branchId.Some? && branchId.value !in prisma.branches {
        return Err(ForeignKey);
      }
      prisma.vehicles := prisma.vehicles[newId := Vehicle(tenantId, branchId, dto.registrationNo, AVAILABLE, None)];
      return Ok(());
    }

    method Update(tenantId: Id, id: Id, dto: UpdateVehicle) returns (r: Result<()>)
      modifies prisma`vehicles
      ensures Realises(
        AfterUpdateVehicle(old(prisma.Snapshot()), tenantId, id, dto),
        old(prisma.Snapshot()), prisma.Snapshot(), r)
    {
      if !LiveVehicle(prisma.vehicles, tenantId, id) {
        return Err(NotFound);
      }
      var data := prisma.vehicles[id];
      if Truthy(dto.registrationNo) && dto.registrationNo.value != data.registrationNo {
        if PlateInUse(prisma.vehicles, dto.registrationNo.value, Some(id)) {
          return Err(Conflict);
        }
      }
      if !dto.branchId.Absent? && BranchRefused(prisma.branches, tenantId, dto.branchId) {
        return Err(NotFound);
      }
      if dto.registrationNo.Absent? && dto.status.Absent? && dto.branchId.Absent? && !dto.others {
        return Err(BadRequest);
      }
      if dto.registrationNo.Null? || dto.status.Null? {
        return Err(NotNull);
      }
      if dto.registrationNo.Set? {
        if PlateIndexed(prisma.vehicles, dto.registrationNo.value, Some(id)) {
          return Err(UniqueIndex);
        }
        data := data.(registrationNo := dto.registrationNo.value);
      }
      if dto.status.Set? {
        data := data.(status := dto.status.value);
      }
      if !dto.branchId.Absent? {
        data := data.(branchId := if Truthy(dto.branchId) then Some(dto.branchId.value) else None);
      }
      prisma.vehicles := prisma.vehicles[id := data];
      return Ok(());
    }

    method Remove(tenantId: Id, id: Id, now: Time) returns (r: Result<()>)
      modifies prisma`vehicles
      ensures Realises(
        AfterRemoveVehicle(old(prisma.Snapshot()), tenantId, id, now),
        old(prisma.Snapshot()), prisma.Snapshot(), r)
    {
      if !LiveVehicle(prisma.vehicles, tenantId, id) {
        return Err(NotFound);
      }
      prisma.vehicles := prisma.vehicles[id := prisma.vehicles[id].(deletedAt := Some(now))];
      return Ok(());
    }
  }
}
