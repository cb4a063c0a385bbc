/** src/assignments: which driver may use which vehicle, over closed and possibly open-ended ranges. */
module Assignments {
  import opened Common
  import opened Intervals
  import opened Schema

  datatype CreateAssignment = CreateAssignment(vehicleId: Id, driverId: Id, startDate: Time, endDate: Patch<Time>)

  datatype UpdateAssignment = UpdateAssignment(
    vehicleId: Patch<Id>,
    driverId: Patch<Id>,
    startDate: Patch<Time>,
    endDate: Patch<Time>)

  /** The two overlap queries of `create`; `except` leaves one row out. */
  predicate VehicleAssigned(assignments: map<Id, Assignment>, vehicleId: Id, from: Time, to: Option<Time>,
    except: Option<Id>) {
    exists i :: i in assignments && assignments[i].vehicleId == vehicleId && assignments[i].deletedAt.None?
      && Some(i) != except && Touches(assignments[i].startDate, assignments[i].endDate, from, to)
  }

  predicate DriverAssigned(assignments: map<Id, Assignment>, driverId: Id, from: Time, to: Option<Time>,
    except: Option<Id>) {
    exists i :: i in assignments && assignments[i].driverId == driverId && assignments[i].deletedAt.None?
      && Some(i) != except && Touches(assignments[i].startDate, assignments[i].endDate, from, to)
  }

  function AfterCreateAssignment(db: Db, tenantId: Id, dto: CreateAssignment, newId: Id): Result<Db> {
    var end := dto.endDate.OrNull();
    if end.Some? && end.value <= dto.startDate then Err(BadRequest)
    else if !LiveVehicle(db.vehicles, tenantId, dto.vehicleId) then Err(NotFound)
    else if !LiveDriver(db.drivers, tenantId, dto.driverId) then Err(NotFound)
    else if VehicleAssigned(db.assignments, dto.vehicleId, dto.startDate, end, None) then Err(BadRequest)
    else if DriverAssigned(db.assignments, dto.driverId, dto.startDate, end, None) then Err(BadRequest)
    else if newId in db.assignments then Err(UniqueIndex)
    else Ok(db.(assignments :=
      db.assignments[newId := Assignment(dto.vehicleId, dto.driverId, dto.startDate, end, None)]))
  }

  /** `findFirst({ id, deletedAt: null, vehicle: { tenantId } })` */
  predicate LiveAssignment(db: Db, tenantId: Id, id: Id) {
    && id in db.assignments && db.assignments[id].deletedAt.None?
    && db.assignments[id].vehicleId in db.vehicles && db.vehicles[db.assignments[id].vehicleId].tenantId == tenantId
  }

  /** The row an update leaves behind. */
  function Patched(a: Assignment, dto: UpdateAssignment): Assignment {
    a.(vehicleId := if Truthy(dto.vehicleId) then dto.vehicleId.value else a.vehicleId,
       driverId := if Truthy(dto.driverId) then dto.driverId.value else a.driverId,
       startDate := if dto.startDate.Set? then dto.startDate.value else a.startDate,
       endDate := if dto.endDate.Absent? then a.endDate else dto.endDate.OrNull())
  }

  /** No overlap test here: only the tenant of a changed vehicle or driver is checked. */
  function AfterUpdateAssignment(db: Db, tenantId: Id, id: Id, dto: UpdateAssignment): Result<Db> {
    if !LiveAssignment(db, tenantId, id) then Err(NotFound)
    else
      var a := Patched(db.assignments[id], dto);
      if a.endDate.Some? && a.endDate.value <= a.startDate then Err(BadRequest)
      else if a.vehicleId != db.assignments[id].vehicleId && !LiveVehicle(db.vehicles, tenantId, a.vehicleId) then
        Err(NotFound)
      else if a.driverId != db.assignments[id].driverId && !LiveDriver(db.drivers, tenantId, a.driverId) then
        Err(NotFound)
      else Ok(db.(assignments := db.assignments[id := a]))
  }

  function AfterRemoveAssignment(db: Db, tenantId: Id, id: Id, now: Time): Result<Db> {
    if !LiveAssignment(db, tenantId, id) then Err(NotFound)
    else Ok(db.(assignments := db.assignments[id := db.assignments[id].(deletedAt := Some(now))]))
  }

  // ── Calls that write assignments ───────────────────────────────────────────

  datatype Call =
    | Create(tenantId: Id, assignment: CreateAssignment, newId: Id)
    | Update(tenantId: Id, id: Id, change: UpdateAssignment)
    | Remove(tenantId: Id, id: Id)

  function Outcome(db: Db, c: Call, now: Time): Result<Db> {
    match c
    case Create(tenantId, assignment, newId) => AfterCreateAssignment(db, tenantId, assignment, newId)
    case Update(tenantId, id, change) => AfterUpdateAssignment(db, tenantId, id, change)
    case Remove(tenantId, id) => AfterRemoveAssignment(db, tenantId, id, now)
  }

  lemma CallWrites(db: Db, c: Call, now: Time, after: Db)
    requires Outcome(db, c, now) == Ok(after)
    ensures after == db.(assignments := after.assignments)
  {
    match c
    case Create(_, _, _) =>
    case Update(_, _, _) =>
    case Remove(_, _) =>
  }

  class AssignmentsService {
    const prisma: Database

    constructor (prisma: Database)
      ensures this.prisma == prisma
    {
      this.prisma := prisma;
    }

    method Create(tenantId: Id, dto: CreateAssignment, newId: Id) returns (r: Result<()>)
      modifies prisma`assignments
      ensures Realises(
        AfterCreateAssignment(old(prisma.Snapshot()), tenantId, dto, newId),
        old(prisma.Snapshot()), prisma.Snapshot(), r)
    {
      var start, end := dto.startDate, dto.endDate.OrNull();
      if end.Some? && end.value <= start {
        return Err(BadRequest);
      }
      if !LiveVehicle(prisma.vehicles, tenantId, dto.vehicleId) || !LiveDriver(prisma.drivers, tenantId, dto.driverId) {
        return Err(NotFound);
      }
      if VehicleAssigned(prisma.assignments, dto.vehicleId, start, end, None) {
        return Err(BadRequest);
      }
      if DriverAssigned(prisma.assignments, dto.driverId, start, end, None) {
        return Err(BadRequest);
      }
      if newId in prisma.assignments {
        return Err(UniqueIndex);
      }
      prisma.assignments := prisma.assignments[newId := Assignment(dto.vehicleId, dto.driverId, start, end, None)];
      return Ok(());
    }

    method FindLive(tenantId: Id, id: Id) returns (found: bool)
      ensures found <==> LiveAssignment(prisma.Snapshot(), tenantId, id)
    {
      if id !in prisma.assignments || prisma.assignments[id].deletedAt.Some? {
        return false;
      }
      var vehicleId := prisma.assignments[id].vehicleId;
      return vehicleId in prisma.vehicles && prisma.vehicles[vehicleId].tenantId == tenantId;
    }

    method Update(tenantId: Id, id: Id, dto: UpdateAssignment) returns (r: Result<()>)
      modifies prisma`assignments
      ensures Realises(
        AfterUpdateAssignment(old(prisma.Snapshot()), tenantId, id, dto),
        old(prisma.Snapshot()), prisma.Snapshot(), r)
    {
      var found := FindLive(tenantId, id);
      if !found {
        return Err(NotFound);
      }
      var assignment := prisma.assignments[id];
      var start := if dto.startDate.Set? then dto.startDate.value else assignment.startDate;
      var end := if dto.endDate.Absent? then assignment.endDate else dto.endDate.OrNull();
      if end.Some? && end.value <= start {
        return Err(BadRequest);
      }
      var data := assignment;
      if Truthy(dto.vehicleId) && dto.vehicleId.value != assignment.vehicleId {
        if !LiveVehicle(prisma.vehicles, tenantId, dto.vehicleId.value) {
          return Err(NotFound);
        }
        data := data.(vehicleId := dto.vehicleId.value);
      }
      if Truthy(dto.driverId) && dto.driverId.value != assignment.driverId {
        if !LiveDriver(prisma.drivers, tenantId, dto.driverId.value) {
          return Err(NotFound);
        }
        data := data.(driverId := dto.driverId.value);
      }
      if dto.startDate.Set? {
        data := data.(startDate := start);
      }
      if !dto.endDate.Absent? {
        data := data.(endDate := end);
      }
      prisma.assignments := prisma.assignments[id := data];
      return Ok(());
    }

    method Remove(tenantId: Id, id: Id, now: Time) returns (r: Result<()>)
      modifies prisma`assignments
      ensures Realises(
        AfterRemoveAssignment(old(prisma.Snapshot()), tenantId, id, now),
        old(prisma.Snapshot()), prisma.Snapshot(), r)
    {
      var found := FindLive(tenantId, id);
      if !found {
        return Err(NotFound);
      }
      prisma.assignments := prisma.assignments[id := prisma.assignments[id].(deletedAt := Some(now))];
      return Ok(());
    }
  }
}
