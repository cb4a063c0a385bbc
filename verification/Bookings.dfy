/**
 * src/bookings: each request loads or builds its booking row, re-checks availability through
 * the oracle, and writes. The four phases are separate so that requests can be interleaved.
 */
module Bookings {
  import opened Common
  import opened Intervals
  import opened Schema
  import opened Scheduling

  datatype CreateBooking = CreateBooking(
    vehicleId: Id,
    driverId: Patch<Id>,
    startDate: Time,
    endDate: Time,
    advancePaid: Patch<int>)

  datatype AssignDriverVehicle = AssignDriverVehicle(vehicleId: Patch<Id>, driverId: Patch<Id>, advancePaid: Patch<int>)

  datatype Request =
    | Create(tenantId: Id, dto: CreateBooking)
    | Confirm(tenantId: Id, id: Id)
    | Cancel(tenantId: Id, id: Id)
    | Assign(tenantId: Id, id: Id, change: AssignDriverVehicle)

  function NewBooking(tenantId: Id, dto: CreateBooking): Booking {
    Booking(tenantId, dto.vehicleId, dto.driverId.OrNull(), dto.startDate, dto.endDate, PENDING,
            if dto.advancePaid.Set? then dto.advancePaid.value else 0, None)
  }

  predicate LiveBooking(bookings: map<Id, Booking>, tenantId: Id, id: Id) {
    id in bookings && bookings[id].tenantId == tenantId && bookings[id].deletedAt.None?
  }

  predicate Closed(status: BookingStatus) {
    status == COMPLETED || status == CANCELLED
  }

  // ── The phases of a request ────────────────────────────────────────────────

  /** The row a request works on: built from the body, or read and tested for its status. */
  function Load(db: Db, rq: Request): Result<Booking> {
    match rq
    case Create(tenantId, dto) =>
      if dto.endDate <= dto.startDate then Err(BadRequest) else Ok(NewBooking(tenantId, dto))
    case Confirm(tenantId, id) =>
      if !LiveBooking(db.bookings, tenantId, id) then Err(NotFound)
      else if db.bookings[id].status != PENDING then Err(BadRequest)
      else Ok(db.bookings[id])
    case Cancel(tenantId, id) =>
      if !LiveBooking(db.bookings, tenantId, id) then Err(NotFound)
      else if Closed(db.bookings[id].status) then Err(BadRequest)
      else Ok(db.bookings[id])
    case Assign(tenantId, id, _) =>
      if !LiveBooking(db.bookings, tenantId, id) then Err(NotFound)
      else if Closed(db.bookings[id].status) then Err(Forbidden)
      else Ok(db.bookings[id])
  }

  /** The request puts the booking on a vehicle it does not hold yet. */
  predicate TakesVehicle(rq: Request, row: Booking) {
    match rq
    case Create(_, _) => true
    case Assign(_, _, change) => Truthy(change.vehicleId) && change.vehicleId.value != row.vehicleId
    case _ => false
  }

  function TargetVehicle(rq: Request, row: Booking): Id
    requires TakesVehicle(rq, row)
  {
    match rq
    case Create(_, dto) => dto.vehicleId
    case Assign(_, _, change) => change.vehicleId.value
  }

  predicate VehiclePasses(db: Db, rq: Request, row: Booking) {
    TakesVehicle(rq, row) ==> VehicleAvailable(db, TargetVehicle(rq, row), rq.tenantId, row.startDate, row.endDate)
  }

  predicate DriverPasses(db: Db, rq: Request, row: Booking) {
    match rq
    case Create(tenantId, dto) =>
      Truthy(dto.driverId) ==> DriverAvailable(db, dto.driverId.value, tenantId, row.startDate, row.endDate)
    case Assign(tenantId, _, change) =>
      Truthy(change.driverId) && Some(change.driverId.value) != row.driverId ==>
        DriverAvailable(db, change.driverId.value, tenantId, row.startDate, row.endDate)
    case _ => true
  }

  predicate BookingKeysHold(db: Db, b: Booking) {
    b.vehicleId in db.vehicles && (b.driverId.Some? ==> b.driverId.value in db.drivers)
  }

  /** The columns an assignment request changes. */
  function Reassigned(row: Booking, change: AssignDriverVehicle): Booking {
    row.(vehicleId := if change.vehicleId.Set? then change.vehicleId.value else row.vehicleId,
         driverId := if change.driverId.Absent? then row.driverId else change.driverId.OrNull(),
         advancePaid := if change.advancePaid.Set? then change.advancePaid.value else row.advancePaid)
  }

  /**
   * The final write. An update names its columns only, so it acts on the row stored now,
   * not on the row read earlier.
   */
  function Write(db: Db, rq: Request, row: Booking, newId: Id): Result<Db> {
    match rq
    case Create(_, _) =>
      if newId in db.bookings then Err(UniqueIndex)
      else if !BookingKeysHold(db, row) then Err(ForeignKey)
      else Ok(db.(bookings := db.bookings[newId := row]))
    case Confirm(_, id) =>
      if id !in db.bookings then Err(NotFound)
      else Ok(db.(bookings := db.bookings[id := db.bookings[id].(status := CONFIRMED)]))
    case Cancel(_, id) =>
      if id !in db.bookings then Err(NotFound)
      else Ok(db.(bookings := db.bookings[id := db.bookings[id].(status := CANCELLED)]))
    case Assign(_, id, change) =>
      if id !in db.bookings then Err(NotFound)
      else if change.vehicleId.Null? || change.advancePaid.Null? then Err(NotNull)
      else
        var changed := Reassigned(db.bookings[id], change);
        if !BookingKeysHold(db, changed) then Err(ForeignKey)
        else Ok(db.(bookings := db.bookings[id := changed]))
  }

  /** A whole request with nothing in between its phases. */
  function AfterRequest(db: Db, rq: Request, newId: Id): Result<Db> {
    match Load(db, rq)
    case Err(e) => Err(e)
    case Ok(row) =>
      if !VehiclePasses(db, rq, row) then Err(BadRequest)
      else if !DriverPasses(db, rq, row) then Err(BadRequest)
      else Write(db, rq, row, newId)
  }

  lemma RequestWrites(db: Db, rq: Request, newId: Id, after: Db)
    requires AfterRequest(db, rq, newId) == Ok(after)
    ensures after == db.(bookings := after.bookings)
  {
    match rq
    case Create(_, _) =>
    case Confirm(_, _) =>
    case Cancel(_, _) =>
    case Assign(_, _, _) =>
  }

  // ── The service ────────────────────────────────────────────────────────────

  class BookingsService {
    const prisma: Database
    const scheduling: SchedulingService

    constructor (prisma: Database, scheduling: SchedulingService)
      requires scheduling.prisma == prisma
      ensures this.prisma == prisma && this.scheduling == scheduling
    {
      this.prisma := prisma;
      this.scheduling := scheduling;
    }

    method CreateBooking(tenantId: Id, dto: CreateBooking, newId: Id) returns (r: Result<()>)
      requires scheduling.prisma == prisma
      modifies prisma`bookings
      ensures Realises(
        AfterRequest(old(prisma.Snapshot()), Create(tenantId, dto), newId),
        old(prisma.Snapshot()), prisma.Snapshot(), r)
    {
      var start, end := dto.startDate, dto.endDate;
      if end <= start {
        return Err(BadRequest);
      }
      var available, reasons := scheduling.CheckVehicleAvailability(dto.vehicleId, tenantId, start, end);
      if !available {
        return Err(BadRequest);
      }
      if Truthy(dto.driverId) {
        available, reasons := scheduling.CheckDriverAvailability(dto.driverId.value, tenantId, start, end);
        if !available {
          return Err(BadRequest);
        }
      }
      if newId in prisma.bookings {
        return Err(UniqueIndex);
      }
      var driverId := dto.driverId.OrNull();
      if dto.vehicleId !in prisma.vehicles || (driverId.Some? && driverId.value !in prisma.drivers) {
        return Err(ForeignKey);
      }
      var advancePaid := if dto.advancePaid.Set? then dto.advancePaid.value else 0;
      prisma.bookings :=
        prisma.bookings[newId := Booking(tenantId, dto.vehicleId, driverId, start, end, PENDING, advancePaid, None)];
      return Ok(());
    }

    method ConfirmBooking(tenantId: Id, id: Id) returns (r: Result<()>)
      modifies prisma`bookings
      ensures Realises(
        AfterRequest(old(prisma.Snapshot()), Confirm(tenantId, id), id),
        old(prisma.Snapshot()), prisma.Snapshot(), r)
    {
      if !LiveBooking(prisma.bookings, tenantId, id) {
        return Err(NotFound);
      }
      var booking := prisma.bookings[id];
      if booking.status != PENDING {
        return Err(BadRequest);
      }
      prisma.bookings := prisma.bookings[id := booking.(status := CONFIRMED)];
      return Ok(());
    }

    method CancelBooking(tenantId: Id, id: Id) returns (r: Result<()>)
      modifies prisma`bookings
      ensures Realises(
        AfterRequest(old(prisma.Snapshot()), Cancel(tenantId, id), id),
        old(prisma.Snapshot()), prisma.Snapshot(), r)
    {
      if !LiveBooking(prisma.bookings, tenantId, id) {
        return Err(NotFound);
      }
      var booking := prisma.bookings[id];
      if booking.status == COMPLETED || booking.status == CANCELLED {
        return Err(BadRequest);
      }
      prisma.bookings := prisma.bookings[id := booking.(status := CANCELLED)];
      return Ok(());
    }

    method AssignBooking(tenantId: Id, id: Id, dto: AssignDriverVehicle) returns (r: Result<()>)
      requires scheduling.prisma == prisma
      modifies prisma`bookings
      ensures Realises(
        AfterRequest(old(prisma.Snapshot()), Assign(tenantId, id, dto), id),
        old(prisma.Snapshot()), prisma.Snapshot(), r)
    {
      if !LiveBooking(prisma.bookings, tenantId, id) {
        return Err(NotFound);
      }
      var booking := prisma.bookings[id];
      if booking.status == COMPLETED || booking.status == CANCELLED {
        return Err(Forbidden);
      }
      ghost var rq, row := Assign(tenantId, id, dto), booking;
      assert Load(prisma.Snapshot(), rq) == Ok(row);
      var start, end := booking.startDate, booking.endDate;
      var available, reasons := true, [];
      if Truthy(dto.vehicleId) && dto.vehicleId.value != booking.vehicleId {
        available, reasons := scheduling.CheckVehicleAvailability(dto.vehicleId.value, tenantId, start, end);
      }
      assert available <==> VehiclePasses(prisma.Snapshot(), rq, row);
      if !available {
        return Err(BadRequest);
      }
      if Truthy(dto.driverId) && Some(dto.driverId.value) != booking.driverId {
        available, reasons := scheduling.CheckDriverAvailability(dto.driverId.value, tenantId, start, end);
      }
      assert available <==> DriverPasses(prisma.Snapshot(), rq, row);
      if !available {
        return Err(BadRequest);
      }
      r := WriteAssignment(tenantId, id, dto, row);
    }

    /** The update at the end of `assign`: only the columns the request names. */
    method WriteAssignment(tenantId: Id, id: Id, dto: AssignDriverVehicle, ghost row: Booking) returns (r: Result<()>)
      requires id in prisma.bookings
      modifies prisma`bookings
      ensures Realises(
        Write(old(prisma.Snapshot()), Assign(tenantId, id, dto), row, id),
        old(prisma.Snapshot()), prisma.Snapshot(), r)
    {
      if dto.vehicleId.Null? || dto.advancePaid.Null? {
        return Err(NotNull);
      }
      var booking := prisma.bookings[id];
      if dto.vehicleId.Set? {
        booking := booking.(vehicleId := dto.vehicleId.value);
      }
      if !dto.driverId.Absent? {
        booking := booking.(driverId := dto.driverId.OrNull());
      }
      if dto.advancePaid.Set? {
        booking := booking.(advancePaid := dto.advancePaid.value);
      }
      if booking.vehicleId !in prisma.vehicles
        || (booking.driverId.Some? && booking.driverId.value !in prisma.drivers) {
        return Err(ForeignKey);
      }
      prisma.bookings := prisma.bookings[id := booking];
      return Ok(());
    }
  }
}
