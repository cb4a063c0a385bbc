/** src/trips: a trip starts and ends together with its vehicle's status and its driver's flag. */
module Trips {
  import opened Common
  import opened Intervals
  import opened Schema

  /** The money and distance columns of a trip request. */
  datatype UpdateTrip = UpdateTrip(tollCost: Patch<int>, policeCost: Patch<int>, income: Patch<int>,
    distance: Patch<int>)

  predicate LinkedTo(d: Driver, userId: Id, tenantId: Id) {
    d.userId == Some(userId) && d.tenantId == tenantId && d.deletedAt.None?
  }

  /** The driver profile of a user account; the unique index on `userId` leaves at most one. */
  ghost function DriverOf(drivers: map<Id, Driver>, userId: Id, tenantId: Id): (d: Option<Id>)
    ensures d.Some? ==> d.value in drivers && LinkedTo(drivers[d.value], userId, tenantId)
    ensures d.None? ==> forall i :: i in drivers ==> !LinkedTo(drivers[i], userId, tenantId)
  {
    if i :| i in drivers && LinkedTo(drivers[i], userId, tenantId) then Some(i) else None
  }

  /** The driver holds a live assignment of the vehicle that covers the instant. */
  predicate MayDrive(assignments: map<Id, Assignment>, driverId: Id, vehicleId: Id, now: Time) {
    exists i :: i in assignments && assignments[i].vehicleId == vehicleId && assignments[i].driverId == driverId
      && assignments[i].deletedAt.None? && Covers(assignments[i].startDate, assignments[i].endDate, now)
  }

  /** `findFirst({ vehicleId, tenantId, deletedAt: null, endTime: null })` */
  predicate TripInProgress(trips: map<Id, Trip>, vehicleId: Id, tenantId: Id) {
    exists i :: i in trips && trips[i].vehicleId == vehicleId && trips[i].tenantId == tenantId
      && trips[i].deletedAt.None? && trips[i].endTime.None?
  }

  ghost function AfterStartTrip(db: Db, vehicleId: Id, tenantId: Id, userId: Id, now: Time, newId: Id): Result<Db> {
    var driver := DriverOf(db.drivers, userId, tenantId);
    if driver.None? then Err(Forbidden)
    else if !MayDrive(db.assignments, driver.value, vehicleId, now) then Err(Forbidden)
    else if !LiveVehicle(db.vehicles, tenantId, vehicleId) then Err(NotFound)
    else if db.vehicles[vehicleId].status != AVAILABLE then Err(BadRequest)
    else if TripInProgress(db.trips, vehicleId, tenantId) then Err(BadRequest)
    else if newId in db.trips then Err(UniqueIndex)
    else Ok(db.(
      trips := db.trips[newId := Trip(tenantId, vehicleId, driver.value, now, None, 0, 0, 0, 0, None)],
      vehicles := db.vehicles[vehicleId := db.vehicles[vehicleId].(status := ON_TRIP)],
      drivers := db.drivers[driver.value := db.drivers[driver.value].(isAvailable := false)]))
  }

  predicate LiveTrip(trips: map<Id, Trip>, tenantId: Id, id: Id) {
    id in trips && trips[id].tenantId == tenantId && trips[id].deletedAt.None?
  }

  predicate NullCost(dto: UpdateTrip) {
    dto.tollCost.Null? || dto.policeCost.Null? || dto.income.Null? || dto.distance.Null?
  }

  function Costed(t: Trip, dto: UpdateTrip): Trip {
    t.(tollCost := if dto.tollCost.Set? then dto.tollCost.value else t.tollCost,
       policeCost := if dto.policeCost.Set? then dto.policeCost.value else t.policeCost,
       income := if dto.income.Set? then dto.income.value else t.income,
       distance := if dto.distance.Set? then dto.distance.value else t.distance)
  }

  ghost function AfterEndTrip(db: Db, tripId: Id, tenantId: Id, userId: Id, dto: UpdateTrip, role: Role,
    now: Time): Result<Db> {
    if !LiveTrip(db.trips, tenantId, tripId) then Err(NotFound)
    else
      var trip := db.trips[tripId];
      if trip.endTime.Some? then Err(BadRequest)
      else if role == DRIVER && DriverOf(db.drivers, userId, tenantId) != Some(trip.driverId) then Err(Forbidden)
      else if NullCost(dto) then Err(NotNull)
      else if trip.vehicleId !in db.vehicles || trip.driverId !in db.drivers then Err(NotFound)
      else Ok(db.(
        trips := db.trips[tripId := Costed(trip, dto).(endTime := Some(now))],
        vehicles := db.vehicles[trip.vehicleId := db.vehicles[trip.vehicleId].(status := AVAILABLE)],
        drivers := db.drivers[trip.driverId := db.drivers[trip.driverId].(isAvailable := true)]))
  }

  function AfterUpdateTrip(db: Db, tripId: Id, tenantId: Id, dto: UpdateTrip): Result<Db> {
    if !LiveTrip(db.trips, tenantId, tripId) then Err(NotFound)
    else if NullCost(dto) then Err(NotNull)
    else Ok(db.(trips := db.trips[tripId := Costed(db.trips[tripId], dto)]))
  }

  // ── Calls that write trips ─────────────────────────────────────────────────

  datatype Call =
    | Start(tenantId: Id, vehicleId: Id, userId: Id, newId: Id)
    | End(tenantId: Id, id: Id, userId: Id, costs: UpdateTrip, role: Role)
    | Update(tenantId: Id, id: Id, costs: UpdateTrip)

  ghost function Outcome(db: Db, c: Call, now: Time): Result<Db> {
    match c
    case Start(tenantId, vehicleId, userId, newId) => AfterStartTrip(db, vehicleId, tenantId, userId, now, newId)
    case End(tenantId, id, userId, costs, role) => AfterEndTrip(db, id, tenantId, userId, costs, role, now)
    case Update(tenantId, id, costs) => AfterUpdateTrip(db, id, tenantId, costs)
  }

  lemma CallWrites(db: Db, c: Call, now: Time, after: Db)
    requires Outcome(db, c, now) == Ok(after)
    ensures after == db.(trips := after.trips, vehicles := after.vehicles, drivers := after.drivers)
  {
    match c
    case Start(_, _, _, _) =>
    case End(_, _, _, _, _) =>
    case Update(_, _, _) =>
  }

  /** A trip call changes nothing of a vehicle but its status, and nothing of a driver but the flag. */
  lemma CallKeepsOwners(db: Db, c: Call, now: Time, after: Db)
    requires Outcome(db, c, now) == Ok(after)
    ensures after.vehicles.Keys == db.vehicles.Keys && after.drivers.Keys == db.drivers.Keys
    ensures forall v :: v in db.vehicles ==> after.vehicles[v] == db.vehicles[v].(status := after.vehicles[v].status)
    ensures forall d :: d in db.drivers ==>
      after.drivers[d] == db.drivers[d].(isAvailable := after.drivers[d].isAvailable)
  {
    match c
    case Start(_, _, _, _) =>
    case End(_, _, _, _, _) =>
    case Update(_, _, _) =>
  }

  class TripsService {
    const prisma: Database

    constructor (prisma: Database)
      ensures this.prisma == prisma
    {
      this.prisma := prisma;
    }

    method FindDriver(userId: Id, tenantId: Id) returns (driver: Option<Id>)
      requires prisma.Valid()
      ensures driver == DriverOf(prisma.drivers, userId, tenantId)
    {
      var drivers := prisma.drivers;
      if i :| i in drivers && LinkedTo(drivers[i], userId, tenantId) {
        return Some(i);
      }
      return None;
    }

    method StartTrip(vehicleId: Id, tenantId: Id, userId: Id, now: Time, newId: Id) returns (r: Result<()>)
      requires prisma.Valid()
      modifies prisma`trips, prisma`vehicles, prisma`drivers
      ensures prisma.Valid()
      ensures Realises(
        AfterStartTrip(old(prisma.Snapshot()), vehicleId, tenantId, userId, now, newId),
        old(prisma.Snapshot()), prisma.Snapshot(), r)
    {
      var driver := FindDriver(userId, tenantId);
      if driver.None? {
        return Err(Forbidden);
      }
      var driverId := driver.value;
      if !MayDrive(prisma.assignments, driverId, vehicleId, now) {
        return Err(Forbidden);
      }
      if !LiveVehicle(prisma.vehicles, tenantId, vehicleId) {
        return Err(NotFound);
      }
      var vehicle := prisma.vehicles[vehicleId];
      if vehicle.status != AVAILABLE {
        return Err(BadRequest);
      }
      if TripInProgress(prisma.trips, vehicleId, tenantId) {
        return Err(BadRequest);
      }
      if newId in prisma.trips {
        return Err(UniqueIndex);
      }
      prisma.trips := prisma.trips[newId := Trip(tenantId, vehicleId, driverId, now, None, 0, 0, 0, 0, None)];
      prisma.vehicles := prisma.vehicles[vehicleId := vehicle.(status := ON_TRIP)];
      prisma.drivers := prisma.drivers[driverId := prisma.drivers[driverId].(isAvailable := false)];
      return Ok(());
    }

    method EndTrip(tripId: Id, tenantId: Id, userId: Id, dto: UpdateTrip, role: Role, now: Time) returns (r: Result<()>)
      requires prisma.Valid()
      modifies prisma`trips, prisma`vehicles, prisma`drivers
      ensures prisma.Valid()
      ensures Realises(
        AfterEndTrip(old(prisma.Snapshot()), tripId, tenantId, userId, dto, role, now),
        old(prisma.Snapshot()), prisma.Snapshot(), r)
    {
      if !LiveTrip(prisma.trips, tenantId, tripId) {
        return Err(NotFound);
      }
      var trip := prisma.trips[tripId];
      if trip.endTime.Some? {
        return Err(BadRequest);
      }
      if role == DRIVER {
        var driver := FindDriver(userId, tenantId);
        if driver != Some(trip.driverId) {
          return Err(Forbidden);
        }
      }
      if NullCost(dto) {
        return Err(NotNull);
      }
      if trip.vehicleId !in prisma.vehicles || trip.driverId !in prisma.drivers {
        return Err(NotFound);
      }
      prisma.trips := prisma.trips[tripId := Costed(trip, dto).(endTime := Some(now))];
      prisma.vehicles := prisma.vehicles[trip.vehicleId := prisma.vehicles[trip.vehicleId].(status := AVAILABLE)];
      prisma.drivers := prisma.drivers[trip.driverId := prisma.drivers[trip.driverId].(isAvailable := true)];
      return Ok(());
    }

    method Update(tripId: Id, tenantId: Id, dto: UpdateTrip) returns (r: Result<()>)
      modifies prisma`trips
      ensures Realises(
        AfterUpdateTrip(old(prisma.Snapshot()), tripId, tenantId, dto),
        old(prisma.Snapshot()), prisma.Snapshot(), r)
    {
      if !LiveTrip(prisma.trips, tenantId, tripId) {
        return Err(NotFound);
      }
      if NullCost(dto) {
        return Err(NotNull);
      }
      prisma.trips := prisma.trips[tripId := Costed(prisma.trips[tripId], dto)];
      return Ok(());
    }
  }
}
