/** What the availability oracle means, told by the columns of the rows and the instants of the range. */
module AvailabilityEffects {
  import opened Common
  import opened Schema
  import opened Scheduling

  /** The instant lies in a range that includes its start but not its end; without an end it goes on for ever. */
  predicate Holds(start: Time, end: Option<Time>, x: Time) {
    start <= x && (end.Some? ==> x < end.value)
  }

  /**
   * The range from `start` to `end` takes an instant of `from`..`to`, or has no instant of its own
   * and lies strictly inside.
   */
  ghost predicate Takes(start: Time, end: Option<Time>, from: Time, to: Time) {
    || (exists x: Time :: from <= x < to && Holds(start, end, x))
    || (end.Some? && from < end.value <= start < to)
  }

  lemma TakesIsOverlap(start: Time, end: Option<Time>, from: Time, to: Time)
    requires from < to
    ensures Takes(start, end, from, to) <==> start < to && (end.None? || from < end.value)
  {
    var x := if start < from then from else start;
    if start < to && (end.None? || from < end.value) && (end.None? || start < end.value) {
      assert from <= x < to && Holds(start, end, x);
    }
  }

  /** A PENDING or CONFIRMED booking of the vehicle and tenant that is not deleted takes part of the range. */
  ghost predicate BookingTakes(b: Booking, vehicleId: Id, tenantId: Id, from: Time, to: Time) {
    && b.vehicleId == vehicleId && b.tenantId == tenantId && b.deletedAt == None
    && (b.status == PENDING || b.status == CONFIRMED)
    && Takes(b.startDate, Some(b.endDate), from, to)
  }

  ghost predicate TripTakesVehicle(t: Trip, vehicleId: Id, tenantId: Id, from: Time, to: Time) {
    && t.vehicleId == vehicleId && t.tenantId == tenantId && t.deletedAt == None
    && Takes(t.startTime, t.endTime, from, to)
  }

  ghost predicate TripTakesDriver(t: Trip, driverId: Id, tenantId: Id, from: Time, to: Time) {
    && t.driverId == driverId && t.tenantId == tenantId && t.deletedAt == None
    && Takes(t.startTime, t.endTime, from, to)
  }

  ghost predicate AssignmentTakes(a: Assignment, driverId: Id, from: Time, to: Time) {
    a.driverId == driverId && a.deletedAt == None && Takes(a.startDate, a.endDate, from, to)
  }

  predicate LogFalls(m: MaintenanceLog, vehicleId: Id, tenantId: Id, from: Time, to: Time) {
    m.vehicleId == vehicleId && m.tenantId == tenantId && m.deletedAt == None && from <= m.date <= to
  }

  /** Something takes the vehicle in the range. */
  ghost predicate VehicleTaken(db: Db, vehicleId: Id, tenantId: Id, from: Time, to: Time) {
    || (exists i :: i in db.bookings && BookingTakes(db.bookings[i], vehicleId, tenantId, from, to))
    || (exists i :: i in db.trips && TripTakesVehicle(db.trips[i], vehicleId, tenantId, from, to))
    || (vehicleId in db.vehicles && db.vehicles[vehicleId].status == MAINTENANCE)
    || (exists i :: i in db.maintenanceLogs && LogFalls(db.maintenanceLogs[i], vehicleId, tenantId, from, to))
  }

  /** Something takes the driver in the range; assignments count whichever tenant made them. */
  ghost predicate DriverTaken(db: Db, driverId: Id, tenantId: Id, from: Time, to: Time) {
    || (exists i :: i in db.assignments && AssignmentTakes(db.assignments[i], driverId, from, to))
    || (exists i :: i in db.trips && TripTakesDriver(db.trips[i], driverId, tenantId, from, to))
  }

  /** For all tables: a vehicle is available exactly when nothing takes it. */
  lemma VehicleAvailableMeans(db: Db, vehicleId: Id, tenantId: Id, from: Time, to: Time)
    requires from < to
    ensures VehicleAvailable(db, vehicleId, tenantId, from, to) <==> !VehicleTaken(db, vehicleId, tenantId, from, to)
  {
    forall i | i in db.bookings
      ensures BookingTakes(db.bookings[i], vehicleId, tenantId, from, to)
        <==> BookingBlocks(db.bookings[i], vehicleId, tenantId, from, to)
    {
      TakesIsOverlap(db.bookings[i].startDate, Some(db.bookings[i].endDate), from, to);
    }
    forall i | i in db.trips
      ensures TripTakesVehicle(db.trips[i], vehicleId, tenantId, from, to)
        <==> db.trips[i].vehicleId == vehicleId && TripOverlaps(db.trips[i], tenantId, from, to)
    {
      TakesIsOverlap(db.trips[i].startTime, db.trips[i].endTime, from, to);
    }
    forall i | i in db.maintenanceLogs
      ensures LogFalls(db.maintenanceLogs[i], vehicleId, tenantId, from, to)
        <==> MaintenanceFalls(db.maintenanceLogs[i], vehicleId, tenantId, from, to)
    {
    }
  }

  /** For all tables: a driver is available exactly when no assignment and no trip takes the driver. */
  lemma DriverAvailableMeans(db: Db, driverId: Id, tenantId: Id, from: Time, to: Time)
    requires from < to
    ensures DriverAvailable(db, driverId, tenantId, from, to) <==> !DriverTaken(db, driverId, tenantId, from, to)
  {
    forall i | i in db.assignments
      ensures AssignmentTakes(db.assignments[i], driverId, from, to) <==>
        AssignmentBlocks(db.assignments[i], driverId, from, to)
    {
      TakesIsOverlap(db.assignments[i].startDate, db.assignments[i].endDate, from, to);
    }
    forall i | i in db.trips
      ensures TripTakesDriver(db.trips[i], driverId, tenantId, from, to)
        <==> db.trips[i].driverId == driverId && TripOverlaps(db.trips[i], tenantId, from, to)
    {
      TakesIsOverlap(db.trips[i].startTime, db.trips[i].endTime, from, to);
    }
  }

  /** A vehicle on a running trip that began before the range ends is never available, nor is the driver. */
  lemma RunningTripTakesBoth(db: Db, id: Id, tenantId: Id, from: Time, to: Time)
    requires id in db.trips && db.trips[id].tenantId == tenantId && db.trips[id].deletedAt == None
    requires db.trips[id].endTime == None && db.trips[id].startTime < to
    ensures !VehicleAvailable(db, db.trips[id].vehicleId, tenantId, from, to)
    ensures !DriverAvailable(db, db.trips[id].driverId, tenantId, from, to)
  {
    assert TripOverlaps(db.trips[id], tenantId, from, to);
  }
}
