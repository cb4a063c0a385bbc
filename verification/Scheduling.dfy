/** src/scheduling: the availability oracle shared by booking creation and re-assignment. */
module Scheduling {
  import opened Common
  import opened Intervals
  import opened Schema

  /** Why a vehicle or a driver is not available; the message texts are not modelled. */
  datatype Reason =
    | BookingOverlap
    | TripOverlap
    | UnderMaintenance
    | MaintenanceScheduled
    | AssignmentOverlap

  /** A booking that holds its vehicle. */
  predicate Active(b: Booking) {
    b.deletedAt.None? && (b.status == PENDING || b.status == CONFIRMED)
  }

  predicate BookingBlocks(b: Booking, vehicleId: Id, tenantId: Id, from: Time, to: Time) {
    && b.vehicleId == vehicleId && b.tenantId == tenantId && Active(b)
    && Overlaps(b.startDate, b.endDate, from, to)
  }

  predicate TripOverlaps(t: Trip, tenantId: Id, from: Time, to: Time) {
    t.tenantId == tenantId && t.deletedAt.None? && OpenOverlaps(t.startTime, t.endTime, from, to)
  }

  predicate MaintenanceFalls(m: MaintenanceLog, vehicleId: Id, tenantId: Id, from: Time, to: Time) {
    m.vehicleId == vehicleId && m.tenantId == tenantId && m.deletedAt.None? && from <= m.date <= to
  }

  predicate AssignmentBlocks(a: Assignment, driverId: Id, from: Time, to: Time) {
    a.driverId == driverId && a.deletedAt.None? && OpenOverlaps(a.startDate, a.endDate, from, to)
  }

  predicate BookingConflict(bookings: map<Id, Booking>, vehicleId: Id, tenantId: Id, from: Time, to: Time) {
    exists i :: i in bookings && BookingBlocks(bookings[i], vehicleId, tenantId, from, to)
  }

  predicate VehicleTripConflict(trips: map<Id, Trip>, vehicleId: Id, tenantId: Id, from: Time, to: Time) {
    exists i :: i in trips && trips[i].vehicleId == vehicleId && TripOverlaps(trips[i], tenantId, from, to)
  }

  /** The status looked up by id alone, whichever tenant owns the vehicle. */
  predicate InMaintenance(vehicles: map<Id, Vehicle>, vehicleId: Id) {
    vehicleId in vehicles && vehicles[vehicleId].status == MAINTENANCE
  }

  predicate MaintenanceConflict(maintenanceLogs: map<Id, MaintenanceLog>, vehicleId: Id, tenantId: Id, from: Time,
    to: Time) {
    exists i :: i in maintenanceLogs && MaintenanceFalls(maintenanceLogs[i], vehicleId, tenantId, from, to)
  }

  predicate AssignmentConflict(assignments: map<Id, Assignment>, driverId: Id, from: Time, to: Time) {
    exists i :: i in assignments && AssignmentBlocks(assignments[i], driverId, from, to)
  }

  predicate DriverTripConflict(trips: map<Id, Trip>, driverId: Id, tenantId: Id, from: Time, to: Time) {
    exists i :: i in trips && trips[i].driverId == driverId && TripOverlaps(trips[i], tenantId, from, to)
  }

  /** Nothing blocks the vehicle in the range: no active booking, no trip, no maintenance. */
  predicate VehicleAvailable(db: Db, vehicleId: Id, tenantId: Id, from: Time, to: Time) {
    && !BookingConflict(db.bookings, vehicleId, tenantId, from, to)
    && !VehicleTripConflict(db.trips, vehicleId, tenantId, from, to)
    && !InMaintenance(db.vehicles, vehicleId)
    && !MaintenanceConflict(db.maintenanceLogs, vehicleId, tenantId, from, to)
  }

  predicate DriverAvailable(db: Db, driverId: Id, tenantId: Id, from: Time, to: Time) {
    && !AssignmentConflict(db.assignments, driverId, from, to)
    && !DriverTripConflict(db.trips, driverId, tenantId, from, to)
  }

  class SchedulingService {
    const prisma: Database

    constructor (prisma: Database)
      ensures this.prisma == prisma
    {
      this.prisma := prisma;
    }

    method CheckVehicleAvailability(vehicleId: Id, tenantId: Id, startDate: Time, endDate: Time)
      returns (available: bool, reasons: seq<Reason>)
      ensures available <==> VehicleAvailable(prisma.Snapshot(), vehicleId, tenantId, startDate, endDate)
      ensures available <==> reasons == []
      ensures BookingOverlap in reasons <==> BookingConflict(prisma.bookings, vehicleId, tenantId, startDate, endDate)
      ensures TripOverlap in reasons <==> VehicleTripConflict(prisma.trips, vehicleId, tenantId, startDate, endDate)
      ensures UnderMaintenance in reasons <==> InMaintenance(prisma.vehicles, vehicleId)
      ensures MaintenanceScheduled in reasons <==>
        !InMaintenance(prisma.vehicles, vehicleId)
          && MaintenanceConflict(prisma.maintenanceLogs, vehicleId, tenantId, startDate, endDate)
      ensures AssignmentOverlap !in reasons
      ensures forall i, j :: 0 <= i < j < |reasons| ==> reasons[i] != reasons[j]
    {
      reasons := [];
      if BookingConflict(prisma.bookings, vehicleId, tenantId, startDate, endDate) {
        reasons := reasons + [BookingOverlap];
      }
      if VehicleTripConflict(prisma.trips, vehicleId, tenantId, startDate, endDate) {
        reasons := reasons + [TripOverlap];
      }
      if InMaintenance(prisma.vehicles, vehicleId) {
        reasons := reasons + [UnderMaintenance];
      } else {
        if MaintenanceConflict(prisma.maintenanceLogs, vehicleId, tenantId, startDate, endDate) {
          reasons := reasons + [MaintenanceScheduled];
        }
      }
      available := |reasons| == 0;
    }

    method CheckDriverAvailability(driverId: Id, tenantId: Id, startDate: Time, endDate: Time)
      returns (available: bool, reasons: seq<Reason>)
      ensures available <==> DriverAvailable(prisma.Snapshot(), driverId, tenantId, startDate, endDate)
      ensures available <==> reasons == []
      ensures AssignmentOverlap in reasons <==> AssignmentConflict(prisma.assignments, driverId, startDate, endDate)
      ensures TripOverlap in reasons <==> DriverTripConflict(prisma.trips, driverId, tenantId, startDate, endDate)
      ensures forall r :: r in reasons ==> r == AssignmentOverlap || r == TripOverlap
      ensures forall i, j :: 0 <= i < j < |reasons| ==> reasons[i] != reasons[j]
    {
      reasons := [];
      if AssignmentConflict(prisma.assignments, driverId, startDate, endDate) {
        reasons := reasons + [AssignmentOverlap];
      }
      if DriverTripConflict(prisma.trips, driverId, tenantId, startDate, endDate) {
        reasons := reasons + [TripOverlap];
      }
      available := |reasons| == 0;
    }
  }

  // ── Algebra of the oracle ──────────────────────────────────────────────────

  /** A vehicle available for a range is available for every part of it. */
  lemma AvailabilityInherited(db: Db, vehicleId: Id, tenantId: Id, from: Time, to: Time, innerFrom: Time, innerTo: Time)
    requires VehicleAvailable(db, vehicleId, tenantId, from, to)
    requires from <= innerFrom && innerTo <= to
    ensures VehicleAvailable(db, vehicleId, tenantId, innerFrom, innerTo)
  {
    forall i | i in db.bookings && BookingBlocks(db.bookings[i], vehicleId, tenantId, innerFrom, innerTo)
      ensures BookingBlocks(db.bookings[i], vehicleId, tenantId, from, to)
    {
    }
    forall i | i in db.trips && TripOverlaps(db.trips[i], tenantId, innerFrom, innerTo)
      ensures TripOverlaps(db.trips[i], tenantId, from, to)
    {
    }
  }

  /** A booking or trip of this vehicle with no positive length that blocks `from`..`to` but neither half at `mid`. */
  predicate SlipsThrough(start: Time, end: Option<Time>, from: Time, mid: Time, to: Time) {
    OpenOverlaps(start, end, from, to) && end.Some? && end.value <= mid <= start
  }

  predicate DegenerateAt(db: Db, vehicleId: Id, tenantId: Id, from: Time, mid: Time, to: Time) {
    || (exists i :: i in db.bookings && BookingBlocks(db.bookings[i], vehicleId, tenantId, from, to)
          && SlipsThrough(db.bookings[i].startDate, Some(db.bookings[i].endDate), from, mid, to))
    || (exists i :: i in db.trips && db.trips[i].vehicleId == vehicleId && TripOverlaps(db.trips[i], tenantId, from, to)
          && SlipsThrough(db.trips[i].startTime, db.trips[i].endTime, from, mid, to))
  }

  lemma BookingConflictSplits(db: Db, vehicleId: Id, tenantId: Id, from: Time, mid: Time, to: Time)
    requires from < mid < to
    ensures BookingConflict(db.bookings, vehicleId, tenantId, from, to) <==>
      || BookingConflict(db.bookings, vehicleId, tenantId, from, mid)
      || BookingConflict(db.bookings, vehicleId, tenantId, mid, to)
      || (exists i :: i in db.bookings && BookingBlocks(db.bookings[i], vehicleId, tenantId, from, to)
            && SlipsThrough(db.bookings[i].startDate, Some(db.bookings[i].endDate), from, mid, to))
  {
    forall i | i in db.bookings
      ensures BookingBlocks(db.bookings[i], vehicleId, tenantId, from, to) <==>
        || BookingBlocks(db.bookings[i], vehicleId, tenantId, from, mid)
        || BookingBlocks(db.bookings[i], vehicleId, tenantId, mid, to)
        || (BookingBlocks(db.bookings[i], vehicleId, tenantId, from, to)
            && SlipsThrough(db.bookings[i].startDate, Some(db.bookings[i].endDate), from, mid, to))
    {
    }
  }

  lemma TripConflictSplits(db: Db, vehicleId: Id, tenantId: Id, from: Time, mid: Time, to: Time)
    requires from < mid < to
    ensures VehicleTripConflict(db.trips, vehicleId, tenantId, from, to) <==>
      || VehicleTripConflict(db.trips, vehicleId, tenantId, from, mid)
      || VehicleTripConflict(db.trips, vehicleId, tenantId, mid, to)
      || (exists i ::
            && i in db.trips && db.trips[i].vehicleId == vehicleId
            && TripOverlaps(db.trips[i], tenantId, from, to)
            && SlipsThrough(db.trips[i].startTime, db.trips[i].endTime, from, mid, to))
  {
    forall i | i in db.trips
      ensures TripOverlaps(db.trips[i], tenantId, from, to) <==>
        || TripOverlaps(db.trips[i], tenantId, from, mid)
        || TripOverlaps(db.trips[i], tenantId, mid, to)
        || (TripOverlaps(db.trips[i], tenantId, from, to)
            && SlipsThrough(db.trips[i].startTime, db.trips[i].endTime, from, mid, to))
    {
    }
  }

  lemma MaintenanceConflictSplits(db: Db, vehicleId: Id, tenantId: Id, from: Time, mid: Time, to: Time)
    requires from < mid < to
    ensures MaintenanceConflict(db.maintenanceLogs, vehicleId, tenantId, from, to) <==>
      || MaintenanceConflict(db.maintenanceLogs, vehicleId, tenantId, from, mid)
      || MaintenanceConflict(db.maintenanceLogs, vehicleId, tenantId, mid, to)
  {
    forall i | i in db.maintenanceLogs
      ensures MaintenanceFalls(db.maintenanceLogs[i], vehicleId, tenantId, from, to) <==>
        || MaintenanceFalls(db.maintenanceLogs[i], vehicleId, tenantId, from, mid)
        || MaintenanceFalls(db.maintenanceLogs[i], vehicleId, tenantId, mid, to)
    {
    }
  }

  /**
   * For all tables whatsoever: a range is available exactly when both halves of an interior
   * split are and no degenerate booking or trip slips between the halves.
   */
  lemma AvailabilitySplits(db: Db, vehicleId: Id, tenantId: Id, from: Time, mid: Time, to: Time)
    requires from < mid < to
    ensures VehicleAvailable(db, vehicleId, tenantId, from, to) <==>
      && VehicleAvailable(db, vehicleId, tenantId, from, mid)
      && VehicleAvailable(db, vehicleId, tenantId, mid, to)
      && !DegenerateAt(db, vehicleId, tenantId, from, mid, to)
  {
    BookingConflictSplits(db, vehicleId, tenantId, from, mid, to);
    TripConflictSplits(db, vehicleId, tenantId, from, mid, to);
    MaintenanceConflictSplits(db, vehicleId, tenantId, from, mid, to);
  }

  /**
   * With bookings of positive length and trips that do not end before they start, only a zero-length
   * trip at the split point slips through.
   */
  lemma OnlyZeroLengthTripsSlip(db: Db, vehicleId: Id, tenantId: Id, from: Time, mid: Time, to: Time)
    requires from < mid < to
    requires forall i :: i in db.bookings ==> db.bookings[i].startDate < db.bookings[i].endDate
    requires forall i :: i in db.trips ==> NonEmpty(db.trips[i].startTime, db.trips[i].endTime)
    ensures DegenerateAt(db, vehicleId, tenantId, from, mid, to) <==>
      exists i :: i in db.trips && db.trips[i].vehicleId == vehicleId && db.trips[i].tenantId == tenantId
        && db.trips[i].deletedAt.None? && db.trips[i].startTime == mid && db.trips[i].endTime == Some(mid)
  {
    forall i | i in db.trips && db.trips[i].tenantId == tenantId && db.trips[i].deletedAt.None?
      ensures
        (TripOverlaps(db.trips[i], tenantId, from, to)
          && SlipsThrough(db.trips[i].startTime, db.trips[i].endTime, from, mid, to))
        <==> (db.trips[i].startTime == mid && db.trips[i].endTime == Some(mid))
    {
    }
  }
}
