/** What holds of trips, vehicle statuses and driver flags in every run of the system. */
module TripRuns {
  import opened Common
  import opened Schema
  import opened System
  import opened Clock
  import Trips
  import Vehicles
  import Drivers
  import Branches

  // ── Trips of one vehicle never overlap ─────────────────────────────────────

  /** The trip was over when the other one started. */
  predicate Before(a: Trip, b: Trip) {
    a.endTime.Some? && a.endTime.value <= b.startTime
  }

  predicate Running(t: Trip) {
    t.endTime.None?
  }

  /** Any two trips of one vehicle are disjoint in time. */
  ghost predicate TripsDisjoint(trips: map<Id, Trip>) {
    forall i, j :: i in trips && j in trips && i != j && trips[i].vehicleId == trips[j].vehicleId ==>
      Before(trips[i], trips[j]) || Before(trips[j], trips[i])
  }

  /** Every trip names a vehicle and a driver of its own tenant. */
  ghost predicate OneTenant(trips: map<Id, Trip>, vehicles: map<Id, Vehicle>, drivers: map<Id, Driver>) {
    forall i :: i in trips ==>
      && trips[i].vehicleId in vehicles && vehicles[trips[i].vehicleId].tenantId == trips[i].tenantId
      && trips[i].driverId in drivers && drivers[trips[i].driverId].tenantId == trips[i].tenantId
  }

  /** Trips lie in the past, do not end before they start, and are never deleted. */
  ghost predicate Dated(trips: map<Id, Trip>, clock: Time) {
    forall i :: i in trips ==>
      && trips[i].startTime <= clock
      && (trips[i].endTime.Some? ==> trips[i].startTime <= trips[i].endTime.value <= clock)
      && trips[i].deletedAt.None?
  }

  ghost predicate TripLedger(db: Db, clock: Time) {
    OneTenant(db.trips, db.vehicles, db.drivers) && Dated(db.trips, clock) && TripsDisjoint(db.trips)
  }

  /** A patch moves a vehicle into or out of ON_TRIP. */
  ghost predicate MovesByHand(db: Db, op: Op) {
    op.OnVehicles? && Vehicles.MovesOnTrip(db.vehicles, op.vehicle)
  }

  predicate LeavesDuty(op: Op) {
    op.OnDrivers? ==> !Drivers.TakesOffDuty(op.driver)
  }

  /** A patch takes off duty a driver who is not on the road. */
  ghost predicate RestsAtHome(db: Db, op: Op) {
    !LeavesDuty(op) && !DriverHasRunningTrip(db.trips, op.driver.id)
  }

  /** Everything a call outside the trip service leaves alone. */
  lemma OtherCallsKeepTrips(db: Db, e: Event, after: Db)
    requires !e.op.OnTrips? && Outcome(db, e) == Ok(after)
    ensures after.trips == db.trips
    ensures Vehicles.RowsStay(db.vehicles, after.vehicles, MovesByHand(db, e.op))
    ensures Drivers.RowsStay(db.drivers, after.drivers, !LeavesDuty(e.op))
  {
    CallWrites(db, e, after);
    if e.op.OnVehicles? {
      Vehicles.CallKeepsRows(db, e.op.vehicle, e.now, after);
    } else if e.op.OnDrivers? {
      Drivers.CallKeepsRows(db, e.op.driver, e.now, after);
    } else if e.op.OnBranches? {
      Branches.CallKeepsRows(db, e.op.branch, e.now, after);
    }
  }

  /** Starting adds a running trip of a vehicle none of whose trips was running. */
  lemma StartKeepsLedger(db: Db, clock: Time, c: Trips.Call, now: Time)
    requires TripLedger(db, clock) && clock <= now && c.Start? && Trips.Outcome(db, c, now).Ok?
    ensures TripLedger(Trips.Outcome(db, c, now).value, now)
  {
    var after := Trips.Outcome(db, c, now).value;
    forall i | i in db.trips && db.trips[i].vehicleId == c.vehicleId
      ensures Before(db.trips[i], after.trips[c.newId])
    {
      assert db.trips[i].tenantId == c.tenantId;
    }
  }

  lemma EndKeepsLedger(db: Db, clock: Time, c: Trips.Call, now: Time)
    requires TripLedger(db, clock) && clock <= now && c.End? && Trips.Outcome(db, c, now).Ok?
    ensures TripLedger(Trips.Outcome(db, c, now).value, now)
  {
    var after := Trips.Outcome(db, c, now).value;
    forall i | i in db.trips && i != c.id && db.trips[i].vehicleId == db.trips[c.id].vehicleId
      ensures Before(after.trips[i], after.trips[c.id])
    {
      assert Before(db.trips[i], db.trips[c.id]);
    }
  }

  lemma TripCallKeepsLedger(db: Db, clock: Time, c: Trips.Call, now: Time)
    requires TripLedger(db, clock) && clock <= now
    ensures TripLedger(Settle(db, Trips.Outcome(db, c, now)), now)
  {
    if Trips.Outcome(db, c, now).Ok? {
      match c
      case Start(_, _, _, _) => StartKeepsLedger(db, clock, c, now);
      case End(_, _, _, _, _) => EndKeepsLedger(db, clock, c, now);
      case Update(_, _, _) =>
    }
  }

  lemma StepKeepsLedger(db: Db, clock: Time, e: Event)
    requires TripLedger(db, clock) && clock <= e.now
    ensures TripLedger(Step(db, e), e.now)
  {
    if e.op.OnTrips? {
      TripCallKeepsLedger(db, clock, e.op.trip, e.now);
    } else if Outcome(db, e).Ok? {
      OtherCallsKeepTrips(db, e, Step(db, e));
    }
  }

  lemma {:induction false} RunKeepsLedger(db: Db, clock: Time, events: seq<Event>)
    requires TripLedger(db, clock) && Timely(clock, events, AT)
    ensures TripLedger(Run(db, events), LastInstant(clock, events, AT))
    decreases |events|
  {
    if events != [] {
      StepKeepsLedger(db, clock, events[0]);
      assert LastInstant(events[0].now, events[1..], AT) == LastInstant(clock, events, AT);
      RunKeepsLedger(Step(db, events[0]), events[0].now, events[1..]);
    }
  }

  /**
   * From the empty database, whatever else is called in between: trips of a vehicle are disjoint and
   * at most one is running.
   */
  lemma TripsNeverOverlap(clock: Time, events: seq<Event>, i: Id, j: Id)
    requires Timely(clock, events, AT)
    requires i in Run(EMPTY_DB, events).trips && j in Run(EMPTY_DB, events).trips && i != j
    requires Run(EMPTY_DB, events).trips[i].vehicleId == Run(EMPTY_DB, events).trips[j].vehicleId
    ensures var trips := Run(EMPTY_DB, events).trips;
      && (Before(trips[i], trips[j]) || Before(trips[j], trips[i]))
      && !(Running(trips[i]) && Running(trips[j]))
  {
    RunKeepsLedger(EMPTY_DB, clock, events);
  }

  // ── Statuses mirror trips ──────────────────────────────────────────────────

  ghost predicate HasRunningTrip(trips: map<Id, Trip>, vehicleId: Id) {
    exists i :: i in trips && trips[i].vehicleId == vehicleId && Running(trips[i])
  }

  ghost predicate DriverHasRunningTrip(trips: map<Id, Trip>, driverId: Id) {
    exists i :: i in trips && trips[i].driverId == driverId && Running(trips[i])
  }

  /** A vehicle, deleted or not, is ON_TRIP exactly while one of its trips is running. */
  ghost predicate StatusMirrors(trips: map<Id, Trip>, vehicles: map<Id, Vehicle>) {
    forall v :: v in vehicles ==> (vehicles[v].status == ON_TRIP <==> HasRunningTrip(trips, v))
  }

  /** A driver who is not available is on the road. */
  ghost predicate BusyDrivers(trips: map<Id, Trip>, drivers: map<Id, Driver>) {
    forall d :: d in drivers && !drivers[d].isAvailable ==> DriverHasRunningTrip(trips, d)
  }

  ghost predicate Mirrors(db: Db) {
    StatusMirrors(db.trips, db.vehicles)
  }

  ghost predicate Busy(db: Db) {
    BusyDrivers(db.trips, db.drivers)
  }

  /** Replacing or adding one trip changes nothing for the vehicles and drivers that are not in it. */
  lemma OtherTripsCount(trips: map<Id, Trip>, id: Id, t: Trip)
    requires id in trips ==> trips[id].vehicleId == t.vehicleId && trips[id].driverId == t.driverId
    ensures forall v :: v != t.vehicleId ==> (HasRunningTrip(trips[id := t], v) <==> HasRunningTrip(trips, v))
    ensures forall d :: d != t.driverId ==>
      (DriverHasRunningTrip(trips[id := t], d) <==> DriverHasRunningTrip(trips, d))
  {
    var after := trips[id := t];
    forall v | v != t.vehicleId
      ensures HasRunningTrip(after, v) <==> HasRunningTrip(trips, v)
    {
      forall i | i in trips && trips[i].vehicleId == v && Running(trips[i])
        ensures after[i] == trips[i]
      {
      }
    }
    forall d | d != t.driverId
      ensures DriverHasRunningTrip(after, d) <==> DriverHasRunningTrip(trips, d)
    {
      forall i | i in trips && trips[i].driverId == d && Running(trips[i])
        ensures after[i] == trips[i]
      {
      }
    }
  }

  lemma StartMirrors(db: Db, c: Trips.Call, now: Time)
    requires c.Start? && Trips.Outcome(db, c, now).Ok?
    ensures Mirrors(db) ==> Mirrors(Trips.Outcome(db, c, now).value)
    ensures Busy(db) ==> Busy(Trips.Outcome(db, c, now).value)
  {
    var after := Trips.Outcome(db, c, now).value;
    OtherTripsCount(db.trips, c.newId, after.trips[c.newId]);
    assert Running(after.trips[c.newId]);
  }

  /** Uses that the ended trip was the only running one of its vehicle. */
  lemma EndMirrors(db: Db, clock: Time, c: Trips.Call, now: Time)
    requires TripLedger(db, clock) && c.End? && Trips.Outcome(db, c, now).Ok?
    ensures Mirrors(db) ==> Mirrors(Trips.Outcome(db, c, now).value)
    ensures Busy(db) ==> Busy(Trips.Outcome(db, c, now).value)
  {
    var after := Trips.Outcome(db, c, now).value;
    OtherTripsCount(db.trips, c.id, after.trips[c.id]);
    forall i | i in after.trips && after.trips[i].vehicleId == db.trips[c.id].vehicleId
      ensures !Running(after.trips[i])
    {
      if i != c.id {
        assert Before(db.trips[i], db.trips[c.id]);
      }
    }
  }

  lemma UpdateMirrors(db: Db, c: Trips.Call, now: Time)
    requires c.Update? && Trips.Outcome(db, c, now).Ok?
    ensures Mirrors(db) ==> Mirrors(Trips.Outcome(db, c, now).value)
    ensures Busy(db) ==> Busy(Trips.Outcome(db, c, now).value)
  {
    var after := Trips.Outcome(db, c, now).value;
    OtherTripsCount(db.trips, c.id, after.trips[c.id]);
    forall i | i in db.trips
      ensures Running(after.trips[i]) == Running(db.trips[i])
      ensures after.trips[i].vehicleId == db.trips[i].vehicleId && after.trips[i].driverId == db.trips[i].driverId
    {
    }
    var v, d := db.trips[c.id].vehicleId, db.trips[c.id].driverId;
    assert HasRunningTrip(after.trips, v) <==> HasRunningTrip(db.trips, v);
    assert DriverHasRunningTrip(after.trips, d) <==> DriverHasRunningTrip(db.trips, d);
  }

  lemma TripCallMirrors(db: Db, clock: Time, c: Trips.Call, now: Time)
    requires TripLedger(db, clock) && Trips.Outcome(db, c, now).Ok?
    ensures Mirrors(db) ==> Mirrors(Trips.Outcome(db, c, now).value)
    ensures Busy(db) ==> Busy(Trips.Outcome(db, c, now).value)
  {
    match c
    case Start(_, _, _, _) => StartMirrors(db, c, now);
    case End(_, _, _, _, _) => EndMirrors(db, clock, c, now);
    case Update(_, _, _) => UpdateMirrors(db, c, now);
  }

  /** The condition is exact: a vehicle call keeps the mirror if and only if it makes no such move. */
  lemma HandMoveBreaksMirror(db: Db, c: Vehicles.Call, now: Time, after: Db)
    requires OneTenant(db.trips, db.vehicles, db.drivers) && Mirrors(db) && Vehicles.Outcome(db, c, now) == Ok(after)
    ensures Mirrors(after) <==> !Vehicles.MovesOnTrip(db.vehicles, c)
  {
    Vehicles.CallKeepsRows(db, c, now, after);
    if Vehicles.MovesOnTrip(db.vehicles, c) {
      assert (after.vehicles[c.id].status == ON_TRIP) != (db.vehicles[c.id].status == ON_TRIP);
    }
  }

  /** Exactly which successful calls of any service keep statuses mirroring trips. */
  lemma CallMirrorsIff(db: Db, clock: Time, e: Event, after: Db)
    requires TripLedger(db, clock) && Mirrors(db) && Outcome(db, e) == Ok(after)
    ensures Mirrors(after) <==> !MovesByHand(db, e.op)
  {
    if e.op.OnTrips? {
      TripCallMirrors(db, clock, e.op.trip, e.now);
    } else if e.op.OnVehicles? {
      HandMoveBreaksMirror(db, e.op.vehicle, e.now, after);
    } else {
      OtherCallsKeepTrips(db, e, after);
    }
  }

  /**
   * In any run of all services every state has each vehicle ON_TRIP exactly while it has a running
   * trip, if and only if no accepted patch moves one into or out of ON_TRIP.
   */
  lemma {:induction false} StatusMirrorsTrips(db: Db, clock: Time, events: seq<Event>)
    requires TripLedger(db, clock) && Mirrors(db) && Timely(clock, events, AT)
    ensures Always(db, events, Mirrors) <==> Avoids(db, events, MovesByHand)
    decreases |events|
  {
    if events != [] {
      var next := Step(db, events[0]);
      if Outcome(db, events[0]).Ok? {
        CallMirrorsIff(db, clock, events[0], next);
      }
      StepKeepsLedger(db, clock, events[0]);
      if Mirrors(next) {
        StatusMirrorsTrips(next, events[0].now, events[1..]);
      }
    }
  }

  /** Taking a driver off duty by hand keeps that claim exactly when the driver has a running trip. */
  lemma OffDutyNeedsRunningTrip(db: Db, c: Drivers.Call, now: Time, after: Db)
    requires Busy(db) && Drivers.TakesOffDuty(c) && Drivers.Outcome(db, c, now) == Ok(after)
    ensures Busy(after) <==> DriverHasRunningTrip(db.trips, c.id)
  {
    assert !after.drivers[c.id].isAvailable;
    assert forall d :: d in db.drivers && d != c.id ==> after.drivers[d] == db.drivers[d];
  }

  /** Exactly which successful calls keep unavailable drivers on the road. */
  lemma CallKeepsBusyIff(db: Db, clock: Time, e: Event, after: Db)
    requires TripLedger(db, clock) && Busy(db) && Outcome(db, e) == Ok(after)
    ensures Busy(after) <==> !RestsAtHome(db, e.op)
  {
    if e.op.OnTrips? {
      TripCallMirrors(db, clock, e.op.trip, e.now);
    } else if LeavesDuty(e.op) {
      OtherCallsKeepTrips(db, e, after);
    } else {
      OffDutyNeedsRunningTrip(db, e.op.driver, e.now, after);
    }
  }

  /**
   * In any run of all services every unavailable driver has a running trip in every state, if and
   * only if no accepted patch takes off duty a driver who has none.
   */
  lemma {:induction false} BusyDriversAreOnTheRoad(db: Db, clock: Time, events: seq<Event>)
    requires TripLedger(db, clock) && Busy(db) && Timely(clock, events, AT)
    ensures Always(db, events, Busy) <==> Avoids(db, events, RestsAtHome)
    decreases |events|
  {
    if events != [] {
      var next := Step(db, events[0]);
      if Outcome(db, events[0]).Ok? {
        CallKeepsBusyIff(db, clock, events[0], next);
      }
      StepKeepsLedger(db, clock, events[0]);
      if Busy(next) {
        BusyDriversAreOnTheRoad(next, events[0].now, events[1..]);
      }
    }
  }

  // ── When an available driver has no running trip ───────────────────────────

  /** A driver who is available has no running trip. */
  ghost predicate FreeDrivers(trips: map<Id, Trip>, drivers: map<Id, Driver>) {
    forall d :: d in drivers && drivers[d].isAvailable ==> !DriverHasRunningTrip(trips, d)
  }

  ghost predicate Free(db: Db) {
    FreeDrivers(db.trips, db.drivers)
  }

  /** The driver of the trip has another trip that is running. */
  ghost predicate OtherTripRuns(trips: map<Id, Trip>, id: Id) {
    id in trips && exists i :: i in trips && i != id && trips[i].driverId == trips[id].driverId && Running(trips[i])
  }

  /** The call makes a driver available who is still on the road: the end of one of two trips, or a patch. */
  ghost predicate ReleasesEarly(db: Db, op: Op) {
    || (op.OnTrips? && op.trip.End? && OtherTripRuns(db.trips, op.trip.id))
    || (op.OnDrivers? && op.driver.Update? && op.driver.change.isAvailable == Set(true)
        && DriverHasRunningTrip(db.trips, op.driver.id))
  }

  /** Starting a trip always keeps available drivers off the road. */
  lemma StartKeepsFree(db: Db, c: Trips.Call, now: Time, after: Db)
    requires Free(db) && c.Start? && Trips.Outcome(db, c, now) == Ok(after)
    ensures Free(after)
  {
    OtherTripsCount(db.trips, c.newId, after.trips[c.newId]);
  }

  /** Ending a trip keeps them off the road if and only if the driver has no other running trip. */
  lemma EndKeepsFreeIff(db: Db, c: Trips.Call, now: Time, after: Db)
    requires Free(db) && c.End? && Trips.Outcome(db, c, now) == Ok(after)
    ensures Free(after) <==> !OtherTripRuns(db.trips, c.id)
  {
    var d := db.trips[c.id].driverId;
    OtherTripsCount(db.trips, c.id, after.trips[c.id]);
    assert DriverHasRunningTrip(after.trips, d) <==> OtherTripRuns(db.trips, c.id) by {
      if OtherTripRuns(db.trips, c.id) {
        var i :| i in db.trips && i != c.id && db.trips[i].driverId == d && Running(db.trips[i]);
        assert after.trips[i] == db.trips[i];
      }
    }
    assert after.drivers[d].isAvailable;
  }

  lemma CostsKeepFree(db: Db, c: Trips.Call, now: Time, after: Db)
    requires Free(db) && c.Update? && Trips.Outcome(db, c, now) == Ok(after)
    ensures Free(after)
  {
    forall i | i in db.trips
      ensures Running(after.trips[i]) == Running(db.trips[i]) && after.trips[i].driverId == db.trips[i].driverId
    {
    }
  }

  /** A driver call keeps them off the road if and only if it does not make available by hand a driver on the road. */
  lemma DriverCallKeepsFreeIff(db: Db, c: Drivers.Call, now: Time, after: Db)
    requires OneTenant(db.trips, db.vehicles, db.drivers) && Free(db) && Drivers.Outcome(db, c, now) == Ok(after)
    ensures Free(after) <==> !ReleasesEarly(db, OnDrivers(c))
  {
    match c
    case Create(_, _, newId) => assert !DriverHasRunningTrip(db.trips, newId);
    case Update(_, id, change) =>
      assert after.drivers == db.drivers[id := after.drivers[id]] && after.trips == db.trips;
      if change.isAvailable == Set(true) {
        assert after.drivers[id].isAvailable;
      }
    case Remove(_, id) =>
      assert after.drivers == db.drivers[id := after.drivers[id]] && after.trips == db.trips;
  }

  lemma OtherCallKeepsFree(db: Db, e: Event, after: Db)
    requires Free(db) && !e.op.OnTrips? && !e.op.OnDrivers? && Outcome(db, e) == Ok(after)
    ensures Free(after)
  {
    CallWrites(db, e, after);
    if e.op.OnBranches? {
      Branches.CallKeepsRows(db, e.op.branch, e.now, after);
    }
  }

  /** Exactly which successful calls of any service keep every available driver off the road. */
  lemma CallKeepsFreeIff(db: Db, e: Event, after: Db)
    requires OneTenant(db.trips, db.vehicles, db.drivers) && Free(db) && Outcome(db, e) == Ok(after)
    ensures Free(after) <==> !ReleasesEarly(db, e.op)
  {
    if e.op.OnTrips? {
      match e.op.trip
      case Start(_, _, _, _) => StartKeepsFree(db, e.op.trip, e.now, after);
      case End(_, _, _, _, _) => EndKeepsFreeIff(db, e.op.trip, e.now, after);
      case Update(_, _, _) => CostsKeepFree(db, e.op.trip, e.now, after);
    } else if e.op.OnDrivers? {
      DriverCallKeepsFreeIff(db, e.op.driver, e.now, after);
    } else {
      OtherCallKeepsFree(db, e, after);
    }
  }

  /**
   * A run keeps available drivers off the road in all its states if and only if none of its calls
   * releases one early.
   */
  lemma {:induction false} DriversAlwaysFreeIff(db: Db, clock: Time, events: seq<Event>)
    requires TripLedger(db, clock) && Free(db) && Timely(clock, events, AT)
    ensures Always(db, events, Free) <==> Avoids(db, events, ReleasesEarly)
    decreases |events|
  {
    if events != [] {
      var next := Step(db, events[0]);
      if Outcome(db, events[0]).Ok? {
        CallKeepsFreeIff(db, events[0], next);
      }
      StepKeepsLedger(db, clock, events[0]);
      if Free(next) {
        DriversAlwaysFreeIff(next, events[0].now, events[1..]);
      }
    }
  }
}
