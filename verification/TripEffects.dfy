/** Which trip calls are accepted, what they store column by column, and what that does to the accounts. */
module TripEffects {
  import opened Common
  import opened Schema
  import opened Trips
  import opened Accounting
  import Intervals

  /** The driver profile of the account. */
  predicate DrivesAs(d: Driver, userId: Id, tenantId: Id) {
    d.userId == Some(userId) && d.tenantId == tenantId && d.deletedAt == None
  }

  /** A live assignment of the driver to the vehicle that has begun and has not ended at the instant. */
  predicate OnShift(a: Assignment, driverId: Id, vehicleId: Id, now: Time) {
    && a.driverId == driverId && a.vehicleId == vehicleId && a.deletedAt == None
    && a.startDate <= now && (a.endDate == None || now <= a.endDate.value)
  }

  predicate VehicleReady(db: Db, tenantId: Id, id: Id) {
    && id in db.vehicles && db.vehicles[id].tenantId == tenantId && db.vehicles[id].deletedAt == None
    && db.vehicles[id].status == AVAILABLE
  }

  /** A trip of the vehicle and tenant that has no end. */
  predicate RunsWith(t: Trip, vehicleId: Id, tenantId: Id) {
    t.vehicleId == vehicleId && t.tenantId == tenantId && t.deletedAt == None && t.endTime == None
  }

  // ── Start ──────────────────────────────────────────────────────────────────

  /** Without a driver profile nobody starts a trip. */
  lemma StrangersCannotStart(db: Db, vehicleId: Id, tenantId: Id, userId: Id, now: Time, newId: Id)
    requires forall d :: d in db.drivers ==> !DrivesAs(db.drivers[d], userId, tenantId)
    ensures AfterStartTrip(db, vehicleId, tenantId, userId, now, newId) == Err(Forbidden)
  {
    assert forall d :: d in db.drivers ==> !LinkedTo(db.drivers[d], userId, tenantId);
  }

  lemma ProfileIsFound(drivers: map<Id, Driver>, d: Id, userId: Id, tenantId: Id)
    requires DriverUsersUnique(drivers) && d in drivers && DrivesAs(drivers[d], userId, tenantId)
    ensures DriverOf(drivers, userId, tenantId) == Some(d)
  {
    assert LinkedTo(drivers[d], userId, tenantId);
  }

  /**
   * With one, a start goes through exactly on a shift of the driver, with the vehicle AVAILABLE and
   * none of its trips running.
   */
  lemma StartAcceptedIff(db: Db, vehicleId: Id, tenantId: Id, userId: Id, now: Time, newId: Id, d: Id)
    requires DriverUsersUnique(db.drivers) && d in db.drivers && DrivesAs(db.drivers[d], userId, tenantId)
    ensures AfterStartTrip(db, vehicleId, tenantId, userId, now, newId).Ok? <==>
      && (exists i :: i in db.assignments && OnShift(db.assignments[i], d, vehicleId, now))
      && VehicleReady(db, tenantId, vehicleId)
      && (forall i :: i in db.trips ==> !RunsWith(db.trips[i], vehicleId, tenantId))
      && newId !in db.trips
  {
    ProfileIsFound(db.drivers, d, userId, tenantId);
    assert MayDrive(db.assignments, d, vehicleId, now) <==>
      exists i :: i in db.assignments && OnShift(db.assignments[i], d, vehicleId, now) by {
      forall i | i in db.assignments && OnShift(db.assignments[i], d, vehicleId, now)
        ensures MayDrive(db.assignments, d, vehicleId, now)
      {
        assert db.assignments[i].vehicleId == vehicleId;
      }
      if MayDrive(db.assignments, d, vehicleId, now) {
        var i :| i in db.assignments && db.assignments[i].vehicleId == vehicleId && db.assignments[i].driverId == d
          && db.assignments[i].deletedAt.None?
          && Intervals.Covers(db.assignments[i].startDate, db.assignments[i].endDate, now);
        assert OnShift(db.assignments[i], d, vehicleId, now);
      }
    }
  }

  /**
   * It adds a running trip without costs, puts the vehicle ON_TRIP and makes the driver unavailable;
   * nothing else changes.
   */
  lemma StartStores(db: Db, vehicleId: Id, tenantId: Id, userId: Id, now: Time, newId: Id, after: Db, d: Id)
    requires DriverUsersUnique(db.drivers) && d in db.drivers && DrivesAs(db.drivers[d], userId, tenantId)
    requires AfterStartTrip(db, vehicleId, tenantId, userId, now, newId) == Ok(after)
    ensures after == db.(trips := after.trips, vehicles := after.vehicles, drivers := after.drivers)
    ensures after.trips == db.trips[newId := Trip(tenantId, vehicleId, d, now, None, 0, 0, 0, 0, None)]
    ensures newId !in db.trips && vehicleId in db.vehicles
    ensures after.vehicles == db.vehicles[vehicleId := db.vehicles[vehicleId].(status := ON_TRIP)]
    ensures after.drivers == db.drivers[d := db.drivers[d].(isAvailable := false)]
  {
    ProfileIsFound(db.drivers, d, userId, tenantId);
  }

  // ── End and update ─────────────────────────────────────────────────────────

  predicate Found(db: Db, tenantId: Id, id: Id) {
    id in db.trips && db.trips[id].tenantId == tenantId && db.trips[id].deletedAt == None
  }

  predicate NothingNull(dto: UpdateTrip) {
    dto.tollCost != Null && dto.policeCost != Null && dto.income != Null && dto.distance != Null
  }

  /** An end goes through exactly for a running trip, by its own driver if the caller is a DRIVER. */
  lemma EndAcceptedIff(db: Db, id: Id, tenantId: Id, userId: Id, dto: UpdateTrip, role: Role, now: Time)
    requires DriverUsersUnique(db.drivers)
    ensures AfterEndTrip(db, id, tenantId, userId, dto, role, now).Ok? <==>
      && Found(db, tenantId, id) && db.trips[id].endTime == None && NothingNull(dto)
      && db.trips[id].vehicleId in db.vehicles && db.trips[id].driverId in db.drivers
      && (role == DRIVER ==> DrivesAs(db.drivers[db.trips[id].driverId], userId, tenantId))
  {
    if Found(db, tenantId, id) && db.trips[id].driverId in db.drivers {
      var d := db.trips[id].driverId;
      if DrivesAs(db.drivers[d], userId, tenantId) {
        ProfileIsFound(db.drivers, d, userId, tenantId);
      }
      assert LinkedTo(db.drivers[d], userId, tenantId) <==> DrivesAs(db.drivers[d], userId, tenantId);
    }
  }

  /** The stored column is the one sent, or the old one if none was sent. */
  predicate Replaces(sent: Patch<int>, was: int, stored: int) {
    stored == match sent case Set(x) => x case _ => was
  }

  /** Each of the four columns becomes what was sent for it, or stays. */
  predicate CostsAsSent(t: Trip, dto: UpdateTrip, stored: Trip) {
    && Replaces(dto.tollCost, t.tollCost, stored.tollCost)
    && Replaces(dto.policeCost, t.policeCost, stored.policeCost)
    && Replaces(dto.income, t.income, stored.income)
    && Replaces(dto.distance, t.distance, stored.distance)
  }

  /** The trip, its vehicle and its driver change together: costs as sent, ended now, AVAILABLE, available. */
  lemma EndStores(db: Db, id: Id, tenantId: Id, userId: Id, dto: UpdateTrip, role: Role, now: Time, after: Db)
    requires AfterEndTrip(db, id, tenantId, userId, dto, role, now) == Ok(after)
    ensures after == db.(trips := after.trips, vehicles := after.vehicles, drivers := after.drivers)
    ensures id in db.trips && after.trips.Keys == db.trips.Keys
    ensures forall i :: i in db.trips && i != id ==> after.trips[i] == db.trips[i]
    ensures var (t, stored) := (db.trips[id], after.trips[id]);
      && CostsAsSent(t, dto, stored) && stored.endTime == Some(now)
      && stored.tenantId == t.tenantId && stored.vehicleId == t.vehicleId && stored.driverId == t.driverId
      && stored.startTime == t.startTime && stored.deletedAt == t.deletedAt
      && t.vehicleId in db.vehicles && t.driverId in db.drivers
      && after.vehicles == db.vehicles[t.vehicleId := db.vehicles[t.vehicleId].(status := AVAILABLE)]
      && after.drivers == db.drivers[t.driverId := db.drivers[t.driverId].(isAvailable := true)]
  {
  }

  /** A cost update goes through exactly for a trip of the tenant, and changes the four columns only. */
  lemma UpdateEffect(db: Db, id: Id, tenantId: Id, dto: UpdateTrip)
    ensures var r := AfterUpdateTrip(db, id, tenantId, dto);
      && (r.Ok? <==> Found(db, tenantId, id) && NothingNull(dto))
      && (!Found(db, tenantId, id) ==> r == Err(NotFound))
      && (r.Ok? ==>
            && r.value == db.(trips := r.value.trips) && r.value.trips.Keys == db.trips.Keys
            && (forall i :: i in db.trips && i != id ==> r.value.trips[i] == db.trips[i])
            && CostsAsSent(db.trips[id], dto, r.value.trips[id])
            && r.value.trips[id] == db.trips[id].(
                 tollCost := r.value.trips[id].tollCost,
                 policeCost := r.value.trips[id].policeCost,
                 income := r.value.trips[id].income,
                 distance := r.value.trips[id].distance))
  {
  }

  // ── What the costs do to the accounts ──────────────────────────────────────

  lemma {:induction false} SumOfReplaced<T>(rows: seq<T>, k: nat, row: T, keep: T -> bool, amount: T -> int)
    requires k < |rows|
    ensures Sum(rows[k := row], keep, amount) == Sum(rows, keep, amount)
      - (if keep(rows[k]) then amount(rows[k]) else 0) + (if keep(row) then amount(row) else 0)
    decreases |rows|
  {
    var n := |rows| - 1;
    if k < n {
      assert rows[k := row][..n] == rows[..n][k := row];
      SumOfReplaced(rows[..n], k, row, keep, amount);
    } else {
      assert rows[k := row][..n] == rows[..n];
    }
  }

  /** The row counts in the window. */
  predicate Counts(t: Trip, tenantId: Id, w: Window) {
    && t.tenantId == tenantId && t.deletedAt == None
    && (w.start == None || w.start.value <= t.startTime) && (w.end == None || t.startTime <= w.end.value)
  }

  /** The books with one trip row replaced by the row that a call left behind. */
  function Rebooked(b: Books, k: nat, row: Trip): Books
    requires k < |b.trips|
  {
    b.(trips := b.trips[k := row])
  }

  /**
   * Costs sent with an end, or later, move exactly the figures they belong to, by new minus old, if
   * the trip counts.
   */
  lemma CostsMoveAccounts(b: Books, k: nat, dto: UpdateTrip, stored: Trip, tenantId: Id, w: Window)
    requires k < |b.trips| && CostsAsSent(b.trips[k], dto, stored)
    requires stored.tenantId == b.trips[k].tenantId && stored.deletedAt == b.trips[k].deletedAt
    requires stored.startTime == b.trips[k].startTime
    ensures var (t, weight) := (b.trips[k], if Counts(b.trips[k], tenantId, w) then 1 else 0);
      var (before, after) := (GetProfitLoss(b, tenantId, w), GetProfitLoss(Rebooked(b, k, stored), tenantId, w));
      && after.breakdown == before.breakdown.(
           incomeFromTrips := before.breakdown.incomeFromTrips + weight * Gain(dto.income, t.income),
           tripTollCosts := before.breakdown.tripTollCosts + weight * Gain(dto.tollCost, t.tollCost),
           tripPoliceCosts := before.breakdown.tripPoliceCosts + weight * Gain(dto.policeCost, t.policeCost))
      && after.profit == before.profit
           + weight * (Gain(dto.income, t.income) - Gain(dto.tollCost, t.tollCost) - Gain(dto.policeCost, t.policeCost))
  {
    SumOfReplaced(b.trips, k, stored, TripsOf(tenantId, w), INCOME);
    SumOfReplaced(b.trips, k, stored, TripsOf(tenantId, w), TOLL);
    SumOfReplaced(b.trips, k, stored, TripsOf(tenantId, w), POLICE);
  }

  /** By how much a sent value exceeds the old one; nothing sent gains nothing. */
  function Gain(sent: Patch<int>, was: int): int {
    match sent
    case Set(x) => x - was
    case _ => 0
  }

  /** So an accepted end of a trip that is in the books moves the accounts by what was sent with it. */
  lemma EndMovesAccounts(
    db: Db,
    id: Id,
    tenantId: Id,
    userId: Id,
    dto: UpdateTrip,
    role: Role,
    now: Time,
    after: Db,
    b: Books,
    k: nat,
    w: Window)
    requires AfterEndTrip(db, id, tenantId, userId, dto, role, now) == Ok(after)
    requires k < |b.trips| && id in db.trips && b.trips[k] == db.trips[id]
    ensures id in after.trips
    ensures var (t, weight) := (b.trips[k], if Counts(b.trips[k], tenantId, w) then 1 else 0);
      GetProfitLoss(Rebooked(b, k, after.trips[id]), tenantId, w).profit == GetProfitLoss(b, tenantId, w).profit
        + weight * (Gain(dto.income, t.income) - Gain(dto.tollCost, t.tollCost) - Gain(dto.policeCost, t.policeCost))
  {
    EndStores(db, id, tenantId, userId, dto, role, now, after);
    CostsMoveAccounts(b, k, dto, after.trips[id], tenantId, w);
  }
}
