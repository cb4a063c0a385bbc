/**
 * Exactly which commits of interleaved trip starts make trips of a vehicle overlap or run twice,
 * and which commits of interleaved assignment creations make assignments overlap.
 */
module RaceRuns {
  import opened Common
  import opened Clock
  import opened Schema
  import opened Races
  import opened TripRuns
  import opened AssignmentRuns
  import System
  import Trips
  import Assignments

  // ── What holds in every run whatsoever ─────────────────────────────────────

  ghost predicate TripRows(db: Db, clock: Time) {
    OneTenant(db.trips, db.vehicles, db.drivers) && Dated(db.trips, clock)
  }

  /** What the reads of a flight have found that no call can take back. */
  ghost predicate Genuine(db: Db, clock: Time, f: Flight) {
    match f
    case Starting(tenantId, vehicleId, _, stage) =>
      && (!stage.Asked? ==>
            && stage.driverId in db.drivers && db.drivers[stage.driverId].tenantId == tenantId
            && stage.startedAt <= clock)
      && (stage.VehicleSeen? || stage.AllClear? ==>
            vehicleId in db.vehicles && db.vehicles[vehicleId].tenantId == tenantId)
    case Assigning(_, dto, progress) =>
      !progress.Requested? && dto.endDate.OrNull().Some? ==> dto.startDate < dto.endDate.OrNull().value
  }

  ghost predicate AllGenuine(w: World, clock: Time) {
    forall k :: k in w.flights ==> Genuine(w.db, clock, w.flights[k])
  }

  /** Vehicles and drivers stay and keep their tenant. */
  ghost predicate StaffStays(before: Db, after: Db) {
    && (forall v :: v in before.vehicles ==>
      v in after.vehicles && after.vehicles[v].tenantId == before.vehicles[v].tenantId)
    && (forall d :: d in before.drivers ==>
      d in after.drivers && after.drivers[d].tenantId == before.drivers[d].tenantId)
  }

  lemma CallKeepsStaff(db: Db, e: System.Event)
    ensures StaffStays(db, System.Step(db, e))
  {
    if System.Outcome(db, e).Ok? {
      if e.op.OnTrips? {
        Trips.CallKeepsOwners(db, e.op.trip, e.now, System.Step(db, e));
      } else {
        OtherCallsKeepTrips(db, e, System.Step(db, e));
      }
    }
  }

  /** A dated trip of a vehicle and a driver of its tenant, stored over a state whose staff has stayed. */
  lemma StoredTripKeepsRows(db: Db, clock: Time, after: Db, now: Time, id: Id, t: Trip)
    requires TripRows(db, clock) && clock <= now && StaffStays(db, after) && after.trips == db.trips[id := t]
    requires t.vehicleId in db.vehicles && db.vehicles[t.vehicleId].tenantId == t.tenantId
    requires t.driverId in db.drivers && db.drivers[t.driverId].tenantId == t.tenantId
    requires t.startTime <= now && t.deletedAt.None?
    requires t.endTime.Some? ==> t.startTime <= t.endTime.value <= now
    ensures TripRows(after, now)
  {
  }

  lemma StartKeepsRows(db: Db, clock: Time, c: Trips.Call, now: Time, after: Db)
    requires c.Start? && TripRows(db, clock) && clock <= now && Trips.Outcome(db, c, now) == Ok(after)
    requires StaffStays(db, after)
    ensures TripRows(after, now)
  {
    StoredTripKeepsRows(db, clock, after, now, c.newId, after.trips[c.newId]);
  }

  lemma EndKeepsRows(db: Db, clock: Time, c: Trips.Call, now: Time, after: Db)
    requires c.End? && TripRows(db, clock) && clock <= now && Trips.Outcome(db, c, now) == Ok(after)
    requires StaffStays(db, after)
    ensures TripRows(after, now)
  {
    StoredTripKeepsRows(db, clock, after, now, c.id, after.trips[c.id]);
  }

  lemma TripCallKeepsRows(db: Db, clock: Time, c: Trips.Call, now: Time, after: Db)
    requires TripRows(db, clock) && clock <= now && Trips.Outcome(db, c, now) == Ok(after)
    ensures TripRows(after, now)
  {
    Trips.CallKeepsOwners(db, c, now, after);
    match c
    case Start(_, _, _, _) => StartKeepsRows(db, clock, c, now, after);
    case End(_, _, _, _, _) => EndKeepsRows(db, clock, c, now, after);
    case Update(_, id, _) => StoredTripKeepsRows(db, clock, after, now, id, after.trips[id]);
  }

  lemma CallKeepsRows(db: Db, clock: Time, e: System.Event)
    requires TripRows(db, clock) && clock <= e.now
    ensures TripRows(System.Step(db, e), e.now)
  {
    if System.Outcome(db, e).Ok? {
      if e.op.OnTrips? {
        TripCallKeepsRows(db, clock, e.op.trip, e.now, System.Step(db, e));
      } else {
        OtherCallsKeepTrips(db, e, System.Step(db, e));
      }
    }
  }

  /** The event is the write of a trip start, and the database accepts it. */
  predicate CommitsStart(w: World, e: Event) {
    && e.Advance? && e.ticket in w.flights && w.flights[e.ticket].Starting? && w.flights[e.ticket].stage.AllClear?
    && StartWrites(w.db, w.flights[e.ticket], e.newId).Ok?
  }

  /** The event is the write of an assignment creation, and the database accepts it. */
  predicate CommitsAssign(w: World, e: Event) {
    && e.Advance? && e.ticket in w.flights && w.flights[e.ticket].Assigning? && w.flights[e.ticket].progress.BothFree?
    && AssignWrites(w.db, w.flights[e.ticket], e.newId).Ok?
  }

  lemma OtherEventsKeepTables(w: World, e: Event)
    requires !e.Call? && !CommitsStart(w, e) && !CommitsAssign(w, e)
    ensures Step(w, e).db == w.db
  {
    if e.Advance? && e.ticket in w.flights && ReadsLeft(w.flights[e.ticket]) == 0 {
      assert Writes(w.db, w.flights[e.ticket], e.newId).Err?;
    }
  }

  lemma StepKeepsStaff(w: World, e: Event)
    ensures StaffStays(w.db, Step(w, e).db)
  {
    if e.Call? {
      CallKeepsStaff(w.db, System.Event(e.op, e.now));
    } else if !CommitsStart(w, e) && !CommitsAssign(w, e) {
      OtherEventsKeepTables(w, e);
    }
  }

  lemma ReadsAreGenuine(db: Db, clock: Time, f: Flight, now: Time)
    requires Genuine(db, clock, f) && clock <= now && ReadsLeft(f) > 0 && Reads(db, f, now).Ok?
    ensures Genuine(db, now, Reads(db, f, now).value)
  {
  }

  lemma StepKeepsGenuine(w: World, clock: Time, e: Event)
    requires AllGenuine(w, clock) && clock <= e.now
    ensures AllGenuine(Step(w, e), e.now)
  {
    StepKeepsStaff(w, e);
    forall k | k in Step(w, e).flights
      ensures Genuine(Step(w, e).db, e.now, Step(w, e).flights[k])
    {
      assert k in w.flights ==> Genuine(w.db, clock, w.flights[k]);
      if e.Advance? && k == e.ticket {
        ReadsAreGenuine(w.db, clock, w.flights[k], e.now);
      }
    }
  }

  lemma StartCommitKeepsRows(w: World, clock: Time, e: Event)
    requires TripRows(w.db, clock) && clock <= e.now && CommitsStart(w, e)
    requires Genuine(w.db, clock, w.flights[e.ticket])
    ensures TripRows(Step(w, e).db, e.now)
  {
    StepKeepsStaff(w, e);
    StoredTripKeepsRows(w.db, clock, Step(w, e).db, e.now, e.newId, NewTrip(w.flights[e.ticket]));
  }

  lemma StepKeepsRows(w: World, clock: Time, e: Event)
    requires AllGenuine(w, clock) && TripRows(w.db, clock) && clock <= e.now
    ensures TripRows(Step(w, e).db, e.now)
  {
    if e.Call? {
      CallKeepsRows(w.db, clock, System.Event(e.op, e.now));
    } else if CommitsStart(w, e) {
      StartCommitKeepsRows(w, clock, e);
    } else if !CommitsAssign(w, e) {
      OtherEventsKeepTables(w, e);
    }
  }

  // ── Trips of one vehicle ───────────────────────────────────────────────────

  ghost predicate Disjoint(db: Db) {
    TripsDisjoint(db.trips)
  }

  /** No vehicle has two running trips. */
  ghost predicate OneRunning(db: Db) {
    forall i, j :: i in db.trips && j in db.trips && i != j && db.trips[i].vehicleId == db.trips[j].vehicleId ==>
      !(Running(db.trips[i]) && Running(db.trips[j]))
  }

  /** A trip of the vehicle is running at the commit, or ended after the instant the start has fixed for itself. */
  ghost predicate Overtaken(w: World, e: Event) {
    && CommitsStart(w, e)
    && exists i :: i in w.db.trips && w.db.trips[i].vehicleId == w.flights[e.ticket].vehicleId
         && !Before(w.db.trips[i], NewTrip(w.flights[e.ticket]))
  }

  /** The query for a running trip, asked again at the commit, finds one. */
  ghost predicate Doubled(w: World, e: Event) {
    CommitsStart(w, e) && Trips.TripInProgress(w.db.trips, w.flights[e.ticket].vehicleId, w.flights[e.ticket].tenantId)
  }

  lemma StartCommitDisjointIff(w: World, e: Event)
    requires Disjoint(w.db) && CommitsStart(w, e)
    ensures Disjoint(Step(w, e).db) <==> !Overtaken(w, e)
  {
    var f, trips, after := w.flights[e.ticket], w.db.trips, Step(w, e).db.trips;
    assert after == trips[e.newId := NewTrip(f)];
    forall i | i in trips
      ensures after[i] == trips[i] && i != e.newId
    {
    }
    if Disjoint(Step(w, e).db) {
      forall i | i in trips && trips[i].vehicleId == f.vehicleId
        ensures Before(trips[i], NewTrip(f))
      {
        assert Before(after[i], after[e.newId]) || Before(after[e.newId], after[i]);
      }
    }
  }

  lemma StartCommitOneRunningIff(w: World, clock: Time, e: Event)
    requires AllGenuine(w, clock) && TripRows(w.db, clock) && OneRunning(w.db) && CommitsStart(w, e)
    ensures OneRunning(Step(w, e).db) <==> !Doubled(w, e)
  {
    var f, trips, after := w.flights[e.ticket], w.db.trips, Step(w, e).db.trips;
    assert Genuine(w.db, clock, f);
    assert after == trips[e.newId := NewTrip(f)];
    forall i | i in trips
      ensures after[i] == trips[i] && i != e.newId
    {
    }
    if Doubled(w, e) {
      var i :| i in trips && trips[i].vehicleId == f.vehicleId && trips[i].tenantId == f.tenantId
        && trips[i].deletedAt.None? && trips[i].endTime.None?;
      assert Running(after[i]) && Running(after[e.newId]);
    }
  }

  /** Whole calls never make trips run twice; ending one of them needs nothing of the others. */
  lemma CallKeepsOneRunning(db: Db, clock: Time, e: System.Event)
    requires TripRows(db, clock) && OneRunning(db)
    ensures OneRunning(System.Step(db, e))
  {
    if System.Outcome(db, e).Ok? {
      if e.op.OnTrips? {
        TripCallKeepsOneRunning(db, clock, e.op.trip, e.now, System.Step(db, e));
      } else {
        OtherCallsKeepTrips(db, e, System.Step(db, e));
      }
    }
  }

  lemma TripCallKeepsOneRunning(db: Db, clock: Time, c: Trips.Call, now: Time, after: Db)
    requires TripRows(db, clock) && OneRunning(db) && Trips.Outcome(db, c, now) == Ok(after)
    ensures OneRunning(after)
  {
    match c
    case Start(_, _, _, _) =>
    case End(_, _, _, _, _) =>
    case Update(_, _, _) =>
  }

  lemma StepDisjointIff(w: World, clock: Time, e: Event)
    requires AllGenuine(w, clock) && TripRows(w.db, clock) && Disjoint(w.db) && clock <= e.now
    ensures Disjoint(Step(w, e).db) <==> !Overtaken(w, e)
  {
    if e.Call? {
      StepKeepsLedger(w.db, clock, System.Event(e.op, e.now));
    } else if CommitsStart(w, e) {
      StartCommitDisjointIff(w, e);
    } else if !CommitsAssign(w, e) {
      OtherEventsKeepTables(w, e);
    }
  }

  lemma StepOneRunningIff(w: World, clock: Time, e: Event)
    requires AllGenuine(w, clock) && TripRows(w.db, clock) && OneRunning(w.db) && clock <= e.now
    ensures OneRunning(Step(w, e).db) <==> !Doubled(w, e)
  {
    if e.Call? {
      CallKeepsOneRunning(w.db, clock, System.Event(e.op, e.now));
    } else if CommitsStart(w, e) {
      StartCommitOneRunningIff(w, clock, e);
    } else if !CommitsAssign(w, e) {
      OtherEventsKeepTables(w, e);
    }
  }

  /**
   * Any interleaved run keeps the trips of every vehicle disjoint in all its states, if and only if
   * no start commits over a trip that is running or ended after the start's own instant.
   */
  lemma {:induction false} TripsDisjointIff(w: World, clock: Time, events: seq<Event>)
    requires AllGenuine(w, clock) && TripRows(w.db, clock) && Disjoint(w.db) && Timely(clock, events, NOW)
    ensures Always(w, events, Disjoint) <==> Avoids(w, events, Overtaken)
    decreases |events|
  {
    if events != [] {
      var next := Step(w, events[0]);
      StepDisjointIff(w, clock, events[0]);
      StepKeepsGenuine(w, clock, events[0]);
      StepKeepsRows(w, clock, events[0]);
      if Disjoint(next.db) {
        TripsDisjointIff(next, events[0].now, events[1..]);
      }
    }
  }

  /**
   * It never has two running trips of a vehicle if and only if at every commit of a start the query
   * for a running trip, asked again, would still find none.
   */
  lemma {:induction false} OneRunningIff(w: World, clock: Time, events: seq<Event>)
    requires AllGenuine(w, clock) && TripRows(w.db, clock) && OneRunning(w.db) && Timely(clock, events, NOW)
    ensures Always(w, events, OneRunning) <==> Avoids(w, events, Doubled)
    decreases |events|
  {
    if events != [] {
      var next := Step(w, events[0]);
      StepOneRunningIff(w, clock, events[0]);
      StepKeepsGenuine(w, clock, events[0]);
      StepKeepsRows(w, clock, events[0]);
      if OneRunning(next.db) {
        OneRunningIff(next, events[0].now, events[1..]);
      }
    }
  }

  // ── Assignments ────────────────────────────────────────────────────────────

  /** The two overlap queries, asked again at the commit, find something. */
  predicate Reassigned(w: World, e: Event) {
    CommitsAssign(w, e) &&
    var a := NewAssignment(w.flights[e.ticket].dto);
    || Assignments.VehicleAssigned(w.db.assignments, a.vehicleId, a.startDate, a.endDate, None)
    || Assignments.DriverAssigned(w.db.assignments, a.driverId, a.startDate, a.endDate, None)
  }

  /** Such a commit, or an accepted update that widens. */
  ghost predicate BreaksExclusivity(w: World, e: Event) {
    || Reassigned(w, e)
    || (e.Call? && System.Outcome(w.db, System.Event(e.op, e.now)).Ok? && Widens(w.db, e.op))
  }

  lemma AssignCommitIff(w: World, clock: Time, e: Event)
    requires AllGenuine(w, clock) && AssignmentsExclusive(w.db) && CommitsAssign(w, e)
    ensures AssignmentsExclusive(Step(w, e).db) <==> !Reassigned(w, e)
  {
    var a := NewAssignment(w.flights[e.ticket].dto);
    assert Genuine(w.db, clock, w.flights[e.ticket]);
    assert Step(w, e).db.assignments == w.db.assignments[e.newId := a];
    StoringIsExclusiveIff(w.db.assignments, e.newId, a);
    forall i | i in w.db.assignments
      ensures Some(i) != Some(e.newId)
    {
    }
  }

  lemma StepExclusiveIff(w: World, clock: Time, e: Event)
    requires AllGenuine(w, clock) && AssignmentsExclusive(w.db)
    ensures AssignmentsExclusive(Step(w, e).db) <==> !BreaksExclusivity(w, e)
  {
    if e.Call? {
      var call := System.Event(e.op, e.now);
      if System.Outcome(w.db, call).Ok? {
        SystemCallIsExclusiveIff(w.db, call, System.Step(w.db, call));
      }
    } else if CommitsAssign(w, e) {
      AssignCommitIff(w, clock, e);
    } else if !CommitsStart(w, e) {
      OtherEventsKeepTables(w, e);
    }
  }

  /**
   * Any interleaved run keeps live assignments exclusive in all its states, if and only if no
   * accepted update widens and at every commit of a creation both overlap queries, asked again,
   * would still find nothing.
   */
  lemma {:induction false} AssignmentsExclusiveIff(w: World, clock: Time, events: seq<Event>)
    requires AllGenuine(w, clock) && AssignmentsExclusive(w.db) && Timely(clock, events, NOW)
    ensures Always(w, events, AssignmentsExclusive) <==> Avoids(w, events, BreaksExclusivity)
    decreases |events|
  {
    if events != [] {
      var next := Step(w, events[0]);
      StepExclusiveIff(w, clock, events[0]);
      StepKeepsGenuine(w, clock, events[0]);
      if AssignmentsExclusive(next.db) {
        AssignmentsExclusiveIff(next, events[0].now, events[1..]);
      }
    }
  }
}
