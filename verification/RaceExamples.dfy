/** Races that the code loses, each from a state run from the empty database. */
module RaceExamples {
  import opened Common
  import opened Schema
  import opened Races
  import opened RaceRuns
  import opened TripRuns
  import Scenarios
  import System
  import Trips
  import Assignments
  import AssignmentRuns

  const TAKE_VAN := Starting("t", "van", "ua", Asked)

  /** The reads of one request; only its write is still to come. */
  function Look(ticket: nat, f: Flight, now: Time): seq<Event> {
    [Arrive(ticket, f, now)] + Goes(ticket, "", now, 4)
  }

  lemma {:induction false} RunConcat(w: World, first: seq<Event>, second: seq<Event>)
    ensures Run(w, first + second) == Run(Run(w, first), second)
    decreases |first|
  {
    if first == [] {
      assert first + second == second;
    } else {
      assert (first + second)[1..] == first[1..] + second;
      RunConcat(Step(w, first[0]), first[1..], second);
    }
  }

  lemma GoesFour(w: World, ticket: nat, now: Time)
    ensures var go := Advance(ticket, "", now);
      Run(w, Goes(ticket, "", now, 4)) == Step(Step(Step(Step(w, go), go), go), go)
  {
    var go := Advance(ticket, "", now);
    assert Goes(ticket, "", now, 1) == [go];
    assert Goes(ticket, "", now, 2) == [go] + [go];
    assert Goes(ticket, "", now, 3) == [go] + ([go] + [go]);
    PassesFour(w, go);
  }

  lemma PassesFour(w: World, go: Event)
    ensures Run(w, [go] + ([go] + ([go] + [go]))) == Step(Step(Step(Step(w, go), go), go), go)
  {
    assert ([go] + ([go] + ([go] + [go])))[1..] == [go] + ([go] + [go]);
    assert ([go] + ([go] + [go]))[1..] == [go] + [go];
    assert ([go] + [go])[1..] == [go];
    var w1 := Step(w, go);
    var w2 := Step(w1, go);
    var w3 := Step(w2, go);
    assert Run(w3, [go]) == Run(Step(w3, go), []);
    assert Run(w2, [go] + [go]) == Run(w3, [go]);
    assert Run(w1, [go] + ([go] + [go])) == Run(w2, [go] + [go]);
  }

  /** A driver who may start an idle vehicle passes all reads. */
  lemma StartLooks(w: World, ticket: nat, f: Flight, driverId: Id, now: Time)
    requires ticket !in w.flights && f.Starting?
    requires Trips.DriverOf(w.db.drivers, f.userId, f.tenantId) == Some(driverId)
    requires Trips.MayDrive(w.db.assignments, driverId, f.vehicleId, now)
    requires LiveVehicle(w.db.vehicles, f.tenantId, f.vehicleId) && w.db.vehicles[f.vehicleId].status == AVAILABLE
    requires !Trips.TripInProgress(w.db.trips, f.vehicleId, f.tenantId)
    ensures Run(w, Look(ticket, f, now)) == w.(flights := w.flights[ticket := f.(stage := AllClear(driverId, now))])
  {
    var go := Advance(ticket, "", now);
    var w1 := w.(flights := w.flights[ticket := f.(stage := Asked)]);
    var w2 := w.(flights := w.flights[ticket := f.(stage := DriverFound(driverId, now))]);
    var w3 := w.(flights := w.flights[ticket := f.(stage := Assigned(driverId, now))]);
    var w4 := w.(flights := w.flights[ticket := f.(stage := VehicleSeen(driverId, now))]);
    var w5 := w.(flights := w.flights[ticket := f.(stage := AllClear(driverId, now))]);
    assert Step(w1, go).flights == w2.flights;
    assert Step(w2, go).flights == w3.flights;
    assert Step(w3, go).flights == w4.flights;
    assert Step(w4, go).flights == w5.flights;
    GoesFour(w1, ticket, now);
    assert ([Arrive(ticket, f, now)] + Goes(ticket, "", now, 4))[1..] == Goes(ticket, "", now, 4);
  }

  // ── Two starts that both look before either writes ─────────────────────────

  const CLEAR_AT_5 := Starting("t", "van", "ua", AllClear("ann", 5))

  lemma AnnMayTakeVan(db: Db, now: Time)
    requires db == Scenarios.ANN_TWICE && now == 5
    ensures Trips.DriverOf(db.drivers, "ua", "t") == Some("ann")
    ensures Trips.MayDrive(db.assignments, "ann", "van", now)
    ensures LiveVehicle(db.vehicles, "t", "van") && db.vehicles["van"].status == AVAILABLE
    ensures !Trips.TripInProgress(db.trips, "van", "t")
  {
    Scenarios.DriversOfAccounts(db.drivers);
    assert db.assignments["early"].vehicleId == "van";
  }

  lemma BothLook()
    ensures Run(World(Scenarios.ANN_TWICE, map[]), Look(0, TAKE_VAN, 5) + Look(1, TAKE_VAN, 5))
      == World(Scenarios.ANN_TWICE, map[0 := CLEAR_AT_5, 1 := CLEAR_AT_5])
  {
    var w0 := World(Scenarios.ANN_TWICE, map[]);
    var w1 := World(Scenarios.ANN_TWICE, map[0 := CLEAR_AT_5]);
    AnnMayTakeVan(Scenarios.ANN_TWICE, 5);
    StartLooks(w0, 0, TAKE_VAN, "ann", 5);
    assert w0.flights[0 := CLEAR_AT_5] == w1.flights;
    StartLooks(w1, 1, TAKE_VAN, "ann", 5);
    assert w1.flights[1 := CLEAR_AT_5] == map[0 := CLEAR_AT_5, 1 := CLEAR_AT_5];
    RunConcat(w0, Look(0, TAKE_VAN, 5), Look(1, TAKE_VAN, 5));
  }

  /** Two cleared starts of one vehicle both write. */
  lemma BothWrite(w: World, a: Id, b: Id)
    requires 0 in w.flights && 1 in w.flights && w.flights[0] == CLEAR_AT_5 && w.flights[1] == CLEAR_AT_5
    requires "van" in w.db.vehicles && "ann" in w.db.drivers && a !in w.db.trips && b !in w.db.trips && a != b
    ensures !OneRunning(Run(w, [Advance(0, a, 6), Advance(1, b, 6)]).db)
    ensures Doubled(Step(w, Advance(0, a, 6)), Advance(1, b, 6))
  {
    var w1 := Step(w, Advance(0, a, 6));
    var w2 := Step(w1, Advance(1, b, 6));
    assert [Advance(0, a, 6), Advance(1, b, 6)][1..] == [Advance(1, b, 6)];
    assert Run(w1, [Advance(1, b, 6)]) == Run(w2, []);
    assert w1.db.trips[a] == NewTrip(CLEAR_AT_5);
    assert w2.db.trips[a] == NewTrip(CLEAR_AT_5) && w2.db.trips[b] == NewTrip(CLEAR_AT_5);
    assert w2.db.trips[a].vehicleId == w2.db.trips[b].vehicleId && Running(w2.db.trips[a]) && Running(w2.db.trips[b]);
  }

  /** A driver who asks twice: both starts look before either writes, and the van has two running trips. */
  lemma TwoStartsRunTwice()
    ensures var w :=
      World(System.Run(EMPTY_DB, Scenarios.SetUp() + [Scenarios.ASSIGN_EARLY, Scenarios.ASSIGN_BUS]), map[]);
      && OneRunning(w.db)
      && !OneRunning(Run(w,
        Look(0, TAKE_VAN, 5) + Look(1, TAKE_VAN, 5) + [Advance(0, "t1", 6), Advance(1, "t2", 6)]).db)
  {
    Scenarios.AnnIsAssignedTwice();
    BothLook();
    var w := World(Scenarios.ANN_TWICE, map[]);
    BothWrite(Run(w, Look(0, TAKE_VAN, 5) + Look(1, TAKE_VAN, 5)), "t1", "t2");
    RunConcat(w, Look(0, TAKE_VAN, 5) + Look(1, TAKE_VAN, 5), [Advance(0, "t1", 6), Advance(1, "t2", 6)]);
  }

  // ── A start that commits late ──────────────────────────────────────────────

  /** A trip of the van that began and ended after the start had fixed its instant. */
  const SHORT_TRIP := Scenarios.Trip0("van", "ann", 6).(endTime := Some(8))

  /**
   * Asking for a running trip again is not enough: a start fixed at 5 commits at 9, after another
   * trip of the van has run from 6 to 8, and the two overlap.
   */
  lemma LateStartOverlaps(w: World)
    requires 0 in w.flights && w.flights[0] == CLEAR_AT_5
    requires w.db.trips.Keys == {"short"} && w.db.trips["short"] == SHORT_TRIP
    requires "van" in w.db.vehicles && "ann" in w.db.drivers
    ensures Disjoint(w.db) && !Doubled(w, Advance(0, "late", 9)) && Overtaken(w, Advance(0, "late", 9))
    ensures !Disjoint(Step(w, Advance(0, "late", 9)).db) && OneRunning(Step(w, Advance(0, "late", 9)).db)
  {
    var late, trips := Advance(0, "late", 9), w.db.trips;
    assert CommitsStart(w, late);
    assert trips["short"].vehicleId == "van" && !Before(trips["short"], NewTrip(CLEAR_AT_5));
    StartCommitDisjointIff(w, late);
    assert Step(w, late).db.trips == trips["late" := NewTrip(CLEAR_AT_5)];
  }

  const SHORT_START := System.OnTrips(Trips.Start("t", "van", "ua", "short"))
  const SHORT_END := System.OnTrips(Trips.End("t", "short", "ua", Scenarios.NO_COSTS, DRIVER))

  lemma ShortTripRuns(db: Db)
    requires db == Scenarios.ANN_TWICE
    ensures var after := System.Step(System.Step(db, System.Event(SHORT_START, 6)), System.Event(SHORT_END, 8));
      && after.trips == map["short" := SHORT_TRIP]
      && "van" in after.vehicles && "ann" in after.drivers
  {
    Scenarios.DriversOfAccounts(db.drivers);
    Scenarios.Starts(db, "van", "ua", "ann", "early", 6, "short");
    var out := System.Step(db, System.Event(SHORT_START, 6));
    Scenarios.DriversOfAccounts(out.drivers);
    Scenarios.Ends(out, "short", "ua", 8);
  }

  /** Such a run, from the empty database. */
  lemma LateStartIsReachable()
    ensures var w :=
      World(System.Run(EMPTY_DB, Scenarios.SetUp() + [Scenarios.ASSIGN_EARLY, Scenarios.ASSIGN_BUS]), map[]);
      var looked := Run(w, Look(0, TAKE_VAN, 5));
      var late := Step(Step(looked, Call(SHORT_START, 6)), Call(SHORT_END, 8));
      && Disjoint(late.db) && !Doubled(late, Advance(0, "late", 9))
      && !Disjoint(Step(late, Advance(0, "late", 9)).db)
  {
    Scenarios.AnnIsAssignedTwice();
    var w := World(Scenarios.ANN_TWICE, map[]);
    AnnMayTakeVan(Scenarios.ANN_TWICE, 5);
    StartLooks(w, 0, TAKE_VAN, "ann", 5);
    var looked := Run(w, Look(0, TAKE_VAN, 5));
    ShortTripRuns(looked.db);
    LateStartOverlaps(Step(Step(looked, Call(SHORT_START, 6)), Call(SHORT_END, 8)));
  }

  // ── Two creations that both look before either writes ──────────────────────

  const SHIFT_ASKED := Assigning("t", Scenarios.EARLY_DTO, Requested)
  const SHIFT_CLEAR := Assigning("t", Scenarios.EARLY_DTO, BothFree)

  /** A creation that meets no assignment passes all reads. */
  lemma AssignLooks(w: World, ticket: nat, f: Flight, now: Time)
    requires ticket !in w.flights && f.Assigning? && f.dto.endDate.Set? && f.dto.startDate < f.dto.endDate.value
    requires LiveVehicle(w.db.vehicles, f.tenantId, f.dto.vehicleId)
      && LiveDriver(w.db.drivers, f.tenantId, f.dto.driverId)
    requires w.db.assignments == map[]
    ensures Run(w, Look(ticket, f, now)) == w.(flights := w.flights[ticket := f.(progress := BothFree)])
  {
    var go := Advance(ticket, "", now);
    var w1 := w.(flights := w.flights[ticket := f.(progress := Requested)]);
    var w2 := w.(flights := w.flights[ticket := f.(progress := VehicleLive)]);
    var w3 := w.(flights := w.flights[ticket := f.(progress := DriverLive)]);
    var w4 := w.(flights := w.flights[ticket := f.(progress := VehicleFree)]);
    var w5 := w.(flights := w.flights[ticket := f.(progress := BothFree)]);
    assert Step(w1, go).flights == w2.flights;
    assert Step(w2, go).flights == w3.flights;
    assert Step(w3, go).flights == w4.flights;
    assert Step(w4, go).flights == w5.flights;
    GoesFour(w1, ticket, now);
    assert ([Arrive(ticket, f, now)] + Goes(ticket, "", now, 4))[1..] == Goes(ticket, "", now, 4);
  }

  lemma BothAsk()
    ensures Run(World(Scenarios.FLEET, map[]), Look(0, SHIFT_ASKED, 0) + Look(1, SHIFT_ASKED, 0))
      == World(Scenarios.FLEET, map[0 := SHIFT_CLEAR, 1 := SHIFT_CLEAR])
  {
    var w0 := World(Scenarios.FLEET, map[]);
    var w1 := World(Scenarios.FLEET, map[0 := SHIFT_CLEAR]);
    AssignLooks(w0, 0, SHIFT_ASKED, 0);
    assert w0.flights[0 := SHIFT_CLEAR] == w1.flights;
    AssignLooks(w1, 1, SHIFT_ASKED, 0);
    assert w1.flights[1 := SHIFT_CLEAR] == map[0 := SHIFT_CLEAR, 1 := SHIFT_CLEAR];
    RunConcat(w0, Look(0, SHIFT_ASKED, 0), Look(1, SHIFT_ASKED, 0));
  }

  lemma BothAssign(w: World, a: Id, b: Id)
    requires 0 in w.flights && 1 in w.flights && w.flights[0] == SHIFT_CLEAR && w.flights[1] == SHIFT_CLEAR
    requires "van" in w.db.vehicles && "ann" in w.db.drivers && w.db.assignments == map[] && a != b
    ensures !AssignmentRuns.AssignmentsExclusive(Run(w, [Advance(0, a, 0), Advance(1, b, 0)]).db)
  {
    var w1 := Step(w, Advance(0, a, 0));
    var w2 := Step(w1, Advance(1, b, 0));
    assert [Advance(0, a, 0), Advance(1, b, 0)][1..] == [Advance(1, b, 0)];
    assert Run(w1, [Advance(1, b, 0)]) == Run(w2, []);
    var x, y := w2.db.assignments[a], w2.db.assignments[b];
    assert AssignmentRuns.Compete(x, y) && AssignmentRuns.Meet(x, y);
  }

  /** The same creation asked twice: both look before either writes, and the van is assigned twice. */
  lemma TwoCreationsOverlap()
    ensures var w := World(System.Run(EMPTY_DB, Scenarios.SetUp()), map[]);
      && AssignmentRuns.AssignmentsExclusive(w.db)
      && !AssignmentRuns.AssignmentsExclusive(
           Run(w, Look(0, SHIFT_ASKED, 0) + Look(1, SHIFT_ASKED, 0) + [Advance(0, "a", 0), Advance(1, "b", 0)]).db)
  {
    Scenarios.FleetIsReachable();
    BothAsk();
    var w := World(Scenarios.FLEET, map[]);
    BothAssign(Run(w, Look(0, SHIFT_ASKED, 0) + Look(1, SHIFT_ASKED, 0)), "a", "b");
    RunConcat(w, Look(0, SHIFT_ASKED, 0) + Look(1, SHIFT_ASKED, 0), [Advance(0, "a", 0), Advance(1, "b", 0)]);
  }
}
