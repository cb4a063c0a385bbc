/**
 * Runs from the empty database that show where a property fails: a fleet is set up call by call,
 * and every example goes on from there with calls the services accept.
 */
module Scenarios {
  import opened Common
  import opened Schema
  import opened System
  import Intervals
  import Accounts
  import Users
  import Branches
  import Vehicles
  import Drivers
  import Assignments
  import Trips
  import TripRuns
  import AssignmentRuns
  import AccountRuns
  import LinkRuns

  // ── Setting up a fleet ─────────────────────────────────────────────────────

  const BOSS := User("t", None, "boss", ADMIN, APPROVED, true, None)
  const ANN_ACCOUNT := User("t", None, "ann@", DRIVER, APPROVED, true, None)
  const BOB_ACCOUNT := User("t", None, "bob@", DRIVER, APPROVED, true, None)
  const VAN := Vehicle("t", None, "R1", AVAILABLE, None)
  const BUS := Vehicle("t", None, "R2", AVAILABLE, None)
  const ANN := Driver("t", None, Some("ua"), "1", "L1", true, None)
  const BOB := Driver("t", None, Some("ub"), "2", "L2", true, None)

  const APPLIED := EMPTY_DB.(
    tenants := map["t" := Tenant(false, None)],
    users := map["boss" := BOSS.(approvalStatus := PENDING_APPROVAL, isActive := false)])
  const APPROVED_FIRM := EMPTY_DB.(tenants := map["t" := Tenant(true, None)], users := map["boss" := BOSS])
  const WITH_BRANCH := APPROVED_FIRM.(branches := map["main" := Branch("t", "Main", None)])
  const WITH_ANN := WITH_BRANCH.(users := map["boss" := BOSS, "ua" := ANN_ACCOUNT])
  const WITH_BOB := WITH_BRANCH.(users := map["boss" := BOSS, "ua" := ANN_ACCOUNT, "ub" := BOB_ACCOUNT])
  const WITH_VAN := WITH_BOB.(vehicles := map["van" := VAN])
  const WITH_BUS := WITH_BOB.(vehicles := map["van" := VAN, "bus" := BUS])
  const WITH_DRIVER := WITH_BUS.(drivers := map["ann" := ANN])
  const FLEET := WITH_BUS.(drivers := map["ann" := ANN, "bob" := BOB])

  function NewUser(email: string): Users.CreateUser {
    Users.CreateUser(email, Set(DRIVER), Absent, None)
  }

  function NewVehicle(plate: string): Vehicles.CreateVehicle {
    Vehicles.CreateVehicle(plate, Absent, false, None)
  }

  const APPLY := Event(OnAccounts(Accounts.Register("boss", "t", "boss")), 0)
  const APPROVE := Event(OnAccounts(Accounts.Decide(Accounts.Approve, "boss")), 0)
  const ADD_BRANCH := Event(OnBranches(Branches.Create("t", "Main", "main")), 0)
  const ADD_ANN := Event(OnUsers(Users.Create("t", NewUser("ann@"), "ua")), 0)
  const ADD_BOB := Event(OnUsers(Users.Create("t", NewUser("bob@"), "ub")), 0)
  const ADD_VAN := Event(OnVehicles(Vehicles.Create("t", NewVehicle("R1"), "van")), 0)
  const ADD_BUS := Event(OnVehicles(Vehicles.Create("t", NewVehicle("R2"), "bus")), 0)
  const HIRE_ANN := Event(OnDrivers(Drivers.Create("t", Drivers.CreateDriver("1", "L1", Set("ua"), Absent), "ann")), 0)
  const HIRE_BOB := Event(OnDrivers(Drivers.Create("t", Drivers.CreateDriver("2", "L2", Set("ub"), Absent), "bob")), 0)

  const FOUND := [APPLY, APPROVE, ADD_BRANCH]
  const STAFF := [ADD_ANN, ADD_BOB, ADD_VAN]
  const EQUIP := [ADD_BUS, HIRE_ANN, HIRE_BOB]

  function SetUp(): seq<Event> {
    FOUND + STAFF + EQUIP
  }

  lemma FirmIsFounded()
    ensures Step(EMPTY_DB, APPLY) == APPLIED
    ensures Step(APPLIED, APPROVE) == APPROVED_FIRM
    ensures Step(APPROVED_FIRM, ADD_BRANCH) == WITH_BRANCH
  {
  }

  /** A user with an email of its own is added. */
  lemma Adds(db: Db, email: string, id: Id)
    requires "t" in db.tenants && id !in db.users && db.userBranches == {}
    requires forall i :: i in db.users ==> db.users[i].email != email
    ensures Step(db, Event(OnUsers(Users.Create("t", NewUser(email), id)), 0))
      == db.(users := db.users[id := User("t", None, email, DRIVER, APPROVED, true, None)])
  {
  }

  lemma AnnIsAdded()
    ensures Step(WITH_BRANCH, ADD_ANN) == WITH_ANN
  {
    Adds(WITH_BRANCH, "ann@", "ua");
  }

  lemma BobIsAdded()
    ensures Step(WITH_ANN, ADD_BOB) == WITH_BOB
  {
    Adds(WITH_ANN, "bob@", "ub");
  }

  lemma VanIsAdded()
    ensures Step(WITH_BOB, ADD_VAN) == WITH_VAN
  {
  }

  lemma BusIsAdded()
    ensures Step(WITH_VAN, ADD_BUS) == WITH_BUS
  {
  }

  /** A driver with a phone, licence and account of its own is hired. */
  lemma Hires(db: Db, dto: Drivers.CreateDriver, id: Id)
    requires dto.userId.Set? && dto.userId.value != "" && dto.branchId.Absent?
    requires LiveUser(db.users, "t", dto.userId.value) && id !in db.drivers
    requires forall i :: i in db.drivers ==>
      && db.drivers[i].phone != dto.phone
      && db.drivers[i].licenseNo != dto.licenseNo
      && db.drivers[i].userId != Some(dto.userId.value)
    ensures Step(db, Event(OnDrivers(Drivers.Create("t", dto, id)), 0))
      == db.(drivers :=
        db.drivers[id := Driver("t", None, Some(dto.userId.value), dto.phone, dto.licenseNo, true, None)])
  {
  }

  lemma AnnIsHired()
    ensures Step(WITH_BUS, HIRE_ANN) == WITH_DRIVER
  {
    Hires(WITH_BUS, Drivers.CreateDriver("1", "L1", Set("ua"), Absent), "ann");
  }

  lemma BobIsHired()
    ensures Step(WITH_DRIVER, HIRE_BOB) == FLEET
  {
    Hires(WITH_DRIVER, Drivers.CreateDriver("2", "L2", Set("ub"), Absent), "bob");
    assert WITH_DRIVER.drivers["bob" := BOB] == FLEET.drivers;
  }

  lemma ThreeSteps(db0: Db, e1: Event, db1: Db, e2: Event, db2: Db, e3: Event, db3: Db)
    requires Step(db0, e1) == db1 && Step(db1, e2) == db2 && Step(db2, e3) == db3
    ensures Run(db0, [e1, e2, e3]) == db3
  {
    PassesIsRun([db0, db1, db2, db3], [e1, e2, e3]);
  }

  lemma ThreeRuns(db0: Db, run1: seq<Event>, db1: Db, run2: seq<Event>, db2: Db, run3: seq<Event>, db3: Db)
    requires Run(db0, run1) == db1 && Run(db1, run2) == db2 && Run(db2, run3) == db3
    ensures Run(db0, run1 + run2 + run3) == db3
  {
    RunConcat(db0, run1, run2);
    RunConcat(db0, run1 + run2, run3);
  }

  lemma FleetIsReachable()
    ensures Run(EMPTY_DB, SetUp()) == FLEET
  {
    FirmIsFounded();
    ThreeSteps(EMPTY_DB, APPLY, APPLIED, APPROVE, APPROVED_FIRM, ADD_BRANCH, WITH_BRANCH);
    AnnIsAdded();
    BobIsAdded();
    VanIsAdded();
    ThreeSteps(WITH_BRANCH, ADD_ANN, WITH_ANN, ADD_BOB, WITH_BOB, ADD_VAN, WITH_VAN);
    BusIsAdded();
    AnnIsHired();
    BobIsHired();
    ThreeSteps(WITH_VAN, ADD_BUS, WITH_BUS, HIRE_ANN, WITH_DRIVER, HIRE_BOB, FLEET);
    ThreeRuns(EMPTY_DB, FOUND, WITH_BRANCH, STAFF, WITH_VAN, EQUIP, FLEET);
  }

  // ── Patches that break a mirror ────────────────────────────────────────────

  function StatusPatch(id: Id, status: VehicleStatus): Event {
    Event(OnVehicles(Vehicles.Update("t", id, Vehicles.UpdateVehicle(Absent, Set(status), Absent, false))), 0)
  }

  function DutyPatch(id: Id, isAvailable: bool): Event {
    Event(OnDrivers(Drivers.Update("t", id, Drivers.UpdateDriver(Absent, Absent, Set(isAvailable), Absent, false))), 0)
  }

  function PrimaryPatch(id: Id, branchId: Id): Event {
    Event(OnUsers(Users.Update("t", id, Users.UpdateUser(Absent, Absent, Set(branchId), None, false), "boss")), 0)
  }

  function ActivityPatch(id: Id, isActive: bool): Event {
    Event(OnAccounts(Accounts.PatchTenant(id, Set(isActive))), 0)
  }

  /** Any live vehicle without a running trip may be patched to ON_TRIP. */
  lemma IdleVehicleMoves(db: Db, id: Id)
    requires LiveVehicle(db.vehicles, "t", id) && !TripRuns.HasRunningTrip(db.trips, id)
    ensures Outcome(db, StatusPatch(id, ON_TRIP)).Ok? && !TripRuns.Mirrors(Step(db, StatusPatch(id, ON_TRIP)))
  {
    assert Step(db, StatusPatch(id, ON_TRIP)).vehicles[id].status == ON_TRIP;
  }

  /** Any live driver without a running trip may be taken off duty. */
  lemma IdleDriverRests(db: Db, id: Id)
    requires LiveDriver(db.drivers, "t", id) && !TripRuns.DriverHasRunningTrip(db.trips, id)
    ensures Outcome(db, DutyPatch(id, false)).Ok? && !TripRuns.Busy(Step(db, DutyPatch(id, false)))
  {
    assert !Step(db, DutyPatch(id, false)).drivers[id].isAvailable;
  }

  /** Any manageable user may be given a live branch the user is not listed for. */
  lemma UserMoves(db: Db, id: Id, branchId: Id)
    requires LiveUser(db.users, "t", id) && Users.Manageable(db.users[id].role) && id != "boss"
    requires LiveBranch(db.branches, "t", branchId) && branchId != ""
      && UserBranch("t", id, branchId) !in db.userBranches
    ensures Outcome(db, PrimaryPatch(id, branchId)).Ok?
    ensures var after := Step(db, PrimaryPatch(id, branchId)); !LinkRuns.PrimaryListed(after.users, after.userBranches)
  {
    var after := Step(db, PrimaryPatch(id, branchId));
    assert after.users[id].branchId == Some(branchId) && after.users[id].tenantId == "t";
  }

  /** Any tenant with an approved ADMIN may be made inactive. */
  lemma TenantFreezes(db: Db, id: Id, admin: Id)
    requires Accounts.LiveTenant(db.tenants, id) && admin in db.users
    requires db.users[admin].role == ADMIN && db.users[admin].tenantId == id
      && db.users[admin].approvalStatus == APPROVED
    ensures Outcome(db, ActivityPatch(id, false)).Ok? && !AccountRuns.TenantsMirror(Step(db, ActivityPatch(id, false)))
  {
    var after := Step(db, ActivityPatch(id, false));
    assert after.users[admin] == db.users[admin] && !after.tenants[id].isActive;
  }

  lemma FleetMirrors()
    ensures TripRuns.Mirrors(FLEET) && TripRuns.Busy(FLEET) && AccountRuns.TenantsMirror(FLEET)
    ensures LinkRuns.PrimaryListed(FLEET.users, FLEET.userBranches)
  {
  }

  /** A status patch is accepted for an idle vehicle, which then is ON_TRIP without a running trip. */
  lemma StatusPatchBreaksMirror()
    ensures var db := Run(EMPTY_DB, SetUp());
      && TripRuns.Mirrors(db)
      && Outcome(db, StatusPatch("van", ON_TRIP)).Ok?
      && !TripRuns.Mirrors(Step(db, StatusPatch("van", ON_TRIP)))
  {
    FleetIsReachable();
    FleetMirrors();
    IdleVehicleMoves(FLEET, "van");
  }

  /** An idle driver may be taken off duty, and then is unavailable without a running trip. */
  lemma DutyPatchBreaksBusy()
    ensures var db := Run(EMPTY_DB, SetUp());
      && TripRuns.Busy(db)
      && Outcome(db, DutyPatch("ann", false)).Ok?
      && !TripRuns.Busy(Step(db, DutyPatch("ann", false)))
  {
    FleetIsReachable();
    FleetMirrors();
    IdleDriverRests(FLEET, "ann");
  }

  /** A primary branch may be named without a list, and then is none of the user's rows. */
  lemma PrimaryPatchUnlistsBranch()
    ensures var db := Run(EMPTY_DB, SetUp());
      var after := Step(db, PrimaryPatch("ua", "main"));
      && LinkRuns.PrimaryListed(db.users, db.userBranches)
      && Outcome(db, PrimaryPatch("ua", "main")).Ok?
      && !LinkRuns.PrimaryListed(after.users, after.userBranches)
  {
    FleetIsReachable();
    FleetMirrors();
    UserMoves(FLEET, "ua", "main");
  }

  /** A tenant patch makes the tenant inactive while its ADMIN stays approved. */
  lemma TenantPatchBreaksMirror()
    ensures var db := Run(EMPTY_DB, SetUp());
      && AccountRuns.TenantsMirror(db)
      && Outcome(db, ActivityPatch("t", false)).Ok?
      && !AccountRuns.TenantsMirror(Step(db, ActivityPatch("t", false)))
  {
    FleetIsReachable();
    FleetMirrors();
    TenantFreezes(FLEET, "t", "boss");
  }

  // ── Assignments and trips of the fleet ─────────────────────────────────────

  lemma DriversOfAccounts(drivers: map<Id, Driver>)
    requires drivers.Keys == {"ann", "bob"}
    requires drivers["ann"] == ANN.(isAvailable := drivers["ann"].isAvailable)
    requires drivers["bob"] == BOB.(isAvailable := drivers["bob"].isAvailable)
    ensures Trips.DriverOf(drivers, "ua", "t") == Some("ann")
    ensures Trips.DriverOf(drivers, "ub", "t") == Some("bob")
  {
    assert Trips.LinkedTo(drivers["ann"], "ua", "t");
    assert Trips.LinkedTo(drivers["bob"], "ub", "t");
  }

  /** An assignment that meets no other one is accepted. */
  lemma Assigns(db: Db, dto: Assignments.CreateAssignment, id: Id)
    requires LiveVehicle(db.vehicles, "t", dto.vehicleId) && LiveDriver(db.drivers, "t", dto.driverId)
    requires dto.endDate.Set? && dto.startDate < dto.endDate.value && id !in db.assignments
    requires forall i :: i in db.assignments ==>
      !AssignmentRuns.Meet(db.assignments[i], Assignment("", "", dto.startDate, Some(dto.endDate.value), None))
    ensures Step(db, Event(OnAssignments(Assignments.Create("t", dto, id)), 0)) == db.(
      assignments :=
        db.assignments[id := Assignment(dto.vehicleId, dto.driverId, dto.startDate, Some(dto.endDate.value), None)])
  {
  }

  function Trip0(vehicleId: Id, driverId: Id, start: Time): Trip {
    Trip("t", vehicleId, driverId, start, None, 0, 0, 0, 0, None)
  }

  /** A driver with a covering assignment starts an idle vehicle. */
  lemma Starts(db: Db, vehicleId: Id, userId: Id, driverId: Id, assignmentId: Id, now: Time, newId: Id)
    requires Trips.DriverOf(db.drivers, userId, "t") == Some(driverId)
    requires assignmentId in db.assignments && db.assignments[assignmentId].deletedAt.None?
    requires db.assignments[assignmentId].vehicleId == vehicleId && db.assignments[assignmentId].driverId == driverId
    requires Intervals.Covers(db.assignments[assignmentId].startDate, db.assignments[assignmentId].endDate, now)
    requires LiveVehicle(db.vehicles, "t", vehicleId) && db.vehicles[vehicleId].status == AVAILABLE
    requires newId !in db.trips && forall i :: i in db.trips ==> db.trips[i].vehicleId != vehicleId
    ensures Outcome(db, Event(OnTrips(Trips.Start("t", vehicleId, userId, newId)), now)) == Ok(db.(
      trips := db.trips[newId := Trip0(vehicleId, driverId, now)],
      vehicles := db.vehicles[vehicleId := db.vehicles[vehicleId].(status := ON_TRIP)],
      drivers := db.drivers[driverId := db.drivers[driverId].(isAvailable := false)]))
  {
    assert Trips.MayDrive(db.assignments, driverId, vehicleId, now);
  }

  // ── A widening update overlaps ─────────────────────────────────────────────

  const EARLY_SHIFT := Assignment("van", "ann", 0, Some(10), None)
  const LATE_SHIFT := Assignment("van", "bob", 20, Some(30), None)
  const EARLY_DTO := Assignments.CreateAssignment("van", "ann", 0, Set(10))
  const LATE_DTO := Assignments.CreateAssignment("van", "bob", 20, Set(30))
  const ASSIGN_EARLY := Event(OnAssignments(Assignments.Create("t", EARLY_DTO, "early")), 0)
  const ASSIGN_LATE := Event(OnAssignments(Assignments.Create("t", LATE_DTO, "late")), 0)

  /** Removes the end of the early shift. */
  const WIDEN :=
    Event(OnAssignments(Assignments.Update("t", "early", Assignments.UpdateAssignment(Absent, Absent, Absent, Null))),
    0)

  const FIRST_SHIFT := FLEET.(assignments := map["early" := EARLY_SHIFT])
  const TWO_SHIFTS := FLEET.(assignments := map["early" := EARLY_SHIFT, "late" := LATE_SHIFT])
  const WIDENED := FLEET.(assignments := map["early" := EARLY_SHIFT.(endDate := None), "late" := LATE_SHIFT])

  lemma ShiftsAreAssigned()
    ensures Step(FLEET, ASSIGN_EARLY) == FIRST_SHIFT
    ensures Step(FIRST_SHIFT, ASSIGN_LATE) == TWO_SHIFTS
  {
    Assigns(FLEET, EARLY_DTO, "early");
    Assigns(FIRST_SHIFT, LATE_DTO, "late");
  }

  lemma TwoSteps(db0: Db, e1: Event, db1: Db, e2: Event, db2: Db)
    requires Step(db0, e1) == db1 && Step(db1, e2) == db2
    ensures Run(db0, [e1, e2]) == db2
  {
    PassesIsRun([db0, db1, db2], [e1, e2]);
  }

  lemma ShiftsAreReachable()
    ensures Run(EMPTY_DB, SetUp() + [ASSIGN_EARLY, ASSIGN_LATE]) == TWO_SHIFTS
  {
    FleetIsReachable();
    ShiftsAreAssigned();
    TwoSteps(FLEET, ASSIGN_EARLY, FIRST_SHIFT, ASSIGN_LATE, TWO_SHIFTS);
    RunConcat(EMPTY_DB, SetUp(), [ASSIGN_EARLY, ASSIGN_LATE]);
  }

  lemma WideningIsAccepted()
    ensures Outcome(TWO_SHIFTS, WIDEN) == Ok(WIDENED)
  {
    assert TWO_SHIFTS.assignments["early" := EARLY_SHIFT.(endDate := None)] == WIDENED.assignments;
  }

  lemma ShiftsClash()
    ensures AssignmentRuns.Exclusive(TWO_SHIFTS.assignments) && !AssignmentRuns.Exclusive(WIDENED.assignments)
  {
    var early, late := WIDENED.assignments["early"], WIDENED.assignments["late"];
    assert AssignmentRuns.Compete(early, late) && AssignmentRuns.Meet(early, late);
  }

  lemma EitherMayStart()
    ensures Outcome(WIDENED, Event(OnTrips(Trips.Start("t", "van", "ua", "trip")), 25)).Ok?
    ensures Outcome(WIDENED, Event(OnTrips(Trips.Start("t", "van", "ub", "trip")), 25)).Ok?
  {
    DriversOfAccounts(WIDENED.drivers);
    Starts(WIDENED, "van", "ua", "ann", "early", 25, "trip");
    Starts(WIDENED, "van", "ub", "bob", "late", 25, "trip");
  }

  /**
   * In a reachable state a widening is accepted, after which either of two drivers may start one van
   * at the same instant.
   */
  lemma WideningUpdateOverlaps()
    ensures var db := Run(EMPTY_DB, SetUp() + [ASSIGN_EARLY, ASSIGN_LATE]);
      && AssignmentRuns.Exclusive(db.assignments)
      && Outcome(db, WIDEN).Ok?
      && !AssignmentRuns.Exclusive(Step(db, WIDEN).assignments)
      && Outcome(Step(db, WIDEN), Event(OnTrips(Trips.Start("t", "van", "ua", "trip")), 25)).Ok?
      && Outcome(Step(db, WIDEN), Event(OnTrips(Trips.Start("t", "van", "ub", "trip")), 25)).Ok?
  {
    ShiftsAreReachable();
    WideningIsAccepted();
    ShiftsClash();
    EitherMayStart();
  }

  // ── A free driver may still be on the road ─────────────────────────────────

  const BUS_SHIFT := Assignment("bus", "ann", 20, Some(30), None)
  const BUS_DTO := Assignments.CreateAssignment("bus", "ann", 20, Set(30))
  const ASSIGN_BUS := Event(OnAssignments(Assignments.Create("t", BUS_DTO, "late")), 0)

  const NO_COSTS := Trips.UpdateTrip(Absent, Absent, Absent, Absent)
  const START_VAN := Event(OnTrips(Trips.Start("t", "van", "ua", "t1")), 5)
  const START_BUS := Event(OnTrips(Trips.Start("t", "bus", "ua", "t2")), 25)
  const END_VAN := Event(OnTrips(Trips.End("t", "t1", "ua", NO_COSTS, DRIVER)), 28)

  const ANN_TWICE := FLEET.(assignments := map["early" := EARLY_SHIFT, "late" := BUS_SHIFT])

  /** The fleet with both of Ann's shifts and the given trips. */
  function OnRoad(van: VehicleStatus, bus: VehicleStatus, annAvailable: bool, trips: map<Id, Trip>): Db {
    ANN_TWICE.(
    vehicles := map["van" := VAN.(status := van), "bus" := BUS.(status := bus)],
    drivers := map["ann" := ANN.(isAvailable := annAvailable), "bob" := BOB],
    trips := trips)
  }

  const VAN_OUT := OnRoad(ON_TRIP, AVAILABLE, false, map["t1" := Trip0("van", "ann", 5)])
  const BOTH_OUT :=
    OnRoad(ON_TRIP, ON_TRIP, false, map["t1" := Trip0("van", "ann", 5), "t2" := Trip0("bus", "ann", 25)])
  const VAN_BACK := OnRoad(AVAILABLE, ON_TRIP, true,
    map["t1" := Trip0("van", "ann", 5).(endTime := Some(28)), "t2" := Trip0("bus", "ann", 25)])

  lemma AnnIsAssignedTwice()
    ensures Run(EMPTY_DB, SetUp() + [ASSIGN_EARLY, ASSIGN_BUS]) == ANN_TWICE
  {
    FleetIsReachable();
    Assigns(FLEET, EARLY_DTO, "early");
    Assigns(FIRST_SHIFT, BUS_DTO, "late");
    TwoSteps(FLEET, ASSIGN_EARLY, FIRST_SHIFT, ASSIGN_BUS, ANN_TWICE);
    RunConcat(EMPTY_DB, SetUp(), [ASSIGN_EARLY, ASSIGN_BUS]);
  }

  lemma VanGoesOut()
    ensures Step(ANN_TWICE, START_VAN) == VAN_OUT
  {
    DriversOfAccounts(ANN_TWICE.drivers);
    Starts(ANN_TWICE, "van", "ua", "ann", "early", 5, "t1");
  }

  lemma BusOutTables()
    ensures VAN_OUT.trips["t2" := Trip0("bus", "ann", 25)] == BOTH_OUT.trips
    ensures VAN_OUT.vehicles["bus" := BUS.(status := ON_TRIP)] == BOTH_OUT.vehicles
    ensures VAN_OUT.drivers["ann" := ANN.(isAvailable := false)] == BOTH_OUT.drivers
  {
  }

  lemma BusGoesOut()
    ensures Step(VAN_OUT, START_BUS) == BOTH_OUT
  {
    DriversOfAccounts(VAN_OUT.drivers);
    Starts(VAN_OUT, "bus", "ua", "ann", "late", 25, "t2");
    BusOutTables();
  }

  /** A driver ends a trip of the driver's own. */
  lemma Ends(db: Db, tripId: Id, userId: Id, now: Time)
    requires Trips.LiveTrip(db.trips, "t", tripId) && db.trips[tripId].endTime.None?
    requires Trips.DriverOf(db.drivers, userId, "t") == Some(db.trips[tripId].driverId)
    requires db.trips[tripId].vehicleId in db.vehicles
    ensures var t := db.trips[tripId];
      Outcome(db, Event(OnTrips(Trips.End("t", tripId, userId, NO_COSTS, DRIVER)), now)) == Ok(db.(
        trips := db.trips[tripId := t.(endTime := Some(now))],
        vehicles := db.vehicles[t.vehicleId := db.vehicles[t.vehicleId].(status := AVAILABLE)],
        drivers := db.drivers[t.driverId := db.drivers[t.driverId].(isAvailable := true)]))
  {
  }

  lemma VanBackTables()
    ensures BOTH_OUT.trips["t1" := Trip0("van", "ann", 5).(endTime := Some(28))] == VAN_BACK.trips
    ensures BOTH_OUT.vehicles["van" := VAN] == VAN_BACK.vehicles
    ensures BOTH_OUT.drivers["ann" := ANN] == VAN_BACK.drivers
  {
  }

  lemma VanComesBack()
    ensures Step(BOTH_OUT, END_VAN) == VAN_BACK
  {
    DriversOfAccounts(BOTH_OUT.drivers);
    Ends(BOTH_OUT, "t1", "ua", 28);
    VanBackTables();
  }

  /** Five accepted calls on from the set-up: the driver is available although the second trip is still running. */
  lemma FreeDriverOnTheRoad()
    ensures var db := Run(EMPTY_DB, SetUp() + [ASSIGN_EARLY, ASSIGN_BUS] + [START_VAN, START_BUS, END_VAN]);
      "ann" in db.drivers && db.drivers["ann"].isAvailable && TripRuns.DriverHasRunningTrip(db.trips, "ann")
  {
    AnnIsAssignedTwice();
    VanGoesOut();
    BusGoesOut();
    VanComesBack();
    ThreeSteps(ANN_TWICE, START_VAN, VAN_OUT, START_BUS, BOTH_OUT, END_VAN, VAN_BACK);
    RunConcat(EMPTY_DB, SetUp() + [ASSIGN_EARLY, ASSIGN_BUS], [START_VAN, START_BUS, END_VAN]);
    assert "t2" in VAN_BACK.trips && TripRuns.Running(VAN_BACK.trips["t2"]);
  }

  /** A driver on the road may be patched to available. */
  lemma BusyDriverIsReleased(db: Db, id: Id)
    requires LiveDriver(db.drivers, "t", id) && TripRuns.DriverHasRunningTrip(db.trips, id)
    ensures Outcome(db, DutyPatch(id, true)).Ok? && !TripRuns.Free(Step(db, DutyPatch(id, true)))
  {
    assert Step(db, DutyPatch(id, true)).drivers[id].isAvailable;
  }

  lemma VanOutIsFree()
    ensures TripRuns.Free(VAN_OUT) && TripRuns.DriverHasRunningTrip(VAN_OUT.trips, "ann")
  {
    assert "t1" in VAN_OUT.trips && TripRuns.Running(VAN_OUT.trips["t1"]);
  }

  lemma DutyPatchReleasesEarly()
    ensures var db := Run(EMPTY_DB, SetUp() + [ASSIGN_EARLY, ASSIGN_BUS] + [START_VAN]);
      && TripRuns.Free(db)
      && Outcome(db, DutyPatch("ann", true)).Ok?
      && !TripRuns.Free(Step(db, DutyPatch("ann", true)))
  {
    AnnIsAssignedTwice();
    VanGoesOut();
    PassesIsRun([ANN_TWICE, VAN_OUT], [START_VAN]);
    RunConcat(EMPTY_DB, SetUp() + [ASSIGN_EARLY, ASSIGN_BUS], [START_VAN]);
    VanOutIsFree();
    BusyDriverIsReleased(VAN_OUT, "ann");
  }
}
