/**
 * Interleavings outside the discipline that double-book or revive a booking, and a booking of a
 * stranger's vehicle, from the fleet of one van of the first of two registered tenants.
 */
module BookingExamples {
  import opened Common
  import opened Schema
  import opened Scheduling
  import opened Bookings
  import opened BookingRuns
  import opened BookingCommits
  import opened BookingLifecycle
  import Accounts
  import System
  import Vehicles

  // ── The discipline is needed ───────────────────────────────────────────────

  const VAN := Vehicle("tenant", None, "REG-1", AVAILABLE, None)
  const OWNER := User("tenant", None, "owner@", ADMIN, APPROVED, true, None)
  const OTHER := User("stranger", None, "other@", ADMIN, APPROVED, true, None)
  const TWO_FIRMS := EMPTY_DB.(
    tenants := map["tenant" := Tenant(true, None), "stranger" := Tenant(true, None)],
    users := map["owner" := OWNER, "other" := OTHER])
  const FLEET := TWO_FIRMS.(vehicles := map["van" := VAN])
  const HIRE := CreateBooking("van", Absent, 100, 200, Absent)

  /** The fleet with the given bookings. */
  function With(bookings: map<Id, Booking>): Db {
    FLEET.(bookings := bookings)
  }

  function Hire(status: BookingStatus): Booking {
    NewBooking("tenant", HIRE).(status := status)
  }

  const HIRING := Create("tenant", HIRE)

  /** Every check of one request; only its write is still to come. */
  function Checks(ticket: nat, rq: Request): seq<Event> {
    [Arrive(ticket, rq), Advance(ticket, ""), Advance(ticket, ""), Advance(ticket, "")]
  }

  lemma ChecksLead(w: World, ticket: nat, rq: Request, row: Booking)
    requires ticket !in w.flights && Load(w.db, rq) == Ok(row)
    requires VehiclePasses(w.db, rq, row) && DriverPasses(w.db, rq, row)
    ensures Run(w, Checks(ticket, rq)) == w.(flights := w.flights[ticket := Flight(rq, DriverCleared(row))])
  {
    var w1 := Moved(w, ticket, rq, Arrived);
    var w2 := Moved(w, ticket, rq, Loaded(row));
    var w3 := Moved(w, ticket, rq, VehicleCleared(row));
    var w4 := Moved(w, ticket, rq, DriverCleared(row));
    assert Step(w1, Advance(ticket, "")).flights == w2.flights;
    assert Step(w2, Advance(ticket, "")).flights == w3.flights;
    assert Step(w3, Advance(ticket, "")).flights == w4.flights;
    PassesIsRun([w, w1, w2, w3, w4], Checks(ticket, rq));
  }

  lemma HirePasses(bookings: map<Id, Booking>)
    requires forall i :: i in bookings ==> !Active(bookings[i])
    ensures Load(With(bookings), HIRING) == Ok(Hire(PENDING))
    ensures VehiclePasses(With(bookings), HIRING, Hire(PENDING)) && DriverPasses(With(bookings), HIRING, Hire(PENDING))
  {
  }

  lemma WriteEnds(w: World, ticket: nat, newId: Id)
    requires ticket in w.flights && w.flights[ticket].stage.DriverCleared?
    ensures Run(w, [Advance(ticket, newId)]).db
      == Settle(w.db, Write(w.db, w.flights[ticket].request, w.flights[ticket].stage.row, newId))
  {
    PassesIsRun([w, Step(w, Advance(ticket, newId))], [Advance(ticket, newId)]);
  }

  lemma HireWrites(bookings: map<Id, Booking>, newId: Id)
    requires newId !in bookings
    ensures Settle(With(bookings), Write(With(bookings), HIRING, Hire(PENDING), newId))
      == With(bookings[newId := Hire(PENDING)])
  {
  }

  lemma ConfirmWrites(bookings: map<Id, Booking>)
    requires "a" in bookings
    ensures Settle(With(bookings), Write(With(bookings), Confirm("tenant", "a"), Hire(PENDING), ""))
      == With(bookings["a" := bookings["a"].(status := CONFIRMED)])
  {
  }

  lemma CancelThenHire()
    ensures Settle(With(map["a" := Hire(PENDING)]),
      AfterRequest(With(map["a" := Hire(PENDING)]), Cancel("tenant", "a"), ""))
      == With(map["a" := Hire(CANCELLED)])
    ensures Settle(With(map["a" := Hire(CANCELLED)]), AfterRequest(With(map["a" := Hire(CANCELLED)]), HIRING, "b"))
      == With(map["a" := Hire(CANCELLED), "b" := Hire(PENDING)])
  {
    HirePasses(map["a" := Hire(CANCELLED)]);
  }

  lemma TwoActiveHiresClash(bookings: map<Id, Booking>, status: BookingStatus)
    requires status == PENDING || status == CONFIRMED
    requires bookings == map["a" := Hire(status), "b" := Hire(PENDING)]
    ensures !NoDoubleBooking(bookings)
  {
    assert Rivals(bookings["a"], bookings["b"]);
  }

  /** Without the discipline on targets: two creations both look before either writes. */
  function LookLookWriteWrite(): seq<Event> {
    Checks(0, HIRING) + (Checks(1, HIRING) + ([Advance(0, "a")] + [Advance(1, "b")]))
  }

  lemma BothLook(w2: World)
    requires w2 == World(With(map[]),
      map[0 := Flight(HIRING, DriverCleared(Hire(PENDING))), 1 := Flight(HIRING, DriverCleared(Hire(PENDING)))])
    ensures Run(World(FLEET, map[]), LookLookWriteWrite()) == Run(w2, [Advance(0, "a")] + [Advance(1, "b")])
  {
    var w0 := World(With(map[]), map[]);
    var w1 := World(With(map[]), map[0 := Flight(HIRING, DriverCleared(Hire(PENDING)))]);
    var writes := [Advance(0, "a")] + [Advance(1, "b")];
    HirePasses(map[]);
    ChecksLead(w0, 0, HIRING, Hire(PENDING));
    RunConcat(w0, Checks(0, HIRING), Checks(1, HIRING) + writes);
    assert Run(w0, Checks(0, HIRING)) == w1;
    ChecksLead(w1, 1, HIRING, Hire(PENDING));
    RunConcat(w1, Checks(1, HIRING), writes);
    assert Run(w1, Checks(1, HIRING)) == w2;
  }

  lemma SharedTargetDoubleBooks()
    ensures !NoDoubleBooking(Run(World(FLEET, map[]), LookLookWriteWrite()).db.bookings)
  {
    var cleared := Flight(HIRING, DriverCleared(Hire(PENDING)));
    var w2 := World(With(map[]), map[0 := cleared, 1 := cleared]);
    BothLook(w2);
    RunConcat(w2, [Advance(0, "a")], [Advance(1, "b")]);
    HireWrites(map[], "a");
    WriteEnds(w2, 0, "a");
    var w3 := Run(w2, [Advance(0, "a")]);
    HireWrites(w3.db.bookings, "b");
    WriteEnds(w3, 1, "b");
    TwoActiveHiresClash(Run(w3, [Advance(1, "b")]).db.bookings, PENDING);
  }

  /** Without the discipline on bookings: a confirmation revives a booking that was cancelled and replaced meanwhile. */
  function ConfirmAcrossCancel(): seq<Event> {
    Checks(0, Confirm("tenant", "a"))
    + (Alone(1, Cancel("tenant", "a"), "") + (Alone(2, HIRING, "b") + [Advance(0, "")]))
  }

  lemma SharedBookingDoubleBooks()
    ensures var start := With(map["a" := Hire(PENDING)]);
      NoDoubleBooking(start.bookings) && !NoDoubleBooking(Run(World(start, map[]), ConfirmAcrossCancel()).db.bookings)
  {
    var confirm, cancel := Confirm("tenant", "a"), Cancel("tenant", "a");
    var w0 := World(With(map["a" := Hire(PENDING)]), map[]);
    ChecksLead(w0, 0, confirm, Hire(PENDING));
    RunConcat(w0, Checks(0, confirm), Alone(1, cancel, "") + (Alone(2, HIRING, "b") + [Advance(0, "")]));
    CancelledAndReplaced(Run(w0, Checks(0, confirm)));
  }

  lemma CancelledAndReplaced(w: World)
    requires w.db == With(map["a" := Hire(PENDING)])
    requires w.flights == map[0 := Flight(Confirm("tenant", "a"), DriverCleared(Hire(PENDING)))]
    ensures !NoDoubleBooking(Run(w,
      Alone(1, Cancel("tenant", "a"), "") + (Alone(2, HIRING, "b") + [Advance(0, "")])).db.bookings)
  {
    CancelThenHire();
    AloneIsAtomic(w, 1, Cancel("tenant", "a"), "");
    RunConcat(w, Alone(1, Cancel("tenant", "a"), ""), Alone(2, HIRING, "b") + [Advance(0, "")]);
    var w2 := World(With(map["a" := Hire(CANCELLED)]), w.flights);
    AloneIsAtomic(w2, 2, HIRING, "b");
    RunConcat(w2, Alone(2, HIRING, "b"), [Advance(0, "")]);
    Revived(World(With(map["a" := Hire(CANCELLED), "b" := Hire(PENDING)]), w.flights));
  }

  lemma Revived(w: World)
    requires w.db == With(map["a" := Hire(CANCELLED), "b" := Hire(PENDING)])
    requires w.flights == map[0 := Flight(Confirm("tenant", "a"), DriverCleared(Hire(PENDING)))]
    ensures !NoDoubleBooking(Run(w, [Advance(0, "")]).db.bookings)
  {
    ConfirmWrites(w.db.bookings);
    WriteEnds(w, 0, "");
    TwoActiveHiresClash(Run(w, [Advance(0, "")]).db.bookings, CONFIRMED);
  }

  /** The checks of a confirmation, then the cancellation of the same booking as a whole. */
  function CheckThenCancel(): seq<Event> {
    Checks(0, Confirm("tenant", "a")) + Alone(1, Cancel("tenant", "a"), "")
  }

  lemma CancelledMeanwhile()
    ensures Run(World(With(map["a" := Hire(PENDING)]), map[]), CheckThenCancel()) == World(
      With(map["a" := Hire(CANCELLED)]), map[0 := Flight(Confirm("tenant", "a"), DriverCleared(Hire(PENDING)))])
  {
    var w0 := World(With(map["a" := Hire(PENDING)]), map[]);
    var w1 := World(w0.db, map[0 := Flight(Confirm("tenant", "a"), DriverCleared(Hire(PENDING)))]);
    ChecksLead(w0, 0, Confirm("tenant", "a"), Hire(PENDING));
    assert Run(w0, Checks(0, Confirm("tenant", "a"))) == w1;
    CancelThenHire();
    AloneIsAtomic(w1, 1, Cancel("tenant", "a"), "");
    RunConcat(w0, Checks(0, Confirm("tenant", "a")), Alone(1, Cancel("tenant", "a"), ""));
  }

  /** A closed row is not frozen in every run: the write of the late confirmation turns CANCELLED into CONFIRMED. */
  lemma LateConfirmationRevives()
    ensures var w := Run(World(With(map["a" := Hire(PENDING)]), map[]), CheckThenCancel());
      && "a" in w.db.bookings && w.db.bookings["a"].status == CANCELLED
      && Reopens(w, Advance(0, ""))
      && "a" in Step(w, Advance(0, "")).db.bookings && Step(w, Advance(0, "")).db.bookings["a"].status == CONFIRMED
  {
    CancelledMeanwhile();
    ConfirmWrites(map["a" := Hire(CANCELLED)]);
  }

  // ── Two tenants on one van ─────────────────────────────────────────────────

  const STRANGER := NewBooking("stranger", HIRE)
  const HIRED_TWICE := map["a" := Hire(PENDING), "b" := STRANGER]

  lemma TenantHires()
    ensures AfterRequest(FLEET, HIRING, "a") == Ok(With(map["a" := Hire(PENDING)]))
  {
    HirePasses(map[]);
    assert With(map[]) == FLEET;
  }

  lemma StrangerHires()
    ensures AfterRequest(With(map["a" := Hire(PENDING)]), Create("stranger", HIRE), "b") == Ok(With(HIRED_TWICE))
  {
    var db := With(map["a" := Hire(PENDING)]);
    assert VehicleAvailable(db, "van", "stranger", 100, 200);
    assert db.bookings["b" := STRANGER] == HIRED_TWICE;
  }

  /**
   * Tenants are not isolated: the same hire by the owner of the van and by another tenant both
   * succeed, and the van is booked twice.
   */
  lemma StrangerBooksTheSameVan()
    ensures AfterRequest(FLEET, HIRING, "a").Ok?
    ensures var db := AfterRequest(FLEET, HIRING, "a").value;
      && Owned(db)
      && AfterRequest(db, Create("stranger", HIRE), "b").Ok?
      && !OwnTarget(db.vehicles, Create("stranger", HIRE))
    ensures var db := AfterRequest(AfterRequest(FLEET, HIRING, "a").value, Create("stranger", HIRE), "b").value;
      NoDoubleBooking(db.bookings) && !Owned(db) && !VehiclesBookedOnce(db.bookings)
  {
    TenantHires();
    StrangerHires();
    assert HIRED_TWICE["a"].vehicleId == HIRED_TWICE["b"].vehicleId;
    assert Active(HIRED_TWICE["a"]) && Active(HIRED_TWICE["b"]);
  }

  // ── The states of the examples are reachable ───────────────────────────────

  const FIRST_APPLIED := EMPTY_DB.(
    tenants := map["tenant" := Tenant(false, None)],
    users := map["owner" := OWNER.(approvalStatus := PENDING_APPROVAL, isActive := false)])
  const FIRST_FIRM := EMPTY_DB.(tenants := map["tenant" := Tenant(true, None)], users := map["owner" := OWNER])
  const SECOND_APPLIED := EMPTY_DB.(
    tenants := map["tenant" := Tenant(true, None), "stranger" := Tenant(false, None)],
    users := map["owner" := OWNER, "other" := OTHER.(approvalStatus := PENDING_APPROVAL, isActive := false)])

  const APPLY_FIRST := System.Event(System.OnAccounts(Accounts.Register("owner@", "tenant", "owner")), 0)
  const APPROVE_FIRST := System.Event(System.OnAccounts(Accounts.Decide(Accounts.Approve, "owner")), 0)
  const APPLY_SECOND := System.Event(System.OnAccounts(Accounts.Register("other@", "stranger", "other")), 0)
  const APPROVE_SECOND := System.Event(System.OnAccounts(Accounts.Decide(Accounts.Approve, "other")), 0)
  const BUY_VAN := System.Event(
    System.OnVehicles(Vehicles.Create("tenant", Vehicles.CreateVehicle("REG-1", Absent, false, None), "van")), 0)
  const HIRE_VAN := System.Event(System.OnBookings(HIRING, "a"), 0)

  lemma FirstFirmIsFounded()
    ensures System.Step(EMPTY_DB, APPLY_FIRST) == FIRST_APPLIED
    ensures System.Step(FIRST_APPLIED, APPROVE_FIRST) == FIRST_FIRM
  {
  }

  lemma SecondFirmIsFounded()
    ensures System.Step(FIRST_FIRM, APPLY_SECOND) == SECOND_APPLIED
    ensures System.Step(SECOND_APPLIED, APPROVE_SECOND) == TWO_FIRMS
  {
  }

  lemma VanIsBought()
    ensures System.Step(TWO_FIRMS, BUY_VAN) == FLEET
  {
  }

  lemma FiveSteps(dbs: seq<Db>, events: seq<System.Event>)
    requires |dbs| == 6 && |events| == 5
    requires System.Step(dbs[0], events[0]) == dbs[1] && System.Step(dbs[1], events[1]) == dbs[2]
    requires System.Step(dbs[2], events[2]) == dbs[3] && System.Step(dbs[3], events[3]) == dbs[4]
    requires System.Step(dbs[4], events[4]) == dbs[5]
    ensures System.Run(dbs[0], events) == dbs[5]
  {
    System.PassesIsRun(dbs, events);
  }

  const SET_UP := [APPLY_FIRST, APPROVE_FIRST, APPLY_SECOND, APPROVE_SECOND, BUY_VAN]

  lemma FleetIsReachable()
    ensures System.Run(EMPTY_DB, SET_UP) == FLEET
  {
    FirstFirmIsFounded();
    SecondFirmIsFounded();
    VanIsBought();
    FiveSteps([EMPTY_DB, FIRST_APPLIED, FIRST_FIRM, SECOND_APPLIED, TWO_FIRMS, FLEET], SET_UP);
  }

  lemma OneStepMore(db: Db, events: seq<System.Event>, e: System.Event)
    ensures System.Run(db, events + [e]) == System.Step(System.Run(db, events), e)
  {
    System.RunConcat(db, events, [e]);
    var last := System.Run(db, events);
    System.PassesIsRun([last, System.Step(last, e)], [e]);
  }

  lemma HireStep()
    ensures System.Step(FLEET, HIRE_VAN) == With(map["a" := Hire(PENDING)])
  {
    TenantHires();
  }

  lemma HireIsReachable()
    ensures System.Run(EMPTY_DB, SET_UP + [HIRE_VAN]) == With(map["a" := Hire(PENDING)])
  {
    FleetIsReachable();
    HireStep();
    OneStepMore(EMPTY_DB, SET_UP, HIRE_VAN);
  }
}
