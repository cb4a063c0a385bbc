/**
 * Bookings under interleaving with no discipline at all: exactly which commits double-book a
 * vehicle of a tenant, and exactly which leave a booking on a vehicle of another tenant.
 */
module BookingCommits {
  import opened Common
  import opened Intervals
  import opened Schema
  import opened Scheduling
  import opened Bookings
  import opened BookingRuns
  import System
  import Vehicles
  import Branches
  import Trips

  // ── What holds in every run whatsoever ─────────────────────────────────────

  /** A flight past its load carries the row of its body, or works on a stored booking of its tenant. */
  predicate Genuine(bookings: map<Id, Booking>, f: Flight) {
    f.stage.Arrived? ||
    match f.request
    case Create(tenantId, dto) => f.stage.row == NewBooking(tenantId, dto) && dto.startDate < dto.endDate
    case _ => f.request.id in bookings && bookings[f.request.id].tenantId == f.request.tenantId
  }

  ghost predicate AllGenuine(w: World) {
    && (forall k :: k in w.flights ==> Genuine(w.db.bookings, w.flights[k]))
    && (forall i :: i in w.db.bookings ==> w.db.bookings[i].startDate < w.db.bookings[i].endDate)
  }

  /** The event is the write of a flight, and the database accepts it. */
  predicate Commits(w: World, e: Event) {
    && e.Advance? && e.ticket in w.flights && w.flights[e.ticket].stage.DriverCleared?
    && Write(w.db, w.flights[e.ticket].request, w.flights[e.ticket].stage.row, e.newId).Ok?
  }

  function WrittenId(w: World, e: Event): Id
    requires Commits(w, e)
  {
    var rq := w.flights[e.ticket].request;
    if rq.Create? then e.newId else rq.id
  }

  /** The row that the commit leaves under `WrittenId`. */
  function Written(w: World, e: Event): Booking
    requires Commits(w, e)
  {
    var rq := w.flights[e.ticket].request;
    match rq
    case Create(_, _) => w.flights[e.ticket].stage.row
    case Confirm(_, id) => w.db.bookings[id].(status := CONFIRMED)
    case Cancel(_, id) => w.db.bookings[id].(status := CANCELLED)
    case Assign(_, id, change) => Reassigned(w.db.bookings[id], change)
  }

  lemma CommitStoresWritten(w: World, e: Event)
    requires AllGenuine(w) && Commits(w, e)
    ensures Step(w, e).db == w.db.(bookings := w.db.bookings[WrittenId(w, e) := Written(w, e)])
    ensures Written(w, e).startDate < Written(w, e).endDate
    ensures Written(w, e).tenantId == w.flights[e.ticket].request.tenantId
    ensures WrittenId(w, e) in w.db.bookings ==> w.db.bookings[WrittenId(w, e)].tenantId == Written(w, e).tenantId
  {
    assert Genuine(w.db.bookings, w.flights[e.ticket]);
  }

  lemma OtherEventsKeepBookings(w: World, e: Event)
    requires !Commits(w, e)
    ensures Step(w, e).db.bookings == w.db.bookings
  {
  }

  lemma StepKeepsGenuine(w: World, e: Event)
    requires AllGenuine(w)
    ensures AllGenuine(Step(w, e))
  {
    if Commits(w, e) {
      CommitStoresWritten(w, e);
      forall k | k in Step(w, e).flights
        ensures Genuine(Step(w, e).db.bookings, w.flights[k])
      {
        assert Genuine(w.db.bookings, w.flights[k]);
      }
    } else {
      OtherEventsKeepBookings(w, e);
      forall k | k in Step(w, e).flights
        ensures Genuine(w.db.bookings, Step(w, e).flights[k])
      {
        assert k in w.flights ==> Genuine(w.db.bookings, w.flights[k]);
      }
    }
  }

  // ── Double booking ─────────────────────────────────────────────────────────

  /** The commit stores an active row that another booking blocks at that moment. */
  predicate DoubleBooks(w: World, e: Event) {
    Commits(w, e) && Contested(w.db.bookings, WrittenId(w, e), Written(w, e))
  }

  /** One step keeps bookings disjoint if and only if it is not such a commit. */
  lemma StepDoubleBooksIff(w: World, e: Event)
    requires AllGenuine(w) && NoDoubleBooking(w.db.bookings)
    ensures NoDoubleBooking(Step(w, e).db.bookings) <==> !DoubleBooks(w, e)
  {
    if Commits(w, e) {
      CommitStoresWritten(w, e);
      PlacingKeepsNoDoubleBooking(w.db.bookings, WrittenId(w, e), Written(w, e));
    } else {
      OtherEventsKeepBookings(w, e);
    }
  }

  /** No state of the run has a double booking. */
  ghost predicate NeverDoubleBooked(w: World, events: seq<Event>)
    decreases |events|
  {
    NoDoubleBooking(w.db.bookings) && (events != [] ==> NeverDoubleBooked(Step(w, events[0]), events[1..]))
  }

  /** At every commit of the run the conflict query, asked again, would still come back empty. */
  predicate CommitsUncontested(w: World, events: seq<Event>)
    decreases |events|
  {
    events != [] ==> !DoubleBooks(w, events[0]) && CommitsUncontested(Step(w, events[0]), events[1..])
  }

  /** Any run at all, however its requests interleave: it never double-books if and only if no commit is contested. */
  lemma {:induction false} RunDoubleBooksIff(w: World, events: seq<Event>)
    requires AllGenuine(w) && NoDoubleBooking(w.db.bookings)
    ensures NeverDoubleBooked(w, events) <==> CommitsUncontested(w, events)
    decreases |events|
  {
    if events != [] {
      var next := Step(w, events[0]);
      StepDoubleBooksIff(w, events[0]);
      StepKeepsGenuine(w, events[0]);
      if NoDoubleBooking(next.db.bookings) {
        RunDoubleBooksIff(next, events[1..]);
      }
    }
  }

  lemma {:induction false} DisciplinedRunIsNeverDoubleBooked(w: World, events: seq<Event>)
    requires Safe(w) && Disciplined(w, events)
    ensures NeverDoubleBooked(w, events)
    decreases |events|
  {
    if events != [] {
      StepKeepsSafe(w, events[0]);
      DisciplinedRunIsNeverDoubleBooked(Step(w, events[0]), events[1..]);
    }
  }

  /** The discipline is one way to meet the exact condition. */
  lemma DisciplineAvoidsContests(w: World, events: seq<Event>)
    requires Safe(w) && AllGenuine(w) && Disciplined(w, events)
    ensures CommitsUncontested(w, events)
  {
    DisciplinedRunIsNeverDoubleBooked(w, events);
    RunDoubleBooksIff(w, events);
  }

  // ── Bookings on vehicles of other tenants ──────────────────────────────────

  /** Every booking is on a vehicle of its own tenant. */
  ghost predicate Owned(db: Db) {
    forall i :: i in db.bookings ==>
      db.bookings[i].vehicleId in db.vehicles
        && db.vehicles[db.bookings[i].vehicleId].tenantId == db.bookings[i].tenantId
  }

  /** The vehicle a request may put a booking on, if any, is of the requesting tenant. */
  predicate OwnTarget(vehicles: map<Id, Vehicle>, rq: Request) {
    TargetOf(rq).Some? ==> TargetOf(rq).value.1 in vehicles && vehicles[TargetOf(rq).value.1].tenantId == rq.tenantId
  }

  /** Vehicles stay and keep their tenant. */
  ghost predicate OwnersStay(before: map<Id, Vehicle>, after: map<Id, Vehicle>) {
    forall v :: v in before ==> v in after && after[v].tenantId == before[v].tenantId
  }

  /** A request that succeeds keeps every booking on its own tenant's vehicle if and only if it names one. */
  lemma RequestKeepsOwnedIff(db: Db, rq: Request, newId: Id, after: Db)
    requires Owned(db) && "" !in db.vehicles && AfterRequest(db, rq, newId) == Ok(after)
    ensures Owned(after) <==> OwnTarget(db.vehicles, rq)
  {
    var id := if rq.Create? then newId else rq.id;
    assert after == db.(bookings := db.bookings[id := after.bookings[id]]);
    assert after.bookings[id].tenantId == rq.tenantId;
    assert TargetOf(rq).Some? ==> after.bookings[id].vehicleId == TargetOf(rq).value.1;
    assert TargetOf(rq).None? ==> after.bookings[id].vehicleId == db.bookings[id].vehicleId;
  }

  /** The same for the write of a flight, whatever else is in the air. */
  lemma CommitKeepsOwnedIff(w: World, e: Event)
    requires AllGenuine(w) && Owned(w.db) && "" !in w.db.vehicles && Commits(w, e)
    ensures Owned(Step(w, e).db) <==> OwnTarget(w.db.vehicles, w.flights[e.ticket].request)
  {
    CommitStoresWritten(w, e);
    var rq, id, row := w.flights[e.ticket].request, WrittenId(w, e), Written(w, e);
    assert Genuine(w.db.bookings, w.flights[e.ticket]);
    assert Step(w, e).db.bookings[id] == row;
    assert TargetOf(rq).Some? ==> row.vehicleId == TargetOf(rq).value.1;
    assert TargetOf(rq).None? ==> id in w.db.bookings && row.vehicleId == w.db.bookings[id].vehicleId;
  }

  /** No call of any service removes a vehicle or moves it to another tenant. */
  lemma ServicesKeepOwners(db: Db, e: System.Event)
    ensures OwnersStay(db.vehicles, System.Step(db, e).vehicles)
  {
    if System.Outcome(db, e).Ok? {
      var after := System.Step(db, e);
      System.CallWrites(db, e, after);
      if e.op.OnVehicles? {
        Vehicles.CallKeepsRows(db, e.op.vehicle, e.now, after);
      } else if e.op.OnBranches? {
        Branches.CallKeepsRows(db, e.op.branch, e.now, after);
      } else if e.op.OnTrips? {
        Trips.CallKeepsOwners(db, e.op.trip, e.now, after);
      }
    }
  }

  /** Other services keep the owners of vehicles along the run, as `ServicesKeepOwners` says they do. */
  ghost predicate KeepsOwners(w: World, e: Event) {
    e.Elsewhere? && Foreign(w.db, e.db) ==> OwnersStay(w.db.vehicles, e.db.vehicles)
  }

  ghost predicate AlwaysOwned(w: World, events: seq<Event>)
    decreases |events|
  {
    Owned(w.db) && (events != [] ==> AlwaysOwned(Step(w, events[0]), events[1..]))
  }

  ghost predicate OwnersKept(w: World, events: seq<Event>)
    decreases |events|
  {
    events != [] ==> KeepsOwners(w, events[0]) && OwnersKept(Step(w, events[0]), events[1..])
  }

  /** Every commit of the run is of a request that names a vehicle of its own tenant, or none. */
  ghost predicate CommitsOwn(w: World, events: seq<Event>)
    decreases |events|
  {
    events != [] ==>
      && (Commits(w, events[0]) ==> OwnTarget(w.db.vehicles, w.flights[events[0].ticket].request))
      && CommitsOwn(Step(w, events[0]), events[1..])
  }

  lemma StepKeepsOwnedIff(w: World, e: Event)
    requires AllGenuine(w) && Owned(w.db) && "" !in w.db.vehicles && KeepsOwners(w, e)
    ensures "" !in Step(w, e).db.vehicles
    ensures Owned(Step(w, e).db) <==> (Commits(w, e) ==> OwnTarget(w.db.vehicles, w.flights[e.ticket].request))
  {
    if Commits(w, e) {
      CommitKeepsOwnedIff(w, e);
      CommitStoresWritten(w, e);
    } else {
      OtherEventsKeepBookings(w, e);
    }
  }

  /** Any run at all keeps every booking on its tenant's vehicle if and only if all its commits name own vehicles. */
  lemma {:induction false} RunKeepsOwnedIff(w: World, events: seq<Event>)
    requires AllGenuine(w) && Owned(w.db) && "" !in w.db.vehicles && OwnersKept(w, events)
    ensures AlwaysOwned(w, events) <==> CommitsOwn(w, events)
    decreases |events|
  {
    if events != [] {
      StepKeepsOwnedIff(w, events[0]);
      StepKeepsGenuine(w, events[0]);
      if Owned(Step(w, events[0]).db) {
        RunKeepsOwnedIff(Step(w, events[0]), events[1..]);
      }
    }
  }

  // ── Per vehicle, whoever books it ──────────────────────────────────────────

  /** No two active bookings of one vehicle overlap, whichever tenants made them. */
  ghost predicate VehiclesBookedOnce(bookings: map<Id, Booking>) {
    forall i, j ::
      && i in bookings && j in bookings && i != j
      && Active(bookings[i]) && Active(bookings[j]) && bookings[i].vehicleId == bookings[j].vehicleId ==>
      !Overlaps(bookings[i].startDate, bookings[i].endDate, bookings[j].startDate, bookings[j].endDate)
  }

  lemma OwnedMeansBookedOnce(db: Db)
    requires Owned(db) && NoDoubleBooking(db.bookings)
    ensures VehiclesBookedOnce(db.bookings)
  {
    forall i, j |
      && i in db.bookings && j in db.bookings && i != j
      && Active(db.bookings[i]) && Active(db.bookings[j]) && db.bookings[i].vehicleId == db.bookings[j].vehicleId
      ensures Rivals(db.bookings[i], db.bookings[j])
    {
    }
  }

  /** Every request of the run names, when it arrives, a vehicle of its own tenant or none. */
  ghost predicate ArrivalsOwn(w: World, events: seq<Event>)
    decreases |events|
  {
    events != [] ==>
      && (events[0].Arrive? ==> OwnTarget(w.db.vehicles, events[0].request))
      && ArrivalsOwn(Step(w, events[0]), events[1..])
  }

  ghost predicate FlightsOwn(w: World) {
    forall k :: k in w.flights ==> OwnTarget(w.db.vehicles, w.flights[k].request)
  }

  lemma StepKeepsFlightsOwn(w: World, e: Event)
    requires AllGenuine(w) && FlightsOwn(w) && KeepsOwners(w, e)
    requires e.Arrive? ==> OwnTarget(w.db.vehicles, e.request)
    ensures FlightsOwn(Step(w, e))
  {
    if Commits(w, e) {
      CommitStoresWritten(w, e);
    }
    forall k | k in Step(w, e).flights
      ensures OwnTarget(Step(w, e).db.vehicles, Step(w, e).flights[k].request)
    {
      assert k in w.flights ==> OwnTarget(w.db.vehicles, w.flights[k].request);
    }
  }

  lemma {:induction false} OwnArrivalsCommitOwn(w: World, events: seq<Event>)
    requires AllGenuine(w) && FlightsOwn(w) && OwnersKept(w, events) && ArrivalsOwn(w, events)
    ensures CommitsOwn(w, events)
    decreases |events|
  {
    if events != [] {
      StepKeepsFlightsOwn(w, events[0]);
      StepKeepsGenuine(w, events[0]);
      OwnArrivalsCommitOwn(Step(w, events[0]), events[1..]);
    }
  }

  lemma {:induction false} AlwaysMeansAtTheEnd(w: World, events: seq<Event>)
    ensures AlwaysOwned(w, events) ==> Owned(Run(w, events).db)
    ensures NeverDoubleBooked(w, events) ==> NoDoubleBooking(Run(w, events).db.bookings)
    decreases |events|
  {
    if events != [] {
      AlwaysMeansAtTheEnd(Step(w, events[0]), events[1..]);
    }
  }

  /**
   * In every disciplined run whose requests name vehicles of their own tenant, no vehicle is ever
   * booked twice for overlapping dates, whichever tenants book.
   */
  lemma NoVehicleIsBookedTwice(w: World, events: seq<Event>)
    requires w.flights == map[] && NoDoubleBooking(w.db.bookings) && Owned(w.db) && "" !in w.db.vehicles
    requires Disciplined(w, events) && OwnersKept(w, events) && ArrivalsOwn(w, events)
    ensures VehiclesBookedOnce(Run(w, events).db.bookings)
  {
    OwnArrivalsCommitOwn(w, events);
    RunKeepsOwnedIff(w, events);
    DisciplinedRunIsNeverDoubleBooked(w, events);
    AlwaysMeansAtTheEnd(w, events);
    OwnedMeansBookedOnce(Run(w, events).db);
  }
}
