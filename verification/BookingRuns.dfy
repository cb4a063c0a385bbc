/**
 * Bookings under interleaving: every request is a flight that advances one phase at a time
 * while other flights advance and the rest of the database changes freely.
 */
module BookingRuns {
  import opened Common
  import opened Intervals
  import opened Schema
  import opened Scheduling
  import opened Bookings

  datatype Stage =
    | Arrived
    | Loaded(row: Booking)
    | VehicleCleared(row: Booking)
    | DriverCleared(row: Booking)

  datatype Flight = Flight(request: Request, stage: Stage)

  datatype World = World(db: Db, flights: map<nat, Flight>)

  datatype Event =
    | Arrive(ticket: nat, request: Request)
    | Advance(ticket: nat, newId: Id)
    | Elsewhere(db: Db)

  function Dropped(w: World, ticket: nat): World {
    w.(flights := w.flights - {ticket})
  }

  function Moved(w: World, ticket: nat, request: Request, stage: Stage): World {
    w.(flights := w.flights[ticket := Flight(request, stage)])
  }

  /** One phase of one flight; a refused request leaves the air. */
  function Advanced(w: World, ticket: nat, newId: Id): World
    requires ticket in w.flights
  {
    var rq := w.flights[ticket].request;
    match w.flights[ticket].stage
    case Arrived =>
      (match Load(w.db, rq)
       case Ok(row) => Moved(w, ticket, rq, Loaded(row))
       case Err(_) => Dropped(w, ticket))
    case Loaded(row) =>
      if VehiclePasses(w.db, rq, row) then Moved(w, ticket, rq, VehicleCleared(row)) else Dropped(w, ticket)
    case VehicleCleared(row) =>
      if DriverPasses(w.db, rq, row) then Moved(w, ticket, rq, DriverCleared(row)) else Dropped(w, ticket)
    case DriverCleared(row) =>
      (match Write(w.db, rq, row, newId)
       case Ok(db) => World(db, w.flights - {ticket})
       case Err(_) => Dropped(w, ticket))
  }

  /** Other services may change every table but bookings; no row has the empty id. */
  predicate Foreign(before: Db, after: Db) {
    after.bookings == before.bookings && "" !in after.vehicles
  }

  function Step(w: World, e: Event): World {
    match e
    case Arrive(ticket, request) =>
      if ticket in w.flights then w else Moved(w, ticket, request, Arrived)
    case Advance(ticket, newId) =>
      if ticket in w.flights then Advanced(w, ticket, newId) else w
    case Elsewhere(db) =>
      if Foreign(w.db, db) then w.(db := db) else w
  }

  function Run(w: World, events: seq<Event>): World
    decreases |events|
  {
    if events == [] then w else Run(Step(w, events[0]), events[1..])
  }

  // ── The discipline on flights ──────────────────────────────────────────────

  function BookingOf(rq: Request): Option<Id> {
    if rq.Create? then None else Some(rq.id)
  }

  /** The (tenant, vehicle) a request may put a booking on. */
  function TargetOf(rq: Request): Option<(Id, Id)> {
    match rq
    case Create(tenantId, dto) => Some((tenantId, dto.vehicleId))
    case Assign(tenantId, _, change) => if Truthy(change.vehicleId) then Some((tenantId, change.vehicleId.value))
      else None
    case _ => None
  }

  predicate SharesBooking(a: Request, b: Request) {
    BookingOf(a).Some? && BookingOf(a) == BookingOf(b)
  }

  /** The dates a request books: those of its body, or of the booking stored under its id. */
  function RangeOf(bookings: map<Id, Booking>, rq: Request): Option<(Time, Time)> {
    if rq.Create? then
      if rq.dto.startDate < rq.dto.endDate then Some((rq.dto.startDate, rq.dto.endDate)) else None
    else if rq.id in bookings then Some((bookings[rq.id].startDate, bookings[rq.id].endDate))
    else None
  }

  /** Two requests for one (tenant, vehicle) whose dates overlap. */
  predicate Clashes(bookings: map<Id, Booking>, a: Request, b: Request) {
    && TargetOf(a).Some? && TargetOf(a) == TargetOf(b)
    && var (r, q) := (RangeOf(bookings, a), RangeOf(bookings, b));
    r.Some? && q.Some? && Overlaps(r.value.0, r.value.1, q.value.0, q.value.1)
  }

  ghost predicate Separate(w: World) {
    forall j, k :: j in w.flights && k in w.flights && j != k ==>
      && !SharesBooking(w.flights[j].request, w.flights[k].request)
      && !Clashes(w.db.bookings, w.flights[j].request, w.flights[k].request)
  }

  /** Flights stay separate all along the run. */
  ghost predicate Disciplined(w: World, events: seq<Event>)
    decreases |events|
  {
    Separate(w) && (events != [] ==> Disciplined(Step(w, events[0]), events[1..]))
  }

  // ── Safety ─────────────────────────────────────────────────────────────────

  ghost predicate SameSlot(a: Booking, b: Booking) {
    a.tenantId == b.tenantId && a.vehicleId == b.vehicleId
  }

  ghost predicate Rivals(a: Booking, b: Booking) {
    Active(a) && Active(b) && SameSlot(a, b)
  }

  /** Two active bookings of one (tenant, vehicle) never overlap, and every booking has positive length. */
  ghost predicate NoDoubleBooking(bookings: map<Id, Booking>) {
    && (forall i, j :: i in bookings && j in bookings && i != j && Rivals(bookings[i], bookings[j]) ==>
          !Overlaps(bookings[i].startDate, bookings[i].endDate, bookings[j].startDate, bookings[j].endDate))
    && (forall i :: i in bookings ==> bookings[i].startDate < bookings[i].endDate)
  }

  /** The row a flight carries is still the truth about its booking. */
  ghost predicate CarriesTruth(bookings: map<Id, Booking>, rq: Request, row: Booking) {
    match rq
    case Create(tenantId, dto) => row == NewBooking(tenantId, dto) && row.startDate < row.endDate
    case _ =>
      && rq.id in bookings && bookings[rq.id] == row && row.tenantId == rq.tenantId && row.deletedAt.None?
      && !Closed(row.status) && (rq.Confirm? ==> row.status == PENDING)
  }

  ghost predicate FlightSafe(bookings: map<Id, Booking>, f: Flight) {
    f.stage.Arrived? ||
    (&& CarriesTruth(bookings, f.request, f.stage.row)
     && (!f.stage.Loaded? && TakesVehicle(f.request, f.stage.row) ==>
           !BookingConflict(bookings, TargetVehicle(f.request, f.stage.row), f.request.tenantId, f.stage.row.startDate,
             f.stage.row.endDate)))
  }

  ghost predicate Safe(w: World) {
    && NoDoubleBooking(w.db.bookings)
    && "" !in w.db.vehicles
    && forall k :: k in w.flights ==> FlightSafe(w.db.bookings, w.flights[k])
  }

  /**
   * An active row that a booking other than the one stored under `id` blocks: the conflict query, its
   * own id left out.
   */
  predicate Contested(bookings: map<Id, Booking>, id: Id, row: Booking) {
    && Active(row)
    && exists i :: i in bookings && i != id
         && BookingBlocks(bookings[i], row.vehicleId, row.tenantId, row.startDate, row.endDate)
  }

  /** Storing a row keeps bookings disjoint if and only if it is not contested. */
  lemma PlacingKeepsNoDoubleBooking(bookings: map<Id, Booking>, id: Id, row: Booking)
    requires NoDoubleBooking(bookings) && row.startDate < row.endDate
    ensures NoDoubleBooking(bookings[id := row]) <==> !Contested(bookings, id, row)
  {
    var after := bookings[id := row];
    forall i | i in bookings && i != id && Active(row)
      ensures BookingBlocks(bookings[i], row.vehicleId, row.tenantId, row.startDate, row.endDate) <==>
        Rivals(after[i], after[id]) && Overlaps(after[i].startDate, after[i].endDate, row.startDate, row.endDate)
    {
    }
  }

  /** A row that keeps the slot its booking already holds, or passes the conflict query, is not contested. */
  lemma HolderIsUncontested(bookings: map<Id, Booking>, id: Id, row: Booking)
    requires NoDoubleBooking(bookings)
    requires
      || !BookingConflict(bookings, row.vehicleId, row.tenantId, row.startDate, row.endDate)
      || Holds(bookings, id, row)
    ensures !Contested(bookings, id, row)
  {
    if Active(row) && Holds(bookings, id, row) {
      forall i | i in bookings && i != id && Rivals(bookings[i], bookings[id])
        ensures !BookingBlocks(bookings[i], row.vehicleId, row.tenantId, row.startDate, row.endDate)
      {
      }
    }
  }

  /** The booking stored under `id` is active on the vehicle and dates of the row. */
  predicate Holds(bookings: map<Id, Booking>, id: Id, row: Booking) {
    && id in bookings && Active(bookings[id])
    && bookings[id].tenantId == row.tenantId && bookings[id].vehicleId == row.vehicleId
    && bookings[id].startDate == row.startDate && bookings[id].endDate == row.endDate
  }

  /** What a write of flight `f` leaves true for another flight `g` with which it does not clash. */
  lemma WriteSparesOthers(bookings: map<Id, Booking>, f: Request, id: Id, row: Booking, g: Flight)
    requires FlightSafe(bookings, g)
    requires !Clashes(bookings, f, g.request)
    requires !g.request.Create? && !g.stage.Arrived? ==> g.request.id != id
    requires
      || !Active(row)
      || (TargetOf(f) == Some((row.tenantId, row.vehicleId))
        && RangeOf(bookings, f) == Some((row.startDate, row.endDate)))
      || Holds(bookings, id, row)
    ensures FlightSafe(bookings[id := row], g)
  {
    if !g.stage.Arrived? && !g.stage.Loaded? && TakesVehicle(g.request, g.stage.row) {
      var v, t, s, e := TargetVehicle(g.request, g.stage.row), g.request.tenantId, g.stage.row.startDate,
        g.stage.row.endDate;
      assert TargetOf(g.request) == Some((t, v)) && RangeOf(bookings, g.request) == Some((s, e));
      var after := bookings[id := row];
      forall i | i in after && BookingBlocks(after[i], v, t, s, e)
        ensures i in bookings && BookingBlocks(bookings[i], v, t, s, e)
      {
      }
    }
  }

  /** The row a committed flight stores, and under which id. */
  lemma CommitStores(w: World, ticket: nat, newId: Id) returns (id: Id, row: Booking)
    requires Safe(w) && ticket in w.flights && w.flights[ticket].stage.DriverCleared?
    requires Write(w.db, w.flights[ticket].request, w.flights[ticket].stage.row, newId).Ok?
    ensures Write(w.db, w.flights[ticket].request, w.flights[ticket].stage.row, newId).value.bookings
      == w.db.bookings[id := row]
    ensures Write(w.db, w.flights[ticket].request, w.flights[ticket].stage.row, newId).value.vehicles == w.db.vehicles
    ensures row.startDate < row.endDate
    ensures BookingOf(w.flights[ticket].request) == Some(id)
      || (w.flights[ticket].request.Create? && id !in w.db.bookings)
    ensures Active(row) ==>
      || (TargetOf(w.flights[ticket].request) == Some((row.tenantId, row.vehicleId))
          && RangeOf(w.db.bookings, w.flights[ticket].request) == Some((row.startDate, row.endDate))
          && !BookingConflict(w.db.bookings, row.vehicleId, row.tenantId, row.startDate, row.endDate))
      || Holds(w.db.bookings, id, row)
  {
    var rq := w.flights[ticket].request;
    assert FlightSafe(w.db.bookings, w.flights[ticket]);
    id := if rq.Create? then newId else rq.id;
    row := Write(w.db, rq, w.flights[ticket].stage.row, newId).value.bookings[id];
  }

  lemma AdvanceKeepsSafe(w: World, ticket: nat, newId: Id)
    requires Safe(w) && Separate(w) && ticket in w.flights
    ensures Safe(Advanced(w, ticket, newId))
  {
    var f := w.flights[ticket];
    assert FlightSafe(w.db.bookings, f);
    if f.stage.DriverCleared? && Write(w.db, f.request, f.stage.row, newId).Ok? {
      var id, row := CommitStores(w, ticket, newId);
      if Active(row) {
        HolderIsUncontested(w.db.bookings, id, row);
      }
      PlacingKeepsNoDoubleBooking(w.db.bookings, id, row);
      forall k | k in w.flights && k != ticket
        ensures FlightSafe(w.db.bookings[id := row], w.flights[k])
      {
        assert FlightSafe(w.db.bookings, w.flights[k]);
        WriteSparesOthers(w.db.bookings, f.request, id, row, w.flights[k]);
      }
    }
  }

  lemma StepKeepsSafe(w: World, e: Event)
    requires Safe(w) && Separate(w)
    ensures Safe(Step(w, e))
  {
    if e.Advance? && e.ticket in w.flights {
      AdvanceKeepsSafe(w, e.ticket, e.newId);
    }
  }

  lemma {:induction false} RunKeepsSafe(w: World, events: seq<Event>)
    requires Safe(w) && Disciplined(w, events)
    ensures Safe(Run(w, events))
    decreases |events|
  {
    if events != [] {
      StepKeepsSafe(w, events[0]);
      RunKeepsSafe(Step(w, events[0]), events[1..]);
    }
  }

  /**
   * No double booking in any run whose flights never share a booking or clash over dates of a target,
   * however their phases interleave.
   */
  lemma NoDoubleBookingInAnyDisciplinedRun(w: World, events: seq<Event>)
    requires w.flights == map[] && NoDoubleBooking(w.db.bookings) && "" !in w.db.vehicles
    requires Disciplined(w, events)
    ensures NoDoubleBooking(Run(w, events).db.bookings)
  {
    RunKeepsSafe(w, events);
  }

  // ── One request on its own is the atomic service call ──────────────────────

  /** A request and its four phases, nothing in between. */
  function Alone(ticket: nat, rq: Request, newId: Id): seq<Event> {
    [Arrive(ticket, rq), Advance(ticket, newId), Advance(ticket, newId), Advance(ticket, newId), Advance(ticket, newId)]
  }

  lemma {:induction false} RunConcat(w: World, first: seq<Event>, second: seq<Event>)
    ensures Run(w, first + second) == Run(Run(w, first), second)
    decreases |first|
  {
    if first == [] {
      assert first + second == second;
    } else {
      assert (first + second)[1..] == first[1..] + second;
      RunConcat(Step(w, first[0]), first[1..], second);
    }
  }

  /** The worlds a run passes through. */
  ghost predicate Passes(worlds: seq<World>, events: seq<Event>) {
    && |worlds| == |events| + 1
    && forall k :: 0 <= k < |events| ==> worlds[k + 1] == Step(worlds[k], events[k])
  }

  lemma {:induction false} PassesIsRun(worlds: seq<World>, events: seq<Event>)
    requires Passes(worlds, events)
    ensures Run(worlds[0], events) == worlds[|events|]
    ensures (forall k :: 0 <= k <= |events| ==> Separate(worlds[k])) ==> Disciplined(worlds[0], events)
    decreases |events|
  {
    if events != [] {
      PassesIsRun(worlds[1..], events[1..]);
    }
  }

  /** The worlds of a request on its own, and where they lead. */
  lemma AlonePasses(w: World, ticket: nat, rq: Request, newId: Id) returns (worlds: seq<World>)
    requires ticket !in w.flights
    ensures Passes(worlds, Alone(ticket, rq, newId)) && worlds[0] == w
    ensures worlds[5] == World(Settle(w.db, AfterRequest(w.db, rq, newId)), w.flights)
    ensures forall k :: 0 <= k <= 5 ==> worlds[k].flights.Keys <= w.flights.Keys + {ticket}
  {
    var go := Advance(ticket, newId);
    var w1 := Step(w, Arrive(ticket, rq));
    var w2 := Step(w1, go);
    var w3 := Step(w2, go);
    var w4 := Step(w3, go);
    var w5 := Step(w4, go);
    assert w1.flights - {ticket} == w.flights;
    assert w2.flights - {ticket} == w.flights;
    assert w3.flights - {ticket} == w.flights;
    assert w4.flights - {ticket} == w.flights;
    worlds := [w, w1, w2, w3, w4, w5];
  }

  /** Run back to back, the phases give what the service call promises, refused or not, whoever else is in the air. */
  lemma AloneIsAtomic(w: World, ticket: nat, rq: Request, newId: Id)
    requires ticket !in w.flights
    ensures Run(w, Alone(ticket, rq, newId)) == World(Settle(w.db, AfterRequest(w.db, rq, newId)), w.flights)
    ensures w.flights == map[] ==> Disciplined(w, Alone(ticket, rq, newId))
  {
    var worlds := AlonePasses(w, ticket, rq, newId);
    if w.flights == map[] {
      forall k | 0 <= k <= 5
        ensures Separate(worlds[k])
      {
        assert worlds[k].flights.Keys <= {ticket};
      }
    }
    PassesIsRun(worlds, Alone(ticket, rq, newId));
  }

  lemma AtomicRequestKeepsNoDoubleBooking(db: Db, rq: Request, newId: Id)
    requires NoDoubleBooking(db.bookings) && "" !in db.vehicles
    ensures NoDoubleBooking(Settle(db, AfterRequest(db, rq, newId)).bookings)
  {
    var w := World(db, map[]);
    AloneIsAtomic(w, 0, rq, newId);
    NoDoubleBookingInAnyDisciplinedRun(w, Alone(0, rq, newId));
  }

  // ── Slot reuse ─────────────────────────────────────────────────────────────

  /** After a cancellation the very interval is free of bookings again, so creating it anew is never refused for one. */
  lemma CancelledSlotIsFree(db: Db, tenantId: Id, id: Id)
    requires NoDoubleBooking(db.bookings)
    requires AfterRequest(db, Cancel(tenantId, id), id).Ok?
    ensures var b := db.bookings[id];
      !BookingConflict(AfterRequest(db, Cancel(tenantId, id), id).value.bookings, b.vehicleId, tenantId, b.startDate,
        b.endDate)
  {
    var b := db.bookings[id];
    var after := AfterRequest(db, Cancel(tenantId, id), id).value.bookings;
    forall i | i in after
      ensures !BookingBlocks(after[i], b.vehicleId, tenantId, b.startDate, b.endDate)
    {
      if i != id && Active(after[i]) && SameSlot(after[i], b) {
        assert Rivals(db.bookings[i], b);
      }
    }
  }
}
