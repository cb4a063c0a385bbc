/**
 * Trip starts and assignment creations under interleaving: each request reads in several steps
 * and writes in a last one, while other requests and whole calls of all services go on. Nothing
 * is asked of the callers; the theorems say exactly which commits break what.
 */
module Races {
  import opened Common
  import opened Clock
  import opened Schema
  import System
  import Trips
  import Assignments
  import opened TripRuns
  import opened AssignmentRuns

  /** How far a trip start has come; the driver and the start instant are settled first. */
  datatype StartStage =
    | Asked
    | DriverFound(driverId: Id, startedAt: Time)
    | Assigned(driverId: Id, startedAt: Time)
    | VehicleSeen(driverId: Id, startedAt: Time)
    | AllClear(driverId: Id, startedAt: Time)

  datatype AssignStage = Requested | VehicleLive | DriverLive | VehicleFree | BothFree

  datatype Flight =
    | Starting(tenantId: Id, vehicleId: Id, userId: Id, stage: StartStage)
    | Assigning(tenantId: Id, dto: Assignments.CreateAssignment, progress: AssignStage)

  datatype World = World(db: Db, flights: map<nat, Flight>)

  datatype Event =
    | Arrive(ticket: nat, flight: Flight, now: Time)
    | Advance(ticket: nat, newId: Id, now: Time)
    | Call(op: System.Op, now: Time)

  const NOW: Event -> Time := (e: Event) => e.now

  function Fresh(f: Flight): Flight {
    if f.Starting? then f.(stage := Asked) else f.(progress := Requested)
  }

  // ── The steps of a trip start ──────────────────────────────────────────────

  /** One read of a trip start: the next stage, or the refusal. */
  ghost function StartReads(db: Db, f: Flight, now: Time): Result<StartStage>
    requires f.Starting? && !f.stage.AllClear?
  {
    match f.stage
    case Asked =>
      var driver := Trips.DriverOf(db.drivers, f.userId, f.tenantId);
      if driver.None? then Err(Forbidden) else Ok(DriverFound(driver.value, now))
    case DriverFound(d, at) =>
      if Trips.MayDrive(db.assignments, d, f.vehicleId, at) then Ok(Assigned(d, at)) else Err(Forbidden)
    case Assigned(d, at) =>
      if !LiveVehicle(db.vehicles, f.tenantId, f.vehicleId) then Err(NotFound)
      else if db.vehicles[f.vehicleId].status != AVAILABLE then Err(BadRequest)
      else Ok(VehicleSeen(d, at))
    case VehicleSeen(d, at) =>
      if Trips.TripInProgress(db.trips, f.vehicleId, f.tenantId) then Err(BadRequest) else Ok(AllClear(d, at))
  }

  function NewTrip(f: Flight): Trip
    requires f.Starting? && f.stage.AllClear?
  {
    Trip(f.tenantId, f.vehicleId, f.stage.driverId, f.stage.startedAt, None, 0, 0, 0, 0, None)
  }

  /** The transaction at the end: nothing is asked again. */
  function StartWrites(db: Db, f: Flight, newId: Id): Result<Db>
    requires f.Starting? && f.stage.AllClear?
  {
    if newId in db.trips then Err(UniqueIndex)
    else if f.vehicleId !in db.vehicles || f.stage.driverId !in db.drivers then Err(NotFound)
    else Ok(db.(
      trips := db.trips[newId := NewTrip(f)],
      vehicles := db.vehicles[f.vehicleId := db.vehicles[f.vehicleId].(status := ON_TRIP)],
      drivers := db.drivers[f.stage.driverId := db.drivers[f.stage.driverId].(isAvailable := false)]))
  }

  // ── The steps of an assignment creation ────────────────────────────────────

  function AssignReads(db: Db, f: Flight): Result<AssignStage>
    requires f.Assigning? && !f.progress.BothFree?
  {
    var dto, end := f.dto, f.dto.endDate.OrNull();
    match f.progress
    case Requested =>
      if end.Some? && end.value <= dto.startDate then Err(BadRequest)
      else if !LiveVehicle(db.vehicles, f.tenantId, dto.vehicleId) then Err(NotFound)
      else Ok(VehicleLive)
    case VehicleLive =>
      if !LiveDriver(db.drivers, f.tenantId, dto.driverId) then Err(NotFound) else Ok(DriverLive)
    case DriverLive =>
      if Assignments.VehicleAssigned(db.assignments, dto.vehicleId, dto.startDate, end, None) then Err(BadRequest)
      else Ok(VehicleFree)
    case VehicleFree =>
      if Assignments.DriverAssigned(db.assignments, dto.driverId, dto.startDate, end, None) then Err(BadRequest)
      else Ok(BothFree)
  }

  function NewAssignment(dto: Assignments.CreateAssignment): Assignment {
    Assignment(dto.vehicleId, dto.driverId, dto.startDate, dto.endDate.OrNull(), None)
  }

  function AssignWrites(db: Db, f: Flight, newId: Id): Result<Db>
    requires f.Assigning?
  {
    if newId in db.assignments then Err(UniqueIndex)
    else if f.dto.vehicleId !in db.vehicles || f.dto.driverId !in db.drivers then Err(ForeignKey)
    else Ok(db.(assignments := db.assignments[newId := NewAssignment(f.dto)]))
  }

  // ── Both kinds of flight ───────────────────────────────────────────────────

  /** The reads a flight still has before it. */
  function ReadsLeft(f: Flight): nat {
    match f
    case Starting(_, _, _, stage) =>
      (match stage
       case Asked => 4
       case DriverFound(_, _) => 3
       case Assigned(_, _) => 2
       case VehicleSeen(_, _) => 1
       case AllClear(_, _) => 0)
    case Assigning(_, _, progress) =>
      (match progress
       case Requested => 4
       case VehicleLive => 3
       case DriverLive => 2
       case VehicleFree => 1
       case BothFree => 0)
  }

  function Writes(db: Db, f: Flight, newId: Id): Result<Db>
    requires ReadsLeft(f) == 0
  {
    if f.Starting? then StartWrites(db, f, newId) else AssignWrites(db, f, newId)
  }

  /** The flight after its next read. */
  ghost function Reads(db: Db, f: Flight, now: Time): Result<Flight>
    requires ReadsLeft(f) > 0
  {
    if f.Starting? then
      match StartReads(db, f, now)
      case Ok(stage) => Ok(f.(stage := stage))
      case Err(e) => Err(e)
    else
      match AssignReads(db, f)
      case Ok(progress) => Ok(f.(progress := progress))
      case Err(e) => Err(e)
  }

  // ── Runs ───────────────────────────────────────────────────────────────────

  function Dropped(w: World, ticket: nat): World {
    w.(flights := w.flights - {ticket})
  }

  /** One step of one flight: its next read, or its write; a refused request leaves the air. */
  ghost function Advanced(w: World, ticket: nat, newId: Id, now: Time): World
    requires ticket in w.flights
  {
    var f := w.flights[ticket];
    if ReadsLeft(f) == 0 then World(Settle(w.db, Writes(w.db, f, newId)), w.flights - {ticket})
    else
      match Reads(w.db, f, now)
      case Ok(next) => w.(flights := w.flights[ticket := next])
      case Err(_) => Dropped(w, ticket)
  }

  ghost function Step(w: World, e: Event): World {
    match e
    case Arrive(ticket, f, _) =>
      if ticket in w.flights then w else w.(flights := w.flights[ticket := Fresh(f)])
    case Advance(ticket, newId, now) => if ticket in w.flights then Advanced(w, ticket, newId, now) else w
    case Call(op, now) => w.(db := System.Step(w.db, System.Event(op, now)))
  }

  ghost function Run(w: World, events: seq<Event>): World
    decreases |events|
  {
    if events == [] then w else Run(Step(w, events[0]), events[1..])
  }

  ghost predicate Always(w: World, events: seq<Event>, p: Db -> bool)
    decreases |events|
  {
    p(w.db) && (events != [] ==> Always(Step(w, events[0]), events[1..], p))
  }

  ghost predicate Avoids(w: World, events: seq<Event>, bad: (World, Event) -> bool)
    decreases |events|
  {
    events != [] ==> !bad(w, events[0]) && Avoids(Step(w, events[0]), events[1..], bad)
  }

  // ── One request on its own is the atomic service call ──────────────────────

  /** What remains of a request when nothing happens in between. */
  ghost function Rest(db: Db, f: Flight, newId: Id, now: Time): Result<Db>
    decreases ReadsLeft(f)
  {
    if ReadsLeft(f) == 0 then Writes(db, f, newId)
    else
      match Reads(db, f, now)
      case Ok(next) => Rest(db, next, newId, now)
      case Err(e) => Err(e)
  }

  function Goes(ticket: nat, newId: Id, now: Time, n: nat): seq<Event> {
    if n == 0 then [] else [Advance(ticket, newId, now)] + Goes(ticket, newId, now, n - 1)
  }

  lemma {:induction false} GoesIdle(w: World, ticket: nat, newId: Id, now: Time, n: nat)
    requires ticket !in w.flights
    ensures Run(w, Goes(ticket, newId, now, n)) == w
  {
    if n > 0 {
      assert Goes(ticket, newId, now, n)[1..] == Goes(ticket, newId, now, n - 1);
      GoesIdle(w, ticket, newId, now, n - 1);
    }
  }

  lemma {:induction false} FlightFinishes(w: World, ticket: nat, newId: Id, now: Time, n: nat)
    requires ticket in w.flights && ReadsLeft(w.flights[ticket]) < n
    ensures Run(w, Goes(ticket, newId, now, n))
      == World(Settle(w.db, Rest(w.db, w.flights[ticket], newId, now)), w.flights - {ticket})
    decreases n
  {
    var f, next := w.flights[ticket], Step(w, Advance(ticket, newId, now));
    assert Goes(ticket, newId, now, n)[1..] == Goes(ticket, newId, now, n - 1);
    if ReadsLeft(f) > 0 && Reads(w.db, f, now).Ok? {
      FlightFinishes(next, ticket, newId, now, n - 1);
      assert next.flights - {ticket} == w.flights - {ticket};
    } else {
      GoesIdle(next, ticket, newId, now, n - 1);
    }
  }

  /** The call that a flight stands for. */
  function CallOf(f: Flight, newId: Id): System.Op {
    match f
    case Starting(tenantId, vehicleId, userId, _) => System.OnTrips(Trips.Start(tenantId, vehicleId, userId, newId))
    case Assigning(tenantId, dto, _) => System.OnAssignments(Assignments.Create(tenantId, dto, newId))
  }

  lemma StartRestIsCall(db: Db, f: Flight, newId: Id, now: Time)
    requires f.Starting? && f.stage.Asked?
    ensures Settle(db, Rest(db, f, newId, now)) == System.Step(db, System.Event(CallOf(f, newId), now))
  {
    var driver := Trips.DriverOf(db.drivers, f.userId, f.tenantId);
    if driver.Some? {
      var f1 := f.(stage := DriverFound(driver.value, now));
      var f2 := f.(stage := Assigned(driver.value, now));
      var f3 := f.(stage := VehicleSeen(driver.value, now));
      var f4 := f.(stage := AllClear(driver.value, now));
      assert Rest(db, f, newId, now) == Rest(db, f1, newId, now);
      assert Trips.MayDrive(db.assignments, driver.value, f.vehicleId, now) ==>
        Rest(db, f1, newId, now) == Rest(db, f2, newId, now);
      assert Reads(db, f2, now).Ok? ==> Rest(db, f2, newId, now) == Rest(db, f3, newId, now);
      assert Reads(db, f3, now).Ok? ==> Rest(db, f3, newId, now) == Rest(db, f4, newId, now);
      assert Rest(db, f4, newId, now) == Writes(db, f4, newId);
    }
  }

  lemma AssignRestIsCall(db: Db, f: Flight, newId: Id, now: Time)
    requires f.Assigning? && f.progress.Requested?
    ensures Settle(db, Rest(db, f, newId, now)) == System.Step(db, System.Event(CallOf(f, newId), now))
  {
    var f1, f2 := f.(progress := VehicleLive), f.(progress := DriverLive);
    var f3, f4 := f.(progress := VehicleFree), f.(progress := BothFree);
    assert Reads(db, f, now).Ok? ==> Rest(db, f, newId, now) == Rest(db, f1, newId, now);
    assert Reads(db, f1, now).Ok? ==> Rest(db, f1, newId, now) == Rest(db, f2, newId, now);
    assert Reads(db, f2, now).Ok? ==> Rest(db, f2, newId, now) == Rest(db, f3, newId, now);
    assert Reads(db, f3, now).Ok? ==> Rest(db, f3, newId, now) == Rest(db, f4, newId, now);
    assert Rest(db, f4, newId, now) == Writes(db, f4, newId);
  }

  /** Run back to back, the steps give what the service call promises, refused or not, whoever else is in the air. */
  lemma AloneIsAtomic(w: World, ticket: nat, f: Flight, newId: Id, now: Time)
    requires ticket !in w.flights
    ensures Run(w, [Arrive(ticket, f, now)] + Goes(ticket, newId, now, 5))
      == World(System.Step(w.db, System.Event(CallOf(f, newId), now)), w.flights)
  {
    var w1 := Step(w, Arrive(ticket, f, now));
    assert ([Arrive(ticket, f, now)] + Goes(ticket, newId, now, 5))[1..] == Goes(ticket, newId, now, 5);
    FlightFinishes(w1, ticket, newId, now, 5);
    assert w1.flights - {ticket} == w.flights;
    if f.Starting? {
      StartRestIsCall(w.db, Fresh(f), newId, now);
    } else {
      AssignRestIsCall(w.db, Fresh(f), newId, now);
    }
  }
}
