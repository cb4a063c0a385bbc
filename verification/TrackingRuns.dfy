/**
 * GPS saves under interleaving: a save tests the rate flag, sets it, inserts its row and writes the
 * cache in four steps, each at its own instant, while other saves go on. The world also keeps the
 * history of flags set, of the flag behind each row, and of cache writes.
 */
module TrackingRuns {
  import opened Common
  import opened Clock
  import opened Schema
  import opened Redis
  import opened Tracking

  datatype Stage =
    | Arrived
    | Tested
    | Flagged(mark: nat)
    | Saved(row: nat, savedAt: Time, registrationNo: string)

  datatype Flight = Flight(request: SaveRequest, stage: Stage)

  /** A save has passed the limiter and set the flag. */
  datatype Mark = Mark(tenantId: Id, vehicleId: Id, at: Time)

  datatype CacheWrite = CacheWrite(row: nat, at: Time)

  datatype World = World(
    gps: seq<GpsRow>,
    redis: Store,
    flights: map<nat, Flight>,
    marks: seq<Mark>,
    origins: seq<nat>,
    writes: seq<CacheWrite>)

  const EMPTY := World([], map[], map[], [], [], [])

  function StateOf(w: World): State {
    State(w.gps, w.redis)
  }

  /** `fails` says whether the Redis call of the step fails, or the database call of an insertion. */
  datatype Event =
    | Arrive(ticket: nat, request: SaveRequest, now: Time)
    | Advance(ticket: nat, vehicles: map<Id, Vehicle>, fails: bool, now: Time)

  const NOW: Event -> Time := (e: Event) => e.now

  function FlagKey(rq: SaveRequest): Key {
    RateLimit(rq.tenantId, rq.vehicleId)
  }

  function Dropped(w: World, ticket: nat): World {
    w.(flights := w.flights - {ticket})
  }

  function Moved(w: World, ticket: nat, stage: Stage): World
    requires ticket in w.flights
  {
    w.(flights := w.flights[ticket := w.flights[ticket].(stage := stage)])
  }

  function Tests(w: World, ticket: nat, fails: bool, now: Time): World
    requires ticket in w.flights
  {
    if !fails && Get(w.redis, FlagKey(w.flights[ticket].request), now).Some? then Dropped(w, ticket)
    else Moved(w, ticket, Tested)
  }

  function SetsFlag(w: World, ticket: nat, fails: bool, now: Time): World
    requires ticket in w.flights
  {
    var rq := w.flights[ticket].request;
    Moved(w, ticket, Flagged(|w.marks|)).(
    redis := if fails then w.redis else SetEx(w.redis, FlagKey(rq), Flag, RATE_LIMIT_TTL, now),
    marks := w.marks + [Mark(rq.tenantId, rq.vehicleId, now)])
  }

  function Inserts(w: World, ticket: nat, vehicles: map<Id, Vehicle>, fails: bool, now: Time): World
    requires ticket in w.flights && w.flights[ticket].stage.Flagged?
  {
    var rq := w.flights[ticket].request;
    if fails || !LiveVehicle(vehicles, rq.tenantId, rq.vehicleId) then Dropped(w, ticket)
    else
      Moved(w, ticket, Saved(|w.gps|, now, vehicles[rq.vehicleId].registrationNo)).(
      gps := w.gps + [RowOf(rq, now)],
      origins := w.origins + [w.flights[ticket].stage.mark])
  }

  function Caches(w: World, ticket: nat, fails: bool, now: Time): World
    requires ticket in w.flights && w.flights[ticket].stage.Saved?
  {
    var f := w.flights[ticket];
    if fails then Dropped(w, ticket)
    else
      var location := Location(f.request.vehicleId, f.stage.registrationNo, f.request.fix, f.stage.savedAt);
      var key := Latest(f.request.tenantId, f.request.vehicleId);
      Dropped(w, ticket).(
      redis := SetEx(w.redis, key, Cached(location), LOCATION_CACHE_TTL, now),
      writes := w.writes + [CacheWrite(f.stage.row, now)])
  }

  function Step(w: World, e: Event): World {
    match e
    case Arrive(ticket, request, _) =>
      if ticket in w.flights then w else w.(flights := w.flights[ticket := Flight(request, Arrived)])
    case Advance(ticket, vehicles, fails, now) =>
      if ticket !in w.flights then w
      else
        match w.flights[ticket].stage
        case Arrived => Tests(w, ticket, fails, now)
        case Tested => SetsFlag(w, ticket, fails, now)
        case Flagged(_) => Inserts(w, ticket, vehicles, fails, now)
        case Saved(_, _, _) => Caches(w, ticket, fails, now)
  }

  function Run(w: World, events: seq<Event>): World
    decreases |events|
  {
    if events == [] then w else Run(Step(w, events[0]), events[1..])
  }

  /** The world after a run from the empty one. */
  function After(events: seq<Event>): World {
    Run(EMPTY, events)
  }

  ghost predicate InTime(clock: Time, events: seq<Event>) {
    Timely(clock, events, NOW)
  }

  /** Every step of the run meets the condition. */
  ghost predicate Along(w: World, events: seq<Event>, ok: (World, Event) -> bool)
    decreases |events|
  {
    events != [] ==> ok(w, events[0]) && Along(Step(w, events[0]), events[1..], ok)
  }

  /** Every state of the run has the property. */
  ghost predicate Always(w: World, events: seq<Event>, p: World -> bool)
    decreases |events|
  {
    p(w) && (events != [] ==> Always(Step(w, events[0]), events[1..], p))
  }

  /** The event advances a flight that stands at a given stage. */
  predicate At(w: World, e: Event, stage: Stage -> bool) {
    e.Advance? && e.ticket in w.flights && stage(w.flights[e.ticket].stage)
  }

  const IS_ARRIVED: Stage -> bool := (s: Stage) => s.Arrived?
  const IS_TESTED: Stage -> bool := (s: Stage) => s.Tested?
  const IS_FLAGGED: Stage -> bool := (s: Stage) => s.Flagged?
  const IS_SAVED: Stage -> bool := (s: Stage) => s.Saved?

  predicate TestWorks(w: World, e: Event) {
    At(w, e, IS_ARRIVED) ==> !e.fails
  }

  predicate FlagWorks(w: World, e: Event) {
    At(w, e, IS_TESTED) ==> !e.fails
  }

  predicate CacheWorks(w: World, e: Event) {
    At(w, e, IS_SAVED) ==> !e.fails
  }

  // ── One save on its own is the atomic service call ─────────────────────────

  /** The steps of one save at the given instants, nothing in between. */
  function Alone(
    ticket: nat,
    rq: SaveRequest,
    vehicles: map<Id, Vehicle>,
    at: Moments,
    faults: Faults): seq<Event>
  {
    [Arrive(ticket, rq, at.flaggedAt),
     Advance(ticket, vehicles, faults.get, at.flaggedAt),
     Advance(ticket, vehicles, faults.flag, at.flaggedAt),
     Advance(ticket, vehicles, false, at.savedAt),
     Advance(ticket, vehicles, faults.cache, at.cachedAt)]
  }

  lemma {:induction false} PassesIsRun(worlds: seq<World>, events: seq<Event>)
    requires |worlds| == |events| + 1
    requires forall k :: 0 <= k < |events| ==> worlds[k + 1] == Step(worlds[k], events[k])
    ensures Run(worlds[0], events) == worlds[|events|]
    decreases |events|
  {
    if events != [] {
      PassesIsRun(worlds[1..], events[1..]);
    }
  }

  lemma FiveSteps(w: World, e: seq<Event>)
    requires |e| == 5
    ensures Run(w, e) == Step(Step(Step(Step(Step(w, e[0]), e[1]), e[2]), e[3]), e[4])
  {
    var w1 := Step(w, e[0]);
    var w2 := Step(w1, e[1]);
    var w3 := Step(w2, e[2]);
    var w4 := Step(w3, e[3]);
    PassesIsRun([w, w1, w2, w3, w4, Step(w4, e[4])], e);
  }

  /** Run back to back, the steps give the tables, the Redis content and the flights that the service call promises. */
  lemma AloneIsAtomic(w: World, ticket: nat, rq: SaveRequest, vehicles: map<Id, Vehicle>, at: Moments, faults: Faults)
    requires ticket !in w.flights
    ensures var after := Run(w, Alone(ticket, rq, vehicles, at, faults));
      StateOf(after) == AfterSave(StateOf(w), vehicles, rq, at, faults).0 && after.flights == w.flights
  {
    FiveSteps(w, Alone(ticket, rq, vehicles, at, faults));
    var w1 := Step(w, Arrive(ticket, rq, at.flaggedAt));
    assert w1.flights - {ticket} == w.flights;
    if !Limited(w.redis, rq, at.flaggedAt, faults) {
      var w3 := SetsFlag(Moved(w1, ticket, Tested), ticket, faults.flag, at.flaggedAt);
      assert w3.flights - {ticket} == w.flights;
      if LiveVehicle(vehicles, rq.tenantId, rq.vehicleId) {
        var w4 := Inserts(w3, ticket, vehicles, false, at.savedAt);
        assert w4.flights - {ticket} == w.flights;
      }
    }
  }

  // ── What holds in every run whatsoever ─────────────────────────────────────

  predicate MarkOf(m: Mark, tenantId: Id, vehicleId: Id) {
    m.tenantId == tenantId && m.vehicleId == vehicleId
  }

  /** Marks are in order of time. */
  ghost predicate MarksOk(marks: seq<Mark>, clock: Time) {
    && (forall i, j :: 0 <= i < j < |marks| ==> marks[i].at <= marks[j].at)
    && (forall i :: 0 <= i < |marks| ==> marks[i].at <= clock)
  }

  /** Rows are in order of time, each with a mark of its own vehicle and of no other row. */
  ghost predicate RowsOk(gps: seq<GpsRow>, marks: seq<Mark>, origins: seq<nat>, clock: Time) {
    && |origins| == |gps|
    && (forall i, j :: 0 <= i < j < |gps| ==> gps[i].timestamp <= gps[j].timestamp && origins[i] != origins[j])
    && (forall i :: 0 <= i < |gps| ==>
          && origins[i] < |marks| && MarkOf(marks[origins[i]], gps[i].tenantId, gps[i].vehicleId)
          && marks[origins[i]].at <= gps[i].timestamp <= clock)
  }

  /** A flight past its flag has the mark of its vehicle, and past its insertion the row of its request. */
  ghost predicate FlightOk(w: World, f: Flight) {
    match f.stage
    case Arrived => true
    case Tested => true
    case Flagged(m) => m < |w.marks| && MarkOf(w.marks[m], f.request.tenantId, f.request.vehicleId) && m !in w.origins
    case Saved(k, savedAt, _) =>
      && k < |w.gps| && w.gps[k] == RowOf(f.request, savedAt)
      && forall j :: 0 <= j < |w.writes| ==> w.writes[j].row != k
  }

  /** No two flights share a mark or a row. */
  ghost predicate FlightsApart(flights: map<nat, Flight>) {
    forall a, b :: a in flights && b in flights && a != b ==>
      && (flights[a].stage.Flagged? && flights[b].stage.Flagged? ==> flights[a].stage.mark != flights[b].stage.mark)
      && (flights[a].stage.Saved? && flights[b].stage.Saved? ==> flights[a].stage.row != flights[b].stage.row)
  }

  ghost predicate FlightsOk(w: World) {
    && (forall k :: k in w.flights ==> FlightOk(w, w.flights[k]))
    && FlightsApart(w.flights)
    && (forall j :: 0 <= j < |w.writes| ==> w.writes[j].row < |w.gps|)
  }

  ghost predicate Sound(w: World, clock: Time) {
    MarksOk(w.marks, clock) && RowsOk(w.gps, w.marks, w.origins, clock) && FlightsOk(w)
  }

  lemma StepKeepsMarks(w: World, clock: Time, e: Event)
    requires Sound(w, clock) && clock <= e.now
    ensures MarksOk(Step(w, e).marks, e.now)
  {
  }

  lemma StepKeepsRows(w: World, clock: Time, e: Event)
    requires Sound(w, clock) && clock <= e.now
    ensures var next := Step(w, e); RowsOk(next.gps, next.marks, next.origins, e.now)
  {
    if At(w, e, IS_FLAGGED) {
      assert FlightOk(w, w.flights[e.ticket]);
    }
  }

  /** A flight that the step does not advance. */
  lemma OtherFlightStaysOk(w: World, e: Event, f: Flight)
    requires FlightsOk(w) && |w.origins| == |w.gps| && FlightOk(w, f)
    requires e.Advance? && e.ticket in w.flights ==>
      && (f.stage.Flagged? && w.flights[e.ticket].stage.Flagged? ==> f.stage.mark != w.flights[e.ticket].stage.mark)
      && (f.stage.Saved? && w.flights[e.ticket].stage.Saved? ==> f.stage.row != w.flights[e.ticket].stage.row)
    ensures FlightOk(Step(w, e), f)
  {
  }

  lemma AdvancedFlightIsOk(w: World, clock: Time, e: Event)
    requires Sound(w, clock) && e.Advance? && e.ticket in w.flights && e.ticket in Step(w, e).flights
    ensures FlightOk(Step(w, e), Step(w, e).flights[e.ticket])
  {
    assert FlightOk(w, w.flights[e.ticket]);
    assert forall i :: 0 <= i < |w.origins| ==> w.origins[i] < |w.marks|;
  }

  lemma StepKeepsFlightOk(w: World, clock: Time, e: Event, k: nat)
    requires Sound(w, clock) && clock <= e.now && k in Step(w, e).flights
    ensures FlightOk(Step(w, e), Step(w, e).flights[k])
  {
    if e.Advance? && k == e.ticket {
      AdvancedFlightIsOk(w, clock, e);
    } else if k in w.flights {
      OtherFlightStaysOk(w, e, w.flights[k]);
    }
  }

  /** A flight that moves to a new mark, a new row or neither stays apart from all others. */
  lemma MoveKeepsApart(flights: map<nat, Flight>, ticket: nat, f: Flight)
    requires FlightsApart(flights)
    requires forall k :: k in flights && k != ticket ==>
      && (f.stage.Flagged? && flights[k].stage.Flagged? ==> f.stage.mark != flights[k].stage.mark)
      && (f.stage.Saved? && flights[k].stage.Saved? ==> f.stage.row != flights[k].stage.row)
    ensures FlightsApart(flights[ticket := f])
  {
  }

  lemma StepKeepsFlightsApart(w: World, clock: Time, e: Event)
    requires Sound(w, clock) && clock <= e.now
    ensures FlightsApart(Step(w, e).flights)
  {
    var next := Step(w, e).flights;
    if e.ticket in next {
      forall k | k in w.flights && k != e.ticket
        ensures next[e.ticket].stage.Flagged? && w.flights[k].stage.Flagged? ==>
          next[e.ticket].stage.mark != w.flights[k].stage.mark
        ensures next[e.ticket].stage.Saved? && w.flights[k].stage.Saved? ==>
          next[e.ticket].stage.row != w.flights[k].stage.row
      {
        assert FlightOk(w, w.flights[k]);
      }
      MoveKeepsApart(w.flights, e.ticket, next[e.ticket]);
      assert next == w.flights[e.ticket := next[e.ticket]];
    }
  }

  lemma StepKeepsSound(w: World, clock: Time, e: Event)
    requires Sound(w, clock) && clock <= e.now
    ensures Sound(Step(w, e), e.now)
  {
    StepKeepsMarks(w, clock, e);
    StepKeepsRows(w, clock, e);
    forall k | k in Step(w, e).flights
      ensures FlightOk(Step(w, e), Step(w, e).flights[k])
    {
      StepKeepsFlightOk(w, clock, e, k);
    }
    StepKeepsFlightsApart(w, clock, e);
    if At(w, e, IS_SAVED) {
      assert FlightOk(w, w.flights[e.ticket]);
    }
  }

  lemma {:induction false} RunKeepsSound(w: World, clock: Time, events: seq<Event>)
    requires Sound(w, clock) && Timely(clock, events, NOW)
    ensures Sound(Run(w, events), LastInstant(clock, events, NOW))
    decreases |events|
  {
    if events != [] {
      StepKeepsSound(w, clock, events[0]);
      assert LastInstant(events[0].now, events[1..], NOW) == LastInstant(clock, events, NOW);
      RunKeepsSound(Step(w, events[0]), events[0].now, events[1..]);
    }
  }
}
