/** All service calls that write the modelled tables, as steps of one system. */
module System {
  import opened Common
  import opened Schema
  import Accounts
  import Users
  import Branches
  import Vehicles
  import Drivers
  import Assignments
  import Trips
  import Bookings

  datatype Op =
    | OnAccounts(account: Accounts.Call)
    | OnUsers(user: Users.Call)
    | OnBranches(branch: Branches.Call)
    | OnVehicles(vehicle: Vehicles.Call)
    | OnDrivers(driver: Drivers.Call)
    | OnAssignments(assignment: Assignments.Call)
    | OnTrips(trip: Trips.Call)
    | OnBookings(request: Bookings.Request, newId: Id)

  /** A call and the instant at which it is carried out. */
  datatype Event = Event(op: Op, now: Time)

  const AT: Event -> Time := (e: Event) => e.now

  ghost function Outcome(db: Db, e: Event): Result<Db> {
    match e.op
    case OnAccounts(c) => Accounts.Outcome(db, c, e.now)
    case OnUsers(c) => Users.Outcome(db, c, e.now)
    case OnBranches(c) => Branches.Outcome(db, c, e.now)
    case OnVehicles(c) => Vehicles.Outcome(db, c, e.now)
    case OnDrivers(c) => Drivers.Outcome(db, c, e.now)
    case OnAssignments(c) => Assignments.Outcome(db, c, e.now)
    case OnTrips(c) => Trips.Outcome(db, c, e.now)
    case OnBookings(request, newId) => Bookings.AfterRequest(db, request, newId)
  }

  ghost function Step(db: Db, e: Event): Db {
    Settle(db, Outcome(db, e))
  }

  ghost function Run(db: Db, events: seq<Event>): Db
    decreases |events|
  {
    if events == [] then db else Run(Step(db, events[0]), events[1..])
  }

  /** The states a run passes through. */
  ghost predicate Passes(states: seq<Db>, events: seq<Event>) {
    && |states| == |events| + 1
    && forall k :: 0 <= k < |events| ==> states[k + 1] == Step(states[k], events[k])
  }

  lemma {:induction false} PassesIsRun(states: seq<Db>, events: seq<Event>)
    requires Passes(states, events)
    ensures Run(states[0], events) == states[|events|]
    decreases |events|
  {
    if events != [] {
      PassesIsRun(states[1..], events[1..]);
    }
  }

  lemma {:induction false} RunConcat(db: Db, first: seq<Event>, second: seq<Event>)
    ensures Run(db, first + second) == Run(Run(db, first), second)
    decreases |first|
  {
    if first == [] {
      assert first + second == second;
    } else {
      assert (first + second)[1..] == first[1..] + second;
      RunConcat(Step(db, first[0]), first[1..], second);
    }
  }

  // ── Properties of whole runs ───────────────────────────────────────────────

  /** Every state of the run has the property. */
  ghost predicate Always(db: Db, events: seq<Event>, p: Db -> bool)
    decreases |events|
  {
    p(db) && (events != [] ==> Always(Step(db, events[0]), events[1..], p))
  }

  /** No call of the run that goes through is of the given kind. */
  ghost predicate Avoids(db: Db, events: seq<Event>, bad: (Db, Op) -> bool)
    decreases |events|
  {
    events != [] ==>
      && (Outcome(db, events[0]).Ok? ==> !bad(db, events[0].op))
      && Avoids(Step(db, events[0]), events[1..], bad)
  }

  lemma {:induction false} AlwaysAtTheEnd(db: Db, events: seq<Event>, p: Db -> bool)
    requires Always(db, events, p)
    ensures p(Run(db, events))
    decreases |events|
  {
    if events != [] {
      AlwaysAtTheEnd(Step(db, events[0]), events[1..], p);
    }
  }

  // ── Which tables a call may write ──────────────────────────────────────────

  ghost predicate WritesOnlyItsTables(op: Op, before: Db, after: Db) {
    && (!op.OnAccounts? ==> after.tenants == before.tenants)
    && (!op.OnAccounts? && !op.OnUsers? && !op.OnBranches? ==> after.users == before.users)
    && (!op.OnUsers? && !op.OnBranches? ==> after.userBranches == before.userBranches)
    && (!op.OnBranches? ==> after.branches == before.branches)
    && (!op.OnVehicles? && !op.OnBranches? && !op.OnTrips? ==> after.vehicles == before.vehicles)
    && (!op.OnDrivers? && !op.OnBranches? && !op.OnTrips? ==> after.drivers == before.drivers)
    && (!op.OnAssignments? ==> after.assignments == before.assignments)
    && (!op.OnBookings? ==> after.bookings == before.bookings)
    && (!op.OnTrips? ==> after.trips == before.trips)
  }

  lemma PeopleCallsWrite(db: Db, e: Event, after: Db)
    requires e.op.OnAccounts? || e.op.OnUsers? || e.op.OnAssignments? || e.op.OnBookings?
    requires Outcome(db, e) == Ok(after)
    ensures WritesOnlyItsTables(e.op, db, after)
  {
    match e.op
    case OnAccounts(c) => Accounts.CallWrites(db, c, e.now, after);
    case OnUsers(c) => Users.CallWrites(db, c, e.now, after);
    case OnAssignments(c) => Assignments.CallWrites(db, c, e.now, after);
    case OnBookings(request, newId) => Bookings.RequestWrites(db, request, newId, after);
  }

  lemma FleetCallsWrite(db: Db, e: Event, after: Db)
    requires e.op.OnBranches? || e.op.OnVehicles? || e.op.OnDrivers? || e.op.OnTrips?
    requires Outcome(db, e) == Ok(after)
    ensures WritesOnlyItsTables(e.op, db, after)
  {
    match e.op
    case OnBranches(c) => Branches.CallKeepsRows(db, c, e.now, after);
    case OnVehicles(c) => Vehicles.CallKeepsRows(db, c, e.now, after);
    case OnDrivers(c) => Drivers.CallKeepsRows(db, c, e.now, after);
    case OnTrips(c) => Trips.CallWrites(db, c, e.now, after);
  }

  lemma CallWrites(db: Db, e: Event, after: Db)
    requires Outcome(db, e) == Ok(after)
    ensures WritesOnlyItsTables(e.op, db, after)
  {
    if e.op.OnAccounts? || e.op.OnUsers? || e.op.OnAssignments? || e.op.OnBookings? {
      PeopleCallsWrite(db, e, after);
    } else {
      FleetCallsWrite(db, e, after);
    }
  }
}
