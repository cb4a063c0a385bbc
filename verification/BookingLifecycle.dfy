/**
 * The lifecycle of a booking: exactly which interleaved runs only move statuses forward and
 * freeze closed rows, and that every run of whole calls does.
 */
module BookingLifecycle {
  import opened Common
  import opened Schema
  import opened Bookings
  import opened BookingRuns
  import opened BookingCommits
  import System

  // ── How one row may change ─────────────────────────────────────────────────

  function Rank(status: BookingStatus): nat {
    match status
    case PENDING => 0
    case CONFIRMED => 1
    case COMPLETED => 2
    case CANCELLED => 2
  }

  /** How a row may differ later: the status only moves forward, tenant and dates stay, a closed row is frozen. */
  ghost predicate Evolves(before: Booking, after: Booking) {
    && Rank(before.status) <= Rank(after.status)
    && (after.status == COMPLETED ==> before.status == COMPLETED)
    && after.tenantId == before.tenantId
    && after.startDate == before.startDate && after.endDate == before.endDate
    && (Closed(before.status) ==> after == before)
  }

  /** Rows stay and evolve, and no row appears as COMPLETED. */
  ghost predicate TableEvolves(before: map<Id, Booking>, after: map<Id, Booking>) {
    && (forall i :: i in before ==> i in after && Evolves(before[i], after[i]))
    && (forall i :: i in after && i !in before ==> after[i].status != COMPLETED)
  }

  lemma EvolvesOnward(a: map<Id, Booking>, b: map<Id, Booking>, c: map<Id, Booking>)
    requires TableEvolves(a, b) && TableEvolves(b, c)
    ensures TableEvolves(a, c)
  {
    forall i | i in a
      ensures i in c && Evolves(a[i], c[i])
    {
      assert Evolves(a[i], b[i]) && Evolves(b[i], c[i]);
    }
    forall i | i in c && i !in a
      ensures c[i].status != COMPLETED
    {
      assert i in b ==> Evolves(b[i], c[i]);
    }
  }

  // ── Any interleaved run ────────────────────────────────────────────────────

  /** The commit changes a row that is closed by then. */
  predicate Reopens(w: World, e: Event) {
    && Commits(w, e) && WrittenId(w, e) in w.db.bookings
    && Closed(w.db.bookings[WrittenId(w, e)].status)
    && Written(w, e) != w.db.bookings[WrittenId(w, e)]
  }

  /** With no discipline at all, a step evolves the table if and only if it is not such a commit. */
  lemma StepEvolvesIff(w: World, e: Event)
    requires AllGenuine(w)
    ensures TableEvolves(w.db.bookings, Step(w, e).db.bookings) <==> !Reopens(w, e)
  {
    if Commits(w, e) {
      CommitStoresWritten(w, e);
      var id := WrittenId(w, e);
      assert Genuine(w.db.bookings, w.flights[e.ticket]);
      assert Step(w, e).db.bookings[id] == Written(w, e);
    } else {
      OtherEventsKeepBookings(w, e);
    }
  }

  ghost predicate AlwaysEvolves(w: World, events: seq<Event>)
    decreases |events|
  {
    events != [] ==>
      && TableEvolves(w.db.bookings, Step(w, events[0]).db.bookings)
      && AlwaysEvolves(Step(w, events[0]), events[1..])
  }

  predicate NeverReopens(w: World, events: seq<Event>)
    decreases |events|
  {
    events != [] ==> !Reopens(w, events[0]) && NeverReopens(Step(w, events[0]), events[1..])
  }

  /** Any run at all: every step evolves the table if and only if no commit reopens a closed row. */
  lemma {:induction false} RunEvolvesIff(w: World, events: seq<Event>)
    requires AllGenuine(w)
    ensures AlwaysEvolves(w, events) <==> NeverReopens(w, events)
    decreases |events|
  {
    if events != [] {
      StepEvolvesIff(w, events[0]);
      StepKeepsGenuine(w, events[0]);
      RunEvolvesIff(Step(w, events[0]), events[1..]);
    }
  }

  /** From its first to its last state such a run only moves statuses forward and freezes closed rows. */
  lemma {:induction false} RunEvolves(w: World, events: seq<Event>)
    requires AllGenuine(w) && NeverReopens(w, events)
    ensures TableEvolves(w.db.bookings, Run(w, events).db.bookings)
    decreases |events|
  {
    if events != [] {
      var next := Step(w, events[0]);
      StepEvolvesIff(w, events[0]);
      StepKeepsGenuine(w, events[0]);
      RunEvolves(next, events[1..]);
      EvolvesOnward(w.db.bookings, next.db.bookings, Run(next, events[1..]).db.bookings);
    }
  }

  /** How often the status of a booking may still change. */
  function ChangesLeft(bookings: map<Id, Booking>, id: Id): nat {
    if id in bookings then 2 - Rank(bookings[id].status) else 2
  }

  /** The step from one table to the next changes the status of the booking. */
  predicate Changes(before: map<Id, Booking>, after: map<Id, Booking>, id: Id) {
    id in before && id in after && before[id].status != after[id].status
  }

  lemma ChangeUsesOne(before: map<Id, Booking>, after: map<Id, Booking>, id: Id)
    requires TableEvolves(before, after)
    ensures ChangesLeft(after, id) + (if Changes(before, after, id) then 1 else 0) <= ChangesLeft(before, id)
  {
    assert id in before ==> Evolves(before[id], after[id]);
  }

  /** How many steps of the run change the status of one booking. */
  function StatusChanges(w: World, events: seq<Event>, id: Id): nat
    decreases |events|
  {
    if events == [] then 0
    else
      var next := Step(w, events[0]);
      (if Changes(w.db.bookings, next.db.bookings, id) then 1 else 0) + StatusChanges(next, events[1..], id)
  }

  /** A booking changes status at most twice in any such run; at most once more when confirmed, never once closed. */
  lemma {:induction false} AtMostTwoStatusChanges(w: World, events: seq<Event>, id: Id)
    requires AllGenuine(w) && NeverReopens(w, events)
    ensures StatusChanges(w, events, id) <= ChangesLeft(w.db.bookings, id)
    decreases |events|
  {
    if events != [] {
      var next := Step(w, events[0]);
      StepEvolvesIff(w, events[0]);
      StepKeepsGenuine(w, events[0]);
      ChangeUsesOne(w.db.bookings, next.db.bookings, id);
      AtMostTwoStatusChanges(next, events[1..], id);
    }
  }

  // ── One request per booking at a time ──────────────────────────────────────

  /** No two requests in flight work on one booking; targets may clash. */
  ghost predicate OnePerBooking(w: World) {
    forall j, k :: j in w.flights && k in w.flights && j != k ==>
      !SharesBooking(w.flights[j].request, w.flights[k].request)
  }

  ghost predicate AlwaysOnePerBooking(w: World, events: seq<Event>)
    decreases |events|
  {
    OnePerBooking(w) && (events != [] ==> AlwaysOnePerBooking(Step(w, events[0]), events[1..]))
  }

  /** Every flight past its load still carries the stored row. */
  ghost predicate Truthful(w: World) {
    forall k :: k in w.flights ==>
      w.flights[k].stage.Arrived? || CarriesTruth(w.db.bookings, w.flights[k].request, w.flights[k].stage.row)
  }

  lemma StepKeepsTruthful(w: World, e: Event)
    requires AllGenuine(w) && Truthful(w) && OnePerBooking(w)
    ensures Truthful(Step(w, e)) && !Reopens(w, e)
  {
    if Commits(w, e) {
      CommitStoresWritten(w, e);
      forall k | k in w.flights && k != e.ticket && !w.flights[k].stage.Arrived?
        ensures CarriesTruth(Step(w, e).db.bookings, w.flights[k].request, w.flights[k].stage.row)
      {
        assert !SharesBooking(w.flights[e.ticket].request, w.flights[k].request);
      }
    } else {
      OtherEventsKeepBookings(w, e);
      forall k | k in Step(w, e).flights && !Step(w, e).flights[k].stage.Arrived?
        ensures CarriesTruth(w.db.bookings, Step(w, e).flights[k].request, Step(w, e).flights[k].stage.row)
      {
        assert k in w.flights;
      }
    }
  }

  /** Keeping requests on one booking apart is enough: no commit reopens, whatever targets clash. */
  lemma {:induction false} OnePerBookingNeverReopens(w: World, events: seq<Event>)
    requires AllGenuine(w) && Truthful(w) && AlwaysOnePerBooking(w, events)
    ensures NeverReopens(w, events)
    decreases |events|
  {
    if events != [] {
      StepKeepsTruthful(w, events[0]);
      StepKeepsGenuine(w, events[0]);
      OnePerBookingNeverReopens(Step(w, events[0]), events[1..]);
    }
  }

  // ── Runs of whole calls ────────────────────────────────────────────────────

  ghost predicate DatesInOrder(bookings: map<Id, Booking>) {
    forall i :: i in bookings ==> bookings[i].startDate < bookings[i].endDate
  }

  lemma {:induction false} RunKeepsGenuine(w: World, events: seq<Event>)
    requires AllGenuine(w)
    ensures AllGenuine(Run(w, events))
    decreases |events|
  {
    if events != [] {
      StepKeepsGenuine(w, events[0]);
      RunKeepsGenuine(Step(w, events[0]), events[1..]);
    }
  }

  /** The worlds of one request on its own have a single flight. */
  lemma {:induction false} SingleFlightIsOnePerBooking(worlds: seq<World>, events: seq<Event>, ticket: nat)
    requires Passes(worlds, events)
    requires forall k :: 0 <= k < |worlds| ==> worlds[k].flights.Keys <= {ticket}
    ensures AlwaysOnePerBooking(worlds[0], events)
    decreases |events|
  {
    if events != [] {
      SingleFlightIsOnePerBooking(worlds[1..], events[1..], ticket);
    }
  }

  /** A request executed alone evolves the table, refused or not. */
  lemma RequestEvolves(db: Db, rq: Request, newId: Id)
    requires DatesInOrder(db.bookings)
    ensures TableEvolves(db.bookings, Settle(db, AfterRequest(db, rq, newId)).bookings)
    ensures DatesInOrder(Settle(db, AfterRequest(db, rq, newId)).bookings)
  {
    var w := World(db, map[]);
    var worlds := AlonePasses(w, 0, rq, newId);
    AloneIsAtomic(w, 0, rq, newId);
    SingleFlightIsOnePerBooking(worlds, Alone(0, rq, newId), 0);
    OnePerBookingNeverReopens(w, Alone(0, rq, newId));
    RunEvolves(w, Alone(0, rq, newId));
    RunKeepsGenuine(w, Alone(0, rq, newId));
  }

  lemma CallEvolves(db: Db, e: System.Event)
    requires DatesInOrder(db.bookings)
    ensures TableEvolves(db.bookings, System.Step(db, e).bookings) && DatesInOrder(System.Step(db, e).bookings)
  {
    if e.op.OnBookings? {
      RequestEvolves(db, e.op.request, e.op.newId);
    } else if System.Outcome(db, e).Ok? {
      System.CallWrites(db, e, System.Step(db, e));
    }
  }

  /** How many calls of the run change the status of one booking. */
  ghost function CallStatusChanges(db: Db, events: seq<System.Event>, id: Id): nat
    decreases |events|
  {
    if events == [] then 0
    else
      var next := System.Step(db, events[0]);
      (if Changes(db.bookings, next.bookings, id) then 1 else 0) + CallStatusChanges(next, events[1..], id)
  }

  /** In every run of whole calls of all services, with no condition: statuses only move forward, at most twice each. */
  lemma {:induction false} CallsEvolve(db: Db, events: seq<System.Event>, id: Id)
    requires DatesInOrder(db.bookings)
    ensures TableEvolves(db.bookings, System.Run(db, events).bookings)
    ensures CallStatusChanges(db, events, id) <= ChangesLeft(db.bookings, id)
    decreases |events|
  {
    if events != [] {
      var next := System.Step(db, events[0]);
      CallEvolves(db, events[0]);
      ChangeUsesOne(db.bookings, next.bookings, id);
      CallsEvolve(next, events[1..], id);
      EvolvesOnward(db.bookings, next.bookings, System.Run(next, events[1..]).bookings);
    }
  }
}
