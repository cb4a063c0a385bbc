/** The latest location under interleaving: exactly when `getLatest` answers the newest row. */
module LatestRuns {
  import opened Common
  import opened Clock
  import opened Redis
  import opened Tracking
  import opened TrackingRuns
  import opened RateRuns

  // ── The cache holds what was written last ──────────────────────────────────

  /** The row of the j-th cache write is of the vehicle. */
  predicate WriteOf(w: World, j: int, tenantId: Id, vehicleId: Id) {
    0 <= j < |w.writes| && w.writes[j].row < |w.gps| && Concerns(w.gps[w.writes[j].row], tenantId, vehicleId)
  }

  /** The last cache write for a vehicle. */
  ghost predicate LastWrite(w: World, j: int, tenantId: Id, vehicleId: Id) {
    WriteOf(w, j, tenantId, vehicleId) && forall i :: j < i < |w.writes| ==> !WriteOf(w, i, tenantId, vehicleId)
  }

  /** The entry holds the location of the row of the j-th write and expires one cache lifetime after it. */
  predicate Holds(entry: Entry, w: World, j: nat)
    requires j < |w.writes| && w.writes[j].row < |w.gps|
  {
    Shows(entry, w.gps[w.writes[j].row]) && entry.expiry == w.writes[j].at + 1000 * LOCATION_CACHE_TTL
  }

  ghost predicate HoldsLast(w: World, key: Key, entry: Entry)
    requires key.Latest?
  {
    exists j :: LastWrite(w, j, key.tenantId, key.vehicleId) && Holds(entry, w, j)
  }

  /** Every cached location is that of the last write for its vehicle. */
  ghost predicate CacheIsLast(w: World) {
    forall key :: key in w.redis && key.Latest? ==> HoldsLast(w, key, w.redis[key])
  }

  /** More rows and writes of other vehicles leave the last write of a vehicle what it was. */
  lemma StillHoldsLast(w: World, next: World, key: Key, entry: Entry)
    requires key.Latest? && HoldsLast(w, key, entry)
    requires w.gps <= next.gps && w.writes <= next.writes
    requires forall i :: |w.writes| <= i < |next.writes| ==> !WriteOf(next, i, key.tenantId, key.vehicleId)
    requires forall i :: 0 <= i < |w.writes| ==> w.writes[i].row < |w.gps|
    ensures HoldsLast(next, key, entry)
  {
    var j :| LastWrite(w, j, key.tenantId, key.vehicleId) && Holds(entry, w, j);
    forall i | 0 <= i < |w.writes|
      ensures WriteOf(next, i, key.tenantId, key.vehicleId) <==> WriteOf(w, i, key.tenantId, key.vehicleId)
    {
      assert next.writes[i] == w.writes[i] && next.gps[w.writes[i].row] == w.gps[w.writes[i].row];
    }
    assert LastWrite(next, j, key.tenantId, key.vehicleId) && Holds(entry, next, j);
  }

  lemma CacheWriteHolds(w: World, clock: Time, e: Event)
    requires Sound(w, clock) && At(w, e, IS_SAVED) && !e.fails
    ensures var rq := w.flights[e.ticket].request; var key := Latest(rq.tenantId, rq.vehicleId);
      key in Step(w, e).redis && HoldsLast(Step(w, e), key, Step(w, e).redis[key])
  {
    var next, rq := Step(w, e), w.flights[e.ticket].request;
    assert FlightOk(w, w.flights[e.ticket]);
    assert LastWrite(next, |w.writes|, rq.tenantId, rq.vehicleId);
    assert Holds(next.redis[Latest(rq.tenantId, rq.vehicleId)], next, |w.writes|);
  }

  lemma StepKeepsCache(w: World, clock: Time, e: Event)
    requires Sound(w, clock) && CacheIsLast(w)
    ensures CacheIsLast(Step(w, e))
  {
    var next := Step(w, e);
    forall key | key in next.redis && key.Latest?
      ensures HoldsLast(next, key, next.redis[key])
    {
      if At(w, e, IS_SAVED) && !e.fails {
        var rq := w.flights[e.ticket].request;
        assert FlightOk(w, w.flights[e.ticket]);
        if key == Latest(rq.tenantId, rq.vehicleId) {
          CacheWriteHolds(w, clock, e);
        } else {
          StillHoldsLast(w, next, key, w.redis[key]);
        }
      } else {
        assert next.writes == w.writes && next.redis[key] == w.redis[key];
        StillHoldsLast(w, next, key, w.redis[key]);
      }
    }
  }

  lemma {:induction false} RunKeepsCache(w: World, clock: Time, events: seq<Event>)
    requires Sound(w, clock) && CacheIsLast(w) && Timely(clock, events, NOW)
    ensures CacheIsLast(Run(w, events))
    decreases |events|
  {
    if events != [] {
      StepKeepsCache(w, clock, events[0]);
      StepKeepsSound(w, clock, events[0]);
      RunKeepsCache(Step(w, events[0]), events[0].now, events[1..]);
    }
  }

  // ── Exactly when the answer is newest ──────────────────────────────────────

  ghost predicate IsNewestPosition(gps: seq<GpsRow>, p: Position, tenantId: Id, vehicleId: Id) {
    exists r :: IsNewest(gps, r, tenantId, vehicleId) && p == PositionOf(r)
  }

  /** The row of the last cache write for the vehicle is a newest one. */
  ghost predicate NewestWrittenLast(w: World, tenantId: Id, vehicleId: Id) {
    exists j :: LastWrite(w, j, tenantId, vehicleId) && IsNewest(w.gps, w.gps[w.writes[j].row], tenantId, vehicleId)
  }

  lemma CachedIsNewestIff(w: World, tenantId: Id, vehicleId: Id)
    requires CacheIsLast(w) && Latest(tenantId, vehicleId) in w.redis
    requires w.redis[Latest(tenantId, vehicleId)].value.Cached?
    ensures IsNewestPosition(
      w.gps, CachedPosition(w.redis[Latest(tenantId, vehicleId)].value.location), tenantId, vehicleId) <==>
      NewestWrittenLast(w, tenantId, vehicleId)
  {
    var key := Latest(tenantId, vehicleId);
    var p := CachedPosition(w.redis[key].value.location);
    assert HoldsLast(w, key, w.redis[key]);
    var j :| LastWrite(w, j, tenantId, vehicleId) && Holds(w.redis[key], w, j);
    var row := w.gps[w.writes[j].row];
    if IsNewestPosition(w.gps, p, tenantId, vehicleId) {
      var r :| IsNewest(w.gps, r, tenantId, vehicleId) && p == PositionOf(r);
      assert row.timestamp == r.timestamp && IsNewest(w.gps, row, tenantId, vehicleId);
    }
    if NewestWrittenLast(w, tenantId, vehicleId) {
      var i :| LastWrite(w, i, tenantId, vehicleId) && IsNewest(w.gps, w.gps[w.writes[i].row], tenantId, vehicleId);
      assert i == j && p == PositionOf(row);
    }
  }

  /**
   * In any interleaved run, whatever calls fail: `getLatest` answers a newest row of the vehicle if
   * and only if the cache cannot be read, or the last cache write for the vehicle was of such a row.
   */
  lemma LatestIsNewestIff(
    clock: Time,
    events: seq<Event>,
    tenantId: Id,
    vehicleId: Id,
    now: Time,
    getFails: bool,
    answer: Position)
    requires InTime(clock, events)
    requires MayAnswer(StateOf(After(events)), tenantId, vehicleId, now, getFails, Some(answer))
    ensures IsNewestPosition(After(events).gps, answer, tenantId, vehicleId) <==>
      || getFails
      || Get(After(events).redis, Latest(tenantId, vehicleId), now).None?
      || NewestWrittenLast(After(events), tenantId, vehicleId)
  {
    var w := After(events);
    RunKeepsCache(EMPTY, clock, events);
    if !getFails && Get(w.redis, Latest(tenantId, vehicleId), now).Some? {
      CachedIsNewestIff(w, tenantId, vehicleId);
    } else {
      var r :| IsNewest(w.gps, r, tenantId, vehicleId) && Some(answer) == Some(PositionOf(r));
    }
  }

  /** A row of the vehicle that is newest, or whose location was cached less than one cache lifetime ago. */
  ghost predicate NewestOrRecent(w: World, r: GpsRow, tenantId: Id, vehicleId: Id, now: Time) {
    && r in w.gps && Concerns(r, tenantId, vehicleId)
    && (|| IsNewest(w.gps, r, tenantId, vehicleId)
        || exists j :: WriteOf(w, j, tenantId, vehicleId) && w.gps[w.writes[j].row] == r
             && now < w.writes[j].at + 3600000)
  }

  /** In any interleaved run, whatever calls fail: no answer only if no row is stored, else a newest or recent row. */
  lemma LatestIsNewestOrRecent(
    clock: Time,
    events: seq<Event>,
    tenantId: Id,
    vehicleId: Id,
    now: Time,
    getFails: bool,
    answer: Option<Position>)
    requires InTime(clock, events)
    requires MayAnswer(StateOf(After(events)), tenantId, vehicleId, now, getFails, answer)
    ensures answer.None? <==> forall r :: r in After(events).gps ==> !Concerns(r, tenantId, vehicleId)
    ensures answer.Some? ==> exists r ::
      NewestOrRecent(After(events), r, tenantId, vehicleId, now) && answer == Some(PositionOf(r))
  {
    var w, key := After(events), Latest(tenantId, vehicleId);
    RunKeepsCache(EMPTY, clock, events);
    if !getFails && Get(w.redis, key, now).Some? {
      assert HoldsLast(w, key, w.redis[key]);
      var j :| LastWrite(w, j, tenantId, vehicleId) && Holds(w.redis[key], w, j);
      var r := w.gps[w.writes[j].row];
      assert r in w.gps && Concerns(r, tenantId, vehicleId);
      assert NewestOrRecent(w, r, tenantId, vehicleId, now);
    } else if answer.Some? {
      var r :| IsNewest(w.gps, r, tenantId, vehicleId) && answer == Some(PositionOf(r));
      assert NewestOrRecent(w, r, tenantId, vehicleId, now);
    }
  }

  // ── Prompt saves ───────────────────────────────────────────────────────────

  /** A save inserts its row and writes the cache less than the rate limit after its flag. */
  predicate Prompt(w: World, e: Event) {
    && (At(w, e, IS_FLAGGED) && w.flights[e.ticket].stage.mark < |w.marks| ==>
          e.now < w.marks[w.flights[e.ticket].stage.mark].at + GAP)
    && (At(w, e, IS_SAVED) && FlagKnown(w, w.flights[e.ticket].stage.row) ==>
          e.now < FlaggedAt(w, w.flights[e.ticket].stage.row) + GAP)
  }

  predicate FlagKnown(w: World, i: nat) {
    i < |w.origins| && w.origins[i] < |w.marks|
  }

  /** The two rows are of one vehicle. */
  predicate SameVehicle(gps: seq<GpsRow>, i: nat, j: nat)
    requires i < |gps| && j < |gps|
  {
    Concerns(gps[j], gps[i].tenantId, gps[i].vehicleId)
  }

  /** Rows of one vehicle come in the order of their flags, each before the next flag. */
  ghost predicate RowsInFlagOrder(w: World) {
    forall i, j :: 0 <= i < j < |w.gps| && FlagKnown(w, i) && FlagKnown(w, j) && SameVehicle(w.gps, i, j) ==>
      && FlaggedAt(w, i) + GAP <= FlaggedAt(w, j)
      && w.gps[i].timestamp < w.gps[j].timestamp
  }

  ghost predicate RowsPrompt(w: World) {
    forall i :: 0 <= i < |w.gps| && FlagKnown(w, i) ==> w.gps[i].timestamp < FlaggedAt(w, i) + GAP
  }

  /** Cache writes of one vehicle come in the order of its rows. */
  ghost predicate WritesInOrder(w: World) {
    forall i, j ::
      && 0 <= i < j < |w.writes| && w.writes[i].row < |w.gps| && w.writes[j].row < |w.gps|
      && SameVehicle(w.gps, w.writes[i].row, w.writes[j].row) ==>
      w.writes[i].row < w.writes[j].row
  }

  predicate Written(w: World, row: nat) {
    exists j :: 0 <= j < |w.writes| && w.writes[j].row == row
  }

  /** A flight stands between the insertion of the row and its cache write. */
  predicate Pending(w: World, row: nat) {
    exists k :: k in w.flights && w.flights[k].stage.Saved? && w.flights[k].stage.row == row
  }

  ghost predicate WrittenOrPending(w: World) {
    forall i :: 0 <= i < |w.gps| ==> Written(w, i) || Pending(w, i)
  }

  ghost predicate Orderly(w: World) {
    RowsInFlagOrder(w) && RowsPrompt(w) && WritesInOrder(w) && WrittenOrPending(w)
  }

  /** The step inserts a row. */
  predicate InsertsRow(w: World, e: Event) {
    At(w, e, IS_FLAGGED) && |Step(w, e).gps| > |w.gps|
  }

  /** The flag of a row being inserted comes after those of all rows of its vehicle, by the rate limit. */
  lemma InsertedFlagIsLater(w: World, clock: Time, e: Event, i: nat)
    requires Sound(w, clock) && FlagsApart(w) && RowsPrompt(w) && Prompt(w, e) && clock <= e.now
    requires InsertsRow(w, e) && i < |w.gps|
    requires Concerns(w.gps[i], w.flights[e.ticket].request.tenantId, w.flights[e.ticket].request.vehicleId)
    ensures FlagKnown(w, i) && w.flights[e.ticket].stage.mark < |w.marks|
    ensures FlaggedAt(w, i) + GAP <= w.marks[w.flights[e.ticket].stage.mark].at <= clock
    ensures w.gps[i].timestamp < w.marks[w.flights[e.ticket].stage.mark].at
  {
    var m, o := w.flights[e.ticket].stage.mark, w.origins[i];
    assert FlightOk(w, w.flights[e.ticket]);
    assert o in w.origins && o != m && MarkOf(w.marks[o], w.gps[i].tenantId, w.gps[i].vehicleId);
    assert w.marks[o].at <= clock;
  }

  lemma InsertKeepsRowOrder(w: World, clock: Time, e: Event)
    requires Sound(w, clock) && FlagsApart(w) && RowsInFlagOrder(w) && RowsPrompt(w) && Prompt(w, e) && clock <= e.now
    requires InsertsRow(w, e)
    ensures RowsInFlagOrder(Step(w, e)) && RowsPrompt(Step(w, e))
  {
    var next, n, rq := Step(w, e), |w.gps|, w.flights[e.ticket].request;
    assert FlightOk(w, w.flights[e.ticket]);
    assert next.gps == w.gps + [RowOf(rq, e.now)] && next.marks == w.marks;
    assert next.origins == w.origins + [w.flights[e.ticket].stage.mark];
    forall i | 0 <= i < n && Concerns(w.gps[i], rq.tenantId, rq.vehicleId)
      ensures FlagKnown(w, i) && FlaggedAt(w, i) + GAP <= FlaggedAt(next, n) && w.gps[i].timestamp < e.now
    {
      InsertedFlagIsLater(w, clock, e, i);
    }
    forall i, j | 0 <= i < j < n && FlagKnown(next, i) && FlagKnown(next, j) && SameVehicle(next.gps, i, j)
      ensures FlaggedAt(next, i) + GAP <= FlaggedAt(next, j) && next.gps[i].timestamp < next.gps[j].timestamp
    {
      assert FlagKnown(w, i) && FlagKnown(w, j) && SameVehicle(w.gps, i, j);
    }
    forall i | 0 <= i < n && FlagKnown(next, i)
      ensures next.gps[i].timestamp < FlaggedAt(next, i) + GAP
    {
      assert FlagKnown(w, i);
    }
  }

  lemma StepKeepsRowOrder(w: World, clock: Time, e: Event)
    requires Sound(w, clock) && FlagsApart(w) && RowsInFlagOrder(w) && RowsPrompt(w) && Prompt(w, e) && clock <= e.now
    ensures RowsInFlagOrder(Step(w, e)) && RowsPrompt(Step(w, e))
  {
    if InsertsRow(w, e) {
      InsertKeepsRowOrder(w, clock, e);
    } else {
      OtherStepsKeepRows(w, e);
    }
  }

  lemma OtherStepsKeepRows(w: World, e: Event)
    requires !InsertsRow(w, e)
    ensures Step(w, e).gps == w.gps && Step(w, e).origins == w.origins && w.marks <= Step(w, e).marks
  {
  }

  /** The rows of a vehicle that are written already come before the row about to be written. */
  lemma WrittenRowsAreEarlier(w: World, clock: Time, e: Event, i: nat)
    requires Sound(w, clock) && RowsInFlagOrder(w) && Prompt(w, e) && clock <= e.now && At(w, e, IS_SAVED)
    requires i < |w.writes| && w.flights[e.ticket].stage.row < |w.gps|
    requires SameVehicle(w.gps, w.writes[i].row, w.flights[e.ticket].stage.row)
    ensures w.writes[i].row < w.flights[e.ticket].stage.row
  {
    var r, k := w.writes[i].row, w.flights[e.ticket].stage.row;
    assert FlightOk(w, w.flights[e.ticket]);
    assert FlagKnown(w, r) && FlagKnown(w, k) && SameVehicle(w.gps, k, r);
    assert FlaggedAt(w, r) <= w.gps[r].timestamp <= clock;
  }

  lemma StepKeepsWriteOrder(w: World, clock: Time, e: Event)
    requires Sound(w, clock) && RowsInFlagOrder(w) && WritesInOrder(w) && Prompt(w, e) && clock <= e.now
    ensures WritesInOrder(Step(w, e))
  {
    var next := Step(w, e);
    if At(w, e, IS_SAVED) && !e.fails {
      var k := w.flights[e.ticket].stage.row;
      assert FlightOk(w, w.flights[e.ticket]);
      assert next.gps == w.gps && next.writes == w.writes + [CacheWrite(k, e.now)];
      forall i | 0 <= i < |w.writes| && SameVehicle(w.gps, w.writes[i].row, k)
        ensures w.writes[i].row < k
      {
        WrittenRowsAreEarlier(w, clock, e, i);
      }
    } else {
      assert next.writes == w.writes && w.gps <= next.gps;
    }
  }

  lemma StepKeepsOneWritten(w: World, clock: Time, e: Event, i: nat)
    requires Sound(w, clock) && CacheWorks(w, e) && i < |w.gps| && (Written(w, i) || Pending(w, i))
    ensures Written(Step(w, e), i) || Pending(Step(w, e), i)
  {
    var next := Step(w, e);
    if Written(w, i) {
      var j :| 0 <= j < |w.writes| && w.writes[j].row == i;
      assert next.writes[j].row == i;
    } else {
      var k :| k in w.flights && w.flights[k].stage.Saved? && w.flights[k].stage.row == i;
      if At(w, e, IS_SAVED) && k == e.ticket {
        assert next.writes[|w.writes|].row == i;
      } else {
        assert k in next.flights && next.flights[k] == w.flights[k];
      }
    }
  }

  lemma StepKeepsWritten(w: World, clock: Time, e: Event)
    requires Sound(w, clock) && WrittenOrPending(w) && CacheWorks(w, e)
    ensures WrittenOrPending(Step(w, e))
  {
    var next := Step(w, e);
    forall i | 0 <= i < |w.gps|
      ensures Written(next, i) || Pending(next, i)
    {
      StepKeepsOneWritten(w, clock, e, i);
    }
    if |next.gps| > |w.gps| {
      assert next.flights[e.ticket].stage.Saved? && next.flights[e.ticket].stage.row == |w.gps|;
      assert Pending(next, |w.gps|);
    }
  }

  lemma {:induction false} RunKeepsOrderly(w: World, clock: Time, events: seq<Event>)
    requires Sound(w, clock) && FlagsMirror(w) && FlagsApart(w) && Orderly(w) && Timely(clock, events, NOW)
    requires Along(w, events, FlagWorks) && Along(w, events, Uncontested)
    requires Along(w, events, CacheWorks) && Along(w, events, Prompt)
    ensures Orderly(Run(w, events))
    decreases |events|
  {
    if events != [] {
      StepKeepsRowOrder(w, clock, events[0]);
      StepKeepsWriteOrder(w, clock, events[0]);
      StepKeepsWritten(w, clock, events[0]);
      StepFlagsApartIff(w, events[0]);
      StepKeepsMirror(w, clock, events[0]);
      StepKeepsSound(w, clock, events[0]);
      RunKeepsOrderly(Step(w, events[0]), events[0].now, events[1..]);
    }
  }

  /** The one newest row of a vehicle. */
  ghost predicate IsTheNewest(gps: seq<GpsRow>, r: GpsRow, tenantId: Id, vehicleId: Id) {
    IsNewest(gps, r, tenantId, vehicleId) && forall q :: IsNewest(gps, q, tenantId, vehicleId) ==> q == r
  }

  lemma OrderlyNewestIsUnique(w: World, clock: Time, r: GpsRow, tenantId: Id, vehicleId: Id)
    requires Sound(w, clock) && RowsInFlagOrder(w) && IsNewest(w.gps, r, tenantId, vehicleId)
    ensures IsTheNewest(w.gps, r, tenantId, vehicleId)
  {
    var j :| 0 <= j < |w.gps| && w.gps[j] == r;
    forall q | IsNewest(w.gps, q, tenantId, vehicleId)
      ensures q == r
    {
      var i :| 0 <= i < |w.gps| && w.gps[i] == q;
      assert SameVehicle(w.gps, i, j) && SameVehicle(w.gps, j, i) && FlagKnown(w, i) && FlagKnown(w, j);
    }
  }

  /** No save of the vehicle stands between its row and its cache write. */
  ghost predicate Settled(w: World, tenantId: Id, vehicleId: Id) {
    forall k :: k in w.flights && w.flights[k].stage.Saved? ==>
      !(w.flights[k].request.tenantId == tenantId && w.flights[k].request.vehicleId == vehicleId)
  }

  lemma SettledRowIsNotPending(w: World, tenantId: Id, vehicleId: Id, i: nat)
    requires FlightsOk(w) && Settled(w, tenantId, vehicleId) && i < |w.gps| && Concerns(w.gps[i], tenantId, vehicleId)
    ensures !Pending(w, i)
  {
    forall k | k in w.flights && w.flights[k].stage.Saved?
      ensures w.flights[k].stage.row != i
    {
      assert FlightOk(w, w.flights[k]);
    }
  }

  /** In an orderly state with all of a vehicle's rows written, the last write is of the newest row. */
  lemma OrderlyWritesNewestLast(w: World, clock: Time, tenantId: Id, vehicleId: Id, j: nat)
    requires Sound(w, clock) && Orderly(w) && Settled(w, tenantId, vehicleId) && LastWrite(w, j, tenantId, vehicleId)
    ensures NewestWrittenLast(w, tenantId, vehicleId)
  {
    var row := w.writes[j].row;
    forall i | 0 <= i < |w.gps| && Concerns(w.gps[i], tenantId, vehicleId)
      ensures w.gps[i].timestamp <= w.gps[row].timestamp
    {
      SettledRowIsNotPending(w, tenantId, vehicleId, i);
      var m :| 0 <= m < |w.writes| && w.writes[m].row == i;
      assert WriteOf(w, m, tenantId, vehicleId);
      if m < j {
        assert SameVehicle(w.gps, w.writes[m].row, w.writes[j].row);
      }
    }
    assert w.gps[row] in w.gps;
    assert IsNewest(w.gps, w.gps[row], tenantId, vehicleId);
  }

  /** In such a state the answer of `getLatest` is the one newest row. */
  lemma OrderlyAnswerIsNewest(
    w: World,
    clock: Time,
    tenantId: Id,
    vehicleId: Id,
    now: Time,
    getFails: bool,
    answer: Position)
    requires Sound(w, clock) && CacheIsLast(w) && Orderly(w) && Settled(w, tenantId, vehicleId)
    requires MayAnswer(StateOf(w), tenantId, vehicleId, now, getFails, Some(answer))
    ensures exists r :: IsTheNewest(w.gps, r, tenantId, vehicleId) && answer == PositionOf(r)
  {
    if !getFails && Get(w.redis, Latest(tenantId, vehicleId), now).Some? {
      var key := Latest(tenantId, vehicleId);
      assert HoldsLast(w, key, w.redis[key]);
      var j :| LastWrite(w, j, tenantId, vehicleId) && Holds(w.redis[key], w, j);
      OrderlyWritesNewestLast(w, clock, tenantId, vehicleId, j);
      CachedIsNewestIff(w, tenantId, vehicleId);
    }
    assert IsNewestPosition(w.gps, answer, tenantId, vehicleId);
    var r :| IsNewest(w.gps, r, tenantId, vehicleId) && answer == PositionOf(r);
    OrderlyNewestIsUnique(w, clock, r, tenantId, vehicleId);
  }

  /**
   * A run from the empty state whose Redis writes work, contest no flag, and follow their flag within
   * the rate limit.
   */
  ghost predicate PromptRun(clock: Time, events: seq<Event>) {
    LimitedRun(clock, events) && Along(EMPTY, events, CacheWorks) && Along(EMPTY, events, Prompt)
  }

  lemma EmptyIsOrderly(clock: Time)
    ensures Sound(EMPTY, clock) && CacheIsLast(EMPTY) && FlagsMirror(EMPTY) && FlagsApart(EMPTY) && Orderly(EMPTY)
  {
  }

  lemma RunKeepsAll(w: World, clock: Time, events: seq<Event>)
    requires Sound(w, clock) && CacheIsLast(w) && FlagsMirror(w) && FlagsApart(w) && Orderly(w)
    requires Timely(clock, events, NOW) && Along(w, events, FlagWorks) && Along(w, events, Uncontested)
    requires Along(w, events, CacheWorks) && Along(w, events, Prompt)
    ensures Sound(Run(w, events), LastInstant(clock, events, NOW))
    ensures CacheIsLast(Run(w, events)) && Orderly(Run(w, events))
  {
    RunKeepsSound(w, clock, events);
    RunKeepsCache(w, clock, events);
    RunKeepsOrderly(w, clock, events);
  }

  lemma OrderlyAfter(clock: Time, events: seq<Event>)
    requires PromptRun(clock, events)
    ensures Sound(After(events), LastInstant(clock, events, NOW)) && CacheIsLast(After(events))
      && Orderly(After(events))
  {
    EmptyIsOrderly(clock);
    RunKeepsAll(EMPTY, clock, events);
  }

  /**
   * In any interleaved run whose Redis writes work, whose flags are uncontested and whose saves take
   * less than 5 seconds from flag to cache: the newest row of a vehicle is unique, and `getLatest`
   * answers it at any time while no save of the vehicle is about to write the cache.
   */
  lemma LatestIsTheNewestRow(
    clock: Time,
    events: seq<Event>,
    tenantId: Id,
    vehicleId: Id,
    now: Time,
    getFails: bool,
    answer: Option<Position>)
    requires PromptRun(clock, events)
    requires Settled(After(events), tenantId, vehicleId)
    requires MayAnswer(StateOf(After(events)), tenantId, vehicleId, now, getFails, answer)
    ensures answer.None? <==> forall r :: r in After(events).gps ==> !Concerns(r, tenantId, vehicleId)
    ensures answer.Some? ==> exists r ::
      IsTheNewest(After(events).gps, r, tenantId, vehicleId) && answer == Some(PositionOf(r))
  {
    OrderlyAfter(clock, events);
    LatestIsNewestOrRecent(clock, events, tenantId, vehicleId, now, getFails, answer);
    if answer.Some? {
      OrderlyAnswerIsNewest(
        After(events), LastInstant(clock, events, NOW), tenantId, vehicleId, now, getFails, answer.value);
      var r :| IsTheNewest(After(events).gps, r, tenantId, vehicleId) && answer.value == PositionOf(r);
      assert answer == Some(PositionOf(r));
    }
  }
}
