/** Interleaved and failing GPS saves of one van after which rows crowd or `getLatest` answers an older row. */
module TrackingExamples {
  import opened Common
  import opened Clock
  import opened Schema
  import opened Redis
  import opened Tracking
  import opened TrackingRuns
  import opened RateRuns
  import opened LatestRuns

  const VAN := Vehicle("t", None, "R1", ON_TRIP, None)
  const VANS := map["van" := VAN]
  const HERE := SaveRequest("t", "van", Fix(0.0, 0.0, 0.0))
  const FLAG := RateLimit("t", "van")
  const CACHE := Latest("t", "van")

  function RowAt(savedAt: Time): GpsRow {
    RowOf(HERE, savedAt)
  }

  function Go(ticket: nat, now: Time): Event {
    Advance(ticket, VANS, false, now)
  }

  /** A save of the van up to its row; only its cache write is still to come. */
  function UpToRow(ticket: nat, flaggedAt: Time, savedAt: Time): seq<Event> {
    [Arrive(ticket, HERE, flaggedAt), Go(ticket, flaggedAt), Go(ticket, flaggedAt), Go(ticket, savedAt)]
  }

  /** The flag of the van is free at the instant. */
  predicate Free(w: World, now: Time) {
    FLAG in w.redis ==> w.redis[FLAG].expiry <= now
  }

  /** The world after such a save: a row and a flag more, and a flight about to write the cache. */
  function WithRow(w: World, ticket: nat, flaggedAt: Time, savedAt: Time): World {
    World(
      w.gps + [RowAt(savedAt)],
      SetEx(w.redis, FLAG, Flag, RATE_LIMIT_TTL, flaggedAt),
      w.flights[ticket := Flight(HERE, Saved(|w.gps|, savedAt, "R1"))],
      w.marks + [Mark("t", "van", flaggedAt)],
      w.origins + [|w.marks|],
      w.writes)
  }

  lemma FourSteps(w: World, e: seq<Event>)
    requires |e| == 4
    ensures Run(w, e) == Step(Step(Step(Step(w, e[0]), e[1]), e[2]), e[3])
  {
    var w1 := Step(w, e[0]);
    var w2 := Step(w1, e[1]);
    var w3 := Step(w2, e[2]);
    PassesIsRun([w, w1, w2, w3, Step(w3, e[3])], e);
  }

  lemma SavesRow(w: World, ticket: nat, flaggedAt: Time, savedAt: Time)
    requires ticket !in w.flights && Free(w, flaggedAt)
    ensures Run(w, UpToRow(ticket, flaggedAt, savedAt)) == WithRow(w, ticket, flaggedAt, savedAt)
  {
    FourSteps(w, UpToRow(ticket, flaggedAt, savedAt));
    var w1 := Step(w, Arrive(ticket, HERE, flaggedAt));
    var w2 := Step(w1, Go(ticket, flaggedAt));
    var w3 := Step(w2, Go(ticket, flaggedAt));
    var w4 := Step(w3, Go(ticket, savedAt));
    assert w2.flights == w.flights[ticket := Flight(HERE, Tested)];
    assert w3.flights == w.flights[ticket := Flight(HERE, Flagged(|w.marks|))];
    assert w4.flights == w.flights[ticket := Flight(HERE, Saved(|w.gps|, savedAt, "R1"))];
  }

  /** The world after a cache write of the row that a flight holds. */
  function WithCache(w: World, ticket: nat, row: nat, savedAt: Time, now: Time): World {
    w.(flights := w.flights - {ticket},
       redis := SetEx(w.redis, CACHE, Cached(Location("van", "R1", HERE.fix, savedAt)), LOCATION_CACHE_TTL, now),
       writes := w.writes + [CacheWrite(row, now)])
  }

  lemma WritesCache(w: World, ticket: nat, row: nat, savedAt: Time, now: Time)
    requires ticket in w.flights && w.flights[ticket] == Flight(HERE, Saved(row, savedAt, "R1"))
    ensures Step(w, Go(ticket, now)) == WithCache(w, ticket, row, savedAt, now)
  {
  }

  lemma FailsCache(w: World, ticket: nat, row: nat, savedAt: Time, now: Time)
    requires ticket in w.flights && w.flights[ticket] == Flight(HERE, Saved(row, savedAt, "R1"))
    ensures Step(w, Advance(ticket, VANS, true, now)) == Dropped(w, ticket)
  {
  }

  lemma {:induction false} RunConcat(w: World, first: seq<Event>, second: seq<Event>)
    ensures Run(w, first + second) == Run(Run(w, first), second)
    decreases |first|
  {
    if first == [] {
      assert first + second == second;
    } else {
      assert (first + second)[1..] == first[1..] + second;
      RunConcat(Step(w, first[0]), first[1..], second);
    }
  }

  lemma OneMore(w: World, events: seq<Event>, e: Event)
    ensures Run(w, events + [e]) == Step(Run(w, events), e)
  {
    RunConcat(w, events, [e]);
    var last := Run(w, events);
    PassesIsRun([last, Step(last, e)], [e]);
  }

  lemma {:induction false} OrderedIsTimely(clock: Time, events: seq<Event>)
    requires forall i :: 0 <= i < |events| ==> clock <= events[i].now
    requires forall i, j :: 0 <= i < j < |events| ==> events[i].now <= events[j].now
    ensures Timely(clock, events, NOW)
    decreases |events|
  {
    if events != [] {
      OrderedIsTimely(events[0].now, events[1..]);
    }
  }

  // ── A cache write that comes late ──────────────────────────────────────────

  /** The first save is slow to write the cache; the second one, all within a second, is done in between. */
  function SlowCache(): seq<Event> {
    UpToRow(0, 0, 1000) + UpToRow(1, 5000, 5000) + [Go(1, 6000)] + [Go(0, 20000)]
  }

  lemma SlowCacheRun(w: World)
    requires w.gps == [] && w.flights == map[] && FLAG !in w.redis
    ensures var w2 := WithRow(WithRow(w, 0, 0, 1000), 1, 5000, 5000);
      Run(w, SlowCache()) == WithCache(WithCache(w2, 1, 1, 5000, 6000), 0, 0, 1000, 20000)
  {
    var w1 := WithRow(w, 0, 0, 1000);
    var w2 := WithRow(w1, 1, 5000, 5000);
    var w3 := WithCache(w2, 1, 1, 5000, 6000);
    SavesRow(w, 0, 0, 1000);
    SavesRow(w1, 1, 5000, 5000);
    RunConcat(w, UpToRow(0, 0, 1000), UpToRow(1, 5000, 5000));
    WritesCache(w2, 1, 1, 5000, 6000);
    OneMore(w, UpToRow(0, 0, 1000) + UpToRow(1, 5000, 5000), Go(1, 6000));
    WritesCache(w3, 0, 0, 1000, 20000);
    OneMore(w, UpToRow(0, 0, 1000) + UpToRow(1, 5000, 5000) + [Go(1, 6000)], Go(0, 20000));
  }

  /** The two rows are stored, and the write of the first row is the last one. */
  lemma SlowCacheEnds()
    ensures After(SlowCache()).gps == [] + [RowAt(1000)] + [RowAt(5000)]
    ensures After(SlowCache()).marks == [] + [Mark("t", "van", 0)] + [Mark("t", "van", 5000)]
    ensures CACHE in After(SlowCache()).redis
    ensures After(SlowCache()).redis[CACHE]
      == Entry(Cached(Location("van", "R1", HERE.fix, 1000)), 20000 + 1000 * LOCATION_CACHE_TTL)
  {
    SlowCacheRun(EMPTY);
  }

  lemma SlowCacheIsInTime()
    ensures InTime(0, SlowCache())
    ensures forall e :: e in SlowCache() && e.Advance? ==> !e.fails
  {
    assert SlowCache() == [
      Arrive(0, HERE, 0), Go(0, 0), Go(0, 0), Go(0, 1000),
      Arrive(1, HERE, 5000), Go(1, 5000), Go(1, 5000), Go(1, 5000), Go(1, 6000), Go(0, 20000)];
    OrderedIsTimely(0, SlowCache());
  }

  /** While the entry can be read, `getLatest` answers the location it holds. */
  lemma CacheAnswers(w: World, savedAt: Time, expiry: Time, now: Time)
    requires CACHE in w.redis && now < expiry
    requires w.redis[CACHE] == Entry(Cached(Location("van", "R1", HERE.fix, savedAt)), expiry)
    ensures MayAnswer(StateOf(w), "t", "van", now, false, Some(PositionOf(RowAt(savedAt))))
  {
  }

  /** A newer row of the vehicle is stored than the one shown. */
  lemma NewerRowStored(gps: seq<GpsRow>, older: Time, newer: Time)
    requires RowAt(newer) in gps && older < newer
    ensures !IsNewestPosition(gps, PositionOf(RowAt(older)), "t", "van")
  {
  }

  /**
   * No call fails and flags are 5 seconds apart, yet `getLatest` answers the row of the first save
   * after that of the second.
   */
  lemma SlowCacheWriteOvertakes()
    ensures InTime(0, SlowCache()) && forall e :: e in SlowCache() && e.Advance? ==> !e.fails
    ensures FlagsApart(After(SlowCache()))
    ensures MayAnswer(StateOf(After(SlowCache())), "t", "van", 21000, false, Some(PositionOf(RowAt(1000))))
    ensures !IsNewestPosition(After(SlowCache()).gps, PositionOf(RowAt(1000)), "t", "van")
  {
    SlowCacheIsInTime();
    SlowCacheEnds();
    CacheAnswers(After(SlowCache()), 1000, 20000 + 1000 * LOCATION_CACHE_TTL, 21000);
    assert After(SlowCache()).gps[1] == RowAt(5000);
    NewerRowStored(After(SlowCache()).gps, 1000, 5000);
  }

  // ── A cache write that fails ───────────────────────────────────────────────

  function FailingCache(): seq<Event> {
    UpToRow(0, 0, 0) + [Go(0, 0)] + UpToRow(1, 5000, 5000) + [Advance(1, VANS, true, 5000)]
  }

  lemma FailingCacheRun(w: World)
    requires w.gps == [] && w.flights == map[] && FLAG !in w.redis
    ensures Run(w, FailingCache()) == Dropped(WithRow(WithCache(WithRow(w, 0, 0, 0), 0, 0, 0, 0), 1, 5000, 5000), 1)
  {
    var w1 := WithRow(w, 0, 0, 0);
    var w2 := WithCache(w1, 0, 0, 0, 0);
    SavesRow(w, 0, 0, 0);
    WritesCache(w1, 0, 0, 0, 0);
    OneMore(w, UpToRow(0, 0, 0), Go(0, 0));
    SavesRow(w2, 1, 5000, 5000);
    RunConcat(w, UpToRow(0, 0, 0) + [Go(0, 0)], UpToRow(1, 5000, 5000));
    FailsCache(WithRow(w2, 1, 5000, 5000), 1, 1, 5000, 5000);
    OneMore(w, UpToRow(0, 0, 0) + [Go(0, 0)] + UpToRow(1, 5000, 5000), Advance(1, VANS, true, 5000));
  }

  lemma FailingCacheEnds()
    ensures After(FailingCache()).gps == [] + [RowAt(0)] + [RowAt(5000)]
    ensures CACHE in After(FailingCache()).redis
    ensures After(FailingCache()).redis[CACHE]
      == Entry(Cached(Location("van", "R1", HERE.fix, 0)), 1000 * LOCATION_CACHE_TTL)
  {
    FailingCacheRun(EMPTY);
  }

  /** One silent failure of a cache write, and `getLatest` answers the older row for up to an hour. */
  lemma FailedCacheWriteHidesNewest(now: Time)
    requires 5000 <= now < 1000 * LOCATION_CACHE_TTL
    ensures MayAnswer(StateOf(After(FailingCache())), "t", "van", now, false, Some(PositionOf(RowAt(0))))
    ensures !IsNewestPosition(After(FailingCache()).gps, PositionOf(RowAt(0)), "t", "van")
  {
    FailingCacheEnds();
    CacheAnswers(After(FailingCache()), 0, 1000 * LOCATION_CACHE_TTL, now);
    assert After(FailingCache()).gps[1] == RowAt(5000);
    NewerRowStored(After(FailingCache()).gps, 0, 5000);
  }

  // ── A slow look-up ─────────────────────────────────────────────────────────

  function SlowLookup(): seq<Event> {
    UpToRow(0, 0, 1000) + UpToRow(1, 5000, 5000) + UpToRow(2, 10000, 10000)
  }

  lemma SlowLookupRun(w: World)
    requires w.flights == map[] && FLAG !in w.redis
    ensures Run(w, SlowLookup()) == WithRow(WithRow(WithRow(w, 0, 0, 1000), 1, 5000, 5000), 2, 10000, 10000)
  {
    var w1 := WithRow(w, 0, 0, 1000);
    var w2 := WithRow(w1, 1, 5000, 5000);
    SavesRow(w, 0, 0, 1000);
    SavesRow(w1, 1, 5000, 5000);
    RunConcat(w, UpToRow(0, 0, 1000), UpToRow(1, 5000, 5000));
    SavesRow(w2, 2, 10000, 10000);
    RunConcat(w, UpToRow(0, 0, 1000) + UpToRow(1, 5000, 5000), UpToRow(2, 10000, 10000));
  }

  lemma ThreeRowsCrowd(w: World)
    requires w.gps == [] + [RowAt(1000)] + [RowAt(5000)] + [RowAt(10000)]
    requires w.marks == [] + [Mark("t", "van", 0)] + [Mark("t", "van", 5000)] + [Mark("t", "van", 10000)]
    requires w.origins == [] + [0] + [1] + [2]
    ensures FlagsApart(w) && DelaysWithin(w, 1000)
    ensures |RowsWithin(w.gps, "t", "van", 1000, 1000 + 1000 * 9)| == 3
  {
    assert RowsWithin(w.gps, "t", "van", 1000, 1000 + 1000 * 9) == {0, 1, 2};
  }

  /** The bound for rows is met: after a look-up of one second, 9 seconds hold three rows, more than 9 / 5 + 1. */
  lemma SlowLookupCrowdsRows()
    ensures FlagsApart(After(SlowLookup())) && DelaysWithin(After(SlowLookup()), 1000)
    ensures |RowsWithin(After(SlowLookup()).gps, "t", "van", 1000, 1000 + 1000 * 9)| == 3
    ensures 9 / 5 + 1 < 3 == (1000 * 9 + 1000) / GAP + 1
  {
    SlowLookupRun(EMPTY);
    ThreeRowsCrowd(After(SlowLookup()));
  }

  // ── Two saves that both test before either sets the flag ───────────────────

  function DoubleTest(): seq<Event> {
    [Arrive(0, HERE, 0), Arrive(1, HERE, 0), Go(0, 0), Go(1, 0)]
  }

  lemma BothTest(w: World)
    requires w.flights == map[] && FLAG !in w.redis
    ensures var after := Run(w, DoubleTest());
      && after == w.(flights := after.flights)
      && after.flights == map[0 := Flight(HERE, Tested), 1 := Flight(HERE, Tested)]
  {
    FourSteps(w, DoubleTest());
  }

  /** Two saves past their test both set the flag at one instant. */
  lemma BothSet(w: World)
    requires w.flights == map[0 := Flight(HERE, Tested), 1 := Flight(HERE, Tested)] && w.marks == []
    ensures var next := Step(w, Go(0, 0));
      Contested(next, Go(1, 0)) && FlagsApart(next) && !FlagsApart(Step(next, Go(1, 0)))
  {
    var next := Step(w, Go(0, 0));
    assert next.marks == [Mark("t", "van", 0)];
    assert next.flights[1] == Flight(HERE, Tested);
    var both := Step(next, Go(1, 0));
    assert both.marks == next.marks + [Mark("t", "van", 0)];
    assert both.marks[0] == both.marks[1] && MarkOf(both.marks[1], "t", "van");
  }

  /** Two tests before either flag: the second save then sets a flag that is set, and two are set at one instant. */
  lemma DoubleTestContests()
    ensures var w := Step(After(DoubleTest()), Go(0, 0));
      Contested(w, Go(1, 0)) && FlagsApart(w) && !FlagsApart(Step(w, Go(1, 0)))
  {
    BothTest(EMPTY);
    BothSet(After(DoubleTest()));
  }
}
