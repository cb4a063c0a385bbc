/** The rate limit of GPS saves: exactly which interleaved runs keep flags 5 seconds apart, and what that bounds. */
module RateRuns {
  import opened Common
  import opened Clock
  import opened Redis
  import opened Tracking
  import opened TrackingRuns

  const GAP: nat := 1000 * RATE_LIMIT_TTL

  // ── Flags apart ────────────────────────────────────────────────────────────

  /** Any two flags of one vehicle are set at least the rate limit apart. */
  ghost predicate MarksApart(marks: seq<Mark>) {
    forall i, j :: 0 <= i < j < |marks| && MarkOf(marks[j], marks[i].tenantId, marks[i].vehicleId) ==>
      marks[i].at + GAP <= marks[j].at
  }

  ghost predicate FlagsApart(w: World) {
    MarksApart(w.marks)
  }

  /** The flag expires the rate limit after some mark of the vehicle. */
  ghost predicate OfMark(marks: seq<Mark>, key: Key, expiry: Time)
    requires key.RateLimit?
  {
    exists i :: 0 <= i < |marks| && MarkOf(marks[i], key.tenantId, key.vehicleId) && expiry == marks[i].at + GAP
  }

  ghost predicate MarksCovered(marks: seq<Mark>, redis: Store) {
    forall i :: 0 <= i < |marks| ==>
      var key := RateLimit(marks[i].tenantId, marks[i].vehicleId);
      key in redis && marks[i].at + GAP <= redis[key].expiry
  }

  ghost predicate FlagsBacked(marks: seq<Mark>, redis: Store) {
    forall key :: key in redis && key.RateLimit? ==> OfMark(marks, key, redis[key].expiry)
  }

  /** Every mark is covered by the stored flag of its vehicle, and every stored flag is that of a mark. */
  ghost predicate FlagsMirror(w: World) {
    MarksCovered(w.marks, w.redis) && FlagsBacked(w.marks, w.redis)
  }

  /** The save is about to set a flag that, asked again, is still set. */
  predicate Contested(w: World, e: Event) {
    At(w, e, IS_TESTED) && Get(w.redis, FlagKey(w.flights[e.ticket].request), e.now).Some?
  }

  predicate Uncontested(w: World, e: Event) {
    !Contested(w, e)
  }

  lemma SetFlagBacks(marks: seq<Mark>, redis: Store, m: Mark)
    requires FlagsBacked(marks, redis)
    ensures FlagsBacked(marks + [m], SetEx(redis, RateLimit(m.tenantId, m.vehicleId), Flag, RATE_LIMIT_TTL, m.at))
  {
    var after := SetEx(redis, RateLimit(m.tenantId, m.vehicleId), Flag, RATE_LIMIT_TTL, m.at);
    forall key | key in after && key.RateLimit?
      ensures OfMark(marks + [m], key, after[key].expiry)
    {
      if key == RateLimit(m.tenantId, m.vehicleId) {
        assert (marks + [m])[|marks|] == m;
      } else {
        var i :| 0 <= i < |marks| && MarkOf(marks[i], key.tenantId, key.vehicleId)
          && redis[key].expiry == marks[i].at + GAP;
        assert (marks + [m])[i] == marks[i];
      }
    }
  }

  lemma SetFlagCovers(marks: seq<Mark>, redis: Store, clock: Time, m: Mark)
    requires MarksCovered(marks, redis) && MarksOk(marks, clock) && clock <= m.at
    ensures MarksCovered(marks + [m], SetEx(redis, RateLimit(m.tenantId, m.vehicleId), Flag, RATE_LIMIT_TTL, m.at))
  {
  }

  /** Tests and insertions leave Redis alone, and a cache write touches no flag. */
  lemma OtherStepsKeepFlags(w: World, e: Event, key: Key)
    requires !At(w, e, IS_TESTED) && key.RateLimit?
    ensures Step(w, e).marks == w.marks
    ensures key in Step(w, e).redis <==> key in w.redis
    ensures key in w.redis ==> Step(w, e).redis[key] == w.redis[key]
  {
  }

  lemma StepKeepsMirror(w: World, clock: Time, e: Event)
    requires FlagsMirror(w) && MarksOk(w.marks, clock) && clock <= e.now && FlagWorks(w, e)
    ensures FlagsMirror(Step(w, e))
  {
    if At(w, e, IS_TESTED) {
      var rq := w.flights[e.ticket].request;
      SetFlagBacks(w.marks, w.redis, Mark(rq.tenantId, rq.vehicleId, e.now));
      SetFlagCovers(w.marks, w.redis, clock, Mark(rq.tenantId, rq.vehicleId, e.now));
    } else {
      var redis := Step(w, e).redis;
      forall key | key in redis && key.RateLimit?
        ensures OfMark(w.marks, key, redis[key].expiry)
      {
        OtherStepsKeepFlags(w, e, key);
      }
      OtherStepsKeepFlags(w, e, RateLimit("", ""));
      forall i | 0 <= i < |w.marks|
        ensures var key := RateLimit(w.marks[i].tenantId, w.marks[i].vehicleId);
          key in redis && w.marks[i].at + GAP <= redis[key].expiry
      {
        OtherStepsKeepFlags(w, e, RateLimit(w.marks[i].tenantId, w.marks[i].vehicleId));
      }
    }
  }

  lemma MarkIsApartIff(marks: seq<Mark>, redis: Store, m: Mark)
    requires MarksCovered(marks, redis) && FlagsBacked(marks, redis) && MarksApart(marks)
    ensures MarksApart(marks + [m]) <==> Get(redis, RateLimit(m.tenantId, m.vehicleId), m.at).None?
  {
    var key := RateLimit(m.tenantId, m.vehicleId);
    if Get(redis, key, m.at).Some? {
      var i :| 0 <= i < |marks| && MarkOf(marks[i], key.tenantId, key.vehicleId)
        && redis[key].expiry == marks[i].at + GAP;
      assert (marks + [m])[i] == marks[i] && (marks + [m])[|marks|] == m;
    }
  }

  /** With working flag writes, a step keeps flags apart if and only if it sets none that is still set. */
  lemma StepFlagsApartIff(w: World, e: Event)
    requires FlagsMirror(w) && FlagsApart(w)
    ensures FlagsApart(Step(w, e)) <==> Uncontested(w, e)
  {
    if At(w, e, IS_TESTED) {
      var rq := w.flights[e.ticket].request;
      MarkIsApartIff(w.marks, w.redis, Mark(rq.tenantId, rq.vehicleId, e.now));
    } else {
      assert Step(w, e).marks == w.marks;
    }
  }

  /**
   * Any interleaved run with working flag writes keeps the flags of every vehicle 5 seconds apart
   * if and only if whenever a save sets its flag the test, asked again, would still come back empty.
   */
  lemma {:induction false} FlagsApartIff(w: World, clock: Time, events: seq<Event>)
    requires Sound(w, clock) && FlagsMirror(w) && FlagsApart(w)
    requires Timely(clock, events, NOW) && Along(w, events, FlagWorks)
    ensures Always(w, events, FlagsApart) <==> Along(w, events, Uncontested)
    decreases |events|
  {
    if events != [] {
      var next := Step(w, events[0]);
      StepFlagsApartIff(w, events[0]);
      StepKeepsMirror(w, clock, events[0]);
      StepKeepsSound(w, clock, events[0]);
      if FlagsApart(next) {
        FlagsApartIff(next, events[0].now, events[1..]);
      }
    }
  }

  // ── A discipline that is enough ────────────────────────────────────────────

  /** No two saves of one vehicle stand between their test and their flag. */
  ghost predicate OneTested(w: World) {
    forall a, b ::
      && a in w.flights && b in w.flights && a != b
      && w.flights[a].stage.Tested? && w.flights[b].stage.Tested? ==>
      FlagKey(w.flights[a].request) != FlagKey(w.flights[b].request)
  }

  /** The flag of every save that has tested it is still free. */
  ghost predicate TestedFree(w: World, clock: Time) {
    forall k :: k in w.flights && w.flights[k].stage.Tested? ==>
      FlagKey(w.flights[k].request) in w.redis ==> w.redis[FlagKey(w.flights[k].request)].expiry <= clock
  }

  lemma StepKeepsTestedFree(w: World, clock: Time, e: Event)
    requires TestedFree(w, clock) && OneTested(w) && TestWorks(w, e) && clock <= e.now
    ensures TestedFree(Step(w, e), e.now) && Uncontested(w, e)
  {
    var next := Step(w, e);
    forall k | k in next.flights && next.flights[k].stage.Tested?
      ensures FlagKey(next.flights[k].request) in next.redis ==>
        next.redis[FlagKey(next.flights[k].request)].expiry <= e.now
    {
      assert k in w.flights;
    }
  }

  /** One tested save per vehicle at a time is enough: no flag is contested. */
  lemma {:induction false} OneTestedIsUncontested(w: World, clock: Time, events: seq<Event>)
    requires TestedFree(w, clock) && Timely(clock, events, NOW)
    requires Always(w, events, OneTested) && Along(w, events, TestWorks)
    ensures Along(w, events, Uncontested)
    decreases |events|
  {
    if events != [] {
      StepKeepsTestedFree(w, clock, events[0]);
      OneTestedIsUncontested(Step(w, events[0]), events[0].now, events[1..]);
    }
  }

  lemma {:induction false} AlwaysAtTheEnd(w: World, events: seq<Event>, p: World -> bool)
    requires Always(w, events, p)
    ensures p(Run(w, events))
    decreases |events|
  {
    if events != [] {
      AlwaysAtTheEnd(Step(w, events[0]), events[1..], p);
    }
  }

  /** A run from the empty state whose flag writes work and contest no flag. */
  ghost predicate LimitedRun(clock: Time, events: seq<Event>) {
    InTime(clock, events) && Along(EMPTY, events, FlagWorks) && Along(EMPTY, events, Uncontested)
  }

  /** In every such run. */
  lemma UncontestedRunFlagsApart(clock: Time, events: seq<Event>)
    requires LimitedRun(clock, events)
    ensures FlagsApart(After(events))
  {
    FlagsApartIff(EMPTY, clock, events);
    AlwaysAtTheEnd(EMPTY, events, FlagsApart);
  }

  // ── Rows ───────────────────────────────────────────────────────────────────

  /** The instant at which the save behind a row set its flag. */
  function FlaggedAt(w: World, i: nat): Time
    requires i < |w.origins| && w.origins[i] < |w.marks|
  {
    w.marks[w.origins[i]].at
  }

  /** How long the save behind a row took from its flag to its row. */
  function Delay(w: World, i: nat): Time
    requires i < |w.gps| && i < |w.origins| && w.origins[i] < |w.marks|
  {
    w.gps[i].timestamp - FlaggedAt(w, i)
  }

  ghost predicate DelaysWithin(w: World, delay: Time) {
    forall i :: 0 <= i < |w.gps| && i < |w.origins| && w.origins[i] < |w.marks| ==> Delay(w, i) <= delay
  }

  /** The flags behind any two rows of one vehicle are apart too, one way or the other. */
  lemma RowFlagsAreApart(w: World, clock: Time, i: nat, j: nat)
    requires Sound(w, clock) && FlagsApart(w)
    requires i < |w.gps| && j < |w.gps| && i != j && Concerns(w.gps[j], w.gps[i].tenantId, w.gps[i].vehicleId)
    ensures FlaggedAt(w, i) + GAP <= FlaggedAt(w, j) || FlaggedAt(w, j) + GAP <= FlaggedAt(w, i)
  {
    var a, b := w.origins[i], w.origins[j];
    assert a != b;
  }

  /** Rows of one vehicle are stamped 5 seconds apart less the time the one flagged first waited for its insertion. */
  lemma RowsAreApart(clock: Time, events: seq<Event>, i: nat, j: nat)
    requires LimitedRun(clock, events)
    requires var w := After(events);
      i < |w.gps| && j < |w.gps| && i != j && Concerns(w.gps[j], w.gps[i].tenantId, w.gps[i].vehicleId)
    ensures var w := After(events);
      && |w.origins| == |w.gps| && w.origins[i] < |w.marks| && w.origins[j] < |w.marks|
      && (FlaggedAt(w, i) <= FlaggedAt(w, j) ==>
            w.gps[i].timestamp + GAP - Delay(w, i) <= w.gps[j].timestamp)
  {
    RunKeepsSound(EMPTY, clock, events);
    UncontestedRunFlagsApart(clock, events);
    RowFlagsAreApart(After(events), LastInstant(clock, events, NOW), i, j);
  }

  // ── The rate bound ─────────────────────────────────────────────────────────

  /** A set of positions that fall into distinct ones of the slots 0 to n has at most n + 1 members. */
  lemma {:induction false} DistinctSlots(s: set<nat>, slot: seq<int>, n: nat)
    requires forall k :: k in s ==> k < |slot| && 0 <= slot[k] <= n
    requires forall j, k :: j in s && k in s && j != k ==> slot[j] != slot[k]
    ensures |s| <= n + 1
    decreases n
  {
    if k :| k in s && slot[k] == n {
      if n == 0 {
        assert forall j :: j in s ==> j == k;
        assert s == {k};
      } else {
        var rest := s - {k};
        DistinctSlots(rest, slot, n - 1);
        assert s == rest + {k};
      }
    } else if n == 0 {
      assert forall j :: j !in s;
      assert s == {};
    } else {
      DistinctSlots(s, slot, n - 1);
    }
  }

  /** Two instants a gap apart fall into different slots of that length. */
  lemma ApartInSlots(a: int, b: int, gap: nat)
    requires gap > 0 && 0 <= a && a + gap <= b
    ensures 0 <= a / gap < b / gap
  {
    var q := a / gap;
    assert a == gap * q + a % gap;
    assert b / gap >= (a + gap) / gap by {
      DivisionIsMonotone(a + gap, b, gap);
    }
    assert a + gap == gap * (q + 1) + a % gap;
    DivisionOf(a + gap, gap, q + 1, a % gap);
    DivisionIsMonotone(0, a, gap);
  }

  lemma DivisionOf(a: int, gap: nat, q: int, r: int)
    requires gap > 0 && 0 <= r < gap && a == gap * q + r
    ensures a / gap == q
  {
    var p, s := a / gap, a % gap;
    assert gap * p + s == gap * q + r;
    if p < q {
      assert gap * (q - p) >= gap by { Multiple(gap, q - p); }
    } else if p > q {
      assert gap * (p - q) >= gap by { Multiple(gap, p - q); }
    }
  }

  lemma Multiple(gap: nat, k: int)
    requires k >= 1
    ensures gap * k >= gap
  {
    assert gap * k == gap + gap * (k - 1);
  }

  lemma DivisionIsMonotone(a: int, b: int, gap: nat)
    requires gap > 0 && a <= b
    ensures a / gap <= b / gap
  {
    var p, q := a / gap, b / gap;
    assert a == gap * p + a % gap && b == gap * q + b % gap;
    assert gap * (p - q) == gap * p - gap * q;
    if p > q {
      Multiple(gap, p - q);
    }
  }

  /** Positions whose instants are pairwise the gap apart within a closed window are few. */
  lemma InstantsApartBound(s: set<nat>, instants: seq<Time>, from: Time, length: nat)
    requires forall k :: k in s ==> k < |instants| && from <= instants[k] <= from + length
    requires forall j, k :: j in s && k in s && j != k ==>
      instants[j] + GAP <= instants[k] || instants[k] + GAP <= instants[j]
    ensures |s| <= length / GAP + 1
  {
    var slot := seq(|instants|, k requires 0 <= k < |instants| => (instants[k] - from) / GAP);
    forall k | k in s
      ensures 0 <= slot[k] <= length / GAP
    {
      DivisionIsMonotone(0, instants[k] - from, GAP);
      DivisionIsMonotone(instants[k] - from, length, GAP);
    }
    forall j, k | j in s && k in s && j != k
      ensures slot[j] != slot[k]
    {
      if instants[j] + GAP <= instants[k] {
        ApartInSlots(instants[j] - from, instants[k] - from, GAP);
      } else {
        ApartInSlots(instants[k] - from, instants[j] - from, GAP);
      }
    }
    DistinctSlots(s, slot, length / GAP);
  }

  /** The flags of a vehicle set within a closed window. */
  function FlagsWithin(marks: seq<Mark>, tenantId: Id, vehicleId: Id, from: Time, to: Time): set<nat> {
    set k: nat | k < |marks| && MarkOf(marks[k], tenantId, vehicleId) && from <= marks[k].at <= to
  }

  /** The rows of a vehicle stamped within a closed window. */
  function RowsWithin(gps: seq<GpsRow>, tenantId: Id, vehicleId: Id, from: Time, to: Time): set<nat> {
    set k: nat | k < |gps| && Concerns(gps[k], tenantId, vehicleId) && from <= gps[k].timestamp <= to
  }

  lemma FlagBound(marks: seq<Mark>, tenantId: Id, vehicleId: Id, from: Time, length: nat)
    requires MarksApart(marks)
    ensures |FlagsWithin(marks, tenantId, vehicleId, from, from + length)| <= length / GAP + 1
  {
    var s := FlagsWithin(marks, tenantId, vehicleId, from, from + length);
    var instants := seq(|marks|, k requires 0 <= k < |marks| => marks[k].at);
    forall j, k | j in s && k in s && j != k
      ensures instants[j] + GAP <= instants[k] || instants[k] + GAP <= instants[j]
    {
      if j < k {
        assert marks[j].at + GAP <= marks[k].at;
      } else {
        assert marks[k].at + GAP <= marks[j].at;
      }
    }
    InstantsApartBound(s, instants, from, length);
  }

  /**
   * In any uncontested run, a closed window of W seconds holds at most W / 5 + 1 flags of accepted or
   * refused saves of a vehicle.
   */
  lemma RateBound(clock: Time, events: seq<Event>, tenantId: Id, vehicleId: Id, from: Time, seconds: nat)
    requires LimitedRun(clock, events)
    ensures |FlagsWithin(After(events).marks, tenantId, vehicleId, from, from + 1000 * seconds)| <= seconds / 5 + 1
  {
    UncontestedRunFlagsApart(clock, events);
    FlagBound(After(events).marks, tenantId, vehicleId, from, 1000 * seconds);
  }

  /**
   * With at most `delay` milliseconds from flag to row, a window of W seconds holds at most (1000 W +
   * delay) / 5000 + 1 rows.
   */
  lemma RowRateBound(clock: Time, events: seq<Event>, tenantId: Id, vehicleId: Id, from: Time, seconds: nat, delay: nat)
    requires LimitedRun(clock, events)
    requires DelaysWithin(After(events), delay)
    ensures |RowsWithin(After(events).gps, tenantId, vehicleId, from, from + 1000 * seconds)|
      <= (1000 * seconds + delay) / GAP + 1
  {
    var w, length := After(events), 1000 * seconds + delay;
    var last := LastInstant(clock, events, NOW);
    RunKeepsSound(EMPTY, clock, events);
    UncontestedRunFlagsApart(clock, events);
    var s := RowsWithin(w.gps, tenantId, vehicleId, from, from + 1000 * seconds);
    var start := from - delay;
    assert forall k :: k in s ==> Delay(w, k) <= delay;
    var flags := seq(|w.gps|, k requires 0 <= k < |w.gps| => FlaggedAt(w, k));
    forall j, k | j in s && k in s && j != k
      ensures flags[j] + GAP <= flags[k] || flags[k] + GAP <= flags[j]
    {
      RowFlagsAreApart(w, last, j, k);
    }
    InstantsApartBound(s, flags, start, length);
  }
}
