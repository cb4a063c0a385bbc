/** src/tracking: GPS saves behind a rate limit, and the latest location from the cache or the table. */
module Tracking {
  import opened Common
  import opened Schema
  import opened Redis

  const LOCATION_CACHE_TTL: nat := 3600
  const RATE_LIMIT_TTL: nat := 5

  datatype GpsRow = GpsRow(tenantId: Id, vehicleId: Id, fix: Fix, timestamp: Time)

  /** The GPS table in order of insertion, and Redis. */
  datatype State = State(gps: seq<GpsRow>, redis: Store)

  /** Which Redis calls of one save fail; a failed call counts as a miss or is skipped. */
  datatype Faults = Faults(get: bool, flag: bool, cache: bool)

  const NO_FAULTS := Faults(false, false, false)

  datatype SaveRequest = SaveRequest(tenantId: Id, vehicleId: Id, fix: Fix)

  /** The instants of one save: its rate flag, its row (after the awaited vehicle look-up), its cache entry. */
  datatype Moments = Moments(flaggedAt: Time, savedAt: Time, cachedAt: Time)

  function RowOf(rq: SaveRequest, savedAt: Time): GpsRow {
    GpsRow(rq.tenantId, rq.vehicleId, rq.fix, savedAt)
  }

  predicate Limited(redis: Store, rq: SaveRequest, now: Time, faults: Faults) {
    !faults.get && Get(redis, RateLimit(rq.tenantId, rq.vehicleId), now).Some?
  }

  function Flagged(redis: Store, rq: SaveRequest, now: Time, faults: Faults): Store {
    if faults.flag then redis else SetEx(redis, RateLimit(rq.tenantId, rq.vehicleId), Flag, RATE_LIMIT_TTL, now)
  }

  function WithLatest(redis: Store, rq: SaveRequest, registrationNo: string, at: Moments, faults: Faults): Store {
    if faults.cache then redis
    else
      var location := Location(rq.vehicleId, registrationNo, rq.fix, at.savedAt);
      SetEx(redis, Latest(rq.tenantId, rq.vehicleId), Cached(location), LOCATION_CACHE_TTL, at.cachedAt)
  }

  /** The flag is set before the vehicle is looked up, so a refused vehicle spends it too. */
  function AfterSave(
    s: State,
    vehicles: map<Id, Vehicle>,
    rq: SaveRequest,
    at: Moments,
    faults: Faults): (State, Result<()>)
  {
    if Limited(s.redis, rq, at.flaggedAt, faults) then (s, Err(TooManyRequests))
    else
      var flagged := Flagged(s.redis, rq, at.flaggedAt, faults);
      if !LiveVehicle(vehicles, rq.tenantId, rq.vehicleId) then (s.(redis := flagged), Err(NotFound))
      else
        var redis := WithLatest(flagged, rq, vehicles[rq.vehicleId].registrationNo, at, faults);
        (State(s.gps + [RowOf(rq, at.savedAt)], redis), Ok(()))
  }

  predicate Concerns(row: GpsRow, tenantId: Id, vehicleId: Id) {
    row.tenantId == tenantId && row.vehicleId == vehicleId
  }

  /** A row of the vehicle that no other row of it is newer than. */
  ghost predicate IsNewest(gps: seq<GpsRow>, row: GpsRow, tenantId: Id, vehicleId: Id) {
    && row in gps && Concerns(row, tenantId, vehicleId)
    && forall r :: r in gps && Concerns(r, tenantId, vehicleId) ==> r.timestamp <= row.timestamp
  }

  /** The fields that the cache and the table share. */
  datatype Position = Position(vehicleId: Id, fix: Fix, timestamp: Time)

  function PositionOf(row: GpsRow): Position {
    Position(row.vehicleId, row.fix, row.timestamp)
  }

  function CachedPosition(l: Location): Position {
    Position(l.vehicleId, l.fix, l.timestamp)
  }

  /** The entry holds the location of that row. */
  predicate Shows(entry: Entry, row: GpsRow) {
    entry.value.Cached? && CachedPosition(entry.value.location) == PositionOf(row)
  }

  /** What `getLatest` may answer: the cached location if it can be read, else a newest row, else nothing. */
  ghost predicate MayAnswer(s: State, tenantId: Id, vehicleId: Id, now: Time, getFails: bool,
    answer: Option<Position>) {
    var cached := if getFails then None else Get(s.redis, Latest(tenantId, vehicleId), now);
    if cached.Some? then
      cached.value.Cached? && answer == Some(CachedPosition(cached.value.location))
    else if answer.None? then
      forall r :: r in s.gps ==> !Concerns(r, tenantId, vehicleId)
    else
      exists r :: IsNewest(s.gps, r, tenantId, vehicleId) && answer == Some(PositionOf(r))
  }

  /** `gpsLocation.findFirst({ where: { vehicleId, tenantId }, orderBy: { timestamp: 'desc' } })` */
  method FindNewest(gps: seq<GpsRow>, tenantId: Id, vehicleId: Id) returns (newest: Option<GpsRow>)
    ensures newest.None? ==> forall r :: r in gps ==> !Concerns(r, tenantId, vehicleId)
    ensures newest.Some? ==> IsNewest(gps, newest.value, tenantId, vehicleId)
  {
    newest := None;
    for k := 0 to |gps|
      invariant newest.None? ==> forall r :: r in gps[..k] ==> !Concerns(r, tenantId, vehicleId)
      invariant newest.Some? ==> IsNewest(gps[..k], newest.value, tenantId, vehicleId)
    {
      assert gps[..k + 1] == gps[..k] + [gps[k]];
      if Concerns(gps[k], tenantId, vehicleId) && (newest.None? || newest.value.timestamp < gps[k].timestamp) {
        newest := Some(gps[k]);
      }
    }
    assert gps[..|gps|] == gps;
  }

  /** Latest entries hold locations, rate-limit and blacklist entries hold flags. */
  ghost predicate WellTyped(redis: Store) {
    forall k :: k in redis ==> (k.Latest? <==> redis[k].value.Cached?)
  }

  class TrackingService {
    const prisma: Database
    var gps: seq<GpsRow>
    var redis: Store

    constructor (prisma: Database)
      ensures this.prisma == prisma && gps == [] && redis == map[] && WellTyped(redis)
    {
      this.prisma := prisma;
      gps, redis := [], map[];
    }

    method SaveLocation(rq: SaveRequest, at: Moments, faults: Faults) returns (r: Result<()>)
      requires WellTyped(redis)
      modifies this
      ensures WellTyped(redis)
      ensures (State(gps, redis), r) == AfterSave(State(old(gps), old(redis)), prisma.vehicles, rq, at, faults)
    {
      var rateLimitKey := RateLimit(rq.tenantId, rq.vehicleId);
      var limited := if faults.get then None else Get(redis, rateLimitKey, at.flaggedAt);
      if limited.Some? {
        return Err(TooManyRequests);
      }
      if !faults.flag {
        redis := SetEx(redis, rateLimitKey, Flag, RATE_LIMIT_TTL, at.flaggedAt);
      }
      if !LiveVehicle(prisma.vehicles, rq.tenantId, rq.vehicleId) {
        return Err(NotFound);
      }
      gps := gps + [GpsRow(rq.tenantId, rq.vehicleId, rq.fix, at.savedAt)];
      var location := Location(rq.vehicleId, prisma.vehicles[rq.vehicleId].registrationNo, rq.fix, at.savedAt);
      if !faults.cache {
        redis := SetEx(redis, Latest(rq.tenantId, rq.vehicleId), Cached(location), LOCATION_CACHE_TTL, at.cachedAt);
      }
      return Ok(());
    }

    method GetLatest(tenantId: Id, vehicleId: Id, now: Time, getFails: bool) returns (r: Result<Option<Position>>)
      requires WellTyped(redis)
      ensures r.Ok? <==> LiveVehicle(prisma.vehicles, tenantId, vehicleId)
      ensures r.Err? ==> r.error == NotFound
      ensures r.Ok? ==> MayAnswer(State(gps, redis), tenantId, vehicleId, now, getFails, r.value)
    {
      if !LiveVehicle(prisma.vehicles, tenantId, vehicleId) {
        return Err(NotFound);
      }
      if !getFails {
        var cached := Get(redis, Latest(tenantId, vehicleId), now);
        if cached.Some? {
          return Ok(Some(CachedPosition(cached.value.location)));
        }
      }
      var newest := FindNewest(gps, tenantId, vehicleId);
      return Ok(if newest.Some? then Some(PositionOf(newest.value)) else None);
    }
  }
}
