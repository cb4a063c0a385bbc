/** Tokens, GPS saves, offline alerts and job cards told in columns and milliseconds. */
module SessionEffects {
  import opened Common
  import opened Schema
  import opened Redis
  import Tokens
  import Tracking
  import Jobs
  import Workshop

  // ── Tokens ─────────────────────────────────────────────────────────────────

  /** A token is unexpired before the first millisecond of its `exp` second, on either side of the epoch. */
  lemma UnexpiredMeans(exp: int, now: Time)
    ensures Tokens.Unexpired(exp, now) <==> now < 1000 * exp
  {
    assert now == 1000 * (now / 1000) + now % 1000;
  }

  /** The guard lets exactly a present, signed, unexpired token through whose key cannot be read from Redis. */
  lemma TokenPassesIff(redis: Store, token: string, exp: int, signed: bool, now: Time, redisFails: bool)
    ensures var r := Tokens.GuardVerdict(redis, token, exp, signed, now, redisFails);
      && (r.Err? ==> r == Err(Unauthorized))
      && (r.Ok? <==>
            && token != "" && signed && now < 1000 * exp
            && (redisFails || Blacklist(token) !in redis || redis[Blacklist(token)].expiry <= now))
  {
    UnexpiredMeans(exp, now);
  }

  /** A logout touches no key but the token's own, and none for a token that has expired. */
  lemma LogoutTouchesOwnKey(redis: Store, token: string, exp: int, now: Time, setAt: Time)
    ensures var after := Tokens.AfterLogout(redis, token, exp, now, setAt);
      && (1000 * exp <= now ==> after == redis)
      && (forall key :: key != Blacklist(token) ==>
        (key in after <==> key in redis) && (key in after ==> after[key] == redis[key]))
  {
    UnexpiredMeans(exp, now);
  }

  // ── GPS saves ──────────────────────────────────────────────────────────────

  /** The entry of a key after an accepted write. */
  predicate Entered(redis: Store, key: Key, value: Value, expiry: Time) {
    key in redis && redis[key] == Entry(value, expiry)
  }

  /** With Redis available: the verdict, the row and both Redis entries of a save, in milliseconds. */
  lemma SaveEffect(s: Tracking.State, vehicles: map<Id, Vehicle>, rq: Tracking.SaveRequest, at: Tracking.Moments)
    ensures var (after, r) := Tracking.AfterSave(s, vehicles, rq, at, Tracking.NO_FAULTS);
      var (flag, cache) := (RateLimit(rq.tenantId, rq.vehicleId), Latest(rq.tenantId, rq.vehicleId));
      var limited := flag in s.redis && at.flaggedAt < s.redis[flag].expiry;
      var known := rq.vehicleId in vehicles && vehicles[rq.vehicleId].tenantId == rq.tenantId
        && vehicles[rq.vehicleId].deletedAt == None;
      && (limited ==> r == Err(TooManyRequests) && after == s)
      && (!limited ==> Entered(after.redis, flag, Flag, at.flaggedAt + 5000))
      && (!limited && !known ==> r == Err(NotFound) && after.gps == s.gps)
      && (!limited && known ==>
            && r == Ok(())
            && after.gps == s.gps + [Tracking.GpsRow(rq.tenantId, rq.vehicleId, rq.fix, at.savedAt)]
            && Entered(after.redis, cache,
                 Cached(Location(rq.vehicleId, vehicles[rq.vehicleId].registrationNo, rq.fix, at.savedAt)),
                 at.cachedAt + 3600000))
      && (forall key :: key != flag && key != cache ==>
            (key in after.redis <==> key in s.redis) && (key in s.redis ==> after.redis[key] == s.redis[key]))
  {
  }

  /** With every Redis call failing, a known vehicle's save is never limited and still stores its row. */
  lemma SaveWithoutRedis(s: Tracking.State, vehicles: map<Id, Vehicle>, rq: Tracking.SaveRequest, at: Tracking.Moments)
    requires LiveVehicle(vehicles, rq.tenantId, rq.vehicleId)
    ensures Tracking.AfterSave(s, vehicles, rq, at, Tracking.Faults(true, true, true))
      == (Tracking.State(s.gps + [Tracking.GpsRow(rq.tenantId, rq.vehicleId, rq.fix, at.savedAt)], s.redis), Ok(()))
  {
  }

  // ── Offline alerts ─────────────────────────────────────────────────────────

  /** An unread offline alert of the tenant that mentions the plate and is at most an hour old. */
  predicate Mentions(a: Jobs.Alert, tenantId: Id, plate: string, now: Time) {
    && a.tenantId == tenantId && a.kind == Jobs.VEHICLE_OFFLINE && a.status == Jobs.UNREAD
    && Jobs.Contains(a.message, plate) && now <= a.createdAt + 3600000
  }

  /**
   * Exactly which vehicles get an alert: live and ON_TRIP, without a GPS row of the last 1800
   * seconds at the start of the job, and without an unread mention of the last 3600 at their turn.
   */
  lemma DueMeans(
    alerts: seq<Jobs.Alert>,
    gps: seq<Tracking.GpsRow>,
    vehicles: map<Id, Vehicle>,
    id: Id,
    at: Jobs.Moments)
    ensures Jobs.Due(alerts, gps, vehicles, id, at) <==>
      && id in vehicles && vehicles[id].status == ON_TRIP && vehicles[id].deletedAt == None
      && (forall r :: r in gps && r.tenantId == vehicles[id].tenantId && r.vehicleId == id ==>
            r.timestamp + 1800000 < at.startedAt)
      && (forall a :: a in alerts ==>
            !Mentions(a, vehicles[id].tenantId, vehicles[id].registrationNo, at.checkedAt(id)))
  {
    if id in vehicles {
      var v, now := vehicles[id], at.checkedAt(id);
      forall k | 0 <= k < |alerts|
        ensures Jobs.Warns(alerts[k], v.tenantId, v.registrationNo, now)
          <==> Mentions(alerts[k], v.tenantId, v.registrationNo, now)
      {
      }
      forall r | r in gps
        ensures Tracking.Concerns(r, v.tenantId, id) <==> r.tenantId == v.tenantId && r.vehicleId == id
      {
      }
      assert Jobs.Warned(alerts, v.tenantId, v.registrationNo, now) <==>
        exists a :: a in alerts && Mentions(a, v.tenantId, v.registrationNo, now) by {
        if Jobs.Warned(alerts, v.tenantId, v.registrationNo, now) {
          var k :| 0 <= k < |alerts| && Jobs.Warns(alerts[k], v.tenantId, v.registrationNo, now);
          assert alerts[k] in alerts;
        }
      }
    }
  }

  /**
   * The alert created for a vehicle is an unread offline alert of its tenant, stamped with the
   * insertion, about its plate.
   */
  lemma AlertSays(v: Vehicle, now: Time)
    ensures var a := Jobs.OfflineAlert(v, now);
      && a.tenantId == v.tenantId && a.kind == Jobs.VEHICLE_OFFLINE && a.status == Jobs.UNREAD && a.createdAt == now
      && a.message == "Vehicle " + v.registrationNo + " is offline \U{2014} no GPS update for 30+ minutes"
  {
  }

  // ── Job cards ──────────────────────────────────────────────────────────────

  predicate JobFound(s: Workshop.State, tenantId: Id, id: Id) {
    id in s.jobs && s.jobs[id].tenantId == tenantId && s.jobs[id].deletedAt == None
  }

  /** An item goes onto exactly the job cards of the tenant that are not completed. */
  lemma ItemEffect(s: Workshop.State, vehicles: map<Id, Vehicle>, tenantId: Id, jobId: Id, cost: int)
    ensures var r := Workshop.Outcome(s, vehicles, Workshop.AddItem(tenantId, jobId, cost));
      && (!JobFound(s, tenantId, jobId) ==> r == Err(NotFound))
      && (JobFound(s, tenantId, jobId) && s.jobs[jobId].status == Workshop.COMPLETED_JOB ==> r == Err(BadRequest))
      && (JobFound(s, tenantId, jobId) && s.jobs[jobId].status != Workshop.COMPLETED_JOB ==>
            && r.Ok? && r.value.items == s.items + [Workshop.Item(jobId, cost)]
            && r.value.jobs == s.jobs[jobId := s.jobs[jobId].(totalCost := s.jobs[jobId].totalCost + cost)])
  {
  }

  /**
   * A job card opens with nothing on it for a live vehicle of the tenant; its status may be set to
   * anything at any time.
   */
  lemma JobCardEffect(s: Workshop.State, vehicles: map<Id, Vehicle>, tenantId: Id, id: Id, vehicleId: Id,
    status: Workshop.JobStatus)
    ensures var r := Workshop.Outcome(s, vehicles, Workshop.CreateJob(tenantId, vehicleId, id));
      && (r.Ok? <==>
            && vehicleId in vehicles && vehicles[vehicleId].tenantId == tenantId
              && vehicles[vehicleId].deletedAt == None
            && id !in s.jobs)
      && (r.Ok? ==>
            && r.value.items == s.items
            && r.value.jobs == s.jobs[id := Workshop.Job(tenantId, vehicleId, Workshop.OPEN, 0, None)])
    ensures Workshop.Outcome(s, vehicles, Workshop.UpdateStatus(tenantId, id, status)) ==
      if JobFound(s, tenantId, id) then Ok(s.(jobs := s.jobs[id := s.jobs[id].(status := status)])) else Err(NotFound)
  {
  }
}
