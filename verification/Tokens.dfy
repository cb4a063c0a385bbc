/** Logout in src/auth and the token test of src/common/guards/auth.guard.ts. */
module Tokens {
  import opened Common
  import opened Redis
  import opened Clock

  /** Whole seconds since the epoch, as `Math.floor(Date.now() / 1000)`; the Euclidean quotient is the floor. */
  function Seconds(now: Time): int {
    now / 1000
  }

  /** `logout` at `now`; Redis sets the key at `setAt`. Nothing is stored for a token that has expired. */
  function AfterLogout(redis: Store, token: string, exp: int, now: Time, setAt: Time): Store {
    var ttl := exp - Seconds(now);
    if ttl > 0 then SetEx(redis, Blacklist(token), Flag, ttl, setAt) else redis
  }

  /** A token is good before its `exp` second only: section 4.1.4 of RFC 7519. */
  predicate Unexpired(exp: int, now: Time) {
    Seconds(now) < exp
  }

  /** `AuthGuard.canActivate` for a token whose signature verifies or not; an unreachable Redis counts as no entry. */
  function GuardVerdict(redis: Store, token: string, exp: int, signed: bool, now: Time, redisFails: bool): Result<()> {
    if token == "" then Err(Unauthorized)
    else if !signed || !Unexpired(exp, now) then Err(Unauthorized)
    else if !redisFails && Get(redis, Blacklist(token), now).Some? then Err(Unauthorized)
    else Ok(())
  }

  class TokenService {
    var redis: Store

    constructor ()
      ensures redis == map[]
    {
      redis := map[];
    }

    method Logout(token: string, exp: int, now: Time, setAt: Time)
      modifies this
      ensures redis == AfterLogout(old(redis), token, exp, now, setAt)
    {
      var ttl := exp - now / 1000;
      if ttl > 0 {
        redis := SetEx(redis, Blacklist(token), Flag, ttl, setAt);
      }
    }
  }

  // ── One logout ─────────────────────────────────────────────────────────────

  /**
   * The key outlives the `exp` second, by exactly the fraction of a second lost to the floor plus the
   * delay of the write.
   */
  lemma KeyOutlivesToken(redis: Store, token: string, exp: int, now: Time, setAt: Time)
    requires now <= setAt && Unexpired(exp, now)
    ensures Blacklist(token) in AfterLogout(redis, token, exp, now, setAt)
    ensures var overshoot := AfterLogout(redis, token, exp, now, setAt)[Blacklist(token)].expiry - 1000 * exp;
      overshoot == now % 1000 + (setAt - now) && 0 <= overshoot < 1000 + (setAt - now)
  {
    assert now == 1000 * (now / 1000) + now % 1000;
  }

  // ── Runs ───────────────────────────────────────────────────────────────────

  /** One logout: called at `now`, its key set at `setAt`. */
  datatype Logout = Logout(token: string, now: Time, setAt: Time)

  const SET_AT: Logout -> Time := (l: Logout) => l.setAt

  /** Keys are set in order of time, each no earlier than its logout was called. */
  ghost predicate InOrder(clock: Time, logouts: seq<Logout>) {
    Timely(clock, logouts, SET_AT) && forall k :: 0 <= k < |logouts| ==> logouts[k].now <= logouts[k].setAt
  }

  /** Every token has one `exp`, which its signature fixes. */
  type Expiries = string -> int

  function Run(redis: Store, exp: Expiries, logouts: seq<Logout>): Store
    decreases |logouts|
  {
    if logouts == [] then redis
    else Run(AfterLogout(redis, logouts[0].token, exp(logouts[0].token), logouts[0].now, logouts[0].setAt), exp,
      logouts[1..])
  }

  /** Whenever the token has not expired, its key is still there. */
  ghost predicate Revoked(redis: Store, token: string, exp: int, clock: Time) {
    !Unexpired(exp, clock) || (Blacklist(token) in redis && 1000 * exp <= redis[Blacklist(token)].expiry)
  }

  predicate LoggedOut(logouts: seq<Logout>, token: string) {
    exists k :: 0 <= k < |logouts| && logouts[k].token == token
  }

  lemma LogoutRevokes(redis: Store, token: string, exp: int, now: Time, setAt: Time, clock: Time)
    requires now <= setAt && clock <= setAt
    ensures Revoked(AfterLogout(redis, token, exp, now, setAt), token, exp, setAt)
  {
    if Unexpired(exp, now) {
      KeyOutlivesToken(redis, token, exp, now, setAt);
    } else {
      assert now / 1000 <= setAt / 1000;
    }
  }

  lemma LogoutKeepsRevoked(redis: Store, l: Logout, exp: Expiries, token: string, clock: Time)
    requires Revoked(redis, token, exp(token), clock) && l.now <= l.setAt && clock <= l.setAt
    ensures Revoked(AfterLogout(redis, l.token, exp(l.token), l.now, l.setAt), token, exp(token), l.setAt)
  {
    if l.token == token {
      LogoutRevokes(redis, token, exp(token), l.now, l.setAt, clock);
    } else {
      assert clock / 1000 <= l.setAt / 1000;
    }
  }

  lemma {:induction false} RunRevokes(redis: Store, exp: Expiries, logouts: seq<Logout>, token: string, clock: Time)
    requires InOrder(clock, logouts)
    requires Revoked(redis, token, exp(token), clock) || LoggedOut(logouts, token)
    ensures Revoked(Run(redis, exp, logouts), token, exp(token), LastInstant(clock, logouts, SET_AT))
    decreases |logouts|
  {
    if logouts != [] {
      var l := logouts[0];
      var next := AfterLogout(redis, l.token, exp(l.token), l.now, l.setAt);
      assert LastInstant(l.setAt, logouts[1..], SET_AT) == LastInstant(clock, logouts, SET_AT);
      if Revoked(redis, token, exp(token), clock) {
        LogoutKeepsRevoked(redis, l, exp, token, clock);
      } else if l.token == token {
        LogoutRevokes(redis, token, exp(token), l.now, l.setAt, clock);
      } else {
        var k :| 0 <= k < |logouts| && logouts[k].token == token;
        assert logouts[1..][k - 1].token == token;
      }
      RunRevokes(next, exp, logouts[1..], token, l.setAt);
    }
  }

  lemma {:induction false} RunSparesOthers(redis: Store, exp: Expiries, logouts: seq<Logout>, token: string)
    requires Blacklist(token) !in redis && !LoggedOut(logouts, token)
    ensures Blacklist(token) !in Run(redis, exp, logouts)
    decreases |logouts|
  {
    if logouts != [] {
      var l := logouts[0];
      assert l.token != token;
      assert forall k :: 0 <= k < |logouts| - 1 ==> logouts[1..][k] == logouts[k + 1];
      RunSparesOthers(AfterLogout(redis, l.token, exp(l.token), l.now, l.setAt), exp, logouts[1..], token);
    }
  }

  /**
   * After any run of logouts and at any later millisecond, the guard lets a signed token through
   * if and only if it has not expired and either was never logged out or Redis cannot be asked.
   */
  lemma LogoutLeavesNoGap(exp: Expiries, logouts: seq<Logout>, clock: Time, token: string, later: Time,
    redisFails: bool)
    requires InOrder(clock, logouts) && LastInstant(clock, logouts, SET_AT) <= later && token != ""
    ensures GuardVerdict(Run(map[], exp, logouts), token, exp(token), true, later, redisFails).Ok?
      <==> Unexpired(exp(token), later) && (redisFails || !LoggedOut(logouts, token))
  {
    if LoggedOut(logouts, token) {
      RunRevokes(map[], exp, logouts, token, clock);
      assert LastInstant(clock, logouts, SET_AT) / 1000 <= later / 1000;
      assert later == 1000 * (later / 1000) + later % 1000;
    } else {
      RunSparesOthers(map[], exp, logouts, token);
    }
  }
}
