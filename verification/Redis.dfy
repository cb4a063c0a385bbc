/** src/common/redis: the keys the backend uses, with their expiry. */
module Redis {
  import opened Common

  datatype Fix = Fix(lat: real, lng: real, speed: real)

  /** The cached JSON of the last location. */
  datatype Location = Location(vehicleId: Id, registrationNo: string, fix: Fix, timestamp: Time)

  datatype Key =
    | RateLimit(tenantId: Id, vehicleId: Id)
    | Latest(tenantId: Id, vehicleId: Id)
    | Blacklist(token: string)

  datatype Value = Flag | Cached(location: Location)

  datatype Entry = Entry(value: Value, expiry: Time)

  type Store = map<Key, Entry>

  /** A key can be read until its expiry. */
  function Get(store: Store, key: Key, now: Time): Option<Value> {
    if key in store && now < store[key].expiry then Some(store[key].value) else None
  }

  /** `SET key value EX ttl`, with the time to live in seconds. */
  function SetEx(store: Store, key: Key, value: Value, ttl: nat, now: Time): Store {
    store[key := Entry(value, now + 1000 * ttl)]
  }

  /** The text under which a key is stored. */
  function Text(key: Key): string {
    match key
    case RateLimit(tenantId, vehicleId) => "tracking:ratelimit:" + tenantId + ":" + vehicleId
    case Latest(tenantId, vehicleId) => "gps:" + tenantId + ":" + vehicleId
    case Blacklist(token) => "blacklist:" + token
  }

  function TenantOf(key: Key): Id {
    if key.Blacklist? then "" else key.tenantId
  }

  lemma ColonSplitsOnce(a: string, b: string, c: string, d: string)
    requires ':' !in a && ':' !in c && a + ":" + b == c + ":" + d
    ensures a == c && b == d
  {
    var whole := a + ":" + b;
    assert whole[|a|] == ':' && whole[|c|] == ':';
    assert forall k :: 0 <= k < |a| ==> whole[k] == a[k] && a[k] in a;
    assert forall k :: 0 <= k < |c| ==> whole[k] == c[k] && c[k] in c;
    assert a == whole[..|a|] && c == whole[..|c|];
    assert b == whole[|a| + 1..] && d == whole[|c| + 1..];
  }

  lemma SamePrefix(prefix: string, a: string, b: string)
    requires prefix + a == prefix + b
    ensures a == b
  {
    assert a == (prefix + a)[|prefix|..] && b == (prefix + b)[|prefix|..];
  }

  /**
   * Distinct keys have distinct texts as long as tenant ids contain no colon, whatever the vehicle id
   * in the request is.
   */
  lemma TextIsInjective(k: Key, l: Key)
    requires ':' !in TenantOf(k) && ':' !in TenantOf(l) && Text(k) == Text(l)
    ensures k == l
  {
    assert Text(k)[0] == Text(l)[0];
    match (k, l)
    case (RateLimit(t, v), RateLimit(u, w)) =>
      assert Text(k) == "tracking:ratelimit:" + (t + ":" + v) && Text(l) == "tracking:ratelimit:" + (u + ":" + w);
      SamePrefix("tracking:ratelimit:", t + ":" + v, u + ":" + w);
      ColonSplitsOnce(t, v, u, w);
    case (Latest(t, v), Latest(u, w)) =>
      assert Text(k) == "gps:" + (t + ":" + v) && Text(l) == "gps:" + (u + ":" + w);
      SamePrefix("gps:", t + ":" + v, u + ":" + w);
      ColonSplitsOnce(t, v, u, w);
    case (Blacklist(a), Blacklist(b)) =>
      SamePrefix("blacklist:", a, b);
    case _ =>
  }
}
