/** The contact endpoint's fixed-window rate limiter: a process-wide map from
    client key to `{count, resetTime}`, consulted and updated by one check per
    request. Timestamps are milliseconds, as `Date.now()` returns them. */
module RateLimit {

  /** One hour in milliseconds (`60 * 60 * 1000`). */
  const RateLimitWindow: int := 60 * 60 * 1000
  /** Requests allowed per key and window. */
  const MaxRequests: int := 3

  datatype Record = Record(count: int, resetTime: int)

  /** The invariant the limiter keeps: every stored count is in 1..MaxRequests. */
  ghost predicate WellFormed(m: map<string, Record>)
  {
    forall k :: k in m ==> 1 <= m[k].count <= MaxRequests
  }

  /** The window of `r` is still open at `now`; `now == resetTime` is inside it. */
  predicate InWindow(r: Record, now: int)
  {
    now <= r.resetTime
  }

  /** One `checkRateLimit(ip)` at time `now` on the map `m`: whether the request is
      allowed, and the map afterwards. */
  function Step(m: map<string, Record>, ip: string, now: int): (v: (bool, map<string, Record>))
    ensures v.1.Keys == m.Keys + {ip} || (!v.0 && v.1 == m)
    ensures m.Keys <= v.1.Keys
    ensures forall k :: k in m && k != ip ==> k in v.1 && v.1[k] == m[k]
    ensures !v.0 ==> v.1 == m
    ensures WellFormed(m) ==> WellFormed(v.1)
  {
    if ip !in m || !InWindow(m[ip], now) then
      (true, m[ip := Record(1, now + RateLimitWindow)])
    else if m[ip].count >= MaxRequests then
      (false, m)
    else
      (true, m[ip := m[ip].(count := m[ip].count + 1)])
  }

  lemma FreshKeyAllowed(m: map<string, Record>, ip: string, now: int)
    requires ip !in m
    ensures Step(m, ip, now).0
    ensures Step(m, ip, now).1[ip] == Record(1, now + 3600000)
  {
  }

  lemma ExpiredWindowResets(m: map<string, Record>, ip: string, now: int)
    requires ip in m && now > m[ip].resetTime
    ensures Step(m, ip, now).0
    ensures Step(m, ip, now).1[ip] == Record(1, now + RateLimitWindow)
  {
  }

  lemma BoundaryIsInsideWindow(m: map<string, Record>, ip: string)
    requires ip in m && m[ip].count == MaxRequests
    ensures !Step(m, ip, m[ip].resetTime).0
  {
  }

  lemma OpenWindowCounts(m: map<string, Record>, ip: string, now: int)
    requires ip in m && InWindow(m[ip], now)
    ensures Step(m, ip, now).0 <==> m[ip].count < MaxRequests
    ensures Step(m, ip, now).0 ==> Step(m, ip, now).1[ip] == Record(m[ip].count + 1, m[ip].resetTime)
  {
  }

  /** A run of checks, each naming a client key and a time. */
  type Request = (string, int)

  /** The map after replaying `reqs` in order from `m`. */
  function Replay(m: map<string, Record>, reqs: seq<Request>): (m': map<string, Record>)
    ensures m.Keys <= m'.Keys
    ensures WellFormed(m) ==> WellFormed(m')
    decreases |reqs|
  {
    if reqs == [] then m else Replay(Step(m, reqs[0].0, reqs[0].1).1, reqs[1..])
  }

  /** How many of `reqs` that name `key` are allowed, replayed from `m`. */
  function AllowedCount(m: map<string, Record>, reqs: seq<Request>, key: string): nat
    decreases |reqs|
  {
    if reqs == [] then 0
    else
      var v := Step(m, reqs[0].0, reqs[0].1);
      (if v.0 && reqs[0].0 == key then 1 else 0) + AllowedCount(v.1, reqs[1..], key)
  }

  /** Inside an open window the key gets only the requests its count has left,
      whatever other keys do meanwhile, and the window itself does not move. */
  lemma {:induction false} OpenWindowBound(m: map<string, Record>, reqs: seq<Request>, key: string)
    requires WellFormed(m) && key in m
    requires forall i :: 0 <= i < |reqs| && reqs[i].0 == key ==> InWindow(m[key], reqs[i].1)
    ensures AllowedCount(m, reqs, key) <= MaxRequests - m[key].count
    ensures key in Replay(m, reqs)
    ensures Replay(m, reqs)[key] == Record(m[key].count + AllowedCount(m, reqs, key), m[key].resetTime)
    decreases |reqs|
  {
    if reqs != [] {
      var v := Step(m, reqs[0].0, reqs[0].1);
      forall i | 0 <= i < |reqs[1..]| && reqs[1..][i].0 == key
        ensures InWindow(v.1[key], reqs[1..][i].1)
      {
        assert reqs[1..][i] == reqs[i + 1];
      }
      OpenWindowBound(v.1, reqs[1..], key);
    }
  }

  /** A window is opened by an allowed check at `t0` for a key that is unseen or
      whose window has expired; at most MaxRequests checks of that key are allowed
      from then until `t0 + RateLimitWindow` inclusive. */
  lemma AtMostMaxPerWindow(m: map<string, Record>, key: string, t0: int, reqs: seq<Request>)
    requires WellFormed(m)
    requires key !in m || t0 > m[key].resetTime
    requires forall i :: 0 <= i < |reqs| && reqs[i].0 == key ==> reqs[i].1 <= t0 + RateLimitWindow
    ensures AllowedCount(m, [(key, t0)] + reqs, key) <= MaxRequests
  {
    var all := [(key, t0)] + reqs;
    assert all[0] == (key, t0) && all[1..] == reqs;
    var m1 := Step(m, key, t0).1;
    OpenWindowBound(m1, reqs, key);
  }

  /** Once a window has admitted MaxRequests checks, every further check of the
      key inside that window is denied and changes nothing. */
  lemma FullWindowDenies(m: map<string, Record>, reqs: seq<Request>, key: string, now: int)
    requires WellFormed(m) && key in m
    requires forall i :: 0 <= i < |reqs| && reqs[i].0 == key ==> InWindow(m[key], reqs[i].1)
    requires m[key].count + AllowedCount(m, reqs, key) == MaxRequests
    requires InWindow(m[key], now)
    ensures !Step(Replay(m, reqs), key, now).0
    ensures Step(Replay(m, reqs), key, now).1 == Replay(m, reqs)
  {
    OpenWindowBound(m, reqs, key);
  }

  /** The limiter's state: the module-level `rateLimit` map. */
  class Limiter {
    var entries: map<string, Record>

    ghost predicate Valid()
      reads this
    {
      WellFormed(entries)
    }

    constructor ()
      ensures Valid() && entries == map[]
    {
      entries := map[];
    }

    /** `checkRateLimit(ip)`, with `Date.now()` passed in as `now`. */
    method Check(ip: string, now: int) returns (allowed: bool)
      requires Valid()
      modifies this
      ensures Valid()
      ensures (allowed, entries) == Step(old(entries), ip, now)
    {
      if ip !in entries || now > entries[ip].resetTime {
        entries := entries[ip := Record(1, now + RateLimitWindow)];
        return true;
      }
      var record := entries[ip];
      if record.count >= MaxRequests {
        return false;
      }
      entries := entries[ip := record.(count := record.count + 1)];
      return true;
    }
  }
}
