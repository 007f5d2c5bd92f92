/**
 Fixed-window rate limiting over a key-value store with expiring keys.
 A client gets a counter per limiter kind; the first request of a window
 creates it with count 1 and the window's expiry, later requests are let
 through and counted while the count is below the limit, and nothing is
 counted once the limit is reached. The store's clock is a parameter.
 */
module RateLimiting {
  import opened Common
  import opened Text
  import Config

  /** The two limiters: general requests and authentication attempts. */
  datatype LimitKey = General(identifier: string) | Auth(identifier: string)

  /** The store key each limiter uses. */
  function RedisKey(k: LimitKey): string {
    match k
    case General(id) => "ratelimit:" + id
    case Auth(id) => "auth_ratelimit:" + id
  }

  /** Distinct limiters never share a store key. */
  lemma RedisKeyInjective(a: LimitKey, b: LimitKey)
    ensures RedisKey(a) == RedisKey(b) ==> a == b
  {
    if RedisKey(a) == RedisKey(b) {
      assert RedisKey(a)[0] == RedisKey(b)[0];
      if a.General? && b.General? {
        assert a.identifier == RedisKey(a)[10..] == RedisKey(b)[10..] == b.identifier;
      } else if a.Auth? && b.Auth? {
        assert a.identifier == RedisKey(a)[15..] == RedisKey(b)[15..] == b.identifier;
      }
    }
  }

  function Limit(k: LimitKey): nat {
    if k.General? then Config.GeneralRateLimit else Config.AuthRateLimit
  }

  function Window(k: LimitKey): nat {
    if k.General? then Config.GeneralRateWindow else Config.AuthRateWindow
  }

  /** A stored count and the time its key expires. */
  datatype Counter = Counter(count: int, expiresAt: int)

  /** GET: what the store holds for a key at time now, an expired key reading as absent. */
  function Read(counters: map<LimitKey, Counter>, k: LimitKey, now: int): Option<Counter> {
    if k in counters && now < counters[k].expiresAt then Some(counters[k]) else None
  }

  /** One check: whether the request is let through, and the store afterwards. */
  function Admit(counters: map<LimitKey, Counter>, k: LimitKey, now: int): (bool, map<LimitKey, Counter>) {
    var c := Read(counters, k, now);
    if c.None? then (true, counters[k := Counter(1, now + Window(k))])
    else if c.value.count < Limit(k) then (true, counters[k := Counter(c.value.count + 1, c.value.expiresAt)])
    else (false, counters)
  }

  /** Every stored count lies between 1 and its limiter's limit. */
  predicate CountsInRange(counters: map<LimitKey, Counter>) {
    forall k :: k in counters ==> 1 <= counters[k].count <= Limit(k)
  }

  /** A check keeps every count within its limit and touches no other limiter's counter. */
  lemma AdmitKeepsCounts(counters: map<LimitKey, Counter>, k: LimitKey, now: int)
    requires CountsInRange(counters)
    ensures CountsInRange(Admit(counters, k, now).1)
    ensures forall j :: j != k ==> Read(Admit(counters, k, now).1, j, now) == Read(counters, j, now)
  {
  }

  /** The decisions of successive checks on one limiter at the given times. */
  function Decisions(counters: map<LimitKey, Counter>, k: LimitKey, times: seq<int>): (d: seq<bool>)
    ensures |d| == |times|
    decreases |times|
  {
    if times == [] then []
    else
      var step := Admit(counters, k, times[0]);
      [step.0] + Decisions(step.1, k, times[1..])
  }

  /** While the counter is live, the i-th further check passes exactly when the count,
      plus i, is still below the limit. */
  lemma {:induction false} DecisionsWhileLive(counters: map<LimitKey, Counter>, k: LimitKey, times: seq<int>)
    requires k in counters && counters[k].count >= 1
    requires forall i :: 0 <= i < |times| ==> times[i] < counters[k].expiresAt
    ensures forall i :: 0 <= i < |times| ==>
      (Decisions(counters, k, times)[i] <==> counters[k].count + i < Limit(k))
  {
    if times != [] {
      var c := counters[k];
      var step := Admit(counters, k, times[0]);
      assert Read(counters, k, times[0]) == Some(c);
      assert step.1[k].expiresAt == c.expiresAt;
      assert forall i :: 0 <= i < |times[1..]| ==> times[1..][i] == times[i + 1];
      DecisionsWhileLive(step.1, k, times[1..]);
      if c.count < Limit(k) {
        assert step.1[k].count == c.count + 1;
      } else {
        assert step.1 == counters;
      }
      forall i | 0 < i < |times|
        ensures Decisions(counters, k, times)[i] <==> c.count + i < Limit(k)
      {
        assert Decisions(counters, k, times)[i] == Decisions(step.1, k, times[1..])[i - 1];
      }
    }
  }

  /** Within one window that starts with no live counter, exactly the first Limit(k)
      requests are let through. */
  lemma FirstLimitRequestsPass(counters: map<LimitKey, Counter>, k: LimitKey, times: seq<int>)
    requires times != [] && Read(counters, k, times[0]).None?
    requires forall i :: 0 <= i < |times| ==> times[0] <= times[i] < times[0] + Window(k)
    ensures forall i :: 0 <= i < |times| ==> (Decisions(counters, k, times)[i] <==> i < Limit(k))
  {
    var step := Admit(counters, k, times[0]);
    assert step.1[k] == Counter(1, times[0] + Window(k));
    assert forall i :: 0 <= i < |times[1..]| ==> times[1..][i] == times[i + 1];
    DecisionsWhileLive(step.1, k, times[1..]);
    forall i | 0 < i < |times|
      ensures Decisions(counters, k, times)[i] <==> i < Limit(k)
    {
      assert Decisions(counters, k, times)[i] == Decisions(step.1, k, times[1..])[i - 1];
    }
  }

  /** The client address: the first X-Forwarded-For entry, stripped, when that header is
      present and non-empty, else the connection's host. */
  function ClientIdentifier(host: string, forwardedFor: Option<string>): (id: string)
    ensures forwardedFor.None? || forwardedFor == Some("") ==> id == host
    ensures forwardedFor.Some? && forwardedFor.value != "" ==>
      id == Strip(FirstField(forwardedFor.value, ',')) && ',' !in id &&
      forall c :: c in id ==> c in forwardedFor.value
  {
    if forwardedFor.Some? && forwardedFor.value != "" then
      var id := Strip(FirstField(forwardedFor.value, ','));
      StripChars(FirstField(forwardedFor.value, ','));
      assert forall c :: c in FirstField(forwardedFor.value, ',') ==> c in forwardedFor.value by {
        var f := FirstField(forwardedFor.value, ',');
        forall c | c in f ensures c in forwardedFor.value {
          var i :| 0 <= i < |f| && f[i] == c;
          assert forwardedFor.value[i] == c;
        }
      }
      id
    else host
  }

  /** The counters of both limiters, as the store holds them. */
  class RateLimiter {
    var counters: map<LimitKey, Counter>

    predicate Valid()
      reads this
    {
      CountsInRange(counters)
    }

    constructor ()
      ensures Valid() && counters == map[]
    {
      counters := map[];
    }

    /** check_rate_limit and check_auth_rate_limit: read the counter, then create it,
        count the request, or refuse it. */
    method Check(k: LimitKey, now: int) returns (allowed: bool)
      requires Valid()
      modifies this
      ensures Valid()
      ensures var c := Read(old(counters), k, now);
        if c.None? then allowed && counters == old(counters)[k := Counter(1, now + Window(k))]
        else if c.value.count < Limit(k) then
          allowed && counters == old(counters)[k := Counter(c.value.count + 1, c.value.expiresAt)]
        else !allowed && counters == old(counters)
      ensures (allowed, counters) == Admit(old(counters), k, now)
    {
      var count := Read(counters, k, now);
      if count.None? {
        counters := counters[k := Counter(1, now + Window(k))];
        return true;
      } else if count.value.count < Limit(k) {
        counters := counters[k := Counter(count.value.count + 1, count.value.expiresAt)];
        return true;
      } else {
        return false;
      }
    }

    method CheckRateLimit(identifier: string, now: int) returns (allowed: bool)
      requires Valid()
      modifies this
      ensures Valid()
      ensures (allowed, counters) == Admit(old(counters), General(identifier), now)
    {
      allowed := Check(General(identifier), now);
    }

    method CheckAuthRateLimit(identifier: string, now: int) returns (allowed: bool)
      requires Valid()
      modifies this
      ensures Valid()
      ensures (allowed, counters) == Admit(old(counters), Auth(identifier), now)
    {
      allowed := Check(Auth(identifier), now);
    }

    /** require_auth_rate_limit: 429 once the client has used its authentication attempts. */
    method RequireAuthRateLimit(host: string, forwardedFor: Option<string>, now: int)
      returns (r: Result<bool, Error>)
      requires Valid()
      modifies this
      ensures Valid()
      ensures var step := Admit(old(counters), Auth(ClientIdentifier(host, forwardedFor)), now);
        counters == step.1 && (r == if step.0 then Ok(true) else Err(Error(429, TooManyAuthAttempts)))
    {
      var clientIp := ClientIdentifier(host, forwardedFor);
      var allowed := CheckAuthRateLimit(clientIp, now);
      if !allowed {
        return Err(Error(429, TooManyAuthAttempts));
      }
      return Ok(true);
    }
  }
}
