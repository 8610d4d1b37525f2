/** The middleware `QrCodeRateLimiter`: a per-client, per-route-kind request
    counter that is checked before it is incremented. The framework's
    limiter is modelled as a map from key to a counter that lapses when its
    decay window ends. */
module RateLimit {

  const BulkPath: string := "api/qr/bulk"
  const BulkLimit: nat := 10
  const SingleLimit: nat := 60
  const DecaySeconds: int := 60
  const TooManyStatus: int := 429
  const TooManyMessage: string := "Too many requests. Please try again later."

  /** Hits recorded on a key, and the instant the window (and the count) lapses. */
  datatype Counter = Counter(hits: nat, resetAt: int)

  type Store = map<string, Counter>

  datatype Response =
    | TooManyRequests(status: int, success: bool, error: string, retryAfter: int)
    | Forwarded

  function KeyFor(path: string, ip: string): string
  {
    "qr_" + (if path == BulkPath then "bulk_" else "single_") + ip
  }

  function LimitFor(path: string): nat
  {
    if path == BulkPath then BulkLimit else SingleLimit
  }

  predicate Live(s: Store, key: string, now: int)
  {
    key in s && now < s[key].resetAt
  }

  /** `RateLimiter::attempts`: an expired counter counts as zero. */
  function Attempts(s: Store, key: string, now: int): nat
  {
    if Live(s, key, now) then s[key].hits else 0
  }

  /** `RateLimiter::tooManyAttempts`. */
  predicate TooManyAttempts(s: Store, key: string, maxAttempts: nat, now: int)
  {
    Attempts(s, key, now) >= maxAttempts
  }

  /** `RateLimiter::availableIn`: seconds until the window lapses. */
  function AvailableIn(s: Store, key: string, now: int): int
  {
    if Live(s, key, now) then s[key].resetAt - now else 0
  }

  /** `RateLimiter::hit`: one more hit, opening a window of `decay` seconds
      if none is live; a live window keeps its end. Other keys are untouched. */
  function Hit(s: Store, key: string, decay: int, now: int): (r: Store)
    ensures key in r
    ensures decay > 0 ==> Attempts(r, key, now) == Attempts(s, key, now) + 1
    ensures !Live(s, key, now) ==> r[key] == Counter(1, now + decay)
    ensures Live(s, key, now) ==> r[key].resetAt == s[key].resetAt
    ensures forall k :: k != key ==> (k in r <==> k in s)
    ensures forall k :: k != key && k in s ==> r[k] == s[k]
  {
    if Live(s, key, now) then s[key := Counter(s[key].hits + 1, s[key].resetAt)]
    else s[key := Counter(1, now + decay)]
  }

  /** One pass through `handle`: forwarded exactly when the limit is not yet
      reached, and only a forwarded request is counted. */
  function HandleStep(s: Store, path: string, ip: string, now: int): (r: (Store, Response))
    ensures r.1 == Forwarded <==> !TooManyAttempts(s, KeyFor(path, ip), LimitFor(path), now)
    ensures r.1.TooManyRequests? ==> r.0 == s
    ensures r.1 == Forwarded ==> r.0 == Hit(s, KeyFor(path, ip), DecaySeconds, now)
  {
    var key := KeyFor(path, ip);
    if TooManyAttempts(s, key, LimitFor(path), now) then
      (s, TooManyRequests(TooManyStatus, false, TooManyMessage, AvailableIn(s, key, now)))
    else (Hit(s, key, DecaySeconds, now), Forwarded)
  }

  /** The bulk route gets its own key prefix and a limit of 10; every other
      route shares the single prefix and a limit of 60. */
  lemma KeyAndLimit(path: string, ip: string)
    ensures path == BulkPath ==> KeyFor(path, ip) == "qr_bulk_" + ip && LimitFor(path) == 10
    ensures path != BulkPath ==> KeyFor(path, ip) == "qr_single_" + ip && LimitFor(path) == 60
  {
  }

  /** Distinct clients, and bulk versus single traffic of one client, never
      share a counter. */
  lemma {:induction false} KeyInjective(p1: string, ip1: string, p2: string, ip2: string)
    requires KeyFor(p1, ip1) == KeyFor(p2, ip2)
    ensures ip1 == ip2
    ensures p1 == BulkPath <==> p2 == BulkPath
  {
    var k1, k2 := KeyFor(p1, ip1), KeyFor(p2, ip2);
    assert k1[3] == (if p1 == BulkPath then 'b' else 's');
    assert k2[3] == (if p2 == BulkPath then 'b' else 's');
    if p1 == BulkPath {
      assert ip1 == k1[8..] && ip2 == k2[8..];
    } else {
      assert ip1 == k1[10..] && ip2 == k2[10..];
    }
  }

  /** A rejected request answers 429 with the time left in the window and
      records no hit. */
  lemma RejectRecordsNothing(s: Store, path: string, ip: string, now: int)
    requires TooManyAttempts(s, KeyFor(path, ip), LimitFor(path), now)
    ensures HandleStep(s, path, ip, now).0 == s
    ensures var resp := HandleStep(s, path, ip, now).1;
      && resp.TooManyRequests? && resp.status == 429 && !resp.success
      && resp.error == TooManyMessage
      && resp.retryAfter == s[KeyFor(path, ip)].resetAt - now > 0
  {
    assert LimitFor(path) > 0;
  }

  /** An admitted request is forwarded and records exactly one hit on its
      own key, opening a 60-second window if none was live (a live window
      keeps its end); every other key keeps its counter. */
  lemma AdmitRecordsOneHit(s: Store, path: string, ip: string, now: int)
    requires !TooManyAttempts(s, KeyFor(path, ip), LimitFor(path), now)
    ensures var (s', resp) := HandleStep(s, path, ip, now);
      && resp == Forwarded
      && Attempts(s', KeyFor(path, ip), now) == Attempts(s, KeyFor(path, ip), now) + 1
      && (forall k :: k != KeyFor(path, ip) ==> (k in s' <==> k in s))
      && (forall k :: k != KeyFor(path, ip) && k in s ==> s'[k] == s[k])
      && KeyFor(path, ip) in s'
      && (!Live(s, KeyFor(path, ip), now) ==> s'[KeyFor(path, ip)] == Counter(1, now + DecaySeconds))
      && (Live(s, KeyFor(path, ip), now) ==> s'[KeyFor(path, ip)].resetAt == s[KeyFor(path, ip)].resetAt)
  {
  }

  /** Once the window a rejection reported has passed, the same client is
      admitted again. */
  lemma AdmittedAfterRetry(s: Store, path: string, ip: string, now: int)
    requires HandleStep(s, path, ip, now).1.TooManyRequests?
    ensures HandleStep(s, path, ip, now + HandleStep(s, path, ip, now).1.retryAfter).1 == Forwarded
  {
    var key := KeyFor(path, ip);
    assert LimitFor(path) > 0;
    assert Live(s, key, now);
  }

  /** `n` requests of one client on one route within one instant. */
  function Burst(s: Store, path: string, ip: string, now: int, n: nat): (Store, nat)
    decreases n
  {
    if n == 0 then (s, 0)
    else
      var (s1, resp) := HandleStep(s, path, ip, now);
      var (s2, passed) := Burst(s1, path, ip, now, n - 1);
      (s2, if resp == Forwarded then passed + 1 else passed)
  }

  function Min(a: int, b: int): int { if a < b then a else b }

  /** Within one window, of `n` requests exactly as many pass as the limit
      leaves room for, and the counter grows by that many. */
  lemma {:induction false} BurstAdmits(s: Store, path: string, ip: string, now: int, n: nat)
    decreases n
    ensures var c := Attempts(s, KeyFor(path, ip), now);
      var (s', passed) := Burst(s, path, ip, now, n);
      && passed == (if c >= LimitFor(path) then 0 else Min(n, LimitFor(path) - c))
      && Attempts(s', KeyFor(path, ip), now) == c + passed
  {
    if n > 0 {
      var (s1, resp) := HandleStep(s, path, ip, now);
      BurstAdmits(s1, path, ip, now, n - 1);
    }
  }

  /** From an untouched counter exactly `limit` requests pass: 10 on the bulk
      route, 60 elsewhere. */
  lemma FromZeroExactlyLimitPass(s: Store, path: string, ip: string, now: int, n: nat)
    requires !Live(s, KeyFor(path, ip), now)
    ensures Burst(s, path, ip, now, n).1 == Min(n, LimitFor(path))
    ensures n > LimitFor(path) ==> Burst(s, path, ip, now, n).1 == LimitFor(path)
  {
    BurstAdmits(s, path, ip, now, n);
  }

  class QrCodeRateLimiter {
    var store: Store

    constructor ()
      ensures store == map[]
    {
      store := map[];
    }

    /** `handle`: check the limit, and only when it is not reached record a
        hit and forward the request. */
    method Handle(path: string, ip: string, now: int) returns (resp: Response)
      modifies this
      ensures (store, resp) == HandleStep(old(store), path, ip, now)
    {
      var key := KeyFor(path, ip);
      var maxAttempts := LimitFor(path);
      if TooManyAttempts(store, key, maxAttempts, now) {
        return TooManyRequests(TooManyStatus, false, TooManyMessage, AvailableIn(store, key, now));
      }
      store := Hit(store, key, DecaySeconds, now);
      resp := Forwarded;
    }
  }
}
