/**
 Token-bucket admission: one bucket for each identity and domain, in a table of bounded
 size that forgets buckets idle for more than ten minutes.  Time is in seconds.
 */
module RateLimit {
  import opened Options
  import opened Sets

  type Key = nat
  type Time = real

  const MAX_BUCKETS := 10_000
  const IDLE: real := 600.0

  datatype Limit = Limit(rate: real, burst: real)

  /** What a compiled domain with a rate limit guarantees. */
  predicate Positive(limit: Limit) {
    limit.rate > 0.0 && limit.burst >= 1.0
  }

  /**
   An idle bucket has refilled by the time it may be forgotten, though every clock reading may
   lag behind an earlier one by `skew`.
   */
  predicate RefillsWhenIdle(limit: Limit, skew: real) {
    limit.burst <= Gain(limit, IDLE - 2.0 * skew)
  }

  datatype Bucket = Bucket(tokens: real, last: Time, lastSeen: Time)

  type Buckets = map<Key, Bucket>

  /** The compiled burst of a domain: configured, or twice the rate, but at least one. */
  function RateBurst(configured: int, perSecond: real): int {
    if perSecond <= 0.0 then 0
    else if configured > 0 then configured
    else if (perSecond * 2.0).Floor < 1 then 1 else (perSecond * 2.0).Floor
  }

  lemma CompiledLimitIsPositive(configured: int, perSecond: real)
    requires perSecond > 0.0
    ensures Positive(Limit(perSecond, RateBurst(configured, perSecond) as real))
    ensures configured > 0 ==> RateBurst(configured, perSecond) == configured
    ensures configured <= 0 ==>
              var burst := RateBurst(configured, perSecond) as real;
              if 2.0 * perSecond < 1.0 then burst == 1.0 else burst <= 2.0 * perSecond < burst + 1.0
  {
  }

  /** A domain without a configured burst refills in time exactly from one request in ten minutes up. */
  lemma DefaultBurstRefillsWhenIdle(perSecond: real)
    requires perSecond > 0.0
    ensures RefillsWhenIdle(Limit(perSecond, RateBurst(0, perSecond) as real), 0.0) <==> IDLE * perSecond >= 1.0
  {
  }

  function Min(a: real, b: real): real {
    if a < b then a else b
  }

  function Max(a: real, b: real): real {
    if a < b then b else a
  }

  /** What a bucket gains in a span of time. */
  function Gain(limit: Limit, span: real): real {
    span * limit.rate
  }

  lemma GainIsMonotone(limit: Limit, span: real, longer: real)
    requires limit.rate > 0.0 && span <= longer
    ensures Gain(limit, span) <= Gain(limit, longer)
  {
    assert (longer - span) * limit.rate >= 0.0;
  }

  lemma GainOfDifference(limit: Limit, t: Time, u: Time)
    ensures Gain(limit, t - u) == Gain(limit, t) - Gain(limit, u)
  {
  }

  function Active(buckets: Buckets, now: Time): Buckets {
    map k | k in buckets && now - buckets[k].lastSeen <= IDLE :: buckets[k]
  }

  /** The bucket of a new key, or the refilled bucket of a known one. */
  function Refilled(buckets: Buckets, k: Key, limit: Limit, now: Time): real {
    if k in buckets then Min(limit.burst, buckets[k].tokens + Gain(limit, now - buckets[k].last))
    else limit.burst
  }

  /** The table a new key finds: idle buckets are forgotten only when it is full. */
  function Room(buckets: Buckets, k: Key, now: Time): Buckets {
    if k !in buckets && |buckets| >= MAX_BUCKETS then Active(buckets, now) else buckets
  }

  predicate Full(buckets: Buckets, k: Key) {
    k !in buckets && |buckets| >= MAX_BUCKETS
  }

  predicate Admits(buckets: Buckets, k: Key, limit: Limit, now: Time) {
    !Full(Room(buckets, k, now), k) && Refilled(buckets, k, limit, now) >= 1.0
  }

  function After(buckets: Buckets, k: Key, limit: Limit, now: Time): Buckets {
    var room := Room(buckets, k, now);
    if Full(room, k) then room
    else
      var tokens := Refilled(buckets, k, limit, now);
      room[k := Bucket(if tokens >= 1.0 then tokens - 1.0 else tokens, now, now)]
  }

  class Limiter {
    var buckets: Buckets

    constructor ()
      ensures buckets == map[]
    {
      buckets := map[];
    }

    method ForgetIdle(now: Time)
      modifies this
      ensures buckets == Active(old(buckets), now)
    {
      var todo := buckets.Keys;
      ghost var before := buckets;
      while todo != {}
        invariant todo <= buckets.Keys <= before.Keys
        invariant forall k | k in buckets :: buckets[k] == before[k]
        invariant forall k | k in before && k !in buckets :: now - before[k].lastSeen > IDLE
        invariant forall k | k in buckets && k !in todo :: now - before[k].lastSeen <= IDLE
        decreases |todo|
      {
        var candidate :| candidate in todo;
        todo := todo - {candidate};
        if now - buckets[candidate].lastSeen > IDLE {
          buckets := buckets - {candidate};
        }
      }
    }

    method TakeRate(k: Key, limit: Limit, now: Time) returns (ok: bool)
      modifies this
      ensures ok == Admits(old(buckets), k, limit, now)
      ensures buckets == After(old(buckets), k, limit, now)
    {
      var bucket;
      if k in buckets {
        bucket := buckets[k];
      } else {
        if |buckets| >= MAX_BUCKETS {
          ForgetIdle(now);
          if |buckets| >= MAX_BUCKETS {
            return false;
          }
        }
        bucket := Bucket(limit.burst, now, now);
      }
      var tokens := bucket.tokens + Gain(limit, now - bucket.last);
      if tokens > limit.burst {
        tokens := limit.burst;
      }
      assert tokens == Refilled(old(buckets), k, limit, now) by {
        assert Gain(limit, 0.0) == 0.0;
      }
      ok := tokens >= 1.0;
      if ok {
        tokens := tokens - 1.0;
      }
      buckets := buckets[k := Bucket(tokens, now, now)];
    }
  }

  // ---------------------------------------------------------------------------
  // Runs
  // ---------------------------------------------------------------------------

  /** One passage of the critical section, with the clock reading taken before it. */
  datatype Call = Call(key: Key, now: Time)

  type Limits = Key -> Limit

  /**
   The clock is read before the lock is taken, so that readings may reach the critical section
   out of order: each lags behind the highest one so far by at most `skew`.
   */
  predicate Ordered(calls: seq<Call>, skew: real, high: Time) {
    calls == [] || (high - skew <= calls[0].now && Ordered(calls[1..], skew, Max(high, calls[0].now)))
  }

  function Highest(calls: seq<Call>, high: Time): Time {
    if calls == [] then high else Highest(calls[1..], Max(high, calls[0].now))
  }

  function Run(limits: Limits, buckets: Buckets, calls: seq<Call>): Buckets
    decreases |calls|
  {
    if calls == [] then buckets
    else Run(limits, After(buckets, calls[0].key, limits(calls[0].key), calls[0].now), calls[1..])
  }

  /** How many calls for `k` in the window [a, b] are admitted. */
  function Admissions(limits: Limits, buckets: Buckets, calls: seq<Call>, k: Key, a: Time, b: Time): nat
    decreases |calls|
  {
    if calls == [] then 0
    else
      var c := calls[0];
      (if c.key == k && a <= c.now <= b && Admits(buckets, k, limits(k), c.now) then 1 else 0)
      + Admissions(limits, After(buckets, c.key, limits(c.key), c.now), calls[1..], k, a, b)
  }

  // ---------------------------------------------------------------------------
  // The table stays bounded and the buckets within their range
  // ---------------------------------------------------------------------------

  /** What a bucket holds, less all it could have gained since time zero: waiting leaves it alone. */
  function Credit(limit: Limit, bucket: Bucket): real {
    bucket.tokens - Gain(limit, bucket.last)
  }

  ghost predicate BucketOk(limit: Limit, bucket: Bucket, high: Time, skew: real) {
    && bucket.tokens <= limit.burst && bucket.last == bucket.lastSeen && bucket.last <= high
    && Credit(limit, bucket) >= -Gain(limit, Min(high, bucket.last + skew))
  }

  ghost predicate Inv(limits: Limits, buckets: Buckets, high: Time, skew: real) {
    && |buckets| <= MAX_BUCKETS
    && forall k | k in buckets :: BucketOk(limits(k), buckets[k], high, skew)
  }

  lemma ActiveIsSmaller(buckets: Buckets, now: Time)
    ensures |Active(buckets, now)| <= |buckets|
  {
    SubsetSize(Active(buckets, now).Keys, buckets.Keys);
  }

  /** What is left of a call's own key: nothing can be gained by asking. */
  lemma LevelOfOwn(limit: Limit, buckets: Buckets, k: Key, now: Time)
    ensures k in buckets ==>
              Refilled(buckets, k, limit, now) - Gain(limit, now)
              == Min(limit.burst - Gain(limit, now), Credit(limit, buckets[k]))
    ensures k !in buckets ==> Refilled(buckets, k, limit, now) == limit.burst
  {
    if k in buckets {
      GainOfDifference(limit, now, buckets[k].last);
    }
  }

  lemma OwnBucketStaysOk(limits: Limits, buckets: Buckets, k: Key, high: Time, skew: real, now: Time)
    requires Positive(limits(k)) && skew >= 0.0 && high - skew <= now
    requires k in buckets ==> BucketOk(limits(k), buckets[k], high, skew)
    ensures var next := After(buckets, k, limits(k), now);
            k in next ==> BucketOk(limits(k), next[k], Max(high, now), skew)
  {
    var limit, top := limits(k), Max(high, now);
    LevelOfOwn(limit, buckets, k, now);
    GainIsMonotone(limit, now, top);
    if k in buckets {
      GainIsMonotone(limit, Min(high, buckets[k].last + skew), top);
    }
    assert Min(top, now + skew) == top;
  }

  lemma OtherBucketStaysOk(limit: Limit, bucket: Bucket, high: Time, skew: real, now: Time)
    requires Positive(limit) && BucketOk(limit, bucket, high, skew)
    ensures BucketOk(limit, bucket, Max(high, now), skew)
  {
    GainIsMonotone(limit, Min(high, bucket.last + skew), Min(Max(high, now), bucket.last + skew));
  }

  lemma AfterStaysSmall(limits: Limits, buckets: Buckets, k: Key, now: Time)
    requires |buckets| <= MAX_BUCKETS
    ensures |After(buckets, k, limits(k), now)| <= MAX_BUCKETS
  {
    ActiveIsSmaller(buckets, now);
    if k in buckets {
      assert After(buckets, k, limits(k), now).Keys == buckets.Keys;
    }
  }

  lemma AfterKeepsInv(limits: Limits, buckets: Buckets, k: Key, high: Time, skew: real, now: Time)
    requires forall h :: Positive(limits(h))
    requires Inv(limits, buckets, high, skew) && skew >= 0.0 && high - skew <= now
    ensures Inv(limits, After(buckets, k, limits(k), now), Max(high, now), skew)
  {
    AfterStaysSmall(limits, buckets, k, now);
    OwnBucketStaysOk(limits, buckets, k, high, skew, now);
    var next := After(buckets, k, limits(k), now);
    forall h | h in next
      ensures BucketOk(limits(h), next[h], Max(high, now), skew)
    {
      if h != k {
        OtherBucketStaysOk(limits(h), buckets[h], high, skew, now);
      }
    }
  }

  lemma {:induction false} RunKeepsInv(limits: Limits, buckets: Buckets, calls: seq<Call>, skew: real, high: Time)
    requires forall h :: Positive(limits(h))
    requires Inv(limits, buckets, high, skew) && Ordered(calls, skew, high) && skew >= 0.0
    ensures Inv(limits, Run(limits, buckets, calls), Highest(calls, high), skew)
    decreases |calls|
  {
    if calls != [] {
      var c := calls[0];
      AfterKeepsInv(limits, buckets, c.key, high, skew, c.now);
      RunKeepsInv(limits, After(buckets, c.key, limits(c.key), c.now), calls[1..], skew, Max(high, c.now));
    }
  }

  /**
   Over every run the table stays bounded, no bucket holds more than its burst, and none falls
   below empty by more than the clock skew is worth.
   */
  lemma BucketsStayInRange(limits: Limits, calls: seq<Call>, skew: real, start: Time)
    requires forall h :: Positive(limits(h))
    requires Ordered(calls, skew, start) && skew >= 0.0
    ensures var buckets := Run(limits, map[], calls);
            && |buckets| <= MAX_BUCKETS
            && forall k | k in buckets :: -Gain(limits(k), skew) <= buckets[k].tokens <= limits(k).burst
  {
    RunKeepsInv(limits, map[], calls, skew, start);
    var buckets, high := Run(limits, map[], calls), Highest(calls, start);
    forall k | k in buckets
      ensures -Gain(limits(k), skew) <= buckets[k].tokens <= limits(k).burst
    {
      BucketIsInRange(limits(k), buckets[k], high, skew);
    }
  }

  lemma BucketIsInRange(limit: Limit, x: Bucket, high: Time, skew: real)
    requires Positive(limit) && BucketOk(limit, x, high, skew)
    ensures -Gain(limit, skew) <= x.tokens <= limit.burst
  {
    GainIsMonotone(limit, Min(high, x.last + skew), x.last + skew);
    GainOfDifference(limit, x.last + skew, x.last);
  }

  /** Readings one second out of order are enough to overdraw a bucket. */
  lemma OutOfOrderReadingsOverdraw()
    ensures var limits: Limits := _ => Limit(1.0, 1.0);
            var calls := [Call(0, 10.0), Call(0, 9.0)];
            && Ordered(calls, 1.0, 10.0) && !Ordered(calls, 0.0, 10.0)
            && 0 in Run(limits, map[], calls) && Run(limits, map[], calls)[0].tokens == -1.0
  {
    var limits: Limits := _ => Limit(1.0, 1.0);
    var first := After(map[], 0, Limit(1.0, 1.0), 10.0);
    assert first == map[0 := Bucket(0.0, 10.0, 10.0)];
    var second := After(first, 0, Limit(1.0, 1.0), 9.0);
    assert Gain(Limit(1.0, 1.0), 9.0 - 10.0) == -1.0;
    assert second[0].tokens == -1.0;
    RunCons(limits, map[], Call(0, 10.0), [Call(0, 9.0)]);
    RunCons(limits, first, Call(0, 9.0), []);
    assert [Call(0, 10.0)] + [Call(0, 9.0)] == [Call(0, 10.0), Call(0, 9.0)] && [Call(0, 9.0)] + [] == [Call(0, 9.0)];
  }

  // ---------------------------------------------------------------------------
  // The rate bound
  // ---------------------------------------------------------------------------

  /** The credit of `k`: its bucket's, or else the one remembered from a forgotten bucket, if any. */
  function CreditOf(limits: Limits, buckets: Buckets, k: Key, remembered: Option<real>): Option<real> {
    if k in buckets then Some(Credit(limits(k), buckets[k])) else remembered
  }

  /** A new bucket for `k` never has more credit than the one it was forgotten with. */
  predicate Smooth(limits: Limits, buckets: Buckets, calls: seq<Call>, k: Key, credit: Option<real>)
    decreases |calls|
  {
    || calls == []
    || var c := calls[0];
       var next := After(buckets, c.key, limits(c.key), c.now);
       && (c.key == k && k !in buckets && credit.Some? ==>
             limits(k).burst - Gain(limits(k), c.now) <= credit.value)
       && Smooth(limits, next, calls[1..], k, CreditOf(limits, next, k, credit))
  }

  /** All that can be spent from time `a` on, were the clock to stand still at zero. */
  function Spendable(limit: Limit, a: Time, credit: Option<real>): real {
    var filled := limit.burst - Gain(limit, a);
    if credit.None? then filled else Min(filled, credit.value)
  }

  /** What a call for `k` does to its credit. */
  lemma CreditAfterOwn(limits: Limits, buckets: Buckets, k: Key, now: Time, credit: Option<real>)
    requires Positive(limits(k)) && credit == CreditOf(limits, buckets, k, credit)
    requires k !in buckets && credit.Some? ==> limits(k).burst - Gain(limits(k), now) <= credit.value
    ensures var next := CreditOf(limits, After(buckets, k, limits(k), now), k, credit);
            var filled := limits(k).burst - Gain(limits(k), now);
            var before := if credit.None? then filled else Min(filled, credit.value);
            if Admits(buckets, k, limits(k), now) then
              next == Some(before - 1.0) && before - 1.0 >= -Gain(limits(k), now)
            else next == credit || next == Some(before)
  {
    LevelOfOwn(limits(k), buckets, k, now);
  }

  lemma CreditAfterOther(limits: Limits, buckets: Buckets, key: Key, k: Key, now: Time, credit: Option<real>)
    requires key != k && credit == CreditOf(limits, buckets, k, credit)
    ensures CreditOf(limits, After(buckets, key, limits(key), now), k, credit) == credit
  {
  }

  lemma {:induction false} WindowBound(
      limits: Limits, buckets: Buckets, calls: seq<Call>, k: Key, a: Time, b: Time, credit: Option<real>)
    requires Positive(limits(k)) && a <= b
    requires Smooth(limits, buckets, calls, k, credit) && credit == CreditOf(limits, buckets, k, credit)
    ensures Admissions(limits, buckets, calls, k, a, b) as real
            <= Max(0.0, Spendable(limits(k), a, credit) + Gain(limits(k), b))
    decreases |calls|
  {
    if calls != [] {
      var c := calls[0];
      var next := After(buckets, c.key, limits(c.key), c.now);
      WindowBound(limits, next, calls[1..], k, a, b, CreditOf(limits, next, k, credit));
      if c.key == k {
        CreditAfterOwn(limits, buckets, k, c.now, credit);
        if a <= c.now <= b {
          GainIsMonotone(limits(k), a, c.now);
          GainIsMonotone(limits(k), c.now, b);
        }
      } else {
        CreditAfterOther(limits, buckets, c.key, k, c.now, credit);
      }
    }
  }

  // --- Why forgetting does not matter when idle buckets refill ---

  /** When `k` has no bucket, any reading still to come finds its old credit worth a full one. */
  ghost predicate Refilling(limits: Limits, buckets: Buckets, k: Key, credit: Option<real>, high: Time, skew: real) {
    k !in buckets && credit.Some? ==> limits(k).burst - Gain(limits(k), high - skew) <= credit.value
  }

  lemma ForgottenIsRefilling(
      limits: Limits, buckets: Buckets, key: Key, k: Key, high: Time, skew: real, now: Time, credit: Option<real>)
    requires Positive(limits(k)) && RefillsWhenIdle(limits(k), skew) && skew >= 0.0
    requires k in buckets ==> BucketOk(limits(k), buckets[k], high, skew)
    requires credit == CreditOf(limits, buckets, k, credit) && Refilling(limits, buckets, k, credit, high, skew)
    requires high - skew <= now
    ensures var next := After(buckets, key, limits(key), now);
            Refilling(limits, next, k, CreditOf(limits, next, k, credit), Max(high, now), skew)
  {
    var limit, top := limits(k), Max(high, now);
    GainIsMonotone(limit, high - skew, top - skew);
    if k in buckets && k !in After(buckets, key, limits(key), now) {
      var x := buckets[k];
      assert now - x.lastSeen > IDLE;
      GainIsMonotone(limit, Min(high, x.last + skew), x.last + skew);
      GainIsMonotone(limit, IDLE - 2.0 * skew, top - skew - (x.last + skew));
      GainOfDifference(limit, top - skew, x.last + skew);
    }
  }

  lemma NewBucketIsSmooth(limit: Limit, skew: real, high: Time, now: Time)
    requires Positive(limit) && high - skew <= now
    ensures limit.burst - Gain(limit, now) <= limit.burst - Gain(limit, high - skew)
  {
    GainIsMonotone(limit, high - skew, now);
  }

  lemma {:induction false} SmoothIfRefilling(
      limits: Limits, buckets: Buckets, calls: seq<Call>, k: Key, skew: real, high: Time, credit: Option<real>)
    requires forall h :: Positive(limits(h))
    requires RefillsWhenIdle(limits(k), skew) && skew >= 0.0
    requires Inv(limits, buckets, high, skew) && Ordered(calls, skew, high)
    requires credit == CreditOf(limits, buckets, k, credit) && Refilling(limits, buckets, k, credit, high, skew)
    ensures Smooth(limits, buckets, calls, k, credit)
    decreases |calls|
  {
    if calls != [] {
      var c := calls[0];
      var next := After(buckets, c.key, limits(c.key), c.now);
      AfterKeepsInv(limits, buckets, c.key, high, skew, c.now);
      NewBucketIsSmooth(limits(k), skew, high, c.now);
      ForgottenIsRefilling(limits, buckets, c.key, k, high, skew, c.now, credit);
      SmoothIfRefilling(limits, next, calls[1..], k, skew, Max(high, c.now), CreditOf(limits, next, k, credit));
    }
  }

  /**
   Over every run, in any window [a, b] of clock readings and for any key, at most
   burst + rate * (b - a) calls are admitted, even across forgetting and re-creating
   its bucket, provided an idle bucket refills before it may be forgotten.
   */
  lemma RateIsBounded(limits: Limits, calls: seq<Call>, k: Key, a: Time, b: Time, skew: real, start: Time)
    requires forall h :: Positive(limits(h))
    requires RefillsWhenIdle(limits(k), skew) && skew >= 0.0 && Ordered(calls, skew, start) && a <= b
    ensures Admissions(limits, map[], calls, k, a, b) as real <= limits(k).burst + Gain(limits(k), b - a)
  {
    SmoothIfRefilling(limits, map[], calls, k, skew, start, None);
    BoundFromSmooth(limits, calls, k, a, b);
  }

  lemma BoundFromSmooth(limits: Limits, calls: seq<Call>, k: Key, a: Time, b: Time)
    requires Positive(limits(k)) && a <= b && Smooth(limits, map[], calls, k, None)
    ensures Admissions(limits, map[], calls, k, a, b) as real <= limits(k).burst + Gain(limits(k), b - a)
  {
    WindowBound(limits, map[], calls, k, a, b, None);
    GainOfDifference(limits(k), b, a);
    GainIsMonotone(limits(k), a, b);
  }

  // --- Buckets that are never forgotten ---

  /** The bucket of `k` is never forgotten. */
  predicate Remembered(limits: Limits, buckets: Buckets, calls: seq<Call>, k: Key)
    decreases |calls|
  {
    || calls == []
    || var next := After(buckets, calls[0].key, limits(calls[0].key), calls[0].now);
       (k in buckets ==> k in next) && Remembered(limits, next, calls[1..], k)
  }

  lemma {:induction false} SmoothIfRemembered(limits: Limits, buckets: Buckets, calls: seq<Call>, k: Key)
    requires Remembered(limits, buckets, calls, k)
    ensures Smooth(limits, buckets, calls, k, CreditOf(limits, buckets, k, None))
    decreases |calls|
  {
    if calls != [] {
      SmoothIfRemembered(limits, After(buckets, calls[0].key, limits(calls[0].key), calls[0].now), calls[1..], k);
    }
  }

  /** For a key whose bucket is never forgotten, the bound holds whatever the order of the readings and the burst. */
  lemma RateIsBoundedInAnyOrder(limits: Limits, calls: seq<Call>, k: Key, a: Time, b: Time)
    requires Positive(limits(k)) && Remembered(limits, map[], calls, k) && a <= b
    ensures Admissions(limits, map[], calls, k, a, b) as real <= limits(k).burst + Gain(limits(k), b - a)
  {
    SmoothIfRemembered(limits, map[], calls, k);
    BoundFromSmooth(limits, calls, k, a, b);
  }

  /** No bucket is forgotten while at most as many keys call as the table has room for. */
  lemma {:induction false} FewKeysAreRemembered(
      limits: Limits, buckets: Buckets, calls: seq<Call>, k: Key, all: set<Key>)
    requires buckets.Keys <= all && |all| <= MAX_BUCKETS && forall c | c in calls :: c.key in all
    ensures Remembered(limits, buckets, calls, k)
    decreases |calls|
  {
    if calls != [] {
      var c := calls[0];
      SubsetSize(buckets.Keys, all);
      assert c.key in all;
      if c.key !in buckets {
        assert buckets.Keys != all;
      }
      FewKeysAreRemembered(limits, After(buckets, c.key, limits(c.key), c.now), calls[1..], k, all);
    }
  }

  // ---------------------------------------------------------------------------
  // The proviso is exact
  // ---------------------------------------------------------------------------

  /** `n` calls for `k`, all at time `t`. */
  function Repeat(k: Key, t: Time, n: nat): seq<Call> {
    if n == 0 then [] else [Call(k, t)] + Repeat(k, t, n - 1)
  }

  /** One call for each of `n` consecutive keys from `first` on, all at time `t`. */
  function Fill(first: Key, n: nat, t: Time): seq<Call>
    decreases n
  {
    if n == 0 then [] else [Call(first, t)] + Fill(first + 1, n - 1, t)
  }

  lemma RunCons(limits: Limits, buckets: Buckets, c: Call, rest: seq<Call>)
    ensures Run(limits, buckets, [c] + rest) == Run(limits, After(buckets, c.key, limits(c.key), c.now), rest)
  {
    assert ([c] + rest)[1..] == rest;
  }

  lemma {:induction false} RunAppend(
      limits: Limits, buckets: Buckets, x: seq<Call>, y: seq<Call>, k: Key, a: Time, b: Time)
    ensures Run(limits, buckets, x + y) == Run(limits, Run(limits, buckets, x), y)
    ensures Admissions(limits, buckets, x + y, k, a, b)
            == Admissions(limits, buckets, x, k, a, b) + Admissions(limits, Run(limits, buckets, x), y, k, a, b)
    decreases |x|
  {
    if x == [] {
      assert x + y == y;
    } else {
      assert (x + y)[1..] == x[1..] + y;
      RunAppend(limits, After(buckets, x[0].key, limits(x[0].key), x[0].now), x[1..], y, k, a, b);
    }
  }

  lemma {:induction false} OrderedAppend(x: seq<Call>, y: seq<Call>, skew: real, high: Time)
    requires Ordered(x, skew, high) && Ordered(y, skew, Highest(x, high))
    ensures Ordered(x + y, skew, high) && Highest(x + y, high) == Highest(y, Highest(x, high))
    decreases |x|
  {
    if x == [] {
      assert x + y == y;
    } else {
      assert (x + y)[1..] == x[1..] + y;
      OrderedAppend(x[1..], y, skew, Max(high, x[0].now));
    }
  }

  /** Calls that all read the same time are in order, once the first is. */
  lemma {:induction false} SameTimeIsOrdered(calls: seq<Call>, t: Time, skew: real, high: Time)
    requires skew >= 0.0 && high - skew <= t && forall c | c in calls :: c.now == t
    ensures Ordered(calls, skew, high) && Highest(calls, high) == if calls == [] then high else Max(high, t)
    decreases |calls|
  {
    if calls != [] {
      SameTimeIsOrdered(calls[1..], t, skew, Max(high, t));
    }
  }

  lemma {:induction false} RepeatShape(k: Key, t: Time, n: nat)
    ensures |Repeat(k, t, n)| == n && forall c | c in Repeat(k, t, n) :: c == Call(k, t)
  {
    if n > 0 {
      RepeatShape(k, t, n - 1);
    }
  }

  lemma {:induction false} FillShape(first: Key, n: nat, t: Time)
    ensures |Fill(first, n, t)| == n && forall c | c in Fill(first, n, t) :: c.key >= first && c.now == t
    decreases n
  {
    if n > 0 {
      FillShape(first + 1, n - 1, t);
    }
  }

  /** A bucket with `n` whole tokens admits the next `n` calls at the same instant. */
  lemma {:induction false} DrainAdmits(limits: Limits, buckets: Buckets, k: Key, t: Time, n: nat, a: Time, b: Time)
    requires Positive(limits(k)) && a <= t <= b
    requires k in buckets || |buckets| < MAX_BUCKETS
    requires Refilled(buckets, k, limits(k), t) >= n as real
    ensures Admissions(limits, buckets, Repeat(k, t, n), k, a, b) == n
    ensures n > 0 ==>
              var end := Run(limits, buckets, Repeat(k, t, n));
              end.Keys == buckets.Keys + {k} && forall h | h in end && h != k :: end[h] == buckets[h]
    decreases n
  {
    if n > 0 {
      var c, rest := Call(k, t), Repeat(k, t, n - 1);
      var next := After(buckets, k, limits(k), t);
      SpendOne(limits(k), buckets, k, t, n);
      OwnCallAddsKey(limits(k), buckets, k, t);
      DrainAdmits(limits, next, k, t, n - 1, a, b);
      RunCons(limits, buckets, c, rest);
      AdmittedCallCounts(limits, buckets, c, rest, a, b);
    }
  }

  lemma OwnCallAddsKey(limit: Limit, buckets: Buckets, k: Key, t: Time)
    requires k in buckets || |buckets| < MAX_BUCKETS
    ensures var next := After(buckets, k, limit, t);
            next.Keys == buckets.Keys + {k} && forall h | h in next && h != k :: next[h] == buckets[h]
  {
    assert After(buckets, k, limit, t).Keys == buckets.Keys + {k};
  }

  lemma AdmittedCallCounts(limits: Limits, buckets: Buckets, c: Call, rest: seq<Call>, a: Time, b: Time)
    requires a <= c.now <= b && Admits(buckets, c.key, limits(c.key), c.now)
    ensures Admissions(limits, buckets, [c] + rest, c.key, a, b)
            == 1 + Admissions(limits, After(buckets, c.key, limits(c.key), c.now), rest, c.key, a, b)
  {
    assert ([c] + rest)[1..] == rest;
  }

  lemma SpendOne(limit: Limit, buckets: Buckets, k: Key, t: Time, n: nat)
    requires Positive(limit) && n > 0 && (k in buckets || |buckets| < MAX_BUCKETS)
    requires Refilled(buckets, k, limit, t) >= n as real
    ensures Admits(buckets, k, limit, t)
    ensures Refilled(After(buckets, k, limit, t), k, limit, t) >= (n - 1) as real
  {
    assert Gain(limit, 0.0) == 0.0;
  }

  predicate SeenAt(buckets: Buckets, bound: Key, t: Time) {
    forall h | h in buckets :: h < bound && buckets[h].lastSeen == t
  }

  lemma NewKeyEnters(buckets: Buckets, k: Key, limit: Limit, t: Time)
    requires SeenAt(buckets, k, t) && |buckets| < MAX_BUCKETS
    ensures var next := After(buckets, k, limit, t);
            |next| == |buckets| + 1 && SeenAt(next, k + 1, t)
  {
    var next := After(buckets, k, limit, t);
    assert next.Keys == buckets.Keys + {k};
  }

  /** New keys fill the table one by one, each seen at time `t`. */
  lemma {:induction false} FillAddsKeys(limits: Limits, buckets: Buckets, first: Key, n: nat, t: Time)
    requires |buckets| + n <= MAX_BUCKETS && SeenAt(buckets, first, t)
    ensures var end := Run(limits, buckets, Fill(first, n, t));
            |end| == |buckets| + n && SeenAt(end, first + n, t)
    decreases n
  {
    if n > 0 {
      var next := After(buckets, first, limits(first), t);
      NewKeyEnters(buckets, first, limits(first), t);
      FillAddsKeys(limits, next, first + 1, n - 1, t);
      RunCons(limits, buckets, Call(first, t), Fill(first + 1, n - 1, t));
    }
  }

  /** A new key that finds the table full of idle buckets forgets them all. */
  lemma NewKeyForgetsAll(limits: Limits, buckets: Buckets, k: Key, now: Time)
    requires k !in buckets && |buckets| == MAX_BUCKETS
    requires forall h | h in buckets :: now - buckets[h].lastSeen > IDLE
    ensures After(buckets, k, limits(k), now).Keys == {k}
  {
    assert Active(buckets, now) == map[];
  }

  /** The lag that the counterexample uses: all of the skew, up to half the idle time. */
  function Lag(skew: real): real {
    Min(skew, IDLE / 2.0)
  }

  /** A span longer than what is left of the idle time, in which `limit` does not refill. */
  function TooShort(limit: Limit, skew: real): real
    requires limit.rate > 0.0
  {
    (IDLE - 2.0 * Lag(skew) + limit.burst / limit.rate) / 2.0
  }

  lemma TooShortIsTooShort(limit: Limit, skew: real)
    requires Positive(limit) && skew >= 0.0 && !RefillsWhenIdle(limit, skew)
    ensures TooShort(limit, skew) > IDLE - 2.0 * Lag(skew) >= 0.0
    ensures Gain(limit, TooShort(limit, skew)) < limit.burst
  {
    var left, span := IDLE - 2.0 * Lag(skew), limit.burst / limit.rate;
    assert span * limit.rate == limit.burst;
    assert Gain(limit, 0.0) == 0.0;
    assert Gain(limit, left) < limit.burst;
    assert span > left by {
      if span <= left {
        GainIsMonotone(limit, span, left);
      }
    }
    assert Gain(limit, TooShort(limit, skew)) == (Gain(limit, left) + Gain(limit, span)) / 2.0;
  }

  /** Spend the burst, touch the bucket with a reading that lags behind, and fill the table. */
  function Before(n: nat, lag: real, others: nat): seq<Call> {
    Repeat(0, lag, n) + ([Call(0, 0.0)] + Fill(1, others, 0.0))
  }

  /** After the idle time, let a new key clear the table, and spend the burst again with lagging readings. */
  function Afterwards(n: nat, lag: real, t: Time): seq<Call> {
    [Call(MAX_BUCKETS, t)] + Repeat(0, t - lag, n)
  }

  lemma BeforeFills(limits: Limits, n: nat, lag: real, others: nat, b: Time)
    requires others + 1 == MAX_BUCKETS && Positive(limits(0)) && limits(0).burst == n as real && 0.0 <= lag <= b
    ensures var full := Run(limits, map[], Before(n, lag, others));
            |full| == MAX_BUCKETS && SeenAt(full, MAX_BUCKETS, 0.0)
    ensures Admissions(limits, map[], Before(n, lag, others), 0, lag, b) >= n
  {
    var first, rest := Repeat(0, lag, n), Fill(1, others, 0.0);
    DrainAdmits(limits, map[], 0, lag, n, lag, b);
    var spent := Run(limits, map[], first);
    assert spent.Keys == {0};
    var touched := After(spent, 0, limits(0), 0.0);
    assert touched.Keys == {0} && touched[0].lastSeen == 0.0;
    assert |touched| == |touched.Keys|;
    FillAddsKeys(limits, touched, 1, others, 0.0);
    RunCons(limits, spent, Call(0, 0.0), rest);
    RunAppend(limits, map[], first, [Call(0, 0.0)] + rest, 0, lag, b);
  }

  lemma AfterwardsAdmits(limits: Limits, buckets: Buckets, n: nat, lag: real, t: Time)
    requires Positive(limits(0)) && limits(0).burst == n as real && t > IDLE && lag <= t - lag
    requires |buckets| == MAX_BUCKETS && SeenAt(buckets, MAX_BUCKETS, 0.0)
    ensures Admissions(limits, buckets, Afterwards(n, lag, t), 0, lag, t - lag) == n
  {
    ClearingLeavesRoom(limits, buckets, t);
    BurstAfterClearing(limits, buckets, Call(MAX_BUCKETS, t), n, lag, t - lag);
  }

  lemma BurstAfterClearing(limits: Limits, buckets: Buckets, clearing: Call, n: nat, a: Time, b: Time)
    requires Positive(limits(0)) && limits(0).burst == n as real && a <= b && clearing.key != 0
    requires var cleared := After(buckets, clearing.key, limits(clearing.key), clearing.now);
             0 !in cleared && |cleared| < MAX_BUCKETS
    ensures Admissions(limits, buckets, [clearing] + Repeat(0, b, n), 0, a, b) == n
  {
    FreshBurst(limits, After(buckets, clearing.key, limits(clearing.key), clearing.now), n, b, a);
    OtherCallDoesNotCount(limits, buckets, clearing, Repeat(0, b, n), 0, a, b);
  }

  lemma ClearingLeavesRoom(limits: Limits, buckets: Buckets, t: Time)
    requires t > IDLE && |buckets| == MAX_BUCKETS && SeenAt(buckets, MAX_BUCKETS, 0.0)
    ensures var cleared := After(buckets, MAX_BUCKETS, limits(MAX_BUCKETS), t);
            0 !in cleared && |cleared| < MAX_BUCKETS
  {
    NewKeyForgetsAll(limits, buckets, MAX_BUCKETS, t);
    assert |After(buckets, MAX_BUCKETS, limits(MAX_BUCKETS), t).Keys| == 1;
  }

  lemma FreshBurst(limits: Limits, buckets: Buckets, n: nat, t: Time, a: Time)
    requires Positive(limits(0)) && limits(0).burst == n as real && a <= t
    requires 0 !in buckets && |buckets| < MAX_BUCKETS
    ensures Admissions(limits, buckets, Repeat(0, t, n), 0, a, t) == n
  {
    DrainAdmits(limits, buckets, 0, t, n, a, t);
  }

  lemma OtherCallDoesNotCount(limits: Limits, buckets: Buckets, c: Call, rest: seq<Call>, k: Key, a: Time, b: Time)
    requires c.key != k
    ensures Admissions(limits, buckets, [c] + rest, k, a, b)
            == Admissions(limits, After(buckets, c.key, limits(c.key), c.now), rest, k, a, b)
  {
    assert ([c] + rest)[1..] == rest;
  }

  lemma FloodIsOrdered(n: nat, lag: real, others: nat, t: Time, skew: real)
    requires n > 0 && 0.0 <= lag <= skew && lag <= t
    ensures Ordered(Before(n, lag, others) + Afterwards(n, lag, t), skew, 0.0)
  {
    var first, rest, last := Repeat(0, lag, n), [Call(0, 0.0)] + Fill(1, others, 0.0), Repeat(0, t - lag, n);
    RepeatShape(0, lag, n);
    RepeatShape(0, t - lag, n);
    FillShape(1, others, 0.0);
    SameTimeIsOrdered(first, lag, skew, 0.0);
    SameTimeIsOrdered(rest, 0.0, skew, lag);
    OrderedAppend(first, rest, skew, 0.0);
    SameTimeIsOrdered([Call(MAX_BUCKETS, t)], t, skew, lag);
    SameTimeIsOrdered(last, t - lag, skew, t);
    OrderedAppend([Call(MAX_BUCKETS, t)], last, skew, lag);
    OrderedAppend(Before(n, lag, others), Afterwards(n, lag, t), skew, 0.0);
  }

  lemma AdmissionsAddUp(limits: Limits, x: seq<Call>, y: seq<Call>, a: Time, b: Time, n: nat)
    requires Admissions(limits, map[], x, 0, a, b) >= n && Admissions(limits, Run(limits, map[], x), y, 0, a, b) == n
    ensures Admissions(limits, map[], x + y, 0, a, b) >= 2 * n
  {
    RunAppend(limits, map[], x, y, 0, a, b);
  }

  lemma Flood(limits: Limits, n: nat, lag: real, others: nat, t: Time, b: Time, skew: real) returns (calls: seq<Call>)
    requires others + 1 == MAX_BUCKETS
    requires Positive(limits(0)) && limits(0).burst == n as real && 0.0 <= lag <= skew && t > IDLE
    requires b == t - lag && lag <= b
    ensures Admissions(limits, map[], calls, 0, lag, b) >= 2 * n && Ordered(calls, skew, 0.0)
  {
    var x, y := Before(n, lag, others), Afterwards(n, lag, t);
    BeforeFills(limits, n, lag, others, b);
    var full := Run(limits, map[], x);
    AfterwardsAdmits(limits, full, n, lag, t);
    AdmissionsAddUp(limits, x, y, lag, b, n);
    FloodIsOrdered(n, lag, others, t, skew);
    calls := x + y;
  }

  /**
   The proviso is exact: for every limit and skew that do not meet it there is a run and a
   window that admit more than burst + rate * (b - a) calls.
   */
  lemma WithoutRefillTheBoundFails(limit: Limit, n: nat, skew: real) returns (calls: seq<Call>, a: Time, b: Time)
    requires Positive(limit) && skew >= 0.0 && !RefillsWhenIdle(limit, skew) && limit.burst == n as real
    ensures a <= b && Ordered(calls, skew, 0.0)
    ensures AdmittedUnder(limit, calls, 0, a, b) as real > limit.burst + Gain(limit, b - a)
  {
    var limits: Limits := _ => limit;
    var lag, span := Lag(skew), TooShort(limit, skew);
    TooShortIsTooShort(limit, skew);
    calls := Flood(limits, n, lag, MAX_BUCKETS - 1, span + 2.0 * lag, span + lag, skew);
    a, b := lag, span + lag;
    assert b - a == span;
  }

  /** Admissions from an empty table when every domain has the same limit. */
  function AdmittedUnder(limit: Limit, calls: seq<Call>, k: Key, a: Time, b: Time): nat {
    Admissions(_ => limit, map[], calls, k, a, b)
  }

  ghost predicate BoundHolds(limit: Limit, skew: real) {
    forall calls: seq<Call>, k: Key, a: Time, b: Time | Ordered(calls, skew, 0.0) && a <= b ::
      AdmittedUnder(limit, calls, k, a, b) as real <= limit.burst + Gain(limit, b - a)
  }

  /**
   For a compiled limit and any clock skew, the rate bound holds in every run if and only if the
   idle time, less twice the skew, refills the burst.
   */
  lemma RateBoundIffRefills(limit: Limit, n: nat, skew: real)
    requires Positive(limit) && limit.burst == n as real && skew >= 0.0
    ensures BoundHolds(limit, skew) <==> RefillsWhenIdle(limit, skew)
  {
    if RefillsWhenIdle(limit, skew) {
      forall calls: seq<Call>, k: Key, a: Time, b: Time | Ordered(calls, skew, 0.0) && a <= b
        ensures AdmittedUnder(limit, calls, k, a, b) as real <= limit.burst + Gain(limit, b - a)
      {
        RateIsBounded(_ => limit, calls, k, a, b, skew, 0.0);
      }
    } else {
      var calls, a, b := WithoutRefillTheBoundFails(limit, n, skew);
    }
  }
}
