/**
 * The vendored rate limiter of the `limiter` package: a token bucket of
 * `tokensPerInterval` tokens with no parent, plus a cap on how many tokens
 * may be removed within one interval.
 *
 * The limiter's clock (`getMilliseconds`) is the argument `now`, the
 * bucket's wall clock the argument `wallNow`, both in milliseconds. An
 * acquisition is one atomic step: the deferred increment of
 * `tokensThisInterval` happens in the same call that removes the tokens.
 */
module RateLimiters {
  import opened Wrappers
  import opened TokenBuckets

  /** Whether the interval that began at `start` is over at `now` (or the clock went back). */
  predicate IntervalExpired(start: int, interval: real, now: int)
  {
    now < start || (now - start) as real >= interval
  }

  /** How long `removeTokens` waits for the current interval to end: `ceil(start + interval - now)`. */
  function IntervalWait(start: int, interval: real, now: int): (ms: int)
  {
    Ceil(start as real + interval - now as real)
  }

  /**
   * Inside the interval the wait is positive, and once it has passed the
   * interval is over.
   */
  lemma IntervalWaitEndsInterval(start: int, interval: real, now: int)
    requires !IntervalExpired(start, interval, now)
    ensures IntervalWait(start, interval, now) > 0
    ensures IntervalExpired(start, interval, now + IntervalWait(start, interval, now))
  {
  }

  /**
   * What a removal changes in a limiter: the interval's start and the tokens
   * counted in it, and the bucket's content and time of its last refill.
   */
  datatype LimiterState = LimiterState(intervalStart: int, spent: real, content: real, lastDrip: int)

  class RateLimiter {
    const bucket: TokenBucket
    var curIntervalStart: int
    var tokensThisInterval: real
    const fireImmediately: bool

    ghost predicate Valid()
      reads this, bucket
    {
      && bucket.Valid()
      && bucket.bucketSize == bucket.tokensPerInterval
    }

    /** What has been spent in the interval that is current at `now`: nothing if a new one starts. */
    function SpentAt(now: int): real
      reads this, bucket
    {
      if IntervalExpired(curIntervalStart, bucket.interval, now) then 0.0 else tokensThisInterval
    }

    /** The tokens still allowed in the interval that is current at `now`. */
    function AllowanceAt(now: int): real
      reads this, bucket
    {
      bucket.tokensPerInterval - SpentAt(now)
    }

    function State(): LimiterState
      reads this, bucket
    {
      LimiterState(curIntervalStart, tokensThisInterval, bucket.content, bucket.lastDrip)
    }

    /** Whether a request passes the size check and the interval's allowance and goes to the bucket. */
    ghost predicate ReachesBucket(count: real, now: int)
      reads this, bucket
    {
      count <= bucket.bucketSize && count <= AllowanceAt(now)
    }

    /**
     * The answer `removeTokens(count)` gives: a refusal exactly for a request
     * beyond the bucket; `-1` at once exactly when the allowance is exceeded
     * and `fireImmediately` is set; a grant exactly when the request reaches
     * the bucket and the bucket grants it, and then it fits in the
     * interval's allowance; every wait is positive.
     */
    ghost function Outcome(count: real, now: int, wallNow: int): (o: Removal)
      reads this, bucket
      requires Valid()
      ensures o.Refused? <==> count > bucket.bucketSize
      ensures o.Refused? ==> o == Refused(count, bucket.bucketSize)
      ensures o.Limited? <==> fireImmediately && count <= bucket.bucketSize && count > AllowanceAt(now)
      ensures o.Granted? <==> ReachesBucket(count, now) && bucket.Outcome(count, wallNow).Granted?
      ensures o.Granted? ==> SpentAt(now) + count <= bucket.tokensPerInterval
      ensures o.Wait? ==> o.ms > 0
    {
      if count > bucket.bucketSize then Refused(count, bucket.bucketSize)
      else if count > AllowanceAt(now) then
        if fireImmediately then Limited
        else
          var start := if IntervalExpired(curIntervalStart, bucket.interval, now) then now else curIntervalStart;
          IntervalWaitEndsInterval(start, bucket.interval, now);
          Wait(IntervalWait(start, bucket.interval, now))
      else bucket.Outcome(count, wallNow)
    }

    /**
     * The limiter after the bucket step `tokenBucket.removeTokens(count,
     * afterTokensRemoved)`, taken with the interval starting at `start` and
     * `spent` tokens counted in it: a grant adds `count` to the interval and
     * leaves the bucket with what it reports as remaining; a wait leaves the
     * bucket refilled; an unlimited bucket or a refusal leaves it as it is.
     */
    ghost function BucketStep(start: int, spent: real, count: real, wallNow: int): (s: LimiterState)
      reads this, bucket
      requires Valid()
      ensures s.intervalStart == start
      ensures s.spent == spent + (if bucket.Outcome(count, wallNow).Granted? then count else 0.0)
      ensures bucket.bucketSize != 0.0 && bucket.Outcome(count, wallNow).Granted? ==>
        s.content == bucket.Outcome(count, wallNow).remaining
      ensures bucket.Outcome(count, wallNow).Wait? ==> s.content == bucket.Refilled(wallNow)
      ensures bucket.bucketSize == 0.0 || bucket.Outcome(count, wallNow).Refused? ==>
        s.content == bucket.content && s.lastDrip == bucket.lastDrip
    {
      var b := bucket;
      var drip := if b.tokensPerInterval == 0.0 then b.lastDrip else wallNow;
      if b.bucketSize == 0.0 then LimiterState(start, spent + count, b.content, b.lastDrip)
      else if count > b.bucketSize then LimiterState(start, spent, b.content, b.lastDrip)
      else
        var c := b.Refilled(wallNow);
        if count <= c then LimiterState(start, spent + count, c - count, drip)
        else LimiterState(start, spent, c, drip)
    }

    /**
     * The limiter after `removeTokens(count)` or `tryRemoveTokens(count)`: a
     * refusal changes nothing; otherwise the interval is current at `now`,
     * exactly the granted tokens are added to what it has spent, and the
     * bucket changes only when the request reached it.
     */
    ghost function After(count: real, now: int, wallNow: int): (s: LimiterState)
      reads this, bucket
      requires Valid()
      ensures count > bucket.bucketSize ==> s == State()
      ensures count <= bucket.bucketSize ==>
        && !IntervalExpired(s.intervalStart, bucket.interval, now)
        && s.spent == SpentAt(now) + (if Outcome(count, now, wallNow).Granted? then count else 0.0)
      ensures !ReachesBucket(count, now) ==> s.content == bucket.content && s.lastDrip == bucket.lastDrip
      ensures ReachesBucket(count, now) ==> s == BucketStep(s.intervalStart, SpentAt(now), count, wallNow)
    {
      if count > bucket.bucketSize then State()
      else
        var start := if IntervalExpired(curIntervalStart, bucket.interval, now) then now else curIntervalStart;
        if count > AllowanceAt(now) then LimiterState(start, SpentAt(now), bucket.content, bucket.lastDrip)
        else BucketStep(start, SpentAt(now), count, wallNow)
    }

    /**
     * `new RateLimiter(tokensPerInterval, interval, fireImmediately)` with
     * the interval already parsed: the bucket starts full and nothing has
     * been spent in the first interval, which starts now.
     */
    constructor (tokensPerInterval: real, interval: real, fireImmediately: bool, now: int, wallNow: int)
      requires tokensPerInterval >= 0.0 && interval > 0.0
      ensures Valid() && fresh(bucket)
      ensures bucket.bucketSize == tokensPerInterval && bucket.tokensPerInterval == tokensPerInterval
      ensures bucket.interval == interval && bucket.lastDrip == wallNow
      ensures bucket.content == tokensPerInterval
      ensures curIntervalStart == now && tokensThisInterval == 0.0
      ensures this.fireImmediately == fireImmediately
    {
      var b := new TokenBucket(tokensPerInterval, tokensPerInterval, interval, wallNow);
      b.content := tokensPerInterval;
      bucket := b;
      curIntervalStart := now;
      tokensThisInterval := 0.0;
      this.fireImmediately := fireImmediately;
    }

    /** Starts a new interval at `now` when the current one is over. */
    method AdvanceInterval(now: int)
      requires Valid()
      modifies this
      ensures Valid()
      ensures IntervalExpired(old(curIntervalStart), bucket.interval, now) ==>
        curIntervalStart == now && tokensThisInterval == 0.0
      ensures !IntervalExpired(old(curIntervalStart), bucket.interval, now) ==>
        curIntervalStart == old(curIntervalStart) && tokensThisInterval == old(tokensThisInterval)
      ensures !IntervalExpired(curIntervalStart, bucket.interval, now)
    {
      if IntervalExpired(curIntervalStart, bucket.interval, now) {
        curIntervalStart := now;
        tokensThisInterval := 0.0;
      }
    }

    /**
     * `tryRemoveTokens(count)`: a request larger than the bucket fails
     * outright; otherwise the interval advances if it is over, a request
     * beyond the interval's allowance fails without touching the bucket, and
     * the rest is the bucket's answer, counted against the interval when the
     * tokens were removed.
     */
    method TryRemoveTokens(count: real, now: int, wallNow: int) returns (removed: bool)
      requires Valid()
      modifies this, bucket
      ensures Valid()
      ensures count > bucket.bucketSize ==> !removed && unchanged(this) && unchanged(bucket)
      ensures count <= bucket.bucketSize ==>
        && !IntervalExpired(curIntervalStart, bucket.interval, now)
        && curIntervalStart == (if IntervalExpired(old(curIntervalStart), bucket.interval, now) then now else old(curIntervalStart))
        && tokensThisInterval == old(SpentAt(now)) + (if removed then count else 0.0)
      ensures count > old(AllowanceAt(now)) ==> !removed && unchanged(bucket)
      ensures removed ==> count <= old(AllowanceAt(now)) && count <= old(bucket.Refilled(wallNow))
      ensures removed ==> tokensThisInterval <= bucket.tokensPerInterval
      ensures removed <==> old(Outcome(count, now, wallNow)).Granted?
      ensures State() == old(After(count, now, wallNow))
    {
      if count > bucket.bucketSize {
        return false;
      }
      AdvanceInterval(now);
      if count > bucket.tokensPerInterval - tokensThisInterval {
        return false;
      }
      removed := bucket.TryRemoveTokens(count, wallNow);
      if removed {
        tokensThisInterval := tokensThisInterval + count;
      }
    }

    /**
     * The bucket removal with the limiter's continuation
     * (`tokenBucket.removeTokens(count, afterTokensRemoved)`): tokens the
     * bucket grants are counted against the current interval; a wait or an
     * error is passed on. The retry after either kind of wait is this same
     * step, without a new look at the interval.
     */
    method RemoveFromBucket(count: real, wallNow: int) returns (r: Removal)
      requires Valid()
      modifies this, bucket
      ensures Valid()
      ensures bucket.bucketSize == 0.0 ==> r == Granted(count)
      ensures bucket.bucketSize != 0.0 && count > bucket.bucketSize ==> r == Refused(count, bucket.bucketSize)
      ensures bucket.bucketSize != 0.0 && count <= bucket.bucketSize ==>
        && (r.Granted? <==> count <= old(bucket.Refilled(wallNow)))
        && (!r.Granted? ==> r == Wait(WaitTime(count, old(bucket.Refilled(wallNow)), bucket.tokensPerInterval, bucket.interval)))
      ensures r.Wait? ==> r.ms > 0
      ensures r.Granted? ==> tokensThisInterval == old(tokensThisInterval) + count
      ensures !r.Granted? ==> tokensThisInterval == old(tokensThisInterval)
      ensures curIntervalStart == old(curIntervalStart)
      ensures r == old(bucket.Outcome(count, wallNow))
      ensures State() == old(BucketStep(curIntervalStart, tokensThisInterval, count, wallNow))
      ensures r.Granted? && bucket.bucketSize != 0.0 ==> r == Granted(bucket.content)
    {
      ghost var refilled := bucket.Refilled(wallNow);
      r := bucket.RemoveTokens(count, wallNow);
      if r.Wait? {
        WaitSuffices(count, refilled, bucket.tokensPerInterval, bucket.interval, bucket.bucketSize);
      }
      if r.Granted? {
        tokensThisInterval := tokensThisInterval + count;
      }
    }

    /**
     * `removeTokens(count, callback)`: a request larger than the bucket is
     * refused with an error; otherwise the interval advances if it is over.
     * A request beyond the interval's allowance is answered at once with
     * `-1` remaining when `fireImmediately` is set, and otherwise waits until
     * the interval ends. Any other request goes to the bucket.
     */
    method RemoveTokens(count: real, now: int, wallNow: int) returns (r: Removal)
      requires Valid()
      modifies this, bucket
      ensures Valid()
      ensures count > bucket.bucketSize ==>
        r == Refused(count, bucket.bucketSize) && unchanged(this) && unchanged(bucket)
      ensures count <= bucket.bucketSize ==>
        && !IntervalExpired(curIntervalStart, bucket.interval, now)
        && curIntervalStart == (if IntervalExpired(old(curIntervalStart), bucket.interval, now) then now else old(curIntervalStart))
        && tokensThisInterval == old(SpentAt(now)) + (if r.Granted? then count else 0.0)
      ensures count <= bucket.bucketSize && count > old(AllowanceAt(now)) ==>
        && unchanged(bucket)
        && r == (if fireImmediately then Limited else Wait(IntervalWait(curIntervalStart, bucket.interval, now)))
        && (r.Wait? ==> r.ms > 0)
      ensures count <= bucket.bucketSize && count <= old(AllowanceAt(now)) ==>
        && (r.Granted? <==> bucket.bucketSize == 0.0 || count <= old(bucket.Refilled(wallNow)))
        && (r.Wait? <==> bucket.bucketSize != 0.0 && count > old(bucket.Refilled(wallNow)))
      ensures r.Granted? ==> tokensThisInterval <= bucket.tokensPerInterval
      ensures r.Wait? ==> r.ms > 0
      ensures r == old(Outcome(count, now, wallNow))
      ensures State() == old(After(count, now, wallNow))
      ensures r.Granted? && bucket.bucketSize != 0.0 ==> r == Granted(bucket.content)
    {
      if count > bucket.bucketSize {
        return Refused(count, bucket.bucketSize);
      }
      AdvanceInterval(now);
      if count > bucket.tokensPerInterval - tokensThisInterval {
        if fireImmediately {
          return Limited;
        }
        IntervalWaitEndsInterval(curIntervalStart, bucket.interval, now);
        return Wait(IntervalWait(curIntervalStart, bucket.interval, now));
      }
      r := RemoveFromBucket(count, wallNow);
    }

    /** `getTokensRemaining()`: refills the bucket and reports its content. */
    method GetTokensRemaining(wallNow: int) returns (n: real)
      requires Valid()
      modifies bucket
      ensures Valid()
      ensures n == bucket.content == old(bucket.Refilled(wallNow))
      ensures 0.0 <= n <= bucket.bucketSize
    {
      bucket.Drip(wallNow);
      n := bucket.content;
    }
  }

  /** `new RateLimiter(...)` with an interval still to parse: an unknown unit name throws. */
  method NewRateLimiter(tokensPerInterval: real, interval: IntervalArg, fireImmediately: bool, now: int, wallNow: int)
    returns (r: Result<RateLimiter, IntervalError>)
    requires tokensPerInterval >= 0.0
    requires interval.Millis? ==> interval.ms > 0.0
    ensures r.Failure? <==> ParseInterval(interval).Failure?
    ensures r.Success? ==>
      && fresh(r.value) && r.value.Valid()
      && r.value.bucket.interval == ParseInterval(interval).value
      && r.value.bucket.tokensPerInterval == tokensPerInterval
      && r.value.bucket.content == tokensPerInterval
      && r.value.tokensThisInterval == 0.0 && r.value.curIntervalStart == now
  {
    var ms := ParseInterval(interval);
    if ms.Failure? {
      return Failure(ms.error);
    }
    var limiter := new RateLimiter(tokensPerInterval, ms.value, fireImmediately, now, wallNow);
    return Success(limiter);
  }
}
