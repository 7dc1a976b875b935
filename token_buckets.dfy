/**
 * The vendored token bucket of the `limiter` package: a bucket of at most
 * `bucketSize` tokens that refills at `tokensPerInterval` tokens per
 * `interval` milliseconds, from which callers remove tokens.
 *
 * The wall clock (`+new Date()`) is an explicit `now` argument in
 * milliseconds. A removal that has to wait (`setTimeout`) or report later
 * (`process.nextTick`) returns its outcome as a `Removal` value; the deferred
 * retry is the caller calling again.
 */
module TokenBuckets {
  import opened Wrappers

  // ---------------------------------------------------------------------------
  // Interval lengths

  /** The `interval` argument: a unit name or a number of milliseconds. */
  datatype IntervalArg = Named(name: string) | Millis(ms: real)

  datatype IntervalError = InvalidInterval(name: string)

  /** The unit names the constructor accepts, with their lengths in milliseconds. */
  const Second: real := 1000.0
  const Minute: real := 1000.0 * 60.0
  const Hour: real := 1000.0 * 60.0 * 60.0
  const Day: real := 1000.0 * 60.0 * 60.0 * 24.0

  /**
   * The constructor's `switch` on a string interval: a short or long unit
   * name gives its length, any other string is refused, a number passes
   * through unchanged.
   */
  function ParseInterval(arg: IntervalArg): (r: Result<real, IntervalError>)
    ensures arg.Millis? ==> r == Success(arg.ms)
    ensures arg.Named? && (arg.name == "sec" || arg.name == "second") ==> r == Success(1000.0)
    ensures arg.Named? && (arg.name == "min" || arg.name == "minute") ==> r == Success(60000.0)
    ensures arg.Named? && (arg.name == "hr" || arg.name == "hour") ==> r == Success(3600000.0)
    ensures arg.Named? && arg.name == "day" ==> r == Success(86400000.0)
    ensures r.Failure? <==> arg.Named? && arg.name !in {"sec", "second", "min", "minute", "hr", "hour", "day"}
    ensures r.Failure? ==> r.error == InvalidInterval(arg.name)
  {
    match arg
    case Millis(ms) => Success(ms)
    case Named(name) =>
      if name == "sec" || name == "second" then Success(Second)
      else if name == "min" || name == "minute" then Success(Minute)
      else if name == "hr" || name == "hour" then Success(Hour)
      else if name == "day" then Success(Day)
      else Failure(InvalidInterval(name))
  }

  /** Every accepted interval string gives a length of at least one second. */
  lemma NamedIntervalsPositive(name: string)
    requires ParseInterval(Named(name)).Success?
    ensures ParseInterval(Named(name)).value >= Second > 0.0
  {
  }

  // ---------------------------------------------------------------------------
  // Refill and waiting, as arithmetic

  /** `Math.ceil`: the least integer not below `x`. */
  function Ceil(x: real): (n: int)
    ensures x <= n as real < x + 1.0
  {
    var f := x.Floor;
    if f as real == x then f else f + 1
  }

  /**
   * The content after a refill of `elapsed` milliseconds: `elapsed` times the
   * rate `tokensPerInterval / interval` is added, and the sum is capped at
   * `bucketSize`.
   */
  function DripContent(content: real, elapsed: real, tokensPerInterval: real, interval: real, bucketSize: real): (c: real)
    requires interval > 0.0
    ensures c <= bucketSize
    ensures c <= content + elapsed * (tokensPerInterval / interval)
  {
    MinReal(content + elapsed * (tokensPerInterval / interval), bucketSize)
  }

  /** A refill never overfills and, from a content within the cap, never loses tokens. */
  lemma DripBounds(content: real, elapsed: real, tokensPerInterval: real, interval: real, bucketSize: real)
    requires interval > 0.0 && elapsed >= 0.0 && tokensPerInterval >= 0.0
    ensures DripContent(content, elapsed, tokensPerInterval, interval, bucketSize) <= bucketSize
    ensures content <= bucketSize ==> DripContent(content, elapsed, tokensPerInterval, interval, bucketSize) >= content
  {
    RealMulNonNegative(elapsed, tokensPerInterval / interval);
  }

  lemma RealMulNonNegative(a: real, b: real)
    requires a >= 0.0 && b >= 0.0
    ensures a * b >= 0.0
  {
  }

  /**
   * Refilling in two steps is refilling once over the whole time: how often
   * `drip` runs does not change how many tokens arrive.
   */
  lemma DripTwice(content: real, e1: real, e2: real, tokensPerInterval: real, interval: real, bucketSize: real)
    requires interval > 0.0 && e1 >= 0.0 && e2 >= 0.0 && tokensPerInterval >= 0.0
    ensures DripContent(DripContent(content, e1, tokensPerInterval, interval, bucketSize), e2, tokensPerInterval, interval, bucketSize)
         == DripContent(content, e1 + e2, tokensPerInterval, interval, bucketSize)
  {
    var rate := tokensPerInterval / interval;
    RealMulNonNegative(e2, rate);
    assert (e1 + e2) * rate == e1 * rate + e2 * rate;
  }

  /**
   * How long `comeBackLater` waits before retrying: the missing tokens times
   * the milliseconds one token takes, rounded up.
   */
  function WaitTime(count: real, content: real, tokensPerInterval: real, interval: real): (ms: int)
    requires tokensPerInterval > 0.0
    ensures (count - content) * (interval / tokensPerInterval) <= ms as real
    ensures ms as real < (count - content) * (interval / tokensPerInterval) + 1.0
  {
    Ceil((count - content) * (interval / tokensPerInterval))
  }

  /**
   * The wait is positive whenever tokens are missing, and after it the
   * refill has brought the missing tokens, so a retry no longer waits (as
   * long as the request fits in the bucket).
   */
  lemma WaitSuffices(count: real, content: real, tokensPerInterval: real, interval: real, bucketSize: real)
    requires tokensPerInterval > 0.0 && interval > 0.0
    requires content < count <= bucketSize
    ensures WaitTime(count, content, tokensPerInterval, interval) > 0
    ensures DripContent(content, WaitTime(count, content, tokensPerInterval, interval) as real,
                        tokensPerInterval, interval, bucketSize) >= count
  {
    var missing := count - content;
    var perToken := interval / tokensPerInterval;
    var rate := tokensPerInterval / interval;
    var w := WaitTime(count, content, tokensPerInterval, interval) as real;
    RealMulPositive(missing, perToken);
    assert perToken * rate == 1.0;
    RealMulMonotone(missing * perToken, w, rate);
    assert missing * perToken * rate == missing;
  }

  lemma RealMulPositive(a: real, b: real)
    requires a > 0.0 && b > 0.0
    ensures a * b > 0.0
  {
  }

  lemma RealMulMonotone(a: real, b: real, c: real)
    requires a <= b && c >= 0.0
    ensures a * c <= b * c
  {
  }

  // ---------------------------------------------------------------------------
  // The bucket

  /**
   * The outcome a removal reports: granted (with what the callback receives
   * as the remaining tokens), a wait of `ms` milliseconds before the retry,
   * refused with an error, or (rate limiter only) refused at once without an
   * error, which the callback sees as `-1` remaining tokens.
   */
  datatype Removal = Granted(remaining: real) | Wait(ms: int) | Refused(requested: real, limit: real) | Limited

  class TokenBucket {
    const bucketSize: real
    const tokensPerInterval: real
    /** The interval length in milliseconds. */
    const interval: real
    var content: real
    /** The wall-clock time of the last refill, in milliseconds. */
    var lastDrip: int

    ghost predicate Valid()
      reads this
    {
      bucketSize >= 0.0 && tokensPerInterval >= 0.0 && interval > 0.0 && content >= 0.0
    }

    /** `new TokenBucket(bucketSize, tokensPerInterval, interval, null)` at time `now`, interval already parsed. */
    constructor (bucketSize: real, tokensPerInterval: real, interval: real, now: int)
      requires bucketSize >= 0.0 && tokensPerInterval >= 0.0 && interval > 0.0
      ensures Valid()
      ensures this.bucketSize == bucketSize && this.tokensPerInterval == tokensPerInterval && this.interval == interval
      ensures content == 0.0 && lastDrip == now
    {
      this.bucketSize := bucketSize;
      this.tokensPerInterval := tokensPerInterval;
      this.interval := interval;
      content := 0.0;
      lastDrip := now;
    }

    /** The content a refill at time `now` leaves: full without a rate, else the capped refill. */
    ghost function Refilled(now: int): (c: real)
      reads this
      requires Valid()
      ensures 0.0 <= c <= bucketSize
    {
      if tokensPerInterval == 0.0 then bucketSize
      else DripContent(content, Max(now - lastDrip, 0) as real, tokensPerInterval, interval, bucketSize)
    }

    /**
     * The answer `removeTokens(count)` gives at time `now`: a grant exactly
     * when the bucket is unlimited or its refilled content covers the
     * request, reporting what is left; a refusal exactly for a request
     * beyond a limited bucket; otherwise a wait after which the refill
     * covers the request.
     */
    ghost function Outcome(count: real, now: int): (o: Removal)
      reads this
      requires Valid()
      ensures !o.Limited?
      ensures o.Refused? <==> bucketSize != 0.0 && count > bucketSize
      ensures o.Refused? ==> o == Refused(count, bucketSize)
      ensures o.Granted? <==> bucketSize == 0.0 || count <= Refilled(now)
      ensures o.Granted? && bucketSize == 0.0 ==> o.remaining == count
      ensures o.Granted? && bucketSize != 0.0 ==> 0.0 <= o.remaining == Refilled(now) - count <= bucketSize - count
      ensures o.Wait? ==>
        && o.ms > 0
        && DripContent(Refilled(now), o.ms as real, tokensPerInterval, interval, bucketSize) >= count
    {
      if bucketSize == 0.0 then Granted(count)
      else if count > bucketSize then Refused(count, bucketSize)
      else
        var c := Refilled(now);
        if count <= c then Granted(c - count)
        else
          WaitSuffices(count, c, tokensPerInterval, interval, bucketSize);
          Wait(WaitTime(count, c, tokensPerInterval, interval))
    }

    /**
     * `drip()`: without a rate the bucket is simply filled; otherwise the time
     * since the last refill (a clock that went back counts as none) adds
     * tokens up to the cap, and `lastDrip` becomes `now`.
     */
    method Drip(now: int)
      requires Valid()
      modifies this
      ensures Valid()
      ensures content == old(Refilled(now))
      ensures content <= bucketSize
      ensures old(content) <= bucketSize ==> content >= old(content)
      ensures lastDrip == if tokensPerInterval == 0.0 then old(lastDrip) else now
    {
      if tokensPerInterval == 0.0 {
        content := bucketSize;
        return;
      }
      var delta := Max(now - lastDrip, 0);
      lastDrip := now;
      DripBounds(content, delta as real, tokensPerInterval, interval, bucketSize);
      content := MinReal(content + delta as real * (tokensPerInterval / interval), bucketSize);
    }

    /**
     * `tryRemoveTokens(count)`: an unlimited bucket (size 0) always succeeds
     * and changes nothing; a request larger than the bucket fails without a
     * refill; otherwise the bucket refills and the request succeeds exactly
     * when the refilled content covers it, which then loses exactly `count`.
     */
    method TryRemoveTokens(count: real, now: int) returns (removed: bool)
      requires Valid()
      modifies this
      ensures Valid()
      ensures bucketSize == 0.0 ==> removed && unchanged(this)
      ensures bucketSize != 0.0 && count > bucketSize ==> !removed && unchanged(this)
      ensures bucketSize != 0.0 && count <= bucketSize ==>
        && (removed <==> count <= old(Refilled(now)))
        && content == old(Refilled(now)) - (if removed then count else 0.0)
        && lastDrip == (if tokensPerInterval == 0.0 then old(lastDrip) else now)
        && (count >= 0.0 ==> content <= bucketSize)
      ensures removed <==> old(Outcome(count, now)).Granted?
    {
      if bucketSize == 0.0 {
        return true;
      }
      if count > bucketSize {
        return false;
      }
      Drip(now);
      if count > content {
        return false;
      }
      content := content - count;
      return true;
    }

    /**
     * `removeTokens(count, callback)` without a parent bucket: an unlimited
     * bucket grants at once (the callback receives `count`); a request larger
     * than the bucket is refused; otherwise the bucket refills, and either
     * grants, reporting what is left, or asks for a wait of `WaitTime`.
     */
    method RemoveTokens(count: real, now: int) returns (r: Removal)
      requires Valid()
      modifies this
      ensures Valid()
      ensures bucketSize == 0.0 ==> r == Granted(count) && unchanged(this)
      ensures bucketSize != 0.0 && count > bucketSize ==> r == Refused(count, bucketSize) && unchanged(this)
      ensures bucketSize != 0.0 && count <= bucketSize ==>
        && lastDrip == (if tokensPerInterval == 0.0 then old(lastDrip) else now)
        && (count <= old(Refilled(now)) ==> r == Granted(content) && content == old(Refilled(now)) - count)
        && (count > old(Refilled(now)) ==>
              && tokensPerInterval > 0.0
              && r == Wait(WaitTime(count, old(Refilled(now)), tokensPerInterval, interval))
              && content == old(Refilled(now)))
      ensures r == old(Outcome(count, now))
    {
      if bucketSize == 0.0 {
        return Granted(count);
      }
      if count > bucketSize {
        return Refused(count, bucketSize);
      }
      Drip(now);
      if count > content {
        return Wait(WaitTime(count, content, tokensPerInterval, interval));
      }
      content := content - count;
      return Granted(content);
    }
  }

  /** `new TokenBucket(...)` with an interval still to parse: an unknown unit name throws. */
  method NewTokenBucket(bucketSize: real, tokensPerInterval: real, interval: IntervalArg, now: int)
    returns (r: Result<TokenBucket, IntervalError>)
    requires bucketSize >= 0.0 && tokensPerInterval >= 0.0
    requires interval.Millis? ==> interval.ms > 0.0
    ensures r.Failure? <==> ParseInterval(interval).Failure?
    ensures r.Success? ==>
      && fresh(r.value) && r.value.Valid()
      && r.value.interval == ParseInterval(interval).value
      && r.value.bucketSize == bucketSize && r.value.tokensPerInterval == tokensPerInterval
      && r.value.content == 0.0 && r.value.lastDrip == now
  {
    var ms := ParseInterval(interval);
    if ms.Failure? {
      return Failure(ms.error);
    }
    var bucket := new TokenBucket(bucketSize, tokensPerInterval, ms.value, now);
    return Success(bucket);
  }
}
