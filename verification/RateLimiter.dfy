/** The token bucket that workers share, in thousandths of a token so that a refill of
    `elapsed` milliseconds times `rate` tokens per second is a whole number. */
module RateLimiter {
  import opened Contracts

  const TOKEN := 1000

  /** `RATE_LIMIT_PER_SECOND` and `RATE_LIMIT_BURST`; both are at least one. */
  datatype Limits = Limits(rate: int, capacity: int) {
    predicate Valid() { rate >= 1 && capacity >= 1 }

    function Full(): int { capacity * TOKEN }

    /** The lifetime of a key in milliseconds, `ceil(capacity / rate * 2000)`. */
    function Ttl(): int
      requires Valid()
    {
      (capacity * 2000 + rate - 1) / rate
    }
  }

  datatype Bucket = Bucket(tokens: int, ts: int)

  /** What `ms` milliseconds bring. */
  function Earned(rate: int, ms: int): int { rate * ms }

  lemma EarnedAdds(rate: int, a: int, b: int)
    ensures Earned(rate, a + b) == Earned(rate, a) + Earned(rate, b)
  {}

  lemma EarnedGrows(rate: int, a: int, b: int)
    requires rate >= 0 && a <= b
    ensures Earned(rate, a) <= Earned(rate, b)
  {}

  function Max(a: int, b: int): int { if a >= b then a else b }

  function Min(a: int, b: int): int { if a <= b then a else b }

  /******* The specification: one request after another *******/

  /** What a request that finds `found` tokens leaves. */
  function Spend(found: int): int { if found >= TOKEN then found - TOKEN else found }

  /** The tokens that request `n` finds in a bucket whose key is never dropped. */
  function Found(lim: Limits, times: seq<int>, n: nat): int
    requires n < |times|
  {
    if n == 0 then lim.Full()
    else Min(lim.Full(), Spend(Found(lim, times, n - 1)) + Earned(lim.rate, Max(0, times[n] - times[n - 1])))
  }

  /** Whether request `n` is admitted. */
  predicate Admits(lim: Limits, times: seq<int>, n: nat)
    requires n < |times|
  {
    Found(lim, times, n) >= TOKEN
  }

  /** How many of the requests `lo` up to but not including `hi` are admitted. */
  function Admitted(lim: Limits, times: seq<int>, lo: nat, hi: nat): nat
    requires lo <= hi <= |times|
    decreases hi
  {
    if lo == hi then 0
    else Admitted(lim, times, lo, hi - 1) + (if Admits(lim, times, hi - 1) then 1 else 0)
  }

  /******* Any clock *******/

  /** Tokens stay between none and the capacity, whatever the clock does. */
  lemma {:induction false} TokensInRange(lim: Limits, times: seq<int>, n: nat)
    requires lim.Valid() && n < |times|
    ensures 0 <= Found(lim, times, n) <= 1000 * lim.capacity
  {
    if n == 0 {
    } else {
      TokensInRange(lim, times, n - 1);
    }
  }

  /** How far the clock moved forward between two requests, ignoring its backward jumps. */
  function Forward(times: seq<int>, lo: nat, hi: nat): int
    requires lo <= hi < |times|
    decreases hi
  {
    if lo == hi then 0 else Forward(times, lo, hi - 1) + Max(0, times[hi] - times[hi - 1])
  }

  /** What the window from request `i` to request `n` still has room for: the burst, plus the rate times
      what the clock moved forward, less what was admitted. */
  function Room(lim: Limits, times: seq<int>, i: nat, n: nat): int
    requires i <= n < |times|
  {
    1000 * lim.capacity + lim.rate * Forward(times, i, n) - 1000 * Admitted(lim, times, i, n)
  }

  lemma NextRoom(lim: Limits, times: seq<int>, i: nat, n: nat)
    requires lim.Valid() && i <= n && n + 1 < |times|
    ensures Room(lim, times, i, n + 1)
         == Room(lim, times, i, n) + Earned(lim.rate, Max(0, times[n + 1] - times[n]))
            - (if Admits(lim, times, n) then 1000 else 0)
  {
    EarnedAdds(lim.rate, Forward(times, i, n), Max(0, times[n + 1] - times[n]));
  }

  /** Exactness, on any clock: the tokens a request finds are the least room of all windows that end
      with it. */
  lemma {:induction false} FoundIsLeastRoom(lim: Limits, times: seq<int>, n: nat)
    requires lim.Valid() && n < |times|
    ensures forall i: nat :: i <= n ==> Found(lim, times, n) <= Room(lim, times, i, n)
    ensures exists i: nat :: i <= n && Found(lim, times, n) == Room(lim, times, i, n)
  {
    assert Room(lim, times, n, n) == lim.Full();
    if n == 0 {
      assert Found(lim, times, 0) == Room(lim, times, 0, 0);
    } else {
      FoundIsLeastRoom(lim, times, n - 1);
      forall i: nat | i <= n
        ensures Found(lim, times, n) <= Room(lim, times, i, n)
      {
        if i < n {
          NextRoom(lim, times, i, n - 1);
        }
      }
      var k: nat :| k <= n - 1 && Found(lim, times, n - 1) == Room(lim, times, k, n - 1);
      NextRoom(lim, times, k, n - 1);
      assert Found(lim, times, n) == Room(lim, times, k, n) || Found(lim, times, n) == Room(lim, times, n, n);
    }
  }

  /** Admitting request `n` as well would overfill the window that begins with request `i`: more than the
      burst plus the rate times what the clock moved forward. */
  predicate WouldOverfill(lim: Limits, times: seq<int>, i: nat, n: nat)
    requires i <= n < |times|
  {
    1000 * (Admitted(lim, times, i, n) + 1) > 1000 * lim.capacity + lim.rate * Forward(times, i, n)
  }

  /** On any clock a request is rejected exactly when admitting it would overfill some window. */
  lemma RejectedIffWindowFull(lim: Limits, times: seq<int>, n: nat)
    requires lim.Valid() && n < |times|
    ensures !Admits(lim, times, n) <==> exists i: nat :: i <= n && WouldOverfill(lim, times, i, n)
  {
    FoundIsLeastRoom(lim, times, n);
    var k: nat :| k <= n && Found(lim, times, n) == Room(lim, times, k, n);
    if !Admits(lim, times, n) {
      assert WouldOverfill(lim, times, k, n);
    } else {
      forall i: nat | i <= n
        ensures !WouldOverfill(lim, times, i, n)
      {
        assert Found(lim, times, n) <= Room(lim, times, i, n);
      }
    }
  }

  /** So with any clock, backward jumps included, a run of requests is admitted at most the burst plus
      the rate times what the clock moved forward. */
  lemma AdmissionBound(lim: Limits, times: seq<int>, lo: nat, hi: nat)
    requires lim.Valid() && lo <= hi < |times|
    ensures 1000 * Admitted(lim, times, lo, hi + 1) <= 1000 * lim.capacity + lim.rate * Forward(times, lo, hi)
  {
    FoundIsLeastRoom(lim, times, hi);
    TokensInRange(lim, times, hi);
    assert Found(lim, times, hi) <= Room(lim, times, lo, hi);
  }

  /******* Wall-clock windows *******/

  /** A backward jump is stored as the new timestamp, so the same time can be refilled twice: two
      requests at one instant are admitted although the burst is one. */
  lemma BackwardClockBreaksWindow()
    ensures var lim, times := Limits(1, 1), [1000, 0, 1000];
            lim.Valid() && times[0] == times[2]
            && 1000 * Admitted(lim, times, 0, 3) > 1000 * lim.capacity + lim.rate * (times[2] - times[0])
  {
    var lim, times := Limits(1, 1), [1000, 0, 1000];
    assert Admitted(lim, times, 0, 0) == 0;
    assert Admitted(lim, times, 0, 1) == 1;
    assert Admitted(lim, times, 0, 2) == 1;
    assert Admitted(lim, times, 0, 3) == 2;
  }

  /** The clock does not go back between two requests. */
  predicate MonotoneIn(times: seq<int>, lo: nat, hi: nat)
    requires lo <= hi < |times|
  {
    forall i: nat :: lo <= i < hi ==> times[i] <= times[i + 1]
  }

  /** The forward movement is the length of the window exactly when the clock does not go back in it;
      else it is more. */
  lemma {:induction false} ForwardTelescopes(times: seq<int>, lo: nat, hi: nat)
    requires lo <= hi < |times|
    ensures Forward(times, lo, hi) >= times[hi] - times[lo]
    ensures lo < hi && times[hi] <= times[hi - 1] ==> Forward(times, lo, hi) == Forward(times, lo, hi - 1)
    ensures Forward(times, lo, hi) == times[hi] - times[lo] <==> MonotoneIn(times, lo, hi)
    decreases hi
  {
    if lo == hi {
    } else {
      ForwardTelescopes(times, lo, hi - 1);
    }
  }

  /** So no window in which the clock does not go back is ever overfilled, whatever it did before. */
  lemma WindowBound(lim: Limits, times: seq<int>, lo: nat, hi: nat)
    requires lim.Valid() && lo <= hi < |times| && MonotoneIn(times, lo, hi)
    ensures 1000 * Admitted(lim, times, lo, hi + 1) <= 1000 * lim.capacity + lim.rate * (times[hi] - times[lo])
  {
    hide Admitted, Forward;
    AdmissionBound(lim, times, lo, hi);
    ForwardTelescopes(times, lo, hi);
    assert lim.rate * Forward(times, lo, hi) == lim.rate * (times[hi] - times[lo]);
  }

  /** On a clock that has never gone back a request is rejected exactly when admitting it would put more
      into some window than the burst plus the rate times the length of the window. */
  lemma RejectedOnMonotoneClock(lim: Limits, times: seq<int>, n: nat)
    requires lim.Valid() && n < |times| && MonotoneIn(times, 0, n)
    ensures !Admits(lim, times, n) <==>
            exists i: nat :: i <= n &&
              1000 * (Admitted(lim, times, i, n) + 1) > 1000 * lim.capacity + lim.rate * (times[n] - times[i])
  {
    hide Admitted, Forward, Admits;
    RejectedIffWindowFull(lim, times, n);
    forall i: nat | i <= n
      ensures WouldOverfill(lim, times, i, n) <==>
              1000 * (Admitted(lim, times, i, n) + 1) > 1000 * lim.capacity + lim.rate * (times[n] - times[i])
    {
      ForwardTelescopes(times, i, n);
    }
  }

  /******* Key expiry *******/

  lemma FullAfterTtl(lim: Limits)
    requires lim.Valid()
    ensures Earned(lim.rate, lim.Ttl()) >= lim.Full() && lim.Ttl() >= 0
  {
    var n := lim.capacity * 2000 + lim.rate - 1;
    assert n == lim.Ttl() * lim.rate + n % lim.rate;
  }

  /** The TTL is the least whole number of milliseconds that brings twice the capacity. */
  lemma TtlIsCeiling(lim: Limits)
    requires lim.Valid()
    ensures (lim.Ttl() - 1) * lim.rate < 2000 * lim.capacity <= lim.Ttl() * lim.rate
  {
    var n := lim.capacity * 2000 + lim.rate - 1;
    assert n == lim.Ttl() * lim.rate + n % lim.rate;
  }

  /** A key that has outlived its TTL would have refilled completely. */
  lemma ExpiredIsFull(lim: Limits, tokens: int, elapsed: int)
    requires lim.Valid() && tokens >= 0 && elapsed >= lim.Ttl()
    ensures Min(1000 * lim.capacity, tokens + lim.rate * elapsed) == 1000 * lim.capacity
    ensures Min(lim.Full(), tokens + Earned(lim.rate, Max(0, elapsed))) == lim.Full()
  {
    FullAfterTtl(lim);
    EarnedGrows(lim.rate, lim.Ttl(), elapsed);
  }

  /** The tokens that request `n` finds when Redis drops the key before every request `k` with `drops[k]`. */
  function FoundWithDrops(lim: Limits, times: seq<int>, drops: seq<bool>, n: nat): int
    requires n < |times| == |drops|
  {
    if n == 0 || drops[n] then lim.Full()
    else Min(lim.Full(), Spend(FoundWithDrops(lim, times, drops, n - 1)) +
        Earned(lim.rate, Max(0, times[n] - times[n - 1])))
  }

  /** A key is dropped only once its TTL has passed. */
  ghost predicate DropsAreExpiries(lim: Limits, times: seq<int>, drops: seq<bool>)
    requires lim.Valid() && |times| == |drops|
  {
    forall n: nat :: 0 < n < |times| && drops[n] ==> times[n] - times[n - 1] >= lim.Ttl()
  }

  /** Expiry is unobservable: wherever keys are dropped, every request finds the same tokens, so it
      is decided the same way, as in a bucket that is kept forever. */
  lemma {:induction false} ExpiryUnobservable(lim: Limits, times: seq<int>, drops: seq<bool>, n: nat)
    requires lim.Valid() && n < |times| == |drops| && DropsAreExpiries(lim, times, drops)
    ensures FoundWithDrops(lim, times, drops, n) == Found(lim, times, n)
  {
    if n == 0 {
    } else {
      ExpiryUnobservable(lim, times, drops, n - 1);
      if drops[n] {
        TokensInRange(lim, times, n - 1);
        ExpiredIsFull(lim, Spend(Found(lim, times, n - 1)), times[n] - times[n - 1]);
      }
    }
  }

  /** Later requests do not change what earlier ones found. */
  lemma {:induction false} FoundInPrefix(lim: Limits, times: seq<int>, now: int, n: nat)
    requires n < |times|
    ensures Found(lim, times + [now], n) == Found(lim, times, n)
  {
    if n == 0 {
    } else {
      FoundInPrefix(lim, times, now, n - 1);
    }
  }

  /******* The limiter *******/

  /** Bucket `b` is what requests at `times` leave. */
  predicate Leaves(lim: Limits, times: seq<int>, b: Bucket) {
    times != [] && b == Bucket(Spend(Found(lim, times, |times| - 1)), times[|times| - 1])
  }

  /** One more request, on the stored bucket or on none if there is none or it has expired, finds what
      it would find in a bucket that is kept forever. */
  lemma NextRequest(lim: Limits, times: seq<int>, now: int, stored: Option<Bucket>, expired: bool)
    requires lim.Valid()
    requires if times == [] then stored == None else stored.Some? && Leaves(lim, times, stored.value)
    requires expired && stored.Some? ==> now - stored.value.ts >= lim.Ttl()
    ensures Found(lim, times + [now], |times|)
         == if stored == None || expired then lim.Full()
            else Min(lim.Full(), stored.value.tokens + Earned(lim.rate, Max(0, now - stored.value.ts)))
  {
    if times != [] {
      var n := |times| - 1;
      FoundInPrefix(lim, times, now, n);
      TokensInRange(lim, times, n);
      if expired {
        ExpiredIsFull(lim, stored.value.tokens, now - stored.value.ts);
      }
    }
  }

  class RateLimiterService {
    const limits: Limits
    var redis: map<string, Bucket>

    /** The times of all requests, key by key. */
    ghost var requests: map<string, seq<int>>

    ghost function Times(key: string): seq<int>
      reads this
    {
      if key in requests then requests[key] else []
    }

    /** What is stored is what the requests made so far leave behind. */
    ghost predicate Valid()
      reads this
    {
      && limits.Valid()
      && (forall key :: key in redis <==> key in requests)
      && (forall key :: key in requests ==> Leaves(limits, requests[key], redis[key]))
    }

    constructor (rate: int, capacity: int)
      requires rate >= 1 && capacity >= 1
      ensures Valid() && limits == Limits(rate, capacity) && requests == map[]
    {
      limits := Limits(rate, capacity);
      redis := map[];
      requests := map[];
    }

    /** The script. `expired` says whether Redis has dropped the key since its last request. The
        decision is that of a bucket that is never dropped. */
    method Acquire(key: string, now: int, expired: bool) returns (allowed: bool)
      requires Valid()
      requires expired && key in redis ==> now - redis[key].ts >= limits.Ttl()
      modifies this
      ensures Valid()
      ensures requests == old(requests)[key := old(Times(key)) + [now]]
      ensures allowed == Admits(limits, old(Times(key)) + [now], |old(Times(key))|)
      ensures redis.Keys == old(redis).Keys + {key}
      ensures forall k :: k in old(redis) && k != key ==> redis[k] == old(redis)[k]
    {
      ghost var before := Times(key);
      NextRequest(limits, before, now, if key in redis then Some(redis[key]) else None, expired);
      var tokens, last;
      if key in redis && !expired {
        tokens, last := redis[key].tokens, redis[key].ts;
      } else {
        tokens, last := limits.capacity * TOKEN, now;
      }
      var elapsed := Max(0, now - last);
      tokens := Min(limits.capacity * TOKEN, tokens + Earned(limits.rate, elapsed));
      allowed := tokens >= TOKEN;
      if allowed {
        tokens := tokens - TOKEN;
      }
      redis := redis[key := Bucket(tokens, now)];
      requests := requests[key := before + [now]];
    }
  }
}
