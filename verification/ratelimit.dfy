/** The shared rate limiter of the historic backfill, services/weatherlink-kafka/service/ratelimit.go.

    Clock readings are seconds as reals, tokens are reals. A limiter is described by a value;
    class RateLimiter below keeps that value in its fields. */
module RateLimiting {

  const HOUR := 3600.0

  /** blockedUntil; Never stands for the zero time. */
  datatype Deadline = Never | Until(t: real)

  datatype Limiter = Limiter(
    rate: int, burst: int, limit: int,
    tokens: real, lastRefill: real,
    hourly: int, hourStart: real,
    errors: int, blocked: Deadline)

  datatype Verdict = Granted | Blocked | Capped | Starved

  function Min(a: real, b: real): real { if a < b then a else b }

  function MinInt(a: int, b: int): int { if a < b then a else b }

  /** Tokens earned in d seconds. */
  function Gain(rate: int, d: real): real { rate as real * d }

  function Start(tokensPerSecond: int, hourlyLimit: int, now: real): Limiter {
    var rate := if tokensPerSecond <= 0 then 8 else tokensPerSecond;
    var limit := if hourlyLimit <= 0 then 1000 else hourlyLimit;
    Limiter(rate, rate * 2, limit, (rate * 2) as real, now, 0, now, 0, Never)
  }

  function HourlyCap(l: Limiter): int { (l.limit as real * 0.9).Floor }

  function RollHour(l: Limiter, now: real): Limiter {
    if now - l.hourStart >= HOUR then l.(hourly := 0, hourStart := now) else l
  }

  function Refill(l: Limiter, now: real): Limiter {
    l.(tokens := Min(l.tokens + Gain(l.rate, now - l.lastRefill), l.burst as real), lastRefill := now)
  }

  /** One pass through the loop of Wait, all of it under the mutex. */
  function WaitOnce(l: Limiter, now: real): (Limiter, Verdict) {
    if l.blocked.Until? && now < l.blocked.t then (l, Blocked)
    else
      var l1 := RollHour(l, now);
      if l1.hourly >= HourlyCap(l1) then (l1, Capped)
      else
        var l2 := Refill(l1, now);
        if l2.tokens >= 1.0 then (l2.(tokens := l2.tokens - 1.0), Granted) else (l2, Starved)
  }

  function RecordRequest(l: Limiter): Limiter { l.(hourly := l.hourly + 1, errors := 0) }

  function Pow2(n: nat): nat { if n == 0 then 1 else 2 * Pow2(n - 1) }

  /** The back-off in seconds after the k-th consecutive 429. */
  function Backoff(k: int): (b: nat)
    requires k >= 1
    ensures 1 <= b <= 8
  {
    assert Pow2(0) == 1 && Pow2(1) == 2 && Pow2(2) == 4 && Pow2(3) == 8;
    Pow2(MinInt(k - 1, 3))
  }

  lemma {:induction false} Pow2AtLeast(n: nat, m: nat)
    requires m <= n
    ensures Pow2(n) >= Pow2(m) >= 1
  {
    if m < n {
      Pow2AtLeast(n - 1, m);
    } else if n > 0 {
      Pow2AtLeast(n - 1, n - 1);
    }
  }

  /** The back-off doubles from one second and is capped at eight. */
  lemma BackoffDoubles(k: int)
    requires k >= 1
    ensures Backoff(k) == MinInt(Pow2(k - 1), 8)
  {
    assert Pow2(0) == 1 && Pow2(1) == 2 && Pow2(2) == 4 && Pow2(3) == 8;
    if k > 4 {
      Pow2AtLeast(k - 1, 3);
    }
  }

  function RecordError(l: Limiter, status: int, now: real): (Limiter, int)
    requires l.errors >= 0
  {
    var errors := l.errors + 1;
    if status == 429 then
      var until := now + Backoff(errors) as real;
      var l1 := l.(errors := errors);
      (if l.blocked.Never? || until > l.blocked.t then l1.(blocked := Until(until)) else l1, Backoff(errors))
    else (l.(errors := errors), MinInt(errors, 5))
  }

  /** The seconds that the n-th 429 in a row blocks everybody for. */
  function PenaltySeconds(n: int): int {
    if n <= 1 then 1 else if n == 2 then 2 else if n == 3 then 4 else 8
  }

  /** Every error counts one more in a row. A 429 blocks for the penalty of that count, unless a longer block is in
      force; any other error blocks nobody, and what it returns is the count, at most five. */
  lemma RecordErrorMeaning(l: Limiter, status: int, now: real)
    requires l.errors >= 0
    ensures var (l', backoff) := RecordError(l, status, now);
            && l'.errors == l.errors + 1 && l' == l.(errors := l'.errors, blocked := l'.blocked)
            && (status == 429 ==>
                  && backoff == PenaltySeconds(l.errors + 1)
                  && l'.blocked.Until?
                  && l'.blocked.t == (if l.blocked.Until? && l.blocked.t > now + backoff as real then l.blocked.t
                                      else now + backoff as real))
            && (status != 429 ==> l'.blocked == l.blocked && backoff == (if l.errors + 1 < 5 then l.errors + 1 else 5))
  {
    BackoffSeconds(l.errors + 1);
    hide Backoff;
  }

  lemma BackoffSeconds(k: int)
    requires k >= 1
    ensures Backoff(k) == PenaltySeconds(k)
  {
    BackoffDoubles(k);
    assert Pow2(0) == 1 && Pow2(1) == 2 && Pow2(2) == 4 && Pow2(3) == 8;
    if k > 4 {
      Pow2AtLeast(k - 1, 3);
    }
  }

  // ---------- the bucket as a function of time ----------

  ghost predicate Valid(l: Limiter) {
    && l.rate >= 1 && l.burst == 2 * l.rate && l.limit >= 1
    && 0.0 <= l.tokens <= l.burst as real
    && l.errors >= 0 && l.hourly >= 0
  }

  /** The tokens there would be if the bucket were refilled at time t. */
  function Level(l: Limiter, t: real): real {
    Min(l.tokens + Gain(l.rate, t - l.lastRefill), l.burst as real)
  }

  lemma GainAdds(rate: int, a: real, b: real)
    ensures Gain(rate, a + b) == Gain(rate, a) + Gain(rate, b)
  {
  }

  lemma GainNonNegative(rate: int, d: real)
    requires rate >= 0 && d >= 0.0
    ensures Gain(rate, d) >= 0.0
  {
  }

  lemma GainFrom(rate: int, a: real, b: real, c: real)
    ensures Gain(rate, c - a) == Gain(rate, b - a) + Gain(rate, c - b)
  {
    GainAdds(rate, b - a, c - b);
    assert c - a == (b - a) + (c - b);
  }

  /** Refilling in two goes gives what refilling once would. */
  lemma RefillComposes(l: Limiter, t: real, u: real)
    requires Valid(l) && l.lastRefill <= t <= u
    ensures Refill(Refill(l, t), u) == Refill(l, u)
  {
    GainFrom(l.rate, l.lastRefill, t, u);
    GainNonNegative(l.rate, t - l.lastRefill);
    GainNonNegative(l.rate, u - t);
    hide Gain;
  }

  lemma LevelGrows(l: Limiter, t: real, u: real)
    requires Valid(l) && l.lastRefill <= t <= u
    ensures 0.0 <= Level(l, t) <= Level(l, u) <= l.burst as real
    ensures Level(l, u) <= Level(l, t) + Gain(l.rate, u - t)
  {
    GainFrom(l.rate, l.lastRefill, t, u);
    GainNonNegative(l.rate, t - l.lastRefill);
    GainNonNegative(l.rate, u - t);
    hide Gain;
  }

  /** The tokens there were and those earned since, up to the size of the bucket. */
  lemma LevelIs(l: Limiter, t: real)
    ensures var earned := l.tokens + l.rate as real * (t - l.lastRefill);
            Level(l, t) == if earned < l.burst as real then earned else l.burst as real
  {
  }

  lemma PassByLevel(l: Limiter, now: real)
    requires Valid(l) && l.lastRefill <= now
    ensures var (l', v) := WaitOnce(l, now);
            var cap := (l.limit as real * 0.9).Floor;
      && Valid(l') && l.lastRefill <= l'.lastRefill <= now
      && Level(l', now) == Level(l, now) - (if v == Granted then 1.0 else 0.0)
      && (v == Granted <==>
            && (l.blocked.Never? || l.blocked.t <= now)
            && (now - l.hourStart >= 3600.0 || l.hourly < cap)
            && cap > 0
            && Level(l, now) >= 1.0)
  {
    LevelGrows(l, l.lastRefill, now);
    var l2 := Refill(l, now);
    assert Gain(l.rate, now - now) == 0.0;
    hide Gain;
    assert Level(l, now) == l2.tokens;
  }

  /** A caller gets a token exactly when nothing blocks it and the level has reached one; a grant takes
      one token off the level, a refusal takes nothing. */
  lemma WaitOnceMeaning(l: Limiter, now: real)
    requires Valid(l) && l.lastRefill <= now
    ensures var (l', v) := WaitOnce(l, now);
            var cap := (l.limit as real * 0.9).Floor;
            var earned := l.tokens + l.rate as real * (now - l.lastRefill);
            var level := if earned < l.burst as real then earned else l.burst as real;
      && Valid(l') && l.lastRefill <= l'.lastRefill <= now
      && level == Level(l, now) && Level(l', now) == level - (if v == Granted then 1.0 else 0.0)
      && (v == Granted <==>
            && (l.blocked.Never? || l.blocked.t <= now)
            && (now - l.hourStart >= 3600.0 || l.hourly < cap)
            && cap > 0
            && level >= 1.0)
  {
    LevelIs(l, now);
    PassByLevel(l, now);
    hide WaitOnce, Level;
  }

  // ---------- the class ----------

  class RateLimiter {
    const tokensPerSecond: int
    const burstSize: int
    const hourlyLimit: int
    var tokens: real
    var lastRefill: real
    var hourlyRequests: int
    var hourStart: real
    var consecutiveErrors: int
    var blockedUntil: Deadline

    /** The limiter as a value. */
    ghost function View(): Limiter
      reads this
    {
      Limiter(tokensPerSecond, burstSize, hourlyLimit, tokens, lastRefill,
              hourlyRequests, hourStart, consecutiveErrors, blockedUntil)
    }

    constructor (tokensPerSecond: int, hourlyLimit: int, now: real)
      ensures View() == Start(tokensPerSecond, hourlyLimit, now)
      ensures Valid(View())
    {
      var rate := if tokensPerSecond <= 0 then 8 else tokensPerSecond;
      this.tokensPerSecond := rate;
      this.burstSize := rate * 2;
      this.hourlyLimit := if hourlyLimit <= 0 then 1000 else hourlyLimit;
      tokens, lastRefill := (rate * 2) as real, now;
      hourlyRequests, hourStart := 0, now;
      consecutiveErrors, blockedUntil := 0, Never;
    }

    method TryOnce(now: real) returns (verdict: Verdict)
      modifies this
      ensures (View(), verdict) == WaitOnce(old(View()), now)
    {
      hide Gain;
      if blockedUntil.Until? && now < blockedUntil.t {
        return Blocked;
      }
      if now - hourStart >= HOUR {
        hourlyRequests, hourStart := 0, now;
      }
      if hourlyRequests >= (hourlyLimit as real * 0.9).Floor {
        return Capped;
      }
      tokens := Min(tokens + Gain(tokensPerSecond, now - lastRefill), burstSize as real);
      lastRefill := now;
      if tokens >= 1.0 {
        tokens := tokens - 1.0;
        return Granted;
      }
      return Starved;
    }

    /** Wait, with the clock readings of its passes given; it stops at the first grant, or when the
        readings run out because the context was cancelled during a sleep. */
    method Wait(clock: seq<real>) returns (ok: bool, passes: nat)
      modifies this
      ensures passes <= |clock|
      ensures View() == Passes(old(View()), clock[..passes])
      ensures ok ==> passes > 0
                     && WaitOnce(Passes(old(View()), clock[..passes - 1]), clock[passes - 1]).1 == Granted
      ensures !ok ==> passes == |clock|
      ensures forall i :: 0 <= i < (if ok then passes - 1 else passes) ==>
                WaitOnce(Passes(old(View()), clock[..i]), clock[i]).1 != Granted
    {
      hide WaitOnce;
      passes := 0;
      while passes < |clock|
        invariant 0 <= passes <= |clock|
        invariant View() == Passes(old(View()), clock[..passes])
        invariant forall i :: 0 <= i < passes ==> WaitOnce(Passes(old(View()), clock[..i]), clock[i]).1 != Granted
      {
        var verdict := TryOnce(clock[passes]);
        assert clock[..passes + 1][..passes] == clock[..passes];
        passes := passes + 1;
        if verdict == Granted {
          return true, passes;
        }
      }
      ok := false;
    }

    method Record()
      modifies this
      ensures View() == RecordRequest(old(View()))
    {
      hourlyRequests := hourlyRequests + 1;
      consecutiveErrors := 0;
    }

    method Fail(status: int, now: real) returns (backoff: int)
      requires consecutiveErrors >= 0
      modifies this
      ensures (View(), backoff) == RecordError(old(View()), status, now)
      ensures consecutiveErrors == old(consecutiveErrors) + 1
      ensures status == 429 ==> backoff == PenaltySeconds(consecutiveErrors) && blockedUntil.Until?
                                && blockedUntil.t >= now + backoff as real
      ensures status != 429 ==> backoff == (if consecutiveErrors < 5 then consecutiveErrors else 5)
                                && blockedUntil == old(blockedUntil)
    {
      RecordErrorMeaning(View(), status, now);
      hide Backoff, PenaltySeconds;
      consecutiveErrors := consecutiveErrors + 1;
      if status == 429 {
        backoff := Backoff(consecutiveErrors);
        var until := now + backoff as real;
        if blockedUntil.Never? || until > blockedUntil.t {
          blockedUntil := Until(until);
        }
      } else {
        backoff := MinInt(consecutiveErrors, 5);
      }
    }
  }

  /** The limiter after the passes of a lone caller at the given clock readings. */
  function Passes(l: Limiter, clock: seq<real>): Limiter {
    if clock == [] then l
    else WaitOnce(Passes(l, clock[..|clock| - 1]), clock[|clock| - 1]).0
  }
}
