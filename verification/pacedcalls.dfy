/** Whether the pauses between a worker's attempts keep the calls made to the API below the hourly limit:
    services/weatherlink-kafka/service/backfill.go, fetchHistoricDataWithRetry. They do not; here is a schedule
    that keeps them, and the client's timeout, and has nearly every token of an hour used up by failing calls. */
module PacedCalls {
  import opened RateLimiting
  import opened FetchWorkers
  import opened HourlyCalls

  // A worker whose attempts fail at once uses a token up in three seconds: it calls when it gets the token, one
  // second later, and two seconds after that. So c workers take turns in three groups, worker v being in group
  // v % 3, and in second t the group t % 3 gets a token each.

  /** Of the first v workers, those whose turn it is in second t. */
  function InTurn(v: nat, t: nat): nat { (v + 2 - t % 3) / 3 }

  /** The tokens handed out before second t, if there is a window for each. */
  function HandedOut(c: nat, t: nat): nat {
    if t == 0 then 0 else HandedOut(c, t - 1) + InTurn(c, t - 1)
  }

  lemma {:induction false} ThreeSecondsServeAll(c: nat, k: nat)
    ensures HandedOut(c, 3 * k) == k * c
  {
    if k > 0 {
      ThreeSecondsServeAll(c, k - 1);
      NextThreeSeconds(c, 3 * (k - 1));
      assert k * c == (k - 1) * c + c;
    }
  }

  lemma NextThreeSeconds(c: nat, t: nat)
    requires t % 3 == 0
    ensures HandedOut(c, t + 3) == HandedOut(c, t) + c
  {
    assert (t + 1) % 3 == 1 && (t + 2) % 3 == 2;
    assert HandedOut(c, t + 1) == HandedOut(c, t) + InTurn(c, t);
    assert HandedOut(c, t + 2) == HandedOut(c, t + 1) + InTurn(c, t + 1);
    assert HandedOut(c, t + 3) == HandedOut(c, t + 2) + InTurn(c, t + 2);
  }

  /** The tokens of the hour. */
  const ROUNDS := 1200

  lemma {:induction false} AnHourServesAll(c: nat, t: nat)
    requires t >= 3 * ROUNDS
    ensures HandedOut(c, t) >= ROUNDS * c
  {
    if t == 3 * ROUNDS {
      ThreeSecondsServeAll(c, ROUNDS);
    } else {
      AnHourServesAll(c, t - 1);
    }
  }

  /** Worker v as second t of the hour that began at `base` finds it: free, or at one of its attempts, with the
      token it got in one of the last three seconds. */
  predicate InCycle(p: Phase, v: nat, t: nat, base: real) {
    var now := base + t as real;
    || p.Free?
    || (t % 3 == v % 3 && p == Fetching(3, now) && t < 3 * ROUNDS + 3)
    || (t % 3 == (v + 1) % 3 && p == Fetching(2, now) && t < 3 * ROUNDS + 1)
    || (t % 3 == (v + 2) % 3 && p == Fetching(3, now + 1.0) && t < 3 * ROUNDS + 2)
  }

  /** How many workers take turns, how many tokens they use up, and when they begin. */
  datatype Plan = Plan(rate: int, limit: int, windows: nat, workers: nat, c: nat, tokens: nat, base: real)

  predicate Fits(p: Plan) {
    p.rate >= 1 && p.c <= p.workers && p.c <= 3 * p.rate && p.tokens <= p.windows && p.tokens <= ROUNDS * p.c
  }

  ghost predicate PhasesFit(p: Plan, phases: seq<Phase>, t: nat, v: nat) {
    && |phases| == p.workers
    && forall w :: 0 <= w < p.workers ==>
         if w < v then InCycle(phases[w], w, t + 1, p.base)
         else if w < p.c then InCycle(phases[w], w, t, p.base)
         else phases[w].Free?
  }

  /** The calls made and those still to come are three for each window taken. */
  ghost predicate Accounts(p: Plan, s: System, t: nat, v: nat) {
    && s.left <= p.windows && s.before.calls == 0
    && s.tally.calls + CallsLeft(s.phases) == 3 * (p.windows - s.left)
    && p.windows - s.left == MinNat(p.tokens, HandedOut(p.c, t) + InTurn(v, t))
  }

  /** In second t the first v workers have had their turn; the bucket has a token for each of the others. */
  ghost predicate Cycling(p: Plan, s: System, t: nat, v: nat) {
    && Calm(s, p.rate, p.limit)
    && s.lim.hourStart == p.base && s.clock <= p.base + t as real
    && Level(s.lim, p.base + t as real) >= (p.rate - InTurn(v, t)) as real
    && PhasesFit(p, s.phases, t, v) && Accounts(p, s, t, v)
  }

  // ---------- one worker in one second ----------

  /** The worker's attempt, if one is due, fails. */
  lemma FailIfDue(s0: System, p: Plan, s: System, t: nat, v: nat) returns (s': System)
    requires Fits(p) && Reaches(s0, s, true) && Cycling(p, s, t, v) && v < p.c
    ensures Reaches(s0, s', true) && Calm(s', p.rate, p.limit)
    ensures s'.lim == s.lim && s'.left == s.left && s'.before == s.before && s'.clock <= p.base + t as real
    ensures s'.tally.calls + CallsLeft(s'.phases) == s.tally.calls + CallsLeft(s.phases)
    ensures |s'.phases| == |s.phases| && forall w :: 0 <= w < |s.phases| && w != v ==> s'.phases[w] == s.phases[w]
    ensures InCycle(s'.phases[v], v, t + 1, p.base) && (t % 3 == v % 3 ==> s'.phases[v].Free?)
  {
    hide Reaches, Level, Accounts;
    var now := p.base + t as real;
    s' := s;
    if s.phases[v].Fetching? && s.phases[v].from <= now {
      FailIsReached(s0, s, true, v, now);
      s' := Failed(s, v, now);
      SetOne(s.phases, v, s'.phases[v]);
    }
  }

  lemma TakeOne(l: Limiter, u: real)
    ensures Level(l.(tokens := Level(l, u) - 1.0, lastRefill := u), u) == Level(l, u) - 1.0
    ensures Level(l, u) <= l.burst as real
  {
    assert Gain(l.rate, 0.0) == 0.0;
  }

  /** If there is still a window for it, the worker gets a token and its first attempt fails. */
  lemma Serve(s0: System, p: Plan, s: System, t: nat, v: nat) returns (s': System)
    requires Fits(p) && Reaches(s0, s, true) && Calm(s, p.rate, p.limit)
    requires v < |s.phases| && s.phases[v].Free? && s.left > 0
    requires t < 3 * ROUNDS && t % 3 == v % 3 && s.lim.hourStart == p.base && s.clock <= p.base + t as real
    requires Level(s.lim, p.base + t as real) >= 1.0
    ensures Reaches(s0, s', true) && Calm(s', p.rate, p.limit)
    ensures s'.left == s.left - 1 && s'.before == s.before && s'.clock == p.base + t as real
    ensures s'.lim.hourStart == p.base
    ensures Level(s'.lim, p.base + t as real) == Level(s.lim, p.base + t as real) - 1.0
    ensures s'.tally.calls + CallsLeft(s'.phases) == s.tally.calls + CallsLeft(s.phases) + 3
    ensures |s'.phases| == |s.phases| && forall w :: 0 <= w < |s.phases| && w != v ==> s'.phases[w] == s.phases[w]
    ensures InCycle(s'.phases[v], v, t + 1, p.base)
  {
    hide Reaches, Level;
    var now := p.base + t as real;
    TakeOne(s.lim, now);
    GrantIsReached(s0, s, true, p.rate, p.limit, v, now);
    var g := Granted1(s, v, now);
    FailIsReached(s0, g, true, v, now);
    s' := Failed(g, v, now);
    SetOne(s.phases, v, Fetching(2, now + 1.0));
    assert s'.phases == s.phases[v := Fetching(2, now + 1.0)];
  }

  /** A group is no larger than what the bucket earns in a second. */
  lemma InTurnBound(p: Plan, v: nat, t: nat)
    requires Fits(p) && v < p.c && t % 3 == v % 3
    ensures InTurn(v, t) < p.rate
  {
  }

  lemma OneMoreInTurn(v: nat, t: nat)
    ensures InTurn(v + 1, t) == InTurn(v, t) + if t % 3 == v % 3 then 1 else 0
  {
  }

  lemma Visit(s0: System, p: Plan, s: System, t: nat, v: nat) returns (s': System)
    requires Fits(p) && Reaches(s0, s, true) && Cycling(p, s, t, v) && v < p.c
    ensures Reaches(s0, s', true) && Cycling(p, s', t, v + 1)
  {
    hide Reaches, Level, Calm, InCycle, InTurn, HandedOut;
    OneMoreInTurn(v, t);
    s' := FailIfDue(s0, p, s, t, v);
    if t % 3 == v % 3 && p.windows - s.left < p.tokens {
      InTurnBound(p, v, t);
      if t >= 3 * ROUNDS {
        AnHourServesAll(p.c, t);
        assert false;
      }
      s' := Serve(s0, p, s', t, v);
    }
  }

  // ---------- one second, one hour ----------

  lemma {:induction false} Second(s0: System, p: Plan, s: System, t: nat, v: nat) returns (s': System)
    requires Fits(p) && Reaches(s0, s, true) && Cycling(p, s, t, 0) && v <= p.c
    ensures Reaches(s0, s', true) && Cycling(p, s', t, v)
  {
    hide Reaches, Cycling;
    if v == 0 {
      s' := s;
    } else {
      var b := Second(s0, p, s, t, v - 1);
      s' := Visit(s0, p, b, t, v - 1);
    }
  }

  lemma EarnedInASecond(l: Limiter, u: real)
    ensures Level(l, u + 1.0) >= Min(Level(l, u) + l.rate as real, l.burst as real)
  {
    GainFrom(l.rate, l.lastRefill, u, u + 1.0);
    assert Gain(l.rate, 1.0) == l.rate as real;
    hide Gain;
  }

  /** In a second the bucket earns what a group of workers took. */
  lemma NextSecond(p: Plan, s: System, t: nat)
    requires Fits(p) && Cycling(p, s, t, p.c)
    ensures Cycling(p, s, t + 1, 0)
  {
    assert InTurn(p.c, t) <= p.rate && InTurn(0, t + 1) == 0;
    hide InCycle, Level, InTurn;
    EarnedInASecond(s.lim, p.base + t as real);
    assert p.base + (t + 1) as real == p.base + t as real + 1.0;
  }

  lemma {:induction false} Seconds(s0: System, p: Plan, t: nat) returns (s: System)
    requires Fits(p) && Cycling(p, s0, 0, 0)
    ensures Reaches(s0, s, true) && Cycling(p, s, t, 0)
  {
    hide Reaches, Cycling;
    if t == 0 {
      ReachesItself(s0, true);
      s := s0;
    } else {
      var b := Seconds(s0, p, t - 1);
      s := Second(s0, p, b, t - 1, p.c);
      NextSecond(p, s, t - 1);
    }
  }

  lemma {:induction false} AllFree(phases: seq<Phase>)
    requires forall w :: 0 <= w < |phases| ==> phases[w].Free?
    ensures CallsLeft(phases) == 0
  {
    if phases != [] {
      AllFree(phases[1..]);
    }
  }

  /** After three seconds more all calls have been made. */
  lemma AllCallsAreMade(p: Plan, s: System)
    requires Fits(p) && Cycling(p, s, 3 * ROUNDS + 3, 0)
    ensures HourCalls(s) == 3 * p.tokens && s.lim.limit == p.limit
  {
    hide Level;
    AnHourServesAll(p.c, 3 * ROUNDS + 3);
    hide HandedOut;
    AllFree(s.phases);
  }

  // ---------- the answer ----------

  /** Tokens of an hour that the workers can use up with failing calls: three seconds for each, as many workers at
      a time as there are tokens earned in three seconds. */
  function PacedTokens(rate: int, workers: nat): int { ROUNDS * MinNat(workers, 3 * rate) }

  lemma PlanBegins(tokensPerSecond: int, hourlyLimit: int, workers: nat, windows: nat, now: real, p: Plan)
    requires LimitOf(hourlyLimit) >= 2 && Fits(p)
    requires p.rate == RateOf(tokensPerSecond) && p.limit == LimitOf(hourlyLimit) && p.windows == windows
    requires p.workers == workers && p.base == now
    ensures Cycling(p, Init(tokensPerSecond, hourlyLimit, workers, windows, now), 0, 0)
  {
    NoneInFlight(workers);
  }

  /** Even when every pause is kept and no call takes longer than the timeout, a limit of at least two is exceeded
      if it is below three calls for each of these tokens, or for each window if there are fewer. */
  lemma PausesDoNotHelp(tokensPerSecond: int, hourlyLimit: int, workers: nat, windows: nat, now: real)
    requires 2 <= LimitOf(hourlyLimit) < 3 * MinNat(windows, PacedTokens(RateOf(tokensPerSecond), workers))
    ensures CanExceed(tokensPerSecond, hourlyLimit, workers, windows, now, true)
  {
    hide Reaches, Cycling, HourCalls;
    var s0 := Init(tokensPerSecond, hourlyLimit, workers, windows, now);
    var rate := RateOf(tokensPerSecond);
    var p := Plan(rate, LimitOf(hourlyLimit), windows, workers, MinNat(workers, 3 * rate),
                  MinNat(windows, PacedTokens(rate, workers)), now);
    PlanBegins(tokensPerSecond, hourlyLimit, workers, windows, now, p);
    var s := Seconds(s0, p, 3 * ROUNDS + 3);
    AllCallsAreMade(p, s);
  }

  /** So with no more windows than such tokens, which is years of data for a single worker, the pauses make no
      difference: the limit can be exceeded exactly if it is at least two and below three calls for each window. */
  lemma PacedIff(tokensPerSecond: int, hourlyLimit: int, workers: nat, windows: nat, now: real)
    requires workers > 0 && windows <= PacedTokens(RateOf(tokensPerSecond), workers)
    ensures CanExceed(tokensPerSecond, hourlyLimit, workers, windows, now, true)
       <==> 2 <= LimitOf(hourlyLimit) < 3 * windows
  {
    var s0 := Init(tokensPerSecond, hourlyLimit, workers, windows, now);
    InitInv(tokensPerSecond, hourlyLimit, workers, windows, now);
    NoneInFlight(workers);
    assert Windows(s0) == windows;
    hide Inv, Reaches, Windows, HourCalls;
    if CanExceed(tokensPerSecond, hourlyLimit, workers, windows, now, true) {
      var s :| Reaches(s0, s, true) && HourCalls(s) > s.lim.limit;
      ReachedIsBounded(s0, s, true, windows);
    }
    if 2 <= LimitOf(hourlyLimit) < 3 * windows {
      PausesDoNotHelp(tokensPerSecond, hourlyLimit, workers, windows, now);
    }
  }
}
