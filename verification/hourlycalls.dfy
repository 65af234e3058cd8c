/** Whether the hourly limit bounds the calls made to the API: services/weatherlink-kafka/service/ratelimit.go
    and the worker loop of backfill.go. Only successes are counted and a retry takes no token, so it does not;
    here is for which rate, limit, number of workers and number of windows. */
module HourlyCalls {
  import opened RateLimiting
  import opened FetchWorkers

  // ---------- runs ----------

  /** In seconds; an HTTP request that takes longer is given up. */
  const REQUEST_TIMEOUT := 30.0

  /** The worker pauses as long as the code does before it calls again, and the call takes no longer than the
      client lets it. */
  predicate Paced(s: System, t: Turn) {
    t.worker < |s.phases| && s.phases[t.worker].Fetching? ==>
      var from := s.phases[t.worker].from; from <= t.now <= from + REQUEST_TIMEOUT
  }

  ghost predicate PacedRun(states: seq<System>, turns: seq<Turn>)
    requires IsRun(states, turns)
  {
    forall i :: 0 <= i < |turns| ==> Paced(states[i], turns[i])
  }

  /** In a run that keeps the pauses, a worker's next reply after a failed attempt comes no sooner than the pause
      the code makes: the penalty of the 429s in a row, or as many seconds as attempts have failed. */
  lemma RetriesWait(states: seq<System>, turns: seq<Turn>, j: nat, k: nat)
    requires IsRun(states, turns) && states[0].lim.errors == 0 && PacedRun(states, turns) && j < k < |turns|
    requires Replies(states[j], turns[j]) && turns[j].event != Reply200
    requires states[j].phases[turns[j].worker].attempt < 3
    requires turns[k].worker == turns[j].worker
    requires forall i :: j < i < k && turns[i].worker == turns[j].worker ==> !Replies(states[i], turns[i])
    ensures turns[k].now >=
              turns[j].now + (if turns[j].event == Reply429 then PenaltySeconds(Streak(states, turns, j + 1))
                              else states[j].phases[turns[j].worker].attempt) as real
  {
    FailurePauses(states, turns, j);
    hide Replies, PenaltySeconds, Streak;
    OthersDoNotMove(states, turns, turns[j].worker, j + 1, k);
    assert Paced(states[k], turns[k]);
  }

  /** Some run, one that keeps the pauses if `paced`, leads from s0 to s. */
  ghost predicate Reaches(s0: System, s: System, paced: bool) {
    exists states, turns :: IsRun(states, turns) && Leads(states, s0, s) && (paced ==> PacedRun(states, turns))
  }

  ghost predicate Leads(states: seq<System>, s0: System, s: System) {
    states != [] && states[0] == s0 && states[|states| - 1] == s
  }

  lemma ReachesItself(s: System, paced: bool)
    ensures Reaches(s, s, paced)
  {
    assert IsRun([s], []) && Leads([s], s, s) && PacedRun([s], []);
  }

  lemma ReachesNext(s0: System, s: System, paced: bool, t: Turn)
    requires Reaches(s0, s, paced) && s.lim.errors >= 0 && (paced ==> Paced(s, t))
    ensures Reaches(s0, Step(s, t), paced)
  {
    hide Step;
    var states, turns :| IsRun(states, turns) && Leads(states, s0, s) && (paced ==> PacedRun(states, turns));
    var states', turns' := states + [Step(s, t)], turns + [t];
    assert IsRun(states', turns');
    assert Leads(states', s0, Step(s, t));
    assert paced ==> PacedRun(states', turns');
  }

  // ---------- what no step changes ----------

  /** Windows with a token, with a waiting worker, and not taken yet. */
  function Windows(s: System): nat { |s.grants| + Waiters(s.phases) + s.left }

  ghost predicate SameSetup(s: System, s': System) {
    && s'.lim.rate == s.lim.rate && s'.lim.limit == s.lim.limit
    && |s'.phases| == |s.phases| && Windows(s') == Windows(s)
  }

  lemma StepKeepsSetup(s: System, t: Turn)
    requires Inv(s)
    ensures SameSetup(s, Step(s, t))
  {
    hide BucketInv, CapInv, PenaltyInv, CallInv, TallyInv, HourInv, Gain, Min, HourlyCap, Pause;
    if t.worker < |s.phases| && t.now >= s.clock {
      var s0, w := s.(clock := t.now), t.worker;
      SetOne(s.phases, w, AtLimiter);
      SetOne(s.phases, w, Free);
      SetOne(s.phases, w, Fetching(1, t.now));
      if s.phases[w].Fetching? && t.event != Pass && t.event != Take {
        SetOne(s.phases, w, ReplyStep(s0, w, t.event).phases[w]);
      }
    }
  }

  lemma {:induction false} RunKeepsSetup(states: seq<System>, turns: seq<Turn>, k: nat)
    requires IsRun(states, turns) && Inv(states[0]) && k < |states|
    ensures SameSetup(states[0], states[k]) && Inv(states[k])
  {
    if k > 0 {
      hide Step, Inv;
      RunKeepsSetup(states, turns, k - 1);
      StepKeepsSetup(states[k - 1], turns[k - 1]);
      StepKeepsInv(states[k - 1], turns[k - 1]);
      assert states[k] == Step(states[k - 1], turns[k - 1]);
    }
  }

  // ---------- no more calls than this ----------

  function MinNat(a: int, b: int): int { if a < b then a else b }

  /** Three calls for each token: one for each window at most; and at most those of an hour, starting with a
      full bucket, besides those that all workers but one held when the hour began. */
  function MostCalls(rate: int, workers: int, windows: int): int {
    MAX_RETRIES * MinNat(windows, 3602 * rate + workers - 2)
  }

  lemma HourGrants(s: System)
    requires Inv(s)
    ensures s.tally.grants - s.before.grants <= 3602 * s.lim.rate - 1
  {
    var n := s.tally.grants - s.before.grants;
    if n > 0 {
      var first, last := s.before.grants, |s.grants| - 1;
      assert PairFits(s, first, last);
      GainBelow(s.lim.rate, s.grants[last] - s.grants[first]);
    }
  }

  lemma GainBelow(rate: int, d: real)
    requires rate >= 1 && d < HOUR
    ensures Gain(rate, d) < (3600 * rate) as real
  {
    var r := rate as real;
    assert r * d < r * HOUR;
  }

  lemma CallsAreBounded(s: System)
    requires Inv(s)
    ensures HourCalls(s) <= MostCalls(s.lim.rate, |s.phases|, Windows(s))
    ensures s.lim.limit < 2 ==> HourCalls(s) <= 0
  {
    hide BucketInv, PenaltyInv, Level, Gain;
    HourGrants(s);
    CallsLeftBound(s.phases);
    if s.lim.limit < 2 {
      assert HourlyCap(s.lim) == 0;
    }
  }

  // ---------- a run that makes them ----------

  /** Nothing has succeeded, nobody is blocked, and the cap admits requests. */
  predicate Calm(s: System, rate: int, limit: int) {
    && s.lim.rate == rate >= 1 && s.lim.burst == 2 * rate && s.lim.limit == limit >= 2
    && s.lim.hourly == 0 && s.lim.errors == 0 && s.lim.blocked.Never?
    && 0.0 <= s.lim.tokens <= s.lim.burst as real
    && s.lim.lastRefill <= s.clock && s.lim.hourStart <= s.clock
    && s.tally.calls >= s.before.calls
  }

  lemma CapAdmits(s: System, rate: int, limit: int)
    requires Calm(s, rate, limit)
    ensures HourlyCap(s.lim) >= 1
  {
  }

  /** Worker w takes a window and is granted a token at time u; a new hour begins if the last one is over. */
  function Granted1(s: System, w: nat, u: real): System
    requires w < |s.phases| && s.left > 0
  {
    var rolls := u - s.lim.hourStart >= HOUR;
    s.(clock := u, left := s.left - 1, phases := s.phases[w := Fetching(1, u)], grants := s.grants + [u],
       lim := s.lim.(tokens := Level(s.lim, u) - 1.0, lastRefill := u,
                     hourStart := if rolls then u else s.lim.hourStart),
       tally := s.tally.(grants := s.tally.grants + 1), before := if rolls then s.tally else s.before)
  }

  lemma GrantIsReached(s0: System, s: System, paced: bool, rate: int, limit: int, w: nat, u: real)
    requires Reaches(s0, s, paced) && Calm(s, rate, limit)
    requires w < |s.phases| && s.phases[w].Free? && s.left > 0 && s.clock <= u && Level(s.lim, u) >= 1.0
    ensures Reaches(s0, Granted1(s, w, u), paced)
  {
    hide Reaches, Gain;
    CapAdmits(s, rate, limit);
    hide HourlyCap;
    var s1 := Step(s, Turn(w, Take, u));
    ReachesNext(s0, s, paced, Turn(w, Take, u));
    assert s1 == s.(clock := u, left := s.left - 1, phases := s.phases[w := AtLimiter]);
    ReachesNext(s0, s1, paced, Turn(w, Pass, u));
    PassGrants(s1, w, limit);
    assert s.phases[w := AtLimiter][w := Fetching(1, u)] == s.phases[w := Fetching(1, u)];
    assert Step(s1, Turn(w, Pass, u)) == PassStep(s1, w);
    assert PassStep(s1, w) == Granted1(s, w, u);
  }

  lemma PassGrants(s: System, w: nat, limit: int)
    requires w < |s.phases| && s.lim.hourly == 0 && s.lim.blocked.Never? && HourlyCap(s.lim) >= 1
    requires Level(s.lim, s.clock) >= 1.0
    ensures var rolls := s.clock - s.lim.hourStart >= HOUR;
            PassStep(s, w) == SetPhase(s, w, Fetching(1, s.clock)).(
              grants := s.grants + [s.clock], tally := s.tally.(grants := s.tally.grants + 1),
              before := if rolls then s.tally else s.before,
              lim := s.lim.(tokens := Level(s.lim, s.clock) - 1.0, lastRefill := s.clock,
                            hourStart := if rolls then s.clock else s.lim.hourStart))
  {
    hide Gain;
    assert HourlyCap(RollHour(s.lim, s.clock)) == HourlyCap(s.lim);
    hide HourlyCap;
  }

  /** Worker w's current attempt fails at time u. */
  function Failed(s: System, w: nat, u: real): System
    requires w < |s.phases| && s.phases[w].Fetching?
  {
    var a := s.phases[w].attempt;
    s.(clock := u, phases := s.phases[w := if a < MAX_RETRIES then Fetching(a + 1, u + a as real) else Free],
       tally := s.tally.(calls := s.tally.calls + 1, fails := s.tally.fails + 1))
  }

  lemma FailIsReached(s0: System, s: System, paced: bool, w: nat, u: real)
    requires Reaches(s0, s, paced) && s.lim.errors >= 0 && w < |s.phases| && s.phases[w].Fetching? && s.clock <= u
    requires paced ==> s.phases[w].from <= u <= s.phases[w].from + REQUEST_TIMEOUT
    ensures Reaches(s0, Failed(s, w, u), paced)
  {
    hide Reaches, Gain, Min;
    ReachesNext(s0, s, paced, Turn(w, OtherFailure, u));
    assert Step(s, Turn(w, OtherFailure, u)) == Failed(s, w, u);
  }

  /** Worker w's three attempts all fail at time u. */
  function Failed3(s: System, w: nat, u: real): System
    requires w < |s.phases|
  {
    s.(clock := u, phases := s.phases[w := Free],
       tally := s.tally.(calls := s.tally.calls + 3, fails := s.tally.fails + 3))
  }

  lemma FailsAreReached(s0: System, s: System, w: nat, u: real)
    requires Reaches(s0, s, false) && s.lim.errors >= 0 && w < |s.phases|
    requires s.phases[w].Fetching? && s.phases[w].attempt == 1 && s.clock <= u
    ensures Reaches(s0, Failed3(s, w, u), false)
  {
    hide Reaches;
    var s1 := Failed(s, w, u);
    var s2 := Failed(s1, w, u);
    FailIsReached(s0, s, false, w, u);
    FailIsReached(s0, s1, false, w, u);
    FailIsReached(s0, s2, false, w, u);
    assert Failed(s2, w, u) == Failed3(s, w, u);
  }

  // First, all workers but worker 0 get a token each, an hour apart, and hold on to it.

  /** Workers 1 to c hold a token they have not used, the others have nothing to do. */
  ghost predicate Held(phases: seq<Phase>, c: int) {
    forall v :: 0 <= v < |phases| ==>
      if 1 <= v <= c then phases[v].Fetching? && phases[v].attempt == 1 else phases[v].Free?
  }

  ghost predicate Carried(s: System, rate: int, limit: int, workers: nat, windows: nat, c: nat) {
    && Calm(s, rate, limit) && |s.phases| == workers && s.left == windows - c
    && Held(s.phases, c) && s.tally.calls == 0 && s.before.calls == 0
  }

  /** An hour later the bucket is full. */
  lemma FullAfterAnHour(l: Limiter, t: real)
    requires l.rate >= 1 && l.burst == 2 * l.rate && l.tokens >= 0.0 && l.lastRefill + HOUR <= t
    ensures Level(l, t) == l.burst as real
  {
    var r := l.rate as real;
    assert r * (t - l.lastRefill) >= r * HOUR;
  }

  lemma Carry(s0: System, rate: int, limit: int, workers: nat, windows: nat, c: nat) returns (s: System)
    requires Carried(s0, rate, limit, workers, windows, 0) && c < workers && c < windows
    ensures Reaches(s0, s, false) && Carried(s, rate, limit, workers, windows, c)
  {
    hide Reaches, Level;
    if c == 0 {
      ReachesItself(s0, false);
      s := s0;
    } else {
      var before := Carry(s0, rate, limit, workers, windows, c - 1);
      var u := before.clock + HOUR;
      FullAfterAnHour(before.lim, u);
      GrantIsReached(s0, before, false, rate, limit, c, u);
      s := Granted1(before, c, u);
    }
  }

  // Then worker 0 alone uses up all the tokens of an hour, with three failing calls for each.

  /** When the j-th token of an hour that begins at t can be had at the earliest, and what is left then. */
  function TimeOf(t: real, rate: int, j: int): real
    requires rate >= 1
  {
    if j <= 2 * rate then t else t + (j - 2 * rate) as real / rate as real
  }

  function TokensAfter(rate: int, j: int): real {
    if j <= 2 * rate then (2 * rate - j) as real else 0.0
  }

  ghost predicate Burning(s: System, rate: int, limit: int, workers: nat, windows: nat, c: nat, j: nat, t: real) {
    && Calm(s, rate, limit) && |s.phases| == workers && s.left == windows - c - j
    && Held(s.phases, c) && HourCalls(s) == 3 * j
    && s.lim.hourStart == t && s.clock == s.lim.lastRefill == TimeOf(t, rate, j)
    && s.lim.tokens == TokensAfter(rate, j)
  }

  lemma NextToken(l: Limiter, rate: int, j: nat, t: real)
    requires l.rate == rate >= 1 && l.burst == 2 * rate && l.tokens == TokensAfter(rate, j)
    requires l.lastRefill == TimeOf(t, rate, j) && 1 <= j && j + 1 <= 3602 * rate - 1
    ensures TimeOf(t, rate, j) <= TimeOf(t, rate, j + 1) < t + HOUR
    ensures Level(l, TimeOf(t, rate, j + 1)) >= 1.0
    ensures Level(l, TimeOf(t, rate, j + 1)) - 1.0 == TokensAfter(rate, j + 1)
  {
    var r := rate as real;
    if j < 2 * rate {
      assert Gain(rate, 0.0) == 0.0;
    } else {
      var x := (j - 2 * rate) as real;
      assert (j + 1 - 2 * rate) as real == x + 1.0;
      DivideNext(x, r);
      assert r * (1.0 / r) == 1.0;
      assert x + 1.0 < 3600.0 * r;
      QuotientBelow(x + 1.0, r, 3600.0);
    }
  }

  lemma DivideNext(x: real, r: real)
    requires r > 0.0
    ensures (x + 1.0) / r - x / r == 1.0 / r
  {
  }

  lemma QuotientBelow(x: real, r: real, q: real)
    requires r > 0.0 && x < q * r
    ensures x / r < q
  {
    assert (x / r) * r == x;
  }

  lemma BurnFirst(s0: System, s: System, rate: int, limit: int, workers: nat, windows: nat, c: nat) returns (s': System)
    requires Reaches(s0, s, false) && Carried(s, rate, limit, workers, windows, c) && c < workers && c < windows
    ensures Reaches(s0, s', false) && Burning(s', rate, limit, workers, windows, c, 1, s.clock + HOUR)
  {
    hide Reaches, Level;
    var u := s.clock + HOUR;
    FullAfterAnHour(s.lim, u);
    GrantIsReached(s0, s, false, rate, limit, 0, u);
    var g := Granted1(s, 0, u);
    FailsAreReached(s0, g, 0, u);
    s' := Failed3(g, 0, u);
  }

  lemma Burn(s0: System, s: System, rate: int, limit: int, workers: nat, windows: nat, c: nat, h: nat)
    returns (s': System, t: real)
    requires Reaches(s0, s, false) && Carried(s, rate, limit, workers, windows, c) && c < workers
    requires 1 <= h <= 3602 * rate - 1 && c + h <= windows
    ensures Reaches(s0, s', false) && Burning(s', rate, limit, workers, windows, c, h, t)
  {
    hide Reaches, Level, TimeOf, TokensAfter;
    if h == 1 {
      s' := BurnFirst(s0, s, rate, limit, workers, windows, c);
      t := s.clock + HOUR;
    } else {
      var b;
      b, t := Burn(s0, s, rate, limit, workers, windows, c, h - 1);
      s' := BurnNext(s0, b, rate, limit, workers, windows, c, h - 1, t);
    }
  }

  lemma BurnNext(s0: System, b: System, rate: int, limit: int, workers: nat, windows: nat, c: nat, j: nat, t: real)
    returns (s': System)
    requires Reaches(s0, b, false) && Burning(b, rate, limit, workers, windows, c, j, t) && workers > 0
    requires 1 <= j && j + 1 <= 3602 * rate - 1 && c + j < windows
    ensures Reaches(s0, s', false) && Burning(s', rate, limit, workers, windows, c, j + 1, t)
  {
    hide Reaches, Level;
    NextToken(b.lim, rate, j, t);
    hide TimeOf, TokensAfter;
    var u := TimeOf(t, rate, j + 1);
    GrantIsReached(s0, b, false, rate, limit, 0, u);
    var g := Granted1(b, 0, u);
    FailsAreReached(s0, g, 0, u);
    s' := Failed3(g, 0, u);
    TokensInRange(rate, j + 1);
  }

  lemma TokensInRange(rate: int, j: nat)
    requires rate >= 1
    ensures 0.0 <= TokensAfter(rate, j) <= (2 * rate) as real
  {
  }

  // Last, the others use theirs.

  ghost predicate Drained(s: System, c: nat, calls: int) {
    s.lim.errors == 0 && Held(s.phases, c) && HourCalls(s) == calls
  }

  lemma Drain(s0: System, s: System, c: nat, calls: int) returns (s': System)
    requires Reaches(s0, s, false) && Drained(s, c, calls) && c < |s.phases|
    ensures Reaches(s0, s', false) && s'.lim.limit == s.lim.limit && HourCalls(s') == calls + 3 * c
    decreases c
  {
    hide Reaches;
    if c == 0 {
      s' := s;
    } else {
      FailsAreReached(s0, s, c, s.clock);
      s' := Drain(s0, Failed3(s, c, s.clock), c - 1, calls + 3);
    }
  }

  lemma MostCallsAreMade(s0: System, rate: int, limit: int, workers: nat, windows: nat) returns (s: System)
    requires Carried(s0, rate, limit, workers, windows, 0) && workers > 0 && windows > 0
    ensures Reaches(s0, s, false) && HourCalls(s) == MostCalls(rate, workers, windows) && s.lim.limit == limit
  {
    hide Reaches, TimeOf, TokensAfter;
    var tokens := MinNat(windows, 3602 * rate + workers - 2);
    var c := MinNat(workers - 1, windows - 1);
    var held := Carry(s0, rate, limit, workers, windows, c);
    var b, t := Burn(s0, held, rate, limit, workers, windows, c, tokens - c);
    s := Drain(s0, b, c, 3 * (tokens - c));
  }

  // ---------- the answer ----------

  /** In some run the calls of one hour of the limiter exceed its limit. */
  ghost predicate CanExceed(tokensPerSecond: int, hourlyLimit: int, workers: nat, windows: nat, now: real,
                            paced: bool) {
    exists s :: Reaches(Init(tokensPerSecond, hourlyLimit, workers, windows, now), s, paced)
                && HourCalls(s) > s.lim.limit
  }

  function RateOf(tokensPerSecond: int): int { if tokensPerSecond <= 0 then 8 else tokensPerSecond }

  function LimitOf(hourlyLimit: int): int { if hourlyLimit <= 0 then 1000 else hourlyLimit }

  lemma InitCarries(tokensPerSecond: int, hourlyLimit: int, workers: nat, windows: nat, now: real)
    requires LimitOf(hourlyLimit) >= 2
    ensures Carried(Init(tokensPerSecond, hourlyLimit, workers, windows, now), RateOf(tokensPerSecond),
                    LimitOf(hourlyLimit), workers, windows, 0)
  {
  }

  lemma ReachedIsBounded(s0: System, s: System, paced: bool, windows: nat)
    requires Inv(s0) && Reaches(s0, s, paced) && Windows(s0) == windows
    ensures HourCalls(s) <= MostCalls(s0.lim.rate, |s0.phases|, windows)
    ensures s0.lim.limit < 2 ==> HourCalls(s) <= 0
    ensures s.lim.limit == s0.lim.limit
  {
    hide Inv;
    var states, turns :| IsRun(states, turns) && Leads(states, s0, s) && (paced ==> PacedRun(states, turns));
    RunKeepsSetup(states, turns, |states| - 1);
    CallsAreBounded(s);
  }

  /** Exactly for which configurations the limit can be exceeded, the pauses between attempts left open: a limit
      of at least two, below three calls for each of as many tokens as an hour has, or as there are windows. */
  lemma FailedCallsEscapeTheCap(tokensPerSecond: int, hourlyLimit: int, workers: nat, windows: nat, now: real)
    requires workers > 0
    ensures CanExceed(tokensPerSecond, hourlyLimit, workers, windows, now, false)
       <==> 2 <= LimitOf(hourlyLimit) < MostCalls(RateOf(tokensPerSecond), workers, windows)
  {
    var s0 := Init(tokensPerSecond, hourlyLimit, workers, windows, now);
    InitInv(tokensPerSecond, hourlyLimit, workers, windows, now);
    NoneInFlight(workers);
    assert Windows(s0) == windows;
    hide Inv, Reaches, Windows, MostCalls;
    if CanExceed(tokensPerSecond, hourlyLimit, workers, windows, now, false) {
      var s :| Reaches(s0, s, false) && HourCalls(s) > s.lim.limit;
      ReachedIsBounded(s0, s, false, windows);
    }
    if 2 <= LimitOf(hourlyLimit) < MostCalls(RateOf(tokensPerSecond), workers, windows) {
      InitCarries(tokensPerSecond, hourlyLimit, workers, windows, now);
      NoWindowsNoCalls(RateOf(tokensPerSecond), workers);
      var s := MostCallsAreMade(s0, RateOf(tokensPerSecond), LimitOf(hourlyLimit), workers, windows);
    }
  }

  lemma NoWindowsNoCalls(rate: int, workers: nat)
    ensures MostCalls(rate, workers, 0) <= 0
  {
  }
}
