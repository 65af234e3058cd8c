/** Several backfill workers sharing one limiter: services/weatherlink-kafka/service/backfill.go,
    the worker loop and fetchHistoricDataWithRetry. */
module FetchWorkers {
  import opened RateLimiting

  const MAX_RETRIES := 3

  /** A worker has no window, waits for a token for its window, or has one and is at the given attempt of its
      request. `from` is when the code's pause before that attempt ends. */
  datatype Phase = Free | AtLimiter | Fetching(attempt: int, from: real)

  /** What happens to a worker: it takes a window, makes a pass through Wait, or gets the reply to its current
      attempt. */
  datatype Event = Take | Pass | Reply200 | Reply429 | OtherFailure

  datatype Turn = Turn(worker: nat, event: Event, now: real)

  /** A 429 seen at time `at` as the count-th in a row, when `grants` tokens had been granted. */
  datatype Penalty = Penalty(at: real, count: int, grants: nat)

  /** History: the API calls made, those of them that succeeded and failed, and the tokens granted. */
  datatype Tally = Tally(calls: nat, oks: nat, fails: nat, grants: nat)

  /** The limiter, the latest clock reading, the windows not taken yet, each worker's phase; then history: the
      times of the grants, the penalties, the tally, and the tally when the limiter's current hour began. */
  datatype System = System(lim: Limiter, clock: real, left: nat, phases: seq<Phase>,
                           grants: seq<real>, penalties: seq<Penalty>, tally: Tally, before: Tally)

  function Init(tokensPerSecond: int, hourlyLimit: int, workers: nat, windows: nat, now: real): System {
    System(Start(tokensPerSecond, hourlyLimit, now), now, windows, seq(workers, i => Free), [], [],
           Tally(0, 0, 0, 0), Tally(0, 0, 0, 0))
  }

  /** The pause after a failed attempt. */
  function Pause(s: System, attempt: int, e: Event): real
    requires s.lim.errors >= 0
  {
    if e == Reply429 then Backoff(s.lim.errors + 1) as real else attempt as real
  }

  function AfterFailure(s: System, attempt: int, e: Event): Phase
    requires s.lim.errors >= 0
  {
    if attempt < MAX_RETRIES then Fetching(attempt + 1, s.clock + Pause(s, attempt, e)) else Free
  }

  function SetPhase(s: System, w: nat, p: Phase): System
    requires w < |s.phases|
  {
    s.(phases := s.phases[w := p])
  }

  function TakeStep(s: System, w: nat): System
    requires w < |s.phases|
  {
    if s.left == 0 then s else SetPhase(s, w, AtLimiter).(left := s.left - 1)
  }

  function PassStep(s: System, w: nat): System
    requires w < |s.phases|
  {
    var (l, v) := WaitOnce(s.lim, s.clock);
    var s1 := s.(lim := l, before := if l.hourStart != s.lim.hourStart then s.tally else s.before);
    if v == Granted
    then SetPhase(s1, w, Fetching(1, s.clock)).(grants := s.grants + [s.clock],
                                                tally := s.tally.(grants := s.tally.grants + 1))
    else s1
  }

  function ReplyStep(s: System, w: nat, e: Event): System
    requires w < |s.phases| && s.phases[w].Fetching? && s.lim.errors >= 0
  {
    var failed := SetPhase(s, w, AfterFailure(s, s.phases[w].attempt, e)).(
      tally := s.tally.(calls := s.tally.calls + 1, fails := s.tally.fails + 1));
    match e
    case Reply200 =>
      SetPhase(s, w, Free).(lim := RecordRequest(s.lim),
                            tally := s.tally.(calls := s.tally.calls + 1, oks := s.tally.oks + 1))
    case Reply429 =>
      failed.(lim := RecordError(s.lim, 429, s.clock).0,
              penalties := s.penalties + [Penalty(s.clock, s.lim.errors + 1, |s.grants|)])
    case _ => failed
  }

  /** One step of one worker. A turn that does not fit the worker's phase, or whose clock reading would
      go back, changes nothing; so every sequence of turns is a run. */
  function Step(s: System, t: Turn): System
    requires s.lim.errors >= 0
  {
    if t.worker >= |s.phases| || t.now < s.clock then s
    else
      var s0 := s.(clock := t.now);
      match s.phases[t.worker]
      case Free => if t.event == Take then TakeStep(s0, t.worker) else s0
      case AtLimiter => if t.event == Pass then PassStep(s0, t.worker) else s0
      case Fetching(_, _) => if t.event == Pass || t.event == Take then s0 else ReplyStep(s0, t.worker, t.event)
  }

  // ---------- what every step keeps ----------

  function InFlight(phases: seq<Phase>): nat {
    if phases == [] then 0 else InFlight(phases[1..]) + (if phases[0].Fetching? then 1 else 0)
  }

  /** API calls the workers may still make on the tokens they hold. */
  function CallsLeft(phases: seq<Phase>): int {
    if phases == [] then 0
    else CallsLeft(phases[1..]) + (if phases[0].Fetching? then MAX_RETRIES + 1 - phases[0].attempt else 0)
  }

  /** Workers that have a window and no token. */
  function Waiters(phases: seq<Phase>): nat {
    if phases == [] then 0 else Waiters(phases[1..]) + (if phases[0].AtLimiter? then 1 else 0)
  }

  lemma {:induction false} SetOne(phases: seq<Phase>, w: nat, p: Phase)
    requires w < |phases|
    ensures InFlight(phases[w := p]) + (if phases[w].Fetching? then 1 else 0)
         == InFlight(phases) + (if p.Fetching? then 1 else 0)
    ensures CallsLeft(phases[w := p]) + (if phases[w].Fetching? then MAX_RETRIES + 1 - phases[w].attempt else 0)
         == CallsLeft(phases) + (if p.Fetching? then MAX_RETRIES + 1 - p.attempt else 0)
    ensures Waiters(phases[w := p]) + (if phases[w].AtLimiter? then 1 else 0)
         == Waiters(phases) + (if p.AtLimiter? then 1 else 0)
    ensures InFlight(phases) <= |phases|
  {
    InFlightBound(phases);
    if w == 0 {
      assert phases[w := p][1..] == phases[1..];
    } else {
      SetOne(phases[1..], w - 1, p);
      assert phases[w := p][1..] == phases[1..][w - 1 := p];
    }
  }

  lemma InFlightBound(phases: seq<Phase>)
    ensures InFlight(phases) <= |phases|
  {
  }

  lemma NoneInFlight(n: nat)
    ensures var all := seq(n, i => Free); InFlight(all) == 0 && CallsLeft(all) == 0 && Waiters(all) == 0
  {
    if n > 0 {
      NoneInFlight(n - 1);
      assert seq(n, i => Free)[1..] == seq(n - 1, i => Free);
    }
  }

  /** The grants from the i-th on, plus the tokens now in the bucket, fit in one burst and what was
      earned since the i-th grant. */
  ghost predicate Fits(s: System, i: int)
    requires 0 <= i < |s.grants|
  {
    (|s.grants| - i) as real + Level(s.lim, s.clock) <= s.lim.burst as real + Gain(s.lim.rate, s.clock - s.grants[i])
  }

  ghost predicate PairFits(s: System, i: int, j: int)
    requires 0 <= i <= j < |s.grants|
  {
    (j - i + 1) as real <= s.lim.burst as real + Gain(s.lim.rate, s.grants[j] - s.grants[i])
  }

  ghost predicate BucketInv(s: System) {
    && s.lim.lastRefill <= s.clock
    && (forall i :: 0 <= i < |s.grants| ==> s.grants[i] <= s.clock)
    && (forall i, j :: 0 <= i <= j < |s.grants| ==> s.grants[i] <= s.grants[j])
    && (forall i :: 0 <= i < |s.grants| ==> Fits(s, i))
    && (forall i, j :: 0 <= i <= j < |s.grants| ==> PairFits(s, i, j))
  }

  ghost predicate CapInv(s: System) {
    && s.lim.hourly + InFlight(s.phases) <= HourlyCap(s.lim) - 1 + |s.phases|
    && (HourlyCap(s.lim) == 0 ==> InFlight(s.phases) == 0 && s.lim.hourly == 0 && s.grants == [])
    && HourlyCap(s.lim) >= 0
  }

  ghost predicate PenaltyHolds(s: System, p: Penalty) {
    && p.count >= 1
    && s.lim.blocked.Until? && s.lim.blocked.t >= p.at + Backoff(p.count) as real
    && forall i :: p.grants <= i < |s.grants| ==> s.grants[i] >= p.at + Backoff(p.count) as real
  }

  ghost predicate PenaltyInv(s: System) {
    forall p :: p in s.penalties ==> PenaltyHolds(s, p)
  }

  ghost predicate AttemptsOk(phases: seq<Phase>) {
    forall w :: 0 <= w < |phases| && phases[w].Fetching? ==> 1 <= phases[w].attempt <= MAX_RETRIES
  }

  ghost predicate CallInv(s: System) {
    && s.tally.calls + CallsLeft(s.phases) <= MAX_RETRIES * |s.grants|
    && AttemptsOk(s.phases)
  }

  /** Every call succeeded or failed; and the hourly counter is the successes of the limiter's hour. */
  ghost predicate TallyInv(s: System) {
    && s.tally.calls == s.tally.oks + s.tally.fails && s.tally.grants == |s.grants|
    && s.before.calls == s.before.oks + s.before.fails
    && s.before.oks <= s.tally.oks && s.before.fails <= s.tally.fails && s.before.grants <= s.tally.grants
    && s.lim.hourly == s.tally.oks - s.before.oks
  }

  function HourCalls(s: System): int { s.tally.calls - s.before.calls }

  /** The calls of the limiter's hour are paid for by its tokens and by those workers held when it began, all
      but one; and its tokens were all granted within an hour of its beginning. */
  ghost predicate HourInv(s: System) {
    && HourCalls(s) + CallsLeft(s.phases) <= MAX_RETRIES * (s.tally.grants - s.before.grants + |s.phases| - 1)
    && s.lim.hourStart <= s.clock
    && s.before.grants <= |s.grants|
    && forall i :: s.before.grants <= i < |s.grants| ==> s.lim.hourStart <= s.grants[i] < s.lim.hourStart + HOUR
  }

  ghost predicate Inv(s: System) {
    && Valid(s.lim) && |s.phases| > 0
    && BucketInv(s) && CapInv(s) && PenaltyInv(s) && CallInv(s) && TallyInv(s) && HourInv(s)
  }

  lemma InitInv(tokensPerSecond: int, hourlyLimit: int, workers: nat, windows: nat, now: real)
    requires workers > 0
    ensures Inv(Init(tokensPerSecond, hourlyLimit, workers, windows, now))
  {
    NoneInFlight(workers);
  }

  /** Time passes: the bucket may fill, no faster than it earns. */
  lemma ClockKeepsInv(s: System, now: real)
    requires Inv(s) && s.clock <= now
    ensures Inv(s.(clock := now))
  {
    var s' := s.(clock := now);
    LevelGrows(s.lim, s.clock, now);
    forall i | 0 <= i < |s.grants| ensures Fits(s', i) {
      assert Fits(s, i);
      GainFrom(s.lim.rate, s.grants[i], s.clock, now);
    }
    assert forall i, j | 0 <= i <= j < |s.grants| :: PairFits(s, i, j) ==> PairFits(s', i, j);
    assert forall p | p in s.penalties :: PenaltyHolds(s, p);
  }

  lemma PassKeepsBucket(s: System, w: nat)
    requires Inv(s) && w < |s.phases|
    ensures BucketInv(PassStep(s, w)) && Valid(PassStep(s, w).lim)
  {
    var s' := PassStep(s, w);
    WaitOnceMeaning(s.lim, s.clock);
    LevelGrows(s.lim, s.clock, s.clock);
    assert Gain(s.lim.rate, s.clock - s.clock) == 0.0;
    hide Gain, Level;
    assert forall i | 0 <= i < |s.grants| :: Fits(s, i) && s'.grants[i] == s.grants[i];
    assert forall i | 0 <= i < |s'.grants| :: Fits(s', i);
    forall i, j | 0 <= i <= j < |s'.grants| ensures PairFits(s', i, j) {
      if j < |s.grants| {
        assert PairFits(s, i, j);
      } else {
        assert Fits(s', i);
        LevelGrows(s'.lim, s'.clock, s'.clock);
      }
    }
  }

  /** What a pass leaves of the limiter: the hour goes on, or a new one begins with the counter at 0. */
  lemma PassOutcome(s: System, w: nat)
    requires w < |s.phases|
    ensures var s', l := PassStep(s, w), s.lim;
            var granted := WaitOnce(l, s.clock).1 == Granted;
            && s'.lim.errors == l.errors && s'.lim.blocked == l.blocked && s'.lim.limit == l.limit
            && s'.penalties == s.penalties && s'.clock == s.clock
            && (if s'.lim.hourStart == l.hourStart then s'.lim.hourly == l.hourly && s'.before == s.before
                else s'.lim.hourly == 0 && s'.lim.hourStart == s.clock && s'.before == s.tally)
            && s'.phases == (if granted then s.phases[w := Fetching(1, s.clock)] else s.phases)
            && s'.grants == (if granted then s.grants + [s.clock] else s.grants)
            && s'.tally == (if granted then s.tally.(grants := s.tally.grants + 1) else s.tally)
            && (granted ==> s.clock < s'.lim.hourStart + HOUR)
  {
    hide Gain, Min;
  }

  lemma PassKeepsCap(s: System, w: nat)
    requires Inv(s) && w < |s.phases| && s.phases[w].AtLimiter?
    ensures CapInv(PassStep(s, w)) && CallInv(PassStep(s, w))
  {
    hide BucketInv, PenaltyInv, TallyInv, HourInv, PassStep, WaitOnce, Level;
    PassOutcome(s, w);
    GrantedBelowCap(s, w);
    SetOne(s.phases, w, Fetching(1, s.clock));
    InFlightBound(s.phases[w := Fetching(1, s.clock)]);
    assert HourlyCap(PassStep(s, w).lim) == HourlyCap(s.lim);
  }

  lemma GrantedBelowCap(s: System, w: nat)
    requires w < |s.phases|
    ensures WaitOnce(s.lim, s.clock).1 == Granted ==> PassStep(s, w).lim.hourly < HourlyCap(s.lim)
  {
    hide Gain, Min;
    assert HourlyCap(PassStep(s, w).lim) == HourlyCap(s.lim);
  }

  lemma PassKeepsPenalties(s: System, w: nat)
    requires Inv(s) && w < |s.phases|
    ensures PenaltyInv(PassStep(s, w))
  {
    var s' := PassStep(s, w);
    PassOutcome(s, w);
    WaitOnceMeaning(s.lim, s.clock);
    hide BucketInv, CapInv, CallInv, TallyInv, HourInv, PassStep, WaitOnce, Level, Backoff;
    forall p | p in s'.penalties ensures PenaltyHolds(s', p) {
      assert PenaltyHolds(s, p);
    }
  }

  lemma PassKeepsHour(s: System, w: nat)
    requires Inv(s) && w < |s.phases| && s.phases[w].AtLimiter?
    ensures TallyInv(PassStep(s, w)) && HourInv(PassStep(s, w))
  {
    hide BucketInv, CapInv, PenaltyInv, PassStep, WaitOnce, Level;
    PassOutcome(s, w);
    SetOne(s.phases, w, Fetching(1, s.clock));
    SetOne(s.phases, w, Free);
    CallsLeftBound(s.phases[w := Free]);
    OneFree(s.phases, w);
  }

  /** A worker that holds no token leaves three calls for each of the others at most. */
  lemma OneFree(phases: seq<Phase>, w: nat)
    requires w < |phases| && !phases[w].Fetching? && AttemptsOk(phases)
    ensures CallsLeft(phases) <= MAX_RETRIES * (|phases| - 1)
  {
    CallsLeftSplit(phases, w);
    CallsLeftBound(phases[..w]);
    CallsLeftBound(phases[w + 1..]);
  }

  lemma {:induction false} CallsLeftSplit(phases: seq<Phase>, w: nat)
    requires w < |phases| && !phases[w].Fetching?
    ensures CallsLeft(phases) == CallsLeft(phases[..w]) + CallsLeft(phases[w + 1..])
  {
    if w == 0 {
      assert phases[..0] == [];
    } else {
      CallsLeftSplit(phases[1..], w - 1);
      assert phases[..w][1..] == phases[1..][..w - 1] && phases[1..][w..] == phases[w + 1..];
    }
  }

  lemma {:induction false} CallsLeftBound(phases: seq<Phase>)
    requires AttemptsOk(phases)
    ensures 0 <= CallsLeft(phases) <= MAX_RETRIES * |phases|
  {
    if phases != [] {
      CallsLeftBound(phases[1..]);
    }
  }

  lemma PassKeepsInv(s: System, w: nat)
    requires Inv(s) && w < |s.phases| && s.phases[w].AtLimiter?
    ensures Inv(PassStep(s, w))
  {
    PassKeepsBucket(s, w);
    PassKeepsCap(s, w);
    PassKeepsPenalties(s, w);
    PassKeepsHour(s, w);
    PassOutcome(s, w);
    hide PassStep, BucketInv, CapInv, PenaltyInv, CallInv, TallyInv, HourInv, WaitOnce;
  }

  lemma TakeKeepsInv(s: System, w: nat)
    requires Inv(s) && w < |s.phases| && s.phases[w].Free?
    ensures Inv(TakeStep(s, w))
  {
    var s' := TakeStep(s, w);
    SetOne(s.phases, w, AtLimiter);
    hide Gain, Min, Level;
    assert forall i | 0 <= i < |s.grants| :: Fits(s, i) ==> Fits(s', i);
    assert forall i, j | 0 <= i <= j < |s.grants| :: PairFits(s, i, j) ==> PairFits(s', i, j);
    forall p | p in s'.penalties ensures PenaltyHolds(s', p) {
      assert PenaltyHolds(s, p);
    }
  }

  lemma ReplyKeepsAccounts(s: System, w: nat, e: Event)
    requires Inv(s) && w < |s.phases| && s.phases[w].Fetching? && e != Pass && e != Take
    ensures var s' := ReplyStep(s, w, e);
            CapInv(s') && CallInv(s') && TallyInv(s') && HourInv(s')
  {
    hide BucketInv, PenaltyInv, Level, Pause, Backoff;
    var s' := ReplyStep(s, w, e);
    var p := s'.phases[w];
    assert s'.phases == s.phases[w := p];
    SetOne(s.phases, w, p);
    assert HourlyCap(s'.lim) == HourlyCap(s.lim);
  }

  lemma ReplyKeepsInv(s: System, w: nat, e: Event)
    requires Inv(s) && w < |s.phases| && s.phases[w].Fetching? && e != Pass && e != Take
    ensures Inv(ReplyStep(s, w, e))
  {
    var s' := ReplyStep(s, w, e);
    ReplyKeepsAccounts(s, w, e);
    hide Gain, Min, CapInv, CallInv, TallyInv, HourInv, Pause, AfterFailure;
    assert Level(s'.lim, s'.clock) == Level(s.lim, s.clock);
    assert forall i | 0 <= i < |s.grants| :: Fits(s, i) ==> Fits(s', i);
    assert forall i, j | 0 <= i <= j < |s.grants| :: PairFits(s, i, j) ==> PairFits(s', i, j);
    forall q | q in s'.penalties ensures PenaltyHolds(s', q) {
      assert q in s.penalties ==> PenaltyHolds(s, q);
    }
  }

  lemma StepKeepsInv(s: System, t: Turn)
    requires Inv(s)
    ensures Inv(Step(s, t))
  {
    hide Inv, TakeStep, PassStep, ReplyStep;
    if t.worker < |s.phases| && t.now >= s.clock {
      var s0 := s.(clock := t.now);
      ClockKeepsInv(s, t.now);
      match s.phases[t.worker]
      case Free => if t.event == Take { TakeKeepsInv(s0, t.worker); }
      case AtLimiter => if t.event == Pass { PassKeepsInv(s0, t.worker); }
      case Fetching(_, _) =>
        if t.event != Pass && t.event != Take { ReplyKeepsInv(s0, t.worker, t.event); }
    }
  }

  // ---------- whole runs ----------

  ghost predicate IsRun(states: seq<System>, turns: seq<Turn>) {
    && |states| == |turns| + 1
    && forall i :: 0 <= i < |turns| ==> states[i].lim.errors >= 0 && states[i + 1] == Step(states[i], turns[i])
  }

  lemma {:induction false} RunKeepsInv(states: seq<System>, turns: seq<Turn>, k: nat)
    requires IsRun(states, turns) && Inv(states[0]) && k < |states|
    ensures Inv(states[k])
  {
    if k > 0 {
      RunKeepsInv(states, turns, k - 1);
      StepKeepsInv(states[k - 1], turns[k - 1]);
    }
  }

  /** The grants of a closed interval of time. */
  function GrantsIn(s: System, from: real, upto: real): set<int> {
    set k | 0 <= k < |s.grants| && from <= s.grants[k] <= upto
  }

  /** A set of indices from i to j has at most j - i + 1 members. */
  lemma {:induction false} SizeBetween(ks: set<int>, i: int, j: int)
    requires i <= j + 1 && forall k :: k in ks ==> i <= k <= j
    ensures |ks| <= j - i + 1
    decreases j - i + 1
  {
    if ks != {} {
      var k := Member(ks);
      SizeBetween(ks - {j}, i, j - 1);
    }
  }

  lemma Member<T>(s: set<T>) returns (x: T)
    requires s != {}
    ensures x in s
  {
    x :| x in s;
  }

  lemma {:induction false} Ends(ks: set<int>) returns (i: int, j: int)
    requires ks != {}
    ensures i in ks && j in ks && forall k :: k in ks ==> i <= k <= j
    decreases |ks|
  {
    var one := Member(ks);
    i, j := one, one;
    var others := ks - {one};
    if others != {} {
      var lo, hi := Ends(others);
      i, j := if one < lo then one else lo, if one > hi then one else hi;
    }
    forall k | k in ks ensures i <= k <= j {
      assert k == one || k in others;
    }
  }

  lemma GainMonotone(rate: int, a: real, b: real)
    requires rate >= 0 && a <= b
    ensures Gain(rate, a) <= Gain(rate, b)
  {
    GainAdds(rate, a, b - a);
    GainNonNegative(rate, b - a);
  }

  lemma GrantsFit(s: System, from: real, upto: real)
    requires Valid(s.lim) && BucketInv(s) && from <= upto
    ensures |GrantsIn(s, from, upto)| as real <= s.lim.burst as real + Gain(s.lim.rate, upto - from)
  {
    GainNonNegative(s.lim.rate, upto - from);
    hide Gain, Fits;
    if GrantsIn(s, from, upto) != {} {
      var i, j := Ends(GrantsIn(s, from, upto));
      SizeBetween(GrantsIn(s, from, upto), i, j);
      assert PairFits(s, i, j);
      GainMonotone(s.lim.rate, s.grants[j] - s.grants[i], upto - from);
    }
  }

  /** Any number of workers, any run: the grants in any interval of length d number at most burst + rate * d,
      and the tokens are always between 0 and burst. */
  lemma GrantBound(states: seq<System>, turns: seq<Turn>, k: nat, from: real, upto: real)
    requires IsRun(states, turns) && Inv(states[0]) && k < |states| && from <= upto
    ensures var s := states[k];
            |GrantsIn(s, from, upto)| as real <= s.lim.burst as real + s.lim.rate as real * (upto - from)
    ensures 0.0 <= states[k].lim.tokens <= states[k].lim.burst as real
  {
    hide BucketInv, CapInv, PenaltyInv, CallInv, TallyInv, HourInv, IsRun;
    RunKeepsInv(states, turns, k);
    GrantsFit(states[k], from, upto);
  }

  /** The hourly counter is the number of requests that succeeded in the limiter's current hour, and never
      exceeds the cap by more than the workers that were already past the limiter. */
  lemma HourlyBound(states: seq<System>, turns: seq<Turn>, k: nat)
    requires IsRun(states, turns) && Inv(states[0]) && k < |states|
    ensures states[k].lim.hourly == states[k].tally.oks - states[k].before.oks
    ensures states[k].lim.hourly <= (states[k].lim.limit as real * 0.9).Floor - 1 + |states[k].phases|
  {
    RunKeepsInv(states, turns, k);
  }

  function HourFails(s: System): int { s.tally.fails - s.before.fails }

  /** The API calls of the limiter's hour are those it counts and those that failed. So the cap bounds them but
      for the failures, and the counter is exact if and only if none has failed. */
  lemma HourCallsAre(states: seq<System>, turns: seq<Turn>, k: nat)
    requires IsRun(states, turns) && Inv(states[0]) && k < |states|
    ensures HourCalls(states[k]) == states[k].lim.hourly + HourFails(states[k])
    ensures HourFails(states[k]) >= 0
    ensures HourCalls(states[k])
         <= (states[k].lim.limit as real * 0.9).Floor - 1 + |states[k].phases| + HourFails(states[k])
    ensures HourCalls(states[k]) == states[k].lim.hourly <==> HourFails(states[k]) == 0
  {
    RunKeepsInv(states, turns, k);
  }

  // ---------- 429s in a row ----------

  /** The turn is the reply to a request that its worker has made. */
  predicate Replies(s: System, t: Turn) {
    && t.worker < |s.phases| && s.clock <= t.now && s.phases[t.worker].Fetching?
    && (t.event == Reply200 || t.event == Reply429 || t.event == OtherFailure)
  }

  /** The 429s among the replies of the first k turns since the last success; other failures do not matter. */
  function Streak(states: seq<System>, turns: seq<Turn>, k: nat): nat
    requires k <= |turns| <= |states|
  {
    if k == 0 then 0
    else if !Replies(states[k - 1], turns[k - 1]) then Streak(states, turns, k - 1)
    else
      match turns[k - 1].event
      case Reply200 => 0
      case Reply429 => Streak(states, turns, k - 1) + 1
      case _ => Streak(states, turns, k - 1)
  }

  lemma StepErrors(s: System, t: Turn)
    requires s.lim.errors >= 0
    ensures var s' := Step(s, t);
            && s'.lim.errors == (if !Replies(s, t) || t.event == OtherFailure then s.lim.errors
                                 else if t.event == Reply200 then 0 else s.lim.errors + 1)
            && s'.penalties == (if Replies(s, t) && t.event == Reply429
                                then s.penalties + [Penalty(t.now, s.lim.errors + 1, |s.grants|)] else s.penalties)
  {
    hide Gain, Min, Pause, AfterFailure, Backoff;
  }

  /** In every run the limiter's error count is the number of 429s in a row. */
  lemma {:induction false} ErrorsAreStreak(states: seq<System>, turns: seq<Turn>, k: nat)
    requires IsRun(states, turns) && states[0].lim.errors == 0 && k <= |turns|
    ensures states[k].lim.errors == Streak(states, turns, k)
  {
    if k > 0 {
      ErrorsAreStreak(states, turns, k - 1);
      StepErrors(states[k - 1], turns[k - 1]);
      hide Step, Replies;
    }
  }

  lemma {:induction false} PenaltyStays(states: seq<System>, turns: seq<Turn>, p: Penalty, j: nat, k: nat)
    requires IsRun(states, turns) && j <= k < |states| && p in states[j].penalties
    ensures p in states[k].penalties
    decreases k - j
  {
    if j < k {
      StepErrors(states[j], turns[j]);
      hide Step;
      PenaltyStays(states, turns, p, j + 1, k);
    }
  }

  lemma PenaltyRecorded(states: seq<System>, turns: seq<Turn>, j: nat, k: nat)
    requires IsRun(states, turns) && states[0].lim.errors == 0 && j < k < |states|
    requires Replies(states[j], turns[j]) && turns[j].event == Reply429
    ensures Penalty(turns[j].now, Streak(states, turns, j + 1), |states[j].grants|) in states[k].penalties
  {
    ErrorsAreStreak(states, turns, j);
    StepErrors(states[j], turns[j]);
    hide Step, Replies;
    PenaltyStays(states, turns, Penalty(turns[j].now, Streak(states, turns, j + 1), |states[j].grants|), j + 1, k);
  }

  /** After a 429 that is the n-th since the last success, no worker is granted a token for 1, 2, 4 or, from the
      fourth on, 8 seconds, however the run goes on. */
  lemma PenaltyRespected(states: seq<System>, turns: seq<Turn>, j: nat, k: nat, i: nat)
    requires IsRun(states, turns) && Inv(states[0]) && states[0].lim.errors == 0 && j < k < |states|
    requires Replies(states[j], turns[j]) && turns[j].event == Reply429
    requires |states[j].grants| <= i < |states[k].grants|
    ensures var n := Streak(states, turns, j + 1);
            && n >= 1
            && states[k].grants[i]
               >= turns[j].now + (if n == 1 then 1.0 else if n == 2 then 2.0 else if n == 3 then 4.0 else 8.0)
  {
    RunKeepsInv(states, turns, k);
    PenaltyRecorded(states, turns, j, k);
    var n := Streak(states, turns, j + 1);
    assert PenaltyHolds(states[k], Penalty(turns[j].now, n, |states[j].grants|));
    BackoffSeconds(n);
    hide Backoff, IsRun, Streak;
  }

  /** Where a worker stands after a failed attempt: at the next one, which may begin when the pause is over, the
      penalty after a 429 and else as many seconds as attempts have failed; after three attempts it gives up. */
  lemma FailurePauses(states: seq<System>, turns: seq<Turn>, j: nat)
    requires IsRun(states, turns) && states[0].lim.errors == 0 && j < |turns|
    requires Replies(states[j], turns[j]) && turns[j].event != Reply200
    ensures var w := turns[j].worker;
            var a := states[j].phases[w].attempt;
            var pause := if turns[j].event == Reply429 then PenaltySeconds(Streak(states, turns, j + 1)) else a;
            && |states[j + 1].phases| == |states[j].phases|
            && states[j + 1].phases[w] == if a < 3 then Fetching(a + 1, turns[j].now + pause as real) else Free
  {
    ErrorsAreStreak(states, turns, j);
    BackoffSeconds(states[j].lim.errors + 1);
    hide Backoff, PenaltySeconds;
    assert states[j + 1] == Step(states[j], turns[j]);
  }

  /** A worker stays where it is until a turn of its own. */
  lemma {:induction false} OthersDoNotMove(states: seq<System>, turns: seq<Turn>, w: nat, j: nat, k: nat)
    requires IsRun(states, turns) && j <= k < |states| && w < |states[j].phases| && states[j].phases[w].Fetching?
    requires forall i :: j <= i < k && turns[i].worker == w ==> !Replies(states[i], turns[i])
    ensures |states[k].phases| == |states[j].phases| && states[k].phases[w] == states[j].phases[w]
    decreases k - j
  {
    if j < k {
      StaysPut(states[j], turns[j], w);
      hide Step, Replies;
      OthersDoNotMove(states, turns, w, j + 1, k);
    }
  }

  lemma StaysPut(s: System, t: Turn, w: nat)
    requires s.lim.errors >= 0 && w < |s.phases| && s.phases[w].Fetching? && (t.worker == w ==> !Replies(s, t))
    ensures |Step(s, t).phases| == |s.phases| && Step(s, t).phases[w] == s.phases[w]
  {
    hide Gain, Min, Pause, AfterFailure, Backoff, WaitOnce;
  }

  /** A token pays for at most three API calls. */
  lemma CallsPerGrant(states: seq<System>, turns: seq<Turn>, k: nat)
    requires IsRun(states, turns) && Inv(states[0]) && k < |states|
    ensures states[k].tally.calls <= MAX_RETRIES * |states[k].grants|
  {
    RunKeepsInv(states, turns, k);
    CallsLeftBound(states[k].phases);
  }

  /** blockedUntil never moves back. */
  lemma BlockedNeverMovesBack(s: System, t: Turn)
    requires Inv(s) && s.lim.blocked.Until?
    ensures Step(s, t).lim.blocked.Until? && Step(s, t).lim.blocked.t >= s.lim.blocked.t
  {
  }
}
