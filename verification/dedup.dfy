/** Publishing the data points of the windows in parallel with a shared cache of known keys:
    services/weatherlink-kafka/service/backfill.go, the worker loop and processHistoricDataAsync.

    A window is the sequence of its data points, in the order the reply lists them and without those the
    code passes over (unknown sensor, point that does not parse). A worker looks a key up under the read
    lock, publishes, and then inserts the key under the write lock: three separate steps. */
module Dedup {
  import opened Keys

  datatype Point = Point(lsid: int, ts: int)

  function KeyOf(p: Point): string { RecordKey(p.lsid, p.ts) }

  datatype Worker =
    | Free
    | Looking(window: nat, todo: seq<Point>)             // about to look up todo[0], or done
    | Missing(window: nat, p: Point, todo: seq<Point>)   // the lookup of p found nothing; about to publish
    | Sent(window: nat, p: Point, todo: seq<Point>)      // p is published; about to insert its key

  datatype Pub = Pub(worker: nat, window: nat, key: string)

  /** Whether the fetch or the publish that the step performs succeeds. */
  datatype Choice = Ok | Fail

  /** `windows` and `scanned` never change and `taken` counts the windows handed out; `existing` is the
      shared cache. The rest is history: windows whose fetch failed, publications, keys skipped as known,
      keys whose publish failed. */
  datatype System = System(
    windows: seq<seq<Point>>, scanned: set<string>,
    taken: nat, existing: set<string>, workers: seq<Worker>,
    lost: set<nat>, pubs: seq<Pub>, skipped: set<string>, failed: set<string>)

  function Init(windows: seq<seq<Point>>, scanned: set<string>, workers: nat): System {
    System(windows, scanned, 0, scanned, seq(workers, i => Free), {}, [], {}, {})
  }

  function Put(s: System, w: nat, k: Worker): System
    requires w < |s.workers|
  {
    s.(workers := s.workers[w := k])
  }

  /** One step of worker w; workers that do not exist or have nothing left to do stutter. */
  function Step(s: System, w: nat, c: Choice): System {
    if w >= |s.workers| then s
    else match s.workers[w]
      case Free =>
        if s.taken >= |s.windows| then s
        else if c == Fail then s.(taken := s.taken + 1, lost := s.lost + {s.taken})
        else Put(s, w, Looking(s.taken, s.windows[s.taken])).(taken := s.taken + 1)
      case Looking(n, todo) =>
        if todo == [] then Put(s, w, Free)
        else if KeyOf(todo[0]) in s.existing
          then Put(s, w, Looking(n, todo[1..])).(skipped := s.skipped + {KeyOf(todo[0])})
        else Put(s, w, Missing(n, todo[0], todo[1..]))
      case Missing(n, p, todo) =>
        if c == Fail then Put(s, w, Looking(n, todo)).(failed := s.failed + {KeyOf(p)})
        else Put(s, w, Sent(n, p, todo)).(pubs := s.pubs + [Pub(w, n, KeyOf(p))])
      case Sent(n, p, todo) =>
        Put(s, w, Looking(n, todo)).(existing := s.existing + {KeyOf(p)})
  }

  /** The run that a schedule describes; every schedule is one. */
  function Exec(s: System, sched: seq<(nat, Choice)>): System {
    if sched == [] then s
    else
      var last := sched[|sched| - 1];
      Step(Exec(s, sched[..|sched| - 1]), last.0, last.1)
  }

  // ---------- what every step keeps ----------

  /** The points of its window that the worker has not finished with. */
  function Pending(k: Worker): seq<Point> {
    match k
    case Free => []
    case Looking(_, todo) => todo
    case Missing(_, p, todo) => [p] + todo
    case Sent(_, p, todo) => [p] + todo
  }

  ghost predicate Settled(s: System, p: Point) {
    KeyOf(p) in s.existing || KeyOf(p) in s.failed
  }

  /** The worker's window is one handed out, and every point of it is pending or settled. */
  ghost predicate WorkerOk(s: System, k: Worker) {
    !k.Free? ==>
      && k.window < s.taken <= |s.windows|
      && k.window !in s.lost
      && (forall p :: p in Pending(k) ==> p in s.windows[k.window])
      && (forall p :: p in s.windows[k.window] ==> p in Pending(k) || Settled(s, p))
  }

  ghost predicate Held(s: System, n: nat) {
    exists w :: 0 <= w < |s.workers| && !s.workers[w].Free? && s.workers[w].window == n
  }

  ghost predicate WindowDone(s: System, n: nat)
    requires n < |s.windows|
  {
    forall p :: p in s.windows[n] ==> Settled(s, p)
  }

  ghost predicate WorkInv(s: System) {
    && s.taken <= |s.windows|
    && (forall n :: n in s.lost ==> n < s.taken)
    && (forall w :: 0 <= w < |s.workers| ==> WorkerOk(s, s.workers[w]))
    && (forall v, w :: 0 <= v < w < |s.workers| && !s.workers[v].Free? && !s.workers[w].Free? ==>
          s.workers[v].window != s.workers[w].window)
    && (forall n: nat :: n < s.taken && n !in s.lost && !Held(s, n) ==> WindowDone(s, n))
  }

  lemma InitWork(windows: seq<seq<Point>>, scanned: set<string>, workers: nat)
    ensures WorkInv(Init(windows, scanned, workers))
  {
  }

  lemma OtherWorkersOk(s: System, w: nat, c: Choice, v: nat)
    requires WorkInv(s) && v < |s.workers| && v != w
    ensures WorkerOk(Step(s, w, c), s.workers[v])
  {
    hide KeyOf;
    assert WorkerOk(s, s.workers[v]);
  }

  lemma SteppedWorkerOk(s: System, w: nat, c: Choice)
    requires WorkInv(s) && w < |s.workers|
    ensures WorkerOk(Step(s, w, c), Step(s, w, c).workers[w])
  {
    hide KeyOf;
    var k := s.workers[w];
    assert WorkerOk(s, k);
    assert k.Looking? && k.todo != [] ==> k.todo == [k.todo[0]] + k.todo[1..];
  }

  lemma WindowsStayDone(s: System, w: nat, c: Choice, n: nat)
    requires WorkInv(s) && w < |s.workers|
    requires n < Step(s, w, c).taken && n !in Step(s, w, c).lost
    ensures Held(Step(s, w, c), n) || WindowDone(Step(s, w, c), n)
  {
    hide KeyOf;
    var s' := Step(s, w, c);
    if Held(s, n) {
      var v :| 0 <= v < |s.workers| && !s.workers[v].Free? && s.workers[v].window == n;
      if s'.workers[v].Free? {
        assert WorkerOk(s, s.workers[v]) && Pending(s.workers[v]) == [];
      } else {
        assert s'.workers[v].window == n;
      }
    } else if n < s.taken {
      assert WindowDone(s, n);
    } else {
      assert s'.workers[w].window == n;
    }
  }

  lemma StepKeepsWork(s: System, w: nat, c: Choice)
    requires WorkInv(s)
    ensures WorkInv(Step(s, w, c))
  {
    var s' := Step(s, w, c);
    if w < |s.workers| {
      forall v | 0 <= v < |s'.workers| ensures WorkerOk(s', s'.workers[v]) {
        if v == w { SteppedWorkerOk(s, w, c); } else { OtherWorkersOk(s, w, c, v); }
      }
      forall n: nat | n < s'.taken && n !in s'.lost ensures Held(s', n) || WindowDone(s', n) {
        WindowsStayDone(s, w, c, n);
      }
      assert WorkerOk(s, s.workers[w]);
      hide WorkerOk, WindowDone, KeyOf;
    }
  }

  // ---------- publications ----------

  ghost predicate Published(s: System, key: string) {
    exists j :: 0 <= j < |s.pubs| && s.pubs[j].key == key
  }

  ghost predicate PubOk(s: System, b: Pub) {
    && b.worker < |s.workers|
    && b.window < s.taken <= |s.windows|
    && b.key !in s.scanned
    && (exists p :: p in s.windows[b.window] && KeyOf(p) == b.key)
    && (b.key in s.existing || (s.workers[b.worker].Sent? && KeyOf(s.workers[b.worker].p) == b.key))
    && !(s.workers[b.worker].Missing? && KeyOf(s.workers[b.worker].p) == b.key)
    && (forall w :: 0 <= w < |s.workers| && !s.workers[w].Free? && s.workers[w].window == b.window ==> w == b.worker)
  }

  ghost predicate AllPubsOk(s: System) {
    forall j :: 0 <= j < |s.pubs| ==> PubOk(s, s.pubs[j])
  }

  /** A worker publishes a key once, and a window has one publisher. */
  ghost predicate PubsApart(s: System) {
    forall i, j :: 0 <= i < j < |s.pubs| ==>
      && (s.pubs[i].worker == s.pubs[j].worker ==> s.pubs[i].key != s.pubs[j].key)
      && (s.pubs[i].window == s.pubs[j].window ==> s.pubs[i].worker == s.pubs[j].worker)
  }

  /** The cache holds what was scanned or published, and a key skipped is one of those. */
  ghost predicate CacheInv(s: System) {
    && s.scanned <= s.existing
    && (forall key :: key in s.existing ==> key in s.scanned || Published(s, key))
    && (forall key :: key in s.skipped ==> key in s.scanned || Published(s, key))
    && (forall w :: 0 <= w < |s.workers| && s.workers[w].Missing? ==> KeyOf(s.workers[w].p) !in s.scanned)
    && (forall w :: 0 <= w < |s.workers| && s.workers[w].Sent? ==> Published(s, KeyOf(s.workers[w].p)))
  }

  ghost predicate Inv(s: System) {
    WorkInv(s) && AllPubsOk(s) && PubsApart(s) && CacheInv(s)
  }

  lemma OldPubStaysOk(s: System, w: nat, c: Choice, b: Pub)
    requires WorkInv(s) && CacheInv(s) && PubOk(s, b)
    ensures PubOk(Step(s, w, c), b)
  {
    hide KeyOf;
    if w < |s.workers| {
      assert WorkerOk(s, s.workers[w]);
    }
  }

  lemma NewPubOk(s: System, w: nat)
    requires WorkInv(s) && CacheInv(s)
    requires w < |s.workers| && s.workers[w].Missing?
    ensures var k := s.workers[w]; PubOk(Step(s, w, Ok), Pub(w, k.window, KeyOf(k.p)))
  {
    hide KeyOf;
    var k := s.workers[w];
    assert WorkerOk(s, k) && k.p in Pending(k);
  }

  lemma StepKeepsPubs(s: System, w: nat, c: Choice)
    requires Inv(s)
    ensures AllPubsOk(Step(s, w, c))
  {
    hide KeyOf, PubOk, WorkInv, CacheInv;
    var s' := Step(s, w, c);
    forall j | 0 <= j < |s'.pubs| ensures PubOk(s', s'.pubs[j]) {
      if j < |s.pubs| {
        OldPubStaysOk(s, w, c, s.pubs[j]);
      } else {
        NewPubOk(s, w);
      }
    }
  }

  lemma StepKeepsApart(s: System, w: nat, c: Choice)
    requires Inv(s)
    ensures PubsApart(Step(s, w, c))
  {
    hide KeyOf, WorkInv, CacheInv;
    if w < |s.workers| && s.workers[w].Missing? {
      forall i | 0 <= i < |s.pubs|
        ensures s.pubs[i].worker == w ==> s.pubs[i].key != KeyOf(s.workers[w].p)
        ensures s.pubs[i].window == s.workers[w].window ==> s.pubs[i].worker == w
      {
        assert PubOk(s, s.pubs[i]);
      }
      hide PubOk;
    }
  }

  lemma StepKeepsCache(s: System, w: nat, c: Choice)
    requires CacheInv(s)
    ensures CacheInv(Step(s, w, c))
  {
    hide KeyOf;
    var s' := Step(s, w, c);
    assert s.pubs <= s'.pubs;
    forall key | Published(s, key) ensures Published(s', key) {
      var j :| 0 <= j < |s.pubs| && s.pubs[j].key == key;
      assert s'.pubs[j].key == key;
    }
    if |s'.pubs| > |s.pubs| {
      assert s'.pubs[|s.pubs|].key == KeyOf(s.workers[w].p);
    }
  }

  lemma {:induction false} ExecKeepsInv(s: System, sched: seq<(nat, Choice)>)
    requires Inv(s)
    ensures Inv(Exec(s, sched))
    ensures Exec(s, sched).windows == s.windows && Exec(s, sched).scanned == s.scanned
    decreases |sched|
  {
    if sched != [] {
      var mid, last := Exec(s, sched[..|sched| - 1]), sched[|sched| - 1];
      ExecKeepsInv(s, sched[..|sched| - 1]);
      StepKeepsWork(mid, last.0, last.1);
      StepKeepsPubs(mid, last.0, last.1);
      StepKeepsApart(mid, last.0, last.1);
      StepKeepsCache(mid, last.0, last.1);
    }
  }

  // ---------- what the backfill promises ----------

  lemma InitInv(windows: seq<seq<Point>>, scanned: set<string>, workers: nat)
    ensures Inv(Init(windows, scanned, workers))
  {
    InitWork(windows, scanned, workers);
  }

  /** In every run a key is skipped only if it was in Kafka at the start or has been published since. */
  lemma SkipsAreJustified(windows: seq<seq<Point>>, scanned: set<string>, workers: nat,
                          sched: seq<(nat, Choice)>, p: Point)
    requires KeyOf(p) in Exec(Init(windows, scanned, workers), sched).skipped
    ensures KeyOf(p) in scanned || Published(Exec(Init(windows, scanned, workers), sched), KeyOf(p))
  {
    InitInv(windows, scanned, workers);
    ExecKeepsInv(Init(windows, scanned, workers), sched);
  }

  /** In every run no worker publishes a key twice, and a key published twice belongs to two windows. */
  lemma NoNeedlessDuplicates(windows: seq<seq<Point>>, scanned: set<string>, workers: nat,
                             sched: seq<(nat, Choice)>, i: nat, j: nat)
    requires i < j < |Exec(Init(windows, scanned, workers), sched).pubs|
    requires var pubs := Exec(Init(windows, scanned, workers), sched).pubs; pubs[i].key == pubs[j].key
    ensures var pubs := Exec(Init(windows, scanned, workers), sched).pubs;
            && pubs[i].worker != pubs[j].worker
            && pubs[i].window != pubs[j].window
            && pubs[i].window < |windows| && pubs[j].window < |windows|
            && (exists p, q :: p in windows[pubs[i].window] && q in windows[pubs[j].window]
                               && KeyOf(p) == KeyOf(q) == pubs[i].key && p == q)
  {
    var s := Exec(Init(windows, scanned, workers), sched);
    InitInv(windows, scanned, workers);
    ExecKeepsInv(Init(windows, scanned, workers), sched);
    assert PubOk(s, s.pubs[i]) && PubOk(s, s.pubs[j]);
    var p :| p in windows[s.pubs[i].window] && KeyOf(p) == s.pubs[i].key;
    var q :| q in windows[s.pubs[j].window] && KeyOf(q) == s.pubs[j].key;
    RecordKeyInjective(p.lsid, p.ts, q.lsid, q.ts);
  }

  ghost predicate Finished(s: System) {
    s.taken == |s.windows| && forall w :: 0 <= w < |s.workers| ==> s.workers[w].Free?
  }

  // ---------- getting there ----------

  function WorkerCost(k: Worker): nat {
    match k
    case Free => 0
    case Looking(_, todo) => 3 * |todo| + 1
    case Missing(_, _, todo) => 3 * |todo| + 3
    case Sent(_, _, todo) => 3 * |todo| + 2
  }

  function WorkersCost(ks: seq<Worker>): nat {
    if ks == [] then 0 else WorkerCost(ks[0]) + WorkersCost(ks[1..])
  }

  function WindowsCost(ws: seq<seq<Point>>): nat {
    if ws == [] then 0 else 3 * |ws[0]| + 2 + WindowsCost(ws[1..])
  }

  /** An upper bound on the steps that the workers can still take. */
  function Left(s: System): nat
    requires s.taken <= |s.windows|
  {
    WorkersCost(s.workers) + WindowsCost(s.windows[s.taken..])
  }

  lemma {:induction false} CostMoves(ks: seq<Worker>, w: nat, k: Worker)
    requires w < |ks|
    ensures WorkersCost(ks[w := k]) + WorkerCost(ks[w]) == WorkersCost(ks) + WorkerCost(k)
  {
    hide WorkerCost;
    if w == 0 {
      assert ks[w := k][1..] == ks[1..];
    } else {
      CostMoves(ks[1..], w - 1, k);
      assert ks[w := k][1..] == ks[1..][w - 1 := k];
    }
  }

  /** Every step that has an effect, whatever fails in it, leaves less to do: no run takes more than Left(s). */
  lemma StepIsLess(s: System, w: nat, c: Choice)
    requires s.taken <= |s.windows| && Step(s, w, c) != s
    ensures Step(s, w, c).taken <= |s.windows| && Left(Step(s, w, c)) < Left(s)
  {
    hide KeyOf;
    CostMoves(s.workers, w, Step(s, w, c).workers[w]);
    assert Step(s, w, c).workers == s.workers[w := Step(s, w, c).workers[w]];
    if s.workers[w].Free? {
      assert s.windows[s.taken..][1..] == s.windows[s.taken + 1..];
    }
    hide WorkersCost;
  }

  /** A worker that has a window goes on, and a free one takes the next window. */
  lemma WorkerGoesOn(s: System, w: nat)
    requires w < |s.workers| && (s.workers[w].Free? ==> s.taken < |s.windows|)
    ensures Step(s, w, Ok) != s
    ensures Step(s, w, Ok).lost == s.lost && Step(s, w, Ok).failed == s.failed
  {
    hide KeyOf;
    assert Step(s, w, Ok).workers[w] != s.workers[w];
  }

  /** From every reachable state on, the workers can get through all windows, and nothing need fail. */
  lemma GetThrough(s: System) returns (sched: seq<(nat, Choice)>)
    requires |s.workers| > 0 && s.taken <= |s.windows|
    ensures var s' := Exec(s, sched); Finished(s') && s'.lost == s.lost && s'.failed == s.failed
    ensures |sched| <= Left(s) && forall i :: 0 <= i < |sched| ==> sched[i].1 == Ok
    decreases Left(s)
  {
    sched := [];
    if Finished(s) {
      assert Exec(s, []) == s;
    } else {
      var w := 0;
      if s.taken == |s.windows| {
        w := Busy(s);
      }
      WorkerGoesOn(s, w);
      StepIsLess(s, w, Ok);
      assert |Step(s, w, Ok).workers| == |s.workers| && Step(s, w, Ok).windows == s.windows;
      hide Step, Left, Finished;
      var more := GetThrough(Step(s, w, Ok));
      ExecCons(s, w, Ok, more);
      sched := [(w, Ok)] + more;
    }
  }

  lemma Busy(s: System) returns (w: nat)
    requires s.taken == |s.windows| && !Finished(s)
    ensures w < |s.workers| && !s.workers[w].Free?
  {
    w :| 0 <= w < |s.workers| && !s.workers[w].Free?;
  }

  lemma {:induction false} ExecCons(s: System, w: nat, c: Choice, more: seq<(nat, Choice)>)
    ensures Exec(s, [(w, c)] + more) == Exec(Step(s, w, c), more)
    decreases |more|
  {
    hide Step;
    var all := [(w, c)] + more;
    if more == [] {
      assert all[..0] == [];
      assert Exec(s, all[..|all| - 1]) == s;
    } else {
      assert all[..|all| - 1] == [(w, c)] + more[..|more| - 1];
      ExecCons(s, w, c, more[..|more| - 1]);
    }
  }

  /** When all windows are through, with no fetch and no publish failed, the keys published are exactly
      those of the windows' points that were not in Kafka at the start. */
  lemma NothingLost(windows: seq<seq<Point>>, scanned: set<string>, workers: nat,
                    sched: seq<(nat, Choice)>, key: string)
    requires var s := Exec(Init(windows, scanned, workers), sched); Finished(s) && s.lost == {} && s.failed == {}
    ensures Published(Exec(Init(windows, scanned, workers), sched), key)
       <==> key !in scanned && exists n, p :: 0 <= n < |windows| && p in windows[n] && key == RecordKey(p.lsid, p.ts)
  {
    hide RecordKey;
    var s := Exec(Init(windows, scanned, workers), sched);
    InitInv(windows, scanned, workers);
    ExecKeepsInv(Init(windows, scanned, workers), sched);
    hide Exec;
    if Published(s, key) {
      var j :| 0 <= j < |s.pubs| && s.pubs[j].key == key;
      assert PubOk(s, s.pubs[j]);
    }
    if key !in scanned && exists n, p :: 0 <= n < |windows| && p in windows[n] && key == RecordKey(p.lsid, p.ts) {
      var n, p :| 0 <= n < |windows| && p in windows[n] && key == RecordKey(p.lsid, p.ts);
      assert !Held(s, n) && WindowDone(s, n);
      assert Settled(s, p);
    }
  }
}
