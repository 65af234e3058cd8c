/** When a key can be published twice: services/weatherlink-kafka/service/backfill.go, where looking a key up and
    publishing its point are separate steps of a worker. */
module Duplicates {
  import opened Dedup

  /** The key has a point in the window. */
  ghost predicate Carries(window: seq<Point>, key: string) {
    exists p :: p in window && KeyOf(p) == key
  }

  /** The same but for worker w and for the windows handed out and the failures. */
  ghost predicate OnlyWorker(s: System, s': System, w: nat) {
    && w < |s.workers| == |s'.workers|
    && (forall v :: 0 <= v < |s.workers| && v != w ==> s'.workers[v] == s.workers[v])
    && s'.windows == s.windows && s'.scanned == s.scanned && s'.existing == s.existing && s'.pubs == s.pubs
  }

  lemma OneMore(s0: System, before: seq<(nat, Choice)>, w: nat, c: Choice) returns (sched: seq<(nat, Choice)>)
    ensures Exec(s0, sched) == Step(Exec(s0, before), w, c)
  {
    sched := before + [(w, c)];
    assert sched[..|sched| - 1] == before;
  }

  /** A free worker can come to hold any window not handed out yet: the fetches of those before it fail. */
  lemma TakeWindow(s0: System, before: seq<(nat, Choice)>, w: nat, n: nat) returns (sched: seq<(nat, Choice)>)
    requires var s := Exec(s0, before); w < |s.workers| && s.workers[w].Free? && s.taken <= n < |s.windows|
    ensures var s, s' := Exec(s0, before), Exec(s0, sched);
            && OnlyWorker(s, s', w) && s'.workers[w] == Looking(n, s.windows[n]) && s'.taken == n + 1
    decreases n - Exec(s0, before).taken
  {
    hide Exec;
    var s := Exec(s0, before);
    if s.taken == n {
      sched := OneMore(s0, before, w, Ok);
    } else {
      sched := OneMore(s0, before, w, Fail);
      sched := TakeWindow(s0, sched, w, n);
    }
  }

  /** It can then come to miss the key in the cache: the publishes of the points before it fail. */
  lemma ReachKey(s0: System, before: seq<(nat, Choice)>, w: nat, key: string) returns (sched: seq<(nat, Choice)>)
    requires var s := Exec(s0, before); w < |s.workers| && s.workers[w].Looking? && Carries(s.workers[w].todo, key)
    requires key !in Exec(s0, before).existing
    ensures var s, s' := Exec(s0, before), Exec(s0, sched);
            && OnlyWorker(s, s', w) && s'.taken == s.taken
            && s'.workers[w].Missing? && s'.workers[w].window == s.workers[w].window && KeyOf(s'.workers[w].p) == key
    decreases |Exec(s0, before).workers[w].todo|
  {
    hide Exec, KeyOf;
    var s := Exec(s0, before);
    var todo := s.workers[w].todo;
    sched := OneMore(s0, before, w, Ok);
    if KeyOf(todo[0]) != key {
      CarriesRest(todo, key);
      if KeyOf(todo[0]) !in s.existing {
        sched := OneMore(s0, sched, w, Fail);
      }
      sched := ReachKey(s0, sched, w, key);
    }
  }

  lemma CarriesRest(todo: seq<Point>, key: string)
    requires Carries(todo, key) && KeyOf(todo[0]) != key
    ensures Carries(todo[1..], key)
  {
    hide KeyOf;
    var p :| p in todo && KeyOf(p) == key;
    assert todo == [todo[0]] + todo[1..];
    assert p in todo[1..];
  }

  /** Worker w has looked the key up in vain and is about to publish its point. */
  predicate AboutToPublish(s: System, w: nat, key: string) {
    w < |s.workers| && s.workers[w].Missing? && KeyOf(s.workers[w].p) == key
  }

  lemma BothMiss(windows: seq<seq<Point>>, scanned: set<string>, workers: nat, key: string, n: nat, m: nat)
    returns (sched: seq<(nat, Choice)>)
    requires workers >= 2 && key !in scanned && n < m < |windows|
    requires Carries(windows[n], key) && Carries(windows[m], key)
    ensures var s := Exec(Init(windows, scanned, workers), sched);
            AboutToPublish(s, 0, key) && AboutToPublish(s, 1, key) && s.pubs == []
  {
    var s0 := Init(windows, scanned, workers);
    assert Exec(s0, []) == s0;
    hide Exec, Step, KeyOf, Carries;
    sched := TakeWindow(s0, [], 0, n);
    sched := ReachKey(s0, sched, 0, key);
    sched := TakeWindow(s0, sched, 1, m);
    sched := ReachKey(s0, sched, 1, key);
  }

  lemma Publishes(s: System, w: nat, key: string)
    requires AboutToPublish(s, w, key)
    ensures |Step(s, w, Ok).pubs| == |s.pubs| + 1 && Step(s, w, Ok).pubs[|s.pubs|].key == key
    ensures Step(s, w, Ok).pubs[..|s.pubs|] == s.pubs
    ensures forall v: nat :: v != w && AboutToPublish(s, v, key) ==> AboutToPublish(Step(s, w, Ok), v, key)
  {
    hide KeyOf;
  }

  /** The check and the publication are separate steps: two workers look the key up in two windows before
      either has published it, and then both do. */
  lemma TwoWindowsCanRepeat(windows: seq<seq<Point>>, scanned: set<string>, workers: nat, key: string, n: nat, m: nat)
    returns (sched: seq<(nat, Choice)>)
    requires workers >= 2 && key !in scanned && n < m < |windows|
    requires Carries(windows[n], key) && Carries(windows[m], key)
    ensures var s := Exec(Init(windows, scanned, workers), sched);
            |s.pubs| == 2 && s.pubs[0].key == key && s.pubs[1].key == key
  {
    hide Exec, Step, KeyOf, Carries, AboutToPublish;
    var s0 := Init(windows, scanned, workers);
    sched := BothMiss(windows, scanned, workers, key, n, m);
    var s := Exec(s0, sched);
    Publishes(s, 0, key);
    sched := OneMore(s0, sched, 0, Ok);
    var s' := Exec(s0, sched);
    Publishes(s', 1, key);
    sched := OneMore(s0, sched, 1, Ok);
    assert Exec(s0, sched).pubs[0] == Exec(s0, sched).pubs[..1][0] == s'.pubs[0];
  }

  /** Some run publishes the key twice. */
  ghost predicate CanRepeat(windows: seq<seq<Point>>, scanned: set<string>, workers: nat, key: string) {
    exists sched, i, j :: Repeats(Exec(Init(windows, scanned, workers), sched), key, i, j)
  }

  ghost predicate Repeats(s: System, key: string, i: int, j: int) {
    0 <= i < j < |s.pubs| && s.pubs[i].key == key && s.pubs[j].key == key
  }

  ghost predicate InTwoWindows(windows: seq<seq<Point>>, key: string) {
    exists n, m :: 0 <= n < m < |windows| && Carries(windows[n], key) && Carries(windows[m], key)
  }

  /** Exactly when a key can be published twice: there are two workers, it was not in Kafka at the start, and
      it lies in two windows. The check and the publication are separate steps. */
  lemma CanRepeatIff(windows: seq<seq<Point>>, scanned: set<string>, workers: nat, key: string)
    ensures CanRepeat(windows, scanned, workers, key)
       <==> workers >= 2 && key !in scanned && InTwoWindows(windows, key)
  {
    hide Exec;
    var s0 := Init(windows, scanned, workers);
    if CanRepeat(windows, scanned, workers, key) {
      var sched, i, j :| Repeats(Exec(s0, sched), key, i, j);
      RepeatNeeds(windows, scanned, workers, sched, key, i, j);
    }
    if workers >= 2 && key !in scanned && InTwoWindows(windows, key) {
      var n, m :| 0 <= n < m < |windows| && Carries(windows[n], key) && Carries(windows[m], key);
      var sched := TwoWindowsCanRepeat(windows, scanned, workers, key, n, m);
      assert Repeats(Exec(s0, sched), key, 0, 1);
    }
  }

  lemma RepeatNeeds(windows: seq<seq<Point>>, scanned: set<string>, workers: nat, sched: seq<(nat, Choice)>,
                    key: string, i: nat, j: nat)
    requires Repeats(Exec(Init(windows, scanned, workers), sched), key, i, j)
    ensures workers >= 2 && key !in scanned && InTwoWindows(windows, key)
  {
    var s := Exec(Init(windows, scanned, workers), sched);
    InitInv(windows, scanned, workers);
    ExecKeepsInv(Init(windows, scanned, workers), sched);
    WorkersStay(Init(windows, scanned, workers), sched);
    NoNeedlessDuplicates(windows, scanned, workers, sched, i, j);
    hide Exec, Inv, KeyOf;
    assert AllPubsOk(s) by { InvHasPubs(s); }
    assert PubOk(s, s.pubs[i]) && PubOk(s, s.pubs[j]);
    var n, m := s.pubs[i].window, s.pubs[j].window;
    assert Carries(windows[n], key) && Carries(windows[m], key);
  }

  lemma InvHasPubs(s: System)
    requires Inv(s)
    ensures AllPubsOk(s)
  {
  }

  lemma {:induction false} WorkersStay(s: System, sched: seq<(nat, Choice)>)
    ensures |Exec(s, sched).workers| == |s.workers|
    decreases |sched|
  {
    if sched != [] {
      WorkersStay(s, sched[..|sched| - 1]);
      hide KeyOf;
    }
  }
}
