/** The watcher's reference counts over all runs.
    services/unifi-smart-archive/service/service.go: ensureWatchedLocked, releaseWatchedLocked and their callers. */
module ArchiveWatch {
  import opened Keys
  import opened Archive
  import opened ArchiveEffects
  import opened ArchiveSessions

  /** The active sessions of a camera. */
  function ActiveAt(streams: map<string, Session>, camera: string): set<string> {
    set k | k in streams && streams[k].camera == camera
  }

  /** A directory is watched while its count is positive, and the count is at most that of the sessions. */
  ghost predicate Bounded(w: Watch, streams: map<string, Session>) {
    forall c :: 0 <= w.Count(c) <= |ActiveAt(streams, c)| && (c in w.live <==> w.Count(c) > 0)
  }

  ghost predicate CountIs(w: Watch, streams: map<string, Session>, camera: string) {
    w.Count(camera) == |ActiveAt(streams, camera)|
  }

  /** Counts and sessions agree: so a directory is watched exactly while a session needs it. */
  ghost predicate Exact(w: Watch, streams: map<string, Session>) {
    forall c :: CountIs(w, streams, c)
  }

  lemma ActiveLess(streams: map<string, Session>, key: string, c: string)
    requires key in streams
    ensures |ActiveAt(streams - {key}, c)| == |ActiveAt(streams, c)| - if streams[key].camera == c then 1 else 0
  {
    assert ActiveAt(streams - {key}, c) == ActiveAt(streams, c) - {key};
  }

  lemma ReleaseKeeps(cfg: Config, w: Watch, streams: map<string, Session>, key: string)
    requires cfg.hasWatcher && key in streams && Bounded(w, streams)
    ensures Bounded(ReleaseWatched(cfg, w, streams[key].camera), streams - {key})
    ensures Exact(w, streams) ==> Exact(ReleaseWatched(cfg, w, streams[key].camera), streams - {key})
  {
    var camera := streams[key].camera;
    var after := ReleaseWatched(cfg, w, camera);
    hide ActiveAt;
    forall c
      ensures 0 <= after.Count(c) <= |ActiveAt(streams - {key}, c)| && (c in after.live <==> after.Count(c) > 0)
      ensures CountIs(w, streams, c) ==> CountIs(after, streams - {key}, c)
    {
      ActiveLess(streams, key, c);
    }
  }

  lemma ActiveMore(streams: map<string, Session>, more: map<string, Session>, key: string, c: string)
    requires key !in streams && more.Keys == streams.Keys + {key} && forall k :: k in streams ==> more[k] == streams[k]
    ensures |ActiveAt(more, c)| == |ActiveAt(streams, c)| + if more[key].camera == c then 1 else 0
  {
    assert ActiveAt(streams, c) == ActiveAt(more, c) - {key};
  }

  /** Watching for a new session keeps the bounds; it keeps counts and sessions equal exactly if the
      directory was watched already or can be added. */
  lemma EnsureKeeps(cfg: Config, w: Watch, streams: map<string, Session>, more: map<string, Session>, key: string,
                    addOk: bool)
    requires cfg.hasWatcher && Bounded(w, streams)
    requires key !in streams && more.Keys == streams.Keys + {key} && forall k :: k in streams ==> more[k] == streams[k]
    ensures Bounded(EnsureWatched(cfg, w, more[key].camera, addOk), more)
    ensures Exact(w, streams) ==>
              (Exact(EnsureWatched(cfg, w, more[key].camera, addOk), more) <==> more[key].camera in w.live || addOk)
  {
    var camera := more[key].camera;
    var after := EnsureWatched(cfg, w, camera, addOk);
    hide ActiveAt;
    forall c
      ensures 0 <= after.Count(c) <= |ActiveAt(more, c)| && (c in after.live <==> after.Count(c) > 0)
      ensures CountIs(w, streams, c) ==> (CountIs(after, more, c) <==> c != camera || c in w.live || addOk)
    {
      ActiveMore(streams, more, key, c);
    }
    assert CountIs(after, more, camera) <== Exact(after, more);
  }

  lemma SameCameras(streams: map<string, Session>, after: map<string, Session>, c: string)
    requires after.Keys == streams.Keys && forall k :: k in streams ==> after[k].camera == streams[k].camera
    ensures ActiveAt(after, c) == ActiveAt(streams, c)
  {
  }

  ghost predicate WatchInv(cfg: Config, st: State) { cfg.hasWatcher ==> Bounded(st.watch, st.streams) }

  ghost predicate WatchExact(cfg: Config, st: State) { cfg.hasWatcher ==> Exact(st.watch, st.streams) }

  lemma SameCamerasKeep(cfg: Config, st: State, after: State)
    requires after.watch == st.watch && after.streams.Keys == st.streams.Keys
    requires forall k :: k in st.streams ==> after.streams[k].camera == st.streams[k].camera
    ensures WatchInv(cfg, st) ==> WatchInv(cfg, after)
    ensures WatchExact(cfg, st) ==> WatchExact(cfg, after)
  {
    hide ActiveAt;
    forall c ensures ActiveAt(after.streams, c) == ActiveAt(st.streams, c) {
      SameCameras(st.streams, after.streams, c);
    }
    assert WatchExact(cfg, st) ==> forall c :: CountIs(st.watch, st.streams, c) ==> CountIs(after.watch, after.streams, c);
  }

  lemma CoreCamera(s: Session, t: Session)
    requires Core(s) == Core(t)
    ensures s.camera == t.camera
  {
    assert Core(s).camera == s.camera && Core(t).camera == t.camera;
  }

  lemma QuietKeepsWatch(cfg: Config, st: State, after: State)
    requires Quiet(st, after)
    ensures WatchInv(cfg, st) ==> WatchInv(cfg, after)
    ensures WatchExact(cfg, st) ==> WatchExact(cfg, after)
  {
    hide WatchInv, WatchExact, Core;
    forall k | k in st.streams ensures after.streams[k].camera == st.streams[k].camera {
      CoreCamera(after.streams[k], st.streams[k]);
    }
    SameCamerasKeep(cfg, st, after);
  }

  // ---------- each kind of step ----------

  /** Whether the directory a message needs is watched or can be. */
  predicate CanWatch(st: State, camera: string, addOk: bool) { camera in st.watch.live || addOk }

  /** A message keeps counts and sessions equal exactly if it opens no session or its directory can be
      watched. */
  lemma MessageKeepsWatch(cfg: Config, st: State, e: Event, camera: string, dtype: string, now: int, io: World)
    requires WatchInv(cfg, st)
    ensures WatchInv(cfg, ProcessMessage(cfg, st, e, camera, dtype, now, io))
    ensures WatchExact(cfg, st) ==>
              (WatchExact(cfg, ProcessMessage(cfg, st, e, camera, dtype, now, io)) <==>
               (cfg.hasWatcher && Opens(st, e, camera, dtype, io) ==> CanWatch(st, camera, io.addOk)))
  {
    hide ProcessMessage, EnsureWatched, Bounded, Exact, Core, Merged, CameraKey, NewSession;
    var after := ProcessMessage(cfg, st, e, camera, dtype, now, io);
    var key := CameraKey(camera, dtype);
    MessageEffect(cfg, st, e, camera, dtype, now, io);
    if Ignored(st, e, camera) {
    } else if key in st.streams {
      MergedCamera(cfg, st.streams[key], after.streams[key], e, camera, dtype);
      SameCamerasKeep(cfg, st, after);
    } else if !OpenFails(st, e, camera, dtype, io) && cfg.hasWatcher {
      OpenedCamera(cfg, after.streams[key], e, camera, dtype);
      EnsureKeeps(cfg, st.watch, st.streams, after.streams, key, io.addOk);
    }
  }

  lemma MergedCamera(cfg: Config, s: Session, after: Session, e: Event, camera: string, dtype: string)
    requires Core(after) == Core(Merged(cfg, s, e, camera, dtype))
    ensures after.camera == s.camera
  {
    CoreCamera(after, Merged(cfg, s, e, camera, dtype));
  }

  lemma OpenedCamera(cfg: Config, after: Session, e: Event, camera: string, dtype: string)
    requires Core(after) == NewSession(cfg, e, camera, dtype)
    ensures after.camera == camera
  {
    assert Core(after).camera == after.camera;
  }

  /** An expired session is released in the name of its waiting event, whose camera is the session's. */
  lemma ExpireOneKeepsWatch(cfg: Config, st: State, id: string, now: int)
    requires Inv(cfg, st) && WatchInv(cfg, st)
    ensures Inv(cfg, ExpireOne(cfg, st, id, now)) && WatchInv(cfg, ExpireOne(cfg, st, id, now))
    ensures WatchExact(cfg, st) ==> WatchExact(cfg, ExpireOne(cfg, st, id, now))
  {
    hide Hull, CameraKey, ReleaseWatched, Bounded, Exact, Inv;
    assert ExpireAll(cfg, st, [], now) == st && ExpireAll(cfg, st, [id], now) == ExpireOne(cfg, st, id, now) by {
      assert [id][..0] == [];
    }
    ExpireKeepsInv(cfg, st, [id], now);
    if id in st.waiting && Overdue(cfg, st.waiting[id], now) && cfg.hasWatcher {
      var w := st.waiting[id];
      var key := CameraKey(w.camera, w.dtype);
      if key in st.streams {
        CamerasAgree(cfg, st, id);
        ReleaseKeeps(cfg, st.watch, st.streams, key);
      }
    }
  }

  lemma CamerasAgree(cfg: Config, st: State, id: string)
    requires Inv(cfg, st) && id in st.waiting
    ensures var w := st.waiting[id];
            CameraKey(w.camera, w.dtype) in st.streams ==>
              st.streams[CameraKey(w.camera, w.dtype)].camera == w.camera
  {
    var w := st.waiting[id];
    var key := CameraKey(w.camera, w.dtype);
    assert Awaited(st, id);
    if key in st.streams {
      CameraKeyInjective(w.camera, w.dtype, st.streams[key].camera, st.streams[key].dtype);
    }
  }

  lemma {:induction false} ExpireKeepsWatch(cfg: Config, st: State, order: seq<string>, now: int)
    requires Inv(cfg, st) && WatchInv(cfg, st)
    ensures Inv(cfg, ExpireAll(cfg, st, order, now)) && WatchInv(cfg, ExpireAll(cfg, st, order, now))
    ensures WatchExact(cfg, st) ==> WatchExact(cfg, ExpireAll(cfg, st, order, now))
  {
    hide Inv, WatchInv, WatchExact, ExpireOne;
    if order != [] {
      ExpireKeepsWatch(cfg, st, order[..|order| - 1], now);
      ExpireOneKeepsWatch(cfg, ExpireAll(cfg, st, order[..|order| - 1], now), order[|order| - 1], now);
    } else {
      assert ExpireAll(cfg, st, order, now) == st;
    }
  }

  lemma CloseOneKeepsWatch(cfg: Config, st: State, key: string)
    requires WatchInv(cfg, st)
    ensures WatchInv(cfg, CloseOne(cfg, st, key))
    ensures WatchExact(cfg, st) ==> WatchExact(cfg, CloseOne(cfg, st, key))
  {
    hide ReleaseWatched, Bounded, Exact;
    if cfg.hasWatcher && key in st.streams {
      ReleaseKeeps(cfg, st.watch, st.streams, key);
    }
  }

  lemma {:induction false} CloseEachKeepsWatch(cfg: Config, st: State, keys: seq<string>)
    requires WatchInv(cfg, st)
    ensures WatchInv(cfg, CloseEach(cfg, st, keys))
    ensures WatchExact(cfg, st) ==> WatchExact(cfg, CloseEach(cfg, st, keys))
  {
    hide WatchInv, WatchExact, CloseOne;
    if keys != [] {
      CloseEachKeepsWatch(cfg, st, keys[..|keys| - 1]);
      CloseOneKeepsWatch(cfg, CloseEach(cfg, st, keys[..|keys| - 1]), keys[|keys| - 1]);
    } else {
      assert CloseEach(cfg, st, keys) == st;
    }
  }

  lemma CloseKeepsWatch(cfg: Config, st: State, order: seq<string>, now: int, bad: set<int>)
    requires WatchInv(cfg, st)
    ensures WatchInv(cfg, CloseAll(cfg, st, order, now, bad))
    ensures WatchExact(cfg, st) ==> WatchExact(cfg, CloseAll(cfg, st, order, now, bad))
  {
    hide WatchInv, WatchExact, CloseEach, CloseChecks, Quiet;
    var (mid, toClose) := CloseChecks(cfg, st, order, now, bad);
    CloseChecksIsQuiet(cfg, st, order, now, bad);
    QuietKeepsWatch(cfg, st, mid);
    CloseEachKeepsWatch(cfg, mid, toClose);
  }

  // ---------- runs ----------

  /** A message that opens a session finds its directory watched or can have it watched. */
  predicate AddWorks(st: State, l: Label) {
    l.Message? && Opens(st, l.e, l.camera, l.dtype, l.io) ==> CanWatch(st, l.camera, l.io.addOk)
  }

  lemma StepKeepsWatch(cfg: Config, st: State, l: Label)
    requires Inv(cfg, st) && WatchInv(cfg, st)
    ensures WatchInv(cfg, Step(cfg, st, l))
    ensures WatchExact(cfg, st) ==> (WatchExact(cfg, Step(cfg, st, l)) <==> !cfg.hasWatcher || AddWorks(st, l))
  {
    hide Inv, WatchInv, ProcessMessage, FileAll, ExpireAll, CloseAll, Opens, CanWatch, Quiet, Exact;
    match l
    case Message(e, camera, dtype, now, io) => MessageKeepsWatch(cfg, st, e, camera, dtype, now, io);
    case File(order, camera, ts, now, failing) =>
      FileAllIsQuiet(cfg, st, order, camera, ts, now, failing);
      QuietKeepsWatch(cfg, st, Step(cfg, st, l));
    case Expire(order, now) => ExpireKeepsWatch(cfg, st, order, now);
    case Close(order, now, bad) => CloseKeepsWatch(cfg, st, order, now, bad);
    case Frames(camera, frames) => SameCamerasKeep(cfg, st, Step(cfg, st, l));
  }

  /** At every point of every run, failing adds included: a directory is watched exactly while its count is
      positive, and the count never exceeds the number of the camera's sessions. */
  lemma {:induction false} CountsAreBounded(cfg: Config, source: map<string, set<int>>, archive: map<Base, set<int>>,
                                            ls: seq<Label>)
    requires cfg.trail >= 0 && cfg.delay >= 0 && AllSane(ls)
    ensures WatchInv(cfg, Run(cfg, Start(source, archive), ls))
  {
    if ls == [] {
      assert Run(cfg, Start(source, archive), ls) == Start(source, archive);
    } else {
      hide WatchInv, Inv, Step;
      var front := ls[..|ls| - 1];
      CountsAreBounded(cfg, source, archive, front);
      RunKeepsInv(cfg, source, archive, front);
      StepKeepsWatch(cfg, Run(cfg, Start(source, archive), front), ls[|ls| - 1]);
    }
  }

  ghost predicate AllAddsWork(cfg: Config, st: State, ls: seq<Label>) {
    forall i :: 0 <= i < |ls| ==> AddWorks(Run(cfg, st, ls[..i]), ls[i])
  }

  ghost predicate AlwaysExact(cfg: Config, st: State, ls: seq<Label>) {
    forall i :: 0 <= i <= |ls| ==> WatchExact(cfg, Run(cfg, st, ls[..i]))
  }

  /** Counts and sessions agree throughout a run exactly if no add that was needed failed. */
  lemma ExactIff(cfg: Config, source: map<string, set<int>>, archive: map<Base, set<int>>, ls: seq<Label>)
    requires cfg.trail >= 0 && cfg.delay >= 0 && AllSane(ls) && cfg.hasWatcher
    ensures AlwaysExact(cfg, Start(source, archive), ls) <==> AllAddsWork(cfg, Start(source, archive), ls)
  {
    var st := Start(source, archive);
    if AllAddsWork(cfg, st, ls) {
      forall i | 0 <= i <= |ls| ensures WatchExact(cfg, Run(cfg, st, ls[..i])) {
        ExactWhileAddsWork(cfg, source, archive, ls, i);
      }
    }
    if AlwaysExact(cfg, st, ls) {
      hide Run, Step, Inv, WatchInv, WatchExact, AddWorks;
      forall i | 0 <= i < |ls| ensures AddWorks(Run(cfg, st, ls[..i]), ls[i]) {
        RunKeepsInv(cfg, source, archive, ls[..i]);
        CountsAreBounded(cfg, source, archive, ls[..i]);
        RunExtends(cfg, st, ls, i);
        assert WatchExact(cfg, Run(cfg, st, ls[..i])) && WatchExact(cfg, Run(cfg, st, ls[..i + 1]));
        StepKeepsWatch(cfg, Run(cfg, st, ls[..i]), ls[i]);
      }
    }
  }

  lemma {:induction false} ExactWhileAddsWork(cfg: Config, source: map<string, set<int>>,
                                              archive: map<Base, set<int>>, ls: seq<Label>, i: nat)
    requires cfg.trail >= 0 && cfg.delay >= 0 && AllSane(ls) && cfg.hasWatcher && i <= |ls|
    requires AllAddsWork(cfg, Start(source, archive), ls)
    ensures WatchExact(cfg, Run(cfg, Start(source, archive), ls[..i]))
  {
    var st := Start(source, archive);
    if i == 0 {
      forall c ensures CountIs(st.watch, st.streams, c) {
        assert ActiveAt(st.streams, c) == {};
      }
    } else {
      hide Run, Step, Inv, WatchInv, WatchExact, AddWorks;
      ExactWhileAddsWork(cfg, source, archive, ls, i - 1);
      RunKeepsInv(cfg, source, archive, ls[..i - 1]);
      CountsAreBounded(cfg, source, archive, ls[..i - 1]);
      RunExtends(cfg, st, ls, i - 1);
      StepKeepsWatch(cfg, Run(cfg, st, ls[..i - 1]), ls[i - 1]);
    }
  }

  /** One failed add at the start is enough. */
  lemma FailedAddIsReachable(cfg: Config, e: Event, camera: string, dtype: string, now: int, io: World)
    requires e.id != "" && e.start > 0 && e.end >= 0 && camera != "" && '|' !in camera && io.mkdirOk && !io.addOk
    requires cfg.trail >= 0 && cfg.delay >= 0 && cfg.hasWatcher
    ensures var ls := [Message(e, camera, dtype, now, io)];
            AllSane(ls) && !AlwaysExact(cfg, Start(map[], map[]), ls)
  {
    var ls := [Message(e, camera, dtype, now, io)];
    ExactIff(cfg, map[], map[], ls);
    hide Step, CameraKey;
    assert Run(cfg, Start(map[], map[]), ls[..0]) == Start(map[], map[]);
    assert !AddWorks(Run(cfg, Start(map[], map[]), ls[..0]), ls[0]);
  }
}
