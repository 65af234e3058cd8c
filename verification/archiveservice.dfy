/** The archive service's object and its critical sections, in the order in which they read and write the
    fields. Sessions live in the map itself; a write to a session is a write to its entry.
    services/unifi-smart-archive/service/service.go. */
module ArchiveService {
  import opened Keys
  import opened Archive
  import opened ArchiveEffects

  class Service {
    const cfg: Config
    var streams: map<string, Session>
    var waitingForEnd: map<string, WaitingEvent>
    var done: set<string>
    var watchedDirs: map<string, int>
    var watching: set<string>             // the watcher's own list
    var source: map<string, set<int>>     // the file system
    var archive: map<Base, set<int>>

    function View(): State
      reads this
    {
      State(streams, waitingForEnd, done, Watch(watchedDirs, watching), source, archive)
    }

    constructor (cfg: Config, source: map<string, set<int>>, archive: map<Base, set<int>>)
      ensures this.cfg == cfg && View() == Start(source, archive)
    {
      this.cfg, this.source, this.archive := cfg, source, archive;
      streams, waitingForEnd, done, watchedDirs, watching := map[], map[], {}, map[], {};
    }

    method EnsureWatchedLocked(camera: string, addOk: bool)
      modifies this`watchedDirs, this`watching
      ensures View() == old(View()).(watch := EnsureWatched(cfg, old(View().watch), camera, addOk))
    {
      if !cfg.hasWatcher { return; }
      watchedDirs := watchedDirs[camera := (if camera in watchedDirs then watchedDirs[camera] else 0) + 1];
      if watchedDirs[camera] > 1 { return; }
      if addOk {
        watching := watching + {camera};
      } else {
        watchedDirs := watchedDirs[camera := watchedDirs[camera] - 1];
      }
    }

    method ReleaseWatchedLocked(camera: string)
      modifies this`watchedDirs, this`watching
      ensures View() == old(View()).(watch := ReleaseWatched(cfg, old(View().watch), camera))
    {
      if !cfg.hasWatcher { return; }
      watchedDirs := watchedDirs[camera := (if camera in watchedDirs then watchedDirs[camera] else 0) - 1];
      if watchedDirs[camera] <= 0 {
        watchedDirs := watchedDirs - {camera};
        watching := watching - {camera};
      }
    }

    /** The copy of one frame and its mark. */
    method CopyFrame(key: string, ts: int)
      requires key in streams && streams[key].base in archive
      modifies this`streams, this`archive
      ensures View() == Copy(old(View()), key, old(streams[key]), {ts})
    {
      var s := streams[key];
      archive := archive[s.base := archive[s.base] + {ts}];
      streams := streams[key := s.(copied := s.copied + {ts})];
    }

    /** The body of catchUpLocked's loop. */
    method CopyEntry(key: string, ts: int, fromSec: int, toSec: int, bad: set<int>)
      requires key in streams
      modifies this`streams, this`archive
      ensures var s := old(streams[key]);
              View() == if fromSec <= ts <= toSec && ts !in s.copied && ts !in bad && s.base in old(archive)
                        then Copy(old(View()), key, s, {ts}) else old(View())
    {
      hide Copy;
      if ts < fromSec || ts > toSec { return; }
      if ts in streams[key].copied { return; }
      if ts !in bad && streams[key].base in archive { CopyFrame(key, ts); }
    }

    /** catchUpLocked: the loop over the directory. */
    method CatchUpLocked(key: string, now: int, bad: set<int>)
      requires key in streams
      modifies this`streams, this`archive
      ensures View() == CatchUp(cfg, old(View()), key, now, bad)
      ensures streams.Keys == old(streams.Keys)
    {
      hide Fresh, Copy, CaughtUpSo, CatchUp;
      ghost var st := View();
      ghost var seen: set<int> := {};
      var s := streams[key];
      var fromSec := Seconds(s.startMs) - cfg.lead;
      var toSec := if s.endMs > 0 then Seconds(s.endMs) + cfg.trail else Unix(now) + 5;
      var entries := if s.camera in source then source[s.camera] else {};
      CaughtUpNothing(cfg, st, key, now, bad);
      while entries != {}
        invariant key in st.streams && seen + entries == SourceOf(st, s.camera) && seen !! entries
        invariant View() == CaughtUpSo(cfg, st, key, now, bad, seen) && streams.Keys == st.streams.Keys
        decreases |entries|
      {
        var ts := Next(entries);
        entries := entries - {ts};
        CaughtUpNext(cfg, st, key, now, bad, seen, ts);
        CopyEntry(key, ts, fromSec, toSec, bad);
        seen := seen + {ts};
      }
      CaughtUpAll(cfg, st, key, now, bad, seen);
    }

    /** processMessage after parsing. */
    method ProcessMessage(e: Event, camera: string, dtype: string, now: int, io: World)
      modifies this
      ensures View() == Archive.ProcessMessage(cfg, old(View()), e, camera, dtype, now, io)
    {
      hide CatchUp, CameraKey, EnsureWatched;
      if e.id == "" || e.start <= 0 || camera == "" || e.id in done { return; }
      if e.HasEnd() { waitingForEnd := waitingForEnd - {e.id}; }
      var key := CameraKey(camera, dtype);
      if key in streams {
        MergeEvent(key, e, camera, dtype, now, io);
      } else {
        OpenStream(key, e, camera, dtype, now, io);
      }
    }

    /** The branch of processMessage for a key that has a session. */
    method MergeEvent(key: string, e: Event, camera: string, dtype: string, now: int, io: World)
      requires key in streams
      modifies this`streams, this`archive
      ensures View() == Merge(cfg, old(View()), key, e, camera, dtype, now, io)
    {
      hide Lower, Extend;
      LowerLocal(cfg, View(), key, e, camera, dtype, now, io);
      if e.start < streams[key].startMs { MoveStart(key, e, camera, dtype, now, io); }
      ExtendLocal(cfg, View(), key, e, now, io.bad2);
      if e.HasEnd() { MoveEnd(key, e, now, io.bad2); }
      streams := streams[key := streams[key].(ids := streams[key].ids + [e.id], merged := streams[key].merged + [e])];
    }

    method MoveStart(key: string, e: Event, camera: string, dtype: string, now: int, io: World)
      requires key in streams
      modifies this`streams, this`archive
      ensures View() == Lower(cfg, old(View()), key, e, camera, dtype, now, io)
    {
      hide CatchUp, ArchiveBase;
      ghost var moved := streams[key].(startMs := e.start, base := ArchiveBase(camera, dtype, e.start));
      var oldBase := streams[key].base;
      streams := streams[key := streams[key].(startMs := e.start)];
      streams := streams[key := streams[key].(base := ArchiveBase(camera, dtype, e.start))];
      assert streams == old(streams)[key := moved];
      if oldBase != streams[key].base {
        if streams[key].base !in archive && io.mkdirOk { archive := archive[streams[key].base := {}]; }
        CatchUpLocked(key, now, io.bad1);
        archive := archive - {oldBase};
      }
    }

    method MoveEnd(key: string, e: Event, now: int, bad: set<int>)
      requires key in streams
      modifies this`streams, this`archive
      ensures View() == Extend(cfg, old(View()), key, e, now, bad)
    {
      hide CatchUp;
      ghost var extended := Extended(cfg, streams[key], e);
      if e.end > streams[key].endMs { streams := streams[key := streams[key].(endMs := e.end)]; }
      var copyAfterUnix := CopyAfter(cfg, e);
      if copyAfterUnix > streams[key].copyAfter {
        streams := streams[key := streams[key].(copyAfter := copyAfterUnix)];
      }
      assert streams == old(streams)[key := extended];
      CatchUpLocked(key, now, bad);
    }

    /** The rest of processMessage: a new session. */
    method OpenStream(key: string, e: Event, camera: string, dtype: string, now: int, io: World)
      requires key == CameraKey(camera, dtype) && key !in streams
      modifies this
      ensures View() == Open(cfg, old(View()), e, camera, dtype, now, io)
    {
      hide CatchUp, CopyAfter, ArchiveBase, EnsureWatched, CameraKey;
      var base := ArchiveBase(camera, dtype, e.start);
      if base !in archive {
        if !io.mkdirOk { return; }
        archive := archive[base := {}];
      }
      streams := streams[key := NewSession(cfg, e, camera, dtype)];
      EnsureWatchedLocked(camera, io.addOk);
      CatchUpLocked(key, now, io.bad1);
      if !e.HasEnd() {
        waitingForEnd := waitingForEnd[e.id := WaitingEvent(camera, dtype, e.start, now)];
      }
    }

    /** runWatcher's handling of a created frame. `order` is the order in which the map happened to be walked. */
    method FileCreated(camera: string, ts: int, now: int, failing: set<string>) returns (ghost order: seq<string>)
      modifies this`streams, this`archive
      ensures Walked(order, {}, old(streams.Keys))
      ensures View() == FileAll(cfg, old(View()), order, camera, ts, now, failing)
    {
      hide FileAll, FileOne, Walked;
      ghost var st := View();
      var keys := streams.Keys;
      order := [];
      FileAllNone(cfg, st, camera, ts, now, failing);
      WalkedNone(st.streams.Keys);
      while keys != {}
        invariant Walked(order, keys, st.streams.Keys) && streams.Keys == st.streams.Keys
        invariant View() == FileAll(cfg, st, order, camera, ts, now, failing)
        decreases |keys|
      {
        var key := Next(keys);
        WalkedNext(order, keys, st.streams.Keys, key);
        FileForSession(key, camera, ts, now, failing);
        FileAllNext(cfg, st, order, key, camera, ts, now, failing);
        order := order + [key];
        keys := keys - {key};
      }
    }

    method FileForSession(key: string, camera: string, ts: int, now: int, failing: set<string>)
      requires key in streams
      modifies this`streams, this`archive
      ensures View() == FileOne(cfg, old(View()), key, camera, ts, now, failing)
      ensures streams.Keys == old(streams.Keys)
    {
      hide Copy;
      var s := streams[key];
      if s.camera != camera { return; }
      var toSec := if s.endMs > 0 then Seconds(s.endMs) + cfg.trail else Unix(now) + 60;
      if ts < Seconds(s.startMs) - cfg.lead || ts > toSec { return; }
      if ts in s.copied { return; }
      if key !in failing && camera in source && ts in source[camera] && s.base in archive {
        FileOneIsQuiet(cfg, View(), key, camera, ts, now, failing);
        CopyFrame(key, ts);
      }
    }

    /** One pass of the timeout check. */
    method ExpireWaitingForEnd(now: int) returns (ghost order: seq<string>)
      modifies this
      ensures Walked(order, {}, old(waitingForEnd.Keys))
      ensures View() == ExpireAll(cfg, old(View()), order, now)
      ensures streams == old(streams) - ExpiredKeys(cfg, old(View()), order, now)
      ensures waitingForEnd == old(waitingForEnd) - OverdueIds(cfg, old(View()), order, now)
    {
      hide ExpireAll, ExpireOne, Walked, ExpiredKeys, OverdueIds, BasesAt;
      ghost var st := View();
      var ids := waitingForEnd.Keys;
      order := [];
      ExpireAllNone(cfg, st, now);
      WalkedNone(st.waiting.Keys);
      while ids != {}
        invariant Walked(order, ids, st.waiting.Keys)
        invariant View() == ExpireAll(cfg, st, order, now)
        invariant ids <= waitingForEnd.Keys
        decreases |ids|
      {
        var id := Next(ids);
        ExpireWaiting(id, now);
        ExpireAllNext(cfg, st, order, id, now);
        WalkedNext(order, ids, st.waiting.Keys, id);
        order := order + [id];
        ids := ids - {id};
      }
      ExpireAllMeaning(cfg, st, order, now);
    }

    method ExpireWaiting(id: string, now: int)
      requires id in waitingForEnd
      modifies this
      ensures View() == ExpireOne(cfg, old(View()), id, now)
      ensures old(waitingForEnd.Keys) - {id} <= waitingForEnd.Keys
    {
      hide CameraKey, ReleaseWatched;
      var w := waitingForEnd[id];
      if w.lastAt < now - cfg.timeout {
        waitingForEnd := waitingForEnd - {id};
        var key := CameraKey(w.camera, w.dtype);
        if key in streams && streams[key].endMs == 0 && |streams[key].ids| == 1 && streams[key].ids[0] == id {
          var s := streams[key];
          streams := streams - {key};
          ReleaseWatchedLocked(w.camera);
          archive := archive - {s.base};
        }
      }
    }

    /** One pass of the closing check. */
    method CloseCompletedStreams(now: int, bad: set<int>) returns (ghost order: seq<string>)
      modifies this
      ensures Walked(order, {}, old(streams.Keys))
      ensures View() == CloseAll(cfg, old(View()), order, now, bad)
      ensures streams.Keys == old(streams.Keys) - DueKeys(cfg, old(View()), order, now, bad)
      ensures done == old(done) + IdsAt(old(View()), DueKeys(cfg, old(View()), order, now, bad))
    {
      hide CloseChecks, CloseCheck, CloseEach, CloseOne, Walked, DueKeys, IdsAt;
      ghost var st := View();
      var keys, toClose: seq<string> := streams.Keys, [];
      order := [];
      CloseChecksNone(cfg, st, now, bad);
      WalkedNone(st.streams.Keys);
      while keys != {}
        invariant Walked(order, keys, st.streams.Keys) && streams.Keys == st.streams.Keys
        invariant CloseChecks(cfg, st, order, now, bad) == (View(), toClose)
        decreases |keys|
      {
        var key := Next(keys);
        WalkedNext(order, keys, st.streams.Keys, key);
        var yes := CheckStream(key, now, bad);
        CloseChecksNext(cfg, st, order, key, now, bad);
        order := order + [key];
        if yes { toClose := toClose + [key]; }
        keys := keys - {key};
      }
      WalkedIsWalk(order, st.streams.Keys);
      CloseListIsWalk(cfg, st, order, now, bad);
      CloseStreams(toClose);
      CloseAllMeaning(cfg, st, order, now, bad);
    }

    /** The second loop. */
    method CloseStreams(toClose: seq<string>)
      requires Listed(streams, toClose)
      modifies this
      ensures View() == CloseEach(cfg, old(View()), toClose)
    {
      hide CloseEach, CloseOne;
      ghost var st := View();
      var i := 0;
      CloseEachNone(cfg, st);
      while i < |toClose|
        invariant 0 <= i <= |toClose|
        invariant View() == CloseEach(cfg, st, toClose[..i])
      {
        CloseEachMeaning(cfg, st, toClose[..i]);
        CloseStream(toClose[i]);
        CloseEachNext(cfg, st, toClose, i);
        i := i + 1;
      }
      assert toClose[..i] == toClose;
    }

    /** The body of the first loop; the answer is whether the session goes on the list. */
    method CheckStream(key: string, now: int, bad: set<int>) returns (yes: bool)
      requires key in streams
      modifies this`streams, this`archive
      ensures (View(), yes) == CloseCheck(cfg, old(View()), key, now, bad)
      ensures streams.Keys == old(streams.Keys)
    {
      hide CatchUp;
      var s := streams[key];
      if s.endMs == 0 { return false; }
      var toSec := Seconds(s.endMs) + cfg.trail;
      if Unix(now) < s.copyAfter { return false; }
      if toSec in s.copied { return true; }
      CatchUpIsQuiet(cfg, View(), key, now, bad);
      CatchUpLocked(key, now, bad);
      if toSec in streams[key].copied { return true; }
      return s.camera !in source || toSec !in source[s.camera];
    }

    /** The body of the second loop. */
    method CloseStream(key: string)
      requires key in streams
      modifies this
      ensures View() == CloseOne(cfg, old(View()), key)
    {
      hide ReleaseWatched;
      var s := streams[key];
      streams := streams - {key};
      ReleaseWatchedLocked(s.camera);
      var i := 0;
      while i < |s.ids|
        invariant 0 <= i <= |s.ids|
        invariant View() == old(View()).(streams := old(streams) - {key},
                                         watch := ReleaseWatched(cfg, old(View().watch), s.camera),
                                         done := old(done) + set j | 0 <= j < i :: s.ids[j])
      {
        done := done + {s.ids[i]};
        i := i + 1;
      }
    }
  }

  /** The next element that a walk over a map or a directory comes to. */
  method Next<T>(left: set<T>) returns (x: T)
    requires left != {}
    ensures x in left
  {
    x :| x in left;
  }

  // ---------- one turn of the catch-up loop ----------

  /** A catch-up that has looked at the given frames. */
  function CaughtUpSo(cfg: Config, st: State, key: string, now: int, bad: set<int>, seen: set<int>): (after: State)
    requires key in st.streams
    ensures after.streams.Keys == st.streams.Keys && after.source == st.source && after.archive.Keys == st.archive.Keys
    ensures after.streams[key].base == st.streams[key].base
  {
    var s := st.streams[key];
    assert s.base in st.archive ==> st.archive.Keys + {s.base} == st.archive.Keys;
    Copy(st, key, s, Fresh(cfg, st, s, now, bad) * seen)
  }

  lemma CaughtUpNothing(cfg: Config, st: State, key: string, now: int, bad: set<int>)
    requires key in st.streams
    ensures CaughtUpSo(cfg, st, key, now, bad, {}) == st
  {
    var s := st.streams[key];
    assert Fresh(cfg, st, s, now, bad) * {} == {};
    assert s.copied + {} == s.copied && s.(copied := s.copied) == s;
    assert st.streams[key := s] == st.streams;
    if s.base in st.archive {
      assert st.archive[s.base] + {} == st.archive[s.base];
      assert st.archive[s.base := st.archive[s.base]] == st.archive;
    }
  }

  lemma CaughtUpAll(cfg: Config, st: State, key: string, now: int, bad: set<int>, seen: set<int>)
    requires key in st.streams && seen == SourceOf(st, st.streams[key].camera)
    ensures CaughtUpSo(cfg, st, key, now, bad, seen) == CatchUp(cfg, st, key, now, bad)
  {
    FreshAreInSource(cfg, st, st.streams[key], now, bad);
    hide Fresh;
    assert Fresh(cfg, st, st.streams[key], now, bad) * seen == Fresh(cfg, st, st.streams[key], now, bad);
  }

  /** The loop's tests pick exactly the fresh frames, and its body adds the one it looks at. */
  lemma CaughtUpNext(cfg: Config, st: State, key: string, now: int, bad: set<int>, seen: set<int>, ts: int)
    requires key in st.streams && ts !in seen && ts in SourceOf(st, st.streams[key].camera)
    ensures var s, mid := st.streams[key], CaughtUpSo(cfg, st, key, now, bad, seen);
            var isFresh := FromSec(cfg, s) <= ts <= ToSec(cfg, s, now, 5) && ts !in mid.streams[key].copied
                         && ts !in bad && s.base in st.archive;
            CaughtUpSo(cfg, st, key, now, bad, seen + {ts})
            == if isFresh then Copy(mid, key, mid.streams[key], {ts}) else mid
  {
    var s, all := st.streams[key], Fresh(cfg, st, st.streams[key], now, bad);
    assert ts in all <==>
           (FromSec(cfg, s) <= ts <= ToSec(cfg, s, now, 5) && ts !in s.copied && ts !in bad && s.base in st.archive);
    hide Fresh;
    if ts in all {
      assert all * (seen + {ts}) == all * seen + {ts};
      CopyTwice(st, key, s, all * seen, {ts});
    } else {
      assert all * (seen + {ts}) == all * seen;
    }
  }

  lemma CopyTwice(st: State, key: string, s: Session, a: set<int>, b: set<int>)
    requires key in st.streams
    ensures var mid := Copy(st, key, s, a);
            Copy(mid, key, mid.streams[key], b) == Copy(st, key, s, a + b)
  {
    assert s.copied + a + b == s.copied + (a + b);
    if s.base in st.archive {
      assert st.archive[s.base] + a + b == st.archive[s.base] + (a + b);
    }
  }

  // ---------- walking a map ----------

  /** The keys visited so far and those left make up the map's. */
  ghost predicate Walked(order: seq<string>, left: set<string>, all: set<string>) {
    Walk(order) && SetOf(order) + left == all && SetOf(order) !! left
  }

  lemma WalkedIsWalk(order: seq<string>, all: set<string>)
    requires Walked(order, {}, all)
    ensures Walk(order) && SetOf(order) == all
  {
  }

  lemma WalkedNone(all: set<string>)
    ensures Walked([], all, all)
  {
    assert SetOf([]) == {};
  }

  lemma WalkedNext(order: seq<string>, left: set<string>, all: set<string>, key: string)
    requires Walked(order, left, all) && key in left
    ensures Walked(order + [key], left - {key}, all) && key in all
  {
    assert key !in SetOf(order);
    assert SetOf(order + [key]) == SetOf(order) + {key};
  }

  lemma FileAllNone(cfg: Config, st: State, camera: string, ts: int, now: int, failing: set<string>)
    ensures FileAll(cfg, st, [], camera, ts, now, failing) == st
  {
  }

  lemma {:induction false} FileAllNext(cfg: Config, st: State, order: seq<string>, key: string, camera: string,
                                       ts: int, now: int, failing: set<string>)
    ensures FileAll(cfg, st, order + [key], camera, ts, now, failing)
            == FileOne(cfg, FileAll(cfg, st, order, camera, ts, now, failing), key, camera, ts, now, failing)
  {
    assert (order + [key])[..|order|] == order;
  }

  lemma ExpireAllNone(cfg: Config, st: State, now: int)
    ensures ExpireAll(cfg, st, [], now) == st
  {
  }

  lemma {:induction false} ExpireAllNext(cfg: Config, st: State, order: seq<string>, id: string, now: int)
    ensures ExpireAll(cfg, st, order + [id], now) == ExpireOne(cfg, ExpireAll(cfg, st, order, now), id, now)
  {
    assert (order + [id])[..|order|] == order;
  }

  lemma CloseChecksNone(cfg: Config, st: State, now: int, bad: set<int>)
    ensures CloseChecks(cfg, st, [], now, bad) == (st, [])
  {
  }

  lemma {:induction false} CloseChecksNext(cfg: Config, st: State, order: seq<string>, key: string, now: int,
                                           bad: set<int>)
    ensures var (mid, toClose) := CloseChecks(cfg, st, order, now, bad);
            var (after, yes) := CloseCheck(cfg, mid, key, now, bad);
            CloseChecks(cfg, st, order + [key], now, bad) == (after, if yes then toClose + [key] else toClose)
  {
    assert (order + [key])[..|order|] == order;
  }

  /** What is listed is there, and is listed once. */
  ghost predicate Listed(streams: map<string, Session>, toClose: seq<string>) {
    && (forall i :: 0 <= i < |toClose| ==> toClose[i] in streams)
    && (forall i :: 0 <= i < |toClose| ==> toClose[i] !in SetOf(toClose[..i]))
  }

  /** So the second loop finds each of its sessions. */
  lemma CloseListIsWalk(cfg: Config, st: State, order: seq<string>, now: int, bad: set<int>)
    requires Walk(order)
    ensures Listed(CloseChecks(cfg, st, order, now, bad).0.streams, CloseChecks(cfg, st, order, now, bad).1)
  {
    CloseChecksMeaning(cfg, st, order, now, bad);
    CloseListsOnce(cfg, st, order, now, bad);
    hide CloseChecks;
  }

  lemma CloseEachNone(cfg: Config, st: State)
    ensures CloseEach(cfg, st, []) == st
  {
  }

  lemma {:induction false} CloseEachNext(cfg: Config, st: State, keys: seq<string>, i: nat)
    requires i < |keys|
    ensures CloseEach(cfg, st, keys[..i + 1]) == CloseOne(cfg, CloseEach(cfg, st, keys[..i]), keys[i])
  {
    assert keys[..i + 1][..i] == keys[..i];
  }
}
