/** What each step of the archive service does, told by its outcome instead of its code: which sessions,
    waiting events and directories a message, an expiry pass and a closing pass leave behind.
    services/unifi-smart-archive/service/service.go. */
module ArchiveEffects {
  import opened Keys
  import opened Archive

  /** Seconds are whole thousands of milliseconds, what is left over being dropped toward zero. */
  lemma SecondsTruncate(ms: int)
    ensures ms >= 0 ==> 0 <= ms - 1000 * Seconds(ms) < 1000
    ensures ms < 0 ==> -1000 < ms - 1000 * Seconds(ms) <= 0
  {
  }

  /** The last second a catch-up looks at: of a session that has no end yet, five past the clock. */
  function WindowEnd(cfg: Config, s: Session, now: int): int {
    if s.endMs > 0 then Seconds(s.endMs) + cfg.trail else now / 1_000_000_000 + 5
  }

  // ---------- what each step does to the sessions, copying aside ----------

  /** The session with its copied marks left out of account. */
  function Core(s: Session): Session { s.(copied := {}) }

  /** Nothing but copying has happened. */
  ghost predicate Quiet(st: State, after: State) {
    && after.streams.Keys == st.streams.Keys
    && (forall k :: k in st.streams ==> Core(after.streams[k]) == Core(st.streams[k]))
    && after.waiting == st.waiting && after.done == st.done
    && after.watch == st.watch
    && after.source == st.source && after.archive.Keys == st.archive.Keys
  }

  /** Catching up touches nothing outside the session and the files in its directory. */
  lemma CatchUpIsQuiet(cfg: Config, st: State, key: string, now: int, bad: set<int>)
    ensures Quiet(st, CatchUp(cfg, st, key, now, bad))
    ensures forall k :: k in st.streams && k != key ==> CatchUp(cfg, st, key, now, bad).streams[k] == st.streams[k]
  {
    hide Fresh;
    if key in st.streams && st.streams[key].base in st.archive {
      assert CatchUp(cfg, st, key, now, bad).archive.Keys == st.archive.Keys;
    }
  }

  lemma FileOneIsQuiet(cfg: Config, st: State, key: string, camera: string, ts: int, now: int, failing: set<string>)
    ensures Quiet(st, FileOne(cfg, st, key, camera, ts, now, failing))
  {
    if key in st.streams && st.streams[key].base in st.archive {
      assert st.archive.Keys + {st.streams[key].base} == st.archive.Keys;
    }
  }

  lemma QuietJoins(a: State, b: State, c: State)
    requires Quiet(a, b) && Quiet(b, c)
    ensures Quiet(a, c)
  {
    forall k | k in a.streams ensures Core(c.streams[k]) == Core(a.streams[k]) {
      assert k in b.streams;
    }
  }

  lemma {:induction false} FileAllIsQuiet(cfg: Config, st: State, order: seq<string>, camera: string, ts: int,
                                          now: int, failing: set<string>)
    ensures Quiet(st, FileAll(cfg, st, order, camera, ts, now, failing))
  {
    if order != [] {
      hide FileOne, Quiet;
      var n := |order| - 1;
      FileAllIsQuiet(cfg, st, order[..n], camera, ts, now, failing);
      var before := FileAll(cfg, st, order[..n], camera, ts, now, failing);
      FileOneIsQuiet(cfg, before, order[n], camera, ts, now, failing);
      QuietJoins(st, before, FileAll(cfg, st, order, camera, ts, now, failing));
    } else {
      assert FileAll(cfg, st, order, camera, ts, now, failing) == st;
    }
  }

  /** The frame is of the session's camera, in its window, not yet marked, and can be copied. */
  predicate Takes(cfg: Config, st: State, key: string, camera: string, ts: int, now: int) {
    && key in st.streams
    && var s := st.streams[key];
       && s.camera == camera && s.base in st.archive && ts in SourceOf(st, camera) && ts !in s.copied
       && Seconds(s.startMs) - cfg.lead <= ts
       && ts <= (if s.endMs > 0 then Seconds(s.endMs) + cfg.trail else now / 1_000_000_000 + 60)
  }

  lemma FileOneEffect(cfg: Config, st: State, key: string, camera: string, ts: int, now: int, failing: set<string>)
    ensures key !in failing && Takes(cfg, st, key, camera, ts, now) ==>
              FileOne(cfg, st, key, camera, ts, now, failing) == Copy(st, key, st.streams[key], {ts})
    ensures !(key !in failing && Takes(cfg, st, key, camera, ts, now)) ==>
              FileOne(cfg, st, key, camera, ts, now, failing) == st
  {
  }

  /** A frame that appears goes to exactly the sessions that take it, and is marked by them; nobody else's
      session changes, whatever the order of the walk. */
  lemma {:induction false} FileAllMeaning(cfg: Config, st: State, order: seq<string>, camera: string, ts: int,
                                          now: int, failing: set<string>, k: string)
    requires Walk(order) && k in st.streams
    ensures var after := FileAll(cfg, st, order, camera, ts, now, failing);
            && k in after.streams
            && after.streams[k] == (if k in order && k !in failing && Takes(cfg, st, k, camera, ts, now)
                                    then st.streams[k].(copied := st.streams[k].copied + {ts}) else st.streams[k])
            && (k in order && k !in failing && Takes(cfg, st, k, camera, ts, now) ==>
                  ts in FilesIn(after, st.streams[k].base))
  {
    if order == [] {
      assert FileAll(cfg, st, order, camera, ts, now, failing) == st;
    } else {
      var n := |order| - 1;
      var front, key := order[..n], order[n];
      assert order == front + [key] && key !in front && Walk(front);
      var mid := FileAll(cfg, st, front, camera, ts, now, failing);
      FileAllMeaning(cfg, st, front, camera, ts, now, failing, k);
      FileAllIsQuiet(cfg, st, front, camera, ts, now, failing);
      FileOneEffect(cfg, mid, key, camera, ts, now, failing);
      FileOneKeepsFiles(mid, key, ts);
      if k == key {
        SameTakes(cfg, st, mid, k, camera, ts, now);
      }
      hide FileOne, Takes, FilesIn, Quiet;
    }
  }

  lemma SameTakes(cfg: Config, st: State, mid: State, key: string, camera: string, ts: int, now: int)
    requires Quiet(st, mid) && key in st.streams && mid.streams[key] == st.streams[key]
    ensures Takes(cfg, mid, key, camera, ts, now) <==> Takes(cfg, st, key, camera, ts, now)
  {
  }

  lemma FileOneKeepsFiles(st: State, key: string, ts: int)
    ensures key in st.streams ==>
              forall b :: FilesIn(st, b) <= FilesIn(Copy(st, key, st.streams[key], {ts}), b)
    ensures key in st.streams && st.streams[key].base in st.archive ==>
              ts in FilesIn(Copy(st, key, st.streams[key], {ts}), st.streams[key].base)
  {
  }

  lemma CloseCheckIsQuiet(cfg: Config, st: State, key: string, now: int, bad: set<int>)
    ensures Quiet(st, CloseCheck(cfg, st, key, now, bad).0)
  {
    hide CatchUp;
    CatchUpIsQuiet(cfg, st, key, now, bad);
  }

  lemma {:induction false} CloseChecksIsQuiet(cfg: Config, st: State, order: seq<string>, now: int, bad: set<int>)
    ensures Quiet(st, CloseChecks(cfg, st, order, now, bad).0)
  {
    if order != [] {
      hide CloseCheck, Quiet;
      var key := order[|order| - 1];
      CloseChecksIsQuiet(cfg, st, order[..|order| - 1], now, bad);
      var before := CloseChecks(cfg, st, order[..|order| - 1], now, bad).0;
      CloseCheckIsQuiet(cfg, before, key, now, bad);
      QuietJoins(st, before, CloseCheck(cfg, before, key, now, bad).0);
    } else {
      assert CloseChecks(cfg, st, order, now, bad).0 == st;
    }
  }

  /** The session moved to an earlier start. */
  function Lowered(s: Session, e: Event, camera: string, dtype: string): Session {
    s.(startMs := e.start, base := ArchiveBase(camera, dtype, e.start))
  }

  function WithEvent(s: Session, e: Event): Session { s.(ids := s.ids + [e.id], merged := s.merged + [e]) }

  /** What a merge makes of a session, copying aside. */
  function Merged(cfg: Config, s: Session, e: Event, camera: string, dtype: string): Session {
    var s1 := if e.start < s.startMs then Lowered(s, e, camera, dtype) else s;
    var s2 := if e.HasEnd() then Extended(cfg, s1, e) else s1;
    WithEvent(s2, e)
  }

  /** Only the session at the key is changed or added. */
  ghost predicate OnlyAt(st: State, after: State, key: string) {
    && after.streams.Keys == st.streams.Keys + {key}
    && (forall k :: k in st.streams && k != key ==> after.streams[k] == st.streams[k])
    && after.done == st.done && after.source == st.source
  }

  /** Only the session at the key changes, and the archive. */
  ghost predicate Local(st: State, after: State, key: string) {
    OnlyAt(st, after, key) && after.waiting == st.waiting && after.watch == st.watch
  }

  lemma LowerLocal(cfg: Config, st: State, key: string, e: Event, camera: string, dtype: string, now: int, io: World)
    requires key in st.streams
    ensures Local(st, Lower(cfg, st, key, e, camera, dtype, now, io), key)
    ensures Core(Lower(cfg, st, key, e, camera, dtype, now, io).streams[key])
            == Core(Lowered(st.streams[key], e, camera, dtype))
  {
    hide CatchUp, MakeDir;
    var s := st.streams[key];
    var moved := s.(startMs := e.start, base := ArchiveBase(camera, dtype, e.start));
    MakeDirLocal(Put(st, key, moved), moved.base, io.mkdirOk);
    CatchUpIsQuiet(cfg, MakeDir(Put(st, key, moved), moved.base, io.mkdirOk), key, now, io.bad1);
  }

  lemma ExtendLocal(cfg: Config, st: State, key: string, e: Event, now: int, bad: set<int>)
    requires key in st.streams
    ensures Local(st, Extend(cfg, st, key, e, now, bad), key)
    ensures Core(Extend(cfg, st, key, e, now, bad).streams[key]) == Core(Extended(cfg, st.streams[key], e))
  {
    hide CatchUp, Extended, Core;
    CatchUpIsQuiet(cfg, Put(st, key, Extended(cfg, st.streams[key], e)), key, now, bad);
  }

  lemma CoreCommutes(cfg: Config, s: Session, t: Session, e: Event)
    requires Core(s) == Core(t)
    ensures Core(Extended(cfg, s, e)) == Core(Extended(cfg, t, e))
    ensures Core(WithEvent(s, e)) == Core(WithEvent(t, e))
  {
    hide CopyAfter;
    assert s == t.(copied := s.copied);
  }

  /** A merge touches only its session, of which it makes what Merged says. */
  lemma MergeLocal(cfg: Config, st: State, key: string, e: Event, camera: string, dtype: string, now: int, io: World)
    requires key in st.streams
    ensures Local(st, Merge(cfg, st, key, e, camera, dtype, now, io), key)
    ensures Core(Merge(cfg, st, key, e, camera, dtype, now, io).streams[key])
            == Core(Merged(cfg, st.streams[key], e, camera, dtype))
  {
    hide Lower, Extend, Extended, Lowered, Core;
    var s := st.streams[key];
    LowerLocal(cfg, st, key, e, camera, dtype, now, io);
    var s1 := if e.start < s.startMs then Lowered(s, e, camera, dtype) else s;
    var st1 := if e.start < s.startMs then Lower(cfg, st, key, e, camera, dtype, now, io) else st;
    ExtendLocal(cfg, st1, key, e, now, io.bad2);
    CoreCommutes(cfg, st1.streams[key], s1, e);
    var s2 := if e.HasEnd() then Extended(cfg, s1, e) else s1;
    var st2 := if e.HasEnd() then Extend(cfg, st1, key, e, now, io.bad2) else st1;
    CoreCommutes(cfg, st2.streams[key], s2, e);
  }

  lemma MakeDirLocal(st: State, b: Base, ok: bool)
    ensures var after := MakeDir(st, b, ok);
            && after.streams == st.streams && after.waiting == st.waiting && after.done == st.done
            && after.source == st.source && after.watch == st.watch
            && after.archive.Keys == (if ok then st.archive.Keys + {b} else st.archive.Keys)
            && forall d :: FilesIn(after, d) == FilesIn(st, d)
  {
  }

  lemma FreshSessionCore(cfg: Config, e: Event, camera: string, dtype: string)
    ensures Core(NewSession(cfg, e, camera, dtype)) == NewSession(cfg, e, camera, dtype)
  {
  }

  /** An opening that cannot make its directory does nothing. */
  predicate OpenFails(st: State, e: Event, camera: string, dtype: string, io: World) {
    ArchiveBase(camera, dtype, e.start) !in st.archive && !io.mkdirOk
  }

  /** Any other adds the session, counts it, and waits for the end if there is none. */
  lemma OpenLocal(cfg: Config, st: State, e: Event, camera: string, dtype: string, now: int, io: World)
    requires CameraKey(camera, dtype) !in st.streams
    ensures OpenFails(st, e, camera, dtype, io) ==> Open(cfg, st, e, camera, dtype, now, io) == st
    ensures !OpenFails(st, e, camera, dtype, io) ==>
              var after := Open(cfg, st, e, camera, dtype, now, io);
              && OnlyAt(st, after, CameraKey(camera, dtype))
              && Core(after.streams[CameraKey(camera, dtype)]) == NewSession(cfg, e, camera, dtype)
              && after.watch == EnsureWatched(cfg, st.watch, camera, io.addOk)
              && after.waiting == (if e.HasEnd() then st.waiting
                                   else st.waiting[e.id := WaitingEvent(camera, dtype, e.start, now)])
  {
    hide CatchUp, EnsureWatched, CameraKey, CopyAfter, ArchiveBase, NewSession, Core, MakeDir;
    var key := CameraKey(camera, dtype);
    var begun := Put(MakeDir(st, ArchiveBase(camera, dtype, e.start), true), key, NewSession(cfg, e, camera, dtype)).(
      watch := EnsureWatched(cfg, st.watch, camera, io.addOk));
    FreshSessionCore(cfg, e, camera, dtype);
    MakeDirLocal(st, ArchiveBase(camera, dtype, e.start), true);
    CatchUpIsQuiet(cfg, begun, key, now, io.bad1);
  }

  // ---------- the effect of one message ----------

  predicate Ignored(st: State, e: Event, camera: string) {
    e.id == "" || e.start <= 0 || camera == "" || e.id in st.done
  }

  /** The message opens a session. */
  predicate Opens(st: State, e: Event, camera: string, dtype: string, io: World) {
    !Ignored(st, e, camera) && CameraKey(camera, dtype) !in st.streams && !OpenFails(st, e, camera, dtype, io)
  }

  /** The waiting events once a message with this id has been seen. */
  function StillWaiting(st: State, e: Event): map<string, WaitingEvent> {
    if e.HasEnd() then st.waiting - {e.id} else st.waiting
  }

  ghost predicate MergedInto(cfg: Config, st: State, after: State, e: Event, camera: string, dtype: string) {
    var key := CameraKey(camera, dtype);
    && key in st.streams && OnlyAt(st, after, key)
    && Core(after.streams[key]) == Core(Merged(cfg, st.streams[key], e, camera, dtype))
    && after.watch == st.watch && after.waiting == StillWaiting(st, e)
  }

  ghost predicate OpenedFor(cfg: Config, st: State, after: State, e: Event, camera: string, dtype: string, now: int,
                            addOk: bool) {
    var key := CameraKey(camera, dtype);
    && key !in st.streams && OnlyAt(st, after, key)
    && Core(after.streams[key]) == NewSession(cfg, e, camera, dtype)
    && after.watch == EnsureWatched(cfg, st.watch, camera, addOk)
    && after.waiting == (if e.HasEnd() then StillWaiting(st, e)
                         else st.waiting[e.id := WaitingEvent(camera, dtype, e.start, now)])
  }

  /** A message is ignored, merged into the session at its key, or opens one there. */
  lemma MessageEffect(cfg: Config, st: State, e: Event, camera: string, dtype: string, now: int, io: World)
    ensures var after := ProcessMessage(cfg, st, e, camera, dtype, now, io);
            if Ignored(st, e, camera) then after == st
            else if CameraKey(camera, dtype) in st.streams then MergedInto(cfg, st, after, e, camera, dtype)
            else if OpenFails(st, e, camera, dtype, io) then after == st.(waiting := StillWaiting(st, e))
            else OpenedFor(cfg, st, after, e, camera, dtype, now, io.addOk)
  {
    hide Merge, Open, OpenFails, Merged, EnsureWatched, NewSession, CameraKey, Core;
    var st1 := if e.HasEnd() then st.(waiting := st.waiting - {e.id}) else st;
    if CameraKey(camera, dtype) in st.streams {
      MergeLocal(cfg, st1, CameraKey(camera, dtype), e, camera, dtype, now, io);
    } else {
      SameOpenFails(st, st1, e, camera, dtype, io);
      OpenLocal(cfg, st1, e, camera, dtype, now, io);
    }
  }

  lemma SameOpenFails(st: State, st1: State, e: Event, camera: string, dtype: string, io: World)
    requires st1.archive == st.archive
    ensures OpenFails(st1, e, camera, dtype, io) == OpenFails(st, e, camera, dtype, io)
  {
  }

  // ---------- the effect of an expiry pass ----------

  /** The session at the key holds a single message, an end has not come, and that message is overdue. */
  predicate Expirable(cfg: Config, st: State, key: string, now: int) {
    && key in st.streams
    && var s := st.streams[key];
       && s.endMs == 0 && |s.ids| == 1 && s.ids[0] in st.waiting
       && var w := st.waiting[s.ids[0]];
          CameraKey(w.camera, w.dtype) == key && w.lastAt < now - cfg.timeout
  }

  /** The sessions an expiry pass over these ids removes. */
  function ExpiredKeys(cfg: Config, st: State, ids: seq<string>, now: int): set<string> {
    set k | k in st.streams && Expirable(cfg, st, k, now) && st.streams[k].ids[0] in ids
  }

  function OverdueIds(cfg: Config, st: State, ids: seq<string>, now: int): set<string> {
    set id | id in st.waiting && id in ids && st.waiting[id].lastAt < now - cfg.timeout
  }

  function BasesAt(st: State, keys: set<string>): set<Base> {
    set k | k in keys && k in st.streams :: st.streams[k].base
  }

  /** What one turn of the loop does, told in the same terms. */
  lemma ExpireOneEffect(cfg: Config, st: State, id: string, now: int)
    ensures var after := ExpireOne(cfg, st, id, now);
            && after.streams == st.streams - ExpiredKeys(cfg, st, [id], now)
            && after.waiting == st.waiting - OverdueIds(cfg, st, [id], now)
            && after.archive == st.archive - BasesAt(st, ExpiredKeys(cfg, st, [id], now))
            && after.done == st.done && after.source == st.source
  {
    hide CameraKey, ReleaseWatched;
    assert OverdueIds(cfg, st, [id], now) == if id in st.waiting && Overdue(cfg, st.waiting[id], now) then {id} else {};
    if id in st.waiting && Overdue(cfg, st.waiting[id], now) {
      var key := CameraKey(st.waiting[id].camera, st.waiting[id].dtype);
      assert ExpiredKeys(cfg, st, [id], now)
          == if key in st.streams && Expirable(cfg, st, key, now) && st.streams[key].ids[0] == id then {key} else {};
    } else {
      assert ExpiredKeys(cfg, st, [id], now) == {};
    }
  }

  /** What the first ids remove and what the next one then removes make up what they remove together. */
  lemma ExpiryJoins(cfg: Config, st: State, mid: State, front: seq<string>, id: string, now: int)
    requires mid.streams == st.streams - ExpiredKeys(cfg, st, front, now)
    requires mid.waiting == st.waiting - OverdueIds(cfg, st, front, now)
    ensures OverdueIds(cfg, st, front + [id], now) == OverdueIds(cfg, st, front, now) + OverdueIds(cfg, mid, [id], now)
    ensures ExpiredKeys(cfg, st, front + [id], now) == ExpiredKeys(cfg, st, front, now) + ExpiredKeys(cfg, mid, [id], now)
  {
    hide CameraKey;
  }

  lemma BasesJoin(st: State, mid: State, a: set<string>, b: set<string>)
    requires mid.streams == st.streams - a && b <= mid.streams.Keys
    ensures BasesAt(st, a + b) == BasesAt(st, a) + BasesAt(mid, b)
  {
  }

  /** A pass removes exactly the expirable sessions, with their directories, and exactly the overdue waiting
      events, in whatever order the map is walked. */
  lemma {:induction false} ExpireAllMeaning(cfg: Config, st: State, order: seq<string>, now: int)
    ensures ExpireAll(cfg, st, order, now).streams == st.streams - ExpiredKeys(cfg, st, order, now)
    ensures ExpireAll(cfg, st, order, now).waiting == st.waiting - OverdueIds(cfg, st, order, now)
    ensures ExpireAll(cfg, st, order, now).archive == st.archive - BasesAt(st, ExpiredKeys(cfg, st, order, now))
    ensures ExpireAll(cfg, st, order, now).done == st.done && ExpireAll(cfg, st, order, now).source == st.source
  {
    if order == [] {
      assert ExpiredKeys(cfg, st, order, now) == {} && OverdueIds(cfg, st, order, now) == {};
    } else {
      hide ExpiredKeys, OverdueIds, BasesAt, ExpireOne;
      var front, id := order[..|order| - 1], order[|order| - 1];
      assert order == front + [id];
      var mid := ExpireAll(cfg, st, front, now);
      ExpireAllMeaning(cfg, st, front, now);
      ExpireOneEffect(cfg, mid, id, now);
      ExpiryJoins(cfg, st, mid, front, id, now);
      ExpiredAreThere(cfg, mid, [id], now);
      BasesJoin(st, mid, ExpiredKeys(cfg, st, front, now), ExpiredKeys(cfg, mid, [id], now));
      MinusTwice(st.streams, ExpiredKeys(cfg, st, front, now), ExpiredKeys(cfg, mid, [id], now));
      MinusTwice(st.waiting, OverdueIds(cfg, st, front, now), OverdueIds(cfg, mid, [id], now));
      MinusTwice(st.archive, BasesAt(st, ExpiredKeys(cfg, st, front, now)), BasesAt(mid, ExpiredKeys(cfg, mid, [id], now)));
    }
  }

  lemma MinusTwice<K, V>(m: map<K, V>, a: set<K>, b: set<K>)
    ensures m - a - b == m - (a + b)
  {
  }

  lemma ExpiredAreThere(cfg: Config, st: State, ids: seq<string>, now: int)
    ensures ExpiredKeys(cfg, st, ids, now) <= st.streams.Keys
  {
  }

  // ---------- the effect of a closing pass ----------

  /** The last second of a session that has an end. */
  function LastSecond(cfg: Config, s: Session): int { Seconds(s.endMs) + cfg.trail }

  /** The session has an end, its time has come, and the frame of its last second is copied, can be copied
      now, or does not exist. */
  predicate Due(cfg: Config, st: State, key: string, now: int, bad: set<int>) {
    && key in st.streams
    && var s := st.streams[key];
       && s.endMs != 0 && s.copyAfter <= now / 1_000_000_000
       && (LastSecond(cfg, s) in SourceOf(st, s.camera) ==>
             LastSecond(cfg, s) in s.copied + Fresh(cfg, st, s, now, bad))
  }

  /** What the body of the first loop decides and leaves behind. */
  lemma CloseCheckEffect(cfg: Config, st: State, key: string, now: int, bad: set<int>)
    ensures CloseCheck(cfg, st, key, now, bad).1 <==> Due(cfg, st, key, now, bad)
    ensures Quiet(st, CloseCheck(cfg, st, key, now, bad).0)
    ensures forall k :: k in st.streams && k != key ==>
              CloseCheck(cfg, st, key, now, bad).0.streams[k] == st.streams[k]
  {
    CatchUpIsQuiet(cfg, st, key, now, bad);
    hide Fresh, CatchUp;
    if key in st.streams {
      CatchUpMarks(cfg, st, key, now, bad);
      FreshAreInSource(cfg, st, st.streams[key], now, bad);
    }
  }

  lemma FreshAreInSource(cfg: Config, st: State, s: Session, now: int, bad: set<int>)
    ensures Fresh(cfg, st, s, now, bad) <= SourceOf(st, s.camera)
    ensures Fresh(cfg, st, s, now, bad) !! s.copied
  {
  }

  lemma CatchUpMarks(cfg: Config, st: State, key: string, now: int, bad: set<int>)
    requires key in st.streams
    ensures key in CatchUp(cfg, st, key, now, bad).streams
    ensures CatchUp(cfg, st, key, now, bad).streams[key].copied
            == st.streams[key].copied + Fresh(cfg, st, st.streams[key], now, bad)
  {
  }

  /** Whether a session is due does not change while other sessions catch up. */
  lemma DueIsLocal(cfg: Config, st: State, mid: State, key: string, now: int, bad: set<int>)
    requires Quiet(st, mid) && (key in st.streams ==> mid.streams[key] == st.streams[key])
    ensures Due(cfg, mid, key, now, bad) <==> Due(cfg, st, key, now, bad)
  {
    if key in st.streams {
      var s := st.streams[key];
      assert Fresh(cfg, mid, s, now, bad) == Fresh(cfg, st, s, now, bad);
    }
  }

  /** The first loop picks exactly the due sessions and otherwise only copies. */
  lemma {:induction false} CloseChecksMeaning(cfg: Config, st: State, order: seq<string>, now: int, bad: set<int>)
    requires Walk(order)
    ensures forall k :: k in CloseChecks(cfg, st, order, now, bad).1 <==> k in order && Due(cfg, st, k, now, bad)
    ensures Quiet(st, CloseChecks(cfg, st, order, now, bad).0)
    ensures forall k :: k in st.streams && k !in order ==>
              CloseChecks(cfg, st, order, now, bad).0.streams[k] == st.streams[k]
  {
    if order == [] {
      assert CloseChecks(cfg, st, order, now, bad) == (st, []);
    } else {
      hide Due, CloseCheck;
      var front, key := order[..|order| - 1], order[|order| - 1];
      assert order == front + [key] && key !in front;
      CloseChecksMeaning(cfg, st, front, now, bad);
      var mid := CloseChecks(cfg, st, front, now, bad).0;
      CloseCheckEffect(cfg, mid, key, now, bad);
      DueIsLocal(cfg, st, mid, key, now, bad);
      QuietJoins(st, mid, CloseCheck(cfg, mid, key, now, bad).0);
    }
  }

  /** A closing pass lists no session twice, so each is released once. */
  lemma {:induction false} CloseListsOnce(cfg: Config, st: State, order: seq<string>, now: int, bad: set<int>)
    requires Walk(order)
    ensures Walk(CloseChecks(cfg, st, order, now, bad).1)
    ensures forall k :: k in CloseChecks(cfg, st, order, now, bad).1 ==> k in order
  {
    hide CloseCheck;
    if order != [] {
      var front, key := order[..|order| - 1], order[|order| - 1];
      assert order == front + [key] && key !in front;
      CloseListsOnce(cfg, st, front, now, bad);
      var listed := CloseChecks(cfg, st, front, now, bad).1;
      assert key !in listed;
      assert Walk(listed + [key]);
    }
  }

  function IdsAt(st: State, keys: set<string>): set<string> {
    set k, i | k in keys && k in st.streams && 0 <= i < |st.streams[k].ids| :: st.streams[k].ids[i]
  }

  function SetOf(keys: seq<string>): set<string> { set k | k in keys }

  lemma CloseOneEffect(cfg: Config, st: State, key: string)
    ensures CloseOne(cfg, st, key).streams == st.streams - {key}
    ensures CloseOne(cfg, st, key).done == st.done + IdsAt(st, {key})
    ensures CloseOne(cfg, st, key).waiting == st.waiting && CloseOne(cfg, st, key).archive == st.archive
    ensures CloseOne(cfg, st, key).source == st.source
  {
    hide ReleaseWatched;
    if key in st.streams {
      assert IdsAt(st, {key}) == set i | 0 <= i < |st.streams[key].ids| :: st.streams[key].ids[i];
    } else {
      assert IdsAt(st, {key}) == {};
    }
  }

  lemma IdsJoin(st: State, mid: State, a: set<string>, key: string)
    requires mid.streams == st.streams - a
    ensures IdsAt(st, a + {key}) == IdsAt(st, a) + IdsAt(mid, {key})
  {
    assert key !in a && key in st.streams ==> key in mid.streams && mid.streams[key] == st.streams[key];
  }

  /** The second loop takes the sessions off the map and their ids into the done set. */
  lemma {:induction false} CloseEachMeaning(cfg: Config, st: State, keys: seq<string>)
    ensures CloseEach(cfg, st, keys).streams == st.streams - SetOf(keys)
    ensures CloseEach(cfg, st, keys).done == st.done + IdsAt(st, SetOf(keys))
    ensures CloseEach(cfg, st, keys).waiting == st.waiting && CloseEach(cfg, st, keys).archive == st.archive
    ensures CloseEach(cfg, st, keys).source == st.source
  {
    if keys == [] {
      assert SetOf(keys) == {} && IdsAt(st, {}) == {};
    } else {
      hide CloseOne, IdsAt;
      var front, key := keys[..|keys| - 1], keys[|keys| - 1];
      var mid := CloseEach(cfg, st, front);
      assert keys == front + [key] && SetOf(keys) == SetOf(front) + {key};
      CloseEachMeaning(cfg, st, front);
      CloseOneEffect(cfg, mid, key);
      IdsJoin(st, mid, SetOf(front), key);
      MinusTwice(st.streams, SetOf(front), {key});
    }
  }

  /** The sessions a closing pass closes. */
  function DueKeys(cfg: Config, st: State, order: seq<string>, now: int, bad: set<int>): set<string> {
    set k | k in st.streams && k in order && Due(cfg, st, k, now, bad)
  }

  lemma IdsSurviveQuiet(st: State, mid: State, keys: set<string>)
    requires Quiet(st, mid)
    ensures IdsAt(mid, keys) == IdsAt(st, keys)
  {
    forall k | k in st.streams ensures mid.streams[k].ids == st.streams[k].ids {
      assert Core(mid.streams[k]) == Core(st.streams[k]);
    }
  }

  /** A closing pass takes away exactly the due sessions, puts exactly their ids into the done set, and
      otherwise only copies, in whatever order the map is walked. */
  lemma CloseAllMeaning(cfg: Config, st: State, order: seq<string>, now: int, bad: set<int>)
    requires Walk(order)
    ensures var after := CloseAll(cfg, st, order, now, bad);
            && after.streams.Keys == st.streams.Keys - DueKeys(cfg, st, order, now, bad)
            && (forall k :: k in after.streams ==> Core(after.streams[k]) == Core(st.streams[k]))
            && after.done == st.done + IdsAt(st, DueKeys(cfg, st, order, now, bad))
            && after.waiting == st.waiting && after.source == st.source && after.archive.Keys == st.archive.Keys
  {
    hide CloseEach, CloseChecks, Due, Core, IdsAt;
    var mid, toClose := CloseChecks(cfg, st, order, now, bad).0, CloseChecks(cfg, st, order, now, bad).1;
    CloseChecksMeaning(cfg, st, order, now, bad);
    CloseEachMeaning(cfg, mid, toClose);
    DueIsThere(cfg, st, now, bad);
    assert SetOf(toClose) == DueKeys(cfg, st, order, now, bad);
    IdsSurviveQuiet(st, mid, SetOf(toClose));
  }

  lemma DueIsThere(cfg: Config, st: State, now: int, bad: set<int>)
    ensures forall k :: Due(cfg, st, k, now, bad) ==> k in st.streams
  {
  }
}
