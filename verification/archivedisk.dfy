/** The marks of copied frames against the files in the archive, and what moving a session's start back
    does to both. services/unifi-smart-archive/service/service.go. */
module ArchiveDisk {
  import opened Keys
  import opened Archive
  import opened ArchiveEffects
  import opened ArchiveSessions

  /** Every frame marked as copied is a file in the session's directory. */
  ghost predicate OnDisk(st: State, key: string)
    requires key in st.streams
  {
    st.streams[key].copied <= FilesIn(st, st.streams[key].base)
  }

  ghost predicate AllOnDisk(st: State) {
    forall k :: k in st.streams ==> OnDisk(st, k)
  }

  /** No two sessions share a directory. */
  ghost predicate OwnBases(st: State) {
    forall k, j :: k in st.streams && j in st.streams && k != j ==> st.streams[k].base != st.streams[j].base
  }

  lemma HullsOwnBases(cfg: Config, st: State)
    requires AllHulls(cfg, st)
    ensures OwnBases(st)
  {
  }

  // ---------- the files each primitive leaves ----------

  ghost predicate FilesElsewhere(st: State, after: State, b: Base, c: Base) {
    forall d :: d != b && d != c ==> FilesIn(after, d) == FilesIn(st, d)
  }

  /** The session's marks, and the files in the directory it ends up with, grow by the same frames, none of
      them marked before; a directory it leaves is gone; no other directory is touched. */
  ghost predicate Filed(st: State, after: State, key: string, frames: set<int>) {
    && key in st.streams && key in after.streams
    && var s, t := st.streams[key], after.streams[key];
       && frames !! s.copied && t.copied == s.copied + frames
       && FilesIn(after, t.base) == FilesIn(st, t.base) + frames
       && (t.base != s.base ==> s.base !in after.archive)
       && FilesElsewhere(st, after, s.base, t.base)
  }

  lemma CatchUpFiles(cfg: Config, st: State, key: string, now: int, bad: set<int>)
    requires key in st.streams
    ensures Filed(st, CatchUp(cfg, st, key, now, bad), key, Fresh(cfg, st, st.streams[key], now, bad))
    ensures CatchUp(cfg, st, key, now, bad).streams[key].base == st.streams[key].base
  {
    FreshAreInSource(cfg, st, st.streams[key], now, bad);
    assert st.streams[key].base !in st.archive ==> Fresh(cfg, st, st.streams[key], now, bad) == {};
    hide Fresh;
  }

  /** A frame that appears is copied and marked, or nothing happens. */
  lemma FileOneFiles(cfg: Config, st: State, key: string, camera: string, ts: int, now: int, failing: set<string>)
    ensures var after := FileOne(cfg, st, key, camera, ts, now, failing);
            after == st || (OnlyAt(st, after, key) && Filed(st, after, key, {ts})
                            && after.streams[key].base == st.streams[key].base)
  {
  }

  /** What a merge that changes the directory copies into the new one. */
  function MovedFrames(cfg: Config, st: State, key: string, e: Event, camera: string, dtype: string, now: int,
                       io: World): set<int>
    requires key in st.streams
  {
    var moved := Lowered(st.streams[key], e, camera, dtype);
    Fresh(cfg, MakeDir(Put(st, key, moved), moved.base, io.mkdirOk), moved, now, io.bad1)
  }

  lemma LowerFiles(cfg: Config, st: State, key: string, e: Event, camera: string, dtype: string, now: int, io: World)
    requires key in st.streams && ArchiveBase(camera, dtype, e.start) != st.streams[key].base
    ensures var after := Lower(cfg, st, key, e, camera, dtype, now, io);
            Filed(st, after, key, MovedFrames(cfg, st, key, e, camera, dtype, now, io))
            && after.streams[key].base == ArchiveBase(camera, dtype, e.start)
  {
    var moved := Lowered(st.streams[key], e, camera, dtype);
    var made := MakeDir(Put(st, key, moved), moved.base, io.mkdirOk);
    MakeDirLocal(Put(st, key, moved), moved.base, io.mkdirOk);
    CatchUpFiles(cfg, made, key, now, io.bad1);
    hide CatchUp, Fresh, MakeDir, ArchiveBase;
  }

  lemma FiledTwice(a: State, b: State, c: State, key: string, f: set<int>, g: set<int>)
    requires Filed(a, b, key, f) && Filed(b, c, key, g) && c.streams[key].base == b.streams[key].base
    requires forall d :: d in c.archive ==> d in b.archive
    ensures Filed(a, c, key, f + g)
  {
    hide FilesIn;
  }

  /** What the merge of a message with an end copies. */
  function EndFrames(cfg: Config, st: State, key: string, e: Event, now: int, bad: set<int>): set<int>
    requires key in st.streams
  {
    var extended := Extended(cfg, st.streams[key], e);
    Fresh(cfg, Put(st, key, extended), extended, now, bad)
  }

  lemma ExtendFiles(cfg: Config, st: State, key: string, e: Event, now: int, bad: set<int>)
    requires key in st.streams
    ensures Filed(st, Extend(cfg, st, key, e, now, bad), key, EndFrames(cfg, st, key, e, now, bad))
    ensures Extend(cfg, st, key, e, now, bad).streams[key].base == st.streams[key].base
    ensures Extend(cfg, st, key, e, now, bad).archive.Keys == st.archive.Keys
  {
    var extended := Put(st, key, Extended(cfg, st.streams[key], e));
    CatchUpFiles(cfg, extended, key, now, bad);
    CatchUpIsQuiet(cfg, extended, key, now, bad);
    hide CatchUp, Fresh, CopyAfter;
  }

  /** The first half of a merge. */
  lemma LowerHalfFiles(cfg: Config, st: State, key: string, e: Event, camera: string, dtype: string, now: int,
                       io: World)
    returns (frames: set<int>)
    requires key in st.streams
    ensures var st1 := if e.start < st.streams[key].startMs then Lower(cfg, st, key, e, camera, dtype, now, io) else st;
            Filed(st, st1, key, frames)
            && st1.streams[key].base
               == if e.start < st.streams[key].startMs then ArchiveBase(camera, dtype, e.start) else st.streams[key].base
  {
    hide ArchiveBase, CatchUp, MakeDir;
    if e.start < st.streams[key].startMs && ArchiveBase(camera, dtype, e.start) != st.streams[key].base {
      LowerFiles(cfg, st, key, e, camera, dtype, now, io);
      frames := MovedFrames(cfg, st, key, e, camera, dtype, now, io);
    } else {
      frames := {};
    }
  }

  /** Where the session files its frames after the message. */
  function BaseAfter(s: Session, e: Event, camera: string, dtype: string): Base {
    if e.start < s.startMs then ArchiveBase(camera, dtype, e.start) else s.base
  }

  lemma MergeFiles(cfg: Config, st: State, key: string, e: Event, camera: string, dtype: string, now: int, io: World)
    returns (frames: set<int>)
    requires key in st.streams
    ensures Filed(st, Merge(cfg, st, key, e, camera, dtype, now, io), key, frames)
    ensures Merge(cfg, st, key, e, camera, dtype, now, io).streams[key].base == BaseAfter(st.streams[key], e, camera, dtype)
  {
    hide ArchiveBase, Lower, Extend, Filed;
    frames := LowerHalfFiles(cfg, st, key, e, camera, dtype, now, io);
    var st1 := if e.start < st.streams[key].startMs then Lower(cfg, st, key, e, camera, dtype, now, io) else st;
    LowerLocal(cfg, st, key, e, camera, dtype, now, io);
    var st2 := st1;
    if e.HasEnd() {
      var more := EndFrames(cfg, st1, key, e, now, io.bad2);
      ExtendFiles(cfg, st1, key, e, now, io.bad2);
      st2 := Extend(cfg, st1, key, e, now, io.bad2);
      FiledTwice(st, st1, st2, key, frames, more);
      frames := frames + more;
    }
    AddEventFiles(st, st2, key, e, frames);
  }

  lemma AddEventFiles(st: State, st2: State, key: string, e: Event, frames: set<int>)
    requires Filed(st, st2, key, frames)
    ensures key in st2.streams && Filed(st, AddEvent(st2, key, e), key, frames)
  {
  }

  // ---------- what a message copies ----------

  /** The source frames of the session's window, which reaches a little past now while there is no end. */
  function InWindow(cfg: Config, st: State, s: Session, now: int): set<int> {
    set ts | ts in SourceOf(st, s.camera) && Seconds(s.startMs) - cfg.lead <= ts <= WindowEnd(cfg, s, now)
  }

  /** The session has marked its whole window, failed copies aside. */
  ghost predicate CaughtUp(cfg: Config, st: State, key: string, now: int, bad: set<int>) {
    key in st.streams && InWindow(cfg, st, st.streams[key], now) - bad <= st.streams[key].copied
  }

  lemma CatchUpIsComplete(cfg: Config, st: State, key: string, now: int, bad: set<int>)
    requires key in st.streams && st.streams[key].base in st.archive
    ensures CaughtUp(cfg, CatchUp(cfg, st, key, now, bad), key, now, bad)
  {
  }

  lemma SameWindow(cfg: Config, st: State, after: State, key: string, now: int, bad: set<int>)
    requires CaughtUp(cfg, st, key, now, bad) && key in after.streams && after.source == st.source
    requires var s, t := st.streams[key], after.streams[key];
             t.camera == s.camera && t.startMs == s.startMs && t.endMs == s.endMs && t.copied == s.copied
    ensures CaughtUp(cfg, after, key, now, bad)
  {
    var s, t := st.streams[key], after.streams[key];
    assert SourceOf(after, t.camera) == SourceOf(st, s.camera);
    assert t.startMs == s.startMs && WindowEnd(cfg, t, now) == WindowEnd(cfg, s, now);
    hide SourceOf, FromSec, ToSec;
    assert InWindow(cfg, after, t, now) == InWindow(cfg, st, s, now);
  }

  lemma OpenCatchesUp(cfg: Config, st: State, e: Event, camera: string, dtype: string, now: int, io: World)
    requires CameraKey(camera, dtype) !in st.streams && !OpenFails(st, e, camera, dtype, io)
    ensures CaughtUp(cfg, Open(cfg, st, e, camera, dtype, now, io), CameraKey(camera, dtype), now, io.bad1)
  {
    hide CatchUp, EnsureWatched, CameraKey, CopyAfter, ArchiveBase, MakeDir, CaughtUp;
    var key, base := CameraKey(camera, dtype), ArchiveBase(camera, dtype, e.start);
    var begun := Put(MakeDir(st, base, true), key, NewSession(cfg, e, camera, dtype)).(
      watch := EnsureWatched(cfg, st.watch, camera, io.addOk));
    MakeDirLocal(st, base, true);
    CatchUpIsQuiet(cfg, begun, key, now, io.bad1);
    CatchUpIsComplete(cfg, begun, key, now, io.bad1);
    SameWindow(cfg, CatchUp(cfg, begun, key, now, io.bad1), Open(cfg, st, e, camera, dtype, now, io), key, now, io.bad1);
  }

  lemma EndCatchesUp(cfg: Config, st: State, key: string, e: Event, camera: string, dtype: string, now: int, io: World)
    requires key in st.streams && e.HasEnd()
    ensures var after := Merge(cfg, st, key, e, camera, dtype, now, io);
            key in after.streams
            && (after.streams[key].base in after.archive ==> CaughtUp(cfg, after, key, now, io.bad2))
  {
    hide CatchUp, Extended, CaughtUp;
    LowerLocal(cfg, st, key, e, camera, dtype, now, io);
    var st1 := if e.start < st.streams[key].startMs then Lower(cfg, st, key, e, camera, dtype, now, io) else st;
    hide Lower;
    var extended := Put(st1, key, Extended(cfg, st1.streams[key], e));
    CatchUpIsQuiet(cfg, extended, key, now, io.bad2);
    QuietBases(extended, CatchUp(cfg, extended, key, now, io.bad2));
    var st2 := CatchUp(cfg, extended, key, now, io.bad2);
    assert Merge(cfg, st, key, e, camera, dtype, now, io) == AddEvent(st2, key, e);
    if st2.streams[key].base in st2.archive {
      CatchUpIsComplete(cfg, extended, key, now, io.bad2);
      SameWindow(cfg, st2, AddEvent(st2, key, e), key, now, io.bad2);
    }
  }

  /** A message that opens a session, or brings an end to one whose directory is there, leaves it with its
      whole window marked, failed copies aside. */
  lemma MessageCatchesUp(cfg: Config, st: State, e: Event, camera: string, dtype: string, now: int, io: World)
    requires !Ignored(st, e, camera)
    ensures var after, key := ProcessMessage(cfg, st, e, camera, dtype, now, io), CameraKey(camera, dtype);
            && (key !in st.streams && !OpenFails(st, e, camera, dtype, io) ==> CaughtUp(cfg, after, key, now, io.bad1))
            && (key in st.streams && e.HasEnd() && after.streams[key].base in after.archive ==>
                  CaughtUp(cfg, after, key, now, io.bad2))
  {
    hide Merge, Open, CaughtUp, CameraKey;
    var st1 := if e.HasEnd() then st.(waiting := st.waiting - {e.id}) else st;
    SameOpenFails(st, st1, e, camera, dtype, io);
    hide OpenFails;
    if CameraKey(camera, dtype) in st.streams {
      MergeLocal(cfg, st1, CameraKey(camera, dtype), e, camera, dtype, now, io);
      if e.HasEnd() {
        EndCatchesUp(cfg, st1, CameraKey(camera, dtype), e, camera, dtype, now, io);
      }
    } else if !OpenFails(st, e, camera, dtype, io) {
      OpenCatchesUp(cfg, st1, e, camera, dtype, now, io);
    }
  }

  // ---------- when a merge keeps marks and files in step ----------

  /** The exact condition: everything marked before is in the directory the session files into afterwards. */
  lemma MergeOnDiskIff(cfg: Config, st: State, key: string, e: Event, camera: string, dtype: string, now: int,
                       io: World)
    requires key in st.streams
    ensures key in Merge(cfg, st, key, e, camera, dtype, now, io).streams
    ensures OnDisk(Merge(cfg, st, key, e, camera, dtype, now, io), key) <==>
            st.streams[key].copied <= FilesIn(st, BaseAfter(st.streams[key], e, camera, dtype))
  {
    hide Merge, FilesIn, BaseAfter;
    var after := Merge(cfg, st, key, e, camera, dtype, now, io);
    var frames := MergeFiles(cfg, st, key, e, camera, dtype, now, io);
    FiledKeepsGap(st, after, key, frames);
  }

  /** Filing neither mends nor makes a gap between marks and files. */
  lemma FiledKeepsGap(st: State, after: State, key: string, frames: set<int>)
    requires Filed(st, after, key, frames)
    ensures OnDisk(after, key) <==> st.streams[key].copied <= FilesIn(st, after.streams[key].base)
  {
    hide FilesIn;
    var s, t := st.streams[key], after.streams[key];
    if OnDisk(after, key) {
      forall x | x in s.copied ensures x in FilesIn(st, t.base) {
        assert x in t.copied && x !in frames;
      }
    }
  }

  /** Moving the start back by a second or more into a directory that is not there yet loses every frame
      archived so far: the old directory is gone, and the new one holds only frames marked since. */
  lemma LoweringLosesFrames(cfg: Config, st: State, key: string, e: Event, camera: string, dtype: string, now: int,
                            io: World)
    requires key in st.streams && e.start < st.streams[key].startMs
    requires ArchiveBase(camera, dtype, e.start) != st.streams[key].base
    requires ArchiveBase(camera, dtype, e.start) !in st.archive
    ensures var after := Merge(cfg, st, key, e, camera, dtype, now, io);
            && key in after.streams && st.streams[key].base !in after.archive
            && FilesIn(after, after.streams[key].base) == after.streams[key].copied - st.streams[key].copied
  {
    hide Merge;
    var frames := MergeFiles(cfg, st, key, e, camera, dtype, now, io);
  }

  /** The source frames of the session's camera from the lead before fromMs up to toSec that are not marked,
      failed copies aside. */
  function Unmarked(cfg: Config, st: State, s: Session, fromMs: int, toSec: int, bad: set<int>): set<int> {
    set ts | ts in SourceOf(st, s.camera)
             && Seconds(fromMs) - cfg.lead <= ts <= toSec && ts !in s.copied && ts !in bad
  }

  lemma MovedFramesAre(cfg: Config, st: State, key: string, e: Event, camera: string, dtype: string, now: int,
                       io: World)
    requires key in st.streams
    ensures var s, base := st.streams[key], ArchiveBase(camera, dtype, e.start);
            MovedFrames(cfg, st, key, e, camera, dtype, now, io)
            == if base in st.archive || io.mkdirOk then Unmarked(cfg, st, s, e.start, WindowEnd(cfg, s, now), io.bad1)
               else {}
  {
    hide ArchiveBase;
    var s := st.streams[key];
    var moved := Lowered(s, e, camera, dtype);
    var made := MakeDir(Put(st, key, moved), moved.base, io.mkdirOk);
    assert SourceOf(made, s.camera) == SourceOf(st, s.camera);
  }

  /** The session's end once the message's is taken into account. */
  function LaterEnd(s: Session, e: Event): int { if e.end > s.endMs then e.end else s.endMs }

  lemma EndFramesAre(cfg: Config, st: State, key: string, e: Event, now: int, bad: set<int>)
    requires key in st.streams && e.HasEnd()
    ensures var s := st.streams[key];
            EndFrames(cfg, st, key, e, now, bad)
            == if s.base in st.archive
               then Unmarked(cfg, st, s, s.startMs, Seconds(LaterEnd(s, e)) + cfg.trail, bad) else {}
  {
    hide CopyAfter;
    var s := st.streams[key];
    var extended := Extended(cfg, s, e);
    assert extended.endMs == LaterEnd(s, e) > 0 && extended.copied == s.copied && extended.base == s.base;
    assert SourceOf(Put(st, key, extended), s.camera) == SourceOf(st, s.camera);
  }

  /** What a merge that moves the session to another directory leaves there, whatever the message: the files
      that were there and, if the directory exists or can be made, exactly the source frames of the wider
      window not marked before, and those of the window up to the end the message brings. */
  lemma LoweringSurvivors(cfg: Config, st: State, key: string, e: Event, camera: string, dtype: string, now: int,
                          io: World)
    requires key in st.streams && e.start < st.streams[key].startMs
    requires ArchiveBase(camera, dtype, e.start) != st.streams[key].base
    ensures var after := Merge(cfg, st, key, e, camera, dtype, now, io);
            var s, base := st.streams[key], ArchiveBase(camera, dtype, e.start);
            FilesIn(after, base) == FilesIn(st, base) + Survivors(cfg, st, s, e, base, now, io)
  {
    hide Lower, Extend, MovedFrames, EndFrames, ArchiveBase, Unmarked, LaterEnd, Core;
    var s, base := st.streams[key], ArchiveBase(camera, dtype, e.start);
    var st1 := Lower(cfg, st, key, e, camera, dtype, now, io);
    LowerFiles(cfg, st, key, e, camera, dtype, now, io);
    LowerLocal(cfg, st, key, e, camera, dtype, now, io);
    LowerMakesBase(cfg, st, key, e, camera, dtype, now, io);
    MovedFramesAre(cfg, st, key, e, camera, dtype, now, io);
    if e.HasEnd() {
      ExtendFiles(cfg, st1, key, e, now, io.bad2);
      EndFramesAre(cfg, st1, key, e, now, io.bad2);
      LoweredCore(st1.streams[key], s, e, camera, dtype);
      SecondHalf(cfg, st, st1, s, st1.streams[key], e, MovedFrames(cfg, st, key, e, camera, dtype, now, io), io.bad2);
    }
  }

  /** The frames that come into the directory the session moves to. */
  function Survivors(cfg: Config, st: State, s: Session, e: Event, base: Base, now: int, io: World): set<int> {
    if base !in st.archive && !io.mkdirOk then {}
    else if !e.HasEnd() then Unmarked(cfg, st, s, e.start, WindowEnd(cfg, s, now), io.bad1)
    else Unmarked(cfg, st, s, e.start, WindowEnd(cfg, s, now), io.bad1)
         + Unmarked(cfg, st, s, e.start, Seconds(LaterEnd(s, e)) + cfg.trail, io.bad2)
  }

  lemma LoweredCore(t: Session, s: Session, e: Event, camera: string, dtype: string)
    requires Core(t) == Core(Lowered(s, e, camera, dtype))
    ensures t.camera == s.camera && t.startMs == e.start && t.endMs == s.endMs
  {
    assert Core(t).camera == t.camera && Core(t).startMs == t.startMs && Core(t).endMs == t.endMs;
  }

  /** The second catch-up passes over what the first has marked. */
  lemma SecondHalf(cfg: Config, st: State, st1: State, s: Session, t: Session, e: Event, first: set<int>, bad: set<int>)
    requires st1.source == st.source && t.camera == s.camera && t.startMs == e.start && t.endMs == s.endMs
    requires t.copied == s.copied + first
    ensures first + Unmarked(cfg, st1, t, t.startMs, Seconds(LaterEnd(t, e)) + cfg.trail, bad)
         == first + Unmarked(cfg, st, s, e.start, Seconds(LaterEnd(s, e)) + cfg.trail, bad)
  {
    assert SourceOf(st1, t.camera) == SourceOf(st, s.camera);
    hide SourceOf, Seconds;
  }

  lemma LowerMakesBase(cfg: Config, st: State, key: string, e: Event, camera: string, dtype: string, now: int,
                       io: World)
    requires key in st.streams && ArchiveBase(camera, dtype, e.start) != st.streams[key].base
    ensures ArchiveBase(camera, dtype, e.start) in Lower(cfg, st, key, e, camera, dtype, now, io).archive
            <==> ArchiveBase(camera, dtype, e.start) in st.archive || io.mkdirOk
  {
    hide CatchUp, ArchiveBase;
    var moved := Lowered(st.streams[key], e, camera, dtype);
    CatchUpIsQuiet(cfg, MakeDir(Put(st, key, moved), moved.base, io.mkdirOk), key, now, io.bad1);
  }

  // ---------- steps ----------

  predicate Unused(st: State, b: Base) { forall k :: k in st.streams ==> st.streams[k].base != b }

  /** Directories that no session files into are left alone. */
  ghost predicate UnusedKept(st: State, after: State) {
    forall b :: Unused(st, b) ==> FilesIn(after, b) == FilesIn(st, b)
  }

  /** A change to one session leaves the others' files in step with their marks, directories being their own. */
  lemma OthersOnDisk(st: State, after: State, key: string, b: Base, c: Base)
    requires AllOnDisk(st) && OnlyAt(st, after, key) && FilesElsewhere(st, after, b, c)
    requires forall k :: k in st.streams && k != key ==> st.streams[k].base != b && st.streams[k].base != c
    ensures AllOnDisk(after) <==> OnDisk(after, key)
  {
    hide FilesIn;
    forall k | k in after.streams && k != key ensures OnDisk(after, k) {
      assert OnDisk(st, k);
    }
  }

  lemma CoreBase(s: Session, t: Session)
    requires Core(s) == Core(t)
    ensures s.base == t.base
  {
    assert Core(s).base == s.base && Core(t).base == t.base;
  }

  lemma QuietBases(st: State, after: State)
    requires Quiet(st, after)
    ensures forall k :: k in st.streams ==> after.streams[k].base == st.streams[k].base
  {
    hide Core;
    forall k | k in st.streams ensures after.streams[k].base == st.streams[k].base {
      CoreBase(after.streams[k], st.streams[k]);
    }
  }

  /** Copying for one session. */
  lemma CopyKeepsDisk(st: State, after: State, key: string, frames: set<int>)
    requires OwnBases(st) && AllOnDisk(st) && Quiet(st, after) && OnlyAt(st, after, key)
    requires Filed(st, after, key, frames) && after.streams[key].base == st.streams[key].base
    ensures OwnBases(after) && AllOnDisk(after) && UnusedKept(st, after)
  {
    QuietBases(st, after);
    hide FilesIn, Core;
    OthersOnDisk(st, after, key, st.streams[key].base, st.streams[key].base);
    FiledKeepsGap(st, after, key, frames);
    assert OnDisk(st, key);
  }

  lemma UnusedKeptTwice(a: State, b: State, c: State)
    requires Quiet(a, b) && UnusedKept(a, b) && UnusedKept(b, c)
    ensures UnusedKept(a, c)
  {
    QuietBases(a, b);
    hide FilesIn, Core;
    forall d | Unused(a, d) ensures FilesIn(c, d) == FilesIn(a, d) {
      assert Unused(b, d);
    }
  }

  lemma {:induction false} FileAllKeepsDisk(cfg: Config, st: State, order: seq<string>, camera: string, ts: int,
                                            now: int, failing: set<string>)
    requires OwnBases(st) && AllOnDisk(st)
    ensures OwnBases(FileAll(cfg, st, order, camera, ts, now, failing))
    ensures AllOnDisk(FileAll(cfg, st, order, camera, ts, now, failing))
    ensures UnusedKept(st, FileAll(cfg, st, order, camera, ts, now, failing))
  {
    if order == [] {
      assert FileAll(cfg, st, order, camera, ts, now, failing) == st;
    } else {
      hide FileOne, OwnBases, AllOnDisk, UnusedKept, Quiet, Filed;
      var n := |order| - 1;
      var mid := FileAll(cfg, st, order[..n], camera, ts, now, failing);
      FileAllKeepsDisk(cfg, st, order[..n], camera, ts, now, failing);
      FileAllIsQuiet(cfg, st, order[..n], camera, ts, now, failing);
      FileOneIsQuiet(cfg, mid, order[n], camera, ts, now, failing);
      FileOneFiles(cfg, mid, order[n], camera, ts, now, failing);
      var after := FileOne(cfg, mid, order[n], camera, ts, now, failing);
      if after != mid {
        CopyKeepsDisk(mid, after, order[n], {ts});
        UnusedKeptTwice(st, mid, after);
      }
    }
  }

  lemma CloseCheckKeepsDisk(cfg: Config, st: State, key: string, now: int, bad: set<int>)
    requires OwnBases(st) && AllOnDisk(st)
    ensures OwnBases(CloseCheck(cfg, st, key, now, bad).0)
    ensures AllOnDisk(CloseCheck(cfg, st, key, now, bad).0)
    ensures UnusedKept(st, CloseCheck(cfg, st, key, now, bad).0)
  {
    if key in st.streams {
      CatchUpIsQuiet(cfg, st, key, now, bad);
      CatchUpFiles(cfg, st, key, now, bad);
      hide CatchUp, Fresh, Quiet, Filed, OwnBases, AllOnDisk, UnusedKept;
      OnlyAtFromQuiet(st, CatchUp(cfg, st, key, now, bad), key);
      CopyKeepsDisk(st, CatchUp(cfg, st, key, now, bad), key, Fresh(cfg, st, st.streams[key], now, bad));
      UnusedKeptAtOnce(st);
    }
  }

  lemma UnusedKeptAtOnce(st: State)
    ensures UnusedKept(st, st)
  {
  }

  lemma OnlyAtFromQuiet(st: State, after: State, key: string)
    requires Quiet(st, after) && key in st.streams
    requires forall k :: k in st.streams && k != key ==> after.streams[k] == st.streams[k]
    ensures OnlyAt(st, after, key)
  {
    hide Core;
  }

  lemma {:induction false} CloseChecksKeepsDisk(cfg: Config, st: State, order: seq<string>, now: int, bad: set<int>)
    requires OwnBases(st) && AllOnDisk(st)
    ensures OwnBases(CloseChecks(cfg, st, order, now, bad).0)
    ensures AllOnDisk(CloseChecks(cfg, st, order, now, bad).0)
    ensures UnusedKept(st, CloseChecks(cfg, st, order, now, bad).0)
  {
    if order == [] {
      assert CloseChecks(cfg, st, order, now, bad) == (st, []);
    } else {
      hide CloseCheck, OwnBases, AllOnDisk, UnusedKept, Quiet;
      var front, key := order[..|order| - 1], order[|order| - 1];
      var mid := CloseChecks(cfg, st, front, now, bad).0;
      CloseChecksKeepsDisk(cfg, st, front, now, bad);
      CloseChecksIsQuiet(cfg, st, front, now, bad);
      CloseCheckKeepsDisk(cfg, mid, key, now, bad);
      UnusedKeptTwice(st, mid, CloseCheck(cfg, mid, key, now, bad).0);
    }
  }

  lemma CloseKeepsDisk(cfg: Config, st: State, order: seq<string>, now: int, bad: set<int>)
    requires OwnBases(st) && AllOnDisk(st)
    ensures AllOnDisk(CloseAll(cfg, st, order, now, bad)) && UnusedKept(st, CloseAll(cfg, st, order, now, bad))
  {
    hide CloseEach, CloseChecks, OwnBases;
    var (mid, toClose) := CloseChecks(cfg, st, order, now, bad);
    CloseChecksKeepsDisk(cfg, st, order, now, bad);
    CloseEachMeaning(cfg, mid, toClose);
    var after := CloseEach(cfg, mid, toClose);
    forall k | k in after.streams ensures OnDisk(after, k) {
      assert OnDisk(mid, k);
    }
  }

  lemma ExpireKeepsDisk(cfg: Config, st: State, order: seq<string>, now: int)
    requires OwnBases(st) && AllOnDisk(st)
    ensures AllOnDisk(ExpireAll(cfg, st, order, now)) && UnusedKept(st, ExpireAll(cfg, st, order, now))
  {
    hide ExpireAll, Expirable;
    var after := ExpireAll(cfg, st, order, now);
    ExpireAllMeaning(cfg, st, order, now);
    forall k | k in after.streams ensures OnDisk(after, k) {
      assert OnDisk(st, k);
      assert st.streams[k].base !in BasesAt(st, ExpiredKeys(cfg, st, order, now));
    }
    forall b | Unused(st, b) ensures FilesIn(after, b) == FilesIn(st, b) {
      assert b !in BasesAt(st, ExpiredKeys(cfg, st, order, now));
    }
  }

  lemma OpenFiles(cfg: Config, st: State, e: Event, camera: string, dtype: string, now: int, io: World)
    requires CameraKey(camera, dtype) !in st.streams && !OpenFails(st, e, camera, dtype, io)
    ensures var after := Open(cfg, st, e, camera, dtype, now, io);
            var key, base := CameraKey(camera, dtype), ArchiveBase(camera, dtype, e.start);
            && key in after.streams && OnDisk(after, key) && after.streams[key].base == base
            && FilesElsewhere(st, after, base, base)
  {
    var key, base := CameraKey(camera, dtype), ArchiveBase(camera, dtype, e.start);
    hide CatchUp, EnsureWatched, CameraKey, CopyAfter, ArchiveBase, MakeDir;
    var begun := Put(MakeDir(st, base, true), key, NewSession(cfg, e, camera, dtype)).(
      watch := EnsureWatched(cfg, st.watch, camera, io.addOk));
    MakeDirLocal(st, base, true);
    CatchUpFiles(cfg, begun, key, now, io.bad1);
    hide Fresh;
    var copied := CatchUp(cfg, begun, key, now, io.bad1);
    FiledKeepsGap(begun, copied, key, Fresh(cfg, begun, begun.streams[key], now, io.bad1));
    assert OnDisk(copied, key) && begun.streams[key].base == base;
    assert forall d :: d != base ==> FilesIn(begun, d) == FilesIn(st, d);
    assert Open(cfg, st, e, camera, dtype, now, io).archive == copied.archive;
    assert Open(cfg, st, e, camera, dtype, now, io).streams == copied.streams;
  }

  /** A message that merges keeps the frames marked so far within reach: its directory stays, or the one it
      moves to holds them. */
  predicate Harmless(st: State, l: Label) {
    l.Message? && !Ignored(st, l.e, l.camera) && CameraKey(l.camera, l.dtype) in st.streams ==>
      var s := st.streams[CameraKey(l.camera, l.dtype)];
      s.copied <= FilesIn(st, BaseAfter(s, l.e, l.camera, l.dtype))
  }

  lemma MergeOnDisk(cfg: Config, st: State, e: Event, camera: string, dtype: string, now: int, io: World)
    requires AllOnDisk(st) && CameraKey(camera, dtype) in st.streams
    requires OwnBases(st) && OwnBases(Merge(cfg, st, CameraKey(camera, dtype), e, camera, dtype, now, io))
    ensures var after := Merge(cfg, st, CameraKey(camera, dtype), e, camera, dtype, now, io);
            var s := st.streams[CameraKey(camera, dtype)];
            && (AllOnDisk(after) <==> s.copied <= FilesIn(st, BaseAfter(s, e, camera, dtype)))
            && forall b :: Unused(st, b) && Unused(after, b) ==> FilesIn(after, b) == FilesIn(st, b)
  {
    hide CameraKey, Merge, Core, FilesIn, BaseAfter;
    var key := CameraKey(camera, dtype);
    var after := Merge(cfg, st, key, e, camera, dtype, now, io);
    MergeLocal(cfg, st, key, e, camera, dtype, now, io);
    MergeOnDiskIff(cfg, st, key, e, camera, dtype, now, io);
    var frames := MergeFiles(cfg, st, key, e, camera, dtype, now, io);
    OthersOnDisk(st, after, key, st.streams[key].base, after.streams[key].base);
  }

  lemma OpenOnDisk(cfg: Config, st: State, e: Event, camera: string, dtype: string, now: int, io: World)
    requires AllOnDisk(st) && CameraKey(camera, dtype) !in st.streams
    requires OwnBases(Open(cfg, st, e, camera, dtype, now, io))
    ensures AllOnDisk(Open(cfg, st, e, camera, dtype, now, io))
    ensures forall b :: Unused(st, b) && Unused(Open(cfg, st, e, camera, dtype, now, io), b) ==>
              FilesIn(Open(cfg, st, e, camera, dtype, now, io), b) == FilesIn(st, b)
  {
    hide CameraKey, Open, Core, FilesIn, OpenFails, NewSession, EnsureWatched;
    var key := CameraKey(camera, dtype);
    var after := Open(cfg, st, e, camera, dtype, now, io);
    OpenLocal(cfg, st, e, camera, dtype, now, io);
    if !OpenFails(st, e, camera, dtype, io) {
      OpenFiles(cfg, st, e, camera, dtype, now, io);
      OthersOnDisk(st, after, key, after.streams[key].base, after.streams[key].base);
    }
  }

  lemma MessageOnDisk(cfg: Config, st: State, e: Event, camera: string, dtype: string, now: int, io: World)
    requires AllOnDisk(st) && OwnBases(st) && OwnBases(ProcessMessage(cfg, st, e, camera, dtype, now, io))
    ensures AllOnDisk(ProcessMessage(cfg, st, e, camera, dtype, now, io)) <==>
            Harmless(st, Message(e, camera, dtype, now, io))
    ensures forall b :: Unused(st, b) && Unused(ProcessMessage(cfg, st, e, camera, dtype, now, io), b) ==>
              FilesIn(ProcessMessage(cfg, st, e, camera, dtype, now, io), b) == FilesIn(st, b)
  {
    var st1 := if e.HasEnd() then st.(waiting := st.waiting - {e.id}) else st;
    assert forall b :: FilesIn(st1, b) == FilesIn(st, b) && Unused(st1, b) == Unused(st, b);
    assert AllOnDisk(st1) by {
      forall k | k in st1.streams ensures OnDisk(st1, k) { assert OnDisk(st, k); }
    }
    hide CameraKey, Merge, Open, FilesIn, BaseAfter, AllOnDisk, Unused;
    if Ignored(st, e, camera) {
    } else if CameraKey(camera, dtype) in st.streams {
      MergeOnDisk(cfg, st1, e, camera, dtype, now, io);
    } else {
      OpenOnDisk(cfg, st1, e, camera, dtype, now, io);
    }
  }

  /** From a state in which every mark stands for a file, a step leads to another such state exactly if it is
      harmless; and it touches no directory that no session files into before or after. */
  lemma StepOnDisk(cfg: Config, st: State, l: Label)
    requires Inv(cfg, st) && cfg.trail >= 0 && cfg.delay >= 0 && Sane(l) && AllOnDisk(st)
    ensures AllOnDisk(Step(cfg, st, l)) <==> Harmless(st, l)
    ensures forall b :: Unused(st, b) && Unused(Step(cfg, st, l), b) ==> FilesIn(Step(cfg, st, l), b) == FilesIn(st, b)
  {
    HullsOwnBases(cfg, st);
    StepKeepsInv(cfg, st, l);
    HullsOwnBases(cfg, Step(cfg, st, l));
    hide Hull, AllAwaited, OwnBases, ProcessMessage, FileAll, ExpireAll, CloseAll, BaseAfter, OnDisk;
    match l
    case Message(e, camera, dtype, now, io) => MessageOnDisk(cfg, st, e, camera, dtype, now, io);
    case File(order, camera, ts, now, failing) => FileAllKeepsDisk(cfg, st, order, camera, ts, now, failing);
    case Expire(order, now) => ExpireKeepsDisk(cfg, st, order, now);
    case Close(order, now, bad) => CloseKeepsDisk(cfg, st, order, now, bad);
    case Frames(camera, frames) => FramesKeepDisk(st, camera, frames);
  }

  lemma FramesKeepDisk(st: State, camera: string, frames: set<int>)
    requires AllOnDisk(st)
    ensures AllOnDisk(st.(source := st.source[camera := frames]))
    ensures UnusedKept(st, st.(source := st.source[camera := frames]))
  {
    var after := st.(source := st.source[camera := frames]);
    forall k | k in after.streams ensures OnDisk(after, k) {
      assert OnDisk(st, k);
    }
  }

  // ---------- runs ----------

  ghost predicate AlwaysOnDisk(cfg: Config, st: State, ls: seq<Label>) {
    forall i :: 0 <= i <= |ls| ==> AllOnDisk(Run(cfg, st, ls[..i]))
  }

  ghost predicate AllHarmless(cfg: Config, st: State, ls: seq<Label>) {
    forall i :: 0 <= i < |ls| ==> Harmless(Run(cfg, st, ls[..i]), ls[i])
  }

  lemma {:induction false} OnDiskWhileHarmless(cfg: Config, source: map<string, set<int>>,
                                               archive: map<Base, set<int>>, ls: seq<Label>, i: nat)
    requires cfg.trail >= 0 && cfg.delay >= 0 && AllSane(ls) && i <= |ls|
    requires AllHarmless(cfg, Start(source, archive), ls)
    ensures AllOnDisk(Run(cfg, Start(source, archive), ls[..i]))
  {
    if i > 0 {
      hide Run, Step, Inv, AllOnDisk, Harmless;
      OnDiskWhileHarmless(cfg, source, archive, ls, i - 1);
      RunKeepsInv(cfg, source, archive, ls[..i - 1]);
      RunExtends(cfg, Start(source, archive), ls, i - 1);
      StepOnDisk(cfg, Run(cfg, Start(source, archive), ls[..i - 1]), ls[i - 1]);
    }
  }

  /** Marks stand for files throughout a run exactly if no merge in it moves a session away from frames it
      has marked. */
  lemma OnDiskIff(cfg: Config, source: map<string, set<int>>, archive: map<Base, set<int>>, ls: seq<Label>)
    requires cfg.trail >= 0 && cfg.delay >= 0 && AllSane(ls)
    ensures AlwaysOnDisk(cfg, Start(source, archive), ls) <==> AllHarmless(cfg, Start(source, archive), ls)
  {
    var st := Start(source, archive);
    hide Run, Step, Inv, AllOnDisk, Harmless;
    if AllHarmless(cfg, st, ls) {
      forall i | 0 <= i <= |ls| ensures AllOnDisk(Run(cfg, st, ls[..i])) {
        OnDiskWhileHarmless(cfg, source, archive, ls, i);
      }
    }
    if AlwaysOnDisk(cfg, st, ls) {
      forall i | 0 <= i < |ls| ensures Harmless(Run(cfg, st, ls[..i]), ls[i]) {
        RunKeepsInv(cfg, source, archive, ls[..i]);
        RunExtends(cfg, st, ls, i);
        assert AllOnDisk(Run(cfg, st, ls[..i])) && AllOnDisk(Run(cfg, st, ls[..i + 1]));
        StepOnDisk(cfg, Run(cfg, st, ls[..i]), ls[i]);
      }
    }
  }

  /** A merge that leaves the start second alone is harmless when marks stand for files. */
  lemma SameSecondIsHarmless(cfg: Config, st: State, l: Label)
    requires Inv(cfg, st) && AllOnDisk(st) && l.Message? && '|' !in l.camera
    requires CameraKey(l.camera, l.dtype) in st.streams
    requires l.e.start >= st.streams[CameraKey(l.camera, l.dtype)].startMs
             || Seconds(l.e.start) == Seconds(st.streams[CameraKey(l.camera, l.dtype)].startMs)
    ensures Harmless(st, l)
  {
    var key := CameraKey(l.camera, l.dtype);
    var s := st.streams[key];
    assert OnDisk(st, key) && Hull(cfg, key, s);
    CameraKeyInjective(l.camera, l.dtype, s.camera, s.dtype);
  }

  /** A harmful merge is three labels away: the frame of the event's first second is there, the event comes with
      its end, and then one with a start in an earlier second. */
  lemma HarmIsReachable(cfg: Config, e: Event, f: Event, camera: string, dtype: string, now: int, io: World)
    requires e.id != "" && f.id != "" && 0 < f.start < e.start <= e.end && f.end >= 0 && camera != "" && '|' !in camera
    requires Seconds(f.start) != Seconds(e.start) && io.mkdirOk && io.bad1 == {}
    requires cfg.lead >= 0 && cfg.trail >= 0 && cfg.delay >= 0
    ensures var ls := [Frames(camera, {Seconds(e.start)}), Message(e, camera, dtype, now, io),
                       Message(f, camera, dtype, now, io)];
            AllSane(ls) && !AlwaysOnDisk(cfg, Start(map[], map[]), ls)
  {
    var frames, l, l' := Frames(camera, {Seconds(e.start)}), Message(e, camera, dtype, now, io),
                         Message(f, camera, dtype, now, io);
    var ls, st := [frames, l, l'], Start(map[], map[]);
    OnDiskIff(cfg, map[], map[], ls);
    assert Run(cfg, st, ls[..0]) == st;
    RunExtends(cfg, st, ls, 0);
    RunExtends(cfg, st, ls, 1);
    hide Run, OnDisk, AllOnDisk;
    var st1 := Step(cfg, st, frames);
    OpenedIsMarked(cfg, st1, e, camera, dtype, now, io);
    MovesToNothing(cfg, Step(cfg, st1, l), f, camera, dtype, now, io, e.start, Seconds(e.start));
    assert !Harmless(Run(cfg, st, ls[..2]), ls[2]);
  }

  /** A message with an end that opens a session marks the frame of its first second. */
  lemma OpenedIsMarked(cfg: Config, st: State, e: Event, camera: string, dtype: string, now: int, io: World)
    requires st.streams == map[] && st.archive == map[] && st.done == {}
    requires e.id != "" && 0 < e.start <= e.end && camera != "" && io.mkdirOk && io.bad1 == {}
    requires camera in st.source && Seconds(e.start) in st.source[camera] && cfg.lead >= 0 && cfg.trail >= 0
    ensures var after := ProcessMessage(cfg, st, e, camera, dtype, now, io);
            && CameraKey(camera, dtype) in after.streams && after.done == {}
            && after.archive.Keys == {ArchiveBase(camera, dtype, e.start)}
            && var s := after.streams[CameraKey(camera, dtype)];
               s.startMs == e.start && Seconds(e.start) in s.copied && s.base == ArchiveBase(camera, dtype, e.start)
  {
    var after, key := ProcessMessage(cfg, st, e, camera, dtype, now, io), CameraKey(camera, dtype);
    MessageEffect(cfg, st, e, camera, dtype, now, io);
    MessageCatchesUp(cfg, st, e, camera, dtype, now, io);
    OnlyNewDirectory(cfg, st, e, camera, dtype, now, io);
    hide ProcessMessage, EnsureWatched, CameraKey, ArchiveBase, CopyAfter;
    var s := after.streams[key];
    assert Core(s).camera == s.camera && Core(s).startMs == s.startMs && Core(s).endMs == s.endMs && Core(s).base == s.base;
    assert Seconds(e.start) in InWindow(cfg, after, s, now);
  }

  lemma OnlyNewDirectory(cfg: Config, st: State, e: Event, camera: string, dtype: string, now: int, io: World)
    requires st.streams == map[] && st.archive == map[] && st.done == {}
    requires e.id != "" && e.start > 0 && e.HasEnd() && camera != "" && io.mkdirOk
    ensures ProcessMessage(cfg, st, e, camera, dtype, now, io).archive.Keys == {ArchiveBase(camera, dtype, e.start)}
  {
    hide CatchUp, EnsureWatched, CameraKey, CopyAfter, ArchiveBase;
    var st1 := st.(waiting := st.waiting - {e.id});
    var begun := Put(MakeDir(st1, ArchiveBase(camera, dtype, e.start), true), CameraKey(camera, dtype),
                     NewSession(cfg, e, camera, dtype)).(watch := EnsureWatched(cfg, st.watch, camera, io.addOk));
    CatchUpIsQuiet(cfg, begun, CameraKey(camera, dtype), now, io.bad1);
  }

  lemma MovesToNothing(cfg: Config, st: State, f: Event, camera: string, dtype: string, now: int, io: World,
                       startMs: int, ts: int)
    requires CameraKey(camera, dtype) in st.streams && st.done == {} && f.id != "" && f.start > 0 && camera != ""
    requires var s := st.streams[CameraKey(camera, dtype)]; s.startMs == startMs && ts in s.copied
    requires st.archive.Keys == {ArchiveBase(camera, dtype, startMs)} && f.start < startMs
    requires Seconds(f.start) != Seconds(startMs)
    ensures !Harmless(st, Message(f, camera, dtype, now, io))
  {
    hide CameraKey, Seconds;
    assert ArchiveBase(camera, dtype, f.start) !in st.archive;
  }
}
