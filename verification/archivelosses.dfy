/** When an archive directory is deleted, finished or not.
    services/unifi-smart-archive/service/service.go: the merge of an earlier start and expireWaitingForEnd. */
module ArchiveLosses {
  import opened Keys
  import opened Archive
  import opened ArchiveEffects
  import opened ArchiveSessions
  import opened ArchiveDisk

  /** The step deletes the directory b: it merges a start into a session at b that moves it elsewhere, or it
      expires a session at b. */
  predicate Deletes(cfg: Config, st: State, l: Label, b: Base) {
    match l
    case Message(e, camera, dtype, _, _) =>
      !Ignored(st, e, camera) && CameraKey(camera, dtype) in st.streams
      && st.streams[CameraKey(camera, dtype)].base == b
      && BaseAfter(st.streams[CameraKey(camera, dtype)], e, camera, dtype) != b
    case Expire(order, now) => b in BasesAt(st, ExpiredKeys(cfg, st, order, now))
    case _ => false
  }

  /** The directory is there and holds at least these files. */
  predicate Holds(st: State, b: Base, files: set<int>) { b in st.archive && files <= st.archive[b] }

  ghost predicate Grown(st: State, after: State) {
    forall b :: b in st.archive ==> Holds(after, b, st.archive[b])
  }

  lemma CatchUpGrows(cfg: Config, st: State, key: string, now: int, bad: set<int>)
    ensures Grown(st, CatchUp(cfg, st, key, now, bad))
  {
    hide Fresh;
  }

  lemma FileOneGrows(cfg: Config, st: State, key: string, camera: string, ts: int, now: int, failing: set<string>)
    ensures Grown(st, FileOne(cfg, st, key, camera, ts, now, failing))
  {
    FileOneEffect(cfg, st, key, camera, ts, now, failing);
    hide FileOne, Takes;
  }

  lemma GrownTwice(a: State, b: State, c: State)
    requires Grown(a, b) && Grown(b, c)
    ensures Grown(a, c)
  {
    forall d | d in a.archive ensures Holds(c, d, a.archive[d]) {
      assert Holds(b, d, a.archive[d]) && Holds(c, d, b.archive[d]);
    }
  }

  lemma {:induction false} FileAllGrows(cfg: Config, st: State, order: seq<string>, camera: string, ts: int, now: int,
                                        failing: set<string>)
    ensures Grown(st, FileAll(cfg, st, order, camera, ts, now, failing))
  {
    if order == [] {
      assert FileAll(cfg, st, order, camera, ts, now, failing) == st;
    } else {
      hide FileOne, Grown;
      var n := |order| - 1;
      var mid := FileAll(cfg, st, order[..n], camera, ts, now, failing);
      FileAllGrows(cfg, st, order[..n], camera, ts, now, failing);
      FileOneGrows(cfg, mid, order[n], camera, ts, now, failing);
      GrownTwice(st, mid, FileAll(cfg, st, order, camera, ts, now, failing));
    }
  }

  lemma {:induction false} CloseChecksGrow(cfg: Config, st: State, order: seq<string>, now: int, bad: set<int>)
    ensures Grown(st, CloseChecks(cfg, st, order, now, bad).0)
  {
    if order == [] {
      assert CloseChecks(cfg, st, order, now, bad).0 == st;
    } else {
      hide CatchUp, Grown;
      var front, key := order[..|order| - 1], order[|order| - 1];
      var mid := CloseChecks(cfg, st, front, now, bad).0;
      CloseChecksGrow(cfg, st, front, now, bad);
      CatchUpGrows(cfg, mid, key, now, bad);
      GrownAtOnce(mid);
      GrownTwice(st, mid, CloseCheck(cfg, mid, key, now, bad).0);
    }
  }

  lemma GrownAtOnce(st: State)
    ensures Grown(st, st)
  {
  }

  /** Every directory but the one the session leaves stays and grows; that one is gone. */
  lemma LowerDeletes(cfg: Config, st: State, key: string, e: Event, camera: string, dtype: string, now: int, io: World,
                     b: Base)
    requires key in st.streams && b in st.archive
    ensures var after := Lower(cfg, st, key, e, camera, dtype, now, io);
            if st.streams[key].base == b && ArchiveBase(camera, dtype, e.start) != b then b !in after.archive
            else Holds(after, b, st.archive[b])
  {
    hide CatchUp, ArchiveBase;
    var moved := Lowered(st.streams[key], e, camera, dtype);
    var made := MakeDir(Put(st, key, moved), moved.base, io.mkdirOk);
    CatchUpGrows(cfg, made, key, now, io.bad1);
    assert Holds(made, b, st.archive[b]);
  }

  lemma MergeDeletes(cfg: Config, st: State, key: string, e: Event, camera: string, dtype: string, now: int, io: World,
                     b: Base)
    requires key in st.streams && b in st.archive
    ensures var after := Merge(cfg, st, key, e, camera, dtype, now, io);
            if st.streams[key].base == b && BaseAfter(st.streams[key], e, camera, dtype) != b then b !in after.archive
            else Holds(after, b, st.archive[b])
  {
    hide Lower, CatchUp, ArchiveBase, Extended;
    var s := st.streams[key];
    LowerLocal(cfg, st, key, e, camera, dtype, now, io);
    LowerDeletes(cfg, st, key, e, camera, dtype, now, io, b);
    var st1 := if e.start < s.startMs then Lower(cfg, st, key, e, camera, dtype, now, io) else st;
    var extended := Put(st1, key, Extended(cfg, st1.streams[key], e));
    CatchUpGrows(cfg, extended, key, now, io.bad2);
    CatchUpIsQuiet(cfg, extended, key, now, io.bad2);
  }

  lemma OpenGrows(cfg: Config, st: State, e: Event, camera: string, dtype: string, now: int, io: World)
    ensures Grown(st, Open(cfg, st, e, camera, dtype, now, io))
  {
    hide CatchUp, ArchiveBase, CameraKey, EnsureWatched, NewSession;
    var key, base := CameraKey(camera, dtype), ArchiveBase(camera, dtype, e.start);
    var begun := Put(MakeDir(st, base, true), key, NewSession(cfg, e, camera, dtype)).(
      watch := EnsureWatched(cfg, st.watch, camera, io.addOk));
    CatchUpGrows(cfg, begun, key, now, io.bad1);
    assert Grown(st, begun);
    GrownTwice(st, begun, CatchUp(cfg, begun, key, now, io.bad1));
  }

  lemma MessageDeletes(cfg: Config, st: State, e: Event, camera: string, dtype: string, now: int, io: World, b: Base)
    requires b in st.archive
    ensures var after := ProcessMessage(cfg, st, e, camera, dtype, now, io);
            if Deletes(cfg, st, Message(e, camera, dtype, now, io), b) then b !in after.archive
            else Holds(after, b, st.archive[b])
  {
    hide Merge, Open, CameraKey, BaseAfter;
    var st1 := if e.HasEnd() then st.(waiting := st.waiting - {e.id}) else st;
    if CameraKey(camera, dtype) in st.streams {
      MergeDeletes(cfg, st1, CameraKey(camera, dtype), e, camera, dtype, now, io, b);
    } else {
      OpenGrows(cfg, st1, e, camera, dtype, now, io);
    }
  }

  /** From any state, a step either deletes a directory, for one of the two reasons, or leaves it there with
      all its files. */
  lemma StepDeletesIff(cfg: Config, st: State, l: Label, b: Base)
    requires b in st.archive
    ensures Deletes(cfg, st, l, b) ==> b !in Step(cfg, st, l).archive
    ensures !Deletes(cfg, st, l, b) ==> Holds(Step(cfg, st, l), b, st.archive[b])
    ensures st.archive[b] <= FilesIn(Step(cfg, st, l), b) <==> !Deletes(cfg, st, l, b) || st.archive[b] == {}
  {
    hide ProcessMessage, FileAll, ExpireAll, CloseChecks, CloseEach, Grown;
    match l
    case Message(e, camera, dtype, now, io) => MessageDeletes(cfg, st, e, camera, dtype, now, io, b);
    case File(order, camera, ts, now, failing) =>
      FileAllGrows(cfg, st, order, camera, ts, now, failing);
      GrownHolds(st, Step(cfg, st, l), b);
    case Expire(order, now) => ExpireAllMeaning(cfg, st, order, now);
    case Close(order, now, bad) =>
      CloseChecksGrow(cfg, st, order, now, bad);
      CloseEachMeaning(cfg, CloseChecks(cfg, st, order, now, bad).0, CloseChecks(cfg, st, order, now, bad).1);
      GrownHolds(st, CloseChecks(cfg, st, order, now, bad).0, b);
    case Frames(camera, frames) =>
  }

  lemma GrownHolds(st: State, after: State, b: Base)
    requires Grown(st, after) && b in st.archive
    ensures Holds(after, b, st.archive[b])
  {
  }

  // ---------- runs ----------

  ghost predicate AlwaysHeld(cfg: Config, st: State, ls: seq<Label>, b: Base, files: set<int>) {
    forall i :: 0 <= i <= |ls| ==> Holds(Run(cfg, st, ls[..i]), b, files)
  }

  ghost predicate NeverDeleted(cfg: Config, st: State, ls: seq<Label>, b: Base) {
    forall i :: 0 <= i < |ls| ==> !Deletes(cfg, Run(cfg, st, ls[..i]), ls[i], b)
  }

  lemma {:induction false} HeldWhileNotDeleted(cfg: Config, st: State, ls: seq<Label>, b: Base, i: nat)
    requires b in st.archive && NeverDeleted(cfg, st, ls, b) && i <= |ls|
    ensures Holds(Run(cfg, st, ls[..i]), b, st.archive[b])
  {
    if i > 0 {
      hide Run, Step, Deletes;
      HeldWhileNotDeleted(cfg, st, ls, b, i - 1);
      RunExtends(cfg, st, ls, i - 1);
      StepDeletesIff(cfg, Run(cfg, st, ls[..i - 1]), ls[i - 1], b);
    } else {
      assert Run(cfg, st, ls[..i]) == st;
    }
  }

  /** A directory keeps what it holds throughout a run, from any state, exactly if no step of the run merges an
      earlier start into a session at it that moves the session away, and none expires a session at it. */
  lemma KeptIff(cfg: Config, st: State, ls: seq<Label>, b: Base)
    requires b in st.archive
    ensures AlwaysHeld(cfg, st, ls, b, st.archive[b]) <==> NeverDeleted(cfg, st, ls, b)
  {
    hide Step, Deletes;
    if NeverDeleted(cfg, st, ls, b) {
      forall i | 0 <= i <= |ls| ensures Holds(Run(cfg, st, ls[..i]), b, st.archive[b]) {
        HeldWhileNotDeleted(cfg, st, ls, b, i);
      }
    }
    if AlwaysHeld(cfg, st, ls, b, st.archive[b]) {
      hide Run;
      forall i | 0 <= i < |ls| ensures !Deletes(cfg, Run(cfg, st, ls[..i]), ls[i], b) {
        RunExtends(cfg, st, ls, i);
        assert Holds(Run(cfg, st, ls[..i]), b, st.archive[b]) && Holds(Run(cfg, st, ls[..i + 1]), b, st.archive[b]);
        StepDeletesIff(cfg, Run(cfg, st, ls[..i]), ls[i], b);
      }
    }
  }

  /** So a directory that no session files into is safe. */
  lemma OnlySessionsDelete(cfg: Config, st: State, l: Label, b: Base)
    requires Unused(st, b)
    ensures !Deletes(cfg, st, l, b)
  {
    hide Expirable;
  }

  // ---------- finished directories are taken over ----------

  lemma OpenedSession(cfg: Config, st: State, e: Event, camera: string, dtype: string, now: int, io: World)
    requires CameraKey(camera, dtype) !in st.streams && ArchiveBase(camera, dtype, e.start) in st.archive
    requires !Ignored(st, e, camera)
    ensures var begun := ProcessMessage(cfg, st, e, camera, dtype, now, io);
            && OpenedFor(cfg, st, begun, e, camera, dtype, now, io.addOk)
            && var s := begun.streams[CameraKey(camera, dtype)];
               && s.startMs == e.start && s.base == ArchiveBase(camera, dtype, e.start)
               && s.ids == [e.id] && s.endMs == e.end
  {
    hide ProcessMessage, CameraKey, ArchiveBase, EnsureWatched, CopyAfter;
    MessageEffect(cfg, st, e, camera, dtype, now, io);
    var s := ProcessMessage(cfg, st, e, camera, dtype, now, io).streams[CameraKey(camera, dtype)];
    assert Core(s).base == s.base && Core(s).ids == s.ids && Core(s).endMs == s.endMs && Core(s).startMs == s.startMs;
  }

  /** A finished directory is not safe. A later start-only message of the same camera, type and second takes it
      over, and when that event expires everything in it is deleted. */
  lemma ReopenedThenExpiredIsDeleted(cfg: Config, st: State, e: Event, camera: string, dtype: string, now: int,
                                     io: World, later: int)
    requires CameraKey(camera, dtype) !in st.streams && ArchiveBase(camera, dtype, e.start) in st.archive
    requires !Ignored(st, e, camera) && e.end == 0 && now < later - cfg.timeout
    ensures ArchiveBase(camera, dtype, e.start)
            !in ExpireAll(cfg, ProcessMessage(cfg, st, e, camera, dtype, now, io), [e.id], later).archive
  {
    hide ProcessMessage, ExpireAll, CameraKey, ArchiveBase, EnsureWatched, NewSession;
    var begun := ProcessMessage(cfg, st, e, camera, dtype, now, io);
    OpenedSession(cfg, st, e, camera, dtype, now, io);
    ExpireAllMeaning(cfg, begun, [e.id], later);
    assert CameraKey(camera, dtype) in ExpiredKeys(cfg, begun, [e.id], later);
  }

  /** Nor need anything expire. Any message of that camera, type and second, with an end or without, takes the
      directory over, and a message with a start in an earlier second deletes it. */
  lemma ReopenedThenLoweredIsDeleted(cfg: Config, st: State, e: Event, camera: string, dtype: string, now: int,
                                     io: World, f: Event, later: int, io': World)
    requires CameraKey(camera, dtype) !in st.streams && ArchiveBase(camera, dtype, e.start) in st.archive
    requires !Ignored(st, e, camera) && !Ignored(st, f, camera)
    requires f.start < e.start && ArchiveBase(camera, dtype, f.start) != ArchiveBase(camera, dtype, e.start)
    ensures var begun := ProcessMessage(cfg, st, e, camera, dtype, now, io);
            ArchiveBase(camera, dtype, e.start) !in ProcessMessage(cfg, begun, f, camera, dtype, later, io').archive
  {
    hide ProcessMessage, CameraKey, ArchiveBase, EnsureWatched, NewSession;
    var begun := ProcessMessage(cfg, st, e, camera, dtype, now, io);
    OpenedSession(cfg, st, e, camera, dtype, now, io);
    MessageDeletes(cfg, st, e, camera, dtype, now, io, ArchiveBase(camera, dtype, e.start));
    MessageDeletes(cfg, begun, f, camera, dtype, later, io', ArchiveBase(camera, dtype, e.start));
  }

  // ---------- sessions have their directories ----------

  ghost predicate AllBasesThere(st: State) {
    forall k :: k in st.streams ==> st.streams[k].base in st.archive
  }

  /** The directories a message needs can be made. */
  predicate DirsMade(l: Label) { l.Message? ==> l.io.mkdirOk }

  lemma MergeHasBase(cfg: Config, st: State, key: string, e: Event, camera: string, dtype: string, now: int, io: World)
    requires key in st.streams && st.streams[key].base in st.archive && io.mkdirOk
    ensures var after := Merge(cfg, st, key, e, camera, dtype, now, io);
            key in after.streams && after.streams[key].base in after.archive
  {
    hide Lower, Extend, ArchiveBase, Core;
    var s, base := st.streams[key], ArchiveBase(camera, dtype, e.start);
    LowerLocal(cfg, st, key, e, camera, dtype, now, io);
    CoreBase(Lower(cfg, st, key, e, camera, dtype, now, io).streams[key], Lowered(s, e, camera, dtype));
    if base != s.base {
      LowerMakesBase(cfg, st, key, e, camera, dtype, now, io);
    } else {
      LowerDeletes(cfg, st, key, e, camera, dtype, now, io, base);
    }
    var st1 := if e.start < s.startMs then Lower(cfg, st, key, e, camera, dtype, now, io) else st;
    ExtendFiles(cfg, st1, key, e, now, io.bad2);
    ExtendLocal(cfg, st1, key, e, now, io.bad2);
  }

  lemma OpenHasBase(cfg: Config, st: State, e: Event, camera: string, dtype: string, now: int, io: World)
    requires CameraKey(camera, dtype) !in st.streams && !OpenFails(st, e, camera, dtype, io)
    ensures var after := Open(cfg, st, e, camera, dtype, now, io);
            CameraKey(camera, dtype) in after.streams
            && after.streams[CameraKey(camera, dtype)].base in after.archive
  {
    hide CatchUp, EnsureWatched, CameraKey, CopyAfter, ArchiveBase, Core;
    var key, base := CameraKey(camera, dtype), ArchiveBase(camera, dtype, e.start);
    var begun := Put(MakeDir(st, base, true), key, NewSession(cfg, e, camera, dtype)).(
      watch := EnsureWatched(cfg, st.watch, camera, io.addOk));
    CatchUpIsQuiet(cfg, begun, key, now, io.bad1);
    CoreBase(CatchUp(cfg, begun, key, now, io.bad1).streams[key], begun.streams[key]);
  }

  lemma MessageKeepsBases(cfg: Config, st: State, e: Event, camera: string, dtype: string, now: int, io: World)
    requires OwnBases(st) && AllBasesThere(st) && io.mkdirOk
    ensures AllBasesThere(ProcessMessage(cfg, st, e, camera, dtype, now, io))
  {
    var after := ProcessMessage(cfg, st, e, camera, dtype, now, io);
    var key := CameraKey(camera, dtype);
    var st1 := if e.HasEnd() then st.(waiting := st.waiting - {e.id}) else st;
    hide CameraKey, Merge, Open, OpenFails, NewSession, EnsureWatched, Core;
    if !Ignored(st, e, camera) {
      if key in st.streams {
        MergeLocal(cfg, st1, key, e, camera, dtype, now, io);
        MergeHasBase(cfg, st1, key, e, camera, dtype, now, io);
      } else {
        OpenLocal(cfg, st1, e, camera, dtype, now, io);
        if !OpenFails(st1, e, camera, dtype, io) {
          OpenHasBase(cfg, st1, e, camera, dtype, now, io);
        }
      }
      forall k | k in after.streams && k != key ensures after.streams[k].base in after.archive {
        MessageDeletes(cfg, st, e, camera, dtype, now, io, st.streams[k].base);
      }
    }
  }

  lemma StepKeepsBases(cfg: Config, st: State, l: Label)
    requires Inv(cfg, st) && Sane(l) && AllBasesThere(st) && DirsMade(l)
    ensures AllBasesThere(Step(cfg, st, l))
  {
    HullsOwnBases(cfg, st);
    hide Hull, AllAwaited, AllHulls, ProcessMessage, FileAll, ExpireAll, CloseAll, Expirable, Core;
    var after := Step(cfg, st, l);
    match l
    case Message(e, camera, dtype, now, io) => MessageKeepsBases(cfg, st, e, camera, dtype, now, io);
    case File(order, camera, ts, now, failing) =>
      FileAllIsQuiet(cfg, st, order, camera, ts, now, failing);
      QuietBases(st, after);
    case Expire(order, now) =>
      ExpireAllMeaning(cfg, st, order, now);
      forall k | k in after.streams ensures after.streams[k].base in after.archive {
        assert st.streams[k].base !in BasesAt(st, ExpiredKeys(cfg, st, order, now));
      }
    case Close(order, now, bad) =>
      CloseAllMeaning(cfg, st, order, now, bad);
      forall k | k in after.streams ensures after.streams[k].base in after.archive {
        CoreBase(after.streams[k], st.streams[k]);
      }
    case Frames(camera, frames) =>
  }

  /** In every run in which directories can be made, every session has its directory. */
  lemma {:induction false} BasesAreThere(cfg: Config, source: map<string, set<int>>, archive: map<Base, set<int>>,
                                         ls: seq<Label>)
    requires cfg.trail >= 0 && cfg.delay >= 0 && AllSane(ls) && forall i :: 0 <= i < |ls| ==> DirsMade(ls[i])
    ensures AllBasesThere(Run(cfg, Start(source, archive), ls))
  {
    if ls == [] {
      assert Run(cfg, Start(source, archive), ls) == Start(source, archive);
    } else {
      hide Step, Inv, AllBasesThere, DirsMade;
      var front := ls[..|ls| - 1];
      BasesAreThere(cfg, source, archive, front);
      RunKeepsInv(cfg, source, archive, front);
      assert DirsMade(ls[|ls| - 1]);
      StepKeepsBases(cfg, Run(cfg, Start(source, archive), front), ls[|ls| - 1]);
    }
  }
}
