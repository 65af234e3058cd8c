/** When sessions close: never early, never while the last frame could still be copied, and at the first tick
    that finds neither. services/unifi-smart-archive/service/service.go: closeCompletedStreams. */
module ArchiveClosing {
  import opened Keys
  import opened Archive
  import opened ArchiveEffects
  import opened ArchiveSessions
  import opened ArchiveDisk
  import opened ArchiveLosses

  /** For a session that is the hull of its messages and has an end: the pass closes it exactly if the clock
      has reached end + trail + delay and the frame of second end + trail is absent, or marked, or in the
      window and copyable now. */
  lemma DueIff(cfg: Config, st: State, key: string, now: int, bad: set<int>)
    requires key in st.streams && Hull(cfg, key, st.streams[key]) && st.streams[key].endMs > 0
    ensures var s := st.streams[key];
            var last := s.endMs / 1000 + cfg.trail;
            Due(cfg, st, key, now, bad) <==>
              && last + cfg.delay <= now / 1_000_000_000
              && (last !in SourceOf(st, s.camera) || last in s.copied
                  || (s.base in st.archive && s.startMs / 1000 - cfg.lead <= last && last !in bad))
  {
    hide CameraKey;
  }

  lemma SecondsGrow(a: int, b: int)
    requires a <= b
    ensures a / 1000 <= b / 1000
  {
  }

  lemma DueInTime(cfg: Config, st: State, key: string, now: int, bad: set<int>)
    requires cfg.lead >= 0 && cfg.trail >= 0 && key in st.streams && Hull(cfg, key, st.streams[key])
    requires var s := st.streams[key];
             && s.endMs > 0 && s.endMs >= s.startMs && s.copyAfter <= now / 1_000_000_000
             && s.base in st.archive && s.endMs / 1000 + cfg.trail !in bad
    ensures Due(cfg, st, key, now, bad)
  {
    hide CameraKey, Due;
    DueIff(cfg, st, key, now, bad);
    SecondsGrow(st.streams[key].startMs, st.streams[key].endMs);
  }

  lemma DueIsClosed(cfg: Config, st: State, order: seq<string>, now: int, bad: set<int>, key: string)
    requires Walk(order) && key in order && key in st.streams && Due(cfg, st, key, now, bad)
    ensures key !in CloseAll(cfg, st, order, now, bad).streams
    ensures AllDone(st.streams[key], CloseAll(cfg, st, order, now, bad).done)
  {
    hide CloseAll, Due;
    CloseAllMeaning(cfg, st, order, now, bad);
    assert key in DueKeys(cfg, st, order, now, bad);
    forall i | 0 <= i < |st.streams[key].ids| ensures st.streams[key].ids[i] in CloseAll(cfg, st, order, now, bad).done {
      assert st.streams[key].ids[i] in IdsAt(st, DueKeys(cfg, st, order, now, bad));
    }
  }

  ghost predicate AllDone(s: Session, done: set<string>) {
    forall i :: 0 <= i < |s.ids| ==> s.ids[i] in done
  }

  /** The first tick at or after the closing time closes a session whose end is not before its start, provided
      the last frame can be copied and so could every directory be made, or the session's is there all the
      same; all its events are then done. */
  lemma FirstTickCloses(cfg: Config, source: map<string, set<int>>, archive: map<Base, set<int>>, ls: seq<Label>,
                        order: seq<string>, now: int, bad: set<int>, key: string)
    requires cfg.lead >= 0 && cfg.trail >= 0 && cfg.delay >= 0 && AllSane(ls) && Walk(order) && key in order
    requires var st := Run(cfg, Start(source, archive), ls);
             && key in st.streams
             && var s := st.streams[key];
                && s.endMs > 0 && s.endMs >= s.startMs && s.copyAfter <= now / 1_000_000_000
                && s.endMs / 1000 + cfg.trail !in bad
                && (s.base in st.archive || forall i :: 0 <= i < |ls| ==> DirsMade(ls[i]))
    ensures var st := Run(cfg, Start(source, archive), ls);
            var after := CloseAll(cfg, st, order, now, bad);
            key !in after.streams && AllDone(st.streams[key], after.done)
  {
    var st := Run(cfg, Start(source, archive), ls);
    hide Run, CloseAll, Hull, Due, AllDone, DirsMade;
    if st.streams[key].base !in st.archive {
      BasesAreThere(cfg, source, archive, ls);
    }
    SessionsAreHulls(cfg, source, archive, ls, key);
    DueInTime(cfg, st, key, now, bad);
    DueIsClosed(cfg, st, order, now, bad, key);
  }

  /** The session is still there with an end no earlier, and has only gained events. */
  ghost predicate Continues(st: State, after: State, key: string) {
    && key in st.streams && key in after.streams
    && var s, t := st.streams[key], after.streams[key];
       && s.endMs <= t.endMs && s.ids <= t.ids
  }

  /** A tick has closed the session in due time. */
  ghost predicate ClosedBy(cfg: Config, st: State, l: Label, key: string) {
    && l.Close? && key in l.order && key in st.streams
    && var s := st.streams[key];
       var last := s.endMs / 1000 + cfg.trail;
       && last + cfg.delay <= l.now / 1_000_000_000
       && (last in SourceOf(st, s.camera) && last !in s.copied ==> last !in l.bad && s.base in st.archive)
  }

  /** A session with an end goes on through any step but a tick that finds it due; then its events are done. */
  lemma EndedStep(cfg: Config, st: State, l: Label, key: string)
    requires Inv(cfg, st) && cfg.trail >= 0 && cfg.delay >= 0 && Sane(l)
    requires key in st.streams && st.streams[key].endMs > 0
    ensures st.done <= Step(cfg, st, l).done
    ensures Continues(st, Step(cfg, st, l), key)
            || (ClosedBy(cfg, st, l, key) && key !in Step(cfg, st, l).streams
                && AllDone(st.streams[key], Step(cfg, st, l).done))
  {
    hide ProcessMessage, FileAll, ExpireAll, CloseAll, CameraKey, Hull, Awaited;
    var after := Step(cfg, st, l);
    match l
    case Message(e, camera, dtype, now, io) => EndedMessage(cfg, st, e, camera, dtype, now, io, key);
    case File(order, camera, ts, now, failing) =>
      FileAllIsQuiet(cfg, st, order, camera, ts, now, failing);
      CoreHistory(st.streams[key]);
      CoreHistory(after.streams[key]);
    case Expire(order, now) =>
      ExpireAllMeaning(cfg, st, order, now);
      assert key !in ExpiredKeys(cfg, st, order, now);
    case Close(order, now, bad) => EndedClose(cfg, st, order, now, bad, key);
    case Frames(camera, frames) =>
  }

  lemma EndedMessage(cfg: Config, st: State, e: Event, camera: string, dtype: string, now: int, io: World, key: string)
    requires key in st.streams
    ensures Continues(st, ProcessMessage(cfg, st, e, camera, dtype, now, io), key)
    ensures st.done <= ProcessMessage(cfg, st, e, camera, dtype, now, io).done
  {
    hide ProcessMessage, CameraKey, NewSession, EnsureWatched, Core, Merged;
    var after := ProcessMessage(cfg, st, e, camera, dtype, now, io);
    MessageEffect(cfg, st, e, camera, dtype, now, io);
    if key == CameraKey(camera, dtype) && !Ignored(st, e, camera) {
      MergedHistory(cfg, st.streams[key], e, camera, dtype);
      MergedEnd(cfg, st.streams[key], e, camera, dtype);
      CoreHistory(after.streams[key]);
    }
  }

  lemma MergedEnd(cfg: Config, s: Session, e: Event, camera: string, dtype: string)
    ensures Core(Merged(cfg, s, e, camera, dtype)).endMs >= s.endMs
  {
  }

  lemma EndedClose(cfg: Config, st: State, order: seq<string>, now: int, bad: set<int>, key: string)
    requires Inv(cfg, st) && Walk(order) && key in st.streams && st.streams[key].endMs > 0
    ensures var after := CloseAll(cfg, st, order, now, bad);
            && st.done <= after.done
            && (Continues(st, after, key)
                || (ClosedBy(cfg, st, Close(order, now, bad), key) && key !in after.streams
                    && AllDone(st.streams[key], after.done)))
  {
    hide CloseAll, Due, CameraKey, Awaited, Core;
    var after := CloseAll(cfg, st, order, now, bad);
    CloseAllMeaning(cfg, st, order, now, bad);
    if key in after.streams {
      CoreHistory(st.streams[key]);
      CoreHistory(after.streams[key]);
    } else {
      DueIff(cfg, st, key, now, bad);
      hide Hull;
      assert key in DueKeys(cfg, st, order, now, bad);
      forall i | 0 <= i < |st.streams[key].ids| ensures st.streams[key].ids[i] in after.done {
        assert st.streams[key].ids[i] in IdsAt(st, DueKeys(cfg, st, order, now, bad));
      }
    }
  }

  /** No session with an end is ever lost: however a run goes on, the session is still there with all its
      events and an end no earlier, or all its events are done. */
  lemma {:induction false} EndedSessionsEndUpDone(cfg: Config, source: map<string, set<int>>,
                                                  archive: map<Base, set<int>>,
                                                  ls: seq<Label>, more: seq<Label>, key: string)
    requires cfg.trail >= 0 && cfg.delay >= 0 && AllSane(ls + more)
    requires key in Run(cfg, Start(source, archive), ls).streams
             && Run(cfg, Start(source, archive), ls).streams[key].endMs > 0
    ensures var st, after := Run(cfg, Start(source, archive), ls), Run(cfg, Start(source, archive), ls + more);
            Continues(st, after, key) || AllDone(st.streams[key], after.done)
  {
    var st := Run(cfg, Start(source, archive), ls);
    if more == [] {
      assert ls + more == ls;
    } else {
      hide Inv, Step;
      var front, l := more[..|more| - 1], more[|more| - 1];
      assert (ls + more)[..|ls + more| - 1] == ls + front && (ls + more)[|ls + more| - 1] == l;
      assert AllSane(ls + front) && Sane(l);
      EndedSessionsEndUpDone(cfg, source, archive, ls, front, key);
      RunKeepsInv(cfg, source, archive, ls + front);
      var mid := Run(cfg, Start(source, archive), ls + front);
      if Continues(st, mid, key) {
        EndedStep(cfg, mid, l, key);
      } else {
        DoneGrows(cfg, mid, l);
      }
    }
  }

  lemma DoneGrows(cfg: Config, st: State, l: Label)
    requires Sane(l)
    ensures st.done <= Step(cfg, st, l).done
  {
    hide ProcessMessage, FileAll, ExpireAll, CloseAll, CameraKey, Core, Merged, NewSession, EnsureWatched;
    match l
    case Message(e, camera, dtype, now, io) => MessageEffect(cfg, st, e, camera, dtype, now, io);
    case File(order, camera, ts, now, failing) => FileAllIsQuiet(cfg, st, order, camera, ts, now, failing);
    case Expire(order, now) => ExpireAllMeaning(cfg, st, order, now);
    case Close(order, now, bad) => CloseAllMeaning(cfg, st, order, now, bad);
    case Frames(camera, frames) =>
  }

  // ---------- what a closed session leaves in the archive ----------

  /** The source frames of the session's window. */
  function Window(cfg: Config, st: State, s: Session): set<int> {
    set ts | ts in SourceOf(st, s.camera) && Seconds(s.startMs) - cfg.lead <= ts <= LastSecond(cfg, s)
  }

  lemma CloseCheckCopies(cfg: Config, st: State, key: string, now: int, bad: set<int>)
    requires key in st.streams && st.streams[key].endMs > 0
    ensures var after := CloseCheck(cfg, st, key, now, bad).0;
            key in after.streams
            && (CloseCheck(cfg, st, key, now, bad).1 ==>
                  LeavesNothing(cfg, st, st.streams[key], after.streams[key].copied, bad))
  {
  }

  /** The marks at closing cover the whole window, failed copies aside; but if the last second was marked
      beforehand no catch-up is made, and only what was marked then is sure. */
  ghost predicate LeavesNothing(cfg: Config, st: State, s: Session, copied: set<int>, bad: set<int>) {
    && s.copied <= copied
    && (LastSecond(cfg, s) in SourceOf(st, s.camera) ==> LastSecond(cfg, s) in copied)
    && (LastSecond(cfg, s) !in s.copied && s.base in st.archive ==> Window(cfg, st, s) - bad <= copied)
  }

  lemma {:induction false} CloseChecksCopy(cfg: Config, st: State, order: seq<string>, now: int, bad: set<int>,
                                           key: string)
    requires Walk(order) && key in st.streams && st.streams[key].endMs > 0
    ensures var (after, toClose) := CloseChecks(cfg, st, order, now, bad);
            key in after.streams
            && (key in toClose ==> LeavesNothing(cfg, st, st.streams[key], after.streams[key].copied, bad))
  {
    if order == [] {
      assert CloseChecks(cfg, st, order, now, bad) == (st, []);
    } else {
      hide CloseCheck, Due, LeavesNothing, Core;
      var front, k := order[..|order| - 1], order[|order| - 1];
      assert order == front + [k] && k !in front && Walk(front);
      var mid := CloseChecks(cfg, st, front, now, bad).0;
      CloseChecksCopy(cfg, st, front, now, bad, key);
      CloseChecksMeaning(cfg, st, front, now, bad);
      CloseCheckEffect(cfg, mid, k, now, bad);
      if k == key {
        CloseCheckCopies(cfg, mid, key, now, bad);
        SameLeavings(cfg, st, mid, st.streams[key], bad);
      }
    }
  }

  lemma SameLeavings(cfg: Config, st: State, mid: State, s: Session, bad: set<int>)
    requires Quiet(st, mid)
    ensures forall copied :: LeavesNothing(cfg, mid, s, copied, bad) <==> LeavesNothing(cfg, st, s, copied, bad)
  {
    hide Core;
    assert Window(cfg, mid, s) == Window(cfg, st, s);
  }

  /** When a session closes while marks stand for files, its directory holds every frame it had marked, the
      frame of its last second if there is one, and, unless that one had been marked before the tick, every
      frame of its window that could be copied. */
  lemma ClosedDirectoryIsFull(cfg: Config, st: State, order: seq<string>, now: int, bad: set<int>, key: string)
    requires AllHulls(cfg, st) && AllOnDisk(st) && Walk(order)
    requires key in st.streams && st.streams[key].endMs > 0 && key !in CloseAll(cfg, st, order, now, bad).streams
    ensures LeavesNothing(cfg, st, st.streams[key],
                          FilesIn(CloseAll(cfg, st, order, now, bad), st.streams[key].base), bad)
  {
    hide CloseChecks, CloseEach, Hull, LeavesNothing, Due, Core, OwnBases;
    HullsOwnBases(cfg, st);
    var (mid, toClose) := CloseChecks(cfg, st, order, now, bad);
    CloseChecksMeaning(cfg, st, order, now, bad);
    CloseChecksKeepsDisk(cfg, st, order, now, bad);
    CloseChecksCopy(cfg, st, order, now, bad, key);
    CloseEachMeaning(cfg, mid, toClose);
    assert key in SetOf(toClose);
    QuietBases(st, mid);
    assert OnDisk(mid, key);
    MoreFiles(cfg, st, st.streams[key], mid.streams[key].copied, FilesIn(mid, st.streams[key].base), bad);
  }

  lemma MoreFiles(cfg: Config, st: State, s: Session, copied: set<int>, files: set<int>, bad: set<int>)
    requires LeavesNothing(cfg, st, s, copied, bad) && copied <= files
    ensures LeavesNothing(cfg, st, s, files, bad)
  {
  }

  /** The tick catches the session up: its time has come and its last second is not marked. */
  predicate Catches(cfg: Config, s: Session, now: int) {
    s.endMs != 0 && s.copyAfter <= now / 1_000_000_000 && LastSecond(cfg, s) !in s.copied
  }

  function CaughtFrames(cfg: Config, st: State, s: Session, now: int, bad: set<int>): set<int> {
    if Catches(cfg, s, now) then Fresh(cfg, st, s, now, bad) else {}
  }

  lemma CloseCheckFiles(cfg: Config, st: State, key: string, now: int, bad: set<int>, b: Base)
    requires key in st.streams
    ensures FilesIn(CloseCheck(cfg, st, key, now, bad).0, b)
         == FilesIn(st, b) + if b == st.streams[key].base then CaughtFrames(cfg, st, st.streams[key], now, bad) else {}
  {
    hide CatchUp, Fresh, FilesIn;
    CatchUpFiles(cfg, st, key, now, bad);
  }

  lemma SameCaughtFrames(cfg: Config, st: State, mid: State, s: Session, now: int, bad: set<int>)
    requires Quiet(st, mid)
    ensures CaughtFrames(cfg, mid, s, now, bad) == CaughtFrames(cfg, st, s, now, bad)
  {
    hide Core;
    assert Fresh(cfg, mid, s, now, bad) == Fresh(cfg, st, s, now, bad);
  }

  lemma {:induction false} CloseChecksFiles(cfg: Config, st: State, order: seq<string>, now: int, bad: set<int>,
                                            key: string)
    requires Walk(order) && key in st.streams && OwnBases(st)
    ensures var mid, s := CloseChecks(cfg, st, order, now, bad).0, st.streams[key];
            FilesIn(mid, s.base)
            == FilesIn(st, s.base) + if key in order then CaughtFrames(cfg, st, s, now, bad) else {}
  {
    if order == [] {
      assert CloseChecks(cfg, st, order, now, bad) == (st, []);
    } else {
      hide CloseCheck, Due, Core, CaughtFrames, FilesIn;
      var front, k := order[..|order| - 1], order[|order| - 1];
      assert order == front + [k] && k !in front && Walk(front);
      var mid, s := CloseChecks(cfg, st, front, now, bad).0, st.streams[key];
      CloseChecksFiles(cfg, st, front, now, bad, key);
      CloseChecksMeaning(cfg, st, front, now, bad);
      QuietBases(st, mid);
      if k in mid.streams {
        CloseCheckFiles(cfg, mid, k, now, bad, s.base);
        SameCaughtFrames(cfg, st, mid, s, now, bad);
      } else {
        assert CloseCheck(cfg, mid, k, now, bad).0 == mid by { CloseCheckNothing(cfg, mid, k, now, bad); }
      }
    }
  }

  lemma CloseCheckNothing(cfg: Config, st: State, key: string, now: int, bad: set<int>)
    requires key !in st.streams
    ensures CloseCheck(cfg, st, key, now, bad).0 == st
  {
  }

  /** What a closing pass adds to a session's directory, closed or not: the fresh frames of the window if its
      time has come and its last second was not marked, and nothing otherwise. */
  lemma ClosingPassFiles(cfg: Config, st: State, order: seq<string>, now: int, bad: set<int>, key: string)
    requires AllHulls(cfg, st) && Walk(order) && key in st.streams
    ensures var s := st.streams[key];
            FilesIn(CloseAll(cfg, st, order, now, bad), s.base)
            == FilesIn(st, s.base) + if key in order then CaughtFrames(cfg, st, s, now, bad) else {}
  {
    hide CloseChecks, CloseEach, Hull, CaughtFrames, OwnBases;
    HullsOwnBases(cfg, st);
    CloseChecksFiles(cfg, st, order, now, bad, key);
    var (mid, toClose) := CloseChecks(cfg, st, order, now, bad);
    CloseEachMeaning(cfg, mid, toClose);
  }

  lemma ClosedWasDue(cfg: Config, st: State, order: seq<string>, now: int, bad: set<int>, key: string)
    requires Walk(order) && key in st.streams && key !in CloseAll(cfg, st, order, now, bad).streams
    ensures key in order && Due(cfg, st, key, now, bad)
  {
    hide CloseAll, Due, Core;
    CloseAllMeaning(cfg, st, order, now, bad);
    assert key in DueKeys(cfg, st, order, now, bad);
  }

  lemma FreshCompletes(cfg: Config, st: State, s: Session, now: int, bad: set<int>, files: set<int>)
    requires s.endMs > 0 && s.base in st.archive && s.copied <= files
    ensures Window(cfg, st, s) - bad <= files + Fresh(cfg, st, s, now, bad)
  {
  }

  /** Exactly when a closed directory is complete, failed copies aside: it was before the tick, or the last
      second was not marked and the directory is there. A session whose last second the watcher has marked is
      closed as it stands: what the watcher missed stays missing. */
  lemma ClosedDirectoryIff(cfg: Config, st: State, order: seq<string>, now: int, bad: set<int>, key: string)
    requires AllHulls(cfg, st) && AllOnDisk(st) && Walk(order)
    requires key in st.streams && st.streams[key].endMs > 0 && key !in CloseAll(cfg, st, order, now, bad).streams
    ensures var s := st.streams[key];
            Window(cfg, st, s) - bad <= FilesIn(CloseAll(cfg, st, order, now, bad), s.base) <==>
            (LastSecond(cfg, s) !in s.copied && s.base in st.archive)
            || Window(cfg, st, s) - bad <= FilesIn(st, s.base)
  {
    var s := st.streams[key];
    ClosingPassFiles(cfg, st, order, now, bad, key);
    ClosedWasDue(cfg, st, order, now, bad, key);
    assert OnDisk(st, key);
    assert s.base !in st.archive ==> Fresh(cfg, st, s, now, bad) == {};
    hide CloseAll, Hull, Fresh, Window, FilesIn;
    if s.base in st.archive {
      FreshCompletes(cfg, st, s, now, bad, FilesIn(st, s.base));
    }
  }
}
