/** What every run of the archive service keeps about its sessions and its waiting events: each session is
    the hull of its messages, and only an event that nothing has followed can expire.
    services/unifi-smart-archive/service/service.go. */
module ArchiveSessions {
  import opened Keys
  import opened Archive
  import opened ArchiveEffects

  // ---------- the hull of the messages ----------

  function Ids(es: seq<Event>): (ids: seq<string>)
    ensures |ids| == |es| && forall i :: 0 <= i < |es| ==> ids[i] == es[i].id
  {
    seq(|es|, i requires 0 <= i < |es| => es[i].id)
  }

  /** x is the least start among the messages. */
  ghost predicate IsLeastStart(es: seq<Event>, x: int) {
    && (forall i :: 0 <= i < |es| ==> x <= es[i].start)
    && (exists i :: 0 <= i < |es| && x == es[i].start)
  }

  /** x is the greatest end among the messages that have one, 0 if none has. */
  ghost predicate IsLastEnd(es: seq<Event>, x: int) {
    && (forall i :: 0 <= i < |es| && es[i].HasEnd() ==> es[i].end <= x)
    && (x == 0 || exists i :: 0 <= i < |es| && es[i].HasEnd() && x == es[i].end)
    && x >= 0
  }

  /** What a session is in terms of its messages: the window they span, when it may close, and the directory
      named by its type, its camera and its first second. */
  ghost predicate Hull(cfg: Config, key: string, s: Session) {
    && key == CameraKey(s.camera, s.dtype) && '|' !in s.camera
    && s.merged != [] && s.ids == Ids(s.merged)
    && IsLeastStart(s.merged, s.startMs) && s.startMs > 0
    && IsLastEnd(s.merged, s.endMs)
    && s.copyAfter == (if s.endMs == 0 then 0 else s.endMs / 1000 + cfg.trail + cfg.delay)
    && s.base.dtype == s.dtype && s.base.camera == s.camera && s.base.sec == s.startMs / 1000
  }

  ghost predicate AllHulls(cfg: Config, st: State) {
    forall k :: k in st.streams ==> Hull(cfg, k, st.streams[k])
  }

  /** The session a message opens is the hull of that message. */
  lemma NewSessionHull(cfg: Config, e: Event, camera: string, dtype: string)
    requires '|' !in camera && e.start > 0 && e.end >= 0
    ensures Hull(cfg, CameraKey(camera, dtype), NewSession(cfg, e, camera, dtype))
  {
    var s := NewSession(cfg, e, camera, dtype);
    assert s.merged[0] == e;
    assert s.ids == Ids(s.merged);
  }

  lemma MergedHull(cfg: Config, key: string, s: Session, e: Event, camera: string, dtype: string)
    requires Hull(cfg, key, s) && cfg.trail >= 0 && cfg.delay >= 0
    requires '|' !in camera && e.start > 0 && e.end >= 0 && key == CameraKey(camera, dtype)
    ensures Hull(cfg, key, Merged(cfg, s, e, camera, dtype))
  {
    CameraKeyInjective(camera, dtype, s.camera, s.dtype);
    hide CameraKey;
    var s' := Merged(cfg, s, e, camera, dtype);
    var n := |s.merged|;
    assert s'.merged[n] == e && forall i :: 0 <= i < n ==> s'.merged[i] == s.merged[i];
    assert s'.ids == Ids(s'.merged);
    var i :| 0 <= i < n && s.startMs == s.merged[i].start;
    assert s.startMs == s'.merged[i].start;
    if s.endMs != 0 {
      var j :| 0 <= j < n && s.merged[j].HasEnd() && s.endMs == s.merged[j].end;
      assert s'.merged[j].HasEnd() && s.endMs == s'.merged[j].end;
    }
  }

  lemma HullIgnoresCopied(cfg: Config, key: string, s: Session, s': Session)
    requires Core(s) == Core(s')
    ensures Hull(cfg, key, s) <==> Hull(cfg, key, s')
  {
    assert s.merged == s'.merged && s.ids == s'.ids && s.startMs == s'.startMs && s.endMs == s'.endMs;
    assert s.camera == s'.camera && s.dtype == s'.dtype && s.copyAfter == s'.copyAfter && s.base == s'.base;
  }

  lemma SameMessages(a: seq<Event>, b: seq<Event>)
    requires multiset(a) == multiset(b)
    ensures forall i :: 0 <= i < |a| ==> exists j :: 0 <= j < |b| && b[j] == a[i]
  {
    forall i | 0 <= i < |a| ensures exists j :: 0 <= j < |b| && b[j] == a[i] {
      assert a[i] in multiset(a);
      assert a[i] in multiset(b);
    }
  }

  lemma BoundsOfSubset(a: seq<Event>, b: seq<Event>, x: int, y: int, u: int, v: int)
    requires IsLeastStart(a, x) && IsLeastStart(b, u) && IsLastEnd(a, y) && IsLastEnd(b, v)
    requires multiset(a) == multiset(b)
    ensures u <= x && y <= v
  {
    SameMessages(a, b);
    var i :| 0 <= i < |a| && x == a[i].start;
    var j :| 0 <= j < |b| && b[j] == a[i];
    if y != 0 {
      var i' :| 0 <= i' < |a| && a[i'].HasEnd() && y == a[i'].end;
      var j' :| 0 <= j' < |b| && b[j'] == a[i'];
    }
  }

  /** The window depends only on which messages went into the session, not on the order they came in. */
  lemma WindowIgnoresOrder(cfg: Config, key: string, s: Session, t: Session)
    requires Hull(cfg, key, s) && Hull(cfg, key, t)
    requires multiset(s.merged) == multiset(t.merged)
    ensures s.startMs == t.startMs && s.endMs == t.endMs && s.copyAfter == t.copyAfter && s.base == t.base
  {
    BoundsOfSubset(s.merged, t.merged, s.startMs, s.endMs, t.startMs, t.endMs);
    BoundsOfSubset(t.merged, s.merged, t.startMs, t.endMs, s.startMs, s.endMs);
    CameraKeyInjective(s.camera, s.dtype, t.camera, t.dtype);
  }

  // ---------- the waiting events ----------

  /** The session at the event's key was opened by it, when it had no end. */
  ghost predicate OpenedBy(st: State, id: string, w: WaitingEvent) {
    var key := CameraKey(w.camera, w.dtype);
    && key in st.streams && st.streams[key].merged != []
    && st.streams[key].merged[0] == Event(id, w.startMs, 0)
  }

  /** The session the event opened has been closed; another one at its key is not the event's. */
  ghost predicate ClosedSince(st: State, id: string, w: WaitingEvent) {
    var key := CameraKey(w.camera, w.dtype);
    && id in st.done
    && (key in st.streams ==> st.streams[key].merged != [] && st.streams[key].merged[0].id != id)
  }

  ghost predicate Awaited(st: State, id: string)
    requires id in st.waiting
  {
    '|' !in st.waiting[id].camera && (OpenedBy(st, id, st.waiting[id]) || ClosedSince(st, id, st.waiting[id]))
  }

  ghost predicate AllAwaited(st: State) {
    forall id :: id in st.waiting ==> Awaited(st, id)
  }

  ghost predicate Inv(cfg: Config, st: State) { AllHulls(cfg, st) && AllAwaited(st) }

  // ---------- every step keeps both ----------

  /** The sessions that are left are the same but for copied marks. */
  ghost predicate SameCores(st: State, after: State) {
    forall k :: k in after.streams ==> k in st.streams && Core(after.streams[k]) == Core(st.streams[k])
  }

  lemma CoresKeepHulls(cfg: Config, st: State, after: State)
    requires AllHulls(cfg, st) && SameCores(st, after)
    ensures AllHulls(cfg, after)
  {
    hide Hull, Core;
    forall k | k in after.streams ensures Hull(cfg, k, after.streams[k]) {
      HullIgnoresCopied(cfg, k, st.streams[k], after.streams[k]);
    }
  }

  /** An event stays awaited as long as its session, if it opened one, is still there or is done. */
  lemma CoresKeepAwaited(st: State, after: State, id: string)
    requires id in st.waiting && id in after.waiting && after.waiting[id] == st.waiting[id] && Awaited(st, id)
    requires SameCores(st, after) && st.done <= after.done
    requires var w := st.waiting[id];
             OpenedBy(st, id, w) ==> CameraKey(w.camera, w.dtype) in after.streams || id in after.done
    ensures Awaited(after, id)
  {
    hide CameraKey;
    var w := st.waiting[id];
    var key := CameraKey(w.camera, w.dtype);
    if key in after.streams {
      assert Core(after.streams[key]).merged == Core(st.streams[key]).merged;
    }
  }

  lemma QuietKeepsInv(cfg: Config, st: State, after: State)
    requires Inv(cfg, st) && Quiet(st, after)
    ensures Inv(cfg, after)
  {
    hide Hull, Awaited, OpenedBy, Core;
    CoresKeepHulls(cfg, st, after);
    forall id | id in after.waiting ensures Awaited(after, id) {
      OpenedIsThere(st, id);
      CoresKeepAwaited(st, after, id);
    }
  }

  lemma OpenedIsThere(st: State, id: string)
    requires id in st.waiting
    ensures var w := st.waiting[id]; OpenedBy(st, id, w) ==> CameraKey(w.camera, w.dtype) in st.streams
  {
  }

  /** A merge adds the message to the session's history, at the end. */
  lemma MergedHistory(cfg: Config, s: Session, e: Event, camera: string, dtype: string)
    ensures Core(Merged(cfg, s, e, camera, dtype)).merged == s.merged + [e]
    ensures Core(Merged(cfg, s, e, camera, dtype)).ids == s.ids + [e.id]
  {
  }

  /** If the one session that changes is a hull, all are. */
  lemma OneNewHull(cfg: Config, st: State, after: State, key: string, s: Session)
    requires AllHulls(cfg, st) && OnlyAt(st, after, key)
    requires Hull(cfg, key, s) && Core(after.streams[key]) == Core(s)
    ensures AllHulls(cfg, after)
  {
    HullIgnoresCopied(cfg, key, s, after.streams[key]);
    hide Hull, Core;
  }

  lemma MergeKeepsInv(cfg: Config, st: State, after: State, e: Event, camera: string, dtype: string)
    requires Inv(cfg, st) && cfg.trail >= 0 && cfg.delay >= 0
    requires '|' !in camera && e.start > 0 && e.end >= 0
    requires MergedInto(cfg, st, after, e, camera, dtype)
    ensures Inv(cfg, after)
  {
    hide Hull, Core, Merged, CameraKey;
    var key := CameraKey(camera, dtype);
    MergedHull(cfg, key, st.streams[key], e, camera, dtype);
    OneNewHull(cfg, st, after, key, Merged(cfg, st.streams[key], e, camera, dtype));
    MergedHistory(cfg, st.streams[key], e, camera, dtype);
    CoreHistory(after.streams[key]);
    forall id | id in after.waiting ensures Awaited(after, id) {
      assert Awaited(st, id);
    }
  }

  lemma CoreHistory(s: Session)
    ensures Core(s).merged == s.merged && Core(s).ids == s.ids && Core(s).endMs == s.endMs
  {
  }

  lemma OpenerIsAwaited(after: State, e: Event, camera: string, dtype: string, now: int)
    requires '|' !in camera && e.end == 0
    requires CameraKey(camera, dtype) in after.streams && after.streams[CameraKey(camera, dtype)].merged == [e]
    requires e.id in after.waiting && after.waiting[e.id] == WaitingEvent(camera, dtype, e.start, now)
    ensures Awaited(after, e.id)
  {
  }

  lemma OpenKeepsAwaited(st: State, after: State, e: Event, key: string, id: string)
    requires OnlyAt(st, after, key) && key !in st.streams && after.streams[key].merged == [e] && e.id !in st.done
    requires id in st.waiting && id in after.waiting && after.waiting[id] == st.waiting[id] && Awaited(st, id)
    ensures Awaited(after, id)
  {
    hide CameraKey;
  }

  lemma OpenKeepsInv(cfg: Config, st: State, after: State, e: Event, camera: string, dtype: string, now: int,
                     addOk: bool)
    requires Inv(cfg, st)
    requires '|' !in camera && e.start > 0 && e.end >= 0 && e.id !in st.done
    requires OpenedFor(cfg, st, after, e, camera, dtype, now, addOk)
    ensures Inv(cfg, after)
  {
    var key := CameraKey(camera, dtype);
    var s := NewSession(cfg, e, camera, dtype);
    assert s.merged == [e];
    hide Hull, Core, NewSession, CameraKey, EnsureWatched;
    NewSessionHull(cfg, e, camera, dtype);
    FreshSessionCore(cfg, e, camera, dtype);
    OneNewHull(cfg, st, after, key, s);
    CoreHistory(after.streams[key]);
    hide Awaited, AllHulls;
    forall id | id in after.waiting ensures Awaited(after, id) {
      if id == e.id && !e.HasEnd() {
        OpenerIsAwaited(after, e, camera, dtype, now);
      } else {
        OpenKeepsAwaited(st, after, e, key, id);
      }
    }
  }

  lemma ExpireKeepsInv(cfg: Config, st: State, order: seq<string>, now: int)
    requires Inv(cfg, st)
    ensures Inv(cfg, ExpireAll(cfg, st, order, now))
  {
    hide Hull, Core, ExpireAll, CameraKey, Awaited;
    var after := ExpireAll(cfg, st, order, now);
    ExpireAllMeaning(cfg, st, order, now);
    CoresKeepHulls(cfg, st, after);
    forall id | id in after.waiting ensures Awaited(after, id) {
      var w := st.waiting[id];
      var key := CameraKey(w.camera, w.dtype);
      if OpenedBy(st, id, w) && key !in after.streams {
        FirstId(cfg, key, st.streams[key]);
      }
      CoresKeepAwaited(st, after, id);
    }
  }

  lemma FirstId(cfg: Config, key: string, s: Session)
    requires Hull(cfg, key, s)
    ensures |s.ids| == |s.merged| > 0 && s.ids[0] == s.merged[0].id
  {
  }

  lemma CloseKeepsInv(cfg: Config, st: State, order: seq<string>, now: int, bad: set<int>)
    requires Inv(cfg, st) && Walk(order)
    ensures Inv(cfg, CloseAll(cfg, st, order, now, bad))
  {
    hide Hull, Core, CloseAll, CameraKey, Due, Awaited;
    var after := CloseAll(cfg, st, order, now, bad);
    CloseAllMeaning(cfg, st, order, now, bad);
    CoresKeepHulls(cfg, st, after);
    forall id | id in after.waiting ensures Awaited(after, id) {
      var w := st.waiting[id];
      var key := CameraKey(w.camera, w.dtype);
      if OpenedBy(st, id, w) && key !in after.streams {
        FirstId(cfg, key, st.streams[key]);
        assert key in DueKeys(cfg, st, order, now, bad);
        assert st.streams[key].ids[0] in IdsAt(st, DueKeys(cfg, st, order, now, bad));
      }
      CoresKeepAwaited(st, after, id);
    }
  }

  lemma MessageKeepsInv(cfg: Config, st: State, e: Event, camera: string, dtype: string, now: int, io: World)
    requires Inv(cfg, st) && cfg.trail >= 0 && cfg.delay >= 0 && '|' !in camera && e.end >= 0
    ensures Inv(cfg, ProcessMessage(cfg, st, e, camera, dtype, now, io))
  {
    hide ProcessMessage, MergedInto, OpenedFor, Hull, Awaited, CameraKey, OpenFails;
    var after := ProcessMessage(cfg, st, e, camera, dtype, now, io);
    MessageEffect(cfg, st, e, camera, dtype, now, io);
    if Ignored(st, e, camera) {
    } else if CameraKey(camera, dtype) in st.streams {
      MergeKeepsInv(cfg, st, after, e, camera, dtype);
    } else if OpenFails(st, e, camera, dtype, io) {
      ForgetKeepsInv(cfg, st, StillWaiting(st, e));
    } else {
      OpenKeepsInv(cfg, st, after, e, camera, dtype, now, io.addOk);
    }
  }

  /** A message that is not ignored leaves the session at its key, if there is one then, in the directory of the
      message's own type and camera and of the least start seen. */
  lemma MessageDirectory(cfg: Config, st: State, e: Event, camera: string, dtype: string, now: int, io: World)
    requires Inv(cfg, st) && cfg.trail >= 0 && cfg.delay >= 0 && '|' !in camera && e.end >= 0
    requires !Ignored(st, e, camera)
    ensures var key, after := CameraKey(camera, dtype), ProcessMessage(cfg, st, e, camera, dtype, now, io);
            key in after.streams ==>
              && after.streams[key].startMs
                 == (if key in st.streams && st.streams[key].startMs < e.start then st.streams[key].startMs else e.start)
              && after.streams[key].base == Base(dtype, camera, after.streams[key].startMs / 1000)
  {
    MessageKeepsInv(cfg, st, e, camera, dtype, now, io);
    StartAfterMessage(cfg, st, e, camera, dtype, now, io);
    hide ProcessMessage, CameraKey, Hull;
    var key, after := CameraKey(camera, dtype), ProcessMessage(cfg, st, e, camera, dtype, now, io);
    if key in after.streams {
      OwnDirectory(cfg, camera, dtype, after.streams[key]);
    }
  }

  lemma OwnDirectory(cfg: Config, camera: string, dtype: string, s: Session)
    requires Hull(cfg, CameraKey(camera, dtype), s) && '|' !in camera
    ensures s.base == Base(dtype, camera, s.startMs / 1000)
  {
    CameraKeyInjective(camera, dtype, s.camera, s.dtype);
  }

  lemma StartAfterMessage(cfg: Config, st: State, e: Event, camera: string, dtype: string, now: int, io: World)
    requires !Ignored(st, e, camera)
    ensures var key, after := CameraKey(camera, dtype), ProcessMessage(cfg, st, e, camera, dtype, now, io);
            key in after.streams ==>
              after.streams[key].startMs
              == (if key in st.streams && st.streams[key].startMs < e.start then st.streams[key].startMs else e.start)
  {
    MessageEffect(cfg, st, e, camera, dtype, now, io);
    hide ProcessMessage, CameraKey, OpenFails, EnsureWatched, Core, Merged, NewSession;
    var key, after := CameraKey(camera, dtype), ProcessMessage(cfg, st, e, camera, dtype, now, io);
    if key in st.streams {
      CoreStart(after.streams[key], Merged(cfg, st.streams[key], e, camera, dtype));
      MergedStart(cfg, st.streams[key], e, camera, dtype);
    } else if key in after.streams {
      FreshSessionCore(cfg, e, camera, dtype);
      CoreStart(after.streams[key], NewSession(cfg, e, camera, dtype));
      NewStart(cfg, e, camera, dtype);
    }
  }

  lemma MergedStart(cfg: Config, s: Session, e: Event, camera: string, dtype: string)
    ensures Merged(cfg, s, e, camera, dtype).startMs == if s.startMs < e.start then s.startMs else e.start
  {
  }

  lemma NewStart(cfg: Config, e: Event, camera: string, dtype: string)
    ensures NewSession(cfg, e, camera, dtype).startMs == e.start
  {
  }

  lemma CoreStart(s: Session, t: Session)
    requires Core(s) == Core(t)
    ensures s.startMs == t.startMs
  {
    assert Core(s).startMs == Core(t).startMs;
  }

  lemma ForgetKeepsInv(cfg: Config, st: State, waiting: map<string, WaitingEvent>)
    requires Inv(cfg, st)
    requires forall id :: id in waiting ==> id in st.waiting && waiting[id] == st.waiting[id]
    ensures Inv(cfg, st.(waiting := waiting))
  {
    hide Hull, CameraKey;
    var after := st.(waiting := waiting);
    forall id | id in after.waiting ensures Awaited(after, id) {
      assert Awaited(st, id);
    }
  }

  lemma StepKeepsInv(cfg: Config, st: State, l: Label)
    requires Inv(cfg, st) && cfg.trail >= 0 && cfg.delay >= 0 && Sane(l)
    ensures Inv(cfg, Step(cfg, st, l))
  {
    hide Inv, FileAll, ProcessMessage, ExpireAll, CloseAll;
    match l
    case Message(e, camera, dtype, now, io) => MessageKeepsInv(cfg, st, e, camera, dtype, now, io);
    case File(order, camera, ts, now, failing) =>
      FileAllIsQuiet(cfg, st, order, camera, ts, now, failing);
      QuietKeepsInv(cfg, st, Step(cfg, st, l));
    case Expire(order, now) => ExpireKeepsInv(cfg, st, order, now);
    case Close(order, now, bad) => CloseKeepsInv(cfg, st, order, now, bad);
    case Frames(camera, frames) => FramesKeepInv(cfg, st, camera, frames);
  }

  lemma FramesKeepInv(cfg: Config, st: State, camera: string, frames: set<int>)
    requires Inv(cfg, st)
    ensures Inv(cfg, st.(source := st.source[camera := frames]))
  {
    hide Hull, CameraKey;
    var after := st.(source := st.source[camera := frames]);
    forall id | id in after.waiting ensures Awaited(after, id) {
      assert Awaited(st, id);
    }
  }

  lemma {:induction false} RunKeepsInv(cfg: Config, source: map<string, set<int>>, archive: map<Base, set<int>>,
                                       ls: seq<Label>)
    requires cfg.trail >= 0 && cfg.delay >= 0 && AllSane(ls)
    ensures Inv(cfg, Run(cfg, Start(source, archive), ls))
  {
    if ls == [] {
      assert Run(cfg, Start(source, archive), ls) == Start(source, archive);
    } else {
      hide Inv, Step;
      RunKeepsInv(cfg, source, archive, ls[..|ls| - 1]);
      StepKeepsInv(cfg, Run(cfg, Start(source, archive), ls[..|ls| - 1]), ls[|ls| - 1]);
    }
  }

  lemma RunExtends(cfg: Config, st: State, ls: seq<Label>, i: nat)
    requires i < |ls|
    ensures Run(cfg, st, ls[..i + 1]) == Step(cfg, Run(cfg, st, ls[..i]), ls[i])
  {
    assert ls[..i + 1][..i] == ls[..i];
  }

  // ---------- the results ----------

  /** In every reachable state each session is the hull of its messages, ... */
  lemma SessionsAreHulls(cfg: Config, source: map<string, set<int>>, archive: map<Base, set<int>>, ls: seq<Label>,
                         key: string)
    requires cfg.trail >= 0 && cfg.delay >= 0 && AllSane(ls)
    requires key in Run(cfg, Start(source, archive), ls).streams
    ensures Hull(cfg, key, Run(cfg, Start(source, archive), ls).streams[key])
  {
    RunKeepsInv(cfg, source, archive, ls);
  }

  /** ... so that two runs that merged the same messages in any order have the same window, closing time and
      directory. */
  lemma ArrivalOrderIsIrrelevant(cfg: Config, source: map<string, set<int>>, archive: map<Base, set<int>>,
                                 ls: seq<Label>, ms: seq<Label>, key: string)
    requires cfg.trail >= 0 && cfg.delay >= 0 && AllSane(ls) && AllSane(ms)
    requires key in Run(cfg, Start(source, archive), ls).streams && key in Run(cfg, Start(source, archive), ms).streams
    requires multiset(Run(cfg, Start(source, archive), ls).streams[key].merged)
          == multiset(Run(cfg, Start(source, archive), ms).streams[key].merged)
    ensures var s := Run(cfg, Start(source, archive), ls).streams[key];
            var t := Run(cfg, Start(source, archive), ms).streams[key];
            s.startMs == t.startMs && s.endMs == t.endMs && s.copyAfter == t.copyAfter && s.base == t.base
  {
    hide Run, Hull;
    SessionsAreHulls(cfg, source, archive, ls, key);
    SessionsAreHulls(cfg, source, archive, ms, key);
    WindowIgnoresOrder(cfg, key, Run(cfg, Start(source, archive), ls).streams[key],
                       Run(cfg, Start(source, archive), ms).streams[key]);
  }

  /** A session that a reachable expiry pass discards was made by one message alone, without an end: the very
      one that has been waiting for longer than the timeout. */
  lemma ExpiryDiscardsOnlyLoneStarts(cfg: Config, source: map<string, set<int>>, archive: map<Base, set<int>>,
                                     ls: seq<Label>, order: seq<string>, now: int, key: string)
    requires cfg.trail >= 0 && cfg.delay >= 0 && AllSane(ls)
    requires var st := Run(cfg, Start(source, archive), ls);
             key in st.streams && key !in ExpireAll(cfg, st, order, now).streams
    ensures var st := Run(cfg, Start(source, archive), ls);
            var s := st.streams[key];
            && |s.merged| == 1 && s.merged[0].id in order && s.merged[0].id in st.waiting
            && var w := st.waiting[s.merged[0].id];
               && s.merged == [Event(s.merged[0].id, w.startMs, 0)]
               && s.camera == w.camera && s.dtype == w.dtype && w.lastAt < now - cfg.timeout
  {
    hide Run, ExpireAll;
    var st := Run(cfg, Start(source, archive), ls);
    RunKeepsInv(cfg, source, archive, ls);
    ExpireAllMeaning(cfg, st, order, now);
    var s := st.streams[key];
    assert Expirable(cfg, st, key, now);
    FirstId(cfg, key, s);
    var w := st.waiting[s.ids[0]];
    assert Awaited(st, s.ids[0]);
    CameraKeyInjective(s.camera, s.dtype, w.camera, w.dtype);
  }

  // ---------- sessions nothing will ever remove ----------

  /** The session has no end, and no waiting event can take it away. */
  predicate Stuck(st: State, key: string) {
    && key in st.streams && st.streams[key].endMs == 0
    && (|st.streams[key].ids| != 1
        || st.streams[key].ids[0] !in st.waiting
        || var w := st.waiting[st.streams[key].ids[0]]; CameraKey(w.camera, w.dtype) != key)
  }

  /** An open-ended session can be expired at some time exactly if it is not stuck. */
  lemma ExpiryReachesExactlyTheRest(cfg: Config, st: State, key: string)
    requires key in st.streams && st.streams[key].endMs == 0
    ensures !Stuck(st, key) <==> exists order, now :: key !in ExpireAll(cfg, st, order, now).streams
  {
    hide ExpireAll, CameraKey;
    forall order, now ensures key !in ExpireAll(cfg, st, order, now).streams ==> !Stuck(st, key) {
      ExpireAllMeaning(cfg, st, order, now);
    }
    if !Stuck(st, key) {
      var id := st.streams[key].ids[0];
      var now := st.waiting[id].lastAt + cfg.timeout + 1;
      ExpireAllMeaning(cfg, st, [id], now);
      assert key in ExpiredKeys(cfg, st, [id], now);
      assert key !in ExpireAll(cfg, st, [id], now).streams;
    }
  }

  /** A message for this key that can end the session. */
  predicate Ends(l: Label, key: string) { l.Message? && CameraKey(l.camera, l.dtype) == key && l.e.HasEnd() }

  lemma StuckStepStays(cfg: Config, st: State, l: Label, key: string)
    requires Inv(cfg, st) && Sane(l) && Stuck(st, key) && !Ends(l, key)
    ensures Stuck(Step(cfg, st, l), key)
  {
    hide ProcessMessage, FileAll, ExpireAll, CloseAll, CameraKey, Hull, Awaited;
    var after := Step(cfg, st, l);
    match l
    case Message(e, camera, dtype, now, io) => StuckMessageStays(cfg, st, e, camera, dtype, now, io, key);
    case File(order, camera, ts, now, failing) =>
      FileAllIsQuiet(cfg, st, order, camera, ts, now, failing);
      assert Core(after.streams[key]) == Core(st.streams[key]);
    case Expire(order, now) => ExpireAllMeaning(cfg, st, order, now);
      assert key !in ExpiredKeys(cfg, st, order, now);
    case Close(order, now, bad) =>
      CloseAllMeaning(cfg, st, order, now, bad);
      assert key !in DueKeys(cfg, st, order, now, bad);
      assert Core(after.streams[key]) == Core(st.streams[key]);
    case Frames(camera, frames) =>
  }

  lemma StuckMessageStays(cfg: Config, st: State, e: Event, camera: string, dtype: string, now: int, io: World,
                          key: string)
    requires Inv(cfg, st) && Stuck(st, key) && !(CameraKey(camera, dtype) == key && e.HasEnd())
    ensures Stuck(ProcessMessage(cfg, st, e, camera, dtype, now, io), key)
  {
    hide ProcessMessage, CameraKey, Hull, Awaited, NewSession, EnsureWatched;
    var after := ProcessMessage(cfg, st, e, camera, dtype, now, io);
    MessageEffect(cfg, st, e, camera, dtype, now, io);
    FirstId(cfg, key, st.streams[key]);
    if key == CameraKey(camera, dtype) && !Ignored(st, e, camera) {
      MergedHistory(cfg, st.streams[key], e, camera, dtype);
      assert |after.streams[key].ids| == |st.streams[key].ids| + 1;
    }
  }

  /** Once stuck, a session stays, whatever happens, until a message with an end comes for its key. */
  lemma {:induction false} StuckForGood(cfg: Config, source: map<string, set<int>>, archive: map<Base, set<int>>,
                                        ls: seq<Label>, more: seq<Label>, key: string)
    requires cfg.trail >= 0 && cfg.delay >= 0 && AllSane(ls + more)
    requires Stuck(Run(cfg, Start(source, archive), ls), key)
    requires forall i :: 0 <= i < |more| ==> !Ends(more[i], key)
    ensures Stuck(Run(cfg, Start(source, archive), ls + more), key)
  {
    if more == [] {
      assert ls + more == ls;
    } else {
      hide Inv, Stuck, Step, Ends;
      var front, l := more[..|more| - 1], more[|more| - 1];
      assert (ls + more)[..|ls + more| - 1] == ls + front && (ls + more)[|ls + more| - 1] == l;
      assert AllSane(ls + front) && Sane(l);
      StuckForGood(cfg, source, archive, ls, front, key);
      RunKeepsInv(cfg, source, archive, ls + front);
      StuckStepStays(cfg, Run(cfg, Start(source, archive), ls + front), l, key);
    }
  }

  // ---------- exactly what makes a session stuck ----------

  /** A message that is not ignored either comes without an end for the open-ended session at the key, or is one
      of the event that opened it and comes for another key, with an end, or opening a second session there. */
  predicate Sticks(st: State, l: Label, key: string) {
    && l.Message? && !Ignored(st, l.e, l.camera) && key in st.streams && st.streams[key].endMs == 0
    && if CameraKey(l.camera, l.dtype) == key then !l.e.HasEnd()
       else st.streams[key].ids == [l.e.id] && (l.e.HasEnd() || Opens(st, l.e, l.camera, l.dtype, l.io))
  }

  /** A message that is not ignored ends the session at the key. */
  predicate EndsNow(st: State, l: Label, key: string) { Ends(l, key) && !Ignored(st, l.e, l.camera) }

  /** A message makes an open-ended session stuck exactly if it is such a message. */
  lemma MessageSticksIff(cfg: Config, st: State, l: Label, key: string)
    requires Inv(cfg, st) && l.Message? && Sane(l)
    requires key in st.streams && st.streams[key].endMs == 0 && !Stuck(st, key)
    ensures Stuck(Step(cfg, st, l), key) <==> Sticks(st, l, key)
  {
    hide ProcessMessage, CameraKey, Hull, Awaited, NewSession, EnsureWatched, OpenFails;
    var after := Step(cfg, st, l);
    MessageEffect(cfg, st, l.e, l.camera, l.dtype, l.now, l.io);
    FirstId(cfg, key, st.streams[key]);
    if key == CameraKey(l.camera, l.dtype) && !Ignored(st, l.e, l.camera) {
      MergedHistory(cfg, st.streams[key], l.e, l.camera, l.dtype);
      MergedEnd(cfg, st.streams[key], l.e, l.camera, l.dtype);
      assert |after.streams[key].ids| == |st.streams[key].ids| + 1;
    }
  }

  lemma MergedEnd(cfg: Config, s: Session, e: Event, camera: string, dtype: string)
    ensures Core(Merged(cfg, s, e, camera, dtype)).endMs
         == if e.HasEnd() && e.end > s.endMs then e.end else s.endMs
  {
  }

  /** A message makes neither an ended session stuck nor the one it opens. */
  lemma MessageElsewhere(cfg: Config, st: State, l: Label, key: string)
    requires l.Message? && Sane(l)
    requires key in st.streams ==> st.streams[key].endMs != 0
    ensures !Stuck(Step(cfg, st, l), key)
  {
    hide ProcessMessage, CameraKey, EnsureWatched, OpenFails;
    MessageEffect(cfg, st, l.e, l.camera, l.dtype, l.now, l.io);
    if key in st.streams {
      MergedEnd(cfg, st.streams[key], l.e, l.camera, l.dtype);
    }
  }

  /** Nothing but a message makes a session stuck: expiry removes one along with the event it waits for. */
  lemma OthersDoNotStick(cfg: Config, st: State, l: Label, key: string)
    requires !l.Message? && Sane(l) && !Stuck(st, key)
    ensures !Stuck(Step(cfg, st, l), key)
  {
    hide FileAll, ExpireAll, CloseAll, CameraKey, Due;
    var after := Step(cfg, st, l);
    match l
    case File(order, camera, ts, now, failing) =>
      FileAllIsQuiet(cfg, st, order, camera, ts, now, failing);
      if key in st.streams {
        CoreIsAllBut(after.streams[key], st.streams[key]);
      }
    case Expire(order, now) => ExpireAllMeaning(cfg, st, order, now);
      assert key in after.streams ==> key !in ExpiredKeys(cfg, st, order, now);
    case Close(order, now, bad) =>
      CloseAllMeaning(cfg, st, order, now, bad);
      if key in after.streams {
        CoreIsAllBut(after.streams[key], st.streams[key]);
      }
    case Frames(camera, frames) =>
  }

  lemma CoreIsAllBut(s: Session, t: Session)
    requires Core(s) == Core(t)
    ensures s.endMs == t.endMs && s.ids == t.ids
  {
    assert s == t.(copied := s.copied);
  }

  /** A stuck session is made so by this step, or was stuck and has not been ended. */
  lemma StepSticksIff(cfg: Config, st: State, l: Label, key: string)
    requires Inv(cfg, st) && Sane(l)
    ensures Stuck(Step(cfg, st, l), key) <==> Sticks(st, l, key) || (Stuck(st, key) && !EndsNow(st, l, key))
  {
    if Stuck(st, key) {
      if Ends(l, key) {
        EndUnsticks(cfg, st, l, key);
      } else {
        hide Inv, Step;
        StuckStepStays(cfg, st, l, key);
      }
    } else if !l.Message? {
      OthersDoNotStick(cfg, st, l, key);
    } else if key in st.streams && st.streams[key].endMs == 0 {
      MessageSticksIff(cfg, st, l, key);
    } else {
      MessageElsewhere(cfg, st, l, key);
    }
  }

  lemma EndUnsticks(cfg: Config, st: State, l: Label, key: string)
    requires Stuck(st, key) && Ends(l, key)
    ensures Stuck(Step(cfg, st, l), key) <==> Ignored(st, l.e, l.camera)
  {
    hide ProcessMessage, CameraKey, Merged;
    MessageEffect(cfg, st, l.e, l.camera, l.dtype, l.now, l.io);
    MergedEnd(cfg, st.streams[key], l.e, l.camera, l.dtype);
  }

  /** A label of the run makes the session stuck, and no later one ends it. */
  ghost predicate StuckSince(cfg: Config, st: State, ls: seq<Label>, key: string, i: int) {
    && 0 <= i < |ls| && Sticks(Run(cfg, st, ls[..i]), ls[i], key)
    && forall j :: i < j < |ls| ==> !EndsNow(Run(cfg, st, ls[..j]), ls[j], key)
  }

  /** A run ends with a stuck session at the key exactly if some message made it so and none has ended it since. */
  lemma {:induction false} StuckIff(cfg: Config, source: map<string, set<int>>, archive: map<Base, set<int>>,
                                    ls: seq<Label>, key: string)
    requires cfg.trail >= 0 && cfg.delay >= 0 && AllSane(ls)
    ensures Stuck(Run(cfg, Start(source, archive), ls), key)
       <==> exists i :: StuckSince(cfg, Start(source, archive), ls, key, i)
  {
    var st := Start(source, archive);
    if ls == [] {
      assert Run(cfg, st, ls) == st;
    } else {
      var n := |ls| - 1;
      var front := ls[..n];
      StuckIff(cfg, source, archive, front, key);
      RunKeepsInv(cfg, source, archive, front);
      StepSticksIff(cfg, Run(cfg, st, front), ls[n], key);
      hide Stuck, Sticks, EndsNow, Inv, Step;
      SinceExtends(cfg, st, ls, front, ls[n], key);
    }
  }

  lemma SinceExtends(cfg: Config, st: State, ls: seq<Label>, front: seq<Label>, l: Label, key: string)
    requires ls == front + [l]
    ensures (exists i :: StuckSince(cfg, st, ls, key, i)) <==>
              || Sticks(Run(cfg, st, front), l, key)
              || ((exists i :: StuckSince(cfg, st, front, key, i)) && !EndsNow(Run(cfg, st, front), l, key))
  {
    hide Sticks, EndsNow, Run;
    var n := |front|;
    assert ls[..n] == front;
    assert forall j :: 0 <= j < n ==> front[..j] == ls[..j] && front[j] == ls[j];
    if i :| StuckSince(cfg, st, ls, key, i) {
      assert i < n ==> StuckSince(cfg, st, front, key, i);
    }
    if Sticks(Run(cfg, st, front), l, key) {
      assert StuckSince(cfg, st, ls, key, n);
    }
    if (exists i :: StuckSince(cfg, st, front, key, i)) && !EndsNow(Run(cfg, st, front), l, key) {
      var i :| StuckSince(cfg, st, front, key, i);
      assert StuckSince(cfg, st, ls, key, i);
    }
  }

  ghost predicate NeverStuck(cfg: Config, st: State, ls: seq<Label>, key: string) {
    forall i :: 0 <= i <= |ls| ==> !Stuck(Run(cfg, st, ls[..i]), key)
  }

  ghost predicate NothingSticks(cfg: Config, st: State, ls: seq<Label>, key: string) {
    forall i :: 0 <= i < |ls| ==> !Sticks(Run(cfg, st, ls[..i]), ls[i], key)
  }

  /** So no session at the key is ever stuck exactly if no such message comes. */
  lemma NeverStuckIff(cfg: Config, source: map<string, set<int>>, archive: map<Base, set<int>>, ls: seq<Label>,
                      key: string)
    requires cfg.trail >= 0 && cfg.delay >= 0 && AllSane(ls)
    ensures NeverStuck(cfg, Start(source, archive), ls, key) <==> NothingSticks(cfg, Start(source, archive), ls, key)
  {
    hide Stuck, Sticks, EndsNow, Inv, Step, Run;
    var st := Start(source, archive);
    forall i | 0 <= i < |ls|
      ensures Sticks(Run(cfg, st, ls[..i]), ls[i], key) ==> Stuck(Run(cfg, st, ls[..i + 1]), key)
    {
      RunKeepsInv(cfg, source, archive, ls[..i]);
      RunExtends(cfg, st, ls, i);
      StepSticksIff(cfg, Run(cfg, st, ls[..i]), ls[i], key);
    }
    if NeverStuck(cfg, st, ls, key) {
      forall i | 0 <= i < |ls| ensures !Sticks(Run(cfg, st, ls[..i]), ls[i], key) {
        assert !Stuck(Run(cfg, st, ls[..i + 1]), key);
      }
    }
    forall i | 0 <= i <= |ls| && Stuck(Run(cfg, st, ls[..i]), key)
      ensures exists j :: 0 <= j < |ls| && Sticks(Run(cfg, st, ls[..j]), ls[j], key)
    {
      StuckIff(cfg, source, archive, ls[..i], key);
      var j :| StuckSince(cfg, st, ls[..i], key, j);
      assert ls[..i][..j] == ls[..j] && ls[..i][j] == ls[j];
    }
  }

  /** Any accepted message without an end, be it the same one again, makes the open-ended session at its key
      stuck. */
  lemma RepeatedStartSticks(cfg: Config, st: State, l: Label, key: string)
    requires Inv(cfg, st) && Sane(l) && l.Message? && !l.e.HasEnd() && !Ignored(st, l.e, l.camera)
    requires CameraKey(l.camera, l.dtype) == key && key in st.streams && st.streams[key].endMs == 0
    ensures Stuck(Step(cfg, st, l), key)
  {
    hide Inv, Step, Stuck, CameraKey;
    StepSticksIff(cfg, st, l, key);
  }

  /** So does the opening event's own end when it comes under another type or camera, be there a session at that
      key or none, and even if one cannot be opened there. */
  lemma EndElsewhereSticks(cfg: Config, st: State, l: Label, key: string)
    requires Inv(cfg, st) && Sane(l) && l.Message? && l.e.HasEnd() && !Ignored(st, l.e, l.camera)
    requires CameraKey(l.camera, l.dtype) != key && key in st.streams && st.streams[key].endMs == 0
    requires st.streams[key].ids == [l.e.id]
    ensures Stuck(Step(cfg, st, l), key)
  {
    hide Inv, Step, Stuck, CameraKey;
    StepSticksIff(cfg, st, l, key);
  }

  /** Its start under another type or camera does so exactly if it opens a second session there: merged into one
      that exists, it leaves the first session as it was, to expire. */
  lemma SecondTypeSticks(cfg: Config, st: State, l: Label, key: string)
    requires Inv(cfg, st) && Sane(l) && l.Message? && !l.e.HasEnd() && !Ignored(st, l.e, l.camera)
    requires CameraKey(l.camera, l.dtype) != key && key in st.streams && st.streams[key].endMs == 0
    requires st.streams[key].ids == [l.e.id] && !Stuck(st, key)
    ensures Stuck(Step(cfg, st, l), key) <==> Opens(st, l.e, l.camera, l.dtype, l.io)
  {
    hide Inv, Step, Stuck, CameraKey, Opens;
    StepSticksIff(cfg, st, l, key);
  }

  lemma OpenedAtStart(cfg: Config, l: Label)
    requires l.Message? && l.e.id != "" && l.e.start > 0 && !l.e.HasEnd() && l.camera != "" && l.io.mkdirOk
    requires Sane(l)
    ensures var key, after := CameraKey(l.camera, l.dtype), Step(cfg, Start(map[], map[]), l);
            && after.streams.Keys == {key} && after.done == {} && !Stuck(after, key)
            && after.streams[key].endMs == 0 && after.streams[key].ids == [l.e.id]
  {
    MessageEffect(cfg, Start(map[], map[]), l.e, l.camera, l.dtype, l.now, l.io);
    hide ProcessMessage, EnsureWatched, CameraKey, ArchiveBase, CopyAfter;
    CoreHistory(Step(cfg, Start(map[], map[]), l).streams[CameraKey(l.camera, l.dtype)]);
  }

  /** Two messages lead from the start to such a session: after a start-only message every other message of the
      same event leaves it stuck, but for an end that comes for the same camera and type. */
  lemma StuckIsReachable(cfg: Config, l: Label, l': Label)
    requires cfg.trail >= 0 && cfg.delay >= 0 && AllSane([l, l'])
    requires l.Message? && l.e.id != "" && l.e.start > 0 && !l.e.HasEnd() && l.camera != "" && l.io.mkdirOk
    requires l'.Message? && l'.e.id == l.e.id && l'.e.start > 0 && l'.camera != "" && l'.io.mkdirOk
    ensures var key := CameraKey(l.camera, l.dtype);
            Stuck(Run(cfg, Start(map[], map[]), [l, l']), key) <==> !Ends(l', key)
  {
    var st := Start(map[], map[]);
    var ls := [l, l'];
    assert Sane(ls[0]) && Sane(ls[1]) && AllSane([l]);
    assert Run(cfg, st, ls[..0]) == st && ls[..2] == ls && ls[..1] == [l];
    RunExtends(cfg, st, ls, 0);
    RunExtends(cfg, st, ls, 1);
    RunKeepsInv(cfg, map[], map[], [l]);
    hide Run, Inv, Step, Stuck;
    OpenedAtStart(cfg, l);
    StepSticksIff(cfg, Step(cfg, st, l), l', CameraKey(l.camera, l.dtype));
  }
}
