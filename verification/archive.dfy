/** The archive service's sessions as a state machine: services/unifi-smart-archive/service/service.go.
    Everything below happens under the service's one mutex, so a step is a whole critical section; a loop
    over a map is a fold over the order in which the map happens to be walked.

    Clock readings are nanoseconds; Unix is their second. A source directory is the set of the timestamps t
    for which it holds the file "t.jpg", an archive directory likewise. */
module Archive {
  import opened Keys

  const SECOND := 1_000_000_000

  /** timeout is EventEndTimeout in nanoseconds; hasWatcher tells whether fsnotify could be started. */
  datatype Config = Config(lead: int, trail: int, delay: int, timeout: int, hasWatcher: bool)

  datatype Event = Event(id: string, start: int, end: int) {
    predicate HasEnd() { end > 0 }
  }

  /** The path built by archiveBase, names being plain path segments. */
  datatype Base = Base(dtype: string, camera: string, sec: int)

  /** StreamSession; `merged` is history: the events that went into the session, whose ids are EventIDs. */
  datatype Session = Session(
    camera: string, dtype: string, startMs: int, endMs: int, copyAfter: int, base: Base,
    ids: seq<string>, copied: set<int>, merged: seq<Event>)

  datatype WaitingEvent = WaitingEvent(camera: string, dtype: string, startMs: int, lastAt: int)

  /** watchedDirs, and the directories fsnotify watches. */
  datatype Watch = Watch(dirs: map<string, int>, live: set<string>) {
    function Count(camera: string): int { if camera in dirs then dirs[camera] else 0 }
  }

  /** The service's maps and the file system. */
  datatype State = State(
    streams: map<string, Session>, waiting: map<string, WaitingEvent>, done: set<string>,
    watch: Watch, source: map<string, set<int>>, archive: map<Base, set<int>>)

  /** What the outside world does to one message: whether MkdirAll and watcher.Add succeed, and which
      frames cannot be copied in the first and the second catch-up. */
  datatype World = World(mkdirOk: bool, addOk: bool, bad1: set<int>, bad2: set<int>)

  function Unix(now: int): int { now / SECOND }

  /** Go's division by 1000, which truncates toward zero. */
  function Seconds(ms: int): int { if ms >= 0 then ms / 1000 else -((-ms) / 1000) }

  function ArchiveBase(camera: string, dtype: string, startMs: int): Base { Base(dtype, camera, Seconds(startMs)) }

  function CopyAfter(cfg: Config, e: Event): int {
    if e.HasEnd() then Seconds(e.end) + cfg.trail + cfg.delay else 0
  }

  function SourceOf(st: State, camera: string): set<int> {
    if camera in st.source then st.source[camera] else {}
  }

  function FilesIn(st: State, b: Base): set<int> {
    if b in st.archive then st.archive[b] else {}
  }

  // ---------- copying ----------

  function FromSec(cfg: Config, s: Session): int { Seconds(s.startMs) - cfg.lead }

  /** The last second of the window; a session without an end gets some slack past now. */
  function ToSec(cfg: Config, s: Session, now: int, slack: int): int {
    if s.endMs > 0 then Seconds(s.endMs) + cfg.trail else Unix(now) + slack
  }

  /** The frames a catch-up copies. */
  function Fresh(cfg: Config, st: State, s: Session, now: int, bad: set<int>): set<int> {
    if s.base !in st.archive then {}
    else set ts | ts in SourceOf(st, s.camera)
                  && FromSec(cfg, s) <= ts <= ToSec(cfg, s, now, 5) && ts !in s.copied && ts !in bad
  }

  function Put(st: State, key: string, s: Session): State { st.(streams := st.streams[key := s]) }

  /** Copy the given frames into the session's directory and mark them. */
  function Copy(st: State, key: string, s: Session, frames: set<int>): State {
    Put(st, key, s.(copied := s.copied + frames)).(
      archive := if s.base in st.archive then st.archive[s.base := st.archive[s.base] + frames] else st.archive)
  }

  /** catchUpLocked. */
  function CatchUp(cfg: Config, st: State, key: string, now: int, bad: set<int>): State {
    if key !in st.streams then st
    else Copy(st, key, st.streams[key], Fresh(cfg, st, st.streams[key], now, bad))
  }

  /** runWatcher, for one session: a frame has appeared in the directory of `camera`. */
  function FileOne(cfg: Config, st: State, key: string, camera: string, ts: int, now: int,
                   failing: set<string>): State {
    if key !in st.streams then st
    else
      var s := st.streams[key];
      if s.camera == camera && FromSec(cfg, s) <= ts <= ToSec(cfg, s, now, 60) && ts !in s.copied
         && key !in failing && ts in SourceOf(st, camera) && s.base in st.archive
      then Copy(st, key, s, {ts}) else st
  }

  function FileAll(cfg: Config, st: State, order: seq<string>, camera: string, ts: int, now: int,
                   failing: set<string>): State {
    if order == [] then st
    else
      var n := |order| - 1;
      FileOne(cfg, FileAll(cfg, st, order[..n], camera, ts, now, failing), order[n], camera, ts, now, failing)
  }

  // ---------- the watcher's reference counts ----------

  /** ensureWatchedLocked. */
  function EnsureWatched(cfg: Config, w: Watch, camera: string, addOk: bool): Watch {
    if !cfg.hasWatcher then w
    else
      var n := w.Count(camera) + 1;
      if n > 1 then w.(dirs := w.dirs[camera := n])
      else if addOk then Watch(w.dirs[camera := n], w.live + {camera})
      else w.(dirs := w.dirs[camera := n - 1])
  }

  /** releaseWatchedLocked. */
  function ReleaseWatched(cfg: Config, w: Watch, camera: string): Watch {
    if !cfg.hasWatcher then w
    else
      var n := w.Count(camera) - 1;
      if n <= 0 then Watch(w.dirs - {camera}, w.live - {camera}) else w.(dirs := w.dirs[camera := n])
  }

  // ---------- messages ----------

  function MakeDir(st: State, b: Base, ok: bool): State {
    if b in st.archive || !ok then st else st.(archive := st.archive[b := {}])
  }

  /** The merge of an earlier start: switch to the new directory, copy into it, remove the old one. */
  function Lower(cfg: Config, st: State, key: string, e: Event, camera: string, dtype: string, now: int,
                 io: World): State
    requires key in st.streams
  {
    var s := st.streams[key];
    var moved := s.(startMs := e.start, base := ArchiveBase(camera, dtype, e.start));
    if moved.base == s.base then Put(st, key, moved)
    else
      var copied := CatchUp(cfg, MakeDir(Put(st, key, moved), moved.base, io.mkdirOk), key, now, io.bad1);
      copied.(archive := copied.archive - {s.base})
  }

  /** The session with its end and its closing time moved out to those of the message. */
  function Extended(cfg: Config, s: Session, e: Event): Session {
    var later := if e.end > s.endMs then s.(endMs := e.end) else s;
    if CopyAfter(cfg, e) > s.copyAfter then later.(copyAfter := CopyAfter(cfg, e)) else later
  }

  /** The merge of a message with an end. */
  function Extend(cfg: Config, st: State, key: string, e: Event, now: int, bad: set<int>): State
    requires key in st.streams
  {
    CatchUp(cfg, Put(st, key, Extended(cfg, st.streams[key], e)), key, now, bad)
  }

  function AddEvent(st: State, key: string, e: Event): State
    requires key in st.streams
  {
    var s := st.streams[key];
    Put(st, key, s.(ids := s.ids + [e.id], merged := s.merged + [e]))
  }

  function Merge(cfg: Config, st: State, key: string, e: Event, camera: string, dtype: string, now: int,
                 io: World): State
    requires key in st.streams
  {
    var st1 := if e.start < st.streams[key].startMs then Lower(cfg, st, key, e, camera, dtype, now, io) else st;
    var st2 := if e.HasEnd() then Extend(cfg, st1, key, e, now, io.bad2) else st1;
    AddEvent(st2, key, e)
  }

  function NewSession(cfg: Config, e: Event, camera: string, dtype: string): Session {
    Session(camera, dtype, e.start, e.end, CopyAfter(cfg, e), ArchiveBase(camera, dtype, e.start), [e.id], {}, [e])
  }

  function Open(cfg: Config, st: State, e: Event, camera: string, dtype: string, now: int, io: World): State {
    var base, key := ArchiveBase(camera, dtype, e.start), CameraKey(camera, dtype);
    if base !in st.archive && !io.mkdirOk then st
    else
      var begun := Put(MakeDir(st, base, true), key, NewSession(cfg, e, camera, dtype)).(
        watch := EnsureWatched(cfg, st.watch, camera, io.addOk));
      var copied := CatchUp(cfg, begun, key, now, io.bad1);
      if e.HasEnd() then copied
      else copied.(waiting := copied.waiting[e.id := WaitingEvent(camera, dtype, e.start, now)])
  }

  /** processMessage, for a message that parsed and whose names are resolved and sanitised. */
  function ProcessMessage(cfg: Config, st: State, e: Event, camera: string, dtype: string, now: int, io: World): State {
    if e.id == "" || e.start <= 0 || camera == "" || e.id in st.done then st
    else
      var st1 := if e.HasEnd() then st.(waiting := st.waiting - {e.id}) else st;
      var key := CameraKey(camera, dtype);
      if key in st1.streams then Merge(cfg, st1, key, e, camera, dtype, now, io)
      else Open(cfg, st1, e, camera, dtype, now, io)
  }

  // ---------- the worker's ticks ----------

  predicate Overdue(cfg: Config, w: WaitingEvent, now: int) { w.lastAt < now - cfg.timeout }

  /** The body of the loop of expireWaitingForEnd. */
  function ExpireOne(cfg: Config, st: State, id: string, now: int): State {
    if id !in st.waiting || !Overdue(cfg, st.waiting[id], now) then st
    else
      var w := st.waiting[id];
      var st1, key := st.(waiting := st.waiting - {id}), CameraKey(w.camera, w.dtype);
      if key in st.streams && st.streams[key].endMs == 0 && |st.streams[key].ids| == 1 && st.streams[key].ids[0] == id
      then
        st1.(streams := st1.streams - {key}, watch := ReleaseWatched(cfg, st1.watch, w.camera),
             archive := st1.archive - {st.streams[key].base})
      else st1
  }

  function ExpireAll(cfg: Config, st: State, order: seq<string>, now: int): State {
    if order == [] then st
    else ExpireOne(cfg, ExpireAll(cfg, st, order[..|order| - 1], now), order[|order| - 1], now)
  }

  /** The first loop of closeCompletedStreams, for one session: catch up if need be and decide. */
  function CloseCheck(cfg: Config, st: State, key: string, now: int, bad: set<int>): (State, bool) {
    if key !in st.streams then (st, false)
    else
      var s := st.streams[key];
      var last := Seconds(s.endMs) + cfg.trail;
      if s.endMs == 0 || Unix(now) < s.copyAfter then (st, false)
      else if last in s.copied then (st, true)
      else
        var st1 := CatchUp(cfg, st, key, now, bad);
        (st1, last in st1.streams[key].copied || last !in SourceOf(st, s.camera))
  }

  function CloseChecks(cfg: Config, st: State, order: seq<string>, now: int, bad: set<int>): (State, seq<string>) {
    if order == [] then (st, [])
    else
      var key := order[|order| - 1];
      var (st1, toClose) := CloseChecks(cfg, st, order[..|order| - 1], now, bad);
      var (st2, yes) := CloseCheck(cfg, st1, key, now, bad);
      (st2, if yes then toClose + [key] else toClose)
  }

  /** The second loop, for one session. */
  function CloseOne(cfg: Config, st: State, key: string): State {
    if key !in st.streams then st
    else
      var s := st.streams[key];
      st.(streams := st.streams - {key}, watch := ReleaseWatched(cfg, st.watch, s.camera),
          done := st.done + (set i | 0 <= i < |s.ids| :: s.ids[i]))
  }

  function CloseEach(cfg: Config, st: State, keys: seq<string>): State {
    if keys == [] then st else CloseOne(cfg, CloseEach(cfg, st, keys[..|keys| - 1]), keys[|keys| - 1])
  }

  function CloseAll(cfg: Config, st: State, order: seq<string>, now: int, bad: set<int>): State {
    var (st1, toClose) := CloseChecks(cfg, st, order, now, bad);
    CloseEach(cfg, st1, toClose)
  }

  // ---------- runs ----------

  /** What can happen: a message, a watcher event, the two halves of a tick, and the camera's directory
      changing under the service. */
  datatype Label =
    | Message(e: Event, camera: string, dtype: string, now: int, io: World)
    | File(order: seq<string>, camera: string, ts: int, now: int, failing: set<string>)
    | Expire(order: seq<string>, now: int)
    | Close(order: seq<string>, now: int, bad: set<int>)
    | Frames(camera: string, frames: set<int>)

  function Step(cfg: Config, st: State, l: Label): State {
    match l
    case Message(e, camera, dtype, now, io) => ProcessMessage(cfg, st, e, camera, dtype, now, io)
    case File(order, camera, ts, now, failing) => FileAll(cfg, st, order, camera, ts, now, failing)
    case Expire(order, now) => ExpireAll(cfg, st, order, now)
    case Close(order, now, bad) => CloseAll(cfg, st, order, now, bad)
    case Frames(camera, frames) => st.(source := st.source[camera := frames])
  }

  function Run(cfg: Config, st: State, ls: seq<Label>): State {
    if ls == [] then st else Step(cfg, Run(cfg, st, ls[..|ls| - 1]), ls[|ls| - 1])
  }

  /** A service just started over whatever the archive holds. */
  function Start(source: map<string, set<int>>, archive: map<Base, set<int>>): State {
    State(map[], map[], {}, Watch(map[], {}), source, archive)
  }

  /** The order in which a map is walked visits no key twice. */
  ghost predicate Walk(order: seq<string>) {
    forall i, j :: 0 <= i < j < |order| ==> order[i] != order[j]
  }

  /** Camera names hold no '|', ends are not negative, and a closing pass meets each session once. */
  ghost predicate Sane(l: Label) {
    && (l.Message? ==> '|' !in l.camera && l.e.end >= 0)
    && (l.Close? ==> Walk(l.order))
  }

  ghost predicate AllSane(ls: seq<Label>) { forall i :: 0 <= i < |ls| ==> Sane(ls[i]) }
}
