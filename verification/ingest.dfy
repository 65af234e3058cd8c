/** The whole path from Kafka messages to table rows: the worker pool and its shutdown on top of the tag
    cache, the tags table and the batch writer.
    services/weatherlink-sql-backfill/service/worker_pool.go and backfill.go (processTopics, Close);
    services/weatherlink-sql/service/worker_pool.go is the same pool with `live` set. */
module Ingest {
  import opened Tables
  import opened TagCache
  import opened BatchProtocol

  // ---------- values and routing ----------

  /** What a field of a parsed JSON object may be. */
  datatype FieldValue = JNull | JNumber(n: real) | JString(s: string) | JBool(b: bool) | JOther

  /** determineDataType. */
  function DataTypeOf(v: FieldValue): string {
    match v
    case JNull => "null"
    case JNumber(_) => "numeric"
    case JBool(_) => "numeric"
    case _ => "text"
  }

  datatype Routed = Accept(k: Kind, value: Value) | Reject

  /** addRecordToBatch; RecordRepository.Insert makes the same choice. */
  function Route(dataType: string, v: FieldValue): Routed {
    if v.JNull? then Accept(Null, Nothing)
    else if dataType == "numeric" || dataType == "float" || dataType == "integer" then
      (if v.JNumber? then Accept(Numeric, Number(v.n)) else Reject)
    else if dataType == "text" || dataType == "string" then
      (if v.JString? then Accept(Textual, Text(v.s)) else Reject)
    else Reject
  }

  /** The data types whose tags hold numbers, and those whose tags hold text. */
  const NUMBER_TYPES := {"numeric", "float", "integer"}
  const TEXT_TYPES := {"text", "string"}

  /** A tag of this data type takes the value. */
  predicate Fits(dataType: string, v: FieldValue) {
    v.JNull? || (v.JNumber? && dataType in NUMBER_TYPES) || (v.JString? && dataType in TEXT_TYPES)
  }

  /** The value is stored in records of kind k as x. */
  predicate Carries(v: FieldValue, k: Kind, x: Value) {
    match v
    case JNull => k == Null && x == Nothing
    case JNumber(n) => k == Numeric && x == Number(n)
    case JString(t) => k == Textual && x == Text(t)
    case _ => false
  }

  /** Routing refuses exactly what does not fit, and what it accepts goes unaltered to its own kind of records. */
  lemma RouteMeaning(dataType: string, v: FieldValue)
    ensures Route(dataType, v).Accept? <==> Fits(dataType, v)
    ensures Route(dataType, v).Accept? ==> Carries(v, Route(dataType, v).k, Route(dataType, v).value)
  {
    assert |"numeric"| == 7 && |"float"| == 5 && |"integer"| == 7 && |"text"| == 4 && |"string"| == 6;
    assert "numeric"[0] == 'n' && "integer"[0] == 'i';
  }

  /** A field whose tag was made for it is stored unless it is a boolean, an object or an array. */
  lemma OwnTypeAccepts(v: FieldValue)
    ensures Route(DataTypeOf(v), v).Accept? <==> v.JNull? || v.JNumber? || v.JString?
  {
    assert |"numeric"| == 7 && |"text"| == 4 && |"null"| == 4;
  }

  /** A tag first seen as null accepts nothing but null from then on. */
  lemma NullFirstRejects(v: FieldValue)
    ensures Route(DataTypeOf(JNull), v).Accept? <==> v.JNull?
  {
    assert "null"[0] == 'n' && "text"[0] == 't';
    assert |"null"| == 4 && |"numeric"| == 7 && |"float"| == 5 && |"integer"| == 7 && |"string"| == 6;
  }

  // ---------- the system ----------

  datatype Field = Field(name: string, value: FieldValue)

  /** lsid and timestamp come from the headers (0 if absent); body is None when it does not parse. The
      fields come in the order in which the map is walked, which the language leaves open. */
  datatype Msg = Msg(lsid: int, ts: int, body: Option<seq<Field>>)

  /** What became of a field. */
  datatype Fate = Timestamp | NoTag | Refused(tag: Tag) | Stored(tag: Tag, k: Kind, rec: Rec)

  /** History: a message whose fields a worker has begun to walk, and the fates of those walked. */
  datatype Opening = Opening(msg: Msg, device: int, fates: seq<Fate>)

  /** A worker's place in the n-th opening. */
  datatype Task = Task(n: nat, msg: Msg, device: int, todo: seq<Field>)

  datatype Job =
    | Ready
    | Looking(task: Task)              // about to look up the tag of todo[0], or done
    | Creating(task: Task)             // the cache had none; about to upsert
    | Storing(task: Task, tag: Tag)    // the row exists; about to put it into the cache
    | Handing(task: Task, tag: Tag)     // about to hand the record to the writer
    | Waiting(task: Task)              // inside the writer; todo[0] is dealt with
    | Exited

  datatype System = System(
    live: bool, devices: map<int, int>, capacity: nat,
    chan: seq<Msg>, closed: bool, jobs: seq<Job>,
    tags: map<string, Tag>, db: TagTable, writer: State,
    processed: nat, errors: nat,
    submitted: seq<Msg>, failed: seq<Msg>, orphaned: seq<Msg>, openings: seq<Opening>)

  datatype Act = Submit(m: Msg) | Shutdown | Work(w: nat, ok: bool) | Writer(t: nat, c: Choice)

  predicate AllExited(jobs: seq<Job>) {
    forall w :: 0 <= w < |jobs| ==> jobs[w].Exited?
  }

  function SetJob(s: System, w: nat, j: Job): System
    requires w < |s.jobs|
  {
    s.(jobs := s.jobs[w := j])
  }

  /** A worker takes a message off the channel, or leaves when the channel is closed and empty. A message
      without a device is an error; the live service, when the orphan could be saved, counts it as processed. */
  function Receive(s: System, w: nat, ok: bool): (r: System)
    requires w < |s.jobs|
    ensures r.writer == s.writer && |r.jobs| == |s.jobs|
  {
    if s.chan == [] then (if s.closed then SetJob(s, w, Exited) else s)
    else
      var m, s1 := s.chan[0], s.(chan := s.chan[1..]);
      if m.lsid != 0 && m.lsid !in s.devices && s.live && ok then
        s1.(processed := s.processed + 1, orphaned := s.orphaned + [m])
      else if m.lsid == 0 || m.lsid !in s.devices || m.body.None? then
        s1.(errors := s.errors + 1, failed := s.failed + [m])
      else
        var device := s.devices[m.lsid];
        SetJob(s1, w, Looking(Task(|s.openings|, m, device, m.body.value))).(
          openings := s.openings + [Opening(m, device, [])])
  }

  function Mark(openings: seq<Opening>, n: nat, f: Fate): seq<Opening> {
    if n < |openings| then openings[n := openings[n].(fates := openings[n].fates + [f])] else openings
  }

  function Rest(task: Task): Task { if task.todo == [] then task else task.(todo := task.todo[1..]) }

  /** The worker is done with the field at hand. */
  function NextField(s: System, w: nat, task: Task, f: Fate): (r: System)
    requires w < |s.jobs|
    ensures r.writer == s.writer && |r.jobs| == |s.jobs|
  {
    SetJob(s, w, Looking(Rest(task))).(openings := Mark(s.openings, task.n, f))
  }

  function Look(s: System, w: nat, task: Task): (r: System)
    requires w < |s.jobs|
    ensures r.writer == s.writer && |r.jobs| == |s.jobs|
  {
    if task.todo == [] then SetJob(s, w, Ready).(processed := s.processed + 1)
    else if task.todo[0].name == "ts" then NextField(s, w, task, Timestamp)
    else
      match FindTag(s.tags, task.device, task.todo[0].name)
      case Some(tag) => SetJob(s, w, Handing(task, tag))
      case None => SetJob(s, w, Creating(task))
  }

  function Make(s: System, w: nat, task: Task, ok: bool): (r: System)
    requires w < |s.jobs|
    ensures r.writer == s.writer && |r.jobs| == |s.jobs|
  {
    if task.todo == [] then s
    else if !ok then NextField(s, w, task, NoTag)
    else
      var dataType := DataTypeOf(task.todo[0].value);
      var (db, id) := Upsert(s.db, task.device, task.todo[0].name, dataType);
      SetJob(s, w, Storing(task, Tag(id, dataType))).(db := db)
  }

  function Hand(s: System, w: nat, task: Task, tag: Tag): System
    requires w < |s.jobs|
  {
    if task.todo == [] then s
    else
      match Route(tag.dataType, task.todo[0].value)
      case Reject => NextField(s, w, task, Refused(tag))
      case Accept(k, v) =>
        var rec := Rec(Key(tag.id, task.msg.ts), v);
        SetJob(s, w, Waiting(Rest(task))).(
          writer := BatchProtocol.Step(s.writer, w + 2, Add(k, rec)),
          openings := Mark(s.openings, task.n, Stored(tag, k, rec)))
  }

  function Save(s: System, w: nat, task: Task, tag: Tag): (r: System)
    requires w < |s.jobs|
    ensures r.writer == s.writer && |r.jobs| == |s.jobs|
  {
    if task.todo == [] then s
    else SetJob(s, w, Handing(task, tag)).(tags := StoreTag(s.tags, task.device, task.todo[0].name, tag))
  }

  /** The call of the writer returns when the thread is idle again. */
  function Return(s: System, w: nat, task: Task): (r: System)
    requires w < |s.jobs|
    ensures r.writer == s.writer && |r.jobs| == |s.jobs|
  {
    if w + 2 < |s.writer.pcs| && s.writer.pcs[w + 2].Idle? then SetJob(s, w, Looking(task)) else s
  }

  function WorkStep(s: System, w: nat, ok: bool): System
    requires w < |s.jobs|
  {
    match s.jobs[w]
    case Ready => Receive(s, w, ok)
    case Looking(task) => Look(s, w, task)
    case Creating(task) => Make(s, w, task, ok)
    case Storing(task, tag) => Save(s, w, task, tag)
    case Handing(task, tag) => Hand(s, w, task, tag)
    case Waiting(task) => Return(s, w, task)
    case Exited => s
  }

  /** Steps of the writer's own threads. Workers enter it only through Hand; the main goroutine flushes and
      closes only after all workers have left. */
  predicate Allowed(s: System, t: nat, c: Choice) {
    Finishing(c) || (t == TICKER && c == Tick) || (t == CLOSER && (c == FlushAll || c == Close) && AllExited(s.jobs))
  }

  /** One step of the whole system; a step that cannot be taken changes nothing. */
  function Step(s: System, a: Act): System {
    match a
    case Submit(m) =>
      if s.closed || |s.chan| >= s.capacity then s
      else s.(chan := s.chan + [m], submitted := s.submitted + [m])
    case Shutdown => s.(closed := true)
    case Work(w, ok) => if w < |s.jobs| then WorkStep(s, w, ok) else s
    case Writer(t, c) => if Allowed(s, t, c) then s.(writer := BatchProtocol.Step(s.writer, t, c)) else s
  }

  function Run(s: System, acts: seq<Act>): System {
    if acts == [] then s else Step(Run(s, acts[..|acts| - 1]), acts[|acts| - 1])
  }

  function Start(live: bool, devices: map<int, int>, workers: nat, flushSize: nat,
                 tags: map<string, Tag>, db: TagTable, start: Trio<Table>): System {
    System(live, devices, workers * 2, [], false, seq(workers, i => Ready), tags, db,
           Init(start, flushSize, workers), 0, 0, [], [], [], [])
  }

  // ---------- the workers and the writer ----------

  ghost predicate WriterInv(s: System) {
    && BatchProtocol.Inv(s.writer)
    && |s.writer.pcs| == |s.jobs| + 2
    && (forall w :: 0 <= w < |s.jobs| && !s.writer.pcs[w + 2].Idle? ==> s.jobs[w].Waiting?)
    && (s.writer.stop ==> AllExited(s.jobs))
  }

  /** A job may go wherever it likes as long as it is not in the writer. */
  lemma JobMoves(s: System, w: nat, j: Job)
    requires WriterInv(s) && w < |s.jobs| && !s.jobs[w].Exited?
    requires s.writer.pcs[w + 2].Idle?
    ensures WriterInv(SetJob(s, w, j)) && !s.writer.stop
  {
    hide BatchProtocol.Inv;
  }

  lemma AddIsTaken(s: State, t: nat, k: Kind, r: Rec)
    requires BatchProtocol.Inv(s) && 2 <= t < |s.pcs| && s.pcs[t].Idle? && !s.stop
    ensures BatchProtocol.Step(s, t, Add(k, r))
         == s.(pcs := s.pcs[t := WantAdd(k, r)], given := s.given.With(k, s.given.Get(k) + multiset{r}))
  {
    hide Inside, Transaction, Acquire, BatchProtocol.Inv, Trio.Get, Trio.With;
  }

  /** A step of the writer that starts no Add: only thread t moves, nothing is given, and an idle client
      stays idle unless it makes a call. */
  lemma WriterMoves(s: State, t: nat, c: Choice)
    requires BatchProtocol.Inv(s) && !c.Add?
    ensures var s' := BatchProtocol.Step(s, t, c);
            && |s'.pcs| == |s.pcs|
            && (forall u :: 0 <= u < |s.pcs| && u != t ==> s'.pcs[u] == s.pcs[u])
            && s'.given == s.given
            && (s'.stop ==> s.stop || (t == CLOSER && c == Close))
            && (2 <= t < |s.pcs| && s.pcs[t].Idle? && Finishing(c) ==> s' == s)
  {
    hide LockInv, AccountInv, SizeInv, CloseInv, Begin, Inside, Transaction, Acquire;
    if Enabled(s, t, c) {
      StepMoves(s, t, c);
      StepLeaves(s, t, c);
    }
  }

  lemma StepLeaves(s: State, t: nat, c: Choice)
    requires Enabled(s, t, c) && !c.Add?
    ensures BatchProtocol.Step(s, t, c).given == s.given
    ensures BatchProtocol.Step(s, t, c).stop ==> s.stop || (t == CLOSER && c == Close)
  {
    hide InsertAll, Trio.Get, Trio.With;
  }

  lemma WriterStepKeeps(s: System, t: nat, c: Choice)
    requires WriterInv(s) && Allowed(s, t, c)
    ensures WriterInv(s.(writer := BatchProtocol.Step(s.writer, t, c)))
  {
    StepKeepsInv(s.writer, t, c);
    WriterMoves(s.writer, t, c);
    hide BatchProtocol.Step, BatchProtocol.Inv;
  }

  // ---------- tags ----------

  function TaskOf(j: Job): Option<Task> {
    match j
    case Ready => None
    case Looking(task) => Some(task)
    case Creating(task) => Some(task)
    case Storing(task, _) => Some(task)
    case Handing(task, _) => Some(task)
    case Waiting(task) => Some(task)
    case Exited => None
  }

  /** A tag a worker holds has the id of the row for the field at hand. */
  ghost predicate JobTagOk(db: TagTable, j: Job) {
    j.Storing? || j.Handing? ==> j.task.todo != [] && TagOf(db, j.task.device, j.task.todo[0].name, j.tag.id)
  }

  ghost predicate TagInv(s: System) {
    && TagCache.TableOk(s.db) && Agrees(s.tags, s.db)
    && forall w :: 0 <= w < |s.jobs| ==> JobTagOk(s.db, s.jobs[w])
  }

  /** Ids once given out stay. */
  ghost predicate Grows(db: TagTable, db': TagTable) {
    forall d, n, i :: TagOf(db, d, n, i) ==> TagOf(db', d, n, i)
  }

  lemma TagsFrame(s: System, s': System, w: nat)
    requires TagInv(s) && w < |s.jobs| == |s'.jobs| && s'.jobs == s.jobs[w := s'.jobs[w]]
    requires TagCache.TableOk(s'.db) && Agrees(s'.tags, s'.db) && Grows(s.db, s'.db)
    requires JobTagOk(s'.db, s'.jobs[w])
    ensures TagInv(s')
  {
    hide TagCache.TableOk, Agrees, TagOf;
    forall v | 0 <= v < |s'.jobs| ensures JobTagOk(s'.db, s'.jobs[v]) {
      if v != w { assert JobTagOk(s.db, s.jobs[v]); }
    }
  }

  lemma MakeKeepsTags(s: System, w: nat, ok: bool)
    requires TagInv(s) && w < |s.jobs| && s.jobs[w].Creating?
    ensures TagInv(Make(s, w, s.jobs[w].task, ok)) && Grows(s.db, Make(s, w, s.jobs[w].task, ok).db)
  {
    hide DataTypeOf, Upsert, TagOf, TagCache.TableOk, Agrees, Mark;
    var task := s.jobs[w].task;
    if task.todo != [] && ok {
      UpsertKeepsIds(s.db, task.device, task.todo[0].name, DataTypeOf(task.todo[0].value));
      UpsertKeepsAgreement(s.tags, s.db, task.device, task.todo[0].name, DataTypeOf(task.todo[0].value));
    }
    TagsFrame(s, Make(s, w, task, ok), w);
  }

  lemma StoreKeepsTags(s: System, w: nat)
    requires TagInv(s) && w < |s.jobs| && s.jobs[w].Storing?
    ensures TagInv(Save(s, w, s.jobs[w].task, s.jobs[w].tag))
  {
    hide StoreTag, TagOf, TagCache.TableOk, Agrees;
    var task, tag := s.jobs[w].task, s.jobs[w].tag;
    assert JobTagOk(s.db, s.jobs[w]);
    StoreKeepsAgreement(s.tags, s.db, task.device, task.todo[0].name, tag);
    TagsFrame(s, Save(s, w, task, tag), w);
  }

  lemma LookKeepsTags(s: System, w: nat)
    requires TagInv(s) && w < |s.jobs| && s.jobs[w].Looking?
    ensures TagInv(Look(s, w, s.jobs[w].task))
  {
    hide FindTag, TagOf, TagCache.TableOk, Mark;
    TagsFrame(s, Look(s, w, s.jobs[w].task), w);
  }

  // ---------- the fates of fields ----------

  /** The i-th field of the message came to the end recorded for it, with the right tag and record. */
  ghost predicate FateOk(db: TagTable, o: Opening, i: nat)
    requires o.msg.body.Some? && i < |o.fates| <= |o.msg.body.value|
  {
    var f := o.msg.body.value[i];
    match o.fates[i]
    case Timestamp => f.name == "ts"
    case NoTag => f.name != "ts"
    case Refused(tag) => f.name != "ts" && TagOf(db, o.device, f.name, tag.id) && Route(tag.dataType, f.value).Reject?
    case Stored(tag, k, rec) =>
      && f.name != "ts" && TagOf(db, o.device, f.name, tag.id)
      && Route(tag.dataType, f.value).Accept?
      && Route(tag.dataType, f.value).k == k
      && rec == Rec(Key(tag.id, o.msg.ts), Route(tag.dataType, f.value).value)
  }

  ghost predicate OpeningOk(s: System, o: Opening) {
    && o.msg.lsid != 0 && o.msg.lsid in s.devices && o.device == s.devices[o.msg.lsid]
    && o.msg.body.Some?
    && |o.fates| <= |o.msg.body.value|
    && forall i :: 0 <= i < |o.fates| ==> FateOk(s.db, o, i)
  }

  ghost predicate Complete(o: Opening) {
    o.msg.body.Some? && |o.fates| == |o.msg.body.value|
  }

  /** A worker is where its opening says: the fields not yet walked are those still to do. */
  ghost predicate TaskOk(s: System, t: Task) {
    && t.n < |s.openings|
    && s.openings[t.n].msg == t.msg && s.openings[t.n].device == t.device
    && t.msg.body.Some?
    && |s.openings[t.n].fates| <= |t.msg.body.value|
    && t.todo == t.msg.body.value[|s.openings[t.n].fates|..]
  }

  ghost predicate Held(s: System, n: nat) {
    exists w :: 0 <= w < |s.jobs| && TaskOf(s.jobs[w]).Some? && TaskOf(s.jobs[w]).value.n == n
  }

  /** In a job that is past the lookup there is a field at hand, and it is not the timestamp. */
  ghost predicate AtField(j: Job) {
    (j.Creating? || j.Storing? || j.Handing?) ==> j.task.todo != [] && j.task.todo[0].name != "ts"
  }

  ghost predicate TaskInv(s: System) {
    && (forall w :: 0 <= w < |s.jobs| && TaskOf(s.jobs[w]).Some? ==> TaskOk(s, TaskOf(s.jobs[w]).value))
    && (forall w :: 0 <= w < |s.jobs| ==> AtField(s.jobs[w]))
    && (forall v, w :: 0 <= v < w < |s.jobs| && TaskOf(s.jobs[v]).Some? && TaskOf(s.jobs[w]).Some? ==>
          TaskOf(s.jobs[v]).value.n != TaskOf(s.jobs[w]).value.n)
    && (forall n :: 0 <= n < |s.openings| ==> OpeningOk(s, s.openings[n]))
    && (forall n: nat :: n < |s.openings| && !Held(s, n) ==> Complete(s.openings[n]))
  }

  /** An opening that was held still is, unless the worker that moved let go of it. */
  lemma HeldStays(s: System, s': System, w: nat, n: nat)
    requires w < |s.jobs| == |s'.jobs| && s'.jobs == s.jobs[w := s'.jobs[w]]
    requires Held(s, n)
    ensures Held(s', n) || (TaskOf(s.jobs[w]).Some? && TaskOf(s.jobs[w]).value.n == n)
    ensures TaskOf(s'.jobs[w]).Some? && TaskOf(s'.jobs[w]).value.n == n ==> Held(s', n)
  {
    hide TaskOf;
    var v :| 0 <= v < |s.jobs| && TaskOf(s.jobs[v]).Some? && TaskOf(s.jobs[v]).value.n == n;
    if v != w {
      assert s'.jobs[v] == s.jobs[v];
    }
  }

  lemma FateOkGrows(db: TagTable, db': TagTable, o: Opening, i: nat)
    requires o.msg.body.Some? && i < |o.fates| <= |o.msg.body.value|
    requires FateOk(db, o, i) && Grows(db, db')
    ensures FateOk(db', o, i)
  {
    hide TagOf, Route;
  }

  lemma OpeningOkGrows(s: System, s': System, o: Opening)
    requires OpeningOk(s, o) && Grows(s.db, s'.db) && s.devices == s'.devices
    ensures OpeningOk(s', o)
  {
    hide FateOk, Grows;
    forall i | 0 <= i < |o.fates| ensures FateOk(s'.db, o, i) {
      FateOkGrows(s.db, s'.db, o, i);
    }
  }

  /** The job changes, its task and the openings do not. */
  lemma TaskStays(s: System, s': System, w: nat)
    requires TaskInv(s) && w < |s.jobs| == |s'.jobs|
    requires s'.jobs == s.jobs[w := s'.jobs[w]] && s'.openings == s.openings && s'.devices == s.devices
    requires Grows(s.db, s'.db)
    requires TaskOf(s'.jobs[w]) == TaskOf(s.jobs[w]) && AtField(s'.jobs[w])
    ensures TaskInv(s')
  {
    hide TaskOf, AtField, OpeningOk, Complete, Grows;
    forall n | 0 <= n < |s'.openings| ensures OpeningOk(s', s'.openings[n]) {
      OpeningOkGrows(s, s', s.openings[n]);
    }
    forall n: nat | n < |s'.openings| ensures Held(s', n) || Complete(s'.openings[n]) {
      if Held(s, n) { HeldStays(s, s', w, n); }
    }
  }

  /** The field at hand gets its fate and the worker moves to the next one. */
  lemma TaskAdvances(s: System, s': System, w: nat, task: Task, f: Fate)
    requires TaskInv(s) && w < |s.jobs| == |s'.jobs| && TaskOf(s.jobs[w]) == Some(task) && task.todo != []
    requires s'.jobs == s.jobs[w := s'.jobs[w]] && s'.openings == Mark(s.openings, task.n, f)
    requires s'.devices == s.devices && s'.db == s.db
    requires TaskOf(s'.jobs[w]) == Some(Rest(task)) && AtField(s'.jobs[w])
    requires var o := Opening(task.msg, task.device, s.openings[task.n].fates + [f]);
             task.n < |s.openings| && (TaskOk(s, task) ==> FateOk(s.db, o, |o.fates| - 1))
    ensures TaskInv(s')
  {
    hide TaskOf, AtField, TagOf, Route;
    assert TaskOk(s, task);
    var o, o' := s.openings[task.n], s'.openings[task.n];
    forall i | 0 <= i < |o'.fates| ensures FateOk(s'.db, o', i) {
      if i < |o.fates| { assert FateOk(s.db, o, i); }
    }
    hide FateOk;
    assert OpeningOk(s', o');
    forall n | 0 <= n < |s'.openings| ensures OpeningOk(s', s'.openings[n]) {
      assert OpeningOk(s, s.openings[n]);
    }
    hide OpeningOk;
    forall v | 0 <= v < |s'.jobs| && TaskOf(s'.jobs[v]).Some? ensures TaskOk(s', TaskOf(s'.jobs[v]).value) {
      if v != w { assert TaskOk(s, TaskOf(s.jobs[v]).value); }
    }
    forall n: nat | n < |s'.openings| ensures Held(s', n) || Complete(s'.openings[n]) {
      if Held(s, n) {
        HeldStays(s, s', w, n);
      } else {
        assert n != task.n;
      }
    }
  }

  /** A worker lets go of a finished task, or of none. */
  lemma TaskEnds(s: System, s': System, w: nat)
    requires TaskInv(s) && w < |s.jobs| == |s'.jobs|
    requires TaskOf(s.jobs[w]).Some? ==> TaskOf(s.jobs[w]).value.todo == []
    requires s'.jobs == s.jobs[w := s'.jobs[w]] && s'.openings == s.openings
    requires s'.devices == s.devices && s'.db == s.db
    requires TaskOf(s'.jobs[w]) == None && AtField(s'.jobs[w])
    ensures TaskInv(s')
  {
    hide TaskOf, AtField, FateOk;
    forall n | 0 <= n < |s'.openings| ensures OpeningOk(s', s'.openings[n]) {
      assert OpeningOk(s, s.openings[n]);
    }
    hide OpeningOk;
    forall n: nat | n < |s'.openings| ensures Held(s', n) || Complete(s'.openings[n]) {
      if Held(s, n) {
        HeldStays(s, s', w, n);
        assert TaskOf(s.jobs[w]).Some? ==> TaskOk(s, TaskOf(s.jobs[w]).value);
      }
    }
  }

  lemma TaskOpens(s: System, s': System, w: nat, m: Msg)
    requires TaskInv(s) && w < |s.jobs| == |s'.jobs| && TaskOf(s.jobs[w]) == None
    requires m.lsid != 0 && m.lsid in s.devices && m.body.Some?
    requires s'.jobs == s.jobs[w := Looking(Task(|s.openings|, m, s.devices[m.lsid], m.body.value))]
    requires s'.openings == s.openings + [Opening(m, s.devices[m.lsid], [])]
    requires s'.devices == s.devices && s'.db == s.db
    ensures TaskInv(s')
  {
    hide FateOk;
    forall n | 0 <= n < |s'.openings| ensures OpeningOk(s', s'.openings[n]) {
      if n < |s.openings| { assert OpeningOk(s, s.openings[n]); }
    }
    hide OpeningOk;
    var task := Task(|s.openings|, m, s.devices[m.lsid], m.body.value);
    assert TaskOf(s'.jobs[w]) == Some(task);
    hide TaskOf;
    forall v | 0 <= v < |s'.jobs| && TaskOf(s'.jobs[v]).Some? ensures TaskOk(s', TaskOf(s'.jobs[v]).value) {
      if v != w { assert TaskOk(s, TaskOf(s.jobs[v]).value); }
    }
    forall n: nat | n < |s'.openings| ensures Held(s', n) || Complete(s'.openings[n]) {
      if n < |s.openings| && Held(s, n) { HeldStays(s, s', w, n); }
    }
  }

  // ---------- counting messages and records ----------

  function Busy(jobs: seq<Job>): nat {
    if jobs == [] then 0 else Busy(jobs[1..]) + (if TaskOf(jobs[0]).Some? then 1 else 0)
  }

  lemma {:induction false} BusyMoves(jobs: seq<Job>, w: nat, j: Job)
    requires w < |jobs|
    ensures Busy(jobs[w := j]) + (if TaskOf(jobs[w]).Some? then 1 else 0)
         == Busy(jobs) + (if TaskOf(j).Some? then 1 else 0)
  {
    hide TaskOf;
    if w == 0 {
      assert jobs[w := j][1..] == jobs[1..];
    } else {
      BusyMoves(jobs[1..], w - 1, j);
      assert jobs[w := j][1..] == jobs[1..][w - 1 := j];
    }
  }

  lemma {:induction false} NobodyBusy(jobs: seq<Job>)
    requires forall w :: 0 <= w < |jobs| ==> TaskOf(jobs[w]) == None
    ensures Busy(jobs) == 0
  {
    if jobs != [] {
      NobodyBusy(jobs[1..]);
    }
  }

  function Of(ms: seq<Msg>, m: Msg): nat { multiset(ms)[m] }

  lemma OfAppend(a: seq<Msg>, b: seq<Msg>, m: Msg)
    ensures Of(a + b, m) == Of(a, m) + Of(b, m)
  {
  }

  lemma OfHead(ms: seq<Msg>, m: Msg)
    requires ms != []
    ensures Of(ms, m) == Of([ms[0]], m) + Of(ms[1..], m)
  {
    assert ms == [ms[0]] + ms[1..];
    OfAppend([ms[0]], ms[1..], m);
  }

  function Opened(openings: seq<Opening>): (ms: seq<Msg>)
    ensures |ms| == |openings| && forall i :: 0 <= i < |ms| ==> ms[i] == openings[i].msg
  {
    seq(|openings|, i requires 0 <= i < |openings| => openings[i].msg)
  }

  /** Every message submitted is in exactly one place, and the two counters say how many there are of each. */
  ghost predicate CountInv(s: System) {
    && s.errors == |s.failed|
    && s.processed + Busy(s.jobs) == |s.openings| + |s.orphaned|
    && (!s.live ==> s.orphaned == [])
    && forall m: Msg :: Of(s.submitted, m) == Of(s.chan, m) + Of(s.failed, m) + Of(s.orphaned, m) + Of(Opened(s.openings), m)
  }

  ghost predicate ExitInv(s: System) {
    (exists w :: 0 <= w < |s.jobs| && s.jobs[w].Exited?) ==> s.closed && s.chan == []
  }

  function Hit(f: Fate, k: Kind, r: Rec): nat { if f.Stored? && f.k == k && f.rec == r then 1 else 0 }

  function StoredIn(fates: seq<Fate>, k: Kind, r: Rec): nat {
    if fates == [] then 0 else StoredIn(fates[..|fates| - 1], k, r) + Hit(fates[|fates| - 1], k, r)
  }

  /** How many fields ended as the record r of kind k. */
  function AllStored(openings: seq<Opening>, k: Kind, r: Rec): nat {
    if openings == [] then 0
    else AllStored(openings[..|openings| - 1], k, r) + StoredIn(openings[|openings| - 1].fates, k, r)
  }

  lemma {:induction false} MarkStored(openings: seq<Opening>, n: nat, f: Fate, k: Kind, r: Rec)
    requires n < |openings|
    ensures AllStored(Mark(openings, n, f), k, r) == AllStored(openings, k, r) + Hit(f, k, r)
    decreases |openings|
  {
    hide Hit;
    var last := |openings| - 1;
    var marked := Mark(openings, n, f);
    if n == last {
      assert marked[..last] == openings[..last];
      assert marked[last].fates[..|marked[last].fates| - 1] == openings[last].fates;
    } else {
      assert marked[..last] == Mark(openings[..last], n, f);
      MarkStored(openings[..last], n, f, k, r);
    }
  }

  lemma OpenStored(openings: seq<Opening>, o: Opening, k: Kind, r: Rec)
    requires o.fates == []
    ensures AllStored(openings + [o], k, r) == AllStored(openings, k, r)
  {
    assert (openings + [o])[..|openings|] == openings;
  }

  /** What was given to the writer is what the fields came to. */
  ghost predicate GivenInv(s: System) {
    forall k: Kind, r: Rec :: s.writer.given.Get(k)[r] == AllStored(s.openings, k, r)
  }

  ghost predicate Inv(s: System) {
    WriterInv(s) && TagInv(s) && TaskInv(s) && CountInv(s) && ExitInv(s) && GivenInv(s)
  }

  // ---------- every step keeps all of it ----------

  /** A job changes and no message or record moves. */
  lemma CountsFrame(s: System, s': System, w: nat)
    requires CountInv(s) && w < |s.jobs| == |s'.jobs| && s'.jobs == s.jobs[w := s'.jobs[w]]
    requires TaskOf(s'.jobs[w]).Some? == TaskOf(s.jobs[w]).Some?
    requires s'.errors == s.errors && s'.processed == s.processed && s'.live == s.live
    requires s'.submitted == s.submitted && s'.chan == s.chan && s'.failed == s.failed && s'.orphaned == s.orphaned
    requires Opened(s'.openings) == Opened(s.openings)
    ensures CountInv(s')
  {
    hide TaskOf, Of, Opened;
    BusyMoves(s.jobs, w, s'.jobs[w]);
    assert |s'.openings| == |Opened(s'.openings)| == |Opened(s.openings)| == |s.openings|;
  }

  lemma MarkOpened(openings: seq<Opening>, n: nat, f: Fate)
    ensures Opened(Mark(openings, n, f)) == Opened(openings)
  {
  }

  /** The field at hand comes to an end that stores nothing. */
  lemma FieldEnds(s: System, w: nat, task: Task, f: Fate)
    requires Inv(s) && w < |s.jobs| && TaskOf(s.jobs[w]) == Some(task) && task.todo != [] && !s.jobs[w].Waiting?
    requires !f.Stored?
    requires TaskOk(s, task) ==>
               FateOk(s.db, Opening(task.msg, task.device, s.openings[task.n].fates + [f]), |s.openings[task.n].fates|)
    ensures Inv(NextField(s, w, task, f))
  {
    hide BatchProtocol.Inv, TagCache.TableOk, Agrees, FateOk, OpeningOk;
    var s' := NextField(s, w, task, f);
    assert TaskOk(s, task);
    assert JobTagOk(s'.db, s'.jobs[w]);
    JobMoves(s, w, Looking(Rest(task)));
    TagsFrame(s, s', w);
    TaskAdvances(s, s', w, task, f);
    MarkOpened(s.openings, task.n, f);
    CountsFrame(s, s', w);
    forall k: Kind, r: Rec ensures s'.writer.given.Get(k)[r] == AllStored(s'.openings, k, r) {
      MarkStored(s.openings, task.n, f, k, r);
    }
    hide TaskInv, TagInv, CountInv, AllStored;
  }

  /** A worker goes on with the field at hand. */
  lemma JobChanges(s: System, s': System, w: nat, j: Job)
    requires Inv(s) && w < |s.jobs| && TaskOf(s.jobs[w]).Some? && TaskOf(j) == TaskOf(s.jobs[w]) && AtField(j)
    requires s.jobs[w].Waiting? ==> s.writer.pcs[w + 2].Idle?
    requires s' == SetJob(s, w, j).(tags := s'.tags, db := s'.db)
    requires TagInv(s') && Grows(s.db, s'.db)
    ensures Inv(s')
  {
    hide BatchProtocol.Inv, TagInv, Grows, TaskOf, AtField, AllStored, Opened;
    JobMoves(s, w, j) by { ExitedHasNoTask(s.jobs[w]); }
    TaskStays(s, s', w);
    CountsFrame(s, s', w);
    ExitedHasNoTask(j);
    hide TaskInv, CountInv;
  }

  lemma ExitedHasNoTask(j: Job)
    ensures TaskOf(j).Some? ==> !j.Exited? && !j.Ready?
  {
  }

  lemma LookKeepsInv(s: System, w: nat)
    requires Inv(s) && w < |s.jobs| && s.jobs[w].Looking?
    ensures Inv(Look(s, w, s.jobs[w].task))
  {
    hide WriterInv, TagInv, TaskInv, CountInv, ExitInv, GivenInv, Grows, FindTag, TaskOk, FateOk, Mark;
    var task := s.jobs[w].task;
    var s' := Look(s, w, task);
    if task.todo == [] {
      FinishKeepsInv(s, w);
    } else if task.todo[0].name == "ts" {
      FateTimestamp(s, task);
      FieldEnds(s, w, task, Timestamp);
    } else {
      LookKeepsTags(s, w);
      GrowsRefl(s.db);
      JobChanges(s, s', w, s'.jobs[w]);
    }
  }

  lemma GrowsRefl(db: TagTable)
    ensures Grows(db, db)
  {
  }

  lemma FateTimestamp(s: System, task: Task)
    requires task.todo != [] && task.todo[0].name == "ts"
    ensures TaskOk(s, task) ==>
      FateOk(s.db, Opening(task.msg, task.device, s.openings[task.n].fates + [Timestamp]), |s.openings[task.n].fates|)
  {
  }

  lemma FinishKeepsInv(s: System, w: nat)
    requires Inv(s) && w < |s.jobs| && s.jobs[w].Looking? && s.jobs[w].task.todo == []
    ensures Inv(Look(s, w, s.jobs[w].task))
  {
    hide BatchProtocol.Inv, TagCache.TableOk, Agrees, AllStored, Opened, Of, OpeningOk;
    var s' := Look(s, w, s.jobs[w].task);
    JobMoves(s, w, Ready);
    TagsFrame(s, s', w);
    TaskEnds(s, s', w);
    BusyMoves(s.jobs, w, Ready);
    hide TaskInv, TagInv;
  }

  lemma MakeKeepsInv(s: System, w: nat, ok: bool)
    requires Inv(s) && w < |s.jobs| && s.jobs[w].Creating?
    ensures Inv(Make(s, w, s.jobs[w].task, ok))
  {
    hide WriterInv, TagInv, CountInv, ExitInv, GivenInv, Grows, Upsert, FateOk, TaskOk, OpeningOk, Complete, DataTypeOf, Mark;
    var task := s.jobs[w].task;
    assert AtField(s.jobs[w]);
    hide TaskInv;
    if ok {
      MakeKeepsTags(s, w, true);
      var s' := Make(s, w, task, true);
      JobChanges(s, s', w, s'.jobs[w]);
    } else {
      FateNoTag(s, task);
      FieldEnds(s, w, task, NoTag);
    }
  }

  lemma FateNoTag(s: System, task: Task)
    requires task.todo != [] && task.todo[0].name != "ts"
    ensures TaskOk(s, task) ==>
      FateOk(s.db, Opening(task.msg, task.device, s.openings[task.n].fates + [NoTag]), |s.openings[task.n].fates|)
  {
  }

  lemma SaveKeepsInv(s: System, w: nat)
    requires Inv(s) && w < |s.jobs| && s.jobs[w].Storing?
    ensures Inv(Save(s, w, s.jobs[w].task, s.jobs[w].tag))
  {
    hide WriterInv, TagInv, CountInv, ExitInv, GivenInv, Grows, StoreTag, OpeningOk, Complete;
    assert AtField(s.jobs[w]);
    hide TaskInv;
    var s' := Save(s, w, s.jobs[w].task, s.jobs[w].tag);
    StoreKeepsTags(s, w);
    GrowsRefl(s.db);
    JobChanges(s, s', w, s'.jobs[w]);
  }

  lemma ReturnKeepsInv(s: System, w: nat)
    requires Inv(s) && w < |s.jobs| && s.jobs[w].Waiting?
    ensures Inv(Return(s, w, s.jobs[w].task))
  {
    hide BatchProtocol.Inv, TagCache.TableOk, Agrees, TaskInv, CountInv, ExitInv, GivenInv, Grows;
    var s' := Return(s, w, s.jobs[w].task);
    if s.writer.pcs[w + 2].Idle? {
      TagsFrame(s, s', w) by { GrowsRefl(s.db); }
      GrowsRefl(s.db);
      hide TagInv;
      JobChanges(s, s', w, s'.jobs[w]);
    }
  }

  lemma FateWithTag(s: System, task: Task, tag: Tag, f: Fate)
    requires task.todo != [] && task.todo[0].name != "ts"
    requires TagOf(s.db, task.device, task.todo[0].name, tag.id)
    requires match Route(tag.dataType, task.todo[0].value)
             case Reject => f == Refused(tag)
             case Accept(k, v) => f == Stored(tag, k, Rec(Key(tag.id, task.msg.ts), v))
    ensures TaskOk(s, task) ==>
      FateOk(s.db, Opening(task.msg, task.device, s.openings[task.n].fates + [f]), |s.openings[task.n].fates|)
  {
    hide Route, TagOf;
  }

  lemma HandKeepsInv(s: System, w: nat)
    requires Inv(s) && w < |s.jobs| && s.jobs[w].Handing?
    ensures Inv(Hand(s, w, s.jobs[w].task, s.jobs[w].tag))
  {
    hide WriterInv, CountInv, ExitInv, GivenInv, FateOk, OpeningOk, Complete, TaskOk, TagOf, TagCache.TableOk, Agrees, Route,
         BatchProtocol.Step, Mark;
    var task, tag := s.jobs[w].task, s.jobs[w].tag;
    assert AtField(s.jobs[w]) && JobTagOk(s.db, s.jobs[w]);
    hide TaskInv, TagInv;
    match Route(tag.dataType, task.todo[0].value)
    case Reject =>
      FateWithTag(s, task, tag, Refused(tag));
      FieldEnds(s, w, task, Refused(tag));
    case Accept(k, v) =>
      AcceptKeepsInv(s, w, k, v);
  }

  /** The call of the writer begins: the thread waits for the mutex and the record is given. */
  lemma HandingOver(s: System, w: nat, k: Kind, v: Value)
    requires WriterInv(s) && w < |s.jobs| && s.jobs[w].Handing? && s.jobs[w].task.todo != []
    requires Route(s.jobs[w].tag.dataType, s.jobs[w].task.todo[0].value) == Accept(k, v)
    ensures WriterInv(Hand(s, w, s.jobs[w].task, s.jobs[w].tag))
    ensures Hand(s, w, s.jobs[w].task, s.jobs[w].tag).writer.given
         == s.writer.given.With(k, s.writer.given.Get(k)
                                   + multiset{Rec(Key(s.jobs[w].tag.id, s.jobs[w].task.msg.ts), v)})
  {
    hide BatchProtocol.Inv, BatchProtocol.Step, Route, Mark, Trio.Get, Trio.With;
    var task, tag := s.jobs[w].task, s.jobs[w].tag;
    var rec := Rec(Key(tag.id, task.msg.ts), v);
    JobMoves(s, w, Waiting(Rest(task)));
    AddIsTaken(s.writer, w + 2, k, rec);
    StepKeepsInv(s.writer, w + 2, Add(k, rec));
  }

  lemma AcceptKeepsGiven(s: System, s': System, n: nat, tag: Tag, k: Kind, rec: Rec)
    requires GivenInv(s) && n < |s.openings|
    requires s'.openings == Mark(s.openings, n, Stored(tag, k, rec))
    requires s'.writer.given == s.writer.given.With(k, s.writer.given.Get(k) + multiset{rec})
    ensures GivenInv(s')
  {
    hide AllStored, Mark, Trio.Get, Trio.With;
    forall k': Kind, r: Rec ensures s'.writer.given.Get(k')[r] == AllStored(s'.openings, k', r) {
      MarkStored(s.openings, n, Stored(tag, k, rec), k', r);
      GivenAfterAdd(s.writer.given, k, rec, k', r);
    }
  }

  lemma AcceptKeepsInv(s: System, w: nat, k: Kind, v: Value)
    requires Inv(s) && w < |s.jobs| && s.jobs[w].Handing? && s.jobs[w].task.todo != []
    requires Route(s.jobs[w].tag.dataType, s.jobs[w].task.todo[0].value) == Accept(k, v)
    ensures Inv(Hand(s, w, s.jobs[w].task, s.jobs[w].tag))
  {
    hide WriterInv, GivenInv, TagCache.TableOk, Agrees, FateOk, OpeningOk, TagOf, BatchProtocol.Step, Route, Complete;
    var task, tag := s.jobs[w].task, s.jobs[w].tag;
    var rec := Rec(Key(tag.id, task.msg.ts), v);
    var f := Stored(tag, k, rec);
    var s' := Hand(s, w, task, tag);
    assert AtField(s.jobs[w]) && JobTagOk(s.db, s.jobs[w]) && TaskOk(s, task);
    HandingOver(s, w, k, v);
    AcceptKeepsGiven(s, s', task.n, tag, k, rec);
    TagsFrame(s, s', w) by { GrowsRefl(s.db); }
    FateWithTag(s, task, tag, f);
    TaskAdvances(s, s', w, task, f);
    MarkOpened(s.openings, task.n, f);
    CountsFrame(s, s', w);
  }

  lemma GivenAfterAdd(given: Trio<multiset<Rec>>, k: Kind, rec: Rec, k': Kind, r: Rec)
    ensures given.With(k, given.Get(k) + multiset{rec}).Get(k')[r]
         == given.Get(k')[r] + if k == k' && rec == r then 1 else 0
  {
    hide Trio.Get, Trio.With;
  }

  lemma ReceiveKeepsCounts(s: System, w: nat, ok: bool)
    requires CountInv(s) && w < |s.jobs| && s.jobs[w].Ready?
    ensures CountInv(Receive(s, w, ok))
  {
    hide Of, Opened;
    var s' := Receive(s, w, ok);
    BusyMoves(s.jobs, w, s'.jobs[w]);
    forall m: Msg
      ensures Of(s'.submitted, m) == Of(s'.chan, m) + Of(s'.failed, m) + Of(s'.orphaned, m) + Of(Opened(s'.openings), m)
    {
      if s.chan != [] {
        OfHead(s.chan, m);
        OfAppend(s.failed, [s.chan[0]], m);
        OfAppend(s.orphaned, [s.chan[0]], m);
        if |s'.openings| > |s.openings| {
          OfAppend(Opened(s.openings), [s.chan[0]], m);
          assert Opened(s'.openings) == Opened(s.openings) + [s.chan[0]];
        }
      }
    }
  }

  /** The fields of a message are opened. */
  lemma OpenKeepsInv(s: System, w: nat, ok: bool)
    requires Inv(s) && w < |s.jobs| && s.jobs[w].Ready? && |Receive(s, w, ok).openings| > |s.openings|
    ensures Inv(Receive(s, w, ok))
  {
    hide BatchProtocol.Inv, TagCache.TableOk, Agrees, Opened, Of, OpeningOk, FateOk, TaskOk, Complete, AllStored;
    var s' := Receive(s, w, ok);
    ReceiveKeepsCounts(s, w, ok);
    JobMoves(s, w, s'.jobs[w]);
    TagsFrame(s, s', w) by { GrowsRefl(s.db); }
    hide TagInv, CountInv, WriterInv;
    TaskOpens(s, s', w, s.chan[0]);
    hide TaskInv;
    forall k: Kind, r: Rec ensures s'.writer.given.Get(k)[r] == AllStored(s'.openings, k, r) {
      OpenStored(s.openings, s'.openings[|s.openings|], k, r);
    }
  }

  lemma ReceiveKeepsInv(s: System, w: nat, ok: bool)
    requires Inv(s) && w < |s.jobs| && s.jobs[w].Ready?
    ensures Inv(Receive(s, w, ok))
  {
    hide BatchProtocol.Inv, TagCache.TableOk, Agrees, Opened, Of, OpeningOk, FateOk, TaskOk, Complete, AllStored;
    var s' := Receive(s, w, ok);
    if |s'.openings| > |s.openings| {
      OpenKeepsInv(s, w, ok);
    } else {
      ReceiveKeepsCounts(s, w, ok);
      JobMoves(s, w, s'.jobs[w]);
      TagsFrame(s, s', w) by { GrowsRefl(s.db); }
      TaskEnds(s, s', w);
      hide TagInv, CountInv, TaskInv;
    }
  }

  lemma WorkKeepsInv(s: System, w: nat, ok: bool)
    requires Inv(s) && w < |s.jobs|
    ensures Inv(WorkStep(s, w, ok))
  {
    hide Inv, Receive, Look, Make, Save, Hand, Return;
    match s.jobs[w] {
      case Ready => ReceiveKeepsInv(s, w, ok);
      case Looking(_) => LookKeepsInv(s, w);
      case Creating(_) => MakeKeepsInv(s, w, ok);
      case Storing(_, _) => SaveKeepsInv(s, w);
      case Handing(_, _) => HandKeepsInv(s, w);
      case Waiting(_) => ReturnKeepsInv(s, w);
      case Exited =>
    }
  }

  lemma SubmitKeepsInv(s: System, m: Msg)
    requires Inv(s)
    ensures Inv(Step(s, Submit(m)))
  {
    hide BatchProtocol.Inv, TagInv, TaskInv, WriterInv, Opened, Of;
    var s' := Step(s, Submit(m));
    TagAndTaskFrame(s, s');
    forall x: Msg
      ensures Of(s'.submitted, x)
           == Of(s'.chan, x) + Of(s'.failed, x) + Of(s'.orphaned, x) + Of(Opened(s'.openings), x)
    {
      OfAppend(s.chan, [m], x);
      OfAppend(s.submitted, [m], x);
    }
  }

  /** Nothing that these three speak of has changed. */
  lemma TagAndTaskFrame(s: System, s': System)
    requires TagInv(s) && TaskInv(s) && WriterInv(s)
    requires s'.jobs == s.jobs && s'.tags == s.tags && s'.db == s.db && s'.openings == s.openings
    requires s'.devices == s.devices
    ensures TagInv(s') && TaskInv(s') && (s'.writer == s.writer ==> WriterInv(s'))
  {
    hide TaskOf, AtField, FateOk, Complete, JobTagOk, TagCache.TableOk, Agrees, BatchProtocol.Inv;
    forall n | 0 <= n < |s.openings| ensures OpeningOk(s', s.openings[n]) {
      assert OpeningOk(s, s.openings[n]);
    }
    hide OpeningOk;
    forall n: nat | n < |s.openings| ensures Held(s', n) || Complete(s.openings[n]) {
      if Held(s, n) {
        var w :| 0 <= w < |s.jobs| && TaskOf(s.jobs[w]).Some? && TaskOf(s.jobs[w]).value.n == n;
        assert s'.jobs[w] == s.jobs[w];
      }
    }
  }

  lemma ShutdownKeepsInv(s: System)
    requires Inv(s)
    ensures Inv(s.(closed := true))
  {
    hide BatchProtocol.Inv, TagInv, TaskInv, WriterInv, Opened, Of;
    TagAndTaskFrame(s, s.(closed := true));
  }

  lemma WriterKeepsInv(s: System, t: nat, c: Choice)
    requires Inv(s) && Allowed(s, t, c)
    ensures Inv(s.(writer := BatchProtocol.Step(s.writer, t, c)))
  {
    WriterStepKeeps(s, t, c);
    hide BatchProtocol.Step, TagInv, TaskInv, Opened, Of, Enabled;
    WriterMoves(s.writer, t, c);
    TagAndTaskFrame(s, s.(writer := BatchProtocol.Step(s.writer, t, c)));
    hide BatchProtocol.Inv, Allowed;
  }

  lemma StepKeepsAll(s: System, a: Act)
    requires Inv(s)
    ensures Inv(Step(s, a))
  {
    hide Inv, WorkStep, BatchProtocol.Step, Allowed;
    match a {
      case Submit(m) => SubmitKeepsInv(s, m);
      case Shutdown => ShutdownKeepsInv(s);
      case Work(w, ok) => if w < |s.jobs| { WorkKeepsInv(s, w, ok); }
      case Writer(t, c) => if Allowed(s, t, c) { WriterKeepsInv(s, t, c); }
    }
  }

  lemma {:induction false} RunKeepsInv(s: System, acts: seq<Act>)
    requires Inv(s)
    ensures Inv(Run(s, acts))
    decreases |acts|
  {
    hide Inv, Step;
    if acts != [] {
      RunKeepsInv(s, acts[..|acts| - 1]);
      StepKeepsAll(Run(s, acts[..|acts| - 1]), acts[|acts| - 1]);
    }
  }

  lemma StartInv(live: bool, devices: map<int, int>, workers: nat, flushSize: nat,
                 tags: map<string, Tag>, db: TagTable, start: Trio<Table>)
    requires TagCache.TableOk(db) && Agrees(tags, db)
    ensures Inv(Start(live, devices, workers, flushSize, tags, db, start))
  {
    var s := Start(live, devices, workers, flushSize, tags, db, start);
    InitInv(start, flushSize, workers);
    NobodyBusy(s.jobs);
    hide BatchProtocol.Inv, TagCache.TableOk, Agrees;
    assert Opened([]) == [];
  }

  // ---------- what the service promises ----------

  /** In every run each cached tag carries the id of the one row for its device and name. */
  lemma CacheAgreesWithDatabase(live: bool, devices: map<int, int>, workers: nat, flushSize: nat,
                                tags: map<string, Tag>, db: TagTable, start: Trio<Table>, acts: seq<Act>,
                                device: int, name: string)
    requires TagCache.TableOk(db) && Agrees(tags, db)
    ensures var s := Run(Start(live, devices, workers, flushSize, tags, db, start), acts);
            && TagCache.TableOk(s.db)
            && (FindTag(s.tags, device, name).Some? ==>
                  (device, name) in s.db.rows && s.db.rows[(device, name)].id == FindTag(s.tags, device, name).value.id)
  {
    StartInv(live, devices, workers, flushSize, tags, db, start);
    RunKeepsInv(Start(live, devices, workers, flushSize, tags, db, start), acts);
    var s := Run(Start(live, devices, workers, flushSize, tags, db, start), acts);
    hide Run, FindTag, WriterInv, TaskInv, CountInv, GivenInv;
    assert Agrees(s.tags, s.db);
  }

  /** Some field of some message came to the record r. */
  ghost predicate CameTo(openings: seq<Opening>, k: Kind, r: Rec) {
    exists n, i :: 0 <= n < |openings| && 0 <= i < |openings[n].fates|
                   && openings[n].fates[i].Stored? && openings[n].fates[i].k == k && openings[n].fates[i].rec == r
  }

  lemma {:induction false} StoredInMeans(fates: seq<Fate>, k: Kind, r: Rec)
    ensures StoredIn(fates, k, r) > 0 <==>
            exists i :: 0 <= i < |fates| && fates[i].Stored? && fates[i].k == k && fates[i].rec == r
    decreases |fates|
  {
    if fates != [] {
      var last := |fates| - 1;
      StoredInMeans(fates[..last], k, r);
      assert forall i | 0 <= i < last :: fates[..last][i] == fates[i];
    }
  }

  lemma {:induction false} AllStoredMeans(openings: seq<Opening>, k: Kind, r: Rec)
    ensures AllStored(openings, k, r) > 0 <==> CameTo(openings, k, r)
    decreases |openings|
  {
    if openings != [] {
      var last := |openings| - 1;
      AllStoredMeans(openings[..last], k, r);
      StoredInMeans(openings[last].fates, k, r);
      hide AllStored, StoredIn;
      assert AllStored(openings, k, r) == AllStored(openings[..last], k, r) + StoredIn(openings[last].fates, k, r) by {
        AllStoredStep(openings, k, r);
      }
      assert forall n | 0 <= n < last :: openings[..last][n] == openings[n];
      if CameTo(openings[..last], k, r) {
        var n, i :| 0 <= n < last && 0 <= i < |openings[..last][n].fates|
                    && openings[..last][n].fates[i].Stored?
                    && openings[..last][n].fates[i].k == k && openings[..last][n].fates[i].rec == r;
        assert openings[n].fates[i].Stored?;
      }
    }
  }

  lemma AllStoredStep(openings: seq<Opening>, k: Kind, r: Rec)
    requires openings != []
    ensures AllStored(openings, k, r)
         == AllStored(openings[..|openings| - 1], k, r) + StoredIn(openings[|openings| - 1].fates, k, r)
  {
  }

  lemma SameCounts(a: seq<Msg>, b: seq<Msg>, c: seq<Msg>, d: seq<Msg>)
    requires forall m: Msg :: Of(a, m) == Of(b, m) + Of(c, m) + Of(d, m)
    ensures multiset(a) == multiset(b + c + d) && |a| == |b| + |c| + |d|
  {
    forall m: Msg ensures multiset(a)[m] == multiset(b + c + d)[m] {
      OfAppend(b, c, m);
      OfAppend(b + c, d, m);
      assert Of(a, m) == multiset(a)[m];
    }
    assert multiset(a) == multiset(b + c + d);
    assert |a| == |multiset(a)| && |b + c + d| == |multiset(b + c + d)|;
  }

  /** After shutdown and Close: no message is left anywhere, every message submitted was handled once and the
      counters add up, and every field of every message opened has met its fate. */
  lemma EverythingHandled(s: System)
    requires Inv(s) && s.writer.pcs[CLOSER].Stopped? && |s.jobs| > 0
    ensures s.chan == [] && AllExited(s.jobs) && Quiet(s.writer)
    ensures multiset(s.submitted) == multiset(s.failed + s.orphaned + Opened(s.openings))
    ensures s.processed + s.errors == |s.submitted|
    ensures forall n :: 0 <= n < |s.openings| ==> Complete(s.openings[n]) && OpeningOk(s, s.openings[n])
  {
    CloseLeavesNothing(s.writer, Numeric);
    assert s.jobs[0].Exited?;
    assert forall w | 0 <= w < |s.jobs| :: TaskOf(s.jobs[w]) == None;
    NobodyBusy(s.jobs);
    hide Of, Opened, OpeningOk, Complete, TaskOf, BatchProtocol.Inv, TagInv, GivenInv;
    forall m: Msg ensures Of(s.submitted, m) == Of(s.failed, m) + Of(s.orphaned, m) + Of(Opened(s.openings), m) {
      OfNone(m);
    }
    SameCounts(s.submitted, s.failed, s.orphaned, Opened(s.openings));
    assert forall n: nat | n < |s.openings| :: !Held(s, n);
  }

  lemma OfNone(m: Msg)
    ensures Of([], m) == 0
  {
  }

  /** Close has returned, and no flush of kind k failed. */
  predicate ClosedCleanly(s: System, k: Kind) {
    CLOSER < |s.writer.pcs| && s.writer.pcs[CLOSER].Stopped? && s.writer.dropped.Get(k) == multiset{}
  }

  /** End to end. With at least one worker, whatever the interleaving, once Close has returned and no flush of
      kind k failed: the messages submitted are those that failed, those orphaned and those opened; every field
      of an opened message came to exactly one end, the recorded one; and the table of kind k has, besides its
      old keys, exactly the keys of the records that fields came to, each with the value of such a record. */
  lemma Drained(live: bool, devices: map<int, int>, workers: nat, flushSize: nat,
                tags: map<string, Tag>, db: TagTable, start: Trio<Table>, acts: seq<Act>, k: Kind, key: Key)
    requires TagCache.TableOk(db) && Agrees(tags, db) && workers > 0
    ensures var s := Run(Start(live, devices, workers, flushSize, tags, db, start), acts);
            ClosedCleanly(s, k) ==>
              && s.chan == []
              && s.processed + s.errors == |s.submitted|
              && multiset(s.submitted) == multiset(s.failed + s.orphaned + Opened(s.openings))
              && (forall n :: 0 <= n < |s.openings| ==> Complete(s.openings[n]) && OpeningOk(s, s.openings[n]))
              && (key in s.writer.table.Get(k) <==>
                    key in start.Get(k) || exists v :: CameTo(s.openings, k, Rec(key, v)))
              && (key in s.writer.table.Get(k) && key !in start.Get(k) ==>
                    CameTo(s.openings, k, Rec(key, s.writer.table.Get(k)[key])))
  {
    var s0 := Start(live, devices, workers, flushSize, tags, db, start);
    var s := Run(s0, acts);
    StartInv(live, devices, workers, flushSize, tags, db, start);
    RunKeepsInv(s0, acts);
    RunFixes(s0, acts);
    if ClosedCleanly(s, k) {
      EverythingHandled(s);
      CloseLeavesNothing(s.writer, k);
      TableHolds(s, k, key);
      hide Run, Inv;
      assert s.writer.start == start;
    }
  }

  /** recs is the list of records of kind k that fields came to, in some order. */
  ghost predicate Lists(recs: seq<Rec>, openings: seq<Opening>, k: Kind) {
    forall r: Rec :: multiset(recs)[r] == AllStored(openings, k, r)
  }

  /** Batching, buffering and interleaving are not visible in the outcome. Under the same conditions the table
      of kind k is the one that inserting the stored records one at a time, in some order, would have made;
      if records with equal keys carry equal values, any order makes it. */
  lemma DrainRefinesInsertion(live: bool, devices: map<int, int>, workers: nat, flushSize: nat,
                              tags: map<string, Tag>, db: TagTable, start: Trio<Table>, acts: seq<Act>, k: Kind)
    requires TagCache.TableOk(db) && Agrees(tags, db) && workers > 0
    ensures var s := Run(Start(live, devices, workers, flushSize, tags, db, start), acts);
            ClosedCleanly(s, k) ==>
              && (exists recs :: Lists(recs, s.openings, k) && s.writer.table.Get(k) == InsertAll(start.Get(k), recs))
              && (forall recs :: Lists(recs, s.openings, k) && Consistent(multiset(recs)) ==>
                    s.writer.table.Get(k) == InsertAll(start.Get(k), recs))
  {
    var s0 := Start(live, devices, workers, flushSize, tags, db, start);
    var s := Run(s0, acts);
    StartInv(live, devices, workers, flushSize, tags, db, start);
    RunKeepsInv(s0, acts);
    RunFixes(s0, acts);
    if ClosedCleanly(s, k) {
      CloseLeavesNothing(s.writer, k);
      LogListsStored(s, k);
      hide Run, Inv;
      assert s.writer.start == start;
      AnyOrderOf(s, k);
    }
  }

  lemma AnyOrderOf(s: System, k: Kind)
    requires Lists(s.writer.log.Get(k), s.openings, k)
    requires s.writer.table.Get(k) == InsertAll(s.writer.start.Get(k), s.writer.log.Get(k))
    ensures forall recs :: Lists(recs, s.openings, k) && Consistent(multiset(recs)) ==>
              s.writer.table.Get(k) == InsertAll(s.writer.start.Get(k), recs)
  {
    hide InsertAll, AllStored, Trio.Get;
    var log := s.writer.log.Get(k);
    forall recs | Lists(recs, s.openings, k) && Consistent(multiset(recs))
      ensures s.writer.table.Get(k) == InsertAll(s.writer.start.Get(k), recs)
    {
      assert multiset(recs) == multiset(log);
      OrderDoesNotMatter(s.writer.start.Get(k), recs, log);
    }
  }

  lemma LogListsStored(s: System, k: Kind)
    requires Inv(s) && s.writer.given.Get(k) == multiset(s.writer.log.Get(k))
    ensures Lists(s.writer.log.Get(k), s.openings, k)
    ensures s.writer.table.Get(k) == InsertAll(s.writer.start.Get(k), s.writer.log.Get(k))
  {
    assert BatchProtocol.TableOk(s.writer, k);
    hide BatchProtocol.Inv, TagInv, TaskInv, CountInv, InsertAll, AllStored, Trio.Get;
    forall r: Rec ensures multiset(s.writer.log.Get(k))[r] == AllStored(s.openings, k, r) {
      assert s.writer.given.Get(k)[r] == AllStored(s.openings, k, r);
    }
  }

  lemma TableHolds(s: System, k: Kind, key: Key)
    requires Inv(s) && s.writer.given.Get(k) == multiset(s.writer.log.Get(k))
    ensures key in s.writer.table.Get(k) <==>
              key in s.writer.start.Get(k) || exists v :: CameTo(s.openings, k, Rec(key, v))
    ensures key in s.writer.table.Get(k) && key !in s.writer.start.Get(k) ==>
              CameTo(s.openings, k, Rec(key, s.writer.table.Get(k)[key]))
  {
    var log := s.writer.log.Get(k);
    assert BatchProtocol.TableOk(s.writer, k);
    InsertAllMeaning(s.writer.start.Get(k), log, key);
    hide BatchProtocol.Inv, TagInv, TaskInv, CountInv, InsertAll, CameTo, AllStored, Trio.Get;
    forall r: Rec ensures r in log <==> CameTo(s.openings, k, r) {
      AllStoredMeans(s.openings, k, r);
      assert s.writer.given.Get(k)[r] == AllStored(s.openings, k, r);
      assert r in log <==> multiset(log)[r] > 0;
    }
    if HasKey(log, key) {
      FirstValueIn(log, key);
      var r :| r in log && r.key == key;
      assert r == Rec(key, r.value);
    }
    if v :| CameTo(s.openings, k, Rec(key, v)) {
      assert Rec(key, v) in log;
    }
  }

  /** The tables at the start and the set of workers are what they were. */
  lemma {:induction false} RunFixes(s: System, acts: seq<Act>)
    requires Inv(s)
    ensures Run(s, acts).writer.start == s.writer.start && |Run(s, acts).jobs| == |s.jobs|
    decreases |acts|
  {
    if acts != [] {
      var front := acts[..|acts| - 1];
      RunFixes(s, front);
      RunKeepsInv(s, front);
      StepFixes(Run(s, front), acts[|acts| - 1]);
      hide Step, Inv;
    }
  }

  lemma HandFixes(s: System, w: nat)
    requires BatchProtocol.Inv(s.writer) && w < |s.jobs| && s.jobs[w].Handing?
    ensures var s' := Hand(s, w, s.jobs[w].task, s.jobs[w].tag);
            s'.writer.start == s.writer.start && |s'.jobs| == |s.jobs|
  {
    hide BatchProtocol.Step, BatchProtocol.Inv, Route, Mark;
    var j := s.jobs[w];
    if j.task.todo != [] {
      var routed := Route(j.tag.dataType, j.task.todo[0].value);
      if routed.Accept? {
        WriterStartFixed(s.writer, w + 2, Add(routed.k, Rec(Key(j.tag.id, j.task.msg.ts), routed.value)));
      }
    }
  }

  lemma WorkFixes(s: System, w: nat, ok: bool)
    requires BatchProtocol.Inv(s.writer) && w < |s.jobs|
    ensures WorkStep(s, w, ok).writer.start == s.writer.start && |WorkStep(s, w, ok).jobs| == |s.jobs|
  {
    hide BatchProtocol.Inv, Hand, Receive, Look, Make, Save, Return;
    if s.jobs[w].Handing? {
      HandFixes(s, w);
    }
  }

  lemma StepFixes(s: System, a: Act)
    requires Inv(s)
    ensures Step(s, a).writer.start == s.writer.start && |Step(s, a).jobs| == |s.jobs|
  {
    hide BatchProtocol.Step, BatchProtocol.Inv, WorkStep, Allowed, TagInv, TaskInv, CountInv, GivenInv;
    if a.Writer? {
      WriterStartFixed(s.writer, a.t, a.c);
    } else if a.Work? && a.w < |s.jobs| {
      WorkFixes(s, a.w, a.ok);
    }
  }

  lemma WriterStartFixed(s: State, t: nat, c: Choice)
    requires BatchProtocol.Inv(s)
    ensures BatchProtocol.Step(s, t, c).start == s.start
  {
    hide LockInv, AccountInv, SizeInv, CloseInv, Begin, Inside, Transaction, Acquire;
    if Enabled(s, t, c) {
      StepMoves(s, t, c);
    }
  }

  // ---------- what fails, and what does not ----------

  /** No device is known for the message, though it names one. */
  predicate Deviceless(devices: map<int, int>, m: Msg) { m.lsid != 0 && m.lsid !in devices }

  /** Messages failed for a reason, and only the live service has orphans that count as processed; if all those
      were saved, none of them failed. */
  ghost predicate Blamed(s: System, saved: bool) {
    && (forall m :: m in s.failed ==>
          || m.lsid == 0
          || (Deviceless(s.devices, m) && !(s.live && saved))
          || (m.lsid in s.devices && m.body.None?))
    && (forall m :: m in s.orphaned ==> s.live && Deviceless(s.devices, m))
  }

  /** Saving an orphan succeeds, should this step do that. */
  predicate SaveSucceeds(s: System, a: Act) {
    a.Work? && a.w < |s.jobs| && s.jobs[a.w].Ready? ==> a.ok
  }

  ghost predicate SavesSucceed(s: System, acts: seq<Act>) {
    forall i :: 0 <= i < |acts| ==> SaveSucceeds(Run(s, acts[..i]), acts[i])
  }

  lemma FewerSaves(s: System, acts: seq<Act>)
    requires acts != [] && SavesSucceed(s, acts)
    ensures SavesSucceed(s, acts[..|acts| - 1])
  {
    hide Run, SaveSucceeds;
    var front := acts[..|acts| - 1];
    forall i | 0 <= i < |front| ensures SaveSucceeds(Run(s, front[..i]), front[i]) {
      assert front[..i] == acts[..i];
      assert SaveSucceeds(Run(s, acts[..i]), acts[i]);
    }
  }

  lemma ReceiveKeepsBlame(s: System, w: nat, ok: bool, saved: bool)
    requires Blamed(s, saved) && w < |s.jobs| && (saved ==> ok)
    ensures Blamed(Receive(s, w, ok), saved)
    ensures Receive(s, w, ok).devices == s.devices && Receive(s, w, ok).live == s.live
  {
  }

  lemma HandBlamesNobody(s: System, w: nat, task: Task, tag: Tag)
    requires w < |s.jobs|
    ensures var s' := Hand(s, w, task, tag);
            s'.failed == s.failed && s'.orphaned == s.orphaned && s'.devices == s.devices && s'.live == s.live
  {
    hide BatchProtocol.Step, Route, Mark;
  }

  lemma WorkKeepsBlame(s: System, w: nat, ok: bool, saved: bool)
    requires Blamed(s, saved) && w < |s.jobs| && (saved && s.jobs[w].Ready? ==> ok)
    ensures Blamed(WorkStep(s, w, ok), saved)
    ensures WorkStep(s, w, ok).devices == s.devices && WorkStep(s, w, ok).live == s.live
  {
    hide Receive, Hand, Mark, FindTag, StoreTag, Upsert, DataTypeOf, Blamed;
    var j := s.jobs[w];
    if j.Ready? {
      ReceiveKeepsBlame(s, w, ok, saved);
    } else {
      if j.Handing? {
        HandBlamesNobody(s, w, j.task, j.tag);
      }
      BlameIgnoresRest(s, WorkStep(s, w, ok), saved);
    }
  }

  lemma {:induction false} RunKeepsBlame(s: System, acts: seq<Act>, saved: bool)
    requires Blamed(s, saved) && (saved ==> SavesSucceed(s, acts))
    ensures Blamed(Run(s, acts), saved) && Run(s, acts).devices == s.devices && Run(s, acts).live == s.live
    decreases |acts|
  {
    hide Blamed, WorkStep, BatchProtocol.Step, Allowed;
    if acts != [] {
      var a := acts[|acts| - 1];
      var mid := Run(s, acts[..|acts| - 1]);
      if saved {
        FewerSaves(s, acts);
        assert SaveSucceeds(mid, a);
      }
      RunKeepsBlame(s, acts[..|acts| - 1], saved);
      if a.Work? && a.w < |mid.jobs| {
        WorkKeepsBlame(mid, a.w, a.ok, saved);
      } else {
        BlameIgnoresRest(mid, Step(mid, a), saved);
      }
    }
  }

  lemma BlameIgnoresRest(s: System, s': System, saved: bool)
    requires Blamed(s, saved)
    requires s'.failed == s.failed && s'.orphaned == s.orphaned && s'.devices == s.devices && s'.live == s.live
    ensures Blamed(s', saved)
  {
  }

  /** In every run a message counts as an error only if it names no sensor, a sensor without device, or has a
      body that does not parse; and as an orphan only in the live service, for want of a device. There it is no
      error if all orphans could be saved. */
  lemma OnlyBadMessagesFail(live: bool, devices: map<int, int>, workers: nat, flushSize: nat,
                            tags: map<string, Tag>, db: TagTable, start: Trio<Table>, acts: seq<Act>, m: Msg)
    ensures var s0 := Start(live, devices, workers, flushSize, tags, db, start);
            var s := Run(s0, acts);
            && (m in s.failed ==> m.lsid == 0 || m.lsid !in devices || m.body.None?)
            && (m in s.orphaned ==> live && m.lsid != 0 && m.lsid !in devices)
            && (m in s.failed && live && SavesSucceed(s0, acts) ==> m.lsid == 0 || m.lsid in devices)
  {
    var s0 := Start(live, devices, workers, flushSize, tags, db, start);
    RunKeepsBlame(s0, acts, false);
    if SavesSucceed(s0, acts) {
      RunKeepsBlame(s0, acts, true);
    }
    hide Run, SavesSucceed;
  }

  ghost predicate TagsMade(openings: seq<Opening>) {
    forall n, i :: 0 <= n < |openings| && 0 <= i < |openings[n].fates| ==> !openings[n].fates[i].NoTag?
  }

  lemma MarkKeepsMade(openings: seq<Opening>, n: nat, f: Fate)
    requires TagsMade(openings) && !f.NoTag?
    ensures TagsMade(Mark(openings, n, f))
  {
  }

  lemma WorkKeepsMade(s: System, w: nat, ok: bool)
    requires TagsMade(s.openings) && w < |s.jobs| && (s.jobs[w].Creating? ==> ok)
    ensures TagsMade(WorkStep(s, w, ok).openings)
  {
    hide BatchProtocol.Step, Route, Mark, FindTag, StoreTag, Upsert, DataTypeOf;
    var j := s.jobs[w];
    if TaskOf(j).Some? {
      MarkKeepsMade(s.openings, TaskOf(j).value.n, Timestamp);
      if j.Handing? && j.task.todo != [] {
        var routed := Route(j.tag.dataType, j.task.todo[0].value);
        MarkKeepsMade(s.openings, j.task.n, Refused(j.tag));
        if routed.Accept? {
          MarkKeepsMade(s.openings, j.task.n, Stored(j.tag, routed.k, Rec(Key(j.tag.id, j.task.msg.ts), routed.value)));
        }
      }
    }
  }

  /** No upsert of the run fails; other things that a worker does may. */
  ghost predicate UpsertsSucceed(s: System, acts: seq<Act>) {
    forall i :: 0 <= i < |acts| ==> UpsertSucceeds(Run(s, acts[..i]), acts[i])
  }

  predicate UpsertSucceeds(s: System, a: Act) {
    a.Work? && a.w < |s.jobs| && s.jobs[a.w].Creating? ==> a.ok
  }

  lemma {:induction false} RunKeepsMade(s: System, acts: seq<Act>)
    requires TagsMade(s.openings) && UpsertsSucceed(s, acts)
    ensures TagsMade(Run(s, acts).openings)
    decreases |acts|
  {
    if acts != [] {
      var front, a := acts[..|acts| - 1], acts[|acts| - 1];
      var mid := Run(s, front);
      assert UpsertSucceeds(mid, a);
      FewerUpserts(s, acts);
      hide TagsMade, WorkStep, BatchProtocol.Step, Allowed, UpsertsSucceed;
      RunKeepsMade(s, front);
      if a.Work? && a.w < |mid.jobs| {
        WorkKeepsMade(mid, a.w, a.ok);
      }
    }
  }

  lemma FewerUpserts(s: System, acts: seq<Act>)
    requires acts != [] && UpsertsSucceed(s, acts)
    ensures UpsertsSucceed(s, acts[..|acts| - 1])
  {
    hide Run, UpsertSucceeds;
    var front := acts[..|acts| - 1];
    forall i | 0 <= i < |front| ensures UpsertSucceeds(Run(s, front[..i]), front[i]) {
      assert front[..i] == acts[..i];
      assert UpsertSucceeds(Run(s, acts[..i]), acts[i]);
    }
  }

  /** In every run in which no upsert fails, a field that was dealt with is the timestamp, or went to the writer,
      or was refused; it was refused exactly if its tag's data type does not take it, and otherwise went with its
      own value, under its tag's id and its message's timestamp, to the records of its own kind. */
  lemma FieldsAreStored(live: bool, devices: map<int, int>, workers: nat, flushSize: nat,
                        tags: map<string, Tag>, db: TagTable, start: Trio<Table>, acts: seq<Act>, n: nat, i: nat)
    requires TagCache.TableOk(db) && Agrees(tags, db)
    requires UpsertsSucceed(Start(live, devices, workers, flushSize, tags, db, start), acts)
    ensures var s := Run(Start(live, devices, workers, flushSize, tags, db, start), acts);
            n < |s.openings| && i < |s.openings[n].fates| ==>
              var o := s.openings[n];
              && o.msg.body.Some? && |o.fates| <= |o.msg.body.value|
              && var f := o.msg.body.value[i];
                 match o.fates[i]
                 case Timestamp => f.name == "ts"
                 case NoTag => false
                 case Refused(tag) => f.name != "ts" && !Fits(tag.dataType, f.value)
                 case Stored(tag, k, rec) =>
                   && f.name != "ts" && Fits(tag.dataType, f.value)
                   && rec.key == Key(tag.id, o.msg.ts) && Carries(f.value, k, rec.value)
  {
    var s0 := Start(live, devices, workers, flushSize, tags, db, start);
    StartInv(live, devices, workers, flushSize, tags, db, start);
    RunKeepsInv(s0, acts);
    RunKeepsMade(s0, acts);
    var s := Run(s0, acts);
    hide Run, Route, WriterInv, TagInv, CountInv, GivenInv, TagOf, Fits, Carries;
    if n < |s.openings| && i < |s.openings[n].fates| {
      var o := s.openings[n];
      assert OpeningOk(s, o);
      assert FateOk(s.db, o, i);
      if o.fates[i].Stored? || o.fates[i].Refused? {
        RouteMeaning(o.fates[i].tag.dataType, o.msg.body.value[i].value);
      }
    }
  }
}
