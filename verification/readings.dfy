/** From submitted readings to rows and back: which field of which message a row comes from, which data types a tag
    can have, and when no reading is lost.
    services/weatherlink-sql-backfill/service/worker_pool.go: processMessage, addRecordToBatch, determineDataType. */
module Readings {
  import opened Tables
  import opened TagCache
  import opened BatchProtocol
  import opened Ingest
  import opened TagTypes

  // ---------- every row is a reading ----------

  /** A submitted message carries the field for the tag and the time of the key. */
  ghost predicate Reading(s: System, m: Msg, f: Field, key: Key) {
    && m in s.submitted && m.lsid != 0 && m.lsid in s.devices && m.body.Some? && f in m.body.value && f.name != "ts"
    && TagOf(s.db, s.devices[m.lsid], f.name, key.tagId) && key.ts == m.ts
  }

  /** A record that a field came to is the reading of that field. */
  lemma StoredIsReading(s: System, n: nat, i: nat)
    requires Ingest.Inv(s) && n < |s.openings| && i < |s.openings[n].fates| && s.openings[n].fates[i].Stored?
    ensures var o, fate := s.openings[n], s.openings[n].fates[i];
            && o.msg.body.Some? && i < |o.msg.body.value|
            && Reading(s, o.msg, o.msg.body.value[i], fate.rec.key)
            && Carries(o.msg.body.value[i].value, fate.k, fate.rec.value)
  {
    hide WriterInv, TagInv, GivenInv, TaskOk, Held, Complete, Route, TagOf, Carries, Fits;
    var o := s.openings[n];
    assert OpeningOk(s, o);
    assert FateOk(s.db, o, i);
    RouteMeaning(o.fates[i].tag.dataType, o.msg.body.value[i].value);
    OpenedWasSubmitted(s, n);
  }

  /** A row that was not there at the start is a committed record, and so one that a field came to. */
  lemma RowIsStored(s: System, k: Kind, key: Key)
    requires Ingest.Inv(s) && key in s.writer.table.Get(k) && key !in s.writer.start.Get(k)
    ensures CameTo(s.openings, k, Rec(key, s.writer.table.Get(k)[key]))
  {
    var log := s.writer.log.Get(k);
    assert BatchProtocol.TableOk(s.writer, k);
    InsertAllMeaning(s.writer.start.Get(k), log, key);
    FirstValueIn(log, key);
    var r := Rec(key, s.writer.table.Get(k)[key]);
    assert Count(log, r) > 0;
    assert Accounted(s.writer, k, r);
    hide BatchProtocol.Inv, TagInv, TaskInv, CountInv, InsertAll, CameTo, AllStored, Trio.Get;
    assert s.writer.given.Get(k)[r] == AllStored(s.openings, k, r);
    AllStoredMeans(s.openings, k, r);
  }

  /** In every run, at any time: a new row of the table of kind k holds, under the id of a device's tag and a time,
      exactly what a field of some message submitted for that device, tag and time carries; a number in the
      table of numbers, text in that of texts, null in that of nulls. */
  lemma RowsAreReadings(live: bool, devices: map<int, int>, workers: nat, flushSize: nat, tags: map<string, Tag>,
                        db: TagTable, start: Trio<Table>, acts: seq<Act>, k: Kind, key: Key)
    requires TagCache.TableOk(db) && Agrees(tags, db)
    ensures var s := Run(Ingest.Start(live, devices, workers, flushSize, tags, db, start), acts);
            key in s.writer.table.Get(k) && key !in start.Get(k) ==>
              exists m, f :: Reading(s, m, f, key) && Carries(f.value, k, s.writer.table.Get(k)[key])
  {
    var s0 := Ingest.Start(live, devices, workers, flushSize, tags, db, start);
    var s := Run(s0, acts);
    StartInv(live, devices, workers, flushSize, tags, db, start);
    RunKeepsInv(s0, acts);
    RunFixes(s0, acts);
    hide Run, Ingest.Inv, Reading, Carries, Trio.Get;
    assert s.writer.start == start;
    if key in s.writer.table.Get(k) && key !in start.Get(k) {
      RowIsStored(s, k, key);
      var n, i :| 0 <= n < |s.openings| && 0 <= i < |s.openings[n].fates| && s.openings[n].fates[i].Stored?
                  && s.openings[n].fates[i].k == k
                  && s.openings[n].fates[i].rec == Rec(key, s.writer.table.Get(k)[key]);
      StoredIsReading(s, n, i);
      var m := s.openings[n].msg;
      assert Reading(s, m, m.body.value[i], key);
    }
  }

  // ---------- the data types of a tag ----------

  /** The data type that a value gives to a tag made for it. */
  function TypeName(v: FieldValue): string {
    if v.JNull? then "null" else if v.JNumber? || v.JBool? then "numeric" else "text"
  }

  lemma TypeNameIs(v: FieldValue)
    ensures DataTypeOf(v) == TypeName(v)
  {
  }

  /** The tag a worker holds for this device and name has one of the types. */
  predicate JobTyped(j: Job, d: int, n: string, types: set<string>) {
    (j.Storing? || j.Handing?) && j.task.device == d && j.task.todo != [] && j.task.todo[0].name == n ==>
      j.tag.dataType in types
  }

  predicate FateTyped(o: Opening, i: nat, d: int, n: string, types: set<string>) {
    o.msg.body.Some? && i < |o.fates| <= |o.msg.body.value| && o.device == d && o.msg.body.value[i].name == n ==>
      (o.fates[i].Stored? || o.fates[i].Refused? ==> o.fates[i].tag.dataType in types)
  }

  ghost predicate FatesTyped(openings: seq<Opening>, d: int, n: string, types: set<string>) {
    forall m: nat, i: nat :: m < |openings| && i < |openings[m].fates| ==> FateTyped(openings[m], i, d, n, types)
  }

  predicate Typed(tags: map<string, Tag>, db: TagTable, d: int, n: string, types: set<string>) {
    && (FindTag(tags, d, n).Some? ==> FindTag(tags, d, n).value.dataType in types)
    && ((d, n) in db.rows ==> db.rows[(d, n)].dataType in types)
  }

  /** Wherever the tag is, in the cache, in the table, with a worker or in the fate of a field, its type is one of
      these. */
  ghost predicate AllTyped(s: System, d: int, n: string, types: set<string>) {
    && Typed(s.tags, s.db, d, n, types)
    && (forall w :: 0 <= w < |s.jobs| ==> JobTyped(s.jobs[w], d, n, types))
    && FatesTyped(s.openings, d, n, types)
  }

  lemma MarkTyped(s: System, w: nat, f: Fate, d: int, n: string, types: set<string>)
    requires Ingest.Inv(s) && FatesTyped(s.openings, d, n, types)
    requires w < |s.jobs| && TaskOf(s.jobs[w]).Some? && TaskOf(s.jobs[w]).value.todo != []
    requires var task := TaskOf(s.jobs[w]).value;
             (f.Stored? || f.Refused?) && task.device == d && task.todo[0].name == n ==> f.tag.dataType in types
    ensures FatesTyped(Mark(s.openings, TaskOf(s.jobs[w]).value.n, f), d, n, types)
  {
    hide WriterInv, TagInv, GivenInv, CountInv, OpeningOk, Held, Complete, AtField, TaskOf;
    var task := TaskOf(s.jobs[w]).value;
    assert TaskOk(s, task);
    var after := Mark(s.openings, task.n, f);
    forall m: nat, i: nat | m < |after| && i < |after[m].fates| ensures FateTyped(after[m], i, d, n, types) {
      if m != task.n {
        assert FateTyped(s.openings[m], i, d, n, types);
      } else if i < |s.openings[m].fates| {
        assert FateTyped(s.openings[m], i, d, n, types);
      }
    }
  }

  /** The step moves worker w, and cache, table and openings stay typed. */
  lemma TypedFrame(s: System, s': System, w: nat, d: int, n: string, types: set<string>)
    requires AllTyped(s, d, n, types) && w < |s.jobs| == |s'.jobs| && s'.jobs == s.jobs[w := s'.jobs[w]]
    requires Typed(s'.tags, s'.db, d, n, types) && FatesTyped(s'.openings, d, n, types)
    requires JobTyped(s'.jobs[w], d, n, types)
    ensures AllTyped(s', d, n, types)
  {
    hide Typed, FatesTyped, JobTyped;
  }

  lemma ReceiveTyped(s: System, w: nat, ok: bool, d: int, n: string, types: set<string>)
    requires AllTyped(s, d, n, types) && w < |s.jobs| && s.jobs[w].Ready?
    ensures AllTyped(Receive(s, w, ok), d, n, types)
  {
    hide Typed;
    var s' := Receive(s, w, ok);
    forall m: nat, i: nat | m < |s'.openings| && i < |s'.openings[m].fates|
      ensures FateTyped(s'.openings[m], i, d, n, types)
    {
      assert FateTyped(s.openings[m], i, d, n, types);
    }
    TypedFrame(s, s', w, d, n, types);
  }

  lemma LookTyped(s: System, w: nat, d: int, n: string, types: set<string>)
    requires Ingest.Inv(s) && AllTyped(s, d, n, types) && w < |s.jobs| && s.jobs[w].Looking?
    ensures AllTyped(Look(s, w, s.jobs[w].task), d, n, types)
  {
    hide Ingest.Inv, FindTag, Mark, FatesTyped;
    if s.jobs[w].task.todo != [] {
      MarkTyped(s, w, Timestamp, d, n, types);
    }
    TypedFrame(s, Look(s, w, s.jobs[w].task), w, d, n, types);
  }

  lemma MakeTyped(s: System, w: nat, ok: bool, d: int, n: string, types: set<string>)
    requires Ingest.Inv(s) && AllTyped(s, d, n, types) && w < |s.jobs| && s.jobs[w].Creating?
    requires var task := s.jobs[w].task;
             task.todo != [] && task.device == d && task.todo[0].name == n ==> TypeName(task.todo[0].value) in types
    ensures AllTyped(Make(s, w, s.jobs[w].task, ok), d, n, types)
  {
    hide Ingest.Inv, FindTag, Mark, FatesTyped, DataTypeOf, TypeName;
    var task := s.jobs[w].task;
    if task.todo != [] {
      MarkTyped(s, w, NoTag, d, n, types);
      TypeNameIs(task.todo[0].value);
    }
    TypedFrame(s, Make(s, w, task, ok), w, d, n, types);
  }

  lemma SaveTyped(s: System, w: nat, d: int, n: string, types: set<string>)
    requires AllTyped(s, d, n, types) && w < |s.jobs| && s.jobs[w].Storing?
    ensures AllTyped(Save(s, w, s.jobs[w].task, s.jobs[w].tag), d, n, types)
  {
    hide FindTag, StoreTag, FatesTyped;
    var task, tag := s.jobs[w].task, s.jobs[w].tag;
    assert JobTyped(s.jobs[w], d, n, types);
    if task.todo != [] {
      FindAfterStoreTag(s.tags, task.device, task.todo[0].name, tag, d, n);
    }
    TypedFrame(s, Save(s, w, task, tag), w, d, n, types);
  }

  lemma HandTyped(s: System, w: nat, d: int, n: string, types: set<string>)
    requires Ingest.Inv(s) && AllTyped(s, d, n, types) && w < |s.jobs| && s.jobs[w].Handing?
    ensures AllTyped(Hand(s, w, s.jobs[w].task, s.jobs[w].tag), d, n, types)
  {
    hide Ingest.Inv, Typed, Mark, Route, FatesTyped, BatchProtocol.Step;
    var task, tag := s.jobs[w].task, s.jobs[w].tag;
    assert JobTyped(s.jobs[w], d, n, types);
    if task.todo != [] {
      var routed := Route(tag.dataType, task.todo[0].value);
      MarkTyped(s, w, Refused(tag), d, n, types);
      if routed.Accept? {
        MarkTyped(s, w, Stored(tag, routed.k, Rec(Key(tag.id, task.msg.ts), routed.value)), d, n, types);
      }
    }
    TypedFrame(s, Hand(s, w, task, tag), w, d, n, types);
  }

  /** Every value submitted for the device and name gives its tag one of the types. */
  ghost predicate TypesCover(ms: seq<Msg>, devices: map<int, int>, d: int, n: string, types: set<string>) {
    forall m, f :: m in ms && m.body.Some? && Names(devices, m, d) && f in m.body.value && f.name == n ==>
      TypeName(f.value) in types
  }

  lemma WorkTyped(s: System, w: nat, ok: bool, d: int, n: string, types: set<string>)
    requires Ingest.Inv(s) && AllTyped(s, d, n, types) && TypesCover(s.submitted, s.devices, d, n, types)
    requires w < |s.jobs|
    ensures AllTyped(WorkStep(s, w, ok), d, n, types)
  {
    hide Ingest.Inv, AllTyped, Receive, Look, Make, Save, Hand, TypeName;
    match s.jobs[w] {
      case Ready => ReceiveTyped(s, w, ok, d, n, types);
      case Looking(_) => LookTyped(s, w, d, n, types);
      case Creating(task) =>
        if task.todo != [] {
          FieldWasSubmitted(s, w);
        }
        MakeTyped(s, w, ok, d, n, types);
      case Storing(_, _) => SaveTyped(s, w, d, n, types);
      case Handing(_, _) => HandTyped(s, w, d, n, types);
      case Waiting(task) => ReturnTyped(s, w, d, n, types);
      case Exited =>
    }
  }

  lemma ReturnTyped(s: System, w: nat, d: int, n: string, types: set<string>)
    requires AllTyped(s, d, n, types) && w < |s.jobs| && s.jobs[w].Waiting?
    ensures AllTyped(Return(s, w, s.jobs[w].task), d, n, types)
  {
    hide Typed, FatesTyped;
    TypedFrame(s, Return(s, w, s.jobs[w].task), w, d, n, types);
  }

  lemma {:induction false} RunTyped(s: System, acts: seq<Act>, d: int, n: string, types: set<string>)
    requires Ingest.Inv(s) && AllTyped(s, d, n, types)
    requires TypesCover(Run(s, acts).submitted, s.devices, d, n, types)
    ensures AllTyped(Run(s, acts), d, n, types) && Run(s, acts).devices == s.devices
    decreases |acts|
  {
    hide Ingest.Inv, AllTyped, WorkStep, TypesCover, BatchProtocol.Step;
    if acts != [] {
      var mid, a := Run(s, acts[..|acts| - 1]), acts[|acts| - 1];
      StepSubmits(mid, a);
      FewerTypes(mid.submitted, Run(s, acts).submitted, s.devices, d, n, types);
      RunTyped(s, acts[..|acts| - 1], d, n, types);
      RunKeepsInv(s, acts[..|acts| - 1]);
      if a.Work? && a.w < |mid.jobs| {
        WorkTyped(mid, a.w, a.ok, d, n, types);
      } else {
        SameTyped(mid, Ingest.Step(mid, a), d, n, types);
      }
    }
  }

  lemma SameTyped(s: System, s': System, d: int, n: string, types: set<string>)
    requires AllTyped(s, d, n, types)
    requires s'.tags == s.tags && s'.db == s.db && s'.jobs == s.jobs && s'.openings == s.openings
    ensures AllTyped(s', d, n, types)
  {
  }

  lemma FewerTypes(a: seq<Msg>, b: seq<Msg>, devices: map<int, int>, d: int, n: string, types: set<string>)
    requires a <= b && TypesCover(b, devices, d, n, types)
    ensures TypesCover(a, devices, d, n, types)
  {
    hide TypeName;
    assert forall m :: m in a ==> m in b;
  }

  /** In every run a tag, in the cache or in the table, has a data type that it had at the start or that some value
      submitted for it gives: "null" for null, "numeric" for numbers and booleans, "text" for anything else. */
  lemma TagTypesComeFromValues(live: bool, devices: map<int, int>, workers: nat, flushSize: nat,
                               tags: map<string, Tag>, db: TagTable, start: Trio<Table>, acts: seq<Act>,
                               d: int, n: string, types: set<string>)
    requires TagCache.TableOk(db) && Agrees(tags, db) && Typed(tags, db, d, n, types)
    requires TypesCover(Run(Ingest.Start(live, devices, workers, flushSize, tags, db, start), acts).submitted,
                        devices, d, n, types)
    ensures var s := Run(Ingest.Start(live, devices, workers, flushSize, tags, db, start), acts);
            Typed(s.tags, s.db, d, n, types) && FatesTyped(s.openings, d, n, types)
  {
    StartInv(live, devices, workers, flushSize, tags, db, start);
    hide Ingest.Inv, Run, TypesCover, Typed;
    RunTyped(Ingest.Start(live, devices, workers, flushSize, tags, db, start), acts, d, n, types);
  }

  // ---------- no reading is lost ----------

  /** What is submitted for the device and name fits every type its tag can have. */
  ghost predicate AllFit(ms: seq<Msg>, devices: map<int, int>, d: int, n: string, types: set<string>) {
    forall m, f, t ::
      m in ms && m.body.Some? && Names(devices, m, d) && f in m.body.value && f.name == n && t in types ==>
        Fits(t, f.value)
  }

  /** A message that names the device and whose body parses has been opened, once everything is handled. */
  lemma GoodMessageIsOpened(s: System, m: Msg, d: int) returns (n: nat)
    requires multiset(s.submitted) == multiset(s.failed + s.orphaned + Opened(s.openings))
    requires m in s.submitted && Names(s.devices, m, d) && m.body.Some? && Blamed(s, false)
    ensures n < |s.openings| && s.openings[n].msg == m
  {
    assert m in multiset(s.submitted);
    assert m in s.failed + s.orphaned + Opened(s.openings);
    assert m in Opened(s.openings);
    n :| n < |Opened(s.openings)| && Opened(s.openings)[n] == m;
  }

  /** The field has come to a record of its own kind and value. */
  lemma FieldCameTo(s: System, n: nat, i: nat, d: int, k: Kind, x: Value, types: set<string>)
    requires Ingest.Inv(s) && n < |s.openings| && Complete(s.openings[n]) && TagsMade(s.openings)
    requires var m := s.openings[n].msg;
             && i < |m.body.value| && Names(s.devices, m, d) && m.body.value[i].name != "ts"
             && FateTyped(s.openings[n], i, d, m.body.value[i].name, types)
             && (forall t :: t in types ==> Fits(t, m.body.value[i].value)) && Carries(m.body.value[i].value, k, x)
    ensures exists id :: TagOf(s.db, d, s.openings[n].msg.body.value[i].name, id)
                         && CameTo(s.openings, k, Rec(Key(id, s.openings[n].msg.ts), x))
  {
    hide WriterInv, TagInv, GivenInv, CountInv, TaskOk, Held, Route, TagOf, Fits;
    var o := s.openings[n];
    assert OpeningOk(s, o);
    assert FateOk(s.db, o, i);
    var fate := o.fates[i];
    RouteMeaning(fate.tag.dataType, o.msg.body.value[i].value);
    assert fate.Stored? && fate.k == k && fate.rec == Rec(Key(fate.tag.id, o.msg.ts), x);
  }

  /** If the values submitted for a device and name fit all the data types they give its tag, and those it had at
      the start, then none of them is lost: once Close has returned, no upsert and no flush having failed, the
      table of the value's kind has a row for the tag and the message's time. */
  lemma NoReadingIsLost(live: bool, devices: map<int, int>, workers: nat, flushSize: nat, tags: map<string, Tag>,
                        db: TagTable, start: Trio<Table>, acts: seq<Act>, d: int, types: set<string>,
                        m: Msg, f: Field, k: Kind, x: Value)
    requires TagCache.TableOk(db) && Agrees(tags, db) && workers > 0 && Typed(tags, db, d, f.name, types)
    requires var s0 := Ingest.Start(live, devices, workers, flushSize, tags, db, start);
             var s := Run(s0, acts);
             && UpsertsSucceed(s0, acts) && ClosedCleanly(s, k)
             && TypesCover(s.submitted, devices, d, f.name, types) && AllFit(s.submitted, devices, d, f.name, types)
             && m in s.submitted && Names(devices, m, d) && m.body.Some? && f in m.body.value && f.name != "ts"
             && Carries(f.value, k, x)
    ensures var s := Run(Ingest.Start(live, devices, workers, flushSize, tags, db, start), acts);
            exists id :: TagOf(s.db, d, f.name, id) && Key(id, m.ts) in s.writer.table.Get(k)
  {
    var s0 := Ingest.Start(live, devices, workers, flushSize, tags, db, start);
    var s := Run(s0, acts);
    StartInv(live, devices, workers, flushSize, tags, db, start);
    RunKeepsInv(s0, acts);
    RunFixes(s0, acts);
    RunKeepsMade(s0, acts);
    RunKeepsBlame(s0, acts, false);
    TagTypesComeFromValues(live, devices, workers, flushSize, tags, db, start, acts, d, f.name, types);
    hide Run, Ingest.Inv, UpsertsSucceed, TypesCover, Typed, FateTyped, TagsMade, Fits, Carries, Trio.Get, Blamed;
    EverythingHandled(s);
    var n := GoodMessageIsOpened(s, m, d);
    var i :| 0 <= i < |m.body.value| && m.body.value[i] == f;
    hide Opened, Complete;
    CompleteHas(s.openings[n], i);
    assert FateTyped(s.openings[n], i, d, f.name, types);
    FieldCameTo(s, n, i, d, k, x, types);
    var id :| TagOf(s.db, d, f.name, id) && CameTo(s.openings, k, Rec(Key(id, m.ts), x));
    Drained(live, devices, workers, flushSize, tags, db, start, acts, k, Key(id, m.ts));
  }

  lemma CompleteHas(o: Opening, i: nat)
    requires Complete(o) && i < |o.msg.body.value|
    ensures i < |o.fates|
  {
  }
}
