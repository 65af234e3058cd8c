/** When a cached tag has the data type of its row: services/weatherlink-sql-backfill/service/worker_pool.go,
    where looking a tag up, upserting it and caching it are three separate steps of a worker. */
module TagTypes {
  import opened Tables
  import opened TagCache
  import opened BatchProtocol
  import opened Ingest

  /** The tag of this device and name, if cached, has the data type of its row. */
  ghost predicate TypesAgree(s: System, d: int, n: string) {
    FindTag(s.tags, d, n).Some? ==>
      (d, n) in s.db.rows && s.db.rows[(d, n)].dataType == FindTag(s.tags, d, n).value.dataType
  }

  /** All the messages carry for this device and name is among these values. */
  ghost predicate ValuesIn(ms: seq<Msg>, devices: map<int, int>, d: int, n: string, vs: iset<FieldValue>) {
    forall m, f :: m in ms && m.body.Some? && Names(devices, m, d) && f in m.body.value && f.name == n ==> f.value in vs
  }

  predicate Names(devices: map<int, int>, m: Msg, d: int) {
    m.lsid != 0 && m.lsid in devices && devices[m.lsid] == d
  }

  /** Some sensor reports for the device. */
  ghost predicate Reports(devices: map<int, int>, d: int) {
    exists lsid :: lsid != 0 && lsid in devices && devices[lsid] == d
  }

  ghost predicate OneType(vs: iset<FieldValue>) {
    forall v, w :: v in vs && w in vs ==> DataTypeOf(v) == DataTypeOf(w)
  }

  // ---------- what keeps the types together ----------

  /** The worker is about to upsert or to cache this tag. */
  predicate Makes(j: Job, d: int, n: string) {
    (j.Creating? || j.Storing?) && j.task.device == d && j.task.todo != [] && j.task.todo[0].name == n
  }

  /** Either everybody makes the tag with the type t, or nobody makes it once it is cached. */
  ghost predicate MakerOk(s: System, j: Job, d: int, n: string, t: Option<string>) {
    Makes(j, d, n) ==>
      && (if t.Some? then
            && DataTypeOf(j.task.todo[0].value) == t.value
            && (FindTag(s.tags, d, n).Some? ==> FindTag(s.tags, d, n).value.dataType == t.value)
          else FindTag(s.tags, d, n).None?)
      && (j.Storing? ==>
            && (d, n) in s.db.rows && s.db.rows[(d, n)].dataType == j.tag.dataType
            && (t.Some? ==> j.tag.dataType == t.value))
  }

  ghost predicate TypeInv(s: System, d: int, n: string, t: Option<string>) {
    && TypesAgree(s, d, n)
    && (forall w :: 0 <= w < |s.jobs| ==> MakerOk(s, s.jobs[w], d, n, t))
    && (t.None? ==> |s.jobs| <= 1 || FindTag(s.tags, d, n).Some?)
  }

  /** Nothing that matters for this tag has changed but worker w's job. */
  ghost predicate SameView(s: System, s': System, d: int, n: string, w: nat) {
    && FindTag(s'.tags, d, n) == FindTag(s.tags, d, n)
    && ((d, n) in s'.db.rows <==> (d, n) in s.db.rows)
    && ((d, n) in s.db.rows ==> s'.db.rows[(d, n)] == s.db.rows[(d, n)])
    && |s'.jobs| == |s.jobs|
    && forall v :: 0 <= v < |s.jobs| && v != w ==> s'.jobs[v] == s.jobs[v]
  }

  lemma ViewKeeps(s: System, s': System, d: int, n: string, t: Option<string>, w: nat)
    requires TypeInv(s, d, n, t) && SameView(s, s', d, n, w)
    requires w < |s.jobs| ==> MakerOk(s', s'.jobs[w], d, n, t)
    ensures TypeInv(s', d, n, t)
  {
    hide FindTag, Makes;
    forall v | 0 <= v < |s'.jobs| ensures MakerOk(s', s'.jobs[v], d, n, t) {
      assert MakerOk(s, s.jobs[v], d, n, t);
    }
  }

  /** Whoever looks the tag up in vain makes it with the type of a value that some message carries. */
  lemma LookKeepsTypes(s: System, w: nat, d: int, n: string, t: Option<string>)
    requires TypeInv(s, d, n, t) && w < |s.jobs| && s.jobs[w].Looking?
    requires var task := s.jobs[w].task;
             t.Some? && task.todo != [] && task.todo[0].name == n && n != "ts" && task.device == d ==>
               DataTypeOf(task.todo[0].value) == t.value
    ensures TypeInv(Look(s, w, s.jobs[w].task), d, n, t)
  {
    hide FindTag, DataTypeOf, Mark;
    var s' := Look(s, w, s.jobs[w].task);
    assert SameView(s, s', d, n, w);
    ViewKeeps(s, s', d, n, t, w);
  }

  lemma MakeKeepsTypes(s: System, w: nat, ok: bool, d: int, n: string, t: Option<string>)
    requires TypeInv(s, d, n, t) && w < |s.jobs| && s.jobs[w].Creating?
    ensures TypeInv(Make(s, w, s.jobs[w].task, ok), d, n, t)
  {
    hide FindTag, DataTypeOf, Mark;
    var task := s.jobs[w].task;
    var s' := Make(s, w, task, ok);
    assert MakerOk(s, s.jobs[w], d, n, t);
    if ok && Makes(s.jobs[w], d, n) {
      forall v | 0 <= v < |s'.jobs| ensures MakerOk(s', s'.jobs[v], d, n, t) {
        assert MakerOk(s, s.jobs[v], d, n, t);
      }
    } else {
      assert SameView(s, s', d, n, w);
      ViewKeeps(s, s', d, n, t, w);
    }
  }

  lemma SaveKeepsTypes(s: System, w: nat, d: int, n: string, t: Option<string>)
    requires TypeInv(s, d, n, t) && w < |s.jobs| && s.jobs[w].Storing?
    ensures TypeInv(Save(s, w, s.jobs[w].task, s.jobs[w].tag), d, n, t)
  {
    hide FindTag, StoreTag, DataTypeOf;
    var task, tag := s.jobs[w].task, s.jobs[w].tag;
    var s' := Save(s, w, task, tag);
    assert MakerOk(s, s.jobs[w], d, n, t);
    if task.todo != [] {
      FindAfterStoreTag(s.tags, task.device, task.todo[0].name, tag, d, n);
      if Makes(s.jobs[w], d, n) {
        forall v | 0 <= v < |s'.jobs| ensures MakerOk(s', s'.jobs[v], d, n, t) {
          assert MakerOk(s, s.jobs[v], d, n, t);
        }
      } else {
        assert SameView(s, s', d, n, w);
        ViewKeeps(s, s', d, n, t, w);
      }
    }
  }

  /** Steps that make no tag: they leave cache and table alone, and a job that makes none. */
  ghost predicate MakesNone(s: System, s': System, w: nat) {
    && s'.tags == s.tags && s'.db == s.db && |s'.jobs| == |s.jobs| && w < |s.jobs|
    && (forall v :: 0 <= v < |s.jobs| && v != w ==> s'.jobs[v] == s.jobs[v])
    && !s'.jobs[w].Creating? && !s'.jobs[w].Storing?
    && s'.submitted == s.submitted && s'.devices == s.devices
  }

  lemma ReceiveMakesNone(s: System, w: nat, ok: bool)
    requires w < |s.jobs| && s.jobs[w].Ready?
    ensures MakesNone(s, Receive(s, w, ok), w)
  {
  }

  lemma HandMakesNone(s: System, w: nat)
    requires w < |s.jobs| && s.jobs[w].Handing? && s.jobs[w].task.todo != []
    ensures MakesNone(s, Hand(s, w, s.jobs[w].task, s.jobs[w].tag), w)
  {
    hide Mark, Route, BatchProtocol.Step;
  }

  lemma OtherWorkKeepsTypes(s: System, w: nat, ok: bool, d: int, n: string, t: Option<string>)
    requires TypeInv(s, d, n, t) && w < |s.jobs|
    requires !s.jobs[w].Looking? && !s.jobs[w].Creating? && !s.jobs[w].Storing?
    ensures TypeInv(WorkStep(s, w, ok), d, n, t)
    ensures WorkStep(s, w, ok) == s || MakesNone(s, WorkStep(s, w, ok), w)
  {
    hide FindTag, Receive, Hand, TypeInv;
    if s.jobs[w].Ready? {
      ReceiveMakesNone(s, w, ok);
    } else if s.jobs[w].Handing? {
      if s.jobs[w].task.todo != [] {
        HandMakesNone(s, w);
      } else {
        assert Hand(s, w, s.jobs[w].task, s.jobs[w].tag) == s by { HandNothing(s, w); }
      }
    }
    if WorkStep(s, w, ok) != s {
      MakesNoneKeeps(s, WorkStep(s, w, ok), d, n, t, w);
    }
  }

  lemma HandNothing(s: System, w: nat)
    requires w < |s.jobs| && s.jobs[w].Handing? && s.jobs[w].task.todo == []
    ensures Hand(s, w, s.jobs[w].task, s.jobs[w].tag) == s
  {
  }

  lemma MakesNoneKeeps(s: System, s': System, d: int, n: string, t: Option<string>, w: nat)
    requires TypeInv(s, d, n, t) && MakesNone(s, s', w)
    ensures TypeInv(s', d, n, t)
  {
    hide FindTag;
    ViewKeeps(s, s', d, n, t, w);
  }

  lemma OpenedWasSubmitted(s: System, n: nat)
    requires CountInv(s) && n < |s.openings|
    ensures s.openings[n].msg in s.submitted
  {
    var m := s.openings[n].msg;
    assert Opened(s.openings)[n] == m;
    assert Of(Opened(s.openings), m) > 0;
    assert Of(s.submitted, m) > 0;
  }

  /** The field a worker is at belongs to a submitted message of the device. */
  lemma FieldWasSubmitted(s: System, w: nat)
    requires Ingest.Inv(s) && w < |s.jobs| && TaskOf(s.jobs[w]).Some? && TaskOf(s.jobs[w]).value.todo != []
    ensures var task := TaskOf(s.jobs[w]).value;
            && task.msg in s.submitted && task.msg.body.Some? && task.todo[0] in task.msg.body.value
            && Names(s.devices, task.msg, task.device)
  {
    hide WriterInv, TagInv, GivenInv, ExitInv, FateOk;
    var task := TaskOf(s.jobs[w]).value;
    assert TaskOk(s, task);
    assert OpeningOk(s, s.openings[task.n]);
    OpenedWasSubmitted(s, task.n);
  }

  /** All messages carry the tag with type t, or there is one worker. */
  ghost predicate Keeps(s: System, d: int, n: string, vs: iset<FieldValue>, t: Option<string>) {
    t.Some? && n != "ts" && Reports(s.devices, d) ==> forall v :: v in vs ==> DataTypeOf(v) == t.value
  }

  lemma StepKeepsTypes(s: System, a: Act, d: int, n: string, vs: iset<FieldValue>, t: Option<string>)
    requires Ingest.Inv(s) && TypeInv(s, d, n, t) && Keeps(s, d, n, vs, t) && ValuesIn(s.submitted, s.devices, d, n, vs)
    ensures TypeInv(Ingest.Step(s, a), d, n, t)
  {
    hide Ingest.Inv, TypeInv, Receive, Look, Make, Save, Hand, Return, Allowed, BatchProtocol.Step, Mark, DataTypeOf, FindTag;
    if a.Work? && a.w < |s.jobs| {
      match s.jobs[a.w] {
        case Looking(task) =>
          if task.todo != [] {
            FieldWasSubmitted(s, a.w);
          }
          LookKeepsTypes(s, a.w, d, n, t);
        case Creating(task) => MakeKeepsTypes(s, a.w, a.ok, d, n, t);
        case Storing(task, tag) => SaveKeepsTypes(s, a.w, d, n, t);
        case _ => OtherWorkKeepsTypes(s, a.w, a.ok, d, n, t);
      }
    } else {
      SameMakers(s, Ingest.Step(s, a), d, n, t);
    }
  }

  lemma SameMakers(s: System, s': System, d: int, n: string, t: Option<string>)
    requires TypeInv(s, d, n, t) && s'.tags == s.tags && s'.db == s.db && s'.jobs == s.jobs
    ensures TypeInv(s', d, n, t)
  {
    hide FindTag, Makes;
    forall v | 0 <= v < |s'.jobs| ensures MakerOk(s', s'.jobs[v], d, n, t) {
      assert MakerOk(s, s.jobs[v], d, n, t);
    }
  }

  lemma StepSubmits(s: System, a: Act)
    ensures s.submitted <= Ingest.Step(s, a).submitted && Ingest.Step(s, a).devices == s.devices
  {
    hide WorkStep, BatchProtocol.Step;
    if a.Work? && a.w < |s.jobs| {
      WorkSubmitsNothing(s, a.w, a.ok);
    }
  }

  lemma WorkSubmitsNothing(s: System, w: nat, ok: bool)
    requires w < |s.jobs|
    ensures WorkStep(s, w, ok).submitted == s.submitted && WorkStep(s, w, ok).devices == s.devices
  {
    hide Receive, Hand, Mark, FindTag, DataTypeOf, StoreTag, Upsert;
    if s.jobs[w].Ready? {
      ReceiveMakesNone(s, w, ok);
    } else if s.jobs[w].Handing? {
      if s.jobs[w].task.todo != [] {
        HandMakesNone(s, w);
      } else {
        HandNothing(s, w);
      }
    }
  }

  lemma {:induction false} RunKeepsTypes(s: System, acts: seq<Act>, d: int, n: string, vs: iset<FieldValue>,
                                         t: Option<string>)
    requires Ingest.Inv(s) && TypeInv(s, d, n, t) && Keeps(s, d, n, vs, t)
    requires ValuesIn(Run(s, acts).submitted, s.devices, d, n, vs)
    ensures TypeInv(Run(s, acts), d, n, t) && Run(s, acts).devices == s.devices
    decreases |acts|
  {
    hide Ingest.Inv, TypeInv, Ingest.Step;
    if acts != [] {
      var mid, a := Run(s, acts[..|acts| - 1]), acts[|acts| - 1];
      StepSubmits(mid, a);
      FewerValues(mid.submitted, Run(s, acts).submitted, s.devices, d, n, vs);
      RunKeepsTypes(s, acts[..|acts| - 1], d, n, vs, t);
      RunKeepsInv(s, acts[..|acts| - 1]);
      StepKeepsTypes(mid, a, d, n, vs, t);
    }
  }

  lemma FewerValues(a: seq<Msg>, b: seq<Msg>, devices: map<int, int>, d: int, n: string, vs: iset<FieldValue>)
    requires a <= b && ValuesIn(b, devices, d, n, vs)
    ensures ValuesIn(a, devices, d, n, vs)
  {
    assert forall m :: m in a ==> m in b;
  }

  // ---------- what drives them apart ----------

  lemma Next(s: System, before: seq<Act>, a: Act) returns (acts: seq<Act>)
    ensures Run(s, acts) == Ingest.Step(Run(s, before), a)
  {
    acts := before + [a];
    assert acts[..|acts| - 1] == before;
  }

  /** Two workers have received the two messages, when none was there before. */
  ghost predicate BothReceived(s: System, d: int, n: string, m: Msg, m': Msg, v: FieldValue, v': FieldValue) {
    && |s.jobs| >= 2 && s.submitted == [m, m']
    && s.jobs[0] == Looking(Task(0, m, d, [Field(n, v)]))
    && s.jobs[1] == Looking(Task(1, m', d, [Field(n, v')]))
  }

  lemma Received(s: System, w: nat, d: int, n: string, m: Msg, v: FieldValue)
    requires w < |s.jobs| && s.jobs[w].Ready? && s.chan != [] && s.chan[0] == m
    requires Names(s.devices, m, d) && m.body == Some([Field(n, v)])
    ensures var s' := Ingest.Step(s, Work(w, true));
            && s'.jobs == s.jobs[w := Looking(Task(|s.openings|, m, d, [Field(n, v)]))] && s'.chan == s.chan[1..]
            && |s'.openings| == |s.openings| + 1 && s'.submitted == s.submitted
            && s'.tags == s.tags && s'.db == s.db && s'.devices == s.devices
  {
  }

  lemma Submitted(s: System, m: Msg)
    requires !s.closed && |s.chan| < s.capacity
    ensures Ingest.Step(s, Submit(m)) == s.(chan := s.chan + [m], submitted := s.submitted + [m])
  {
  }

  lemma RaceStarts(s: System, d: int, n: string, m: Msg, m': Msg, v: FieldValue, v': FieldValue)
    returns (acts: seq<Act>)
    requires |s.jobs| >= 2 && s.jobs[0].Ready? && s.jobs[1].Ready? && s.capacity >= 2
    requires s.chan == [] && s.submitted == [] && s.openings == [] && !s.closed
    requires Names(s.devices, m, d) && Names(s.devices, m', d)
    requires m.body == Some([Field(n, v)]) && m'.body == Some([Field(n, v')])
    ensures var after := Run(s, acts);
            BothReceived(after, d, n, m, m', v, v') && after.tags == s.tags && after.db == s.db
  {
    assert Run(s, []) == s;
    hide Run, Ingest.Step;
    acts := Next(s, [], Submit(m));
    Submitted(s, m);
    acts := Next(s, acts, Submit(m'));
    Submitted(s.(chan := [m], submitted := [m]), m');
    var s2 := s.(chan := [m, m'], submitted := [m, m']);
    assert Run(s, acts) == s2;
    acts := Next(s, acts, Work(0, true));
    Received(s2, 0, d, n, m, v);
    var s3 := Run(s, acts);
    assert s3.chan[0] == m';
    acts := Next(s, acts, Work(1, true));
    Received(s3, 1, d, n, m', v');
  }

  lemma RaceMakes(s: System, d: int, n: string, m: Msg, m': Msg, v: FieldValue, v': FieldValue)
    returns (s': System)
    requires BothReceived(s, d, n, m, m', v, v') && n != "ts" && FindTag(s.tags, d, n).None?
    ensures s' == Ingest.Step(Ingest.Step(Ingest.Step(Ingest.Step(s, Work(0, true)), Work(1, true)),
                                          Work(0, true)), Work(1, true))
    ensures |s'.jobs| >= 2 && s'.submitted == s.submitted && s'.tags == s.tags
    ensures s'.jobs[0].Storing? && s'.jobs[0].task == Task(0, m, d, [Field(n, v)])
    ensures s'.jobs[0].tag.dataType == DataTypeOf(v)
    ensures s'.jobs[1].Storing? && s'.jobs[1].task == Task(1, m', d, [Field(n, v')])
    ensures s'.jobs[1].tag.dataType == DataTypeOf(v')
    ensures (d, n) in s'.db.rows && s'.db.rows[(d, n)].dataType == DataTypeOf(v')
  {
    hide FindTag, DataTypeOf;
    var s1 := Ingest.Step(s, Work(0, true));
    assert s1.jobs[0] == Creating(Task(0, m, d, [Field(n, v)]));
    var s2 := Ingest.Step(s1, Work(1, true));
    assert s2.jobs[1] == Creating(Task(1, m', d, [Field(n, v')]));
    var s3 := Ingest.Step(s2, Work(0, true));
    s' := Ingest.Step(s3, Work(1, true));
  }

  lemma RaceStores(s: System, d: int, n: string, m: Msg, m': Msg, v: FieldValue, v': FieldValue) returns (s': System)
    requires |s.jobs| >= 2 && DataTypeOf(v) != DataTypeOf(v')
    requires s.jobs[0].Storing? && s.jobs[0].task == Task(0, m, d, [Field(n, v)])
    requires s.jobs[0].tag.dataType == DataTypeOf(v)
    requires s.jobs[1].Storing? && s.jobs[1].task == Task(1, m', d, [Field(n, v')])
    requires (d, n) in s.db.rows && s.db.rows[(d, n)].dataType == DataTypeOf(v')
    ensures s' == Ingest.Step(Ingest.Step(s, Work(1, true)), Work(0, true))
    ensures !TypesAgree(s', d, n) && s'.submitted == s.submitted
  {
    hide FindTag, StoreTag, DataTypeOf;
    var s1 := Ingest.Step(s, Work(1, true));
    s' := Ingest.Step(s1, Work(0, true));
    FindAfterStoreTag(s1.tags, d, n, s.jobs[0].tag, d, n);
  }

  /** Two workers find the tag uncached, upsert it one after the other, and cache it in the other order. */
  lemma RaceSplits(s: System, d: int, n: string, m: Msg, m': Msg, v: FieldValue, v': FieldValue)
    returns (acts: seq<Act>)
    requires |s.jobs| >= 2 && s.jobs[0].Ready? && s.jobs[1].Ready? && s.capacity >= 2
    requires s.chan == [] && s.submitted == [] && s.openings == [] && !s.closed
    requires Names(s.devices, m, d) && Names(s.devices, m', d)
    requires m.body == Some([Field(n, v)]) && m'.body == Some([Field(n, v')])
    requires n != "ts" && FindTag(s.tags, d, n).None? && DataTypeOf(v) != DataTypeOf(v')
    ensures !TypesAgree(Run(s, acts), d, n) && Run(s, acts).submitted == [m, m']
  {
    hide Run, Ingest.Step, FindTag, DataTypeOf, TypesAgree;
    acts := RaceStarts(s, d, n, m, m', v, v');
    var s8 := RaceMakes(Run(s, acts), d, n, m, m', v, v');
    acts := Next(s, acts, Work(0, true));
    acts := Next(s, acts, Work(1, true));
    acts := Next(s, acts, Work(0, true));
    acts := Next(s, acts, Work(1, true));
    var s10 := RaceStores(s8, d, n, m, m', v, v');
    acts := Next(s, acts, Work(1, true));
    acts := Next(s, acts, Work(0, true));
  }

  // ---------- the answer ----------

  /** However the run goes, if all that the messages carry for the tag is among vs, its types agree. */
  ghost predicate AlwaysAgree(s: System, d: int, n: string, vs: iset<FieldValue>) {
    forall acts :: ValuesIn(Run(s, acts).submitted, s.devices, d, n, vs) ==> TypesAgree(Run(s, acts), d, n)
  }

  /** The type of one of the values, if there are any. */
  ghost function TypeIn(vs: iset<FieldValue>): string {
    if vs == iset{} then "" else var v :| v in vs; DataTypeOf(v)
  }

  lemma SafeRuns(s: System, acts: seq<Act>, d: int, n: string, vs: iset<FieldValue>)
    requires Ingest.Inv(s) && TypesAgree(s, d, n) && forall w :: 0 <= w < |s.jobs| ==> s.jobs[w].Ready?
    requires FindTag(s.tags, d, n).Some? || |s.jobs| <= 1 || OneType(vs) || n == "ts" || !Reports(s.devices, d)
    requires ValuesIn(Run(s, acts).submitted, s.devices, d, n, vs)
    ensures TypesAgree(Run(s, acts), d, n)
  {
    hide Ingest.Inv, FindTag, DataTypeOf, Run, TypesAgree;
    var t := if FindTag(s.tags, d, n).Some? || |s.jobs| <= 1 then None
             else Some(TypeIn(vs));
    assert forall w :: 0 <= w < |s.jobs| ==> MakerOk(s, s.jobs[w], d, n, t);
    RunKeepsTypes(s, acts, d, n, vs, t);
  }

  lemma SomeRunSplits(s: System, d: int, n: string, vs: iset<FieldValue>)
    requires |s.jobs| >= 2 && s.jobs[0].Ready? && s.jobs[1].Ready? && s.capacity >= 2
    requires s.chan == [] && s.submitted == [] && s.openings == [] && !s.closed
    requires FindTag(s.tags, d, n).None? && !OneType(vs) && n != "ts" && Reports(s.devices, d)
    ensures !AlwaysAgree(s, d, n, vs)
  {
    hide FindTag, DataTypeOf, TypesAgree, Run;
    var v, v' :| v in vs && v' in vs && DataTypeOf(v) != DataTypeOf(v');
    var lsid :| lsid != 0 && lsid in s.devices && s.devices[lsid] == d;
    var m, m' := Msg(lsid, 0, Some([Field(n, v)])), Msg(lsid, 0, Some([Field(n, v')]));
    var acts := RaceSplits(s, d, n, m, m', v, v');
    assert ValuesIn(Run(s, acts).submitted, s.devices, d, n, vs);
  }

  /** Exactly when the type of a cached tag is sure to be that of its row, in all runs from a start where it is:
      the tag is cached at the start, or there is one worker at most, or the values that messages may carry for
      it are all of one type (or no message can make it at all). */
  lemma TypesAgreeIff(live: bool, devices: map<int, int>, workers: nat, flushSize: nat,
                      tags: map<string, Tag>, db: TagTable, start: Trio<Table>, d: int, n: string, vs: iset<FieldValue>)
    requires TagCache.TableOk(db) && Agrees(tags, db)
    requires TypesAgree(Start(live, devices, workers, flushSize, tags, db, start), d, n)
    ensures AlwaysAgree(Start(live, devices, workers, flushSize, tags, db, start), d, n, vs)
       <==> FindTag(tags, d, n).Some? || workers <= 1 || OneType(vs) || n == "ts" || !Reports(devices, d)
  {
    var s := Start(live, devices, workers, flushSize, tags, db, start);
    StartInv(live, devices, workers, flushSize, tags, db, start);
    hide Ingest.Inv, FindTag, DataTypeOf, TypesAgree, Run;
    if FindTag(tags, d, n).Some? || workers <= 1 || OneType(vs) || n == "ts" || !Reports(devices, d) {
      forall acts | ValuesIn(Run(s, acts).submitted, s.devices, d, n, vs) ensures TypesAgree(Run(s, acts), d, n) {
        SafeRuns(s, acts, d, n, vs);
      }
    } else {
      SomeRunSplits(s, d, n, vs);
    }
  }
}
