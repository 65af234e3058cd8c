/** That shutting down gets done: after Shutdown the workers drain the channel and leave, whatever the
    interleaving. services/weatherlink-sql-backfill/service/worker_pool.go: worker, Shutdown. */
module PoolProgress {
  import opened Tables
  import opened TagCache
  import opened BatchProtocol
  import opened Ingest

  /** What a worker, or a thread inside the writer, does next; as opposed to a submission, a tick or a new
      call from outside. */
  predicate GoesOn(a: Act) { a.Work? || (a.Writer? && Finishing(a.c)) }

  /** Such a step in which neither an upsert, nor the saving of an orphan, nor a flush fails. */
  predicate GoesWell(a: Act) { (a.Work? && a.ok) || (a.Writer? && Succeeding(a.c)) }

  // ---------- a measure of what is left ----------

  function MsgCost(m: Msg): nat { 6 + if m.body.Some? then 40 * |m.body.value| else 0 }

  function ChanCost(ms: seq<Msg>): nat {
    if ms == [] then 0 else MsgCost(ms[0]) + ChanCost(ms[1..])
  }

  function JobCost(j: Job): nat {
    match j
    case Ready => 1
    case Looking(task) => 40 * |task.todo| + 5
    case Creating(task) => 40 * |task.todo| + 4
    case Storing(task, _) => 40 * |task.todo| + 3
    case Handing(task, _) => 40 * |task.todo| + 2
    case Waiting(task) => 40 * |task.todo| + 6
    case Exited => 0
  }

  function JobsCost(jobs: seq<Job>): nat {
    if jobs == [] then 0 else JobCost(jobs[0]) + JobsCost(jobs[1..])
  }

  /** An upper bound on the steps that workers and threads of the writer can still take. */
  function Left(s: System): nat { ChanCost(s.chan) + JobsCost(s.jobs) + BatchProtocol.Work(s.writer) }

  lemma {:induction false} JobMovesCost(jobs: seq<Job>, w: nat, j: Job)
    requires w < |jobs|
    ensures JobsCost(jobs[w := j]) + JobCost(jobs[w]) == JobsCost(jobs) + JobCost(j)
  {
    hide JobCost;
    if w == 0 {
      assert jobs[w := j][1..] == jobs[1..];
    } else {
      JobMovesCost(jobs[1..], w - 1, j);
      assert jobs[w := j][1..] == jobs[1..][w - 1 := j];
    }
  }

  /** The step changes one job, for a cheaper one, and neither channel nor writer. */
  ghost predicate Cheaper(s: System, s': System, w: nat) {
    && w < |s.jobs| == |s'.jobs| && s'.jobs == s.jobs[w := s'.jobs[w]]
    && s'.chan == s.chan && s'.writer == s.writer && JobCost(s'.jobs[w]) < JobCost(s.jobs[w])
  }

  lemma CheaperIsLess(s: System, s': System, w: nat)
    requires Cheaper(s, s', w)
    ensures Left(s') < Left(s)
  {
    JobMovesCost(s.jobs, w, s'.jobs[w]);
    hide JobCost, JobsCost, ChanCost, BatchProtocol.Work;
  }

  lemma ReceiveIsLess(s: System, w: nat, ok: bool)
    requires w < |s.jobs| && s.jobs[w].Ready? && Receive(s, w, ok) != s
    ensures Left(Receive(s, w, ok)) < Left(s)
  {
    var s' := Receive(s, w, ok);
    assert s'.jobs == s.jobs[w := s'.jobs[w]];
    JobMovesCost(s.jobs, w, s'.jobs[w]);
    hide JobsCost, BatchProtocol.Work;
  }

  lemma RejectIsLess(s: System, w: nat)
    requires w < |s.jobs| && s.jobs[w].Handing? && s.jobs[w].task.todo != []
    requires Route(s.jobs[w].tag.dataType, s.jobs[w].task.todo[0].value).Reject?
    ensures Left(Hand(s, w, s.jobs[w].task, s.jobs[w].tag)) < Left(s)
  {
    hide Route, Mark, Left;
    CheaperIsLess(s, Hand(s, w, s.jobs[w].task, s.jobs[w].tag), w);
  }

  lemma AcceptIsLess(s: System, w: nat, k: Kind, v: Value)
    requires WriterInv(s) && w < |s.jobs| && s.jobs[w].Handing? && s.jobs[w].task.todo != []
    requires Route(s.jobs[w].tag.dataType, s.jobs[w].task.todo[0].value) == Accept(k, v)
    ensures Left(Hand(s, w, s.jobs[w].task, s.jobs[w].tag)) < Left(s)
  {
    hide Route, Mark, BatchProtocol.Step, BatchProtocol.Inv, JobsCost, ChanCost, TotalRank, Trio.Get, Trio.With;
    var task, tag := s.jobs[w].task, s.jobs[w].tag;
    var rec := Rec(Key(tag.id, task.msg.ts), v);
    JobMoves(s, w, Waiting(Rest(task)));
    AddIsTaken(s.writer, w + 2, k, rec);
    MoveRank(s.writer.pcs, w + 2, WantAdd(k, rec));
    JobMovesCost(s.jobs, w, Waiting(Rest(task)));
  }

  lemma HandIsLess(s: System, w: nat)
    requires Ingest.Inv(s) && w < |s.jobs| && s.jobs[w].Handing?
    ensures Left(Hand(s, w, s.jobs[w].task, s.jobs[w].tag)) < Left(s)
  {
    var task, tag := s.jobs[w].task, s.jobs[w].tag;
    assert AtField(s.jobs[w]) && WriterInv(s);
    hide Route, Hand, Ingest.Inv, WriterInv, Left;
    match Route(tag.dataType, task.todo[0].value)
    case Reject => RejectIsLess(s, w);
    case Accept(k, v) => AcceptIsLess(s, w, k, v);
  }

  lemma LookIsCheaper(s: System, w: nat)
    requires w < |s.jobs| && s.jobs[w].Looking?
    ensures Cheaper(s, Look(s, w, s.jobs[w].task), w)
  {
    hide FindTag, Mark;
  }

  lemma MakeIsCheaper(s: System, w: nat, ok: bool)
    requires w < |s.jobs| && s.jobs[w].Creating? && s.jobs[w].task.todo != []
    ensures Cheaper(s, Make(s, w, s.jobs[w].task, ok), w)
  {
    hide Upsert, DataTypeOf, Mark;
  }

  lemma SaveIsCheaper(s: System, w: nat)
    requires w < |s.jobs| && s.jobs[w].Storing? && s.jobs[w].task.todo != []
    ensures Cheaper(s, Save(s, w, s.jobs[w].task, s.jobs[w].tag), w)
  {
    hide StoreTag;
  }

  lemma ReturnIsCheaper(s: System, w: nat)
    requires w < |s.jobs| && s.jobs[w].Waiting? && w + 2 < |s.writer.pcs| && s.writer.pcs[w + 2].Idle?
    ensures Cheaper(s, Return(s, w, s.jobs[w].task), w)
  {
  }

  /** A worker that has a field at hand, or whose call has returned, goes on at once. */
  lemma FieldIsLess(s: System, w: nat, ok: bool)
    requires w < |s.jobs| && AtField(s.jobs[w])
    requires s.jobs[w].Looking? || s.jobs[w].Creating? || s.jobs[w].Storing?
             || (s.jobs[w].Waiting? && w + 2 < |s.writer.pcs| && s.writer.pcs[w + 2].Idle?)
    ensures Left(WorkStep(s, w, ok)) < Left(s)
  {
    hide Look, Make, Save, Return, Cheaper, Left;
    match s.jobs[w] {
      case Looking(_) => LookIsCheaper(s, w);
      case Creating(_) => MakeIsCheaper(s, w, ok);
      case Storing(_, _) => SaveIsCheaper(s, w);
      case _ => ReturnIsCheaper(s, w);
    }
    CheaperIsLess(s, WorkStep(s, w, ok), w);
  }

  lemma WorkIsLess(s: System, w: nat, ok: bool)
    requires Ingest.Inv(s) && w < |s.jobs| && WorkStep(s, w, ok) != s
    ensures Left(WorkStep(s, w, ok)) < Left(s)
  {
    assert AtField(s.jobs[w]);
    hide Receive, Hand, Look, Make, Save, Ingest.Inv, Left, AtField;
    match s.jobs[w] {
      case Ready => ReceiveIsLess(s, w, ok);
      case Handing(_, _) => HandIsLess(s, w);
      case Exited =>
      case _ => FieldIsLess(s, w, ok);
    }
  }

  /** A step of a worker or of a thread in the writer changes nothing or leaves less to do. So no run takes
      more than Left(s) of them to any effect before something new is submitted or called. */
  lemma GoingOnIsLess(s: System, a: Act)
    requires Ingest.Inv(s) && GoesOn(a) && Ingest.Step(s, a) != s
    ensures Left(Ingest.Step(s, a)) < Left(s)
  {
    hide WorkStep, Ingest.Inv, BatchProtocol.Inv;
    if a.Work? {
      WorkIsLess(s, a.w, a.ok);
    } else {
      WriterIsLess(s, a.t, a.c);
    }
  }

  lemma WriterIsLess(s: System, t: nat, c: Choice)
    requires Ingest.Inv(s) && Finishing(c) && BatchProtocol.Step(s.writer, t, c) != s.writer
    ensures BatchProtocol.Work(BatchProtocol.Step(s.writer, t, c)) < BatchProtocol.Work(s.writer)
  {
    assert BatchProtocol.Inv(s.writer);
    hide Begin, Inside, Transaction, Acquire, Ingest.Inv, BatchProtocol.Inv, BatchProtocol.Work;
    WorkFalls(s.writer, t, c);
  }

  // ---------- somebody can go on ----------

  /** A worker that does not wait for anybody can go on. */
  lemma WorkerGoesOn(s: System, w: nat)
    requires Ingest.Inv(s) && w < |s.jobs| && !s.jobs[w].Exited?
    requires s.jobs[w].Ready? ==> s.closed || s.chan != []
    requires s.jobs[w].Waiting? ==> w + 2 < |s.writer.pcs| && s.writer.pcs[w + 2].Idle?
    ensures Left(WorkStep(s, w, true)) < Left(s)
  {
    assert AtField(s.jobs[w]);
    hide Receive, Hand, Look, Make, Save, Return, Ingest.Inv, Left, AtField;
    match s.jobs[w] {
      case Ready =>
        ReceiveDoesSomething(s, w);
        ReceiveIsLess(s, w, true);
      case Handing(_, _) => HandIsLess(s, w);
      case _ => FieldIsLess(s, w, true);
    }
  }

  lemma ReceiveDoesSomething(s: System, w: nat)
    requires (s.closed || s.chan != []) && w < |s.jobs| && s.jobs[w].Ready?
    ensures Receive(s, w, true) != s
  {
    assert s.chan == [] ==> Receive(s, w, true).jobs[w] == Exited;
    assert s.chan != [] ==> |Receive(s, w, true).chan| < |s.chan|;
  }

  /** The workers have left, or have nothing to do until something is submitted. */
  predicate Rested(s: System) {
    AllExited(s.jobs) || (!s.closed && s.chan == [] && forall w :: 0 <= w < |s.jobs| ==> s.jobs[w].Ready?)
  }

  /** Until the workers rest, some step goes on, and nothing need fail; so in the end they do, and after Shutdown
      all of them leave. */
  lemma SomebodyGoesOn(s: System)
    requires Ingest.Inv(s) && !Rested(s)
    ensures exists a :: GoesWell(a) && Left(Ingest.Step(s, a)) < Left(s)
  {
    var w := RestlessWorker(s);
    assert WriterInv(s);
    hide Left, WorkStep, BatchProtocol.Step, BatchProtocol.Inv, Enabled;
    if s.jobs[w].Waiting? && !s.writer.pcs[w + 2].Idle? {
      NotQuiet(s, w);
      BatchProtocol.Progress(s.writer);
      var t, c :| Enabled(s.writer, t, c) && Succeeding(c);
      WriterIsLess2(s, t, c);
      assert GoesWell(Writer(t, c));
    } else {
      WorkerGoesOn(s, w);
      assert GoesWell(Work(w, true));
      assert Ingest.Step(s, Work(w, true)) == WorkStep(s, w, true);
    }
  }

  lemma RestlessWorker(s: System) returns (w: nat)
    requires ExitInv(s) && !Rested(s)
    ensures w < |s.jobs| && !s.jobs[w].Exited? && (s.jobs[w].Ready? ==> s.closed || s.chan != [])
  {
    if s.closed || s.chan != [] {
      w :| 0 <= w < |s.jobs| && !s.jobs[w].Exited?;
    } else {
      w :| 0 <= w < |s.jobs| && !s.jobs[w].Ready?;
    }
  }

  lemma NotQuiet(s: System, w: nat)
    requires Ingest.Inv(s) && w < |s.jobs| && s.jobs[w].Waiting? && !s.writer.pcs[w + 2].Idle?
    ensures !Quiet(s.writer)
  {
    assert WriterInv(s);
    assert !s.writer.pcs[w + 2].Stopped? by { ClientsGoOn(s.writer, w + 2); }
  }

  lemma ClientsGoOn(s: State, t: nat)
    requires BatchProtocol.Inv(s) && 2 <= t < |s.pcs|
    ensures !s.pcs[t].Stopped?
  {
    hide LockInv, AccountInv, SizeInv;
  }

  lemma WriterIsLess2(s: System, t: nat, c: Choice)
    requires Ingest.Inv(s) && Enabled(s.writer, t, c) && Finishing(c)
    ensures Left(Ingest.Step(s, Writer(t, c))) < Left(s)
  {
    assert BatchProtocol.Inv(s.writer);
    hide BatchProtocol.Step, BatchProtocol.Inv, Enabled, Ingest.Inv, BatchProtocol.Work, JobsCost, ChanCost;
    WorkFalls(s.writer, t, c);
  }

  /** Nothing is submitted, the pool is closed or not as before, and no batch of the writer is lost. */
  ghost predicate Unchanged(s: System, s': System) {
    && s'.submitted == s.submitted && s'.closed == s.closed && s'.capacity == s.capacity
    && s'.writer.dropped == s.writer.dropped && |s'.jobs| == |s.jobs|
  }

  lemma HandUnchanged(s: System, w: nat, task: Task, tag: Tag)
    requires w < |s.jobs|
    ensures Unchanged(s, Hand(s, w, task, tag))
  {
    hide Mark, Route, BatchProtocol.Step;
    if task.todo != [] && Route(tag.dataType, task.todo[0].value).Accept? {
      var routed := Route(tag.dataType, task.todo[0].value);
      AddDropsNothing(s.writer, w + 2, routed.k, Rec(Key(tag.id, task.msg.ts), routed.value));
    }
  }

  lemma AddDropsNothing(s: State, t: nat, k: Kind, r: Rec)
    ensures BatchProtocol.Step(s, t, Add(k, r)).dropped == s.dropped
  {
    hide Trio.Get, Trio.With, InsertAll, Inside, Acquire;
    if t < |s.pcs| {
      InsideLeaves(s, t);
      AcquireLeaves(s, t);
    }
  }

  lemma NothingUnchanged(s: System)
    ensures Unchanged(s, s)
  {
  }

  lemma ReceiveUnchanged(s: System, w: nat, ok: bool)
    requires w < |s.jobs|
    ensures Unchanged(s, Receive(s, w, ok))
  {
  }

  lemma LookUnchanged(s: System, w: nat, task: Task)
    requires w < |s.jobs|
    ensures Unchanged(s, Look(s, w, task))
  {
    hide Mark, FindTag;
  }

  lemma MakeUnchanged(s: System, w: nat, task: Task, ok: bool)
    requires w < |s.jobs|
    ensures Unchanged(s, Make(s, w, task, ok))
  {
    hide Mark, Upsert, DataTypeOf;
  }

  lemma SaveUnchanged(s: System, w: nat, task: Task, tag: Tag)
    requires w < |s.jobs|
    ensures Unchanged(s, Save(s, w, task, tag))
  {
    hide StoreTag;
  }

  lemma ReturnUnchanged(s: System, w: nat, task: Task)
    requires w < |s.jobs|
    ensures Unchanged(s, Return(s, w, task))
  {
  }

  lemma WorkUnchanged(s: System, w: nat, ok: bool)
    requires w < |s.jobs|
    ensures Unchanged(s, WorkStep(s, w, ok))
  {
    hide Receive, Look, Make, Save, Hand, Return, Unchanged;
    match s.jobs[w] {
      case Ready => ReceiveUnchanged(s, w, ok);
      case Looking(task) => LookUnchanged(s, w, task);
      case Creating(task) => MakeUnchanged(s, w, task, ok);
      case Storing(task, tag) => SaveUnchanged(s, w, task, tag);
      case Handing(task, tag) => HandUnchanged(s, w, task, tag);
      case Waiting(task) => ReturnUnchanged(s, w, task);
      case Exited => NothingUnchanged(s);
    }
  }

  lemma StepUnchanged(s: System, a: Act)
    requires GoesWell(a)
    ensures Unchanged(s, Ingest.Step(s, a))
  {
    hide BatchProtocol.Step, WorkStep;
    if a.Work? && a.w < |s.jobs| {
      WorkUnchanged(s, a.w, a.ok);
    } else if a.Writer? {
      SucceedingLeaves(s.writer, a.t, a.c);
    }
  }

  /** Such a step, and what it leaves as it was. */
  lemma OneGoesOn(s: System) returns (a: Act)
    requires Ingest.Inv(s) && !Rested(s)
    ensures GoesWell(a) && Left(Ingest.Step(s, a)) < Left(s)
    ensures Ingest.Inv(Ingest.Step(s, a)) && Unchanged(s, Ingest.Step(s, a))
  {
    hide Ingest.Inv, Left, Ingest.Step, Rested, GoesWell;
    SomebodyGoesOn(s);
    a :| GoesWell(a) && Left(Ingest.Step(s, a)) < Left(s);
    StepKeepsAll(s, a);
    StepUnchanged(s, a);
  }

  /** From every reachable state a run of such steps alone, no longer than the measure, leads to one in which the
      workers rest. */
  lemma WorkersRest(s: System) returns (acts: seq<Act>)
    requires Ingest.Inv(s)
    ensures var s' := Run(s, acts); Rested(s') && Ingest.Inv(s') && Unchanged(s, s') && |acts| <= Left(s)
    ensures forall i :: 0 <= i < |acts| ==> GoesWell(acts[i])
    decreases Left(s)
  {
    hide Ingest.Inv, Left, Ingest.Step, Rested, GoesWell;
    acts := [];
    if !Rested(s) {
      var a := OneGoesOn(s);
      var more := WorkersRest(Ingest.Step(s, a));
      RunCons(s, a, more);
      acts := [a] + more;
    } else {
      assert Run(s, []) == s;
    }
  }

  /** After Shutdown such a run leads to a state in which all workers have left. */
  lemma WorkersLeave(s: System) returns (acts: seq<Act>)
    requires Ingest.Inv(s) && s.closed
    ensures var s' := Run(s, acts); AllExited(s'.jobs) && Ingest.Inv(s') && Unchanged(s, s') && |acts| <= Left(s)
    ensures forall i :: 0 <= i < |acts| ==> GoesWell(acts[i])
  {
    hide Ingest.Inv, Left, Run, AllExited, GoesWell;
    acts := WorkersRest(s);
  }

  lemma {:induction false} RunCons(s: System, a: Act, more: seq<Act>)
    ensures Run(s, [a] + more) == Run(Ingest.Step(s, a), more)
    decreases |more|
  {
    hide Ingest.Step;
    var all := [a] + more;
    if more == [] {
      assert all[..0] == [] && Run(s, all[..|all| - 1]) == s;
    } else {
      assert all[..|all| - 1] == [a] + more[..|more| - 1];
      RunCons(s, a, more[..|more| - 1]);
    }
  }

  lemma {:induction false} RunAppend(s: System, acts: seq<Act>, more: seq<Act>)
    ensures Run(s, acts + more) == Run(Run(s, acts), more)
    decreases |more|
  {
    hide Ingest.Step;
    var all := acts + more;
    if more == [] {
      assert all == acts;
    } else {
      assert all[..|all| - 1] == acts + more[..|more| - 1] && all[|all| - 1] == more[|more| - 1];
      RunAppend(s, acts, more[..|more| - 1]);
    }
  }

  // ---------- closing the writer ----------

  /** A schedule of the writer as steps of the system. */
  function Writes(sched: seq<(nat, Choice)>): (acts: seq<Act>)
    ensures |acts| == |sched| && forall i :: 0 <= i < |sched| ==> acts[i] == Writer(sched[i].0, sched[i].1)
  {
    seq(|sched|, i requires 0 <= i < |sched| => Writer(sched[i].0, sched[i].1))
  }

  /** Once the workers have left, the main goroutine may flush and close, and the threads of the writer go on. */
  lemma {:induction false} RunWrites(s: System, sched: seq<(nat, Choice)>)
    requires AllExited(s.jobs)
    requires forall i :: 0 <= i < |sched| ==> Succeeding(sched[i].1) || sched[i] == (CLOSER, Close)
    ensures Run(s, Writes(sched)) == s.(writer := Exec(s.writer, sched))
    decreases |sched|
  {
    if sched == [] {
      assert Writes(sched) == [];
    } else {
      hide BatchProtocol.Step;
      var front, last := sched[..|sched| - 1], sched[|sched| - 1];
      assert Writes(sched)[..|sched| - 1] == Writes(front);
      RunWrites(s, front);
      assert last == (last.0, last.1);
    }
  }

  /** With the workers gone, the writer can be closed, and no flush need fail. */
  lemma WriterCloses(s: System) returns (sched: seq<(nat, Choice)>)
    requires Ingest.Inv(s) && AllExited(s.jobs)
    ensures var w := Exec(s.writer, sched);
            && CLOSER < |w.pcs| && w.pcs[CLOSER].Stopped? && w.given == s.writer.given && w.dropped == s.writer.dropped
    ensures forall i :: 0 <= i < |sched| ==> Succeeding(sched[i].1) || sched[i] == (CLOSER, Close)
  {
    assert BatchProtocol.Inv(s.writer) && |s.writer.pcs| >= 2;
    hide Ingest.Inv, BatchProtocol.Inv, Quiet, Exec, AllExited, Succeeding;
    sched := FinishAll(s.writer);
    var w := Exec(s.writer, sched);
    BatchProtocol.ExecKeepsInv(s.writer, sched);
    if w.stop {
      ClosedWhenQuiet(w);
    } else {
      CloseMayBegin(w);
      var more := CloseReturns(w);
      ExecAppend(s.writer, sched, [(CLOSER, Close)] + more);
      sched := sched + ([(CLOSER, Close)] + more);
    }
  }

  lemma CloseMayBegin(s: State)
    requires BatchProtocol.Inv(s) && Quiet(s) && !s.stop
    ensures ClientsIdle(s.pcs) && s.pcs[CLOSER].Idle?
  {
    hide LockInv, AccountInv, SizeInv;
  }

  lemma {:induction false} ExecAppend(s: State, sched: seq<(nat, Choice)>, more: seq<(nat, Choice)>)
    ensures Exec(s, sched + more) == Exec(Exec(s, sched), more)
    decreases |more|
  {
    hide BatchProtocol.Step;
    var all := sched + more;
    if more == [] {
      assert all == sched;
    } else {
      assert all[..|all| - 1] == sched + more[..|more| - 1] && all[|all| - 1] == more[|more| - 1];
      ExecAppend(s, sched, more[..|more| - 1]);
    }
  }

  predicate GoesWellOrCloses(a: Act) { GoesWell(a) || a == Writer(CLOSER, Close) }

  /** From every state after Shutdown some run reaches the end: the workers leave, Close is called and returns.
      No flush of it fails, and nothing more is submitted. */
  lemma ShutdownCompletes(s: System) returns (acts: seq<Act>)
    requires Ingest.Inv(s) && s.closed
    ensures var s' := Run(s, acts);
            && AllExited(s'.jobs) && CLOSER < |s'.writer.pcs| && s'.writer.pcs[CLOSER].Stopped?
            && s'.submitted == s.submitted && s'.writer.dropped == s.writer.dropped
    ensures forall i :: 0 <= i < |acts| ==> GoesWellOrCloses(acts[i])
  {
    hide Ingest.Inv, Run, Exec, AllExited, Left, BatchProtocol.Inv;
    acts := WorkersLeave(s);
    var mid := Run(s, acts);
    var sched := WriterCloses(mid);
    RunWrites(mid, sched);
    RunAppend(s, acts, Writes(sched));
    acts := acts + Writes(sched);
  }

  // ---------- any load ----------

  /** Any messages can be submitted, one after the other, with the workers resting in between. */
  lemma {:induction false} AllAreSubmitted(s: System, ms: seq<Msg>) returns (acts: seq<Act>)
    requires Ingest.Inv(s) && Rested(s) && !s.closed && s.capacity > 0 && |s.jobs| > 0
    ensures var s' := Run(s, acts);
            && Ingest.Inv(s') && Rested(s') && !s'.closed && s'.capacity == s.capacity && |s'.jobs| == |s.jobs|
            && s'.submitted == s.submitted + ms && s'.writer.dropped == s.writer.dropped
    ensures forall i :: 0 <= i < |acts| ==> GoesWell(acts[i]) || acts[i].Submit?
    decreases |ms|
  {
    hide Ingest.Inv, Run, Left, GoesWell;
    acts := [];
    if ms == [] {
      assert Run(s, []) == s by { RunNothing(s); }
      assert s.submitted + ms == s.submitted;
    } else {
      acts := AllAreSubmitted(s, ms[..|ms| - 1]);
      var b, m := Run(s, acts), ms[|ms| - 1];
      NotExited(b);
      StepKeepsAll(b, Submit(m));
      var c := Ingest.Step(b, Submit(m));
      assert c.submitted == s.submitted + ms;
      var more := WorkersRest(c);
      RunCons(b, Submit(m), more);
      RunAppend(s, acts, [Submit(m)] + more);
      acts := acts + ([Submit(m)] + more);
    }
  }

  lemma RunNothing(s: System)
    ensures Run(s, []) == s
  {
  }

  lemma NotExited(s: System)
    requires Ingest.Inv(s) && Rested(s) && !s.closed && |s.jobs| > 0
    ensures s.chan == []
  {
    assert !s.jobs[0].Exited?;
  }

  lemma StartRests(live: bool, devices: map<int, int>, workers: nat, flushSize: nat, tags: map<string, Tag>,
                   db: TagTable, start: Trio<Table>)
    requires workers > 0
    ensures var s := Ingest.Start(live, devices, workers, flushSize, tags, db, start);
            && Rested(s) && !s.closed && s.capacity == 2 * workers && |s.jobs| == workers && s.submitted == []
            && forall k: Kind :: s.writer.dropped.Get(k) == multiset{}
  {
  }

  /** Then the pool is shut down. */
  lemma LoadAndShutdown(s: System, ms: seq<Msg>) returns (acts: seq<Act>)
    requires Ingest.Inv(s) && Rested(s) && !s.closed && s.capacity > 0 && |s.jobs| > 0
    ensures var s' := Run(s, acts);
            && Ingest.Inv(s') && s'.closed
            && s'.submitted == s.submitted + ms && s'.writer.dropped == s.writer.dropped
    ensures forall i :: 0 <= i < |acts| && acts[i].Work? ==> acts[i].ok
  {
    hide Ingest.Inv, Run, Rested;
    acts := AllAreSubmitted(s, ms);
    var b := Run(s, acts);
    StepKeepsAll(b, Shutdown);
    OneMoreStep(s, acts, Shutdown);
    acts := acts + [Shutdown];
  }

  lemma OneMoreStep(s: System, acts: seq<Act>, a: Act)
    ensures Run(s, acts + [a]) == Ingest.Step(Run(s, acts), a)
  {
    assert (acts + [a])[..|acts|] == acts;
  }

  /** Whatever is to be submitted, some run submits exactly that and ends with the writer closed and nothing lost,
      as the results about such runs ask for. */
  lemma EveryLoadDrains(live: bool, devices: map<int, int>, workers: nat, flushSize: nat, tags: map<string, Tag>,
                        db: TagTable, start: Trio<Table>, ms: seq<Msg>) returns (acts: seq<Act>)
    requires TagCache.TableOk(db) && Agrees(tags, db) && workers > 0
    ensures var s := Run(Ingest.Start(live, devices, workers, flushSize, tags, db, start), acts);
            s.submitted == ms && forall k: Kind :: ClosedCleanly(s, k)
    ensures forall i :: 0 <= i < |acts| && acts[i].Work? ==> acts[i].ok
  {
    var s0 := Ingest.Start(live, devices, workers, flushSize, tags, db, start);
    StartInv(live, devices, workers, flushSize, tags, db, start);
    StartRests(live, devices, workers, flushSize, tags, db, start);
    hide Ingest.Inv, Run, Ingest.Start, Trio.Get, Rested, AllExited, TagCache.TableOk, Agrees, Ingest.Step;
    assert [] + ms == ms;
    acts := LoadAndShutdown(s0, ms);
    var more := ShutdownCompletes(Run(s0, acts));
    RunAppend(s0, acts, more);
    acts := acts + more;
  }
}
