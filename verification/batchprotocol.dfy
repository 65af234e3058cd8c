/** BatchWriter as a protocol of threads over two mutexes:
    services/weatherlink-sql/repository/batch_writer.go (the backfill service has the same file).

    Thread 0 is the background flusher, thread 1 the caller of Close, every other thread a client. A step is
    one thread's next action: a lock is taken, or what the thread does up to its next lock operation.
    Kinds of record are handled alike; the source spells the three out. */
module BatchProtocol {
  import opened Tables

  const TICKER: nat := 0
  const CLOSER: nat := 1

  datatype Kind = Numeric | Textual | Null

  const ALL_KINDS: seq<Kind> := [Numeric, Textual, Null]

  lemma EveryKind()
    ensures forall k: Kind :: k in ALL_KINDS
  {
    forall k: Kind ensures k in ALL_KINDS {
      match k {
        case Numeric => assert ALL_KINDS[0] == k;
        case Textual => assert ALL_KINDS[1] == k;
        case Null => assert ALL_KINDS[2] == k;
      }
    }
  }

  datatype Trio<T> = Trio(num: T, txt: T, nul: T) {
    function Get(k: Kind): T {
      match k case Numeric => num case Textual => txt case Null => nul
    }
    function With(k: Kind, v: T): (r: Trio<T>)
      ensures forall j :: r.Get(j) == if j == k then v else Get(j)
    {
      match k case Numeric => this.(num := v) case Textual => this.(txt := v) case Null => this.(nul := v)
    }
  }

  /** Where a thread stands. `todo` lists the buffers its call has still to flush. */
  datatype Pc =
    | Idle
    | WantAdd(k: Kind, r: Rec)                          // waits for mutex to append
    | Adding(k: Kind, r: Rec)                           // holds mutex
    | WantFlush(todo: seq<Kind>)                        // waits for mutex in FlushAll
    | Flushing(todo: seq<Kind>)                         // holds mutex
    | Stolen(k: Kind, batch: seq<Rec>, todo: seq<Kind>)       // holds mutex, has emptied the buffer
    | WantCommit(k: Kind, batch: seq<Rec>, todo: seq<Kind>)   // waits for flushMutex
    | Committing(k: Kind, batch: seq<Rec>, todo: seq<Kind>)   // holds flushMutex, transaction open
    | Ended(k: Kind, batch: seq<Rec>, ok: bool, todo: seq<Kind>)     // holds flushMutex, transaction over
    | WantBack(k: Kind, batch: seq<Rec>, ok: bool, todo: seq<Kind>)  // waits for mutex
    | Back(k: Kind, batch: seq<Rec>, ok: bool, todo: seq<Kind>)      // holds mutex, about to count
    | AwaitTicker                                       // Close waits for the flusher to return
    | Stopped

  datatype Owner = Free | By(t: nat)

  /** The writer's fields and tables and each thread's position; then history: the tables at the start, the
      records given to the writer, those committed in the order the database took them, and those of failed
      flushes. */
  datatype State = State(
    start: Trio<Table>, flushSize: nat, pcs: seq<Pc>, mutex: Owner, flushMutex: Owner,
    buf: Trio<seq<Rec>>, table: Trio<Table>, inserts: Trio<int>, flushes: int, stop: bool,
    given: Trio<multiset<Rec>>, log: Trio<seq<Rec>>, dropped: Trio<multiset<Rec>>)

  /** What a step does beyond what its position says: which call an idle thread makes; in what order the
      database inserts a committed batch, or that the transaction fails. */
  datatype Choice = Add(k: Kind, r: Rec) | FlushAll | Close | Tick | Go | Commit(order: seq<Rec>) | Abort

  function Init(start: Trio<Table>, flushSize: nat, clients: nat): State {
    State(start, flushSize, seq(clients + 2, i => Idle), Free, Free,
          Trio([], [], []), start, Trio(0, 0, 0), 0, false,
          Trio(multiset{}, multiset{}, multiset{}), Trio([], [], []), Trio(multiset{}, multiset{}, multiset{}))
  }

  predicate ClientsIdle(pcs: seq<Pc>) {
    forall t :: 2 <= t < |pcs| ==> pcs[t].Idle?
  }

  predicate Enabled(s: State, t: nat, c: Choice) {
    t < |s.pcs| &&
    match s.pcs[t]
    case Idle =>
      (match c
       case Add(_, _) => t >= 2 && !s.stop
       case FlushAll => t >= 1 && !s.stop
       case Tick => t == TICKER
       case Close => t == CLOSER && !s.stop && ClientsIdle(s.pcs)
       case Go => t == TICKER && s.stop
       case _ => false)
    case WantAdd(_, _) => c == Go && s.mutex == Free
    case WantFlush(_) => c == Go && s.mutex == Free
    case WantBack(_, _, _, _) => c == Go && s.mutex == Free
    case WantCommit(_, _, _) => c == Go && s.flushMutex == Free
    case Committing(_, batch, _) => c == Abort || (c.Commit? && multiset(c.order) == multiset(batch))
    case AwaitTicker => c == Go && s.pcs[TICKER].Stopped?
    case Stopped => false
    case _ => c == Go
  }

  function At(s: State, t: nat, p: Pc): State
    requires t < |s.pcs|
  {
    s.(pcs := s.pcs[t := p])
  }

  /** What an idle thread does next. */
  function Begin(s: State, t: nat, c: Choice): State
    requires t < |s.pcs|
  {
    match c
    case Add(k, r) => At(s, t, WantAdd(k, r)).(given := s.given.With(k, s.given.Get(k) + multiset{r}))
    case Close => At(s, t, AwaitTicker).(stop := true)
    case Go => At(s, t, Stopped)
    case _ => At(s, t, WantFlush(ALL_KINDS))
  }

  /** The body of a critical section of `mutex`. */
  function Inside(s: State, t: nat): State
    requires t < |s.pcs|
  {
    match s.pcs[t]
    case Adding(k, r) =>
      var b := s.buf.Get(k) + [r];
      At(s, t, Flushing(if |b| >= s.flushSize then [k] else [])).(buf := s.buf.With(k, b))
    case Flushing(todo) =>
      if todo == [] then
        At(s, t, if t == CLOSER && s.stop then Stopped else Idle).(mutex := Free)
      else if s.buf.Get(todo[0]) == [] then At(s, t, Flushing(todo[1..]))
      else At(s, t, Stolen(todo[0], s.buf.Get(todo[0]), todo[1..])).(buf := s.buf.With(todo[0], []))
    case Stolen(k, batch, todo) => At(s, t, WantCommit(k, batch, todo)).(mutex := Free)
    case Back(k, batch, ok, todo) =>
      var s1 := At(s, t, Flushing(todo));
      if ok then s1.(inserts := s.inserts.With(k, s.inserts.Get(k) + |batch|), flushes := s.flushes + 1) else s1
    case _ => s
  }

  /** What happens between taking and releasing flushMutex. */
  function Transaction(s: State, t: nat, c: Choice): State
    requires t < |s.pcs|
  {
    match s.pcs[t]
    case Committing(k, batch, todo) =>
      if c.Commit? then
        At(s, t, Ended(k, batch, true, todo)).(
          table := s.table.With(k, InsertAll(s.table.Get(k), c.order)),
          log := s.log.With(k, s.log.Get(k) + c.order))
      else
        At(s, t, Ended(k, batch, false, todo)).(dropped := s.dropped.With(k, s.dropped.Get(k) + multiset(batch)))
    case Ended(k, batch, ok, todo) => At(s, t, WantBack(k, batch, ok, todo)).(flushMutex := Free)
    case _ => s
  }

  /** A waiting thread gets what it waits for. */
  function Acquire(s: State, t: nat): State
    requires t < |s.pcs|
  {
    match s.pcs[t]
    case WantAdd(k, r) => At(s, t, Adding(k, r)).(mutex := By(t))
    case WantFlush(todo) => At(s, t, Flushing(todo)).(mutex := By(t))
    case WantBack(k, batch, ok, todo) => At(s, t, Back(k, batch, ok, todo)).(mutex := By(t))
    case WantCommit(k, batch, todo) => At(s, t, Committing(k, batch, todo)).(flushMutex := By(t))
    case AwaitTicker => At(s, t, WantFlush(ALL_KINDS))
    case _ => s
  }

  /** One step; a step that is not enabled changes nothing, so every schedule is a run. */
  function Step(s: State, t: nat, c: Choice): State {
    if !Enabled(s, t, c) then s
    else if s.pcs[t].Idle? then Begin(s, t, c)
    else if HoldsMutex(s.pcs[t]) then Inside(s, t)
    else if HoldsFlushMutex(s.pcs[t]) then Transaction(s, t, c)
    else Acquire(s, t)
  }

  function Exec(s: State, sched: seq<(nat, Choice)>): State {
    if sched == [] then s
    else
      var last := sched[|sched| - 1];
      Step(Exec(s, sched[..|sched| - 1]), last.0, last.1)
  }

  // ---------- mutual exclusion ----------

  predicate HoldsMutex(p: Pc) { p.Adding? || p.Flushing? || p.Stolen? || p.Back? }

  predicate HoldsFlushMutex(p: Pc) { p.Committing? || p.Ended? }

  predicate WaitsForMutex(p: Pc) { p.WantAdd? || p.WantFlush? || p.WantBack? }

  predicate WaitsForFlushMutex(p: Pc) { p.WantCommit? }

  ghost predicate LockInv(s: State) {
    && |s.pcs| >= 2
    && (forall t :: 0 <= t < |s.pcs| ==> (s.mutex == By(t) <==> HoldsMutex(s.pcs[t])))
    && (forall t :: 0 <= t < |s.pcs| ==> (s.flushMutex == By(t) <==> HoldsFlushMutex(s.pcs[t])))
    && (s.mutex.By? ==> s.mutex.t < |s.pcs|)
    && (s.flushMutex.By? ==> s.flushMutex.t < |s.pcs|)
  }

  // ---------- records on their way ----------

  function Count(rs: seq<Rec>, r: Rec): nat { multiset(rs)[r] }

  /** How often a thread carries the record r of kind k, in no buffer and in no table yet. */
  function Carried(p: Pc, k: Kind, r: Rec): nat {
    match p
    case WantAdd(k', r') => if k' == k && r' == r then 1 else 0
    case Adding(k', r') => if k' == k && r' == r then 1 else 0
    case Stolen(k', batch, _) => if k' == k then Count(batch, r) else 0
    case WantCommit(k', batch, _) => if k' == k then Count(batch, r) else 0
    case Committing(k', batch, _) => if k' == k then Count(batch, r) else 0
    case _ => 0
  }

  /** The number of records a thread has committed and not yet counted. */
  function Uncounted(p: Pc, k: Kind): nat {
    match p
    case Ended(k', batch, ok, _) => if k' == k && ok then |batch| else 0
    case WantBack(k', batch, ok, _) => if k' == k && ok then |batch| else 0
    case Back(k', batch, ok, _) => if k' == k && ok then |batch| else 0
    case _ => 0
  }

  function AllCarried(pcs: seq<Pc>, k: Kind, r: Rec): nat {
    if pcs == [] then 0 else Carried(pcs[0], k, r) + AllCarried(pcs[1..], k, r)
  }

  function AllUncounted(pcs: seq<Pc>, k: Kind): nat {
    if pcs == [] then 0 else Uncounted(pcs[0], k) + AllUncounted(pcs[1..], k)
  }

  lemma {:induction false} MoveCarried(pcs: seq<Pc>, t: nat, p: Pc, k: Kind, r: Rec)
    requires t < |pcs|
    ensures AllCarried(pcs[t := p], k, r) + Carried(pcs[t], k, r) == AllCarried(pcs, k, r) + Carried(p, k, r)
  {
    hide Carried;
    if t == 0 {
      assert pcs[t := p][1..] == pcs[1..];
    } else {
      MoveCarried(pcs[1..], t - 1, p, k, r);
      assert pcs[t := p][1..] == pcs[1..][t - 1 := p];
    }
  }

  lemma {:induction false} MoveUncounted(pcs: seq<Pc>, t: nat, p: Pc, k: Kind)
    requires t < |pcs|
    ensures AllUncounted(pcs[t := p], k) + Uncounted(pcs[t], k) == AllUncounted(pcs, k) + Uncounted(p, k)
  {
    hide Uncounted;
    if t == 0 {
      assert pcs[t := p][1..] == pcs[1..];
    } else {
      MoveUncounted(pcs[1..], t - 1, p, k);
      assert pcs[t := p][1..] == pcs[1..][t - 1 := p];
    }
  }

  lemma {:induction false} NothingCarried(pcs: seq<Pc>, k: Kind, r: Rec)
    requires forall t :: 0 <= t < |pcs| ==> pcs[t].Idle? || pcs[t].Stopped?
    ensures AllCarried(pcs, k, r) == 0 && AllUncounted(pcs, k) == 0
  {
    if pcs != [] {
      NothingCarried(pcs[1..], k, r);
    }
  }

  /** Every record given is in exactly one place: with a thread, in the buffer, in the committed log, or
      dropped by a failed flush. */
  ghost predicate Accounted(s: State, k: Kind, r: Rec) {
    s.given.Get(k)[r] == AllCarried(s.pcs, k, r) + Count(s.buf.Get(k), r) + Count(s.log.Get(k), r) + s.dropped.Get(k)[r]
  }

  /** The table is the log inserted one record at a time; the counter lags behind the log by what threads
      have committed and not yet counted. */
  ghost predicate TableOk(s: State, k: Kind) {
    && s.table.Get(k) == InsertAll(s.start.Get(k), s.log.Get(k))
    && s.inserts.Get(k) + AllUncounted(s.pcs, k) == |s.log.Get(k)|
  }

  ghost predicate AccountInv(s: State) {
    && (forall k: Kind, r: Rec :: Accounted(s, k, r))
    && (forall k: Kind :: TableOk(s, k))
  }

  // ---------- sizes ----------

  function Cap(s: State): nat { if s.flushSize == 0 then 1 else s.flushSize }

  function BatchOf(p: Pc): seq<Rec> {
    match p
    case Stolen(_, batch, _) => batch
    case WantCommit(_, batch, _) => batch
    case Committing(_, batch, _) => batch
    case Ended(_, batch, _, _) => batch
    case WantBack(_, batch, _, _) => batch
    case Back(_, batch, _, _) => batch
    case _ => []
  }

  /** A buffer is below the limit, except while the thread that filled it is about to steal it. */
  ghost predicate SizeInv(s: State) {
    && (forall k: Kind :: |s.buf.Get(k)| <= Cap(s))
    && (forall k: Kind :: |s.buf.Get(k)| == Cap(s) ==>
          s.mutex.By? && s.mutex.t < |s.pcs| && s.pcs[s.mutex.t] == Flushing([k]))
    && (forall t :: 0 <= t < |s.pcs| ==> |BatchOf(s.pcs[t])| <= Cap(s))
  }

  // ---------- closing ----------

  /** The buffers the closing thread has still to look at. */
  function TodoOf(p: Pc): seq<Kind> {
    match p
    case WantFlush(todo) => todo
    case Flushing(todo) => todo
    case Stolen(_, _, todo) => todo
    case WantCommit(_, _, todo) => todo
    case Committing(_, _, todo) => todo
    case Ended(_, _, _, todo) => todo
    case WantBack(_, _, _, todo) => todo
    case Back(_, _, _, todo) => todo
    case _ => []
  }

  ghost predicate CloseInv(s: State) {
    && |s.pcs| >= 2
    && (forall t :: 2 <= t < |s.pcs| ==> !s.pcs[t].Stopped? && !s.pcs[t].AwaitTicker?)
    && !s.pcs[TICKER].AwaitTicker?
    && (!s.stop ==> !s.pcs[TICKER].Stopped? && !s.pcs[CLOSER].Stopped? && !s.pcs[CLOSER].AwaitTicker?)
    && !s.pcs[CLOSER].WantAdd? && !s.pcs[CLOSER].Adding?
    && (s.stop ==> ClientsIdle(s.pcs) && !s.pcs[CLOSER].Idle?)
    && (s.stop && !s.pcs[CLOSER].AwaitTicker? ==>
          s.pcs[TICKER].Stopped? && forall k: Kind :: k !in TodoOf(s.pcs[CLOSER]) ==> s.buf.Get(k) == [])
  }

  ghost predicate Inv(s: State) {
    LockInv(s) && AccountInv(s) && SizeInv(s) && CloseInv(s)
  }

  lemma InitInv(start: Trio<Table>, flushSize: nat, clients: nat)
    ensures Inv(Init(start, flushSize, clients))
  {
    var s := Init(start, flushSize, clients);
    forall k: Kind, r: Rec ensures Accounted(s, k, r) {
      NothingCarried(s.pcs, k, r);
    }
    forall k: Kind ensures TableOk(s, k) {
      NothingCarried(s.pcs, k, Rec(Key(0, 0), Nothing));
    }
  }

  /** How a step of thread t moves it and the locks: no other thread moves, a lock changes hands only from
      and to t or nobody, and t's new position says which locks it holds. */
  ghost predicate Moves(s: State, s': State, t: nat) {
    && t < |s.pcs| == |s'.pcs|
    && s'.pcs == s.pcs[t := s'.pcs[t]]
    && s'.flushSize == s.flushSize && s'.start == s.start
    && (s'.mutex == s.mutex || (s.mutex in {Free, By(t)} && s'.mutex in {Free, By(t)}))
    && (s'.flushMutex == s.flushMutex || (s.flushMutex in {Free, By(t)} && s'.flushMutex in {Free, By(t)}))
    && (HoldsMutex(s'.pcs[t]) <==> s'.mutex == By(t))
    && (HoldsFlushMutex(s'.pcs[t]) <==> s'.flushMutex == By(t))
  }

  lemma BeginMoves(s: State, t: nat, c: Choice)
    requires LockInv(s) && Enabled(s, t, c) && s.pcs[t].Idle?
    ensures Moves(s, Begin(s, t, c), t)
  {
  }

  lemma InsideMoves(s: State, t: nat)
    requires LockInv(s) && t < |s.pcs| && HoldsMutex(s.pcs[t])
    ensures Moves(s, Inside(s, t), t)
  {
    assert !HoldsFlushMutex(s.pcs[t]);
  }

  lemma TransactionMoves(s: State, t: nat, c: Choice)
    requires LockInv(s) && t < |s.pcs| && HoldsFlushMutex(s.pcs[t])
    ensures Moves(s, Transaction(s, t, c), t)
  {
    hide InsertAll;
    assert !HoldsMutex(s.pcs[t]);
  }

  lemma AcquireMoves(s: State, t: nat, c: Choice)
    requires LockInv(s) && Enabled(s, t, c)
    requires !s.pcs[t].Idle? && !HoldsMutex(s.pcs[t]) && !HoldsFlushMutex(s.pcs[t])
    ensures Moves(s, Acquire(s, t), t)
  {
  }

  lemma StepMoves(s: State, t: nat, c: Choice)
    requires LockInv(s) && Enabled(s, t, c)
    ensures Moves(s, Step(s, t, c), t)
  {
    hide Begin, Inside, Transaction, Acquire, Moves, LockInv;
    if s.pcs[t].Idle? {
      BeginMoves(s, t, c);
    } else if HoldsMutex(s.pcs[t]) {
      InsideMoves(s, t);
    } else if HoldsFlushMutex(s.pcs[t]) {
      TransactionMoves(s, t, c);
    } else {
      AcquireMoves(s, t, c);
    }
  }

  lemma StepKeepsLocks(s: State, t: nat, c: Choice)
    requires LockInv(s)
    ensures LockInv(Step(s, t, c))
  {
    if Enabled(s, t, c) {
      StepMoves(s, t, c);
    }
    hide Begin, Inside, Transaction, Acquire, Enabled;
    assert !Enabled(s, t, c) ==> Step(s, t, c) == s;
    hide Step;
  }

  lemma CountAppend(a: seq<Rec>, b: seq<Rec>, r: Rec)
    ensures Count(a + b, r) == Count(a, r) + Count(b, r)
  {
  }

  /** What a step of thread t adds for r is what it takes away elsewhere. */
  ghost predicate Balanced(s: State, s': State, t: nat, k: Kind, r: Rec) {
    && t < |s.pcs| == |s'.pcs|
    && s'.pcs == s.pcs[t := s'.pcs[t]]
    && s'.given.Get(k)[r] + Carried(s.pcs[t], k, r) + Count(s.buf.Get(k), r) + Count(s.log.Get(k), r) + s.dropped.Get(k)[r]
    == s.given.Get(k)[r] + Carried(s'.pcs[t], k, r) + Count(s'.buf.Get(k), r) + Count(s'.log.Get(k), r) + s'.dropped.Get(k)[r]
  }

  lemma AddBalanced(s: State, t: nat, k: Kind, r: Rec)
    requires t < |s.pcs| && s.pcs[t].Adding?
    ensures Balanced(s, Inside(s, t), t, k, r)
  {
    hide Trio.Get, Trio.With, Count;
    AppendOne(s.buf.Get(s.pcs[t].k), s.pcs[t].r, r);
  }

  lemma FlushBalanced(s: State, t: nat, k: Kind, r: Rec)
    requires t < |s.pcs| && s.pcs[t].Flushing?
    ensures Balanced(s, Inside(s, t), t, k, r)
  {
    hide Trio.Get, Trio.With, Count;
    CountNone(r);
  }

  lemma LeaveBalanced(s: State, t: nat, k: Kind, r: Rec)
    requires t < |s.pcs| && (s.pcs[t].Stolen? || s.pcs[t].Back?)
    ensures Balanced(s, Inside(s, t), t, k, r)
  {
    hide Trio.Get, Trio.With, Count;
  }

  lemma InsideBalanced(s: State, t: nat, k: Kind, r: Rec)
    requires t < |s.pcs| && HoldsMutex(s.pcs[t])
    ensures Balanced(s, Inside(s, t), t, k, r)
  {
    hide Inside, Balanced;
    if s.pcs[t].Adding? {
      AddBalanced(s, t, k, r);
    } else if s.pcs[t].Flushing? {
      FlushBalanced(s, t, k, r);
    } else {
      LeaveBalanced(s, t, k, r);
    }
  }

  lemma CountNone(r: Rec)
    ensures Count([], r) == 0
  {
  }

  lemma AppendOne(b: seq<Rec>, r': Rec, r: Rec)
    ensures Count(b + [r'], r) == Count(b, r) + if r' == r then 1 else 0
  {
  }

  lemma CommitBalanced(s: State, t: nat, order: seq<Rec>, k: Kind, r: Rec)
    requires t < |s.pcs| && s.pcs[t].Committing? && multiset(order) == multiset(s.pcs[t].batch)
    ensures Balanced(s, Transaction(s, t, Commit(order)), t, k, r)
  {
    hide Trio.Get, Trio.With, InsertAll;
    CountAppend(s.log.Get(s.pcs[t].k), order, r);
    assert Count(order, r) == Count(s.pcs[t].batch, r);
    hide Count;
  }

  lemma AbortBalanced(s: State, t: nat, k: Kind, r: Rec)
    requires t < |s.pcs| && s.pcs[t].Committing?
    ensures Balanced(s, Transaction(s, t, Abort), t, k, r)
  {
    hide Trio.Get, Trio.With;
    MultisetAdd(s.dropped.Get(s.pcs[t].k), multiset(s.pcs[t].batch), r);
  }

  lemma TransactionBalanced(s: State, t: nat, c: Choice, k: Kind, r: Rec)
    requires Enabled(s, t, c) && HoldsFlushMutex(s.pcs[t])
    ensures Balanced(s, Transaction(s, t, c), t, k, r)
  {
    hide Trio.Get, Trio.With, Count;
    if s.pcs[t].Committing? {
      if c.Commit? {
        CommitBalanced(s, t, c.order, k, r);
      } else {
        AbortBalanced(s, t, k, r);
      }
    }
  }

  lemma MultisetAdd(a: multiset<Rec>, b: multiset<Rec>, r: Rec)
    ensures (a + b)[r] == a[r] + b[r]
  {
  }

  lemma BeginBalanced(s: State, t: nat, c: Choice, k: Kind, r: Rec)
    requires Enabled(s, t, c) && s.pcs[t].Idle?
    ensures Balanced(s, Begin(s, t, c), t, k, r)
  {
    hide Trio.Get, Trio.With, Count;
    if c.Add? {
      MultisetAdd(s.given.Get(c.k), multiset{c.r}, r);
    }
  }

  lemma AcquireBalanced(s: State, t: nat, k: Kind, r: Rec)
    requires t < |s.pcs|
    ensures Balanced(s, Acquire(s, t), t, k, r)
  {
    hide Trio.Get, Trio.With, Count;
  }

  lemma StepKeepsAccounted(s: State, t: nat, c: Choice, k: Kind, r: Rec)
    requires Accounted(s, k, r)
    ensures Accounted(Step(s, t, c), k, r)
  {
    hide Begin, Inside, Transaction, Acquire, AllCarried, Carried, Count, Trio.Get;
    if Enabled(s, t, c) {
      if s.pcs[t].Idle? {
        BeginBalanced(s, t, c, k, r);
      } else if HoldsMutex(s.pcs[t]) {
        InsideBalanced(s, t, k, r);
      } else if HoldsFlushMutex(s.pcs[t]) {
        TransactionBalanced(s, t, c, k, r);
      } else {
        AcquireBalanced(s, t, k, r);
      }
      MoveCarried(s.pcs, t, Step(s, t, c).pcs[t], k, r);
    }
  }

  /** A step changes the table of k only together with the log. */
  ghost predicate Counted(s: State, s': State, t: nat, k: Kind) {
    && t < |s.pcs| == |s'.pcs|
    && s'.pcs == s.pcs[t := s'.pcs[t]]
    && s'.start == s.start
    && s'.inserts.Get(k) + Uncounted(s'.pcs[t], k) + |s.log.Get(k)|
    == s.inserts.Get(k) + Uncounted(s.pcs[t], k) + |s'.log.Get(k)|
    && exists more :: s'.log.Get(k) == s.log.Get(k) + more && s'.table.Get(k) == InsertAll(s.table.Get(k), more)
  }

  lemma SameLog(s: State, k: Kind)
    ensures s.log.Get(k) == s.log.Get(k) + [] && s.table.Get(k) == InsertAll(s.table.Get(k), [])
  {
  }

  lemma CommitCounted(s: State, t: nat, order: seq<Rec>, k: Kind)
    requires t < |s.pcs| && s.pcs[t].Committing? && multiset(order) == multiset(s.pcs[t].batch)
    ensures Counted(s, Transaction(s, t, Commit(order)), t, k)
  {
    hide InsertAll, Trio.Get, Trio.With;
    assert |order| == |multiset(order)| == |s.pcs[t].batch|;
    SameLog(s, k);
    var s' := Transaction(s, t, Commit(order));
    var more := if k == s.pcs[t].k then order else [];
    assert s'.log.Get(k) == s.log.Get(k) + more && s'.table.Get(k) == InsertAll(s.table.Get(k), more);
  }

  lemma TransactionCounted(s: State, t: nat, c: Choice, k: Kind)
    requires Enabled(s, t, c) && HoldsFlushMutex(s.pcs[t])
    ensures Counted(s, Transaction(s, t, c), t, k)
  {
    hide InsertAll, Trio.Get, Trio.With;
    if c.Commit? {
      CommitCounted(s, t, c.order, k);
    } else {
      SameLog(s, k);
    }
  }

  lemma InsideCounted(s: State, t: nat, k: Kind)
    requires t < |s.pcs| && HoldsMutex(s.pcs[t])
    ensures Counted(s, Inside(s, t), t, k)
  {
    SameLog(s, k);
    hide InsertAll, Trio.Get, Trio.With;
  }

  lemma BeginCounted(s: State, t: nat, c: Choice, k: Kind)
    requires t < |s.pcs| && s.pcs[t].Idle?
    ensures Counted(s, Begin(s, t, c), t, k)
  {
    SameLog(s, k);
    hide InsertAll, Trio.Get, Trio.With;
  }

  lemma AcquireCounted(s: State, t: nat, k: Kind)
    requires t < |s.pcs|
    ensures Counted(s, Acquire(s, t), t, k)
  {
    SameLog(s, k);
    hide InsertAll, Trio.Get, Trio.With;
  }

  lemma StepCounted(s: State, t: nat, c: Choice, k: Kind)
    requires Enabled(s, t, c)
    ensures Counted(s, Step(s, t, c), t, k)
  {
    hide Begin, Inside, Transaction, Acquire, Counted;
    if s.pcs[t].Idle? {
      BeginCounted(s, t, c, k);
    } else if HoldsMutex(s.pcs[t]) {
      InsideCounted(s, t, k);
    } else if HoldsFlushMutex(s.pcs[t]) {
      TransactionCounted(s, t, c, k);
    } else {
      AcquireCounted(s, t, k);
    }
  }

  lemma StepKeepsTable(s: State, t: nat, c: Choice, k: Kind)
    requires TableOk(s, k)
    ensures TableOk(Step(s, t, c), k)
  {
    if Enabled(s, t, c) {
      StepCounted(s, t, c, k);
      hide Step, AllUncounted, Uncounted, InsertAll, Trio.Get;
      var s' := Step(s, t, c);
      MoveUncounted(s.pcs, t, s'.pcs[t], k);
      var more :| s'.log.Get(k) == s.log.Get(k) + more && s'.table.Get(k) == InsertAll(s.table.Get(k), more);
      InsertAllAppend(s.start.Get(k), s.log.Get(k), more);
    }
  }

  lemma AddSizes(s: State, t: nat)
    requires LockInv(s) && SizeInv(s) && t < |s.pcs| && s.pcs[t].Adding?
    ensures SizeInv(Inside(s, t))
  {
    assert s.mutex == By(t);
    hide Trio.Get, Trio.With, LockInv;
  }

  lemma FlushSizes(s: State, t: nat)
    requires LockInv(s) && SizeInv(s) && t < |s.pcs| && s.pcs[t].Flushing?
    ensures SizeInv(Inside(s, t))
  {
    assert s.mutex == By(t);
    hide Trio.Get, Trio.With, LockInv;
  }

  lemma InsideSizes(s: State, t: nat)
    requires LockInv(s) && SizeInv(s) && t < |s.pcs| && HoldsMutex(s.pcs[t]) && !s.pcs[t].Adding?
    ensures SizeInv(Inside(s, t))
  {
    assert s.mutex == By(t);
    if s.pcs[t].Flushing? {
      FlushSizes(s, t);
    } else {
      hide Trio.Get, Trio.With, LockInv;
    }
  }

  lemma AcquireBuffers(s: State, t: nat)
    requires t < |s.pcs|
    ensures Acquire(s, t).buf == s.buf
    ensures |BatchOf(Acquire(s, t).pcs[t])| <= |BatchOf(s.pcs[t])|
  {
  }

  lemma BatchOnlyFromBuffer(s: State, t: nat, c: Choice)
    requires Enabled(s, t, c) && !HoldsMutex(s.pcs[t])
    ensures Step(s, t, c).buf == s.buf
    ensures |BatchOf(Step(s, t, c).pcs[t])| <= |BatchOf(s.pcs[t])|
  {
    hide InsertAll, Trio.Get, Trio.With, Acquire, Inside;
    AcquireBuffers(s, t);
  }

  lemma OutsideSizes(s: State, t: nat, c: Choice)
    requires LockInv(s) && SizeInv(s) && Enabled(s, t, c) && !HoldsMutex(s.pcs[t])
    ensures SizeInv(Step(s, t, c))
  {
    StepMoves(s, t, c);
    assert s.mutex != By(t);
    BatchOnlyFromBuffer(s, t, c);
    hide InsertAll, Trio.Get, Trio.With, Step, LockInv, BatchOf, Enabled;
  }

  lemma StepKeepsSizes(s: State, t: nat, c: Choice)
    requires LockInv(s) && SizeInv(s)
    ensures SizeInv(Step(s, t, c))
  {
    hide Begin, Inside, Transaction, Acquire, SizeInv;
    if Enabled(s, t, c) {
      if s.pcs[t].Adding? {
        AddSizes(s, t);
      } else if HoldsMutex(s.pcs[t]) {
        InsideSizes(s, t);
      } else {
        OutsideSizes(s, t, c);
      }
    }
  }

  lemma BeginClosing(s: State, t: nat, c: Choice)
    requires CloseInv(s) && Enabled(s, t, c) && s.pcs[t].Idle?
    ensures CloseInv(Begin(s, t, c))
  {
    hide Trio.Get, Trio.With;
  }

  lemma InsideClosing(s: State, t: nat)
    requires CloseInv(s) && t < |s.pcs| && HoldsMutex(s.pcs[t])
    ensures CloseInv(Inside(s, t))
  {
    hide Trio.Get, Trio.With;
  }

  lemma TransactionClosing(s: State, t: nat, c: Choice)
    requires CloseInv(s) && t < |s.pcs| && HoldsFlushMutex(s.pcs[t])
    ensures CloseInv(Transaction(s, t, c))
  {
    hide Trio.Get, Trio.With, InsertAll;
  }

  lemma AcquireClosing(s: State, t: nat, c: Choice)
    requires CloseInv(s) && Enabled(s, t, c)
    requires !s.pcs[t].Idle? && !HoldsMutex(s.pcs[t]) && !HoldsFlushMutex(s.pcs[t])
    ensures CloseInv(Acquire(s, t))
  {
    EveryKind();
    hide Trio.Get, Trio.With, ALL_KINDS;
  }

  lemma StepKeepsClosing(s: State, t: nat, c: Choice)
    requires CloseInv(s)
    ensures CloseInv(Step(s, t, c))
  {
    hide Begin, Inside, Transaction, Acquire, CloseInv;
    if Enabled(s, t, c) {
      if s.pcs[t].Idle? {
        BeginClosing(s, t, c);
      } else if HoldsMutex(s.pcs[t]) {
        InsideClosing(s, t);
      } else if HoldsFlushMutex(s.pcs[t]) {
        TransactionClosing(s, t, c);
      } else {
        AcquireClosing(s, t, c);
      }
    }
  }

  lemma StepKeepsInv(s: State, t: nat, c: Choice)
    requires Inv(s)
    ensures Inv(Step(s, t, c))
  {
    hide Step, Accounted, TableOk;
    StepKeepsLocks(s, t, c);
    StepKeepsSizes(s, t, c);
    StepKeepsClosing(s, t, c);
    forall k: Kind, r: Rec ensures Accounted(Step(s, t, c), k, r) {
      assert Accounted(s, k, r);
      StepKeepsAccounted(s, t, c, k, r);
    }
    forall k: Kind ensures TableOk(Step(s, t, c), k) {
      assert TableOk(s, k);
      StepKeepsTable(s, t, c, k);
    }
  }

  lemma {:induction false} ExecKeepsInv(s: State, sched: seq<(nat, Choice)>)
    requires Inv(s)
    ensures Inv(Exec(s, sched))
    decreases |sched|
  {
    if sched != [] {
      ExecKeepsInv(s, sched[..|sched| - 1]);
      StepKeepsInv(Exec(s, sched[..|sched| - 1]), sched[|sched| - 1].0, sched[|sched| - 1].1);
    }
  }

  // ---------- what the protocol promises ----------

  /** In every run, transactions exclude one another, so do the sections under the buffer mutex, and no
      thread holds or waits for one mutex while it holds the other. */
  lemma MutualExclusion(start: Trio<Table>, flushSize: nat, clients: nat, sched: seq<(nat, Choice)>, t: nat, u: nat)
    requires var s := Exec(Init(start, flushSize, clients), sched); t < |s.pcs| && u < |s.pcs|
    ensures var p := Exec(Init(start, flushSize, clients), sched).pcs[t];
            var q := Exec(Init(start, flushSize, clients), sched).pcs[u];
            && (HoldsMutex(p) && HoldsMutex(q) ==> t == u)
            && (HoldsFlushMutex(p) && HoldsFlushMutex(q) ==> t == u)
            && !(HoldsMutex(p) && (HoldsFlushMutex(p) || WaitsForFlushMutex(p)))
            && !(HoldsFlushMutex(p) && (HoldsMutex(p) || WaitsForMutex(p)))
  {
    InitInv(start, flushSize, clients);
    ExecKeepsInv(Init(start, flushSize, clients), sched);
    hide Exec;
  }

  /** In every run, no batch exceeds the flush size, and whenever the buffer mutex is free every buffer is
      below it. (A flush size of 0 acts like 1.) */
  lemma SizesBounded(start: Trio<Table>, flushSize: nat, clients: nat, sched: seq<(nat, Choice)>, k: Kind, t: nat)
    requires t < |Exec(Init(start, flushSize, clients), sched).pcs|
    ensures var s, cap := Exec(Init(start, flushSize, clients), sched), (if flushSize == 0 then 1 else flushSize);
            && (s.mutex == Free ==> |s.buf.Get(k)| < cap)
            && |s.buf.Get(k)| <= cap
            && |BatchOf(s.pcs[t])| <= cap
  {
    InitInv(start, flushSize, clients);
    ExecKeepsInv(Init(start, flushSize, clients), sched);
    ConstantsFixed(Init(start, flushSize, clients), sched);
    hide Exec;
  }

  lemma {:induction false} ConstantsFixed(s: State, sched: seq<(nat, Choice)>)
    requires Inv(s)
    ensures Exec(s, sched).flushSize == s.flushSize && Exec(s, sched).start == s.start
    decreases |sched|
  {
    if sched != [] {
      var front, last := sched[..|sched| - 1], sched[|sched| - 1];
      ConstantsFixed(s, front);
      ExecKeepsInv(s, front);
      if Enabled(Exec(s, front), last.0, last.1) {
        StepMoves(Exec(s, front), last.0, last.1);
      }
    }
  }

  /** In every run and for every record: given = with a thread + buffered + committed + dropped. */
  lemma Conservation(start: Trio<Table>, flushSize: nat, clients: nat, sched: seq<(nat, Choice)>, k: Kind, r: Rec)
    ensures var s := Exec(Init(start, flushSize, clients), sched);
            && s.given.Get(k)[r]
               == AllCarried(s.pcs, k, r) + Count(s.buf.Get(k), r) + Count(s.log.Get(k), r) + s.dropped.Get(k)[r]
            && s.table.Get(k) == InsertAll(start.Get(k), s.log.Get(k))
            && s.inserts.Get(k) <= |s.log.Get(k)|
  {
    InitInv(start, flushSize, clients);
    ExecKeepsInv(Init(start, flushSize, clients), sched);
    assert Accounted(Exec(Init(start, flushSize, clients), sched), k, r);
    assert TableOk(Exec(Init(start, flushSize, clients), sched), k);
    ConstantsFixed(Init(start, flushSize, clients), sched);
  }

  // ---------- progress ----------

  /** Steps that go on with a call, as opposed to starting one. */
  predicate Finishing(c: Choice) { c.Go? || c.Commit? || c.Abort? }

  /** Such a step that fails no flush. */
  predicate Succeeding(c: Choice) { c.Go? || c.Commit? }

  /** Nobody is in a call, and the flusher has returned if it was told to. */
  predicate Quiet(s: State) {
    && (forall t :: 0 <= t < |s.pcs| ==> s.pcs[t].Idle? || s.pcs[t].Stopped?)
    && (s.stop && |s.pcs| > 0 ==> s.pcs[TICKER].Stopped?)
  }

  function Rank(p: Pc): nat {
    match p
    case Idle => 0
    case WantAdd(_, _) => 11
    case Adding(_, _) => 10
    case WantFlush(todo) => 2 + 8 * |todo|
    case Flushing(todo) => 1 + 8 * |todo|
    case Stolen(_, _, todo) => 7 + 8 * |todo|
    case WantCommit(_, _, todo) => 6 + 8 * |todo|
    case Committing(_, _, todo) => 5 + 8 * |todo|
    case Ended(_, _, _, todo) => 4 + 8 * |todo|
    case WantBack(_, _, _, todo) => 3 + 8 * |todo|
    case Back(_, _, _, todo) => 2 + 8 * |todo|
    case AwaitTicker => 27
    case Stopped => 0
  }

  /** An upper bound on the finishing steps still to come. */
  function Work(s: State): nat {
    TotalRank(s.pcs) + (if |s.pcs| > 0 && s.pcs[TICKER].Stopped? then 0 else 1)
  }

  function TotalRank(pcs: seq<Pc>): nat {
    if pcs == [] then 0 else Rank(pcs[0]) + TotalRank(pcs[1..])
  }

  lemma {:induction false} MoveRank(pcs: seq<Pc>, t: nat, p: Pc)
    requires t < |pcs|
    ensures TotalRank(pcs[t := p]) + Rank(pcs[t]) == TotalRank(pcs) + Rank(p)
  {
    hide Rank;
    if t == 0 {
      assert pcs[t := p][1..] == pcs[1..];
    } else {
      MoveRank(pcs[1..], t - 1, p);
      assert pcs[t := p][1..] == pcs[1..][t - 1 := p];
    }
  }

  lemma InsideRankFalls(s: State, t: nat)
    requires t < |s.pcs| && HoldsMutex(s.pcs[t])
    ensures Rank(Inside(s, t).pcs[t]) < Rank(s.pcs[t])
  {
    hide Trio.Get, Trio.With;
  }

  lemma TransactionRankFalls(s: State, t: nat, c: Choice)
    requires t < |s.pcs| && HoldsFlushMutex(s.pcs[t])
    ensures Rank(Transaction(s, t, c).pcs[t]) < Rank(s.pcs[t])
  {
    hide Trio.Get, Trio.With, InsertAll;
  }

  lemma AcquireRankFalls(s: State, t: nat, c: Choice)
    requires Enabled(s, t, c)
    requires !s.pcs[t].Idle? && !HoldsMutex(s.pcs[t]) && !HoldsFlushMutex(s.pcs[t])
    ensures Rank(Acquire(s, t).pcs[t]) < Rank(s.pcs[t])
  {
    hide Trio.Get, Trio.With;
  }

  /** A finishing step moves its thread on; an idle one takes such a step only as the flusher, to stop. */
  lemma RankFalls(s: State, t: nat, c: Choice)
    requires Enabled(s, t, c) && Finishing(c)
    ensures Rank(Step(s, t, c).pcs[t]) < Rank(s.pcs[t])
         || (t == TICKER && s.pcs[t].Idle? && Step(s, t, c).pcs[t].Stopped?)
    ensures !s.pcs[t].Stopped?
  {
    hide Inside, Transaction, Acquire, Rank;
    if !s.pcs[t].Idle? {
      if HoldsMutex(s.pcs[t]) {
        InsideRankFalls(s, t);
      } else if HoldsFlushMutex(s.pcs[t]) {
        TransactionRankFalls(s, t, c);
      } else {
        AcquireRankFalls(s, t, c);
      }
    }
    assert Rank(Idle) == 0 by { IdleRank(); }
  }

  lemma IdleRank()
    ensures Rank(Idle) == 0 && Rank(Stopped) == 0
  {
  }

  /** Every finishing step leaves less to do. So at most Work(s) of them can be taken before a new call is
      made, whatever the schedule and whichever flushes fail. */
  lemma WorkFalls(s: State, t: nat, c: Choice)
    requires Inv(s) && Enabled(s, t, c) && Finishing(c)
    ensures Work(Step(s, t, c)) < Work(s)
  {
    StepMoves(s, t, c);
    MoveRank(s.pcs, t, Step(s, t, c).pcs[t]);
    RankFalls(s, t, c);
    hide Step, TotalRank, Rank, Enabled, LockInv, AccountInv, SizeInv, CloseInv;
    IdleRank();
  }

  /** Unless all is quiet, some thread can take a finishing step, and no flush need fail: there is no deadlock. */
  lemma Progress(s: State)
    requires Inv(s) && !Quiet(s)
    ensures exists t, c :: Enabled(s, t, c) && Succeeding(c)
  {
    hide AccountInv, SizeInv;
    if s.mutex.By? {
      assert Enabled(s, s.mutex.t, Go);
    } else if s.flushMutex.By? {
      var t := s.flushMutex.t;
      assert HoldsFlushMutex(s.pcs[t]);
      assert Enabled(s, t, if s.pcs[t].Ended? then Go else Commit(s.pcs[t].batch));
    } else if s.stop && s.pcs[TICKER].Idle? {
      assert Enabled(s, TICKER, Go);
    } else if !s.pcs[TICKER].Idle? && !s.pcs[TICKER].Stopped? {
      assert Enabled(s, TICKER, Go);
    } else {
      var t :| 0 <= t < |s.pcs| && !s.pcs[t].Idle? && !s.pcs[t].Stopped?;
      assert Enabled(s, t, Go);
    }
  }

  /** Nothing is given to the writer, nothing dropped, and its closing is not begun. */
  ghost predicate Leaves(s: State, s': State) {
    s'.given == s.given && s'.dropped == s.dropped && s'.stop == s.stop && |s'.pcs| == |s.pcs|
  }

  lemma SucceedingLeaves(s: State, t: nat, c: Choice)
    requires Succeeding(c)
    ensures Leaves(s, Step(s, t, c))
  {
    hide InsertAll, Trio.Get, Trio.With, Inside, Acquire, Transaction;
    if Enabled(s, t, c) && !s.pcs[t].Idle? {
      InsideLeaves(s, t);
      AcquireLeaves(s, t);
      TransactionLeaves(s, t, c);
    }
  }

  lemma InsideLeaves(s: State, t: nat)
    requires t < |s.pcs|
    ensures Leaves(s, Inside(s, t))
  {
    hide Trio.Get, Trio.With;
  }

  lemma AcquireLeaves(s: State, t: nat)
    requires t < |s.pcs|
    ensures Leaves(s, Acquire(s, t))
  {
  }

  lemma TransactionLeaves(s: State, t: nat, c: Choice)
    requires t < |s.pcs| && (s.pcs[t].Committing? ==> c.Commit?)
    ensures Leaves(s, Transaction(s, t, c))
  {
    hide Trio.Get, Trio.With, InsertAll;
  }

  /** A quiet state is always within reach by finishing steps alone, and none of them need fail a flush. */
  lemma QuietReachable(s: State)
    requires Inv(s)
    ensures exists sched: seq<(nat, Choice)> :: Quiet(Exec(s, sched)) && |sched| <= Work(s)
                            && forall i :: 0 <= i < |sched| ==> Succeeding(sched[i].1)
  {
    hide Inv, Quiet, Exec, Work;
    var sched := FinishAll(s);
  }

  lemma FinishAll(s: State) returns (sched: seq<(nat, Choice)>)
    requires Inv(s)
    ensures Quiet(Exec(s, sched)) && |sched| <= Work(s)
    ensures Leaves(s, Exec(s, sched))
    ensures forall i :: 0 <= i < |sched| ==> Succeeding(sched[i].1)
    decreases Work(s)
  {
    sched := [];
    if !Quiet(s) {
      Progress(s);
      var t, c :| Enabled(s, t, c) && Succeeding(c);
      StepKeepsInv(s, t, c);
      WorkFalls(s, t, c);
      SucceedingLeaves(s, t, c);
      hide Inv, Quiet, Work, Enabled, Step;
      var more := FinishAll(Step(s, t, c));
      ExecCons(s, t, c, more);
      sched := [(t, c)] + more;
    }
  }

  lemma {:induction false} ExecCons(s: State, t: nat, c: Choice, more: seq<(nat, Choice)>)
    ensures Exec(s, [(t, c)] + more) == Exec(Step(s, t, c), more)
    decreases |more|
  {
    hide Step;
    var all := [(t, c)] + more;
    if more == [] {
      assert all[..0] == [];
      assert Exec(s, all[..|all| - 1]) == s;
    } else {
      assert all[..|all| - 1] == [(t, c)] + more[..|more| - 1];
      ExecCons(s, t, c, more[..|more| - 1]);
    }
  }

  // ---------- Close ----------

  /** Close, once begun, has returned or some thread can go on. Since each finishing step leaves less to do, it
      returns in the end whatever the schedule. */
  lemma CloseGoesOn(s: State)
    requires Inv(s) && s.stop && !s.pcs[CLOSER].Stopped?
    ensures exists t, c :: Enabled(s, t, c) && Succeeding(c)
  {
    if Quiet(s) {
      ClosedWhenQuiet(s);
    }
    hide Inv, Quiet;
    Progress(s);
  }

  lemma ClosedWhenQuiet(s: State)
    requires Inv(s) && s.stop && Quiet(s)
    ensures s.pcs[CLOSER].Stopped?
  {
  }

  /** Whenever Close may be called, calling it and letting the threads finish leads to its return, with no record
      given in between and none dropped. */
  lemma CloseReturns(s: State) returns (more: seq<(nat, Choice)>)
    requires Inv(s) && !s.stop && ClientsIdle(s.pcs) && s.pcs[CLOSER].Idle?
    ensures var s' := Exec(s, [(CLOSER, Close)] + more);
            && CLOSER < |s'.pcs| && s'.pcs[CLOSER].Stopped?
            && s'.given == s.given && s'.dropped == s.dropped
    ensures forall i :: 0 <= i < |more| ==> Succeeding(more[i].1)
  {
    var s1 := Step(s, CLOSER, Close);
    assert s1.stop && s1.given == s.given && s1.dropped == s.dropped;
    StepKeepsInv(s, CLOSER, Close);
    hide Inv, Step, Quiet;
    more := FinishAll(s1);
    ExecCons(s, CLOSER, Close, more);
    ExecKeepsInv(s1, more);
    ClosedWhenQuiet(Exec(s1, more));
  }

  // ---------- after Close ----------

  /** At quiescence each record given is buffered, committed or dropped, and the counters are the sizes of
      what was committed. */
  lemma QuietAccounts(s: State, k: Kind)
    requires Inv(s) && Quiet(s)
    ensures s.given.Get(k) == multiset(s.buf.Get(k)) + multiset(s.log.Get(k)) + s.dropped.Get(k)
    ensures s.inserts.Get(k) == |s.log.Get(k)|
  {
    forall r: Rec
      ensures s.given.Get(k)[r] == (multiset(s.buf.Get(k)) + multiset(s.log.Get(k)) + s.dropped.Get(k))[r]
    {
      assert Accounted(s, k, r);
      NothingCarried(s.pcs, k, r);
    }
    assert TableOk(s, k);
    NothingCarried(s.pcs, k, Rec(Key(0, 0), Nothing));
  }

  /** Once Close has returned, nothing is under way and every buffer is empty: each record given was
      committed or dropped, and the counters are the sizes of what was committed. */
  lemma CloseLeavesNothing(s: State, k: Kind)
    requires Inv(s) && s.pcs[CLOSER].Stopped?
    ensures Quiet(s) && s.buf.Get(k) == []
    ensures s.given.Get(k) == multiset(s.log.Get(k)) + s.dropped.Get(k)
    ensures s.inserts.Get(k) == |s.log.Get(k)|
  {
    ClosedIsQuiet(s, k);
    hide Inv, Quiet, Trio.Get;
    QuietAccounts(s, k);
  }

  lemma ClosedIsQuiet(s: State, k: Kind)
    requires Inv(s) && s.pcs[CLOSER].Stopped?
    ensures Quiet(s) && s.buf.Get(k) == []
  {
    hide LockInv, AccountInv, SizeInv;
  }

  /** Confluence. Whatever the interleaving and the batch boundaries, when Close has returned and no flush
      failed: the table has its old keys and those given; old rows are as they were and each new value is one
      that was given for its key; and when equal keys came with equal values, the table is what inserting the
      records one at a time, in any order, would have made it. */
  lemma Confluence(start: Trio<Table>, flushSize: nat, clients: nat, sched: seq<(nat, Choice)>, k: Kind,
                   oneByOne: seq<Rec>)
    requires var s := Exec(Init(start, flushSize, clients), sched);
             && CLOSER < |s.pcs| && s.pcs[CLOSER].Stopped?
             && s.dropped.Get(k) == multiset{}
             && multiset(oneByOne) == s.given.Get(k)
    ensures var s, was := Exec(Init(start, flushSize, clients), sched), start.Get(k);
            && (forall key :: key in s.table.Get(k) <==> key in was || HasKey(oneByOne, key))
            && (forall key :: key in s.table.Get(k) ==>
                  if key in was then s.table.Get(k)[key] == was[key]
                  else Rec(key, s.table.Get(k)[key]) in s.given.Get(k))
            && (Consistent(s.given.Get(k)) ==> s.table.Get(k) == InsertAll(was, oneByOne))
  {
    var s, was := Exec(Init(start, flushSize, clients), sched), start.Get(k);
    InitInv(start, flushSize, clients);
    ExecKeepsInv(Init(start, flushSize, clients), sched);
    ConstantsFixed(Init(start, flushSize, clients), sched);
    CloseLeavesNothing(s, k);
    assert TableOk(s, k);
    var log := s.log.Get(k);
    assert multiset(log) == multiset(oneByOne);
    hide Exec, Inv, InsertAll, Trio.Get;
    forall key
      ensures key in s.table.Get(k) <==> key in was || HasKey(oneByOne, key)
      ensures key in s.table.Get(k) ==>
                if key in was then s.table.Get(k)[key] == was[key]
                else Rec(key, s.table.Get(k)[key]) in s.given.Get(k)
    {
      InsertAllMeaning(was, log, key);
      SameRows(log, oneByOne, key);
      if HasKey(log, key) {
        FirstValueIn(log, key);
        assert Rec(key, FirstValue(log, key)) in multiset(log);
      }
    }
    if Consistent(s.given.Get(k)) {
      OrderDoesNotMatter(was, log, oneByOne);
    }
  }
}
