/** BatchWriter as an object: what one call does when nobody interferes. The interleavings are the business
    of module BatchProtocol; SoloAdd and SoloFlushAll below tie the two together. */
module BatchWriting {
  import opened Tables
  import opened BatchProtocol

  /** What the calls of a writer read and write: the fields of the object and the tables. */
  datatype Shared = Shared(flushSize: nat, buf: Trio<seq<Rec>>, table: Trio<Table>, inserts: Trio<int>, flushes: int)

  /** flushNumericLocked and its two copies. */
  function FlushAlone(s: Shared, k: Kind, ok: bool): Shared {
    var batch := s.buf.Get(k);
    if batch == [] then s
    else
      var s1 := s.(buf := s.buf.With(k, []));
      if !ok then s1
      else s1.(table := s.table.With(k, InsertAll(s.table.Get(k), batch)),
               inserts := s.inserts.With(k, s.inserts.Get(k) + |batch|),
               flushes := s.flushes + 1)
  }

  /** AddNumeric and its two copies; ok is the outcome of the flush, if there is one. */
  function AddAlone(s: Shared, k: Kind, r: Rec, ok: bool): Shared {
    var s1 := s.(buf := s.buf.With(k, s.buf.Get(k) + [r]));
    if |s1.buf.Get(k)| >= s.flushSize then FlushAlone(s1, k, ok) else s1
  }

  function FlushAllAlone(s: Shared, ok: Trio<bool>): Shared {
    FlushAlone(FlushAlone(FlushAlone(s, Numeric, ok.num), Textual, ok.txt), Null, ok.nul)
  }

  // ---------- refinement of plain insertion ----------

  /** The table as a reader would see it if the buffer were flushed now. */
  function Eventual(s: Shared, k: Kind): Table { InsertAll(s.table.Get(k), s.buf.Get(k)) }

  /** A writer whose flushes succeed is, up to Eventual, one that inserts each record at once. */
  lemma AddRefinesInsert(s: Shared, k: Kind, r: Rec, j: Kind)
    ensures Eventual(AddAlone(s, k, r, true), j) == if j == k then Insert(Eventual(s, j), r) else Eventual(s, j)
  {
    InsertAllAppend(s.table.Get(k), s.buf.Get(k), [r]);
    assert InsertAll(Eventual(s, k), [r]) == Insert(Eventual(s, k), r);
    EventualOfFlush(s.(buf := s.buf.With(k, s.buf.Get(k) + [r])), k, j);
    hide FlushAlone, InsertAll;
  }

  lemma EventualOfFlush(s: Shared, k: Kind, j: Kind)
    ensures Eventual(FlushAlone(s, k, true), j) == Eventual(s, j)
  {
    hide Trio.Get, Trio.With;
  }

  /** A complete flush makes the table what plain insertion would have made it, and empties the buffers. */
  lemma FlushAllSettles(s: Shared, j: Kind)
    ensures var s' := FlushAllAlone(s, Trio(true, true, true));
            s'.buf.Get(j) == [] && s'.table.Get(j) == Eventual(s, j)
  {
    var s1 := FlushAlone(s, Numeric, true);
    var s2 := FlushAlone(s1, Textual, true);
    EventualOfFlush(s, Numeric, j);
    EventualOfFlush(s1, Textual, j);
    EventualOfFlush(s2, Null, j);
    FlushEmpties(s, Numeric, j);
    FlushEmpties(s1, Textual, j);
    FlushEmpties(s2, Null, j);
    hide FlushAlone;
  }

  lemma FlushEmpties(s: Shared, k: Kind, j: Kind)
    ensures FlushAlone(s, k, true).buf.Get(j) == if j == k then [] else s.buf.Get(j)
  {
  }

  // ---------- the object ----------

  class BatchWriter {
    const flushSize: nat
    var batches: Trio<seq<Rec>>
    var tables: Trio<Table>
    var totalInserts: Trio<int>
    var totalFlushes: int

    ghost function View(): Shared
      reads this
    {
      Shared(flushSize, batches, tables, totalInserts, totalFlushes)
    }

    constructor (tables: Trio<Table>, flushSize: nat)
      ensures View() == Shared(flushSize, Trio([], [], []), tables, Trio(0, 0, 0), 0)
    {
      this.flushSize := flushSize;
      this.tables := tables;
      batches := Trio([], [], []);
      totalInserts, totalFlushes := Trio(0, 0, 0), 0;
    }

    /** copyNumericRecords and its copies: one transaction, all or nothing. */
    method CopyRecords(k: Kind, records: seq<Rec>, ok: bool) returns (err: bool)
      modifies this`tables
      ensures err == !ok
      ensures tables == if ok then old(tables).With(k, InsertAll(old(tables).Get(k), records)) else old(tables)
    {
      if ok {
        tables := tables.With(k, InsertAll(tables.Get(k), records));
      }
      err := !ok;
    }

    method FlushLocked(k: Kind, ok: bool) returns (err: bool)
      modifies this
      ensures View() == FlushAlone(old(View()), k, ok)
      ensures err <==> !ok && old(batches).Get(k) != []
    {
      if batches.Get(k) == [] {
        return false;
      }
      var batch := batches.Get(k);
      batches := batches.With(k, []);
      err := CopyRecords(k, batch, ok);
      if err {
        return;
      }
      totalInserts := totalInserts.With(k, totalInserts.Get(k) + |batch|);
      totalFlushes := totalFlushes + 1;
    }

    method AddRecord(k: Kind, r: Rec, ok: bool) returns (err: bool)
      modifies this
      ensures View() == AddAlone(old(View()), k, r, ok)
      ensures err <==> !ok && |old(batches).Get(k)| + 1 >= flushSize
    {
      batches := batches.With(k, batches.Get(k) + [r]);
      if |batches.Get(k)| >= flushSize {
        err := FlushLocked(k, ok);
      } else {
        err := false;
      }
    }

    method FlushEverything(ok: Trio<bool>) returns (err: bool)
      modifies this
      ensures View() == FlushAllAlone(old(View()), ok)
      ensures err <==> exists k: Kind :: !ok.Get(k) && old(batches).Get(k) != []
    {
      var e1 := FlushLocked(Numeric, ok.num);
      var e2 := FlushLocked(Textual, ok.txt);
      var e3 := FlushLocked(Null, ok.nul);
      err := e1 || e2 || e3;
      EveryKind();
      assert e1 <==> !ok.Get(Numeric) && old(batches).Get(Numeric) != [];
      assert e2 <==> !ok.Get(Textual) && old(batches).Get(Textual) != [];
      assert e3 <==> !ok.Get(Null) && old(batches).Get(Null) != [];
    }
  }

  // ---------- the object and the protocol ----------

  function SharedOf(s: State): Shared { Shared(s.flushSize, s.buf, s.table, s.inserts, s.flushes) }

  /** Thread t is inside `mutex`, about to look at the buffers in todo, and nobody holds flushMutex. */
  ghost predicate AtFlush(s: State, t: nat, todo: seq<Kind>) {
    t < |s.pcs| && s.pcs[t] == Flushing(todo) && s.mutex == By(t) && s.flushMutex == Free
  }

  /** Thread t has the batch and the transaction is open. */
  ghost predicate AtCommit(s: State, t: nat, k: Kind, batch: seq<Rec>, todo: seq<Kind>) {
    t < |s.pcs| && s.pcs[t] == Committing(k, batch, todo) && s.mutex == Free && s.flushMutex == By(t)
  }

  /** Only thread t's position, the locks and what calls read and write may differ. */
  ghost predicate SameElse(s: State, s': State, t: nat) {
    && t < |s.pcs| == |s'.pcs|
    && s'.pcs == s.pcs[t := s'.pcs[t]]
    && s'.stop == s.stop && s'.given == s.given
  }

  lemma OneMore(s: State, before: seq<(nat, Choice)>, t: nat, c: Choice) returns (sched: seq<(nat, Choice)>)
    ensures Exec(s, sched) == Step(Exec(s, before), t, c) && before <= sched
  {
    sched := before + [(t, c)];
    assert sched[..|sched| - 1] == before;
  }

  lemma SoloSteal(s: State, t: nat, k: Kind, todo: seq<Kind>) returns (s': State)
    requires AtFlush(s, t, [k] + todo) && s.buf.Get(k) != []
    ensures s' == Step(Step(Step(s, t, Go), t, Go), t, Go)
    ensures AtCommit(s', t, k, s.buf.Get(k), todo) && SameElse(s, s', t)
    ensures SharedOf(s') == SharedOf(s).(buf := s.buf.With(k, []))
  {
    hide InsertAll, Trio.Get, Trio.With;
    assert ([k] + todo)[1..] == todo;
    var s1 := Step(s, t, Go);
    assert s1.pcs[t] == Stolen(k, s.buf.Get(k), todo);
    var s2 := Step(s1, t, Go);
    assert s2.pcs[t] == WantCommit(k, s.buf.Get(k), todo);
    s' := Step(s2, t, Go);
  }

  lemma EndStep(s: State, t: nat, k: Kind, batch: seq<Rec>, todo: seq<Kind>, ok: bool)
    requires AtCommit(s, t, k, batch, todo)
    ensures Step(s, t, if ok then Commit(batch) else Abort)
         == Transaction(s, t, if ok then Commit(batch) else Abort)
    ensures Transaction(s, t, if ok then Commit(batch) else Abort).pcs[t] == Ended(k, batch, ok, todo)
  {
    hide InsertAll, Trio.Get, Trio.With;
  }

  lemma ReleaseAndReturn(s: State, t: nat, k: Kind, batch: seq<Rec>, todo: seq<Kind>, ok: bool)
    requires t < |s.pcs| && s.pcs[t] == Ended(k, batch, ok, todo) && s.mutex == Free
    ensures Step(Step(s, t, Go), t, Go)
         == s.(pcs := s.pcs[t := Back(k, batch, ok, todo)], mutex := By(t), flushMutex := Free)
  {
    hide InsertAll, Trio.Get, Trio.With, Begin, Inside;
    var s1 := Step(s, t, Go);
    assert s1 == s.(pcs := s.pcs[t := WantBack(k, batch, ok, todo)], flushMutex := Free);
  }

  lemma CountStep(s: State, t: nat, k: Kind, batch: seq<Rec>, todo: seq<Kind>, ok: bool)
    requires t < |s.pcs| && s.pcs[t] == Back(k, batch, ok, todo)
    ensures Step(s, t, Go) == Inside(s, t)
  {
    hide InsertAll, Trio.Get, Trio.With, Inside;
  }

  lemma SoloCommit(s: State, t: nat, k: Kind, batch: seq<Rec>, todo: seq<Kind>, ok: bool) returns (s': State)
    requires AtCommit(s, t, k, batch, todo)
    ensures s' == Step(Step(Step(Step(s, t, if ok then Commit(batch) else Abort), t, Go), t, Go), t, Go)
    ensures AtFlush(s', t, todo) && SameElse(s, s', t)
    ensures SharedOf(s') ==
              if !ok then SharedOf(s)
              else SharedOf(s).(table := s.table.With(k, InsertAll(s.table.Get(k), batch)),
                                inserts := s.inserts.With(k, s.inserts.Get(k) + |batch|),
                                flushes := s.flushes + 1)
  {
    hide InsertAll, Trio.Get, Trio.With, Step;
    EndStep(s, t, k, batch, todo, ok);
    var s1 := Step(s, t, if ok then Commit(batch) else Abort);
    ReleaseAndReturn(s1, t, k, batch, todo, ok);
    var s3 := Step(Step(s1, t, Go), t, Go);
    CountStep(s3, t, k, batch, todo, ok);
    s' := Step(s3, t, Go);
  }

  lemma SoloSkip(s: State, t: nat, k: Kind, todo: seq<Kind>)
    requires AtFlush(s, t, [k] + todo) && s.buf.Get(k) == []
    ensures Step(s, t, Go) == s.(pcs := s.pcs[t := Flushing(todo)])
  {
    hide Trio.Get, Trio.With, Transaction, Acquire;
    assert ([k] + todo)[1..] == todo;
  }

  /** One flush that nobody interrupts. */
  lemma SoloFlush(s: State, before: seq<(nat, Choice)>, t: nat, k: Kind, todo: seq<Kind>, ok: bool)
    returns (sched: seq<(nat, Choice)>)
    requires AtFlush(Exec(s, before), t, [k] + todo)
    ensures var m, s' := Exec(s, before), Exec(s, sched);
            AtFlush(s', t, todo) && SameElse(m, s', t) && SharedOf(s') == FlushAlone(SharedOf(m), k, ok)
    ensures before <= sched
  {
    hide InsertAll, Trio.Get, Trio.With, Exec, Step;
    var m := Exec(s, before);
    var batch := m.buf.Get(k);
    sched := OneMore(s, before, t, Go);
    if batch == [] {
      SoloSkip(m, t, k, todo);
    } else {
      var s3 := SoloSteal(m, t, k, todo);
      var s7 := SoloCommit(s3, t, k, batch, todo, ok);
      sched := OneMore(s, sched, t, Go);
      sched := OneMore(s, sched, t, Go);
      sched := OneMore(s, sched, t, if ok then Commit(batch) else Abort);
      sched := OneMore(s, sched, t, Go);
      sched := OneMore(s, sched, t, Go);
      sched := OneMore(s, sched, t, Go);
    }
  }

  /** An Add that nobody interrupts is a run of the protocol and does what the method does. */
  lemma SoloAdd(s: State, t: nat, k: Kind, r: Rec, ok: bool) returns (sched: seq<(nat, Choice)>)
    requires 2 <= t < |s.pcs| && s.pcs[t].Idle? && !s.stop && s.mutex == Free && s.flushMutex == Free
    ensures var s' := Exec(s, sched);
            && s'.pcs == s.pcs && s'.mutex == Free && s'.flushMutex == Free && s'.stop == s.stop
            && SharedOf(s') == AddAlone(SharedOf(s), k, r, ok)
  {
    hide InsertAll, Trio.Get, Trio.With, Exec;
    NoSteps(s);
    sched := OneMore(s, [], t, Add(k, r));
    assert Exec(s, sched).pcs[t] == WantAdd(k, r);
    sched := OneMore(s, sched, t, Go);
    assert Exec(s, sched).pcs[t] == Adding(k, r);
    sched := OneMore(s, sched, t, Go);
    var m := Exec(s, sched);
    assert SharedOf(m) == SharedOf(s).(buf := s.buf.With(k, s.buf.Get(k) + [r]));
    assert m.pcs == s.pcs[t := m.pcs[t]];
    if |s.buf.Get(k) + [r]| >= s.flushSize {
      assert AtFlush(m, t, [k] + []);
      sched := SoloFlush(s, sched, t, k, [], ok);
    }
    assert AtFlush(Exec(s, sched), t, []);
    sched := OneMore(s, sched, t, Go);
    assert Exec(s, sched).pcs == s.pcs;
  }

  lemma NoSteps(s: State)
    ensures Exec(s, []) == s
  {
  }

  /** The flushes of the three buffers, one after the other. */
  lemma SoloFlushes(s: State, before: seq<(nat, Choice)>, t: nat, ok: Trio<bool>) returns (sched: seq<(nat, Choice)>)
    requires AtFlush(Exec(s, before), t, ALL_KINDS)
    ensures var m, s' := Exec(s, before), Exec(s, sched);
            AtFlush(s', t, []) && SameElse(m, s', t) && SharedOf(s') == FlushAllAlone(SharedOf(m), ok)
    ensures before <= sched
  {
    hide FlushAlone, Exec, Trio.Get, Trio.With, InsertAll;
    assert [Numeric] + [Textual, Null] == ALL_KINDS && [Textual] + [Null] == [Textual, Null] && [Null] + [] == [Null];
    sched := SoloFlush(s, before, t, Numeric, [Textual, Null], ok.num);
    sched := SoloFlush(s, sched, t, Textual, [Null], ok.txt);
    sched := SoloFlush(s, sched, t, Null, [], ok.nul);
  }

  /** A FlushAll that nobody interrupts, or one that the background flusher makes at a tick, is a run of the
      protocol and does what the method does. */
  lemma SoloFlushAll(s: State, t: nat, ok: Trio<bool>) returns (sched: seq<(nat, Choice)>)
    requires t < |s.pcs| && s.pcs[t].Idle? && (t == TICKER || !s.stop) && s.mutex == Free && s.flushMutex == Free
    ensures var s' := Exec(s, sched);
            && s'.pcs == s.pcs && s'.mutex == Free && s'.flushMutex == Free && s'.stop == s.stop && s'.given == s.given
            && SharedOf(s') == FlushAllAlone(SharedOf(s), ok)
    ensures [(t, if t == TICKER then Tick else FlushAll)] <= sched
  {
    hide FlushAllAlone, Exec, Trio.Get, Trio.With, InsertAll;
    NoSteps(s);
    var c := if t == TICKER then Tick else FlushAll;
    sched := [(t, c)];
    assert Exec(s, sched) == Step(s, t, c) by { OnlyStep(s, t, c); }
    sched := OneMore(s, sched, t, Go);
    sched := SoloFlushes(s, sched, t, ok);
    sched := OneMore(s, sched, t, Go);
    assert Exec(s, sched).pcs == s.pcs;
  }

  lemma OnlyStep(s: State, t: nat, c: Choice)
    ensures Exec(s, [(t, c)]) == Step(s, t, c)
  {
    assert [(t, c)][..0] == [];
  }

  lemma CloseBegins(s: State)
    requires CLOSER < |s.pcs| && ClientsIdle(s.pcs) && s.pcs[TICKER].Idle? && s.pcs[CLOSER].Idle?
    requires !s.stop && s.mutex == Free
    ensures Step(Step(Step(Step(s, CLOSER, Close), TICKER, Go), CLOSER, Go), CLOSER, Go)
         == s.(pcs := s.pcs[TICKER := Stopped][CLOSER := Flushing(ALL_KINDS)], stop := true, mutex := By(CLOSER))
  {
    var s1 := Step(s, CLOSER, Close);
    assert s1 == s.(pcs := s.pcs[CLOSER := AwaitTicker], stop := true);
    var s2 := Step(s1, TICKER, Go);
    assert s2 == s1.(pcs := s.pcs[TICKER := Stopped][CLOSER := AwaitTicker]);
    hide Inside, Transaction, Begin;
    var s3 := Step(s2, CLOSER, Go);
    assert s3 == s1.(pcs := s.pcs[TICKER := Stopped][CLOSER := WantFlush(ALL_KINDS)]);
  }

  lemma CloseEnds(s: State)
    requires AtFlush(s, CLOSER, []) && s.stop
    ensures Step(s, CLOSER, Go) == s.(pcs := s.pcs[CLOSER := Stopped], mutex := Free)
  {
    hide Trio.Get, Trio.With;
  }

  /** A Close that nobody interrupts stops the flusher, flushes the three buffers as FlushAll does, and is over. */
  lemma SoloClose(s: State, ok: Trio<bool>) returns (sched: seq<(nat, Choice)>)
    requires CLOSER < |s.pcs| && ClientsIdle(s.pcs) && s.pcs[TICKER].Idle? && s.pcs[CLOSER].Idle?
    requires !s.stop && s.mutex == Free && s.flushMutex == Free
    ensures SharedOf(Exec(s, sched)) == FlushAllAlone(SharedOf(s), ok)
    ensures Exec(s, sched).pcs == s.pcs[TICKER := Stopped][CLOSER := Stopped]
    ensures Exec(s, sched).mutex == Free && Exec(s, sched).flushMutex == Free
    ensures Exec(s, sched).stop && Exec(s, sched).given == s.given
    ensures [(CLOSER, Close)] <= sched
  {
    hide FlushAllAlone, Exec, Trio.Get, Trio.With, InsertAll;
    sched := [(CLOSER, Close)];
    OnlyStep(s, CLOSER, Close);
    sched := OneMore(s, sched, TICKER, Go);
    sched := OneMore(s, sched, CLOSER, Go);
    sched := OneMore(s, sched, CLOSER, Go);
    CloseBegins(s);
    hide Step;
    sched := SoloFlushes(s, sched, CLOSER, ok);
    CloseEnds(Exec(s, sched));
    sched := OneMore(s, sched, CLOSER, Go);
  }
}
