/** The record tables of the database and inserting into them: services/weatherlink-sql/repository/records.go
    and the INSERT statements of batch_writer.go. The primary key of every record table is (tag_id, ts), and
    ON CONFLICT DO NOTHING lets the first writer win. */
module Tables {

  datatype Value = Number(r: real) | Text(s: string) | Nothing
  datatype Key = Key(tagId: int, ts: int)
  datatype Rec = Rec(key: Key, value: Value)
  type Table = map<Key, Value>

  /** One row inserted by InsertNumeric, InsertText or InsertNull. */
  function Insert(t: Table, r: Rec): Table {
    if r.key in t then t else t[r.key := r.value]
  }

  /** Rows inserted one after the other. */
  function InsertAll(t: Table, rs: seq<Rec>): Table
    decreases |rs|
  {
    if rs == [] then t else InsertAll(Insert(t, rs[0]), rs[1..])
  }

  lemma {:induction false} InsertAllAppend(t: Table, a: seq<Rec>, b: seq<Rec>)
    ensures InsertAll(t, a + b) == InsertAll(InsertAll(t, a), b)
    decreases |a|
  {
    if a == [] {
      assert a + b == b;
    } else {
      assert (a + b)[1..] == a[1..] + b;
      InsertAllAppend(Insert(t, a[0]), a[1..], b);
    }
  }

  /** Whether some row has the key, and the value of the first that does. */
  ghost predicate HasKey(rs: seq<Rec>, k: Key) {
    exists r :: r in rs && r.key == k
  }

  function FirstValue(rs: seq<Rec>, k: Key): Value {
    if rs == [] then Nothing
    else if rs[0].key == k then rs[0].value
    else FirstValue(rs[1..], k)
  }

  lemma {:induction false} FirstValueIn(rs: seq<Rec>, k: Key)
    requires HasKey(rs, k)
    ensures Rec(k, FirstValue(rs, k)) in rs
  {
    assert rs == [rs[0]] + rs[1..];
    if rs[0].key != k {
      FirstValueIn(rs[1..], k);
    } else {
      assert rs[0] == Rec(k, rs[0].value);
    }
  }

  /** What a table holds after inserting rows: the old rows, then for each new key the first value given. */
  lemma {:induction false} InsertAllMeaning(t: Table, rs: seq<Rec>, k: Key)
    ensures k in InsertAll(t, rs) <==> k in t || HasKey(rs, k)
    ensures k in t ==> InsertAll(t, rs)[k] == t[k]
    ensures k !in t && HasKey(rs, k) ==> InsertAll(t, rs)[k] == FirstValue(rs, k)
    decreases |rs|
  {
    if rs != [] {
      InsertAllMeaning(Insert(t, rs[0]), rs[1..], k);
      assert rs == [rs[0]] + rs[1..];
      assert HasKey(rs, k) <==> rs[0].key == k || HasKey(rs[1..], k);
    }
  }

  /** Rows that agree on the key agree on the value. */
  ghost predicate Consistent(rs: multiset<Rec>) {
    forall r, r' :: r in rs && r' in rs && r.key == r'.key ==> r.value == r'.value
  }

  lemma SameRows(a: seq<Rec>, b: seq<Rec>, k: Key)
    requires multiset(a) == multiset(b)
    ensures HasKey(a, k) <==> HasKey(b, k)
  {
    assert forall r :: r in a <==> r in multiset(a);
    assert forall r :: r in b <==> r in multiset(b);
  }

  /** Consistent rows may be inserted in any order. */
  lemma OrderDoesNotMatter(t: Table, a: seq<Rec>, b: seq<Rec>)
    requires multiset(a) == multiset(b) && Consistent(multiset(a))
    ensures InsertAll(t, a) == InsertAll(t, b)
  {
    forall k: Key
      ensures k in InsertAll(t, a) <==> k in InsertAll(t, b)
      ensures k in InsertAll(t, a) ==> InsertAll(t, a)[k] == InsertAll(t, b)[k]
    {
      InsertAllMeaning(t, a, k);
      InsertAllMeaning(t, b, k);
      SameRows(a, b, k);
      if HasKey(a, k) {
        FirstValueIn(a, k);
        FirstValueIn(b, k);
        assert Rec(k, FirstValue(a, k)) in multiset(a) && Rec(k, FirstValue(b, k)) in multiset(b);
      }
    }
  }

  /** The rows with r moved to the front. */
  function ToFront(rs: seq<Rec>, i: nat): seq<Rec>
    requires i < |rs|
  {
    [rs[i]] + rs[..i] + rs[i + 1..]
  }

  lemma ToFrontWins(rs: seq<Rec>, i: nat)
    requires i < |rs|
    ensures multiset(ToFront(rs, i)) == multiset(rs)
    ensures rs[i].key in InsertAll(map[], ToFront(rs, i))
    ensures InsertAll(map[], ToFront(rs, i))[rs[i].key] == rs[i].value
  {
    assert rs == rs[..i] + [rs[i]] + rs[i + 1..];
    var front := ToFront(rs, i);
    assert front[0] == rs[i];
    assert rs[i] in front;
    InsertAllMeaning(map[], front, rs[i].key);
  }

  ghost predicate OrderFree(rs: seq<Rec>) {
    forall p, q :: multiset(p) == multiset(rs) && multiset(q) == multiset(rs) ==>
      InsertAll(map[], p) == InsertAll(map[], q)
  }

  /** The order of insertion is immaterial exactly for consistent rows. */
  lemma OrderFreeIff(rs: seq<Rec>)
    ensures OrderFree(rs) <==> Consistent(multiset(rs))
  {
    if Consistent(multiset(rs)) {
      forall p, q | multiset(p) == multiset(rs) && multiset(q) == multiset(rs)
        ensures InsertAll(map[], p) == InsertAll(map[], q)
      {
        OrderDoesNotMatter(map[], p, q);
      }
    }
    if OrderFree(rs) {
      forall r, r' | r in multiset(rs) && r' in multiset(rs) && r.key == r'.key ensures r.value == r'.value {
        assert r in rs && r' in rs;
        var i :| 0 <= i < |rs| && rs[i] == r;
        var j :| 0 <= j < |rs| && rs[j] == r';
        ToFrontWins(rs, i);
        ToFrontWins(rs, j);
        assert InsertAll(map[], ToFront(rs, i)) == InsertAll(map[], ToFront(rs, j));
      }
    }
  }
}
