/** The replicated key-value store: db/db.go. */
module Databases {
  import opened Types

  type Key = int
  type Bytes = seq<bv8>

  /** A command without a value is a read. */
  datatype Command = Command(key: Key, value: Option<Bytes>)

  datatype Db = Db(data: map<Key, Bytes>, version: nat, multiversion: bool, history: map<Key, seq<Bytes>>)

  function Lookup(d: Db, k: Key): Option<Bytes> {
    if k in d.data then Some(d.data[k]) else None
  }

  function History(d: Db, k: Key): seq<Bytes> {
    if k in d.history then d.history[k] else []
  }

  function Store(d: Db, k: Key, v: Bytes): Db {
    Db(d.data[k := v], d.version + 1, d.multiversion,
       if d.multiversion then d.history[k := History(d, k) + [v]] else d.history)
  }

  /** The state after a command; its answer is the value stored before. */
  function Exec(d: Db, c: Command): Db {
    if c.value.None? then d else Store(d, c.key, c.value.value)
  }

  function ExecAll(d: Db, cs: seq<Command>): Db {
    if cs == [] then d else Exec(ExecAll(d, cs[..|cs| - 1]), cs[|cs| - 1])
  }

  ghost function Answers(d: Db, cs: seq<Command>): seq<Option<Bytes>> {
    seq(|cs|, i requires 0 <= i < |cs| => Lookup(ExecAll(d, cs[..i]), cs[i].key))
  }

  predicate Conflict(c: Command, e: Command) {
    c.key == e.key && (c.value.Some? || e.value.Some?)
  }

  ghost predicate ConflictBatch(a: seq<Command>, b: seq<Command>) {
    exists i, j :: 0 <= i < |a| && 0 <= j < |b| && Conflict(a[i], b[j])
  }

  // ---------------------------------------------------------------- what a batch means

  /** The values that a batch writes to a key, in order. */
  function Writes(cs: seq<Command>, k: Key): seq<Bytes> {
    if cs == [] then []
    else
      var c := cs[|cs| - 1];
      Writes(cs[..|cs| - 1], k) + if c.key == k && c.value.Some? then [c.value.value] else []
  }

  function WriteCount(cs: seq<Command>): nat {
    if cs == [] then 0 else WriteCount(cs[..|cs| - 1]) + if cs[|cs| - 1].value.Some? then 1 else 0
  }

  /** What is stored for a key once the batch has been run. */
  ghost function Stored(d: Db, cs: seq<Command>, k: Key): Option<Bytes> {
    var ws := Writes(cs, k);
    if ws == [] then Lookup(d, k) else Some(ws[|ws| - 1])
  }

  lemma ExecMeaning(d: Db, c: Command, k: Key)
    ensures var e, written := Exec(d, c), c.key == k && c.value.Some?;
            && Lookup(e, k) == (if written then c.value else Lookup(d, k))
            && History(e, k) == History(d, k) + (if d.multiversion && written then [c.value.value] else [])
            && (k in e.history <==> k in d.history || (d.multiversion && written))
            && e.version == d.version + (if c.value.Some? then 1 else 0) && e.multiversion == d.multiversion
  {
  }

  /** A batch leaves behind the last value written to each key, appends what it wrote to the histories, and counts
      its writes. */
  lemma {:induction false} BatchMeaning(d: Db, cs: seq<Command>, k: Key)
    ensures var e := ExecAll(d, cs);
            && Lookup(e, k) == Stored(d, cs, k)
            && History(e, k) == History(d, k) + (if d.multiversion then Writes(cs, k) else [])
            && (k in e.history <==> k in d.history || (d.multiversion && Writes(cs, k) != []))
            && e.version == d.version + WriteCount(cs) && e.multiversion == d.multiversion
  {
    if cs != [] {
      BatchMeaning(d, cs[..|cs| - 1], k);
      ExecMeaning(ExecAll(d, cs[..|cs| - 1]), cs[|cs| - 1], k);
      hide Exec, Lookup, History;
    }
  }

  /** No operation of the one batch on a key that the other one writes. */
  lemma NoWrite(a: seq<Command>, b: seq<Command>, k: Key, i: nat)
    requires !ConflictBatch(a, b) && i < |a| && a[i].key == k
    ensures Writes(b, k) == []
  {
    if Writes(b, k) != [] {
      var j := WriteOf(b, k);
      assert Conflict(a[i], b[j]);
    }
  }

  lemma WriteOf(cs: seq<Command>, k: Key) returns (j: nat)
    requires Writes(cs, k) != []
    ensures j < |cs| && cs[j].key == k && cs[j].value.Some?
  {
    var last := |cs| - 1;
    if cs[last].key == k && cs[last].value.Some? {
      j := last;
    } else {
      j := WriteOf(cs[..last], k);
    }
  }

  /** Commands of two batches that do not conflict may be mixed up freely: the writes to a key come from one. */
  lemma OneWriter(a: seq<Command>, b: seq<Command>, k: Key)
    requires !ConflictBatch(a, b)
    ensures Writes(a, k) == [] || Writes(b, k) == []
  {
    if Writes(a, k) != [] {
      var i := WriteOf(a, k);
      NoWrite(a, b, k, i);
    }
  }

  /** Running the batches in either order gives the same state and every command the same answer. */
  ghost predicate Commute(d: Db, a: seq<Command>, b: seq<Command>) {
    && ExecAll(ExecAll(d, a), b) == ExecAll(ExecAll(d, b), a)
    && Answers(d, a) == Answers(ExecAll(d, b), a)
    && Answers(ExecAll(d, a), b) == Answers(d, b)
  }

  lemma SameState(d: Db, e: Db)
    requires d.version == e.version && d.multiversion == e.multiversion
    requires forall k :: Lookup(d, k) == Lookup(e, k) && History(d, k) == History(e, k)
    requires forall k :: k in d.history <==> k in e.history
    ensures d == e
  {
    forall k ensures (k in d.data <==> k in e.data) && (k in d.data ==> d.data[k] == e.data[k]) {
      assert Lookup(d, k) == Lookup(e, k);
    }
    forall k ensures (k in d.history <==> k in e.history) && (k in d.history ==> d.history[k] == e.history[k]) {
      assert History(d, k) == History(e, k);
    }
    assert d.data == e.data && d.history == e.history;
  }

  lemma StatesCommute(d: Db, a: seq<Command>, b: seq<Command>)
    requires !ConflictBatch(a, b)
    ensures ExecAll(ExecAll(d, a), b) == ExecAll(ExecAll(d, b), a)
  {
    hide ConflictBatch, ExecAll, Writes, WriteCount;
    var x, y := ExecAll(d, a), ExecAll(d, b);
    forall k ensures
      && Lookup(ExecAll(x, b), k) == Lookup(ExecAll(y, a), k)
      && History(ExecAll(x, b), k) == History(ExecAll(y, a), k)
      && (k in ExecAll(x, b).history <==> k in ExecAll(y, a).history)
      && ExecAll(x, b).version == ExecAll(y, a).version && ExecAll(x, b).multiversion == ExecAll(y, a).multiversion
    {
      OneWriter(a, b, k);
      BatchMeaning(d, a, k);
      BatchMeaning(d, b, k);
      BatchMeaning(x, b, k);
      BatchMeaning(y, a, k);
    }
    assert ExecAll(x, b).version == ExecAll(y, a).version by { BatchesCount(d, a, b); }
    assert ExecAll(x, b).multiversion == ExecAll(y, a).multiversion by { BatchesCount(d, a, b); }
    SameState(ExecAll(x, b), ExecAll(y, a));
  }

  lemma BatchesCount(d: Db, a: seq<Command>, b: seq<Command>)
    ensures var u, v := ExecAll(ExecAll(d, a), b), ExecAll(ExecAll(d, b), a);
            u.version == v.version && u.multiversion == v.multiversion
  {
    BatchMeaning(d, a, 0);
    BatchMeaning(d, b, 0);
    BatchMeaning(ExecAll(d, a), b, 0);
    BatchMeaning(ExecAll(d, b), a, 0);
  }

  lemma AnswersKept(d: Db, a: seq<Command>, b: seq<Command>)
    requires !ConflictBatch(a, b)
    ensures Answers(d, a) == Answers(ExecAll(d, b), a)
  {
    var y := ExecAll(d, b);
    forall i | 0 <= i < |a| ensures Answers(d, a)[i] == Answers(y, a)[i] {
      var k := a[i].key;
      NoWrite(a, b, k, i);
      BatchMeaning(d, b, k);
      BatchMeaning(d, a[..i], k);
      BatchMeaning(y, a[..i], k);
    }
  }

  lemma ConflictSymmetric(a: seq<Command>, b: seq<Command>)
    ensures ConflictBatch(a, b) <==> ConflictBatch(b, a)
  {
    if ConflictBatch(a, b) {
      var i, j :| 0 <= i < |a| && 0 <= j < |b| && Conflict(a[i], b[j]);
      assert Conflict(b[j], a[i]);
    }
    if ConflictBatch(b, a) {
      var i, j :| 0 <= i < |b| && 0 <= j < |a| && Conflict(b[i], a[j]);
      assert Conflict(a[j], b[i]);
    }
  }

  /** Batches that do not conflict commute, whatever the state. */
  lemma NonConflictingCommute(d: Db, a: seq<Command>, b: seq<Command>)
    requires !ConflictBatch(a, b)
    ensures Commute(d, a, b)
  {
    ConflictSymmetric(a, b);
    StatesCommute(d, a, b);
    AnswersKept(d, a, b);
    AnswersKept(d, b, a);
  }

  // ---------------------------------------------------------------- the test is exact

  lemma FirstOn(cs: seq<Command>, k: Key, j: nat) returns (f: nat)
    requires j < |cs| && cs[j].key == k
    ensures f < |cs| && cs[f].key == k && Writes(cs[..f], k) == []
    decreases j
  {
    if Writes(cs[..j], k) == [] {
      f := j;
    } else {
      var i := WriteOf(cs[..j], k);
      f := FirstOn(cs, k, i);
    }
  }

  /** From an empty store, the first command on a key tells whether a batch that writes the key ran before. */
  lemma WriterShows(d: Db, a: seq<Command>, b: seq<Command>, k: Key, i: nat, j: nat)
    requires d.data == map[] && i < |a| && a[i].key == k && a[i].value.Some? && j < |b| && b[j].key == k
    ensures Answers(ExecAll(d, a), b) != Answers(d, b)
  {
    var f := FirstOn(b, k, j);
    WrittenOn(a, k, i);
    BatchMeaning(d, a, k);
    BatchMeaning(d, b[..f], k);
    BatchMeaning(ExecAll(d, a), b[..f], k);
    assert Answers(d, b)[f] == None;
    assert Answers(ExecAll(d, a), b)[f].Some?;
  }

  lemma {:induction false} WrittenOn(cs: seq<Command>, k: Key, i: nat)
    requires i < |cs| && cs[i].key == k && cs[i].value.Some?
    ensures Writes(cs, k) != []
  {
    if i < |cs| - 1 {
      WrittenOn(cs[..|cs| - 1], k, i);
    }
  }

  /** The test is exact: two batches conflict if and only if the order can be told from an empty store. */
  lemma ConflictIsExact(d: Db, a: seq<Command>, b: seq<Command>)
    requires d.data == map[]
    ensures ConflictBatch(a, b) <==> !Commute(d, a, b)
  {
    if ConflictBatch(a, b) {
      var i, j :| 0 <= i < |a| && 0 <= j < |b| && Conflict(a[i], b[j]);
      if a[i].value.Some? {
        WriterShows(d, a, b, a[i].key, i, j);
      } else {
        WriterShows(d, b, a, a[i].key, j, i);
      }
    } else {
      NonConflictingCommute(d, a, b);
    }
  }

  ghost predicate Rewrites(d: Db, c: Command) {
    c.value.Some? ==> Lookup(d, c.key) == c.value
  }

  /** From a given state, two single commands commute exactly if they do not conflict or only rewrite what is
      stored already. */
  lemma PairCommutesIff(d: Db, c: Command, e: Command)
    ensures Commute(d, [c], [e]) <==> !Conflict(c, e) || (Rewrites(d, c) && Rewrites(d, e))
  {
    assert [c][..0] == [] && [e][..0] == [];
    assert ExecAll(d, [c]) == Exec(d, c) && ExecAll(d, [e]) == Exec(d, e);
    var x, y := Exec(d, c), Exec(d, e);
    assert Answers(d, [c])[0] == Lookup(d, c.key) && Answers(y, [c])[0] == Lookup(y, c.key);
    assert Answers(d, [e])[0] == Lookup(d, e.key) && Answers(x, [e])[0] == Lookup(x, e.key);
    assert Answers(d, [c]) == [Lookup(d, c.key)] && Answers(y, [c]) == [Lookup(y, c.key)];
    assert Answers(d, [e]) == [Lookup(d, e.key)] && Answers(x, [e]) == [Lookup(x, e.key)];
    if !Conflict(c, e) {
      assert !ConflictBatch([c], [e]);
      NonConflictingCommute(d, [c], [e]);
    } else if Rewrites(d, c) && Rewrites(d, e) {
      assert c.value.Some? && e.value.Some? ==> c == e;
      assert ExecAll(x, [e]) == Exec(x, e) && ExecAll(y, [c]) == Exec(y, c);
    }
  }

  /** The states alone: two commands end in different states, for some start, only if both write the key. A read
      and a write of one key conflict, and yet their order never shows in the state. */
  lemma StatesDifferIff(d: Db, c: Command, e: Command)
    ensures ExecAll(d, [c, e]) != ExecAll(d, [e, c])
       <==> c.key == e.key && c.value.Some? && e.value.Some? && c.value != e.value
  {
    ExecTwo(d, c, e);
    ExecTwo(d, e, c);
    if c.value.Some? && e.value.Some? {
      if c.key == e.key {
        assert Lookup(Exec(Exec(d, c), e), c.key) == e.value && Lookup(Exec(Exec(d, e), c), c.key) == c.value;
      } else {
        WritesCommute(d, c, e);
      }
    }
  }

  lemma ExecTwo(d: Db, c: Command, e: Command)
    ensures ExecAll(d, [c, e]) == Exec(Exec(d, c), e)
  {
    var both := [c, e];
    assert both[..1] == [c] && both[..1][..0] == [];
    assert ExecAll(d, both[..1]) == Exec(ExecAll(d, []), c);
  }

  lemma WritesCommute(d: Db, c: Command, e: Command)
    requires c.key != e.key && c.value.Some? && e.value.Some?
    ensures Exec(Exec(d, c), e) == Exec(Exec(d, e), c)
  {
    var u, v := Exec(Exec(d, c), e), Exec(Exec(d, e), c);
    assert u.data == v.data;
    assert u.history == v.history;
  }

  // ---------------------------------------------------------------- the object

  class Database {
    var data: map<Key, Bytes>
    var version: nat
    const multiversion: bool
    var history: map<Key, seq<Bytes>>

    function Model(): Db
      reads this
    {
      Db(data, version, multiversion, history)
    }

    constructor (multiversion: bool)
      ensures Model() == Db(map[], 0, multiversion, map[])
    {
      data, version, this.multiversion, history := map[], 0, multiversion, map[];
    }

    method Put(k: Key, v: Option<Bytes>)
      modifies this
      ensures Model() == Exec(old(Model()), Command(k, v))
    {
      if v.Some? {
        data := data[k := v.value];
        version := version + 1;
        if multiversion {
          if k !in history {
            history := history[k := []];
          }
          history := history[k := history[k] + [v.value]];
        }
      }
    }

    method Execute(c: Command) returns (v: Option<Bytes>)
      modifies this
      ensures Model() == Exec(old(Model()), c) && v == Lookup(old(Model()), c.key)
    {
      v := if c.key in data then Some(data[c.key]) else None;
      Put(c.key, c.value);
    }
  }

  method CheckConflictBatch(a: seq<Command>, b: seq<Command>) returns (r: bool)
    ensures r == ConflictBatch(a, b)
  {
    for i := 0 to |a|
      invariant forall k, j :: 0 <= k < i && 0 <= j < |b| ==> !Conflict(a[k], b[j])
    {
      for j := 0 to |b|
        invariant forall l :: 0 <= l < j ==> !Conflict(a[i], b[l])
      {
        if Conflict(a[i], b[j]) { return true; }
      }
    }
    return false;
  }
}
