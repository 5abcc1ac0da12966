/** The Track in a shared database (track.py, `PostgresTrackStore`): append transactions that interleave as they
    like and commit in any order, and readers that page by cursor while they do.

    A sequence is drawn when a row is inserted; the row is seen when its transaction commits. Each append holds
    its run's lock from before it draws until it commits. */
module PostgresTrack {
  import opened Wrappers
  import opened RunMachine
  import opened TrackStore

  /** `key` hashes a run to the number its lock is taken on: two runs may share one. `locking` is false only
      to show what the lock is for. */
  datatype Settings = Settings(key: string -> int, locking: bool)

  datatype Phase = Waiting | Locked | Checked | Inserted(sequence: nat)

  /** An append in flight: of `append`, with no condition, or of `append_if`. `seen` is what its condition read. */
  datatype Txn = Txn(e: TrackEvent, condition: Option<seq<Row> -> bool>, phase: Phase, seen: seq<Row>)

  /** A reader of one run, which started from the cursor `from`. */
  datatype Reader = Reader(run: string, from: nat, cursor: nat, collected: seq<Row>)

  /** `committed` is in commit order. `next` is the table's sequence: what it gave is never given again. */
  datatype Database = Database(committed: seq<Row>, next: nat, txns: map<nat, Txn>, held: map<int, nat>,
                               readers: map<nat, Reader>)

  const EMPTY := Database([], 1, map[], map[], map[])

  /** A run's committed rows, in the order they were committed. */
  function LogOf(committed: seq<Row>, run: string): seq<Row> {
    if committed == [] then []
    else
      LogOf(committed[..|committed| - 1], run) +
      (if committed[|committed| - 1].run == run then [committed[|committed| - 1]] else [])
  }

  /** `_select`: the committed rows of a run past a cursor, ordered by sequence. */
  ghost predicate IsSelect(committed: seq<Row>, run: string, cursor: nat, got: seq<Row>) {
    && Increasing(got)
    && (forall r :: r in got <==> r in committed && r.run == run && r.sequence > cursor)
  }

  datatype Action =
    | Begin(t: nat, e: TrackEvent, condition: Option<seq<Row> -> bool>)
    | TakeLock(t: nat)
    | Check(t: nat, seen: seq<Row>)
    | Insert(t: nat)
    | FailInsert(t: nat)
    | Commit(t: nat)
    | Abort(t: nat)
    | Open(r: nat, run: string, from: nat)
    | Read(r: nat, got: seq<Row>)

  /** The transaction is over: its locks are let go. */
  function Over(db: Database, t: nat): Database {
    db.(txns := db.txns - {t}, held := map k | k in db.held && db.held[k] != t :: db.held[k])
  }

  /** The unique indexes: event ids, and one submission per run. */
  predicate Unique(db: Database, e: TrackEvent) {
    forall i :: 0 <= i < |db.committed| ==>
      db.committed[i].id != e.id && !(e.event.OpSubmitted? && db.committed[i].run == e.run && db.committed[i].event.OpSubmitted?)
  }

  predicate MayInsert(x: Txn) {
    if x.condition.None? then x.phase.Locked? else x.phase.Checked?
  }

  ghost predicate Enabled(s: Settings, db: Database, a: Action) {
    match a
    case Begin(t, e, _) => t !in db.txns && e.numbered.None?
    case TakeLock(t) => t in db.txns && db.txns[t].phase.Waiting? && (s.locking ==> s.key(db.txns[t].e.run) !in db.held)
    case Check(t, seen) =>
      t in db.txns && db.txns[t].phase.Locked? && db.txns[t].condition.Some? && IsSelect(db.committed, db.txns[t].e.run, 0, seen)
    case Insert(t) => t in db.txns && MayInsert(db.txns[t]) && Unique(db, db.txns[t].e)
    case FailInsert(t) => t in db.txns && MayInsert(db.txns[t])
    case Commit(t) => t in db.txns && db.txns[t].phase.Inserted?
    case Abort(t) => t in db.txns
    case Open(r, _, _) => r !in db.readers
    case Read(r, got) => r in db.readers && IsSelect(db.committed, db.readers[r].run, db.readers[r].cursor, got)
  }

  function RowOf(x: Txn): Row
    requires x.phase.Inserted?
  {
    Row(x.e.run, x.e.id, x.e.event, x.phase.sequence)
  }

  function Collects(reader: Reader, got: seq<Row>): Reader {
    reader.(collected := reader.collected + got, cursor := if got == [] then reader.cursor else got[|got| - 1].sequence)
  }

  ghost function Do(s: Settings, db: Database, a: Action): Database
    requires Enabled(s, db, a)
  {
    match a
    case Begin(t, e, condition) => db.(txns := db.txns[t := Txn(e, condition, Waiting, [])])
    case TakeLock(t) =>
      var x := db.txns[t];
      db.(txns := db.txns[t := x.(phase := Locked)], held := if s.locking then db.held[s.key(x.e.run) := t] else db.held)
    case Check(t, seen) =>
      var x := db.txns[t];
      if x.condition.value(seen) then db.(txns := db.txns[t := x.(phase := Checked, seen := seen)]) else Over(db, t)
    case Insert(t) => db.(txns := db.txns[t := db.txns[t].(phase := Inserted(db.next))], next := db.next + 1)
    case FailInsert(t) => Over(db.(next := db.next + 1), t)
    case Commit(t) => Over(db.(committed := db.committed + [RowOf(db.txns[t])]), t)
    case Abort(t) => Over(db, t)
    case Open(r, run, from) => db.(readers := db.readers[r := Reader(run, from, from, [])])
    case Read(r, got) => db.(readers := db.readers[r := Collects(db.readers[r], got)])
  }

  ghost predicate Step(s: Settings, db: Database, db': Database) {
    exists a :: Enabled(s, db, a) && db' == Do(s, db, a)
  }

  ghost predicate StepAt(s: Settings, dbs: seq<Database>, k: nat) {
    k + 1 < |dbs| ==> Step(s, dbs[k], dbs[k + 1])
  }

  ghost predicate Behaviour(s: Settings, dbs: seq<Database>) {
    && |dbs| > 0 && dbs[0] == EMPTY
    && forall k: nat :: StepAt(s, dbs, k)
  }

  // ---- What every interleaving keeps ------------------------------------------------------------

  /** Within a run, rows are committed in the order of their sequences. */
  predicate Ordered(committed: seq<Row>) {
    forall i, j :: 0 <= i < j < |committed| && committed[i].run == committed[j].run ==>
      committed[i].sequence < committed[j].sequence
  }

  predicate Below(committed: seq<Row>, bound: nat) {
    forall i :: 0 <= i < |committed| ==> 0 < committed[i].sequence < bound
  }

  predicate BelowIn(committed: seq<Row>, run: string, bound: nat) {
    forall i :: 0 <= i < |committed| && committed[i].run == run ==> committed[i].sequence < bound
  }

  ghost predicate TxnInv(s: Settings, db: Database, t: nat)
    requires t in db.txns
  {
    var x := db.txns[t];
    && (!x.phase.Waiting? ==> s.key(x.e.run) in db.held && db.held[s.key(x.e.run)] == t)
    && (x.phase.Inserted? ==> 0 < x.phase.sequence < db.next && BelowIn(db.committed, x.e.run, x.phase.sequence))
    && (x.phase.Checked? || (x.phase.Inserted? && x.condition.Some?) ==>
          x.condition.Some? && x.condition.value(x.seen) && x.seen == LogOf(db.committed, x.e.run))
  }

  predicate ReaderInv(db: Database, reader: Reader) {
    && reader.collected <= After(LogOf(db.committed, reader.run), reader.from)
    && reader.cursor == if reader.collected == [] then reader.from else reader.collected[|reader.collected| - 1].sequence
  }

  ghost predicate Inv(s: Settings, db: Database) {
    && 0 < db.next && Ordered(db.committed) && Below(db.committed, db.next)
    && (forall t :: t in db.txns ==> TxnInv(s, db, t))
    && (forall r :: r in db.readers ==> ReaderInv(db, db.readers[r]))
  }

  // ---- A select reads the log -------------------------------------------------------------------

  lemma {:induction false} LogMembers(committed: seq<Row>, run: string, r: Row)
    ensures r in LogOf(committed, run) <==> r in committed && r.run == run
  {
    if committed != [] {
      var n := |committed| - 1;
      LogMembers(committed[..n], run, r);
      assert committed == committed[..n] + [committed[n]];
    }
  }

  lemma {:induction false} LogBelow(committed: seq<Row>, run: string, bound: nat)
    requires BelowIn(committed, run, bound)
    ensures forall i :: 0 <= i < |LogOf(committed, run)| ==> LogOf(committed, run)[i].sequence < bound
  {
    if committed != [] {
      LogBelow(committed[..|committed| - 1], run, bound);
    }
  }

  lemma {:induction false} LogIncreasing(committed: seq<Row>, run: string)
    requires Ordered(committed)
    ensures Increasing(LogOf(committed, run))
  {
    if committed != [] {
      var n := |committed| - 1;
      LogIncreasing(committed[..n], run);
      if committed[n].run == run {
        LogBelow(committed[..n], run, committed[n].sequence);
      }
    }
  }

  lemma Nothing(b: seq<Row>)
    requires forall r :: r !in b
    ensures b == []
  {
    if b != [] {
      First(b);
    }
  }

  lemma First(b: seq<Row>)
    requires b != []
    ensures b[0] in b
  {
  }

  /** Two increasing listings of the same rows are one. */
  lemma {:induction false} IncreasingUnique(a: seq<Row>, b: seq<Row>)
    requires Increasing(a) && Increasing(b)
    requires forall r :: r in a <==> r in b
    ensures a == b
  {
    if a == [] {
      Nothing(b);
    } else {
      assert a[|a| - 1] in b;
      var m, n := |a| - 1, |b| - 1;
      assert b[n] in a;
      var i :| 0 <= i <= n && b[i] == a[m];
      var j :| 0 <= j <= m && a[j] == b[n];
      assert a[m] == b[n];
      forall r ensures r in a[..m] <==> r in b[..n] {
        DroppedLast(a, r);
        DroppedLast(b, r);
      }
      IncreasingUnique(a[..m], b[..n]);
      assert a == a[..m] + [a[m]] && b == b[..n] + [b[n]];
    }
  }

  lemma DroppedLast(a: seq<Row>, r: Row)
    requires Increasing(a) && a != []
    ensures r in a[..|a| - 1] <==> r in a && r != a[|a| - 1]
  {
    if r in a && r != a[|a| - 1] {
      var i :| 0 <= i < |a| && a[i] == r;
      assert a[..|a| - 1][i] == r;
    }
  }

  /** Ordered by sequence or by commit: past any cursor, a select reads the same. */
  lemma SelectIsAfter(committed: seq<Row>, run: string, cursor: nat, got: seq<Row>)
    requires Ordered(committed) && IsSelect(committed, run, cursor, got)
    ensures got == After(LogOf(committed, run), cursor)
  {
    hide LogOf, After, Ordered;
    var log := LogOf(committed, run);
    LogIncreasing(committed, run);
    var n := Cut(log, cursor);
    AfterCut(log, n, cursor);
    forall r ensures r in got <==> r in log[n..] {
      LogMembers(committed, run, r);
      if r in got {
        var i :| 0 <= i < |log| && log[i] == r;
        assert log[n..][i - n] == r;
      }
    }
    IncreasingUnique(got, log[n..]);
  }

  lemma LogSnoc(committed: seq<Row>, row: Row, run: string)
    ensures LogOf(committed + [row], run) == LogOf(committed, run) + (if row.run == run then [row] else [])
  {
    assert (committed + [row])[..|committed|] == committed;
  }

  // ---- Each step keeps it -----------------------------------------------------------------------

  lemma ReadKeeps(db: Database, reader: Reader, got: seq<Row>)
    requires Ordered(db.committed) && ReaderInv(db, reader)
    requires IsSelect(db.committed, reader.run, reader.cursor, got)
    ensures Collects(reader, got).collected == After(LogOf(db.committed, reader.run), reader.from)
    ensures ReaderInv(db, Collects(reader, got))
  {
    hide LogOf, After, IsSelect, Ordered;
    var log := LogOf(db.committed, reader.run);
    SelectIsAfter(db.committed, reader.run, reader.cursor, got);
    LogIncreasing(db.committed, reader.run);
    var n := Cut(log, reader.from);
    AfterCut(log, n, reader.from);
    var m := n + |reader.collected|;
    Collected(log, n, reader.collected);
    LastOf(log, n, reader.collected);
    AfterCut(log, m, reader.cursor);
  }

  lemma Collected(log: seq<Row>, n: nat, collected: seq<Row>)
    requires n <= |log| && collected <= log[n..]
    ensures n + |collected| <= |log| && log[n..] == collected + log[n + |collected|..]
  {
  }

  lemma LastOf(log: seq<Row>, n: nat, collected: seq<Row>)
    requires n <= |log| && collected <= log[n..]
    ensures collected != [] ==> collected[|collected| - 1] == log[n + |collected| - 1]
  {
  }

  lemma GrownReader(db: Database, row: Row, reader: Reader)
    requires ReaderInv(db, reader)
    ensures ReaderInv(db.(committed := db.committed + [row]), reader)
  {
    hide After, LogOf;
    LogSnoc(db.committed, row, reader.run);
    AfterGrows(LogOf(db.committed, reader.run), row, reader.from);
  }

  lemma AfterGrows(log: seq<Row>, row: Row, from: nat)
    ensures After(log, from) <= After(log + [row], from)
    ensures After(log, from) <= After(log + [], from)
  {
    assert (log + [row])[..|log|] == log;
    assert log + [] == log;
  }

  lemma CommitKeeps(s: Settings, db: Database, t: nat)
    requires s.locking && Inv(s, db) && Enabled(s, db, Commit(t))
    ensures Inv(s, Do(s, db, Commit(t)))
  {
    hide After, LogOf;
    var db' := Do(s, db, Commit(t));
    var row := RowOf(db.txns[t]);
    assert TxnInv(s, db, t);
    forall u | u in db'.txns ensures TxnInv(s, db', u) {
      assert TxnInv(s, db, u);
      LogSnoc(db.committed, row, db.txns[u].e.run);
    }
    forall r | r in db'.readers ensures ReaderInv(db', db'.readers[r]) {
      GrownReader(db, row, db.readers[r]);
    }
  }

  lemma CheckKeeps(s: Settings, db: Database, t: nat, seen: seq<Row>)
    requires s.locking && Inv(s, db) && Enabled(s, db, Check(t, seen))
    ensures Inv(s, Do(s, db, Check(t, seen)))
  {
    hide After, LogOf, Ordered, Below, BelowIn;
    var db' := Do(s, db, Check(t, seen));
    var run := db.txns[t].e.run;
    SelectIsAfter(db.committed, run, 0, seen);
    WholeLog(db, run);
    forall u | u in db'.txns ensures TxnInv(s, db', u) {
      assert TxnInv(s, db, u);
    }
    forall r | r in db'.readers ensures ReaderInv(db', db'.readers[r]) {
      assert ReaderInv(db, db.readers[r]);
    }
  }

  lemma WholeLog(db: Database, run: string)
    requires Below(db.committed, db.next)
    ensures After(LogOf(db.committed, run), 0) == LogOf(db.committed, run)
  {
    hide After, LogOf;
    var log := LogOf(db.committed, run);
    forall i | 0 <= i < |log| ensures log[i].sequence > 0 {
      LogMembers(db.committed, run, log[i]);
    }
    AfterCut(log, 0, 0);
  }

  lemma StepKeeps(s: Settings, db: Database, a: Action)
    requires s.locking && Inv(s, db) && Enabled(s, db, a)
    ensures Inv(s, Do(s, db, a))
  {
    hide After, LogOf, IsSelect;
    var db' := Do(s, db, a);
    match a
    case Commit(t) => CommitKeeps(s, db, t);
    case Check(t, seen) => CheckKeeps(s, db, t, seen);
    case Read(r, got) =>
      ReadKeeps(db, db.readers[r], got);
      Untouched(s, db, db');
      forall u | u in db'.readers ensures ReaderInv(db', db'.readers[u]) {
        assert u != r ==> ReaderInv(db, db.readers[u]);
      }
    case Open(r, run, from) =>
      Untouched(s, db, db');
    case Begin(t, e, condition) => MovesKeep(s, db, a);
    case TakeLock(t) => MovesKeep(s, db, a);
    case Insert(t) => MovesKeep(s, db, a);
    case FailInsert(t) => OverKeeps(s, db, db.next + 1, t);
    case Abort(t) =>
      OverKeeps(s, db, db.next, t);
      assert db.(next := db.next) == db;
  }

  lemma MovesKeep(s: Settings, db: Database, a: Action)
    requires s.locking && Inv(s, db) && Enabled(s, db, a) && (a.Begin? || a.TakeLock? || a.Insert?)
    ensures Inv(s, Do(s, db, a))
  {
    hide After, LogOf, IsSelect, Ordered, Unique;
    var db' := Do(s, db, a);
    if a.Insert? {
      assert BelowIn(db.committed, db.txns[a.t].e.run, db.next);
    }
    forall u | u in db'.txns ensures TxnInv(s, db', u) {
      if u in db.txns {
        assert TxnInv(s, db, u);
      }
    }
    forall r | r in db'.readers ensures ReaderInv(db', db'.readers[r]) {
      assert ReaderInv(db, db.readers[r]);
    }
  }

  lemma OverKeeps(s: Settings, db: Database, next: nat, t: nat)
    requires s.locking && Inv(s, db) && t in db.txns && db.next <= next
    ensures Inv(s, Over(db.(next := next), t))
  {
    hide After, LogOf, Ordered;
    var db' := Over(db.(next := next), t);
    forall u | u in db'.txns ensures TxnInv(s, db', u) {
      assert TxnInv(s, db, u);
    }
    forall r | r in db'.readers ensures ReaderInv(db', db'.readers[r]) {
      assert ReaderInv(db, db.readers[r]);
    }
  }

  lemma Untouched(s: Settings, db: Database, db': Database)
    requires Inv(s, db) && db' == db.(readers := db'.readers)
    ensures forall t :: t in db'.txns ==> TxnInv(s, db', t)
    ensures forall reader :: ReaderInv(db, reader) <==> ReaderInv(db', reader)
  {
    hide After, LogOf;
    forall t | t in db'.txns ensures TxnInv(s, db', t) {
      assert TxnInv(s, db, t);
    }
  }

  lemma {:induction false} BehaviourKeeps(s: Settings, dbs: seq<Database>, k: nat)
    requires s.locking && Behaviour(s, dbs) && k < |dbs|
    ensures Inv(s, dbs[k])
  {
    hide Inv, Enabled, Do;
    if k == 0 {
      EmptyInv(s);
    } else {
      BehaviourKeeps(s, dbs, k - 1);
      assert StepAt(s, dbs, k - 1);
      var a :| Enabled(s, dbs[k - 1], a) && dbs[k] == Do(s, dbs[k - 1], a);
      StepKeeps(s, dbs[k - 1], a);
    }
  }

  lemma EmptyInv(s: Settings)
    ensures Inv(s, EMPTY)
  {
  }

  // ---- The theorems -----------------------------------------------------------------------------

  /** At every moment, what a reader has collected is the run's committed events from its cursor on, in the
      order of their sequences and up to some point: none skipped, none twice. And a run's log, which is in
      commit order, is in sequence order. */
  lemma ReaderNeverSkips(s: Settings, dbs: seq<Database>, k: nat, r: nat)
    requires s.locking && Behaviour(s, dbs) && k < |dbs| && r in dbs[k].readers
    ensures var reader := dbs[k].readers[r];
            && Increasing(LogOf(dbs[k].committed, reader.run))
            && reader.collected <= After(LogOf(dbs[k].committed, reader.run), reader.from)
  {
    hide After, LogOf, Behaviour, Ordered, TxnInv;
    BehaviourKeeps(s, dbs, k);
    LogIncreasing(dbs[k].committed, dbs[k].readers[r].run);
    assert ReaderInv(dbs[k], dbs[k].readers[r]);
  }

  /** After each read, a reader has collected every committed event of its run past the cursor it started from. */
  lemma ReadCatchesUp(s: Settings, dbs: seq<Database>, k: nat, r: nat, got: seq<Row>)
    requires s.locking && Behaviour(s, dbs) && k < |dbs| && Enabled(s, dbs[k], Read(r, got))
    ensures var reader := Do(s, dbs[k], Read(r, got)).readers[r];
            reader.collected == After(LogOf(dbs[k].committed, reader.run), reader.from)
  {
    hide After, LogOf, Behaviour, Ordered, TxnInv, IsSelect;
    BehaviourKeeps(s, dbs, k);
    assert ReaderInv(dbs[k], dbs[k].readers[r]);
    ReadKeeps(dbs[k], dbs[k].readers[r], got);
  }

  /** What an `append_if` condition held of is exactly the events its event follows. */
  lemma ConditionSawWhatPrecedes(s: Settings, dbs: seq<Database>, k: nat, t: nat)
    requires s.locking && Behaviour(s, dbs) && k < |dbs| && Enabled(s, dbs[k], Commit(t)) && dbs[k].txns[t].condition.Some?
    ensures var x := dbs[k].txns[t];
            && x.condition.value(x.seen)
            && LogOf(Do(s, dbs[k], Commit(t)).committed, x.e.run) == x.seen + [RowOf(x)]
  {
    hide After, LogOf, Behaviour;
    BehaviourKeeps(s, dbs, k);
    assert TxnInv(s, dbs[k], t);
    LogSnoc(dbs[k].committed, RowOf(dbs[k].txns[t]), dbs[k].txns[t].e.run);
  }

  // ---- What the lock is for ---------------------------------------------------------------------

  const FIRST := TrackEvent("run", "a", RunPickedUp, None)
  const SECOND := TrackEvent("run", "b", RunCompleted, None)
  const ROW_ONE := Row("run", "a", RunPickedUp, 1)
  const ROW_TWO := Row("run", "b", RunCompleted, 2)

  function Race(txns: map<nat, Txn>, next: nat): Database {
    Database([], next, txns, map[], map[])
  }

  function Reading(committed: seq<Row>, txns: map<nat, Txn>, reader: Reader): Database {
    Database(committed, 3, txns, map[], map[0 := reader])
  }

  function Appending(e: TrackEvent, phase: Phase): Txn {
    Txn(e, None, phase, [])
  }

  lemma BothInsert(s: Settings, d1: Database, d2: Database, d3: Database, d4: Database, d5: Database, d6: Database)
    requires !s.locking
    requires d1 == Race(map[1 := Appending(FIRST, Waiting)], 1)
    requires d2 == Race(map[1 := Appending(FIRST, Waiting), 2 := Appending(SECOND, Waiting)], 1)
    requires d3 == Race(map[1 := Appending(FIRST, Locked), 2 := Appending(SECOND, Waiting)], 1)
    requires d4 == Race(map[1 := Appending(FIRST, Locked), 2 := Appending(SECOND, Locked)], 1)
    requires d5 == Race(map[1 := Appending(FIRST, Inserted(1)), 2 := Appending(SECOND, Locked)], 2)
    requires d6 == Race(map[1 := Appending(FIRST, Inserted(1)), 2 := Appending(SECOND, Inserted(2))], 3)
    ensures Step(s, EMPTY, d1) && Step(s, d1, d2) && Step(s, d2, d3) && Step(s, d3, d4) && Step(s, d4, d5) && Step(s, d5, d6)
  {
    Moves(s, EMPTY, Begin(1, FIRST, None), d1);
    Moves(s, d1, Begin(2, SECOND, None), d2);
    Moves(s, d2, TakeLock(1), d3);
    Moves(s, d3, TakeLock(2), d4);
    Moves(s, d4, Insert(1), d5);
    Moves(s, d5, Insert(2), d6);
  }

  lemma SecondCommitsFirst(s: Settings, d6: Database, d7: Database, d8: Database, d9: Database, d10: Database)
    requires d6 == Race(map[1 := Appending(FIRST, Inserted(1)), 2 := Appending(SECOND, Inserted(2))], 3)
    requires d7 == Database([ROW_TWO], 3, map[1 := Appending(FIRST, Inserted(1))], map[], map[])
    requires d8 == Reading([ROW_TWO], map[1 := Appending(FIRST, Inserted(1))], Reader("run", 0, 0, []))
    requires d9 == Reading([ROW_TWO], map[1 := Appending(FIRST, Inserted(1))], Reader("run", 0, 2, [ROW_TWO]))
    requires d10 == Reading([ROW_TWO, ROW_ONE], map[], Reader("run", 0, 2, [ROW_TWO]))
    ensures Step(s, d6, d7) && Step(s, d7, d8) && Step(s, d8, d9) && Step(s, d9, d10)
  {
    Moves(s, d6, Commit(2), d7);
    Moves(s, d7, Open(0, "run", 0), d8);
    Moves(s, d8, Read(0, [ROW_TWO]), d9);
    Moves(s, d9, Commit(1), d10);
  }

  lemma ReadsNoMore(s: Settings, d10: Database)
    requires d10 == Reading([ROW_TWO, ROW_ONE], map[], Reader("run", 0, 2, [ROW_TWO]))
    ensures Enabled(s, d10, Read(0, [])) && Step(s, d10, d10)
  {
    var reader := d10.readers[0];
    assert reader.collected + [] == reader.collected;
    assert Collects(reader, []) == reader;
    assert d10.readers[0 := reader] == d10.readers;
    Moves(s, d10, Read(0, []), d10);
  }

  /** Without the lock, two transactions that commit in the other order make a reader skip a row for good: it
      has read past row 1, which is committed, and its next read does not return it. */
  lemma WithoutTheLockARowIsSkipped(s: Settings) returns (dbs: seq<Database>)
    requires !s.locking
    ensures Behaviour(s, dbs)
    ensures var db := dbs[|dbs| - 1];
            && LogOf(db.committed, "run") == [ROW_TWO, ROW_ONE]
            && 0 in db.readers && db.readers[0] == Reader("run", 0, 2, [ROW_TWO])
            && Step(s, db, db) && Enabled(s, db, Read(0, []))
  {
    hide LogOf, Step;
    var d1 := Race(map[1 := Appending(FIRST, Waiting)], 1);
    var d2 := Race(map[1 := Appending(FIRST, Waiting), 2 := Appending(SECOND, Waiting)], 1);
    var d3 := Race(map[1 := Appending(FIRST, Locked), 2 := Appending(SECOND, Waiting)], 1);
    var d4 := Race(map[1 := Appending(FIRST, Locked), 2 := Appending(SECOND, Locked)], 1);
    var d5 := Race(map[1 := Appending(FIRST, Inserted(1)), 2 := Appending(SECOND, Locked)], 2);
    var d6 := Race(map[1 := Appending(FIRST, Inserted(1)), 2 := Appending(SECOND, Inserted(2))], 3);
    BothInsert(s, d1, d2, d3, d4, d5, d6);
    var d7 := Database([ROW_TWO], 3, map[1 := Appending(FIRST, Inserted(1))], map[], map[]);
    var d8 := Reading([ROW_TWO], map[1 := Appending(FIRST, Inserted(1))], Reader("run", 0, 0, []));
    var d9 := Reading([ROW_TWO], map[1 := Appending(FIRST, Inserted(1))], Reader("run", 0, 2, [ROW_TWO]));
    var d10 := Reading([ROW_TWO, ROW_ONE], map[], Reader("run", 0, 2, [ROW_TWO]));
    SecondCommitsFirst(s, d6, d7, d8, d9, d10);
    dbs := [EMPTY, d1, d2, d3, d4, d5, d6, d7, d8, d9, d10];
    ReadsNoMore(s, d10);
    RaceLog();
  }

  lemma RaceLog()
    ensures LogOf([ROW_TWO, ROW_ONE], "run") == [ROW_TWO, ROW_ONE]
  {
    LogSnoc([], ROW_TWO, "run");
    LogSnoc([ROW_TWO], ROW_ONE, "run");
    assert [ROW_TWO] + [ROW_ONE] == [ROW_TWO, ROW_ONE];
  }

  lemma Moves(s: Settings, db: Database, a: Action, db': Database)
    requires Enabled(s, db, a) && db' == Do(s, db, a)
    ensures Step(s, db, db')
  {
  }
}
