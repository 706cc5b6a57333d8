/**
 Concurrent appenders: read-committed transactions that take the chain lock, read the last row by
 (ts, id), hash, insert, and commit or abort, in any interleaving.
 */
module AuditLock {
  import opened Text
  import opened Calendar
  import opened Json
  import opened AuditChain

  // ---- the table in (ts, id) order ----------------------------------------------

  predicate KeyLess(a: Event, b: Event) {
    a.ts < b.ts || (a.ts == b.ts && a.id != b.id && Le(a.id, b.id))
  }

  ghost predicate InKeyOrder(rows: seq<Event>) {
    forall i, j :: 0 <= i < j < |rows| ==> KeyLess(rows[i], rows[j])
  }

  lemma KeyLessTransitive(a: Event, b: Event, c: Event)
    requires KeyLess(a, b) && KeyLess(b, c)
    ensures KeyLess(a, c)
  {
    if a.ts == b.ts == c.ts {
      LeTransitive(a.id, b.id, c.id);
      LeTotal(a.id, b.id);
    }
  }

  lemma KeyLessTotal(a: Event, b: Event)
    requires a.id != b.id
    ensures KeyLess(a, b) != KeyLess(b, a)
  {
    LeTotal(a.id, b.id);
  }

  /** Where `ORDER BY ts, id` puts a new row. */
  function Slot(rows: seq<Event>, e: Event): (k: nat)
    ensures k <= |rows|
    ensures k < |rows| ==> !KeyLess(rows[k], e)
    ensures forall i :: 0 <= i < k ==> KeyLess(rows[i], e)
  {
    if rows == [] || !KeyLess(rows[0], e) then 0 else 1 + Slot(rows[1..], e)
  }

  /** The table, as a query in key order sees it, after a row is inserted. */
  function Insert(rows: seq<Event>, e: Event): (r: seq<Event>)
    ensures |r| == |rows| + 1
  {
    rows[..Slot(rows, e)] + [e] + rows[Slot(rows, e)..]
  }

  ghost predicate FreshId(rows: seq<Event>, id: string) {
    forall i :: 0 <= i < |rows| ==> rows[i].id != id
  }

  lemma InsertKeepsOrder(rows: seq<Event>, e: Event)
    requires InKeyOrder(rows) && FreshId(rows, e.id)
    ensures InKeyOrder(Insert(rows, e))
  {
    var k := Slot(rows, e);
    forall i | k <= i < |rows| ensures KeyLess(e, rows[i]) {
      KeyLessTotal(e, rows[k]);
      if i > k { KeyLessTransitive(e, rows[k], rows[i]); }
    }
  }

  /** Every stored row sorts before the new one. */
  ghost predicate Exceeds(e: Event, rows: seq<Event>) {
    forall i :: 0 <= i < |rows| ==> KeyLess(rows[i], e)
  }

  lemma InsertLargestAppends(rows: seq<Event>, e: Event)
    requires Exceeds(e, rows)
    ensures Insert(rows, e) == rows + [e]
  {
    assert Slot(rows, e) == |rows|;
  }

  // ---- one append ---------------------------------------------------------------

  /** The row `append_audit` builds: chained to `prev`, hashed over its own fields. */
  function Seal(h: Hash, prev: Option<string>, draft: Event): (e: Event)
    requires ValidInstant(draft.ts)
    ensures e.ts == draft.ts && e.id == draft.id
  {
    draft.(prevHash := prev, rowHash := RowHash(h, prev, draft))
  }

  lemma SealedIsLinked(h: Hash, prev: Option<string>, draft: Event)
    requires HexHash(h) && Insertable(draft)
    ensures WellFormed(Seal(h, prev, draft))
    ensures AllWellFormed([Seal(h, prev, draft)]) && Chained(h, prev, [Seal(h, prev, draft)])
  {
    hide CanonicalJson, CanonicalTs;
    var e := Seal(h, prev, draft);
    assert HashedFields(e) == HashedFields(draft);
    assert IsDigest(RowHash(h, prev, draft));
    assert LinkedAt(h, prev, [e], 0);
  }

  lemma AppendKeepsChain(h: Hash, rows: seq<Event>, draft: Event)
    requires HexHash(h) && AllWellFormed(rows) && Insertable(draft) && Chained(h, None, rows)
    ensures AllWellFormed(rows + [Seal(h, LastHash(None, rows), draft)])
    ensures Chained(h, None, rows + [Seal(h, LastHash(None, rows), draft)])
  {
    hide RowHash;
    var e := Seal(h, LastHash(None, rows), draft);
    SealedIsLinked(h, LastHash(None, rows), draft);
    PartsWellFormed(rows, [e]);
    ChainedSplits(h, None, rows, [e]);
  }

  /** Two rows of one chain with the same hash give a collision. */
  lemma RepeatedHashCollides(h: Hash, rows: seq<Event>, i: nat, j: nat)
    requires HexHash(h) && AllWellFormed(rows) && Chained(h, None, rows)
    requires i < j < |rows| && rows[i].rowHash == rows[j].rowHash
    ensures Collision(h, None, rows, None, rows)
  {
    hide RowHash, Collision, Body;
    var a, b := rows[..i + 1], rows[..j + 1];
    assert rows == a + rows[i + 1..] && rows == b + rows[j + 1..];
    ChainedSplits(h, None, a, rows[i + 1..]);
    ChainedSplits(h, None, b, rows[j + 1..]);
    LastHashDetermines(h, a, b);
    LongerCollision(h, a, rows[i + 1..], b, rows[j + 1..]);
  }

  /**
   An append whose key sorts before the last row breaks verification, short of a collision; an append
   whose key exceeds the last row's keeps it.
   */
  lemma AppendVerifiesIffLast(h: Hash, rows: seq<Event>, draft: Event)
    requires HexHash(h) && AllWellFormed(rows) && Insertable(draft)
    requires InKeyOrder(rows) && FreshId(rows, draft.id) && Chained(h, None, rows)
    requires !Collision(h, None, rows, None, rows)
    ensures var e := Seal(h, LastHash(None, rows), draft);
            AllWellFormed(Insert(rows, e))
            && (Chained(h, None, Insert(rows, e)) <==> rows == [] || KeyLess(rows[|rows| - 1], e))
  {
    hide RowHash, Collision;
    var e := Seal(h, LastHash(None, rows), draft);
    SealedIsLinked(h, LastHash(None, rows), draft);
    var k := Slot(rows, e);
    var all := Insert(rows, e);
    PartsWellFormed(rows[..k], [e] + rows[k..]);
    assert all == rows[..k] + ([e] + rows[k..]);
    if k == |rows| {
      assert all == rows + [e];
      AppendKeepsChain(h, rows, draft);
    } else {
      KeyLessTotal(e, rows[k]);
      var last := |rows| - 1;
      if k < last { KeyLessTransitive(e, rows[k], rows[last]); }
      KeyLessTotal(e, rows[last]);
      if Chained(h, None, all) {
        assert LinkedAt(h, None, all, k);
        assert all[k] == e && (k > 0 ==> all[k - 1] == rows[k - 1]);
        RepeatedHashCollides(h, rows, k - 1, last);
      }
    }
  }

  /** The failing side occurs under every hash: a second row one microsecond before the first. */
  lemma EarlierAppendFails(h: Hash) returns (first: Event, draft: Event)
    requires HexHash(h)
    ensures ValidInstant(draft.ts) && draft.ts == first.ts - 1 && FreshId([first], draft.id)
    ensures AllTimed([first]) && Chained(h, None, [first])
    ensures var all := Insert([first], Seal(h, LastHash(None, [first]), draft)); AllTimed(all) && !Chained(h, None, all)
  {
    hide RowHash;
    first := Seal(h, None, Event("b", DAY_MICROS + 1, None, "open", "deal", "1", None, None, None, None, ""));
    draft := Event("a", DAY_MICROS, None, "close", "deal", "1", None, None, None, None, "");
    SealedIsLinked(h, None, Event("b", DAY_MICROS + 1, None, "open", "deal", "1", None, None, None, None, ""));
    var e := Seal(h, LastHash(None, [first]), draft);
    assert Insert([first], e) == [e, first];
    assert !LinkedAt(h, None, [e, first], 0);
  }

  /** A tamper that verifies: the only row, sealed anew with another action. */
  lemma ResealedRowVerifies(h: Hash) returns (row: Event, tampered: Event)
    requires HexHash(h)
    ensures AllTimed([row]) && Chained(h, None, [row]) && AllTimed([tampered]) && Chained(h, None, [tampered])
    ensures tampered.action != row.action && tampered.(action := row.action, rowHash := row.rowHash) == row
  {
    hide RowHash;
    var draft := Event("b", DAY_MICROS, None, "open", "deal", "1", None, None, None, None, "");
    SealedIsLinked(h, None, draft);
    SealedIsLinked(h, None, draft.(action := "void"));
    row, tampered := Seal(h, None, draft), Seal(h, None, draft.(action := "void"));
  }

  // ---- interleaved transactions -------------------------------------------------

  datatype Phase = Idle | Locked | HasRead(prev: Option<string>)

  /** A transaction's own inserts, in insertion order, and how far its current append has come. */
  datatype Tx = Tx(pending: seq<Event>, phase: Phase)

  datatype Db = Db(committed: seq<Event>, txs: map<nat, Tx>, lock: Option<nat>)

  datatype Step =
    | Begin(t: nat)
    | TakeLock(t: nat)
    | ReadLast(t: nat)
    | InsertRow(t: nat, draft: Event)
    | Commit(t: nat)
    | Abort(t: nat)

  /** What a statement of transaction `t` sees: everything committed so far and its own inserts. */
  function Visible(committed: seq<Event>, pending: seq<Event>): seq<Event>
    decreases |pending|
  {
    if pending == [] then committed
    else Insert(Visible(committed, pending[..|pending| - 1]), pending[|pending| - 1])
  }

  function View(db: Db, t: nat): seq<Event>
    requires t in db.txs
  {
    Visible(db.committed, db.txs[t].pending)
  }

  ghost predicate Enabled(db: Db, step: Step) {
    match step
    case Begin(t) => t !in db.txs
    case TakeLock(t) => t in db.txs && (db.lock == None || db.lock == Some(t))
    case ReadLast(t) => t in db.txs && db.txs[t].phase == Locked
    case InsertRow(t, draft) =>
      t in db.txs && db.txs[t].phase.HasRead? && Insertable(draft) && FreshId(View(db, t), draft.id)
    case Commit(t) => t in db.txs
    case Abort(t) => t in db.txs
  }

  function Released(db: Db, t: nat): Option<nat> {
    if db.lock == Some(t) then None else db.lock
  }

  ghost function Apply(h: Hash, db: Db, step: Step): Db
    requires Enabled(db, step)
  {
    match step
    case Begin(t) => db.(txs := db.txs[t := Tx([], Idle)])
    case TakeLock(t) => db.(lock := Some(t), txs := db.txs[t := db.txs[t].(phase := Locked)])
    case ReadLast(t) =>
      db.(txs := db.txs[t := db.txs[t].(phase := HasRead(LastHash(None, View(db, t))))])
    case InsertRow(t, draft) =>
      var tx := db.txs[t];
      db.(txs := db.txs[t := Tx(tx.pending + [Seal(h, tx.phase.prev, draft)], Idle)])
    case Commit(t) => Db(View(db, t), db.txs - {t}, Released(db, t))
    case Abort(t) => Db(db.committed, db.txs - {t}, Released(db, t))
  }

  /** The proviso: the clock and the random id give each new row a key above every row it can see. */
  ghost predicate InOrder(db: Db, step: Step) {
    step.InsertRow? && step.t in db.txs ==> Exceeds(step.draft, View(db, step.t))
  }

  ghost predicate Good(h: Hash, rows: seq<Event>) {
    InKeyOrder(rows) && AllWellFormed(rows) && Chained(h, None, rows)
  }

  ghost predicate TxInv(h: Hash, db: Db, t: nat)
    requires t in db.txs
  {
    && (db.txs[t] == Tx([], Idle) || db.lock == Some(t))
    && Good(h, View(db, t))
    && db.committed <= View(db, t)
    && (db.txs[t].phase.HasRead? ==> db.txs[t].phase.prev == LastHash(None, View(db, t)))
  }

  ghost predicate Inv(h: Hash, db: Db) {
    && Good(h, db.committed)
    && forall t :: t in db.txs ==> TxInv(h, db, t)
  }

  lemma InsertInOrder(h: Hash, db: Db, t: nat, draft: Event)
    requires HexHash(h) && Inv(h, db)
    requires Enabled(db, InsertRow(t, draft)) && InOrder(db, InsertRow(t, draft))
    ensures TxInv(h, Apply(h, db, InsertRow(t, draft)), t)
  {
    hide RowHash;
    var db' := Apply(h, db, InsertRow(t, draft));
    var view := View(db, t);
    var e := Seal(h, LastHash(None, view), draft);
    assert TxInv(h, db, t);
    assert db'.txs[t].pending[..|db.txs[t].pending|] == db.txs[t].pending;
    assert Exceeds(e, view);
    InsertLargestAppends(view, e);
    assert View(db', t) == view + [e];
    AppendKeepsChain(h, view, draft);
  }

  lemma StepKeepsInv(h: Hash, db: Db, step: Step)
    requires HexHash(h) && Inv(h, db) && Enabled(db, step) && InOrder(db, step)
    ensures Inv(h, Apply(h, db, step))
    ensures db.committed <= Apply(h, db, step).committed
  {
    hide Good, Visible, Seal;
    var db' := Apply(h, db, step);
    assert step.t in db.txs ==> TxInv(h, db, step.t);
    assert Visible(db.committed, []) == db.committed by { NothingPending(db.committed); }
    NothingPending(db'.committed);
    forall t | t in db'.txs ensures TxInv(h, db', t) {
      assert t in db.txs ==> TxInv(h, db, t);
      if step.InsertRow? && t == step.t { InsertInOrder(h, db, t, step.draft); }
    }
  }

  lemma NothingPending(committed: seq<Event>)
    ensures Visible(committed, []) == committed
  {
  }

  /** `steps` take `db` to `last`, every insert meeting the proviso. */
  ghost predicate Run(h: Hash, db: Db, steps: seq<Step>, last: Db)
    decreases |steps|
  {
    if steps == [] then last == db
    else Enabled(db, steps[0]) && InOrder(db, steps[0]) && Run(h, Apply(h, db, steps[0]), steps[1..], last)
  }

  lemma {:induction false} RunKeepsInv(h: Hash, db: Db, steps: seq<Step>, last: Db)
    requires HexHash(h) && Inv(h, db) && Run(h, db, steps, last)
    ensures Inv(h, last) && db.committed <= last.committed
    decreases |steps|
  {
    hide Inv, Apply, Enabled, InOrder;
    if steps != [] {
      StepKeepsInv(h, db, steps[0]);
      RunKeepsInv(h, Apply(h, db, steps[0]), steps[1..], last);
    }
  }

  /**
   Whatever the interleaving of begins, locks, reads, inserts, commits and aborts, the committed rows
   in (ts, id) order verify, and rows once committed stay where they are in the chain.
   */
  lemma EveryInterleavingVerifies(h: Hash, start: Db, before: seq<Step>, middle: Db, after: seq<Step>, last: Db)
    requires HexHash(h) && start == Db([], map[], None)
    requires Run(h, start, before, middle) && Run(h, middle, after, last)
    ensures InKeyOrder(last.committed) && AllWellFormed(last.committed) && Chained(h, None, last.committed)
    ensures middle.committed <= last.committed
  {
    hide RowHash;
    RunKeepsInv(h, start, before, middle);
    RunKeepsInv(h, middle, after, last);
  }

  // ---- runs without the proviso -------------------------------------------------

  /** Any run: nothing is asked of the keys of new rows. */
  ghost predicate AnyRun(h: Hash, db: Db, steps: seq<Step>, last: Db)
    decreases |steps|
  {
    if steps == [] then last == db
    else Enabled(db, steps[0]) && AnyRun(h, Apply(h, db, steps[0]), steps[1..], last)
  }

  /** The open transactions that have inserted a row before another row they saw. */
  ghost function LateAfter(db: Db, step: Step, late: set<nat>): set<nat> {
    match step
    case InsertRow(t, _) => if InOrder(db, step) then late else late + {t}
    case Commit(t) => late - {t}
    case Abort(t) => late - {t}
    case _ => late
  }

  /** No transaction that inserted a row out of order commits; it may abort. */
  ghost predicate CommitsInOrder(h: Hash, db: Db, steps: seq<Step>, late: set<nat>, last: Db)
    requires AnyRun(h, db, steps, last)
    decreases |steps|
  {
    steps == []
    || (!(steps[0].Commit? && steps[0].t in late)
        && CommitsInOrder(h, Apply(h, db, steps[0]), steps[1..], LateAfter(db, steps[0], late), last))
  }

  /** Some row is chained to a row that sorts after it. */
  ghost predicate Broken(rows: seq<Event>) {
    exists e, l :: e in rows && l in rows && KeyLess(e, l) && e.prevHash == Some(l.rowHash)
  }

  lemma BrokenFails(h: Hash, rows: seq<Event>)
    requires HexHash(h) && InKeyOrder(rows) && AllWellFormed(rows) && Broken(rows)
    ensures Chained(h, None, rows) ==> Collision(h, None, rows, None, rows)
  {
    hide RowHash, Collision;
    var e, l :| e in rows && l in rows && KeyLess(e, l) && e.prevHash == Some(l.rowHash);
    var i :| 0 <= i < |rows| && rows[i] == e;
    var j :| 0 <= j < |rows| && rows[j] == l;
    LeTotal(e.id, l.id);
    assert j < i ==> KeyLess(l, e);
    if Chained(h, None, rows) {
      assert LinkedAt(h, None, rows, i);
      RepeatedHashCollides(h, rows, i - 1, j);
    }
  }

  lemma InsertAdds(rows: seq<Event>, e: Event)
    ensures forall x :: x in Insert(rows, e) <==> x == e || x in rows
  {
    var k := Slot(rows, e);
    assert rows == rows[..k] + rows[k..];
  }

  lemma StaysBroken(rows: seq<Event>, more: seq<Event>)
    requires Broken(rows) && forall e :: e in rows ==> e in more
    ensures Broken(more)
  {
  }

  /** A row sealed to the last row and put before it breaks the table. */
  lemma LateInsertBreaks(h: Hash, rows: seq<Event>, draft: Event)
    requires InKeyOrder(rows) && FreshId(rows, draft.id) && Insertable(draft) && !Exceeds(draft, rows)
    ensures Broken(Insert(rows, Seal(h, LastHash(None, rows), draft)))
  {
    hide RowHash, Insert;
    var e := Seal(h, LastHash(None, rows), draft);
    var i :| 0 <= i < |rows| && !KeyLess(rows[i], draft);
    var last := rows[|rows| - 1];
    KeyLessTotal(rows[i], draft);
    if i < |rows| - 1 { KeyLessTransitive(draft, rows[i], last); }
    InsertAdds(rows, e);
    assert KeyLess(e, last) && last in rows;
  }

  /** The table is in order and, as `broken` says, verifies or can only verify by a collision. */
  ghost predicate Standing(h: Hash, rows: seq<Event>, broken: bool) {
    InKeyOrder(rows) && AllWellFormed(rows) && if broken then Broken(rows) else Chained(h, None, rows)
  }

  ghost predicate TxStanding(h: Hash, db: Db, t: nat, late: set<nat>, broken: bool)
    requires t in db.txs
  {
    && (db.lock == Some(t) || (db.txs[t] == Tx([], Idle) && t !in late))
    && Standing(h, View(db, t), broken || t in late)
    && (forall e :: e in db.committed ==> e in View(db, t))
    && (db.txs[t].phase.HasRead? ==> db.txs[t].phase.prev == LastHash(None, View(db, t)))
  }

  ghost predicate DbStanding(h: Hash, db: Db, late: set<nat>, broken: bool) {
    && Standing(h, db.committed, broken)
    && late <= db.txs.Keys
    && forall t :: t in db.txs ==> TxStanding(h, db, t, late, broken)
  }

  lemma InsertStands(h: Hash, rows: seq<Event>, draft: Event, broken: bool)
    requires HexHash(h) && Standing(h, rows, broken) && Insertable(draft) && FreshId(rows, draft.id)
    ensures Standing(h, Insert(rows, Seal(h, LastHash(None, rows), draft)), broken || !Exceeds(draft, rows))
  {
    hide RowHash, KeyLess, Seal, Chained;
    var e := Seal(h, LastHash(None, rows), draft);
    var all := Insert(rows, e);
    SealedIsLinked(h, LastHash(None, rows), draft);
    InsertKeepsOrder(rows, e);
    var k := Slot(rows, e);
    assert all == rows[..k] + ([e] + rows[k..]);
    PartsWellFormed(rows[..k], [e] + rows[k..]);
    PartsWellFormed([e], rows[k..]);
    InsertAdds(rows, e);
    if !Exceeds(draft, rows) {
      LateInsertBreaks(h, rows, draft);
    } else if broken {
      StaysBroken(rows, all);
    } else {
      ExceedsByKey(draft, e, rows);
      InsertLargestAppends(rows, e);
      AppendKeepsChain(h, rows, draft);
    }
  }

  lemma ExceedsByKey(a: Event, b: Event, rows: seq<Event>)
    requires Exceeds(a, rows) && a.ts == b.ts && a.id == b.id
    ensures Exceeds(b, rows)
  {
  }

  lemma StepStands(h: Hash, db: Db, step: Step, late: set<nat>, broken: bool)
    requires HexHash(h) && DbStanding(h, db, late, broken) && Enabled(db, step)
    ensures DbStanding(h, Apply(h, db, step), LateAfter(db, step, late), broken || (step.Commit? && step.t in late))
  {
    hide Standing, Visible, Seal, Insertable, FreshId, Exceeds;
    var db' := Apply(h, db, step);
    var late', broken' := LateAfter(db, step, late), broken || (step.Commit? && step.t in late);
    assert step.t in db.txs ==> TxStanding(h, db, step.t, late, broken);
    NothingPending(db.committed);
    NothingPending(db'.committed);
    forall t | t in db'.txs ensures TxStanding(h, db', t, late', broken') {
      assert t in db.txs ==> TxStanding(h, db, t, late, broken);
      if step.InsertRow? && t == step.t { InsertStepStands(h, db, t, step.draft, late, broken); }
    }
  }

  lemma InsertStepStands(h: Hash, db: Db, t: nat, draft: Event, late: set<nat>, broken: bool)
    requires HexHash(h) && Enabled(db, InsertRow(t, draft)) && TxStanding(h, db, t, late, broken)
    ensures TxStanding(h, Apply(h, db, InsertRow(t, draft)), t, LateAfter(db, InsertRow(t, draft), late), broken)
  {
    hide Standing, Seal, FreshId, Exceeds, Insert;
    var view := View(db, t);
    var e := Seal(h, LastHash(None, view), draft);
    var db' := Apply(h, db, InsertRow(t, draft));
    assert db'.txs[t].pending[..|db.txs[t].pending|] == db.txs[t].pending;
    assert View(db', t) == Insert(view, e);
    InsertStands(h, view, draft, broken || t in late);
    InsertAdds(view, e);
  }

  lemma {:induction false} RunStands(h: Hash, db: Db, steps: seq<Step>, late: set<nat>, broken: bool, last: Db)
    requires HexHash(h) && DbStanding(h, db, late, broken) && AnyRun(h, db, steps, last)
    ensures Standing(h, last.committed, broken || !CommitsInOrder(h, db, steps, late, last))
    decreases |steps|
  {
    hide Standing, Apply, Enabled, LateAfter, TxStanding;
    if steps != [] {
      StepStands(h, db, steps[0], late, broken);
      RunStands(h, Apply(h, db, steps[0]), steps[1..], LateAfter(db, steps[0], late),
                broken || (steps[0].Commit? && steps[0].t in late), last);
    }
  }

  /**
   After any run from an empty table, whatever keys the new rows got, the committed rows verify if and
   only if no transaction that inserted a row out of order committed: later appends never repair a break.
   The one exception is a hash that confuses two of the hashed texts.
   */
  lemma CommittedRowsVerifyIff(h: Hash, steps: seq<Step>, last: Db)
    requires HexHash(h) && AnyRun(h, Db([], map[], None), steps, last)
    ensures InKeyOrder(last.committed) && AllWellFormed(last.committed)
    ensures Collision(h, None, last.committed, None, last.committed)
      || (Chained(h, None, last.committed) <==> CommitsInOrder(h, Db([], map[], None), steps, {}, last))
  {
    hide AnyRun, CommitsInOrder, Broken, Collision;
    RunStands(h, Db([], map[], None), steps, {}, false, last);
    if !CommitsInOrder(h, Db([], map[], None), steps, {}, last) { BrokenFails(h, last.committed); }
  }
}
