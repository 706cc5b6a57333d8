/**
 The audit hash chain: row_hash = sha256(prev_hash ++ canonical_json(fields)).

 The hash is any function from texts to 64 hexadecimal characters. No such function is injective,
 so results that need it collision-free say instead that the two texts it confuses are at hand.
 */
module AuditChain {
  import opened Text
  import opened Calendar
  import opened Json

  type Hash = string -> string

  ghost predicate IsDigest(s: string) { |s| == 64 && forall i :: 0 <= i < 64 ==> IsHex(s[i]) }

  ghost predicate HexHash(h: Hash) { forall s :: IsDigest(h(s)) }

  /** A stored row. `id` and `actorId` are the texts of UUIDs; `before` and `after` are dictionaries or NULL. */
  datatype Event = Event(
    id: string, ts: int, actorId: Option<string>, action: string, entity: string, entityId: string,
    before: Option<seq<Field>>, after: Option<seq<Field>>, correlationId: Option<string>,
    prevHash: Option<string>, rowHash: string)

  /** What a row to be inserted must satisfy. */
  ghost predicate Insertable(e: Event) {
    && ValidInstant(e.ts)
    && (e.before.Some? ==> DistinctKeys(Obj(e.before.value)))
    && (e.after.Some? ==> DistinctKeys(Obj(e.after.value)))
  }

  ghost predicate WellFormed(e: Event) { Insertable(e) && IsDigest(e.rowHash) }

  ghost predicate AllWellFormed(rows: seq<Event>) {
    forall i :: 0 <= i < |rows| ==> WellFormed(rows[i])
  }

  /** What the replay needs of a stored row: its other columns may hold anything. */
  ghost predicate AllTimed(rows: seq<Event>) {
    forall i :: 0 <= i < |rows| ==> ValidInstant(rows[i].ts)
  }

  function TextOrNull(s: Option<string>): Value { if s.Some? then Str(s.value) else Null }

  function DictOrNull(d: Option<seq<Field>>): Value { if d.Some? then Obj(d.value) else Null }

  /** Naive-UTC ISO text that always shows six digits of microseconds. */
  function CanonicalTs(ts: int): (s: string)
    requires ValidInstant(ts)
    ensures |s| == 26 && s[..19] == SecondsText(ts) && s[19] == '.'
    ensures forall i :: 20 <= i < 26 ==> IsDigit(s[i])
  {
    SecondsText(ts) + "." + Padded(Micros(ts), 6)
  }

  function HashedFields(e: Event): (v: Value)
    requires ValidInstant(e.ts)
    ensures v.Obj?
  {
    Obj([Field("actor_id", TextOrNull(e.actorId)),
         Field("action", Str(e.action)),
         Field("entity", Str(e.entity)),
         Field("entity_id", Str(e.entityId)),
         Field("before", DictOrNull(e.before)),
         Field("after", DictOrNull(e.after)),
         Field("ts", Str(CanonicalTs(e.ts))),
         Field("correlation_id", TextOrNull(e.correlationId))])
  }

  /** The text that is hashed: a missing or empty previous hash contributes nothing. */
  function Body(prev: Option<string>, e: Event): string
    requires ValidInstant(e.ts)
  {
    prev.GetOr("") + CanonicalJson(HashedFields(e))
  }

  function RowHash(h: Hash, prev: Option<string>, e: Event): string
    requires ValidInstant(e.ts)
  {
    h(Body(prev, e))
  }

  // ---- verification -------------------------------------------------------------

  /** The hash row `i` must be chained to, when the rows start after `prev`. */
  function PrevAt(prev: Option<string>, rows: seq<Event>, i: nat): Option<string>
    requires i <= |rows|
  {
    if i == 0 then prev else Some(rows[i - 1].rowHash)
  }

  function LastHash(prev: Option<string>, rows: seq<Event>): Option<string> {
    PrevAt(prev, rows, |rows|)
  }

  ghost predicate LinkedAt(h: Hash, prev: Option<string>, rows: seq<Event>, i: nat)
    requires i < |rows| && ValidInstant(rows[i].ts)
  {
    && rows[i].prevHash == PrevAt(prev, rows, i)
    && rows[i].rowHash == RowHash(h, PrevAt(prev, rows, i), rows[i])
  }

  /** Every row carries the hash of the row before it and its own recomputed hash. */
  ghost predicate Chained(h: Hash, prev: Option<string>, rows: seq<Event>)
    requires AllTimed(rows)
  {
    forall i :: 0 <= i < |rows| ==> LinkedAt(h, prev, rows, i)
  }

  /** The replay of the stored rows in (ts, id) order, whatever their hashes hold. */
  method VerifyChain(h: Hash, rows: seq<Event>) returns (ok: bool)
    requires AllTimed(rows)
    ensures ok <==> Chained(h, None, rows)
  {
    hide RowHash;
    var expectedPrev: Option<string> := None;
    for i := 0 to |rows|
      invariant expectedPrev == PrevAt(None, rows, i)
      invariant forall j :: 0 <= j < i ==> LinkedAt(h, None, rows, j)
    {
      if rows[i].prevHash != expectedPrev {
        assert !LinkedAt(h, None, rows, i);
        return false;
      }
      if RowHash(h, expectedPrev, rows[i]) != rows[i].rowHash {
        assert !LinkedAt(h, None, rows, i);
        return false;
      }
      expectedPrev := Some(rows[i].rowHash);
    }
    return true;
  }

  lemma PartsWellFormed(a: seq<Event>, b: seq<Event>)
    ensures AllWellFormed(a + b) <==> AllWellFormed(a) && AllWellFormed(b)
  {
    if AllWellFormed(a + b) {
      forall i | 0 <= i < |a| ensures WellFormed(a[i]) { assert (a + b)[i] == a[i]; }
      forall i | 0 <= i < |b| ensures WellFormed(b[i]) { assert (a + b)[|a| + i] == b[i]; }
    }
  }

  /** Verifying two stretches put end to end is verifying the first, then the second from the first's last hash. */
  lemma ChainedSplits(h: Hash, prev: Option<string>, a: seq<Event>, b: seq<Event>)
    requires AllTimed(a) && AllTimed(b) && AllTimed(a + b)
    ensures Chained(h, prev, a + b) <==> Chained(h, prev, a) && Chained(h, LastHash(prev, a), b)
  {
    hide RowHash;
    var ab := a + b;
    assert forall i :: 0 <= i < |a| ==> (LinkedAt(h, prev, ab, i) <==> LinkedAt(h, prev, a, i));
    forall i | 0 <= i < |b|
      ensures LinkedAt(h, prev, ab, |a| + i) <==> LinkedAt(h, LastHash(prev, a), b, i)
    {
      assert ab[|a| + i] == b[i];
    }
    if Chained(h, prev, a) && Chained(h, LastHash(prev, a), b) {
      forall k | 0 <= k < |ab| ensures LinkedAt(h, prev, ab, k) {
        if k >= |a| { assert LinkedAt(h, LastHash(prev, a), b, k - |a|); }
      }
    }
    if Chained(h, prev, ab) {
      forall i | 0 <= i < |b| ensures LinkedAt(h, LastHash(prev, a), b, i) {
        assert LinkedAt(h, prev, ab, |a| + i);
      }
    }
  }

  // ---- what the last hash pins down ---------------------------------------------

  /** The rows agree on everything that is hashed; the row id is not. */
  ghost predicate SameHashed(a: Event, b: Event) {
    && a.ts == b.ts && a.actorId == b.actorId && a.action == b.action
    && a.entity == b.entity && a.entityId == b.entityId && a.correlationId == b.correlationId
    && Same(DictOrNull(a.before), DictOrNull(b.before))
    && Same(DictOrNull(a.after), DictOrNull(b.after))
  }

  lemma CanonicalTsInjective(a: int, b: int)
    requires ValidInstant(a) && ValidInstant(b) && CanonicalTs(a) == CanonicalTs(b)
    ensures a == b
  {
    var s, t := CanonicalTs(a), CanonicalTs(b);
    assert s[..19] == SecondsText(a) && t[..19] == SecondsText(b);
    assert s[20..] == Padded(Micros(a), 6) && t[20..] == Padded(Micros(b), 6);
    Powers();
    PaddedInjective(Micros(a), Micros(b), 6);
    SecondsTextDetermines(a, b);
  }

  lemma HashedFieldsDistinct(e: Event)
    requires Insertable(e)
    ensures DistinctKeys(HashedFields(e))
  {
    hide CanonicalTs;
    var fields := HashedFields(e).fields;
    assert DistinctKeys(fields[4].value) && DistinctKeys(fields[5].value);
    assert forall i :: 0 <= i < |fields| ==> DistinctKeys(fields[i].value);
  }

  /** Dictionaries written with the same keys in the same order are the same exactly when the values are. */
  lemma SameFieldByField(fs: seq<Field>, gs: seq<Field>)
    requires |fs| == |gs| && NoRepeats(gs)
    requires forall i :: 0 <= i < |fs| ==> fs[i].key == gs[i].key
    ensures Same(Obj(fs), Obj(gs)) <==> forall i :: 0 <= i < |fs| ==> Same(fs[i].value, gs[i].value)
  {
    hide Same;
    SameDictionary(fs, gs);
    assert forall i :: 0 <= i < |fs| ==> HasKey(gs, fs[i].key) by {
      forall i | 0 <= i < |fs| ensures HasKey(gs, fs[i].key) { assert gs[i].key == fs[i].key; }
    }
    forall i, j | 0 <= i < |fs| && 0 <= j < |gs| && fs[i].key == gs[j].key ensures i == j {
      assert gs[i].key == gs[j].key;
    }
  }

  lemma HashedNamesDistinct(e: Event)
    requires ValidInstant(e.ts)
    ensures NoRepeats(HashedFields(e).fields) && |HashedFields(e).fields| == 8
  {
    hide CanonicalTs;
  }

  /** Two rows' hashed dictionaries are the same exactly when the eight values are. */
  lemma HashedFieldByField(a: Event, b: Event)
    requires ValidInstant(a.ts) && ValidInstant(b.ts)
    ensures Same(HashedFields(a), HashedFields(b)) <==>
      && Same(TextOrNull(a.actorId), TextOrNull(b.actorId)) && Same(Str(a.action), Str(b.action))
      && Same(Str(a.entity), Str(b.entity)) && Same(Str(a.entityId), Str(b.entityId))
      && Same(DictOrNull(a.before), DictOrNull(b.before)) && Same(DictOrNull(a.after), DictOrNull(b.after))
      && Same(Str(CanonicalTs(a.ts)), Str(CanonicalTs(b.ts)))
      && Same(TextOrNull(a.correlationId), TextOrNull(b.correlationId))
  {
    hide CanonicalTs, Same, TextOrNull, DictOrNull, NoRepeats;
    var fs, gs := HashedFields(a).fields, HashedFields(b).fields;
    HashedNamesDistinct(b);
    assert forall i :: 0 <= i < 8 ==> fs[i].key == gs[i].key;
    SameFieldByField(fs, gs);
    assert (forall i :: 0 <= i < 8 ==> Same(fs[i].value, gs[i].value)) <==>
      && Same(fs[0].value, gs[0].value) && Same(fs[1].value, gs[1].value) && Same(fs[2].value, gs[2].value)
      && Same(fs[3].value, gs[3].value) && Same(fs[4].value, gs[4].value) && Same(fs[5].value, gs[5].value)
      && Same(fs[6].value, gs[6].value) && Same(fs[7].value, gs[7].value);
  }

  lemma HashedFieldsSame(a: Event, b: Event)
    requires Insertable(a) && Insertable(b)
    ensures Same(HashedFields(a), HashedFields(b)) <==> SameHashed(a, b)
  {
    hide CanonicalTs, Same, HashedFields, TextOrNull, DictOrNull;
    HashedFieldByField(a, b);
    SameTexts(a, b);
    if CanonicalTs(a.ts) == CanonicalTs(b.ts) { CanonicalTsInjective(a.ts, b.ts); }
  }

  /** Text fields and NULLs are the same only when they are equal. */
  lemma SameTexts(a: Event, b: Event)
    requires Insertable(a) && Insertable(b)
    ensures Same(TextOrNull(a.actorId), TextOrNull(b.actorId)) <==> a.actorId == b.actorId
    ensures Same(TextOrNull(a.correlationId), TextOrNull(b.correlationId)) <==> a.correlationId == b.correlationId
    ensures forall s: string, t: string :: Same(Str(s), Str(t)) <==> s == t
  {
  }

  /** Equal hashed texts of two rows mean equal hashed fields, and conversely. */
  lemma FieldTextDetermines(a: Event, b: Event)
    requires Insertable(a) && Insertable(b)
    ensures CanonicalJson(HashedFields(a)) == CanonicalJson(HashedFields(b)) <==> SameHashed(a, b)
  {
    hide CanonicalJson, HashedFields, Same;
    HashedFieldsDistinct(a);
    HashedFieldsDistinct(b);
    CanonicalJsonDeterminesValue(HashedFields(a), HashedFields(b));
    HashedFieldsSame(a, b);
  }

  /** A hashed text splits in one way: 64 hexadecimal characters or nothing, then the brace of the JSON. */
  lemma BodySplits(p: Option<string>, a: Event, q: Option<string>, b: Event)
    requires Insertable(a) && Insertable(b)
    requires p.Some? ==> IsDigest(p.value)
    requires q.Some? ==> IsDigest(q.value)
    requires Body(p, a) == Body(q, b)
    ensures p == q && SameHashed(a, b)
  {
    var ja, jb := CanonicalJson(HashedFields(a)), CanonicalJson(HashedFields(b));
    CanonicalJsonIsOneLine(HashedFields(a));
    CanonicalJsonIsOneLine(HashedFields(b));
    var s := Body(p, a);
    assert (p.Some? ==> IsHex(s[0])) && (p.None? ==> s == ja && s[0] == '{');
    assert (q.Some? ==> IsHex(s[0])) && (q.None? ==> s == jb && s[0] == '{');
    if p.Some? {
      assert s[..64] == p.value && s[64..] == ja;
      assert s[..64] == q.value && s[64..] == jb;
    }
    FieldTextDetermines(a, b);
  }

  /** Two different texts, both hashed for some row of the two chains, with one hash. */
  ghost predicate Collision(h: Hash, p: Option<string>, a: seq<Event>, q: Option<string>, b: seq<Event>)
    requires AllTimed(a) && AllTimed(b)
  {
    exists i, j :: 0 <= i < |a| && 0 <= j < |b|
      && Body(PrevAt(p, a, i), a[i]) != Body(PrevAt(q, b, j), b[j])
      && h(Body(PrevAt(p, a, i), a[i])) == h(Body(PrevAt(q, b, j), b[j]))
  }

  ghost predicate ChainsAgree(a: seq<Event>, b: seq<Event>) {
    && |a| == |b|
    && forall i :: 0 <= i < |a| ==>
         SameHashed(a[i], b[i]) && a[i].prevHash == b[i].prevHash && a[i].rowHash == b[i].rowHash
  }

  lemma LongerCollision(h: Hash, a: seq<Event>, a': seq<Event>, b: seq<Event>, b': seq<Event>)
    requires AllTimed(a + a') && AllTimed(b + b') && AllTimed(a) && AllTimed(b)
    requires Collision(h, None, a, None, b)
    ensures Collision(h, None, a + a', None, b + b')
  {
    hide CanonicalJson, HashedFields;
    var i, j :| 0 <= i < |a| && 0 <= j < |b|
      && Body(PrevAt(None, a, i), a[i]) != Body(PrevAt(None, b, j), b[j])
      && h(Body(PrevAt(None, a, i), a[i])) == h(Body(PrevAt(None, b, j), b[j]));
    assert PrevAt(None, a + a', i) == PrevAt(None, a, i) && (a + a')[i] == a[i];
    assert PrevAt(None, b + b', j) == PrevAt(None, b, j) && (b + b')[j] == b[j];
  }

  /**
   The last hash of a verifying chain determines the length of the chain and every hashed field of
   every row, or the hash confuses two of the texts the chains are made of.
   */
  lemma {:induction false} LastHashDetermines(h: Hash, a: seq<Event>, b: seq<Event>)
    requires HexHash(h) && AllWellFormed(a) && AllWellFormed(b)
    requires Chained(h, None, a) && Chained(h, None, b)
    requires LastHash(None, a) == LastHash(None, b)
    ensures ChainsAgree(a, b) || Collision(h, None, a, None, b)
    decreases |a|
  {
    hide CanonicalJson, HashedFields;
    if a != [] {
      var m, n := |a| - 1, |b| - 1;
      assert LinkedAt(h, None, a, m) && LinkedAt(h, None, b, n);
      var p, q := PrevAt(None, a, m), PrevAt(None, b, n);
      assert WellFormed(a[m]) && WellFormed(b[n]);
      assert m > 0 ==> WellFormed(a[m - 1]);
      assert n > 0 ==> WellFormed(b[n - 1]);
      if Body(p, a[m]) == Body(q, b[n]) {
        BodySplits(p, a[m], q, b[n]);
        assert a == a[..m] + a[m..] && b == b[..n] + b[n..];
        ChainedSplits(h, None, a[..m], a[m..]);
        ChainedSplits(h, None, b[..n], b[n..]);
        LastHashDetermines(h, a[..m], b[..n]);
        if Collision(h, None, a[..m], None, b[..n]) {
          LongerCollision(h, a[..m], a[m..], b[..n], b[n..]);
        }
      }
    }
  }

  // ---- tampering ----------------------------------------------------------------

  /** The replaced row's text and the new one's differ and have one hash. */
  ghost predicate Confused(h: Hash, prev: Option<string>, a: Event, b: Event)
    requires ValidInstant(a.ts) && ValidInstant(b.ts)
  {
    Body(prev, a) != Body(prev, b) && h(Body(prev, a)) == h(Body(prev, b))
  }

  lemma SameBody(prev: Option<string>, a: Event, b: Event)
    requires Insertable(a) && Insertable(b)
    ensures Body(prev, a) == Body(prev, b) <==> SameHashed(a, b)
  {
    hide CanonicalJson, HashedFields;
    var p, ja, jb := prev.GetOr(""), CanonicalJson(HashedFields(a)), CanonicalJson(HashedFields(b));
    assert (p + ja)[|p|..] == ja && (p + jb)[|p|..] == jb;
    FieldTextDetermines(a, b);
  }

  /**
   Replacing one row of a verifying chain in its place keeps it verifying if and only if the new row
   agrees with the old one in every hashed field and in both hashes, or it is the last row and was
   sealed anew, unless the hash confuses the two texts.
   */
  lemma TamperedRowVerifiesIff(h: Hash, rows: seq<Event>, k: nat, e: Event)
    requires AllTimed(rows) && Chained(h, None, rows) && k < |rows| && Insertable(rows[k]) && Insertable(e)
    requires !Confused(h, PrevAt(None, rows, k), rows[k], e)
    ensures AllTimed(rows[k := e])
    ensures Chained(h, None, rows[k := e]) <==>
      && e.prevHash == rows[k].prevHash
      && ((SameHashed(e, rows[k]) && e.rowHash == rows[k].rowHash)
          || (k == |rows| - 1 && e.rowHash == RowHash(h, e.prevHash, e)))
  {
    hide Body, SameHashed;
    var all, prev := rows[k := e], PrevAt(None, rows, k);
    assert LinkedAt(h, None, rows, k);
    SameBody(prev, e, rows[k]);
    assert PrevAt(None, all, k) == prev;
    if Chained(h, None, all) {
      assert LinkedAt(h, None, all, k);
      if k + 1 < |rows| { assert LinkedAt(h, None, rows, k + 1) && LinkedAt(h, None, all, k + 1); }
    }
    if LinkedAt(h, None, all, k) && (e.rowHash == rows[k].rowHash || k == |rows| - 1) {
      forall i | 0 <= i < |all| ensures LinkedAt(h, None, all, i) {
        if i != k { OtherLinksStand(h, rows, k, e, i); }
      }
    }
  }

  lemma OtherLinksStand(h: Hash, rows: seq<Event>, k: nat, e: Event, i: nat)
    requires AllTimed(rows) && Chained(h, None, rows) && k < |rows| && ValidInstant(e.ts) && i < |rows| && i != k
    requires e.rowHash == rows[k].rowHash || k == |rows| - 1
    ensures LinkedAt(h, None, rows[k := e], i)
  {
    hide RowHash;
    assert LinkedAt(h, None, rows, i);
  }
}
