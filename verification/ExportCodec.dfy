/**
 The exported file of one day: one canonical JSON object per row, one row per line, compressed.
 Reading the files of consecutive days back, end to end, gives the stored chain.
 */
module ExportCodec {
  import opened Text
  import opened Calendar
  import opened Json
  import opened AuditChain
  import opened AuditLock

  // ---- timestamps ---------------------------------------------------------------

  /** `ts.isoformat()` of a UTC instant: microseconds are written only when there are any. */
  function IsoTs(ts: int): string
    requires ValidInstant(ts)
  {
    SecondsText(ts) + (if Micros(ts) == 0 then "" else "." + Padded(Micros(ts), 6)) + "+00:00"
  }

  function Number(s: string): nat {
    if forall i :: 0 <= i < |s| ==> IsDigit(s[i]) then DecimalValue(s) else 0
  }

  lemma {:induction false} PaddedValue(n: nat, width: nat)
    requires n < Pow10(width)
    ensures Number(Padded(n, width)) == n
  {
    if width > 0 {
      PaddedValue(n / 10, width - 1);
      assert Padded(n, width)[..width - 1] == Padded(n / 10, width - 1);
    }
  }

  function ReadDay(s: string): int
    requires |s| == 10
  {
    var month := Number(s[5..7]);
    if 1 <= month <= 12 then ToOrdinal(Date(Number(s[..4]), month, Number(s[8..]))) else 0
  }

  function ReadClock(s: string): int
    requires |s| == 8
  {
    3600 * Number(s[..2]) + 60 * Number(s[3..5]) + Number(s[6..])
  }

  function ReadTs(s: string): Option<int> {
    if |s| != 25 && |s| != 32 then None
    else
      var micros := if |s| == 25 then 0 else Number(s[20..26]);
      Some(ReadDay(s[..10]) * DAY_MICROS + ReadClock(s[11..19]) * 1_000_000 + micros)
  }

  lemma ReadDayText(n: int)
    requires ValidDay(n)
    ensures ReadDay(IsoDate(n)) == n
  {
    hide FromOrdinal, ToOrdinal;
    var d, s := FromOrdinal(n), IsoDate(n);
    YearFits(n);
    Powers();
    assert s[..4] == Padded(d.year, 4) && s[5..7] == Padded(d.month, 2) && s[8..] == Padded(d.day, 2);
    PaddedValue(d.year, 4);
    PaddedValue(d.month, 2);
    PaddedValue(d.day, 2);
  }

  lemma ReadClockText(ts: int)
    ensures ReadClock(ClockText(ts)) == ts % DAY_MICROS / 1_000_000
  {
    var p, s := ts % DAY_MICROS / 1_000_000, ClockText(ts);
    assert s[..2] == Padded(p / 3600, 2) && s[3..5] == Padded(p / 60 % 60, 2) && s[6..] == Padded(p % 60, 2);
    Powers();
    PaddedValue(p / 3600, 2);
    PaddedValue(p / 60 % 60, 2);
    PaddedValue(p % 60, 2);
    HourMinuteSecond(p);
  }

  lemma InstantParts(ts: int)
    ensures ts == DayOf(ts) * DAY_MICROS + ts % DAY_MICROS / 1_000_000 * 1_000_000 + Micros(ts)
  {
    var inDay := ts % DAY_MICROS;
    assert inDay == inDay / 1_000_000 * 1_000_000 + inDay % 1_000_000;
  }

  lemma TsRoundTrip(ts: int)
    requires ValidInstant(ts)
    ensures ReadTs(IsoTs(ts)) == Some(ts)
  {
    hide IsoDate, ClockText, ReadDay, ReadClock;
    var s := IsoTs(ts);
    assert s[..10] == IsoDate(DayOf(ts)) && s[11..19] == ClockText(ts);
    ReadDayText(DayOf(ts));
    ReadClockText(ts);
    InstantParts(ts);
    if Micros(ts) != 0 {
      assert s[20..26] == Padded(Micros(ts), 6);
      Powers();
      PaddedValue(Micros(ts), 6);
    }
  }

  // ---- one row ------------------------------------------------------------------

  function RowJson(e: Event): (v: Value)
    requires ValidInstant(e.ts)
    ensures v.Obj?
  {
    Obj([Field("id", Str(e.id)),
         Field("ts", Str(IsoTs(e.ts))),
         Field("actor_id", TextOrNull(e.actorId)),
         Field("action", Str(e.action)),
         Field("entity", Str(e.entity)),
         Field("entity_id", Str(e.entityId)),
         Field("before", DictOrNull(e.before)),
         Field("after", DictOrNull(e.after)),
         Field("correlation_id", TextOrNull(e.correlationId)),
         Field("prev_hash", TextOrNull(e.prevHash)),
         Field("row_hash", Str(e.rowHash))])
  }

  function Lookup(fields: seq<Field>, key: string): Option<Value> {
    if fields == [] then None
    else if fields[0].key == key then Some(fields[0].value)
    else Lookup(fields[1..], key)
  }

  function AsText(v: Option<Value>): Option<string> {
    match v
    case Some(Str(s)) => Some(s)
    case _ => None
  }

  function AsDict(v: Option<Value>): Option<seq<Field>> {
    match v
    case Some(Obj(fields)) => Some(fields)
    case _ => None
  }

  /** The row a parsed line stands for; None when a column that is never NULL is missing. */
  function DecodeRow(v: Value): Option<Event> {
    match v
    case Obj(f) =>
      var ts := match AsText(Lookup(f, "ts")) case Some(t) => ReadTs(t) case None => None;
      var id, action := AsText(Lookup(f, "id")), AsText(Lookup(f, "action"));
      var entity, entityId := AsText(Lookup(f, "entity")), AsText(Lookup(f, "entity_id"));
      var rowHash := AsText(Lookup(f, "row_hash"));
      if ts.None? || id.None? || action.None? || entity.None? || entityId.None? || rowHash.None? then None
      else Some(Event(id.value, ts.value, AsText(Lookup(f, "actor_id")), action.value, entity.value,
                      entityId.value, AsDict(Lookup(f, "before")), AsDict(Lookup(f, "after")),
                      AsText(Lookup(f, "correlation_id")), AsText(Lookup(f, "prev_hash")), rowHash.value))
    case _ => None
  }

  function CanonDict(d: Option<seq<Field>>): Option<seq<Field>> {
    if d.Some? then Some(SortFields(CanonFields(d.value))) else None
  }

  /** The same row with its two dictionaries in key order, which is all a file keeps of them. */
  function Tidy(e: Event): Event {
    e.(before := CanonDict(e.before), after := CanonDict(e.after))
  }

  lemma {:induction false} LookupFinds(fields: seq<Field>, f: Field)
    requires NoRepeats(fields) && f in fields
    ensures Lookup(fields, f.key) == Some(f.value)
  {
    if fields[0] != f {
      var i :| 0 <= i < |fields| && fields[i] == f;
      assert fields[1..][i - 1] == f;
      LookupFinds(fields[1..], f);
    }
  }

  /** Sorting and canonicalising a dictionary keeps every key's value, up to the value's own key order. */
  lemma LookupCanon(fields: seq<Field>, i: nat)
    requires NoRepeats(fields) && i < |fields|
    ensures Lookup(SortFields(CanonFields(fields)), fields[i].key) == Some(Canon(fields[i].value))
  {
    hide Canon, SortFields, Lookup;
    var cf := CanonFields(fields);
    SortFieldsSorts(cf);
    SortFieldsNoRepeats(cf);
    assert cf[i] in multiset(cf);
    LookupFinds(SortFields(cf), cf[i]);
  }

  lemma RowKeysDistinct(e: Event)
    requires ValidInstant(e.ts)
    ensures NoRepeats(RowJson(e).fields)
  {
  }

  lemma CanonOfColumns(s: Option<string>, d: Option<seq<Field>>)
    ensures AsText(Some(Canon(TextOrNull(s)))) == s
    ensures AsDict(Some(Canon(DictOrNull(d)))) == CanonDict(d)
  {
  }

  /** What looking up each column of an exported row finds. */
  ghost predicate RowColumns(f: seq<Field>, e: Event)
    requires ValidInstant(e.ts)
  {
    && Lookup(f, "id") == Some(Str(e.id)) && Lookup(f, "ts") == Some(Str(IsoTs(e.ts)))
    && Lookup(f, "actor_id") == Some(Canon(TextOrNull(e.actorId))) && Lookup(f, "action") == Some(Str(e.action))
    && Lookup(f, "entity") == Some(Str(e.entity)) && Lookup(f, "entity_id") == Some(Str(e.entityId))
    && Lookup(f, "before") == Some(Canon(DictOrNull(e.before))) && Lookup(f, "after") == Some(Canon(DictOrNull(e.after)))
    && Lookup(f, "correlation_id") == Some(Canon(TextOrNull(e.correlationId)))
    && Lookup(f, "prev_hash") == Some(Canon(TextOrNull(e.prevHash))) && Lookup(f, "row_hash") == Some(Str(e.rowHash))
  }

  lemma FindColumns(e: Event)
    requires ValidInstant(e.ts)
    ensures RowColumns(SortFields(CanonFields(RowJson(e).fields)), e)
  {
    hide IsoTs, NoRepeats, Lookup, SortFields;
    var fields := RowJson(e).fields;
    RowKeysDistinct(e);
    LookupCanon(fields, 0);
    LookupCanon(fields, 1);
    LookupCanon(fields, 2);
    LookupCanon(fields, 3);
    LookupCanon(fields, 4);
    LookupCanon(fields, 5);
    LookupCanon(fields, 6);
    LookupCanon(fields, 7);
    LookupCanon(fields, 8);
    LookupCanon(fields, 9);
    LookupCanon(fields, 10);
  }

  lemma DecodeCanonRow(e: Event)
    requires WellFormed(e)
    ensures DecodeRow(Canon(RowJson(e))) == Some(Tidy(e))
  {
    hide IsoTs, ReadTs, Lookup, SortFields, CanonDict, RowJson;
    var f := SortFields(CanonFields(RowJson(e).fields));
    assert Canon(RowJson(e)) == Obj(f);
    FindColumns(e);
    CanonOfColumns(e.actorId, e.before);
    CanonOfColumns(e.correlationId, e.after);
    CanonOfColumns(e.prevHash, e.before);
    TsRoundTrip(e.ts);
  }

  // ---- one file -----------------------------------------------------------------

  /** The uncompressed file: each row's JSON and a newline. */
  function Jsonl(rows: seq<Event>): string
    requires forall i :: 0 <= i < |rows| ==> ValidInstant(rows[i].ts)
  {
    if rows == [] then []
    else CanonicalJson(RowJson(rows[0])) + "\n" + Jsonl(rows[1..])
  }

  lemma {:induction false} JsonlAppend(a: seq<Event>, b: seq<Event>)
    requires forall i :: 0 <= i < |a| ==> ValidInstant(a[i].ts)
    requires forall i :: 0 <= i < |b| ==> ValidInstant(b[i].ts)
    ensures forall i :: 0 <= i < |a + b| ==> ValidInstant((a + b)[i].ts)
    ensures Jsonl(a + b) == Jsonl(a) + Jsonl(b)
  {
    hide CanonicalJson, RowJson;
    if a == [] {
      assert a + b == b;
    } else {
      assert (a + b)[1..] == a[1..] + b && (a + b)[0] == a[0];
      JsonlAppend(a[1..], b);
      Regroup(CanonicalJson(RowJson(a[0])) + "\n", Jsonl(a[1..]), Jsonl(b));
    }
  }

  type Gzip = string -> string

  /** Decompression gives the text back, so compression confuses no two texts. */
  ghost predicate Lossless(gz: Gzip) { forall a, b :: gz(a) == gz(b) ==> a == b }

  /** The bytes of one day's object, built line by line. */
  method Serialize(gz: Gzip, rows: seq<Event>) returns (body: string)
    requires AllWellFormed(rows)
    ensures forall i :: 0 <= i < |rows| ==> ValidInstant(rows[i].ts)
    ensures body == gz(Jsonl(rows))
  {
    hide CanonicalJson, RowJson;
    assert forall i :: 0 <= i < |rows| ==> ValidInstant(rows[i].ts) by {
      forall i | 0 <= i < |rows| ensures ValidInstant(rows[i].ts) { assert WellFormed(rows[i]); }
    }
    var buffer := "";
    for i := 0 to |rows|
      invariant buffer == Jsonl(rows[..i])
    {
      buffer := buffer + CanonicalJson(RowJson(rows[i]));
      buffer := buffer + "\n";
      assert rows[..i + 1] == rows[..i] + [rows[i]];
      JsonlAppend(rows[..i], [rows[i]]);
      assert Jsonl([rows[i]]) == CanonicalJson(RowJson(rows[i])) + "\n";
      Regroup(Jsonl(rows[..i]), CanonicalJson(RowJson(rows[i])), "\n");
    }
    assert rows[..|rows|] == rows;
    body := gz(buffer);
  }

  /** A reader of the uncompressed file. */
  function DecodeFile(text: string): Option<seq<Event>>
    decreases |text|
  {
    if text == [] then Some([])
    else
      match ReadValue(text)
      case None => None
      case Some(Read(v, rest)) =>
        if rest == [] || rest[0] != '\n' then None
        else
          match (DecodeRow(v), DecodeFile(rest[1..]))
          case (Some(e), Some(es)) => Some([e] + es)
          case _ => None
  }

  function TidyAll(rows: seq<Event>): (r: seq<Event>)
    ensures |r| == |rows|
    ensures forall i :: 0 <= i < |rows| ==> r[i] == Tidy(rows[i])
  {
    seq(|rows|, i requires 0 <= i < |rows| => Tidy(rows[i]))
  }

  /** Reading an exported file gives back every row, every column and every nested value. */
  lemma {:induction false} FileRoundTrip(rows: seq<Event>)
    requires AllWellFormed(rows)
    ensures forall i :: 0 <= i < |rows| ==> ValidInstant(rows[i].ts)
    ensures DecodeFile(Jsonl(rows)) == Some(TidyAll(rows))
  {
    hide ReadValue, Render, Canon, RowJson, DecodeRow, Tidy;
    forall i | 0 <= i < |rows| ensures ValidInstant(rows[i].ts) { assert WellFormed(rows[i]); }
    if rows != [] {
      var rest := "\n" + Jsonl(rows[1..]);
      assert WellFormed(rows[0]);
      assert forall i :: 0 <= i < |rows[1..]| ==> WellFormed(rows[1..][i]);
      FileRoundTrip(rows[1..]);
      Regroup(CanonicalJson(RowJson(rows[0])), "\n", Jsonl(rows[1..]));
      ReadRendered(Canon(RowJson(rows[0])), rest);
      DecodeCanonRow(rows[0]);
      assert rest[1..] == Jsonl(rows[1..]);
      assert TidyAll(rows) == [Tidy(rows[0])] + TidyAll(rows[1..]);
    }
  }

  lemma JsonlInjective(a: seq<Event>, b: seq<Event>)
    requires AllWellFormed(a) && AllWellFormed(b)
    ensures forall i :: 0 <= i < |a| ==> ValidInstant(a[i].ts)
    ensures forall i :: 0 <= i < |b| ==> ValidInstant(b[i].ts)
    ensures Jsonl(a) == Jsonl(b) ==> TidyAll(a) == TidyAll(b)
  {
    FileRoundTrip(a);
    FileRoundTrip(b);
  }

  // ---- a tidied row verifies as the stored one ----------------------------------

  lemma {:induction false} SortedStays(fields: seq<Field>)
    requires Ascending(fields)
    ensures SortFields(fields) == fields
  {
    if fields != [] {
      SortedStays(fields[1..]);
      assert fields == [fields[0]] + fields[1..];
    }
  }

  lemma {:induction false} CanonIdempotent(v: Value)
    ensures Canon(Canon(v)) == Canon(v)
    decreases v
  {
    match v
    case Arr(items) =>
      forall i | 0 <= i < |items| ensures Canon(CanonItems(items)[i]) == CanonItems(items)[i] {
        CanonIdempotent(items[i]);
      }
      assert CanonItems(CanonItems(items)) == CanonItems(items);
    case Obj(fields) =>
      var cf := CanonFields(fields);
      var sorted := SortFields(cf);
      SortFieldsSorts(cf);
      forall i | 0 <= i < |sorted| ensures Canon(sorted[i].value) == sorted[i].value {
        assert sorted[i] in multiset(cf);
        var j :| 0 <= j < |cf| && cf[j] == sorted[i];
        CanonIdempotent(fields[j].value);
      }
      assert CanonFields(sorted) == sorted;
      SortedStays(sorted);
    case _ =>
  }

  lemma {:induction false} CanonKeepsDistinct(v: Value)
    requires DistinctKeys(v)
    ensures DistinctKeys(Canon(v))
    decreases v
  {
    match v
    case Arr(items) =>
      forall i | 0 <= i < |items| ensures DistinctKeys(CanonItems(items)[i]) { CanonKeepsDistinct(items[i]); }
    case Obj(fields) =>
      var cf := CanonFields(fields);
      SortFieldsSorts(cf);
      SortFieldsNoRepeats(cf);
      forall i | 0 <= i < |SortFields(cf)| ensures DistinctKeys(SortFields(cf)[i].value) {
        assert SortFields(cf)[i] in multiset(cf);
        var j :| 0 <= j < |cf| && cf[j] == SortFields(cf)[i];
        CanonKeepsDistinct(fields[j].value);
      }
    case _ =>
  }

  lemma TidyDictSame(d: Option<seq<Field>>)
    requires d.Some? ==> DistinctKeys(Obj(d.value))
    ensures d.Some? ==> DistinctKeys(Obj(CanonDict(d).value))
    ensures Same(DictOrNull(d), DictOrNull(CanonDict(d)))
  {
    var v := DictOrNull(d);
    CanonIdempotent(v);
    CanonKeepsDistinct(v);
    CanonDecidesSame(v, Canon(v));
    assert DictOrNull(CanonDict(d)) == Canon(v);
  }

  lemma TidyHashesAlike(e: Event)
    requires WellFormed(e)
    ensures WellFormed(Tidy(e))
    ensures CanonicalJson(HashedFields(Tidy(e))) == CanonicalJson(HashedFields(e))
  {
    hide CanonicalJson, HashedFields, Same, DistinctKeys, CanonDict;
    TidyDictSame(e.before);
    TidyDictSame(e.after);
    assert WellFormed(Tidy(e)) by { hide Same; }
    FieldTextDetermines(e, Tidy(e));
  }

  lemma Instants(e: Event)
    requires WellFormed(e)
    ensures ValidInstant(e.ts)
  {
  }

  lemma TidyChained(h: Hash, prev: Option<string>, rows: seq<Event>)
    requires AllWellFormed(rows)
    ensures AllWellFormed(TidyAll(rows))
    ensures Chained(h, prev, TidyAll(rows)) <==> Chained(h, prev, rows)
  {
    hide CanonicalJson, HashedFields, WellFormed;
    forall i | 0 <= i < |rows|
      ensures WellFormed(TidyAll(rows)[i]) && ValidInstant(rows[i].ts)
      ensures CanonicalJson(HashedFields(Tidy(rows[i]))) == CanonicalJson(HashedFields(rows[i]))
    {
      Instants(rows[i]);
      TidyHashesAlike(rows[i]);
    }
    forall i | 0 <= i < |rows| ensures LinkedAt(h, prev, TidyAll(rows), i) <==> LinkedAt(h, prev, rows, i) {
      assert PrevAt(prev, TidyAll(rows), i) == PrevAt(prev, rows, i);
    }
  }

  // ---- day slices ---------------------------------------------------------------

  /** `start <= ts < start + 1 day`, the filter of the export query. */
  predicate InDay(day: int, e: Event) {
    day * DAY_MICROS <= e.ts < day * DAY_MICROS + DAY_MICROS
  }

  lemma InDayIsDayOf(day: int, e: Event)
    ensures InDay(day, e) <==> DayOf(e.ts) == day
  {
  }

  /** What the export query returns for a day, from the table in key order. */
  function Slice(rows: seq<Event>, day: int): (r: seq<Event>)
    ensures forall e :: e in r ==> e in rows && InDay(day, e)
    ensures |r| <= |rows|
  {
    if rows == [] then []
    else if InDay(day, rows[0]) then [rows[0]] + Slice(rows[1..], day)
    else Slice(rows[1..], day)
  }

  /** Exactly the rows of the day, each as often as in the table, in key order when the table is. */
  lemma SliceExactly(rows: seq<Event>, day: int)
    ensures forall e :: multiset(Slice(rows, day))[e] == if InDay(day, e) then multiset(rows)[e] else 0
    ensures InKeyOrder(rows) ==> InKeyOrder(Slice(rows, day))
  {
    hide InDay, InKeyOrder, Slice;
    forall e ensures multiset(Slice(rows, day))[e] == if InDay(day, e) then multiset(rows)[e] else 0 {
      SliceCounts(rows, day, e);
    }
    if InKeyOrder(rows) { SliceOrdered(rows, day); }
  }

  lemma {:induction false} SliceCounts(rows: seq<Event>, day: int, e: Event)
    ensures multiset(Slice(rows, day))[e] == if InDay(day, e) then multiset(rows)[e] else 0
  {
    hide InDay;
    if rows != [] {
      assert rows == [rows[0]] + rows[1..];
      SliceCounts(rows[1..], day, e);
    }
  }

  lemma {:induction false} SliceOrdered(rows: seq<Event>, day: int)
    requires InKeyOrder(rows)
    ensures InKeyOrder(Slice(rows, day))
  {
    hide InDay, KeyLess;
    if rows != [] {
      var rest := rows[1..];
      SliceOrdered(rest, day);
      forall e | e in Slice(rest, day) ensures KeyLess(rows[0], e) {
        var i :| 0 <= i < |rest| && rest[i] == e;
        assert rows[i + 1] == e;
      }
    }
  }

  lemma {:induction false} SliceSplits(a: seq<Event>, b: seq<Event>, day: int)
    ensures Slice(a + b, day) == Slice(a, day) + Slice(b, day)
  {
    if a == [] {
      assert a + b == b;
    } else {
      assert (a + b)[1..] == a[1..] + b;
      SliceSplits(a[1..], b, day);
    }
  }

  lemma SliceWellFormed(rows: seq<Event>, day: int)
    requires AllWellFormed(rows)
    ensures AllWellFormed(Slice(rows, day))
  {
    forall i | 0 <= i < |Slice(rows, day)| ensures WellFormed(Slice(rows, day)[i]) {
      var e := Slice(rows, day)[i];
      assert e in Slice(rows, day);
      var j :| 0 <= j < |rows| && rows[j] == e;
    }
  }

  /** The slices of the days from `lo` up to but not including `hi`, end to end. */
  function Slices(rows: seq<Event>, lo: int, hi: int): seq<Event>
    decreases hi - lo
  {
    if lo >= hi then [] else Slice(rows, lo) + Slices(rows, lo + 1, hi)
  }

  /** A stretch of a table in key order that lies in one day comes before the stretch after it. */
  function DayPrefix(rows: seq<Event>, day: int): (k: nat)
    ensures k <= |rows|
    ensures forall i :: 0 <= i < k ==> InDay(day, rows[i])
    ensures k < |rows| ==> !InDay(day, rows[k])
  {
    if rows == [] || !InDay(day, rows[0]) then 0 else 1 + DayPrefix(rows[1..], day)
  }

  lemma {:induction false} SliceAll(rows: seq<Event>, day: int)
    requires forall i :: 0 <= i < |rows| ==> InDay(day, rows[i])
    ensures Slice(rows, day) == rows
  {
    if rows != [] { SliceAll(rows[1..], day); }
  }

  lemma {:induction false} SliceNone(rows: seq<Event>, day: int)
    requires forall i :: 0 <= i < |rows| ==> !InDay(day, rows[i])
    ensures Slice(rows, day) == []
  {
    if rows != [] { SliceNone(rows[1..], day); }
  }

  lemma KeyLessInTime(a: Event, b: Event)
    requires KeyLess(a, b)
    ensures DayOf(a.ts) <= DayOf(b.ts)
  {
    DayOfMonotone(a.ts, b.ts);
  }

  lemma DayOfMonotone(a: int, b: int)
    requires a <= b
    ensures DayOf(a) <= DayOf(b)
  {
  }

  lemma {:induction false} SlicesSkip(a: seq<Event>, b: seq<Event>, lo: int, hi: int)
    requires forall i :: 0 <= i < |a| ==> DayOf(a[i].ts) < lo
    ensures Slices(a + b, lo, hi) == Slices(b, lo, hi)
    decreases hi - lo
  {
    hide DayOf, InDay, Slice;
    if lo < hi {
      SliceSplits(a, b, lo);
      forall i | 0 <= i < |a| ensures !InDay(lo, a[i]) { InDayIsDayOf(lo, a[i]); }
      SliceNone(a, lo);
      assert Slice(a + b, lo) == Slice(b, lo);
      SlicesSkip(a, b, lo + 1, hi);
    }
  }

  lemma {:induction false} SlicesStop(a: seq<Event>, b: seq<Event>, lo: int, hi: int)
    requires forall i :: 0 <= i < |b| ==> hi <= DayOf(b[i].ts)
    ensures Slices(a + b, lo, hi) == Slices(a, lo, hi)
    decreases hi - lo
  {
    hide DayOf, InDay, Slice;
    if lo < hi {
      SliceSplits(a, b, lo);
      forall i | 0 <= i < |b| ensures !InDay(lo, b[i]) { InDayIsDayOf(lo, b[i]); }
      SliceNone(b, lo);
      assert Slice(a + b, lo) == Slice(a, lo);
      SlicesStop(a, b, lo + 1, hi);
    }
  }

  /** The rows of the first day are a prefix of a table in key order. */
  lemma FirstDay(rows: seq<Event>, lo: int)
    requires InKeyOrder(rows) && forall i :: 0 <= i < |rows| ==> lo <= DayOf(rows[i].ts)
    ensures var k := DayPrefix(rows, lo);
      && (forall i :: 0 <= i < k ==> DayOf(rows[i].ts) == lo) && (forall i :: k <= i < |rows| ==> lo < DayOf(rows[i].ts))
      && Slice(rows, lo) == rows[..k]
  {
    hide DayOf, InDay, Slice, KeyLess, DayPrefix;
    var k := DayPrefix(rows, lo);
    forall i | 0 <= i < k ensures DayOf(rows[i].ts) == lo { InDayIsDayOf(lo, rows[i]); }
    forall i | k <= i < |rows| ensures lo < DayOf(rows[i].ts) && !InDay(lo, rows[i]) {
      InDayIsDayOf(lo, rows[k]);
      if i > k { KeyLessInTime(rows[k], rows[i]); }
      InDayIsDayOf(lo, rows[i]);
    }
    assert rows == rows[..k] + rows[k..];
    SliceSplits(rows[..k], rows[k..], lo);
    SliceAll(rows[..k], lo);
    SliceNone(rows[k..], lo);
  }

  lemma {:induction false} SlicesReassemble(rows: seq<Event>, lo: int, hi: int)
    requires InKeyOrder(rows)
    requires forall i :: 0 <= i < |rows| ==> lo <= DayOf(rows[i].ts) < hi
    ensures Slices(rows, lo, hi) == rows
    decreases hi - lo
  {
    hide DayOf, InDay, Slice, KeyLess, DayPrefix;
    assert rows != [] ==> lo <= DayOf(rows[0].ts) < hi;
    if lo < hi {
      FirstDay(rows, lo);
      var k := DayPrefix(rows, lo);
      assert rows == rows[..k] + rows[k..];
      SlicesSkip(rows[..k], rows[k..], lo + 1, hi);
      SlicesReassemble(rows[k..], lo + 1, hi);
    }
  }

  /** Reading the files of days `lo` to `hi - 1` one after the other. */
  function DecodeFiles(rows: seq<Event>, lo: int, hi: int): Option<seq<Event>>
    requires forall day :: lo <= day < hi ==> forall i :: 0 <= i < |Slice(rows, day)| ==> ValidInstant(Slice(rows, day)[i].ts)
    decreases hi - lo
  {
    if lo >= hi then Some([])
    else
      match (DecodeFile(Jsonl(Slice(rows, lo))), DecodeFiles(rows, lo + 1, hi))
      case (Some(a), Some(b)) => Some(a + b)
      case _ => None
  }

  lemma SliceInstants(rows: seq<Event>, lo: int, hi: int)
    requires AllWellFormed(rows)
    ensures forall day :: lo <= day < hi ==> forall i :: 0 <= i < |Slice(rows, day)| ==> ValidInstant(Slice(rows, day)[i].ts)
  {
    forall day, i | lo <= day < hi && 0 <= i < |Slice(rows, day)| ensures ValidInstant(Slice(rows, day)[i].ts) {
      SliceWellFormed(rows, day);
      assert WellFormed(Slice(rows, day)[i]);
    }
  }

  lemma {:induction false} DecodeSlices(rows: seq<Event>, lo: int, hi: int)
    requires AllWellFormed(rows)
    requires forall day :: lo <= day < hi ==> forall i :: 0 <= i < |Slice(rows, day)| ==> ValidInstant(Slice(rows, day)[i].ts)
    ensures DecodeFiles(rows, lo, hi) == Some(TidyAll(Slices(rows, lo, hi)))
    decreases hi - lo
  {
    hide DecodeFile, Jsonl, Tidy;
    if lo < hi {
      SliceWellFormed(rows, lo);
      FileRoundTrip(Slice(rows, lo));
      DecodeSlices(rows, lo + 1, hi);
      assert TidyAll(Slices(rows, lo, hi)) == TidyAll(Slice(rows, lo)) + TidyAll(Slices(rows, lo + 1, hi));
    }
  }

  /**
   The exported files of consecutive days that cover the table, decoded and put end to end, are the
   stored rows in (ts, id) order, and they verify as one chain exactly when the table does.
   */
  lemma FilesReassembleChain(h: Hash, rows: seq<Event>, lo: int, hi: int)
    requires AllWellFormed(rows) && InKeyOrder(rows)
    requires forall i :: 0 <= i < |rows| ==> lo <= DayOf(rows[i].ts) < hi
    ensures forall day :: lo <= day < hi ==> forall i :: 0 <= i < |Slice(rows, day)| ==> ValidInstant(Slice(rows, day)[i].ts)
    ensures DecodeFiles(rows, lo, hi) == Some(TidyAll(rows))
    ensures AllWellFormed(TidyAll(rows))
    ensures Chained(h, None, TidyAll(rows)) <==> Chained(h, None, rows)
  {
    hide DecodeFiles, Chained, WellFormed;
    SliceInstants(rows, lo, hi);
    DecodeSlices(rows, lo, hi);
    SlicesReassemble(rows, lo, hi);
    TidyChained(h, None, rows);
  }
}
