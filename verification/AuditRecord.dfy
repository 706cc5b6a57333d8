/** What an audit row hashes and what an exported line holds, read back with the JSON reader under the names of the columns. */
module AuditRecord {
  import opened Text
  import opened Calendar
  import opened CalendarLaws
  import opened Json
  import opened AuditChain
  import opened AuditLock
  import opened ExportCodec
  import opened TimeOrder

  // ---- columns ------------------------------------------------------------------

  /** The entry under `name` is the text, or null for NULL. */
  ghost predicate HoldsText(f: seq<Field>, name: string, column: Option<string>) {
    Lookup(f, name) == Some(if column.Some? then Str(column.value) else Null)
  }

  /** The entry under `name` is the dictionary, whatever the order of its keys, or null for NULL. */
  ghost predicate HoldsDict(f: seq<Field>, name: string, column: Option<seq<Field>>) {
    match Lookup(f, name)
    case Some(v) => if column.Some? then v.Obj? && Same(v, Obj(column.value)) else v == Null
    case None => false
  }

  /** The entry under `name` is a naive ISO time with six digits of microseconds, that of the instant. */
  ghost predicate HoldsInstant(f: seq<Field>, name: string, ts: int) {
    match Lookup(f, name)
    case Some(Str(s)) => |s| == 26 && TellsSecond(s[..19], ts) && TellsMicros(s[19..], ts)
    case _ => false
  }

  /** The entry under `name` is an ISO time at offset zero; a fraction is written only when there is one. */
  ghost predicate HoldsUtcInstant(f: seq<Field>, name: string, ts: int) {
    match Lookup(f, name)
    case Some(Str(s)) =>
      if ts % 1_000_000 == 0 then |s| == 25 && TellsSecond(s[..19], ts) && s[19..] == "+00:00"
      else |s| == 32 && TellsSecond(s[..19], ts) && TellsMicros(s[19..26], ts) && s[26..] == "+00:00"
    case _ => false
  }

  /** The text is one JSON dictionary with keys in order and the eight hashed columns of the row in it. */
  ghost predicate IsHashedText(text: string, e: Event) {
    match ReadValue(text)
    case Some(Read(Obj(f), rest)) =>
      && rest == "" && |f| == 8 && NoRepeats(f) && Ascending(f)
      && HoldsText(f, "actor_id", e.actorId) && HoldsText(f, "action", Some(e.action))
      && HoldsText(f, "entity", Some(e.entity)) && HoldsText(f, "entity_id", Some(e.entityId))
      && HoldsDict(f, "before", e.before) && HoldsDict(f, "after", e.after)
      && HoldsInstant(f, "ts", e.ts) && HoldsText(f, "correlation_id", e.correlationId)
    case _ => false
  }

  /** The same for a line of the export, with its eleven columns. */
  ghost predicate IsExportedText(text: string, e: Event) {
    match ReadValue(text)
    case Some(Read(Obj(f), rest)) =>
      && rest == "" && |f| == 11 && NoRepeats(f) && Ascending(f)
      && HoldsText(f, "id", Some(e.id)) && HoldsUtcInstant(f, "ts", e.ts)
      && HoldsText(f, "actor_id", e.actorId) && HoldsText(f, "action", Some(e.action))
      && HoldsText(f, "entity", Some(e.entity)) && HoldsText(f, "entity_id", Some(e.entityId))
      && HoldsDict(f, "before", e.before) && HoldsDict(f, "after", e.after)
      && HoldsText(f, "correlation_id", e.correlationId)
      && HoldsText(f, "prev_hash", e.prevHash) && HoldsText(f, "row_hash", Some(e.rowHash))
    case _ => false
  }

  // ---- looking up a parsed dictionary -------------------------------------------

  lemma LookupText(f: seq<Field>, name: string, column: Option<string>)
    requires Lookup(f, name) == Some(Canon(TextOrNull(column)))
    ensures HoldsText(f, name, column)
  {
  }

  lemma LookupDict(f: seq<Field>, name: string, column: Option<seq<Field>>)
    requires Lookup(f, name) == Some(Canon(DictOrNull(column)))
    requires column.Some? ==> DistinctKeys(Obj(column.value))
    ensures HoldsDict(f, name, column)
  {
    if column.Some? {
      var v := Obj(column.value);
      CanonIdempotent(v);
      CanonKeepsDistinct(v);
      CanonDecidesSame(Canon(v), v);
    }
  }

  lemma CanonicalTsTells(ts: int)
    requires ValidInstant(ts)
    ensures var s := CanonicalTs(ts); |s| == 26 && TellsSecond(s[..19], ts) && TellsMicros(s[19..], ts)
  {
    hide SecondsText, TellsSecond, TellsMicros, Padded, Micros;
    SecondsTextTells(ts);
    MicrosTell(ts);
    var s := CanonicalTs(ts);
    assert s == SecondsText(ts) + ("." + Padded(Micros(ts), 6));
    assert s[19..] == "." + Padded(Micros(ts), 6);
  }

  lemma LookupInstant(f: seq<Field>, name: string, ts: int)
    requires ValidInstant(ts) && Lookup(f, name) == Some(Canon(Str(CanonicalTs(ts))))
    ensures HoldsInstant(f, name, ts)
  {
    hide CanonicalTs, TellsSecond, TellsMicros;
    CanonicalTsTells(ts);
  }

  lemma LookupUtcInstant(f: seq<Field>, name: string, ts: int)
    requires ValidInstant(ts) && Lookup(f, name) == Some(Canon(Str(IsoTs(ts))))
    ensures HoldsUtcInstant(f, name, ts)
  {
    hide SecondsText, TellsSecond, TellsMicros, Padded, Micros;
    SecondsTextTells(ts);
    MicrosTell(ts);
    InstantSplits(ts);
    var s := IsoTs(ts);
    assert s[..19] == SecondsText(ts);
    if Micros(ts) != 0 { assert s[19..26] == "." + Padded(Micros(ts), 6); }
  }

  lemma SortedEntries(fields: seq<Field>)
    requires NoRepeats(fields)
    ensures var f := SortFields(CanonFields(fields)); |f| == |fields| && NoRepeats(f) && Ascending(f)
  {
    hide Canon;
    SortFieldsSorts(CanonFields(fields));
    SortFieldsNoRepeats(CanonFields(fields));
  }

  lemma FindHashedColumns(e: Event, f: seq<Field>)
    requires Insertable(e) && f == SortFields(CanonFields(HashedFields(e).fields))
    ensures Lookup(f, "actor_id") == Some(Canon(TextOrNull(e.actorId))) && Lookup(f, "action") == Some(Canon(TextOrNull(Some(e.action))))
    ensures Lookup(f, "entity") == Some(Canon(TextOrNull(Some(e.entity))))
    ensures Lookup(f, "entity_id") == Some(Canon(TextOrNull(Some(e.entityId))))
    ensures Lookup(f, "before") == Some(Canon(DictOrNull(e.before))) && Lookup(f, "after") == Some(Canon(DictOrNull(e.after)))
    ensures Lookup(f, "ts") == Some(Canon(Str(CanonicalTs(e.ts))))
    ensures Lookup(f, "correlation_id") == Some(Canon(TextOrNull(e.correlationId)))
  {
    hide CanonicalTs, NoRepeats, Lookup, SortFields, CanonFields, Canon, DictOrNull;
    var fields := HashedFields(e).fields;
    HashedNamesDistinct(e);
    LookupCanon(fields, 0);
    LookupCanon(fields, 1);
    LookupCanon(fields, 2);
    LookupCanon(fields, 3);
    LookupCanon(fields, 4);
    LookupCanon(fields, 5);
    LookupCanon(fields, 6);
    LookupCanon(fields, 7);
  }

  // ---- the hashed text ----------------------------------------------------------

  /** What is hashed after the previous hash is the row, column by column. */
  lemma HashedTextIsRow(e: Event)
    requires Insertable(e)
    ensures IsHashedText(CanonicalJson(HashedFields(e)), e)
  {
    hide CanonicalJson, HashedFields, Lookup, SortFields, CanonFields, ReadValue, HoldsText, HoldsDict, HoldsInstant, Ascending, NoRepeats;
    var fields := HashedFields(e).fields;
    var f := SortFields(CanonFields(fields));
    HashedNamesDistinct(e);
    CanonicalRoundTrip(HashedFields(e));
    assert Canon(HashedFields(e)) == Obj(f);
    SortedEntries(fields);
    FindHashedColumns(e, f);
    LookupText(f, "actor_id", e.actorId);
    LookupText(f, "action", Some(e.action));
    LookupText(f, "entity", Some(e.entity));
    LookupText(f, "entity_id", Some(e.entityId));
    LookupDict(f, "before", e.before);
    LookupDict(f, "after", e.after);
    LookupInstant(f, "ts", e.ts);
    LookupText(f, "correlation_id", e.correlationId);
  }

  /** Row `i` carries the hash of the row before it, none for the first, and the hash of that followed by `text`. */
  ghost predicate HashedOnto(h: Hash, rows: seq<Event>, i: nat, text: string)
    requires i < |rows|
  {
    && rows[i].prevHash == (if i == 0 then None else Some(rows[i - 1].rowHash))
    && rows[i].rowHash == h((if i == 0 then "" else rows[i - 1].rowHash) + text)
  }

  /** Verification in plain terms: each row is hashed onto the row before it, with a JSON text of its eight columns. */
  lemma ChainHashesColumns(h: Hash, rows: seq<Event>) returns (texts: seq<string>)
    requires forall i :: 0 <= i < |rows| ==> Insertable(rows[i])
    ensures |texts| == |rows| && forall i :: 0 <= i < |rows| ==> IsHashedText(texts[i], rows[i])
    ensures AllTimed(rows)
    ensures Chained(h, None, rows) <==> forall i :: 0 <= i < |rows| ==> HashedOnto(h, rows, i, texts[i])
  {
    hide CanonicalJson, HashedFields, IsHashedText, LinkedAt, HashedOnto;
    texts := seq(|rows|, i requires 0 <= i < |rows| => assert Insertable(rows[i]); CanonicalJson(HashedFields(rows[i])));
    forall i | 0 <= i < |rows|
      ensures IsHashedText(texts[i], rows[i]) && (LinkedAt(h, None, rows, i) <==> HashedOnto(h, rows, i, texts[i]))
    {
      HashedTextIsRow(rows[i]);
      LinkInPlainTerms(h, rows, i);
    }
  }

  lemma LinkInPlainTerms(h: Hash, rows: seq<Event>, i: nat)
    requires i < |rows| && ValidInstant(rows[i].ts)
    ensures LinkedAt(h, None, rows, i) <==> HashedOnto(h, rows, i, CanonicalJson(HashedFields(rows[i])))
  {
    hide CanonicalJson, HashedFields;
    var text := CanonicalJson(HashedFields(rows[i]));
    assert "" + text == text;
  }

  /** Appending: the new row is the draft, carries the last hash, and is sealed over its own columns. */
  lemma SealHashesColumns(h: Hash, prev: Option<string>, draft: Event) returns (text: string)
    requires Insertable(draft)
    ensures IsHashedText(text, draft)
    ensures Seal(h, prev, draft).rowHash == h((if prev.Some? then prev.value else "") + text)
    ensures Seal(h, prev, draft) == draft.(prevHash := prev, rowHash := Seal(h, prev, draft).rowHash)
  {
    hide CanonicalJson, HashedFields, IsHashedText;
    text := CanonicalJson(HashedFields(draft));
    HashedTextIsRow(draft);
  }

  /** A table in key order goes by time, and rows of one instant by the text of their id. */
  lemma TableOrder(rows: seq<Event>, i: nat, j: nat)
    requires InKeyOrder(rows) && i < j < |rows|
    ensures rows[i].ts < rows[j].ts || (rows[i].ts == rows[j].ts && Before(rows[i].id, rows[j].id))
  {
    assert KeyLess(rows[i], rows[j]);
  }

  // ---- the exported lines -------------------------------------------------------

  lemma ExportedTextIsRow(e: Event)
    requires WellFormed(e)
    ensures IsExportedText(CanonicalJson(RowJson(e)), e)
  {
    hide CanonicalJson, RowJson, Lookup, SortFields, CanonFields, ReadValue;
    hide HoldsText, HoldsDict, HoldsUtcInstant, Ascending, NoRepeats, DistinctKeys, IsoTs;
    var fields := RowJson(e).fields;
    var f := SortFields(CanonFields(fields));
    RowKeysDistinct(e);
    CanonicalRoundTrip(RowJson(e));
    assert Canon(RowJson(e)) == Obj(f);
    SortedEntries(fields);
    ElevenColumns(e);
    FindColumns(e);
    LookupText(f, "id", Some(e.id));
    LookupUtcInstant(f, "ts", e.ts);
    LookupText(f, "actor_id", e.actorId);
    LookupText(f, "action", Some(e.action));
    LookupText(f, "entity", Some(e.entity));
    LookupText(f, "entity_id", Some(e.entityId));
    LookupDict(f, "before", e.before);
    LookupDict(f, "after", e.after);
    LookupText(f, "correlation_id", e.correlationId);
    LookupText(f, "prev_hash", e.prevHash);
    LookupText(f, "row_hash", Some(e.rowHash));
  }

  lemma ElevenColumns(e: Event)
    requires ValidInstant(e.ts)
    ensures |RowJson(e).fields| == 11
  {
    hide IsoTs;
  }

  /** An uncompressed file is one line for each row, each line a JSON text of that row's eleven columns. */
  lemma FileIsLines(rows: seq<Event>) returns (lines: seq<string>)
    requires AllWellFormed(rows)
    ensures forall i :: 0 <= i < |rows| ==> ValidInstant(rows[i].ts)
    ensures |lines| == |rows| && forall i :: 0 <= i < |rows| ==> IsExportedText(lines[i], rows[i]) && '\n' !in lines[i]
    ensures Jsonl(rows) == Terminated(lines)
  {
    hide CanonicalJson, RowJson, IsExportedText;
    forall i | 0 <= i < |rows| ensures ValidInstant(rows[i].ts) { assert WellFormed(rows[i]); }
    lines := seq(|rows|, i requires 0 <= i < |rows| => CanonicalJson(RowJson(rows[i])));
    forall i | 0 <= i < |rows| ensures IsExportedText(lines[i], rows[i]) && '\n' !in lines[i] {
      assert WellFormed(rows[i]);
      ExportedTextIsRow(rows[i]);
      CanonicalJsonIsOneLine(RowJson(rows[i]));
    }
    LinesOf(rows, lines);
  }

  /** Each line followed by a newline. */
  function Terminated(lines: seq<string>): string {
    if lines == [] then "" else lines[0] + "\n" + Terminated(lines[1..])
  }

  lemma {:induction false} LinesOf(rows: seq<Event>, lines: seq<string>)
    requires forall i :: 0 <= i < |rows| ==> ValidInstant(rows[i].ts)
    requires |lines| == |rows| && forall i :: 0 <= i < |rows| ==> lines[i] == CanonicalJson(RowJson(rows[i]))
    ensures Jsonl(rows) == Terminated(lines)
  {
    hide CanonicalJson, RowJson;
    if rows != [] { LinesOf(rows[1..], lines[1..]); }
  }
}
