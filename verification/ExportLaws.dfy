/** One export run read off the bucket and the table: what it stores, and the one row it leaves. */
module ExportLaws {
  import opened Text
  import opened Calendar
  import opened Json
  import opened AuditChain
  import opened AuditLock
  import opened ExportCodec
  import opened AuditRecord
  import opened AuditExport
  import opened ExportRuns

  // ---- the fresh bytes ----------------------------------------------------------

  ghost predicate OnDay(day: int, e: Event) { day * 86_400_000_000 <= e.ts < (day + 1) * 86_400_000_000 }

  /** How many rows of the table lie in the UTC day. */
  ghost function RowsOnDay(rows: seq<Event>, day: int): set<int> { set i | 0 <= i < |rows| && OnDay(day, rows[i]) }

  /** `slice` is the rows of the day: each as often as in the table, in the table's order of time and id. */
  ghost predicate IsDayOf(slice: seq<Event>, rows: seq<Event>, day: int) {
    && (forall e :: multiset(slice)[e] == if OnDay(day, e) then multiset(rows)[e] else 0)
    && |slice| == |RowsOnDay(rows, day)|
    && (InKeyOrder(rows) ==> InKeyOrder(slice))
  }

  /** `body` is the compression of one line for each row, the JSON text of its columns. */
  ghost predicate IsFileOf(tools: Tools, body: string, slice: seq<Event>) {
    exists lines: seq<string> ::
      && |lines| == |slice| && (forall i :: 0 <= i < |slice| ==> IsExportedText(lines[i], slice[i]) && '\n' !in lines[i])
      && body == tools.gz(Terminated(lines))
  }

  lemma {:induction false} SliceSize(rows: seq<Event>, day: int)
    ensures |Slice(rows, day)| == |RowsOnDay(rows, day)|
  {
    if rows == [] {
      assert RowsOnDay(rows, day) == {};
    } else {
      var n := |rows| - 1;
      assert rows == rows[..n] + [rows[n]];
      SliceSplits(rows[..n], [rows[n]], day);
      SliceSize(rows[..n], day);
      var before := RowsOnDay(rows[..n], day);
      assert RowsOnDay(rows, day) == if OnDay(day, rows[n]) then before + {n} else before;
      OneRow(rows[n], day);
    }
  }

  lemma OneRow(e: Event, day: int)
    ensures Slice([e], day) == if OnDay(day, e) then [e] else []
  {
    assert [e][1..] == [];
  }

  lemma SliceIsDay(rows: seq<Event>, day: int)
    ensures IsDayOf(Slice(rows, day), rows, day)
  {
    hide Slice, InKeyOrder, RowsOnDay;
    SliceExactly(rows, day);
    SliceSize(rows, day);
  }

  lemma FreshIsFile(tools: Tools, rows: seq<Event>, day: int)
    requires AllWellFormed(rows)
    ensures IsFileOf(tools, FreshBody(tools, rows, day), Slice(rows, day))
  {
    hide Slice, IsExportedText, Terminated, Jsonl;
    SliceWellFormed(rows, day);
    var lines := FileIsLines(Slice(rows, day));
  }

  // ---- the choice ---------------------------------------------------------------

  /** The first sidecar number from 1 on whose key is free. */
  ghost predicate IsFirstFree(bucket: Bucket, path: string, n: nat) {
    && n >= 1 && path + "/audit-r" + Decimal(n) + ".jsonl.gz" !in bucket
    && forall m: nat :: 1 <= m < n ==> path + "/audit-r" + Decimal(m) + ".jsonl.gz" in bucket
  }

  /** The key the run writes to, or finds its bytes under. */
  ghost predicate IsTarget(tools: Tools, bucket: Bucket, day: int, body: string, key: string)
    requires ValidDay(day)
  {
    var base := DayPath(day) + "/audit.jsonl.gz";
    if base in bucket && bucket[base].md5 != tools.md5(body)
    then exists n: nat :: IsFirstFree(bucket, DayPath(day), n) && key == DayPath(day) + "/audit-r" + Decimal(n) + ".jsonl.gz"
    else key == base
  }

  lemma FirstFreeNumber(bucket: Bucket, day: int)
    requires ValidDay(day)
    ensures TakenBelow(bucket, day, 1) && IsFirstFree(bucket, DayPath(day), FirstFree(bucket, day, 1))
  {
    hide Decimal, DayPath;
    FirstFreeIsFree(bucket, day, 1);
    var n := FirstFree(bucket, day, 1);
    forall m: nat | 1 <= m < n ensures DayPath(day) + "/audit-r" + Decimal(m) + ".jsonl.gz" in bucket {
      assert SidecarKey(day, m) in bucket;
    }
    assert SidecarKey(day, n) !in bucket;
  }

  /** The result a run returns: written, skipped or reprocessed, with the number of rows and the hash of the bytes. */
  lemma ResultTells(tools: Tools, w: World, day: int)
    requires ValidDay(day) && GoodWorld(w)
    ensures var r, body, base := Decide(tools, w, day), FreshBody(tools, w.rows, day), DayPath(day) + "/audit.jsonl.gz";
      && r.day == day && r.rowCount == |RowsOnDay(w.rows, day)| && r.sha256 == tools.sha256(body)
      && IsTarget(tools, w.bucket, day, body, r.s3Key)
      && (r.action == Written <==> base !in w.bucket)
      && (r.action == Skipped <==> base in w.bucket && w.bucket[base].md5 == tools.md5(body))
      && (r.action == Reprocessed <==> base in w.bucket && w.bucket[base].md5 != tools.md5(body))
  {
    hide FreshBody, DayPath, Decimal, IsFirstFree, RowsOnDay, Slice, FirstFree;
    FirstFreeNumber(w.bucket, day);
    SliceSize(w.rows, day);
  }

  // ---- the row it leaves --------------------------------------------------------

  /** The row of a run: nobody's, about the day, under the run's clock and id, sealed onto the last hash. */
  ghost predicate IsRowOfRun(tools: Tools, w: World, day: int, stamp: Stamp, e: Event)
    requires ValidDay(day)
  {
    && e.id == stamp.id && e.ts == stamp.ts && e.actorId == None
    && e.entity == "audit_export" && e.entityId == IsoDate(day) && e.correlationId == Some("audit_export:" + IsoDate(day))
    && e.prevHash == (if w.rows == [] then None else Some(w.rows[|w.rows| - 1].rowHash))
    && exists text :: IsHashedText(text, e) && e.rowHash == tools.chain((if w.rows == [] then "" else w.rows[|w.rows| - 1].rowHash) + text)
  }

  /** What the row says the run did: the day, the rows counted, the key and the SHA-256 of the bytes. */
  ghost predicate SaysStored(after: Option<seq<Field>>, day: int, count: nat, key: string, sha256: string)
    requires ValidDay(day)
  {
    && after.Some? && |after.value| == 4
    && Lookup(after.value, "day") == Some(Str(IsoDate(day))) && Lookup(after.value, "row_count") == Some(Num(count))
    && Lookup(after.value, "s3_key") == Some(Str(key)) && Lookup(after.value, "sha256") == Some(Str(sha256))
  }

  /** For a reprocessed day: which object the new bytes differ from. */
  ghost predicate SaysOriginal(before: Option<seq<Field>>, key: string, md5: string) {
    && before.Some? && |before.value| == 2
    && Lookup(before.value, "original_key") == Some(Str(key)) && Lookup(before.value, "original_md5") == Some(Str(md5))
  }

  lemma DraftSays(w: World, r: ExportResult, stamp: Stamp)
    requires ValidDay(r.day) && (r.action == Reprocessed ==> KeyFor(r.day) in w.bucket)
    ensures var e := SuccessDraft(w, r, stamp);
      && SaysStored(e.after, r.day, r.rowCount, r.s3Key, r.sha256)
      && (r.action == Reprocessed ==> SaysOriginal(e.before, KeyFor(r.day), w.bucket[KeyFor(r.day)].md5))
      && (r.action != Reprocessed ==> e.before == None)
      && (r.action == Written <==> e.action == "audit_export.written")
      && (r.action == Skipped <==> e.action == "audit_export.skipped")
      && (r.action == Reprocessed <==> e.action == "audit_export.reprocessed")
  {
    hide IsoDate, KeyFor;
    var after := SuccessDraft(w, r, stamp).after.value;
    LookupFinds(after, after[0]);
    LookupFinds(after, after[1]);
    LookupFinds(after, after[2]);
    LookupFinds(after, after[3]);
    if r.action == Reprocessed {
      var before := SuccessDraft(w, r, stamp).before.value;
      LookupFinds(before, before[0]);
      LookupFinds(before, before[1]);
    }
    ActionsDiffer();
  }

  lemma ActionsDiffer()
    ensures "audit_export.written" != "audit_export.skipped" && "audit_export.written" != "audit_export.reprocessed"
    ensures "audit_export.skipped" != "audit_export.reprocessed"
  {
    assert "audit_export.written"[13] == 'w' && "audit_export.skipped"[13] == 's' && "audit_export.reprocessed"[13] == 'r';
  }

  lemma SealedRow(tools: Tools, w: World, day: int, stamp: Stamp, draft: Event)
    requires ValidDay(day) && Insertable(draft)
    requires draft.id == stamp.id && draft.ts == stamp.ts && draft.actorId == None
    requires draft.entity == "audit_export" && draft.entityId == IsoDate(day) && draft.correlationId == Some("audit_export:" + IsoDate(day))
    ensures var e := Seal(tools.chain, LastHash(None, w.rows), draft);
      && IsRowOfRun(tools, w, day, stamp, e) && e.action == draft.action && e.before == draft.before && e.after == draft.after
  {
    hide IsoDate, IsHashedText, CanonicalJson, HashedFields, DistinctKeys;
    var e := Seal(tools.chain, LastHash(None, w.rows), draft);
    var text := CanonicalJson(HashedFields(e));
    HashedTextIsRow(e);
    assert HashedFields(e) == HashedFields(draft) by { SameFields(draft, e); }
    assert "" + text == text;
  }

  lemma SameFields(a: Event, b: Event)
    requires ValidInstant(a.ts) && b == a.(prevHash := b.prevHash, rowHash := b.rowHash)
    ensures HashedFields(a) == HashedFields(b)
  {
    hide CanonicalTs;
  }

  /** The table has one row more, and stays in key order when the row's id is new. */
  ghost predicate OneRowMore(rows: seq<Event>, rows': seq<Event>, e: Event) {
    && multiset(rows') == multiset(rows) + multiset{e}
    && (InKeyOrder(rows) && FreshId(rows, e.id) ==> InKeyOrder(rows'))
  }

  lemma InsertAddsOne(rows: seq<Event>, e: Event)
    ensures OneRowMore(rows, Insert(rows, e), e)
  {
    hide KeyLess, InKeyOrder, Slot, FreshId;
    var k := Slot(rows, e);
    assert rows == rows[..k] + rows[k..];
    assert multiset(rows[..k] + [e] + rows[k..]) == multiset(rows[..k]) + multiset{e} + multiset(rows[k..]);
    if InKeyOrder(rows) && FreshId(rows, e.id) { InsertKeepsOrder(rows, e); }
  }

  lemma RecordAdds(tools: Tools, rows: seq<Event>, draft: Event)
    requires ValidInstant(draft.ts)
    ensures OneRowMore(rows, Record(tools, rows, draft), Seal(tools.chain, LastHash(None, rows), draft))
  {
    hide Seal, Insert, OneRowMore;
    InsertAddsOne(rows, Seal(tools.chain, LastHash(None, rows), draft));
  }

  /**
   A run that is not cut short. Of the rows of the day it makes the file `body`; it stores that under `key`
   unless the day's object has its MD5 already; and the table gets one row, whose action is "written" exactly
   when the day's object was missing, "skipped" when it was there with that MD5, "reprocessed" otherwise.
   */
  lemma RunRecords(tools: Tools, w: World, day: int, stamp: Stamp, error: string)
    returns (e: Event, slice: seq<Event>, body: string, key: string)
    requires ValidDay(day) && ValidInstant(stamp.ts) && GoodWorld(w)
    ensures var w', base := Outcome(tools, w, day, stamp, NoFault, error), DayPath(day) + "/audit.jsonl.gz";
      && IsDayOf(slice, w.rows, day) && IsFileOf(tools, body, slice) && IsTarget(tools, w.bucket, day, body, key)
      && OneRowMore(w.rows, w'.rows, e) && IsRowOfRun(tools, w, day, stamp, e)
      && SaysStored(e.after, day, |RowsOnDay(w.rows, day)|, key, tools.sha256(body))
      && e.action in {"audit_export.written", "audit_export.skipped", "audit_export.reprocessed"}
      && (e.action == "audit_export.written" <==> base !in w.bucket)
      && (e.action == "audit_export.skipped" <==> base in w.bucket && w.bucket[base].md5 == tools.md5(body))
      && (if e.action == "audit_export.reprocessed" then SaysOriginal(e.before, base, w.bucket[base].md5) else e.before == None)
      && w'.bucket == if e.action == "audit_export.skipped" then w.bucket else w.bucket[key := Object(body, tools.md5(body))]
  {
    hide FreshBody, Decide, Record, Slice, RowsOnDay, OneRowMore, IsDayOf, IsFileOf, IsTarget, IsRowOfRun;
    hide SaysStored, SaysOriginal, DayPath, IsoDate, ActionText, Insertable;
    var r := Decide(tools, w, day);
    DecideFits(tools, w, day);
    ResultTells(tools, w, day);
    slice, body, key := Slice(w.rows, day), FreshBody(tools, w.rows, day), r.s3Key;
    SliceIsDay(w.rows, day);
    FreshIsFile(tools, w.rows, day);
    var draft := SuccessDraft(w, r, stamp);
    DraftsInsertable(w, r, stamp, error);
    DraftSays(w, r, stamp);
    e := Seal(tools.chain, LastHash(None, w.rows), draft);
    SealedRow(tools, w, day, stamp, draft);
    RecordAdds(tools, w.rows, draft);
  }

  /**
   A run that is cut short: the bucket is as it was before the PUT, or as the whole run leaves it after; the
   only row, if any could be committed, says "failed" and why.
   */
  lemma CutShortRecords(tools: Tools, w: World, day: int, stamp: Stamp, fault: Fault, error: string) returns (e: Event)
    requires ValidDay(day) && ValidInstant(stamp.ts) && GoodWorld(w) && fault != NoFault
    ensures var w' := Outcome(tools, w, day, stamp, fault, error);
      && w'.bucket == (if fault.Early? then w.bucket else Outcome(tools, w, day, stamp, NoFault, error).bucket)
      && if !fault.logged then w'.rows == w.rows
         else && OneRowMore(w.rows, w'.rows, e) && IsRowOfRun(tools, w, day, stamp, e)
              && e.action == "audit_export.failed" && e.before == None && e.after.Some? && |e.after.value| == 2
              && Lookup(e.after.value, "day") == Some(Str(IsoDate(day))) && Lookup(e.after.value, "error") == Some(Str(error))
  {
    hide FreshBody, Decide, Record, IsRowOfRun, IsoDate, ActionText, OneRowMore, Seal, Insertable;
    var draft := FailureDraft(day, stamp, error);
    DecideFits(tools, w, day);
    DraftsInsertable(w, Decide(tools, w, day), stamp, error);
    var after := draft.after.value;
    LookupFinds(after, after[0]);
    LookupFinds(after, after[1]);
    e := Seal(tools.chain, LastHash(None, w.rows), draft);
    SealedRow(tools, w, day, stamp, draft);
    RecordAdds(tools, w.rows, draft);
  }
}
