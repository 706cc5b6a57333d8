/** Histories of export runs: sequential runs on any days, cut short anywhere, with other appenders in between. */
module ExportRuns {
  import opened Text
  import opened Calendar
  import opened Json
  import opened AuditChain
  import opened AuditLock
  import opened ExportCodec
  import opened AuditExport

  // ---- what holds after any history ---------------------------------------------

  /** Everything stored before is still stored, with the same bytes. */
  ghost predicate Extends(before: Bucket, after: Bucket) {
    forall k :: k in before ==> k in after && after[k] == before[k]
  }

  ghost predicate Digested(tools: Tools, bucket: Bucket) {
    forall k :: k in bucket ==> bucket[k].md5 == tools.md5(bucket[k].body)
  }

  /** The sidecars of a day are r1 to rk, beside the day's own object. */
  ghost predicate NoGaps(bucket: Bucket) {
    forall day, n :: ValidDay(day) && n >= 1 && SidecarKey(day, n) in bucket ==>
      KeyFor(day) in bucket && TakenBelow(bucket, day, n)
  }

  predicate IsExportRow(e: Event) {
    e.entity == "audit_export"
    && (e.action == ActionText(Written) || e.action == ActionText(Skipped) || e.action == ActionText(Reprocessed))
  }

  /** A different text with the MD5 of the stored object and the given SHA-256. */
  ghost predicate Md5Confused(tools: Tools, stored: Object, sha256: string) {
    exists x :: x != stored.body && tools.md5(x) == stored.md5 && tools.sha256(x) == sha256
  }

  /** The row names a stored object whose bytes have the recorded hash; a skip may have been fooled by MD5. */
  ghost predicate ClaimHolds(tools: Tools, bucket: Bucket, e: Event) {
    && e.after.Some?
    && var key, digest := AsText(Lookup(e.after.value, "s3_key")), AsText(Lookup(e.after.value, "sha256"));
       && key.Some? && digest.Some? && key.value in bucket
       && (tools.sha256(bucket[key.value].body) == digest.value
           || (e.action == ActionText(Skipped) && Md5Confused(tools, bucket[key.value], digest.value)))
  }

  ghost predicate Claims(tools: Tools, w: World) {
    forall e :: e in w.rows && IsExportRow(e) ==> ClaimHolds(tools, w.bucket, e)
  }

  ghost predicate Inv(tools: Tools, w: World) {
    GoodWorld(w) && Digested(tools, w.bucket) && NoGaps(w.bucket) && Claims(tools, w)
  }

  /** A run of the worker, or the rest of the system appending to the audit table. */
  datatype Act =
    | RunExport(day: int, stamp: Stamp, fault: Fault, error: string)
    | Others(rows: seq<Event>)

  /** Other writers append rows of other kinds; the table is insert-only. */
  ghost predicate Allowed(w: World, act: Act) {
    match act
    case RunExport(day, stamp, _, _) => ValidDay(day) && ValidInstant(stamp.ts)
    case Others(rows) =>
      && AllWellFormed(rows)
      && (forall e :: e in w.rows ==> e in rows)
      && forall e :: e in rows && IsExportRow(e) ==> e in w.rows
  }

  function After(tools: Tools, w: World, act: Act): World
    requires GoodWorld(w) && Allowed(w, act)
  {
    match act
    case RunExport(day, stamp, fault, error) => Outcome(tools, w, day, stamp, fault, error)
    case Others(rows) => World(w.bucket, rows)
  }

  ghost predicate History(tools: Tools, w: World, acts: seq<Act>, last: World)
    decreases |acts|
  {
    if acts == [] then last == w
    else GoodWorld(w) && Allowed(w, acts[0]) && History(tools, After(tools, w, acts[0]), acts[1..], last)
  }

  // ---- the pieces of one run ----------------------------------------------------

  lemma StoredExtends(tools: Tools, w: World, day: int)
    requires ValidDay(day) && Inv(tools, w)
    ensures var b := Stored(tools, w, Decide(tools, w, day));
            Extends(w.bucket, b) && Digested(tools, b) && NoGaps(b)
  {
    hide FreshBody, SidecarKey, KeyFor, Claims, GoodWorld;
    var r := Decide(tools, w, day);
    var b := Stored(tools, w, r);
    FirstFreeIsFree(w.bucket, day, 1);
    forall d, n | ValidDay(d) && n >= 1 && SidecarKey(d, n) in b
      ensures KeyFor(d) in b && TakenBelow(b, d, n)
    {
      if SidecarKey(d, n) !in w.bucket {
        assert r.s3Key == SidecarKey(d, n);
        BaseIsNoSidecar(day, d, n);
        SidecarKeyInjective(d, n, day, FirstFree(w.bucket, day, 1));
      }
    }
  }

  lemma InsertMembers(rows: seq<Event>, e: Event)
    ensures forall x :: x in Insert(rows, e) <==> x in rows || x == e
  {
    var k := Slot(rows, e);
    assert rows == rows[..k] + rows[k..];
  }

  lemma InsertWellFormed(rows: seq<Event>, e: Event)
    requires AllWellFormed(rows) && WellFormed(e)
    ensures AllWellFormed(Insert(rows, e))
  {
    InsertMembers(rows, e);
    forall i | 0 <= i < |Insert(rows, e)| ensures WellFormed(Insert(rows, e)[i]) {
      var x := Insert(rows, e)[i];
      if x != e {
        assert x in Insert(rows, e);
        var j :| 0 <= j < |rows| && rows[j] == x;
      }
    }
  }

  lemma DraftsInsertable(w: World, r: ExportResult, stamp: Stamp, error: string)
    requires ValidDay(r.day) && ValidInstant(stamp.ts) && (r.action == Reprocessed ==> KeyFor(r.day) in w.bucket)
    ensures Insertable(SuccessDraft(w, r, stamp)) && Insertable(FailureDraft(r.day, stamp, error))
  {
    hide IsoDate, KeyFor;
    PlainDictDistinct(SuccessDraft(w, r, stamp).after.value);
    PlainDictDistinct(FailureDraft(r.day, stamp, error).after.value);
    if r.action == Reprocessed { PlainDictDistinct(SuccessDraft(w, r, stamp).before.value); }
  }

  lemma PlainDictDistinct(fields: seq<Field>)
    requires NoRepeats(fields) && forall i :: 0 <= i < |fields| ==> fields[i].value.Str? || fields[i].value.Num?
    ensures DistinctKeys(Obj(fields))
  {
  }

  lemma RecordKeepsGood(tools: Tools, rows: seq<Event>, draft: Event)
    requires HexHash(tools.chain) && AllWellFormed(rows) && Insertable(draft)
    ensures AllWellFormed(Record(tools, rows, draft))
    ensures var e := Seal(tools.chain, LastHash(None, rows), draft);
            WellFormed(e) && forall x :: x in Record(tools, rows, draft) <==> x in rows || x == e
  {
    hide RowHash, DistinctKeys, Insert;
    SealedIsLinked(tools.chain, LastHash(None, rows), draft);
    InsertWellFormed(rows, Seal(tools.chain, LastHash(None, rows), draft));
    InsertMembers(rows, Seal(tools.chain, LastHash(None, rows), draft));
  }

  lemma LookupSuccess(w: World, r: ExportResult, stamp: Stamp)
    requires ValidDay(r.day) && (r.action == Reprocessed ==> KeyFor(r.day) in w.bucket)
    ensures var after := SuccessDraft(w, r, stamp).after;
            after.Some? && AsText(Lookup(after.value, "s3_key")) == Some(r.s3Key)
            && AsText(Lookup(after.value, "sha256")) == Some(r.sha256)
  {
    hide IsoDate, KeyFor;
    var fields := SuccessDraft(w, r, stamp).after.value;
    LookupFinds(fields, fields[2]);
    LookupFinds(fields, fields[3]);
  }

  lemma NewClaimHolds(tools: Tools, w: World, day: int, stamp: Stamp)
    requires ValidDay(day) && ValidInstant(stamp.ts) && Inv(tools, w)
    ensures Decide(tools, w, day).day == day && (Decide(tools, w, day).action == Reprocessed ==> KeyFor(day) in w.bucket)
    ensures var r := Decide(tools, w, day);
            ClaimHolds(tools, Stored(tools, w, r), SuccessDraft(w, r, stamp))
  {
    hide FreshBody, SidecarKey, KeyFor, Lookup, IsoDate, Claims, NoGaps;
    DecideFits(tools, w, day);
    var r := Decide(tools, w, day);
    LookupSuccess(w, r, stamp);
    var body := FreshBody(tools, w.rows, day);
    if r.action == Skipped && w.bucket[r.s3Key].body != body {
      assert Md5Confused(tools, w.bucket[r.s3Key], r.sha256);
    }
  }

  lemma ClaimsPersist(tools: Tools, w: World, b: Bucket, e: Event)
    requires ClaimHolds(tools, w.bucket, e) && Extends(w.bucket, b)
    ensures ClaimHolds(tools, b, e)
  {
  }

  lemma SealedClaim(tools: Tools, b: Bucket, rows: seq<Event>, draft: Event)
    requires ValidInstant(draft.ts) && ClaimHolds(tools, b, draft)
    ensures ClaimHolds(tools, b, Seal(tools.chain, LastHash(None, rows), draft))
  {
    hide RowHash;
  }

  lemma RunKeepsClaims(tools: Tools, w: World, day: int, stamp: Stamp, fault: Fault, error: string)
    requires HexHash(tools.chain) && Inv(tools, w) && ValidDay(day) && ValidInstant(stamp.ts)
    ensures var w' := Outcome(tools, w, day, stamp, fault, error);
            GoodWorld(w') && Claims(tools, w')
  {
    hide FreshBody, SidecarKey, KeyFor, ClaimHolds, IsoDate, NoGaps, Decide, Record, Insertable, Seal, Digested, ActionText;
    DecideFits(tools, w, day);
    var r := Decide(tools, w, day);
    var w' := Outcome(tools, w, day, stamp, fault, error);
    StoredExtends(tools, w, day);
    NewClaimHolds(tools, w, day, stamp);
    DraftsInsertable(w, r, stamp, error);
    FailureIsNoClaim(day, stamp, error, tools, w.rows);
    if fault == NoFault {
      RecordKeepsGood(tools, w.rows, SuccessDraft(w, r, stamp));
      SealedClaim(tools, w'.bucket, w.rows, SuccessDraft(w, r, stamp));
    } else {
      RecordKeepsGood(tools, w.rows, FailureDraft(day, stamp, error));
    }
    forall e | e in w'.rows && IsExportRow(e) ensures ClaimHolds(tools, w'.bucket, e) {
      if e in w.rows { ClaimsPersist(tools, w, w'.bucket, e); }
    }
  }

  lemma FailureIsNoClaim(day: int, stamp: Stamp, error: string, tools: Tools, rows: seq<Event>)
    requires ValidDay(day) && ValidInstant(stamp.ts)
    ensures !IsExportRow(Seal(tools.chain, LastHash(None, rows), FailureDraft(day, stamp, error)))
  {
    hide RowHash, IsoDate;
    assert "audit_export.failed"[13] == 'f';
    assert ActionText(Written)[13] == 'w' && ActionText(Skipped)[13] == 's' && ActionText(Reprocessed)[13] == 'r';
  }

  lemma ActKeepsInv(tools: Tools, w: World, act: Act)
    requires HexHash(tools.chain) && Inv(tools, w) && Allowed(w, act)
    ensures Inv(tools, After(tools, w, act)) && Extends(w.bucket, After(tools, w, act).bucket)
  {
    hide Claims, NoGaps, Digested, Record, Decide, Stored, FailureDraft, SuccessDraft;
    match act
    case RunExport(day, stamp, fault, error) =>
      StoredExtends(tools, w, day);
      RunKeepsClaims(tools, w, day, stamp, fault, error);
    case Others(rows) =>
      assert Claims(tools, World(w.bucket, rows)) by { OthersKeepClaims(tools, w, rows); }
  }

  lemma OthersKeepClaims(tools: Tools, w: World, rows: seq<Event>)
    requires Claims(tools, w) && forall e :: e in rows && IsExportRow(e) ==> e in w.rows
    ensures Claims(tools, World(w.bucket, rows))
  {
  }

  /**
   Over any history, from any state that is consistent (an empty bucket is): no stored object ever
   changes, sidecars are numbered without a gap, and every committed export row names an object whose
   bytes have the recorded hash.
   */
  lemma {:induction false} HistoryKeepsInv(tools: Tools, w: World, acts: seq<Act>, last: World)
    requires HexHash(tools.chain) && Inv(tools, w) && History(tools, w, acts, last)
    ensures Inv(tools, last) && Extends(w.bucket, last.bucket)
    decreases |acts|
  {
    hide Inv, After, Allowed, GoodWorld;
    if acts != [] {
      ActKeepsInv(tools, w, acts[0]);
      HistoryKeepsInv(tools, After(tools, w, acts[0]), acts[1..], last);
    }
  }

  // ---- re-runs of a finished day ------------------------------------------------

  /** The day's object has the digest of what a run would store now. */
  ghost predicate Agrees(tools: Tools, w: World, day: int)
    requires ValidDay(day) && GoodWorld(w)
  {
    KeyFor(day) in w.bucket && w.bucket[KeyFor(day)].md5 == tools.md5(FreshBody(tools, w.rows, day))
  }

  lemma InsertSlices(rows: seq<Event>, e: Event, day: int)
    ensures var k := Slot(rows, e);
      && Slice(rows, day) == Slice(rows[..k], day) + Slice(rows[k..], day)
      && Slice(Insert(rows, e), day) == Slice(rows[..k], day) + (Slice([e], day) + Slice(rows[k..], day))
  {
    hide Slice, Slot;
    var k := Slot(rows, e);
    assert rows == rows[..k] + rows[k..];
    assert Insert(rows, e) == rows[..k] + ([e] + rows[k..]);
    SliceSplits(rows[..k], rows[k..], day);
    SliceSplits(rows[..k], [e] + rows[k..], day);
    SliceSplits([e], rows[k..], day);
  }

  lemma RecordOutsideDay(tools: Tools, rows: seq<Event>, draft: Event, day: int)
    requires ValidInstant(draft.ts) && DayOf(draft.ts) != day
    ensures Slice(Record(tools, rows, draft), day) == Slice(rows, day)
  {
    hide Slice, Insert, Seal, Slot;
    var e := Seal(tools.chain, LastHash(None, rows), draft);
    InDayIsDayOf(day, e);
    InsertSlices(rows, e, day);
    SliceNone([e], day);
  }

  lemma RecordInsideDay(tools: Tools, rows: seq<Event>, draft: Event, day: int)
    requires ValidInstant(draft.ts) && DayOf(draft.ts) == day
    ensures |Slice(Record(tools, rows, draft), day)| == |Slice(rows, day)| + 1
  {
    hide Slice, Insert, Seal, Slot;
    var e := Seal(tools.chain, LastHash(None, rows), draft);
    InDayIsDayOf(day, e);
    InsertSlices(rows, e, day);
    SliceAll([e], day);
  }

  /** The act adds no row to the slice of `day`. */
  ghost predicate LeavesDay(w: World, act: Act, day: int) {
    match act
    case RunExport(_, stamp, _, _) => DayOf(stamp.ts) != day
    case Others(rows) => Slice(rows, day) == Slice(w.rows, day)
  }

  lemma OutcomeSlice(tools: Tools, w: World, d: int, stamp: Stamp, fault: Fault, error: string, day: int)
    requires ValidDay(d) && ValidInstant(stamp.ts) && GoodWorld(w) && DayOf(stamp.ts) != day
    ensures Slice(Outcome(tools, w, d, stamp, fault, error).rows, day) == Slice(w.rows, day)
  {
    hide Record, Slice, Decide, IsoDate, KeyFor, ActionText;
    DecideFits(tools, w, d);
    RecordOutsideDay(tools, w.rows, SuccessDraft(w, Decide(tools, w, d), stamp), day);
    RecordOutsideDay(tools, w.rows, FailureDraft(d, stamp, error), day);
  }

  lemma ActKeepsAgreement(tools: Tools, w: World, act: Act, day: int)
    requires HexHash(tools.chain) && Inv(tools, w) && Allowed(w, act) && LeavesDay(w, act, day)
    requires ValidDay(day) && Agrees(tools, w, day)
    ensures Inv(tools, After(tools, w, act)) && Agrees(tools, After(tools, w, act), day)
    ensures act.RunExport? && act.day == day ==> After(tools, w, act).bucket == w.bucket
  {
    hide Slice, Jsonl, KeyFor, Claims, NoGaps, Record, FirstFree;
    ActKeepsInv(tools, w, act);
    if act.RunExport? {
      OutcomeSlice(tools, w, act.day, act.stamp, act.fault, act.error, day);
    }
    assert Slice(After(tools, w, act).rows, day) == Slice(w.rows, day);
    assert FreshBody(tools, After(tools, w, act).rows, day) == FreshBody(tools, w.rows, day);
  }

  /** Every act of the history leaves the day's rows alone. */
  ghost predicate QuietHistory(tools: Tools, w: World, acts: seq<Act>, day: int, last: World)
    decreases |acts|
  {
    if acts == [] then last == w
    else
      && GoodWorld(w) && Allowed(w, acts[0]) && LeavesDay(w, acts[0], day)
      && QuietHistory(tools, After(tools, w, acts[0]), acts[1..], day, last)
  }

  lemma {:induction false} QuietHistoryAgrees(tools: Tools, w: World, acts: seq<Act>, day: int, last: World)
    requires HexHash(tools.chain) && Inv(tools, w) && ValidDay(day) && Agrees(tools, w, day)
    requires QuietHistory(tools, w, acts, day, last)
    ensures Inv(tools, last) && Agrees(tools, last, day)
    ensures (forall i :: 0 <= i < |acts| ==> acts[i].RunExport? ==> acts[i].day == day) ==> last.bucket == w.bucket
    decreases |acts|
  {
    hide Inv, After, Allowed, Agrees, LeavesDay;
    assert GoodWorld(w) by { InvIsGood(tools, w); }
    if acts != [] {
      ActKeepsAgreement(tools, w, acts[0], day);
      QuietHistoryAgrees(tools, After(tools, w, acts[0]), acts[1..], day, last);
      assert (forall i :: 0 <= i < |acts| ==> acts[i].RunExport? ==> acts[i].day == day) ==>
        After(tools, w, acts[0]).bucket == w.bucket by { OthersKeepBucket(tools, w, acts[0]); }
    }
  }

  lemma InvIsGood(tools: Tools, w: World)
    requires Inv(tools, w)
    ensures GoodWorld(w)
  {
  }

  lemma OthersKeepBucket(tools: Tools, w: World, act: Act)
    requires GoodWorld(w) && Allowed(w, act)
    ensures act.Others? ==> After(tools, w, act).bucket == w.bucket
  {
  }

  /**
   Once a day has been exported by a run whose clock reads another day, any later run of that day is
   `skipped` and stores nothing, however many there are and whatever fails, as long as nothing else
   adds rows to the day.
   */
  lemma FinishedDayIsSkipped(
      tools: Tools, w: World, day: int, stamp: Stamp, fault: Fault, error: string, acts: seq<Act>, last: World)
    requires HexHash(tools.chain) && Inv(tools, w) && ValidDay(day) && ValidInstant(stamp.ts)
    requires KeyFor(day) !in w.bucket && DayOf(stamp.ts) != day && !fault.Early?
    requires QuietHistory(tools, Outcome(tools, w, day, stamp, fault, error), acts, day, last)
    ensures Inv(tools, last) && Decide(tools, last, day).action == Skipped
    ensures (forall i :: 0 <= i < |acts| ==> acts[i].RunExport? ==> acts[i].day == day)
            ==> last.bucket == Outcome(tools, w, day, stamp, fault, error).bucket
  {
    hide Slice, Jsonl, KeyFor, Claims, NoGaps, Record, FirstFree, QuietHistory, History;
    var w' := Outcome(tools, w, day, stamp, fault, error);
    ActKeepsInv(tools, w, RunExport(day, stamp, fault, error));
    OutcomeSlice(tools, w, day, stamp, fault, error, day);
    assert FreshBody(tools, w'.rows, day) == FreshBody(tools, w.rows, day);
    assert Agrees(tools, w', day);
    QuietHistoryAgrees(tools, w', acts, day, last);
  }

  lemma LongerFileDiffers(tools: Tools, a: seq<Event>, b: seq<Event>, day: int)
    requires Lossless(tools.gz) && AllWellFormed(a) && AllWellFormed(b)
    requires |Slice(a, day)| != |Slice(b, day)|
    ensures FreshBody(tools, a, day) != FreshBody(tools, b, day)
  {
    hide Slice, Jsonl, Tidy;
    SliceWellFormed(a, day);
    SliceWellFormed(b, day);
    SliceTimes(a, day);
    SliceTimes(b, day);
    JsonlInjective(Slice(a, day), Slice(b, day));
  }

  /**
   A second run right after a day's first export is skipped exactly when the first run's clock read
   another day; a day exported before it is over takes in the export's own audit row and is written
   again, unless MD5 confuses the two files.
   */
  lemma SecondRunSkipsIff(tools: Tools, w: World, day: int, stamp: Stamp, error: string)
    requires HexHash(tools.chain) && Lossless(tools.gz) && Inv(tools, w) && ValidDay(day) && ValidInstant(stamp.ts)
    requires KeyFor(day) !in w.bucket
    ensures var w' := Outcome(tools, w, day, stamp, NoFault, error);
            GoodWorld(w') &&
            var before, after := FreshBody(tools, w.rows, day), FreshBody(tools, w'.rows, day);
            (before != after && tools.md5(before) == tools.md5(after))
            || (Decide(tools, w', day).action == Skipped <==> DayOf(stamp.ts) != day)
  {
    hide Slice, KeyFor, Claims, NoGaps, Record, FreshBody, FirstFree;
    var w' := Outcome(tools, w, day, stamp, NoFault, error);
    ActKeepsInv(tools, w, RunExport(day, stamp, NoFault, error));
    if DayOf(stamp.ts) != day {
      OutcomeSlice(tools, w, day, stamp, NoFault, error, day);
      SameSliceSameBody(tools, w.rows, w'.rows, day);
    } else {
      RecordInsideDay(tools, w.rows, SuccessDraft(w, Decide(tools, w, day), stamp), day);
      LongerFileDiffers(tools, w.rows, w'.rows, day);
    }
  }

  lemma SameSliceSameBody(tools: Tools, a: seq<Event>, b: seq<Event>, day: int)
    requires AllWellFormed(a) && AllWellFormed(b) && Slice(a, day) == Slice(b, day)
    ensures FreshBody(tools, a, day) == FreshBody(tools, b, day)
  {
  }

  /** `stamps` successful runs of one day, one after the other. */
  ghost predicate Reruns(tools: Tools, w: World, day: int, stamps: seq<Stamp>, error: string, last: World)
    requires ValidDay(day)
    decreases |stamps|
  {
    if stamps == [] then last == w
    else
      && GoodWorld(w) && ValidInstant(stamps[0].ts) && DayOf(stamps[0].ts) != day
      && Reruns(tools, Outcome(tools, w, day, stamps[0], NoFault, error), day, stamps[1..], error, last)
  }

  /**
   Only the day's own object is compared: once it differs from the source, every re-run stores yet
   another sidecar, even when the bytes are already in the previous one.
   */
  lemma {:induction false} DriftAddsSidecarEachRun(
      tools: Tools, w: World, day: int, stamps: seq<Stamp>, error: string, last: World)
    requires HexHash(tools.chain) && Inv(tools, w) && ValidDay(day)
    requires KeyFor(day) in w.bucket && !Agrees(tools, w, day)
    requires Reruns(tools, w, day, stamps, error, last)
    ensures Inv(tools, last) && !Agrees(tools, last, day)
    ensures |last.bucket| == |w.bucket| + |stamps|
    decreases |stamps|
  {
    hide Slice, KeyFor, SidecarKey, Claims, NoGaps, Record, FreshBody, FirstFree, TakenBelow;
    if stamps != [] {
      var w' := Outcome(tools, w, day, stamps[0], NoFault, error);
      ActKeepsInv(tools, w, RunExport(day, stamps[0], NoFault, error));
      OutcomeSlice(tools, w, day, stamps[0], NoFault, error, day);
      SameSliceSameBody(tools, w.rows, w'.rows, day);
      var r := Decide(tools, w, day);
      assert r.action == Reprocessed && r.s3Key !in w.bucket;
      assert w'.bucket.Keys == w.bucket.Keys + {r.s3Key};
      DriftAddsSidecarEachRun(tools, w', day, stamps[1..], error, last);
    }
  }

  /** Stand-ins for the digests: the identity confuses nothing, the chain hash is any constant digest. */
  function PlainTools(): Tools {
    Tools(x => x, x => x, x => x, _ => seq(64, _ => '0'))
  }

  lemma PlainToolsFit()
    ensures HexHash(PlainTools().chain) && Lossless(PlainTools().gz)
    ensures forall a, b :: PlainTools().md5(a) == PlainTools().md5(b) ==> a == b
  {
    assert IsDigest(PlainTools().chain(""));
    forall a, b | PlainTools().gz(a) == PlainTools().gz(b) ensures a == b {}
  }

  lemma NothingIsSound(tools: Tools)
    ensures Inv(tools, World(map[], []))
  {
  }

  /** A run on a day that has drifted. */
  lemma RerunAddsSidecar(tools: Tools, w: World, day: int, stamp: Stamp)
    requires HexHash(tools.chain) && Inv(tools, w) && ValidDay(day) && ValidInstant(stamp.ts) && DayOf(stamp.ts) != day
    requires KeyFor(day) in w.bucket && !Agrees(tools, w, day)
    ensures var w' := Outcome(tools, w, day, stamp, NoFault, "");
      && Decide(tools, w, day).action == Reprocessed && Inv(tools, w') && KeyFor(day) in w'.bucket
      && !Agrees(tools, w', day) && |w'.bucket| == |w.bucket| + 1
  {
    hide Slice, KeyFor, SidecarKey, Claims, NoGaps, Record, FreshBody, FirstFree;
    var w' := Outcome(tools, w, day, stamp, NoFault, "");
    ActKeepsInv(tools, w, RunExport(day, stamp, NoFault, ""));
    assert Reruns(tools, w', day, [stamp][1..], "", w');
    DriftAddsSidecarEachRun(tools, w, day, [stamp], "", w');
  }

  /** A day written on that very day by a run with tools that confuse nothing. */
  lemma SameDayExport(tools: Tools, w: World, day: int, stamp: Stamp)
    requires HexHash(tools.chain) && Lossless(tools.gz) && Inv(tools, w) && ValidDay(day) && ValidInstant(stamp.ts)
    requires forall a, b :: tools.md5(a) == tools.md5(b) ==> a == b
    requires KeyFor(day) !in w.bucket && DayOf(stamp.ts) == day
    ensures var w' := Outcome(tools, w, day, stamp, NoFault, "");
      && Inv(tools, w') && KeyFor(day) in w'.bucket && !Agrees(tools, w', day) && |w'.bucket| == |w.bucket| + 1
  {
    hide Slice, KeyFor, SidecarKey, Claims, NoGaps, Record, FreshBody, FirstFree;
    SecondRunSkipsIff(tools, w, day, stamp, "");
    ActKeepsInv(tools, w, RunExport(day, stamp, NoFault, ""));
  }

  /**
   An empty bucket, a day exported by a run on that very day, two later runs: the export's own row makes the
   second run differ, and each re-run stores one more sidecar.
   */
  ghost predicate Drifts(tools: Tools, w: World, day: int, stamp: Stamp, later: Stamp, w1: World, w2: World, w3: World)
    requires ValidDay(day) && ValidInstant(stamp.ts) && ValidInstant(later.ts)
  {
    && w.bucket == map[] && DayOf(stamp.ts) == day && DayOf(later.ts) != day
    && GoodWorld(w) && w1 == Outcome(tools, w, day, stamp, NoFault, "")
    && GoodWorld(w1) && Decide(tools, w1, day).action == Reprocessed && w2 == Outcome(tools, w1, day, later, NoFault, "")
    && GoodWorld(w2) && Decide(tools, w2, day).action == Reprocessed && w3 == Outcome(tools, w2, day, later, NoFault, "")
    && |w1.bucket| == 1 && |w2.bucket| == 2 && |w3.bucket| == 3
  }

  lemma DriftFromEmpty(tools: Tools, w: World, day: int, stamp: Stamp, later: Stamp) returns (w1: World, w2: World, w3: World)
    requires HexHash(tools.chain) && Lossless(tools.gz) && (forall a, b :: tools.md5(a) == tools.md5(b) ==> a == b)
    requires Inv(tools, w) && w.bucket == map[] && ValidDay(day) && ValidInstant(stamp.ts) && ValidInstant(later.ts)
    requires DayOf(stamp.ts) == day && DayOf(later.ts) != day
    ensures Drifts(tools, w, day, stamp, later, w1, w2, w3)
  {
    hide Outcome, Decide, KeyFor, Inv, Agrees, GoodWorld, DayOf, ValidDay, HexHash, Lossless;
    InvIsGood(tools, w);
    SameDayExport(tools, w, day, stamp);
    w1 := Outcome(tools, w, day, stamp, NoFault, "");
    InvIsGood(tools, w1);
    RerunAddsSidecar(tools, w1, day, later);
    w2 := Outcome(tools, w1, day, later, NoFault, "");
    InvIsGood(tools, w2);
    RerunAddsSidecar(tools, w2, day, later);
    w3 := Outcome(tools, w2, day, later, NoFault, "");
  }

  /** The drift occurs: day 1 exported at its own midnight, then twice more on day 2. */
  lemma SameDayExportDrifts() returns (w1: World, w2: World, w3: World)
    ensures Drifts(PlainTools(), World(map[], []), 1, Stamp(DAY_MICROS, "a"), Stamp(2 * DAY_MICROS, "b"), w1, w2, w3)
  {
    hide PlainTools, Drifts, Inv;
    PlainToolsFit();
    NothingIsSound(PlainTools());
    w1, w2, w3 := DriftFromEmpty(PlainTools(), World(map[], []), 1, Stamp(DAY_MICROS, "a"), Stamp(2 * DAY_MICROS, "b"));
  }
}
