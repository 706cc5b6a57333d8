/** Reading the bucket back: the stored objects of finished days hold the chain. */
module ExportArchive {
  import opened Text
  import opened Calendar
  import opened Json
  import opened AuditChain
  import AuditLock
  import opened ExportCodec
  import opened AuditExport
  import opened ExportRuns

  type Gunzip = string -> string

  ghost predicate Inverts(unzip: Gunzip, gz: Gzip) { forall text :: unzip(gz(text)) == text }

  /** Decompressing and reading the base objects of days `lo` to `hi - 1`, one after the other. */
  function DecodeBucket(unzip: Gunzip, bucket: Bucket, lo: int, hi: int): Option<seq<Event>>
    requires 1 <= lo && hi <= MAX_ORDINAL + 1
    decreases hi - lo
  {
    if lo >= hi then Some([])
    else if KeyFor(lo) !in bucket then None
    else
      match (DecodeFile(unzip(bucket[KeyFor(lo)].body)), DecodeBucket(unzip, bucket, lo + 1, hi))
      case (Some(a), Some(b)) => Some(a + b)
      case _ => None
  }

  /** The day's object holds the bytes of the day's rows as they are now. */
  ghost predicate HoldsDay(tools: Tools, w: World, day: int)
    requires ValidDay(day) && GoodWorld(w)
  {
    KeyFor(day) in w.bucket && w.bucket[KeyFor(day)].body == FreshBody(tools, w.rows, day)
  }

  /**
   At some point of the history the day's object is missing and a run whose clock reads another day writes
   it, dying after the PUT or not; from then on nothing adds rows to the day.
   */
  ghost predicate ExportedWhenOver(tools: Tools, w: World, acts: seq<Act>, day: int, last: World)
    requires ValidDay(day)
    decreases |acts|
  {
    && acts != [] && GoodWorld(w) && Allowed(w, acts[0])
    && ((&& acts[0].RunExport? && acts[0].day == day && !acts[0].fault.Early?
         && KeyFor(day) !in w.bucket && DayOf(acts[0].stamp.ts) != day
         && QuietHistory(tools, After(tools, w, acts[0]), acts[1..], day, last))
        || ExportedWhenOver(tools, After(tools, w, acts[0]), acts[1..], day, last))
  }

  lemma WriteHolds(tools: Tools, w: World, act: Act)
    requires HexHash(tools.chain) && Inv(tools, w) && Allowed(w, act) && act.RunExport? && !act.fault.Early?
    requires KeyFor(act.day) !in w.bucket && DayOf(act.stamp.ts) != act.day
    ensures Inv(tools, After(tools, w, act)) && HoldsDay(tools, After(tools, w, act), act.day)
  {
    hide Slice, Jsonl, KeyFor, Claims, NoGaps, Record, FirstFree;
    ActKeepsInv(tools, w, act);
    OutcomeSlice(tools, w, act.day, act.stamp, act.fault, act.error, act.day);
    assert FreshBody(tools, After(tools, w, act).rows, act.day) == FreshBody(tools, w.rows, act.day);
  }

  lemma ActHolds(tools: Tools, w: World, act: Act, day: int)
    requires HexHash(tools.chain) && Inv(tools, w) && Allowed(w, act) && LeavesDay(w, act, day)
    requires ValidDay(day) && HoldsDay(tools, w, day)
    ensures Inv(tools, After(tools, w, act)) && HoldsDay(tools, After(tools, w, act), day)
  {
    hide Slice, Jsonl, KeyFor, Claims, NoGaps, Record, FirstFree, Stored, Decide;
    ActKeepsInv(tools, w, act);
    if act.RunExport? { OutcomeSlice(tools, w, act.day, act.stamp, act.fault, act.error, day); }
    assert Slice(After(tools, w, act).rows, day) == Slice(w.rows, day);
    assert FreshBody(tools, After(tools, w, act).rows, day) == FreshBody(tools, w.rows, day);
  }

  lemma {:induction false} QuietHolds(tools: Tools, w: World, acts: seq<Act>, day: int, last: World)
    requires HexHash(tools.chain) && Inv(tools, w) && ValidDay(day) && HoldsDay(tools, w, day)
    requires QuietHistory(tools, w, acts, day, last)
    ensures Inv(tools, last) && HoldsDay(tools, last, day)
    decreases |acts|
  {
    hide Inv, After, Allowed, HoldsDay, LeavesDay;
    assert GoodWorld(w) by { InvIsGood(tools, w); }
    if acts != [] {
      ActHolds(tools, w, acts[0], day);
      QuietHolds(tools, After(tools, w, acts[0]), acts[1..], day, last);
    }
  }

  /** A day exported once it is over, and quiet since, is held by its object, whatever else happens. */
  lemma {:induction false} ExportedDayIsHeld(tools: Tools, w: World, acts: seq<Act>, day: int, last: World)
    requires HexHash(tools.chain) && Inv(tools, w) && ValidDay(day) && ExportedWhenOver(tools, w, acts, day, last)
    ensures Inv(tools, last) && HoldsDay(tools, last, day)
    decreases |acts|
  {
    hide Inv, After, HoldsDay, QuietHistory;
    assert GoodWorld(w) by { InvIsGood(tools, w); }
    ActKeepsInv(tools, w, acts[0]);
    if ExportedWhenOver(tools, After(tools, w, acts[0]), acts[1..], day, last) {
      ExportedDayIsHeld(tools, After(tools, w, acts[0]), acts[1..], day, last);
    } else {
      WriteHolds(tools, w, acts[0]);
      QuietHolds(tools, After(tools, w, acts[0]), acts[1..], day, last);
    }
  }

  lemma HeldDayDecodes(tools: Tools, unzip: Gunzip, w: World, day: int)
    requires Inverts(unzip, tools.gz) && ValidDay(day) && GoodWorld(w) && HoldsDay(tools, w, day)
    ensures DecodeFile(unzip(w.bucket[KeyFor(day)].body)) == Some(TidyAll(Slice(w.rows, day)))
  {
    hide DecodeFile, Jsonl, Tidy, KeyFor, Slice, WellFormed;
    SliceWellFormed(w.rows, day);
    SliceTimes(w.rows, day);
    FileRoundTrip(Slice(w.rows, day));
  }

  lemma TidyJoins(a: seq<Event>, b: seq<Event>)
    ensures TidyAll(a + b) == TidyAll(a) + TidyAll(b)
  {
    hide Tidy;
  }

  lemma {:induction false} HeldDaysDecode(tools: Tools, unzip: Gunzip, w: World, lo: int, hi: int)
    requires Inverts(unzip, tools.gz) && GoodWorld(w) && 1 <= lo && hi <= MAX_ORDINAL + 1
    requires forall day :: lo <= day < hi ==> HoldsDay(tools, w, day)
    ensures DecodeBucket(unzip, w.bucket, lo, hi) == Some(TidyAll(Slices(w.rows, lo, hi)))
    decreases hi - lo
  {
    hide DecodeFile, TidyAll, KeyFor, Slice, FreshBody, GoodWorld;
    if lo < hi {
      assert HoldsDay(tools, w, lo);
      HeldDayDecodes(tools, unzip, w, lo);
      HeldDaysDecode(tools, unzip, w, lo + 1, hi);
      TidyJoins(Slice(w.rows, lo), Slices(w.rows, lo + 1, hi));
    } else {
      assert TidyAll([]) == [];
    }
  }

  /**
   After any history in which each of the days `lo` to `hi - 1` was exported once it was over and stayed
   quiet, the stored objects of those days, decompressed, decoded and put end to end, are the stretch of the
   stored chain that lies in those days, and verify after the rows before it exactly when that stretch does.
   */
  lemma BucketHoldsChain(tools: Tools, unzip: Gunzip, w: World, acts: seq<Act>, last: World, lo: int, hi: int,
                         before: seq<Event>, stretch: seq<Event>, after: seq<Event>)
    requires HexHash(tools.chain) && Inverts(unzip, tools.gz) && Inv(tools, w) && 1 <= lo < hi <= MAX_ORDINAL + 1
    requires forall day :: lo <= day < hi ==> ExportedWhenOver(tools, w, acts, day, last)
    requires last.rows == before + stretch + after && AuditLock.InKeyOrder(stretch)
    requires forall i :: 0 <= i < |before| ==> DayOf(before[i].ts) < lo
    requires forall i :: 0 <= i < |stretch| ==> lo <= DayOf(stretch[i].ts) < hi
    requires forall i :: 0 <= i < |after| ==> hi <= DayOf(after[i].ts)
    ensures DecodeBucket(unzip, last.bucket, lo, hi) == Some(TidyAll(stretch))
    ensures AllWellFormed(stretch) && AllWellFormed(TidyAll(stretch))
    ensures var prev := LastHash(None, before);
      Chained(tools.chain, prev, TidyAll(stretch)) <==> Chained(tools.chain, prev, stretch)
  {
    hide HoldsDay, ExportedWhenOver, DecodeBucket, Chained, Inv, DayOf, AuditLock.InKeyOrder;
    forall day | lo <= day < hi ensures GoodWorld(last) && HoldsDay(tools, last, day) {
      ExportedDayIsHeld(tools, w, acts, day, last);
      InvIsGood(tools, last);
    }
    ExportedDayIsHeld(tools, w, acts, lo, last);
    InvIsGood(tools, last);
    HeldDaysDecode(tools, unzip, last, lo, hi);
    SlicesStop(before + stretch, after, lo, hi);
    SlicesSkip(before, stretch, lo, hi);
    SlicesReassemble(stretch, lo, hi);
    PartsWellFormed(before + stretch, after);
    PartsWellFormed(before, stretch);
    TidyChained(tools.chain, LastHash(None, before), stretch);
  }
}
