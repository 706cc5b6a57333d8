/**
 The nightly write-once export: skip when the stored object already has the fresh digest, write a
 numbered sidecar when it differs, write the day's object when it is missing, and record which in
 the audit chain. A run may fail or die at any point; nothing in the bucket is ever replaced.
 */
module AuditExport {
  import opened Text
  import opened Sets
  import opened Calendar
  import opened Json
  import opened AuditChain
  import opened AuditLock
  import opened ExportCodec

  // ---- object keys --------------------------------------------------------------

  function KeyFor(day: int): string
    requires ValidDay(day)
  {
    DayPath(day) + "/audit.jsonl.gz"
  }

  function SidecarKey(day: int, n: nat): string
    requires ValidDay(day)
  {
    DayPath(day) + "/audit-r" + Decimal(n) + ".jsonl.gz"
  }

  lemma SidecarKeyInjective(day: int, n: nat, day': int, n': nat)
    requires ValidDay(day) && ValidDay(day') && SidecarKey(day, n) == SidecarKey(day', n')
    ensures day == day' && n == n'
  {
    hide DayPath, Decimal;
    var k := SidecarKey(day, n);
    assert k[..10] == DayPath(day) && k[18..|k| - 9] == Decimal(n);
    assert k[..10] == DayPath(day') && k[18..|k| - 9] == Decimal(n');
    DayPathInjective(day, day');
    DecimalInjective(n, n');
  }

  lemma BaseKeyInjective(day: int, day': int)
    requires ValidDay(day) && ValidDay(day') && KeyFor(day) == KeyFor(day')
    ensures day == day'
  {
    hide DayPath;
    assert KeyFor(day)[..10] == DayPath(day) && KeyFor(day')[..10] == DayPath(day');
    DayPathInjective(day, day');
  }

  lemma BaseIsNoSidecar(day: int, day': int, n: nat)
    requires ValidDay(day) && ValidDay(day')
    ensures KeyFor(day) != SidecarKey(day', n)
  {
    hide DayPath, Decimal;
    assert KeyFor(day)[16] == '.' && SidecarKey(day', n)[16] == '-';
  }

  // ---- the bucket ---------------------------------------------------------------

  /** An object keeps its bytes and the MD5 it was stored with. */
  datatype Object = Object(body: string, md5: string)

  type Bucket = map<string, Object>

  ghost predicate TakenBelow(bucket: Bucket, day: int, n: nat)
    requires ValidDay(day)
  {
    forall m :: 1 <= m < n ==> SidecarKey(day, m) in bucket
  }

  /** The keys of sidecars 1 to n - 1. */
  ghost function SidecarSet(day: int, n: nat): (s: set<string>)
    requires ValidDay(day)
    ensures forall k :: k in s <==> exists m :: 1 <= m < n && k == SidecarKey(day, m)
  {
    hide SidecarKey;
    if n <= 1 then {} else SidecarSet(day, n - 1) + {SidecarKey(day, n - 1)}
  }

  lemma {:induction false} SidecarSetSize(day: int, n: nat)
    requires ValidDay(day) && n >= 1
    ensures |SidecarSet(day, n)| == n - 1
  {
    hide SidecarKey;
    if n > 1 {
      SidecarSetSize(day, n - 1);
      if SidecarKey(day, n - 1) in SidecarSet(day, n - 1) {
        var m :| 1 <= m < n - 1 && SidecarKey(day, n - 1) == SidecarKey(day, m);
        SidecarKeyInjective(day, n - 1, day, m);
      }
    }
  }

  lemma TakenBound(bucket: Bucket, day: int, n: nat)
    requires ValidDay(day) && n >= 1 && TakenBelow(bucket, day, n)
    ensures n - 1 <= |bucket|
  {
    SidecarSetSize(day, n);
    SubsetSize(SidecarSet(day, n), bucket.Keys);
  }

  /** One more taken number still fits in the bucket. */
  lemma Room(bucket: Bucket, day: int, n: nat)
    requires ValidDay(day) && n >= 1 && TakenBelow(bucket, day, n)
    ensures n - 1 <= |bucket|
    ensures SidecarKey(day, n) in bucket ==> TakenBelow(bucket, day, n + 1) && n <= |bucket|
  {
    hide SidecarKey;
    TakenBound(bucket, day, n);
    if SidecarKey(day, n) in bucket { TakenBound(bucket, day, n + 1); }
  }

  /** The first free sidecar number from `n` on; the search ends because the bucket is finite. */
  function FirstFree(bucket: Bucket, day: int, n: nat): (r: nat)
    requires ValidDay(day) && n >= 1 && TakenBelow(bucket, day, n)
    ensures r >= n
    decreases |bucket| + 1 - n
  {
    hide SidecarKey, TakenBelow;
    Room(bucket, day, n);
    if SidecarKey(day, n) in bucket then FirstFree(bucket, day, n + 1) else n
  }

  lemma {:induction false} FirstFreeIsFree(bucket: Bucket, day: int, n: nat)
    requires ValidDay(day) && n >= 1 && TakenBelow(bucket, day, n)
    ensures TakenBelow(bucket, day, FirstFree(bucket, day, n))
    ensures SidecarKey(day, FirstFree(bucket, day, n)) !in bucket
    decreases |bucket| + 1 - n
  {
    hide SidecarKey;
    TakenBound(bucket, day, n);
    if SidecarKey(day, n) in bucket { FirstFreeIsFree(bucket, day, n + 1); }
  }

  // ---- one run as a function of the world ---------------------------------------

  /** The digest functions and the compressor. */
  datatype Tools = Tools(gz: Gzip, md5: string -> string, sha256: string -> string, chain: Hash)

  datatype World = World(bucket: Bucket, rows: seq<Event>)

  /** The clock reading and random id the run's audit row gets. */
  datatype Stamp = Stamp(ts: int, id: string)

  /**
   Where a run is cut short: before the PUT takes effect, or after it but before the commit. `logged`
   says whether the failure row could be committed; it cannot when the process died.
   */
  datatype Fault = NoFault | Early(logged: bool) | Late(logged: bool)

  datatype Action = Written | Skipped | Reprocessed

  datatype ExportResult = ExportResult(day: int, rowCount: nat, s3Key: string, sha256: string, action: Action)

  ghost predicate GoodWorld(w: World) { AllWellFormed(w.rows) }

  lemma SliceTimes(rows: seq<Event>, day: int)
    requires AllWellFormed(rows)
    ensures forall i :: 0 <= i < |Slice(rows, day)| ==> ValidInstant(Slice(rows, day)[i].ts)
  {
    SliceWellFormed(rows, day);
    forall i | 0 <= i < |Slice(rows, day)| ensures ValidInstant(Slice(rows, day)[i].ts) {
      assert WellFormed(Slice(rows, day)[i]);
    }
  }

  /** The bytes a run would store for `day` now. */
  function FreshBody(tools: Tools, rows: seq<Event>, day: int): string
    requires AllWellFormed(rows)
  {
    SliceTimes(rows, day);
    tools.gz(Jsonl(Slice(rows, day)))
  }

  function Decide(tools: Tools, w: World, day: int): (r: ExportResult)
    requires ValidDay(day) && GoodWorld(w)
    ensures r.action == Skipped ==> r.s3Key in w.bucket
    ensures r.action != Skipped ==> r.s3Key !in w.bucket
  {
    FirstFreeIsFree(w.bucket, day, 1);
    var body := FreshBody(tools, w.rows, day);
    var count, sha := |Slice(w.rows, day)|, tools.sha256(body);
    if KeyFor(day) !in w.bucket then ExportResult(day, count, KeyFor(day), sha, Written)
    else if w.bucket[KeyFor(day)].md5 == tools.md5(body) then ExportResult(day, count, KeyFor(day), sha, Skipped)
    else ExportResult(day, count, SidecarKey(day, FirstFree(w.bucket, day, 1)), sha, Reprocessed)
  }

  lemma DecideFits(tools: Tools, w: World, day: int)
    requires ValidDay(day) && GoodWorld(w)
    ensures Decide(tools, w, day).day == day
    ensures Decide(tools, w, day).action == Reprocessed ==> KeyFor(day) in w.bucket
  {
  }

  function ActionText(a: Action): string {
    match a
    case Written => "audit_export.written"
    case Skipped => "audit_export.skipped"
    case Reprocessed => "audit_export.reprocessed"
  }

  function Stored(tools: Tools, w: World, r: ExportResult): Bucket
    requires ValidDay(r.day) && GoodWorld(w)
  {
    if r.action == Skipped then w.bucket
    else
      var body := FreshBody(tools, w.rows, r.day);
      w.bucket[r.s3Key := Object(body, tools.md5(body))]
  }

  function Draft(stamp: Stamp, action: string, day: int, before: Option<seq<Field>>, after: seq<Field>): Event
    requires ValidDay(day)
  {
    Event(stamp.id, stamp.ts, None, action, "audit_export", IsoDate(day), before, Some(after),
          Some("audit_export:" + IsoDate(day)), None, "")
  }

  function SuccessDraft(w: World, r: ExportResult, stamp: Stamp): Event
    requires ValidDay(r.day) && (r.action == Reprocessed ==> KeyFor(r.day) in w.bucket)
  {
    var before := if r.action != Reprocessed then None
                  else Some([Field("original_key", Str(KeyFor(r.day))),
                             Field("original_md5", Str(w.bucket[KeyFor(r.day)].md5))]);
    Draft(stamp, ActionText(r.action), r.day, before,
          [Field("day", Str(IsoDate(r.day))), Field("row_count", Num(r.rowCount)),
           Field("s3_key", Str(r.s3Key)), Field("sha256", Str(r.sha256))])
  }

  function FailureDraft(day: int, stamp: Stamp, error: string): Event
    requires ValidDay(day)
  {
    Draft(stamp, "audit_export.failed", day, None, [Field("day", Str(IsoDate(day))), Field("error", Str(error))])
  }

  /** `append_audit` and commit, with no other appender in between. */
  function Record(tools: Tools, rows: seq<Event>, draft: Event): seq<Event>
    requires ValidInstant(draft.ts)
  {
    Insert(rows, Seal(tools.chain, LastHash(None, rows), draft))
  }

  /** What one run leaves behind. */
  function Outcome(tools: Tools, w: World, day: int, stamp: Stamp, fault: Fault, error: string): World
    requires ValidDay(day) && ValidInstant(stamp.ts) && GoodWorld(w)
  {
    var r := Decide(tools, w, day);
    var failed := Record(tools, w.rows, FailureDraft(day, stamp, error));
    match fault
    case NoFault => World(Stored(tools, w, r), Record(tools, w.rows, SuccessDraft(w, r, stamp)))
    case Early(logged) => World(w.bucket, if logged then failed else w.rows)
    case Late(logged) => World(Stored(tools, w, r), if logged then failed else w.rows)
  }

  // ---- the worker ---------------------------------------------------------------

  class Exporter {
    const tools: Tools
    var bucket: Bucket
    var rows: seq<Event>

    constructor (tools: Tools, w: World)
      ensures this.tools == tools && State() == w
    {
      this.tools := tools;
      bucket, rows := w.bucket, w.rows;
    }

    ghost function State(): World
      reads this
    {
      World(bucket, rows)
    }

    /** Walks r1, r2, … until a HEAD finds nothing. */
    method FreeSidecar(day: int) returns (n: nat)
      requires ValidDay(day)
      ensures n >= 1 && TakenBelow(bucket, day, n) && SidecarKey(day, n) !in bucket
      ensures TakenBelow(bucket, day, 1) && n == FirstFree(bucket, day, 1)
    {
      n := 1;
      while SidecarKey(day, n) in bucket
        invariant n >= 1 && TakenBelow(bucket, day, n)
        decreases |bucket| + 1 - n
      {
        TakenBound(bucket, day, n + 1);
        n := n + 1;
      }
      FirstFreeIsFree(bucket, day, 1);
      var r := FirstFree(bucket, day, 1);
      assert !(n < r) && !(r < n);
    }

    method Put(key: string, body: string)
      modifies this`bucket
      ensures bucket == old(bucket)[key := Object(body, tools.md5(body))]
    {
      bucket := bucket[key := Object(body, tools.md5(body))];
    }

    method Append(draft: Event)
      requires ValidInstant(draft.ts)
      modifies this`rows
      ensures rows == Record(tools, old(rows), draft)
    {
      hide Insert, RowHash;
      rows := Insert(rows, Seal(tools.chain, LastHash(None, rows), draft));
    }

    /** The failure path: roll back, try to record the failure, re-raise. */
    method Fail(day: int, stamp: Stamp, logged: bool, error: string)
      requires ValidDay(day) && ValidInstant(stamp.ts)
      modifies this`rows
      ensures rows == if logged then Record(tools, old(rows), FailureDraft(day, stamp, error)) else old(rows)
    {
      if logged { Append(FailureDraft(day, stamp, error)); }
    }

    /** Compares the fresh digest with the stored one and picks what to do and where. */
    method Choose(day: int, slice: seq<Event>, body: string) returns (r: ExportResult)
      requires ValidDay(day) && GoodWorld(State())
      requires slice == Slice(rows, day) && body == FreshBody(tools, rows, day)
      ensures r == Decide(tools, State(), day)
    {
      hide Slice, KeyFor, SidecarKey, FreshBody;
      var bodyMd5, bodySha256 := tools.md5(body), tools.sha256(body);
      var baseKey := KeyFor(day);
      if baseKey in bucket && bucket[baseKey].md5 == bodyMd5 {
        return ExportResult(day, |slice|, baseKey, bodySha256, Skipped);
      }
      if baseKey in bucket {
        var n := FreeSidecar(day);
        return ExportResult(day, |slice|, SidecarKey(day, n), bodySha256, Reprocessed);
      }
      return ExportResult(day, |slice|, baseKey, bodySha256, Written);
    }

    method Run(day: int, stamp: Stamp, fault: Fault, error: string) returns (result: Option<ExportResult>)
      requires ValidDay(day) && ValidInstant(stamp.ts) && GoodWorld(State())
      modifies this
      ensures State() == Outcome(tools, old(State()), day, stamp, fault, error)
      ensures result == if fault == NoFault then Some(Decide(tools, old(State()), day)) else None
    {
      hide Slice, Record, KeyFor, SidecarKey, Jsonl, Decide, FailureDraft, ActionText, IsoDate;
      ghost var w := State();
      var slice := Slice(rows, day);
      SliceTimes(rows, day);
      SliceWellFormed(rows, day);
      var body := Serialize(tools.gz, slice);
      if fault.Early? {
        Fail(day, stamp, fault.logged, error);
        return None;
      }
      var r := Choose(day, slice, body);
      DecideFits(tools, w, day);
      var draft := SuccessDraft(World(bucket, rows), r, stamp);
      if r.action != Skipped { Put(r.s3Key, body); }
      if fault.Late? {
        Fail(day, stamp, fault.logged, error);
        return None;
      }
      Append(draft);
      return Some(r);
    }
  }
}
