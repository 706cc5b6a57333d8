/** What one tick of the renewals scheduler, and one of the portfolio scheduler, does to the store. */
module RenewalTick {
  import opened Text
  import opened Calendar
  import opened Ledger
  import opened RenewalModel
  import opened PortfolioScheduler

  // ---- invariants ---------------------------------------------------------------

  /** A churn key belongs to an issued identifier, and a renewal with a churn key is not open. */
  ghost predicate Sound(s: Store) {
    && s.renewals.Keys <= s.issued
    && forall k: Key :: k in s.ledger && k.RenewalChurn? ==>
         k.renewal in s.issued && (k.renewal in s.renewals ==> s.renewals[k.renewal].status != Open)
  }

  predicate SamePair(r: Renewal, q: Renewal) { r.opp == q.opp && r.termEnd == q.termEnd }

  /** At most one renewal row per opportunity and term end. */
  ghost predicate Unique(s: Store) {
    forall i, j :: i in s.renewals && j in s.renewals && i != j ==> !SamePair(s.renewals[i], s.renewals[j])
  }

  // ---- passes that open and announce --------------------------------------------

  /** Row `id` is new in `b`, is open, ends no earlier than `floor` and shares its term end with no other row. */
  ghost predicate Opening(floor: int, a: Store, b: Store, id: nat)
    requires id in b.renewals
  {
    && id !in a.issued && b.renewals[id].status == Open && floor <= b.renewals[id].termEnd
    && forall j :: j in b.renewals && j != id ==> !SamePair(b.renewals[id], b.renewals[j])
  }

  /** Nothing but new openings, new keys other than churn keys, and whatever else the passes write. */
  ghost predicate Grown(floor: int, a: Store, b: Store) {
    && b.renewals.Keys <= b.issued && a.ledger <= b.ledger && a.issued <= b.issued
    && (forall k: Key :: k in b.ledger && k.RenewalChurn? ==> k in a.ledger)
    && (forall id :: id in a.renewals ==> id in b.renewals && b.renewals[id] == a.renewals[id])
    && (forall id :: id in b.renewals && id !in a.renewals ==> Opening(floor, a, b, id))
    && b.versions == a.versions && b.engagements == a.engagements && b.owners == a.owners
  }

  lemma GrownRefl(floor: int, s: Store)
    requires s.renewals.Keys <= s.issued
    ensures Grown(floor, s, s)
  {
  }

  lemma GrownTrans(floor: int, a: Store, b: Store, c: Store)
    requires Grown(floor, a, b) && Grown(floor, b, c)
    ensures Grown(floor, a, c)
  {
    forall id | id in c.renewals && id !in a.renewals ensures Opening(floor, a, c, id) {
      if id in b.renewals {
        assert Opening(floor, a, b, id);
        forall j | j in c.renewals && j != id ensures !SamePair(c.renewals[id], c.renewals[j]) {
          if j !in b.renewals { assert Opening(floor, b, c, j); }
        }
      } else {
        assert Opening(floor, b, c, id);
      }
    }
  }

  lemma GrownLower(high: int, low: int, a: Store, b: Store)
    requires Grown(high, a, b) && low <= high
    ensures Grown(low, a, b)
  {
    forall id | id in b.renewals && id !in a.renewals ensures Opening(low, a, b, id) {
      assert Opening(high, a, b, id);
    }
  }

  lemma SoundKeys(s: Store)
    requires Sound(s)
    ensures s.renewals.Keys <= s.issued
  {
  }

  lemma GrownSound(floor: int, a: Store, b: Store)
    requires Sound(a) && Grown(floor, a, b)
    ensures Sound(b)
  {
    forall k: Key | k in b.ledger && k.RenewalChurn? && k.renewal in b.renewals
      ensures b.renewals[k.renewal].status != Open
    {
      assert k in a.ledger;
    }
  }

  lemma OpenRenewalGrows(env: Env, s: Store, opp: nat, termEnd: int, wall: int)
    requires GoodEnv(env) && s.renewals.Keys <= s.issued
    ensures Grown(termEnd, s, OpenRenewal(env, s, opp, termEnd, wall))
    ensures Exists(OpenRenewal(env, s, opp, termEnd, wall), opp, termEnd)
  {
    hide FanOut, OwnerOf;
    var s' := OpenRenewal(env, s, opp, termEnd, wall);
    var id := env.mint(s.issued);
    if !Exists(s, opp, termEnd) {
      assert id !in s.issued && s'.renewals[id] == Renewal(opp, termEnd, Open, wall);
      assert IsFor(s'.renewals[id], opp, termEnd);
      forall j | j in s'.renewals && j != id ensures !SamePair(s'.renewals[id], s'.renewals[j]) {
        assert !IsFor(s.renewals[j], opp, termEnd);
      }
      assert Opening(termEnd, s, s', id);
    }
  }

  /** Recording a key that is not a churn key, then opening or announcing. */
  lemma RecordedGrows(floor: int, s: Store, key: Key, s': Store)
    requires s.renewals.Keys <= s.issued && !key.RenewalChurn? && Grown(floor, Recorded(s, key), s')
    ensures Grown(floor, s, s')
  {
    assert Grown(floor, s, Recorded(s, key));
    GrownTrans(floor, s, Recorded(s, key), s');
  }

  lemma OnlyAnnounces(floor: int, s: Store, s': Store, key: Key)
    requires s.renewals.Keys <= s.issued && !key.RenewalChurn?
    requires s' == s.(ledger := s'.ledger, tasks := s'.tasks, outbox := s'.outbox)
    requires s'.ledger == s.ledger || s'.ledger == s.ledger + {key}
    ensures Grown(floor, s, s')
  {
  }

  /** The earliest term end a pass over versions opens. */
  function Floor(pass: VersionPass, c: Clock): int {
    if pass == OpenAtLead then c.businessDay else c.UtcDay()
  }

  lemma OpenRowGrows(env: Env, c: Clock, s: Store, v: Version)
    requires GoodEnv(env) && s.renewals.Keys <= s.issued
    ensures Grown(c.businessDay, s, OpenRow(env, c, s, v))
  {
    hide OpenRenewal, Grown, GoodEnv, Exists, Active;
    GrownRefl(c.businessDay, s);
    if OpenDue(v, c) {
      var key, termEnd := RenewalOpenLead(v.opp, v.termEnd.value), v.termEnd.value;
      OnlyAnnounces(c.businessDay, s, Recorded(s, key), key);
      OpenRenewalGrows(env, Recorded(s, key), v.opp, termEnd, c.wall);
      GrownLower(termEnd, c.businessDay, Recorded(s, key), OpenRenewal(env, Recorded(s, key), v.opp, termEnd, c.wall));
      RecordedGrows(c.businessDay, s, key, OpenRenewal(env, Recorded(s, key), v.opp, termEnd, c.wall));
    }
  }

  lemma ShortRowGrows(env: Env, c: Clock, s: Store, v: Version)
    requires GoodEnv(env) && s.renewals.Keys <= s.issued
    ensures Grown(c.UtcDay(), s, ShortRow(env, c, s, v))
  {
    hide OpenRenewal, Grown, GoodEnv, Exists, Active;
    GrownRefl(c.UtcDay(), s);
    if ShortDue(v, c) {
      var key, termEnd := ShortAssessment(v.id, v.termEnd.value), v.termEnd.value;
      OpenRenewalGrows(env, Recorded(s, key), v.opp, termEnd, c.wall);
      GrownLower(termEnd, c.UtcDay(), Recorded(s, key), OpenRenewal(env, Recorded(s, key), v.opp, termEnd, c.wall));
      RecordedGrows(c.UtcDay(), s, key, OpenRenewal(env, Recorded(s, key), v.opp, termEnd, c.wall));
    }
  }

  lemma NoticeRowGrows(floor: int, env: Env, c: Clock, s: Store, v: Version)
    requires s.renewals.Keys <= s.issued
    ensures Grown(floor, s, NoticeRow(env, c, s, v)) && NoticeRow(env, c, s, v).renewals == s.renewals
  {
    hide FanOut, Grown;
    GrownRefl(floor, s);
    if NoticeDue(v, c) { OnlyAnnounces(floor, s, NoticeRow(env, c, s, v), NoticeTask(v.opp, v.notice.value)); }
  }

  lemma VersionRowGrows(pass: VersionPass, env: Env, c: Clock, s: Store, v: Version)
    requires GoodEnv(env) && s.renewals.Keys <= s.issued
    ensures Grown(Floor(pass, c), s, VersionRow(pass, env, c, s, v))
  {
    hide OpenRow, ShortRow, NoticeRow, Grown, GoodEnv;
    match pass
    case OpenAtLead => OpenRowGrows(env, c, s, v);
    case ShortAssessments => ShortRowGrows(env, c, s, v);
    case NoticeDates => NoticeRowGrows(c.UtcDay(), env, c, s, v);
  }

  lemma {:induction false} VersionFoldGrows(pass: VersionPass, env: Env, c: Clock, s: Store, vs: seq<Version>)
    requires GoodEnv(env) && s.renewals.Keys <= s.issued
    ensures Grown(Floor(pass, c), s, VersionFold(pass, env, c, s, vs))
    decreases |vs|
  {
    hide VersionRow, Opening, GoodEnv, Floor;
    if vs == [] {
      GrownRefl(Floor(pass, c), s);
    } else {
      var before := VersionFold(pass, env, c, s, vs[..|vs| - 1]);
      VersionFoldGrows(pass, env, c, s, vs[..|vs| - 1]);
      VersionRowGrows(pass, env, c, before, vs[|vs| - 1]);
      GrownTrans(Floor(pass, c), s, before, VersionFold(pass, env, c, s, vs));
    }
  }

  /** Nudges and escalations write keys and notifications only. */
  lemma {:induction false} AnnouncingFoldGrows(pass: RenewalPass, env: Env, c: Clock, s: Store, rows: seq<nat>)
    requires pass != Churn && s.renewals.Keys <= s.issued && RowsExist(s, rows)
    ensures var s' := RenewalFold(pass, env, c, s, rows);
      s'.renewals == s.renewals && s'.issued == s.issued && s'.tasks == s.tasks && Grown(c.UtcDay(), s, s')
    decreases |rows|
  {
    hide RenewalRow, Opening, GoodEnv, Grown;
    if rows == [] {
      GrownRefl(c.UtcDay(), s);
    } else {
      var before := RenewalFold(pass, env, c, s, rows[..|rows| - 1]);
      AnnouncingFoldGrows(pass, env, c, s, rows[..|rows| - 1]);
      AnnouncingRowGrows(pass, env, c, before, rows[|rows| - 1]);
      GrownTrans(c.UtcDay(), s, before, RenewalFold(pass, env, c, s, rows));
    }
  }

  lemma AnnouncingRowGrows(pass: RenewalPass, env: Env, c: Clock, s: Store, id: nat)
    requires pass != Churn && s.renewals.Keys <= s.issued && id in s.renewals
    ensures var s' := RenewalRow(pass, env, c, s, id);
      s'.renewals == s.renewals && s'.issued == s.issued && s'.tasks == s.tasks && Grown(c.UtcDay(), s, s')
  {
    hide FanOut, Grown, OwnerOf;
    GrownRefl(c.UtcDay(), s);
    var s' := RenewalRow(pass, env, c, s, id);
    if pass == Nudges {
      OnlyAnnounces(c.UtcDay(), s, s', RenewalNudge(id, c.UtcDay()));
    } else {
      OnlyAnnounces(c.UtcDay(), s, s', RenewalEscalation(id, EscalationLevel(s.renewals[id].termEnd - c.UtcDay())));
    }
  }

  // ---- the churn pass -----------------------------------------------------------

  function Churned(r: Renewal): Renewal { r.(status := RenewalStatus.Churned) }

  /** The rows of `ids` churned with their keys recorded, nothing else in the renewals, tasks or ledger. */
  ghost predicate ChurnedRows(a: Store, b: Store, ids: set<nat>) {
    && b.renewals.Keys == a.renewals.Keys
    && (forall id :: id in a.renewals ==> b.renewals[id] == if id in ids then Churned(a.renewals[id]) else a.renewals[id])
    && (forall k: Key :: k in b.ledger <==>
          k in a.ledger || (k.RenewalChurn? && k.renewal in ids && k.renewal in a.renewals && k.termEnd == a.renewals[k.renewal].termEnd))
    && b == a.(renewals := b.renewals, ledger := b.ledger, outbox := b.outbox)
  }

  ghost function RowSet(rows: seq<nat>): set<nat> { set id | id in rows }

  lemma ChurnRowChurns(env: Env, c: Clock, a: Store, b: Store, ids: set<nat>, id: nat)
    requires Sound(a) && ChurnedRows(a, b, ids) && id in a.renewals && id !in ids && a.renewals[id].status == Open
    ensures ChurnedRows(a, ChurnRow(env, c, b, id), ids + {id})
  {
    hide FanOut, OwnerOf;
    var r := a.renewals[id];
    assert RenewalChurn(id, r.termEnd) !in a.ledger;
    assert RenewalChurn(id, r.termEnd) !in b.ledger;
  }

  lemma {:induction false} ChurnFoldChurns(env: Env, c: Clock, s: Store, rows: seq<nat>)
    requires Sound(s) && RowsExist(s, rows)
    requires forall i :: 0 <= i < |rows| ==> s.renewals[rows[i]].status == Open
    requires forall i, j :: 0 <= i < j < |rows| ==> rows[i] != rows[j]
    ensures ChurnedRows(s, RenewalFold(Churn, env, c, s, rows), RowSet(rows))
    decreases |rows|
  {
    hide Sound, ChurnRow;
    if rows != [] {
      var init, last := rows[..|rows| - 1], rows[|rows| - 1];
      ChurnFoldChurns(env, c, s, init);
      assert rows == init + [last];
      assert RowSet(rows) == RowSet(init) + {last};
      ChurnRowChurns(env, c, s, RenewalFold(Churn, env, c, s, init), RowSet(init), last);
    }
  }

  ghost function OverdueIds(s: Store, day: int): set<nat> {
    set id | id in s.renewals && s.renewals[id].status == Open && s.renewals[id].termEnd < day
  }

  lemma ChurnPassChurns(env: Env, c: Clock, s: Store, rows: seq<nat>)
    requires Sound(s) && Returns(Churn, c, s, rows) && RowsExist(s, rows)
    ensures ChurnedRows(s, RenewalFold(Churn, env, c, s, rows), OverdueIds(s, c.UtcDay()))
  {
    hide Sound, ChurnedRows, RenewalFold;
    assert forall i :: 0 <= i < |rows| ==> Selected(Churn, c, s, rows[i]);
    ChurnFoldChurns(env, c, s, rows);
    assert RowSet(rows) == OverdueIds(s, c.UtcDay()) by {
      forall id ensures id in rows <==> id in OverdueIds(s, c.UtcDay()) {
        assert id in OverdueIds(s, c.UtcDay()) <==> Selected(Churn, c, s, id);
      }
    }
  }

  lemma ChurnSound(a: Store, b: Store, ids: set<nat>)
    requires Sound(a) && ChurnedRows(a, b, ids)
    ensures Sound(b)
  {
  }

  // ---- one tick -----------------------------------------------------------------

  lemma {:induction false} NoticeFoldKeepsRenewals(env: Env, c: Clock, s: Store, vs: seq<Version>)
    requires s.renewals.Keys <= s.issued
    ensures var s' := VersionFold(NoticeDates, env, c, s, vs); s'.renewals == s.renewals && s'.issued == s.issued
    decreases |vs|
  {
    hide FanOut;
    if vs != [] { NoticeFoldKeepsRenewals(env, c, s, vs[..|vs| - 1]); }
  }

  /** Openings first, then announcements, then the overdue rows churn. */
  ghost predicate Shape(c: Clock, s: Store, t: Trace, s': Store) {
    && Grown(c.businessDay, s, t.atLead) && Grown(c.UtcDay(), t.atLead, t.short)
    && Grown(c.UtcDay(), t.short, t.escalated) && t.escalated.renewals == t.short.renewals
    && Sound(t.escalated) && ChurnedRows(t.escalated, s', OverdueIds(t.escalated, c.UtcDay()))
  }

  lemma TickShape(env: Env, c: Clock, s: Store, t: Trace, s': Store, n: seq<nat>, e: seq<nat>, ch: seq<nat>)
    requires GoodEnv(env) && Sound(s) && TickVia(env, c, s, t, s', n, e, ch)
    ensures Shape(c, s, t, s')
  {
    hide GoodEnv, Grown, ChurnedRows, VersionFold, RenewalFold, Returns;
    var day := c.UtcDay();
    VersionFoldGrows(OpenAtLead, env, c, s, s.versions);
    GrownSound(c.businessDay, s, t.atLead);
    VersionFoldGrows(ShortAssessments, env, c, t.atLead, s.versions);
    GrownSound(day, t.atLead, t.short);
    AnnouncingFoldGrows(Nudges, env, c, t.short, n);
    GrownSound(day, t.short, t.nudged);
    VersionFoldGrows(NoticeDates, env, c, t.nudged, s.versions);
    NoticeFoldKeepsRenewals(env, c, t.nudged, s.versions);
    GrownTrans(day, t.short, t.nudged, t.noticed);
    GrownSound(day, t.nudged, t.noticed);
    AnnouncingFoldGrows(Escalations, env, c, t.noticed, e);
    GrownTrans(day, t.short, t.noticed, t.escalated);
    GrownSound(day, t.noticed, t.escalated);
    ChurnPassChurns(env, c, t.escalated, ch);
  }

  /** No renewal is open past its term end. */
  ghost predicate NoneOverdue(s: Store, day: int) {
    forall id :: id in s.renewals && s.renewals[id].status == Open ==> day <= s.renewals[id].termEnd
  }

  /** Rows sharing opportunity and term end were both there before. */
  ghost predicate AddsNoDuplicate(s: Store, s': Store) {
    forall i, j :: i in s'.renewals && j in s'.renewals && i != j && SamePair(s'.renewals[i], s'.renewals[j]) ==>
      i in s.renewals && j in s.renewals
  }

  /** Existing rows keep everything but the status, which only goes from open to churned. */
  ghost predicate OnlyChurns(s: Store, s': Store, day: int) {
    forall id :: id in s.renewals ==>
      && id in s'.renewals
      && var r := s.renewals[id];
         s'.renewals[id] == if r.status == Open && r.termEnd < day then Churned(r) else r
  }

  lemma ShapeFacts(c: Clock, s: Store, t: Trace, s': Store)
    requires Sound(s) && Shape(c, s, t, s') && c.Valid()
    ensures Sound(s') && NoneOverdue(s', c.UtcDay()) && AddsNoDuplicate(s, s') && OnlyChurns(s, s', c.UtcDay())
  {
    hide Sound, Opening;
    ChurnSound(t.escalated, s', OverdueIds(t.escalated, c.UtcDay()));
    GrownLower(c.UtcDay(), c.businessDay, t.atLead, t.short);
    GrownTrans(c.businessDay, s, t.atLead, t.short);
    GrownLower(c.UtcDay(), c.businessDay, t.short, t.escalated);
    GrownTrans(c.businessDay, s, t.short, t.escalated);
    NoDuplicate(c.businessDay, s, t.escalated);
  }

  lemma NoDuplicate(floor: int, a: Store, b: Store)
    requires Grown(floor, a, b)
    ensures AddsNoDuplicate(a, b)
  {
    forall i, j | i in b.renewals && j in b.renewals && i != j && SamePair(b.renewals[i], b.renewals[j])
      ensures i in a.renewals
    {
      assert i !in a.renewals ==> Opening(floor, a, b, i);
    }
  }

  /**
   A committed renewals tick leaves no renewal open past its term end, adds no second row for any term end,
   changes old rows only by churning the overdue open ones, and keeps the churn keys truthful.
   */
  lemma TickLeavesNoneOverdue(env: Env, c: Clock, s: Store, s': Store)
    requires GoodEnv(env) && Sound(s) && c.Valid() && RenewalsTick(env, c, s, s')
    ensures Sound(s') && NoneOverdue(s', c.UtcDay()) && AddsNoDuplicate(s, s') && OnlyChurns(s, s', c.UtcDay())
  {
    hide Sound, GoodEnv, TickVia, Shape, NoneOverdue, AddsNoDuplicate, OnlyChurns;
    var t, n, e, ch :| TickVia(env, c, s, t, s', n, e, ch);
    TickShape(env, c, s, t, s', n, e, ch);
    ShapeFacts(c, s, t, s');
  }

  // ---- triggers that have nothing left to do ------------------------------------

  /** The trigger of `pass` for `v` would do nothing. */
  ghost predicate Settled(pass: VersionPass, c: Clock, s: Store, v: Version) {
    match pass
    case OpenAtLead => OpenDue(v, c) ==> RenewalOpenLead(v.opp, v.termEnd.value) in s.ledger
    case ShortAssessments =>
      ShortDue(v, c) ==> Active(s, v.opp, v.termEnd.value) || ShortAssessment(v.id, v.termEnd.value) in s.ledger
    case NoticeDates => NoticeDue(v, c) ==> NoticeTask(v.opp, v.notice.value) in s.ledger
  }

  lemma OpenedIsActive(env: Env, s: Store, opp: nat, termEnd: int, wall: int, key: Key)
    requires key in s.ledger
    ensures key in OpenRenewal(env, s, opp, termEnd, wall).ledger
  {
    hide FanOut, Exists;
  }

  lemma RowSettles(pass: VersionPass, env: Env, c: Clock, s: Store, v: Version)
    ensures Settled(pass, c, VersionRow(pass, env, c, s, v), v)
  {
    hide FanOut, Exists, OpenRenewal, Active;
    match pass
    case OpenAtLead =>
      if OpenDue(v, c) {
        var key := RenewalOpenLead(v.opp, v.termEnd.value);
        OpenedIsActive(env, Recorded(s, key), v.opp, v.termEnd.value, c.wall, key);
      }
    case ShortAssessments =>
      if ShortDue(v, c) {
        var key := ShortAssessment(v.id, v.termEnd.value);
        OpenedIsActive(env, Recorded(s, key), v.opp, v.termEnd.value, c.wall, key);
      }
    case NoticeDates =>
  }

  lemma ActiveGrows(floor: int, a: Store, b: Store, opp: nat, termEnd: int)
    requires Grown(floor, a, b) && Active(a, opp, termEnd)
    ensures Active(b, opp, termEnd)
  {
    var id :| id in a.renewals && IsOpenFor(a.renewals[id], opp, termEnd);
    assert IsOpenFor(b.renewals[id], opp, termEnd);
  }

  lemma SettledGrows(floor: int, pass: VersionPass, c: Clock, a: Store, b: Store, v: Version)
    requires Grown(floor, a, b) && Settled(pass, c, a, v)
    ensures Settled(pass, c, b, v)
  {
    hide Active;
    if pass == ShortAssessments && ShortDue(v, c) && Active(a, v.opp, v.termEnd.value) {
      ActiveGrows(floor, a, b, v.opp, v.termEnd.value);
    }
  }

  lemma ActiveOutlivesChurn(c: Clock, a: Store, b: Store, opp: nat, termEnd: int)
    requires ChurnedRows(a, b, OverdueIds(a, c.UtcDay())) && Active(a, opp, termEnd) && c.UtcDay() <= termEnd
    ensures Active(b, opp, termEnd)
  {
    var id :| id in a.renewals && IsOpenFor(a.renewals[id], opp, termEnd);
    assert IsOpenFor(b.renewals[id], opp, termEnd);
  }

  lemma SettledOutlivesChurn(pass: VersionPass, c: Clock, a: Store, b: Store, v: Version)
    requires ChurnedRows(a, b, OverdueIds(a, c.UtcDay())) && Settled(pass, c, a, v)
    ensures Settled(pass, c, b, v)
  {
    hide Active;
    if pass == ShortAssessments && ShortDue(v, c) && Active(a, v.opp, v.termEnd.value) {
      ActiveOutlivesChurn(c, a, b, v.opp, v.termEnd.value);
    }
  }

  ghost predicate AllSettled(pass: VersionPass, c: Clock, s: Store, vs: seq<Version>) {
    forall v :: v in vs ==> Settled(pass, c, s, v)
  }

  lemma {:induction false} FoldSettles(pass: VersionPass, env: Env, c: Clock, s: Store, vs: seq<Version>)
    requires GoodEnv(env) && s.renewals.Keys <= s.issued
    ensures AllSettled(pass, c, VersionFold(pass, env, c, s, vs), vs)
    decreases |vs|
  {
    hide GoodEnv, Grown, VersionRow, Settled;
    if vs != [] {
      var init, last := vs[..|vs| - 1], vs[|vs| - 1];
      assert vs == init + [last];
      var before := VersionFold(pass, env, c, s, init);
      FoldSettles(pass, env, c, s, init);
      VersionFoldGrows(pass, env, c, s, init);
      GrownLedger(Floor(pass, c), s, before);
      VersionRowGrows(pass, env, c, before, last);
      RowSettles(pass, env, c, before, last);
      forall v | v in init ensures Settled(pass, c, VersionFold(pass, env, c, s, vs), v) {
        SettledGrows(Floor(pass, c), pass, c, before, VersionRow(pass, env, c, before, last), v);
      }
    }
  }

  lemma AllSettledLater(floor: int, pass: VersionPass, c: Clock, a: Store, b: Store, s': Store, vs: seq<Version>)
    requires AllSettled(pass, c, a, vs) && Grown(floor, a, b) && ChurnedRows(b, s', OverdueIds(b, c.UtcDay()))
    ensures AllSettled(pass, c, s', vs)
  {
    hide Settled, Grown, ChurnedRows;
    forall v | v in vs ensures Settled(pass, c, s', v) {
      SettledGrows(floor, pass, c, a, b, v);
      SettledOutlivesChurn(pass, c, b, s', v);
    }
  }

  /** Two clocks at one instant; the wall clock may have moved. */
  predicate SameInstant(c: Clock, c': Clock) { c'.now == c.now && c'.businessDay == c.businessDay }

  lemma {:induction false} SettledFoldIdle(pass: VersionPass, env: Env, c: Clock, c': Clock, s: Store, vs: seq<Version>)
    requires AllSettled(pass, c, s, vs) && SameInstant(c, c')
    ensures VersionFold(pass, env, c', s, vs) == s
    decreases |vs|
  {
    hide FanOut, OpenRenewal, Active;
    if vs != [] {
      var init, last := vs[..|vs| - 1], vs[|vs| - 1];
      assert vs == init + [last];
      SettledFoldIdle(pass, env, c, c', s, init);
      assert Settled(pass, c, s, last);
    }
  }

  predicate Stale(r: Renewal, c: Clock) { c.now - r.lastUpdate >= NUDGE_STALE_MICROS }

  /** The nudge or escalation of `id` would do nothing. */
  ghost predicate Quiet(pass: RenewalPass, c: Clock, s: Store, id: nat)
    requires id in s.renewals
  {
    match pass
    case Nudges => Stale(s.renewals[id], c) ==> RenewalNudge(id, c.UtcDay()) in s.ledger
    case Escalations =>
      var level := EscalationLevel(s.renewals[id].termEnd - c.UtcDay());
      level != 0 ==> RenewalEscalation(id, level) in s.ledger
    case Churn => c.UtcDay() <= s.renewals[id].termEnd
  }

  lemma AnnouncingRowQuiets(pass: RenewalPass, env: Env, c: Clock, s: Store, id: nat)
    requires pass != Churn && id in s.renewals
    ensures Quiet(pass, c, RenewalRow(pass, env, c, s, id), id)
  {
    hide FanOut, OwnerOf;
  }

  lemma {:induction false} AnnouncingFoldQuiets(pass: RenewalPass, env: Env, c: Clock, s: Store, rows: seq<nat>, id: nat)
    requires pass != Churn && s.renewals.Keys <= s.issued && RowsExist(s, rows) && id in rows
    ensures id in s.renewals && Quiet(pass, c, RenewalFold(pass, env, c, s, rows), id)
    decreases |rows|
  {
    hide RenewalRow, Grown;
    var init, last := rows[..|rows| - 1], rows[|rows| - 1];
    assert rows == init + [last];
    var before := RenewalFold(pass, env, c, s, init);
    AnnouncingFoldGrows(pass, env, c, s, init);
    AnnouncingRowGrows(pass, env, c, before, last);
    if id == last {
      AnnouncingRowQuiets(pass, env, c, before, id);
    } else {
      AnnouncingFoldQuiets(pass, env, c, s, init, id);
      QuietLater(pass, c, before, RenewalRow(pass, env, c, before, last), id);
    }
  }

  lemma QuietLater(pass: RenewalPass, c: Clock, a: Store, b: Store, id: nat)
    requires id in a.renewals && id in b.renewals && Quiet(pass, c, a, id)
    requires Grown(c.UtcDay(), a, b) || ChurnedRows(a, b, OverdueIds(a, c.UtcDay()))
    ensures Quiet(pass, c, b, id)
  {
    hide Opening;
  }

  /** Every open renewal is quiet for the pass. */
  ghost predicate OpenQuiet(pass: RenewalPass, c: Clock, s: Store) {
    forall id :: id in s.renewals && s.renewals[id].status == Open ==> Quiet(pass, c, s, id)
  }

  lemma PassQuiets(pass: RenewalPass, env: Env, c: Clock, s: Store, rows: seq<nat>)
    requires pass != Churn && s.renewals.Keys <= s.issued && Returns(pass, c, s, rows) && RowsExist(s, rows)
    ensures OpenQuiet(pass, c, RenewalFold(pass, env, c, s, rows))
  {
    hide RenewalFold, Quiet, Grown;
    AnnouncingFoldGrows(pass, env, c, s, rows);
    forall id | id in s.renewals && s.renewals[id].status == Open
      ensures Quiet(pass, c, RenewalFold(pass, env, c, s, rows), id)
    {
      assert Selected(pass, c, s, id);
      AnnouncingFoldQuiets(pass, env, c, s, rows, id);
    }
  }

  lemma OpenQuietLater(pass: RenewalPass, c: Clock, a: Store, b: Store, s': Store)
    requires OpenQuiet(pass, c, a) && Grown(c.UtcDay(), a, b) && a.renewals == b.renewals
    requires ChurnedRows(b, s', OverdueIds(b, c.UtcDay()))
    ensures OpenQuiet(pass, c, s')
  {
    hide Quiet;
    forall id | id in s'.renewals && s'.renewals[id].status == Open ensures Quiet(pass, c, s', id) {
      assert a.renewals[id].status == Open;
      QuietLater(pass, c, a, b, id);
      QuietLater(pass, c, b, s', id);
    }
  }

  lemma {:induction false} QuietFoldIdle(pass: RenewalPass, env: Env, c: Clock, c': Clock, s: Store, rows: seq<nat>)
    requires OpenQuiet(pass, c, s) && SameInstant(c, c') && RowsExist(s, rows)
    requires forall i :: 0 <= i < |rows| ==> Selected(pass, c', s, rows[i])
    ensures RenewalFold(pass, env, c', s, rows) == s
    decreases |rows|
  {
    if rows != [] {
      var init, last := rows[..|rows| - 1], rows[|rows| - 1];
      assert forall i :: 0 <= i < |init| ==> init[i] == rows[i];
      QuietFoldIdle(pass, env, c, c', s, init);
      assert Selected(pass, c', s, last);
      assert Quiet(pass, c, s, last);
    }
  }

  // ---- a second tick ------------------------------------------------------------

  /** Nothing is left for a renewals tick at this instant. */
  ghost predicate Idle(c: Clock, s: Store) {
    && AllSettled(OpenAtLead, c, s, s.versions) && AllSettled(ShortAssessments, c, s, s.versions)
    && AllSettled(NoticeDates, c, s, s.versions)
    && OpenQuiet(Nudges, c, s) && OpenQuiet(Escalations, c, s) && OpenQuiet(Churn, c, s)
  }

  lemma TickSettlesVersions(env: Env, c: Clock, s: Store, t: Trace, s': Store, n: seq<nat>, e: seq<nat>, ch: seq<nat>)
    requires GoodEnv(env) && Sound(s) && c.Valid() && TickVia(env, c, s, t, s', n, e, ch)
    ensures s'.versions == s.versions && AllSettled(OpenAtLead, c, s', s.versions)
    ensures AllSettled(ShortAssessments, c, s', s.versions) && AllSettled(NoticeDates, c, s', s.versions)
  {
    hide GoodEnv, Sound, Opening, AllSettled, VersionFold, RenewalFold, Returns;
    var day := c.UtcDay();
    TickShape(env, c, s, t, s', n, e, ch);
    SoundKeys(s);
    FoldSettles(OpenAtLead, env, c, s, s.versions);
    GrownTrans(day, t.atLead, t.short, t.escalated);
    AllSettledLater(day, OpenAtLead, c, t.atLead, t.escalated, s', s.versions);
    FoldSettles(ShortAssessments, env, c, t.atLead, s.versions);
    AllSettledLater(day, ShortAssessments, c, t.short, t.escalated, s', s.versions);
    AnnouncingFoldGrows(Nudges, env, c, t.short, n);
    FoldSettles(NoticeDates, env, c, t.nudged, s.versions);
    VersionFoldGrows(NoticeDates, env, c, t.nudged, s.versions);
    AnnouncingFoldGrows(Escalations, env, c, t.noticed, e);
    AllSettledLater(day, NoticeDates, c, t.noticed, t.escalated, s', s.versions);
  }

  lemma TickQuietsRenewals(env: Env, c: Clock, s: Store, t: Trace, s': Store, n: seq<nat>, e: seq<nat>, ch: seq<nat>)
    requires GoodEnv(env) && Sound(s) && c.Valid() && TickVia(env, c, s, t, s', n, e, ch)
    ensures OpenQuiet(Nudges, c, s') && OpenQuiet(Escalations, c, s') && OpenQuiet(Churn, c, s')
  {
    hide GoodEnv, Sound, Opening, OpenQuiet, VersionFold, RenewalFold, Returns;
    var day := c.UtcDay();
    TickShape(env, c, s, t, s', n, e, ch);
    PassQuiets(Nudges, env, c, t.short, n);
    AnnouncingFoldGrows(Nudges, env, c, t.short, n);
    VersionFoldGrows(NoticeDates, env, c, t.nudged, s.versions);
    NoticeFoldKeepsRenewals(env, c, t.nudged, s.versions);
    PassQuiets(Escalations, env, c, t.noticed, e);
    AnnouncingFoldGrows(Escalations, env, c, t.noticed, e);
    GrownTrans(day, t.nudged, t.noticed, t.escalated);
    OpenQuietLater(Nudges, c, t.nudged, t.escalated, s');
    GrownRefl(day, t.escalated);
    OpenQuietLater(Escalations, c, t.escalated, t.escalated, s');
    ShapeFacts(c, s, t, s');
    NoneOverdueIsQuiet(c, s');
  }

  lemma NoneOverdueIsQuiet(c: Clock, s: Store)
    requires NoneOverdue(s, c.UtcDay())
    ensures OpenQuiet(Churn, c, s)
  {
  }

  lemma IdleTick(env: Env, c: Clock, c': Clock, s: Store, s': Store)
    requires Idle(c, s) && SameInstant(c, c') && RenewalsTick(env, c', s, s')
    ensures s' == s
  {
    hide AllSettled, OpenQuiet, VersionFold, RenewalFold;
    var t, n, e, ch :| TickVia(env, c', s, t, s', n, e, ch);
    SettledFoldIdle(OpenAtLead, env, c, c', s, s.versions);
    SettledFoldIdle(ShortAssessments, env, c, c', s, s.versions);
    QuietFoldIdle(Nudges, env, c, c', s, n);
    SettledFoldIdle(NoticeDates, env, c, c', s, s.versions);
    QuietFoldIdle(Escalations, env, c, c', s, e);
    QuietFoldIdle(Churn, env, c, c', s, ch);
  }

  /**
   A second renewals tick at the same instant changes nothing at all, although the first one may have
   opened and churned renewals that the passes read, and whatever the wall clock says by then.
   */
  lemma SecondTickChangesNothing(env: Env, env': Env, c: Clock, c': Clock, s: Store, s': Store, s'': Store)
    requires GoodEnv(env) && Sound(s) && c.Valid() && SameInstant(c, c')
    requires RenewalsTick(env, c, s, s') && RenewalsTick(env', c', s', s'')
    ensures s'' == s'
  {
    hide GoodEnv, Sound, TickVia, AllSettled, OpenQuiet;
    var t, n, e, ch :| TickVia(env, c, s, t, s', n, e, ch);
    TickSettlesVersions(env, c, s, t, s', n, e, ch);
    TickQuietsRenewals(env, c, s, t, s', n, e, ch);
    IdleTick(env', c, c', s', s'');
  }

  // ---- a tick that churns what it opened ----------------------------------------

  /**
   A renewal the tick opened ends it churned exactly when the UTC day is past its term end, which then is
   the business day, one day behind; a renewal opened by the short-assessment pass always stays open.
   */
  lemma ChurnedOnOpening(env: Env, c: Clock, s: Store, t: Trace, s': Store, n: seq<nat>, e: seq<nat>, ch: seq<nat>, id: nat)
    requires GoodEnv(env) && Sound(s) && c.Valid() && TickVia(env, c, s, t, s', n, e, ch)
    requires id in s'.renewals && id !in s.renewals
    ensures var r := s'.renewals[id];
      && (r.status == Open || r.status == RenewalStatus.Churned)
      && (r.status == RenewalStatus.Churned <==> c.businessDay <= r.termEnd < c.UtcDay())
      && (r.status == RenewalStatus.Churned ==> r.termEnd == c.businessDay == c.UtcDay() - 1)
      && (id !in t.atLead.renewals ==> r.status == Open)
  {
    hide Sound, GoodEnv, TickVia;
    TickShape(env, c, s, t, s', n, e, ch);
    if id in t.atLead.renewals {
      assert Opening(c.businessDay, s, t.atLead, id);
    } else {
      assert Opening(c.UtcDay(), t.atLead, t.short, id);
    }
  }

  /** A version the tick opens a renewal for on its last business day, when UTC is already past it. */
  predicate LastDayOpening(s: Store, v: Version, c: Clock) {
    && OpenDue(v, c) && v.termEnd.Some? && v.termEnd.value < c.UtcDay()
    && RenewalOpenLead(v.opp, v.termEnd.value) !in s.ledger && !Exists(s, v.opp, v.termEnd.value)
  }

  /** A version whose key is not yet recorded leaves a renewal row behind. */
  lemma {:induction false} OpenFoldOpens(env: Env, c: Clock, s: Store, vs: seq<Version>, opp: nat, termEnd: int)
    requires GoodEnv(env) && s.renewals.Keys <= s.issued
    requires RenewalOpenLead(opp, termEnd) !in s.ledger
    ensures var s' := VersionFold(OpenAtLead, env, c, s, vs);
      RenewalOpenLead(opp, termEnd) in s'.ledger ==> Exists(s', opp, termEnd)
    decreases |vs|
  {
    hide Grown, GoodEnv, VersionRow;
    if vs != [] {
      var init := VersionFold(OpenAtLead, env, c, s, vs[..|vs| - 1]);
      OpenFoldOpens(env, c, s, vs[..|vs| - 1], opp, termEnd);
      VersionFoldGrows(OpenAtLead, env, c, s, vs[..|vs| - 1]);
      GrownLedger(Floor(OpenAtLead, c), s, init);
      OpenRowKeysExist(env, c, init, vs[|vs| - 1], opp, termEnd);
    }
  }

  lemma OpenRowKeysExist(env: Env, c: Clock, s: Store, v: Version, opp: nat, termEnd: int)
    requires GoodEnv(env) && s.renewals.Keys <= s.issued
    requires RenewalOpenLead(opp, termEnd) in s.ledger ==> Exists(s, opp, termEnd)
    ensures var s' := VersionRow(OpenAtLead, env, c, s, v);
      RenewalOpenLead(opp, termEnd) in s'.ledger ==> Exists(s', opp, termEnd)
  {
    hide GoodEnv, Opening, FanOut;
    var s' := OpenRow(env, c, s, v);
    OpenRowGrows(env, c, s, v);
    if RenewalOpenLead(opp, termEnd) in s.ledger {
      ExistsGrows(c.businessDay, s, s', opp, termEnd);
    } else if RenewalOpenLead(opp, termEnd) in s'.ledger {
      var key := RenewalOpenLead(opp, termEnd);
      if Active(s, opp, termEnd) {
        var id :| id in s.renewals && IsOpenFor(s.renewals[id], opp, termEnd);
        assert IsFor(s'.renewals[id], opp, termEnd);
      } else {
        OpenRenewalGrows(env, Recorded(s, key), opp, termEnd, c.wall);
      }
    }
  }

  lemma ExistsGrows(floor: int, a: Store, b: Store, opp: nat, termEnd: int)
    requires Grown(floor, a, b) && Exists(a, opp, termEnd)
    ensures Exists(b, opp, termEnd)
  {
    var id :| id in a.renewals && IsFor(a.renewals[id], opp, termEnd);
    assert IsFor(b.renewals[id], opp, termEnd);
  }

  lemma GrownLedger(floor: int, a: Store, b: Store)
    requires Grown(floor, a, b)
    ensures a.ledger <= b.ledger && b.renewals.Keys <= b.issued
  {
  }

  /**
   A tick churns a renewal that it opened itself if and only if, when it starts, some confirmed version
   ends on the business day, UTC is already a day ahead, and neither key nor row exists for that term end.
   */
  lemma TickChurnsItsOwnIff(env: Env, c: Clock, s: Store, s': Store)
    requires GoodEnv(env) && Sound(s) && c.Valid() && RenewalsTick(env, c, s, s')
    ensures (exists id :: id in s'.renewals && id !in s.renewals && s'.renewals[id].status == RenewalStatus.Churned)
       <==> (exists v :: v in s.versions && LastDayOpening(s, v, c))
  {
    hide Sound, GoodEnv, TickVia, Shape, LastDayOpening;
    var t, n, e, ch :| TickVia(env, c, s, t, s', n, e, ch);
    TickShape(env, c, s, t, s', n, e, ch);
    TickStart(env, c, s, t, s', n, e, ch);
    forall id | id in s'.renewals && id !in s.renewals && s'.renewals[id].status == RenewalStatus.Churned
      ensures exists v :: v in s.versions && LastDayOpening(s, v, c)
    {
      OwnChurnHasVersion(env, c, s, t, s', n, e, ch, id);
    }
    forall v | v in s.versions && LastDayOpening(s, v, c)
      ensures exists id :: id in s'.renewals && id !in s.renewals && s'.renewals[id].status == RenewalStatus.Churned
    {
      LastDayChurns(env, c, s, t, s', v);
    }
  }

  lemma OwnChurnHasVersion(env: Env, c: Clock, s: Store, t: Trace, s': Store, n: seq<nat>, e: seq<nat>, ch: seq<nat>, id: nat)
    requires GoodEnv(env) && Sound(s) && c.Valid() && TickVia(env, c, s, t, s', n, e, ch)
    requires id in s'.renewals && id !in s.renewals && s'.renewals[id].status == RenewalStatus.Churned
    ensures exists v :: v in s.versions && LastDayOpening(s, v, c)
  {
    hide GoodEnv, TickVia, Shape, OpenDue, Exists, VersionFold;
    TickShape(env, c, s, t, s', n, e, ch);
    TickStart(env, c, s, t, s', n, e, ch);
    ChurnedOnOpening(env, c, s, t, s', n, e, ch, id);
    LaterRowsSame(c, s, t, s', id);
    NewRowHasVersion(env, c, s, s.versions, id);
    var r := t.atLead.renewals[id];
    var v :| v in s.versions && OpenDue(v, c) && v.termEnd == Some(r.termEnd) && v.opp == r.opp
        && RenewalOpenLead(v.opp, v.termEnd.value) !in s.ledger && !Exists(s, v.opp, v.termEnd.value);
    assert LastDayOpening(s, v, c);
  }

  lemma TickStart(env: Env, c: Clock, s: Store, t: Trace, s': Store, n: seq<nat>, e: seq<nat>, ch: seq<nat>)
    requires TickVia(env, c, s, t, s', n, e, ch)
    ensures t.atLead == VersionFold(OpenAtLead, env, c, s, s.versions)
  {
    hide VersionFold, RenewalFold, Returns;
  }

  lemma LaterRowsSame(c: Clock, s: Store, t: Trace, s': Store, id: nat)
    requires Shape(c, s, t, s') && id in t.atLead.renewals
    ensures id in s'.renewals && SamePair(s'.renewals[id], t.atLead.renewals[id])
  {
    hide Opening, Sound;
  }

  /** A row the first pass added is for a due version whose key and row were both missing. */
  lemma {:induction false} NewRowHasVersion(env: Env, c: Clock, s: Store, vs: seq<Version>, id: nat)
    requires GoodEnv(env) && s.renewals.Keys <= s.issued
    requires id in VersionFold(OpenAtLead, env, c, s, vs).renewals && id !in s.renewals
    ensures var r := VersionFold(OpenAtLead, env, c, s, vs).renewals[id];
      exists v :: v in vs && OpenDue(v, c) && v.termEnd == Some(r.termEnd) && v.opp == r.opp
        && RenewalOpenLead(v.opp, v.termEnd.value) !in s.ledger && !Exists(s, v.opp, v.termEnd.value)
    decreases |vs|
  {
    hide GoodEnv, Opening, OpenDue, VersionRow, Exists;
    assert vs != [];
    var init, last := vs[..|vs| - 1], vs[|vs| - 1];
    assert vs == init + [last];
    var before := VersionFold(OpenAtLead, env, c, s, init);
    VersionFoldGrows(OpenAtLead, env, c, s, init);
    VersionRowGrows(OpenAtLead, env, c, before, last);
    if id in before.renewals {
      NewRowHasVersion(env, c, s, init, id);
    } else {
      NewRowFromVersion(env, c, before, last, id);
      var r := VersionFold(OpenAtLead, env, c, s, vs).renewals[id];
      if Exists(s, r.opp, r.termEnd) { ExistsGrows(c.businessDay, s, before, r.opp, r.termEnd); }
    }
  }

  lemma NewRowFromVersion(env: Env, c: Clock, s: Store, v: Version, id: nat)
    requires id in VersionRow(OpenAtLead, env, c, s, v).renewals && id !in s.renewals
    ensures var r := VersionRow(OpenAtLead, env, c, s, v).renewals[id];
      && OpenDue(v, c) && v.termEnd == Some(r.termEnd) && v.opp == r.opp
      && RenewalOpenLead(v.opp, v.termEnd.value) !in s.ledger && !Exists(s, v.opp, v.termEnd.value)
  {
    hide FanOut, OwnerOf;
  }

  lemma LastDayChurns(env: Env, c: Clock, s: Store, t: Trace, s': Store, v: Version)
    requires GoodEnv(env) && Sound(s) && Shape(c, s, t, s') && v in s.versions && LastDayOpening(s, v, c)
    requires t.atLead == VersionFold(OpenAtLead, env, c, s, s.versions)
    ensures exists id :: id in s'.renewals && id !in s.renewals && s'.renewals[id].status == RenewalStatus.Churned
  {
    hide GoodEnv, Opening, VersionFold;
    FoldSettles(OpenAtLead, env, c, s, s.versions);
    assert Settled(OpenAtLead, c, t.atLead, v);
    OpenFoldOpens(env, c, s, s.versions, v.opp, v.termEnd.value);
    var id :| id in t.atLead.renewals && IsFor(t.atLead.renewals[id], v.opp, v.termEnd.value);
    assert forall i :: i in s.renewals ==> !IsFor(s.renewals[i], v.opp, v.termEnd.value);
    assert Opening(c.businessDay, s, t.atLead, id);
    OpeningIsOpen(c.businessDay, s, t.atLead, id);
    assert t.escalated.renewals[id] == t.atLead.renewals[id];
    assert id in OverdueIds(t.escalated, c.UtcDay());
    assert s'.renewals[id] == Churned(t.escalated.renewals[id]);
  }

  lemma OpeningIsOpen(floor: int, a: Store, b: Store, id: nat)
    requires id in b.renewals && Opening(floor, a, b, id)
    ensures b.renewals[id].status == Open
  {
  }

  // ---- the portfolio tick -------------------------------------------------------

  lemma EngagementRowGrows(env: Env, today: int, wall: int, s: Store, e: Engagement)
    requires GoodEnv(env) && s.renewals.Keys <= s.issued
    ensures Grown(today, s, EngagementRow(env, today, wall, s, e))
  {
    hide FanOut, Grown, GoodEnv, OpenRenewal;
    GrownRefl(today, s);
    if EngagementDue(e, today) {
      if e.opp.Some? && e.opp.value in s.owners {
        OpenRenewalGrows(env, s, e.opp.value, e.end, wall);
        GrownLower(e.end, today, s, OpenRenewal(env, s, e.opp.value, e.end, wall));
      } else {
        OnlyAnnounces(today, s, ReviewRow(env, s, e), PortfolioRenewal(e.id, e.end));
      }
    }
  }

  /** The engagement's item exists: its renewal row, or the key of its review task. */
  ghost predicate Covered(today: int, s: Store, e: Engagement) {
    EngagementDue(e, today) ==>
      if e.opp.Some? && e.opp.value in s.owners then Exists(s, e.opp.value, e.end)
      else PortfolioRenewal(e.id, e.end) in s.ledger
  }

  lemma EngagementRowCovers(env: Env, today: int, wall: int, s: Store, e: Engagement)
    requires GoodEnv(env) && s.renewals.Keys <= s.issued
    ensures Covered(today, EngagementRow(env, today, wall, s, e), e)
  {
    hide FanOut, GoodEnv;
    if EngagementDue(e, today) && e.opp.Some? && e.opp.value in s.owners {
      OpenRenewalGrows(env, s, e.opp.value, e.end, wall);
    }
  }

  lemma CoveredGrows(floor: int, today: int, a: Store, b: Store, e: Engagement)
    requires Grown(floor, a, b) && Covered(today, a, e)
    ensures Covered(today, b, e)
  {
    hide Exists;
    if EngagementDue(e, today) && e.opp.Some? && e.opp.value in a.owners { ExistsGrows(floor, a, b, e.opp.value, e.end); }
  }

  lemma {:induction false} EngagementFoldCovers(env: Env, today: int, wall: int, s: Store, es: seq<Engagement>)
    requires GoodEnv(env) && s.renewals.Keys <= s.issued
    ensures Grown(today, s, EngagementFold(env, today, wall, s, es))
    ensures forall e :: e in es ==> Covered(today, EngagementFold(env, today, wall, s, es), e)
    decreases |es|
  {
    hide GoodEnv, Opening, EngagementRow, Covered;
    if es == [] {
      GrownRefl(today, s);
    } else {
      var init, last := es[..|es| - 1], es[|es| - 1];
      assert es == init + [last];
      var before := EngagementFold(env, today, wall, s, init);
      EngagementFoldCovers(env, today, wall, s, init);
      EngagementRowGrows(env, today, wall, before, last);
      EngagementRowCovers(env, today, wall, before, last);
      var after := EngagementRow(env, today, wall, before, last);
      GrownTrans(today, s, before, after);
      forall e | e in init ensures Covered(today, after, e) { CoveredGrows(today, today, before, after, e); }
    }
  }

  ghost predicate Told(forecast: Forecast, es: seq<Engagement>, today: int, s: Store, owner: nat) {
    Finding(forecast, GroupOf(es, today, owner)) ==> PortfolioNightly(owner, today) in s.ledger
  }

  lemma {:induction false} DigestFoldTells(forecast: Forecast, es: seq<Engagement>, today: int, s: Store, owners: seq<nat>)
    requires s.renewals.Keys <= s.issued
    ensures Grown(today, s, DigestFold(forecast, es, today, s, owners))
    ensures forall o :: o in owners ==> Told(forecast, es, today, DigestFold(forecast, es, today, s, owners), o)
    decreases |owners|
  {
    hide Grown, FanOut, GroupOf;
    if owners == [] {
      GrownRefl(today, s);
    } else {
      var init, last := owners[..|owners| - 1], owners[|owners| - 1];
      assert owners == init + [last];
      var before := DigestFold(forecast, es, today, s, init);
      DigestFoldTells(forecast, es, today, s, init);
      GrownLedger(today, s, before);
      var after := DigestRow(forecast, es, today, before, last);
      OnlyAnnounces(today, before, after, PortfolioNightly(last, today));
      GrownTrans(today, s, before, after);
      forall o | o in init ensures Told(forecast, es, today, after, o) {
        assert Told(forecast, es, today, before, o);
      }
    }
  }

  /** Everything the portfolio tick can still do today is done. */
  ghost predicate NightDone(forecast: Forecast, today: int, s: Store) {
    && (forall e :: e in s.engagements ==> Covered(today, s, e))
    && forall es :: Lists(es, s) ==> forall o :: o in OwnersIn(es, today) ==> Told(forecast, es, today, s, o)
  }

  lemma ListsMembers(listed: seq<Engagement>, s: Store)
    requires Lists(listed, s)
    ensures forall e :: e in listed <==> e in s.engagements
  {
    forall e ensures e in listed <==> e in s.engagements {
      assert e in multiset(listed) <==> e in multiset(s.engagements);
    }
  }

  /** Owners and findings do not depend on the order of the listing. */
  lemma OrderIsNothing(forecast: Forecast, a: seq<Engagement>, b: seq<Engagement>, today: int, owner: nat)
    requires forall e :: e in a <==> e in b
    ensures owner in OwnersIn(a, today) <==> owner in OwnersIn(b, today)
    ensures Finding(forecast, GroupOf(a, today, owner)) == Finding(forecast, GroupOf(b, today, owner))
  {
    var g, h := GroupOf(a, today, owner), GroupOf(b, today, owner);
    assert forall e :: e in g <==> e in h;
    assert (set e | e in g :: e.id) == (set e | e in h :: e.id);
  }

  /**
   A portfolio tick opens rows for running engagements only, never a second one for a term end, and churns
   none; afterwards every stored engagement that is due has its item, and every owner with findings was told.
   */
  lemma PortfolioTickGrows(env: Env, forecast: Forecast, today: int, wall: int, byEnd: seq<Engagement>, byName: seq<Engagement>, s: Store)
    requires GoodEnv(env) && Sound(s) && Lists(byEnd, s) && Lists(byName, s)
    ensures var s' := PortfolioTick(env, forecast, today, wall, byEnd, byName, s);
      Grown(today, s, s') && Sound(s') && AddsNoDuplicate(s, s') && NightDone(forecast, today, s')
  {
    hide GoodEnv, Grown, AddsNoDuplicate, EngagementFold, DigestFold, Covered, OwnersIn, Finding, GroupOf;
    var mid := EngagementFold(env, today, wall, s, byEnd);
    var s' := DigestFold(forecast, byName, today, mid, OwnersIn(byName, today));
    EngagementFoldCovers(env, today, wall, s, byEnd);
    GrownLedger(today, s, mid);
    DigestFoldTells(forecast, byName, today, mid, OwnersIn(byName, today));
    GrownTrans(today, s, mid, s');
    GrownSound(today, s, s');
    NoDuplicate(today, s, s');
    GrownTables(today, s, s');
    ListsMembers(byEnd, s);
    ListsMembers(byName, s);
    forall e | e in s'.engagements ensures Covered(today, s', e) { CoveredGrows(today, today, mid, s', e); }
    forall es, o | Lists(es, s') && o in OwnersIn(es, today) ensures Told(forecast, es, today, s', o) {
      ListsMembers(es, s');
      OrderIsNothing(forecast, es, byName, today, o);
      assert Told(forecast, byName, today, s', o);
    }
  }

  lemma GrownTables(floor: int, a: Store, b: Store)
    requires Grown(floor, a, b)
    ensures b.engagements == a.engagements
  {
  }

  lemma {:induction false} CoveredFoldIdle(env: Env, today: int, wall: int, s: Store, es: seq<Engagement>)
    requires forall e :: e in es ==> Covered(today, s, e)
    ensures EngagementFold(env, today, wall, s, es) == s
    decreases |es|
  {
    hide FanOut, Exists;
    if es != [] {
      var init, last := es[..|es| - 1], es[|es| - 1];
      assert es == init + [last];
      CoveredFoldIdle(env, today, wall, s, init);
      assert Covered(today, s, last);
    }
  }

  lemma {:induction false} ToldFoldIdle(forecast: Forecast, es: seq<Engagement>, today: int, s: Store, owners: seq<nat>)
    requires forall o :: o in owners ==> Told(forecast, es, today, s, o)
    ensures DigestFold(forecast, es, today, s, owners) == s
    decreases |owners|
  {
    hide FanOut, GroupOf, Finding;
    if owners != [] {
      var init, last := owners[..|owners| - 1], owners[|owners| - 1];
      assert owners == init + [last];
      ToldFoldIdle(forecast, es, today, s, init);
      assert Told(forecast, es, today, s, last);
    }
  }

  /**
   A second portfolio tick on the same day changes nothing, in whatever order its queries list the
   engagements this time.
   */
  lemma SecondPortfolioTickChangesNothing(
      env: Env, env': Env, forecast: Forecast, today: int, wall: int, wall': int, byEnd: seq<Engagement>,
      byName: seq<Engagement>, byEnd': seq<Engagement>, byName': seq<Engagement>, s: Store)
    requires GoodEnv(env) && Sound(s) && Lists(byEnd, s) && Lists(byName, s) && Lists(byEnd', s) && Lists(byName', s)
    ensures var s' := PortfolioTick(env, forecast, today, wall, byEnd, byName, s);
      PortfolioTick(env', forecast, today, wall', byEnd', byName', s') == s'
  {
    hide GoodEnv, Sound, Grown, AddsNoDuplicate, EngagementFold, DigestFold, Covered, OwnersIn, Told;
    PortfolioTickGrows(env, forecast, today, wall, byEnd, byName, s);
    var s' := PortfolioTick(env, forecast, today, wall, byEnd, byName, s);
    GrownTables(today, s, s');
    ListsMembers(byEnd', s');
    CoveredFoldIdle(env', today, wall', s', byEnd');
    assert Lists(byName', s');
    ToldFoldIdle(forecast, byName', today, s', OwnersIn(byName', today));
  }

  // ---- a tick that churns what it opens, at a concrete store ---------------------

  /** The first identifier from `n` on that is not in `ids`. */
  function NextFrom(ids: set<nat>, n: nat): (id: nat)
    ensures n <= id && id !in ids
    decreases ids
  {
    if n !in ids then n else NextFrom(ids - {n}, n + 1)
  }

  /** Identifiers counted up, and nobody to notify. */
  function PlainEnv(): Env { Env((ids: set<nat>) => NextFrom(ids, 0), None, None, {}) }

  lemma PlainEnvGood()
    ensures GoodEnv(PlainEnv())
  {
    forall ids: set<nat> ensures PlainEnv().mint(ids) !in ids { assert PlainEnv().mint(ids) == NextFrom(ids, 0); }
  }

  lemma {:induction false} Enumerate(ids: set<nat>) returns (rows: seq<nat>)
    ensures forall x :: x in rows <==> x in ids
    ensures forall i, j :: 0 <= i < j < |rows| ==> rows[i] != rows[j]
    decreases ids
  {
    if ids == {} {
      rows := [];
    } else {
      var x :| x in ids;
      rows := Enumerate(ids - {x});
      rows := rows + [x];
    }
  }

  lemma SomeRows(pass: RenewalPass, c: Clock, s: Store) returns (rows: seq<nat>)
    ensures Returns(pass, c, s, rows) && RowsExist(s, rows)
  {
    rows := Enumerate(set id | id in s.renewals && Selected(pass, c, s, id));
    assert forall i :: 0 <= i < |rows| ==> rows[i] in rows;
  }

  /** A renewals tick can always run. */
  lemma SomeTick(env: Env, c: Clock, s: Store) returns (s': Store)
    ensures RenewalsTick(env, c, s, s')
  {
    hide VersionFold, RenewalFold, Returns, RowsExist;
    var s1 := VersionFold(OpenAtLead, env, c, s, s.versions);
    var s2 := VersionFold(ShortAssessments, env, c, s1, s.versions);
    var n := SomeRows(Nudges, c, s2);
    var s3 := RenewalFold(Nudges, env, c, s2, n);
    var s4 := VersionFold(NoticeDates, env, c, s3, s.versions);
    var e := SomeRows(Escalations, c, s4);
    var s5 := RenewalFold(Escalations, env, c, s4, e);
    var ch := SomeRows(Churn, c, s5);
    s' := RenewalFold(Churn, env, c, s5, ch);
    assert TickVia(env, c, s, Trace(s1, s2, s3, s4, s5), s', n, e, ch);
  }

  /** A version that ends on business day 100, ticked when UTC is already at day 101. */
  lemma OwnOpeningIsChurned() returns (s: Store, s': Store, id: nat)
    ensures var c := Clock(101 * DAY_MICROS, 0, 100); c.Valid() && RenewalsTick(PlainEnv(), c, s, s')
    ensures s.renewals == map[] && s.versions == [Version(0, 7, None, Some(100), None, 30)]
    ensures id in s'.renewals && s'.renewals[id].status == RenewalStatus.Churned && s'.renewals[id].termEnd == 100
  {
    hide PlainEnv, RenewalsTick, AlertDate;
    var c, v := Clock(101 * DAY_MICROS, 0, 100), Version(0, 7, None, Some(100), None, 30);
    s := Store(map[], {}, {}, [], multiset{}, [v], [], map[]);
    PlainEnvGood();
    AlertLead(100);
    assert c.UtcDay() == 101;
    s' := SomeTick(PlainEnv(), c, s);
    assert v in s.versions && LastDayOpening(s, v, c);
    TickChurnsItsOwnIff(PlainEnv(), c, s, s');
    id :| id in s'.renewals && id !in s.renewals && s'.renewals[id].status == RenewalStatus.Churned;
    NewChurnEnds(PlainEnv(), c, s, s', id);
  }

  lemma NewChurnEnds(env: Env, c: Clock, s: Store, s': Store, id: nat)
    requires GoodEnv(env) && Sound(s) && c.Valid() && RenewalsTick(env, c, s, s')
    requires id in s'.renewals && id !in s.renewals && s'.renewals[id].status == RenewalStatus.Churned
    ensures s'.renewals[id].termEnd == c.businessDay
  {
    hide GoodEnv, Sound, TickVia;
    var t, n, e, ch :| TickVia(env, c, s, t, s', n, e, ch);
    ChurnedOnOpening(env, c, s, t, s', n, e, ch, id);
  }
}
