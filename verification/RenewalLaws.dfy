/**
 One tick of the renewals scheduler from the outside: which triggers it records and which renewals it opens
 and churns, read off the confirmed versions, the rows and the calendar.
 */
module RenewalLaws {
  import opened Text
  import opened Calendar
  import opened CalendarLaws
  import opened Ledger
  import opened RenewalModel
  import opened RenewalScheduler
  import opened RenewalTick

  // ---- when a trigger is due ----------------------------------------------------

  /** The UTC day of the tick. */
  ghost function Today(c: Clock): int { c.now / 86_400_000_000 }

  /** From the day two calendar months before the term end, clamped, up to the term end itself. */
  ghost predicate ReviewTime(day: int, termEnd: int) {
    1 <= day && 1 <= termEnd && day <= termEnd && WithinTwoMonths(day, termEnd)
  }

  ghost predicate UpForReview(v: Version, day: int) { v.termEnd.Some? && ReviewTime(day, v.termEnd.value) }

  /** At most 28 days long, confirmed at most 60 days before its end, not over yet. */
  ghost predicate IsShort(v: Version, today: int) {
    && v.termStart.Some? && v.termEnd.Some? && 1 <= v.termEnd.value - v.termStart.value <= 28
    && v.termEnd.value - v.confirmedDay <= 60 && today <= v.termEnd.value
  }

  /** More than 60 days of notice, and 60 days before the notice date have come. */
  ghost predicate NearNotice(v: Version, today: int) {
    v.termEnd.Some? && v.notice.Some? && v.notice.value + 60 < v.termEnd.value && v.notice.value - 60 <= today
  }

  ghost predicate VersionKey(pass: VersionPass, c: Clock, v: Version, key: Key) {
    match pass
    case OpenAtLead => UpForReview(v, c.businessDay) && key == RenewalOpenLead(v.opp, v.termEnd.value)
    case ShortAssessments => IsShort(v, Today(c)) && key == ShortAssessment(v.id, v.termEnd.value)
    case NoticeDates => NearNotice(v, Today(c)) && key == NoticeTask(v.opp, v.notice.value)
  }

  /** Seven days without an update; 30 days left for level 1 and 14 for level 2; past the term end. */
  ghost predicate RowKey(pass: RenewalPass, c: Clock, id: nat, r: Renewal, key: Key) {
    match pass
    case Nudges => c.now - r.lastUpdate >= 604_800_000_000 && key == RenewalNudge(id, Today(c))
    case Escalations =>
      || (r.termEnd - Today(c) == 30 && key == RenewalEscalation(id, 1))
      || (r.termEnd - Today(c) == 14 && key == RenewalEscalation(id, 2))
    case Churn => r.termEnd < Today(c) && key == RenewalChurn(id, r.termEnd)
  }

  // ---- keys of the passes over versions -----------------------------------------

  lemma ReviewTimeIs(day: int, termEnd: int)
    requires 1 <= day
    ensures ReviewTime(day, termEnd) <==> 1 <= termEnd && AlertDate(termEnd) <= day <= termEnd
  {
    hide AlertDate, WithinTwoMonths;
    if 1 <= termEnd { AlertDateIsFirst(day, termEnd); }
  }

  /** The version has the key, and for a short assessment no renewal is open for its term end. */
  ghost predicate Calls(pass: VersionPass, c: Clock, s: Store, v: Version, key: Key) {
    VersionKey(pass, c, v, key) && (pass == ShortAssessments ==> !Active(s, v.opp, v.termEnd.value))
  }

  lemma VersionRowKeys(pass: VersionPass, env: Env, c: Clock, s: Store, v: Version, key: Key)
    requires 1 <= c.businessDay
    ensures var s' := VersionRow(pass, env, c, s, v); key in s'.ledger <==> key in s.ledger || Calls(pass, c, s, v, key)
  {
    hide FanOut, Exists, Active, AlertDate, ReviewTime, OwnerOf;
    if v.termEnd.Some? { ReviewTimeIs(c.businessDay, v.termEnd.value); }
  }

  lemma CalledBefore(floor: int, pass: VersionPass, c: Clock, a: Store, b: Store, v: Version, key: Key)
    requires Grown(floor, a, b) && Calls(pass, c, b, v, key)
    ensures Calls(pass, c, a, v, key)
  {
    hide Active, Grown;
    if pass == ShortAssessments && Active(a, v.opp, v.termEnd.value) { ActiveGrows(floor, a, b, v.opp, v.termEnd.value); }
  }

  /** A pass records keys that versions call for, and all of them when renewals do not matter. */
  lemma {:induction false} VersionFoldKeys(pass: VersionPass, env: Env, c: Clock, s: Store, vs: seq<Version>, key: Key)
    requires GoodEnv(env) && s.renewals.Keys <= s.issued && 1 <= c.businessDay
    ensures var s' := VersionFold(pass, env, c, s, vs);
      && (key in s'.ledger ==> key in s.ledger || exists v :: v in vs && Calls(pass, c, s, v, key))
      && (key in s.ledger || (pass != ShortAssessments && exists v :: v in vs && VersionKey(pass, c, v, key)) ==> key in s'.ledger)
    decreases |vs|
  {
    hide GoodEnv, VersionRow, VersionKey, Active, Grown;
    if vs != [] {
      var init, last := vs[..|vs| - 1], vs[|vs| - 1];
      assert vs == init + [last];
      var before := VersionFold(pass, env, c, s, init);
      VersionFoldKeys(pass, env, c, s, init, key);
      VersionFoldGrows(pass, env, c, s, init);
      VersionRowKeys(pass, env, c, before, last, key);
      if Calls(pass, c, before, last, key) { CalledBefore(Floor(pass, c), pass, c, s, before, last, key); }
    }
  }

  /** A version is counted as skipped exactly when it calls for a key that is there already. */
  lemma VersionSkipIs(pass: VersionPass, c: Clock, s: Store, v: Version)
    requires 1 <= c.businessDay
    ensures VersionSkips(pass, c, s, v) <==> exists key :: Calls(pass, c, s, v, key) && key in s.ledger
  {
    hide AlertDate, ReviewTime, Active;
    if v.termEnd.Some? { ReviewTimeIs(c.businessDay, v.termEnd.value); }
    if VersionSkips(pass, c, s, v) {
      var key := match pass
        case OpenAtLead => RenewalOpenLead(v.opp, v.termEnd.value)
        case ShortAssessments => ShortAssessment(v.id, v.termEnd.value)
        case NoticeDates => NoticeTask(v.opp, v.notice.value);
      assert Calls(pass, c, s, v, key);
    }
  }

  /** The same for the renewals a pass selects. */
  lemma RenewalSkipIs(pass: RenewalPass, c: Clock, s: Store, id: nat)
    requires Selected(pass, c, s, id)
    ensures RenewalSkips(pass, c, s, id) <==> exists key :: RowKey(pass, c, id, s.renewals[id], key) && key in s.ledger
  {
    var r := s.renewals[id];
    if RenewalSkips(pass, c, s, id) {
      var key := match pass
        case Nudges => RenewalNudge(id, c.UtcDay())
        case Escalations => RenewalEscalation(id, if r.termEnd - c.UtcDay() == 30 then 1 else 2)
        case Churn => RenewalChurn(id, r.termEnd);
      assert RowKey(pass, c, id, r, key);
    }
  }

  // ---- keys of the passes over renewals -----------------------------------------

  lemma RenewalRowKeys(pass: RenewalPass, env: Env, c: Clock, s: Store, id: nat, key: Key)
    requires pass != Churn && id in s.renewals
    ensures key in RenewalRow(pass, env, c, s, id).ledger <==> key in s.ledger || RowKey(pass, c, id, s.renewals[id], key)
  {
    hide FanOut, OwnerOf;
  }

  lemma {:induction false} RenewalFoldKeys(pass: RenewalPass, env: Env, c: Clock, s: Store, rows: seq<nat>, key: Key)
    requires pass != Churn && s.renewals.Keys <= s.issued && RowsExist(s, rows)
    ensures key in RenewalFold(pass, env, c, s, rows).ledger <==>
      key in s.ledger || exists id :: id in rows && id in s.renewals && RowKey(pass, c, id, s.renewals[id], key)
    decreases |rows|
  {
    hide RenewalRow, RowKey, Grown;
    if rows != [] {
      var init, last := rows[..|rows| - 1], rows[|rows| - 1];
      assert rows == init + [last];
      RenewalFoldKeys(pass, env, c, s, init, key);
      AnnouncingFoldGrows(pass, env, c, s, init);
      RenewalRowKeys(pass, env, c, RenewalFold(pass, env, c, s, init), last, key);
    }
  }

  /** Some open renewal has the key. */
  ghost predicate OpenRowHasKey(pass: RenewalPass, c: Clock, s: Store, key: Key) {
    exists id :: id in s.renewals && s.renewals[id].status == Open && RowKey(pass, c, id, s.renewals[id], key)
  }

  lemma PassKeys(pass: RenewalPass, env: Env, c: Clock, s: Store, rows: seq<nat>, key: Key)
    requires pass != Churn && s.renewals.Keys <= s.issued && RowsExist(s, rows) && Returns(pass, c, s, rows)
    ensures key in RenewalFold(pass, env, c, s, rows).ledger <==>
      key in s.ledger || OpenRowHasKey(pass, c, s, key)
  {
    hide RowKey, RenewalFold;
    RenewalFoldKeys(pass, env, c, s, rows, key);
    forall id ensures id in rows <==> id in s.renewals && s.renewals[id].status == Open {
      assert Selected(pass, c, s, id) <==> id in s.renewals && s.renewals[id].status == Open;
      if id in rows {
        var i :| 0 <= i < |rows| && rows[i] == id;
        assert Selected(pass, c, s, rows[i]);
      }
    }
  }

  // ---- the tick -----------------------------------------------------------------

  /** Open as the tick starts, or opened by it. */
  ghost predicate WasOpen(s: Store, id: nat) { id in s.renewals ==> s.renewals[id].status == Open }

  /** The tick recorded the key. */
  ghost predicate Fired(s: Store, s': Store, key: Key) { key in s'.ledger && key !in s.ledger }

  ghost predicate VersionHasKey(pass: VersionPass, c: Clock, s: Store, key: Key) {
    exists v :: v in s.versions && VersionKey(pass, c, v, key)
  }

  /** Some renewal that was open, or was opened now, has the key. */
  ghost predicate RowHasKey(pass: RenewalPass, c: Clock, s: Store, s': Store, key: Key) {
    exists id :: id in s'.renewals && WasOpen(s, id) && RowKey(pass, c, id, s'.renewals[id], key)
  }

  /** The trigger is due. */
  ghost predicate IsDue(c: Clock, s: Store, s': Store, key: Key) {
    || VersionHasKey(OpenAtLead, c, s, key) || VersionHasKey(NoticeDates, c, s, key)
    || RowHasKey(Nudges, c, s, s', key) || RowHasKey(Escalations, c, s, s', key) || RowHasKey(Churn, c, s, s', key)
  }

  lemma OpenRows(c: Clock, s: Store, t: Trace, s': Store, id: nat)
    requires Sound(s) && Shape(c, s, t, s') && c.Valid()
    ensures id in t.short.renewals <==> id in s'.renewals
    ensures id in s'.renewals ==> (t.short.renewals[id].status == Open <==> WasOpen(s, id))
    ensures id in s'.renewals ==>
      s'.renewals[id] == t.short.renewals[id] || s'.renewals[id] == t.short.renewals[id].(status := RenewalStatus.Churned)
  {
    hide Sound, Opening;
    GrownLower(c.UtcDay(), c.businessDay, t.atLead, t.short);
    GrownTrans(c.businessDay, s, t.atLead, t.short);
    if id in t.short.renewals && id !in s.renewals {
      assert Opening(c.businessDay, s, t.short, id);
      OpeningIsOpen(c.businessDay, s, t.short, id);
    }
  }

  /** The rows that were open, as a pass finds them and as the tick leaves them. */
  lemma RowKeysLater(pass: RenewalPass, c: Clock, s: Store, t: Trace, s': Store, key: Key)
    requires Sound(s) && Shape(c, s, t, s') && c.Valid()
    ensures OpenRowHasKey(pass, c, t.short, key) <==> RowHasKey(pass, c, s, s', key)
  {
    hide Sound, Shape, WasOpen;
    forall id
      ensures id in t.short.renewals && t.short.renewals[id].status == Open && RowKey(pass, c, id, t.short.renewals[id], key)
         <==> id in s'.renewals && WasOpen(s, id) && RowKey(pass, c, id, s'.renewals[id], key)
    {
      OpenRows(c, s, t, s', id);
    }
  }

  lemma ChurnKeys(c: Clock, s: Store, t: Trace, s': Store, key: Key)
    requires Sound(s) && Shape(c, s, t, s') && c.Valid()
    ensures key in s'.ledger <==> key in t.escalated.ledger || OpenRowHasKey(Churn, c, t.short, key)
  {
    hide Sound, Grown;
    if key.RenewalChurn? && key in s'.ledger && key !in t.escalated.ledger {
      assert RowKey(Churn, c, key.renewal, t.short.renewals[key.renewal], key);
    }
    forall id | id in t.short.renewals && t.short.renewals[id].status == Open && RowKey(Churn, c, id, t.short.renewals[id], key)
      ensures key in s'.ledger
    {
      assert id in OverdueIds(t.escalated, c.UtcDay());
    }
  }

  lemma AnnouncedKeys(env: Env, c: Clock, s: Store, t: Trace, s': Store, n: seq<nat>, e: seq<nat>, ch: seq<nat>, key: Key)
    requires GoodEnv(env) && Sound(s) && c.Valid() && 1 <= c.businessDay && TickVia(env, c, s, t, s', n, e, ch)
    ensures key in t.escalated.ledger <==>
      || key in t.short.ledger || VersionHasKey(NoticeDates, c, s, key)
      || OpenRowHasKey(Nudges, c, t.short, key) || OpenRowHasKey(Escalations, c, t.short, key)
  {
    hide GoodEnv, Sound, Grown, VersionFold, RenewalFold, Returns, RowKey, VersionKey;
    TickShape(env, c, s, t, s', n, e, ch);
    ShortIssued(c, s, t, s');
    AnnouncingFoldGrows(Nudges, env, c, t.short, n);
    PassKeys(Nudges, env, c, t.short, n, key);
    VersionFoldKeys(NoticeDates, env, c, t.nudged, s.versions, key);
    NoticeFoldKeepsRenewals(env, c, t.nudged, s.versions);
    PassKeys(Escalations, env, c, t.noticed, e, key);
    forall v | Calls(NoticeDates, c, t.nudged, v, key) ensures VersionKey(NoticeDates, c, v, key) {}
  }

  lemma ShortIssued(c: Clock, s: Store, t: Trace, s': Store)
    requires Sound(s) && Shape(c, s, t, s')
    ensures s.renewals.Keys <= s.issued && t.atLead.renewals.Keys <= t.atLead.issued && t.short.renewals.Keys <= t.short.issued
    ensures t.atLead.ledger <= t.short.ledger
  {
    hide Opening;
  }

  /**
   A committed tick records exactly the triggers that are due. A short assessment is recorded only when its
   version is one and no renewal was open for its term end.
   */
  lemma TickRecordsExactly(env: Env, c: Clock, s: Store, s': Store, key: Key)
    requires GoodEnv(env) && Sound(s) && c.Valid() && 1 <= c.businessDay && RenewalsTick(env, c, s, s')
    ensures !key.ShortAssessment? ==> (key in s'.ledger <==> key in s.ledger || IsDue(c, s, s', key))
    ensures key.ShortAssessment? && Fired(s, s', key) ==> exists v :: v in s.versions && Calls(ShortAssessments, c, s, v, key)
    ensures key in s.ledger ==> key in s'.ledger
  {
    hide GoodEnv, Sound, TickVia, Shape, RowHasKey, VersionHasKey, Calls;
    var t, n, e, ch :| TickVia(env, c, s, t, s', n, e, ch);
    TickShape(env, c, s, t, s', n, e, ch);
    OpenedKeys(env, c, s, t, s', n, e, ch, key);
    AnnouncedKeys(env, c, s, t, s', n, e, ch, key);
    ChurnKeys(c, s, t, s', key);
    RowKeysLater(Nudges, c, s, t, s', key);
    RowKeysLater(Escalations, c, s, t, s', key);
    RowKeysLater(Churn, c, s, t, s', key);
    KindsOfKeys(c, s, s', key);
  }

  /** The first two passes: due openings, and of the short assessments only such without an open renewal. */
  lemma OpenedKeys(env: Env, c: Clock, s: Store, t: Trace, s': Store, n: seq<nat>, e: seq<nat>, ch: seq<nat>, key: Key)
    requires GoodEnv(env) && Sound(s) && c.Valid() && 1 <= c.businessDay && TickVia(env, c, s, t, s', n, e, ch)
    ensures key in s.ledger ==> key in t.short.ledger
    ensures !key.ShortAssessment? ==> (key in t.short.ledger <==> key in s.ledger || VersionHasKey(OpenAtLead, c, s, key))
    ensures key.ShortAssessment? && key in t.short.ledger && key !in s.ledger ==>
      exists v :: v in s.versions && Calls(ShortAssessments, c, s, v, key)
  {
    hide GoodEnv, Sound, Opening, VersionFold, RenewalFold, Returns, Active;
    TickShape(env, c, s, t, s', n, e, ch);
    ShortIssued(c, s, t, s');
    VersionFoldKeys(OpenAtLead, env, c, s, s.versions, key);
    VersionFoldKeys(ShortAssessments, env, c, t.atLead, s.versions, key);
    forall v | Calls(ShortAssessments, c, t.atLead, v, key) ensures Calls(ShortAssessments, c, s, v, key) {
      CalledBefore(c.businessDay, ShortAssessments, c, s, t.atLead, v, key);
    }
  }

  lemma KindsOfKeys(c: Clock, s: Store, s': Store, key: Key)
    ensures IsDue(c, s, s', key) ==> !key.ShortAssessment?
  {
    hide ReviewTime;
  }

  // ---- the rows -----------------------------------------------------------------

  ghost predicate HasRow(s: Store, opp: nat, termEnd: int) {
    exists id :: id in s.renewals && s.renewals[id].opp == opp && s.renewals[id].termEnd == termEnd
  }

  ghost predicate HasOpenRow(s: Store, opp: nat, termEnd: int) {
    exists id :: id in s.renewals && s.renewals[id].opp == opp && s.renewals[id].termEnd == termEnd && s.renewals[id].status == Open
  }

  lemma RowsAre(s: Store, opp: nat, termEnd: int)
    ensures Exists(s, opp, termEnd) <==> HasRow(s, opp, termEnd)
    ensures Active(s, opp, termEnd) <==> HasOpenRow(s, opp, termEnd)
  {
    if HasRow(s, opp, termEnd) {
      var id :| id in s.renewals && s.renewals[id].opp == opp && s.renewals[id].termEnd == termEnd;
      assert IsFor(s.renewals[id], opp, termEnd);
    }
    if HasOpenRow(s, opp, termEnd) {
      var id :| id in s.renewals && s.renewals[id].opp == opp && s.renewals[id].termEnd == termEnd && s.renewals[id].status == Open;
      assert IsOpenFor(s.renewals[id], opp, termEnd);
    }
  }

  /** The row is that of the version's opportunity and term end, stamped now, and the version's trigger was recorded for it. */
  ghost predicate RowFrom(c: Clock, s: Store, s': Store, v: Version, r: Renewal) {
    && v.opp == r.opp && v.termEnd == Some(r.termEnd) && r.lastUpdate == c.wall
    && ((UpForReview(v, c.businessDay) && Fired(s, s', RenewalOpenLead(r.opp, r.termEnd)))
        || (IsShort(v, Today(c)) && Fired(s, s', ShortAssessment(v.id, r.termEnd))))
  }

  lemma RowFromRow(pass: VersionPass, env: Env, c: Clock, s: Store, v: Version, id: nat)
    requires 1 <= c.businessDay
    requires id in VersionRow(pass, env, c, s, v).renewals && id !in s.renewals
    ensures var s' := VersionRow(pass, env, c, s, v); RowFrom(c, s, s', v, s'.renewals[id]) && s'.renewals[id].status == Open
  {
    hide FanOut, Exists, Active, AlertDate, ReviewTime, OwnerOf;
    if v.termEnd.Some? { ReviewTimeIs(c.businessDay, v.termEnd.value); }
  }

  lemma RowFromWider(c: Clock, a: Store, b: Store, b': Store, a': Store, v: Version, r: Renewal)
    requires RowFrom(c, b, b', v, r) && a.ledger <= b.ledger && b'.ledger <= a'.ledger
    ensures RowFrom(c, a, a', v, r)
  {
    hide ReviewTime;
  }

  ghost predicate SomeRowFrom(c: Clock, s: Store, s': Store, vs: seq<Version>, r: Renewal) {
    exists v :: v in vs && RowFrom(c, s, s', v, r)
  }

  lemma {:induction false} RowFromFold(pass: VersionPass, env: Env, c: Clock, s: Store, vs: seq<Version>, id: nat)
    requires GoodEnv(env) && s.renewals.Keys <= s.issued && 1 <= c.businessDay
    requires id in VersionFold(pass, env, c, s, vs).renewals && id !in s.renewals
    ensures var s' := VersionFold(pass, env, c, s, vs); SomeRowFrom(c, s, s', vs, s'.renewals[id]) && s'.renewals[id].status == Open
    decreases |vs|
  {
    hide GoodEnv, VersionRow, Opening, RowFrom;
    assert vs != [];
    var init, last := vs[..|vs| - 1], vs[|vs| - 1];
    assert vs == init + [last];
    var before, after := VersionFold(pass, env, c, s, init), VersionFold(pass, env, c, s, vs);
    VersionFoldGrows(pass, env, c, s, init);
    VersionRowGrows(pass, env, c, before, last);
    if id in before.renewals {
      RowFromFold(pass, env, c, s, init, id);
      var v :| v in init && RowFrom(c, s, before, v, before.renewals[id]);
      RowFromWider(c, s, s, before, after, v, before.renewals[id]);
    } else {
      RowFromRow(pass, env, c, before, last, id);
      RowFromWider(c, s, before, after, after, last, after.renewals[id]);
    }
  }

  /** A key recorded by an opening pass leaves its version a row. */
  lemma {:induction false} KeysHaveRows(pass: VersionPass, env: Env, c: Clock, s: Store, vs: seq<Version>, key: Key)
    requires GoodEnv(env) && s.renewals.Keys <= s.issued && 1 <= c.businessDay && pass != NoticeDates
    requires Fired(s, VersionFold(pass, env, c, s, vs), key)
    ensures exists v ::
      v in vs && VersionKey(pass, c, v, key) && v.termEnd.Some? && Exists(VersionFold(pass, env, c, s, vs), v.opp, v.termEnd.value)
    decreases |vs|
  {
    hide GoodEnv, VersionRow, Grown, Exists, VersionKey;
    assert vs != [];
    var init, last := vs[..|vs| - 1], vs[|vs| - 1];
    assert vs == init + [last];
    var before, after := VersionFold(pass, env, c, s, init), VersionFold(pass, env, c, s, vs);
    VersionFoldGrows(pass, env, c, s, init);
    GrownLedger(Floor(pass, c), s, before);
    VersionRowGrows(pass, env, c, before, last);
    if key in before.ledger {
      KeysHaveRows(pass, env, c, s, init, key);
      var v :| v in init && VersionKey(pass, c, v, key) && v.termEnd.Some? && Exists(before, v.opp, v.termEnd.value);
      ExistsGrows(Floor(pass, c), before, after, v.opp, v.termEnd.value);
    } else {
      KeyHasRow(pass, env, c, before, last, key);
    }
  }

  lemma KeyHasRow(pass: VersionPass, env: Env, c: Clock, s: Store, v: Version, key: Key)
    requires GoodEnv(env) && s.renewals.Keys <= s.issued && 1 <= c.businessDay && pass != NoticeDates
    requires Fired(s, VersionRow(pass, env, c, s, v), key)
    ensures VersionKey(pass, c, v, key) && v.termEnd.Some? && Exists(VersionRow(pass, env, c, s, v), v.opp, v.termEnd.value)
  {
    hide GoodEnv, FanOut, AlertDate, ReviewTime, Grown, OpenRenewal, Exists;
    VersionRowKeys(pass, env, c, s, v, key);
    OpenRenewalGrows(env, Recorded(s, key), v.opp, v.termEnd.value, c.wall);
    if Active(s, v.opp, v.termEnd.value) { ActiveExists(s, key, v.opp, v.termEnd.value); }
  }

  lemma ActiveExists(s: Store, key: Key, opp: nat, termEnd: int)
    requires Active(s, opp, termEnd)
    ensures Exists(Recorded(s, key), opp, termEnd)
  {
    var id :| id in s.renewals && IsOpenFor(s.renewals[id], opp, termEnd);
    assert IsFor(s.renewals[id], opp, termEnd);
  }

  /** A row the tick opened: from a version whose trigger it recorded, open unless already over, alone for its term end. */
  ghost predicate Opened(c: Clock, s: Store, s': Store, id: nat)
    requires id in s'.renewals
  {
    var r := s'.renewals[id];
    && SomeRowFrom(c, s, s', s.versions, r) && r.status == (if r.termEnd < Today(c) then RenewalStatus.Churned else Open)
    && forall j :: j in s'.renewals && j != id ==> !(s'.renewals[j].opp == r.opp && s'.renewals[j].termEnd == r.termEnd)
  }

  lemma StatusChange(c: Clock, s: Store, s': Store, v: Version, r: Renewal)
    requires RowFrom(c, s, s', v, r)
    ensures RowFrom(c, s, s', v, r.(status := RenewalStatus.Churned))
  {
    hide UpForReview, IsShort;
  }

  lemma SomeRowWider(c: Clock, a: Store, b: Store, b': Store, a': Store, vs: seq<Version>, r: Renewal, r': Renewal)
    requires SomeRowFrom(c, b, b', vs, r) && a.ledger <= b.ledger && b'.ledger <= a'.ledger
    requires r' == r || r' == r.(status := RenewalStatus.Churned)
    ensures SomeRowFrom(c, a, a', vs, r')
  {
    hide RowFrom;
    var v :| v in vs && RowFrom(c, b, b', v, r);
    RowFromWider(c, a, b, b', a', v, r);
    StatusChange(c, a, a', v, r);
  }

  lemma NewRow(env: Env, c: Clock, s: Store, t: Trace, s': Store, n: seq<nat>, e: seq<nat>, ch: seq<nat>, id: nat)
    requires GoodEnv(env) && Sound(s) && c.Valid() && 1 <= c.businessDay && TickVia(env, c, s, t, s', n, e, ch)
    requires id in s'.renewals && id !in s.renewals
    ensures SomeRowFrom(c, s, s', s.versions, s'.renewals[id])
  {
    hide GoodEnv, Sound, Opening, VersionFold, RenewalFold, Returns, SomeRowFrom;
    TickShape(env, c, s, t, s', n, e, ch);
    ShortIssued(c, s, t, s');
    OpenRows(c, s, t, s', id);
    if id in t.atLead.renewals {
      RowFromFold(OpenAtLead, env, c, s, s.versions, id);
      SomeRowWider(c, s, s, t.atLead, s', s.versions, t.atLead.renewals[id], s'.renewals[id]);
    } else {
      RowFromFold(ShortAssessments, env, c, t.atLead, s.versions, id);
      SomeRowWider(c, s, t.atLead, t.short, s', s.versions, t.short.renewals[id], s'.renewals[id]);
    }
  }

  /** Each old row stays as it was, but for an open one past its term end, which is churned. */
  ghost predicate OldRowsAfter(c: Clock, s: Store, s': Store) {
    forall id :: id in s.renewals ==>
      var r := s.renewals[id];
      id in s'.renewals && s'.renewals[id] == if r.status == Open && r.termEnd < Today(c) then r.(status := RenewalStatus.Churned) else r
  }

  /**
   The rows a tick leaves: old ones churned exactly when they are open past their term end; new ones only for
   versions up for review or short assessments, as their triggers are recorded.
   */
  lemma TickRows(env: Env, c: Clock, s: Store, s': Store)
    requires GoodEnv(env) && Sound(s) && c.Valid() && 1 <= c.businessDay && RenewalsTick(env, c, s, s')
    ensures OldRowsAfter(c, s, s')
    ensures forall id :: id in s'.renewals && id !in s.renewals ==> Opened(c, s, s', id)
  {
    hide GoodEnv, Sound, TickVia, SomeRowFrom, AddsNoDuplicate;
    TickLeavesNoneOverdue(env, c, s, s');
    var t, n, e, ch :| TickVia(env, c, s, t, s', n, e, ch);
    forall id | id in s'.renewals && id !in s.renewals ensures Opened(c, s, s', id) {
      NewRow(env, c, s, t, s', n, e, ch, id);
      ChurnedOnOpening(env, c, s, t, s', n, e, ch, id);
      NewRowAlone(c, s, s', id);
    }
  }

  lemma NewRowAlone(c: Clock, s: Store, s': Store, id: nat)
    requires AddsNoDuplicate(s, s') && id in s'.renewals && id !in s.renewals
    ensures forall j :: j in s'.renewals && j != id ==>
      !(s'.renewals[j].opp == s'.renewals[id].opp && s'.renewals[j].termEnd == s'.renewals[id].termEnd)
  {
  }

  /**
   From which day on a version has its renewal: a tick records the review of an opportunity's term end exactly
   when a confirmed version has that end and the business day is in the last two calendar months before it, on
   or after the same day of the month, clamped; and with the first such tick a row exists.
   */
  lemma OpensTwoMonthsBefore(env: Env, c: Clock, s: Store, s': Store, opp: nat, termEnd: int)
    requires GoodEnv(env) && Sound(s) && c.Valid() && 1 <= c.businessDay && RenewalsTick(env, c, s, s') && 1 <= termEnd
    ensures var day, last := FromOrdinal(c.businessDay), FromOrdinal(termEnd);
      RenewalOpenLead(opp, termEnd) in s'.ledger <==>
        || RenewalOpenLead(opp, termEnd) in s.ledger
        || ((exists v :: v in s.versions && v.opp == opp && v.termEnd == Some(termEnd)) && c.businessDay <= termEnd
            && (12 * day.year + day.month > 12 * last.year + last.month - 2
                || (12 * day.year + day.month == 12 * last.year + last.month - 2
                    && (day.day >= last.day || day.day == DaysInMonth(day.year, day.month)))))
    ensures Fired(s, s', RenewalOpenLead(opp, termEnd)) ==> HasRow(s', opp, termEnd)
  {
    hide GoodEnv, Sound, TickVia, FromOrdinal, DaysInMonth;
    var key := RenewalOpenLead(opp, termEnd);
    TickRecordsExactly(env, c, s, s', key);
    if Fired(s, s', key) {
      var t, n, e, ch :| TickVia(env, c, s, t, s', n, e, ch);
      ReviewHasRow(env, c, s, t, s', n, e, ch, opp, termEnd);
    }
  }

  lemma ReviewHasRow(env: Env, c: Clock, s: Store, t: Trace, s': Store, n: seq<nat>, e: seq<nat>, ch: seq<nat>, opp: nat, termEnd: int)
    requires GoodEnv(env) && Sound(s) && c.Valid() && 1 <= c.businessDay && TickVia(env, c, s, t, s', n, e, ch)
    requires Fired(s, s', RenewalOpenLead(opp, termEnd))
    ensures HasRow(s', opp, termEnd)
  {
    hide GoodEnv, Sound, Opening, VersionFold, RenewalFold, Returns, Exists, OpenRowHasKey, ReviewTime;
    var key := RenewalOpenLead(opp, termEnd);
    TickShape(env, c, s, t, s', n, e, ch);
    ShortIssued(c, s, t, s');
    OpenFoldOpens(env, c, s, s.versions, opp, termEnd);
    OpenedKeys(env, c, s, t, s', n, e, ch, key);
    AnnouncedKeys(env, c, s, t, s', n, e, ch, key);
    ChurnKeys(c, s, t, s', key);
    VersionFoldKeys(OpenAtLead, env, c, s, s.versions, key);
    OtherKinds(c, s, t, key);
    RowsAre(t.atLead, opp, termEnd);
    var id :| id in t.atLead.renewals && t.atLead.renewals[id].opp == opp && t.atLead.renewals[id].termEnd == termEnd;
    LaterRowsSame(c, s, t, s', id);
  }

  /** A review's key belongs to no pass after the first. */
  lemma OtherKinds(c: Clock, s: Store, t: Trace, key: Key)
    requires key.RenewalOpenLead?
    ensures !VersionHasKey(NoticeDates, c, s, key) && !OpenRowHasKey(Nudges, c, t.short, key)
    ensures !OpenRowHasKey(Escalations, c, t.short, key) && !OpenRowHasKey(Churn, c, t.short, key)
  {
  }

  /** A short assessment has an open renewal after the tick, or its trigger was recorded; with the record comes a row. */
  lemma ShortIsCovered(env: Env, c: Clock, s: Store, s': Store, v: Version)
    requires GoodEnv(env) && Sound(s) && c.Valid() && 1 <= c.businessDay && RenewalsTick(env, c, s, s')
    requires v in s.versions && IsShort(v, Today(c))
    ensures HasOpenRow(s', v.opp, v.termEnd.value) || ShortAssessment(v.id, v.termEnd.value) in s'.ledger
    ensures Fired(s, s', ShortAssessment(v.id, v.termEnd.value)) ==>
      exists w :: w in s.versions && w.id == v.id && w.termEnd == v.termEnd && HasRow(s', w.opp, w.termEnd.value)
  {
    hide GoodEnv, Sound, TickVia, HasRow, HasOpenRow, OpenQuiet, Active;
    var t, n, e, ch :| TickVia(env, c, s, t, s', n, e, ch);
    TickSettlesVersions(env, c, s, t, s', n, e, ch);
    assert Settled(ShortAssessments, c, s', v);
    RowsAre(s', v.opp, v.termEnd.value);
    if Fired(s, s', ShortAssessment(v.id, v.termEnd.value)) {
      ShortHasRow(env, c, s, t, s', n, e, ch, v.id, v.termEnd.value);
    }
  }

  lemma ShortHasRow(env: Env, c: Clock, s: Store, t: Trace, s': Store, n: seq<nat>, e: seq<nat>, ch: seq<nat>, version: nat, termEnd: int)
    requires GoodEnv(env) && Sound(s) && c.Valid() && 1 <= c.businessDay && TickVia(env, c, s, t, s', n, e, ch)
    requires Fired(s, s', ShortAssessment(version, termEnd))
    ensures exists w :: w in s.versions && w.id == version && w.termEnd == Some(termEnd) && HasRow(s', w.opp, termEnd)
  {
    hide GoodEnv, Sound, Opening, VersionFold, RenewalFold, Returns, Exists, OpenRowHasKey, ReviewTime;
    var key := ShortAssessment(version, termEnd);
    TickShape(env, c, s, t, s', n, e, ch);
    ShortIssued(c, s, t, s');
    AnnouncedKeys(env, c, s, t, s', n, e, ch, key);
    ChurnKeys(c, s, t, s', key);
    VersionFoldKeys(OpenAtLead, env, c, s, s.versions, key);
    ShortKinds(c, s, t, key);
    KeysHaveRows(ShortAssessments, env, c, t.atLead, s.versions, key);
    var w :| w in s.versions && VersionKey(ShortAssessments, c, w, key) && w.termEnd.Some? && Exists(t.short, w.opp, w.termEnd.value);
    RowsAre(t.short, w.opp, termEnd);
    var id :| id in t.short.renewals && t.short.renewals[id].opp == w.opp && t.short.renewals[id].termEnd == termEnd;
    OpenRows(c, s, t, s', id);
  }

  lemma ShortKinds(c: Clock, s: Store, t: Trace, key: Key)
    requires key.ShortAssessment?
    ensures !VersionHasKey(OpenAtLead, c, s, key) && !VersionHasKey(NoticeDates, c, s, key) && !OpenRowHasKey(Nudges, c, t.short, key)
    ensures !OpenRowHasKey(Escalations, c, t.short, key) && !OpenRowHasKey(Churn, c, t.short, key)
    ensures forall v :: v in s.versions ==> !Calls(OpenAtLead, c, s, v, key)
  {
    hide ReviewTime;
  }
}
