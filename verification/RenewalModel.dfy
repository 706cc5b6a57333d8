/**
 The renewal store and what the passes of the renewals scheduler do to it, row by row.
 A pass is a fold of its row function over the rows its query returned.
 */
module RenewalModel {
  import opened Text
  import opened Calendar
  import opened Ledger

  datatype RenewalStatus = Open | Closed | Extended | Churned

  /** `lastUpdate` is the instant of the latest `renewal.opened` or `renewal.updated` audit row. */
  datatype Renewal = Renewal(opp: nat, termEnd: int, status: RenewalStatus, lastUpdate: int)

  /** A confirmed SOW version with the dates read from its extract. */
  datatype Version = Version(
    id: nat, opp: nat, termStart: Option<int>, termEnd: Option<int>, notice: Option<int>, confirmedDay: int)

  /** An engagement; `renews` says its type is one the portfolio scheduler watches. */
  datatype Engagement = Engagement(id: nat, renews: bool, end: int, opp: Option<nat>, owner: Option<nat>)

  datatype TaskRow =
    | RenewalReview(renewal: nat, owner: Option<nat>, due: int)
    | NoticeReview(opp: nat, owner: Option<nat>, due: int)
    | EngagementReview(engagement: nat, owner: Option<nat>, due: int)

  datatype Channel = Email | Teams | Slack | InApp

  datatype Subject = ForTrigger(key: Key) | ForOpening(renewal: nat) | ForChurn(renewal: nat)

  datatype Notice = Notice(user: nat, subject: Subject, channel: Channel)

  /**
   The store. `owners` maps each opportunity to its owner; `issued` holds every renewal identifier ever
   handed out, so that identifiers do not come back when rows are deleted.
   */
  datatype Store = Store(
    renewals: map<nat, Renewal>, issued: set<nat>, ledger: set<Key>, tasks: seq<TaskRow>, outbox: multiset<Notice>,
    versions: seq<Version>, engagements: seq<Engagement>, owners: map<nat, Option<nat>>)

  /** Identifier supply, heads of function, users. `mint` gives an identifier outside any finite set. */
  datatype Env = Env(mint: set<nat> -> nat, salesHead: Option<nat>, legalHead: Option<nat>, users: set<nat>)

  ghost predicate GoodEnv(env: Env) { forall ids :: env.mint(ids) !in ids }

  /** One instant: the injected time, the wall clock that stamps audit rows, the date in Los Angeles. */
  datatype Clock = Clock(now: int, wall: int, businessDay: int) {
    function UtcDay(): int { DayOf(now) }

    /** Los Angeles is behind UTC by less than a day. */
    predicate Valid() { businessDay == UtcDay() || businessDay == UtcDay() - 1 }
  }

  const NUDGE_STALE_MICROS := 7 * DAY_MICROS
  const SHORT_ASSESSMENT_MAX_DAYS := 28
  const RENEWAL_LEAD_DAYS := 60
  const NOTICE_LEAD_DAYS := 60

  function FanOut(user: Option<nat>, subject: Subject): multiset<Notice> {
    if user.None? then multiset{}
    else multiset{Notice(user.value, subject, Email), Notice(user.value, subject, Teams),
                  Notice(user.value, subject, Slack), Notice(user.value, subject, InApp)}
  }

  function OwnerOf(s: Store, opp: nat): Option<nat> {
    if opp in s.owners then s.owners[opp] else None
  }

  predicate IsOpenFor(r: Renewal, opp: nat, termEnd: int) {
    r.opp == opp && r.termEnd == termEnd && r.status == Open
  }

  /** `active_renewals_for` has a row with this term end. */
  predicate Active(s: Store, opp: nat, termEnd: int) {
    exists id :: id in s.renewals && IsOpenFor(s.renewals[id], opp, termEnd)
  }

  predicate IsFor(r: Renewal, opp: nat, termEnd: int) { r.opp == opp && r.termEnd == termEnd }

  /** A renewal row exists for the opportunity and term end, in any status. */
  predicate Exists(s: Store, opp: nat, termEnd: int) {
    exists id :: id in s.renewals && IsFor(s.renewals[id], opp, termEnd)
  }

  /** `open_renewal`: nothing when a row exists, else the row, its owner task and the owner's notification. */
  function OpenRenewal(env: Env, s: Store, opp: nat, termEnd: int, wall: int): Store {
    if Exists(s, opp, termEnd) then s
    else
      var id := env.mint(s.issued);
      s.(renewals := s.renewals[id := Renewal(opp, termEnd, Open, wall)],
         issued := s.issued + {id},
         tasks := s.tasks + [RenewalReview(id, OwnerOf(s, opp), termEnd)],
         outbox := s.outbox + FanOut(OwnerOf(s, opp), ForOpening(id)))
  }

  function Recorded(s: Store, key: Key): Store { s.(ledger := s.ledger + {key}) }

  // ---- the rows of the renewals scheduler ---------------------------------------

  predicate OpenDue(v: Version, c: Clock) {
    v.termEnd.Some? && 1 <= v.termEnd.value && AlertDate(v.termEnd.value) <= c.businessDay <= v.termEnd.value
  }

  function OpenRow(env: Env, c: Clock, s: Store, v: Version): Store {
    if !OpenDue(v, c) then s
    else
      var key := RenewalOpenLead(v.opp, v.termEnd.value);
      if key in s.ledger then s
      else if Active(s, v.opp, v.termEnd.value) then Recorded(s, key)
      else OpenRenewal(env, Recorded(s, key), v.opp, v.termEnd.value, c.wall)
  }

  predicate ShortDue(v: Version, c: Clock) {
    && v.termStart.Some? && v.termEnd.Some?
    && 0 < v.termEnd.value - v.termStart.value <= SHORT_ASSESSMENT_MAX_DAYS
    && v.termEnd.value - v.confirmedDay <= RENEWAL_LEAD_DAYS
    && v.termEnd.value >= c.UtcDay()
  }

  function ShortRow(env: Env, c: Clock, s: Store, v: Version): Store {
    if !ShortDue(v, c) || Active(s, v.opp, v.termEnd.value) then s
    else
      var key := ShortAssessment(v.id, v.termEnd.value);
      if key in s.ledger then s else OpenRenewal(env, Recorded(s, key), v.opp, v.termEnd.value, c.wall)
  }

  /** A trigger that only records its key and notifies. */
  function Announce(s: Store, key: Key, user: Option<nat>): Store {
    if key in s.ledger then s else Recorded(s, key).(outbox := s.outbox + FanOut(user, ForTrigger(key)))
  }

  function NudgeRow(c: Clock, s: Store, id: nat): Store
    requires id in s.renewals
  {
    if c.now - s.renewals[id].lastUpdate < NUDGE_STALE_MICROS then s
    else Announce(s, RenewalNudge(id, c.UtcDay()), OwnerOf(s, s.renewals[id].opp))
  }

  predicate NoticeDue(v: Version, c: Clock) {
    && v.termEnd.Some? && v.notice.Some?
    && v.notice.value < v.termEnd.value - NOTICE_LEAD_DAYS
    && v.notice.value - NOTICE_LEAD_DAYS <= c.UtcDay()
  }

  function NoticeRow(env: Env, c: Clock, s: Store, v: Version): Store {
    if !NoticeDue(v, c) then s
    else
      var key := NoticeTask(v.opp, v.notice.value);
      if key in s.ledger then s
      else Announce(s, key, env.legalHead).(tasks := s.tasks + [NoticeReview(v.opp, env.legalHead, v.notice.value)])
  }

  /** 30 days before the end is level 1, 14 days is level 2, any other day is none. */
  function EscalationLevel(daysLeft: int): int {
    if daysLeft == 30 then 1 else if daysLeft == 14 then 2 else 0
  }

  function EscalationRow(env: Env, c: Clock, s: Store, id: nat): Store
    requires id in s.renewals
  {
    var level := EscalationLevel(s.renewals[id].termEnd - c.UtcDay());
    if level == 0 then s else Announce(s, RenewalEscalation(id, level), env.salesHead)
  }

  function ChurnRow(env: Env, c: Clock, s: Store, id: nat): Store
    requires id in s.renewals
  {
    var r := s.renewals[id];
    var key := RenewalChurn(id, r.termEnd);
    if key in s.ledger then s
    else
      Recorded(s, key).(
        renewals := s.renewals[id := r.(status := Churned)],
        outbox := s.outbox + FanOut(OwnerOf(s, r.opp), ForChurn(id)) + FanOut(env.salesHead, ForTrigger(key)))
  }

  // ---- passes as folds ----------------------------------------------------------

  datatype VersionPass = OpenAtLead | ShortAssessments | NoticeDates

  function VersionRow(pass: VersionPass, env: Env, c: Clock, s: Store, v: Version): Store {
    match pass
    case OpenAtLead => OpenRow(env, c, s, v)
    case ShortAssessments => ShortRow(env, c, s, v)
    case NoticeDates => NoticeRow(env, c, s, v)
  }

  function VersionFold(pass: VersionPass, env: Env, c: Clock, s: Store, vs: seq<Version>): Store
    decreases |vs|
  {
    if vs == [] then s
    else VersionRow(pass, env, c, VersionFold(pass, env, c, s, vs[..|vs| - 1]), vs[|vs| - 1])
  }

  datatype RenewalPass = Nudges | Escalations | Churn

  /** The rows each pass selects. */
  predicate Selected(pass: RenewalPass, c: Clock, s: Store, id: nat) {
    id in s.renewals && s.renewals[id].status == Open && (pass == Churn ==> s.renewals[id].termEnd < c.UtcDay())
  }

  function RenewalRow(pass: RenewalPass, env: Env, c: Clock, s: Store, id: nat): (r: Store)
    requires id in s.renewals
    ensures r.renewals.Keys == s.renewals.Keys
  {
    match pass
    case Nudges => NudgeRow(c, s, id)
    case Escalations => EscalationRow(env, c, s, id)
    case Churn => ChurnRow(env, c, s, id)
  }

  ghost predicate RowsExist(s: Store, rows: seq<nat>) {
    forall i :: 0 <= i < |rows| ==> rows[i] in s.renewals
  }

  function RenewalFold(pass: RenewalPass, env: Env, c: Clock, s: Store, rows: seq<nat>): (r: Store)
    requires RowsExist(s, rows)
    ensures r.renewals.Keys == s.renewals.Keys
    decreases |rows|
  {
    hide RenewalRow;
    if rows == [] then s
    else RenewalRow(pass, env, c, RenewalFold(pass, env, c, s, rows[..|rows| - 1]), rows[|rows| - 1])
  }

  /** A query result: the selected rows, each once, in any order. */
  ghost predicate Returns(pass: RenewalPass, c: Clock, s: Store, rows: seq<nat>) {
    && (forall i :: 0 <= i < |rows| ==> Selected(pass, c, s, rows[i]))
    && (forall id :: Selected(pass, c, s, id) ==> id in rows)
    && forall i, j :: 0 <= i < j < |rows| ==> rows[i] != rows[j]
  }

  /** The stores after each of the six passes. */
  datatype Trace = Trace(atLead: Store, short: Store, nudged: Store, noticed: Store, escalated: Store)

  /** One tick of the renewals scheduler: six passes, each reading what the ones before left. */
  ghost predicate TickVia(env: Env, c: Clock, s: Store, t: Trace, s': Store, n: seq<nat>, e: seq<nat>, ch: seq<nat>) {
    && t.atLead == VersionFold(OpenAtLead, env, c, s, s.versions)
    && t.short == VersionFold(ShortAssessments, env, c, t.atLead, s.versions)
    && Returns(Nudges, c, t.short, n) && RowsExist(t.short, n) && t.nudged == RenewalFold(Nudges, env, c, t.short, n)
    && t.noticed == VersionFold(NoticeDates, env, c, t.nudged, s.versions)
    && Returns(Escalations, c, t.noticed, e) && RowsExist(t.noticed, e) && t.escalated == RenewalFold(Escalations, env, c, t.noticed, e)
    && Returns(Churn, c, t.escalated, ch) && RowsExist(t.escalated, ch) && s' == RenewalFold(Churn, env, c, t.escalated, ch)
  }

  ghost predicate RenewalsTick(env: Env, c: Clock, s: Store, s': Store) {
    exists t: Trace, n: seq<nat>, e: seq<nat>, ch: seq<nat> :: TickVia(env, c, s, t, s', n, e, ch)
  }
}
