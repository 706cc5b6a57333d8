/** The renewals scheduler as it runs: loops that update the store in place. */
module RenewalScheduler {
  import opened Text
  import opened Calendar
  import opened Ledger
  import opened RenewalModel

  datatype Tally = Tally(openings: nat, churned: nat, tasksCreated: nat, notificationsQueued: nat, fired: seq<Key>, skipped: nat)

  class TickResult {
    var renewalsOpened: nat
    var renewalsChurned: nat
    var tasksCreated: nat
    var notificationsQueued: nat
    var fired: seq<Key>
    var skipped: nat

    constructor ()
      ensures Counts() == Tally(0, 0, 0, 0, [], 0)
    {
      renewalsOpened, renewalsChurned, tasksCreated, notificationsQueued, fired, skipped := 0, 0, 0, 0, [], 0;
    }

    function Counts(): Tally
      reads this
    {
      Tally(renewalsOpened, renewalsChurned, tasksCreated, notificationsQueued, fired, skipped)
    }
  }

  ghost function OpenIds(s: Store): set<nat> {
    set id | id in s.renewals && s.renewals[id].status == Open
  }

  /** A review is recorded without being reported when a renewal was open for it as the tick began. */
  predicate Silent(base: Store, key: Key) { key.RenewalOpenLead? && Active(base, key.opp, key.termEnd) }

  /**
   The report accounts for the growth of the renewal, task and outbox tables and the change in open
   renewals since `base`, and it lists the triggers recorded since then, each once, but for silent ones.
   */
  ghost predicate Balanced(base: Store, s: Store, t: Tally) {
    && t.openings == |s.renewals| - |base.renewals|
    && t.churned == |OpenIds(base)| + t.openings - |OpenIds(s)|
    && t.tasksCreated == |s.tasks| - |base.tasks|
    && t.notificationsQueued == |s.outbox| - |base.outbox|
    && base.ledger <= s.ledger && ListsFired(base, s, t.fired)
  }

  ghost predicate ListsFired(base: Store, s: Store, fired: seq<Key>) {
    && (forall k :: k in fired <==> k in s.ledger && k !in base.ledger && !Silent(base, k))
    && forall i, j :: 0 <= i < j < |fired| ==> fired[i] != fired[j]
  }

  /** At most one key is recorded, and reported unless it is silent. */
  ghost predicate Reported(base: Store, s: Store, t: Tally, s': Store, t': Tally) {
    || (s'.ledger == s.ledger && t'.fired == t.fired)
    || exists key :: key !in s.ledger && s'.ledger == s.ledger + {key} && t'.fired == if Silent(base, key) then t.fired else t.fired + [key]
  }

  lemma StillListsFired(base: Store, s: Store, t: Tally, s': Store, t': Tally)
    requires base.ledger <= s.ledger && ListsFired(base, s, t.fired) && Reported(base, s, t, s', t')
    ensures ListsFired(base, s', t'.fired)
  {
    hide Silent;
  }

  /** Until its review is recorded, an opportunity has a renewal open for a term end exactly if it had one as the tick began. */
  ghost predicate AsAtStart(base: Store, s: Store) {
    forall opp: nat, termEnd: int ::
      RenewalOpenLead(opp, termEnd) !in s.ledger ==> (Active(s, opp, termEnd) <==> Active(base, opp, termEnd))
  }

  lemma OpenRowKeepsAsAtStart(env: Env, c: Clock, base: Store, s: Store, v: Version)
    requires GoodEnv(env) && s.renewals.Keys <= s.issued && AsAtStart(base, s)
    ensures AsAtStart(base, OpenRow(env, c, s, v))
  {
    hide Active, AlertDate, Exists, OwnerOf, FanOut;
    var s' := OpenRow(env, c, s, v);
    forall opp: nat, termEnd: int | RenewalOpenLead(opp, termEnd) !in s'.ledger
      ensures Active(s', opp, termEnd) <==> Active(s, opp, termEnd)
    {
      if s'.renewals != s.renewals {
        assert env.mint(s.issued) !in s.renewals.Keys;
        ActiveForOthers(s, s', env.mint(s.issued), opp, termEnd);
      } else {
        SameRowsActive(s, s', opp, termEnd);
      }
    }
  }

  lemma SilentIs(base: Store, s: Store, opp: nat, termEnd: int)
    requires AsAtStart(base, s) && RenewalOpenLead(opp, termEnd) !in s.ledger
    ensures Silent(base, RenewalOpenLead(opp, termEnd)) <==> Active(s, opp, termEnd)
  {
    hide Active;
  }

  lemma SameRowsActive(s: Store, s': Store, opp: nat, termEnd: int)
    requires s'.renewals == s.renewals
    ensures Active(s', opp, termEnd) <==> Active(s, opp, termEnd)
  {
  }

  /** A new row for another pair. */
  lemma ActiveForOthers(s: Store, s': Store, id: nat, opp: nat, termEnd: int)
    requires id !in s.renewals && id in s'.renewals && s'.renewals == s.renewals[id := s'.renewals[id]]
    requires s'.renewals[id].opp != opp || s'.renewals[id].termEnd != termEnd
    ensures Active(s', opp, termEnd) <==> Active(s, opp, termEnd)
  {
    if Active(s, opp, termEnd) {
      var i :| i in s.renewals && IsOpenFor(s.renewals[i], opp, termEnd);
      assert IsOpenFor(s'.renewals[i], opp, termEnd);
    }
  }

  lemma BalancedStart(s: Store)
    ensures Balanced(s, s, Tally(0, 0, 0, 0, [], 0)) && AsAtStart(s, s)
  {
  }

  lemma FanOutSize(user: Option<nat>, subject: Subject)
    ensures |FanOut(user, subject)| == if user.Some? then 4 else 0
  {
  }

  /** A step that leaves the renewals as they are. */
  lemma BalancedStep(base: Store, s: Store, t: Tally, s': Store, t': Tally)
    requires Balanced(base, s, t) && s'.renewals == s.renewals && s.ledger <= s'.ledger
    requires t'.openings == t.openings && t'.churned == t.churned
    requires t'.tasksCreated == t.tasksCreated + |s'.tasks| - |s.tasks|
    requires t'.notificationsQueued == t.notificationsQueued + |s'.outbox| - |s.outbox|
    requires Reported(base, s, t, s', t')
    ensures Balanced(base, s', t')
  {
    hide ListsFired, Reported;
    StillListsFired(base, s, t, s', t');
  }

  lemma OneMoreOpen(s: Store, s': Store, id: nat, r: Renewal)
    requires id !in s.renewals && r.status == Open && s'.renewals == s.renewals[id := r]
    ensures |OpenIds(s')| == |OpenIds(s)| + 1 && |s'.renewals| == |s.renewals| + 1
  {
    assert OpenIds(s') == OpenIds(s) + {id};
  }

  lemma OneLessOpen(s: Store, s': Store, id: nat)
    requires id in s.renewals && s.renewals[id].status == Open
    requires s'.renewals == s.renewals[id := s.renewals[id].(status := Churned)]
    ensures |OpenIds(s')| == |OpenIds(s)| - 1 && |s'.renewals| == |s.renewals|
  {
    assert OpenIds(s') == OpenIds(s) - {id};
  }

  /** A step that adds one open renewal. */
  lemma BalancedOpen(base: Store, s: Store, t: Tally, s': Store, t': Tally, id: nat, r: Renewal)
    requires Balanced(base, s, t) && id !in s.renewals && r.status == Open && s'.renewals == s.renewals[id := r]
    requires s.ledger <= s'.ledger && t'.openings == t.openings + 1 && t'.churned == t.churned
    requires t'.tasksCreated == t.tasksCreated + |s'.tasks| - |s.tasks|
    requires t'.notificationsQueued == t.notificationsQueued + |s'.outbox| - |s.outbox|
    requires Reported(base, s, t, s', t')
    ensures Balanced(base, s', t')
  {
    hide ListsFired, Reported, OpenIds;
    StillListsFired(base, s, t, s', t');
    OneMoreOpen(s, s', id, r);
  }

  /** A step that churns one open renewal. */
  lemma BalancedChurn(base: Store, s: Store, t: Tally, s': Store, t': Tally, id: nat)
    requires Balanced(base, s, t) && id in s.renewals && s.renewals[id].status == Open
    requires s'.renewals == s.renewals[id := s.renewals[id].(status := Churned)]
    requires s.ledger <= s'.ledger && t'.openings == t.openings && t'.churned == t.churned + 1
    requires t'.tasksCreated == t.tasksCreated + |s'.tasks| - |s.tasks|
    requires t'.notificationsQueued == t.notificationsQueued + |s'.outbox| - |s.outbox|
    requires Reported(base, s, t, s', t')
    ensures Balanced(base, s', t')
  {
    hide ListsFired, Reported, OpenIds;
    StillListsFired(base, s, t, s', t');
    OneLessOpen(s, s', id);
  }

  // ---- triggers found in the ledger already -------------------------------------

  /** The trigger of `v` is due, but its key is recorded. */
  predicate VersionSkips(pass: VersionPass, c: Clock, s: Store, v: Version) {
    match pass
    case OpenAtLead => OpenDue(v, c) && RenewalOpenLead(v.opp, v.termEnd.value) in s.ledger
    case ShortAssessments =>
      ShortDue(v, c) && !Active(s, v.opp, v.termEnd.value) && ShortAssessment(v.id, v.termEnd.value) in s.ledger
    case NoticeDates => NoticeDue(v, c) && NoticeTask(v.opp, v.notice.value) in s.ledger
  }

  predicate RenewalSkips(pass: RenewalPass, c: Clock, s: Store, id: nat)
    requires id in s.renewals
  {
    var r := s.renewals[id];
    match pass
    case Nudges => c.now - r.lastUpdate >= NUDGE_STALE_MICROS && RenewalNudge(id, c.UtcDay()) in s.ledger
    case Escalations =>
      var level := EscalationLevel(r.termEnd - c.UtcDay()); level != 0 && RenewalEscalation(id, level) in s.ledger
    case Churn => RenewalChurn(id, r.termEnd) in s.ledger
  }

  /** The skips of a pass, each judged by the store as the rows before left it. */
  function VersionSkipCount(pass: VersionPass, env: Env, c: Clock, s: Store, vs: seq<Version>): nat
    decreases |vs|
  {
    if vs == [] then 0
    else
      var init, v := vs[..|vs| - 1], vs[|vs| - 1];
      VersionSkipCount(pass, env, c, s, init) + if VersionSkips(pass, c, VersionFold(pass, env, c, s, init), v) then 1 else 0
  }

  function RenewalSkipCount(pass: RenewalPass, env: Env, c: Clock, s: Store, rows: seq<nat>): nat
    requires RowsExist(s, rows)
    decreases |rows|
  {
    if rows == [] then 0
    else
      var init, id := rows[..|rows| - 1], rows[|rows| - 1];
      RenewalSkipCount(pass, env, c, s, init) + if RenewalSkips(pass, c, RenewalFold(pass, env, c, s, init), id) then 1 else 0
  }

  lemma VersionSkipStep(pass: VersionPass, env: Env, c: Clock, s: Store, vs: seq<Version>, i: nat)
    requires i < |vs|
    ensures VersionSkipCount(pass, env, c, s, vs[..i + 1]) == VersionSkipCount(pass, env, c, s, vs[..i])
      + if VersionSkips(pass, c, VersionFold(pass, env, c, s, vs[..i]), vs[i]) then 1 else 0
  {
    hide VersionSkips, VersionFold;
    assert vs[..i + 1][..i] == vs[..i];
  }

  lemma RenewalSkipStep(pass: RenewalPass, env: Env, c: Clock, s: Store, rows: seq<nat>, i: nat)
    requires i < |rows| && RowsExist(s, rows)
    ensures RowsExist(s, rows[..i]) && RowsExist(s, rows[..i + 1]) && rows[i] in s.renewals
    ensures RenewalSkipCount(pass, env, c, s, rows[..i + 1]) == RenewalSkipCount(pass, env, c, s, rows[..i])
      + if RenewalSkips(pass, c, RenewalFold(pass, env, c, s, rows[..i]), rows[i]) then 1 else 0
  {
    hide RenewalSkips, RenewalFold;
    assert rows[..i + 1][..i] == rows[..i];
  }

  /** The skips of a tick, pass by pass. */
  ghost function TickSkips(env: Env, c: Clock, s: Store, t: Trace, n: seq<nat>, e: seq<nat>, ch: seq<nat>): nat
    requires RowsExist(t.short, n) && RowsExist(t.noticed, e) && RowsExist(t.escalated, ch)
  {
    VersionSkipCount(OpenAtLead, env, c, s, s.versions)
    + VersionSkipCount(ShortAssessments, env, c, t.atLead, s.versions)
    + RenewalSkipCount(Nudges, env, c, t.short, n)
    + VersionSkipCount(NoticeDates, env, c, t.nudged, s.versions)
    + RenewalSkipCount(Escalations, env, c, t.noticed, e)
    + RenewalSkipCount(Churn, env, c, t.escalated, ch)
  }

  // ---- folds grow by one row ----------------------------------------------------

  lemma VersionFoldStep(pass: VersionPass, env: Env, c: Clock, s: Store, vs: seq<Version>, i: nat)
    requires i < |vs|
    ensures VersionFold(pass, env, c, s, vs[..i + 1])
         == VersionRow(pass, env, c, VersionFold(pass, env, c, s, vs[..i]), vs[i])
  {
    hide VersionRow;
    assert vs[..i + 1][..i] == vs[..i];
  }

  lemma RenewalFoldStep(pass: RenewalPass, env: Env, c: Clock, s: Store, rows: seq<nat>, i: nat)
    requires i < |rows| && RowsExist(s, rows)
    ensures RowsExist(s, rows[..i]) && RowsExist(s, rows[..i + 1])
    ensures rows[i] in RenewalFold(pass, env, c, s, rows[..i]).renewals
    ensures RenewalFold(pass, env, c, s, rows[..i + 1])
         == RenewalRow(pass, env, c, RenewalFold(pass, env, c, s, rows[..i]), rows[i])
  {
    hide RenewalRow;
    assert rows[..i + 1][..i] == rows[..i];
  }

  /** A row not reached yet is as it was when the pass began. */
  lemma {:induction false} UnreachedRow(pass: RenewalPass, env: Env, c: Clock, s: Store, rows: seq<nat>, id: nat)
    requires RowsExist(s, rows) && id in s.renewals && id !in rows
    ensures RenewalFold(pass, env, c, s, rows).renewals[id] == s.renewals[id]
    decreases |rows|
  {
    if rows != [] {
      var before := rows[..|rows| - 1];
      UnreachedRow(pass, env, c, s, before, id);
      RowKeepsOthers(pass, env, c, RenewalFold(pass, env, c, s, before), rows[|rows| - 1], id);
    }
  }

  lemma RowKeepsOthers(pass: RenewalPass, env: Env, c: Clock, s: Store, row: nat, id: nat)
    requires row in s.renewals && id in s.renewals && id != row
    ensures RenewalRow(pass, env, c, s, row).renewals[id] == s.renewals[id]
  {
    hide FanOut;
  }

  // ---- the store ----------------------------------------------------------------

  class RenewalStore {
    var renewals: map<nat, Renewal>
    var issued: set<nat>
    var ledger: set<Key>
    var tasks: seq<TaskRow>
    var outbox: multiset<Notice>
    var versions: seq<Version>
    var engagements: seq<Engagement>
    var owners: map<nat, Option<nat>>

    constructor (s: Store)
      ensures State() == s
    {
      renewals, issued, ledger, tasks, outbox := s.renewals, s.issued, s.ledger, s.tasks, s.outbox;
      versions, engagements, owners := s.versions, s.engagements, s.owners;
    }

    ghost function State(): Store
      reads this
    {
      Store(renewals, issued, ledger, tasks, outbox, versions, engagements, owners)
    }

    method RecordTrigger(key: Key) returns (fired: bool)
      modifies this`ledger
      ensures fired == (key !in old(ledger)) && ledger == old(ledger) + {key}
    {
      fired := key !in ledger;
      ledger := ledger + {key};
    }

    /** One outbox row per channel for a known user; returns how many. */
    method QueueNotification(user: Option<nat>, subject: Subject) returns (queued: nat)
      modifies this`outbox
      ensures outbox == old(outbox) + FanOut(user, subject) && queued == |FanOut(user, subject)|
    {
      FanOutSize(user, subject);
      queued := 0;
      if user.Some? {
        outbox := outbox + FanOut(user, subject);
        queued := 4;
      }
    }

    /** A new open renewal with its owner task and notification, unless a row for the term end exists. */
    method OpenOnce(env: Env, opp: nat, termEnd: int, wall: int) returns (created: bool)
      modifies this`renewals, this`issued, this`tasks, this`outbox
      ensures State() == OpenRenewal(env, old(State()), opp, termEnd, wall)
      ensures created <==> !Exists(old(State()), opp, termEnd)
    {
      hide FanOut;
      var known := exists id :: id in renewals && IsFor(renewals[id], opp, termEnd);
      if known { return false; }
      var id := env.mint(issued);
      var owner := if opp in owners then owners[opp] else None;
      renewals := renewals[id := Renewal(opp, termEnd, Open, wall)];
      issued := issued + {id};
      tasks := tasks + [RenewalReview(id, owner, termEnd)];
      var _ := QueueNotification(owner, ForOpening(id));
      created := true;
    }

    /** The tail shared by both opening triggers, once the key is recorded. */
    method OpenAndReport(env: Env, key: Key, opp: nat, termEnd: int, wall: int, result: TickResult,
                         ghost base: Store, ghost before: Store)
      requires GoodEnv(env) && renewals.Keys <= issued
      requires State() == Recorded(before, key) && key !in before.ledger && !Silent(base, key)
      requires Balanced(base, before, result.Counts())
      modifies this`renewals, this`issued, this`ledger, this`tasks, this`outbox, result
      ensures State() == OpenRenewal(env, old(State()), opp, termEnd, wall) && renewals.Keys <= issued
      ensures Balanced(base, State(), result.Counts()) && result.skipped == old(result.skipped)
    {
      hide Balanced, Exists, FanOut;
      ghost var counts := result.Counts();
      ghost var id := env.mint(issued);
      FanOutSize(OwnerOf(State(), opp), ForOpening(id));
      var created := OpenOnce(env, opp, termEnd, wall);
      if created {
        result.renewalsOpened := result.renewalsOpened + 1;
        result.tasksCreated := result.tasksCreated + 1;
        if opp in owners && owners[opp].Some? {
          result.notificationsQueued := result.notificationsQueued + 4;
        }
      }
      result.fired := result.fired + [key];
      if created {
        BalancedOpen(base, before, counts, State(), result.Counts(), id, Renewal(opp, termEnd, Open, wall));
      } else {
        BalancedStep(base, before, counts, State(), result.Counts());
      }
    }

    method Skip(result: TickResult, ghost base: Store)
      requires Balanced(base, State(), result.Counts())
      modifies result
      ensures Balanced(base, State(), result.Counts()) && result.skipped == old(result.skipped) + 1
    {
      hide Balanced;
      ghost var counts := result.Counts();
      result.skipped := result.skipped + 1;
      BalancedStep(base, State(), counts, State(), result.Counts());
    }

    method OpenAtLeadFor(env: Env, c: Clock, v: Version, result: TickResult, ghost base: Store)
      requires GoodEnv(env) && renewals.Keys <= issued && Balanced(base, State(), result.Counts()) && AsAtStart(base, State())
      modifies this`renewals, this`issued, this`ledger, this`tasks, this`outbox, result
      ensures State() == OpenRow(env, c, old(State()), v) && renewals.Keys <= issued
      ensures Balanced(base, State(), result.Counts()) && AsAtStart(base, State())
      ensures result.skipped == old(result.skipped) + if VersionSkips(OpenAtLead, c, old(State()), v) then 1 else 0
    {
      hide Balanced, Active, OpenRenewal, AsAtStart, Silent;
      OpenRowKeepsAsAtStart(env, c, base, State(), v);
      if !OpenDue(v, c) { return; }
      ghost var s, counts := State(), result.Counts();
      var termEnd := v.termEnd.value;
      var key := RenewalOpenLead(v.opp, termEnd);
      var fired := RecordTrigger(key);
      if !fired {
        assert ledger == s.ledger;
        Skip(result, base);
        return;
      }
      SilentIs(base, s, v.opp, termEnd);
      if exists id :: id in renewals && IsOpenFor(renewals[id], v.opp, termEnd) {
        ActiveIsQuery(s, v.opp, termEnd);
        BalancedStep(base, s, counts, State(), counts);
        return;
      }
      ActiveIsQuery(s, v.opp, termEnd);
      OpenAndReport(env, key, v.opp, termEnd, c.wall, result, base, s);
    }

    method ShortAssessmentFor(env: Env, c: Clock, v: Version, result: TickResult, ghost base: Store)
      requires GoodEnv(env) && renewals.Keys <= issued && Balanced(base, State(), result.Counts())
      modifies this`renewals, this`issued, this`ledger, this`tasks, this`outbox, result
      ensures State() == ShortRow(env, c, old(State()), v) && renewals.Keys <= issued
      ensures Balanced(base, State(), result.Counts())
      ensures result.skipped == old(result.skipped) + if VersionSkips(ShortAssessments, c, old(State()), v) then 1 else 0
    {
      hide Balanced, Active, OpenRenewal;
      if v.termStart.None? || v.termEnd.None? { return; }
      var termEnd := v.termEnd.value;
      var duration := termEnd - v.termStart.value;
      if duration <= 0 || duration > SHORT_ASSESSMENT_MAX_DAYS { return; }
      if termEnd - v.confirmedDay > RENEWAL_LEAD_DAYS { return; }
      ghost var s := State();
      ActiveIsQuery(s, v.opp, termEnd);
      if exists id :: id in renewals && IsOpenFor(renewals[id], v.opp, termEnd) { return; }
      if termEnd < c.UtcDay() { return; }
      var key := ShortAssessment(v.id, termEnd);
      var fired := RecordTrigger(key);
      if !fired {
        assert ledger == s.ledger;
        Skip(result, base);
        return;
      }
      OpenAndReport(env, key, v.opp, termEnd, c.wall, result, base, s);
    }

    /** Records a key and notifies; reports the trigger. */
    method AnnounceTrigger(key: Key, user: Option<nat>, result: TickResult, ghost base: Store) returns (fired: bool)
      requires Balanced(base, State(), result.Counts()) && !key.RenewalOpenLead?
      modifies this`ledger, this`outbox, result
      ensures fired == (key !in old(ledger)) && State() == Announce(old(State()), key, user)
      ensures Balanced(base, State(), result.Counts()) && result.tasksCreated == old(result.tasksCreated)
      ensures result.skipped == old(result.skipped) + if fired then 0 else 1
    {
      hide Balanced, FanOut;
      ghost var s, counts := State(), result.Counts();
      fired := RecordTrigger(key);
      if !fired {
        assert ledger == s.ledger;
        result.skipped := result.skipped + 1;
        BalancedStep(base, s, counts, State(), result.Counts());
        return;
      }
      var queued := QueueNotification(user, ForTrigger(key));
      result.notificationsQueued := result.notificationsQueued + queued;
      result.fired := result.fired + [key];
      BalancedStep(base, s, counts, State(), result.Counts());
    }

    method NoticeTaskFor(env: Env, c: Clock, v: Version, result: TickResult, ghost base: Store)
      requires Balanced(base, State(), result.Counts())
      modifies this`ledger, this`tasks, this`outbox, result
      ensures State() == NoticeRow(env, c, old(State()), v) 
      ensures Balanced(base, State(), result.Counts())
      ensures result.skipped == old(result.skipped) + if VersionSkips(NoticeDates, c, old(State()), v) then 1 else 0
    {
      hide Balanced, FanOut;
      if !NoticeDue(v, c) { return; }
      var fired := AnnounceTrigger(NoticeTask(v.opp, v.notice.value), env.legalHead, result, base);
      if fired {
        ghost var s, counts := State(), result.Counts();
        tasks := tasks + [NoticeReview(v.opp, env.legalHead, v.notice.value)];
        result.tasksCreated := result.tasksCreated + 1;
        BalancedStep(base, s, counts, State(), result.Counts());
      }
    }

    /** The three passes over confirmed versions, in upload order. */
    method WalkVersions(pass: VersionPass, env: Env, c: Clock, result: TickResult, ghost base: Store)
      requires GoodEnv(env) && renewals.Keys <= issued && Balanced(base, State(), result.Counts())
      requires pass == OpenAtLead ==> AsAtStart(base, State())
      modifies this`renewals, this`issued, this`ledger, this`tasks, this`outbox, result
      ensures State() == VersionFold(pass, env, c, old(State()), old(versions)) && renewals.Keys <= issued
      ensures Balanced(base, State(), result.Counts())
      ensures result.skipped == old(result.skipped) + VersionSkipCount(pass, env, c, old(State()), old(versions))
    {
      hide Balanced, AsAtStart, OpenRow, ShortRow, NoticeRow, VersionSkips;
      ghost var s, skips := State(), result.skipped;
      var walked := versions;
      for i := 0 to |walked|
        invariant State() == VersionFold(pass, env, c, s, walked[..i]) && renewals.Keys <= issued
        invariant Balanced(base, State(), result.Counts()) && (pass == OpenAtLead ==> AsAtStart(base, State()))
        invariant result.skipped == skips + VersionSkipCount(pass, env, c, s, walked[..i])
      {
        VersionSkipStep(pass, env, c, s, walked, i);
        VersionFoldStep(pass, env, c, s, walked, i);
        match pass
        case OpenAtLead => OpenAtLeadFor(env, c, walked[i], result, base);
        case ShortAssessments => ShortAssessmentFor(env, c, walked[i], result, base);
        case NoticeDates => NoticeTaskFor(env, c, walked[i], result, base);
      }
      assert walked[..|walked|] == walked;
    }

    // ---- passes over open renewals ----

    method NudgeOne(c: Clock, id: nat, result: TickResult, ghost base: Store)
      requires id in renewals && Balanced(base, State(), result.Counts())
      modifies this`ledger, this`outbox, result
      ensures State() == NudgeRow(c, old(State()), id)
      ensures Balanced(base, State(), result.Counts())
      ensures result.skipped == old(result.skipped) + if RenewalSkips(Nudges, c, old(State()), id) then 1 else 0
    {
      hide Balanced;
      var age := c.now - renewals[id].lastUpdate;
      if age < NUDGE_STALE_MICROS { return; }
      var opp := renewals[id].opp;
      var _ := AnnounceTrigger(RenewalNudge(id, c.UtcDay()), if opp in owners then owners[opp] else None, result, base);
    }

    method EscalateOne(env: Env, c: Clock, id: nat, result: TickResult, ghost base: Store)
      requires id in renewals && Balanced(base, State(), result.Counts())
      modifies this`ledger, this`outbox, result
      ensures State() == EscalationRow(env, c, old(State()), id)
      ensures Balanced(base, State(), result.Counts())
      ensures result.skipped == old(result.skipped) + if RenewalSkips(Escalations, c, old(State()), id) then 1 else 0
    {
      hide Balanced;
      var daysLeft := renewals[id].termEnd - c.UtcDay();
      if daysLeft != 30 && daysLeft != 14 { return; }
      var level := if daysLeft == 30 then 1 else 2;
      var _ := AnnounceTrigger(RenewalEscalation(id, level), env.salesHead, result, base);
    }

    /** Tells the account owner and the head of sales. */
    method NotifyChurn(env: Env, id: nat, opp: nat, key: Key) returns (queued: nat)
      modifies this`outbox
      ensures outbox == old(outbox) + FanOut(OwnerOf(old(State()), opp), ForChurn(id)) + FanOut(env.salesHead, ForTrigger(key))
      ensures queued == |outbox| - |old(outbox)|
    {
      hide FanOut;
      var toOwner := QueueNotification(if opp in owners then owners[opp] else None, ForChurn(id));
      var toHead := QueueNotification(env.salesHead, ForTrigger(key));
      queued := toOwner + toHead;
    }

    method ChurnOne(env: Env, id: nat, result: TickResult, ghost c: Clock, ghost base: Store)
      requires id in renewals && renewals[id].status == Open && Balanced(base, State(), result.Counts())
      modifies this`renewals, this`ledger, this`outbox, result
      ensures State() == ChurnRow(env, c, old(State()), id)
      ensures Balanced(base, State(), result.Counts())
      ensures result.skipped == old(result.skipped) + if RenewalSkips(Churn, c, old(State()), id) then 1 else 0
    {
      hide Balanced, FanOut;
      ghost var s, counts := State(), result.Counts();
      var r := renewals[id];
      var key := RenewalChurn(id, r.termEnd);
      var fired := RecordTrigger(key);
      if !fired {
        assert ledger == s.ledger;
        Skip(result, base);
        return;
      }
      renewals := renewals[id := r.(status := Churned)];
      result.renewalsChurned := result.renewalsChurned + 1;
      var queued := NotifyChurn(env, id, r.opp, key);
      result.notificationsQueued := result.notificationsQueued + queued;
      result.fired := result.fired + [key];
      BalancedChurn(base, s, counts, State(), result.Counts(), id);
    }

    /** The rows a query on open renewals returns, in whatever order. */
    method Query(pass: RenewalPass, c: Clock) returns (rows: seq<nat>)
      ensures Returns(pass, c, State(), rows) && RowsExist(State(), rows)
    {
      rows := [];
      var left := set id | id in renewals && renewals[id].status == Open && (pass == Churn ==> renewals[id].termEnd < c.UtcDay());
      while left != {}
        invariant forall id :: id in left || id in rows <==> Selected(pass, c, State(), id)
        invariant forall i :: 0 <= i < |rows| ==> Selected(pass, c, State(), rows[i]) && rows[i] !in left
        invariant forall i, j :: 0 <= i < j < |rows| ==> rows[i] != rows[j]
        decreases left
      {
        var id :| id in left;
        assert forall x :: x in rows + [id] <==> x in rows || x == id;
        rows, left := rows + [id], left - {id};
      }
    }

    method WalkRenewals(pass: RenewalPass, env: Env, c: Clock, result: TickResult, ghost base: Store)
      returns (ghost returned: seq<nat>)
      requires Balanced(base, State(), result.Counts())
      modifies this`renewals, this`ledger, this`outbox, result
      ensures Returns(pass, c, old(State()), returned) && RowsExist(old(State()), returned)
      ensures State() == RenewalFold(pass, env, c, old(State()), returned)
      ensures Balanced(base, State(), result.Counts())
      ensures result.skipped == old(result.skipped) + RenewalSkipCount(pass, env, c, old(State()), returned)
    {
      hide Balanced, NudgeRow, EscalationRow, ChurnRow, RenewalSkips;
      ghost var s, skips := State(), result.skipped;
      var rows := Query(pass, c);
      for i := 0 to |rows|
        invariant RowsExist(s, rows[..i])
        invariant State() == RenewalFold(pass, env, c, s, rows[..i])
        invariant Balanced(base, State(), result.Counts())
        invariant result.skipped == skips + RenewalSkipCount(pass, env, c, s, rows[..i])
      {
        RenewalSkipStep(pass, env, c, s, rows, i);
        RenewalFoldStep(pass, env, c, s, rows, i);
        assert Selected(pass, c, s, rows[i]);
        UnreachedRow(pass, env, c, s, rows[..i], rows[i]);
        match pass
        case Nudges => NudgeOne(c, rows[i], result, base);
        case Escalations => EscalateOne(env, c, rows[i], result, base);
        case Churn => ChurnOne(env, rows[i], result, c, base);
      }
      assert rows[..|rows|] == rows;
      returned := rows;
    }

    // ---- ticks ----

    /** One transaction of the renewals scheduler: committed, or rolled back when any pass raised. */
    method RunTick(env: Env, c: Clock, raised: bool) returns (result: TickResult)
      requires GoodEnv(env) && renewals.Keys <= issued
      modifies this`renewals, this`issued, this`ledger, this`tasks, this`outbox
      ensures fresh(result)
      ensures raised ==> State() == old(State())
      ensures !raised ==> RenewalsTick(env, c, old(State()), State()) && Balanced(old(State()), State(), result.Counts())
      ensures !raised ==> exists t, n, e, ch ::
        TickVia(env, c, old(State()), t, State(), n, e, ch) && result.skipped == TickSkips(env, c, old(State()), t, n, e, ch)
    {
      hide Balanced, AsAtStart, VersionFold, RenewalFold, Returns, VersionSkipCount, RenewalSkipCount;
      ghost var s := State();
      var saved := (renewals, issued, ledger, tasks, outbox);
      result := new TickResult();
      BalancedStart(s);
      WalkVersions(OpenAtLead, env, c, result, s);
      ghost var s1 := State();
      WalkVersions(ShortAssessments, env, c, result, s);
      ghost var s2 := State();
      ghost var n := WalkRenewals(Nudges, env, c, result, s);
      ghost var s3 := State();
      WalkVersions(NoticeDates, env, c, result, s);
      ghost var s4 := State();
      ghost var e := WalkRenewals(Escalations, env, c, result, s);
      ghost var s5 := State();
      ghost var ch := WalkRenewals(Churn, env, c, result, s);
      assert TickVia(env, c, s, Trace(s1, s2, s3, s4, s5), State(), n, e, ch);
      if raised {
        renewals, issued, ledger, tasks, outbox := saved.0, saved.1, saved.2, saved.3, saved.4;
      }
    }
  }

  lemma ActiveIsQuery(s: Store, opp: nat, termEnd: int)
    ensures Active(s, opp, termEnd) <==> exists id :: id in s.renewals && IsOpenFor(s.renewals[id], opp, termEnd)
  {
  }
}
