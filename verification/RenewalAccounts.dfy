/**
 The tasks and notices of both renewal schedulers, accounted for: each row they add follows from a renewal
 that is new, one that is churned, or a trigger that is recorded, and goes to the person it is for.
 */
module RenewalAccounts {
  import opened Text
  import opened Calendar
  import opened Ledger
  import opened RenewalModel
  import opened PortfolioScheduler
  import opened RenewalTick

  // ---- who and what -------------------------------------------------------------

  /** The owner of an opportunity, when it has one. */
  ghost predicate Owns(s: Store, opp: nat, user: nat) { opp in s.owners && s.owners[opp] == Some(user) }

  /** The user owns the engagement and exists. */
  ghost predicate OwnsEngagement(env: Env, s: Store, id: nat, end: int, user: nat) {
    user in env.users && exists e :: e in s.engagements && e.id == id && e.end == end && e.owner == Some(user)
  }

  /** The person a notice is for. */
  ghost predicate IsFor(env: Env, s: Store, subject: Subject, user: nat) {
    match subject
    case ForOpening(id) => id in s.renewals && Owns(s, s.renewals[id].opp, user)
    case ForChurn(id) => id in s.renewals && Owns(s, s.renewals[id].opp, user)
    case ForTrigger(RenewalNudge(id, _)) => id in s.renewals && Owns(s, s.renewals[id].opp, user)
    case ForTrigger(NoticeTask(_, _)) => env.legalHead == Some(user)
    case ForTrigger(RenewalEscalation(_, _)) => env.salesHead == Some(user)
    case ForTrigger(RenewalChurn(_, _)) => env.salesHead == Some(user)
    case ForTrigger(PortfolioRenewal(id, end)) => OwnsEngagement(env, s, id, end, user)
    case ForTrigger(PortfolioNightly(owner, _)) => owner == user
    case _ => false
  }

  /** What the notice is about came about between `a` and `b`. */
  ghost predicate CameAbout(a: Store, b: Store, subject: Subject) {
    match subject
    case ForTrigger(key) => key in b.ledger && key !in a.ledger
    case ForOpening(id) => id in b.renewals && id !in a.renewals
    case ForChurn(id) =>
      && id in b.renewals && b.renewals[id].status == RenewalStatus.Churned
      && (id in a.renewals ==> a.renewals[id].status != RenewalStatus.Churned)
  }

  /** The task is the one of a renewal, a notice date or an engagement's end that came about between `a` and `b`. */
  ghost predicate TaskCameAbout(env: Env, a: Store, b: Store, t: TaskRow) {
    match t
    case RenewalReview(id, owner, due) =>
      && id in b.renewals && id !in a.renewals && due == b.renewals[id].termEnd
      && owner == if b.renewals[id].opp in b.owners then b.owners[b.renewals[id].opp] else None
    case NoticeReview(opp, owner, due) =>
      NoticeTask(opp, due) in b.ledger && NoticeTask(opp, due) !in a.ledger && owner == env.legalHead
    case EngagementReview(id, owner, due) =>
      && PortfolioRenewal(id, due) in b.ledger && PortfolioRenewal(id, due) !in a.ledger
      && if owner.Some? then OwnsEngagement(env, b, id, due, owner.value) else forall user :: !OwnsEngagement(env, b, id, due, user)
  }

  // ---- the account --------------------------------------------------------------

  /** Rows and keys stay, rows keep their opportunity and term end, and a churned one stays churned. */
  ghost predicate Stays(a: Store, b: Store) {
    && a.ledger <= b.ledger && b.owners == a.owners && b.engagements == a.engagements && b.versions == a.versions
    && forall id :: id in a.renewals ==>
         && id in b.renewals && b.renewals[id].opp == a.renewals[id].opp && b.renewals[id].termEnd == a.renewals[id].termEnd
         && (a.renewals[id].status == RenewalStatus.Churned ==> b.renewals[id].status == RenewalStatus.Churned)
  }

  ghost predicate NudgesNameRows(a: Store, b: Store) {
    forall k: Key :: k.RenewalNudge? && k in b.ledger && k !in a.ledger ==> k.renewal in b.renewals
  }

  /** One row for each channel of what came about, to the person it is for; one task for each item; nothing else. */
  ghost predicate Accounted(env: Env, a: Store, b: Store) {
    && Stays(a, b) && NudgesNameRows(a, b)
    && (forall n :: b.outbox[n] == a.outbox[n] + if CameAbout(a, b, n.subject) && IsFor(env, b, n.subject, n.user) then 1 else 0)
    && a.tasks <= b.tasks
    && (forall t :: multiset(b.tasks)[t] == multiset(a.tasks)[t] + if TaskCameAbout(env, a, b, t) then 1 else 0)
  }

  lemma Nothing(env: Env, s: Store)
    ensures Accounted(env, s, s)
  {
    hide OwnsEngagement;
  }

  lemma StaysTrans(a: Store, b: Store, c: Store)
    requires Stays(a, b) && Stays(b, c)
    ensures Stays(a, c)
  {
  }

  lemma CameAboutSplits(a: Store, b: Store, c: Store, subject: Subject)
    requires Stays(a, b) && Stays(b, c)
    ensures CameAbout(a, c, subject) <==> CameAbout(a, b, subject) || CameAbout(b, c, subject)
    ensures !(CameAbout(a, b, subject) && CameAbout(b, c, subject))
  {
  }

  lemma ForWhomStays(env: Env, a: Store, b: Store, c: Store, subject: Subject, user: nat)
    requires Stays(b, c) && CameAbout(a, b, subject)
    requires NudgesNameRows(a, b)
    ensures IsFor(env, b, subject, user) <==> IsFor(env, c, subject, user)
  {
  }

  lemma OwnsStays(env: Env, b: Store, c: Store, id: nat, end: int, user: nat)
    requires Stays(b, c)
    ensures OwnsEngagement(env, b, id, end, user) <==> OwnsEngagement(env, c, id, end, user)
  {
  }

  lemma TasksSplit(env: Env, a: Store, b: Store, c: Store, t: TaskRow)
    requires Stays(a, b) && Stays(b, c)
    ensures TaskCameAbout(env, a, c, t) <==> TaskCameAbout(env, a, b, t) || TaskCameAbout(env, b, c, t)
    ensures !(TaskCameAbout(env, a, b, t) && TaskCameAbout(env, b, c, t))
  {
    hide OwnsEngagement;
    if t.EngagementReview? {
      forall user ensures OwnsEngagement(env, b, t.engagement, t.due, user) <==> OwnsEngagement(env, c, t.engagement, t.due, user) {
        OwnsStays(env, b, c, t.engagement, t.due, user);
      }
    }
  }

  lemma Accumulates(env: Env, a: Store, b: Store, c: Store)
    requires Accounted(env, a, b) && Accounted(env, b, c)
    ensures Accounted(env, a, c)
  {
    hide CameAbout, IsFor, TaskCameAbout, Stays;
    StaysTrans(a, b, c);
    assert NudgesNameRows(a, c) by { NudgesStay(a, b, c); }
    forall n ensures c.outbox[n] == a.outbox[n] + if CameAbout(a, c, n.subject) && IsFor(env, c, n.subject, n.user) then 1 else 0 {
      CameAboutSplits(a, b, c, n.subject);
      if CameAbout(a, b, n.subject) { ForWhomStays(env, a, b, c, n.subject, n.user); }
    }
    forall t ensures multiset(c.tasks)[t] == multiset(a.tasks)[t] + if TaskCameAbout(env, a, c, t) then 1 else 0 {
      TasksSplit(env, a, b, c, t);
    }
  }

  lemma NudgesStay(a: Store, b: Store, c: Store)
    requires NudgesNameRows(a, b) && NudgesNameRows(b, c) && Stays(b, c)
    ensures NudgesNameRows(a, c)
  {
  }

  // ---- single effects -----------------------------------------------------------

  lemma FanOutRows(user: Option<nat>, subject: Subject, n: Notice)
    ensures FanOut(user, subject)[n] == if n.subject == subject && user == Some(n.user) then 1 else 0
  {
    assert n.channel == Email || n.channel == Teams || n.channel == Slack || n.channel == InApp;
  }

  lemma OneMoreTask(tasks: seq<TaskRow>, t: TaskRow, u: TaskRow)
    ensures multiset(tasks + [t])[u] == multiset(tasks)[u] + if u == t then 1 else 0
  {
  }

  /** A key that notifies nobody and files nothing. */
  lemma SilentKey(env: Env, s: Store, key: Key)
    requires key.RenewalOpenLead? || key.ShortAssessment?
    ensures Accounted(env, s, Recorded(s, key))
  {
    hide OwnsEngagement;
  }

  /** A key whose trigger notifies `user` and files nothing. */
  lemma AnnounceAccounted(env: Env, s: Store, key: Key, user: Option<nat>)
    requires key.RenewalNudge? || key.RenewalEscalation? || key.PortfolioNightly?
    requires key.RenewalNudge? ==> key.renewal in s.renewals
    requires forall u: nat :: IsFor(env, s, ForTrigger(key), u) <==> user == Some(u)
    ensures Accounted(env, s, Announce(s, key, user))
  {
    hide FanOut, OwnsEngagement;
    if key in s.ledger {
      Nothing(env, s);
    } else {
      var s' := Announce(s, key, user);
      forall n ensures s'.outbox[n] == s.outbox[n] + if CameAbout(s, s', n.subject) && IsFor(env, s', n.subject, n.user) then 1 else 0 {
        FanOutRows(user, ForTrigger(key), n);
      }
    }
  }

  /** A key whose trigger notifies `user` and files the task `t`. */
  lemma FiledAccounted(env: Env, s: Store, s': Store, key: Key, user: Option<nat>, t: TaskRow)
    requires key !in s.ledger
    requires s' == s.(ledger := s.ledger + {key}, tasks := s.tasks + [t], outbox := s.outbox + FanOut(user, ForTrigger(key)))
    requires key.NoticeTask? || key.PortfolioRenewal?
    requires forall u: nat :: IsFor(env, s, ForTrigger(key), u) <==> user == Some(u)
    requires forall u :: TaskCameAbout(env, s, s', u) <==> u == t
    ensures Accounted(env, s, s')
  {
    hide FanOut, OwnsEngagement, TaskCameAbout;
    forall n ensures s'.outbox[n] == s.outbox[n] + if CameAbout(s, s', n.subject) && IsFor(env, s', n.subject, n.user) then 1 else 0 {
      if key.PortfolioRenewal? { OwnsStays(env, s, s', key.engagement, key.end, n.user); }
      FanOutRows(user, ForTrigger(key), n);
    }
    forall u ensures multiset(s'.tasks)[u] == multiset(s.tasks)[u] + if TaskCameAbout(env, s, s', u) then 1 else 0 {
      OneMoreTask(s.tasks, t, u);
    }
  }

  lemma OpeningAccounted(env: Env, s: Store, opp: nat, termEnd: int, wall: int)
    requires GoodEnv(env) && s.renewals.Keys <= s.issued
    ensures Accounted(env, s, OpenRenewal(env, s, opp, termEnd, wall))
  {
    hide FanOut, IsFor, CameAbout, TaskCameAbout, Exists, GoodEnv, OwnerOf;
    if Exists(s, opp, termEnd) {
      Nothing(env, s);
    } else {
      var id, s' := env.mint(s.issued), OpenRenewal(env, s, opp, termEnd, wall);
      FreshId(env, s);
      forall n ensures s'.outbox[n] == s.outbox[n] + if CameAbout(s, s', n.subject) && IsFor(env, s', n.subject, n.user) then 1 else 0 {
        FanOutRows(OwnerOf(s, opp), ForOpening(id), n);
        OpeningNotice(env, s, s', id, opp, n);
      }
      forall u ensures multiset(s'.tasks)[u] == multiset(s.tasks)[u] + if TaskCameAbout(env, s, s', u) then 1 else 0 {
        OneMoreTask(s.tasks, RenewalReview(id, OwnerOf(s, opp), termEnd), u);
        OpeningTask(env, s, s', id, opp, termEnd, u);
      }
    }
  }

  /** `s'` has the row `id` more. */
  ghost predicate OneRowMore(s: Store, s': Store, id: nat, opp: nat, termEnd: int) {
    && id !in s.renewals && s'.renewals.Keys == s.renewals.Keys + {id} && (forall i :: i in s.renewals ==> s'.renewals[i] == s.renewals[i])
    && s'.renewals[id].opp == opp && s'.renewals[id].termEnd == termEnd && s'.renewals[id].status == Open
    && s'.ledger == s.ledger && s'.owners == s.owners
  }

  lemma OpeningNotice(env: Env, s: Store, s': Store, id: nat, opp: nat, n: Notice)
    requires id in s'.renewals && OneRowMore(s, s', id, opp, s'.renewals[id].termEnd)
    ensures CameAbout(s, s', n.subject) && IsFor(env, s', n.subject, n.user)
       <==> n.subject == ForOpening(id) && OwnerOf(s, opp) == Some(n.user)
  {
    hide OwnsEngagement;
  }

  lemma OpeningTask(env: Env, s: Store, s': Store, id: nat, opp: nat, termEnd: int, t: TaskRow)
    requires OneRowMore(s, s', id, opp, termEnd)
    ensures TaskCameAbout(env, s, s', t) <==> t == RenewalReview(id, OwnerOf(s, opp), termEnd)
  {
    hide OwnsEngagement;
  }

  lemma FreshId(env: Env, s: Store)
    requires GoodEnv(env) && s.renewals.Keys <= s.issued
    ensures env.mint(s.issued) !in s.issued && env.mint(s.issued) !in s.renewals
  {
  }

  lemma ChurnAccounted(env: Env, c: Clock, s: Store, id: nat)
    requires id in s.renewals && s.renewals[id].status == Open
    ensures Accounted(env, s, ChurnRow(env, c, s, id))
  {
    hide FanOut, OwnsEngagement;
    var r, s' := s.renewals[id], ChurnRow(env, c, s, id);
    var key := RenewalChurn(id, r.termEnd);
    if key in s.ledger {
      Nothing(env, s);
    } else {
      forall n ensures s'.outbox[n] == s.outbox[n] + if CameAbout(s, s', n.subject) && IsFor(env, s', n.subject, n.user) then 1 else 0 {
        FanOutRows(OwnerOf(s, r.opp), ForChurn(id), n);
        FanOutRows(env.salesHead, ForTrigger(key), n);
      }
    }
  }

  // ---- rows of the passes -------------------------------------------------------

  lemma VersionRowAccounted(pass: VersionPass, env: Env, c: Clock, s: Store, v: Version)
    requires GoodEnv(env) && s.renewals.Keys <= s.issued
    ensures Accounted(env, s, VersionRow(pass, env, c, s, v))
  {
    hide GoodEnv, Accounted, OpenRenewal, Active, AlertDate, FanOut;
    Nothing(env, s);
    match pass
    case OpenAtLead =>
      if OpenDue(v, c) { RecordedOpening(env, s, RenewalOpenLead(v.opp, v.termEnd.value), v.opp, v.termEnd.value, c.wall); }
    case ShortAssessments =>
      if ShortDue(v, c) { RecordedOpening(env, s, ShortAssessment(v.id, v.termEnd.value), v.opp, v.termEnd.value, c.wall); }
    case NoticeDates =>
      if NoticeDue(v, c) { NoticeAccounted(env, c, s, v); }
  }

  lemma RecordedOpening(env: Env, s: Store, key: Key, opp: nat, termEnd: int, wall: int)
    requires GoodEnv(env) && s.renewals.Keys <= s.issued && (key.RenewalOpenLead? || key.ShortAssessment?)
    ensures Accounted(env, s, Recorded(s, key)) && Accounted(env, s, OpenRenewal(env, Recorded(s, key), opp, termEnd, wall))
  {
    hide GoodEnv, Accounted, OpenRenewal;
    SilentKey(env, s, key);
    OpeningAccounted(env, Recorded(s, key), opp, termEnd, wall);
    Accumulates(env, s, Recorded(s, key), OpenRenewal(env, Recorded(s, key), opp, termEnd, wall));
  }

  lemma NoticeAccounted(env: Env, c: Clock, s: Store, v: Version)
    requires NoticeDue(v, c)
    ensures Accounted(env, s, NoticeRow(env, c, s, v))
  {
    hide Accounted, FanOut;
    Nothing(env, s);
    var key, t := NoticeTask(v.opp, v.notice.value), NoticeReview(v.opp, env.legalHead, v.notice.value);
    if key !in s.ledger {
      FiledAccounted(env, s, NoticeRow(env, c, s, v), key, env.legalHead, t);
    }
  }

  lemma {:induction false} VersionFoldAccounted(pass: VersionPass, env: Env, c: Clock, s: Store, vs: seq<Version>)
    requires GoodEnv(env) && s.renewals.Keys <= s.issued
    ensures Accounted(env, s, VersionFold(pass, env, c, s, vs))
    decreases |vs|
  {
    hide GoodEnv, Accounted, VersionRow, Grown;
    if vs == [] {
      Nothing(env, s);
    } else {
      var before := VersionFold(pass, env, c, s, vs[..|vs| - 1]);
      VersionFoldAccounted(pass, env, c, s, vs[..|vs| - 1]);
      VersionFoldGrows(pass, env, c, s, vs[..|vs| - 1]);
      GrownLedger(Floor(pass, c), s, before);
      VersionRowAccounted(pass, env, c, before, vs[|vs| - 1]);
      Accumulates(env, s, before, VersionFold(pass, env, c, s, vs));
    }
  }

  lemma AnnouncingRowAccounted(pass: RenewalPass, env: Env, c: Clock, s: Store, id: nat)
    requires pass != Churn && id in s.renewals
    ensures Accounted(env, s, RenewalRow(pass, env, c, s, id))
  {
    hide Accounted, FanOut, Announce;
    Nothing(env, s);
    if pass == Nudges {
      AnnounceAccounted(env, s, RenewalNudge(id, c.UtcDay()), OwnerOf(s, s.renewals[id].opp));
    } else {
      AnnounceAccounted(env, s, RenewalEscalation(id, EscalationLevel(s.renewals[id].termEnd - c.UtcDay())), env.salesHead);
    }
  }

  lemma {:induction false} AnnouncingFoldAccounted(pass: RenewalPass, env: Env, c: Clock, s: Store, rows: seq<nat>)
    requires pass != Churn && RowsExist(s, rows)
    ensures Accounted(env, s, RenewalFold(pass, env, c, s, rows))
    decreases |rows|
  {
    hide Accounted, RenewalRow;
    if rows == [] {
      Nothing(env, s);
    } else {
      var before := RenewalFold(pass, env, c, s, rows[..|rows| - 1]);
      AnnouncingFoldAccounted(pass, env, c, s, rows[..|rows| - 1]);
      AnnouncingRowAccounted(pass, env, c, before, rows[|rows| - 1]);
      Accumulates(env, s, before, RenewalFold(pass, env, c, s, rows));
    }
  }

  lemma {:induction false} ChurnFoldAccounted(env: Env, c: Clock, s: Store, rows: seq<nat>)
    requires Sound(s) && RowsExist(s, rows)
    requires forall i :: 0 <= i < |rows| ==> s.renewals[rows[i]].status == Open
    requires forall i, j :: 0 <= i < j < |rows| ==> rows[i] != rows[j]
    ensures Accounted(env, s, RenewalFold(Churn, env, c, s, rows))
    decreases |rows|
  {
    hide Accounted, ChurnRow, Sound;
    if rows == [] {
      Nothing(env, s);
    } else {
      var init, id := rows[..|rows| - 1], rows[|rows| - 1];
      var before := RenewalFold(Churn, env, c, s, init);
      ChurnFoldAccounted(env, c, s, init);
      ChurnFoldChurns(env, c, s, init);
      assert id !in RowSet(init);
      ChurnAccounted(env, c, before, id);
      Accumulates(env, s, before, RenewalFold(Churn, env, c, s, rows));
    }
  }

  // ---- the ticks ----------------------------------------------------------------

  /** A committed renewals tick adds the tasks and notices of what it opened, churned and recorded, and no others. */
  lemma TickAccounted(env: Env, c: Clock, s: Store, s': Store)
    requires GoodEnv(env) && Sound(s) && c.Valid() && RenewalsTick(env, c, s, s')
    ensures Accounted(env, s, s')
  {
    hide GoodEnv, Sound, Opening, Accounted, VersionFold, RenewalFold;
    var t, n, e, ch :| TickVia(env, c, s, t, s', n, e, ch);
    TickShape(env, c, s, t, s', n, e, ch);
    SoundKeys(s);
    VersionFoldAccounted(OpenAtLead, env, c, s, s.versions);
    VersionFoldAccounted(ShortAssessments, env, c, t.atLead, s.versions);
    Accumulates(env, s, t.atLead, t.short);
    AnnouncingFoldAccounted(Nudges, env, c, t.short, n);
    AnnouncingFoldGrows(Nudges, env, c, t.short, n);
    Accumulates(env, s, t.short, t.nudged);
    VersionFoldAccounted(NoticeDates, env, c, t.nudged, s.versions);
    Accumulates(env, s, t.nudged, t.noticed);
    AnnouncingFoldAccounted(Escalations, env, c, t.noticed, e);
    Accumulates(env, s, t.noticed, t.escalated);
    assert forall i :: 0 <= i < |ch| ==> Selected(Churn, c, t.escalated, ch[i]);
    ChurnFoldAccounted(env, c, t.escalated, ch);
    Accumulates(env, s, t.escalated, s');
  }
}
