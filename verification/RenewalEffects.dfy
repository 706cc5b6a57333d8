/**
 The ledger's purpose, over runs of both schedulers: no trigger makes a second task or notifies a second
 time, whatever ticks commit or roll back and at whatever instants.
 */
module RenewalEffects {
  import opened Text
  import opened Calendar
  import opened Ledger
  import opened RenewalModel
  import opened PortfolioScheduler
  import opened RenewalTick
  import opened RenewalRuns

  /** What a task is about; the owner is not part of it. */
  datatype Item = ForRenewal(renewal: nat) | ForNotice(opp: nat, notice: int) | ForEngagement(engagement: nat, end: int)

  function ItemOf(t: TaskRow): Item {
    match t
    case RenewalReview(id, _, _) => ForRenewal(id)
    case NoticeReview(opp, _, due) => ForNotice(opp, due)
    case EngagementReview(id, _, due) => ForEngagement(id, due)
  }

  function Items(tasks: seq<TaskRow>): (items: seq<Item>)
    ensures |items| == |tasks| && forall i :: 0 <= i < |tasks| ==> items[i] == ItemOf(tasks[i])
  {
    seq(|tasks|, i requires 0 <= i < |tasks| => ItemOf(tasks[i]))
  }

  /** The event a notice is about has happened, and leaves a mark that stays. */
  ghost predicate Happened(s: Store, subject: Subject) {
    match subject
    case ForTrigger(key) => key in s.ledger
    case ForOpening(id) => id in s.issued
    case ForChurn(id) => id in s.issued && (id in s.renewals ==> s.renewals[id].status != Open)
  }

  ghost predicate Filed(s: Store, item: Item) {
    match item
    case ForRenewal(id) => id in s.issued
    case ForNotice(opp, notice) => NoticeTask(opp, notice) in s.ledger
    case ForEngagement(id, end) => PortfolioRenewal(id, end) in s.ledger
  }

  /**
   Each subject has notified one user, once per channel; each renewal, each notice date of an opportunity and
   each end of an engagement has one task; and all of them bear the mark that keeps them from recurring.
   */
  ghost predicate EffectsOnce(s: Store) {
    && (forall n :: n in s.outbox ==> s.outbox[n] == 1 && Happened(s, n.subject))
    && (forall m, n :: m in s.outbox && n in s.outbox && m.subject == n.subject ==> m.user == n.user)
    && (forall i, j :: 0 <= i < j < |s.tasks| ==> ItemOf(s.tasks[i]) != ItemOf(s.tasks[j]))
    && (forall i :: 0 <= i < |s.tasks| ==> Filed(s, ItemOf(s.tasks[i])))
  }

  /** Marks stay: keys and identifiers are kept, and what is not open is not opened again. */
  ghost predicate Onward(s: Store, s': Store) { ClosedStays(s, s') && s.ledger <= s'.ledger }

  lemma MarksStay(s: Store, s': Store)
    requires Onward(s, s')
    ensures forall x :: Happened(s, x) ==> Happened(s', x)
    ensures forall x :: Filed(s, x) ==> Filed(s', x)
  {
  }

  /** A step without effects. */
  lemma NoEffects(s: Store, s': Store)
    requires EffectsOnce(s) && Onward(s, s') && s'.outbox == s.outbox && s'.tasks == s.tasks
    ensures EffectsOnce(s')
  {
    hide Happened, Filed, Onward;
    MarksStay(s, s');
  }

  lemma FanOutMembers(user: Option<nat>, subject: Subject)
    ensures forall n :: n in FanOut(user, subject) ==>
      FanOut(user, subject)[n] == 1 && n.subject == subject && user == Some(n.user)
  {
  }

  /** A first notice about something that had not happened yet. */
  lemma NewNotice(s: Store, s': Store, user: Option<nat>, subject: Subject)
    requires EffectsOnce(s) && Onward(s, s') && s'.outbox == s.outbox + FanOut(user, subject) && s'.tasks == s.tasks
    requires !Happened(s, subject) && Happened(s', subject)
    ensures EffectsOnce(s')
  {
    hide Happened, Filed, Onward, FanOut;
    MarksStay(s, s');
    FanOutMembers(user, subject);
  }

  /** A first notice with a first task about something not filed yet. */
  lemma NewTaskAndNotice(s: Store, s': Store, t: TaskRow, user: Option<nat>, subject: Subject)
    requires EffectsOnce(s) && Onward(s, s') && s'.outbox == s.outbox + FanOut(user, subject) && s'.tasks == s.tasks + [t]
    requires !Happened(s, subject) && Happened(s', subject) && !Filed(s, ItemOf(t)) && Filed(s', ItemOf(t))
    ensures EffectsOnce(s')
  {
    hide Happened, Filed, Onward, FanOut, ItemOf;
    MarksStay(s, s');
    FanOutMembers(user, subject);
  }

  // ---- rows ---------------------------------------------------------------------

  lemma AnnounceEffects(s: Store, key: Key, user: Option<nat>)
    requires EffectsOnce(s) && s.renewals.Keys <= s.issued
    ensures EffectsOnce(Announce(s, key, user))
  {
    hide EffectsOnce, FanOut;
    if key !in s.ledger { NewNotice(s, Announce(s, key, user), user, ForTrigger(key)); }
  }

  lemma OpenEffects(env: Env, s: Store, opp: nat, termEnd: int, wall: int)
    requires GoodEnv(env) && EffectsOnce(s) && s.renewals.Keys <= s.issued
    ensures EffectsOnce(OpenRenewal(env, s, opp, termEnd, wall))
  {
    hide EffectsOnce, FanOut, Exists, OwnerOf;
    if !Exists(s, opp, termEnd) {
      var id := env.mint(s.issued);
      NewTaskAndNotice(s, OpenRenewal(env, s, opp, termEnd, wall), RenewalReview(id, OwnerOf(s, opp), termEnd),
                       OwnerOf(s, opp), ForOpening(id));
    }
  }

  lemma RecordedOpenEffects(env: Env, s: Store, key: Key, opp: nat, termEnd: int, wall: int)
    requires GoodEnv(env) && EffectsOnce(s) && s.renewals.Keys <= s.issued
    ensures EffectsOnce(Recorded(s, key)) && EffectsOnce(OpenRenewal(env, Recorded(s, key), opp, termEnd, wall))
  {
    hide EffectsOnce, OpenRenewal;
    NoEffects(s, Recorded(s, key));
    OpenEffects(env, Recorded(s, key), opp, termEnd, wall);
  }

  lemma VersionRowEffects(pass: VersionPass, env: Env, c: Clock, s: Store, v: Version)
    requires GoodEnv(env) && EffectsOnce(s) && s.renewals.Keys <= s.issued
    ensures EffectsOnce(VersionRow(pass, env, c, s, v))
  {
    hide EffectsOnce, OpenRenewal, FanOut, Active, GoodEnv;
    match pass
    case OpenAtLead =>
      if OpenDue(v, c) {
        RecordedOpenEffects(env, s, RenewalOpenLead(v.opp, v.termEnd.value), v.opp, v.termEnd.value, c.wall);
      }
    case ShortAssessments =>
      if ShortDue(v, c) {
        RecordedOpenEffects(env, s, ShortAssessment(v.id, v.termEnd.value), v.opp, v.termEnd.value, c.wall);
      }
    case NoticeDates =>
      if NoticeDue(v, c) && NoticeTask(v.opp, v.notice.value) !in s.ledger {
        NewTaskAndNotice(s, NoticeRow(env, c, s, v), NoticeReview(v.opp, env.legalHead, v.notice.value),
                         env.legalHead, ForTrigger(NoticeTask(v.opp, v.notice.value)));
      }
  }

  lemma {:induction false} VersionFoldEffects(pass: VersionPass, env: Env, c: Clock, s: Store, vs: seq<Version>)
    requires GoodEnv(env) && EffectsOnce(s) && s.renewals.Keys <= s.issued
    ensures EffectsOnce(VersionFold(pass, env, c, s, vs))
    decreases |vs|
  {
    hide EffectsOnce, VersionRow, Grown, GoodEnv;
    if vs != [] {
      VersionFoldEffects(pass, env, c, s, vs[..|vs| - 1]);
      VersionFoldGrows(pass, env, c, s, vs[..|vs| - 1]);
      var before := VersionFold(pass, env, c, s, vs[..|vs| - 1]);
      GrownLedger(Floor(pass, c), s, before);
      VersionRowEffects(pass, env, c, before, vs[|vs| - 1]);
    }
  }

  lemma {:induction false} AnnouncingFoldEffects(pass: RenewalPass, env: Env, c: Clock, s: Store, rows: seq<nat>)
    requires pass != Churn && EffectsOnce(s) && s.renewals.Keys <= s.issued && RowsExist(s, rows)
    ensures EffectsOnce(RenewalFold(pass, env, c, s, rows))
    decreases |rows|
  {
    hide EffectsOnce, Grown, Announce, OwnerOf;
    if rows != [] {
      var init, id := rows[..|rows| - 1], rows[|rows| - 1];
      AnnouncingFoldEffects(pass, env, c, s, init);
      AnnouncingFoldGrows(pass, env, c, s, init);
      var before := RenewalFold(pass, env, c, s, init);
      if pass == Nudges {
        AnnounceEffects(before, RenewalNudge(id, c.UtcDay()), OwnerOf(before, before.renewals[id].opp));
      } else {
        AnnounceEffects(before, RenewalEscalation(id, EscalationLevel(before.renewals[id].termEnd - c.UtcDay())), env.salesHead);
      }
    }
  }

  lemma ChurnRowEffects(env: Env, c: Clock, s: Store, id: nat)
    requires EffectsOnce(s) && s.renewals.Keys <= s.issued && id in s.renewals && s.renewals[id].status == Open
    ensures EffectsOnce(ChurnRow(env, c, s, id))
  {
    hide EffectsOnce, FanOut, OwnerOf;
    var r := s.renewals[id];
    var key, owner := RenewalChurn(id, r.termEnd), OwnerOf(s, r.opp);
    if key !in s.ledger {
      var told := s.(renewals := s.renewals[id := r.(status := RenewalStatus.Churned)], outbox := s.outbox + FanOut(owner, ForChurn(id)));
      NewNotice(s, told, owner, ForChurn(id));
      NewNotice(told, ChurnRow(env, c, s, id), env.salesHead, ForTrigger(key));
    }
  }

  lemma {:induction false} ChurnFoldEffects(env: Env, c: Clock, s: Store, rows: seq<nat>)
    requires Sound(s) && EffectsOnce(s) && RowsExist(s, rows)
    requires forall i :: 0 <= i < |rows| ==> s.renewals[rows[i]].status == Open
    requires forall i, j :: 0 <= i < j < |rows| ==> rows[i] != rows[j]
    ensures EffectsOnce(RenewalFold(Churn, env, c, s, rows))
    decreases |rows|
  {
    hide EffectsOnce, ChurnRow, Sound;
    if rows != [] {
      var init, id := rows[..|rows| - 1], rows[|rows| - 1];
      ChurnFoldEffects(env, c, s, init);
      ChurnFoldChurns(env, c, s, init);
      SoundKeys(s);
      assert id !in RowSet(init);
      ChurnRowEffects(env, c, RenewalFold(Churn, env, c, s, init), id);
    }
  }

  lemma EngagementRowEffects(env: Env, today: int, wall: int, s: Store, e: Engagement)
    requires GoodEnv(env) && EffectsOnce(s) && s.renewals.Keys <= s.issued
    ensures EffectsOnce(EngagementRow(env, today, wall, s, e))
  {
    hide EffectsOnce, OpenRenewal, FanOut, GoodEnv, EngagementDue, KnownUser;
    if EngagementDue(e, today) {
      if e.opp.Some? && e.opp.value in s.owners {
        OpenEffects(env, s, e.opp.value, e.end, wall);
      } else if PortfolioRenewal(e.id, e.end) !in s.ledger {
        NewTaskAndNotice(s, ReviewRow(env, s, e), EngagementReview(e.id, KnownUser(env, e.owner), e.end),
                         KnownUser(env, e.owner), ForTrigger(PortfolioRenewal(e.id, e.end)));
      }
    }
  }

  lemma {:induction false} EngagementFoldEffects(env: Env, today: int, wall: int, s: Store, es: seq<Engagement>)
    requires GoodEnv(env) && EffectsOnce(s) && s.renewals.Keys <= s.issued
    ensures EffectsOnce(EngagementFold(env, today, wall, s, es))
    decreases |es|
  {
    hide EffectsOnce, EngagementRow, Grown, GoodEnv, Covered;
    if es != [] {
      EngagementFoldEffects(env, today, wall, s, es[..|es| - 1]);
      EngagementFoldCovers(env, today, wall, s, es[..|es| - 1]);
      var before := EngagementFold(env, today, wall, s, es[..|es| - 1]);
      GrownLedger(today, s, before);
      EngagementRowEffects(env, today, wall, before, es[|es| - 1]);
    }
  }

  lemma {:induction false} DigestFoldEffects(forecast: Forecast, es: seq<Engagement>, today: int, s: Store, owners: seq<nat>)
    requires EffectsOnce(s) && s.renewals.Keys <= s.issued
    ensures EffectsOnce(DigestFold(forecast, es, today, s, owners))
    decreases |owners|
  {
    hide EffectsOnce, Announce, Grown, Finding, GroupOf, Told;
    if owners != [] {
      DigestFoldEffects(forecast, es, today, s, owners[..|owners| - 1]);
      DigestFoldTells(forecast, es, today, s, owners[..|owners| - 1]);
      var before := DigestFold(forecast, es, today, s, owners[..|owners| - 1]);
      GrownLedger(today, s, before);
      AnnounceEffects(before, PortfolioNightly(owners[|owners| - 1], today), Some(owners[|owners| - 1]));
    }
  }

  // ---- ticks and runs -----------------------------------------------------------

  lemma TickEffects(env: Env, c: Clock, s: Store, s': Store)
    requires GoodEnv(env) && Sound(s) && c.Valid() && EffectsOnce(s) && RenewalsTick(env, c, s, s')
    ensures EffectsOnce(s')
  {
    hide GoodEnv, Sound, Opening, EffectsOnce, VersionFold, RenewalFold;
    var t, n, e, ch :| TickVia(env, c, s, t, s', n, e, ch);
    TickShape(env, c, s, t, s', n, e, ch);
    SoundKeys(s);
    VersionFoldEffects(OpenAtLead, env, c, s, s.versions);
    VersionFoldEffects(ShortAssessments, env, c, t.atLead, s.versions);
    AnnouncingFoldEffects(Nudges, env, c, t.short, n);
    AnnouncingFoldGrows(Nudges, env, c, t.short, n);
    VersionFoldEffects(NoticeDates, env, c, t.nudged, s.versions);
    VersionFoldGrows(NoticeDates, env, c, t.nudged, s.versions);
    AnnouncingFoldEffects(Escalations, env, c, t.noticed, e);
    assert forall i :: 0 <= i < |ch| ==> Selected(Churn, c, t.escalated, ch[i]);
    ChurnFoldEffects(env, c, t.escalated, ch);
  }

  lemma PortfolioTickEffects(env: Env, forecast: Forecast, today: int, wall: int, byEnd: seq<Engagement>, byName: seq<Engagement>, s: Store)
    requires GoodEnv(env) && EffectsOnce(s) && s.renewals.Keys <= s.issued
    ensures EffectsOnce(PortfolioTick(env, forecast, today, wall, byEnd, byName, s))
  {
    hide GoodEnv, EffectsOnce, EngagementFold, DigestFold, OwnersIn, Grown, Covered;
    EngagementFoldEffects(env, today, wall, s, byEnd);
    EngagementFoldCovers(env, today, wall, s, byEnd);
    GrownLedger(today, s, EngagementFold(env, today, wall, s, byEnd));
    DigestFoldEffects(forecast, byName, today, EngagementFold(env, today, wall, s, byEnd), OwnersIn(byName, today));
  }

  /**
   Other writers add none of the schedulers' notices and tasks and take no key back; they may deliver notices,
   reassign tasks and remove either.
   */
  ghost predicate EffectsLeftAlone(s: Store, s': Store) {
    && s.ledger <= s'.ledger
    && (forall n :: s'.outbox[n] <= s.outbox[n])
    && multiset(Items(s'.tasks)) <= multiset(Items(s.tasks))
  }

  lemma ItemsOnce(tasks: seq<TaskRow>)
    ensures (forall i, j :: 0 <= i < j < |tasks| ==> ItemOf(tasks[i]) != ItemOf(tasks[j])) <==>
      forall x :: multiset(Items(tasks))[x] <= 1
  {
    OnceEach(Items(tasks));
  }

  lemma {:induction false} OnceEach(items: seq<Item>)
    ensures (forall i, j :: 0 <= i < j < |items| ==> items[i] != items[j]) <==> forall x :: multiset(items)[x] <= 1
  {
    if items != [] {
      var init, last := items[..|items| - 1], items[|items| - 1];
      assert items == init + [last];
      OnceEach(init);
      assert multiset(items) == multiset(init) + multiset{last};
      if forall i, j :: 0 <= i < j < |items| ==> items[i] != items[j] {
        assert last !in init;
        assert forall i, j :: 0 <= i < j < |init| ==> init[i] != init[j];
      }
      if forall x :: multiset(items)[x] <= 1 {
        assert multiset(items)[last] == multiset(init)[last] + 1;
        assert last !in init;
        forall x ensures multiset(init)[x] <= 1 { assert multiset(items)[x] <= 1; }
      }
    }
  }

  lemma OutsideEffects(s: Store, s': Store)
    requires EffectsOnce(s) && OutsideChange(s, s') && EffectsLeftAlone(s, s')
    ensures EffectsOnce(s')
  {
    hide Happened, Filed, Items, ItemOf;
    assert Onward(s, s');
    MarksStay(s, s');
    forall n | n in s'.outbox ensures n in s.outbox && s'.outbox[n] == 1 { assert s'.outbox[n] <= s.outbox[n]; }
    ItemsOnce(s.tasks);
    forall x ensures multiset(Items(s'.tasks))[x] <= 1 {
      assert multiset(Items(s'.tasks))[x] <= multiset(Items(s.tasks))[x];
    }
    ItemsOnce(s'.tasks);
    forall i | 0 <= i < |s'.tasks| ensures Filed(s', ItemOf(s'.tasks[i])) {
      assert Items(s'.tasks)[i] in multiset(Items(s'.tasks));
      assert Items(s'.tasks)[i] in multiset(Items(s.tasks));
      var j :| 0 <= j < |Items(s.tasks)| && Items(s.tasks)[j] == Items(s'.tasks)[i];
    }
  }

  lemma StepEffects(e: Event, s: Store, s': Store)
    requires Sound(s) && EffectsOnce(s) && Step(e, s, s') && (e.Outside? ==> EffectsLeftAlone(s, s'))
    ensures EffectsOnce(s')
  {
    hide GoodEnv, EffectsOnce, RenewalsTick, PortfolioTick, Lists;
    match e
    case Renewals(env, c, committed) => if committed { TickEffects(env, c, s, s'); }
    case Portfolio(env, forecast, today, wall, byEnd, byName, committed) =>
      if committed { PortfolioTickEffects(env, forecast, today, wall, byEnd, byName, s); }
    case Outside => OutsideEffects(s, s');
  }

  /**
   Over any run of committed and rolled-back ticks of both schedulers and outside changes: one user notified
   once per channel about each trigger, opening and churn; one task for each renewal, for each notice date of
   an opportunity, and for each end of an engagement.
   */
  lemma {:induction false} EffectsHappenOnce(states: seq<Store>, events: seq<Event>)
    requires Run(states, events) && Sound(states[0]) && EffectsOnce(states[0])
    requires forall i :: 0 <= i < |events| && events[i].Outside? ==> EffectsLeftAlone(states[i], states[i + 1])
    ensures forall i :: 0 <= i < |states| ==> EffectsOnce(states[i])
    decreases |events|
  {
    hide Sound, Step, EffectsOnce, EffectsLeftAlone;
    if events != [] {
      var n := |events| - 1;
      NoneOverdueThroughoutRun(states, events);
      assert Run(states[..n + 1], events[..n]) by {
        assert forall i :: 0 <= i < n ==> Step(events[i], states[i], states[i + 1]);
      }
      EffectsHappenOnce(states[..n + 1], events[..n]);
      assert forall i :: 0 <= i <= n ==> states[..n + 1][i] == states[i];
      StepEffects(events[n], states[n], states[n + 1]);
    }
  }
}
