/** One tick of the portfolio scheduler from the outside, read off the engagements, the forecasts and the calendar. */
module PortfolioLaws {
  import opened Text
  import opened Calendar
  import opened Ledger
  import opened RenewalModel
  import opened PortfolioScheduler
  import opened RenewalTick
  import opened RenewalLaws
  import opened RenewalAccounts

  // ---- what is due --------------------------------------------------------------

  ghost predicate OneRowPerId(s: Store) {
    forall e, f :: e in s.engagements && f in s.engagements && e.id == f.id ==> e == f
  }

  /** Of a watched type, and in the last two calendar months before its end. */
  ghost predicate UpForRenewal(e: Engagement, today: int) { e.renews && ReviewTime(today, e.end) }

  /** Sold as an opportunity that is still there. */
  ghost predicate HasDeal(s: Store, e: Engagement) { e.opp.Some? && e.opp.value in s.owners }

  /** The engagement runs and belongs to the owner. */
  ghost predicate Runs(s: Store, e: Engagement, owner: nat, today: int) {
    e in s.engagements && today <= e.end && e.owner == Some(owner)
  }

  ghost function RunningIds(s: Store, owner: nat, today: int): set<nat> {
    set e | e in s.engagements && Runs(s, e, owner, today) :: e.id
  }

  /** The owner has something running that is below the floor, or roll-offs among what is running. */
  ghost predicate HasFindings(forecast: Forecast, s: Store, owner: nat, today: int) {
    && RunningIds(s, owner, today) != {}
    && ((exists e :: Runs(s, e, owner, today) && forecast.belowFloor(e)) || forecast.rollsOff(RunningIds(s, owner, today)))
  }

  ghost predicate IsDue(forecast: Forecast, s: Store, today: int, key: Key) {
    match key
    case PortfolioRenewal(id, end) =>
      exists e :: e in s.engagements && e.id == id && e.end == end && UpForRenewal(e, today) && !HasDeal(s, e)
    case PortfolioNightly(owner, day) => day == today && HasFindings(forecast, s, owner, today)
    case _ => false
  }

  // ---- the first half -----------------------------------------------------------

  lemma DueIs(e: Engagement, today: int)
    requires 1 <= today
    ensures EngagementDue(e, today) <==> UpForRenewal(e, today)
  {
    hide AlertDate, ReviewTime;
    ReviewTimeIs(today, e.end);
  }

  ghost predicate EngagementKey(s: Store, e: Engagement, today: int, key: Key) {
    UpForRenewal(e, today) && !HasDeal(s, e) && key == PortfolioRenewal(e.id, e.end)
  }

  lemma EngagementRowKeys(env: Env, today: int, wall: int, s: Store, e: Engagement, key: Key)
    requires 1 <= today
    ensures key in EngagementRow(env, today, wall, s, e).ledger <==> key in s.ledger || EngagementKey(s, e, today, key)
  {
    hide EngagementDue, UpForRenewal, FanOut, Exists, OwnerOf;
    DueIs(e, today);
  }

  lemma {:induction false} EngagementFoldKeys(env: Env, today: int, wall: int, s: Store, es: seq<Engagement>, key: Key)
    requires GoodEnv(env) && s.renewals.Keys <= s.issued && 1 <= today
    ensures key in EngagementFold(env, today, wall, s, es).ledger <==>
      key in s.ledger || exists e :: e in es && EngagementKey(s, e, today, key)
    decreases |es|
  {
    hide GoodEnv, EngagementRow, UpForRenewal, Opening, Covered;
    if es != [] {
      var init, last := es[..|es| - 1], es[|es| - 1];
      assert es == init + [last];
      var before := EngagementFold(env, today, wall, s, init);
      EngagementFoldKeys(env, today, wall, s, init, key);
      EngagementFoldCovers(env, today, wall, s, init);
      EngagementRowKeys(env, today, wall, before, last, key);
      assert before.owners == s.owners;
      assert EngagementKey(before, last, today, key) <==> EngagementKey(s, last, today, key);
      assert last in es;
    }
  }

  /** The row is that of the engagement's opportunity and end, stamped now. */
  ghost predicate RowFromEngagement(s: Store, today: int, wall: int, e: Engagement, r: Renewal) {
    UpForRenewal(e, today) && HasDeal(s, e) && r == Renewal(e.opp.value, e.end, Open, wall)
  }

  lemma RowOfEngagement(env: Env, today: int, wall: int, s: Store, e: Engagement, id: nat)
    requires 1 <= today
    requires id in EngagementRow(env, today, wall, s, e).renewals && id !in s.renewals
    ensures RowFromEngagement(s, today, wall, e, EngagementRow(env, today, wall, s, e).renewals[id])
  {
    hide EngagementDue, UpForRenewal, FanOut, Exists, OwnerOf;
    DueIs(e, today);
  }

  lemma {:induction false} RowOfFold(env: Env, today: int, wall: int, s: Store, es: seq<Engagement>, id: nat)
    requires GoodEnv(env) && s.renewals.Keys <= s.issued && 1 <= today
    requires id in EngagementFold(env, today, wall, s, es).renewals && id !in s.renewals
    ensures exists e :: e in es && RowFromEngagement(s, today, wall, e, EngagementFold(env, today, wall, s, es).renewals[id])
    decreases |es|
  {
    hide GoodEnv, EngagementRow, UpForRenewal, Opening, Covered;
    assert es != [];
    var init, last := es[..|es| - 1], es[|es| - 1];
    assert es == init + [last];
    var before := EngagementFold(env, today, wall, s, init);
    EngagementFoldCovers(env, today, wall, s, init);
    EngagementRowGrows(env, today, wall, before, last);
    if id in before.renewals {
      RowOfFold(env, today, wall, s, init, id);
    } else {
      RowOfEngagement(env, today, wall, before, last, id);
      assert before.owners == s.owners && last in es;
      assert RowFromEngagement(s, today, wall, last, EngagementFold(env, today, wall, s, es).renewals[id]);
    }
  }

  // ---- the second half ----------------------------------------------------------

  lemma FindingIs(forecast: Forecast, s: Store, es: seq<Engagement>, owner: nat, today: int)
    requires Lists(es, s)
    ensures owner in OwnersIn(es, today) && Finding(forecast, GroupOf(es, today, owner)) <==> HasFindings(forecast, s, owner, today)
  {
    hide OwnersIn, GroupOf;
    ListsMembers(es, s);
    var group := GroupOf(es, today, owner);
    assert forall e :: e in group <==> Runs(s, e, owner, today);
    assert (set e | e in group :: e.id) == RunningIds(s, owner, today);
    if owner in OwnersIn(es, today) {
      var e :| e in es && today <= e.end && e.owner == Some(owner);
      assert e.id in RunningIds(s, owner, today);
    }
  }

  lemma {:induction false} DigestFoldKeys(forecast: Forecast, es: seq<Engagement>, today: int, s: Store, owners: seq<nat>, key: Key)
    ensures key in DigestFold(forecast, es, today, s, owners).ledger <==>
      || key in s.ledger
      || (key.PortfolioNightly? && key.day == today && key.owner in owners && Finding(forecast, GroupOf(es, today, key.owner)))
    ensures DigestFold(forecast, es, today, s, owners).renewals == s.renewals
    decreases |owners|
  {
    hide Finding, GroupOf, FanOut;
    if owners != [] {
      var init, last := owners[..|owners| - 1], owners[|owners| - 1];
      assert owners == init + [last];
      DigestFoldKeys(forecast, es, today, s, init, key);
    }
  }

  // ---- the tick -----------------------------------------------------------------

  /** A portfolio tick records exactly the reviews and digests that are due. */
  lemma TickRecordsExactly(
      env: Env, forecast: Forecast, today: int, wall: int, byEnd: seq<Engagement>, byName: seq<Engagement>, s: Store, key: Key)
    requires GoodEnv(env) && Sound(s) && 1 <= today && Lists(byEnd, s) && Lists(byName, s)
    ensures key in PortfolioTick(env, forecast, today, wall, byEnd, byName, s).ledger <==> key in s.ledger || IsDue(forecast, s, today, key)
  {
    hide GoodEnv, EngagementFold, DigestFold, OwnersIn, GroupOf, Finding, HasFindings, UpForRenewal, Lists;
    SoundKeys(s);
    ListsMembers(byEnd, s);
    EngagementFoldKeys(env, today, wall, s, byEnd, key);
    DigestFoldKeys(forecast, byName, today, EngagementFold(env, today, wall, s, byEnd), OwnersIn(byName, today), key);
    if key.PortfolioNightly? { FindingIs(forecast, s, byName, key.owner, today); }
  }

  /** A row the tick opened: of an engagement up for renewal, alone for its term end. */
  ghost predicate OpenedFor(s: Store, s': Store, today: int, wall: int, id: nat)
    requires id in s'.renewals
  {
    && (exists e :: e in s.engagements && RowFromEngagement(s, today, wall, e, s'.renewals[id]))
    && forall j :: j in s'.renewals && j != id ==>
         !(s'.renewals[j].opp == s'.renewals[id].opp && s'.renewals[j].termEnd == s'.renewals[id].termEnd)
  }

  /**
   From which day on an engagement has its renewal: a portfolio tick in the last two calendar months before
   the end of a watched engagement with a deal leaves a row for it; old rows stay, and others are not opened.
   */
  lemma TickRows(
      env: Env, forecast: Forecast, today: int, wall: int, byEnd: seq<Engagement>, byName: seq<Engagement>, s: Store)
    requires GoodEnv(env) && Sound(s) && 1 <= today && Lists(byEnd, s) && Lists(byName, s)
    ensures var s' := PortfolioTick(env, forecast, today, wall, byEnd, byName, s);
      && (forall id :: id in s.renewals ==> id in s'.renewals && s'.renewals[id] == s.renewals[id])
      && (forall id :: id in s'.renewals && id !in s.renewals ==> OpenedFor(s, s', today, wall, id))
      && forall e :: e in s.engagements && UpForRenewal(e, today) && HasDeal(s, e) ==> HasRow(s', e.opp.value, e.end)
  {
    hide GoodEnv, EngagementFold, DigestFold, OwnersIn, GroupOf, Finding, UpForRenewal, Lists;
    hide Opening, Told, HasRow, Exists, RowFromEngagement;
    var s' := PortfolioTick(env, forecast, today, wall, byEnd, byName, s);
    PortfolioTickGrows(env, forecast, today, wall, byEnd, byName, s);
    SoundKeys(s);
    ListsMembers(byEnd, s);
    DigestFoldKeys(forecast, byName, today, EngagementFold(env, today, wall, s, byEnd), OwnersIn(byName, today), PortfolioNightly(0, 0));
    forall id | id in s'.renewals && id !in s.renewals ensures OpenedFor(s, s', today, wall, id) {
      RowOfFold(env, today, wall, s, byEnd, id);
    }
    forall e | e in s.engagements && UpForRenewal(e, today) && HasDeal(s, e) ensures HasRow(s', e.opp.value, e.end) {
      DueIs(e, today);
      assert Covered(today, s', e);
      RowsAre(s', e.opp.value, e.end);
    }
  }

  // ---- tasks and notices --------------------------------------------------------

  lemma OwnerOfEngagement(env: Env, s: Store, e: Engagement)
    requires OneRowPerId(s) && e in s.engagements
    ensures forall u: nat :: OwnsEngagement(env, s, e.id, e.end, u) <==> KnownUser(env, e.owner) == Some(u)
  {
  }

  lemma ReviewTaskIs(env: Env, s: Store, s': Store, e: Engagement, t: TaskRow)
    requires OneRowPerId(s) && e in s.engagements && PortfolioRenewal(e.id, e.end) !in s.ledger
    requires s' == s.(ledger := s.ledger + {PortfolioRenewal(e.id, e.end)}, tasks := s'.tasks, outbox := s'.outbox)
    ensures TaskCameAbout(env, s, s', t) <==> t == EngagementReview(e.id, KnownUser(env, e.owner), e.end)
  {
    hide OwnsEngagement, KnownUser;
    OwnerOfEngagement(env, s, e);
    forall u: nat ensures OwnsEngagement(env, s', e.id, e.end, u) <==> KnownUser(env, e.owner) == Some(u) {
      SameEngagements(env, s, s', e.id, e.end, u);
    }
    if t.EngagementReview? && t.engagement == e.id && t.due == e.end {
      SameOwner(env, s', e, t.owner);
    }
  }

  lemma SameEngagements(env: Env, a: Store, b: Store, id: nat, end: int, user: nat)
    requires b.engagements == a.engagements
    ensures OwnsEngagement(env, a, id, end, user) <==> OwnsEngagement(env, b, id, end, user)
  {
  }

  lemma SameOwner(env: Env, s: Store, e: Engagement, owner: Option<nat>)
    requires forall u: nat :: OwnsEngagement(env, s, e.id, e.end, u) <==> KnownUser(env, e.owner) == Some(u)
    ensures (if owner.Some? then OwnsEngagement(env, s, e.id, e.end, owner.value)
             else forall user: nat :: !OwnsEngagement(env, s, e.id, e.end, user)) <==> owner == KnownUser(env, e.owner)
  {
    hide OwnsEngagement, KnownUser;
    var known := KnownUser(env, e.owner);
    if owner.None? && known.Some? { assert OwnsEngagement(env, s, e.id, e.end, known.value); }
  }

  lemma ReviewAccounted(env: Env, s: Store, e: Engagement)
    requires OneRowPerId(s) && e in s.engagements
    ensures Accounted(env, s, ReviewRow(env, s, e))
  {
    hide Accounted, FanOut, KnownUser, ReviewRow, OwnsEngagement, TaskCameAbout;
    Nothing(env, s);
    ReviewRowIs(env, s, e);
    var key, owner, s' := PortfolioRenewal(e.id, e.end), KnownUser(env, e.owner), ReviewRow(env, s, e);
    if key !in s.ledger {
      OwnerOfEngagement(env, s, e);
      var t := EngagementReview(e.id, owner, e.end);
      forall u ensures TaskCameAbout(env, s, s', u) <==> u == t { ReviewTaskIs(env, s, s', e, u); }
      FiledAccounted(env, s, s', key, owner, t);
    }
  }

  lemma EngagementRowAccounted(env: Env, today: int, wall: int, s: Store, e: Engagement)
    requires GoodEnv(env) && s.renewals.Keys <= s.issued && OneRowPerId(s) && e in s.engagements
    ensures Accounted(env, s, EngagementRow(env, today, wall, s, e))
  {
    hide GoodEnv, Accounted, OpenRenewal, ReviewRow, EngagementDue;
    Nothing(env, s);
    if EngagementDue(e, today) {
      if e.opp.Some? && e.opp.value in s.owners {
        OpeningAccounted(env, s, e.opp.value, e.end, wall);
      } else {
        ReviewAccounted(env, s, e);
      }
    }
  }

  lemma {:induction false} EngagementFoldAccounted(env: Env, today: int, wall: int, s: Store, es: seq<Engagement>)
    requires GoodEnv(env) && s.renewals.Keys <= s.issued && OneRowPerId(s) && forall e :: e in es ==> e in s.engagements
    ensures Accounted(env, s, EngagementFold(env, today, wall, s, es))
    decreases |es|
  {
    hide GoodEnv, Accounted, EngagementRow, Opening, Covered;
    if es == [] {
      Nothing(env, s);
    } else {
      var init, last := es[..|es| - 1], es[|es| - 1];
      assert es == init + [last];
      var before := EngagementFold(env, today, wall, s, init);
      EngagementFoldAccounted(env, today, wall, s, init);
      EngagementFoldCovers(env, today, wall, s, init);
      assert before.engagements == s.engagements;
      EngagementRowAccounted(env, today, wall, before, last);
      Accumulates(env, s, before, EngagementFold(env, today, wall, s, es));
    }
  }

  lemma {:induction false} DigestFoldAccounted(env: Env, forecast: Forecast, es: seq<Engagement>, today: int, s: Store, owners: seq<nat>)
    ensures Accounted(env, s, DigestFold(forecast, es, today, s, owners))
    decreases |owners|
  {
    hide Accounted, Announce, Finding, GroupOf;
    Nothing(env, s);
    if owners != [] {
      var init, last := owners[..|owners| - 1], owners[|owners| - 1];
      var before := DigestFold(forecast, es, today, s, init);
      DigestFoldAccounted(env, forecast, es, today, s, init);
      Nothing(env, before);
      AnnounceAccounted(env, before, PortfolioNightly(last, today), Some(last));
      Accumulates(env, s, before, DigestFold(forecast, es, today, s, owners));
    }
  }

  /** A portfolio tick adds the tasks and notices of what it opened and recorded, and no others. */
  lemma TickAccounted(
      env: Env, forecast: Forecast, today: int, wall: int, byEnd: seq<Engagement>, byName: seq<Engagement>, s: Store)
    requires GoodEnv(env) && Sound(s) && OneRowPerId(s) && Lists(byEnd, s)
    ensures Accounted(env, s, PortfolioTick(env, forecast, today, wall, byEnd, byName, s))
  {
    hide GoodEnv, Accounted, EngagementFold, DigestFold, OwnersIn, Lists;
    SoundKeys(s);
    ListsMembers(byEnd, s);
    var mid := EngagementFold(env, today, wall, s, byEnd);
    EngagementFoldAccounted(env, today, wall, s, byEnd);
    DigestFoldAccounted(env, forecast, byName, today, mid, OwnersIn(byName, today));
    Accumulates(env, s, mid, DigestFold(forecast, byName, today, mid, OwnersIn(byName, today)));
  }
}
