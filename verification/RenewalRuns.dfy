/**
 Runs of the renewals and portfolio schedulers over one store: any sequence of ticks at any instants,
 some rolled back, with outside changes in between.
 */
module RenewalRuns {
  import opened Text
  import opened Calendar
  import opened Ledger
  import opened RenewalModel
  import opened PortfolioScheduler
  import opened RenewalTick

  // ---- runs ---------------------------------------------------------------------

  /**
   What the rest of the system does: rows keep their opportunity and term end, a renewal that is not open is
   never opened again, new rows carry new identifiers, and churn keys are written by nobody else.
   */
  ghost predicate OutsideChange(s: Store, s': Store) {
    && s.issued <= s'.issued && s'.renewals.Keys <= s'.issued
    && (forall id :: id in s'.renewals && id in s.renewals ==>
          SamePair(s.renewals[id], s'.renewals[id]) && (s.renewals[id].status != Open ==> s'.renewals[id].status != Open))
    && (forall id :: id in s'.renewals && id !in s.renewals ==> id !in s.issued)
    && (forall k: Key :: k in s'.ledger && k.RenewalChurn? ==> k in s.ledger)
  }

  datatype Event =
    | Renewals(env: Env, c: Clock, committed: bool)
    | Portfolio(env: Env, forecast: Forecast, today: int, wall: int, byEnd: seq<Engagement>, byName: seq<Engagement>, committed: bool)
    | Outside

  ghost predicate Step(e: Event, s: Store, s': Store) {
    match e
    case Renewals(env, c, committed) =>
      GoodEnv(env) && c.Valid() && if committed then RenewalsTick(env, c, s, s') else s' == s
    case Portfolio(env, forecast, today, wall, byEnd, byName, committed) =>
      && GoodEnv(env) && Lists(byEnd, s) && Lists(byName, s)
      && s' == if committed then PortfolioTick(env, forecast, today, wall, byEnd, byName, s) else s
    case Outside => OutsideChange(s, s')
  }

  ghost predicate Run(states: seq<Store>, events: seq<Event>) {
    |states| == |events| + 1 && forall i :: 0 <= i < |events| ==> Step(events[i], states[i], states[i + 1])
  }

  /** The rows of `s` that are not open are not open in `s'` either, and no identifier is used twice. */
  ghost predicate ClosedStays(s: Store, s': Store) {
    && s.issued <= s'.issued
    && (forall id :: id in s'.renewals && id in s.renewals ==>
          SamePair(s.renewals[id], s'.renewals[id]) && (s.renewals[id].status != Open ==> s'.renewals[id].status != Open))
    && (forall id :: id in s'.renewals && id !in s.renewals ==> id !in s.issued)
  }

  lemma ShapeClosedStays(c: Clock, s: Store, t: Trace, s': Store)
    requires s.renewals.Keys <= s.issued && Shape(c, s, t, s')
    ensures ClosedStays(s, s')
  {
    hide Sound;
    GrownClosedStays(c.businessDay, s, t.atLead);
    GrownClosedStays(c.UtcDay(), t.atLead, t.short);
    GrownClosedStays(c.UtcDay(), t.short, t.escalated);
    ClosedStaysTrans(s, t.atLead, t.short);
    ClosedStaysTrans(s, t.short, t.escalated);
    ChurnClosedStays(t.escalated, s', OverdueIds(t.escalated, c.UtcDay()));
    ClosedStaysTrans(s, t.escalated, s');
  }

  lemma GrownClosedStays(floor: int, a: Store, b: Store)
    requires Grown(floor, a, b)
    ensures ClosedStays(a, b)
  {
    forall id | id in b.renewals && id !in a.renewals ensures id !in a.issued { assert Opening(floor, a, b, id); }
  }

  lemma ChurnClosedStays(a: Store, b: Store, ids: set<nat>)
    requires ChurnedRows(a, b, ids)
    ensures ClosedStays(a, b)
  {
  }

  lemma ClosedStaysTrans(a: Store, b: Store, c: Store)
    requires ClosedStays(a, b) && ClosedStays(b, c) && a.renewals.Keys <= a.issued
    ensures ClosedStays(a, c)
  {
  }

  lemma StepKeepsSound(e: Event, s: Store, s': Store)
    requires Sound(s) && Step(e, s, s')
    ensures Sound(s') && ClosedStays(s, s')
    ensures !e.Outside? ==> AddsNoDuplicate(s, s')
    ensures e.Renewals? && e.committed ==> NoneOverdue(s', e.c.UtcDay())
  {
    hide GoodEnv, Grown, Covered, Shape, PortfolioTick, NoneOverdue, TickVia;
    match e
    case Renewals(env, c, committed) =>
      if committed {
        TickLeavesNoneOverdue(env, c, s, s');
        var t, n, es, ch :| TickVia(env, c, s, t, s', n, es, ch);
        TickShape(env, c, s, t, s', n, es, ch);
        ShapeClosedStays(c, s, t, s');
      }
    case Portfolio(env, forecast, today, wall, byEnd, byName, committed) =>
      if committed {
        PortfolioTickGrows(env, forecast, today, wall, byEnd, byName, s);
        GrownClosedStays(today, s, s');
      }
    case Outside => OutsideKeepsSound(s, s');
  }

  lemma OutsideKeepsSound(s: Store, s': Store)
    requires Sound(s) && OutsideChange(s, s')
    ensures Sound(s') && ClosedStays(s, s')
  {
  }

  /**
   Over any run of committed and rolled-back ticks of both schedulers and outside changes, churn keys stay
   truthful, and the store after every committed renewals tick has no open renewal past its term end.
   */
  lemma {:induction false} NoneOverdueThroughoutRun(states: seq<Store>, events: seq<Event>)
    requires Run(states, events) && Sound(states[0])
    ensures forall i :: 0 <= i < |states| ==> Sound(states[i])
    ensures forall i :: 0 <= i < |events| && events[i].Renewals? && events[i].committed ==>
      NoneOverdue(states[i + 1], events[i].c.UtcDay())
    decreases |events|
  {
    hide Sound, Step, NoneOverdue;
    if events != [] {
      var n := |events| - 1;
      assert Run(states[..n + 1], events[..n]) by {
        assert forall i :: 0 <= i < n ==> Step(events[i], states[i], states[i + 1]);
      }
      NoneOverdueThroughoutRun(states[..n + 1], events[..n]);
      assert forall i :: 0 <= i <= n ==> states[..n + 1][i] == states[i];
      StepKeepsSound(events[n], states[n], states[n + 1]);
      forall i | 0 <= i < |events| && events[i].Renewals? && events[i].committed
        ensures NoneOverdue(states[i + 1], events[i].c.UtcDay())
      {
        if i < n { assert states[..n + 1][i + 1] == states[i + 1] && events[..n][i] == events[i]; }
      }
    }
  }

  /**
   If outside changes add no second row for a term end, there is at most one renewal row, hence at most one
   open renewal, per opportunity and term end throughout the run.
   */
  lemma {:induction false} OneRenewalPerTermEnd(states: seq<Store>, events: seq<Event>)
    requires Run(states, events) && Sound(states[0]) && Unique(states[0])
    requires forall i :: 0 <= i < |events| && events[i].Outside? ==> AddsNoDuplicate(states[i], states[i + 1])
    ensures forall i :: 0 <= i < |states| ==> Unique(states[i])
    decreases |events|
  {
    hide Sound, Step, Unique, AddsNoDuplicate;
    if events != [] {
      var n := |events| - 1;
      NoneOverdueThroughoutRun(states, events);
      assert Run(states[..n + 1], events[..n]) by {
        assert forall i :: 0 <= i < n ==> Step(events[i], states[i], states[i + 1]);
      }
      OneRenewalPerTermEnd(states[..n + 1], events[..n]);
      assert forall i :: 0 <= i <= n ==> states[..n + 1][i] == states[i];
      StepKeepsSound(events[n], states[n], states[n + 1]);
      UniqueKept(states[n], states[n + 1]);
    }
  }

  lemma UniqueKept(s: Store, s': Store)
    requires Unique(s) && ClosedStays(s, s') && AddsNoDuplicate(s, s')
    ensures Unique(s')
  {
    forall i, j | i in s'.renewals && j in s'.renewals && i != j ensures !SamePair(s'.renewals[i], s'.renewals[j]) {
      if i in s.renewals && j in s.renewals { assert !SamePair(s.renewals[i], s.renewals[j]); }
    }
  }

  /** At most one open renewal per opportunity and term end. */
  ghost predicate UniqueOpen(s: Store) {
    forall i, j :: i in s.renewals && j in s.renewals && i != j ==> !BothOpenFor(s.renewals[i], s.renewals[j])
  }

  /** Open rows sharing opportunity and term end were both there before. */
  ghost predicate AddsNoOpenDuplicate(s: Store, s': Store) {
    forall i, j :: i in s'.renewals && j in s'.renewals && i != j && BothOpenFor(s'.renewals[i], s'.renewals[j]) ==>
      i in s.renewals && j in s.renewals
  }

  predicate BothOpenFor(r: Renewal, q: Renewal) { SamePair(r, q) && r.status == Open && q.status == Open }

  lemma UniqueOpenKept(s: Store, s': Store)
    requires UniqueOpen(s) && ClosedStays(s, s') && AddsNoOpenDuplicate(s, s')
    ensures UniqueOpen(s')
  {
    forall i, j | i in s'.renewals && j in s'.renewals && i != j ensures !BothOpenFor(s'.renewals[i], s'.renewals[j]) {
      if i in s.renewals && j in s.renewals { assert !BothOpenFor(s.renewals[i], s.renewals[j]); }
    }
  }

  /**
   If outside changes add no second open row for a term end, there is at most one open renewal per
   opportunity and term end throughout the run, whatever closed rows there are beside it.
   */
  lemma {:induction false} OneOpenRenewalPerTermEnd(states: seq<Store>, events: seq<Event>)
    requires Run(states, events) && Sound(states[0]) && UniqueOpen(states[0])
    requires forall i :: 0 <= i < |events| && events[i].Outside? ==> AddsNoOpenDuplicate(states[i], states[i + 1])
    ensures forall i :: 0 <= i < |states| ==> UniqueOpen(states[i])
    decreases |events|
  {
    hide Sound, Step, UniqueOpen, AddsNoDuplicate, AddsNoOpenDuplicate, ClosedStays;
    if events != [] {
      var n := |events| - 1;
      NoneOverdueThroughoutRun(states, events);
      assert Run(states[..n + 1], events[..n]) by {
        assert forall i :: 0 <= i < n ==> Step(events[i], states[i], states[i + 1]);
      }
      OneOpenRenewalPerTermEnd(states[..n + 1], events[..n]);
      assert forall i :: 0 <= i <= n ==> states[..n + 1][i] == states[i];
      StepKeepsSound(events[n], states[n], states[n + 1]);
      if !events[n].Outside? { NoDuplicateNoOpen(states[n], states[n + 1]); }
      UniqueOpenKept(states[n], states[n + 1]);
    }
  }

  lemma NoDuplicateNoOpen(s: Store, s': Store)
    requires AddsNoDuplicate(s, s')
    ensures AddsNoOpenDuplicate(s, s')
  {
  }

  /** The release of a signed SOW inserts its renewal without looking for one. */
  function Released(env: Env, s: Store, opp: nat, termEnd: int, wall: int): Store {
    var id := env.mint(s.issued);
    s.(renewals := s.renewals[id := Renewal(opp, termEnd, Open, wall)], issued := s.issued + {id})
  }

  /** A release keeps rows unique if and only if no row for the term end exists when it happens. */
  lemma ReleaseKeepsUniqueIff(env: Env, s: Store, opp: nat, termEnd: int, wall: int)
    requires GoodEnv(env) && Sound(s) && Unique(s)
    ensures OutsideChange(s, Released(env, s, opp, termEnd, wall))
    ensures Unique(Released(env, s, opp, termEnd, wall)) <==> !Exists(s, opp, termEnd)
  {
    var s', id := Released(env, s, opp, termEnd, wall), env.mint(s.issued);
    assert id !in s.issued && id in s'.renewals;
    if Exists(s, opp, termEnd) {
      var j :| j in s.renewals && IsFor(s.renewals[j], opp, termEnd);
      assert SamePair(s'.renewals[id], s'.renewals[j]);
    } else {
      forall i, j | i in s'.renewals && j in s'.renewals && i != j ensures !SamePair(s'.renewals[i], s'.renewals[j]) {
        if i == id { assert !IsFor(s.renewals[j], opp, termEnd); }
        else if j == id { assert !IsFor(s.renewals[i], opp, termEnd); }
        else { assert !SamePair(s.renewals[i], s.renewals[j]); }
      }
    }
  }

  /** A release keeps open renewals unique if and only if no open renewal for the term end exists. */
  lemma ReleaseKeepsUniqueOpenIff(env: Env, s: Store, opp: nat, termEnd: int, wall: int)
    requires GoodEnv(env) && Sound(s) && UniqueOpen(s)
    ensures UniqueOpen(Released(env, s, opp, termEnd, wall)) <==> !Active(s, opp, termEnd)
  {
    var s', id := Released(env, s, opp, termEnd, wall), env.mint(s.issued);
    assert id !in s.issued && id in s'.renewals;
    if Active(s, opp, termEnd) {
      var j :| j in s.renewals && IsOpenFor(s.renewals[j], opp, termEnd);
      assert BothOpenFor(s'.renewals[id], s'.renewals[j]);
    } else {
      forall i, j | i in s'.renewals && j in s'.renewals && i != j ensures !BothOpenFor(s'.renewals[i], s'.renewals[j]) {
        if i == id { assert !IsOpenFor(s.renewals[j], opp, termEnd); }
        else if j == id { assert !IsOpenFor(s.renewals[i], opp, termEnd); }
        else { assert !BothOpenFor(s.renewals[i], s.renewals[j]); }
      }
    }
  }

  /** A release for a term end whose renewal a scheduler has opened leaves two open rows. */
  lemma ReleaseDuplicates() returns (s: Store, s': Store)
    ensures Sound(s) && Unique(s) && s.renewals == map[0 := Renewal(7, 100, Open, 0)]
    ensures s' == Released(PlainEnv(), s, 7, 100, 0) && OutsideChange(s, s') && |s'.renewals| == 2
    ensures !Unique(s') && !UniqueOpen(s')
  {
    s := Store(map[0 := Renewal(7, 100, Open, 0)], {0}, {}, [], multiset{}, [], [], map[]);
    s' := Released(PlainEnv(), s, 7, 100, 0);
    PlainEnvGood();
    assert IsFor(s.renewals[0], 7, 100) && IsOpenFor(s.renewals[0], 7, 100);
    hide PlainEnv, NextFrom;
    ReleaseKeepsUniqueIff(PlainEnv(), s, 7, 100, 0);
    ReleaseKeepsUniqueOpenIff(PlainEnv(), s, 7, 100, 0);
    assert PlainEnv().mint(s.issued) !in s.issued;
  }

  /** A renewal that is closed, extended or churned at one point of a run is never open again. */
  lemma {:induction false} ClosedForGood(states: seq<Store>, events: seq<Event>, id: nat)
    requires Run(states, events) && Sound(states[0])
    requires id in states[0].renewals && states[0].renewals[id].status != Open
    ensures forall i :: 0 <= i < |states| && id in states[i].renewals ==> states[i].renewals[id].status != Open
    ensures forall i :: 0 <= i < |states| ==> id in states[i].issued
    decreases |events|
  {
    hide Step;
    if events != [] {
      var n := |events| - 1;
      NoneOverdueThroughoutRun(states, events);
      assert Run(states[..n + 1], events[..n]) by {
        assert forall i :: 0 <= i < n ==> Step(events[i], states[i], states[i + 1]);
      }
      ClosedForGood(states[..n + 1], events[..n], id);
      assert forall i :: 0 <= i <= n ==> states[..n + 1][i] == states[i];
      StepKeepsSound(events[n], states[n], states[n + 1]);
    }
  }

  // ---- nudges -------------------------------------------------------------------

  ghost function NudgeDays(s: Store, id: nat): set<int> {
    set k: Key | k in s.ledger && k.RenewalNudge? && k.renewal == id :: k.day
  }

  /** No nudge key of the renewal is added or lost. */
  ghost predicate NudgesKept(a: Store, b: Store, id: nat) {
    forall d :: RenewalNudge(id, d) in b.ledger <==> RenewalNudge(id, d) in a.ledger
  }

  lemma NudgeDaysHold(s: Store, id: nat)
    ensures forall d :: d in NudgeDays(s, id) <==> RenewalNudge(id, d) in s.ledger
  {
    forall d | RenewalNudge(id, d) in s.ledger ensures d in NudgeDays(s, id) {
      assert RenewalNudge(id, d).day == d;
    }
  }

  lemma KeptDays(a: Store, b: Store, id: nat)
    requires NudgesKept(a, b, id)
    ensures NudgeDays(b, id) == NudgeDays(a, id)
  {
    NudgeDaysHold(a, id);
    NudgeDaysHold(b, id);
    forall d ensures d in NudgeDays(b, id) <==> d in NudgeDays(a, id) {
      assert RenewalNudge(id, d) in b.ledger <==> RenewalNudge(id, d) in a.ledger;
    }
  }

  lemma {:induction false} VersionFoldKeepsNudges(pass: VersionPass, env: Env, c: Clock, s: Store, vs: seq<Version>, id: nat)
    ensures NudgesKept(s, VersionFold(pass, env, c, s, vs), id)
    decreases |vs|
  {
    hide FanOut, Exists, Active, OwnerOf;
    if vs != [] { VersionFoldKeepsNudges(pass, env, c, s, vs[..|vs| - 1], id); }
  }

  lemma {:induction false} EscalationsKeepNudges(env: Env, c: Clock, s: Store, rows: seq<nat>, id: nat)
    requires RowsExist(s, rows)
    ensures NudgesKept(s, RenewalFold(Escalations, env, c, s, rows), id)
    decreases |rows|
  {
    hide FanOut;
    if rows != [] { EscalationsKeepNudges(env, c, s, rows[..|rows| - 1], id); }
  }

  lemma {:induction false} PortfolioKeepsNudges(env: Env, today: int, wall: int, s: Store, es: seq<Engagement>, id: nat)
    ensures NudgesKept(s, EngagementFold(env, today, wall, s, es), id)
    decreases |es|
  {
    hide FanOut, Exists, OwnerOf;
    if es != [] { PortfolioKeepsNudges(env, today, wall, s, es[..|es| - 1], id); }
  }

  lemma {:induction false} DigestsKeepNudges(forecast: Forecast, es: seq<Engagement>, today: int, s: Store, owners: seq<nat>, id: nat)
    ensures NudgesKept(s, DigestFold(forecast, es, today, s, owners), id)
    decreases |owners|
  {
    hide FanOut, GroupOf;
    if owners != [] { DigestsKeepNudges(forecast, es, today, s, owners[..|owners| - 1], id); }
  }

  /** The nudge pass adds today's key for exactly the stale rows it walks. */
  lemma {:induction false} NudgeFoldNudges(env: Env, c: Clock, s: Store, rows: seq<nat>, id: nat)
    requires RowsExist(s, rows) && s.renewals.Keys <= s.issued && id in s.renewals
    ensures forall d :: RenewalNudge(id, d) in RenewalFold(Nudges, env, c, s, rows).ledger <==>
      RenewalNudge(id, d) in s.ledger || (d == c.UtcDay() && id in rows && Stale(s.renewals[id], c))
    decreases |rows|
  {
    hide FanOut, OwnerOf, Grown;
    if rows != [] {
      var init, last := rows[..|rows| - 1], rows[|rows| - 1];
      assert rows == init + [last];
      NudgeFoldNudges(env, c, s, init, id);
      AnnouncingFoldGrows(Nudges, env, c, s, init);
    }
  }

  /** A renewals tick nudges an existing renewal exactly when it is open and stale and was not nudged today. */
  lemma TickNudges(env: Env, c: Clock, s: Store, s': Store, id: nat)
    requires GoodEnv(env) && Sound(s) && c.Valid() && RenewalsTick(env, c, s, s') && id in s.renewals
    ensures NudgeDays(s', id)
         == NudgeDays(s, id) + if s.renewals[id].status == Open && Stale(s.renewals[id], c) then {c.UtcDay()} else {}
  {
    hide GoodEnv, Sound, NudgeDays, Stale, TickVia;
    var t, n, e, ch :| TickVia(env, c, s, t, s', n, e, ch);
    TickNudgeKeys(env, c, s, t, s', n, e, ch, id);
    NudgeDaysHold(s, id);
    NudgeDaysHold(s', id);
    var today: set<int> := if s.renewals[id].status == Open && Stale(s.renewals[id], c) then {c.UtcDay()} else {};
    assert forall d :: d in NudgeDays(s', id) <==> d in NudgeDays(s, id) || d in today;
    assert NudgeDays(s', id) == NudgeDays(s, id) + today;
  }

  lemma TickNudgeKeys(env: Env, c: Clock, s: Store, t: Trace, s': Store, n: seq<nat>, e: seq<nat>, ch: seq<nat>, id: nat)
    requires GoodEnv(env) && Sound(s) && c.Valid() && TickVia(env, c, s, t, s', n, e, ch) && id in s.renewals
    ensures forall d :: RenewalNudge(id, d) in s'.ledger <==>
      RenewalNudge(id, d) in s.ledger || (d == c.UtcDay() && s.renewals[id].status == Open && Stale(s.renewals[id], c))
  {
    hide GoodEnv, Sound, Opening, VersionFold, RenewalFold, Stale;
    TickShape(env, c, s, t, s', n, e, ch);
    VersionFoldKeepsNudges(OpenAtLead, env, c, s, s.versions, id);
    VersionFoldKeepsNudges(ShortAssessments, env, c, t.atLead, s.versions, id);
    assert t.short.renewals[id] == s.renewals[id];
    assert id in n <==> s.renewals[id].status == Open by {
      assert Selected(Nudges, c, t.short, id) <==> s.renewals[id].status == Open;
    }
    NudgeFoldNudges(env, c, t.short, n, id);
    VersionFoldKeepsNudges(NoticeDates, env, c, t.nudged, s.versions, id);
    EscalationsKeepNudges(env, c, t.noticed, e, id);
    assert forall d :: RenewalNudge(id, d) in s'.ledger <==> RenewalNudge(id, d) in t.nudged.ledger;
  }

  /** The renewal stays open and untouched, its nudge keys too, through the outside changes of a run. */
  ghost predicate LeftOpen(states: seq<Store>, events: seq<Event>, id: nat)
    requires |states| == |events| + 1
  {
    && id in states[0].renewals
    && (forall i :: 0 <= i < |states| ==> id in states[i].renewals && states[i].renewals[id] == states[0].renewals[id])
    && states[0].renewals[id].status == Open
    && forall i :: 0 <= i < |events| && events[i].Outside? ==> NudgesKept(states[i], states[i + 1], id)
  }

  /** The UTC days of the committed renewals ticks of a run at which the renewal is seven days stale. */
  ghost function StaleTickDays(events: seq<Event>, r: Renewal): set<int> {
    set i | 0 <= i < |events| && events[i].Renewals? && events[i].committed && Stale(r, events[i].c) :: events[i].c.UtcDay()
  }

  lemma StaleTickDaysGrow(events: seq<Event>, e: Event, r: Renewal)
    ensures StaleTickDays(events + [e], r)
         == StaleTickDays(events, r) + if e.Renewals? && e.committed && Stale(r, e.c) then {e.c.UtcDay()} else {}
  {
    hide Stale;
    var all := events + [e];
    forall d | d in StaleTickDays(events, r) ensures d in StaleTickDays(all, r) {
      var i :| 0 <= i < |events| && events[i].Renewals? && events[i].committed && Stale(r, events[i].c) && events[i].c.UtcDay() == d;
      assert all[i] == events[i];
    }
    if e.Renewals? && e.committed && Stale(r, e.c) {
      assert all[|events|] == e;
      assert e.c.UtcDay() in StaleTickDays(all, r);
    }
  }

  lemma StepNudges(e: Event, s: Store, s': Store, id: nat)
    requires Step(e, s, s') && Sound(s) && id in s.renewals && s.renewals[id].status == Open
    requires e.Outside? ==> NudgesKept(s, s', id)
    ensures NudgeDays(s', id) == NudgeDays(s, id)
      + if e.Renewals? && e.committed && Stale(s.renewals[id], e.c) then {e.c.UtcDay()} else {}
  {
    hide GoodEnv, Sound, Stale, RenewalsTick, NudgeDays, OutsideChange, EngagementFold, DigestFold, OwnersIn;
    match e
    case Renewals(env, c, committed) => if committed { TickNudges(env, c, s, s', id); } else { KeptDays(s, s', id); }
    case Portfolio(env, forecast, today, wall, byEnd, byName, committed) =>
      if committed {
        PortfolioKeepsNudges(env, today, wall, s, byEnd, id);
        DigestsKeepNudges(forecast, byName, today, EngagementFold(env, today, wall, s, byEnd), OwnersIn(byName, today), id);
        KeptDays(s, s', id);
      }
    case Outside => KeptDays(s, s', id);
  }

  /**
   Nudges are daily, not weekly: over any run in which a renewal stays open without an update, its nudge keys
   grow by exactly the days of the committed ticks that find it seven days stale.
   */
  lemma {:induction false} NudgesAreDaily(states: seq<Store>, events: seq<Event>, id: nat)
    requires Run(states, events) && Sound(states[0]) && LeftOpen(states, events, id)
    ensures NudgeDays(states[|events|], id) == NudgeDays(states[0], id) + StaleTickDays(events, states[0].renewals[id])
    decreases |events|
  {
    hide Sound, Step, NudgeDays, StaleTickDays, Stale;
    var r := states[0].renewals[id];
    if events == [] {
      assert StaleTickDays(events, r) == {} by { NoTicks(r); }
    } else {
      var n := |events| - 1;
      NoneOverdueThroughoutRun(states, events);
      assert Run(states[..n + 1], events[..n]) by {
        assert forall i :: 0 <= i < n ==> Step(events[i], states[i], states[i + 1]);
      }
      assert forall i :: 0 <= i <= n ==> states[..n + 1][i] == states[i];
      NudgesAreDaily(states[..n + 1], events[..n], id);
      StepNudges(events[n], states[n], states[n + 1], id);
      assert events == events[..n] + [events[n]];
      StaleTickDaysGrow(events[..n], events[n], r);
    }
  }

  lemma NoTicks(r: Renewal)
    ensures StaleTickDays([], r) == {}
  {
  }

  /** Ticks on days 10 and 11 nudge a renewal without an update both times. */
  lemma NudgedOnConsecutiveDays() returns (s0: Store, s1: Store, s2: Store)
    ensures Sound(s0) && s0.renewals == map[0 := Renewal(7, 1000, Open, 0)] && NudgeDays(s0, 0) == {}
    ensures RenewalsTick(PlainEnv(), Clock(10 * DAY_MICROS, 0, 10), s0, s1)
    ensures RenewalsTick(PlainEnv(), Clock(11 * DAY_MICROS, 0, 11), s1, s2)
    ensures NudgeDays(s2, 0) == {10, 11}
  {
    hide PlainEnv, RenewalsTick, AddsNoDuplicate;
    var c, c' := Clock(10 * DAY_MICROS, 0, 10), Clock(11 * DAY_MICROS, 0, 11);
    s0 := Store(map[0 := Renewal(7, 1000, Open, 0)], {0}, {}, [], multiset{}, [], [], map[]);
    PlainEnvGood();
    assert c.UtcDay() == 10 && c'.UtcDay() == 11;
    s1 := SomeTick(PlainEnv(), c, s0);
    TickNudges(PlainEnv(), c, s0, s1, 0);
    TickLeavesNoneOverdue(PlainEnv(), c, s0, s1);
    s2 := SomeTick(PlainEnv(), c', s1);
    TickNudges(PlainEnv(), c', s1, s2, 0);
  }
}
