/** Runs of the alert scheduler: any sequence of ticks on any days, some rolled back, with outside changes between. */
module AlertRuns {
  import opened Text
  import opened Sets
  import opened Calendar
  import opened BusinessDays
  import opened Ledger
  import opened AlertModel

  // ---- what a tick does to one task ---------------------------------------------

  predicate SlaFires(t: Task, id: nat, ledger: set<Key>, today: int) {
    SlaLate(t, today) && ApprovalEscalation(id, today) !in ledger
  }

  /** The task's level when the escalation pass reads it. */
  function LevelAtEscalation(t: Task, id: nat, ledger: set<Key>, today: int): nat {
    if SlaFires(t, id, ledger, today) then 1 else t.level
  }

  predicate OverdueAtEscalation(t: Task, id: nat, ledger: set<Key>, today: int) {
    Overdue(t.(level := LevelAtEscalation(t, id, ledger, today)), today)
  }

  predicate EscalationFires(t: Task, id: nat, ledger: set<Key>, today: int) {
    OverdueAtEscalation(t, id, ledger, today) && TaskEscalation(id, today) !in ledger
  }

  /** One task after one tick, in terms of that task and its own ledger keys. */
  function TickedLevel(t: Task, id: nat, ledger: set<Key>, today: int): nat {
    LevelAtEscalation(t, id, ledger, today) + if EscalationFires(t, id, ledger, today) then 1 else 0
  }

  ghost predicate TaskTicked(s: Db, s': Db, id: nat, today: int)
    requires id in s.tasks
  {
    var t := s.tasks[id];
    && id in s'.tasks
    && s'.tasks[id] == t.(level := TickedLevel(t, id, s.ledger, today))
    && s.ledger <= s'.ledger
    && (forall d :: ApprovalNudge(id, d) in s'.ledger <==>
          ApprovalNudge(id, d) in s.ledger || (d == today && NudgeDue(t, today)))
    && (forall d :: ApprovalEscalation(id, d) in s'.ledger <==>
          ApprovalEscalation(id, d) in s.ledger || (d == today && SlaLate(t, today)))
    && (forall d :: TaskEscalation(id, d) in s'.ledger <==>
          TaskEscalation(id, d) in s.ledger || (d == today && OverdueAtEscalation(t, id, s.ledger, today)))
  }

  /** Outside the check-in trigger, the check-in pass leaves every key as it was. */
  lemma CheckInOnTask(dir: Directory, s: Db, s1: Db, today: int, ids: set<nat>, made: map<nat, Key>, id: nat)
    requires CheckInPass(dir, s, s1, today, ids, made) && id in s.tasks
    ensures id in s1.tasks && s1.tasks[id] == s.tasks[id]
    ensures forall k: Key :: !k.OverdueCheckIn? ==> (k in s1.ledger <==> k in s.ledger)
    ensures s.ledger <= s1.ledger
  {
    hide Notices, NeedsCheckIn, CheckInTask;
  }

  lemma SlaOnTask(dir: Directory, s: Db, today: int, id: nat)
    requires id in s.tasks
    ensures var s' := SlaPass(dir, s, today, s.tasks.Keys);
            && id in s'.tasks
            && s'.tasks[id] == s.tasks[id].(level := LevelAtEscalation(s.tasks[id], id, s.ledger, today))
            && s.ledger <= s'.ledger
            && (forall d :: ApprovalNudge(id, d) in s'.ledger <==>
                  ApprovalNudge(id, d) in s.ledger || (d == today && NudgeDue(s.tasks[id], today)))
            && (forall d :: ApprovalEscalation(id, d) in s'.ledger <==>
                  ApprovalEscalation(id, d) in s.ledger || (d == today && SlaLate(s.tasks[id], today)))
            && (forall d :: TaskEscalation(id, d) in s'.ledger <==> TaskEscalation(id, d) in s.ledger)
  {
    hide Notices, NudgeDue, SlaLate;
  }

  lemma EscalationOnTask(dir: Directory, s: Db, today: int, id: nat)
    requires id in s.tasks
    ensures var s' := EscalationPass(dir, s, today, s.tasks.Keys);
            && id in s'.tasks && s'.tasks[id] == EscalatedTask(s, id, today)
            && s.ledger <= s'.ledger
            && (forall k: Key :: !k.TaskEscalation? ==> (k in s'.ledger <==> k in s.ledger))
            && (forall d :: TaskEscalation(id, d) in s'.ledger <==>
                  TaskEscalation(id, d) in s.ledger || (d == today && Overdue(s.tasks[id], today)))
  {
    hide Notices, Overdue;
  }

  lemma TickOnOneTask(dir: Directory, s: Db, s': Db, today: int, id: nat)
    requires Tick(dir, s, s', today) && id in s.tasks
    ensures TaskTicked(s, s', id, today)
  {
    hide CheckInPass, SlaPass, EscalationPass, NudgeDue, SlaLate, Overdue;
    var s1: Db, made: map<nat, Key> :| TickVia(dir, s, s1, s', today, made);
    CheckInOnTask(dir, s, s1, today, s.opps.Keys, made, id);
    SlaOnTask(dir, s1, today, id);
    EscalationOnTask(dir, SlaPass(dir, s1, today, s1.tasks.Keys), today, id);
  }

  /**
   One tick raises a task by two levels if and only if it awaits an approval, is at level 0 with its due date
   already past, and neither of the day's two escalation keys is in the ledger; it never raises one by more.
   */
  lemma RisesByTwoIff(dir: Directory, s: Db, s': Db, today: int, id: nat)
    requires Tick(dir, s, s', today) && id in s.tasks
    ensures id in s'.tasks && s.tasks[id].level <= s'.tasks[id].level <= s.tasks[id].level + 2
    ensures s'.tasks[id].level == s.tasks[id].level + 2 <==>
      && AwaitsApproval(s.tasks[id]) && s.tasks[id].level == 0 && s.tasks[id].due.value < today
      && ApprovalEscalation(id, today) !in s.ledger && TaskEscalation(id, today) !in s.ledger
  {
    hide Tick, NudgeDue;
    TickOnOneTask(dir, s, s', today, id);
  }

  /** The rise by two occurs: one tick on the day after the due date of a fresh approval task. */
  lemma ApprovalRisesTwice(dir: Directory) returns (s: Db, s': Db)
    ensures Tick(dir, s, s', 10) && s.tasks == map[0 := Task(Some(9), ApprovalAwaiting, Assigned, 0, None, None)]
    ensures 0 in s'.tasks && s'.tasks[0].level == 2
  {
    hide Notices, SlaPass, EscalationPass;
    s := Db(map[0 := Task(Some(9), ApprovalAwaiting, Assigned, 0, None, None)], map[], {}, multiset{});
    var s2 := SlaPass(dir, s, 10, s.tasks.Keys);
    s' := EscalationPass(dir, s2, 10, s2.tasks.Keys);
    assert CheckInsDue(s, 10, s.opps.Keys) - s.ledger == {};
    NoticesOfNothing(dir, s.tasks);
    assert CheckInPass(dir, s, s, 10, s.opps.Keys, map[]);
    assert TickVia(dir, s, s, s', 10, map[]);
    RisesByTwoIff(dir, s, s', 10, 0);
  }

  // ---- runs ---------------------------------------------------------------------

  datatype Event =
    | TickOn(today: int)
    | RolledBack(today: int)
    | Outside

  /** Other writers never insert the alert scheduler's keys, and the ledger only grows. */
  ghost predicate LedgerLeftAlone(s: Db, s': Db) {
    && s.ledger <= s'.ledger
    && forall k :: k in s'.ledger && k !in s.ledger ==>
         !k.OverdueCheckIn? && !k.ApprovalNudge? && !k.ApprovalEscalation? && !k.TaskEscalation?
  }

  ghost predicate Step(dir: Directory, s: Db, event: Event, s': Db) {
    match event
    case TickOn(today) => Tick(dir, s, s', today)
    case RolledBack(_) => s' == s
    case Outside => LedgerLeftAlone(s, s')
  }

  ghost predicate Run(dir: Directory, states: seq<Db>, events: seq<Event>) {
    && |states| == |events| + 1
    && forall i :: 0 <= i < |events| ==> Step(dir, states[i], events[i], states[i + 1])
  }

  /** From the outside the task stays open, with the same due date and category, and its level untouched. */
  ghost predicate StaysOpen(s: Db, s': Db, id: nat) {
    && id in s.tasks && id in s'.tasks
    && s'.tasks[id].due == s.tasks[id].due && s'.tasks[id].category == s.tasks[id].category
    && s'.tasks[id].level == s.tasks[id].level && IsOpen(s'.tasks[id])
  }

  ghost predicate OpenThroughout(states: seq<Db>, events: seq<Event>, id: nat)
    requires |states| == |events| + 1
  {
    forall i :: 0 <= i < |events| && events[i].Outside? ==> StaysOpen(states[i], states[i + 1], id)
  }

  /** The distinct days after `due` on which a tick committed. */
  ghost function DaysPast(events: seq<Event>, due: int): set<int> {
    set i | 0 <= i < |events| && events[i].TickOn? && events[i].today > due :: events[i].today
  }

  ghost predicate TickedBy(events: seq<Event>, due: int) {
    exists i :: 0 <= i < |events| && events[i].TickOn? && events[i].today >= due
  }

  function Min3(n: nat): nat { if n < MAX_LEVEL then n else MAX_LEVEL }

  ghost function EscalationDays(s: Db, id: nat): set<int> {
    set k | k in s.ledger && k.TaskEscalation? && k.task == id :: k.day
  }

  ghost function SlaDays(s: Db, id: nat): set<int> {
    set k | k in s.ledger && k.ApprovalEscalation? && k.task == id :: k.day
  }

  lemma DaysPastStep(events: seq<Event>, e: Event, due: int)
    ensures DaysPast(events + [e], due)
         == DaysPast(events, due) + if e.TickOn? && e.today > due then {e.today} else {}
    ensures TickedBy(events + [e], due) <==> TickedBy(events, due) || (e.TickOn? && e.today >= due)
  {
    var es := events + [e];
    assert es[|events|] == e;
    assert forall i :: 0 <= i < |events| ==> es[i] == events[i];
    if TickedBy(events, due) {
      var i :| 0 <= i < |events| && events[i].TickOn? && events[i].today >= due;
      assert es[i].TickOn? && es[i].today >= due;
    }
  }

  /** A freshly created task: open, at level 0, and never escalated. */
  ghost predicate Untouched(s: Db, id: nat) {
    && id in s.tasks && s.tasks[id].due.Some? && IsOpen(s.tasks[id]) && s.tasks[id].level == 0
    && EscalationDays(s, id) == {} && SlaDays(s, id) == {}
  }

  /** How level, ledger and the days ticked so far hang together for one task. */
  ghost predicate LevelInv(s: Db, id: nat, first: Task, past: set<int>, ticked: bool) {
    && id in s.tasks && s.tasks[id].due == first.due && s.tasks[id].category == first.category && IsOpen(s.tasks[id])
    && var escalated, sla := EscalationDays(s, id), SlaDays(s, id);
       && escalated <= past
       && s.tasks[id].level == |escalated| + |sla| <= MAX_LEVEL
       && |sla| == (if first.category == ApprovalAwaiting && ticked then 1 else 0)
       && (s.tasks[id].level < MAX_LEVEL ==> escalated == past)
  }

  lemma DaysAfterTick(s: Db, s': Db, id: nat, today: int)
    requires id in s.tasks && TaskTicked(s, s', id, today)
    ensures EscalationDays(s', id) == EscalationDays(s, id)
      + if OverdueAtEscalation(s.tasks[id], id, s.ledger, today) then {today} else {}
    ensures SlaDays(s', id) == SlaDays(s, id) + if SlaLate(s.tasks[id], today) then {today} else {}
    ensures today in EscalationDays(s, id) <==> TaskEscalation(id, today) in s.ledger
    ensures today in SlaDays(s, id) <==> ApprovalEscalation(id, today) in s.ledger
  {
    hide SlaLate, OverdueAtEscalation, NudgeDue;
    EscalationDaysHold(s, id);
    EscalationDaysHold(s', id);
  }

  lemma EscalationDaysHold(s: Db, id: nat)
    ensures forall d :: d in EscalationDays(s, id) <==> TaskEscalation(id, d) in s.ledger
    ensures forall d :: d in SlaDays(s, id) <==> ApprovalEscalation(id, d) in s.ledger
  {
  }

  /** At level 0 a task has no escalation keys at all, so nothing stops the SLA escalation. */
  lemma LevelZeroIsClean(s: Db, id: nat, first: Task, past: set<int>, ticked: bool, today: int)
    requires LevelInv(s, id, first, past, ticked) && s.tasks[id].level == 0
    ensures EscalationDays(s, id) == {} && SlaDays(s, id) == {} && past == {} && !(first.category == ApprovalAwaiting && ticked)
    ensures ApprovalEscalation(id, today) !in s.ledger && TaskEscalation(id, today) !in s.ledger
  {
    EscalationDaysHold(s, id);
    assert |EscalationDays(s, id)| == 0 && |SlaDays(s, id)| == 0;
    assert today !in EscalationDays(s, id) && today !in SlaDays(s, id);
  }

  /** The rise in level of one tick, in terms of the escalation days already counted. */
  lemma TickRise(s: Db, id: nat, first: Task, past: set<int>, ticked: bool, today: int)
    requires first.due.Some? && LevelInv(s, id, first, past, ticked)
    ensures var t := s.tasks[id];
            var approval := first.category == ApprovalAwaiting && t.level == 0 && today >= first.due.value;
            && (SlaLate(t, today) <==> approval)
            && LevelAtEscalation(t, id, s.ledger, today) == (if approval then 1 else t.level)
            && (OverdueAtEscalation(t, id, s.ledger, today) <==> today > first.due.value && t.level < MAX_LEVEL)
  {
    hide EscalationDays, SlaDays;
    if s.tasks[id].level == 0 { LevelZeroIsClean(s, id, first, past, ticked, today); }
  }

  lemma TickKeepsLevelInv(s: Db, s': Db, id: nat, first: Task, past: set<int>, ticked: bool, today: int)
    requires first.due.Some? && LevelInv(s, id, first, past, ticked) && TaskTicked(s, s', id, today)
    requires past != {} ==> ticked
    ensures LevelInv(s', id, first, if today > first.due.value then past + {today} else past,
                     ticked || today >= first.due.value)
  {
    hide TaskTicked, EscalationDays, SlaDays, SlaLate, OverdueAtEscalation, LevelAtEscalation;
    var t := s.tasks[id];
    DaysAfterTick(s, s', id, today);
    TickedTask(s, s', id, today);
    TickRise(s, id, first, past, ticked, today);
    if t.level == 0 { LevelZeroIsClean(s, id, first, past, ticked, today); }
    if t.level > 0 && EscalationDays(s, id) == {} { assert |SlaDays(s, id)| > 0; }
  }

  lemma TickedTask(s: Db, s': Db, id: nat, today: int)
    requires id in s.tasks && TaskTicked(s, s', id, today)
    ensures id in s'.tasks && s'.tasks[id] == s.tasks[id].(level := TickedLevel(s.tasks[id], id, s.ledger, today))
  {
  }

  lemma OutsideKeepsLevelInv(s: Db, s': Db, id: nat, first: Task, past: set<int>, ticked: bool)
    requires LevelInv(s, id, first, past, ticked) && LedgerLeftAlone(s, s') && StaysOpen(s, s', id)
    ensures LevelInv(s', id, first, past, ticked)
  {
    assert EscalationDays(s', id) == EscalationDays(s, id);
    assert SlaDays(s', id) == SlaDays(s, id);
  }

  lemma UntouchedIsLevelInv(s: Db, id: nat)
    requires Untouched(s, id)
    ensures var first := s.tasks[id]; LevelInv(s, id, first, DaysPast([], first.due.value), TickedBy([], first.due.value))
  {
    assert DaysPast([], s.tasks[id].due.value) == {};
  }

  lemma {:induction false} RunKeepsLevelInv(dir: Directory, states: seq<Db>, events: seq<Event>, id: nat)
    requires Run(dir, states, events) && OpenThroughout(states, events, id) && Untouched(states[0], id)
    ensures var first := states[0].tasks[id];
            LevelInv(states[|events|], id, first, DaysPast(events, first.due.value), TickedBy(events, first.due.value))
    decreases |events|
  {
    hide Step, LevelInv, DaysPast, TickedBy, EscalationDays, SlaDays, StaysOpen;
    if events == [] {
      UntouchedIsLevelInv(states[0], id);
    } else {
      var n := |events| - 1;
      var before := events[..n];
      assert Run(dir, states[..n + 1], before) && OpenThroughout(states[..n + 1], before, id);
      RunKeepsLevelInv(dir, states[..n + 1], before, id);
      assert events == before + [events[n]];
      assert Step(dir, states[n], events[n], states[n + 1]);
      OneStepLevelInv(dir, states[n], events[n], states[n + 1], id, states[0].tasks[id], before);
    }
  }

  lemma OneStepLevelInv(dir: Directory, s: Db, e: Event, s': Db, id: nat, first: Task, before: seq<Event>)
    requires first.due.Some? && Step(dir, s, e, s') && (e.Outside? ==> StaysOpen(s, s', id))
    requires LevelInv(s, id, first, DaysPast(before, first.due.value), TickedBy(before, first.due.value))
    ensures LevelInv(s', id, first, DaysPast(before + [e], first.due.value), TickedBy(before + [e], first.due.value))
  {
    hide LevelInv, LedgerLeftAlone, StaysOpen, DaysPast, TickedBy;
    var due := first.due.value;
    DaysPastStep(before, e, due);
    assert !(e.TickOn? && e.today > due) ==> DaysPast(before + [e], due) == DaysPast(before, due);
    match e
    case TickOn(today) =>
      InvHasTask(s, id, first, DaysPast(before, due), TickedBy(before, due));
      TickOnOneTask(dir, s, s', today, id);
      PastMeansTicked(before, due);
      TickKeepsLevelInv(s, s', id, first, DaysPast(before, due), TickedBy(before, due), today);
      assert DaysPast(before + [e], due) == if today > due then DaysPast(before, due) + {today} else DaysPast(before, due);
    case RolledBack(_) =>
    case Outside =>
      OutsideKeepsLevelInv(s, s', id, first, DaysPast(before, due), TickedBy(before, due));
  }

  lemma InvHasTask(s: Db, id: nat, first: Task, past: set<int>, ticked: bool)
    requires LevelInv(s, id, first, past, ticked)
    ensures id in s.tasks
  {
  }

  lemma PastMeansTicked(events: seq<Event>, due: int)
    ensures DaysPast(events, due) != {} ==> TickedBy(events, due)
  {
    if DaysPast(events, due) != {} {
      var d :| d in DaysPast(events, due);
      var i :| 0 <= i < |events| && events[i].TickOn? && events[i].today > due && events[i].today == d;
    }
  }

  /**
   Over any run in which the task stays open with its due date: a task that starts at level 0 has risen
   one level for each distinct committed tick day past the due date, up to three; an approval task has
   risen one more as soon as any tick day reached the due date, and not at all before. Its level is the
   number of its escalation keys in the ledger.
   */
  lemma LevelCountsTickDays(dir: Directory, states: seq<Db>, events: seq<Event>, id: nat)
    requires Run(dir, states, events) && OpenThroughout(states, events, id) && Untouched(states[0], id)
    ensures id in states[|events|].tasks
    ensures var t, last := states[0].tasks[id], states[|events|];
            var g := |DaysPast(events, t.due.value)|;
            && last.tasks[id].level == (if t.category != ApprovalAwaiting then Min3(g)
                                        else if TickedBy(events, t.due.value) then Min3(1 + g) else 0)
            && last.tasks[id].level == |EscalationDays(last, id)| + |SlaDays(last, id)|
  {
    RunKeepsLevelInv(dir, states, events, id);
    var t, last := states[0].tasks[id], states[|events|];
    var past := DaysPast(events, t.due.value);
    PastMeansTicked(events, t.due.value);
    SubsetSize(EscalationDays(last, id), past);
  }

  // ---- nudges -------------------------------------------------------------------

  ghost function NudgeDays(s: Db, id: nat): set<int> {
    set k | k in s.ledger && k.ApprovalNudge? && k.task == id :: k.day
  }

  lemma NudgeDaysHold(s: Db, id: nat)
    ensures forall d :: d in NudgeDays(s, id) <==> ApprovalNudge(id, d) in s.ledger
  {
  }

  /** Nudges fall in the window before the due date, escalations on or after it. */
  ghost predicate NudgeInv(s: Db, id: nat, due: int) {
    && id in s.tasks && s.tasks[id].due == Some(due)
    && (forall d :: d in NudgeDays(s, id) ==> PrevBusinessDay(due) <= d < due)
    && (forall d :: d in EscalationDays(s, id) + SlaDays(s, id) ==> d >= due)
  }

  lemma TickKeepsNudgeInv(s: Db, s': Db, id: nat, due: int, today: int)
    requires NudgeInv(s, id, due) && TaskTicked(s, s', id, today)
    ensures NudgeInv(s', id, due)
  {
    NudgeDaysHold(s, id);
    NudgeDaysHold(s', id);
    EscalationDaysHold(s, id);
    EscalationDaysHold(s', id);
    forall d | d in EscalationDays(s', id) + SlaDays(s', id) ensures d >= due {
      if d !in EscalationDays(s, id) + SlaDays(s, id) {
        assert d == today && (OverdueAtEscalation(s.tasks[id], id, s.ledger, today) || SlaLate(s.tasks[id], today));
      }
    }
  }

  /** From the outside the task keeps its due date; it may be closed, reopened or moved up and down. */
  ghost predicate KeepsDue(states: seq<Db>, events: seq<Event>, id: nat)
    requires |states| == |events| + 1
  {
    forall i :: 0 <= i < |events| && events[i].Outside? ==>
      id in states[i].tasks && id in states[i + 1].tasks && states[i + 1].tasks[id].due == states[i].tasks[id].due
  }

  lemma OutsideKeepsNudgeInv(s: Db, s': Db, id: nat, due: int)
    requires NudgeInv(s, id, due) && LedgerLeftAlone(s, s') && id in s'.tasks && s'.tasks[id].due == Some(due)
    ensures NudgeInv(s', id, due)
  {
    assert NudgeDays(s', id) == NudgeDays(s, id);
    assert EscalationDays(s', id) == EscalationDays(s, id) && SlaDays(s', id) == SlaDays(s, id);
  }

  lemma {:induction false} RunKeepsNudgeInv(dir: Directory, states: seq<Db>, events: seq<Event>, id: nat, due: int)
    requires Run(dir, states, events) && KeepsDue(states, events, id) && NudgeInv(states[0], id, due)
    ensures NudgeInv(states[|events|], id, due)
    decreases |events|
  {
    hide NudgeInv, Tick, LedgerLeftAlone;
    if events != [] {
      var n := |events| - 1;
      var before := events[..n];
      assert Run(dir, states[..n + 1], before) && KeepsDue(states[..n + 1], before, id);
      RunKeepsNudgeInv(dir, states[..n + 1], before, id, due);
      assert Step(dir, states[n], events[n], states[n + 1]);
      assert id in states[n].tasks && states[n].tasks[id].due == Some(due) by { NudgeInvDue(states[n], id, due); }
      match events[n]
      case TickOn(today) =>
        TickOnOneTask(dir, states[n], states[n + 1], today, id);
        TickKeepsNudgeInv(states[n], states[n + 1], id, due, today);
      case RolledBack(_) =>
      case Outside =>
        OutsideKeepsNudgeInv(states[n], states[n + 1], id, due);
    }
  }

  lemma NudgeInvDue(s: Db, id: nat, due: int)
    requires NudgeInv(s, id, due)
    ensures id in s.tasks && s.tasks[id].due == Some(due)
  {
  }

  /**
   A task with a fixed due date is nudged at most once for each day from the previous business day up to
   the due date, so at most three times, and no day is both a nudge day and an escalation day for it.
   */
  lemma NudgesAreFew(dir: Directory, states: seq<Db>, events: seq<Event>, id: nat, due: int)
    requires Run(dir, states, events) && KeepsDue(states, events, id) && NudgeInv(states[0], id, due)
    ensures var last := states[|events|];
            && |NudgeDays(last, id)| <= due - PrevBusinessDay(due) <= 3
            && NudgeDays(last, id) !! EscalationDays(last, id) + SlaDays(last, id)
  {
    RunKeepsNudgeInv(dir, states, events, id, due);
    var last := states[|events|];
    IntervalSize(NudgeDays(last, id), PrevBusinessDay(due), due);
  }

  // ---- the same tick twice ------------------------------------------------------

  lemma CheckInsAllHeld(dir: Directory, s: Db, s1: Db, today: int, made: map<nat, Key>)
    requires CheckInPass(dir, s, s1, today, s.opps.Keys, made)
    ensures s1.opps == s.opps && CheckInsDue(s, today, s.opps.Keys) <= s1.ledger
    ensures forall id :: id in s1.tasks && id !in s.tasks ==>
              s1.tasks[id].category == CheckIn && s1.tasks[id].due == Some(today)
  {
    hide Notices, CheckInsDue;
  }

  lemma EmptyValues(made: map<nat, Key>)
    requires made.Values == {}
    ensures made == map[]
  {
    forall id | id in made ensures made[id] in made.Values {}
  }

  lemma NoCheckInsLeft(dir: Directory, s: Db, s1: Db, today: int, made: map<nat, Key>)
    requires CheckInPass(dir, s, s1, today, s.opps.Keys, made)
    requires CheckInsDue(s, today, s.opps.Keys) <= s.ledger
    ensures s1 == s
  {
    hide CheckInsDue, Notices, CheckInTask;
    assert CheckInsDue(s, today, s.opps.Keys) - s.ledger == {};
    NoticesOfNothing(dir, s.tasks);
    assert made.Values == {};
    EmptyValues(made);
  }

  lemma SlaTaskDone(s: Db, today: int, id: nat)
    requires SlaDue(s, today, s.tasks.Keys) <= s.ledger && id in s.tasks
    ensures SlaTask(s, id, today) == s.tasks[id]
  {
    hide SlaLate, NudgeDue;
    if SlaLate(s.tasks[id], today) { assert ApprovalEscalation(id, today) in SlaDue(s, today, s.tasks.Keys); }
  }

  lemma NothingSlaDue(dir: Directory, s: Db, today: int)
    requires SlaDue(s, today, s.tasks.Keys) <= s.ledger
    ensures SlaPass(dir, s, today, s.tasks.Keys) == s
  {
    hide SlaDue, SlaTask, Notices;
    assert SlaDue(s, today, s.tasks.Keys) - s.ledger == {};
    NoticesOfNothing(dir, s.tasks);
    forall id | id in s.tasks ensures SlaTask(s, id, today) == s.tasks[id] { SlaTaskDone(s, today, id); }
  }

  lemma OverdueTaskDone(s: Db, today: int, id: nat)
    requires EscalationsDue(s, today, s.tasks.Keys) <= s.ledger && id in s.tasks
    ensures EscalatedTask(s, id, today) == s.tasks[id]
  {
    hide Overdue;
    if Overdue(s.tasks[id], today) { assert TaskEscalation(id, today) in EscalationsDue(s, today, s.tasks.Keys); }
  }

  lemma NothingOverdue(dir: Directory, s: Db, today: int)
    requires EscalationsDue(s, today, s.tasks.Keys) <= s.ledger
    ensures EscalationPass(dir, s, today, s.tasks.Keys) == s
  {
    hide EscalationsDue, EscalatedTask, Notices;
    assert EscalationsDue(s, today, s.tasks.Keys) - s.ledger == {};
    NoticesOfNothing(dir, s.tasks);
    forall id | id in s.tasks ensures EscalatedTask(s, id, today) == s.tasks[id] { OverdueTaskDone(s, today, id); }
  }

  /** After a tick, every trigger still due that day is in the ledger. */
  lemma TickLeavesNothingDue(dir: Directory, s: Db, s': Db, today: int)
    requires Tick(dir, s, s', today)
    ensures s'.opps == s.opps && CheckInsDue(s', today, s'.opps.Keys) <= s'.ledger
    ensures SlaDue(s', today, s'.tasks.Keys) <= s'.ledger
    ensures EscalationsDue(s', today, s'.tasks.Keys) <= s'.ledger
  {
    hide Notices, NeedsCheckIn, CheckInPass;
    var s1: Db, made: map<nat, Key> :| TickVia(dir, s, s1, s', today, made);
    CheckInsAllHeld(dir, s, s1, today, made);
    var s2 := SlaPass(dir, s1, today, s1.tasks.Keys);
    assert CheckInsDue(s', today, s'.opps.Keys) == CheckInsDue(s, today, s.opps.Keys);
    forall k | k in SlaDue(s', today, s'.tasks.Keys) ensures k in s'.ledger {
      StillSlaDue(dir, s1, s', today, k);
    }
    forall k | k in EscalationsDue(s', today, s'.tasks.Keys) ensures k in s'.ledger {
      var id := k.task;
      assert k == TaskEscalation(id, today) && id in s'.tasks && Overdue(s'.tasks[id], today);
      assert Overdue(s2.tasks[id], today);
      assert k in EscalationsDue(s2, today, s2.tasks.Keys);
    }
  }

  lemma StillSlaDue(dir: Directory, s1: Db, s': Db, today: int, k: Key)
    requires s' == (var s2 := SlaPass(dir, s1, today, s1.tasks.Keys); EscalationPass(dir, s2, today, s2.tasks.Keys))
    requires k in SlaDue(s', today, s'.tasks.Keys)
    ensures k in s'.ledger
  {
    hide Notices;
    var id := k.task;
    assert id in s1.tasks;
    assert k in SlaDue(s1, today, s1.tasks.Keys);
  }

  /**
   A second tick on the same day with no change in between leaves tasks, levels, ledger and outbox as
   they are, including the tasks the first tick created.
   */
  lemma SecondTickChangesNothing(dir: Directory, s: Db, s': Db, s'': Db, today: int)
    requires Tick(dir, s, s', today) && Tick(dir, s', s'', today)
    ensures s'' == s'
  {
    hide CheckInPass, SlaPass, EscalationPass, CheckInsDue, SlaDue, EscalationsDue;
    TickLeavesNothingDue(dir, s, s', today);
    var s1: Db, made: map<nat, Key> :| TickVia(dir, s', s1, s'', today, made);
    NoCheckInsLeft(dir, s', s1, today, made);
    NothingSlaDue(dir, s', today);
    NothingOverdue(dir, s', today);
  }

  // ---- one check-in task per client date ----------------------------------------

  /** A task created by the check-in trigger has its key in the ledger, and no other task has the same key. */
  ghost predicate CheckInInv(s: Db) {
    && (forall id :: id in s.tasks && s.tasks[id].source.Some? ==> s.tasks[id].source.value in s.ledger)
    && (forall a, b ::
          a in s.tasks && b in s.tasks && s.tasks[a].source.Some? && s.tasks[a].source == s.tasks[b].source ==> a == b)
  }

  /** Outside the scheduler tasks come, change and go, but none takes a scheduler trigger as its source. */
  ghost predicate SourcesKept(s: Db, s': Db) {
    forall id :: id in s'.tasks && s'.tasks[id].source.Some? ==> id in s.tasks && s.tasks[id].source == s'.tasks[id].source
  }

  lemma CheckInPassKeepsInv(dir: Directory, s: Db, s1: Db, today: int, made: map<nat, Key>)
    requires CheckInInv(s) && CheckInPass(dir, s, s1, today, s.opps.Keys, made)
    ensures CheckInInv(s1)
  {
    hide Notices, CheckInsDue;
    forall id | id in made ensures made[id] in s1.ledger && made[id] !in s.ledger {
      assert made[id] in made.Values;
    }
  }

  lemma PassesKeepSources(dir: Directory, s1: Db, today: int)
    requires CheckInInv(s1)
    ensures var s2 := SlaPass(dir, s1, today, s1.tasks.Keys);
            CheckInInv(s2) && CheckInInv(EscalationPass(dir, s2, today, s2.tasks.Keys))
  {
    hide Notices, SlaDue, EscalationsDue, SlaLate, Overdue;
    var s2 := SlaPass(dir, s1, today, s1.tasks.Keys);
    var s3 := EscalationPass(dir, s2, today, s2.tasks.Keys);
    assert forall id :: id in s1.tasks ==> s2.tasks[id].source == s1.tasks[id].source;
    assert forall id :: id in s2.tasks ==> s3.tasks[id].source == s2.tasks[id].source;
  }

  /** Over any run, at most one check-in task exists for an opportunity and client date, and its key is in the ledger. */
  lemma {:induction false} OneCheckInPerDate(dir: Directory, states: seq<Db>, events: seq<Event>)
    requires Run(dir, states, events) && CheckInInv(states[0])
    requires forall i :: 0 <= i < |events| && events[i].Outside? ==> SourcesKept(states[i], states[i + 1])
    ensures CheckInInv(states[|events|])
    decreases |events|
  {
    hide CheckInPass, SlaPass, EscalationPass;
    if events != [] {
      var n := |events| - 1;
      var before := events[..n];
      assert Run(dir, states[..n + 1], before);
      OneCheckInPerDate(dir, states[..n + 1], before);
      assert Step(dir, states[n], events[n], states[n + 1]);
      match events[n]
      case TickOn(today) =>
        var s1: Db, made: map<nat, Key> :| TickVia(dir, states[n], s1, states[n + 1], today, made);
        CheckInPassKeepsInv(dir, states[n], s1, today, made);
        PassesKeepSources(dir, s1, today);
      case RolledBack(_) =>
      case Outside =>
    }
  }

  // ---- every trigger notifies once ----------------------------------------------

  /** Each trigger in the outbox is in the ledger and has told one user, once per channel. */
  ghost predicate NotifiedOnce(s: Db) {
    && (forall n :: n in s.outbox ==> s.outbox[n] == 1 && n.trigger in s.ledger)
    && (forall m, n :: m in s.outbox && n in s.outbox && m.trigger == n.trigger ==> m.user == n.user)
  }

  lemma NoticesMembers(dir: Directory, tasks: map<nat, Task>, fired: set<Key>)
    ensures forall n :: n in Notices(dir, tasks, fired) ==>
      Notices(dir, tasks, fired)[n] == 1 && n.trigger in fired && Recipient(dir, tasks, n.trigger) == Some(n.user)
  {
    hide Recipient;
  }

  /** A pass notifies only of triggers it has just recorded. */
  lemma PassNotifiesOnce(dir: Directory, s: Db, s': Db, due: set<Key>)
    requires NotifiedOnce(s) && s'.ledger == s.ledger + (due - s.ledger)
    requires s'.outbox == s.outbox + Notices(dir, s.tasks, due - s.ledger)
    ensures NotifiedOnce(s')
  {
    hide Notices, Recipient;
    NoticesMembers(dir, s.tasks, due - s.ledger);
  }

  lemma TickNotifiesOnce(dir: Directory, s: Db, s': Db, today: int)
    requires NotifiedOnce(s) && Tick(dir, s, s', today)
    ensures NotifiedOnce(s')
  {
    hide NotifiedOnce, Notices, CheckInsDue, SlaDue, EscalationsDue;
    var s1: Db, made: map<nat, Key> :| TickVia(dir, s, s1, s', today, made);
    var s2 := SlaPass(dir, s1, today, s1.tasks.Keys);
    PassNotifiesOnce(dir, s, s1, CheckInsDue(s, today, s.opps.Keys));
    PassNotifiesOnce(dir, s1, s2, SlaDue(s1, today, s1.tasks.Keys));
    PassNotifiesOnce(dir, s2, s', EscalationsDue(s2, today, s2.tasks.Keys));
  }

  /** Other writers add none of the scheduler's notices; they may deliver and remove them. */
  ghost predicate NoticesLeftAlone(s: Db, s': Db) {
    forall n :: s'.outbox[n] <= s.outbox[n]
  }

  /**
   Over any run of committed and rolled-back ticks on any days, a trigger that has taken effect is never
   notified again: at most one notice per trigger and channel, all of them to one user.
   */
  lemma {:induction false} TriggersNotifyOnce(dir: Directory, states: seq<Db>, events: seq<Event>)
    requires Run(dir, states, events) && NotifiedOnce(states[0])
    requires forall i :: 0 <= i < |events| && events[i].Outside? ==> NoticesLeftAlone(states[i], states[i + 1])
    ensures NotifiedOnce(states[|events|])
    decreases |events|
  {
    hide Tick;
    if events != [] {
      var n := |events| - 1;
      var before := events[..n];
      assert Run(dir, states[..n + 1], before);
      TriggersNotifyOnce(dir, states[..n + 1], before);
      assert Step(dir, states[n], events[n], states[n + 1]);
      match events[n]
      case TickOn(today) => TickNotifiesOnce(dir, states[n], states[n + 1], today);
      case RolledBack(_) =>
      case Outside => OutsideNotifiesOnce(states[n], states[n + 1]);
    }
  }

  lemma OutsideNotifiesOnce(s: Db, s': Db)
    requires NotifiedOnce(s) && LedgerLeftAlone(s, s') && NoticesLeftAlone(s, s')
    ensures NotifiedOnce(s')
  {
    forall n | n in s'.outbox ensures n in s.outbox && s'.outbox[n] == 1 { assert s'.outbox[n] <= s.outbox[n]; }
  }
}
