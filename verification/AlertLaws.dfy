/**
 One tick of the alert scheduler from the outside: which triggers it records, which tasks it leaves and who
 is told, read off the rows and the calendar alone.
 */
module AlertLaws {
  import opened Text
  import opened Calendar
  import opened BusinessDays
  import opened Ledger
  import opened AlertModel

  // ---- which triggers are recorded ----------------------------------------------

  /** Day 1 is a Monday. */
  predicate Weekend(day: int) { (day - 1) % 7 >= 5 }

  ghost predicate StillOpen(t: Task) { t.status in {Assigned, InProgress, LegacyOpen} }

  /** The trigger is due today, in terms of the opportunity or task it names. */
  ghost predicate IsDue(s: Db, key: Key, today: int) {
    match key
    case OverdueCheckIn(id, date) =>
      && id in s.opps && s.opps[id].nextDate == Some(date)
      && |set d | date < d <= today && !Weekend(d)| >= 3
      && (s.opps[id].lastUpdate.Some? ==> s.opps[id].lastUpdate.value < date * 86_400_000_000)
    case ApprovalNudge(id, day) =>
      && day == today && id in s.tasks && s.tasks[id].category == ApprovalAwaiting && StillOpen(s.tasks[id])
      && s.tasks[id].due.Some? && today < s.tasks[id].due.value
      && (forall d :: today < d < s.tasks[id].due.value ==> Weekend(d))
    case ApprovalEscalation(id, day) =>
      && day == today && id in s.tasks && s.tasks[id].category == ApprovalAwaiting && StillOpen(s.tasks[id])
      && s.tasks[id].due.Some? && s.tasks[id].due.value <= today && s.tasks[id].level == 0
    case TaskEscalation(id, day) =>
      && day == today && id in s.tasks && StillOpen(s.tasks[id])
      && s.tasks[id].due.Some? && s.tasks[id].due.value < today && s.tasks[id].level < 3
    case _ => false
  }

  lemma CheckInIsDue(s: Db, id: nat, date: int, today: int)
    ensures OverdueCheckIn(id, date) in CheckInsDue(s, today, s.opps.Keys) <==> IsDue(s, OverdueCheckIn(id, date), today)
  {
    hide CountBetween;
    CountIsSize(date, today);
    if id in s.opps && NeedsCheckIn(s.opps[id], today) && s.opps[id].nextDate.value == date {
      assert OverdueCheckIn(id, date) in CheckInsDue(s, today, s.opps.Keys);
    }
  }

  lemma CountIsSize(earlier: int, later: int)
    ensures CountBetween(earlier, later) == |set d | earlier < d <= later && !Weekend(d)|
  {
    CountsDays(earlier, later);
    forall d ensures IsBusinessDay(d) <==> !Weekend(d) { assert (d + 6) % 7 == (d - 1) % 7; }
    assert BusinessDaySet(earlier, later) == set d | earlier < d <= later && !Weekend(d);
  }

  lemma {:induction false} CountsDays(earlier: int, later: int)
    ensures CountBetween(earlier, later) == |BusinessDaySet(earlier, later)|
    decreases later - earlier
  {
    if later <= earlier {
      assert BusinessDaySet(earlier, later) == {};
    } else {
      CountsDays(earlier, later - 1);
      RankStep(later);
      var before := BusinessDaySet(earlier, later - 1);
      assert BusinessDaySet(earlier, later) == if IsBusinessDay(later) then before + {later} else before;
    }
  }

  /** The previous business day is behind us exactly when only weekend days are left before `day`. */
  lemma OnlyWeekendLeft(day: int, today: int)
    requires today < day
    ensures PrevBusinessDay(day) <= today <==> forall d :: today < d < day ==> Weekend(d)
  {
    var p := PrevBusinessDay(day);
    assert forall d :: IsBusinessDay(d) <==> !Weekend(d) by {
      forall d ensures IsBusinessDay(d) <==> !Weekend(d) { assert (d + 6) % 7 == (d - 1) % 7; }
    }
    if today < p { assert !Weekend(p); }
  }

  /** What the check-in pass does to the task table. */
  ghost predicate CreatesTasks(dir: Directory, s: Db, tasks: map<nat, Task>, today: int, made: map<nat, Key>) {
    && made.Keys !! s.tasks.Keys && tasks.Keys == s.tasks.Keys + made.Keys
    && (forall id :: id in s.tasks ==> tasks[id] == s.tasks[id])
    && (forall id :: id in made ==> tasks[id] == CheckInTask(dir, s.opps, made[id], today))
  }

  lemma SlaIsDue(dir: Directory, s: Db, s1: Db, today: int, made: map<nat, Key>, key: Key)
    requires CreatesTasks(dir, s, s1.tasks, today, made)
    ensures key in SlaDue(s1, today, s1.tasks.Keys) <==>
      (key.ApprovalNudge? || key.ApprovalEscalation?) && IsDue(s, key, today)
  {
    if key.ApprovalNudge? && key.task in s.tasks && s.tasks[key.task].due.Some? && today < s.tasks[key.task].due.value {
      OnlyWeekendLeft(s.tasks[key.task].due.value, today);
    }
    if (key.ApprovalNudge? || key.ApprovalEscalation?) && key.task in s.tasks {
      assert s1.tasks[key.task] == s.tasks[key.task];
    }
    hide PrevBusinessDay, Weekend;
    if key in SlaDue(s1, today, s1.tasks.Keys) {
      assert key.task !in made;
    }
  }

  lemma EscalationIsDue(dir: Directory, s: Db, s1: Db, today: int, made: map<nat, Key>, key: Key)
    requires CreatesTasks(dir, s, s1.tasks, today, made)
    ensures var s2 := SlaPass(dir, s1, today, s1.tasks.Keys);
            key in EscalationsDue(s2, today, s2.tasks.Keys) <==> key.TaskEscalation? && IsDue(s, key, today)
  {
    hide Notices, SlaDue, NudgeDue;
    var s2 := SlaPass(dir, s1, today, s1.tasks.Keys);
    if key.TaskEscalation? && key.task in s.tasks {
      assert s1.tasks[key.task] == s.tasks[key.task];
      assert s2.tasks[key.task] == SlaTask(s1, key.task, today);
    }
    if key in EscalationsDue(s2, today, s2.tasks.Keys) {
      assert s2.tasks[key.task] == SlaTask(s1, key.task, today);
      assert key.task !in made;
    }
  }

  lemma LedgerAdds(dir: Directory, s: Db, s1: Db, s': Db, today: int, made: map<nat, Key>)
    requires TickVia(dir, s, s1, s', today, made)
    ensures var s2 := SlaPass(dir, s1, today, s1.tasks.Keys);
      s'.ledger == s.ledger + CheckInsDue(s, today, s.opps.Keys) + SlaDue(s1, today, s1.tasks.Keys)
                   + EscalationsDue(s2, today, s2.tasks.Keys)
  {
    hide Notices, CheckInsDue, SlaDue, EscalationsDue, CheckInTask, SlaTask, EscalatedTask;
  }

  /** A tick records exactly the triggers that are due, and no key of another scheduler. */
  lemma TickRecordsExactly(dir: Directory, s: Db, s': Db, today: int, key: Key)
    requires Tick(dir, s, s', today)
    ensures key in s'.ledger <==> key in s.ledger || IsDue(s, key, today)
  {
    hide CheckInPass, SlaPass, EscalationPass, CheckInsDue, SlaDue, EscalationsDue, IsDue, CreatesTasks;
    var s1: Db, made: map<nat, Key> :| TickVia(dir, s, s1, s', today, made);
    LedgerAdds(dir, s, s1, s', today, made);
    TasksCreated(dir, s, s1, today, made);
    SlaIsDue(dir, s, s1, today, made, key);
    EscalationIsDue(dir, s, s1, today, made, key);
    CheckInKeys(s, today, key);
  }

  lemma TasksCreated(dir: Directory, s: Db, s1: Db, today: int, made: map<nat, Key>)
    requires CheckInPass(dir, s, s1, today, s.opps.Keys, made)
    ensures CreatesTasks(dir, s, s1.tasks, today, made)
  {
    hide Notices, CheckInsDue, CheckInTask;
  }

  lemma CheckInKeys(s: Db, today: int, key: Key)
    ensures key in CheckInsDue(s, today, s.opps.Keys) <==> key.OverdueCheckIn? && IsDue(s, key, today)
    ensures IsDue(s, key, today) ==>
      key.OverdueCheckIn? || key.ApprovalNudge? || key.ApprovalEscalation? || key.TaskEscalation?
  {
    if key.OverdueCheckIn? {
      hide CheckInsDue;
      CheckInIsDue(s, key.opp, key.nextDate, today);
    }
  }

  // ---- which tasks it leaves ----------------------------------------------------

  /** The tick recorded the trigger. */
  ghost predicate Recorded(s: Db, s': Db, key: Key) { key in s'.ledger && key !in s.ledger }

  ghost predicate IsUser(dir: Directory, owner: Option<nat>) { owner.Some? && owner.value in dir.users }

  /** One task for each recorded check-in: due today, level 0, of the opportunity's owner. */
  ghost predicate ChecksIn(dir: Directory, s: Db, s': Db, today: int, id: nat)
    requires id in s'.tasks
  {
    var t := s'.tasks[id];
    && t.source.Some? && t.source.value.OverdueCheckIn? && Recorded(s, s', t.source.value) && t.source.value.opp in s.opps
    && t.due == Some(today) && t.category == CheckIn && t.status == Assigned && t.level == 0
    && t.owner == if IsUser(dir, s.opps[t.source.value.opp].owner) then s.opps[t.source.value.opp].owner else None
  }

  lemma CheckInMakes(dir: Directory, s: Db, s1: Db, today: int, made: map<nat, Key>)
    requires CheckInPass(dir, s, s1, today, s.opps.Keys, made)
    ensures s1.opps == s.opps && CreatesTasks(dir, s, s1.tasks, today, made)
    ensures forall id :: id in made ==> made[id] in CheckInsDue(s, today, s.opps.Keys) && made[id] in s1.ledger && made[id] !in s.ledger
    ensures forall k :: k in s1.ledger && k !in s.ledger ==> exists id :: id in made && made[id] == k
    ensures forall a, b :: a in made && b in made && made[a] == made[b] ==> a == b
  {
    hide Notices, CheckInTask, CheckInsDue;
    forall id | id in made ensures made[id] in CheckInsDue(s, today, s.opps.Keys) - s.ledger {
      assert made[id] in made.Values;
    }
  }

  lemma LevelsAfter(dir: Directory, s1: Db, today: int, id: nat)
    requires id in s1.tasks
    ensures var s2 := SlaPass(dir, s1, today, s1.tasks.Keys);
            var s3 := EscalationPass(dir, s2, today, s2.tasks.Keys);
            && id in s3.tasks
            && s3.tasks[id] == s1.tasks[id].(level := s1.tasks[id].level
                 + (if ApprovalEscalation(id, today) in s2.ledger - s1.ledger then 1 else 0)
                 + (if TaskEscalation(id, today) in s3.ledger - s2.ledger then 1 else 0))
  {
    hide Notices, NudgeDue, Overdue;
    var s2 := SlaPass(dir, s1, today, s1.tasks.Keys);
    assert s2.tasks[id] == SlaTask(s1, id, today);
  }

  /** The keys of each pass are its own. */
  lemma PassKeys(dir: Directory, s: Db, s1: Db, s': Db, today: int, made: map<nat, Key>, key: Key)
    requires TickVia(dir, s, s1, s', today, made)
    ensures var s2 := SlaPass(dir, s1, today, s1.tasks.Keys);
      && (key in s1.ledger - s.ledger <==> Recorded(s, s', key) && key.OverdueCheckIn?)
      && (key in s2.ledger - s1.ledger <==> Recorded(s, s', key) && (key.ApprovalNudge? || key.ApprovalEscalation?))
      && (key in s'.ledger - s2.ledger <==> Recorded(s, s', key) && key.TaskEscalation?)
  {
    hide Notices, CheckInTask, SlaTask, EscalatedTask, NudgeDue, SlaLate, Overdue, NeedsCheckIn;
  }

  /** A check-in task is neither awaiting approval nor past due on the day it is created. */
  lemma NewTaskStays(dir: Directory, s: Db, s1: Db, s': Db, today: int, made: map<nat, Key>, id: nat)
    requires TickVia(dir, s, s1, s', today, made) && id in made
    ensures id in s'.tasks && id !in s.tasks && s'.tasks[id] == CheckInTask(dir, s.opps, made[id], today)
    ensures ChecksIn(dir, s, s', today, id) && s'.tasks[id].source == Some(made[id])
    ensures made[id].OverdueCheckIn? && Recorded(s, s', made[id])
  {
    hide CheckInPass, SlaPass, EscalationPass, CheckInsDue;
    CheckInMakes(dir, s, s1, today, made);
    assert s1.tasks[id] == CheckInTask(dir, s.opps, made[id], today);
    LevelsAfter(dir, s1, today, id);
    PassKeys(dir, s, s1, s', today, made, made[id]);
    NotDue(dir, s, s1, today, made, id);
    CheckInKeys(s, today, made[id]);
  }

  lemma NotDue(dir: Directory, s: Db, s1: Db, today: int, made: map<nat, Key>, id: nat)
    requires CreatesTasks(dir, s, s1.tasks, today, made) && id in made
    ensures var s2 := SlaPass(dir, s1, today, s1.tasks.Keys);
      && ApprovalEscalation(id, today) !in s2.ledger - s1.ledger
      && TaskEscalation(id, today) !in EscalationPass(dir, s2, today, s2.tasks.Keys).ledger - s2.ledger
  {
    hide SlaDue, EscalationsDue, Notices, SlaTask, EscalatedTask;
    SlaIsDue(dir, s, s1, today, made, ApprovalEscalation(id, today));
    EscalationIsDue(dir, s, s1, today, made, TaskEscalation(id, today));
  }

  lemma OldTask(dir: Directory, s: Db, s1: Db, s': Db, today: int, made: map<nat, Key>, id: nat)
    requires TickVia(dir, s, s1, s', today, made) && id in s.tasks
    ensures id in s'.tasks
    ensures s'.tasks[id] == s.tasks[id].(level := s.tasks[id].level
      + (if Recorded(s, s', ApprovalEscalation(id, today)) then 1 else 0)
      + (if Recorded(s, s', TaskEscalation(id, today)) then 1 else 0))
  {
    hide CheckInPass, SlaPass, EscalationPass, CheckInsDue, CheckInTask;
    CheckInMakes(dir, s, s1, today, made);
    LevelsAfter(dir, s1, today, id);
    PassKeys(dir, s, s1, s', today, made, ApprovalEscalation(id, today));
    PassKeys(dir, s, s1, s', today, made, TaskEscalation(id, today));
  }

  lemma TaskKeys(dir: Directory, s: Db, s1: Db, s': Db, today: int, made: map<nat, Key>)
    requires TickVia(dir, s, s1, s', today, made)
    ensures s'.opps == s.opps && s'.tasks.Keys == s.tasks.Keys + made.Keys
    ensures forall k: Key :: k.OverdueCheckIn? && Recorded(s, s', k) ==> exists id :: id in made && made[id] == k
  {
    hide CheckInPass, CheckInTask, Notices, SlaDue, EscalationsDue, CheckInsDue;
    CheckInMakes(dir, s, s1, today, made);
    forall k: Key | k.OverdueCheckIn? && Recorded(s, s', k) ensures exists id :: id in made && made[id] == k {
      PassKeys(dir, s, s1, s', today, made, k);
    }
  }

  /**
   What a tick leaves of the tasks: each old task risen by one for each of its two escalations recorded now,
   and one new task for each check-in recorded now; opportunities stay as they were.
   */
  lemma TickTasks(dir: Directory, s: Db, s': Db, today: int)
    requires Tick(dir, s, s', today)
    ensures s'.opps == s.opps
    ensures forall id :: id in s.tasks ==>
      id in s'.tasks && s'.tasks[id] == s.tasks[id].(level := s.tasks[id].level
        + (if Recorded(s, s', ApprovalEscalation(id, today)) then 1 else 0)
        + (if Recorded(s, s', TaskEscalation(id, today)) then 1 else 0))
    ensures forall id :: id in s'.tasks && id !in s.tasks ==> ChecksIn(dir, s, s', today, id)
    ensures forall k: Key :: k.OverdueCheckIn? && Recorded(s, s', k) ==>
      exists id :: id in s'.tasks && id !in s.tasks && s'.tasks[id].source == Some(k)
    ensures forall a, b :: a in s'.tasks && b in s'.tasks && a !in s.tasks && b !in s.tasks ==>
      s'.tasks[a].source == s'.tasks[b].source ==> a == b
  {
    hide CheckInPass, SlaPass, EscalationPass, CheckInTask, ChecksIn, Recorded;
    var s1: Db, made: map<nat, Key> :| TickVia(dir, s, s1, s', today, made);
    TaskKeys(dir, s, s1, s', today, made);
    CheckInMakes(dir, s, s1, today, made);
    forall id | id in s.tasks
      ensures id in s'.tasks && s'.tasks[id] == s.tasks[id].(level := s.tasks[id].level
        + (if Recorded(s, s', ApprovalEscalation(id, today)) then 1 else 0)
        + (if Recorded(s, s', TaskEscalation(id, today)) then 1 else 0))
    {
      OldTask(dir, s, s1, s', today, made, id);
    }
    forall id | id in made
      ensures id in s'.tasks && id !in s.tasks && ChecksIn(dir, s, s', today, id) && s'.tasks[id].source == Some(made[id])
    {
      NewTaskStays(dir, s, s1, s', today, made, id);
    }
  }

  // ---- who is told --------------------------------------------------------------

  /** The person a trigger is for: the owner of a nudged task, the owner's head for an escalation, else the head of Sales. */
  ghost predicate IsFor(dir: Directory, s: Db, key: Key, user: nat) {
    match key
    case OverdueCheckIn(_, _) => dir.salesHead == Some(user)
    case ApprovalNudge(id, _) => id in s.tasks && s.tasks[id].owner == Some(user) && user in dir.users
    case ApprovalEscalation(id, _) => id in s.tasks && IsHeadOf(dir, s.tasks[id].owner, user)
    case TaskEscalation(id, _) => id in s.tasks && IsHeadOf(dir, s.tasks[id].owner, user)
    case _ => false
  }

  ghost predicate IsHeadOf(dir: Directory, owner: Option<nat>, user: nat) {
    dir.headOf(if IsUser(dir, owner) then owner else None) == Some(user)
  }

  lemma RecipientIsFor(dir: Directory, s: Db, tasks: map<nat, Task>, key: Key, user: nat)
    requires key.OverdueCheckIn? || ((key.ApprovalNudge? || key.ApprovalEscalation? || key.TaskEscalation?) && key.task in s.tasks)
    requires forall id :: id in s.tasks ==> id in tasks && tasks[id].owner == s.tasks[id].owner
    ensures Recipient(dir, tasks, key) == Some(user) <==> IsFor(dir, s, key, user)
  {
  }

  lemma NoticesExactly(dir: Directory, tasks: map<nat, Task>, fired: set<Key>, n: Notice)
    ensures Notices(dir, tasks, fired)[n] == if n.trigger in fired && Recipient(dir, tasks, n.trigger) == Some(n.user) then 1 else 0
  {
    hide Recipient;
    if n.trigger in fired && Recipient(dir, tasks, n.trigger) == Some(n.user) {
      assert n == Notice(Recipient(dir, tasks, n.trigger).value, n.trigger, n.channel);
      assert n in NoticeSet(dir, tasks, fired);
    }
  }

  lemma PassTells(dir: Directory, s: Db, s': Db, due: set<Key>, n: Notice)
    requires s'.ledger == s.ledger + (due - s.ledger) && s'.outbox == s.outbox + Notices(dir, s.tasks, due - s.ledger)
    ensures s'.outbox[n] == s.outbox[n]
      + if n.trigger in s'.ledger - s.ledger && Recipient(dir, s.tasks, n.trigger) == Some(n.user) then 1 else 0
  {
    hide Notices, Recipient;
    NoticesExactly(dir, s.tasks, due - s.ledger, n);
  }

  lemma PassesTell(dir: Directory, s: Db, s1: Db, s': Db, today: int, made: map<nat, Key>, n: Notice)
    requires TickVia(dir, s, s1, s', today, made)
    ensures var s2 := SlaPass(dir, s1, today, s1.tasks.Keys);
            s'.outbox[n] == s.outbox[n]
              + (if n.trigger in s1.ledger - s.ledger && Recipient(dir, s.tasks, n.trigger) == Some(n.user) then 1 else 0)
              + (if n.trigger in s2.ledger - s1.ledger && Recipient(dir, s1.tasks, n.trigger) == Some(n.user) then 1 else 0)
              + (if n.trigger in s'.ledger - s2.ledger && Recipient(dir, s2.tasks, n.trigger) == Some(n.user) then 1 else 0)
  {
    hide CheckInTask, CheckInsDue, SlaDue, EscalationsDue, Notices, Recipient, SlaTask, EscalatedTask;
    var s2 := SlaPass(dir, s1, today, s1.tasks.Keys);
    PassTells(dir, s, s1, CheckInsDue(s, today, s.opps.Keys), n);
    PassTells(dir, s1, s2, SlaDue(s1, today, s1.tasks.Keys), n);
    PassTells(dir, s2, s', EscalationsDue(s2, today, s2.tasks.Keys), n);
  }

  lemma OwnersStay(dir: Directory, s: Db, s1: Db, s': Db, today: int, made: map<nat, Key>)
    requires TickVia(dir, s, s1, s', today, made)
    ensures forall id :: id in s.tasks ==>
      var s2 := SlaPass(dir, s1, today, s1.tasks.Keys);
      id in s1.tasks && s1.tasks[id].owner == s.tasks[id].owner && id in s2.tasks && s2.tasks[id].owner == s.tasks[id].owner
  {
    hide CheckInPass, SlaDue, Notices, SlaLate, CheckInsDue, CheckInTask;
    CheckInMakes(dir, s, s1, today, made);
  }

  /** A recorded trigger of a task names a task that was there before the tick. */
  lemma RecordedNames(dir: Directory, s: Db, s': Db, today: int, key: Key)
    requires Tick(dir, s, s', today) && Recorded(s, s', key)
    ensures key.OverdueCheckIn? || ((key.ApprovalNudge? || key.ApprovalEscalation? || key.TaskEscalation?) && key.task in s.tasks)
  {
    hide Tick;
    TickRecordsExactly(dir, s, s', today, key);
  }

  /**
   The outbox after a tick: for each trigger recorded now, one row for every channel, addressed to the person
   it is for, and no other row.
   */
  lemma TickTells(dir: Directory, s: Db, s': Db, today: int, n: Notice)
    requires Tick(dir, s, s', today)
    ensures s'.outbox[n] == s.outbox[n] + if Recorded(s, s', n.trigger) && IsFor(dir, s, n.trigger, n.user) then 1 else 0
  {
    hide CheckInPass, SlaPass, EscalationPass, CheckInsDue, Recipient, IsFor, Recorded;
    var s1: Db, made: map<nat, Key> :| TickVia(dir, s, s1, s', today, made);
    var s2, key := SlaPass(dir, s1, today, s1.tasks.Keys), n.trigger;
    PassesTell(dir, s, s1, s', today, made, n);
    PassKeys(dir, s, s1, s', today, made, key);
    if Recorded(s, s', key) {
      RecordedNames(dir, s, s', today, key);
      OwnersStay(dir, s, s1, s', today, made);
      RecipientIsFor(dir, s, s.tasks, key, n.user);
      RecipientIsFor(dir, s, s1.tasks, key, n.user);
      RecipientIsFor(dir, s, s2.tasks, key, n.user);
    }
  }
}
