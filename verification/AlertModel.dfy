/**
 What one tick of the alert scheduler does to the store, stated without loops: which triggers are due,
 which of them the ledger lets through, and the effect of each.
 */
module AlertModel {
  import opened Text
  import opened Calendar
  import opened BusinessDays
  import opened Ledger

  datatype Status = Assigned | InProgress | LegacyOpen | Snoozed | Done | Cancelled | Reassigned

  datatype Category = ApprovalAwaiting | CheckIn | OtherCategory

  /** `source` is the trigger that created the task, as its `task.created` audit row records it. */
  datatype Task = Task(
    due: Option<int>, category: Category, status: Status, level: nat, owner: Option<nat>, source: Option<Key>)

  /** `lastUpdate` is the instant of the latest next-action update in the audit table. */
  datatype Opp = Opp(nextDate: Option<int>, owner: Option<nat>, lastUpdate: Option<int>)

  datatype Channel = Email | Teams | Slack | InApp

  /** One row of the notification outbox; a notification is one row per channel. */
  datatype Notice = Notice(user: nat, trigger: Key, channel: Channel)

  /** Who exists, who heads the function of a task's owner, and who heads Sales. */
  datatype Directory = Directory(users: set<nat>, headOf: Option<nat> -> Option<nat>, salesHead: Option<nat>)

  datatype Db = Db(tasks: map<nat, Task>, opps: map<nat, Opp>, ledger: set<Key>, outbox: multiset<Notice>)

  const OVERDUE_BUSINESS_DAYS := 3
  const MAX_LEVEL := 3

  predicate IsOpen(t: Task) { t.status == Assigned || t.status == InProgress || t.status == LegacyOpen }

  // ---- notifications ------------------------------------------------------------

  function Known(dir: Directory, owner: Option<nat>): Option<nat> {
    if owner.Some? && owner.value in dir.users then owner else None
  }

  function Recipient(dir: Directory, tasks: map<nat, Task>, key: Key): Option<nat> {
    match key
    case OverdueCheckIn(_, _) => dir.salesHead
    case ApprovalNudge(id, _) => if id in tasks then Known(dir, tasks[id].owner) else None
    case ApprovalEscalation(id, _) => if id in tasks then dir.headOf(Known(dir, tasks[id].owner)) else None
    case TaskEscalation(id, _) => if id in tasks then dir.headOf(Known(dir, tasks[id].owner)) else None
    case _ => None
  }

  /** The four outbox rows of one notification. */
  function FanOut(user: Option<nat>, key: Key): multiset<Notice> {
    if user.None? then multiset{}
    else multiset{Notice(user.value, key, Email), Notice(user.value, key, Teams),
                  Notice(user.value, key, Slack), Notice(user.value, key, InApp)}
  }

  /** One row per channel for every fired trigger that has a recipient. */
  ghost function NoticeSet(dir: Directory, tasks: map<nat, Task>, fired: set<Key>): set<Notice> {
    set k, c: Channel | k in fired && Recipient(dir, tasks, k).Some? :: Notice(Recipient(dir, tasks, k).value, k, c)
  }

  ghost function Notices(dir: Directory, tasks: map<nat, Task>, fired: set<Key>): multiset<Notice> {
    multiset(NoticeSet(dir, tasks, fired))
  }

  ghost function FourRows(user: Option<nat>, key: Key): set<Notice> { set c: Channel | user.Some? :: Notice(user.value, key, c) }

  lemma FanOutIsFourRows(user: Option<nat>, key: Key)
    ensures FanOut(user, key) == multiset(FourRows(user, key))
  {
    if user.Some? {
      var u := user.value;
      var four := {Notice(u, key, Email), Notice(u, key, Teams), Notice(u, key, Slack), Notice(u, key, InApp)};
      forall n | n in FourRows(user, key) ensures n in four {
        assert n.channel == Email || n.channel == Teams || n.channel == Slack || n.channel == InApp;
      }
      assert FourRows(user, key) == four;
    } else {
      assert FourRows(user, key) == {};
    }
  }

  lemma NoticeSetGrows(dir: Directory, tasks: map<nat, Task>, fired: set<Key>, key: Key)
    requires key !in fired
    ensures NoticeSet(dir, tasks, fired + {key}) == NoticeSet(dir, tasks, fired) + FourRows(Recipient(dir, tasks, key), key)
    ensures NoticeSet(dir, tasks, fired) !! FourRows(Recipient(dir, tasks, key), key)
  {
    hide Recipient;
  }

  lemma DisjointSum<T>(a: set<T>, b: set<T>)
    requires a !! b
    ensures multiset(a + b) == multiset(a) + multiset(b)
  {
  }

  lemma NoticesGrow(dir: Directory, tasks: map<nat, Task>, fired: set<Key>, key: Key)
    requires key !in fired
    ensures Notices(dir, tasks, fired + {key}) == Notices(dir, tasks, fired) + FanOut(Recipient(dir, tasks, key), key)
  {
    hide Recipient, NoticeSet, FanOut, FourRows;
    NoticeSetGrows(dir, tasks, fired, key);
    FanOutIsFourRows(Recipient(dir, tasks, key), key);
    DisjointSum(NoticeSet(dir, tasks, fired), FourRows(Recipient(dir, tasks, key), key));
  }

  lemma NoticesOfNothing(dir: Directory, tasks: map<nat, Task>)
    ensures Notices(dir, tasks, {}) == multiset{}
  {
  }

  // ---- trigger: an opportunity without a client check-in ------------------------

  /** Three business days past the client date with no next-action update since midnight of that date. */
  predicate NeedsCheckIn(opp: Opp, today: int) {
    && opp.nextDate.Some?
    && CountBetween(opp.nextDate.value, today) >= OVERDUE_BUSINESS_DAYS
    && !(opp.lastUpdate.Some? && opp.lastUpdate.value >= opp.nextDate.value * DAY_MICROS)
  }

  ghost function CheckInsDue(s: Db, today: int, ids: set<nat>): set<Key> {
    set id | id in ids && id in s.opps && NeedsCheckIn(s.opps[id], today) ::
      OverdueCheckIn(id, s.opps[id].nextDate.value)
  }

  function CheckInTask(dir: Directory, opps: map<nat, Opp>, key: Key, today: int): Task {
    Task(Some(today), CheckIn, Assigned, 0,
         if key.OverdueCheckIn? && key.opp in opps then Known(dir, opps[key.opp].owner) else None, Some(key))
  }

  /**
   The check-in pass: each due trigger the ledger does not hold makes one task due today, `made` saying
   which new task comes from which trigger.
   */
  ghost predicate CheckInPass(dir: Directory, s: Db, s': Db, today: int, ids: set<nat>, made: map<nat, Key>) {
    var fired := CheckInsDue(s, today, ids) - s.ledger;
    && made.Keys !! s.tasks.Keys
    && made.Values == fired
    && (forall a, b :: a in made && b in made && made[a] == made[b] ==> a == b)
    && s'.tasks == s.tasks + (map id | id in made :: CheckInTask(dir, s.opps, made[id], today))
    && s'.opps == s.opps
    && s'.ledger == s.ledger + fired
    && s'.outbox == s.outbox + Notices(dir, s.tasks, fired)
  }

  // ---- trigger: the approval SLA ------------------------------------------------

  predicate AwaitsApproval(t: Task) { t.category == ApprovalAwaiting && t.due.Some? && IsOpen(t) }

  predicate NudgeDue(t: Task, today: int) {
    AwaitsApproval(t) && PrevBusinessDay(t.due.value) <= today < t.due.value
  }

  predicate SlaLate(t: Task, today: int) {
    AwaitsApproval(t) && today >= t.due.value && t.level == 0
  }

  ghost function SlaDue(s: Db, today: int, ids: set<nat>): set<Key> {
    (set id | id in ids && id in s.tasks && NudgeDue(s.tasks[id], today) :: ApprovalNudge(id, today))
    + (set id | id in ids && id in s.tasks && SlaLate(s.tasks[id], today) :: ApprovalEscalation(id, today))
  }

  function SlaTask(s: Db, id: nat, today: int): Task
    requires id in s.tasks
  {
    if SlaLate(s.tasks[id], today) && ApprovalEscalation(id, today) !in s.ledger
    then s.tasks[id].(level := 1)
    else s.tasks[id]
  }

  /** The SLA pass over the tasks `ids`. */
  ghost function SlaPass(dir: Directory, s: Db, today: int, ids: set<nat>): Db {
    var fired := SlaDue(s, today, ids) - s.ledger;
    Db(map id | id in s.tasks :: if id in ids then SlaTask(s, id, today) else s.tasks[id],
       s.opps, s.ledger + fired, s.outbox + Notices(dir, s.tasks, fired))
  }

  // ---- trigger: overdue tasks ---------------------------------------------------

  predicate Overdue(t: Task, today: int) {
    t.due.Some? && t.due.value < today && IsOpen(t) && t.level < MAX_LEVEL
  }

  ghost function EscalationsDue(s: Db, today: int, ids: set<nat>): set<Key> {
    set id | id in ids && id in s.tasks && Overdue(s.tasks[id], today) :: TaskEscalation(id, today)
  }

  function EscalatedTask(s: Db, id: nat, today: int): Task
    requires id in s.tasks
  {
    if Overdue(s.tasks[id], today) && TaskEscalation(id, today) !in s.ledger
    then s.tasks[id].(level := s.tasks[id].level + 1)
    else s.tasks[id]
  }

  /** The escalation pass over the tasks `ids`. */
  ghost function EscalationPass(dir: Directory, s: Db, today: int, ids: set<nat>): Db {
    var fired := EscalationsDue(s, today, ids) - s.ledger;
    Db(map id | id in s.tasks :: if id in ids then EscalatedTask(s, id, today) else s.tasks[id],
       s.opps, s.ledger + fired, s.outbox + Notices(dir, s.tasks, fired))
  }

  // ---- the tick -----------------------------------------------------------------

  /** Check-ins, then the approval SLA, then escalations, each reading what the one before left. */
  ghost predicate TickVia(dir: Directory, s: Db, s1: Db, s': Db, today: int, made: map<nat, Key>) {
    && CheckInPass(dir, s, s1, today, s.opps.Keys, made)
    && var s2 := SlaPass(dir, s1, today, s1.tasks.Keys);
       s' == EscalationPass(dir, s2, today, s2.tasks.Keys)
  }

  ghost predicate Tick(dir: Directory, s: Db, s': Db, today: int) {
    exists s1: Db, made: map<nat, Key> :: TickVia(dir, s, s1, s', today, made)
  }

  // ---- one row at a time --------------------------------------------------------

  /** What the loop body of the SLA pass does for one task. */
  function SlaRow(dir: Directory, cur: Db, id: nat, today: int): Db
    requires id in cur.tasks
  {
    var t := cur.tasks[id];
    var nudge, late := ApprovalNudge(id, today), ApprovalEscalation(id, today);
    if NudgeDue(t, today) then
      if nudge in cur.ledger then cur
      else cur.(ledger := cur.ledger + {nudge}, outbox := cur.outbox + FanOut(Recipient(dir, cur.tasks, nudge), nudge))
    else if SlaLate(t, today) then
      if late in cur.ledger then cur
      else Db(cur.tasks[id := t.(level := 1)], cur.opps, cur.ledger + {late},
              cur.outbox + FanOut(Recipient(dir, cur.tasks, late), late))
    else cur
  }

  ghost predicate SameOwners(a: map<nat, Task>, b: map<nat, Task>) {
    a.Keys == b.Keys && forall id :: id in a ==> a[id].owner == b[id].owner
  }

  lemma RecipientByOwner(dir: Directory, a: map<nat, Task>, b: map<nat, Task>, key: Key)
    requires SameOwners(a, b)
    ensures Recipient(dir, a, key) == Recipient(dir, b, key)
  {
  }

  lemma SlaDueStep(s: Db, today: int, done: set<nat>, id: nat)
    requires id in s.tasks && id !in done
    ensures SlaDue(s, today, done + {id}) == SlaDue(s, today, done)
      + (if NudgeDue(s.tasks[id], today) then {ApprovalNudge(id, today)} else {})
      + (if SlaLate(s.tasks[id], today) then {ApprovalEscalation(id, today)} else {})
    ensures ApprovalNudge(id, today) !in SlaDue(s, today, done) && ApprovalEscalation(id, today) !in SlaDue(s, today, done)
  {
  }

  lemma NudgeOrLate(t: Task, today: int)
    ensures !(NudgeDue(t, today) && SlaLate(t, today))
  {
  }

  lemma SlaTasksStep(dir: Directory, s: Db, today: int, done: set<nat>, id: nat)
    requires id in s.tasks && id !in done
    ensures var late := SlaLate(s.tasks[id], today) && ApprovalEscalation(id, today) !in s.ledger;
            SlaPass(dir, s, today, done + {id}).tasks
            == if late then SlaPass(dir, s, today, done).tasks[id := s.tasks[id].(level := 1)]
               else SlaPass(dir, s, today, done).tasks
  {
    hide SlaDue, Notices, SlaLate;
  }

  lemma SlaLedgerStep(dir: Directory, s: Db, today: int, done: set<nat>, id: nat, key: Key)
    requires id in s.tasks && id !in done
    requires (NudgeDue(s.tasks[id], today) && key == ApprovalNudge(id, today))
          || (SlaLate(s.tasks[id], today) && key == ApprovalEscalation(id, today))
    ensures key in SlaPass(dir, s, today, done).ledger <==> key in s.ledger
    ensures var cur, next := SlaPass(dir, s, today, done), SlaPass(dir, s, today, done + {id});
            if key in s.ledger then next.ledger == cur.ledger && next.outbox == cur.outbox
            else && next.ledger == cur.ledger + {key}
                 && next.outbox == cur.outbox + FanOut(Recipient(dir, s.tasks, key), key)
  {
    hide SlaDue, Notices, Recipient, NudgeDue, SlaLate;
    SlaDueStep(s, today, done, id);
    NudgeOrLate(s.tasks[id], today);
    var fired := SlaDue(s, today, done) - s.ledger;
    if key in s.ledger {
      assert SlaDue(s, today, done + {id}) - s.ledger == fired;
    } else {
      assert SlaDue(s, today, done + {id}) - s.ledger == fired + {key};
      NoticesGrow(dir, s.tasks, fired, key);
    }
  }

  /** Handling rows one by one, in any order, adds up to the pass. */
  lemma SlaRowStep(dir: Directory, s: Db, today: int, done: set<nat>, id: nat)
    requires id in s.tasks && id !in done
    ensures SlaRow(dir, SlaPass(dir, s, today, done), id, today) == SlaPass(dir, s, today, done + {id})
  {
    hide SlaDue, Notices, Recipient, NudgeDue, SlaLate, FanOut;
    var cur := SlaPass(dir, s, today, done);
    NudgeOrLate(s.tasks[id], today);
    SlaTasksStep(dir, s, today, done, id);
    assert cur.tasks[id] == s.tasks[id];
    if NudgeDue(s.tasks[id], today) {
      SlaLedgerStep(dir, s, today, done, id, ApprovalNudge(id, today));
      RecipientByOwner(dir, s.tasks, cur.tasks, ApprovalNudge(id, today));
    } else if SlaLate(s.tasks[id], today) {
      SlaLedgerStep(dir, s, today, done, id, ApprovalEscalation(id, today));
      RecipientByOwner(dir, s.tasks, cur.tasks, ApprovalEscalation(id, today));
    } else {
      SlaDueStep(s, today, done, id);
      assert SlaDue(s, today, done + {id}) - s.ledger == SlaDue(s, today, done) - s.ledger;
    }
  }

  function EscalationRow(dir: Directory, cur: Db, id: nat, today: int): Db
    requires id in cur.tasks
  {
    var t, key := cur.tasks[id], TaskEscalation(id, today);
    if !Overdue(t, today) || key in cur.ledger then cur
    else Db(cur.tasks[id := t.(level := t.level + 1)], cur.opps, cur.ledger + {key},
            cur.outbox + FanOut(Recipient(dir, cur.tasks, key), key))
  }

  lemma EscalationsDueStep(s: Db, today: int, done: set<nat>, id: nat)
    requires id in s.tasks && id !in done
    ensures EscalationsDue(s, today, done + {id}) == EscalationsDue(s, today, done)
      + (if Overdue(s.tasks[id], today) then {TaskEscalation(id, today)} else {})
    ensures TaskEscalation(id, today) !in EscalationsDue(s, today, done)
  {
  }

  lemma EscalationRowStep(dir: Directory, s: Db, today: int, done: set<nat>, id: nat)
    requires id in s.tasks && id !in done
    ensures EscalationRow(dir, EscalationPass(dir, s, today, done), id, today) == EscalationPass(dir, s, today, done + {id})
  {
    hide EscalationsDue, Notices, Recipient;
    var cur, next := EscalationPass(dir, s, today, done), EscalationPass(dir, s, today, done + {id});
    var key := TaskEscalation(id, today);
    EscalationsDueStep(s, today, done, id);
    RecipientByOwner(dir, s.tasks, cur.tasks, key);
    var fired := EscalationsDue(s, today, done) - s.ledger;
    assert next.tasks == (EscalationRow(dir, cur, id, today)).tasks by { hide Overdue, FanOut; }
    if Overdue(s.tasks[id], today) && key !in s.ledger {
      NoticesGrow(dir, s.tasks, fired, key);
      assert EscalationsDue(s, today, done + {id}) - s.ledger == fired + {key};
    } else {
      assert EscalationsDue(s, today, done + {id}) - s.ledger == fired;
    }
  }

  lemma CheckInsDueStep(s: Db, today: int, done: set<nat>, id: nat)
    requires id in s.opps && id !in done
    ensures CheckInsDue(s, today, done + {id}) == CheckInsDue(s, today, done)
      + (if NeedsCheckIn(s.opps[id], today) then {OverdueCheckIn(id, s.opps[id].nextDate.value)} else {})
    ensures NeedsCheckIn(s.opps[id], today) ==>
      OverdueCheckIn(id, s.opps[id].nextDate.value) !in CheckInsDue(s, today, done)
  {
  }

  /** One more opportunity whose trigger is not due, or is already in the ledger. */
  lemma CheckInSkip(dir: Directory, s: Db, cur: Db, today: int, done: set<nat>, made: map<nat, Key>, id: nat)
    requires id in s.opps && id !in done && CheckInPass(dir, s, cur, today, done, made)
    requires NeedsCheckIn(s.opps[id], today) ==> OverdueCheckIn(id, s.opps[id].nextDate.value) in s.ledger
    ensures CheckInPass(dir, s, cur, today, done + {id}, made)
  {
    hide Notices, NeedsCheckIn;
    CheckInsDueStep(s, today, done, id);
    assert CheckInsDue(s, today, done + {id}) - s.ledger == CheckInsDue(s, today, done) - s.ledger;
  }

  lemma DueHasDate(opp: Opp, today: int)
    requires NeedsCheckIn(opp, today)
    ensures opp.nextDate.Some?
  {
  }

  /** One more opportunity whose trigger fires and creates task `task`. */
  lemma CheckInFire(
      dir: Directory, s: Db, cur: Db, cur': Db, today: int, done: set<nat>, made: map<nat, Key>, id: nat, task: nat)
    requires id in s.opps && id !in done && CheckInPass(dir, s, cur, today, done, made)
    requires NeedsCheckIn(s.opps[id], today) && task !in cur.tasks
    requires var key := OverdueCheckIn(id, s.opps[id].nextDate.value);
             && key !in s.ledger
             && cur' == Db(cur.tasks[task := CheckInTask(dir, s.opps, key, today)], cur.opps, cur.ledger + {key},
                           cur.outbox + FanOut(dir.salesHead, key))
    ensures CheckInPass(dir, s, cur', today, done + {id}, made[task := OverdueCheckIn(id, s.opps[id].nextDate.value)])
  {
    hide Notices, NeedsCheckIn, CheckInsDue, CheckInTask, FanOut;
    DueHasDate(s.opps[id], today);
    var key := OverdueCheckIn(id, s.opps[id].nextDate.value);
    var made' := made[task := key];
    CheckInsDueStep(s, today, done, id);
    var fired := CheckInsDue(s, today, done) - s.ledger;
    assert CheckInsDue(s, today, done + {id}) - s.ledger == fired + {key};
    NoticesGrow(dir, s.tasks, fired, key);
    assert task !in made;
    ValuesGrow(made, task, key);
    assert s.tasks + (map i | i in made' :: CheckInTask(dir, s.opps, made'[i], today)) == cur'.tasks;
  }

  lemma ValuesGrow(made: map<nat, Key>, task: nat, key: Key)
    requires task !in made
    ensures made[task := key].Values == made.Values + {key}
  {
    var made' := made[task := key];
    assert made'[task] == key;
    forall v | v in made.Values ensures v in made'.Values {
      var a :| a in made && made[a] == v;
      assert made'[a] == v;
    }
  }
}
