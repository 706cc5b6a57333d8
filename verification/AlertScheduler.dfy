/** The alert scheduler as it runs: passes that loop over query results and update the store in place. */
module AlertScheduler {
  import opened Text
  import opened Calendar
  import opened BusinessDays
  import opened Ledger
  import opened AlertModel

  datatype Tally = Tally(tasksCreated: nat, notificationsQueued: nat, fired: seq<Key>, skipped: nat)

  /** What a tick reports about itself. */
  class TickResult {
    var tasksCreated: nat
    var notificationsQueued: nat
    var fired: seq<Key>
    var skipped: nat

    constructor ()
      ensures Counts() == Tally(0, 0, [], 0)
    {
      tasksCreated, notificationsQueued, fired, skipped := 0, 0, [], 0;
    }

    function Counts(): Tally
      reads this
    {
      Tally(tasksCreated, notificationsQueued, fired, skipped)
    }

    /** The triggers found due so far, whether they fired or were skipped. */
    function Seen(): nat
      reads this
    {
      |fired| + skipped
    }
  }

  /** The report accounts for the growth of the ledger, the task table and the outbox since `base`. */
  ghost predicate Balanced(base: Db, s: Db, t: Tally) {
    && base.ledger <= s.ledger
    && (forall k :: k in t.fired <==> k in s.ledger && k !in base.ledger)
    && |t.fired| == |s.ledger| - |base.ledger|
    && t.tasksCreated == |s.tasks| - |base.tasks|
    && t.notificationsQueued == |s.outbox| - |base.outbox|
  }

  lemma BalancedStart(s: Db)
    ensures Balanced(s, s, Tally(0, 0, [], 0))
  {
  }

  /** A trigger that fires, with the tasks and outbox rows it leaves. */
  lemma BalancedFire(base: Db, s: Db, t: Tally, s': Db, key: Key, created: nat, queued: nat)
    requires Balanced(base, s, t) && key !in s.ledger
    requires s'.ledger == s.ledger + {key} && |s'.tasks| == |s.tasks| + created && |s'.outbox| == |s.outbox| + queued
    ensures Balanced(base, s', Tally(t.tasksCreated + created, t.notificationsQueued + queued, t.fired + [key], t.skipped))
  {
  }

  lemma BalancedSkip(base: Db, s: Db, t: Tally)
    requires Balanced(base, s, t)
    ensures Balanced(base, s, t.(skipped := t.skipped + 1))
  {
  }

  function Rows(a: seq<nat>): (s: set<nat>) { set x | x in a }

  lemma OneMoreRow(rows: seq<nat>, i: nat)
    requires i < |rows|
    ensures Rows(rows[..i + 1]) == Rows(rows[..i]) + {rows[i]}
    ensures (forall a, b :: 0 <= a < b < |rows| ==> rows[a] != rows[b]) ==> rows[i] !in Rows(rows[..i])
  {
    assert rows[..i + 1] == rows[..i] + [rows[i]];
  }

  /** The rows of a query, in whatever order the database returns them. */
  method Fetch(ids: set<nat>) returns (rows: seq<nat>)
    ensures Rows(rows) == ids
    ensures forall a, b :: 0 <= a < b < |rows| ==> rows[a] != rows[b]
  {
    rows := [];
    var left := ids;
    while left != {}
      invariant Rows(rows) + left == ids && Rows(rows) !! left
      invariant forall a, b :: 0 <= a < b < |rows| ==> rows[a] != rows[b]
      decreases left
    {
      var id :| id in left;
      assert forall a :: 0 <= a < |rows| ==> rows[a] in Rows(rows);
      rows, left := rows + [id], left - {id};
    }
  }

  lemma FanOutSize(user: Option<nat>, key: Key)
    ensures |FanOut(user, key)| == if user.Some? then 4 else 0
  {
  }

  // ---- a filtered query misses nothing ------------------------------------------

  lemma EmptyPasses(dir: Directory, s: Db, today: int)
    ensures SlaPass(dir, s, today, {}) == s && EscalationPass(dir, s, today, {}) == s
    ensures CheckInPass(dir, s, s, today, {}, map[])
  {
    hide SlaPass, EscalationPass;
    EmptySlaPass(dir, s, today);
    EmptyEscalationPass(dir, s, today);
    NobodyDue(s, today);
    NoticesOfNothing(dir, s.tasks);
  }

  lemma EmptySlaPass(dir: Directory, s: Db, today: int)
    ensures SlaPass(dir, s, today, {}) == s
  {
    NobodyDue(s, today);
    NoticesOfNothing(dir, s.tasks);
  }

  lemma EmptyEscalationPass(dir: Directory, s: Db, today: int)
    ensures EscalationPass(dir, s, today, {}) == s
  {
    NobodyDue(s, today);
    NoticesOfNothing(dir, s.tasks);
  }

  lemma NobodyDue(s: Db, today: int)
    ensures SlaDue(s, today, {}) == {} && EscalationsDue(s, today, {}) == {} && CheckInsDue(s, today, {}) == {}
  {
  }

  lemma SlaFilter(dir: Directory, s: Db, today: int, ids: set<nat>)
    requires ids == set id | id in s.tasks && AwaitsApproval(s.tasks[id])
    ensures SlaPass(dir, s, today, ids) == SlaPass(dir, s, today, s.tasks.Keys)
    ensures SlaDue(s, today, ids) == SlaDue(s, today, s.tasks.Keys)
  {
    hide Notices, NudgeDue, SlaLate;
    assert SlaDue(s, today, ids) == SlaDue(s, today, s.tasks.Keys) by { SlaDueFilter(s, today, ids); }
  }

  lemma SlaDueFilter(s: Db, today: int, ids: set<nat>)
    requires ids == set id | id in s.tasks && AwaitsApproval(s.tasks[id])
    ensures SlaDue(s, today, ids) == SlaDue(s, today, s.tasks.Keys)
  {
  }

  lemma EscalationFilter(dir: Directory, s: Db, today: int, ids: set<nat>)
    requires ids == set id | id in s.tasks && Overdue(s.tasks[id], today)
    ensures EscalationPass(dir, s, today, ids) == EscalationPass(dir, s, today, s.tasks.Keys)
    ensures EscalationsDue(s, today, ids) == EscalationsDue(s, today, s.tasks.Keys)
  {
    assert EscalationsDue(s, today, ids) == EscalationsDue(s, today, s.tasks.Keys);
  }

  lemma CheckInFilter(dir: Directory, s: Db, s': Db, today: int, ids: set<nat>, made: map<nat, Key>)
    requires ids == set id | id in s.opps && s.opps[id].nextDate.Some?
    requires CheckInPass(dir, s, s', today, ids, made)
    ensures CheckInPass(dir, s, s', today, s.opps.Keys, made)
    ensures CheckInsDue(s, today, ids) == CheckInsDue(s, today, s.opps.Keys)
  {
    assert CheckInsDue(s, today, ids) == CheckInsDue(s, today, s.opps.Keys);
  }

  // ---- how many triggers are due ------------------------------------------------

  lemma CheckInsDueCount(s: Db, today: int, done: set<nat>, id: nat)
    requires id in s.opps && id !in done
    ensures |CheckInsDue(s, today, done + {id})| == |CheckInsDue(s, today, done)| + if NeedsCheckIn(s.opps[id], today) then 1 else 0
  {
    hide CheckInsDue, NeedsCheckIn;
    CheckInsDueStep(s, today, done, id);
    if NeedsCheckIn(s.opps[id], today) { DueHasDate(s.opps[id], today); }
  }

  lemma SlaDueCount(s: Db, today: int, done: set<nat>, id: nat)
    requires id in s.tasks && id !in done
    ensures |SlaDue(s, today, done + {id})| == |SlaDue(s, today, done)| + SlaTriggers(s.tasks[id], today)
  {
    hide SlaDue, NudgeDue, SlaLate;
    SlaDueStep(s, today, done, id);
    NudgeOrLate(s.tasks[id], today);
  }

  lemma EscalationsDueCount(s: Db, today: int, done: set<nat>, id: nat)
    requires id in s.tasks && id !in done
    ensures |EscalationsDue(s, today, done + {id})| == |EscalationsDue(s, today, done)| + if Overdue(s.tasks[id], today) then 1 else 0
  {
    hide EscalationsDue, Overdue;
    EscalationsDueStep(s, today, done, id);
  }

  /** A task's approval triggers of the day: the nudge or the escalation, never both. */
  function SlaTriggers(t: Task, today: int): nat {
    if NudgeDue(t, today) || SlaLate(t, today) then 1 else 0
  }

  /** The triggers a tick finds due, pass by pass. */
  ghost function DueInTick(dir: Directory, s: Db, s1: Db, today: int): nat {
    var s2 := SlaPass(dir, s1, today, s1.tasks.Keys);
    |CheckInsDue(s, today, s.opps.Keys)| + |SlaDue(s1, today, s1.tasks.Keys)| + |EscalationsDue(s2, today, s2.tasks.Keys)|
  }

  // ---- the store ----------------------------------------------------------------

  class AlertStore {
    var tasks: map<nat, Task>
    var opps: map<nat, Opp>
    var ledger: set<Key>
    var outbox: multiset<Notice>

    constructor (s: Db)
      ensures State() == s
    {
      tasks, opps, ledger, outbox := s.tasks, s.opps, s.ledger, s.outbox;
    }

    ghost function State(): Db
      reads this
    {
      Db(tasks, opps, ledger, outbox)
    }

    /** Inserts the key, or finds that it is there already. */
    method RecordTrigger(key: Key) returns (fired: bool)
      modifies this`ledger
      ensures fired == (key !in old(ledger)) && ledger == old(ledger) + {key}
    {
      fired := key !in ledger;
      ledger := ledger + {key};
    }

    /** One outbox row per channel. */
    method QueueNotification(user: nat, key: Key) returns (queued: nat)
      modifies this`outbox
      ensures outbox == old(outbox) + FanOut(Some(user), key) && queued == 4
    {
      outbox := outbox + FanOut(Some(user), key);
      queued := 4;
    }

    /** A task with an identifier no other task has. */
    method CreateTask(t: Task) returns (id: nat)
      modifies this`tasks
      ensures id !in old(tasks) && tasks == old(tasks)[id := t]
    {
      id := 0;
      var left := tasks.Keys;
      while id in tasks
        invariant forall k :: k in tasks && k >= id ==> k in left
        decreases left
      {
        left := left - {id};
        id := id + 1;
      }
      tasks := tasks[id := t];
    }

    /** Queues the notification of a fired trigger when it has a recipient, and counts its rows. */
    method Notify(to: Option<nat>, key: Key, result: TickResult)
      modifies this`outbox, result`notificationsQueued
      ensures outbox == old(outbox) + FanOut(to, key)
      ensures result.notificationsQueued == old(result.notificationsQueued) + |FanOut(to, key)|
    {
      FanOutSize(to, key);
      if to.Some? {
        var queued := QueueNotification(to.value, key);
        result.notificationsQueued := result.notificationsQueued + queued;
      }
    }

    // ---- check-ins ----

    method CheckIn(dir: Directory, id: nat, today: int, result: TickResult, ghost base: Db)
      returns (ghost made: Option<nat>)
      requires id in opps && opps[id].nextDate.Some? && Balanced(base, State(), result.Counts())
      modifies this, result
      ensures Balanced(base, State(), result.Counts())
      ensures var key := OverdueCheckIn(id, old(opps)[id].nextDate.value);
              if NeedsCheckIn(old(opps)[id], today) && key !in old(ledger) then
                && made.Some? && made.value !in old(tasks)
                && State() == Db(old(tasks)[made.value := CheckInTask(dir, old(opps), key, today)], old(opps),
                                 old(ledger) + {key}, old(outbox) + FanOut(dir.salesHead, key))
              else made.None? && State() == old(State())
      ensures result.Seen() == old(result.Seen()) + if NeedsCheckIn(old(opps)[id], today) then 1 else 0
    {
      hide NeedsCheckIn, CheckInTask, FanOut, Balanced;
      made := None;
      ghost var counts := result.Counts();
      var opp := opps[id];
      if !NeedsCheckIn(opp, today) { return; }
      var key := OverdueCheckIn(id, opp.nextDate.value);
      ghost var s := State();
      var fired := RecordTrigger(key);
      if !fired {
        result.skipped := result.skipped + 1;
        assert ledger == s.ledger;
        BalancedSkip(base, s, counts);
        return;
      }
      var task := CreateTask(CheckInTask(dir, opps, key, today));
      made := Some(task);
      result.tasksCreated := result.tasksCreated + 1;
      Notify(dir.salesHead, key, result);
      result.fired := result.fired + [key];
      BalancedFire(base, s, counts, State(), key, 1, |FanOut(dir.salesHead, key)|);
    }

    method ProcessOpportunityOverdue(dir: Directory, today: int, result: TickResult, ghost base: Db)
      returns (ghost made: map<nat, Key>)
      requires Balanced(base, State(), result.Counts())
      modifies this, result
      ensures CheckInPass(dir, old(State()), State(), today, old(opps).Keys, made)
      ensures Balanced(base, State(), result.Counts())
      ensures result.Seen() == old(result.Seen()) + |CheckInsDue(old(State()), today, old(opps).Keys)|
    {
      hide CheckInPass, NeedsCheckIn, CheckInTask, Balanced, CheckInsDue;
      ghost var s, seen := State(), result.Seen();
      NobodyDue(s, today);
      var rows := Fetch(set id | id in opps && opps[id].nextDate.Some?);
      made := map[];
      EmptyPasses(dir, s, today);
      assert Rows(rows[..0]) == {};
      for i := 0 to |rows|
        invariant CheckInPass(dir, s, State(), today, Rows(rows[..i]), made) && opps == s.opps
        invariant Balanced(base, State(), result.Counts())
        invariant result.Seen() == seen + |CheckInsDue(s, today, Rows(rows[..i]))|
      {
        assert rows[i] in Rows(rows);
        OneMoreRow(rows, i);
        CheckInsDueCount(s, today, Rows(rows[..i]), rows[i]);
        ghost var cur := State();
        ghost var task := CheckIn(dir, rows[i], today, result, base);
        ghost var key := OverdueCheckIn(rows[i], s.opps[rows[i]].nextDate.value);
        LedgerDuringCheckIns(dir, s, cur, today, Rows(rows[..i]), made, rows[i]);
        if task.Some? {
          CheckInFire(dir, s, cur, State(), today, Rows(rows[..i]), made, rows[i], task.value);
          made := made[task.value := key];
        } else {
          CheckInSkip(dir, s, cur, today, Rows(rows[..i]), made, rows[i]);
        }
      }
      assert rows[..|rows|] == rows;
      CheckInFilter(dir, s, State(), today, Rows(rows), made);
    }

    // ---- approval SLA ----

    method Nudge(dir: Directory, id: nat, today: int, result: TickResult, ghost base: Db)
      requires id in tasks && Balanced(base, State(), result.Counts())
      modifies this`ledger, this`outbox, result
      ensures var key := ApprovalNudge(id, today);
              State() == if key in old(ledger) then old(State())
                         else old(State()).(ledger := old(ledger) + {key},
                                            outbox := old(outbox) + FanOut(Recipient(dir, tasks, key), key))
      ensures Balanced(base, State(), result.Counts()) && result.Seen() == old(result.Seen()) + 1
    {
      hide Balanced, FanOut, Recipient;
      ghost var s, counts := State(), result.Counts();
      var key := ApprovalNudge(id, today);
      var fired := RecordTrigger(key);
      if !fired {
        result.skipped := result.skipped + 1;
        assert ledger == s.ledger;
        BalancedSkip(base, s, counts);
      } else {
        var to := Recipient(dir, tasks, key);
        Notify(to, key, result);
        result.fired := result.fired + [key];
        BalancedFire(base, s, counts, State(), key, 0, |FanOut(to, key)|);
      }
    }

    /** The escalation half of the SLA trigger and the whole of the overdue trigger: one level up, once per key. */
    method RaiseLevel(dir: Directory, id: nat, key: Key, level: nat, result: TickResult, ghost base: Db)
      requires id in tasks && Balanced(base, State(), result.Counts())
      modifies this`tasks, this`ledger, this`outbox, result
      ensures State() == if key in old(ledger) then old(State())
                         else Db(old(tasks)[id := old(tasks)[id].(level := level)], old(opps), old(ledger) + {key},
                                 old(outbox) + FanOut(Recipient(dir, old(tasks), key), key))
      ensures Balanced(base, State(), result.Counts()) && result.Seen() == old(result.Seen()) + 1
    {
      hide Balanced, FanOut, Recipient;
      ghost var s, counts := State(), result.Counts();
      var to := Recipient(dir, tasks, key);
      var fired := RecordTrigger(key);
      if !fired {
        result.skipped := result.skipped + 1;
        assert ledger == s.ledger;
        BalancedSkip(base, s, counts);
        return;
      }
      tasks := tasks[id := tasks[id].(level := level)];
      Notify(to, key, result);
      result.fired := result.fired + [key];
      BalancedFire(base, s, counts, State(), key, 0, |FanOut(to, key)|);
    }

    method NudgeOrEscalate(dir: Directory, id: nat, today: int, result: TickResult, ghost base: Db)
      requires id in tasks && AwaitsApproval(tasks[id]) && Balanced(base, State(), result.Counts())
      modifies this, result
      ensures State() == SlaRow(dir, old(State()), id, today)
      ensures Balanced(base, State(), result.Counts())
      ensures result.Seen() == old(result.Seen()) + SlaTriggers(old(tasks)[id], today)
    {
      hide Balanced, FanOut, Recipient;
      var task := tasks[id];
      var nudgeStart := WalkToPrevBusinessDay(task.due.value);
      if nudgeStart <= today < task.due.value {
        Nudge(dir, id, today, result, base);
      }
      if today >= task.due.value && task.level == 0 {
        RaiseLevel(dir, id, ApprovalEscalation(id, today), 1, result, base);
      }
    }

    method ProcessApprovalSla(dir: Directory, today: int, result: TickResult, ghost base: Db)
      requires Balanced(base, State(), result.Counts())
      modifies this, result
      ensures State() == SlaPass(dir, old(State()), today, old(tasks).Keys)
      ensures Balanced(base, State(), result.Counts())
      ensures result.Seen() == old(result.Seen()) + |SlaDue(old(State()), today, old(tasks).Keys)|
    {
      hide Balanced, SlaDue, Notices, NudgeDue, SlaLate, SlaRow, SlaTriggers;
      ghost var s, seen := State(), result.Seen();
      NobodyDue(s, today);
      var rows := Fetch(set id | id in tasks && AwaitsApproval(tasks[id]));
      EmptyPasses(dir, s, today);
      assert Rows(rows[..0]) == {};
      for i := 0 to |rows|
        invariant State() == SlaPass(dir, s, today, Rows(rows[..i]))
        invariant Balanced(base, State(), result.Counts())
        invariant result.Seen() == seen + |SlaDue(s, today, Rows(rows[..i]))|
      {
        assert rows[i] in Rows(rows);
        OneMoreRow(rows, i);
        SlaRowStep(dir, s, today, Rows(rows[..i]), rows[i]);
        SlaDueCount(s, today, Rows(rows[..i]), rows[i]);
        assert tasks[rows[i]] == s.tasks[rows[i]];
        NudgeOrEscalate(dir, rows[i], today, result, base);
      }
      assert rows[..|rows|] == rows;
      SlaFilter(dir, s, today, Rows(rows));
    }

    // ---- overdue tasks ----

    method Escalate(dir: Directory, id: nat, today: int, result: TickResult, ghost base: Db)
      requires id in tasks && Overdue(tasks[id], today) && Balanced(base, State(), result.Counts())
      modifies this, result
      ensures State() == EscalationRow(dir, old(State()), id, today)
      ensures Balanced(base, State(), result.Counts()) && result.Seen() == old(result.Seen()) + 1
    {
      hide Balanced, FanOut, Recipient;
      RaiseLevel(dir, id, TaskEscalation(id, today), tasks[id].level + 1, result, base);
    }

    method ProcessTaskEscalations(dir: Directory, today: int, result: TickResult, ghost base: Db)
      requires Balanced(base, State(), result.Counts())
      modifies this, result
      ensures State() == EscalationPass(dir, old(State()), today, old(tasks).Keys)
      ensures Balanced(base, State(), result.Counts())
      ensures result.Seen() == old(result.Seen()) + |EscalationsDue(old(State()), today, old(tasks).Keys)|
    {
      hide Balanced, EscalationsDue, Notices, Overdue, EscalationRow;
      ghost var s, seen := State(), result.Seen();
      NobodyDue(s, today);
      var rows := Fetch(set id | id in tasks && Overdue(tasks[id], today));
      EmptyPasses(dir, s, today);
      assert Rows(rows[..0]) == {};
      for i := 0 to |rows|
        invariant State() == EscalationPass(dir, s, today, Rows(rows[..i]))
        invariant Balanced(base, State(), result.Counts())
        invariant result.Seen() == seen + |EscalationsDue(s, today, Rows(rows[..i]))|
      {
        assert rows[i] in Rows(rows);
        OneMoreRow(rows, i);
        EscalationRowStep(dir, s, today, Rows(rows[..i]), rows[i]);
        EscalationsDueCount(s, today, Rows(rows[..i]), rows[i]);
        assert tasks[rows[i]] == s.tasks[rows[i]];
        Escalate(dir, rows[i], today, result, base);
      }
      assert rows[..|rows|] == rows;
      EscalationFilter(dir, s, today, Rows(rows));
    }

    // ---- the tick ----

    /** One transaction: committed, or rolled back as a whole when any trigger raised. */
    method RunTick(dir: Directory, today: int, raised: bool) returns (result: TickResult)
      modifies this
      ensures fresh(result)
      ensures raised ==> State() == old(State())
      ensures !raised ==> Tick(dir, old(State()), State(), today) && Balanced(old(State()), State(), result.Counts())
      ensures !raised ==> exists s1, made ::
        TickVia(dir, old(State()), s1, State(), today, made) && result.Seen() == DueInTick(dir, old(State()), s1, today)
    {
      hide Balanced, CheckInPass, SlaPass, EscalationPass, CheckInsDue, SlaDue, EscalationsDue;
      ghost var s := State();
      var saved := (tasks, opps, ledger, outbox);
      result := new TickResult();
      BalancedStart(s);
      ghost var made := ProcessOpportunityOverdue(dir, today, result, s);
      ghost var s1 := State();
      ProcessApprovalSla(dir, today, result, s);
      ProcessTaskEscalations(dir, today, result, s);
      assert TickVia(dir, s, s1, State(), today, made);
      if raised {
        tasks, opps, ledger, outbox := saved.0, saved.1, saved.2, saved.3;
      }
    }
  }

  /** While the check-in pass runs, a trigger it has not reached yet is in the ledger exactly if it was before. */
  lemma LedgerDuringCheckIns(
      dir: Directory, s: Db, cur: Db, today: int, done: set<nat>, made: map<nat, Key>, id: nat)
    requires CheckInPass(dir, s, cur, today, done, made) && id in s.opps && id !in done && s.opps[id].nextDate.Some?
    ensures var key := OverdueCheckIn(id, s.opps[id].nextDate.value);
            (key in cur.ledger <==> key in s.ledger) && cur.opps == s.opps
  {
  }
}
