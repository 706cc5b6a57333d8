/**
 The notification sender as interleaved steps: any number of workers drain batches that may overlap, each
 row is locked and read again before it is handled, and a worker may crash between any two steps.
 */
module NotificationSender {
  import opened Text
  import opened NotificationOutbox

  /** How far a worker is with its current row. */
  datatype Phase = Between | Holding(id: nat) | Accepted(id: nat) | Refused(id: nat)

  /** A session: its batch, the next position, the rows it has deleted without committing. */
  datatype Worker = Worker(batch: seq<nat>, next: nat, deleted: set<nat>, phase: Phase)

  /**
   `rows` is the committed table and `locks` says which worker holds a row. The last four fields only keep
   account: messages that reached a mailbox by row, deliveries no commit recorded, emails marked sent,
   and transitions out of pending.
   */
  datatype World = World(
    rows: map<nat, Note>, issued: set<nat>, workers: map<nat, Worker>, locks: map<nat, nat>,
    delivered: multiset<nat>, lost: multiset<nat>, confirmed: multiset<nat>, finals: multiset<nat>)

  datatype Step =
    | Enqueue(id: nat, note: Note)
    | Remove(id: nat)
    | Begin(w: nat, batch: seq<nat>)
    | Lock(w: nat)
    | Delete(w: nat)
    | Suppress(w: nat, reason: string)
    | Leave(w: nat)
    | Deliver(w: nat)
    | Refuse(w: nat, reached: bool)
    | MarkSent(w: nat, now: int)
    | MarkFailed(w: nat, error: string, now: int)
    | MarkInapp(w: nat, now: int)
    | Finish(w: nat)
    | Crash(w: nat)

  // ---- sessions -----------------------------------------------------------------

  /** Every lock of the worker is released. */
  function Unlocked(locks: map<nat, nat>, w: nat): map<nat, nat> {
    map id | id in locks && locks[id] != w :: locks[id]
  }

  function Moved(s: World, w: nat, phase: Phase): World
    requires w in s.workers
  {
    s.(workers := s.workers[w := s.workers[w].(phase := phase)])
  }

  /** The worker goes on to its next row. */
  function Advanced(s: World, w: nat): World
    requires w in s.workers
  {
    s.(workers := s.workers[w := s.workers[w].(phase := Between, next := s.workers[w].next + 1)])
  }

  /** The worker's row becomes `note` and everything it wrote is committed. */
  function Committed(s: World, w: nat, id: nat, note: Note): World
    requires w in s.workers
  {
    var worker := s.workers[w];
    s.(rows := (s.rows - worker.deleted)[id := note], locks := Unlocked(s.locks, w),
       workers := s.workers[w := Worker(worker.batch, worker.next + 1, {}, Between)],
       finals := if note.status == Pending then s.finals else s.finals + multiset{id})
  }

  /** The session ends; what it had not committed is undone. */
  function Closed(s: World, w: nat): World
    requires w in s.workers
  {
    s.(workers := s.workers - {w}, locks := Unlocked(s.locks, w),
       lost := if s.workers[w].phase.Accepted? then s.lost + multiset{s.workers[w].phase.id} else s.lost)
  }

  predicate Visible(s: World, w: nat, id: nat)
    requires w in s.workers
  {
    id in s.rows && id !in s.workers[w].deleted
  }

  predicate Holds(s: World, w: nat) { w in s.workers && s.workers[w].phase.Holding? && s.workers[w].phase.id in s.rows }

  predicate Enabled(s: World, step: Step) {
    match step
    case Enqueue(id, note) => id !in s.issued && note.attempts == 0 && (note.status == Pending || note.status == Suppressed)
    case Remove(id) => id in s.rows && id !in s.locks
    case Begin(w, _) => w !in s.workers
    case Lock(w) =>
      && w in s.workers && s.workers[w].phase == Between && s.workers[w].next < |s.workers[w].batch|
      && var id := s.workers[w].batch[s.workers[w].next]; !Visible(s, w, id) || id !in s.locks || s.locks[id] == w
    case Delete(w) => Holds(s, w)
    case Suppress(w, _) => Holds(s, w)
    case Leave(w) => Holds(s, w) && var c := s.rows[s.workers[w].phase.id].channel; c == Teams || c == Slack
    case Deliver(w) => Holds(s, w) && s.rows[s.workers[w].phase.id].channel == Email
    case Refuse(w, _) => Holds(s, w) && s.rows[s.workers[w].phase.id].channel == Email
    case MarkSent(w, _) => w in s.workers && s.workers[w].phase.Accepted? && s.workers[w].phase.id in s.rows
    case MarkFailed(w, _, _) => w in s.workers && s.workers[w].phase.Refused? && s.workers[w].phase.id in s.rows
    case MarkInapp(w, _) => Holds(s, w) && s.rows[s.workers[w].phase.id].channel == InApp
    case Finish(w) => w in s.workers && s.workers[w].phase == Between && s.workers[w].next >= |s.workers[w].batch|
    case Crash(w) => w in s.workers
  }

  function Apply(s: World, step: Step): World
    requires Enabled(s, step)
  {
    match step
    case Enqueue(id, note) => s.(rows := s.rows[id := note], issued := s.issued + {id})
    case Remove(id) => s.(rows := s.rows - {id})
    case Begin(w, batch) => s.(workers := s.workers[w := Worker(batch, 0, {}, Between)])
    case Lock(w) =>
      var id := s.workers[w].batch[s.workers[w].next];
      if !Visible(s, w, id) then Advanced(s, w)
      else
        var locked := s.(locks := s.locks[id := w]);
        if s.rows[id].status != Pending then Advanced(locked, w) else Moved(locked, w, Holding(id))
    case Delete(w) =>
      var worker := s.workers[w];
      s.(workers := s.workers[w := Worker(worker.batch, worker.next + 1, worker.deleted + {worker.phase.id}, Between)])
    case Suppress(w, reason) =>
      var id := s.workers[w].phase.id; Committed(s, w, id, SuppressedNote(s.rows[id], reason))
    case Leave(w) => Advanced(s, w)
    case Deliver(w) =>
      var id := s.workers[w].phase.id; Moved(s, w, Accepted(id)).(delivered := s.delivered + multiset{id})
    case Refuse(w, reached) =>
      var id := s.workers[w].phase.id;
      var s' := Moved(s, w, Refused(id));
      if reached then s'.(delivered := s.delivered + multiset{id}, lost := s.lost + multiset{id}) else s'
    case MarkSent(w, now) =>
      var id := s.workers[w].phase.id;
      Committed(s, w, id, SentNote(s.rows[id], now)).(confirmed := s.confirmed + multiset{id})
    case MarkFailed(w, error, now) =>
      var id := s.workers[w].phase.id; Committed(s, w, id, FailedNote(s.rows[id], error, now))
    case MarkInapp(w, now) =>
      var id := s.workers[w].phase.id; Committed(s, w, id, SentNote(s.rows[id], now))
    case Finish(w) => Closed(s, w)
    case Crash(w) => Closed(s, w)
  }

  ghost predicate Run(s: World, steps: seq<Step>, last: World)
    decreases |steps|
  {
    if steps == [] then last == s else Enabled(s, steps[0]) && Run(Apply(s, steps[0]), steps[1..], last)
  }

  // ---- the invariant ------------------------------------------------------------

  /** A row somebody handles, or has deleted without committing, is locked by them and pending. */
  predicate Owned(s: World, w: nat, id: nat) {
    id in s.locks && s.locks[id] == w && id in s.rows && s.rows[id].status == Pending
  }

  ghost predicate WorkerOk(s: World, w: nat)
    requires w in s.workers
  {
    var worker := s.workers[w];
    && (forall id :: id in worker.deleted ==> Owned(s, w, id))
    && (!worker.phase.Between? ==> Owned(s, w, worker.phase.id) && worker.phase.id !in worker.deleted)
  }

  /** One when a worker has a message of this row accepted and not yet recorded. */
  function InFlight(s: World, id: nat): nat {
    if id in s.locks && s.locks[id] in s.workers && s.workers[s.locks[id]].phase == Accepted(id) then 1 else 0
  }

  ghost predicate RowOk(s: World, id: nat) {
    && s.finals[id] <= 1 && s.confirmed[id] <= s.finals[id]
    && s.delivered[id] == s.lost[id] + s.confirmed[id] + InFlight(s, id)
    && (id !in s.issued ==> s.delivered[id] == 0 && s.lost[id] == 0 && s.finals[id] == 0 && id !in s.rows)
    && (id in s.rows && s.rows[id].status == Pending ==> s.finals[id] == 0 && s.rows[id].attempts < MAX_ATTEMPTS)
    && (id in s.rows && s.rows[id].status == Failed ==> s.rows[id].attempts == MAX_ATTEMPTS)
  }

  ghost predicate Inv(s: World) {
    && (forall w :: w in s.workers ==> WorkerOk(s, w))
    && (forall id :: id in s.locks ==> id in s.rows && s.locks[id] in s.workers)
    && forall id :: RowOk(s, id)
  }

  const START := World(map[], {}, map[], map[], multiset{}, multiset{}, multiset{}, multiset{})

  /** A commit of the worker's own row. */
  lemma CommitKeepsInv(s: World, w: nat, id: nat, note: Note, confirms: multiset<nat>)
    requires Inv(s) && w in s.workers && !s.workers[w].phase.Between? && s.workers[w].phase.id == id
    requires confirms == if s.workers[w].phase.Accepted? then multiset{id} else multiset{}
    requires s.workers[w].phase.Accepted? ==> note.status != Pending
    requires note.status == Pending ==> note.attempts < MAX_ATTEMPTS
    requires note.status == Failed ==> note.attempts == MAX_ATTEMPTS
    ensures Inv(Committed(s, w, id, note).(confirmed := s.confirmed + confirms))
  {
    hide RowOk;
    var s' := Committed(s, w, id, note).(confirmed := s.confirmed + confirms);
    assert WorkerOk(s, w) && Owned(s, w, id);
    forall v | v in s'.workers ensures WorkerOk(s', v) {
      assert WorkerOk(s, v);
    }
    forall x ensures RowOk(s', x) { CommitKeepsRow(s, w, id, note, confirms, x); }
  }

  lemma CommitKeepsRow(s: World, w: nat, id: nat, note: Note, confirms: multiset<nat>, x: nat)
    requires w in s.workers && WorkerOk(s, w) && !s.workers[w].phase.Between? && s.workers[w].phase.id == id
    requires confirms == if s.workers[w].phase.Accepted? then multiset{id} else multiset{}
    requires s.workers[w].phase.Accepted? ==> note.status != Pending
    requires note.status == Pending ==> note.attempts < MAX_ATTEMPTS
    requires note.status == Failed ==> note.attempts == MAX_ATTEMPTS
    requires RowOk(s, x) && RowOk(s, id)
    ensures RowOk(Committed(s, w, id, note).(confirmed := s.confirmed + confirms), x)
  {
  }

  /** The end of a session, whether it finished or crashed. */
  lemma CloseKeepsInv(s: World, w: nat)
    requires Inv(s) && w in s.workers
    ensures Inv(Closed(s, w))
  {
    hide RowOk;
    var s' := Closed(s, w);
    assert WorkerOk(s, w);
    forall v | v in s'.workers ensures WorkerOk(s', v) { assert WorkerOk(s, v); }
    forall x ensures RowOk(s', x) { CloseKeepsRow(s, w, x); }
  }

  lemma CloseKeepsRow(s: World, w: nat, x: nat)
    requires w in s.workers && WorkerOk(s, w) && RowOk(s, x)
    ensures RowOk(Closed(s, w), x)
  {
  }

  lemma LockKeepsInv(s: World, w: nat)
    requires Inv(s) && Enabled(s, Lock(w))
    ensures Inv(Apply(s, Lock(w)))
  {
    hide RowOk;
    var s' := Apply(s, Lock(w));
    assert WorkerOk(s, w);
    forall v | v in s'.workers ensures WorkerOk(s', v) { assert WorkerOk(s, v); }
    forall x ensures RowOk(s', x) {
      assert RowOk(s, x) && InFlight(s', x) == InFlight(s, x);
      SameRowOk(s, s', x);
    }
  }

  /** A row's account stands when neither the row, nor its counts, nor what is in flight changed. */
  lemma SameRowOk(s: World, s': World, x: nat)
    requires RowOk(s, x) && s'.rows == s.rows && s'.issued == s.issued && InFlight(s', x) == InFlight(s, x)
    requires s'.finals == s.finals && s'.confirmed == s.confirmed && s'.delivered == s.delivered && s'.lost == s.lost
    ensures RowOk(s', x)
  {
  }

  /** Sending, being refused, deleting and leaving only move the worker and the accounts of its row. */
  lemma HandleKeepsInv(s: World, step: Step)
    requires Inv(s) && Enabled(s, step) && (step.Delete? || step.Leave? || step.Deliver? || step.Refuse?)
    ensures Inv(Apply(s, step))
  {
    hide RowOk;
    var s' := Apply(s, step);
    var w := step.w;
    assert WorkerOk(s, w);
    forall v | v in s'.workers ensures WorkerOk(s', v) { assert WorkerOk(s, v); }
    forall x ensures RowOk(s', x) { HandleKeepsRow(s, step, x); }
  }

  lemma HandleKeepsRow(s: World, step: Step, x: nat)
    requires Enabled(s, step) && (step.Delete? || step.Leave? || step.Deliver? || step.Refuse?)
    requires WorkerOk(s, step.w) && RowOk(s, x) && RowOk(s, s.workers[step.w].phase.id)
    ensures RowOk(Apply(s, step), x)
  {
  }

  lemma OutsideKeepsInv(s: World, step: Step)
    requires Inv(s) && Enabled(s, step) && (step.Enqueue? || step.Remove? || step.Begin?)
    ensures Inv(Apply(s, step))
  {
    var s' := Apply(s, step);
    if step.Enqueue? { assert RowOk(s, step.id); }
    forall v | v in s'.workers ensures WorkerOk(s', v) { assert v in s.workers ==> WorkerOk(s, v); }
    forall x ensures RowOk(s', x) { assert RowOk(s, x); }
  }

  lemma StepKeepsInv(s: World, step: Step)
    requires Inv(s) && Enabled(s, step)
    ensures Inv(Apply(s, step))
  {
    hide Inv, Committed, Closed;
    match step
    case Enqueue(_, _) => OutsideKeepsInv(s, step);
    case Remove(_) => OutsideKeepsInv(s, step);
    case Begin(_, _) => OutsideKeepsInv(s, step);
    case Lock(w) => LockKeepsInv(s, w);
    case Delete(_) => HandleKeepsInv(s, step);
    case Leave(_) => HandleKeepsInv(s, step);
    case Deliver(_) => HandleKeepsInv(s, step);
    case Refuse(_, _) => HandleKeepsInv(s, step);
    case Suppress(w, reason) =>
      var id := s.workers[w].phase.id;
      CommitKeepsInv(s, w, id, SuppressedNote(s.rows[id], reason), multiset{});
      NothingConfirmed(s, w, id, SuppressedNote(s.rows[id], reason));
    case MarkSent(w, now) =>
      var id := s.workers[w].phase.id;
      CommitKeepsInv(s, w, id, SentNote(s.rows[id], now), multiset{id});
    case MarkFailed(w, error, now) =>
      var id := s.workers[w].phase.id;
      PendingRow(s, w);
      CommitKeepsInv(s, w, id, FailedNote(s.rows[id], error, now), multiset{});
      NothingConfirmed(s, w, id, FailedNote(s.rows[id], error, now));
    case MarkInapp(w, now) =>
      var id := s.workers[w].phase.id;
      CommitKeepsInv(s, w, id, SentNote(s.rows[id], now), multiset{});
      NothingConfirmed(s, w, id, SentNote(s.rows[id], now));
    case Finish(w) => CloseKeepsInv(s, w);
    case Crash(w) => CloseKeepsInv(s, w);
  }

  lemma NothingConfirmed(s: World, w: nat, id: nat, note: Note)
    requires w in s.workers
    ensures Committed(s, w, id, note).(confirmed := s.confirmed + multiset{}) == Committed(s, w, id, note)
  {
    assert s.confirmed + multiset{} == s.confirmed;
  }

  /** The row a worker is at is pending with attempts left. */
  lemma PendingRow(s: World, w: nat)
    requires Inv(s) && w in s.workers && !s.workers[w].phase.Between?
    ensures var id := s.workers[w].phase.id; id in s.rows && s.rows[id].status == Pending && s.rows[id].attempts < MAX_ATTEMPTS
  {
    assert WorkerOk(s, w) && RowOk(s, s.workers[w].phase.id);
  }

  lemma {:induction false} RunKeepsInv(s: World, steps: seq<Step>, last: World)
    requires Inv(s) && Run(s, steps, last)
    ensures Inv(last)
    decreases |steps|
  {
    hide Inv, Apply, Enabled;
    if steps != [] {
      StepKeepsInv(s, steps[0]);
      RunKeepsInv(Apply(s, steps[0]), steps[1..], last);
    }
  }

  lemma StartIsInv()
    ensures Inv(START)
  {
  }

  // ---- what holds over every run ------------------------------------------------

  /**
   However the workers' steps interleave and wherever they crash: every row leaves pending at most once, its
   email is confirmed at most once, and the messages delivered for it are the confirmed one, the lost ones
   and the one in flight.
   */
  lemma EmailsAccountedFor(steps: seq<Step>, last: World, id: nat)
    requires Run(START, steps, last)
    ensures last.finals[id] <= 1 && last.confirmed[id] <= 1
    ensures last.delivered[id] == last.lost[id] + last.confirmed[id] + InFlight(last, id)
    ensures id in last.rows && last.rows[id].status == Pending ==> last.finals[id] == 0 && last.confirmed[id] == 0
  {
    StartIsInv();
    RunKeepsInv(START, steps, last);
    assert RowOk(last, id);
  }

  /** The step puts a message of the row in a mailbox, whether or not the sender learns of it. */
  predicate Delivers(s: World, step: Step, id: nat) {
    (step.Deliver? || (step.Refuse? && step.reached)) && Holds(s, step.w) && s.workers[step.w].phase.id == id
  }

  /** Some step of the run delivers a message of the row after one of its messages was lost. */
  ghost predicate DeliversAfterLoss(s: World, steps: seq<Step>, last: World, id: nat)
    requires Run(s, steps, last)
    decreases |steps|
  {
    steps != []
    && ((Delivers(s, steps[0], id) && s.lost[id] > 0) || DeliversAfterLoss(Apply(s, steps[0]), steps[1..], last, id))
  }

  lemma StepDelivers(s: World, step: Step, id: nat)
    requires Enabled(s, step)
    ensures Apply(s, step).delivered[id] == s.delivered[id] + if Delivers(s, step, id) then 1 else 0
  {
  }

  /** A row is delivered only while nothing of it is confirmed or in flight: what was delivered before is lost. */
  lemma DeliveryStartsFromLosses(s: World, step: Step, id: nat)
    requires Inv(s) && Enabled(s, step) && Delivers(s, step, id)
    ensures s.delivered[id] == s.lost[id]
  {
    assert WorkerOk(s, step.w) && RowOk(s, id);
  }

  lemma {:induction false} DeliveriesGrow(s: World, steps: seq<Step>, last: World, id: nat)
    requires Run(s, steps, last)
    ensures s.delivered[id] <= last.delivered[id]
    decreases |steps|
  {
    hide Apply, Enabled;
    if steps != [] {
      StepDelivers(s, steps[0], id);
      DeliveriesGrow(Apply(s, steps[0]), steps[1..], last, id);
    }
  }

  lemma {:induction false} RunDeliversOnceIff(s: World, steps: seq<Step>, last: World, id: nat)
    requires Inv(s) && Run(s, steps, last) && s.delivered[id] <= 1
    ensures last.delivered[id] <= 1 <==> !DeliversAfterLoss(s, steps, last, id)
    decreases |steps|
  {
    hide Inv, Apply, Enabled, Delivers;
    if steps != [] {
      var next := Apply(s, steps[0]);
      StepDelivers(s, steps[0], id);
      StepKeepsInv(s, steps[0]);
      if Delivers(s, steps[0], id) { DeliveryStartsFromLosses(s, steps[0], id); }
      if next.delivered[id] <= 1 {
        RunDeliversOnceIff(next, steps[1..], last, id);
      } else {
        DeliveriesGrow(next, steps[1..], last, id);
      }
    }
  }

  /**
   Over every run, a row's email is delivered at most once if and only if none of its messages is delivered
   after one of them was lost; in particular when none of them is lost.
   */
  lemma DeliveredAtMostOnceIff(steps: seq<Step>, last: World, id: nat)
    requires Run(START, steps, last)
    ensures last.delivered[id] <= 1 <==> !DeliversAfterLoss(START, steps, last, id)
    ensures last.lost[id] == 0 ==> last.delivered[id] <= 1
  {
    hide Apply, Enabled, Run;
    StartIsInv();
    RunKeepsInv(START, steps, last);
    InFlightIsUnconfirmed(last, id);
    RunDeliversOnceIff(START, steps, last, id);
  }

  /** A message in flight is for a row still pending, hence not confirmed. */
  lemma InFlightIsUnconfirmed(s: World, id: nat)
    requires Inv(s)
    ensures s.confirmed[id] + InFlight(s, id) <= 1
    ensures s.delivered[id] == s.lost[id] + s.confirmed[id] + InFlight(s, id)
  {
    assert RowOk(s, id);
    if InFlight(s, id) == 1 { assert WorkerOk(s, s.locks[id]); }
  }

  lemma {:induction false} RunsJoin(s: World, a: seq<Step>, mid: World, b: seq<Step>, last: World)
    requires Run(s, a, mid) && Run(mid, b, last)
    ensures Run(s, a + b, last)
    decreases |a|
  {
    hide Apply, Enabled;
    if a == [] {
      assert a + b == b;
    } else {
      assert (a + b)[1..] == a[1..] + b;
      RunsJoin(Apply(s, a[0]), a[1..], mid, b, last);
    }
  }

  lemma RunOne(s: World, step: Step)
    requires Enabled(s, step)
    ensures Run(s, [step], Apply(s, step))
  {
    hide Apply, Enabled;
    assert [step][1..] == [];
  }

  /** One worker takes a row that nobody holds from the start of its session to the delivery. */
  lemma Attempt(s: World, w: nat, id: nat) returns (s': World)
    requires w !in s.workers && id in s.rows && s.rows[id].status == Pending && s.rows[id].channel == Email && id !in s.locks
    ensures Run(s, [Begin(w, [id])] + [Lock(w)] + [Deliver(w)], s')
    ensures s' == s.(workers := s.workers[w := Worker([id], 0, {}, Accepted(id))], locks := s.locks[id := w],
                     delivered := s.delivered + multiset{id})
  {
    var s1 := Apply(s, Begin(w, [id]));
    var s2 := Apply(s1, Lock(w));
    s' := Apply(s2, Deliver(w));
    RunOne(s, Begin(w, [id]));
    RunOne(s1, Lock(w));
    RunOne(s2, Deliver(w));
    RunsJoin(s, [Begin(w, [id])], s1, [Lock(w)], s2);
    RunsJoin(s, [Begin(w, [id])] + [Lock(w)], s2, [Deliver(w)], s');
  }

  /** With a crash between delivery and commit the email goes out again, although it is confirmed once. */
  lemma CrashSendsAgain(note: Note) returns (steps: seq<Step>, last: World)
    requires note.channel == Email && note.status == Pending && note.attempts == 0
    ensures Run(START, steps, last) && last.delivered[0] == 2 && last.confirmed[0] == 1
  {
    hide Run;
    var s1 := Apply(START, Enqueue(0, note));
    RunOne(START, Enqueue(0, note));
    var s2 := Attempt(s1, 1, 0);
    var s3 := Apply(s2, Crash(1));
    RunOne(s2, Crash(1));
    var s4 := Attempt(s3, 2, 0);
    last := Apply(s4, MarkSent(2, 0));
    RunOne(s4, MarkSent(2, 0));
    var first, second := [Begin(1, [0])] + [Lock(1)] + [Deliver(1)], [Begin(2, [0])] + [Lock(2)] + [Deliver(2)];
    RunsJoin(START, [Enqueue(0, note)], s1, first, s2);
    RunsJoin(START, [Enqueue(0, note)] + first, s2, [Crash(1)], s3);
    RunsJoin(START, [Enqueue(0, note)] + first + [Crash(1)], s3, second, s4);
    RunsJoin(START, [Enqueue(0, note)] + first + [Crash(1)] + second, s4, [MarkSent(2, 0)], last);
    steps := [Enqueue(0, note)] + first + [Crash(1)] + second + [MarkSent(2, 0)];
  }

  // ---- the worker as it runs ----------------------------------------------------

  datatype Mail = Taken | Rejected(error: string, reached: bool)

  /** What the world answers while one row is handled. */
  datatype Answers = Answers(sourceDeleted: bool, blocked: Option<string>, recipient: bool, webhook: bool, mail: Mail, now: int)

  /** The row a session leaves behind, unless its source was deleted. */
  function Outcome(n: Note, a: Answers): Note {
    if a.blocked.Some? then SuppressedNote(n, a.blocked.value)
    else
      match n.channel
      case Email =>
        if !a.recipient then SuppressedNote(n, "recipient email not found")
        else if a.mail.Taken? then SentNote(n, a.now)
        else FailedNote(n, a.mail.error, a.now)
      case Teams => if a.webhook then n else SuppressedNote(n, "channel not configured")
      case Slack => if a.webhook then n else SuppressedNote(n, "channel not configured")
      case InApp => SentNote(n, a.now)
      case Unknown(name) => SuppressedNote(n, "unknown channel '" + name + "'")
  }

  /** Handling the row commits the session. */
  predicate Commits(n: Note, a: Answers) {
    !a.sourceDeleted && (a.blocked.Some? || !((n.channel == Teams || n.channel == Slack) && a.webhook))
  }

  class Session {
    const w: nat
    var rows: map<nat, Note>
    var issued: set<nat>
    var workers: map<nat, Worker>
    var locks: map<nat, nat>
    ghost var delivered: multiset<nat>
    ghost var lost: multiset<nat>
    ghost var confirmed: multiset<nat>
    ghost var finals: multiset<nat>

    constructor (w: nat, s: World)
      ensures State() == s && this.w == w
    {
      this.w := w;
      rows, issued, workers, locks := s.rows, s.issued, s.workers, s.locks;
      delivered, lost, confirmed, finals := s.delivered, s.lost, s.confirmed, s.finals;
    }

    ghost function State(): World
      reads this
    {
      World(rows, issued, workers, locks, delivered, lost, confirmed, finals)
    }

    /** The row is written and the transaction committed. */
    method Commit(id: nat, note: Note)
      requires w in workers
      modifies this
      ensures State() == Committed(old(State()), w, id, note)
    {
      rows := (rows - workers[w].deleted)[id := note];
      locks := map i | i in locks && locks[i] != w :: locks[i];
      workers := workers[w := Worker(workers[w].batch, workers[w].next + 1, {}, Between)];
      if note.status != Pending { finals := finals + multiset{id}; }
    }

    method SuppressRow(reason: string)
      requires Enabled(State(), Suppress(w, reason))
      modifies this
      ensures State() == Apply(old(State()), Suppress(w, reason))
    {
      var id := workers[w].phase.id;
      Commit(id, rows[id].(status := Suppressed, lastError := Some(reason), nextAttempt := None));
    }

    method MarkInappSent(now: int)
      requires Enabled(State(), MarkInapp(w, now))
      modifies this
      ensures State() == Apply(old(State()), MarkInapp(w, now))
    {
      var id := workers[w].phase.id;
      var n := rows[id];
      Commit(id, n.(status := Sent, attempts := n.attempts + 1, sentAt := Some(now), nextAttempt := None, lastError := None));
    }

    method MarkRowSent(now: int)
      requires Enabled(State(), MarkSent(w, now))
      modifies this
      ensures State() == Apply(old(State()), MarkSent(w, now))
    {
      var id := workers[w].phase.id;
      var n := rows[id];
      Commit(id, n.(status := Sent, attempts := n.attempts + 1, sentAt := Some(now), nextAttempt := None, lastError := None));
      confirmed := confirmed + multiset{id};
    }

    method MarkRowFailed(error: string, now: int)
      requires Enabled(State(), MarkFailed(w, error, now))
      modifies this
      ensures State() == Apply(old(State()), MarkFailed(w, error, now))
    {
      var id := workers[w].phase.id;
      var n := rows[id].(attempts := rows[id].attempts + 1, lastError := Some(error));
      if n.attempts >= MAX_ATTEMPTS {
        n := n.(status := Failed, nextAttempt := None);
      } else {
        n := n.(nextAttempt := Some(now + BackoffFor(n.attempts)));
      }
      Commit(id, n);
    }

    /** SELECT … FOR UPDATE of the next row; false when it is gone or no longer pending. */
    method LockRow() returns (pending: bool)
      requires Enabled(State(), Lock(w))
      modifies this`locks, this`workers
      ensures State() == Apply(old(State()), Lock(w))
      ensures pending == (var id := old(workers[w].batch[workers[w].next]); Visible(old(State()), w, id) && old(rows)[id].status == Pending)
      ensures pending ==> Holds(State(), w) && workers[w].phase.id == old(workers[w].batch[workers[w].next])
    {
      var worker := workers[w];
      var id := worker.batch[worker.next];
      if id !in rows || id in worker.deleted {
        workers := workers[w := worker.(phase := Between, next := worker.next + 1)];
        return false;
      }
      locks := locks[id := w];
      pending := rows[id].status == Pending;
      workers := workers[w := if pending then worker.(phase := Holding(id)) else worker.(phase := Between, next := worker.next + 1)];
    }

    method Send(reached: bool, taken: bool)
      requires Holds(State(), w) && rows[workers[w].phase.id].channel == Email
      modifies this`workers, this`delivered, this`lost
      ensures State() == Apply(old(State()), if taken then Deliver(w) else Refuse(w, reached))
    {
      var id := workers[w].phase.id;
      workers := workers[w := workers[w].(phase := if taken then Accepted(id) else Refused(id))];
      if taken || reached { delivered := delivered + multiset{id}; }
      if !taken && reached { lost := lost + multiset{id}; }
    }

    method HandleEmail(a: Answers)
      requires Holds(State(), w) && rows[workers[w].phase.id].channel == Email
      modifies this
      ensures Run(old(State()), EmailSteps(w, a), State())
    {
      hide Apply, Run;
      ghost var s := State();
      if !a.recipient {
        RunOne(s, Suppress(w, "recipient email not found"));
        SuppressRow("recipient email not found");
        return;
      }
      match a.mail
      case Taken =>
        SendIsTaken(s, w);
        Send(false, true);
        RunOne(s, Deliver(w));
        ghost var sent := State();
        RunOne(sent, MarkSent(w, a.now));
        MarkRowSent(a.now);
        RunsJoin(s, [Deliver(w)], sent, [MarkSent(w, a.now)], State());
      case Rejected(error, reached) =>
        SendIsRefused(s, w, reached);
        Send(reached, false);
        RunOne(s, Refuse(w, reached));
        ghost var refused := State();
        RunOne(refused, MarkFailed(w, error, a.now));
        MarkRowFailed(error, a.now);
        RunsJoin(s, [Refuse(w, reached)], refused, [MarkFailed(w, error, a.now)], State());
    }

    method React(a: Answers)
      requires Holds(State(), w)
      modifies this
      ensures Run(old(State()), Reaction(w, old(rows[workers[w].phase.id].channel), a), State())
    {
      hide Apply, Run, EmailSteps;
      ghost var s := State();
      var id := workers[w].phase.id;
      if a.sourceDeleted {
        RunOne(s, Delete(w));
        workers := workers[w := Worker(workers[w].batch, workers[w].next + 1, workers[w].deleted + {id}, Between)];
        DeleteApplied(s, w);
        return;
      }
      if a.blocked.Some? {
        RunOne(s, Suppress(w, a.blocked.value));
        SuppressRow(a.blocked.value);
        return;
      }
      match rows[id].channel
      case Email => HandleEmail(a);
      case Teams => HandleChat(a.webhook);
      case Slack => HandleChat(a.webhook);
      case InApp =>
        RunOne(s, MarkInapp(w, a.now));
        MarkInappSent(a.now);
      case Unknown(name) =>
        var reason := "unknown channel '" + name + "'";
        RunOne(s, Suppress(w, reason));
        SuppressRow(reason);
    }

    method HandleChat(webhook: bool)
      requires Holds(State(), w) && (rows[workers[w].phase.id].channel == Teams || rows[workers[w].phase.id].channel == Slack)
      modifies this
      ensures Run(old(State()), ChatSteps(w, webhook), State())
    {
      hide Apply, Run;
      ghost var s := State();
      if !webhook {
        RunOne(s, Suppress(w, "channel not configured"));
        SuppressRow("channel not configured");
        return;
      }
      RunOne(s, Leave(w));
      workers := workers[w := workers[w].(phase := Between, next := workers[w].next + 1)];
      LeaveApplied(s, w);
    }

    /** One row of the batch: lock, read again, skip unless still pending, else react. */
    method HandleRow(a: Answers)
      requires Enabled(State(), Lock(w))
      modifies this
      ensures Run(old(State()), RowSteps(old(State()), w, a), State())
    {
      hide Apply, Run, Reaction;
      ghost var s := State();
      RunOne(s, Lock(w));
      var pending := LockRow();
      if !pending { return; }
      ghost var held := State();
      React(a);
      LockKeepsRows(s, w);
      ghost var reaction := Reaction(w, held.rows[held.workers[w].phase.id].channel, a);
      RunsJoin(s, [Lock(w)], held, reaction, State());
    }

    /**
     A whole session while nobody else works: begin, the rows in turn, close. What it had not committed when
     it closes is undone, so `rows` are the committed ones.
     */
    method ProcessBatch(batch: seq<nat>, answers: seq<Answers>) returns (handled: nat, ghost steps: seq<Step>)
      requires w !in workers && locks == map[] && |answers| == |batch|
      modifies this
      ensures Run(old(State()), steps, State()) && handled == |batch|
      ensures rows == BatchFold(Table(old(rows), {}), batch, answers).rows
      ensures workers == old(workers) && locks == map[] && issued == old(issued)
    {
      hide Apply, Run, RowSteps, Handled, BatchFold, Unlocked;
      ghost var s := State();
      NothingFolded(Table(rows, {}));
      workers := workers[w := Worker(batch, 0, {}, Between)];
      BeginApplied(s, w, batch);
      steps := [Begin(w, batch)];
      RunOne(s, Begin(w, batch));
      for i := 0 to |batch|
        invariant Alone(State(), w) && workers[w].batch == batch && workers[w].next == i
        invariant workers - {w} == s.workers && issued == s.issued
        invariant Run(s, steps, State())
        invariant TableOf(State(), w) == BatchFold(Table(s.rows, {}), batch[..i], answers[..i])
      {
        BatchFoldStep(Table(s.rows, {}), batch, answers, i);
        ghost var before := State();
        HandleRow(answers[i]);
        RowHandled(before, w, answers[i], State());
        RunsJoin(s, steps, before, RowSteps(before, w, answers[i]), State());
        steps := steps + RowSteps(before, w, answers[i]);
      }
      assert batch[..|batch|] == batch && answers[..|answers|] == answers;
      ghost var done := State();
      RunOne(done, Finish(w));
      CloseApplied(done, w);
      workers, locks := workers - {w}, Unlocked(locks, w);
      RunsJoin(s, steps, done, [Finish(w)], State());
      steps := steps + [Finish(w)];
      handled := |batch|;
    }
  }

  function EmailSteps(w: nat, a: Answers): seq<Step> {
    if !a.recipient then [Suppress(w, "recipient email not found")]
    else
      match a.mail
      case Taken => [Deliver(w)] + [MarkSent(w, a.now)]
      case Rejected(error, reached) => [Refuse(w, reached)] + [MarkFailed(w, error, a.now)]
  }

  function ChatSteps(w: nat, webhook: bool): seq<Step> {
    if webhook then [Leave(w)] else [Suppress(w, "channel not configured")]
  }

  /** The steps a worker takes once it holds a pending row. */
  function Reaction(w: nat, channel: Channel, a: Answers): seq<Step> {
    if a.sourceDeleted then [Delete(w)]
    else if a.blocked.Some? then [Suppress(w, a.blocked.value)]
    else
      match channel
      case Email => EmailSteps(w, a)
      case Teams => ChatSteps(w, a.webhook)
      case Slack => ChatSteps(w, a.webhook)
      case InApp => [MarkInapp(w, a.now)]
      case Unknown(name) => [Suppress(w, "unknown channel '" + name + "'")]
  }

  /** The steps of one row of the batch when nobody else moves. */
  function RowSteps(s: World, w: nat, a: Answers): seq<Step>
    requires Enabled(s, Lock(w))
  {
    var id := s.workers[w].batch[s.workers[w].next];
    if Visible(s, w, id) && s.rows[id].status == Pending then [Lock(w)] + Reaction(w, s.rows[id].channel, a) else [Lock(w)]
  }

  lemma SendIsTaken(s: World, w: nat)
    requires Enabled(s, Deliver(w))
    ensures forall now :: Enabled(Apply(s, Deliver(w)), MarkSent(w, now))
  {
  }

  lemma SendIsRefused(s: World, w: nat, reached: bool)
    requires Enabled(s, Refuse(w, reached))
    ensures forall error, now :: Enabled(Apply(s, Refuse(w, reached)), MarkFailed(w, error, now))
  {
  }

  lemma DeleteApplied(s: World, w: nat)
    requires Holds(s, w)
    ensures var worker := s.workers[w];
      Apply(s, Delete(w))
      == s.(workers := s.workers[w := Worker(worker.batch, worker.next + 1, worker.deleted + {worker.phase.id}, Between)])
  {
  }

  lemma LeaveApplied(s: World, w: nat)
    requires Enabled(s, Leave(w))
    ensures Apply(s, Leave(w)) == s.(workers := s.workers[w := s.workers[w].(phase := Between, next := s.workers[w].next + 1)])
  {
  }

  lemma LockKeepsRows(s: World, w: nat)
    requires Enabled(s, Lock(w))
    ensures Apply(s, Lock(w)).rows == s.rows
  {
  }

  // ---- a batch nobody disturbs --------------------------------------------------

  /** The committed rows and the session's uncommitted deletions. */
  datatype Table = Table(rows: map<nat, Note>, deleted: set<nat>)

  function TableOf(s: World, w: nat): Table
    requires w in s.workers
  {
    Table(s.rows, s.workers[w].deleted)
  }

  /** A deletion waits for the next commit of the session; every other outcome commits, or changes nothing. */
  function Handled(t: Table, id: nat, a: Answers): Table {
    if id !in t.rows || id in t.deleted || t.rows[id].status != Pending then t
    else if a.sourceDeleted then Table(t.rows, t.deleted + {id})
    else if !Commits(t.rows[id], a) then t
    else Table((t.rows - t.deleted)[id := Outcome(t.rows[id], a)], {})
  }

  function BatchFold(t: Table, batch: seq<nat>, answers: seq<Answers>): Table
    requires |answers| == |batch|
    decreases |batch|
  {
    if batch == [] then t
    else Handled(BatchFold(t, batch[..|batch| - 1], answers[..|batch| - 1]), batch[|batch| - 1], answers[|batch| - 1])
  }

  lemma NothingFolded(t: Table)
    ensures BatchFold(t, [], []) == t
  {
  }

  lemma BatchFoldStep(t: Table, batch: seq<nat>, answers: seq<Answers>, i: nat)
    requires |answers| == |batch| && i < |batch|
    ensures BatchFold(t, batch[..i + 1], answers[..i + 1]) == Handled(BatchFold(t, batch[..i], answers[..i]), batch[i], answers[i])
  {
    hide Handled;
    assert batch[..i + 1][..i] == batch[..i] && answers[..i + 1][..i] == answers[..i];
  }

  ghost predicate Alone(s: World, w: nat) {
    w in s.workers && s.workers[w].phase == Between && forall id :: id in s.locks ==> s.locks[id] == w
  }

  lemma BeginApplied(s: World, w: nat, batch: seq<nat>)
    requires w !in s.workers
    ensures Apply(s, Begin(w, batch)) == s.(workers := s.workers[w := Worker(batch, 0, {}, Between)])
  {
  }

  lemma CloseApplied(s: World, w: nat)
    requires Alone(s, w) && s.workers[w].next >= |s.workers[w].batch|
    ensures Unlocked(s.locks, w) == map[]
    ensures Enabled(s, Finish(w)) && Apply(s, Finish(w)) == s.(workers := s.workers - {w}, locks := map[])
  {
    assert Unlocked(s.locks, w) == map[];
  }

  lemma RunSingle(s: World, step: Step, last: World)
    requires Run(s, [step], last)
    ensures Enabled(s, step) && last == Apply(s, step)
  {
    hide Apply, Enabled;
    assert [step][1..] == [];
  }

  lemma RunCons(s: World, step: Step, rest: seq<Step>, last: World)
    requires Run(s, [step] + rest, last)
    ensures Enabled(s, step) && Run(Apply(s, step), rest, last)
  {
    hide Apply, Enabled;
    assert ([step] + rest)[1..] == rest;
  }

  /** The worker went on to its next row and the table is `t`. */
  ghost predicate WentOn(s: World, s': World, w: nat, t: Table)
    requires w in s.workers
  {
    && Alone(s', w) && TableOf(s', w) == t && s'.issued == s.issued && s'.workers - {w} == s.workers - {w}
    && s'.workers[w].batch == s.workers[w].batch && s'.workers[w].next == s.workers[w].next + 1
  }

  lemma CommitGoesOn(s: World, w: nat, id: nat, note: Note, s': World)
    requires w in s.workers && forall i :: i in s.locks ==> s.locks[i] == w
    requires s' == Committed(s, w, id, note).(confirmed := s'.confirmed)
    ensures WentOn(s, s', w, Table((s.rows - s.workers[w].deleted)[id := note], {}))
  {
  }

  lemma EmailHandled(s: World, w: nat, a: Answers, s': World)
    requires Holds(s, w) && (forall i :: i in s.locks ==> s.locks[i] == w) && a.blocked.None? && !a.sourceDeleted
    requires s.rows[s.workers[w].phase.id].channel == Email && s.rows[s.workers[w].phase.id].status == Pending
    requires s.workers[w].phase.id !in s.workers[w].deleted && Run(s, EmailSteps(w, a), s')
    ensures WentOn(s, s', w, Handled(TableOf(s, w), s.workers[w].phase.id, a))
  {
    hide Run, Committed, Enabled, Unlocked, Outcome;
    var id := s.workers[w].phase.id;
    var n := s.rows[id];
    EmailOutcome(n, a);
    if !a.recipient {
      RunSingle(s, Suppress(w, "recipient email not found"), s');
      CommitGoesOn(s, w, id, Outcome(n, a), s');
    } else {
      match a.mail
      case Taken =>
        RunCons(s, Deliver(w), [MarkSent(w, a.now)], s');
        RunSingle(Apply(s, Deliver(w)), MarkSent(w, a.now), s');
        TakenGoesOn(s, w, a.now);
      case Rejected(error, reached) =>
        RunCons(s, Refuse(w, reached), [MarkFailed(w, error, a.now)], s');
        RunSingle(Apply(s, Refuse(w, reached)), MarkFailed(w, error, a.now), s');
        RefusedGoesOn(s, w, reached, error, a.now);
    }
  }

  lemma TakenGoesOn(s: World, w: nat, now: int)
    requires Enabled(s, Deliver(w)) && forall i :: i in s.locks ==> s.locks[i] == w
    ensures Enabled(Apply(s, Deliver(w)), MarkSent(w, now))
    ensures var id, s' := s.workers[w].phase.id, Apply(Apply(s, Deliver(w)), MarkSent(w, now));
      WentOn(s, s', w, Table((s.rows - s.workers[w].deleted)[id := SentNote(s.rows[id], now)], {}))
  {
    hide Committed, WentOn;
    var id, sent := s.workers[w].phase.id, Apply(s, Deliver(w));
    CommitGoesOn(sent, w, id, SentNote(s.rows[id], now), Apply(sent, MarkSent(w, now)));
    WentOnFrom(s, sent, Apply(sent, MarkSent(w, now)), w, Table((s.rows - s.workers[w].deleted)[id := SentNote(s.rows[id], now)], {}));
  }

  lemma RefusedGoesOn(s: World, w: nat, reached: bool, error: string, now: int)
    requires Enabled(s, Refuse(w, reached)) && forall i :: i in s.locks ==> s.locks[i] == w
    ensures Enabled(Apply(s, Refuse(w, reached)), MarkFailed(w, error, now))
    ensures var id, s' := s.workers[w].phase.id, Apply(Apply(s, Refuse(w, reached)), MarkFailed(w, error, now));
      WentOn(s, s', w, Table((s.rows - s.workers[w].deleted)[id := FailedNote(s.rows[id], error, now)], {}))
  {
    hide Committed, WentOn, FailedNote;
    var id, refused := s.workers[w].phase.id, Apply(s, Refuse(w, reached));
    CommitGoesOn(refused, w, id, FailedNote(s.rows[id], error, now), Apply(refused, MarkFailed(w, error, now)));
    var t := Table((s.rows - s.workers[w].deleted)[id := FailedNote(s.rows[id], error, now)], {});
    WentOnFrom(s, refused, Apply(refused, MarkFailed(w, error, now)), w, t);
  }

  lemma WentOnFrom(s: World, mid: World, s': World, w: nat, t: Table)
    requires w in s.workers && w in mid.workers && WentOn(mid, s', w, t)
    requires mid.issued == s.issued && mid.workers - {w} == s.workers - {w}
    requires mid.workers[w].batch == s.workers[w].batch && mid.workers[w].next == s.workers[w].next
    ensures WentOn(s, s', w, t)
  {
  }

  lemma EmailOutcome(n: Note, a: Answers)
    requires n.channel == Email && a.blocked.None? && !a.sourceDeleted
    ensures Commits(n, a)
    ensures Outcome(n, a) == if !a.recipient then SuppressedNote(n, "recipient email not found")
      else if a.mail.Taken? then SentNote(n, a.now) else FailedNote(n, a.mail.error, a.now)
  {
  }

  lemma ReactionHandled(s: World, w: nat, a: Answers, s': World)
    requires Holds(s, w) && (forall i :: i in s.locks ==> s.locks[i] == w)
    requires s.rows[s.workers[w].phase.id].status == Pending && s.workers[w].phase.id !in s.workers[w].deleted
    requires Run(s, Reaction(w, s.rows[s.workers[w].phase.id].channel, a), s')
    ensures WentOn(s, s', w, Handled(TableOf(s, w), s.workers[w].phase.id, a))
  {
    hide Run, Committed, Enabled, EmailSteps;
    var id := s.workers[w].phase.id;
    var n := s.rows[id];
    if a.sourceDeleted {
      RunSingle(s, Delete(w), s');
    } else if a.blocked.None? && n.channel == Email {
      EmailHandled(s, w, a, s');
    } else if Commits(n, a) {
      var step := Reaction(w, n.channel, a)[0];
      assert Reaction(w, n.channel, a) == [step];
      RunSingle(s, step, s');
      CommitGoesOn(s, w, id, Outcome(n, a), s');
    } else {
      RunSingle(s, Leave(w), s');
    }
  }

  /** Alone, the steps of one row do to the table what `Handled` says. */
  lemma RowHandled(s: World, w: nat, a: Answers, s': World)
    requires Alone(s, w) && Enabled(s, Lock(w)) && Run(s, RowSteps(s, w, a), s')
    ensures WentOn(s, s', w, Handled(TableOf(s, w), s.workers[w].batch[s.workers[w].next], a))
  {
    hide Run, Reaction;
    var id := s.workers[w].batch[s.workers[w].next];
    if Visible(s, w, id) && s.rows[id].status == Pending {
      RunCons(s, Lock(w), Reaction(w, s.rows[id].channel, a), s');
      ReactionHandled(Apply(s, Lock(w)), w, a, s');
    } else {
      RunSingle(s, Lock(w), s');
    }
  }

  /** Distinct rows, all of them pending. */
  ghost predicate Fetched(rows: map<nat, Note>, batch: seq<nat>) {
    && (forall i :: 0 <= i < |batch| ==> batch[i] in rows && rows[batch[i]].status == Pending)
    && forall i, j :: 0 <= i < j < |batch| ==> batch[i] != batch[j]
  }

  /** What a session that has handled `batch` has done to its row `k`. */
  ghost predicate RowShape(rows: map<nat, Note>, batch: seq<nat>, answers: seq<Answers>, t: Table, k: nat)
    requires |answers| == |batch| && Fetched(rows, batch) && k < |batch|
  {
    if answers[k].sourceDeleted then
      (batch[k] in t.rows <==> !CommitAfter(rows, batch, answers, k)) && (batch[k] in t.deleted <==> batch[k] in t.rows)
    else batch[k] in t.rows && t.rows[batch[k]] == Outcome(rows[batch[k]], answers[k]) && batch[k] !in t.deleted
  }

  ghost predicate BatchShape(rows: map<nat, Note>, batch: seq<nat>, answers: seq<Answers>, t: Table)
    requires |answers| == |batch| && Fetched(rows, batch)
  {
    && (forall id :: id in rows && id !in batch ==> id in t.rows && t.rows[id] == rows[id] && id !in t.deleted)
    && forall k :: 0 <= k < |batch| ==> RowShape(rows, batch, answers, t, k)
  }

  ghost predicate CommitAfter(rows: map<nat, Note>, batch: seq<nat>, answers: seq<Answers>, k: nat)
    requires |answers| == |batch| && Fetched(rows, batch)
  {
    exists j :: k < j < |batch| && Commits(rows[batch[j]], answers[j])
  }

  lemma {:induction false} BatchFoldShape(rows: map<nat, Note>, batch: seq<nat>, answers: seq<Answers>)
    requires |answers| == |batch| && Fetched(rows, batch)
    ensures BatchShape(rows, batch, answers, BatchFold(Table(rows, {}), batch, answers))
    decreases |batch|
  {
    hide Commits, Outcome;
    if batch != [] {
      var n := |batch| - 1;
      var init, ans := batch[..n], answers[..n];
      BatchFoldShape(rows, init, ans);
      ShapeStep(rows, batch, answers, BatchFold(Table(rows, {}), init, ans));
    }
  }

  lemma ShapeStep(rows: map<nat, Note>, batch: seq<nat>, answers: seq<Answers>, t: Table)
    requires |answers| == |batch| > 0 && Fetched(rows, batch)
    requires Fetched(rows, batch[..|batch| - 1]) && BatchShape(rows, batch[..|batch| - 1], answers[..|batch| - 1], t)
    ensures BatchShape(rows, batch, answers, Handled(t, batch[|batch| - 1], answers[|batch| - 1]))
  {
    hide RowShape, Handled, Commits, Outcome;
    var n := |batch| - 1;
    var t' := Handled(t, batch[n], answers[n]);
    assert batch == batch[..n] + [batch[n]];
    forall k | 0 <= k < |batch| ensures RowShape(rows, batch, answers, t', k) {
      if k == n { LastRowShape(rows, batch, answers, t); }
      else { EarlierRowShape(rows, batch, answers, t, k); }
    }
    forall id | id in rows && id !in batch ensures id in t'.rows && t'.rows[id] == rows[id] && id !in t'.deleted {
      OtherRowSame(t, batch[n], answers[n], id);
    }
  }

  lemma OtherRowSame(t: Table, id: nat, a: Answers, other: nat)
    requires other != id && other in t.rows && other !in t.deleted
    ensures var t' := Handled(t, id, a); other in t'.rows && t'.rows[other] == t.rows[other] && other !in t'.deleted
  {
  }

  lemma LastRowShape(rows: map<nat, Note>, batch: seq<nat>, answers: seq<Answers>, t: Table)
    requires |answers| == |batch| > 0 && Fetched(rows, batch)
    requires var id := batch[|batch| - 1]; id in t.rows && t.rows[id] == rows[id] && id !in t.deleted
    ensures RowShape(rows, batch, answers, Handled(t, batch[|batch| - 1], answers[|batch| - 1]), |batch| - 1)
  {
    hide Outcome, Commits;
    var n := |batch| - 1;
    if !answers[n].sourceDeleted && !Commits(rows[batch[n]], answers[n]) { LeftAsIs(rows[batch[n]], answers[n]); }
  }

  lemma EarlierRowShape(rows: map<nat, Note>, batch: seq<nat>, answers: seq<Answers>, t: Table, k: nat)
    requires |answers| == |batch| && k < |batch| - 1 && Fetched(rows, batch) && Fetched(rows, batch[..|batch| - 1])
    requires RowShape(rows, batch[..|batch| - 1], answers[..|batch| - 1], t, k)
    requires var id := batch[|batch| - 1]; id in t.rows && t.rows[id] == rows[id] && id !in t.deleted
    ensures RowShape(rows, batch, answers, Handled(t, batch[|batch| - 1], answers[|batch| - 1]), k)
  {
    hide Outcome, CommitAfter;
    CommitAfterStep(rows, batch, answers, k);
  }

  lemma LeftAsIs(n: Note, a: Answers)
    requires !a.sourceDeleted && !Commits(n, a)
    ensures Outcome(n, a) == n
  {
  }

  lemma CommitAfterStep(rows: map<nat, Note>, batch: seq<nat>, answers: seq<Answers>, k: nat)
    requires |answers| == |batch| > 0 && Fetched(rows, batch) && k < |batch| - 1 && Fetched(rows, batch[..|batch| - 1])
    ensures CommitAfter(rows, batch, answers, k)
       <==> CommitAfter(rows, batch[..|batch| - 1], answers[..|batch| - 1], k) || Commits(rows[batch[|batch| - 1]], answers[|batch| - 1])
  {
    hide Commits;
    var n := |batch| - 1;
    if CommitAfter(rows, batch, answers, k) {
      var j :| k < j < |batch| && Commits(rows[batch[j]], answers[j]);
      if j < n { assert Commits(rows[batch[..n][j]], answers[..n][j]); }
    }
    if CommitAfter(rows, batch[..n], answers[..n], k) {
      var j :| k < j < n && Commits(rows[batch[..n][j]], answers[..n][j]);
      assert Commits(rows[batch[j]], answers[j]);
    }
  }

  /**
   After an undisturbed session, a row whose source was deleted is gone if and only if a later row of the
   batch committed; closing the session brings it back otherwise. Every other row has its outcome.
   */
  lemma DeletedRowGoneIff(rows: map<nat, Note>, batch: seq<nat>, answers: seq<Answers>, k: nat)
    requires |answers| == |batch| && Fetched(rows, batch) && k < |batch|
    ensures var after := BatchFold(Table(rows, {}), batch, answers).rows;
      if answers[k].sourceDeleted then batch[k] !in after <==> CommitAfter(rows, batch, answers, k)
      else batch[k] in after && after[batch[k]] == Outcome(rows[batch[k]], answers[k])
  {
    hide BatchFold, Outcome, CommitAfter;
    BatchFoldShape(rows, batch, answers);
    assert RowShape(rows, batch, answers, BatchFold(Table(rows, {}), batch, answers), k);
  }

  /** A session of one row whose source was deleted: it deletes the row, closes, and the row is pending as before. */
  lemma DeletedRowSurvives(note: Note) returns (steps: seq<Step>, last: World)
    requires note.status == Pending && note.attempts == 0
    ensures Run(START, steps, last) && Delete(1) in steps && last.workers == map[] && last.rows == map[0 := note]
  {
    hide Run;
    var s1 := Apply(START, Enqueue(0, note));
    var s2 := Apply(s1, Begin(1, [0]));
    var s3 := Apply(s2, Lock(1));
    var s4 := Apply(s3, Delete(1));
    last := Apply(s4, Finish(1));
    RunOne(START, Enqueue(0, note));
    RunOne(s1, Begin(1, [0]));
    RunOne(s2, Lock(1));
    RunOne(s3, Delete(1));
    RunOne(s4, Finish(1));
    steps := [Enqueue(0, note)] + [Begin(1, [0])] + [Lock(1)] + [Delete(1)] + [Finish(1)];
    RunsJoin(START, [Enqueue(0, note)], s1, [Begin(1, [0])], s2);
    RunsJoin(START, [Enqueue(0, note)] + [Begin(1, [0])], s2, [Lock(1)], s3);
    RunsJoin(START, [Enqueue(0, note)] + [Begin(1, [0])] + [Lock(1)], s3, [Delete(1)], s4);
    RunsJoin(START, [Enqueue(0, note)] + [Begin(1, [0])] + [Lock(1)] + [Delete(1)], s4, [Finish(1)], last);
    assert Delete(1) in [Enqueue(0, note)] + [Begin(1, [0])] + [Lock(1)] + [Delete(1)];
  }
}
