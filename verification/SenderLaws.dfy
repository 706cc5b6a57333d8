/** The notification sender from the outside: which rows a batch takes, what becomes of each, and what a status says. */
module SenderLaws {
  import opened Text
  import opened NotificationOutbox
  import opened NotificationSender

  // ---- the batch ----------------------------------------------------------------

  /** Pending, tried fewer than five times, and due. */
  ghost predicate Eligible(n: Note, now: int) {
    n.status == Pending && n.attempts < 5 && (n.nextAttempt.Some? ==> n.nextAttempt.value <= now)
  }

  /** Rows never tried come first, then by the time of the next attempt, then by creation. */
  ghost predicate ComesFirst(a: Note, b: Note) {
    match (a.nextAttempt, b.nextAttempt)
    case (None, None) => a.createdAt <= b.createdAt
    case (None, Some(_)) => true
    case (Some(_), None) => false
    case (Some(x), Some(y)) => x < y || (x == y && a.createdAt <= b.createdAt)
  }

  ghost predicate InOrder(rows: seq<Note>) { forall i, j :: 0 <= i < j < |rows| ==> ComesFirst(rows[i], rows[j]) }

  lemma OrderIs(rows: seq<Note>)
    ensures ByNextAttempt(rows) <==> InOrder(rows)
  {
    forall a, b ensures NotLater(a, b) <==> ComesFirst(a, b) {}
  }

  lemma {:induction false} SelectionCounts(table: seq<Note>, n: Note)
    ensures multiset(Selection(table))[n] == if Selected(n) then multiset(table)[n] else 0
  {
    hide Selected;
    if table != [] {
      assert table == table[..|table| - 1] + [table[|table| - 1]];
      SelectionCounts(table[..|table| - 1], n);
    }
  }

  lemma {:induction false} ReadyCounts(rows: seq<Note>, now: int, n: Note)
    ensures multiset(ReadyOnes(rows, now))[n] == if Ready(n, now) then multiset(rows)[n] else 0
  {
    hide Ready;
    if rows != [] {
      assert rows == rows[..|rows| - 1] + [rows[|rows| - 1]];
      ReadyCounts(rows[..|rows| - 1], now, n);
    }
  }

  /** The rows a batch starts with, `ready`: eligible rows of the table, in order, the first ones up to the limit. */
  ghost predicate IsBatch(table: seq<Note>, limit: nat, now: int, ready: seq<Note>) {
    && |ready| <= limit && InOrder(ready)
    && (forall n :: multiset(ready)[n] <= if Eligible(n, now) then multiset(table)[n] else 0)
    && (|ready| < limit ==> forall n :: Eligible(n, now) ==> multiset(ready)[n] == multiset(table)[n])
    && forall m, n :: m in ready && Eligible(n, now) && multiset(ready)[n] < multiset(table)[n] ==> ComesFirst(m, n)
  }

  /** What `PendingNotifications` returns is such a batch: a full one leaves out only rows that come after it. */
  lemma BatchIsFirstEligible(table: seq<Note>, limit: nat, now: int)
    requires InOrder(table)
    ensures IsBatch(table, limit, now, Limited(ReadyOnes(Selection(table), now), limit))
  {
    hide Selected, Ready, InOrder, ByNextAttempt, Eligible, ComesFirst;
    var all := ReadyOnes(Selection(table), now);
    var ready := Limited(all, limit);
    OrderIs(table);
    SelectionOrdered(table);
    ReadyAreFirst(Selection(table), now);
    PrefixInOrder(Selection(table), all);
    PrefixInOrder(all, ready);
    forall n ensures multiset(all)[n] == if Eligible(n, now) then multiset(table)[n] else 0 {
      SelectionCounts(table, n);
      ReadyCounts(Selection(table), now, n);
      EligibleIs(n, now);
    }
    assert all == ready + all[|ready|..];
    assert multiset(all) == multiset(ready) + multiset(all[|ready|..]);
    forall m, n | m in ready && Eligible(n, now) && multiset(ready)[n] < multiset(table)[n] ensures ComesFirst(m, n) {
      assert n in multiset(all[|ready|..]);
      EarlierInOrder(all, |ready|, m, n);
    }
  }

  lemma EligibleIs(n: Note, now: int)
    ensures Eligible(n, now) <==> Selected(n) && Ready(n, now)
  {
  }

  lemma PrefixInOrder(rows: seq<Note>, first: seq<Note>)
    requires ByNextAttempt(rows) && first <= rows
    ensures ByNextAttempt(first) && InOrder(first)
  {
    hide NotLater, ComesFirst;
    OrderIs(first);
  }

  lemma EarlierInOrder(rows: seq<Note>, k: nat, m: Note, n: Note)
    requires k <= |rows| && InOrder(rows) && m in rows[..k] && n in rows[k..]
    ensures ComesFirst(m, n)
  {
    hide ComesFirst;
    var i :| 0 <= i < k && rows[..k][i] == m;
    var j :| 0 <= j < |rows| - k && rows[k..][j] == n;
    assert rows[i] == m && rows[k + j] == n;
  }

  // ---- what becomes of a row ----------------------------------------------------

  /** Why a row is not sent at all, in the order the sender asks. */
  ghost function Objection(n: Note, a: Answers): Option<string> {
    if a.blocked.Some? then a.blocked
    else if n.channel == Email && !a.recipient then Some("recipient email not found")
    else if (n.channel == Teams || n.channel == Slack) && !a.webhook then Some("channel not configured")
    else if n.channel.Unknown? then Some("unknown channel '" + n.channel.name + "'")
    else None
  }

  /**
   The row after it was handled: suppressed with the reason when there is an objection; else an email that was
   taken and an in-app row are sent; a refused email is tried again after 2, 4, 8 and 16 minutes and failed at
   the fifth attempt; a chat row with a webhook waits for a worker that does not exist yet.
   */
  lemma OutcomeTells(n: Note, a: Answers)
    requires n.status == Pending && n.attempts < 5
    ensures var o, why, refused := Outcome(n, a), Objection(n, a), n.channel == Email && a.mail.Rejected?;
      && o.channel == n.channel && o.createdAt == n.createdAt
      && (o.status == Suppressed <==> why.Some?)
      && (o.status == Sent <==> why.None? && ((n.channel == Email && a.mail == Taken) || n.channel == InApp))
      && (o.status == Failed <==> why.None? && refused && n.attempts == 4)
      && (o.status == Suppressed ==> o.lastError == why && o.attempts == n.attempts && o.nextAttempt == None && o.sentAt == n.sentAt)
      && (o.status == Sent ==> o.attempts == n.attempts + 1 && o.sentAt == Some(a.now) && o.nextAttempt == None && o.lastError == None)
      && (o.status == Failed ==> o.attempts == 5 && o.lastError == Some(a.mail.error) && o.nextAttempt == None && o.sentAt == n.sentAt)
      && (o.status == Pending && refused ==>
            && o.attempts == n.attempts + 1 && o.lastError == Some(a.mail.error) && o.sentAt == n.sentAt
            && o.nextAttempt == Some(a.now + 60_000_000 * [2, 4, 8, 16][n.attempts]))
      && (o.status == Pending && !refused ==> o == n)
  {
  }

  // ---- what a status says, over every run ---------------------------------------

  /** Only email is accepted or refused by the mail service. */
  ghost predicate MailsEmail(s: World, w: nat)
    requires w in s.workers
  {
    var phase := s.workers[w].phase;
    phase.Accepted? || phase.Refused? ==> phase.id in s.rows && s.rows[phase.id].channel == Email
  }

  /** A sent row is an email confirmed once or an in-app row, with its time and without a next attempt or error. */
  ghost predicate StatusTells(s: World, id: nat) {
    id in s.rows ==>
      var n := s.rows[id];
      && (n.channel == Email ==> (n.status == Sent <==> s.confirmed[id] == 1))
      && (n.channel != Email ==> s.confirmed[id] == 0 && s.delivered[id] == 0)
      && (n.status == Sent ==> (n.channel == Email || n.channel == InApp) && n.sentAt.Some? && n.nextAttempt.None? && n.lastError.None?)
      && (n.status == Failed ==> n.channel == Email && n.attempts == 5 && n.nextAttempt.None? && n.lastError.Some?)
  }

  ghost predicate Tells(s: World) {
    (forall w :: w in s.workers ==> MailsEmail(s, w)) && forall id :: StatusTells(s, id)
  }

  /** A row with the status that a commit may give it. */
  ghost predicate MayBecome(n: Note, note: Note, taken: bool) {
    && note.channel == n.channel
    && (note.status == Sent <==> taken || (n.channel == InApp && note.status == Sent))
    && (note.status == Sent ==>
          (n.channel == Email || n.channel == InApp) && note.sentAt.Some? && note.nextAttempt.None? && note.lastError.None?)
    && (note.status == Failed ==> n.channel == Email && note.attempts == 5 && note.nextAttempt.None? && note.lastError.Some?)
    && (taken ==> n.channel == Email)
  }

  lemma CommitTells(s: World, w: nat, id: nat, note: Note, taken: bool)
    requires Inv(s) && Tells(s) && w in s.workers && !s.workers[w].phase.Between? && s.workers[w].phase.id == id && id in s.rows
    requires MayBecome(s.rows[id], note, taken)
    ensures Tells(Committed(s, w, id, note).(confirmed := s.confirmed + if taken then multiset{id} else multiset{}))
  {
    hide RowOk;
    var s' := Committed(s, w, id, note).(confirmed := s.confirmed + if taken then multiset{id} else multiset{});
    assert WorkerOk(s, w);
    forall v | v in s'.workers ensures MailsEmail(s', v) {
      assert WorkerOk(s, v) && MailsEmail(s, v);
    }
    forall x ensures StatusTells(s', x) {
      assert StatusTells(s, x);
      if x == id { NotConfirmedYet(s, w, id); }
    }
  }

  lemma NotConfirmedYet(s: World, w: nat, id: nat)
    requires Inv(s) && w in s.workers && !s.workers[w].phase.Between? && s.workers[w].phase.id == id
    ensures s.confirmed[id] == 0
  {
    assert WorkerOk(s, w) && RowOk(s, id);
  }

  lemma UncommittedTells(s: World, step: Step)
    requires Inv(s) && Tells(s) && Enabled(s, step)
    requires !step.Suppress? && !step.MarkSent? && !step.MarkFailed? && !step.MarkInapp?
    ensures Tells(Apply(s, step))
  {
    hide Inv, Apply, Enabled, MailsEmail, StatusTells;
    if step.Enqueue? { NewRowUnconfirmed(s, step); }
    if step.Remove? { RemovedIsFree(s, step); }
    forall v | v in Apply(s, step).workers ensures MailsEmail(Apply(s, step), v) { UncommittedMails(s, step, v); }
    forall x ensures StatusTells(Apply(s, step), x) { UncommittedStatus(s, step, x); }
  }

  lemma UncommittedMails(s: World, step: Step, v: nat)
    requires Enabled(s, step) && v in Apply(s, step).workers && (v in s.workers ==> MailsEmail(s, v))
    requires !step.Suppress? && !step.MarkSent? && !step.MarkFailed? && !step.MarkInapp?
    requires step.Enqueue? ==> step.id !in s.rows
    requires step.Remove? ==> forall w :: w in s.workers && !s.workers[w].phase.Between? ==> s.workers[w].phase.id != step.id
    ensures MailsEmail(Apply(s, step), v)
  {
  }

  lemma UncommittedStatus(s: World, step: Step, x: nat)
    requires Enabled(s, step) && StatusTells(s, x)
    requires !step.Suppress? && !step.MarkSent? && !step.MarkFailed? && !step.MarkInapp?
    requires step.Enqueue? ==> s.confirmed[step.id] == 0 && s.delivered[step.id] == 0
    ensures StatusTells(Apply(s, step), x)
  {
  }

  lemma NewRowUnconfirmed(s: World, step: Step)
    requires Inv(s) && step.Enqueue? && Enabled(s, step)
    ensures s.confirmed[step.id] == 0 && s.delivered[step.id] == 0 && step.id !in s.rows
  {
    assert RowOk(s, step.id);
  }

  lemma RemovedIsFree(s: World, step: Step)
    requires Inv(s) && step.Remove? && Enabled(s, step)
    ensures forall w :: w in s.workers && !s.workers[w].phase.Between? ==> s.workers[w].phase.id != step.id
  {
    forall w | w in s.workers && !s.workers[w].phase.Between? ensures s.workers[w].phase.id != step.id { assert WorkerOk(s, w); }
  }

  lemma StepTells(s: World, step: Step)
    requires Inv(s) && Tells(s) && Enabled(s, step)
    ensures Tells(Apply(s, step))
  {
    hide Inv, Tells, Committed;
    match step
    case Suppress(w, reason) =>
      var id := s.workers[w].phase.id;
      CommitTells(s, w, id, SuppressedNote(s.rows[id], reason), false);
      NothingConfirmed(s, w, id, SuppressedNote(s.rows[id], reason));
    case MarkSent(w, now) =>
      var id := s.workers[w].phase.id;
      PhaseIsEmail(s, w);
      CommitTells(s, w, id, SentNote(s.rows[id], now), true);
    case MarkFailed(w, error, now) =>
      var id := s.workers[w].phase.id;
      PhaseIsEmail(s, w);
      PendingRow(s, w);
      CommitTells(s, w, id, FailedNote(s.rows[id], error, now), false);
      NothingConfirmed(s, w, id, FailedNote(s.rows[id], error, now));
    case MarkInapp(w, now) =>
      var id := s.workers[w].phase.id;
      CommitTells(s, w, id, SentNote(s.rows[id], now), false);
      NothingConfirmed(s, w, id, SentNote(s.rows[id], now));
    case _ => UncommittedTells(s, step);
  }

  lemma PhaseIsEmail(s: World, w: nat)
    requires Tells(s) && w in s.workers && (s.workers[w].phase.Accepted? || s.workers[w].phase.Refused?)
    ensures s.workers[w].phase.id in s.rows && s.rows[s.workers[w].phase.id].channel == Email
  {
    assert MailsEmail(s, w);
  }

  lemma {:induction false} RunTells(s: World, steps: seq<Step>, last: World)
    requires Inv(s) && Tells(s) && Run(s, steps, last)
    ensures Tells(last)
    decreases |steps|
  {
    hide Inv, Tells, Apply, Enabled;
    if steps != [] {
      StepKeepsInv(s, steps[0]);
      StepTells(s, steps[0]);
      RunTells(Apply(s, steps[0]), steps[1..], last);
    }
  }

  /**
   However the workers' steps interleave and wherever they crash: an email row in the table is marked sent if and
   only if the sender recorded a delivery of it; other rows marked sent are in-app; a failed row is an email
   refused at its fifth attempt.
   */
  lemma SentIffConfirmed(steps: seq<Step>, last: World, id: nat)
    requires Run(START, steps, last)
    ensures StatusTells(last, id)
  {
    StartIsInv();
    RunTells(START, steps, last);
  }
}
