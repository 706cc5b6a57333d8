/** The rows of the notification outbox: what each outcome does to one, and which rows a batch starts with. */
module NotificationOutbox {
  import opened Text
  import opened Calendar

  datatype Channel = Email | InApp | Teams | Slack | Unknown(name: string)

  datatype Status = Pending | Sent | Failed | Suppressed

  datatype Note = Note(
    channel: Channel, status: Status, attempts: nat, nextAttempt: Option<int>, lastError: Option<string>,
    sentAt: Option<int>, createdAt: int)

  const MAX_ATTEMPTS := 5
  const BACKOFF_MINUTES := [1, 2, 4, 8, 16, 32, 60]
  const MINUTE_MICROS := 60_000_000

  /** The wait after a failure; `attempts` already counts it. */
  function BackoffFor(attempts: nat): int {
    BACKOFF_MINUTES[if attempts < |BACKOFF_MINUTES| then attempts else |BACKOFF_MINUTES| - 1] * MINUTE_MICROS
  }

  function SuppressedNote(n: Note, reason: string): Note {
    n.(status := Suppressed, lastError := Some(reason), nextAttempt := None)
  }

  function SentNote(n: Note, now: int): Note {
    n.(status := Sent, attempts := n.attempts + 1, sentAt := Some(now), nextAttempt := None, lastError := None)
  }

  function FailedNote(n: Note, error: string, now: int): Note {
    var attempts := n.attempts + 1;
    if attempts >= MAX_ATTEMPTS then n.(status := Failed, attempts := attempts, nextAttempt := None, lastError := Some(error))
    else n.(attempts := attempts, nextAttempt := Some(now + BackoffFor(attempts)), lastError := Some(error))
  }

  function Pow2(k: nat): nat { if k == 0 then 1 else 2 * Pow2(k - 1) }

  /** After its k-th failure a row waits 2^k minutes, two at first; it fails for good at the fifth. */
  lemma RetrySchedule(n: Note, error: string, now: int)
    requires n.status == Pending && n.attempts < MAX_ATTEMPTS
    ensures var f := FailedNote(n, error, now);
      && (f.status == Failed <==> f.attempts == MAX_ATTEMPTS)
      && (f.status == Pending ==> f.nextAttempt == Some(now + Pow2(f.attempts) * MINUTE_MICROS))
  {
    assert Pow2(1) == 2 && Pow2(2) == 4 && Pow2(3) == 8 && Pow2(4) == 16;
  }

  // ---- the batch ----------------------------------------------------------------

  predicate Selected(n: Note) { n.status == Pending && n.attempts < MAX_ATTEMPTS }

  /** The row may be tried at `now`. */
  predicate Ready(n: Note, now: int) { n.nextAttempt.None? || n.nextAttempt.value <= now }

  /** Ordered by next attempt, rows without one first, then by creation. */
  predicate NotLater(a: Note, b: Note) {
    if a.nextAttempt == b.nextAttempt then a.createdAt <= b.createdAt
    else a.nextAttempt.None? || (b.nextAttempt.Some? && a.nextAttempt.value < b.nextAttempt.value)
  }

  ghost predicate ByNextAttempt(rows: seq<Note>) {
    forall i, j :: 0 <= i < j < |rows| ==> NotLater(rows[i], rows[j])
  }

  function Limited(rows: seq<Note>, limit: nat): seq<Note> { if |rows| <= limit then rows else rows[..limit] }

  function ReadyOnes(rows: seq<Note>, now: int): seq<Note> {
    if rows == [] then []
    else ReadyOnes(rows[..|rows| - 1], now) + if Ready(rows[|rows| - 1], now) then [rows[|rows| - 1]] else []
  }

  /** The rows of the table the query selects, in the table's order. */
  function Selection(table: seq<Note>): seq<Note> {
    if table == [] then []
    else Selection(table[..|table| - 1]) + if Selected(table[|table| - 1]) then [table[|table| - 1]] else []
  }

  lemma {:induction false} SelectionMembers(table: seq<Note>)
    ensures forall n :: n in Selection(table) <==> n in table && Selected(n)
  {
    if table != [] {
      assert table == table[..|table| - 1] + [table[|table| - 1]];
      SelectionMembers(table[..|table| - 1]);
    }
  }

  lemma {:induction false} SelectionOrdered(table: seq<Note>)
    requires ByNextAttempt(table)
    ensures ByNextAttempt(Selection(table))
  {
    hide Selected, NotLater;
    if table != [] {
      var init, last := table[..|table| - 1], table[|table| - 1];
      SelectionOrdered(init);
      SelectionMembers(init);
      forall n | n in Selection(init) ensures NotLater(n, last) {
        var i :| 0 <= i < |init| && init[i] == n;
        assert table[i] == n;
      }
    }
  }

  /** WHERE, ORDER BY and LIMIT of the fetch; `table` is already in the order asked for. */
  method FetchBatch(table: seq<Note>, limit: nat) returns (fetched: seq<Note>)
    ensures fetched == Limited(Selection(table), limit)
  {
    fetched := [];
    for i := 0 to |table|
      invariant fetched == Limited(Selection(table[..i]), limit)
    {
      assert table[..i + 1][..i] == table[..i];
      if table[i].status == Pending && table[i].attempts < MAX_ATTEMPTS && |fetched| < limit {
        fetched := fetched + [table[i]];
      }
    }
    assert table[..|table|] == table;
  }

  /** The first rows, up to the limit, that are pending, have attempts left and are ready. */
  method PendingNotifications(table: seq<Note>, limit: nat, now: int) returns (ready: seq<Note>)
    requires ByNextAttempt(table)
    ensures ready == Limited(ReadyOnes(Selection(table), now), limit)
  {
    var fetched := FetchBatch(table, limit);
    ready := [];
    for i := 0 to |fetched|
      invariant ready == ReadyOnes(fetched[..i], now)
    {
      assert fetched[..i + 1][..i] == fetched[..i];
      if fetched[i].nextAttempt.None? {
        ready := ready + [fetched[i]];
      } else if fetched[i].nextAttempt.value <= now {
        ready := ready + [fetched[i]];
      }
    }
    assert fetched[..|fetched|] == fetched;
    SelectionOrdered(table);
    LimitBeforeFilter(Selection(table), limit, now);
  }

  /** In the order of next attempts the ready rows come first, so limiting before filtering starves none. */
  lemma {:induction false} LimitBeforeFilter(rows: seq<Note>, limit: nat, now: int)
    requires ByNextAttempt(rows)
    ensures ReadyOnes(Limited(rows, limit), now) == Limited(ReadyOnes(rows, now), limit)
  {
    ReadyAreFirst(rows, now);
    ReadyAreFirst(Limited(rows, limit), now);
  }

  /** Ready rows are a prefix. */
  lemma {:induction false} ReadyAreFirst(rows: seq<Note>, now: int)
    requires ByNextAttempt(rows)
    ensures ReadyOnes(rows, now) <= rows
    ensures |ReadyOnes(rows, now)| < |rows| ==> !Ready(rows[|ReadyOnes(rows, now)|], now)
    ensures forall i :: 0 <= i < |ReadyOnes(rows, now)| ==> Ready(rows[i], now)
  {
    if rows != [] {
      var n := |rows| - 1;
      ReadyAreFirst(rows[..n], now);
      assert rows == rows[..n] + [rows[n]];
      var k := |ReadyOnes(rows[..n], now)|;
      if k < n { assert NotLater(rows[k], rows[n]); }
    }
  }
}
