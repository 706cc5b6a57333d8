/**
 The scheduler ledger: one row per trigger that has taken effect, unique by key. The stores of the
 schedulers hold structured keys; the texts that are actually stored never confuse two of them.
 */
module Ledger {
  import opened Text
  import opened Calendar

  datatype Key =
    | OverdueCheckIn(opp: nat, nextDate: int)
    | ApprovalNudge(task: nat, day: int)
    | ApprovalEscalation(task: nat, day: int)
    | TaskEscalation(task: nat, day: int)
    | RenewalOpenLead(opp: nat, termEnd: int)
    | ShortAssessment(version: nat, termEnd: int)
    | RenewalNudge(renewal: nat, day: int)
    | NoticeTask(opp: nat, notice: int)
    | RenewalEscalation(renewal: nat, level: int)
    | RenewalChurn(renewal: nat, termEnd: int)
    | PortfolioRenewal(engagement: nat, end: int)
    | PortfolioNightly(owner: nat, day: int)
  {
    function Name(): string {
      match this
      case OverdueCheckIn(_, _) => "opportunity.overdue_checkin"
      case ApprovalNudge(_, _) => "approval.nudge"
      case ApprovalEscalation(_, _) => "approval.escalation"
      case TaskEscalation(_, _) => "task.escalation"
      case RenewalOpenLead(_, _) => "renewal.open_lead"
      case ShortAssessment(_, _) => "renewal.short_assessment"
      case RenewalNudge(_, _) => "renewal.nudge"
      case NoticeTask(_, _) => "renewal.notice_task"
      case RenewalEscalation(_, _) => "renewal.escalation"
      case RenewalChurn(_, _) => "renewal.churn"
      case PortfolioRenewal(_, _) => "portfolio.renewal"
      case PortfolioNightly(_, _) => "portfolio.nightly"
    }

    function Entity(): nat {
      match this
      case OverdueCheckIn(id, _) => id
      case ApprovalNudge(id, _) => id
      case ApprovalEscalation(id, _) => id
      case TaskEscalation(id, _) => id
      case RenewalOpenLead(id, _) => id
      case ShortAssessment(id, _) => id
      case RenewalNudge(id, _) => id
      case NoticeTask(id, _) => id
      case RenewalEscalation(id, _) => id
      case RenewalChurn(id, _) => id
      case PortfolioRenewal(id, _) => id
      case PortfolioNightly(id, _) => id
    }

    /** The date of the key, or the escalation level. */
    function Window(): int {
      match this
      case OverdueCheckIn(_, d) => d
      case ApprovalNudge(_, d) => d
      case ApprovalEscalation(_, d) => d
      case TaskEscalation(_, d) => d
      case RenewalOpenLead(_, d) => d
      case ShortAssessment(_, d) => d
      case RenewalNudge(_, d) => d
      case NoticeTask(_, d) => d
      case RenewalEscalation(_, l) => l
      case RenewalChurn(_, d) => d
      case PortfolioRenewal(_, d) => d
      case PortfolioNightly(_, d) => d
    }

    predicate ValidWindow() {
      if RenewalEscalation? then level == 1 || level == 2 else ValidDay(Window())
    }

    function WindowText(): string
      requires ValidWindow()
    {
      if RenewalEscalation? then if level == 1 then "L1" else "L2" else IsoDate(Window())
    }
  }

  // ---- the key texts ------------------------------------------------------------

  function Join(pieces: seq<string>): string
    requires pieces != []
  {
    if |pieces| == 1 then pieces[0] else pieces[0] + ":" + Join(pieces[1..])
  }

  const MAX_KEY := 255

  /** The pieces joined by colons, cut to the width of the column. */
  function TriggerKey(name: string, entityId: string, part: string): string {
    var joined := Join([name, entityId, part]);
    if |joined| <= MAX_KEY then joined else joined[..MAX_KEY]
  }

  ghost predicate Plain(s: string) { forall i :: 0 <= i < |s| ==> s[i] != ':' }

  lemma SplitAtColon(a: string, s: string, b: string, t: string)
    requires Plain(a) && Plain(b) && a + ":" + s == b + ":" + t
    ensures a == b && s == t
  {
    var x := a + ":" + s;
    assert x[|a|] == ':' && x[|b|] == ':';
    assert forall i :: 0 <= i < |a| ==> x[i] == a[i];
    assert forall i :: 0 <= i < |b| ==> x[i] == b[i];
    assert x[..|a|] == a && x[..|b|] == b && x[|a| + 1..] == s && x[|b| + 1..] == t;
  }

  lemma JoinThree(name: string, id: string, part: string)
    ensures Join([name, id, part]) == name + ":" + (id + ":" + part)
  {
    assert [name, id, part][1..] == [id, part] && [id, part][1..] == [part];
    assert Join([id, part]) == id + ":" + Join([part]);
    assert Join([name, id, part]) == name + ":" + Join([id, part]);
  }

  /** Colon-free pieces that fit the column are determined by the stored key. */
  lemma TriggerKeyDetermines(a: (string, string, string), b: (string, string, string))
    requires Plain(a.0) && Plain(a.1) && Plain(b.0) && Plain(b.1)
    requires |a.0| + |a.1| + |a.2| + 2 <= MAX_KEY && |b.0| + |b.1| + |b.2| + 2 <= MAX_KEY
    requires TriggerKey(a.0, a.1, a.2) == TriggerKey(b.0, b.1, b.2)
    ensures a == b
  {
    JoinThree(a.0, a.1, a.2);
    JoinThree(b.0, b.1, b.2);
    SplitAtColon(a.0, a.1 + ":" + a.2, b.0, b.1 + ":" + b.2);
    SplitAtColon(a.1, a.2, b.1, b.2);
  }

  lemma NamesDistinct(k: Key, l: Key)
    requires k.Name() == l.Name()
    ensures k.OverdueCheckIn? == l.OverdueCheckIn? && k.ApprovalNudge? == l.ApprovalNudge?
    ensures k.ApprovalEscalation? == l.ApprovalEscalation? && k.TaskEscalation? == l.TaskEscalation?
    ensures k.RenewalOpenLead? == l.RenewalOpenLead? && k.ShortAssessment? == l.ShortAssessment?
    ensures k.RenewalNudge? == l.RenewalNudge? && k.NoticeTask? == l.NoticeTask?
    ensures k.RenewalEscalation? == l.RenewalEscalation? && k.RenewalChurn? == l.RenewalChurn?
    ensures k.PortfolioRenewal? == l.PortfolioRenewal? && k.PortfolioNightly? == l.PortfolioNightly?
  {
    var a, b := k.Name(), l.Name();
    assert |a| == |b| && a[0] == b[0] && a[8] == b[8] && a[10] == b[10];
  }

  lemma NamePlain(k: Key)
    ensures |k.Name()| <= 27 && Plain(k.Name())
  {
    AlertNamesPlain();
    RenewalNamesPlain();
    hide Plain;
  }

  lemma AlertNamesPlain()
    ensures Plain("opportunity.overdue_checkin") && Plain("approval.nudge") && Plain("approval.escalation")
    ensures Plain("task.escalation") && Plain("portfolio.renewal") && Plain("portfolio.nightly")
  {
  }

  lemma RenewalNamesPlain()
    ensures Plain("renewal.open_lead") && Plain("renewal.short_assessment") && Plain("renewal.nudge")
    ensures Plain("renewal.notice_task") && Plain("renewal.escalation") && Plain("renewal.churn")
  {
  }

  lemma WindowShort(k: Key)
    requires k.ValidWindow()
    ensures |k.WindowText()| <= 10
  {
  }

  /** The text of a UUID: 36 characters, none of them a colon. */
  ghost predicate UuidText(s: string) { |s| == 36 && Plain(s) }

  /**
   The UNIQUE constraint on the stored text is uniqueness of the structured key: under any rendering of
   row ids as UUID texts that tells the two ids apart, equal texts come from equal keys.
   */
  lemma KeyTextsDistinct(k: Key, l: Key, idText: nat -> string)
    requires k.ValidWindow() && l.ValidWindow()
    requires UuidText(idText(k.Entity())) && UuidText(idText(l.Entity()))
    requires idText(k.Entity()) == idText(l.Entity()) ==> k.Entity() == l.Entity()
    requires TriggerKey(k.Name(), idText(k.Entity()), k.WindowText())
          == TriggerKey(l.Name(), idText(l.Entity()), l.WindowText())
    ensures k == l
  {
    hide IsoDate, TriggerKey;
    NamePlain(k);
    NamePlain(l);
    WindowShort(k);
    WindowShort(l);
    TriggerKeyDetermines((k.Name(), idText(k.Entity()), k.WindowText()), (l.Name(), idText(l.Entity()), l.WindowText()));
    NamesDistinct(k, l);
    if k.RenewalEscalation? {
      assert k.WindowText()[1] == l.WindowText()[1];
    } else {
      IsoDateInjective(k.Window(), l.Window());
    }
  }

  /** The text stored for a key, trigger by trigger: its name, the id of its row, and its date or level. */
  lemma KeyTextsSpelled(k: Key, idText: nat -> string)
    requires k.ValidWindow() && UuidText(idText(k.Entity()))
    ensures var text := TriggerKey(k.Name(), idText(k.Entity()), k.WindowText());
      match k
      case OverdueCheckIn(opp, date) => text == "opportunity.overdue_checkin:" + idText(opp) + ":" + IsoDate(date)
      case ApprovalNudge(task, day) => text == "approval.nudge:" + idText(task) + ":" + IsoDate(day)
      case ApprovalEscalation(task, day) => text == "approval.escalation:" + idText(task) + ":" + IsoDate(day)
      case TaskEscalation(task, day) => text == "task.escalation:" + idText(task) + ":" + IsoDate(day)
      case RenewalOpenLead(opp, end) => text == "renewal.open_lead:" + idText(opp) + ":" + IsoDate(end)
      case ShortAssessment(version, end) => text == "renewal.short_assessment:" + idText(version) + ":" + IsoDate(end)
      case RenewalNudge(renewal, day) => text == "renewal.nudge:" + idText(renewal) + ":" + IsoDate(day)
      case NoticeTask(opp, notice) => text == "renewal.notice_task:" + idText(opp) + ":" + IsoDate(notice)
      case RenewalEscalation(renewal, level) => text == "renewal.escalation:" + idText(renewal) + (if level == 1 then ":L1" else ":L2")
      case RenewalChurn(renewal, end) => text == "renewal.churn:" + idText(renewal) + ":" + IsoDate(end)
      case PortfolioRenewal(engagement, end) => text == "portfolio.renewal:" + idText(engagement) + ":" + IsoDate(end)
      case PortfolioNightly(owner, day) => text == "portfolio.nightly:" + idText(owner) + ":" + IsoDate(day)
  {
    hide IsoDate, Plain;
    NamePlain(k);
    WindowShort(k);
    JoinThree(k.Name(), idText(k.Entity()), k.WindowText());
    PiecesJoin(k.Name(), idText(k.Entity()), k.WindowText());
  }

  lemma PiecesJoin(name: string, id: string, part: string)
    ensures name + ":" + (id + ":" + part) == (name + ":") + id + ":" + part
    ensures (name + ":") + id + (":" + part) == (name + ":") + id + ":" + part
  {
  }
}
