/** The portfolio scheduler: renewal items for engagements about to end, then one digest per owner a night. */
module PortfolioScheduler {
  import opened Text
  import opened Calendar
  import opened Ledger
  import opened RenewalModel
  import opened RenewalScheduler

  // ---- what one engagement and one owner do to the store -------------------------

  predicate EngagementDue(e: Engagement, today: int) {
    e.renews && 1 <= e.end && today <= e.end && AlertDate(e.end) <= today
  }

  function KnownUser(env: Env, owner: Option<nat>): Option<nat> {
    if owner.Some? && owner.value in env.users then owner else None
  }

  /** The owner's task and notification for an engagement with no opportunity behind it, ledgered. */
  function ReviewRow(env: Env, s: Store, e: Engagement): Store {
    var key := PortfolioRenewal(e.id, e.end);
    if key in s.ledger then s
    else Announce(s, key, KnownUser(env, e.owner)).(
           tasks := s.tasks + [EngagementReview(e.id, KnownUser(env, e.owner), e.end)])
  }

  /** An engagement sold as an opportunity that still exists opens its renewal; any other gets a review task. */
  function EngagementRow(env: Env, today: int, wall: int, s: Store, e: Engagement): Store {
    if !EngagementDue(e, today) then s
    else if e.opp.Some? && e.opp.value in s.owners then OpenRenewal(env, s, e.opp.value, e.end, wall)
    else ReviewRow(env, s, e)
  }

  function EngagementFold(env: Env, today: int, wall: int, s: Store, es: seq<Engagement>): Store
    decreases |es|
  {
    hide EngagementRow;
    if es == [] then s
    else EngagementRow(env, today, wall, EngagementFold(env, today, wall, s, es[..|es| - 1]), es[|es| - 1])
  }

  /** The running engagements of one owner, in listing order. */
  function GroupOf(es: seq<Engagement>, today: int, owner: nat): (group: seq<Engagement>)
    ensures forall e :: e in group <==> e in es && today <= e.end && e.owner == Some(owner)
    decreases |es|
  {
    if es == [] then []
    else
      var e := es[|es| - 1];
      var before := GroupOf(es[..|es| - 1], today, owner);
      assert es == es[..|es| - 1] + [e];
      if today <= e.end && e.owner == Some(owner) then before + [e] else before
  }

  /** The owners of running engagements, each once, in order of first appearance. */
  function OwnersIn(es: seq<Engagement>, today: int): (owners: seq<nat>)
    ensures forall o :: o in owners <==> exists e :: e in es && today <= e.end && e.owner == Some(o)
    ensures forall i, j :: 0 <= i < j < |owners| ==> owners[i] != owners[j]
    decreases |es|
  {
    if es == [] then []
    else
      var e := es[|es| - 1];
      var before := OwnersIn(es[..|es| - 1], today);
      assert es == es[..|es| - 1] + [e];
      if today <= e.end && e.owner.Some? && e.owner.value !in before then before + [e.owner.value] else before
  }

  /** What the forecasts say that night: which engagements are below the floor, which sets have roll-offs. */
  datatype Forecast = Forecast(belowFloor: Engagement -> bool, rollsOff: set<nat> -> bool)

  /** An owner's engagements call for a digest. */
  predicate Finding(forecast: Forecast, group: seq<Engagement>) {
    (exists e :: e in group && forecast.belowFloor(e)) || forecast.rollsOff(set e | e in group :: e.id)
  }

  function DigestRow(forecast: Forecast, es: seq<Engagement>, today: int, s: Store, owner: nat): Store {
    if Finding(forecast, GroupOf(es, today, owner)) then Announce(s, PortfolioNightly(owner, today), Some(owner)) else s
  }

  function DigestFold(forecast: Forecast, es: seq<Engagement>, today: int, s: Store, owners: seq<nat>): Store
    decreases |owners|
  {
    hide DigestRow;
    if owners == [] then s
    else DigestRow(forecast, es, today, DigestFold(forecast, es, today, s, owners[..|owners| - 1]), owners[|owners| - 1])
  }

  /** A query lists the stored engagements in some order. */
  ghost predicate Lists(listed: seq<Engagement>, s: Store) { multiset(listed) == multiset(s.engagements) }

  /** One tick: `byEnd` and `byName` are the engagements as its two queries list them. */
  function PortfolioTick(env: Env, forecast: Forecast, today: int, wall: int, byEnd: seq<Engagement>,
                         byName: seq<Engagement>, s: Store): Store
  {
    DigestFold(forecast, byName, today, EngagementFold(env, today, wall, s, byEnd), OwnersIn(byName, today))
  }

  // ---- folds grow by one row ----------------------------------------------------

  lemma EngagementFoldStep(env: Env, today: int, wall: int, s: Store, es: seq<Engagement>, i: nat)
    requires i < |es|
    ensures EngagementFold(env, today, wall, s, es[..i + 1])
         == EngagementRow(env, today, wall, EngagementFold(env, today, wall, s, es[..i]), es[i])
  {
    hide EngagementRow;
    assert es[..i + 1][..i] == es[..i];
  }

  lemma DigestFoldStep(forecast: Forecast, es: seq<Engagement>, today: int, s: Store, owners: seq<nat>, i: nat)
    requires i < |owners|
    ensures DigestFold(forecast, es, today, s, owners[..i + 1])
         == DigestRow(forecast, es, today, DigestFold(forecast, es, today, s, owners[..i]), owners[i])
  {
    hide DigestRow;
    assert owners[..i + 1][..i] == owners[..i];
  }

  // ---- what the counters count --------------------------------------------------

  function DueCount(es: seq<Engagement>, today: int): nat {
    if es == [] then 0 else DueCount(es[..|es| - 1], today) + if EngagementDue(es[|es| - 1], today) then 1 else 0
  }

  /** The running engagements without an owner. */
  function OwnerlessCount(es: seq<Engagement>, today: int): nat {
    if es == [] then 0
    else OwnerlessCount(es[..|es| - 1], today)
         + if today <= es[|es| - 1].end && es[|es| - 1].owner.None? then 1 else 0
  }

  /** The review tasks that have no known owner. */
  function OwnerlessReviews(tasks: seq<TaskRow>): nat {
    if tasks == [] then 0
    else OwnerlessReviews(tasks[..|tasks| - 1])
         + if tasks[|tasks| - 1].EngagementReview? && tasks[|tasks| - 1].owner.None? then 1 else 0
  }

  function SilentCount(forecast: Forecast, es: seq<Engagement>, today: int, owners: seq<nat>): nat
    decreases |owners|
  {
    if owners == [] then 0
    else SilentCount(forecast, es, today, owners[..|owners| - 1])
         + if Finding(forecast, GroupOf(es, today, owners[|owners| - 1])) then 0 else 1
  }

  lemma OneMoreDue(es: seq<Engagement>, today: int, i: nat)
    requires i < |es|
    ensures DueCount(es[..i + 1], today) == DueCount(es[..i], today) + if EngagementDue(es[i], today) then 1 else 0
  {
    assert es[..i + 1][..i] == es[..i];
  }

  lemma OneMoreTask(tasks: seq<TaskRow>, t: TaskRow)
    ensures OwnerlessReviews(tasks + [t]) == OwnerlessReviews(tasks) + if t.EngagementReview? && t.owner.None? then 1 else 0
  {
    assert (tasks + [t])[..|tasks|] == tasks;
  }

  lemma OneMoreOwner(forecast: Forecast, es: seq<Engagement>, today: int, owners: seq<nat>, i: nat)
    requires i < |owners|
    ensures SilentCount(forecast, es, today, owners[..i + 1])
         == SilentCount(forecast, es, today, owners[..i]) + if Finding(forecast, GroupOf(es, today, owners[i])) then 0 else 1
  {
    hide Finding, GroupOf;
    assert owners[..i + 1][..i] == owners[..i];
  }

  // ---- the report ---------------------------------------------------------------

  datatype Fired = OpenedFor(engagement: nat) | Keyed(key: Key)

  datatype Report = Report(openings: nat, reviews: nat, digests: nat, fired: seq<Fired>)

  class NightResult {
    var renewalsOpened: nat
    var renewalTasksCreated: nat
    var digestsQueued: nat
    var fired: seq<Fired>
    var skipped: nat
    var ownersWithoutFindings: nat
    var engagementsWithoutOwner: nat

    constructor ()
      ensures Counts() == Report(0, 0, 0, []) && Handled() == ownersWithoutFindings == engagementsWithoutOwner == 0
    {
      renewalsOpened, renewalTasksCreated, digestsQueued, fired := 0, 0, 0, [];
      skipped, ownersWithoutFindings, engagementsWithoutOwner := 0, 0, 0;
    }

    function Counts(): Report
      reads this
    {
      Report(renewalsOpened, renewalTasksCreated, digestsQueued, fired)
    }

    /** The engagements and owners dealt with so far, in whatever way. */
    function Handled(): nat
      reads this
    {
      renewalsOpened + renewalTasksCreated + digestsQueued + skipped + ownersWithoutFindings
    }
  }

  /** The row `id` is new since `base`, and it is that of the opportunity and end of engagement `x`. */
  ghost predicate NewRowFor(base: Store, s: Store, x: nat, id: nat) {
    && id in s.renewals && id !in base.renewals
    && exists e :: e in base.engagements && e.id == x && e.opp == Some(s.renewals[id].opp) && e.end == s.renewals[id].termEnd
  }

  /** Old rows and keys are there; the list names the engagement of each new row, and each new key. */
  ghost predicate ListsNews(base: Store, s: Store, fired: seq<Fired>) {
    && (forall id :: id in base.renewals ==> id in s.renewals && s.renewals[id] == base.renewals[id]) && base.ledger <= s.ledger
    && (forall key :: Keyed(key) in fired <==> key in s.ledger && key !in base.ledger)
    && (forall x :: OpenedFor(x) in fired ==> exists id :: NewRowFor(base, s, x, id))
    && forall id :: id in s.renewals && id !in base.renewals ==> exists x :: OpenedFor(x) in fired && NewRowFor(base, s, x, id)
  }

  /** The report accounts for the growth of the renewal, task and ledger tables since `base`, and lists what is new. */
  ghost predicate Accounts(base: Store, s: Store, t: Report) {
    && t.openings == |s.renewals| - |base.renewals|
    && t.openings + t.reviews == |s.tasks| - |base.tasks|
    && t.reviews + t.digests == |s.ledger| - |base.ledger|
    && |t.fired| == t.openings + t.reviews + t.digests
    && ListsNews(base, s, t.fired)
  }

  /** Opening one renewal, for engagement `e`. */
  lemma AccountsOpened(base: Store, s: Store, t: Report, s': Store, t': Report, id: nat, e: Engagement)
    requires Accounts(base, s, t) && e in base.engagements && id !in s.renewals && id in s'.renewals
    requires s'.renewals == s.renewals[id := s'.renewals[id]] && e.opp == Some(s'.renewals[id].opp) && e.end == s'.renewals[id].termEnd
    requires s'.ledger == s.ledger && |s'.tasks| == |s.tasks| + 1
    requires t'.openings == t.openings + 1 && t'.reviews == t.reviews && t'.digests == t.digests && t'.fired == t.fired + [OpenedFor(e.id)]
    ensures Accounts(base, s', t')
  {
    NewsOpened(base, s, t.fired, s', id, e);
  }

  lemma NewsOpened(base: Store, s: Store, fired: seq<Fired>, s': Store, id: nat, e: Engagement)
    requires ListsNews(base, s, fired) && e in base.engagements && id !in s.renewals && id in s'.renewals
    requires s'.renewals == s.renewals[id := s'.renewals[id]] && e.opp == Some(s'.renewals[id].opp) && e.end == s'.renewals[id].termEnd
    requires s'.ledger == s.ledger
    ensures ListsNews(base, s', fired + [OpenedFor(e.id)])
  {
    hide NewRowFor;
    var fired' := fired + [OpenedFor(e.id)];
    assert OpenedFor(e.id) in fired' && NewRowFor(base, s', e.id, id) by { RowIsNew(base, s', id, e); }
    assert forall f :: f in fired' <==> f in fired || f == OpenedFor(e.id);
    forall x, i | NewRowFor(base, s, x, i) ensures NewRowFor(base, s', x, i) { RowStillNew(base, s, s', x, i); }
    forall i | i in s'.renewals && i !in base.renewals ensures exists x :: OpenedFor(x) in fired' && NewRowFor(base, s', x, i) {
      if i in s.renewals {
        var x :| OpenedFor(x) in fired && NewRowFor(base, s, x, i);
        assert OpenedFor(x) in fired' && NewRowFor(base, s', x, i);
      }
    }
  }

  lemma RowIsNew(base: Store, s: Store, id: nat, e: Engagement)
    requires id in s.renewals && id !in base.renewals && e in base.engagements
    requires e.opp == Some(s.renewals[id].opp) && e.end == s.renewals[id].termEnd
    ensures NewRowFor(base, s, e.id, id)
  {
  }

  lemma RowStillNew(base: Store, s: Store, s': Store, x: nat, i: nat)
    requires NewRowFor(base, s, x, i) && forall j :: j in s.renewals ==> j in s'.renewals && s'.renewals[j] == s.renewals[j]
    ensures NewRowFor(base, s', x, i)
  {
  }

  lemma NewsKeyed(base: Store, s: Store, fired: seq<Fired>, s': Store, key: Key)
    requires ListsNews(base, s, fired) && key !in s.ledger && s'.ledger == s.ledger + {key} && s'.renewals == s.renewals
    ensures ListsNews(base, s', fired + [Keyed(key)])
  {
    hide NewRowFor;
    var fired' := fired + [Keyed(key)];
    assert forall f :: f in fired' <==> f in fired || f == Keyed(key);
    forall x | OpenedFor(x) in fired' ensures exists id :: NewRowFor(base, s', x, id) {
      var id :| NewRowFor(base, s, x, id);
      RowStillNew(base, s, s', x, id);
    }
    forall id | id in s'.renewals && id !in base.renewals ensures exists x :: OpenedFor(x) in fired' && NewRowFor(base, s', x, id) {
      var x :| OpenedFor(x) in fired && NewRowFor(base, s, x, id);
      RowStillNew(base, s, s', x, id);
    }
  }

  /** Recording one trigger, with or without its review task. */
  lemma AccountsKeyed(base: Store, s: Store, t: Report, s': Store, t': Report, key: Key)
    requires Accounts(base, s, t) && key !in s.ledger && s'.ledger == s.ledger + {key} && s'.renewals == s.renewals
    requires t'.openings == t.openings && t'.fired == t.fired + [Keyed(key)]
    requires t'.reviews + t'.digests == t.reviews + t.digests + 1 && t'.reviews - t.reviews == |s'.tasks| - |s.tasks|
    ensures Accounts(base, s', t')
  {
    hide ListsNews;
    NewsKeyed(base, s, t.fired, s', key);
  }

  // ---- the loops ----------------------------------------------------------------

  /** The store's half of a review: key, task and notification, or nothing. */
  method FileReview(store: RenewalStore, env: Env, e: Engagement) returns (recorded: bool)
    modifies store`ledger, store`tasks, store`outbox
    ensures store.State() == ReviewRow(env, old(store.State()), e)
    ensures recorded == (PortfolioRenewal(e.id, e.end) !in old(store.ledger))
  {
    hide FanOut, KnownUser, ReviewRow;
    ReviewRowIs(env, store.State(), e);
    var key := PortfolioRenewal(e.id, e.end);
    ghost var s := store.State();
    recorded := store.RecordTrigger(key);
    if !recorded {
      assert store.ledger == s.ledger;
      return;
    }
    var owner := KnownUser(env, e.owner);
    store.tasks := store.tasks + [EngagementReview(e.id, owner, e.end)];
    var _ := store.QueueNotification(owner, ForTrigger(key));
  }

  method ReviewFor(store: RenewalStore, env: Env, e: Engagement, result: NightResult, ghost base: Store)
    requires Accounts(base, store.State(), result.Counts())
    modifies store`ledger, store`tasks, store`outbox, result
    ensures store.State() == ReviewRow(env, old(store.State()), e)
    ensures Accounts(base, store.State(), result.Counts())
    ensures result.Handled() == old(result.Handled()) + 1 && result.ownersWithoutFindings == old(result.ownersWithoutFindings)
    ensures result.engagementsWithoutOwner - old(result.engagementsWithoutOwner)
         == OwnerlessReviews(store.tasks) - OwnerlessReviews(old(store.tasks))
  {
    hide FanOut, Accounts, KnownUser, ReviewRow, OwnerlessReviews;
    ghost var s, counts := store.State(), result.Counts();
    ReviewRowIs(env, s, e);
    OneMoreTask(s.tasks, EngagementReview(e.id, KnownUser(env, e.owner), e.end));
    var recorded := FileReview(store, env, e);
    ghost var s' := store.State();
    if !recorded {
      result.skipped := result.skipped + 1;
      return;
    }
    result.renewalTasksCreated := result.renewalTasksCreated + 1;
    result.fired := result.fired + [Keyed(PortfolioRenewal(e.id, e.end))];
    if KnownUser(env, e.owner).None? { result.engagementsWithoutOwner := result.engagementsWithoutOwner + 1; }
    AccountsKeyed(base, s, counts, s', result.Counts(), PortfolioRenewal(e.id, e.end));
  }

  lemma ReviewRowIs(env: Env, s: Store, e: Engagement)
    ensures var key, owner := PortfolioRenewal(e.id, e.end), KnownUser(env, e.owner);
      ReviewRow(env, s, e) == if key in s.ledger then s
        else s.(ledger := s.ledger + {key}, tasks := s.tasks + [EngagementReview(e.id, owner, e.end)],
                outbox := s.outbox + FanOut(owner, ForTrigger(key)))
  {
    hide FanOut;
  }

  lemma OpenRenewalSizes(env: Env, s: Store, opp: nat, termEnd: int, wall: int)
    requires GoodEnv(env) && s.renewals.Keys <= s.issued
    ensures var s' := OpenRenewal(env, s, opp, termEnd, wall);
      && s'.renewals.Keys <= s'.issued && s'.ledger == s.ledger
      && |s'.renewals| == |s.renewals| + (if Exists(s, opp, termEnd) then 0 else 1)
      && |s'.tasks| == |s.tasks| + (if Exists(s, opp, termEnd) then 0 else 1)
      && OwnerlessReviews(s'.tasks) == OwnerlessReviews(s.tasks)
      && (if Exists(s, opp, termEnd) then s' == s
          else && env.mint(s.issued) !in s.renewals
               && s'.renewals == s.renewals[env.mint(s.issued) := Renewal(opp, termEnd, Open, wall)])
  {
    hide Exists, FanOut, OwnerlessReviews, OwnerOf;
    OneMoreTask(s.tasks, RenewalReview(env.mint(s.issued), OwnerOf(s, opp), termEnd));
    assert env.mint(s.issued) !in s.renewals.Keys;
  }

  method RenewalFor(store: RenewalStore, env: Env, today: int, wall: int, e: Engagement, result: NightResult,
                    ghost base: Store)
    requires GoodEnv(env) && store.renewals.Keys <= store.issued && Accounts(base, store.State(), result.Counts())
    requires e in base.engagements
    modifies store`renewals, store`issued, store`ledger, store`tasks, store`outbox, result
    ensures store.State() == EngagementRow(env, today, wall, old(store.State()), e)
    ensures store.renewals.Keys <= store.issued && Accounts(base, store.State(), result.Counts())
    ensures result.Handled() == old(result.Handled()) + if EngagementDue(e, today) then 1 else 0
    ensures result.ownersWithoutFindings == old(result.ownersWithoutFindings)
    ensures result.engagementsWithoutOwner - old(result.engagementsWithoutOwner)
         == OwnerlessReviews(store.tasks) - OwnerlessReviews(old(store.tasks))
  {
    hide Exists, FanOut, OpenRenewal, ReviewRow, EngagementDue, GoodEnv, OwnerlessReviews, Accounts;
    if !EngagementDue(e, today) { return; }
    if e.opp.Some? && e.opp.value in store.owners {
      ghost var s, counts, id := store.State(), result.Counts(), env.mint(store.issued);
      OpenRenewalSizes(env, store.State(), e.opp.value, e.end, wall);
      var created := store.OpenOnce(env, e.opp.value, e.end, wall);
      if created {
        result.renewalsOpened := result.renewalsOpened + 1;
        result.fired := result.fired + [OpenedFor(e.id)];
        AccountsOpened(base, s, counts, store.State(), result.Counts(), id, e);
      } else {
        result.skipped := result.skipped + 1;
      }
      return;
    }
    ReviewFor(store, env, e, result, base);
  }

  method ProcessRenewals(store: RenewalStore, env: Env, today: int, wall: int, byEnd: seq<Engagement>,
                         result: NightResult, ghost base: Store)
    requires GoodEnv(env) && store.renewals.Keys <= store.issued && Accounts(base, store.State(), result.Counts())
    requires forall e :: e in byEnd ==> e in base.engagements
    modifies store`renewals, store`issued, store`ledger, store`tasks, store`outbox, result
    ensures store.State() == EngagementFold(env, today, wall, old(store.State()), byEnd)
    ensures store.renewals.Keys <= store.issued && Accounts(base, store.State(), result.Counts())
    ensures result.Handled() == old(result.Handled()) + DueCount(byEnd, today)
    ensures result.ownersWithoutFindings == old(result.ownersWithoutFindings)
    ensures result.engagementsWithoutOwner - old(result.engagementsWithoutOwner)
         == OwnerlessReviews(store.tasks) - OwnerlessReviews(old(store.tasks))
  {
    hide Accounts, EngagementRow, EngagementDue, OwnerlessReviews;
    ghost var s, handled, silent, without := store.State(), result.Handled(), result.ownersWithoutFindings, result.engagementsWithoutOwner;
    for i := 0 to |byEnd|
      invariant store.State() == EngagementFold(env, today, wall, s, byEnd[..i])
      invariant store.renewals.Keys <= store.issued && Accounts(base, store.State(), result.Counts())
      invariant result.Handled() == handled + DueCount(byEnd[..i], today) && result.ownersWithoutFindings == silent
      invariant result.engagementsWithoutOwner - without == OwnerlessReviews(store.tasks) - OwnerlessReviews(s.tasks)
    {
      OneMoreDue(byEnd, today, i);
      EngagementFoldStep(env, today, wall, s, byEnd, i);
      RenewalFor(store, env, today, wall, byEnd[i], result, base);
    }
    assert byEnd[..|byEnd|] == byEnd;
  }

  /** The dictionary after the engagements `es`: its keys in insertion order, each with its group. */
  ghost predicate Indexed(es: seq<Engagement>, today: int, order: seq<nat>, groups: map<nat, seq<Engagement>>) {
    && order == OwnersIn(es, today) && (forall o :: o in groups <==> o in order)
    && forall o :: o in groups ==> groups[o] == GroupOf(es, today, o)
  }

  lemma IndexedSkip(es: seq<Engagement>, e: Engagement, today: int, order: seq<nat>, groups: map<nat, seq<Engagement>>)
    requires Indexed(es, today, order, groups) && (e.end < today || e.owner.None?)
    ensures Indexed(es + [e], today, order, groups)
  {
    assert (es + [e])[..|es|] == es;
  }

  lemma OneMoreMember(es: seq<Engagement>, e: Engagement, today: int, o: nat)
    ensures GroupOf(es + [e], today, o)
         == if today <= e.end && e.owner == Some(o) then GroupOf(es, today, o) + [e] else GroupOf(es, today, o)
  {
    assert (es + [e])[..|es|] == es;
  }

  lemma OneMoreFirst(es: seq<Engagement>, e: Engagement, today: int)
    requires today <= e.end && e.owner.Some?
    ensures OwnersIn(es + [e], today)
         == if e.owner.value in OwnersIn(es, today) then OwnersIn(es, today) else OwnersIn(es, today) + [e.owner.value]
  {
    assert (es + [e])[..|es|] == es;
  }

  lemma IndexedAdd(es: seq<Engagement>, e: Engagement, today: int, order: seq<nat>, groups: map<nat, seq<Engagement>>)
    requires Indexed(es, today, order, groups) && today <= e.end && e.owner.Some?
    ensures var o := e.owner.value;
      Indexed(es + [e], today, if o in groups then order else order + [o],
              groups[o := (if o in groups then groups[o] else []) + [e]])
  {
    hide GroupOf, OwnersIn;
    OneMoreFirst(es, e, today);
    forall o: nat ensures GroupOf(es + [e], today, o)
         == if e.owner == Some(o) then GroupOf(es, today, o) + [e] else GroupOf(es, today, o)
    {
      OneMoreMember(es, e, today, o);
    }
    GroupHasOwner(es, today, e.owner.value);
  }

  /** The `by_owner` dictionary, with its insertion order. */
  method GroupByOwner(es: seq<Engagement>, today: int, result: NightResult)
    returns (order: seq<nat>, groups: map<nat, seq<Engagement>>)
    modifies result`engagementsWithoutOwner
    ensures order == OwnersIn(es, today) && forall o :: o in groups <==> o in order
    ensures forall o :: o in groups ==> groups[o] == GroupOf(es, today, o)
    ensures result.engagementsWithoutOwner == old(result.engagementsWithoutOwner) + OwnerlessCount(es, today)
  {
    hide GroupOf, OwnersIn;
    order, groups := [], map[];
    NothingIndexed(today);
    for i := 0 to |es|
      invariant Indexed(es[..i], today, order, groups)
      invariant result.engagementsWithoutOwner == old(result.engagementsWithoutOwner) + OwnerlessCount(es[..i], today)
    {
      hide Indexed;
      assert es[..i + 1][..i] == es[..i] && es[..i + 1] == es[..i] + [es[i]];
      var e := es[i];
      if e.end < today {
        IndexedSkip(es[..i], e, today, order, groups);
      } else if e.owner.None? {
        IndexedSkip(es[..i], e, today, order, groups);
        result.engagementsWithoutOwner := result.engagementsWithoutOwner + 1;
      } else {
        var o := e.owner.value;
        IndexedAdd(es[..i], e, today, order, groups);
        if o !in groups { order := order + [o]; }
        groups := groups[o := (if o in groups then groups[o] else []) + [e]];
      }
    }
    assert es[..|es|] == es;
  }

  lemma NothingIndexed(today: int)
    ensures Indexed([], today, [], map[])
  {
  }

  lemma GroupHasOwner(es: seq<Engagement>, today: int, owner: nat)
    ensures GroupOf(es, today, owner) != [] ==> owner in OwnersIn(es, today)
  {
    var group := GroupOf(es, today, owner);
    if group != [] { assert group[0] in group; }
  }

  method DigestFor(store: RenewalStore, today: int, owner: nat, found: bool, result: NightResult, ghost base: Store)
    requires Accounts(base, store.State(), result.Counts())
    modifies store`ledger, store`outbox, result
    ensures Accounts(base, store.State(), result.Counts())
    ensures store.State() == if found then Announce(old(store.State()), PortfolioNightly(owner, today), Some(owner))
                                      else old(store.State())
    ensures result.Handled() == old(result.Handled()) + 1
    ensures result.ownersWithoutFindings == old(result.ownersWithoutFindings) + if found then 0 else 1
    ensures result.engagementsWithoutOwner == old(result.engagementsWithoutOwner)
  {
    hide FanOut, Accounts, Announce;
    ghost var s, counts := store.State(), result.Counts();
    if !found {
      result.ownersWithoutFindings := result.ownersWithoutFindings + 1;
      return;
    }
    var key := PortfolioNightly(owner, today);
    var recorded := AnnounceOnce(store, key, owner);
    ghost var s' := store.State();
    if !recorded {
      result.skipped := result.skipped + 1;
      return;
    }
    result.digestsQueued := result.digestsQueued + 1;
    result.fired := result.fired + [Keyed(key)];
    AnnounceIs(s, key, Some(owner));
    AccountsKeyed(base, s, counts, s', result.Counts(), key);
  }

  /** Key and notification, or nothing. */
  method AnnounceOnce(store: RenewalStore, key: Key, user: nat) returns (recorded: bool)
    modifies store`ledger, store`outbox
    ensures store.State() == Announce(old(store.State()), key, Some(user)) && recorded == (key !in old(store.ledger))
    ensures !recorded ==> store.State() == old(store.State())
  {
    hide FanOut;
    ghost var s := store.State();
    recorded := store.RecordTrigger(key);
    if !recorded {
      assert store.ledger == s.ledger;
      return;
    }
    var _ := store.QueueNotification(Some(user), ForTrigger(key));
  }

  lemma AnnounceIs(s: Store, key: Key, user: Option<nat>)
    requires key !in s.ledger
    ensures Announce(s, key, user) == s.(ledger := s.ledger + {key}, outbox := s.outbox + FanOut(user, ForTrigger(key)))
  {
  }

  method ProcessNightlyDigest(store: RenewalStore, forecast: Forecast, today: int, byName: seq<Engagement>,
                              result: NightResult, ghost base: Store)
    requires Accounts(base, store.State(), result.Counts())
    modifies store`ledger, store`outbox, result
    ensures store.State() == DigestFold(forecast, byName, today, old(store.State()), OwnersIn(byName, today))
    ensures Accounts(base, store.State(), result.Counts())
    ensures result.Handled() == old(result.Handled()) + |OwnersIn(byName, today)|
    ensures result.ownersWithoutFindings
         == old(result.ownersWithoutFindings) + SilentCount(forecast, byName, today, OwnersIn(byName, today))
    ensures result.engagementsWithoutOwner == old(result.engagementsWithoutOwner) + OwnerlessCount(byName, today)
  {
    hide Accounts, Announce, OwnersIn, GroupOf, Finding, OwnerlessCount;
    ghost var s, handled, silent := store.State(), result.Handled(), result.ownersWithoutFindings;
    ghost var without := result.engagementsWithoutOwner + OwnerlessCount(byName, today);
    var owners, groups := GroupByOwner(byName, today, result);
    for i := 0 to |owners|
      invariant store.State() == DigestFold(forecast, byName, today, s, owners[..i])
      invariant Accounts(base, store.State(), result.Counts()) && result.engagementsWithoutOwner == without
      invariant result.Handled() == handled + i
      invariant result.ownersWithoutFindings == silent + SilentCount(forecast, byName, today, owners[..i])
    {
      OneMoreOwner(forecast, byName, today, owners, i);
      DigestFoldStep(forecast, byName, today, s, owners, i);
      DigestFor(store, today, owners[i], Finding(forecast, groups[owners[i]]), result, base);
    }
    assert owners[..|owners|] == owners;
  }

  lemma NothingNew(s: Store)
    ensures Accounts(s, s, Report(0, 0, 0, []))
  {
  }

  lemma ListedAreStored(listed: seq<Engagement>, s: Store)
    requires Lists(listed, s)
    ensures forall e :: e in listed ==> e in s.engagements
  {
    forall e | e in listed ensures e in s.engagements {
      assert e in multiset(listed);
      assert e in multiset(s.engagements);
    }
  }

  /** One transaction: committed, or rolled back when anything raised. */
  method RunTick(store: RenewalStore, env: Env, forecast: Forecast, today: int, wall: int, byEnd: seq<Engagement>,
                 byName: seq<Engagement>, raised: bool) returns (result: NightResult)
    requires GoodEnv(env) && store.renewals.Keys <= store.issued
    requires Lists(byEnd, store.State()) && Lists(byName, store.State())
    modifies store`renewals, store`issued, store`ledger, store`tasks, store`outbox
    ensures fresh(result)
    ensures raised ==> store.State() == old(store.State())
    ensures !raised ==> store.State() == PortfolioTick(env, forecast, today, wall, byEnd, byName, old(store.State()))
    ensures !raised ==> Accounts(old(store.State()), store.State(), result.Counts())
    ensures !raised ==> result.Handled() == DueCount(byEnd, today) + |OwnersIn(byName, today)|
    ensures !raised ==> result.ownersWithoutFindings == SilentCount(forecast, byName, today, OwnersIn(byName, today))
    ensures !raised ==>
      result.engagementsWithoutOwner == OwnerlessReviews(store.tasks) - OwnerlessReviews(old(store.tasks)) + OwnerlessCount(byName, today)
  {
    hide EngagementFold, DigestFold, OwnersIn, Lists, DueCount, OwnerlessCount, OwnerlessReviews, SilentCount, Accounts;
    ghost var s := store.State();
    var saved := (store.renewals, store.issued, store.ledger, store.tasks, store.outbox);
    result := new NightResult();
    NothingNew(s);
    ListedAreStored(byEnd, s);
    ProcessRenewals(store, env, today, wall, byEnd, result, s);
    ProcessNightlyDigest(store, forecast, today, byName, result, s);
    if raised {
      store.renewals, store.issued, store.ledger, store.tasks, store.outbox := saved.0, saved.1, saved.2, saved.3, saved.4;
    }
  }
}
