/** Orders placed by an agent (internal/agentapi/service.go): drafts, the daily limit and the order behind a
    draft, with any number of requests in flight. */
module Drafts {
  // One event is one store call, one clock reading, or taking or giving back the grant's lock. The
  // keyed lock is used here as a mutex per grant; module GrantLocks shows that it is one. Draft ids are
  // fresh, so a draft is known by its place in the sequence of all drafts, and a grant by its place
  // among the grants.

  import opened Outcomes
  import opened Sequences

  const DAY: int := 86_400_000_000_000
  const DRAFT_TTL: int := 900_000_000_000

  type Thread = nat

  datatype Grant = Grant(perOrder: int, daily: int, test: bool, active: bool, expires: Option<int>)

  datatype Status = Open | AwaitingUser | Placed | Rejected | Expired

  datatype OrderRef = NoOrder | TestOrder | LiveOrder

  /** History: the day whose limit was checked, and the total the agent named. */
  datatype Check = Check(day: int, expected: int)

  datatype Draft = Draft(
    grant: nat, total: int, created: int, expires: int,
    status: Status, order: OrderRef, decided: Option<int>,
    check: Option<Check>)   // history: None unless the agent's own confirmation placed it

  datatype Order = Order(
    draft: nat, total: int, cancelled: bool,
    stuck: bool,              // history: it was to be cancelled and that failed
    agent: Option<int>)       // history: when the agent's own confirmation made it

  datatype Kind = ByAgent(expected: int) | ByUser

  datatype Job =
    | Drafting(g: nat, total: int, at: int)
    | Inserting(draft: Draft)
    | Waiting(g: nat, d: nat, kind: Kind)
    | Locked(g: nat, d: nat, kind: Kind)
    | HasRead(g: nat, d: nat, kind: Kind, copy: Draft)
    | Checking(g: nat, d: nat, copy: Draft, now: int, expected: int)
    | Placing(g: nat, d: nat, copy: Draft, check: Option<Check>)
    | Saving(g: nat, d: nat, copy: Draft, changed: Draft)
    | Leaving(g: nat)
    | Rejecting(d: nat, copy: Draft)

  datatype State = State(
    now: int,
    grants: seq<Grant>,
    drafts: seq<Draft>,
    orders: seq<Order>,
    holder: map<nat, Thread>,
    jobs: map<Thread, Job>)

  datatype Event =
    | Tick(now: int)
    | Revoke(g: nat)
    | StartDraft(t: Thread, g: nat, total: int)
    | PreCheck(t: Thread)
    | Insert(t: Thread)
    | StartConfirm(t: Thread, g: nat, d: nat, expected: int)
    | StartApprove(t: Thread, d: nat)
    | Acquire(t: Thread)
    | Read(t: Thread)
    | Decide(t: Thread)
    | CheckLimit(t: Thread)
    | Place(t: Thread, priced: Option<int>, cancels: bool)   // what the order service computes, or an error; whether it can cancel
    | Save(t: Thread, ok: bool)
    | Release(t: Thread)
    | GiveUp(t: Thread)       // a store call that is neither Place nor Save fails
    | CancelOrder(i: nat)
    | RejectRead(t: Thread, d: nat)
    | RejectWrite(t: Thread)

  // ----- What the drafts say -----

  function StartOfDay(t: int): int { t - t % DAY }

  /** SpentSince: placed drafts of the grant, by the time they were CREATED. */
  function SpentBy(g: nat, since: int): Draft -> int {
    (d: Draft) => if d.grant == g && d.status == Placed && d.created >= since then d.total else 0
  }

  /** Placed by the agent on its own, against the limit of `day`. */
  predicate ByAgentOn(d: Draft, g: nat, day: int) {
    d.grant == g && d.status == Placed && d.check.Some? && d.check.value.day == day
  }

  function SameDay(g: nat, day: int): Draft -> int {
    (d: Draft) => if ByAgentOn(d, g, day) && d.created >= day then d.total else 0
  }

  predicate ExceedsDaily(s: State, g: nat, total: int, now: int)
    requires g < |s.grants|
  {
    s.grants[g].daily > 0 && Total(s.drafts, SpentBy(g, StartOfDay(now))) + total > s.grants[g].daily
  }

  // ----- Steps -----

  predicate Usable(g: Grant, now: int) {
    g.active && (g.expires.Some? ==> now < g.expires.value)
  }

  predicate InLock(j: Job) {
    j.Locked? || j.HasRead? || j.Checking? || j.Placing? || j.Saving? || j.Leaving?
  }

  predicate Enabled(s: State, e: Event) {
    match e
    case Tick(now) => s.now <= now
    case Revoke(g) => g < |s.grants|
    case StartDraft(t, g, total) => t !in s.jobs && g < |s.grants| && 0 <= total
    case PreCheck(t) => t in s.jobs && s.jobs[t].Drafting? && s.jobs[t].g < |s.grants|
    case Insert(t) => t in s.jobs && s.jobs[t].Inserting?
    case StartConfirm(t, g, d, _) => t !in s.jobs && g < |s.grants| && d < |s.drafts|
    case StartApprove(t, d) => t !in s.jobs && d < |s.drafts|
    case Acquire(t) => t in s.jobs && s.jobs[t].Waiting? && s.jobs[t].g !in s.holder
    case Read(t) => t in s.jobs && s.jobs[t].Locked? && s.jobs[t].d < |s.drafts|
    case Decide(t) => t in s.jobs && s.jobs[t].HasRead? && s.jobs[t].g < |s.grants|
    case CheckLimit(t) => t in s.jobs && s.jobs[t].Checking? && s.jobs[t].g < |s.grants|
    case Place(t, _, _) => t in s.jobs && s.jobs[t].Placing? && s.jobs[t].g < |s.grants|
    case Save(t, _) => t in s.jobs && s.jobs[t].Saving? && s.jobs[t].d < |s.drafts|
    case Release(t) => t in s.jobs && s.jobs[t].Leaving?
    case GiveUp(t) => t in s.jobs && !s.jobs[t].Placing? && !s.jobs[t].Saving? && !s.jobs[t].Leaving?
    case CancelOrder(i) => i < |s.orders|
    case RejectRead(t, d) => t !in s.jobs && d < |s.drafts|
    case RejectWrite(t) => t in s.jobs && s.jobs[t].Rejecting? && s.jobs[t].d < |s.drafts|
  }

  function To(s: State, t: Thread, j: Job): State {
    s.(jobs := s.jobs[t := j])
  }

  function Apply(s: State, e: Event): State
    requires Enabled(s, e)
  {
    match e
    case Tick(now) => s.(now := now)
    case Revoke(g) => s.(grants := s.grants[g := s.grants[g].(active := false)])
    case StartDraft(t, g, total) => To(s, t, Drafting(g, total, s.now))
    case PreCheck(t) => DoPreCheck(s, t)
    case Insert(t) => s.(drafts := s.drafts + [s.jobs[t].draft], jobs := s.jobs - {t})
    case StartConfirm(t, g, d, expected) => To(s, t, Waiting(g, d, ByAgent(expected)))
    case StartApprove(t, d) => To(s, t, Waiting(s.drafts[d].grant, d, ByUser))
    case Acquire(t) =>
      var j := s.jobs[t];
      To(s, t, Locked(j.g, j.d, j.kind)).(holder := s.holder[j.g := t])
    case Read(t) =>
      var j := s.jobs[t];
      To(s, t, HasRead(j.g, j.d, j.kind, s.drafts[j.d]))
    case Decide(t) => To(s, t, Decision(s, s.jobs[t]))
    case CheckLimit(t) =>
      var j := s.jobs[t];
      To(s, t, if ExceedsDaily(s, j.g, j.copy.total, j.now)
               then Saving(j.g, j.d, j.copy, j.copy.(status := AwaitingUser))
               else Placing(j.g, j.d, j.copy, Some(Check(StartOfDay(j.now), j.expected))))
    case Place(t, priced, cancels) => DoPlace(s, t, priced, cancels)
    case Save(t, ok) =>
      var j := s.jobs[t];
      To(s, t, Leaving(j.g)).(drafts := if ok then s.drafts[j.d := j.changed] else s.drafts)
    case Release(t) => s.(holder := s.holder - {s.jobs[t].g}, jobs := s.jobs - {t})
    case GiveUp(t) => if InLock(s.jobs[t]) then To(s, t, Leaving(s.jobs[t].g)) else s.(jobs := s.jobs - {t})
    case CancelOrder(i) => s.(orders := s.orders[i := s.orders[i].(cancelled := true)])
    case RejectRead(t, d) =>
      if s.drafts[d].status == AwaitingUser || s.drafts[d].status == Open
      then To(s, t, Rejecting(d, s.drafts[d])) else s
    case RejectWrite(t) =>
      var j := s.jobs[t];
      s.(drafts := s.drafts[j.d := j.copy.(status := Rejected, decided := Some(s.now))], jobs := s.jobs - {t})
  }

  /** CreateDraft after pricing: without a limit per order, above it, or above the rest of the daily
      limit, the user has to agree. */
  function DoPreCheck(s: State, t: Thread): State
    requires Enabled(s, PreCheck(t))
  {
    var j := s.jobs[t];
    var g := s.grants[j.g];
    var asks := g.perOrder <= 0 || j.total > g.perOrder || ExceedsDaily(s, j.g, j.total, j.at);
    To(s, t, Inserting(Draft(j.g, j.total, j.at, j.at + DRAFT_TTL, if asks then AwaitingUser else Open, NoOrder, None, None)))
  }

  /** The branches of ConfirmDraft and UserApproveDraft between reading the draft and acting on it. */
  function Decision(s: State, j: Job): Job
    requires j.HasRead? && j.g < |s.grants|
  {
    var d := j.copy;
    var expired := Saving(j.g, j.d, d, d.(status := Expired, decided := Some(s.now)));
    match j.kind
    case ByAgent(expected) =>
      if d.grant != j.g || d.status != Open then Leaving(j.g)
      else if s.now >= d.expires then expired
      else if expected != d.total then Leaving(j.g)
      else Checking(j.g, j.d, d, s.now, expected)
    case ByUser =>
      if d.grant != j.g || d.status != AwaitingUser then Leaving(j.g)
      else if s.now >= d.expires then expired
      else if !Usable(s.grants[j.g], s.now) then Leaving(j.g)
      else Placing(j.g, j.d, d, None)
  }

  /** The order with this draft's idempotency key, if there is one. */
  function FindOrder(orders: seq<Order>, d: nat): (r: Option<nat>)
    ensures r.Some? ==> r.value < |orders| && orders[r.value].draft == d
    ensures r.None? ==> forall i :: 0 <= i < |orders| ==> orders[i].draft != d
  {
    if orders == [] then None
    else if orders[|orders| - 1].draft == d then Some(|orders| - 1)
    else FindOrder(orders[..|orders| - 1], d)
  }

  /** Creating twice with one key gives the first order back, whatever the price is by then. */
  function CreateOrder(orders: seq<Order>, d: nat, priced: int, agent: Option<int>): (seq<Order>, nat) {
    match FindOrder(orders, d)
    case Some(i) => (orders, i)
    case None => (orders + [Order(d, priced, false, false, agent)], |orders|)
  }

  lemma CreateOrderIndex(orders: seq<Order>, d: nat, priced: int, agent: Option<int>)
    ensures var (os, i) := CreateOrder(orders, d, priced, agent); i < |os| && os[i].draft == d
  {
  }

  /** When the agent makes the order; None if the user does. */
  function MadeBy(check: Option<Check>, now: int): Option<int> { if check.Some? then Some(now) else None }

  function Refused(o: Order, cancels: bool): Order {
    if cancels then o.(cancelled := true) else o.(stuck := true)
  }

  /** place together with placeAgentOrder: an order whose total is not the draft's is cancelled, if that
      works, and the draft stays as it was. */
  function DoPlace(s: State, t: Thread, priced: Option<int>, cancels: bool): State
    requires Enabled(s, Place(t, priced, cancels))
  {
    var j := s.jobs[t];
    var placed := j.copy.(status := Placed, decided := Some(s.now), check := j.check);
    if s.grants[j.g].test then To(s, t, Saving(j.g, j.d, j.copy, placed.(order := TestOrder)))
    else if priced.None? then To(s, t, Leaving(j.g))
    else
      CreateOrderIndex(s.orders, j.d, priced.value, MadeBy(j.check, s.now));
      var (orders, i) := CreateOrder(s.orders, j.d, priced.value, MadeBy(j.check, s.now));
      if orders[i].total != j.copy.total
      then To(s, t, Leaving(j.g)).(orders := orders[i := Refused(orders[i], cancels)])
      else To(s, t, Saving(j.g, j.d, j.copy, placed.(order := LiveOrder))).(orders := orders)
  }

  // ----- Runs -----

  ghost predicate IsInit(s: State) {
    s.drafts == [] && s.orders == [] && s.holder == map[] && s.jobs == map[]
  }

  ghost predicate ValidRun(s: State, es: seq<Event>)
    decreases |es|
  {
    es == [] || (Enabled(s, es[0]) && ValidRun(Apply(s, es[0]), es[1..]))
  }

  ghost function Exec(s: State, es: seq<Event>): State
    requires ValidRun(s, es)
    decreases |es|
  {
    if es == [] then s else Exec(Apply(s, es[0]), es[1..])
  }

  ghost predicate Reachable(s: State) {
    exists s0, es :: IsInit(s0) && ValidRun(s0, es) && s == Exec(s0, es)
  }

  // ----- What every step keeps -----

  /** Requests past the lock hold it. */
  ghost predicate InLockHolds(s: State) {
    forall t :: t in s.jobs && InLock(s.jobs[t]) ==> s.jobs[t].g in s.holder && s.holder[s.jobs[t].g] == t
  }

  ghost predicate HolderInLock(s: State) {
    forall g :: g in s.holder ==> s.holder[g] in s.jobs && InLock(s.jobs[s.holder[g]]) && s.jobs[s.holder[g]].g == g
  }

  ghost predicate LocksOk(s: State) {
    InLockHolds(s) && HolderInLock(s)
  }

  predicate WithinOrder(s: State, d: Draft) {
    d.grant < |s.grants| && 0 < s.grants[d.grant].perOrder && d.total <= s.grants[d.grant].perOrder
  }

  predicate HasOrder(orders: seq<Order>, i: nat, total: int) {
    exists k :: 0 <= k < |orders| && orders[k].draft == i && orders[k].total == total
  }

  predicate DraftOk(s: State, i: nat, d: Draft) {
    && d.grant < |s.grants| && 0 <= d.total
    && (d.status == Open ==> WithinOrder(s, d) && d.check == None)
    && (d.status == AwaitingUser ==> d.check == None)
    && (d.check.Some? ==> WithinOrder(s, d) && d.check.value.expected == d.total)
    && (d.status == Placed && d.order == LiveOrder ==> HasOrder(s.orders, i, d.total))
  }

  ghost predicate DraftsOk(s: State) {
    forall i :: 0 <= i < |s.drafts| ==> DraftOk(s, i, s.drafts[i])
  }

  /** The parts of a draft that no update touches. */
  predicate SameOffer(a: Draft, b: Draft) {
    a.grant == b.grant && a.total == b.total && a.created == b.created && a.expires == b.expires
  }

  /** A copy that a request read under the lock of the draft's grant is the draft as it is now, unless the
      draft has been rejected. */
  predicate CopyOk(s: State, g: nat, d: nat, copy: Draft) {
    && d < |s.drafts| && SameOffer(copy, s.drafts[d]) && DraftOk(s, d, copy)
    && (copy.grant == g ==> copy == s.drafts[d] || s.drafts[d].status == Rejected)
  }

  predicate RoomFor(s: State, g: nat, day: int, total: int)
    requires g < |s.grants|
  {
    s.grants[g].daily > 0 ==> Total(s.drafts, SpentBy(g, day)) + total <= s.grants[g].daily
  }

  ghost predicate JobOk(s: State, j: Job) {
    match j
    case Drafting(g, total, _) => g < |s.grants| && 0 <= total
    case Inserting(d) => d.status != Placed && d.order == NoOrder && DraftOk(s, |s.drafts|, d)
    case Waiting(g, d, _) => g < |s.grants| && d < |s.drafts|
    case Locked(g, d, _) => g < |s.grants| && d < |s.drafts|
    case HasRead(g, d, _, copy) => g < |s.grants| && CopyOk(s, g, d, copy)
    case Checking(g, d, copy, _, expected) =>
      g < |s.grants| && CopyOk(s, g, d, copy) && copy.grant == g && copy.status == Open && expected == copy.total
    case Placing(g, d, copy, check) =>
      && g < |s.grants| && CopyOk(s, g, d, copy) && copy.grant == g
      && (copy.status == Open || copy.status == AwaitingUser)
      && (check.Some? ==> copy.status == Open && check.value.expected == copy.total && RoomFor(s, g, check.value.day, copy.total))
    case Saving(g, d, copy, changed) =>
      && g < |s.grants| && CopyOk(s, g, d, copy) && copy.grant == g
      && (copy.status == Open || copy.status == AwaitingUser)
      && SameOffer(copy, changed) && DraftOk(s, d, changed) && changed.status != Open && changed.status != Rejected
      && (changed.status == Placed && changed.check.Some? ==> RoomFor(s, g, changed.check.value.day, changed.total))
    case Leaving(_) => true
    case Rejecting(d, copy) =>
      d < |s.drafts| && SameOffer(copy, s.drafts[d]) && DraftOk(s, d, copy) && copy.check == None
      && (copy.status == Open || copy.status == AwaitingUser)
  }

  ghost predicate JobsOk(s: State) {
    forall t :: t in s.jobs ==> JobOk(s, s.jobs[t])
  }

  /** The agent's own placements of drafts made the same day never exceed the limit of the day. */
  ghost predicate Capped(s: State) {
    forall g, day :: 0 <= g < |s.grants| && s.grants[g].daily > 0 ==> Total(s.drafts, SameDay(g, day)) <= s.grants[g].daily
  }

  /** One order per draft. */
  ghost predicate OrdersOk(s: State) {
    forall i, k :: 0 <= i < k < |s.orders| ==> s.orders[i].draft != s.orders[k].draft
  }

  /** An order of another total than its draft's is cancelled, unless cancelling failed. */
  ghost predicate Compensated(s: State) {
    forall k :: 0 <= k < |s.orders| ==>
      var o := s.orders[k];
      o.draft < |s.drafts| && (o.total != s.drafts[o.draft].total ==> o.cancelled || o.stuck)
  }

  ghost predicate Inv(s: State) {
    LocksOk(s) && DraftsOk(s) && JobsOk(s) && Capped(s) && OrdersOk(s) && Compensated(s)
  }

  // ----- Locks -----

  lemma KeepsLocks(s: State, e: Event)
    requires Enabled(s, e) && LocksOk(s)
    ensures LocksOk(Apply(s, e))
  {
    KeepsInLockHolds(s, e);
    KeepsHolderInLock(s, e);
  }

  lemma KeepsInLockHolds(s: State, e: Event)
    requires Enabled(s, e) && LocksOk(s)
    ensures InLockHolds(Apply(s, e))
  {
  }

  lemma KeepsHolderInLock(s: State, e: Event)
    requires Enabled(s, e) && LocksOk(s)
    ensures HolderInLock(Apply(s, e))
  {
  }

  lemma KeepsOrders(s: State, e: Event)
    requires Enabled(s, e) && OrdersOk(s)
    ensures OrdersOk(Apply(s, e))
  {
  }

  // ----- What a step may change -----

  /** Limits never change, and an order keeps its draft and its total. */
  ghost predicate Later(s: State, s': State) {
    && |s.grants| == |s'.grants|
    && (forall g :: 0 <= g < |s.grants| ==>
          s'.grants[g].perOrder == s.grants[g].perOrder && s'.grants[g].daily == s.grants[g].daily
          && s'.grants[g].test == s.grants[g].test)
    && |s.orders| <= |s'.orders|
    && (forall k :: 0 <= k < |s.orders| ==>
          s'.orders[k].draft == s.orders[k].draft && s'.orders[k].total == s.orders[k].total
          && s'.orders[k].agent == s.orders[k].agent)
  }

  lemma StepIsLater(s: State, e: Event)
    requires Enabled(s, e)
    ensures Later(s, Apply(s, e))
  {
  }

  lemma DraftOkLasts(s: State, s': State, i: nat, d: Draft)
    requires Later(s, s') && DraftOk(s, i, d)
    ensures DraftOk(s', i, d)
  {
    if d.status == Placed && d.order == LiveOrder {
      var k :| 0 <= k < |s.orders| && s.orders[k].draft == i && s.orders[k].total == d.total;
      assert s'.orders[k].draft == i && s'.orders[k].total == d.total;
    }
  }

  /** The draft an event writes over, and what it writes. */
  function Written(s: State, e: Event): Option<(nat, Draft)>
    requires Enabled(s, e)
  {
    match e
    case Save(t, ok) => if ok then Some((s.jobs[t].d, s.jobs[t].changed)) else None
    case RejectWrite(t) => Some((s.jobs[t].d, s.jobs[t].copy.(status := Rejected, decided := Some(s.now))))
    case _ => None
  }

  /** An event adds one draft, writes over one, or leaves them all alone. */
  lemma DraftsAfter(s: State, e: Event)
    requires Enabled(s, e)
    ensures Apply(s, e).drafts ==
            if e.Insert? then s.drafts + [s.jobs[e.t].draft]
            else match Written(s, e) case Some((i, d)) => s.drafts[i := d] case None => s.drafts
  {
  }

  /** What is written has the same offer and is itself in order. */
  lemma WrittenOk(s: State, e: Event)
    requires Enabled(s, e) && JobsOk(s) && Written(s, e).Some?
    ensures var (i, d) := Written(s, e).value; SameOffer(d, s.drafts[i]) && DraftOk(s, i, d) && d.status != Open
  {
  }

  lemma KeepsDrafts(s: State, e: Event)
    requires Enabled(s, e) && DraftsOk(s) && JobsOk(s)
    ensures DraftsOk(Apply(s, e))
  {
    var s' := Apply(s, e);
    StepIsLater(s, e);
    DraftsAfter(s, e);
    forall i | 0 <= i < |s'.drafts| ensures DraftOk(s', i, s'.drafts[i]) {
      if Written(s, e).Some? {
        WrittenOk(s, e);
      }
      if e.Insert? && i == |s.drafts| {
        assert JobOk(s, s.jobs[e.t]);
      }
      DraftOkLasts(s, s', i, s'.drafts[i]);
    }
  }

  // ----- The money spent -----

  /** The event makes a draft of grant g placed. */
  predicate PlacesFor(s: State, e: Event, g: nat)
    requires Enabled(s, e)
  {
    e.Save? && e.ok && s.jobs[e.t].changed.status == Placed && s.jobs[e.t].g == g
  }

  lemma SpentOnlyGrowsByPlacing(s: State, e: Event, g: nat, day: int)
    requires Enabled(s, e) && DraftsOk(s) && JobsOk(s) && !PlacesFor(s, e, g)
    ensures Total(Apply(s, e).drafts, SpentBy(g, day)) <= Total(s.drafts, SpentBy(g, day))
  {
    DraftsAfter(s, e);
    var w := SpentBy(g, day);
    if e.Insert? {
      assert JobOk(s, s.jobs[e.t]);
      TotalAppend(s.drafts, s.jobs[e.t].draft, w);
    } else if Written(s, e).Some? {
      var (i, d) := Written(s, e).value;
      WrittenOk(s, e);
      assert JobOk(s, s.jobs[e.t]);
      assert DraftOk(s, i, s.drafts[i]);
      TotalUpdate(s.drafts, i, d, w);
    }
  }

  // ----- Requests in flight -----

  /** Holding a grant's lock is exclusive. */
  lemma OneHolder(s: State, t: Thread, u: Thread)
    requires LocksOk(s) && t in s.jobs && u in s.jobs && InLock(s.jobs[t]) && InLock(s.jobs[u])
    requires s.jobs[t].g == s.jobs[u].g
    ensures t == u
  {
  }

  lemma CopyLasts(s: State, e: Event, t: Thread, d: nat, copy: Draft)
    requires Enabled(s, e) && LocksOk(s) && JobsOk(s) && t in s.jobs && InLock(s.jobs[t]) && !(e.Save? && e.t == t)
    requires CopyOk(s, s.jobs[t].g, d, copy)
    ensures CopyOk(Apply(s, e), s.jobs[t].g, d, copy)
  {
    var s' := Apply(s, e);
    var g := s.jobs[t].g;
    StepIsLater(s, e);
    DraftsAfter(s, e);
    DraftOkLasts(s, s', d, copy);
    if Written(s, e).Some? {
      WrittenOk(s, e);
      assert JobOk(s, s.jobs[e.t]);
      if e.Save? && s.jobs[e.t].g == g {
        OneHolder(s, t, e.t);
      }
    }
  }

  lemma RoomLasts(s: State, e: Event, t: Thread, day: int, total: int)
    requires Enabled(s, e) && LocksOk(s) && DraftsOk(s) && JobsOk(s) && t in s.jobs && InLock(s.jobs[t]) && !(e.Save? && e.t == t)
    requires s.jobs[t].g < |s.grants| && RoomFor(s, s.jobs[t].g, day, total)
    ensures s.jobs[t].g < |Apply(s, e).grants| && RoomFor(Apply(s, e), s.jobs[t].g, day, total)
  {
    var g := s.jobs[t].g;
    StepIsLater(s, e);
    if PlacesFor(s, e, g) {
      OneHolder(s, t, e.t);
    }
    SpentOnlyGrowsByPlacing(s, e, g, day);
  }

  /** A request that an event does not move stays in order. */
  lemma BystanderOk(s: State, e: Event, t: Thread)
    requires Enabled(s, e) && LocksOk(s) && DraftsOk(s) && JobsOk(s) && t in s.jobs
    requires !(e.Save? && e.t == t)
    ensures JobOk(Apply(s, e), s.jobs[t])
  {
    var s' := Apply(s, e);
    StepIsLater(s, e);
    DraftsAfter(s, e);
    assert JobOk(s, s.jobs[t]);
    match s.jobs[t]
    case Drafting(g, total, at) =>
    case Inserting(draft) =>
      DraftOkLasts(s, s', |s.drafts|, draft);
    case Waiting(g, d, kind) =>
    case Locked(g, d, kind) =>
    case HasRead(g, d, kind, copy) =>
      CopyLasts(s, e, t, d, copy);
    case Checking(g, d, copy, now, expected) =>
      CopyLasts(s, e, t, d, copy);
    case Placing(g, d, copy, check) =>
      CopyLasts(s, e, t, d, copy);
      if check.Some? {
        RoomLasts(s, e, t, check.value.day, copy.total);
      }
    case Saving(g, d, copy, changed) =>
      SavingLasts(s, e, t);
    case Leaving(g) =>
    case Rejecting(d, copy) =>
      DraftOkLasts(s, s', d, copy);
      if Written(s, e).Some? {
        WrittenOk(s, e);
      }
  }

  lemma SavingLasts(s: State, e: Event, t: Thread)
    requires Enabled(s, e) && LocksOk(s) && DraftsOk(s) && JobsOk(s) && t in s.jobs && s.jobs[t].Saving?
    requires !(e.Save? && e.t == t)
    ensures JobOk(Apply(s, e), s.jobs[t])
  {
    var j := s.jobs[t];
    assert JobOk(s, j);
    StepIsLater(s, e);
    CopyLasts(s, e, t, j.d, j.copy);
    DraftOkLasts(s, Apply(s, e), j.d, j.changed);
    if j.changed.status == Placed && j.changed.check.Some? {
      RoomLasts(s, e, t, j.changed.check.value.day, j.changed.total);
    }
  }

  /** The request an event moves, if it moves one. */
  function Mover(e: Event): Option<Thread> {
    match e
    case Tick(_) => None
    case Revoke(_) => None
    case CancelOrder(_) => None
    case _ => Some(e.t)
  }

  lemma OthersStay(s: State, e: Event, t: Thread)
    requires Enabled(s, e) && t in Apply(s, e).jobs && Mover(e) != Some(t)
    ensures t in s.jobs && Apply(s, e).jobs[t] == s.jobs[t]
  {
  }

  lemma KeepsJobs(s: State, e: Event)
    requires Enabled(s, e) && LocksOk(s) && DraftsOk(s) && JobsOk(s)
    ensures JobsOk(Apply(s, e))
  {
    var s' := Apply(s, e);
    forall t | t in s'.jobs ensures JobOk(s', s'.jobs[t]) {
      if Mover(e) != Some(t) {
        OthersStay(s, e, t);
        BystanderOk(s, e, t);
      } else {
        EndedOrMoved(s, e, t);
        MoverOk(s, e, t);
      }
    }
  }

  predicate Ends(e: Event) {
    e.Insert? || e.Release? || e.RejectWrite?
  }

  lemma EndedOrMoved(s: State, e: Event, t: Thread)
    requires Enabled(s, e) && Mover(e) == Some(t) && t in Apply(s, e).jobs
    ensures !Ends(e)
  {
  }

  lemma MoverOk(s: State, e: Event, t: Thread)
    requires Enabled(s, e) && LocksOk(s) && DraftsOk(s) && JobsOk(s) && Mover(e) == Some(t) && t in Apply(s, e).jobs
    requires !Ends(e)
    ensures JobOk(Apply(s, e), Apply(s, e).jobs[t])
  {
    if e.Decide? {
      DecideOk(s, t);
    } else if e.Place? {
      PlaceOk(s, t, e.priced, e.cancels);
    } else if e.Save? {
      SavedOk(s, t, e.ok);
    } else if e.StartDraft? || e.StartConfirm? || e.StartApprove? || e.RejectRead? {
      StartOk(s, e, t);
    } else {
      ProgressOk(s, e, t);
    }
  }

  lemma SavedOk(s: State, t: Thread, ok: bool)
    requires Enabled(s, Save(t, ok))
    ensures Apply(s, Save(t, ok)).jobs[t].Leaving?
  {
  }

  lemma DecideOk(s: State, t: Thread)
    requires Enabled(s, Decide(t)) && JobsOk(s)
    ensures JobOk(Apply(s, Decide(t)), Apply(s, Decide(t)).jobs[t])
  {
    assert JobOk(s, s.jobs[t]);
    DecisionOk(s, s.jobs[t]);
    MovingAloneKeepsJob(s, t, Decision(s, s.jobs[t]));
  }

  lemma MovingAloneKeepsJob(s: State, t: Thread, j: Job)
    requires JobOk(s, j)
    ensures JobOk(To(s, t, j), j)
  {
  }

  lemma StartOk(s: State, e: Event, t: Thread)
    requires Enabled(s, e) && DraftsOk(s) && Mover(e) == Some(t) && t in Apply(s, e).jobs
    requires e.StartDraft? || e.StartConfirm? || e.StartApprove? || e.RejectRead?
    ensures JobOk(Apply(s, e), Apply(s, e).jobs[t])
  {
    if e.StartApprove? || e.RejectRead? {
      assert DraftOk(s, e.d, s.drafts[e.d]);
    }
  }

  lemma ProgressOk(s: State, e: Event, t: Thread)
    requires Enabled(s, e) && DraftsOk(s) && JobsOk(s) && Mover(e) == Some(t) && t in s.jobs
    requires e.PreCheck? || e.Acquire? || e.Read? || e.CheckLimit? || (e.GiveUp? && t in Apply(s, e).jobs)
    ensures t in Apply(s, e).jobs && JobOk(Apply(s, e), Apply(s, e).jobs[t])
  {
    assert JobOk(s, s.jobs[t]);
    if e.Read? {
      assert DraftOk(s, s.jobs[t].d, s.drafts[s.jobs[t].d]);
    }
  }

  lemma DecisionOk(s: State, j: Job)
    requires j.HasRead? && JobOk(s, j)
    ensures JobOk(s, Decision(s, j))
  {
  }

  lemma PlaceOk(s: State, t: Thread, priced: Option<int>, cancels: bool)
    requires Enabled(s, Place(t, priced, cancels)) && JobOk(s, s.jobs[t])
    ensures JobOk(DoPlace(s, t, priced, cancels), DoPlace(s, t, priced, cancels).jobs[t])
  {
    var j := s.jobs[t];
    var s' := DoPlace(s, t, priced, cancels);
    StepIsLater(s, Place(t, priced, cancels));
    DraftOkLasts(s, s', j.d, j.copy);
    if !s.grants[j.g].test && priced.Some? {
      CreateOrderIndex(s.orders, j.d, priced.value, MadeBy(j.check, s.now));
      var (orders, i) := CreateOrder(s.orders, j.d, priced.value, MadeBy(j.check, s.now));
      if orders[i].total == j.copy.total {
        assert HasOrder(s'.orders, j.d, j.copy.total);
      }
    }
  }

  // ----- The daily limit -----

  lemma SameDayIsSpent(s: State, g: nat, day: int)
    requires DraftsOk(s)
    ensures Total(s.drafts, SameDay(g, day)) <= Total(s.drafts, SpentBy(g, day))
  {
    var v, w := SameDay(g, day), SpentBy(g, day);
    forall d | d in s.drafts ensures v(d) <= w(d) {
      var i :| 0 <= i < |s.drafts| && s.drafts[i] == d;
      assert DraftOk(s, i, s.drafts[i]);
    }
    TotalMonotone(s.drafts, v, w);
  }

  lemma KeepsCapped(s: State, e: Event)
    requires Enabled(s, e) && Inv(s)
    ensures Capped(Apply(s, e))
  {
    var s' := Apply(s, e);
    StepIsLater(s, e);
    DraftsAfter(s, e);
    forall g, day | 0 <= g < |s'.grants| && s'.grants[g].daily > 0
      ensures Total(s'.drafts, SameDay(g, day)) <= s'.grants[g].daily
    {
      var w := SameDay(g, day);
      assert Total(s.drafts, w) <= s.grants[g].daily;
      if e.Insert? {
        assert JobOk(s, s.jobs[e.t]);
        TotalAppend(s.drafts, s.jobs[e.t].draft, w);
      } else if Written(s, e).Some? {
        var (i, d) := Written(s, e).value;
        TotalUpdate(s.drafts, i, d, w);
        assert JobOk(s, s.jobs[e.t]);
        assert DraftOk(s, i, s.drafts[i]);
        if PlacesFor(s, e, g) && ByAgentOn(d, g, day) {
          SameDayIsSpent(s, g, day);
        }
      }
    }
  }

  lemma KeepsCompensated(s: State, e: Event)
    requires Enabled(s, e) && Compensated(s) && JobsOk(s)
    ensures Compensated(Apply(s, e))
  {
    DraftsAfter(s, e);
    if Written(s, e).Some? {
      WrittenOk(s, e);
    }
    if e.Place? {
      PlacingCompensates(s, e.t, e.priced, e.cancels);
    }
  }

  lemma PlacingCompensates(s: State, t: Thread, priced: Option<int>, cancels: bool)
    requires Enabled(s, Place(t, priced, cancels)) && Compensated(s) && JobOk(s, s.jobs[t])
    ensures Compensated(DoPlace(s, t, priced, cancels))
  {
  }

  lemma KeepsInv(s: State, e: Event)
    requires Enabled(s, e) && Inv(s)
    ensures Inv(Apply(s, e))
  {
    KeepsLocks(s, e);
    KeepsDrafts(s, e);
    KeepsJobs(s, e);
    KeepsCapped(s, e);
    KeepsOrders(s, e);
    KeepsCompensated(s, e);
  }

  lemma {:induction false} InvAlways(s: State, es: seq<Event>)
    requires Inv(s) && ValidRun(s, es)
    ensures Inv(Exec(s, es))
    decreases |es|
  {
    if es != [] {
      KeepsInv(s, es[0]);
      InvAlways(Apply(s, es[0]), es[1..]);
    }
  }

  lemma ReachableInv(s: State)
    requires Reachable(s)
    ensures Inv(s)
  {
    var s0, es :| IsInit(s0) && ValidRun(s0, es) && s == Exec(s0, es);
    InvAlways(s0, es);
  }

  // ----- Longer runs -----

  /** No request is in flight. */
  predicate Idle(s: State) { s.holder == map[] && s.jobs == map[] }

  lemma {:induction false} OneMore(s: State, es: seq<Event>, e: Event)
    requires ValidRun(s, es) && Enabled(Exec(s, es), e)
    ensures ValidRun(s, es + [e]) && Exec(s, es + [e]) == Apply(Exec(s, es), e)
    decreases |es|
  {
    if es == [] {
      assert es + [e] == [e];
    } else {
      OneMore(Apply(s, es[0]), es[1..], e);
      assert (es + [e])[1..] == es[1..] + [e];
    }
  }

  lemma Next(s: State, e: Event) returns (s': State)
    requires Reachable(s) && Enabled(s, e)
    ensures s' == Apply(s, e) && Reachable(s')
  {
    var s0, es :| IsInit(s0) && ValidRun(s0, es) && s == Exec(s0, es);
    OneMore(s0, es, e);
    s' := Apply(s, e);
  }

  // ----- Orders -----

  /** What is behind a placed draft: one order at most, and exactly one of the same total unless the
      partner is a test one; and what the agent placed on its own is the total it named, within the
      user's limit per order. */
  lemma PlacedAsAgreed(s: State, i: nat)
    requires Reachable(s) && i < |s.drafts|
    ensures forall k, l :: 0 <= k < l < |s.orders| && s.orders[k].draft == i ==> s.orders[l].draft != i
    ensures s.drafts[i].status == Placed && s.drafts[i].order == LiveOrder ==> HasOrder(s.orders, i, s.drafts[i].total)
    ensures s.drafts[i].status == Placed && s.drafts[i].check.Some? ==>
              && s.drafts[i].check.value.expected == s.drafts[i].total
              && s.drafts[i].grant < |s.grants|
              && 0 < s.grants[s.drafts[i].grant].perOrder
              && s.drafts[i].total <= s.grants[s.drafts[i].grant].perOrder
  {
    ReachableInv(s);
    assert DraftOk(s, i, s.drafts[i]);
  }

  /** Nobody pays another total than was agreed: an order is for its draft's total, or it is cancelled, or
      cancelling it was tried and failed. */
  lemma OrdersAsAgreed(s: State, k: nat)
    requires Reachable(s) && k < |s.orders|
    ensures var o := s.orders[k];
            o.draft < |s.drafts| && (o.total == s.drafts[o.draft].total || o.cancelled || o.stuck)
  {
    ReachableInv(s);
  }
}
