/** What an agent's daily limit guarantees (ConfirmDraft and exceedsDaily, internal/agentapi/service.go). */
module DraftLimits {
  // What counts is what was really bought: orders that the agent's own confirmation made and that nobody
  // cancelled, on the calendar day on which they were made. The limit is checked against something else,
  // the drafts that say that they are placed, by the day on which the drafts were made. The results below
  // say by how much the two can differ, and name everything that has to go right for them to agree.

  import opened Outcomes
  import opened Sequences
  import opened Drafts

  // ----- What the agent bought -----

  predicate BoughtOn(ds: seq<Draft>, o: Order, g: nat, day: int) {
    && o.agent.Some? && !o.cancelled && StartOfDay(o.agent.value) == day
    && o.draft < |ds| && ds[o.draft].grant == g
  }

  function Bought(ds: seq<Draft>, g: nat, day: int): Order -> int {
    (o: Order) => if BoughtOn(ds, o, g, day) then o.total else 0
  }

  /** What the agent spent for one grant on one day. */
  function AgentSpent(s: State, g: nat, day: int): int {
    Total(s.orders, Bought(s.drafts, g, day))
  }

  /** The draft says so: it was made that day and placed against that day's limit, for the order's total. */
  predicate SaysSo(d: Draft, o: Order, g: nat, day: int) {
    ByAgentOn(d, g, day) && d.created >= day && d.total == o.total
  }

  function OnRecord(ds: seq<Draft>, g: nat, day: int): Order -> int {
    (o: Order) => if BoughtOn(ds, o, g, day) && SaysSo(ds[o.draft], o, g, day) then o.total else 0
  }

  function OffRecord(ds: seq<Draft>, g: nat, day: int): Order -> int {
    (o: Order) => if BoughtOn(ds, o, g, day) && !SaysSo(ds[o.draft], o, g, day) then o.total else 0
  }

  // ----- Orders against drafts -----

  lemma {:induction false} TotalNotNegative(ds: seq<Draft>, g: nat, day: int)
    requires forall d :: d in ds ==> d.total >= 0
    ensures Total(ds, SameDay(g, day)) >= 0
  {
    if ds != [] {
      TotalNotNegative(ds[..|ds| - 1], g, day);
    }
  }

  /** If no order weighs more than its draft, and no two have the same draft, then all of them weigh no
      more than all drafts. */
  lemma {:induction false} OrdersWithinDrafts(orders: seq<Order>, ds: seq<Draft>, g: nat, day: int, f: Order -> int)
    requires forall i, k :: 0 <= i < k < |orders| ==> orders[i].draft != orders[k].draft
    requires forall d :: d in ds ==> d.total >= 0
    requires forall k :: 0 <= k < |orders| ==>
               f(orders[k]) <= 0 || (orders[k].draft < |ds| && f(orders[k]) <= SameDay(g, day)(ds[orders[k].draft]))
    ensures Total(orders, f) <= Total(ds, SameDay(g, day))
    decreases |orders|
  {
    if orders == [] {
      TotalNotNegative(ds, g, day);
    } else {
      var n := |orders| - 1;
      var i := orders[n].draft;
      if f(orders[n]) <= 0 {
        OrdersWithinDrafts(orders[..n], ds, g, day, f);
      } else {
        var gone := ds[i].(status := Rejected);
        TotalUpdate(ds, i, gone, SameDay(g, day));
        OrdersWithinDrafts(orders[..n], ds[i := gone], g, day, f);
      }
    }
  }

  lemma TotalsNotNegative(s: State)
    requires DraftsOk(s)
    ensures forall d :: d in s.drafts ==> d.total >= 0
  {
    forall d | d in s.drafts ensures d.total >= 0 {
      var i :| 0 <= i < |s.drafts| && s.drafts[i] == d;
      assert DraftOk(s, i, d);
    }
  }

  /** Whatever happens: what the agent spends on a day exceeds the limit by no more than the orders of which
      their drafts do not say so (any more, or yet, or with that date and that total). */
  lemma DailyLimit(s: State, g: nat, day: int)
    requires Reachable(s) && g < |s.grants| && s.grants[g].daily > 0
    ensures Total(s.orders, OnRecord(s.drafts, g, day)) <= s.grants[g].daily
    ensures AgentSpent(s, g, day) == Total(s.orders, OnRecord(s.drafts, g, day)) + Total(s.orders, OffRecord(s.drafts, g, day))
  {
    ReachableInv(s);
    TotalsNotNegative(s);
    var f := OnRecord(s.drafts, g, day);
    OrdersWithinDrafts(s.orders, s.drafts, g, day, f);
    TotalSum(s.orders, f, OffRecord(s.drafts, g, day), Bought(s.drafts, g, day));
  }

  /** A placement is visible to the later checks of the same day exactly when the draft was made that
      day: the sum goes by the time of creation. */
  lemma PlacementIsSeen(s: State, t: Thread)
    requires Reachable(s) && Enabled(s, Save(t, true))
    requires var d := s.jobs[t].changed; d.status == Placed && d.check.Some? && d.total > 0
    ensures var d := s.jobs[t].changed; var day := d.check.value.day;
            var w := SpentBy(d.grant, day);
            && Total(Apply(s, Save(t, true)).drafts, w) == Total(s.drafts, w) + (if d.created >= day then d.total else 0)
            && (Total(Apply(s, Save(t, true)).drafts, w) > Total(s.drafts, w) <==> d.created >= day)
  {
    ReachableInv(s);
    var j := s.jobs[t];
    assert JobOk(s, j);
    TotalUpdate(s.drafts, j.d, j.changed, SpentBy(j.changed.grant, j.changed.check.value.day));
  }

  // ----- What can go wrong -----

  /** The times at which a draft was made and the limit checked for it. */
  type Times = (int, int) -> bool

  datatype Mishap =
    | LateOrder      // the order is made on another date than the limit was checked for
    | LostSave       // the order is made and the draft cannot be saved
    | WrittenOver    // a rejection that read the draft before it was placed is written over it
    | NotCancelled   // the order has another total than the draft and cannot be cancelled

  /** The order that Place makes or finds is not for the draft's total. */
  predicate Mismatched(s: State, t: Thread, priced: Option<int>)
    requires t in s.jobs && s.jobs[t].Placing? && s.jobs[t].g < |s.grants|
  {
    var j := s.jobs[t];
    !s.grants[j.g].test && priced.Some? &&
    match FindOrder(s.orders, j.d)
    case Some(i) => s.orders[i].total != j.copy.total
    case None => priced.value != j.copy.total
  }

  /** What goes wrong in a step of a confirmation by the agent, or with what it has placed. */
  function Mishaps(s: State, e: Event): set<Mishap>
    requires Enabled(s, e)
  {
    match e
    case Place(t, priced, cancels) =>
      var check := s.jobs[t].check;
      if check.None? then {}
      else (if StartOfDay(s.now) != check.value.day then {LateOrder} else {}) +
           (if Mismatched(s, t, priced) && !cancels then {NotCancelled} else {})
    case Save(t, ok) =>
      if !ok && s.jobs[t].changed.status == Placed && s.jobs[t].changed.check.Some? then {LostSave} else {}
    case RejectWrite(t) =>
      if s.drafts[s.jobs[t].d].status == Placed && s.drafts[s.jobs[t].d].check.Some? then {WrittenOver} else {}
    case _ => {}
  }

  /** The limit is checked only at these times, and nothing but these mishaps happens. */
  predicate Within(s: State, e: Event, times: Times, allowed: set<Mishap>)
    requires Enabled(s, e)
  {
    && (e.CheckLimit? ==> times(s.jobs[e.t].copy.created, s.jobs[e.t].now))
    && Mishaps(s, e) <= allowed
  }

  ghost predicate RunWithin(s: State, es: seq<Event>, times: Times, allowed: set<Mishap>)
    requires ValidRun(s, es)
    decreases |es|
  {
    es == [] || (Within(s, es[0], times, allowed) && RunWithin(Apply(s, es[0]), es[1..], times, allowed))
  }

  ghost predicate ReachableWithin(s: State, times: Times, allowed: set<Mishap>) {
    exists s0, es :: IsInit(s0) && ValidRun(s0, es) && s == Exec(s0, es) && RunWithin(s0, es, times, allowed)
  }

  /** Every grant with a daily limit is within it, on every day. */
  ghost predicate WithinLimits(s: State) {
    forall g, day :: 0 <= g < |s.grants| && s.grants[g].daily > 0 ==> AgentSpent(s, g, day) <= s.grants[g].daily
  }

  ghost predicate LimitIsKept(times: Times, allowed: set<Mishap>) {
    forall s :: ReachableWithin(s, times, allowed) ==> WithinLimits(s)
  }

  predicate SameDate(made: int, checked: int) { made >= StartOfDay(checked) }

  // ----- Nothing goes wrong -----

  predicate MadeThatDay(d: Draft) {
    d.check.Some? ==> d.created >= d.check.value.day
  }

  ghost predicate NoEarlierDays(s: State) {
    && (forall d :: d in s.drafts ==> MadeThatDay(d))
    && (forall t :: t in s.jobs ==>
          match s.jobs[t]
          case Inserting(d) => MadeThatDay(d)
          case HasRead(_, _, _, copy) => MadeThatDay(copy)
          case Checking(_, _, copy, _, _) => MadeThatDay(copy)
          case Placing(_, _, copy, check) => MadeThatDay(copy) && MadeThatDay(copy.(check := check))
          case Saving(_, _, copy, changed) => MadeThatDay(copy) && MadeThatDay(changed)
          case Rejecting(_, copy) => MadeThatDay(copy)
          case _ => true)
  }

  predicate OnDate(s: State, e: Event)
    requires Enabled(s, e)
  {
    e.CheckLimit? ==> SameDate(s.jobs[e.t].copy.created, s.jobs[e.t].now)
  }

  lemma KeepsNoEarlierDays(s: State, e: Event)
    requires Enabled(s, e) && NoEarlierDays(s) && OnDate(s, e)
    ensures NoEarlierDays(Apply(s, e))
  {
    var s' := Apply(s, e);
    DraftsAfter(s, e);
    forall d | d in s'.drafts ensures MadeThatDay(d) {
      var i :| 0 <= i < |s'.drafts| && s'.drafts[i] == d;
      StaysMadeThatDay(s, e, i);
    }
  }

  lemma StaysMadeThatDay(s: State, e: Event, i: nat)
    requires Enabled(s, e) && NoEarlierDays(s) && OnDate(s, e) && i < |Apply(s, e).drafts|
    ensures MadeThatDay(Apply(s, e).drafts[i])
  {
    DraftsAfter(s, e);
    if i < |s.drafts| {
      assert s.drafts[i] in s.drafts;
    }
  }

  /** A request is about to save draft i as placed. */
  predicate SavesPlaced(s: State, i: nat)
    requires i < |s.drafts|
  {
    var g := s.drafts[i].grant;
    && g in s.holder && s.holder[g] in s.jobs
    && var j := s.jobs[s.holder[g]];
    && j.Saving? && j.d == i && j.changed.status == Placed && j.changed.check.Some?
  }

  /** What draft i will say when the save under way is done. */
  function Settled(s: State, i: nat): Draft
    requires i < |s.drafts|
  {
    if SavesPlaced(s, i) then s.jobs[s.holder[s.drafts[i].grant]].changed else s.drafts[i]
  }

  predicate IsLive(o: Order) { o.agent.Some? && !o.cancelled }

  /** The draft of every order of the agent says so, or will. */
  ghost predicate AllSaySo(s: State) {
    forall k :: 0 <= k < |s.orders| && IsLive(s.orders[k]) && s.orders[k].draft < |s.drafts| ==>
      var o := s.orders[k]; var d := Settled(s, o.draft);
      SaysSo(d, o, d.grant, StartOfDay(o.agent.value))
  }

  predicate ByAgentPlaced(d: Draft) { d.status == Placed && d.check.Some? }

  predicate SameRecord(a: Draft, b: Draft) {
    SameOffer(a, b) && a.status == b.status && a.check == b.check
  }

  /** What the agent has placed stays placed as long as no mishap happens. */
  lemma StaysPlaced(s: State, e: Event, i: nat)
    requires Enabled(s, e) && Inv(s) && Mishaps(s, e) == {} && i < |s.drafts| && ByAgentPlaced(Settled(s, i))
    ensures i < |Apply(s, e).drafts| && SameRecord(Settled(Apply(s, e), i), Settled(s, i))
  {
    var s' := Apply(s, e);
    var g := s.drafts[i].grant;
    DraftsAfter(s, e);
    if Written(s, e).Some? && Written(s, e).value.0 == i {
      WrittenOk(s, e);
      assert JobOk(s, s.jobs[e.t]);
      WrittenStaysPlaced(s, e, i);
    } else if SavesPlaced(s, i) {
      SaveStaysUnderWay(s, e, i);
    } else {
      NothingElseSaves(s, e, i);
    }
  }

  lemma WrittenStaysPlaced(s: State, e: Event, i: nat)
    requires Enabled(s, e) && Inv(s) && Mishaps(s, e) == {} && i < |s.drafts| && ByAgentPlaced(Settled(s, i))
    requires Written(s, e).Some? && Written(s, e).value.0 == i
    ensures i < |Apply(s, e).drafts| && SameRecord(Settled(Apply(s, e), i), Settled(s, i))
  {
    assert JobOk(s, s.jobs[e.t]);
    if e.Save? {
      assert s.holder[s.drafts[i].grant] == e.t;
    } else {
      assert SavesPlaced(s, i);
      assert SavesPlaced(Apply(s, e), i);
    }
  }

  lemma SaveStaysUnderWay(s: State, e: Event, i: nat)
    requires Enabled(s, e) && Inv(s) && Mishaps(s, e) == {} && i < |s.drafts| && SavesPlaced(s, i)
    requires !(Written(s, e).Some? && Written(s, e).value.0 == i)
    ensures i < |Apply(s, e).drafts| && SavesPlaced(Apply(s, e), i) && Settled(Apply(s, e), i) == Settled(s, i)
  {
    DraftsAfter(s, e);
  }

  lemma NothingElseSaves(s: State, e: Event, i: nat)
    requires Enabled(s, e) && Inv(s) && i < |s.drafts| && ByAgentPlaced(s.drafts[i]) && !SavesPlaced(s, i)
    requires !(Written(s, e).Some? && Written(s, e).value.0 == i)
    ensures i < |Apply(s, e).drafts| && Apply(s, e).drafts[i] == s.drafts[i] && !SavesPlaced(Apply(s, e), i)
  {
    DraftsAfter(s, e);
    if SavesPlaced(Apply(s, e), i) {
      OnlyPlacingStarts(s, e, i);
      PlacesNoPlaced(s, e.t, i);
    }
  }

  lemma PlacesNoPlaced(s: State, t: Thread, i: nat)
    requires Inv(s) && t in s.jobs && s.jobs[t].Placing? && s.jobs[t].d == i && i < |s.drafts|
    ensures s.drafts[i].status != Placed
  {
    assert JobOk(s, s.jobs[t]);
  }

  /** A save of a placement comes only from placing that draft. */
  lemma OnlyPlacingStarts(s: State, e: Event, i: nat)
    requires Enabled(s, e) && LocksOk(s) && i < |s.drafts| && i < |Apply(s, e).drafts|
    requires Apply(s, e).drafts[i] == s.drafts[i] && !SavesPlaced(s, i) && SavesPlaced(Apply(s, e), i)
    ensures e.Place? && s.jobs[e.t].d == i && s.jobs[e.t].g == s.drafts[i].grant
  {
  }

  /** An order of the agent is one that was there before or the one that was just made. */
  lemma OrdersAfter(s: State, e: Event, k: nat)
    requires Enabled(s, e) && Inv(s) && Mishaps(s, e) == {} && k < |Apply(s, e).orders| && IsLive(Apply(s, e).orders[k])
    ensures if k < |s.orders| then SameOrder(Apply(s, e).orders[k], s.orders[k])
            else e.Place? && s.jobs[e.t].check.Some? && Apply(s, e).jobs[e.t].Saving? &&
                 Apply(s, e).orders[k] == Order(s.jobs[e.t].d, s.jobs[e.t].copy.total, false, false, Some(s.now))
  {
    if e.Place? {
      OrdersAfterPlace(s, e.t, e.priced, e.cancels, k);
    } else {
      OrdersAfterOthers(s, e, k);
    }
  }

  lemma OrdersAfterPlace(s: State, t: Thread, priced: Option<int>, cancels: bool, k: nat)
    requires Enabled(s, Place(t, priced, cancels)) && Mishaps(s, Place(t, priced, cancels)) == {}
    requires k < |DoPlace(s, t, priced, cancels).orders| && IsLive(DoPlace(s, t, priced, cancels).orders[k])
    ensures var s' := DoPlace(s, t, priced, cancels);
            if k < |s.orders| then SameOrder(s'.orders[k], s.orders[k])
            else s.jobs[t].check.Some? && s'.jobs[t].Saving? &&
                 s'.orders[k] == Order(s.jobs[t].d, s.jobs[t].copy.total, false, false, Some(s.now))
  {
  }

  lemma OrdersAfterOthers(s: State, e: Event, k: nat)
    requires Enabled(s, e) && !e.Place? && k < |Apply(s, e).orders| && IsLive(Apply(s, e).orders[k])
    ensures k < |s.orders| && SameOrder(Apply(s, e).orders[k], s.orders[k])
  {
  }

  predicate SameOrder(a: Order, b: Order) {
    a.draft == b.draft && a.total == b.total && a.agent == b.agent && (IsLive(a) ==> IsLive(b))
  }

  lemma KeepsAllSaySo(s: State, e: Event)
    requires Enabled(s, e) && Inv(s) && NoEarlierDays(s) && AllSaySo(s) && Mishaps(s, e) == {}
    ensures AllSaySo(Apply(s, e))
  {
    var s' := Apply(s, e);
    forall k | 0 <= k < |s'.orders| && IsLive(s'.orders[k]) && s'.orders[k].draft < |s'.drafts|
      ensures var o := s'.orders[k]; var d := Settled(s', o.draft); SaysSo(d, o, d.grant, StartOfDay(o.agent.value))
    {
      var o := s'.orders[k];
      OrdersAfter(s, e, k);
      if k < |s.orders| {
        StaysPlaced(s, e, o.draft);
      } else {
        NewOrderSaysSo(s, e.t, e.priced, e.cancels, o);
      }
    }
  }

  lemma NewOrderSaysSo(s: State, t: Thread, priced: Option<int>, cancels: bool, o: Order)
    requires Enabled(s, Place(t, priced, cancels)) && Inv(s) && NoEarlierDays(s) && Mishaps(s, Place(t, priced, cancels)) == {}
    requires s.jobs[t].check.Some? && o == Order(s.jobs[t].d, s.jobs[t].copy.total, false, false, Some(s.now))
    requires DoPlace(s, t, priced, cancels).jobs[t].Saving?
    ensures o.draft < |s.drafts|
    ensures var d := Settled(DoPlace(s, t, priced, cancels), o.draft); SaysSo(d, o, d.grant, StartOfDay(s.now))
  {
    var j := s.jobs[t];
    assert JobOk(s, j);
    assert s.holder[s.drafts[j.d].grant] == t;
    assert SavesPlaced(DoPlace(s, t, priced, cancels), j.d);
  }

  /** Nothing has gone wrong so far. */
  ghost predicate Clean(s: State) {
    Inv(s) && NoEarlierDays(s) && AllSaySo(s)
  }

  lemma {:induction false} CleanAlways(s: State, es: seq<Event>, times: Times)
    requires Clean(s) && ValidRun(s, es) && RunWithin(s, es, times, {})
    requires forall made, checked :: times(made, checked) ==> SameDate(made, checked)
    ensures Clean(Exec(s, es))
    decreases |es|
  {
    if es != [] {
      KeepsNoEarlierDays(s, es[0]);
      KeepsAllSaySo(s, es[0]);
      KeepsInv(s, es[0]);
      CleanAlways(Apply(s, es[0]), es[1..], times);
    }
  }

  /** The drafts of g, with the save under way done. */
  function SettledDrafts(s: State, g: nat): seq<Draft> {
    if g in s.holder && s.holder[g] in s.jobs && s.jobs[s.holder[g]].Saving? && s.jobs[s.holder[g]].d < |s.drafts|
       && ByAgentPlaced(s.jobs[s.holder[g]].changed)
    then s.drafts[s.jobs[s.holder[g]].d := s.jobs[s.holder[g]].changed]
    else s.drafts
  }

  lemma SettledWithinLimit(s: State, g: nat, day: int)
    requires Inv(s) && g < |s.grants| && s.grants[g].daily > 0
    ensures Total(SettledDrafts(s, g), SameDay(g, day)) <= s.grants[g].daily
    ensures forall d :: d in SettledDrafts(s, g) ==> d.total >= 0
  {
    TotalsNotNegative(s);
    assert Total(s.drafts, SameDay(g, day)) <= s.grants[g].daily;
    if SettledDrafts(s, g) != s.drafts {
      var j := s.jobs[s.holder[g]];
      assert JobOk(s, j);
      TotalUpdate(s.drafts, j.d, j.changed, SameDay(g, day));
      SameDayIsSpent(s, g, day);
    }
  }

  lemma CleanIsWithinLimits(s: State)
    requires Clean(s)
    ensures WithinLimits(s)
  {
    forall g, day | 0 <= g < |s.grants| && s.grants[g].daily > 0 ensures AgentSpent(s, g, day) <= s.grants[g].daily {
      SettledWithinLimit(s, g, day);
      var ds := SettledDrafts(s, g);
      var f := Bought(s.drafts, g, day);
      forall k | 0 <= k < |s.orders| && f(s.orders[k]) > 0
        ensures s.orders[k].draft < |ds| && f(s.orders[k]) <= SameDay(g, day)(ds[s.orders[k].draft])
      {
        var o := s.orders[k];
        assert IsLive(o);
        assert ds[o.draft] == Settled(s, o.draft);
      }
      OrdersWithinDrafts(s.orders, ds, g, day, f);
    }
  }

  /** Drafts confirmed on the date they were made, orders made on the date of the check, every save and every
      cancelling successful, no rejection written over a placement: then the daily limit is a limit on
      everything the agent buys in a day, whatever else is in flight. */
  lemma DailyLimitWithoutMishaps(s: State, times: Times)
    requires ReachableWithin(s, times, {})
    requires forall made, checked :: times(made, checked) ==> SameDate(made, checked)
    ensures WithinLimits(s)
  {
    var s0, es :| IsInit(s0) && ValidRun(s0, es) && s == Exec(s0, es) && RunWithin(s0, es, times, {});
    CleanAlways(s0, es, times);
    CleanIsWithinLimits(s);
  }

  // ----- Longer runs within bounds -----

  lemma {:induction false} OneMoreWithin(s: State, es: seq<Event>, e: Event, times: Times, allowed: set<Mishap>)
    requires ValidRun(s, es) && RunWithin(s, es, times, allowed)
    requires Enabled(Exec(s, es), e) && Within(Exec(s, es), e, times, allowed)
    ensures ValidRun(s, es + [e]) && Exec(s, es + [e]) == Apply(Exec(s, es), e) && RunWithin(s, es + [e], times, allowed)
    decreases |es|
  {
    if es == [] {
      assert es + [e] == [e];
    } else {
      OneMoreWithin(Apply(s, es[0]), es[1..], e, times, allowed);
      assert (es + [e])[1..] == es[1..] + [e];
    }
  }

  lemma NextWithin(s: State, e: Event, times: Times, allowed: set<Mishap>) returns (s': State)
    requires ReachableWithin(s, times, allowed) && Enabled(s, e) && Within(s, e, times, allowed)
    ensures s' == Apply(s, e) && ReachableWithin(s', times, allowed)
  {
    var s0, es :| IsInit(s0) && ValidRun(s0, es) && s == Exec(s0, es) && RunWithin(s0, es, times, allowed);
    OneMoreWithin(s0, es, e, times, allowed);
    s' := Apply(s, e);
  }

  lemma {:induction false} WithinMore(s: State, es: seq<Event>, few: Times, many: Times, allowed: set<Mishap>)
    requires ValidRun(s, es) && RunWithin(s, es, few, allowed)
    requires forall made, checked :: few(made, checked) ==> many(made, checked)
    ensures RunWithin(s, es, many, allowed)
    decreases |es|
  {
    if es != [] {
      WithinMore(Apply(s, es[0]), es[1..], few, many, allowed);
    }
  }

  lemma {:induction false} MoreMayHappen(s: State, es: seq<Event>, times: Times, few: set<Mishap>, many: set<Mishap>)
    requires ValidRun(s, es) && RunWithin(s, es, times, few) && few <= many
    ensures RunWithin(s, es, times, many)
    decreases |es|
  {
    if es != [] {
      MoreMayHappen(Apply(s, es[0]), es[1..], times, few, many);
    }
  }

  lemma StillReachable(s: State, few: Times, many: Times, allowed: set<Mishap>, more: set<Mishap>)
    requires ReachableWithin(s, few, allowed) && allowed <= more
    requires forall made, checked :: few(made, checked) ==> many(made, checked)
    ensures ReachableWithin(s, many, more) && Reachable(s)
  {
    var s0, es :| IsInit(s0) && ValidRun(s0, es) && s == Exec(s0, es) && RunWithin(s0, es, few, allowed);
    WithinMore(s0, es, few, many, allowed);
    MoreMayHappen(s0, es, many, allowed, more);
  }

  // ----- Whole requests -----

  function Made(total: int, at: int): Draft {
    Draft(0, total, at, at + DRAFT_TTL, Open, NoOrder, None, None)
  }

  function Confirmed(d: Draft, at: int): Draft {
    d.(status := Placed, order := LiveOrder, decided := Some(at), check := Some(Check(StartOfDay(at), d.total)))
  }

  /** A whole CreateDraft with nothing else going on. */
  lemma CreateAlone(s: State, total: int, times: Times, allowed: set<Mishap>) returns (s': State)
    requires ReachableWithin(s, times, allowed) && Idle(s) && |s.grants| == 1
    requires 0 <= total <= s.grants[0].perOrder && 0 < s.grants[0].perOrder && !ExceedsDaily(s, 0, total, s.now)
    ensures ReachableWithin(s', times, allowed) && s' == s.(drafts := s.drafts + [Made(total, s.now)])
  {
    s' := NextWithin(s, StartDraft(0, 0, total), times, allowed);
    s' := NextWithin(s', PreCheck(0), times, allowed);
    s' := NextWithin(s', Insert(0), times, allowed);
    assert s'.jobs == map[];
  }

  predicate Confirmable(s: State, i: nat) {
    && Idle(s) && |s.grants| == 1 && !s.grants[0].test
    && i < |s.drafts| && s.drafts[i].status == Open && s.drafts[i].grant == 0 && s.now < s.drafts[i].expires
    && s.drafts[i].order == NoOrder
    && !ExceedsDaily(s, 0, s.drafts[i].total, s.now)
    && forall k :: 0 <= k < |s.orders| ==> s.orders[k].draft != i
  }

  /** Everything is idle but for a confirmation of draft i that is about to create the order. */
  predicate AboutToPlace(s: State, s': State, i: nat)
    requires i < |s.drafts|
  {
    s' == s.(holder := map[0 := 0],
             jobs := map[0 := Placing(0, i, s.drafts[i], Some(Check(StartOfDay(s.now), s.drafts[i].total)))])
  }

  lemma ReadUnderLock(s: State, i: nat, times: Times, allowed: set<Mishap>) returns (s': State)
    requires ReachableWithin(s, times, allowed) && Idle(s) && |s.grants| == 1 && i < |s.drafts|
    ensures ReachableWithin(s', times, allowed)
    ensures s' == s.(holder := map[0 := 0], jobs := map[0 := HasRead(0, i, ByAgent(s.drafts[i].total), s.drafts[i])])
  {
    s' := NextWithin(s, StartConfirm(0, 0, i, s.drafts[i].total), times, allowed);
    s' := NextWithin(s', Acquire(0), times, allowed);
    s' := NextWithin(s', Read(0), times, allowed);
    assert s'.jobs == map[0 := HasRead(0, i, ByAgent(s.drafts[i].total), s.drafts[i])] && s'.holder == map[0 := 0];
  }

  lemma BeginConfirm(s: State, i: nat, times: Times, allowed: set<Mishap>) returns (s': State)
    requires ReachableWithin(s, times, allowed) && Confirmable(s, i) && times(s.drafts[i].created, s.now)
    ensures ReachableWithin(s', times, allowed) && AboutToPlace(s, s', i)
  {
    var d := s.drafts[i];
    s' := ReadUnderLock(s, i, times, allowed);
    s' := NextWithin(s', Decide(0), times, allowed);
    assert s'.jobs == map[0 := Checking(0, i, d, s.now, d.total)];
    s' := NextWithin(s', CheckLimit(0), times, allowed);
  }

  /** Creating the order for the draft's total, saving the draft (or not), and giving the lock back. */
  lemma EndConfirm(s: State, i: nat, check: Check, saved: bool, times: Times, allowed: set<Mishap>) returns (s': State)
    requires Idle(s) && |s.grants| == 1 && !s.grants[0].test && i < |s.drafts|
    requires ReachableWithin(s.(holder := map[0 := 0], jobs := map[0 := Placing(0, i, s.drafts[i], Some(check))]), times, allowed)
    requires s.drafts[i].status == Open && s.drafts[i].order == NoOrder
    requires forall k :: 0 <= k < |s.orders| ==> s.orders[k].draft != i
    requires saved || LostSave in allowed
    requires StartOfDay(s.now) == check.day || LateOrder in allowed
    ensures ReachableWithin(s', times, allowed)
    ensures var x := s.drafts[i].(status := Placed, order := LiveOrder, decided := Some(s.now), check := Some(check));
            s' == s.(drafts := if saved then s.drafts[i := x] else s.drafts,
                     orders := s.orders + [Order(i, s.drafts[i].total, false, false, Some(s.now))])
  {
    var d := s.drafts[i];
    var x := d.(status := Placed, order := LiveOrder, decided := Some(s.now), check := Some(check));
    s' := s.(holder := map[0 := 0], jobs := map[0 := Placing(0, i, d, Some(check))]);
    s' := NextWithin(s', Place(0, Some(d.total), true), times, allowed);
    assert s'.jobs == map[0 := Saving(0, i, d, x)];
    s' := NextWithin(s', Save(0, saved), times, allowed);
    s' := NextWithin(s', Release(0), times, allowed);
    assert s'.jobs == map[] && s'.holder == map[];
  }

  /** A whole ConfirmDraft with nothing else going on. */
  lemma ConfirmAlone(s: State, i: nat, saved: bool, times: Times, allowed: set<Mishap>) returns (s': State)
    requires ReachableWithin(s, times, allowed) && Confirmable(s, i) && times(s.drafts[i].created, s.now)
    requires saved || LostSave in allowed
    ensures ReachableWithin(s', times, allowed)
    ensures s' == s.(drafts := if saved then s.drafts[i := Confirmed(s.drafts[i], s.now)] else s.drafts,
                     orders := s.orders + [Order(i, s.drafts[i].total, false, false, Some(s.now))])
  {
    s' := BeginConfirm(s, i, times, allowed);
    s' := EndConfirm(s, i, Check(StartOfDay(s.now), s.drafts[i].total), saved, times, allowed);
  }

  // ----- The limit and midnight -----

  function Bounded(limit: int): Grant { Grant(limit, limit, false, true, None) }

  /** n drafts of the whole limit were made at one time and the first i of them confirmed at another. */
  ghost predicate Batch(s: State, limit: int, n: nat, i: nat, made: int, checked: int, times: Times) {
    && ReachableWithin(s, times, {}) && Idle(s) && s.grants == [Bounded(limit)]
    && |s.drafts| == n && i <= n
    && (forall k :: 0 <= k < n ==> s.drafts[k] == if k < i then Confirmed(Made(limit, made), checked) else Made(limit, made))
    && |s.orders| == i && (forall k :: 0 <= k < i ==> s.orders[k] == Order(k, limit, false, false, Some(checked)))
  }

  function Exactly(made: int, checked: int): Times { (m: int, c: int) => m == made && c == checked }

  lemma {:induction false} CreateBatch(limit: int, n: nat, made: int, times: Times) returns (s: State)
    requires limit > 0
    ensures Batch(s, limit, n, 0, made, made, times) && s.now == made
  {
    if n == 0 {
      s := State(made, [Bounded(limit)], [], [], map[], map[]);
      assert ValidRun(s, []) && Exec(s, []) == s && IsInit(s) && RunWithin(s, [], times, {});
    } else {
      var s' := CreateBatch(limit, n - 1, made, times);
      TotalOfNothing(s'.drafts, SpentBy(0, StartOfDay(made)));
      s := CreateAlone(s', limit, times, {});
    }
  }

  lemma {:induction false} ConfirmBatch(limit: int, n: nat, i: nat, made: int, checked: int) returns (s: State)
    requires limit > 0 && i <= n && made < StartOfDay(checked) && checked < made + DRAFT_TTL
    ensures Batch(s, limit, n, i, made, checked, Exactly(made, checked)) && s.now == checked
  {
    if i == 0 {
      s := CreateBatch(limit, n, made, Exactly(made, checked));
      s := NextWithin(s, Tick(checked), Exactly(made, checked), {});
    } else {
      var s' := ConfirmBatch(limit, n, i - 1, made, checked);
      TotalOfNothing(s'.drafts, SpentBy(0, StartOfDay(checked)));
      s := ConfirmAlone(s', i - 1, true, Exactly(made, checked), {});
    }
  }

  /** Made before midnight and confirmed after it, drafts of any number pass a limit that has room for
      one: in one day the agent spends n times the limit, though nothing else goes wrong. */
  lemma MidnightDefeatsTheLimit(limit: int, n: nat, made: int, checked: int) returns (s: State)
    requires limit > 0 && made < StartOfDay(checked) && checked < made + DRAFT_TTL
    ensures ReachableWithin(s, Exactly(made, checked), {}) && s.grants == [Bounded(limit)]
    ensures AgentSpent(s, 0, StartOfDay(checked)) == n * limit
  {
    s := ConfirmBatch(limit, n, n, made, checked);
    TotalOfEqual(s.orders, Bought(s.drafts, 0, StartOfDay(checked)), limit);
  }

  // ----- The limit and mishaps -----

  /** Two live orders of the whole limit each, made on the same day. */
  ghost predicate TwiceTheLimit(s: State, limit: int, day: int) {
    && s.grants == [Bounded(limit)] && |s.drafts| == 2 && s.drafts[0].grant == 0 && s.drafts[1].grant == 0
    && |s.orders| == 2
    && (forall k :: 0 <= k < 2 ==>
          && s.orders[k].draft == k && s.orders[k].total == limit && !s.orders[k].cancelled
          && s.orders[k].agent.Some? && StartOfDay(s.orders[k].agent.value) == day)
  }

  lemma TwiceIsTooMuch(s: State, limit: int, day: int)
    requires limit > 0 && TwiceTheLimit(s, limit, day)
    ensures AgentSpent(s, 0, day) == 2 * limit && !WithinLimits(s)
  {
    TotalOfEqual(s.orders, Bought(s.drafts, 0, day), limit);
  }

  /** The order is made but the draft cannot be saved: the draft stays open, and the next check does not
      see the order. */
  lemma LostSaveDefeatsTheLimit(limit: int, at: int, times: Times) returns (s: State)
    requires limit > 0 && times(at, at)
    ensures ReachableWithin(s, times, {LostSave}) && TwiceTheLimit(s, limit, StartOfDay(at))
  {
    s := CreateBatch(limit, 2, at, times);
    StillReachable(s, times, times, {}, {LostSave});
    TotalOfNothing(s.drafts, SpentBy(0, StartOfDay(at)));
    s := ConfirmAlone(s, 0, false, times, {LostSave});
    s := ConfirmAlone(s, 1, true, times, {LostSave});
  }

  /** The user rejects a draft while the agent's confirmation of it is under way, and the rejection is
      written last: the draft is no longer placed, its order is live, and the next check does not see it. */
  lemma RejectionDefeatsTheLimit(limit: int, at: int, times: Times) returns (s: State)
    requires limit > 0 && times(at, at)
    ensures ReachableWithin(s, times, {WrittenOver}) && TwiceTheLimit(s, limit, StartOfDay(at))
  {
    s := RejectedAfterPlaced(limit, at, times);
    s := ConfirmAlone(s, 1, true, times, {WrittenOver});
  }

  /** A rejection that was written over a placement with a live order. */
  lemma RejectedAfterPlaced(limit: int, at: int, times: Times) returns (s: State)
    requires limit > 0 && times(at, at)
    ensures ReachableWithin(s, times, {WrittenOver}) && s.now == at && s.grants == [Bounded(limit)] && Confirmable(s, 1)
    ensures s.drafts == [Made(limit, at).(status := Rejected, decided := Some(at)), Made(limit, at)]
    ensures s.orders == [Order(0, limit, false, false, Some(at))]
  {
    s := CreateBatch(limit, 2, at, times);
    StillReachable(s, times, times, {}, {WrittenOver});
    TotalOfNothing(s.drafts, SpentBy(0, StartOfDay(at)));
    s := PlacedBesideRejection(s, limit, times);
    s := NextWithin(s, RejectWrite(1), times, {WrittenOver});
    assert s.jobs == map[];
    TotalOfNothing(s.drafts, SpentBy(0, StartOfDay(at)));
  }

  /** The rejection reads the open draft, and then the draft is placed. */
  lemma PlacedBesideRejection(s: State, limit: int, times: Times) returns (s': State)
    requires ReachableWithin(s, times, {WrittenOver}) && limit > 0 && s.grants == [Bounded(limit)] && times(s.now, s.now)
    requires s.drafts == [Made(limit, s.now), Made(limit, s.now)] && s.orders == [] && Confirmable(s, 0)
    ensures ReachableWithin(s', times, {WrittenOver})
    ensures s' == s.(drafts := [Confirmed(Made(limit, s.now), s.now), s.drafts[1]],
                     orders := [Order(0, limit, false, false, Some(s.now))], jobs := map[1 := Rejecting(0, s.drafts[0])])
  {
    var d := s.drafts[0];
    s' := BeginConfirm(s, 0, times, {WrittenOver});
    s' := NextWithin(s', RejectRead(1, 0), times, {WrittenOver});
    s' := NextWithin(s', Place(0, Some(limit), true), times, {WrittenOver});
    assert s'.jobs == map[0 := Saving(0, 0, d, Confirmed(d, s.now)), 1 := Rejecting(0, d)];
    s' := NextWithin(s', Save(0, true), times, {WrittenOver});
    s' := NextWithin(s', Release(0), times, {WrittenOver});
    assert s'.jobs == map[1 := Rejecting(0, d)] && s'.holder == map[];
  }

  /** The limit is checked before midnight and the order made after it: it counts for neither day. */
  lemma LateOrderDefeatsTheLimit(limit: int, at: int, times: Times) returns (s: State)
    requires limit > 0 && times(at, at) && times(StartOfDay(at) + DAY, StartOfDay(at) + DAY)
    ensures ReachableWithin(s, times, {LateOrder}) && TwiceTheLimit(s, limit, StartOfDay(at) + DAY)
  {
    var next := StartOfDay(at) + DAY;
    s := OneLateOrder(limit, at, times);
    TotalOfNothing(s.drafts, SpentBy(0, next));
    s := CreateAlone(s, limit, times, {LateOrder});
    TotalOfNothing(s.drafts, SpentBy(0, next));
    s := ConfirmAlone(s, 1, true, times, {LateOrder});
  }

  lemma OneLateOrder(limit: int, at: int, times: Times) returns (s: State)
    requires limit > 0 && times(at, at)
    ensures ReachableWithin(s, times, {LateOrder}) && Idle(s) && s.grants == [Bounded(limit)]
    ensures s.now == StartOfDay(at) + DAY && StartOfDay(s.now) == s.now
    ensures |s.drafts| == 1 && s.drafts[0].grant == 0 && s.drafts[0].created < s.now
    ensures s.orders == [Order(0, limit, false, false, Some(s.now))]
  {
    var next := StartOfDay(at) + DAY;
    var check := Check(StartOfDay(at), limit);
    s := CreateBatch(limit, 1, at, times);
    StillReachable(s, times, times, {}, {LateOrder});
    TotalOfNothing(s.drafts, SpentBy(0, StartOfDay(at)));
    var idle := s.(now := next);
    s := BeginConfirm(s, 0, times, {LateOrder});
    s := NextWithin(s, Tick(next), times, {LateOrder});
    assert s == idle.(holder := map[0 := 0], jobs := map[0 := Placing(0, 0, idle.drafts[0], Some(check))]);
    s := EndConfirm(idle, 0, check, true, times, {LateOrder});
  }

  /** The order turns out dearer than the draft and cannot be cancelled. */
  lemma StuckOrderDefeatsTheLimit(limit: int, dearer: int, at: int, times: Times) returns (s: State)
    requires 0 < limit < dearer && times(at, at)
    ensures ReachableWithin(s, times, {NotCancelled}) && s.grants == [Bounded(limit)]
    ensures AgentSpent(s, 0, StartOfDay(at)) == dearer
  {
    s := CreateBatch(limit, 1, at, times);
    StillReachable(s, times, times, {}, {NotCancelled});
    TotalOfNothing(s.drafts, SpentBy(0, StartOfDay(at)));
    s := BeginConfirm(s, 0, times, {NotCancelled});
    s := NextWithin(s, Place(0, Some(dearer), false), times, {NotCancelled});
    assert s.orders == [Order(0, dearer, false, true, Some(at))];
    TotalOfEqual(s.orders, Bought(s.drafts, 0, StartOfDay(at)), dearer);
  }

  /** Each of the mishaps alone is enough. */
  lemma MishapDefeatsTheLimit(m: Mishap) returns (s: State)
    ensures ReachableWithin(s, OnOneDate(), {m}) && !WithinLimits(s)
  {
    match m {
      case LateOrder => s := LateOrderDefeatsTheLimit(1, 0, OnOneDate()); TwiceIsTooMuch(s, 1, DAY);
      case LostSave => s := LostSaveDefeatsTheLimit(1, 0, OnOneDate()); TwiceIsTooMuch(s, 1, 0);
      case WrittenOver => s := RejectionDefeatsTheLimit(1, 0, OnOneDate()); TwiceIsTooMuch(s, 1, 0);
      case NotCancelled => s := StuckOrderDefeatsTheLimit(1, 2, 0, OnOneDate());
    }
  }

  // ----- Exactly when the limit is kept -----

  /** A draft that has expired is not checked. */
  ghost predicate Possible(times: Times) {
    forall made, checked :: times(made, checked) ==> made <= checked < made + DRAFT_TTL
  }

  /** All times at which a draft can be confirmed on the date on which it was made. */
  function OnOneDate(): Times { (made: int, checked: int) => made <= checked < made + DRAFT_TTL && SameDate(made, checked) }

  /** Whatever the times at which drafts are made and checked: if nothing else goes wrong, the daily limit is
      kept in all runs with these times exactly if they never lie on two dates. */
  lemma LimitIsKeptExactly(times: Times)
    requires Possible(times)
    ensures LimitIsKept(times, {}) <==> forall made, checked :: times(made, checked) ==> SameDate(made, checked)
  {
    if made, checked :| times(made, checked) && !SameDate(made, checked) {
      var s := MidnightDefeatsTheLimit(1, 2, made, checked);
      assert !WithinLimits(s);
      StillReachable(s, Exactly(made, checked), times, {}, {});
    } else {
      forall s | ReachableWithin(s, times, {}) ensures WithinLimits(s) {
        DailyLimitWithoutMishaps(s, times);
      }
    }
  }

  /** And with drafts confirmed on the date they were made, it is kept in all runs in which certain mishaps
      may happen exactly if these are none: no order later than its check, no lost save, no rejection over a
      placement, no order of another total left. */
  lemma NothingMayGoWrong(allowed: set<Mishap>)
    ensures LimitIsKept(OnOneDate(), allowed) <==> allowed == {}
  {
    if m :| m in allowed {
      var s := MishapDefeatsTheLimit(m);
      StillReachable(s, OnOneDate(), OnOneDate(), {m}, allowed);
    } else {
      assert allowed == {};
      LimitIsKeptExactly(OnOneDate());
    }
  }
}
