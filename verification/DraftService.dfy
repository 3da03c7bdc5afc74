/** The draft operations as the methods of an object (CreateDraft, ConfirmDraft, UserApproveDraft,
    UserRejectDraft and place, internal/agentapi/service.go), one call at a time. Every such call is a run
    of the protocol in module Drafts. */
module DraftService {
  import opened Outcomes
  import opened Sequences
  import opened Drafts

  datatype Reply = Done(draft: Draft) | AwaitsUser(draft: Draft) | NotFound | Decided | TooLate | TotalMismatch
                 | Unusable | NotPlaced | NotSaved

  // ----- Whole calls -----

  function Saved(s: State, d: nat, x: Draft, ok: bool): State
    requires d < |s.drafts|
  {
    if ok then s.(drafts := s.drafts[d := x]) else s
  }

  function Ended(x: Draft, status: Status, at: int): Draft { x.(status := status, decided := Some(at)) }

  /** `place` and the order service behind it. */
  function Ordered(s: State, g: nat, d: nat, check: Option<Check>, priced: Option<int>, cancels: bool, ok: bool): State
    requires g < |s.grants| && d < |s.drafts|
  {
    var x := s.drafts[d];
    var placed := Ended(x, Placed, s.now).(check := check);
    if s.grants[g].test then Saved(s, d, placed.(order := TestOrder), ok)
    else if priced.None? then s
    else
      CreateOrderIndex(s.orders, d, priced.value, MadeBy(check, s.now));
      var (orders, i) := CreateOrder(s.orders, d, priced.value, MadeBy(check, s.now));
      if orders[i].total != x.total then s.(orders := orders[i := Refused(orders[i], cancels)])
      else Saved(s.(orders := orders), d, placed.(order := LiveOrder), ok)
  }

  function AfterConfirm(s: State, g: nat, d: nat, expected: int, priced: Option<int>, cancels: bool, ok: bool): State
    requires g < |s.grants| && d < |s.drafts|
  {
    var x := s.drafts[d];
    if x.grant != g || x.status != Open then s
    else if s.now >= x.expires then Saved(s, d, Ended(x, Expired, s.now), ok)
    else if expected != x.total then s
    else if ExceedsDaily(s, g, x.total, s.now) then Saved(s, d, x.(status := AwaitingUser), ok)
    else Ordered(s, g, d, Some(Check(StartOfDay(s.now), expected)), priced, cancels, ok)
  }

  function AfterApprove(s: State, d: nat, priced: Option<int>, cancels: bool, ok: bool): State
    requires d < |s.drafts| && s.drafts[d].grant < |s.grants|
  {
    var x := s.drafts[d];
    if x.status != AwaitingUser then s
    else if s.now >= x.expires then Saved(s, d, Ended(x, Expired, s.now), ok)
    else if !Usable(s.grants[x.grant], s.now) then s
    else Ordered(s, x.grant, d, None, priced, cancels, ok)
  }

  function AfterReject(s: State, d: nat, ok: bool): State
    requires d < |s.drafts|
  {
    if s.drafts[d].status == AwaitingUser || s.drafts[d].status == Open
    then Saved(s, d, Ended(s.drafts[d], Rejected, s.now), ok)
    else s
  }

  function AfterCreate(s: State, g: nat, total: int, ok: bool): State
    requires g < |s.grants|
  {
    var asks := s.grants[g].perOrder <= 0 || total > s.grants[g].perOrder || ExceedsDaily(s, g, total, s.now);
    if !ok then s
    else s.(drafts := s.drafts + [Draft(g, total, s.now, s.now + DRAFT_TTL, if asks then AwaitingUser else Open, NoOrder, None, None)])
  }

  // ----- Whole calls are runs -----

  /** A state of the protocol that differs from an idle one by the one thread that has the lock of g. */
  ghost predicate Alone(s: State, s': State, g: nat, j: Job) {
    s' == s.(holder := map[g := 0], jobs := map[0 := j])
  }

  lemma Leave(s: State, s': State, g: nat) returns (r: State)
    requires Reachable(s') && Idle(s) && Alone(s, s', g, Leaving(g))
    ensures Reachable(r) && r == s
  {
    r := Next(s', Release(0));
    assert r.jobs == map[] && r.holder == map[];
  }

  lemma SaveAndLeave(s: State, s': State, g: nat, d: nat, copy: Draft, x: Draft, ok: bool) returns (r: State)
    requires Reachable(s') && Idle(s) && d < |s.drafts| && Alone(s, s', g, Saving(g, d, copy, x))
    ensures Reachable(r) && r == Saved(s, d, x, ok)
  {
    r := Next(s', Save(0, ok));
    var s2 := Saved(s, d, x, ok);
    assert r.jobs == map[0 := Leaving(g)];
    r := Leave(s2, r, g);
  }

  lemma PlaceAndLeave(s: State, s': State, g: nat, d: nat, check: Option<Check>, priced: Option<int>, cancels: bool, ok: bool) returns (r: State)
    requires Reachable(s') && Idle(s) && g < |s.grants| && d < |s.drafts|
    requires Alone(s, s', g, Placing(g, d, s.drafts[d], check))
    ensures Reachable(r) && r == Ordered(s, g, d, check, priced, cancels, ok)
  {
    var x := s.drafts[d];
    r := Next(s', Place(0, priced, cancels));
    var placed := Ended(x, Placed, s.now).(check := check);
    if s.grants[g].test {
      assert r.jobs == map[0 := Saving(g, d, x, placed.(order := TestOrder))];
      r := SaveAndLeave(s, r, g, d, x, placed.(order := TestOrder), ok);
    } else if priced.None? {
      assert r.jobs == map[0 := Leaving(g)];
      r := Leave(s, r, g);
    } else {
      r := OrderAndLeave(s, r, g, d, check, priced.value, cancels, ok);
    }
  }

  lemma OrderAndLeave(s: State, s': State, g: nat, d: nat, check: Option<Check>, priced: int, cancels: bool, ok: bool) returns (r: State)
    requires Reachable(s') && Idle(s) && g < |s.grants| && !s.grants[g].test && d < |s.drafts|
    requires var was := s.(holder := map[g := 0], jobs := map[0 := Placing(g, d, s.drafts[d], check)]);
             s' == DoPlace(was, 0, Some(priced), cancels)
    ensures Reachable(r) && r == Ordered(s, g, d, check, Some(priced), cancels, ok)
  {
    var x := s.drafts[d];
    CreateOrderIndex(s.orders, d, priced, MadeBy(check, s.now));
    var (orders, i) := CreateOrder(s.orders, d, priced, MadeBy(check, s.now));
    if orders[i].total != x.total {
      assert s'.jobs == map[0 := Leaving(g)];
      r := Leave(s.(orders := orders[i := Refused(orders[i], cancels)]), s', g);
    } else {
      var placed := Ended(x, Placed, s.now).(check := check, order := LiveOrder);
      assert s'.jobs == map[0 := Saving(g, d, x, placed)];
      r := SaveAndLeave(s.(orders := orders), s', g, d, x, placed, ok);
    }
  }

  lemma EnterLock(s: State, g: nat, d: nat, kind: Kind) returns (r: State)
    requires Reachable(s) && Idle(s) && g < |s.grants| && d < |s.drafts| && (kind == ByUser ==> s.drafts[d].grant == g)
    ensures Reachable(r) && Alone(s, r, g, HasRead(g, d, kind, s.drafts[d]))
  {
    match kind {
      case ByAgent(expected) => r := Next(s, StartConfirm(0, g, d, expected));
      case ByUser => r := Next(s, StartApprove(0, d));
    }
    r := Next(r, Acquire(0));
    r := Next(r, Read(0));
    assert r.jobs == map[0 := HasRead(g, d, kind, s.drafts[d])];
  }

  lemma ConfirmIsARun(s: State, g: nat, d: nat, expected: int, priced: Option<int>, cancels: bool, ok: bool)
    requires Reachable(s) && Idle(s) && g < |s.grants| && d < |s.drafts|
    ensures Reachable(AfterConfirm(s, g, d, expected, priced, cancels, ok))
  {
    var x := s.drafts[d];
    var r := EnterLock(s, g, d, ByAgent(expected));
    r := Next(r, Decide(0));
    var j := r.jobs[0];
    assert r.jobs == map[0 := j];
    if j.Leaving? {
      r := Leave(s, r, g);
    } else if j.Saving? {
      r := SaveAndLeave(s, r, g, d, x, Ended(x, Expired, s.now), ok);
    } else {
      r := ConfirmAndLeave(s, r, g, d, expected, priced, cancels, ok);
    }
  }

  lemma ConfirmAndLeave(s: State, s': State, g: nat, d: nat, expected: int, priced: Option<int>, cancels: bool, ok: bool) returns (r: State)
    requires Reachable(s') && Idle(s) && g < |s.grants| && d < |s.drafts|
    requires Alone(s, s', g, Checking(g, d, s.drafts[d], s.now, expected))
    ensures Reachable(r)
    ensures r == if ExceedsDaily(s, g, s.drafts[d].total, s.now) then Saved(s, d, s.drafts[d].(status := AwaitingUser), ok)
                 else Ordered(s, g, d, Some(Check(StartOfDay(s.now), expected)), priced, cancels, ok)
  {
    var x := s.drafts[d];
    r := Next(s', CheckLimit(0));
    if ExceedsDaily(s, g, x.total, s.now) {
      assert r.jobs == map[0 := Saving(g, d, x, x.(status := AwaitingUser))];
      r := SaveAndLeave(s, r, g, d, x, x.(status := AwaitingUser), ok);
    } else {
      assert r.jobs == map[0 := Placing(g, d, x, Some(Check(StartOfDay(s.now), expected)))];
      r := PlaceAndLeave(s, r, g, d, Some(Check(StartOfDay(s.now), expected)), priced, cancels, ok);
    }
  }

  lemma ApproveIsARun(s: State, d: nat, priced: Option<int>, cancels: bool, ok: bool)
    requires Reachable(s) && Idle(s) && d < |s.drafts| && s.drafts[d].grant < |s.grants|
    ensures Reachable(AfterApprove(s, d, priced, cancels, ok))
  {
    var x := s.drafts[d];
    var g := x.grant;
    var r := EnterLock(s, g, d, ByUser);
    r := Next(r, Decide(0));
    var j := r.jobs[0];
    assert r.jobs == map[0 := j];
    if j.Leaving? {
      r := Leave(s, r, g);
    } else if j.Saving? {
      r := SaveAndLeave(s, r, g, d, x, Ended(x, Expired, s.now), ok);
    } else {
      r := PlaceAndLeave(s, r, g, d, None, priced, cancels, ok);
    }
  }

  lemma RejectIsARun(s: State, d: nat, ok: bool)
    requires Reachable(s) && Idle(s) && d < |s.drafts|
    ensures Reachable(AfterReject(s, d, ok))
  {
    var r := Next(s, RejectRead(0, d));
    if r.jobs != s.jobs {
      r := Next(r, if ok then RejectWrite(0) else GiveUp(0));
      assert r.jobs == map[];
    }
  }

  lemma CreateIsARun(s: State, g: nat, total: int, ok: bool)
    requires Reachable(s) && Idle(s) && g < |s.grants| && total >= 0
    ensures Reachable(AfterCreate(s, g, total, ok))
  {
    var r := Next(s, StartDraft(0, g, total));
    r := Next(r, PreCheck(0));
    r := Next(r, if ok then Insert(0) else GiveUp(0));
    assert r.jobs == map[];
  }

  // ----- Who has to agree -----

  lemma TotalOneMore(drafts: seq<Draft>, x: Draft, g: nat, since: int)
    requires x.status != Placed
    ensures Total(drafts + [x], SpentBy(g, since)) == Total(drafts, SpentBy(g, since))
  {
    assert (drafts + [x])[..|drafts|] == drafts;
  }

  lemma NoneOrdered(orders: seq<Order>, d: nat)
    requires forall k :: 0 <= k < |orders| ==> orders[k].draft != d
    ensures FindOrder(orders, d).None?
  {
  }

  /** The limits say only who has to agree. If every call works, a draft that the agent makes and confirms at
      once is placed exactly if it is within the limit per order and within what is left of the daily limit, if there is
      one; else it waits, no order is made, and the user can approve it as long as the grant may be used. */
  lemma PlacedAloneExactly(s: State, g: nat, total: int)
    requires Reachable(s) && Idle(s) && g < |s.grants| && total >= 0
    ensures var d, x := |s.drafts|, s.grants[g];
            var s1 := AfterCreate(s, g, total, true);
            var s2 := AfterConfirm(s1, g, d, total, Some(total), true, true);
            var s3 := AfterApprove(s2, d, Some(total), true, true);
            var spent := Total(s.drafts, SpentBy(g, StartOfDay(s.now)));
            var alone := total <= x.perOrder && x.perOrder > 0 && (x.daily <= 0 || spent + total <= x.daily);
            && (s2.drafts[d].status == Placed <==> alone)
            && (alone && !x.test ==> s2.orders == s.orders + [Order(d, total, false, false, Some(s.now))])
            && (!alone ==> s2.drafts[d].status == AwaitingUser && s2.orders == s.orders)
            && (!alone ==> (s3.drafts[d].status == Placed <==> x.active && (x.expires.Some? ==> s.now < x.expires.value)))
  {
    var d := |s.drafts|;
    ReachableInv(s);
    NoneOrdered(s.orders, d);
    TotalOneMore(s.drafts, AfterCreate(s, g, total, true).drafts[d], g, StartOfDay(s.now));
  }

  // ----- What the answers mean -----

  /** The draft is open, in time, of this grant, and of the total that the agent named. */
  predicate Confirmable(s: State, x: Draft, g: nat, expected: int) {
    x.grant == g && x.status == Open && s.now < x.expires && expected == x.total
  }

  /** No order of the draft's total came about. */
  predicate NoOrderFor(orders: seq<Order>, d: nat, x: Draft, priced: Option<int>) {
    priced.None? || !HasOrder(orders, d, x.total)
  }

  /** Each answer of ConfirmDraft is given exactly in its case: s is before the call and t after it. */
  ghost predicate ConfirmAnswer(s: State, t: State, g: nat, d: nat, expected: int, priced: Option<int>, ok: bool, r: Reply)
    requires g < |s.grants| && d < |s.drafts| && d < |t.drafts|
  {
    var x, y := s.drafts[d], t.drafts[d];
    var fits := Confirmable(s, x, g, expected);
    var over := ExceedsDaily(s, g, x.total, s.now);
    && (r == NotFound <==> x.grant != g)
    && (r == Decided <==> x.grant == g && (x.status == Rejected || x.status == Expired))
    && (r.AwaitsUser? <==> x.grant == g && (x.status == AwaitingUser || (fits && over && ok)))
    && (r.AwaitsUser? ==> r == AwaitsUser(y) && y.status == AwaitingUser)
    && (r == TooLate <==> x.grant == g && x.status == Open && s.now >= x.expires && ok)
    && (r == TooLate ==> y.status == Expired && y.decided == Some(s.now))
    && (r == TotalMismatch <==> x.grant == g && x.status == Open && s.now < x.expires && expected != x.total)
    && (r.Done? <==> x.grant == g && y.status == Placed)
    && (r.Done? ==> r == Done(y) && (x == y || (fits && !over && ok && y.decided == Some(s.now))))
    && (r == NotPlaced <==> fits && !over && !s.grants[g].test && NoOrderFor(t.orders, d, x, priced))
    && (r == NotSaved ==> !ok && x.grant == g && x.status == Open)
    && (r == NotSaved || r == NotPlaced || r == TotalMismatch || r == Decided ==> x == y)
    && r != Unusable
  }

  /** A draft's one order is the one that was found or made. */
  lemma OnlyOneOrder(orders: seq<Order>, d: nat, priced: int, agent: Option<int>, total: int)
    requires forall i, k :: 0 <= i < k < |orders| ==> orders[i].draft != orders[k].draft
    ensures var (os, i) := CreateOrder(orders, d, priced, agent); i < |os| && (HasOrder(os, d, total) <==> os[i].total == total)
    ensures var (os, i) := CreateOrder(orders, d, priced, agent);
            i < |os| && forall cancels :: HasOrder(os[i := Refused(os[i], cancels)], d, total) <==> HasOrder(os, d, total)
  {
    CreateOrderIndex(orders, d, priced, agent);
    var (os, i) := CreateOrder(orders, d, priced, agent);
    assert forall k :: 0 <= k < |os| && os[k].draft == d ==> k == i;
    forall cancels ensures HasOrder(os[i := Refused(os[i], cancels)], d, total) <==> os[i].total == total {
      var after := os[i := Refused(os[i], cancels)];
      assert after[i].draft == d && after[i].total == os[i].total;
      assert forall k :: 0 <= k < |os| && k != i ==> after[k] == os[k];
    }
  }

  ghost predicate ApproveAnswer(s: State, t: State, d: nat, priced: Option<int>, ok: bool, r: Reply)
    requires d < |s.drafts| && d < |t.drafts| && s.drafts[d].grant < |s.grants|
  {
    var x, y := s.drafts[d], t.drafts[d];
    var fits := x.status == AwaitingUser && s.now < x.expires && Usable(s.grants[x.grant], s.now);
    && (r == Decided <==> x.status != Placed && x.status != AwaitingUser)
    && (r == TooLate <==> x.status == AwaitingUser && s.now >= x.expires && ok)
    && (r == TooLate ==> y.status == Expired && y.decided == Some(s.now))
    && (r == Unusable <==> x.status == AwaitingUser && s.now < x.expires && !Usable(s.grants[x.grant], s.now))
    && (r.Done? <==> y.status == Placed)
    && (r.Done? ==> r == Done(y) && (x == y || (fits && ok && y.decided == Some(s.now))))
    && (r == NotPlaced <==> fits && !s.grants[x.grant].test && NoOrderFor(t.orders, d, x, priced))
    && (r == NotSaved ==> !ok && x.status == AwaitingUser)
    && (r == NotSaved || r == NotPlaced || r == Unusable || r == Decided ==> x == y)
    && r != NotFound && !r.AwaitsUser? && r != TotalMismatch
  }

  ghost predicate RejectAnswer(s: State, t: State, d: nat, ok: bool, r: Reply)
    requires d < |s.drafts| && d < |t.drafts|
  {
    var x, y := s.drafts[d], t.drafts[d];
    var undecided := x.status == Open || x.status == AwaitingUser;
    && (r == Decided <==> !undecided)
    && (r == NotSaved <==> undecided && !ok)
    && (r.Done? <==> undecided && ok)
    && (r.Done? ==> r == Done(y) && y.status == Rejected && y.decided == Some(s.now))
    && (!r.Done? ==> x == y)
  }

  // ----- The objects -----

  class Service {
    var now: int
    var grants: seq<Grant>
    var drafts: seq<Draft>
    var orders: seq<Order>

    ghost function View(): State
      reads this
    {
      State(now, grants, drafts, orders, map[], map[])
    }

    /** What the database holds came about by calls like these. */
    ghost predicate Valid()
      reads this
    {
      Reachable(View()) && forall i :: 0 <= i < |drafts| ==> drafts[i].grant < |grants|
    }

    constructor (now: int, grants: seq<Grant>)
      ensures Valid() && this.now == now && this.grants == grants && drafts == [] && orders == []
    {
      this.now, this.grants, drafts, orders := now, grants, [], [];
      new;
      assert IsInit(View()) && ValidRun(View(), []) && Exec(View(), []) == View();
    }

    method SpentSince(g: nat, since: int) returns (sum: int)
      ensures sum == Total(drafts, SpentBy(g, since))
    {
      sum := 0;
      for i := 0 to |drafts|
        invariant sum == Total(drafts[..i], SpentBy(g, since))
      {
        assert drafts[..i + 1][..i] == drafts[..i];
        if drafts[i].grant == g && drafts[i].status == Placed && drafts[i].created >= since {
          sum := sum + drafts[i].total;
        }
      }
      assert drafts[..|drafts|] == drafts;
    }

    method CheckDaily(g: nat, total: int) returns (over: bool)
      requires g < |grants|
      ensures over == ExceedsDaily(View(), g, total, now)
    {
      if grants[g].daily <= 0 {
        return false;
      }
      var spent := SpentSince(g, StartOfDay(now));
      over := spent + total > grants[g].daily;
    }

    method CreateDraft(g: nat, total: int, ok: bool) returns (d: Option<nat>)
      requires Valid() && g < |grants| && total >= 0
      modifies this`drafts
      ensures Valid() && View() == AfterCreate(old(View()), g, total, ok) && d == if ok then Some(|old(drafts)|) else None
    {
      ghost var s := View();
      var asks := grants[g].perOrder <= 0 || total > grants[g].perOrder;
      if !asks {
        asks := CheckDaily(g, total);
      }
      d := None;
      if ok {
        d := Some(|drafts|);
        drafts := drafts + [Draft(g, total, now, now + DRAFT_TTL, if asks then AwaitingUser else Open, NoOrder, None, None)];
      }
      CreateIsARun(s, g, total, ok);
    }

    /** Nothing is written if the write fails. */
    method UpdateDraft(d: nat, x: Draft, ok: bool) returns (saved: bool)
      requires d < |drafts|
      modifies this`drafts
      ensures saved == ok && drafts == if ok then old(drafts)[d := x] else old(drafts)
    {
      if ok {
        drafts := drafts[d := x];
      }
      saved := ok;
    }

    /** The order with the draft's idempotency key, made if there is none. */
    method CreateOrFind(d: nat, priced: int, agent: Option<int>) returns (i: nat)
      modifies this`orders
      ensures i < |orders| && (orders, i) == CreateOrder(old(orders), d, priced, agent)
    {
      match FindOrder(orders, d) {
        case Some(k) => i := k;
        case None =>
          i := |orders|;
          orders := orders + [Order(d, priced, false, false, agent)];
      }
    }

    /** Makes the draft an order. An order whose total is not the draft's is cancelled again. */
    method Place(g: nat, d: nat, check: Option<Check>, priced: Option<int>, cancels: bool, ok: bool) returns (r: Reply)
      requires g < |grants| && d < |drafts| && OrdersOk(View())
      modifies this`drafts, this`orders
      ensures View() == Ordered(old(View()), g, d, check, priced, cancels, ok)
      ensures |drafts| == |old(drafts)|
      ensures (r == Done(drafts[d]) && drafts[d].status == Placed) || ((r == NotPlaced || r == NotSaved) && drafts == old(drafts))
      ensures r.Done? ==> ok && drafts[d].decided == Some(now)
      ensures r == NotSaved ==> !ok
      ensures r == NotPlaced <==> !grants[g].test && NoOrderFor(orders, d, old(drafts[d]), priced)
    {
      var placed := Ended(drafts[d], Placed, now).(check := check);
      ghost var x := drafts[d];
      if grants[g].test {
        placed := placed.(order := TestOrder);
      } else {
        if priced == None {
          return NotPlaced;
        }
        var i := CreateOrFind(d, priced.value, MadeBy(check, now));
        OnlyOneOrder(old(orders), d, priced.value, MadeBy(check, now), x.total);
        if orders[i].total != drafts[d].total {
          orders := orders[i := Refused(orders[i], cancels)];
          return NotPlaced;
        }
        placed := placed.(order := LiveOrder);
      }
      var saved := UpdateDraft(d, placed, ok);
      return if saved then Done(placed) else NotSaved;
    }

    /** A draft that is placed already is given back, so that a repeated request does no more than the
        first. */
    method ConfirmDraft(g: nat, d: nat, expected: int, priced: Option<int>, cancels: bool, ok: bool) returns (r: Reply)
      requires Valid() && g < |grants| && d < |drafts|
      modifies this`drafts, this`orders
      ensures Valid() && View() == AfterConfirm(old(View()), g, d, expected, priced, cancels, ok)
      ensures |drafts| == |old(drafts)|
      ensures old(drafts[d].grant == g && drafts[d].status == Placed) ==> r == Done(old(drafts[d])) && View() == old(View())
      ensures ConfirmAnswer(old(View()), View(), g, d, expected, priced, ok, r)
    {
      ghost var s := View();
      ReachableInv(s);
      ConfirmIsARun(s, g, d, expected, priced, cancels, ok);
      var x := drafts[d];
      if x.grant != g {
        return NotFound;
      }
      match x.status {
        case Placed => return Done(x);
        case AwaitingUser => return AwaitsUser(x);
        case Open =>
        case _ => return Decided;
      }
      if now >= x.expires {
        var saved := UpdateDraft(d, Ended(x, Expired, now), ok);
        return if saved then TooLate else NotSaved;
      }
      if expected != x.total {
        return TotalMismatch;
      }
      var over := CheckDaily(g, x.total);
      if over {
        var saved := UpdateDraft(d, x.(status := AwaitingUser), ok);
        return if saved then AwaitsUser(drafts[d]) else NotSaved;
      }
      r := Place(g, d, Some(Check(StartOfDay(now), expected)), priced, cancels, ok);
    }

    method UserApproveDraft(d: nat, priced: Option<int>, cancels: bool, ok: bool) returns (r: Reply)
      requires Valid() && d < |drafts|
      modifies this`drafts, this`orders
      ensures Valid() && View() == AfterApprove(old(View()), d, priced, cancels, ok)
      ensures |drafts| == |old(drafts)|
      ensures old(drafts[d].status == Placed) ==> r == Done(old(drafts[d])) && View() == old(View())
      ensures ApproveAnswer(old(View()), View(), d, priced, ok, r)
    {
      ghost var s := View();
      ReachableInv(s);
      ApproveIsARun(s, d, priced, cancels, ok);
      var x := drafts[d];
      if x.status == Placed {
        return Done(x);
      }
      if x.status != AwaitingUser {
        return Decided;
      }
      if now >= x.expires {
        var saved := UpdateDraft(d, Ended(x, Expired, now), ok);
        return if saved then TooLate else NotSaved;
      }
      if !Usable(grants[x.grant], now) {
        return Unusable;
      }
      r := Place(x.grant, d, None, priced, cancels, ok);
    }

    method UserRejectDraft(d: nat, ok: bool) returns (r: Reply)
      requires Valid() && d < |drafts|
      modifies this`drafts
      ensures Valid() && View() == AfterReject(old(View()), d, ok)
      ensures |drafts| == |old(drafts)|
      ensures RejectAnswer(old(View()), View(), d, ok, r)
      ensures old(drafts[d].status == Placed) ==> r == Decided && View() == old(View())
    {
      ghost var s := View();
      RejectIsARun(s, d, ok);
      if drafts[d].status != AwaitingUser && drafts[d].status != Open {
        return Decided;
      }
      var saved := UpdateDraft(d, Ended(drafts[d], Rejected, now), ok);
      return if saved then Done(drafts[d]) else NotSaved;
    }
  }
}
