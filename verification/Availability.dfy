/** Who is available (ClaimIfAvailable, SetAvailable, and the end of dispatchOrder). */
module Availability {
  // A search takes its winner off the line, and dispatchOrder (internal/httpapi/dispatch.go) gives him back
  // if the order cannot take him. Couriers switch themselves on and off at any time
  // (internal/httpapi/routes_couriers.go). The results below are about runs: `done` is what has happened.

  import opened Outcomes
  import opened Dispatch

  // ----- What became of the winners -----

  ghost predicate Winner(s: State, r: RunId, c: string) {
    r in s.runs && s.runs[r].phase.Won? && s.runs[r].phase.msg.resp.courier == c
  }

  /** The order of search r could take its winner. */
  ghost predicate OrderTook(done: seq<Event>, r: RunId) {
    exists i :: 0 <= i < |done| && done[i].Assign? && done[i].r == r && done[i].orderTook
  }

  /** The order could not, and giving the winner back worked. */
  ghost predicate GivenBack(done: seq<Event>, r: RunId) {
    exists i :: 0 <= i < |done| && done[i] == Assign(r, false, true)
  }

  ghost predicate Settled(done: seq<Event>, r: RunId) {
    exists i :: 0 <= i < |done| && done[i].Assign? && done[i].r == r
  }

  ghost predicate Matches(s: State, done: seq<Event>) {
    && (forall r, c :: Released(r, c) in s.log <==> GivenBack(done, r) && Winner(s, r, c))
    && (forall r :: Settled(done, r) <==> r in s.runs && s.runs[r].settled)
    && (forall r :: OrderTook(done, r) ==> !GivenBack(done, r))
    && (forall r :: Settled(done, r) ==> r in s.runs && s.runs[r].phase.Won?)
  }

  lemma SettledStays(s: State, e: Event, r: RunId)
    requires Enabled(s, e)
    ensures (r in Apply(s, e).runs && Apply(s, e).runs[r].settled) <==> (r in s.runs && s.runs[r].settled) || (e.Assign? && e.r == r)
  {
    if Target(s, e) != Some(r) {
      OthersStay(s, e);
    }
  }

  lemma WinnerStays(s: State, e: Event, r: RunId, c: string)
    requires Enabled(s, e) && r in s.runs && s.runs[r].phase.Won?
    ensures Winner(Apply(s, e), r, c) <==> Winner(s, r, c)
  {
    WonStays(s, e, r);
  }

  /** Only Assign writes that a search gave its winner back. */
  lemma ReleaseIsWritten(s: State, e: Event, r: RunId, c: string)
    requires Enabled(s, e)
    ensures Released(r, c) in Apply(s, e).log <==>
            Released(r, c) in s.log || (e == Assign(r, false, true) && Winner(s, r, c))
  {
    Locality(s, e);
    var log, log' := s.log, Apply(s, e).log;
    assert forall k :: 0 <= k < |log| ==> log'[k] == log[k];
    NewRelease(s, e, r, c);
    if Released(r, c) in log {
      var k :| 0 <= k < |log| && log[k] == Released(r, c);
      assert log'[k] == Released(r, c);
    }
    if Released(r, c) in log' {
      var k :| 0 <= k < |log'| && log'[k] == Released(r, c);
      assert k < |log| ==> log[k] == Released(r, c);
    }
  }

  lemma NewRelease(s: State, e: Event, r: RunId, c: string)
    requires Enabled(s, e)
    ensures (|Apply(s, e).log| > |s.log| && Apply(s, e).log[|s.log|] == Released(r, c)) <==>
            e == Assign(r, false, true) && Winner(s, r, c)
  {
  }

  lemma OneMoreDone(done: seq<Event>, e: Event, r: RunId)
    ensures OrderTook(done + [e], r) <==> OrderTook(done, r) || (e.Assign? && e.r == r && e.orderTook)
    ensures GivenBack(done + [e], r) <==> GivenBack(done, r) || e == Assign(r, false, true)
    ensures Settled(done + [e], r) <==> Settled(done, r) || (e.Assign? && e.r == r)
    ensures OrderTook(done, r) || GivenBack(done, r) ==> Settled(done, r)
  {
    var more := done + [e];
    assert more[|done|] == e;
    assert forall i :: 0 <= i < |done| ==> more[i] == done[i];
    if OrderTook(done, r) {
      var i :| 0 <= i < |done| && done[i].Assign? && done[i].r == r && done[i].orderTook;
      assert more[i] == done[i];
    }
    if GivenBack(done, r) {
      var i :| 0 <= i < |done| && done[i] == Assign(r, false, true);
      assert more[i] == done[i];
    }
    if Settled(done, r) {
      var i :| 0 <= i < |done| && done[i].Assign? && done[i].r == r;
      assert more[i] == done[i];
    }
  }

  lemma KeepsMatches(s: State, e: Event, done: seq<Event>)
    requires Enabled(s, e) && Matches(s, done)
    ensures Matches(Apply(s, e), done + [e])
  {
    var s', more := Apply(s, e), done + [e];
    forall r ensures (Settled(more, r) <==> r in s'.runs && s'.runs[r].settled) && (OrderTook(more, r) ==> !GivenBack(more, r)) {
      OneMoreDone(done, e, r);
      SettledStays(s, e, r);
    }
    forall r | Settled(more, r) ensures r in s'.runs && s'.runs[r].phase.Won? {
      OneMoreDone(done, e, r);
      WonStays(s, e, r);
    }
    forall r, c ensures Released(r, c) in s'.log <==> GivenBack(more, r) && Winner(s', r, c) {
      OneMoreDone(done, e, r);
      ReleaseIsWritten(s, e, r, c);
      if GivenBack(more, r) {
        WinnerStays(s, e, r, c);
      }
    }
  }

  lemma {:induction false} MatchesAlways(s: State, done: seq<Event>, es: seq<Event>)
    requires ValidRun(s, es) && Matches(s, done)
    ensures Matches(Exec(s, es), done + es)
    decreases |es|
  {
    if es == [] {
      assert done + [] == done;
    } else {
      KeepsMatches(s, es[0], done);
      MatchesAlways(Apply(s, es[0]), done + [es[0]], es[1..]);
      assert done + es == (done + [es[0]]) + es[1..];
    }
  }

  /** Over any run: a search has given a courier back exactly if it won him, its order could not take him and
      the write worked; and then its order has not taken him. */
  lemma ReleasedExactly(free: set<string>, es: seq<Event>, r: RunId, c: string)
    requires ValidRun(Init(free), es)
    ensures var s := Exec(Init(free), es);
            && (Released(r, c) in s.log <==> GivenBack(es, r) && Winner(s, r, c))
            && (Released(r, c) in s.log ==> !OrderTook(es, r))
  {
    MatchesAlways(Init(free), [], es);
    assert [] + es == es;
  }

  // ----- Who is available after a step -----

  /** A courier is available after a step exactly if he switched himself on or was given back in it, or was
      available before and neither switched himself off nor was claimed nor missed a third offer in it. */
  lemma AvailableAfter(s: State, e: Event, c: string)
    requires Enabled(s, e)
    ensures c in Apply(s, e).free <==>
            || e == SetAvailable(c, true)
            || (e.Assign? && !e.orderTook && e.written && Winner(s, e.r, c))
            || (&& c in s.free
                && e != SetAvailable(c, false)
                && !(e.Claim? && s.runs[e.r].phase.msg.resp.courier == c)
                && !(e.GoOffline? && e.written && s.runs[e.r].phase.courier == c))
  {
  }

  // ----- Why a winner is available again -----

  ghost predicate ClaimedAt(log: seq<Fact>, r: RunId, c: string, k: int) {
    0 <= k < |log| && log[k] == Claimed(r, c)
  }

  /** A release is of a courier that the search had claimed before, and a search has one at most. */
  ghost predicate ReleasesFollowClaims(s: State) {
    && (forall l, r, c :: 0 <= l < |s.log| && s.log[l] == Released(r, c) ==> exists k :: k < l && ClaimedAt(s.log, r, c, k))
    && (forall l :: 0 <= l < |s.log| && s.log[l].Released? ==> s.log[l].run in s.runs && s.runs[s.log[l].run].settled)
    && (forall m, l :: 0 <= m < l < |s.log| && s.log[m].Released? && s.log[l].Released? ==> s.log[m].run != s.log[l].run)
  }

  lemma ReleasesOnce(s: State, e: Event)
    requires Enabled(s, e) && ReleasesFollowClaims(s)
    ensures var t := Apply(s, e); forall l :: 0 <= l < |t.log| && t.log[l].Released? ==> t.log[l].run in t.runs && t.runs[t.log[l].run].settled
    ensures var t := Apply(s, e); forall m, l :: 0 <= m < l < |t.log| && t.log[m].Released? && t.log[l].Released? ==> t.log[m].run != t.log[l].run
  {
    var t, n := Apply(s, e), |s.log|;
    Locality(s, e);
    forall l | 0 <= l < |t.log| && t.log[l].Released? ensures t.log[l].run in t.runs && t.runs[t.log[l].run].settled {
      SettledStays(s, e, t.log[l].run);
      if l == n {
        NewRelease(s, e, t.log[l].run, t.log[l].courier);
      }
    }
    forall m | 0 <= m < n && t.log[m].Released? && |t.log| > n && t.log[n].Released? ensures t.log[m].run != t.log[n].run {
      NewRelease(s, e, t.log[n].run, t.log[n].courier);
    }
  }

  lemma KeepsReleasesFollowClaims(s: State, e: Event)
    requires Enabled(s, e) && Inv(s) && ReleasesFollowClaims(s)
    ensures ReleasesFollowClaims(Apply(s, e))
  {
    var log' := Apply(s, e).log;
    LogGrows(s, e);
    ReleasesOnce(s, e);
    forall l, r, c | 0 <= l < |log'| && log'[l] == Released(r, c) ensures exists k :: k < l && ClaimedAt(log', r, c, k) {
      if l == |s.log| {
        NewRelease(s, e, r, c);
      }
      ClaimBefore(s, log', l, r, c);
    }
  }

  lemma ClaimBefore(s: State, log: seq<Fact>, l: int, r: RunId, c: string)
    requires Inv(s) && ReleasesFollowClaims(s) && s.log <= log && |log| <= |s.log| + 1
    requires 0 <= l < |log| && log[l] == Released(r, c) && (l == |s.log| ==> Winner(s, r, c))
    ensures exists k :: k < l && ClaimedAt(log, r, c, k)
  {
    if l < |s.log| {
      ClaimLasts(s, log, l, r, c);
    } else {
      OwnClaimLasts(s, log, r, c);
    }
  }

  lemma LogGrows(s: State, e: Event)
    requires Enabled(s, e)
    ensures s.log <= Apply(s, e).log && |Apply(s, e).log| <= |s.log| + 1
  {
    Locality(s, e);
  }

  lemma OwnClaimLasts(s: State, log: seq<Fact>, r: RunId, c: string)
    requires Inv(s) && Winner(s, r, c) && s.log <= log
    ensures exists k :: k < |s.log| && ClaimedAt(log, r, c, k)
  {
    var k := WonByClaiming(s, r, c);
    assert ClaimedAt(log, r, c, k);
  }

  lemma ClaimLasts(s: State, log: seq<Fact>, l: int, r: RunId, c: string)
    requires ReleasesFollowClaims(s) && s.log <= log && 0 <= l < |s.log| && log[l] == Released(r, c)
    ensures exists k :: k < l && ClaimedAt(log, r, c, k)
  {
    assert s.log[l] == Released(r, c);
    var k :| k < l && ClaimedAt(s.log, r, c, k);
    assert ClaimedAt(log, r, c, k);
  }

  lemma WonByClaiming(s: State, r: RunId, c: string) returns (k: int)
    requires Inv(s) && Winner(s, r, c)
    ensures k < |s.log| && ClaimedAt(s.log, r, c, k)
  {
    assert PhaseOk(s.log, r, s.runs[r]);
    k := s.runs[r].phase.claimedAt;
  }

  lemma {:induction false} ReleasesFollowClaimsAlways(s: State, es: seq<Event>)
    requires Inv(s) && ReleasesFollowClaims(s) && ValidRun(s, es)
    ensures Inv(Exec(s, es)) && ReleasesFollowClaims(Exec(s, es))
    decreases |es|
  {
    if es != [] {
      KeepsInv(s, es[0]);
      KeepsReleasesFollowClaims(s, es[0]);
      ReleasesFollowClaimsAlways(Apply(s, es[0]), es[1..]);
    }
  }

  /** Somebody who won the courier before k gave him back at l. */
  ghost predicate GivenBackLate(log: seq<Fact>, c: string, k: int, l: int) {
    0 <= l < |log| && log[l].Released? && log[l].courier == c && exists m :: m < k && ClaimedAt(log, log[l].run, c, m)
  }

  /** Between i and j, c was made available in one of the three ways: by himself, by the search that won him
      at i, or by one that had won him before. */
  ghost predicate BackBetween(log: seq<Fact>, i: int, j: int, c: string)
    requires 0 <= i < |log| && log[i].Claimed?
  {
    exists l :: i < l < j && 0 <= l < |log| &&
      (log[l] == Freed(c) || log[l] == Released(log[i].run, c) || GivenBackLate(log, c, i, l))
  }

  lemma {:induction false} FirstFreeing(log: seq<Fact>, i: int, j: int, c: string) returns (l: int)
    requires 0 <= i && FreedBetween(log, i, j, c)
    ensures i < l < j && 0 <= l < |log| && Frees(log[l], c) && !FreedBetween(log, i, l, c)
    decreases j - i
  {
    l :| i < l < j && 0 <= l < |log| && Frees(log[l], c);
    if FreedBetween(log, i, l, c) {
      l := FirstFreeing(log, i, l, c);
    }
  }

  lemma ClaimedAgain(s: State, i: int, m: int, l: int, c: string)
    requires Exclusive(s) && 0 <= i < m < l < |s.log|
    requires s.log[i].Claimed? && s.log[i].courier == c && s.log[m].Claimed? && s.log[m].courier == c
    ensures FreedBetween(s.log, i, l, c)
  {
    assert FreedBetween(s.log, i, m, c);
  }

  /** The first freeing after a claim is of one of these kinds. */
  lemma FreeingIsOfAKind(s: State, i: int, j: int, c: string)
    requires Exclusive(s) && ReleasesFollowClaims(s) && 0 <= i < |s.log| && s.log[i].Claimed? && s.log[i].courier == c
    requires FreedBetween(s.log, i, j, c)
    ensures BackBetween(s.log, i, j, c)
  {
    var l := FirstFreeing(s.log, i, j, c);
    if s.log[l].Released? {
      var q := s.log[l].run;
      var m :| m < l && ClaimedAt(s.log, q, c, m);
      if i < m {
        ClaimedAgain(s, i, m, l, c);
      }
      assert m < i ==> GivenBackLate(s.log, c, i, l);
    }
  }

  /** Two searches win the same courier only if in between he switched himself on, or the first of them gave him
      back, or a search did that had won him even before. */
  lemma WonAgainBecause(s: State, r: RunId, q: RunId, c: string)
    requires Reachable(s) && Winner(s, r, c) && Winner(s, q, c) && s.runs[r].phase.claimedAt < s.runs[q].phase.claimedAt
    ensures var i, j := s.runs[r].phase.claimedAt, s.runs[q].phase.claimedAt;
            ClaimedAt(s.log, r, c, i) && ClaimedAt(s.log, q, c, j) && BackBetween(s.log, i, j, c)
  {
    ReachableOrder(s);
    WinnerIsSound(s, r);
    WinnerIsSound(s, q);
    FreeingIsOfAKind(s, s.runs[r].phase.claimedAt, s.runs[q].phase.claimedAt, c);
  }

  lemma ReachableOrder(s: State)
    requires Reachable(s)
    ensures Inv(s) && ReleasesFollowClaims(s)
  {
    var free, es :| ValidRun(Init(free), es) && s == Exec(Init(free), es);
    ReleasesFollowClaimsAlways(Init(free), es);
  }

  /** A courier whose order took him is available only if, since he was won, he switched himself on or a search
      gave him back that had won him before. */
  lemma TakenIsAvailableBecause(free: set<string>, es: seq<Event>, r: RunId, c: string)
    requires ValidRun(Init(free), es) && OrderTook(es, r) && Winner(Exec(Init(free), es), r, c)
    requires c in Exec(Init(free), es).free
    ensures var s := Exec(Init(free), es); var i := s.runs[r].phase.claimedAt;
            && ClaimedAt(s.log, r, c, i)
            && exists l :: i < l < |s.log| && (s.log[l] == Freed(c) || GivenBackLate(s.log, c, i, l))
  {
    var s := Exec(Init(free), es);
    assert Reachable(s);
    ReachableOrder(s);
    WinnerIsSound(s, r);
    var i := s.runs[r].phase.claimedAt;
    FreeingIsOfAKind(s, i, |s.log|, c);
    ReleasedExactly(free, es, r, c);
    var l :| i < l < |s.log| && (s.log[l] == Freed(c) || s.log[l] == Released(r, c) || GivenBackLate(s.log, c, i, l));
    assert s.log[l] == Released(r, c) ==> Released(r, c) in s.log;
  }

  // ----- When only the courier himself ends a delivery -----

  /** The courier switched himself on between being won by a search and being given back by it. */
  ghost predicate CameBackEarly(log: seq<Fact>, c: string) {
    exists q, k, m, l :: k < m < l && ClaimedAt(log, q, c, k) && 0 <= l < |log| && log[l] == Released(q, c) && log[m] == Freed(c)
  }

  /** If a courier was won by another search before he was given back, he had come back early. */
  lemma {:induction false} TwiceInHandMeansEarly(s: State, q: RunId, c: string, k: int, i: int, l: int)
    requires Exclusive(s) && ReleasesFollowClaims(s)
    requires k < i < l < |s.log| && ClaimedAt(s.log, q, c, k) && s.log[l] == Released(q, c)
    requires s.log[i].Claimed? && s.log[i].courier == c
    ensures CameBackEarly(s.log, c)
    decreases k
  {
    assert FreedBetween(s.log, k, i, c);
    FreeingIsOfAKind(s, k, i, c);
    var m :| k < m < i && (s.log[m] == Freed(c) || s.log[m] == Released(q, c) || GivenBackLate(s.log, c, k, m));
    if s.log[m] == Freed(c) {
      assert CameBackEarly(s.log, c);
    } else if s.log[m] != Released(q, c) {
      var p :| p < k && ClaimedAt(s.log, s.log[m].run, c, p);
      TwiceInHandMeansEarly(s, s.log[m].run, c, p, k, m);
    }
  }

  /** When the order took him and he had not come back early, nothing but the courier himself makes him available
      again. */
  lemma BusyUntilHeReturns(free: set<string>, es: seq<Event>, r: RunId, c: string)
    requires ValidRun(Init(free), es) && OrderTook(es, r) && Winner(Exec(Init(free), es), r, c)
    requires c in Exec(Init(free), es).free && !CameBackEarly(Exec(Init(free), es).log, c)
    ensures var s := Exec(Init(free), es); exists l :: s.runs[r].phase.claimedAt < l < |s.log| && s.log[l] == Freed(c)
  {
    var s := Exec(Init(free), es);
    assert Reachable(s);
    ReachableOrder(s);
    TakenIsAvailableBecause(free, es, r, c);
    var i := s.runs[r].phase.claimedAt;
    var l :| i < l < |s.log| && (s.log[l] == Freed(c) || GivenBackLate(s.log, c, i, l));
    if s.log[l] != Freed(c) {
      var k :| k < i && ClaimedAt(s.log, s.log[l].run, c, k);
      TwiceInHandMeansEarly(s, s.log[l].run, c, k, i, l);
    }
  }

  /** A search for the order offers it to c alone, who accepts: `es` are the events up to the receipt. */
  lemma HearsYes(s: State, r: RunId, o: string, c: string) returns (es: seq<Event>)
    requires r !in s.runs && o !in s.pending
    ensures ValidRun(s, es) && NoAssigns(es)
    ensures var t := Exec(s, es);
            && t.free == s.free && t.pending == s.pending[o := r] && t.runs.Keys == s.runs.Keys + {r}
            && (forall q :: q in s.runs ==> t.runs[q] == s.runs[q])
            && t.runs[r].order == o && t.runs[r].phase.Handling? && t.runs[r].phase.msg.resp == Response(c, true)
            && !t.runs[r].exited && !t.runs[r].settled && Quiet(s.log, t.log)
  {
    var s1, s2 := Opens(s, r, o, c);
    var s3, s4 := Hears(s2, r, o, c);
    es := [Register(r, o), OpenWave(r, [c]), Reply(o, Response(c, true)), Take(r)];
    Four(s, es);
  }

  lemma Opens(s: State, r: RunId, o: string, c: string) returns (s1: State, s2: State)
    requires r !in s.runs && o !in s.pending
    ensures Enabled(s, Register(r, o)) && s1 == Apply(s, Register(r, o))
    ensures Enabled(s1, OpenWave(r, [c])) && s2 == Apply(s1, OpenWave(r, [c]))
    ensures s2.free == s.free && s2.pending == s.pending[o := r] && s2.log == s.log + [Opened(r, [c])]
    ensures exists run :: s2.runs == s.runs[r := run] && run.order == o && run.phase == Awaiting && run.wave == {c} && run.ch == []
                          && !run.exited && !run.settled
  {
    s1 := Apply(s, Register(r, o));
    s2 := Apply(s1, OpenWave(r, [c]));
    assert s2.runs == s.runs[r := s2.runs[r]];
    assert Set([c]) == {c};
  }

  lemma Hears(s: State, r: RunId, o: string, c: string) returns (s1: State, s2: State)
    requires r in s.runs && o in s.pending && s.pending[o] == r && s.runs[r].phase == Awaiting && s.runs[r].wave == {c} && s.runs[r].ch == []
    ensures s1 == Apply(s, Reply(o, Response(c, true))) && Enabled(s1, Take(r)) && s2 == Apply(s1, Take(r))
    ensures s2.free == s.free && s2.pending == s.pending
    ensures s2.log == s.log + [Delivered(r, Response(c, true)), Taken(r, |s.log|)]
    ensures exists run :: s2.runs == s.runs[r := run] && run.order == s.runs[r].order && run.phase == Handling(Msg(Response(c, true), |s.log|))
                          && run.exited == s.runs[r].exited && run.settled == s.runs[r].settled
  {
    s1 := Apply(s, Reply(o, Response(c, true)));
    assert s1.runs[r].ch == [Msg(Response(c, true), |s.log|)];
    s2 := Apply(s1, Take(r));
    assert s2.runs == s.runs[r := s2.runs[r]];
  }

  lemma Before(s: State, e: Event, es: seq<Event>)
    requires Enabled(s, e) && ValidRun(Apply(s, e), es)
    ensures ValidRun(s, [e] + es) && Exec(s, [e] + es) == Exec(Apply(s, e), es)
  {
    assert ([e] + es)[1..] == es;
  }

  lemma One(s: State, e: Event)
    requires Enabled(s, e)
    ensures ValidRun(s, [e]) && Exec(s, [e]) == Apply(s, e)
  {
    Before(s, e, []);
    assert [e] + [] == [e];
  }

  lemma Four(s: State, es: seq<Event>)
    requires |es| == 4 && Enabled(s, es[0])
    requires var a := Apply(s, es[0]); Enabled(a, es[1]) && var b := Apply(a, es[1]); Enabled(b, es[2]) && Enabled(Apply(b, es[2]), es[3])
    ensures ValidRun(s, es)
    ensures Exec(s, es) == Apply(Apply(Apply(Apply(s, es[0]), es[1]), es[2]), es[3])
  {
    var a := Apply(s, es[0]);
    var b := Apply(a, es[1]);
    One(Apply(b, es[2]), es[3]);
    Before(b, es[2], [es[3]]);
    Before(a, es[1], [es[2]] + [es[3]]);
    Before(s, es[0], [es[1]] + ([es[2]] + [es[3]]));
    assert es == [es[0]] + ([es[1]] + ([es[2]] + [es[3]]));
  }

  ghost predicate NoAssigns(es: seq<Event>) {
    forall i :: 0 <= i < |es| ==> !es[i].Assign?
  }

  /** Nobody made himself available in what the log has grown by. */
  ghost predicate Quiet(log: seq<Fact>, longer: seq<Fact>) {
    log <= longer && forall l :: |log| <= l < |longer| ==> !longer[l].Freed? && !longer[l].Released?
  }

  /** It settles the reply, claims c and leaves. */
  lemma WinsAndLeaves(s: State, r: RunId, o: string, c: string) returns (es: seq<Event>)
    requires r in s.runs && o in s.pending && s.pending[o] == r && s.runs[r].order == o && !s.runs[r].exited && !s.runs[r].settled
    requires s.runs[r].phase.Handling? && s.runs[r].phase.msg.resp == Response(c, true) && c in s.free
    ensures ValidRun(s, es) && NoAssigns(es)
    ensures var t := Exec(s, es);
            && t.free == s.free - {c} && t.pending == s.pending - {o} && t.runs.Keys == s.runs.Keys
            && (forall q :: q in s.runs && q != r ==> t.runs[q] == s.runs[q])
            && Winner(t, r, c) && t.runs[r].exited && !t.runs[r].settled
            && |s.log| <= t.runs[r].phase.claimedAt < |t.log| && Quiet(s.log, t.log)
  {
    var s1 := Apply(s, Settle(r));
    var s2 := Apply(s1, Claim(r));
    var s3 := Apply(s2, Exit(r));
    es := [Settle(r), Claim(r), Exit(r), CancelSearch(o)];
    assert o !in s3.pending;
    assert Apply(s3, CancelSearch(o)) == s3;
    Four(s, es);
  }

  lemma {:induction false} Joined(s: State, a: seq<Event>, b: seq<Event>)
    requires ValidRun(s, a) && ValidRun(Exec(s, a), b)
    ensures ValidRun(s, a + b) && Exec(s, a + b) == Exec(Exec(s, a), b)
    decreases |a|
  {
    if a == [] {
      assert a + b == b;
    } else {
      Joined(Apply(s, a[0]), a[1..], b);
      assert (a + b)[1..] == a[1..] + b;
    }
  }

  lemma WinsAlone(s: State, r: RunId, o: string, c: string) returns (es: seq<Event>)
    requires r !in s.runs && o !in s.pending && c in s.free
    ensures ValidRun(s, es) && NoAssigns(es)
    ensures var t := Exec(s, es);
            && t.free == s.free - {c} && t.pending == s.pending && t.runs.Keys == s.runs.Keys + {r}
            && (forall q :: q in s.runs ==> t.runs[q] == s.runs[q])
            && Winner(t, r, c) && t.runs[r].exited && !t.runs[r].settled
            && |s.log| <= t.runs[r].phase.claimedAt < |t.log| && Quiet(s.log, t.log)
  {
    var a := HearsYes(s, r, o, c);
    var b := WinsAndLeaves(Exec(s, a), r, o, c);
    Joined(s, a, b);
    es := a + b;
  }

  /** Otherwise a search may give back a courier whom another order has taken meanwhile: he is available during
      that delivery though he did not switch himself on since. */
  lemma BusyCourierIsGivenBack(c: string, o: string, p: string) returns (es: seq<Event>)
    ensures ValidRun(Init({c}), es)
    ensures var s := Exec(Init({c}), es);
            && OrderTook(es, 1) && Winner(s, 1, c) && c in s.free
            && forall l :: s.runs[1].phase.claimedAt < l < |s.log| ==> s.log[l] != Freed(c)
  {
    var a := WinsAlone(Init({c}), 0, o, c);
    var s1 := Exec(Init({c}), a);
    var back := [SetAvailable(c, true)];
    var s2 := Apply(s1, back[0]);
    One(s1, back[0]);
    Joined(Init({c}), a, back);
    var b := WinsAlone(s2, 1, p, c);
    Joined(Init({c}), a + back, b);
    var s3 := Exec(s2, b);
    var before := a + back + b;
    var ends := LateRelease(s3, o, c);
    Joined(Init({c}), before, ends);
    es := before + ends;
    assert es[|before|] == Assign(1, true, true);
    var log := Exec(s3, ends).log;
    forall l | s3.runs[1].phase.claimedAt < l < |log| ensures log[l] != Freed(c) {
      if l < |s3.log| {
        assert log[l] == s3.log[l];
      }
    }
  }

  lemma LateRelease(s: State, o: string, c: string) returns (es: seq<Event>)
    requires 0 in s.runs && 1 in s.runs && Winner(s, 0, c) && Winner(s, 1, c) && o !in s.pending
    requires s.runs[0].exited && !s.runs[0].settled && s.runs[1].exited && !s.runs[1].settled
    ensures es != [] && es[0] == Assign(1, true, true) && ValidRun(s, es)
    ensures var t := Exec(s, es);
            Winner(t, 1, c) && c in t.free && t.runs[1].phase == s.runs[1].phase && t.log == s.log + [Released(0, c)]
  {
    es := [Assign(1, true, true), Assign(0, false, true), CancelSearch(o), CancelSearch(o)];
    Four(s, es);
  }

  // ----- The objects -----

  /** The couriers' table, and the two writers of it that a search has. */
  class CourierTable {
    var free: set<string>

    /** One atomic update: of several that want the courier one gets him. */
    method ClaimIfAvailable(c: string) returns (claimed: bool)
      modifies this
      ensures claimed <==> c in old(free)
      ensures free == old(free) - {c}
    {
      claimed := c in free;
      if claimed {
        free := free - {c};
      }
    }

    method SetAvailable(c: string, available: bool, written: bool)
      modifies this
      ensures free == if !written then old(free) else if available then old(free) + {c} else old(free) - {c}
    {
      if written {
        free := if available then free + {c} else free - {c};
      }
    }

    /** The end of dispatchOrder for the winner of a search: the table is as after the protocol's step. */
    method AssignWinner(ghost s: State, r: RunId, c: string, orderTook: bool, written: bool) returns (done: bool)
      requires Enabled(s, Assign(r, orderTook, written)) && Winner(s, r, c) && s.free == free
      modifies this
      ensures free == Apply(s, Assign(r, orderTook, written)).free
      ensures done <==> orderTook
      ensures done ==> free == old(free)
      ensures !done && written ==> c in free
    {
      if !orderTook {
        SetAvailable(c, true, written);
        return false;
      }
      return true;
    }
  }
}
