/** What still becomes of replies in a search's channel, and of its offers (internal/couriers/dispatch.go). */
module LateReplies {
  // HandleResponse answers true for a reply that it puts into the channel. Whether the search ever receives it
  // depends on where the search is: between two waves the old wave stays registered, and opening the next one
  // empties the channel. And a search that Cancel has taken out of the table goes on with what it has.

  import opened Outcomes
  import opened Dispatch

  predicate InWave(phase: Phase) {
    phase == Awaiting || phase.Handling? || phase.Claiming?
  }

  // ----- Which replies are received -----

  /** Reply i of the channel comes before the wave has had as many replies as couriers. */
  predicate InTime(run: Run, i: nat) {
    InWave(run.phase) && |run.taken| + i < |run.ids|
  }

  ghost predicate CanBeReceived(s: State, r: RunId, at: nat) {
    exists es :: ValidRun(s, es) && Taken(r, at) in Exec(s, es).log
  }

  /** The reply has not been received, and if it is still in the channel it is not there in time. */
  ghost predicate Lost(s: State, r: RunId, at: nat) {
    && r in s.runs && at < |s.log| && Taken(r, at) !in s.log
    && forall i :: 0 <= i < |s.runs[r].ch| && s.runs[r].ch[i].at == at ==> !InTime(s.runs[r], i)
  }

  lemma StaysLost(s: State, e: Event, r: RunId, at: nat)
    requires Enabled(s, e) && Inv(s) && Lost(s, r, at)
    ensures Lost(Apply(s, e), r, at)
  {
    var s' := Apply(s, e);
    Locality(s, e);
    OrderStays(s, e, r);
    assert PhaseOk(s.log, r, s.runs[r]);
    NotTakenNow(s, e, r, at);
    forall i | 0 <= i < |s'.runs[r].ch| && s'.runs[r].ch[i].at == at ensures !InTime(s'.runs[r], i) {
      StillNotInTime(s, e, r, i);
    }
  }

  lemma NotTakenNow(s: State, e: Event, r: RunId, at: nat)
    requires Enabled(s, e) && Inv(s) && Lost(s, r, at)
    ensures Taken(r, at) !in Apply(s, e).log
  {
    Locality(s, e);
    NotItsHead(s, e, r, at);
    NotInLonger(s.log, Apply(s, e).log, Taken(r, at));
  }

  lemma NotInLonger(log: seq<Fact>, longer: seq<Fact>, f: Fact)
    requires log <= longer && |longer| <= |log| + 1 && f !in log && (|longer| > |log| ==> longer[|log|] != f)
    ensures f !in longer
  {
  }

  lemma NotItsHead(s: State, e: Event, r: RunId, at: nat)
    requires Enabled(s, e) && Inv(s) && Lost(s, r, at)
    ensures |Apply(s, e).log| > |s.log| ==> Apply(s, e).log[|s.log|] != Taken(r, at)
  {
    ReceiptIsHead(s, e);
    if e == Take(r) {
      HeadIsInTime(s, r);
    }
  }

  lemma HeadIsInTime(s: State, r: RunId)
    requires Enabled(s, Take(r)) && Phases(s)
    ensures InTime(s.runs[r], 0)
  {
    assert PhaseOk(s.log, r, s.runs[r]);
  }

  lemma StillNotInTime(s: State, e: Event, r: RunId, i: nat)
    requires Enabled(s, e) && Inv(s) && r in s.runs && r in Apply(s, e).runs && i < |Apply(s, e).runs[r].ch|
    requires Lost(s, r, Apply(s, e).runs[r].ch[i].at)
    ensures !InTime(Apply(s, e).runs[r], i)
  {
    var run, run' := s.runs[r], Apply(s, e).runs[r];
    if Target(s, e) != Some(r) {
      Locality(s, e);
    } else if e.Take? {
      assert run'.ch[i] == run.ch[i + 1];
    } else {
      QueueGrowth(s, e, r, i);
      PhaseMoves(s, e, r);
    }
  }

  /** A search that is in no wave gets into one only by opening it, with an empty channel. */
  lemma PhaseMoves(s: State, e: Event, r: RunId)
    requires Enabled(s, e) && Inv(s) && r in s.runs && r in Apply(s, e).runs && !e.Take?
    ensures var run, run' := s.runs[r], Apply(s, e).runs[r];
            || run'.ch == []
            || (run'.ids == run.ids && run'.taken == run.taken && (InWave(run'.phase) ==> InWave(run.phase)))
  {
    if e.Register? || e.OpenWave? {
      if Target(s, e) != Some(r) {
        Locality(s, e);
      }
    } else if e.Reply? {
      ReplyMoves(s, e.order, e.resp, r);
    } else {
      OnlyTheseTouchTheWave(s, e, r);
      if InWave(Apply(s, e).runs[r].phase) && !InWave(s.runs[r].phase) {
        WaveIsOpened(s, e, r);
      }
    }
  }

  lemma ReplyMoves(s: State, o: string, resp: Response, r: RunId)
    requires r in s.runs && r in DoReply(s, o, resp).runs
    ensures var run, run' := s.runs[r], DoReply(s, o, resp).runs[r];
            run'.ids == run.ids && run'.taken == run.taken && run'.phase == run.phase
  {
  }

  lemma WaveIsOpened(s: State, e: Event, r: RunId)
    requires Enabled(s, e) && r in s.runs && r in Apply(s, e).runs
    requires InWave(Apply(s, e).runs[r].phase) && !InWave(s.runs[r].phase)
    ensures e.OpenWave?
  {
  }

  lemma {:induction false} LostForEver(s: State, es: seq<Event>, r: RunId, at: nat)
    requires Inv(s) && ValidRun(s, es) && Lost(s, r, at)
    ensures Taken(r, at) !in Exec(s, es).log
    decreases |es|
  {
    if es != [] {
      KeepsInv(s, es[0]);
      StaysLost(s, es[0], r, at);
      LostForEver(Apply(s, es[0]), es[1..], r, at);
    }
  }

  lemma Then(s: State, e: Event, es: seq<Event>)
    requires Enabled(s, e) && ValidRun(Apply(s, e), es)
    ensures ValidRun(s, [e] + es) && Exec(s, [e] + es) == Exec(Apply(s, e), es)
  {
    assert ([e] + es)[1..] == es;
  }

  /** The step that brings the search nearer to its next receipt: refusals count up, and so does an
      acceptance whose courier is no longer available. */
  function TowardsReceipt(s: State, r: RunId): Event
    requires r in s.runs && InWave(s.runs[r].phase)
  {
    match s.runs[r].phase
    case Handling(_) => Settle(r)
    case Claiming(m) => if m.resp.courier in s.free then SetAvailable(m.resp.courier, false) else Claim(r)
    case _ => Take(r)
  }

  function Distance(s: State, r: RunId): nat
    requires r in s.runs
  {
    var run := s.runs[r];
    match run.phase
    case Handling(_) => 4 * |run.ch| + 3
    case Claiming(m) => 4 * |run.ch| + (if m.resp.courier in s.free then 2 else 1)
    case _ => 4 * |run.ch|
  }

  lemma TakeMoves(s: State, r: RunId)
    requires Enabled(s, Take(r)) && Phases(s)
    ensures var run, run' := s.runs[r], DoTake(s, r).runs[r];
            && run'.phase == Handling(run.ch[0]) && run'.ch == run.ch[1..]
            && |run'.taken| == |run.taken| + 1 && run'.ids == run.ids && InTime(run, 0)
  {
    HeadIsInTime(s, r);
  }

  lemma SettleMoves(s: State, r: RunId)
    requires Enabled(s, Settle(r)) && Phases(s)
    ensures var run, run' := s.runs[r], DoSettle(s, r).runs[r]; var m := run.phase.msg;
            && run'.ch == run.ch && run'.taken == run.taken && run'.ids == run.ids
            && run'.shown == run.shown && run'.wave == run.wave
            && run'.phase == if m.resp.accepted then Claiming(m) else if |run.taken| >= |run.ids| then Between else Awaiting
  {
    assert PhaseOk(s.log, r, s.runs[r]);
  }

  lemma ClaimMoves(s: State, r: RunId)
    requires Enabled(s, Claim(r)) && Phases(s)
    ensures var run, run' := s.runs[r], DoClaim(s, r).runs[r]; var m := run.phase.msg;
            && run'.ch == run.ch && run'.taken == run.taken && run'.ids == run.ids && run'.wave == run.wave
            && if m.resp.courier in s.free then run'.phase.Won? && run'.phase.msg == m
               else run'.shown == run.shown && run'.phase == if |run.taken| >= |run.ids| then Between else Awaiting
  {
    assert PhaseOk(s.log, r, s.runs[r]);
  }

  lemma OneStepNearer(s: State, r: RunId, i: nat)
    requires Inv(s) && r in s.runs && i < |s.runs[r].ch| && InTime(s.runs[r], i)
    requires !(s.runs[r].phase == Awaiting && i == 0)
    ensures var e := TowardsReceipt(s, r); var j := if e.Take? then i - 1 else i;
            && Enabled(s, e) && r in Apply(s, e).runs && Distance(Apply(s, e), r) < Distance(s, r)
            && 0 <= j < |Apply(s, e).runs[r].ch| && InTime(Apply(s, e).runs[r], j)
            && Apply(s, e).runs[r].ch[j] == s.runs[r].ch[i]
  {
    if s.runs[r].phase.Handling? {
      SettleMoves(s, r);
      assert Apply(s, Settle(r)) == DoSettle(s, r);
    } else if s.runs[r].phase.Claiming? {
      ClaimNearer(s, r);
    } else {
      TakeMoves(s, r);
      assert Apply(s, Take(r)) == DoTake(s, r);
    }
  }

  lemma ClaimNearer(s: State, r: RunId)
    requires Inv(s) && r in s.runs && s.runs[r].phase.Claiming?
    ensures var e := TowardsReceipt(s, r);
            && Enabled(s, e) && r in Apply(s, e).runs && Distance(Apply(s, e), r) < Distance(s, r)
            && var run, run' := s.runs[r], Apply(s, e).runs[r];
               run'.ch == run.ch && run'.taken == run.taken && run'.ids == run.ids
               && (|run.taken| < |run.ids| ==> InWave(run'.phase))
    ensures !TowardsReceipt(s, r).Take?
  {
    var c := s.runs[r].phase.msg.resp.courier;
    if c in s.free {
      assert Apply(s, SetAvailable(c, false)).runs == s.runs;
    } else {
      ClaimMoves(s, r);
      assert Apply(s, Claim(r)) == DoClaim(s, r);
    }
  }

  lemma {:induction false} InTimeIsReceived(s: State, r: RunId, i: nat) returns (es: seq<Event>)
    requires Inv(s) && r in s.runs && i < |s.runs[r].ch| && InTime(s.runs[r], i)
    ensures ValidRun(s, es) && Taken(r, s.runs[r].ch[i].at) in Exec(s, es).log
    decreases Distance(s, r)
  {
    var e := TowardsReceipt(s, r);
    if s.runs[r].phase == Awaiting && i == 0 {
      ReceiptIsHead(s, e);
      es := [];
    } else {
      OneStepNearer(s, r, i);
      KeepsInv(s, e);
      es := InTimeIsReceived(Apply(s, e), r, if e.Take? then i - 1 else i);
    }
    Then(s, e, es);
    es := [e] + es;
  }

  lemma InTheChannelOnce(run: Run, i: nat)
    requires Increasing(run.taken + run.ch) && i < |run.ch|
    ensures forall j :: 0 <= j < |run.ch| && run.ch[j].at == run.ch[i].at ==> j == i
  {
    var both := run.taken + run.ch;
    forall j | 0 <= j < |run.ch| && run.ch[j].at == run.ch[i].at ensures j == i {
      assert both[|run.taken| + i] == run.ch[i] && both[|run.taken| + j] == run.ch[j];
    }
  }

  /** A reply in the channel, for which the courier was told true, may still be received exactly if its wave
      is under way and has not had too many replies before it; else no continuation receives it. So those
      are lost that come between two waves or behind as many replies as the wave has couriers. */
  lemma ReceivedExactly(s: State, r: RunId, i: nat)
    requires Reachable(s) && r in s.runs && i < |s.runs[r].ch|
    ensures CanBeReceived(s, r, s.runs[r].ch[i].at) <==> InTime(s.runs[r], i)
  {
    ReachableInv(s);
    var run := s.runs[r];
    if InTime(run, i) {
      var es := InTimeIsReceived(s, r, i);
    } else {
      var at := run.ch[i].at;
      assert WaveOk(s.log, r, run) && Sent(s.log, r, run, run.ch[i]);
      InTheChannelOnce(run, i);
      forall es | ValidRun(s, es) ensures Taken(r, at) !in Exec(s, es).log {
        LostForEver(s, es, r, at);
      }
    }
  }

  // ----- Which cancelled searches win -----

  predicate AcceptedInTime(run: Run) {
    exists i :: 0 <= i < |run.ch| && |run.taken| + i < |run.ids| && run.ch[i].resp.accepted
  }

  /** The search has won, is about to claim, or will come to an acceptance in its channel. */
  predicate HasAcceptance(run: Run) {
    match run.phase
    case Won(_, _) => true
    case Claiming(_) => true
    case Handling(m) => m.resp.accepted || AcceptedInTime(run)
    case Awaiting => AcceptedInTime(run)
    case _ => false
  }

  ghost predicate CanWin(s: State, r: RunId) {
    exists es :: ValidRun(s, es) && r in Exec(s, es).runs && Exec(s, es).runs[r].phase.Won?
  }

  predicate OutOfTheTable(s: State, r: RunId) {
    forall o :: o in s.pending ==> s.pending[o] != r
  }

  /** Without an acceptance in its channel, and out of reach of replies, a search gets none. */
  lemma GetsNoAcceptance(s: State, e: Event, r: RunId)
    requires Enabled(s, e) && Inv(s) && r in s.runs && OutOfTheTable(s, r) && !HasAcceptance(s.runs[r])
    ensures r in Apply(s, e).runs && OutOfTheTable(Apply(s, e), r) && !HasAcceptance(Apply(s, e).runs[r])
  {
    RegistrationsChange(s, e);
    OrderStays(s, e, r);
    if Target(s, e) != Some(r) {
      Locality(s, e);
    } else {
      OwnStepGetsNone(s, e, r);
    }
  }

  lemma OwnStepGetsNone(s: State, e: Event, r: RunId)
    requires Enabled(s, e) && Inv(s) && r in s.runs && OutOfTheTable(s, r) && Target(s, e) == Some(r)
    requires r in Apply(s, e).runs && !HasAcceptance(s.runs[r])
    ensures !HasAcceptance(Apply(s, e).runs[r])
  {
    var run, run' := s.runs[r], Apply(s, e).runs[r];
    if e.Take? {
      TakesNoAcceptance(s, r);
    } else if e.OpenWave? {
      assert run'.ch == [];
    } else if e.Reply? || e.Register? {
      assert false;
    } else {
      OnlyTheseTouchTheWave(s, e, r);
      ComesToNoAcceptance(s, e, r);
    }
  }

  lemma TakesNoAcceptance(s: State, r: RunId)
    requires Enabled(s, Take(r)) && Phases(s) && !HasAcceptance(s.runs[r])
    ensures !HasAcceptance(DoTake(s, r).runs[r])
  {
    var run, run' := s.runs[r], DoTake(s, r).runs[r];
    HeadIsInTime(s, r);
    assert !run.ch[0].resp.accepted;
    forall i | 0 <= i < |run'.ch| && |run'.taken| + i < |run'.ids| ensures !run'.ch[i].resp.accepted {
      assert run'.ch[i] == run.ch[i + 1];
    }
  }

  /** The channel stays as it is, and a search that is to come to it was on its way there. */
  lemma ComesToNoAcceptance(s: State, e: Event, r: RunId)
    requires Enabled(s, e) && Target(s, e) == Some(r) && !e.Take? && !e.OpenWave? && !e.Reply? && !e.Register?
    requires r in s.runs && r in Apply(s, e).runs && SameWave(s.runs[r], Apply(s, e).runs[r]) && !HasAcceptance(s.runs[r])
    ensures !HasAcceptance(Apply(s, e).runs[r])
  {
    assert AcceptedInTime(Apply(s, e).runs[r]) ==> AcceptedInTime(s.runs[r]);
  }

  lemma {:induction false} NeverWins(s: State, es: seq<Event>, r: RunId)
    requires Inv(s) && ValidRun(s, es) && r in s.runs && OutOfTheTable(s, r) && !HasAcceptance(s.runs[r])
    ensures r in Exec(s, es).runs && !Exec(s, es).runs[r].phase.Won?
    decreases |es|
  {
    if es != [] {
      KeepsInv(s, es[0]);
      GetsNoAcceptance(s, es[0], r);
      NeverWins(Apply(s, es[0]), es[1..], r);
    }
  }

  function TowardsWin(s: State, r: RunId): Event
    requires r in s.runs
  {
    match s.runs[r].phase
    case Handling(_) => Settle(r)
    case Claiming(m) => if m.resp.courier in s.free then Claim(r) else SetAvailable(m.resp.courier, true)
    case _ => Take(r)
  }

  function WinDistance(s: State, r: RunId): nat
    requires r in s.runs
  {
    var run := s.runs[r];
    match run.phase
    case Won(_, _) => 0
    case Handling(_) => 3 * |run.ch| + 5
    case Claiming(m) => if m.resp.courier in s.free then 1 else 2
    case _ => 3 * |run.ch| + 4
  }

  lemma OneStepToWin(s: State, r: RunId)
    requires Inv(s) && r in s.runs && HasAcceptance(s.runs[r]) && !s.runs[r].phase.Won?
    ensures var e := TowardsWin(s, r);
            && Enabled(s, e) && r in Apply(s, e).runs
            && HasAcceptance(Apply(s, e).runs[r]) && WinDistance(Apply(s, e), r) < WinDistance(s, r)
  {
    if s.runs[r].phase.Handling? {
      SettleToWin(s, r);
    } else if s.runs[r].phase.Claiming? {
      ClaimToWin(s, r);
    } else {
      TakeToWin(s, r);
    }
  }

  lemma SettleToWin(s: State, r: RunId)
    requires Inv(s) && r in s.runs && HasAcceptance(s.runs[r]) && s.runs[r].phase.Handling?
    ensures HasAcceptance(Apply(s, Settle(r)).runs[r]) && WinDistance(Apply(s, Settle(r)), r) < WinDistance(s, r)
  {
    SettleMoves(s, r);
    var run, run' := s.runs[r], DoSettle(s, r).runs[r];
    assert AcceptedInTime(run') == AcceptedInTime(run);
    assert Apply(s, Settle(r)) == DoSettle(s, r);
  }

  lemma ClaimToWin(s: State, r: RunId)
    requires Inv(s) && r in s.runs && s.runs[r].phase.Claiming?
    ensures var e := TowardsWin(s, r);
            && Enabled(s, e) && r in Apply(s, e).runs
            && HasAcceptance(Apply(s, e).runs[r]) && WinDistance(Apply(s, e), r) < WinDistance(s, r)
  {
    var c := s.runs[r].phase.msg.resp.courier;
    if c in s.free {
      ClaimMoves(s, r);
      assert Apply(s, Claim(r)) == DoClaim(s, r);
    } else {
      assert Apply(s, SetAvailable(c, true)).runs == s.runs;
    }
  }

  lemma TakeToWin(s: State, r: RunId)
    requires Inv(s) && r in s.runs && s.runs[r].phase == Awaiting && AcceptedInTime(s.runs[r])
    ensures Enabled(s, Take(r)) && HasAcceptance(Apply(s, Take(r)).runs[r]) && WinDistance(Apply(s, Take(r)), r) < WinDistance(s, r)
  {
    TakeMoves(s, r);
    TakingKeepsAcceptance(s.runs[r], DoTake(s, r).runs[r]);
    assert Apply(s, Take(r)) == DoTake(s, r);
  }

  lemma TakingKeepsAcceptance(run: Run, run': Run)
    requires AcceptedInTime(run) && run'.ids == run.ids && |run'.taken| == |run.taken| + 1 && run'.ch == run.ch[1..]
    ensures run.ch[0].resp.accepted || AcceptedInTime(run')
  {
    var i :| 0 <= i < |run.ch| && |run.taken| + i < |run.ids| && run.ch[i].resp.accepted;
    if i > 0 {
      assert run'.ch[i - 1] == run.ch[i];
    }
  }

  lemma {:induction false} AcceptanceWins(s: State, r: RunId) returns (es: seq<Event>)
    requires Inv(s) && r in s.runs && HasAcceptance(s.runs[r])
    ensures ValidRun(s, es) && r in Exec(s, es).runs && Exec(s, es).runs[r].phase.Won?
    decreases WinDistance(s, r)
  {
    es := [];
    if !s.runs[r].phase.Won? {
      var e := TowardsWin(s, r);
      OneStepToWin(s, r);
      KeepsInv(s, e);
      es := AcceptanceWins(Apply(s, e), r);
      Then(s, e, es);
      es := [e] + es;
    }
  }

  /** A search that has been cancelled (or has left) may still win exactly if it has won, is about to claim, or
      has an acceptance to handle or in its channel before the wave has had as many replies as couriers. */
  lemma CancelledSearchWinsExactly(s: State, r: RunId)
    requires Reachable(s) && r in s.runs && Detached(r) in s.log
    ensures CanWin(s, r) <==> HasAcceptance(s.runs[r])
  {
    ReachableInv(s);
    if HasAcceptance(s.runs[r]) {
      var es := AcceptanceWins(s, r);
    } else {
      forall es | ValidRun(s, es) ensures r in Exec(s, es).runs && !Exec(s, es).runs[r].phase.Won? {
        NeverWins(s, es, r);
      }
    }
  }

  // ----- Which offers are withdrawn -----

  /** What is left of a wave's offers when it ends: all of them after refusals or a failed claim, for nobody
      withdraws these; the winner's after a win; none when time runs out or the search is cancelled. */
  lemma OffersAfterTheWave(s: State, e: Event, r: RunId)
    requires Reachable(s) && Enabled(s, e) && r in s.runs && r in Apply(s, e).runs
    requires InWave(s.runs[r].phase) && !InWave(Apply(s, e).runs[r].phase)
    ensures var run, run' := s.runs[r], Apply(s, e).runs[r];
            run'.shown * run.wave ==
              if run'.phase.Won? then {run'.phase.msg.resp.courier}
              else if e.Expire? || e.Stop? then {}
              else run.wave
    ensures e == Settle(r) || e == Claim(r) || e == ClaimError(r) || e == Expire(r) || e == Stop(r)
  {
    ReachableInv(s);
    var run := s.runs[r];
    assert PhaseOk(s.log, r, run);
    WaveEnds(s, e, r);
    if e.Claim? {
      ClaimMoves(s, r);
      WinnersOffer(s, r);
      assert Apply(s, e) == DoClaim(s, r);
    } else if e.Settle? {
      SettleMoves(s, r);
      assert Apply(s, e) == DoSettle(s, r);
    } else {
      EndsAtOnce(s, e, r);
    }
  }

  lemma WinnersOffer(s: State, r: RunId)
    requires Inv(s) && Enabled(s, Claim(r))
    ensures var run, run' := s.runs[r], DoClaim(s, r).runs[r];
            run'.phase.Won? ==> run'.shown * run.wave == {run.phase.msg.resp.courier}
  {
    var run := s.runs[r];
    var c := run.phase.msg.resp.courier;
    assert PhaseOk(s.log, r, run) && WaveOk(s.log, r, run);
    assert Sent(s.log, r, run, run.taken[|run.taken| - 1]);
    OneOfThemStays(run.shown, run.wave, c);
    WinWithdraws(s, r);
  }

  lemma WinWithdraws(s: State, r: RunId)
    requires Enabled(s, Claim(r))
    ensures var run, run' := s.runs[r], DoClaim(s, r).runs[r];
            run'.phase.Won? ==> run'.shown == run.shown - (run.wave - {run.phase.msg.resp.courier})
  {
  }

  lemma OneOfThemStays(shown: set<string>, wave: set<string>, c: string)
    requires c in wave && wave <= shown
    ensures (shown - (wave - {c})) * wave == {c}
  {
  }

  lemma EndsAtOnce(s: State, e: Event, r: RunId)
    requires Enabled(s, e) && (e == ClaimError(r) || e == Expire(r) || e == Stop(r)) && InWave(s.runs[r].phase)
    requires s.runs[r].wave <= s.runs[r].shown
    ensures var run, run' := s.runs[r], Apply(s, e).runs[r];
            !run'.phase.Won? && run'.shown * run.wave == if e.ClaimError? then run.wave else {}
  {
  }

  lemma WaveEnds(s: State, e: Event, r: RunId)
    requires Enabled(s, e) && r in s.runs && r in Apply(s, e).runs
    requires InWave(s.runs[r].phase) && !InWave(Apply(s, e).runs[r].phase)
    ensures e == Settle(r) || e == Claim(r) || e == ClaimError(r) || e == Expire(r) || e == Stop(r)
  {
  }
}
