/** Every outcome of Dispatcher.AwaitWave is an outcome of the protocol in module Dispatch: whatever wakes
    the loop up, the protocol has a run in which the search ends up the same way and with the same counters
    of missed offers. */
module DispatchRuns {
  import opened Dispatch
  import opened Dispatcher

  /** The search waits for its wave, with nothing in its channel. */
  ghost predicate Listening(s: State, r: RunId) {
    && Reachable(s) && r in s.runs
    && s.runs[r].order in s.pending && s.pending[s.runs[r].order] == r
    && s.runs[r].phase == Awaiting && s.runs[r].ch == []
  }

  predicate SameSearch(a: Run, b: Run) { a.order == b.order && a.ids == b.ids && a.wave == b.wave }

  /** The replies are from couriers of the wave, as HandleResponse makes sure. */
  ghost predicate FromWave(wave: set<string>, wakes: seq<Wake>) {
    forall j :: 0 <= j < |wakes| && wakes[j].Answer? ==> wakes[j].resp.courier in wave
  }

  /** A reply is delivered, received and takes the courier's misses away. */
  lemma Hear(s: State, r: RunId, resp: Response) returns (s': State)
    requires Listening(s, r) && resp.courier in s.runs[r].wave
    ensures Reachable(s') && r in s'.runs && s'.pending == s.pending && SameSearch(s.runs[r], s'.runs[r])
    ensures s'.missed == s.missed - {resp.courier}
    ensures var run, run' := s.runs[r], s'.runs[r];
            && run'.ch == [] && run'.answered == run.answered + {resp.courier}
            && (if resp.accepted then run'.phase.Claiming? && run'.phase.msg.resp == resp && run'.rejected == run.rejected
                else run'.rejected == run.rejected + 1
                     && run'.phase == if run.rejected + 1 >= |run.ids| then Between else Awaiting)
  {
    s' := Next(s, Reply(s.runs[r].order, resp));
    s' := Next(s', Take(r));
    s' := Next(s', Settle(r));
  }

  /** One that has to be claimed, from a courier who is available or is not. */
  lemma TryToClaim(s: State, r: RunId, free: bool) returns (s': State)
    requires Reachable(s) && r in s.runs && s.runs[r].phase.Claiming?
    ensures Reachable(s') && r in s'.runs && s'.pending == s.pending && SameSearch(s.runs[r], s'.runs[r])
    ensures s'.missed == s.missed
    ensures var run, run' := s.runs[r], s'.runs[r];
            && run'.ch == run.ch && run'.answered == run.answered
            && (if free then run'.phase.Won? && run'.phase.msg == run.phase.msg
                else run'.rejected == run.rejected + 1
                     && run'.phase == if run.rejected + 1 >= |run.ids| then Between else Awaiting)
  {
    s' := Next(s, SetAvailable(s.runs[r].phase.msg.resp.courier, free));
    s' := Next(s', Claim(r));
  }

  lemma Refuse(s: State, r: RunId, w: Wake) returns (s': State)
    requires Listening(s, r) && Refusal(w) && w.resp.courier in s.runs[r].wave
    ensures Reachable(s') && r in s'.runs && s'.pending == s.pending && SameSearch(s.runs[r], s'.runs[r])
    ensures s'.missed == s.missed - {w.resp.courier}
    ensures var run, run' := s.runs[r], s'.runs[r];
            && run'.ch == [] && run'.answered == run.answered + {w.resp.courier} && run'.rejected == run.rejected + 1
            && run'.phase == if run.rejected + 1 >= |run.ids| then Between else Awaiting
  {
    s' := Hear(s, r, w.resp);
    if w.resp.accepted {
      s' := TryToClaim(s', r, false);
    }
  }

  /** The first n wakes are refusals and leave somebody to wait for. */
  lemma {:induction false} RefuseAll(s: State, r: RunId, wakes: seq<Wake>, n: nat) returns (s': State)
    requires Listening(s, r) && s.runs[r].rejected == 0 && s.runs[r].answered == {}
    requires n <= |wakes| && n < |s.runs[r].ids| && (forall j :: 0 <= j < n ==> Refusal(wakes[j]))
    requires FromWave(s.runs[r].wave, wakes[..n])
    ensures Listening(s', r) && SameSearch(s.runs[r], s'.runs[r])
    ensures s'.runs[r].rejected == n && s'.runs[r].answered == Replied(wakes[..n])
    ensures forall c :: Count(s'.missed, c) == if c in Replied(wakes[..n]) then 0 else Count(s.missed, c)
  {
    if n == 0 {
      s' := s;
    } else {
      assert forall j :: 0 <= j < n - 1 ==> wakes[..n - 1][j] == wakes[..n][j];
      var before := RefuseAll(s, r, wakes, n - 1);
      assert wakes[..n][n - 1] == wakes[n - 1];
      s' := Refuse(before, r, wakes[n - 1]);
      RepliedStep(wakes, n - 1);
    }
  }

  lemma CountersStayLow(s: State)
    requires Reachable(s)
    ensures forall c :: Count(s.missed, c) < MAX_MISSED
  {
    ReachableInv(s);
    forall c ensures Count(s.missed, c) < MAX_MISSED {
      assert Count(s.missed, c) == SilentStreak(s.log, c) % MAX_MISSED;
    }
  }

  lemma OneMiss(missed: map<string, nat>, silent: string, c: string)
    requires Count(missed, silent) < MAX_MISSED
    ensures Count(RecordedMiss(missed, silent), c) ==
            if c == silent then (Count(missed, c) + 1) % MAX_MISSED else Count(missed, c)
  {
  }

  lemma RecordOne(s: State, r: RunId) returns (s': State)
    requires Reachable(s) && r in s.runs && s.runs[r].phase.Recording? && s.runs[r].phase.todo != []
    ensures Reachable(s') && r in s'.runs && s'.runs[r].phase == Recording(s.runs[r].phase.todo[1..])
    ensures s'.missed == RecordedMiss(s.missed, s.runs[r].phase.todo[0])
  {
    s' := Next(s, Miss(r));
    if s'.runs[r].phase.Offlining? {
      s' := Next(s', GoOffline(r, true));
    }
  }

  lemma FirstAndRest(todo: seq<string>)
    requires todo != [] && Distinct(todo)
    ensures Distinct(todo[1..]) && todo[0] !in todo[1..]
    ensures forall c :: c in todo <==> c == todo[0] || c in todo[1..]
  {
    assert todo == [todo[0]] + todo[1..];
  }

  /** The misses of those who stayed silent are recorded one after the other. */
  lemma {:induction false} RecordAll(s: State, r: RunId, todo: seq<string>) returns (s': State)
    requires Reachable(s) && r in s.runs && s.runs[r].phase == Recording(todo) && Distinct(todo)
    ensures Reachable(s') && r in s'.runs && s'.runs[r].phase == Between
    ensures forall c :: Count(s'.missed, c) ==
              if c in todo then (Count(s.missed, c) + 1) % MAX_MISSED else Count(s.missed, c)
    decreases |todo|
  {
    if todo == [] {
      s' := Next(s, Miss(r));
      assert s'.missed == s.missed;
    } else {
      var mid := RecordOne(s, r);
      CountersStayLow(s);
      s' := RecordAll(mid, r, todo[1..]);
      FirstAndRest(todo);
      forall c ensures Count(s'.missed, c) == if c in todo then (Count(s.missed, c) + 1) % MAX_MISSED else Count(s.missed, c) {
        OneMiss(s.missed, todo[0], c);
      }
    }
  }

  ghost predicate EndsAs(phase: Phase, v: Verdict) {
    match v
    case Waiting => phase == Awaiting
    case Winner(c) => phase.Won? && phase.msg.resp.accepted && phase.msg.resp.courier == c
    case NobodyLeft => phase == Between
    case TimedOut => phase == Between
    case ClaimBroke => phase == Failed
    case Stopped => phase == Failed
  }

  lemma RunOutOfTime(s: State, r: RunId) returns (s': State)
    requires Listening(s, r)
    ensures Reachable(s') && r in s'.runs && s'.runs[r].phase == Between
    ensures forall c :: Count(s'.missed, c) ==
              if c in s.runs[r].ids && c !in s.runs[r].answered then (Count(s.missed, c) + 1) % MAX_MISSED else Count(s.missed, c)
  {
    var ids, answered := s.runs[r].ids, s.runs[r].answered;
    DistinctWave(s, r);
    WithoutMembers(ids, answered);
    var mid := Next(s, Expire(r));
    assert mid.missed == s.missed;
    s' := RecordAll(mid, r, Without(ids, answered));
  }

  lemma DistinctWave(s: State, r: RunId)
    requires Reachable(s) && r in s.runs
    ensures Distinct(s.runs[r].ids)
  {
    ReachableInv(s);
    assert WaveOk(s.log, r, s.runs[r]);
  }

  lemma NothingHeardYet(s: State, r: RunId)
    requires Listening(s, r) && s.runs[r].taken == []
    ensures s.runs[r].rejected == 0 && s.runs[r].answered == {} && s.runs[r].ids != []
  {
    ReachableInv(s);
    assert PhaseOk(s.log, r, s.runs[r]) && Couriers([]) == [];
  }

  predicate Forgiven(w: Wake, c: string) { w.Answer? && w.resp.courier == c }

  /** The wake that decides the wave. */
  lemma LastWake(s: State, r: RunId, w: Wake, v: Verdict) returns (s': State)
    requires Listening(s, r) && (w.Answer? ==> w.resp.courier in s.runs[r].wave)
    requires !Refusal(w)
    requires match w
             case TimeUp => v == TimedOut
             case ContextDone => v == Stopped
             case Answer(resp, claim) => v == if claim == Yes then Winner(resp.courier) else ClaimBroke
    ensures Reachable(s') && r in s'.runs && EndsAs(s'.runs[r].phase, v)
    ensures forall c :: Count(s'.missed, c) ==
              if Forgiven(w, c) then 0
              else if v == TimedOut && c in s.runs[r].ids && c !in s.runs[r].answered then (Count(s.missed, c) + 1) % MAX_MISSED
              else Count(s.missed, c)
  {
    match w {
      case TimeUp => s' := RunOutOfTime(s, r);
      case ContextDone =>
        s' := Next(s, CancelContext(r));
        s' := Next(s', Stop(r));
        assert s'.missed == s.missed;
      case Answer(resp, claim) =>
        s' := Hear(s, r, resp);
        if claim == Yes {
          s' := TryToClaim(s', r, true);
        } else {
          s' := Break(s', r);
        }
    }
  }

  lemma Break(s: State, r: RunId) returns (s': State)
    requires Reachable(s) && r in s.runs && s.runs[r].phase.Claiming?
    ensures Reachable(s') && r in s'.runs && s'.runs[r].phase == Failed && s'.missed == s.missed
  {
    s' := Next(s, ClaimError(r));
  }

  /** The protocol can do all that the loop does. */
  lemma AwaitWaveIsARun(s: State, r: RunId, wakes: seq<Wake>, n: nat, v: Verdict) returns (s': State)
    requires Listening(s, r) && s.runs[r].taken == []
    requires n <= |wakes| && DecidedBy(s.runs[r].ids, wakes, n, v) && FromWave(s.runs[r].wave, wakes[..n])
    ensures Reachable(s') && r in s'.runs && EndsAs(s'.runs[r].phase, v)
    ensures forall c :: Count(s'.missed, c) ==
              if c in Replied(wakes[..n]) then 0
              else if StayedSilent(s.runs[r].ids, wakes, n, v, c) then (Count(s.missed, c) + 1) % MAX_MISSED
              else Count(s.missed, c)
  {
    NothingHeardYet(s, r);
    if v.Waiting? {
      s' := RefuseAll(s, r, wakes, n);
    } else {
      assert forall j :: 0 <= j < n - 1 ==> wakes[..n - 1][j] == wakes[..n][j];
      var before := RefuseAll(s, r, wakes, n - 1);
      RepliedStep(wakes, n - 1);
      var w := wakes[n - 1];
      assert wakes[..n][n - 1] == w;
      if Refusal(w) {
        s' := Refuse(before, r, w);
      } else {
        s' := LastWake(before, r, w, v);
      }
    }
  }
}
