/** The courier search as a protocol (internal/couriers/dispatch.go, internal/couriers/missed.go and
    internal/httpapi/dispatch.go). */
module Dispatch {
  // Many searches run at once. They share the table of registered searches, the missed-offer counters
  // and the couriers' availability; each has its own offer record. One event below is one critical
  // section, one channel receive or one write to the courier table, so every interleaving the program
  // allows is a sequence of events.
  //
  // `log` is history that no step reads: it only says what happened and in which order.

  import opened Outcomes

  const WAVE_SIZE := 3
  const MAX_MISSED := 3

  type RunId = nat

  datatype Response = Response(courier: string, accepted: bool)

  /** A reply in a search's channel; `at` is the place of its delivery in the log. */
  datatype Msg = Msg(resp: Response, at: nat)

  datatype Phase =
    | Between                                        // top of a cycle, between two waves, or pausing
    | Awaiting                                       // in awaitWave's select
    | Handling(msg: Msg)                             // a reply was received
    | Claiming(msg: Msg)                             // ClaimIfAvailable is under way
    | Recording(todo: seq<string>)                   // time ran out; these couriers stayed silent
    | Offlining(courier: string, todo: seq<string>)  // SetAvailable(false) is under way
    | Won(msg: Msg, claimedAt: nat)
    | Failed

  datatype Run = Run(
    order: string,
    ids: seq<string>,         // the couriers of the current wave, as awaitWave sees them
    wave: set<string>,        // the same couriers, as HandleResponse sees them
    ch: seq<Msg>,
    taken: seq<Msg>,          // replies received in this wave
    openedAt: nat,            // where the log says this wave was opened
    rejected: nat,
    answered: set<string>,
    shown: set<string>,       // couriers whose offer card was sent and not withdrawn
    phase: Phase,
    ctxDone: bool,
    exited: bool,
    settled: bool)

  datatype Fact =
    | Opened(run: RunId, ids: seq<string>)
    | Delivered(run: RunId, resp: Response)
    | Taken(run: RunId, at: nat)
    | Answered(courier: string)
    | Silent(courier: string)
    | Claimed(run: RunId, courier: string)
    | Freed(courier: string)                     // the courier made himself available
    | Released(run: RunId, courier: string)      // the search gave its winner back
    | Detached(run: RunId)

  datatype State = State(
    runs: map<RunId, Run>,
    pending: map<string, RunId>,
    free: set<string>,        // couriers that are approved and available
    missed: map<string, nat>,
    log: seq<Fact>)

  datatype Event =
    | Register(r: RunId, order: string)
    | OpenWave(r: RunId, batch: seq<string>)
    | Reply(order: string, resp: Response)
    | Take(r: RunId)
    | Settle(r: RunId)
    | Claim(r: RunId)
    | ClaimError(r: RunId)
    | Expire(r: RunId)
    | Miss(r: RunId)
    | GoOffline(r: RunId, written: bool)
    | Stop(r: RunId)
    | Abort(r: RunId)
    | CancelSearch(order: string)
    | CancelContext(r: RunId)
    | Exit(r: RunId)
    | Assign(r: RunId, orderTook: bool, written: bool)
    | SetAvailable(courier: string, available: bool)

  // ----- Small helpers -----

  function Set(s: seq<string>): set<string> { set x | x in s }

  predicate Distinct(s: seq<string>) {
    forall i, j :: 0 <= i < j < |s| ==> s[i] != s[j]
  }

  function Couriers(ms: seq<Msg>): (r: seq<string>)
    ensures |r| == |ms| && forall i :: 0 <= i < |ms| ==> r[i] == ms[i].resp.courier
  {
    seq(|ms|, i requires 0 <= i < |ms| => ms[i].resp.courier)
  }

  /** The members of `s` outside `answered`, in order. */
  function Without(s: seq<string>, answered: set<string>): seq<string> {
    if s == [] then []
    else (if s[0] in answered then [] else [s[0]]) + Without(s[1..], answered)
  }

  function Count(missed: map<string, nat>, courier: string): nat {
    if courier in missed then missed[courier] else 0
  }

  // ----- Steps -----

  function NewRun(order: string): Run {
    Run(order, [], {}, [], [], 0, 0, {}, {}, Between, false, false, false)
  }

  /** Run `r` becomes `run`, and `facts` happened. */
  function Put(s: State, r: RunId, run: Run, facts: seq<Fact>): State {
    s.(runs := s.runs[r := run], log := s.log + facts)
  }

  /** A reply counts only while its courier is in the registered wave and the buffer has room. */
  predicate Accepts(wave: set<string>, queued: nat, courier: string) {
    courier in wave && queued < WAVE_SIZE
  }

  /** recordMissed: the counter goes up, and is thrown away when it reaches the limit. */
  function RecordedMiss(missed: map<string, nat>, courier: string): map<string, nat> {
    if ReachesLimit(missed, courier) then missed - {courier} else missed[courier := Count(missed, courier) + 1]
  }

  predicate ReachesLimit(missed: map<string, nat>, courier: string) {
    Count(missed, courier) + 1 >= MAX_MISSED
  }

  /** One more courier will not take this order; the wave ends when all of them have refused. */
  function OneRefusal(run: Run): Run {
    run.(rejected := run.rejected + 1,
         phase := if run.rejected + 1 >= |run.ids| then Between else Awaiting)
  }

  predicate Enabled(s: State, e: Event) {
    match e
    case Register(r, order) => r !in s.runs && order !in s.pending
    case OpenWave(r, batch) =>
      r in s.runs && s.runs[r].phase == Between && 1 <= |batch| <= WAVE_SIZE && Distinct(batch)
    case Reply(_, _) => true
    case Take(r) => r in s.runs && s.runs[r].phase == Awaiting && s.runs[r].ch != []
    case Settle(r) => r in s.runs && s.runs[r].phase.Handling?
    case Claim(r) => r in s.runs && s.runs[r].phase.Claiming?
    case ClaimError(r) => r in s.runs && s.runs[r].phase.Claiming?
    case Expire(r) => r in s.runs && s.runs[r].phase == Awaiting
    case Miss(r) => r in s.runs && s.runs[r].phase.Recording?
    case GoOffline(r, _) => r in s.runs && s.runs[r].phase.Offlining?
    case Stop(r) => r in s.runs && (s.runs[r].phase == Awaiting || s.runs[r].phase == Between) && s.runs[r].ctxDone
    case Abort(r) => r in s.runs && s.runs[r].phase == Between
    case CancelSearch(order) => true
    case CancelContext(r) => r in s.runs
    case Exit(r) => r in s.runs && (s.runs[r].phase.Won? || s.runs[r].phase == Failed) && !s.runs[r].exited
    case Assign(r, _, _) => r in s.runs && s.runs[r].phase.Won? && s.runs[r].exited && !s.runs[r].settled
    case SetAvailable(_, _) => true
  }

  function Apply(s: State, e: Event): State
    requires Enabled(s, e)
  {
    match e
    case Register(r, order) => Put(s, r, NewRun(order), []).(pending := s.pending[order := r])
    case OpenWave(r, batch) => DoOpenWave(s, r, batch)
    case Reply(order, resp) => DoReply(s, order, resp)
    case Take(r) => DoTake(s, r)
    case Settle(r) => DoSettle(s, r)
    case Claim(r) => DoClaim(s, r)
    case ClaimError(r) => Put(s, r, s.runs[r].(phase := Failed), [])
    case Expire(r) =>
      var run := s.runs[r];
      Put(s, r, run.(shown := run.shown - run.wave, phase := Recording(Without(run.ids, run.answered))), [])
    case Miss(r) => DoMiss(s, r)
    case GoOffline(r, written) =>
      var run := s.runs[r];
      Put(s, r, run.(phase := Recording(run.phase.todo)), [])
      .(free := if written then s.free - {run.phase.courier} else s.free)
    case Stop(r) =>
      var run := s.runs[r];
      Put(s, r, run.(shown := if run.phase == Awaiting then run.shown - run.wave else run.shown, phase := Failed), [])
    case Abort(r) => Put(s, r, s.runs[r].(phase := Failed), [])
    case CancelSearch(order) => DoCancelSearch(s, order)
    case CancelContext(r) => Put(s, r, s.runs[r].(ctxDone := true), [])
    case Exit(r) => DoExit(s, r)
    case Assign(r, orderTook, written) => DoAssign(s, r, orderTook, written)
    case SetAvailable(courier, available) =>
      if available then s.(free := s.free + {courier}, log := s.log + [Freed(courier)])
      else s.(free := s.free - {courier})
  }

  function DoOpenWave(s: State, r: RunId, batch: seq<string>): State
    requires Enabled(s, OpenWave(r, batch))
  {
    var run := s.runs[r];
    Put(s, r, run.(ids := batch, wave := Set(batch), ch := [], taken := [], openedAt := |s.log|, rejected := 0,
                   answered := {}, shown := run.shown + Set(batch), phase := Awaiting), [Opened(r, batch)])
  }

  function DoReply(s: State, order: string, resp: Response): State {
    if order !in s.pending || s.pending[order] !in s.runs then s
    else
      var r := s.pending[order];
      var run := s.runs[r];
      if !Accepts(run.wave, |run.ch|, resp.courier) then s
      else Put(s, r, run.(ch := run.ch + [Msg(resp, |s.log|)]), [Delivered(r, resp)])
  }

  function DoTake(s: State, r: RunId): State
    requires Enabled(s, Take(r))
  {
    var run := s.runs[r];
    var m := run.ch[0];
    Put(s, r, run.(ch := run.ch[1..], taken := run.taken + [m], answered := run.answered + {m.resp.courier},
                   phase := Handling(m)), [Taken(r, m.at)])
  }

  /** resetMissed, then the branch on the reply. */
  function DoSettle(s: State, r: RunId): State
    requires Enabled(s, Settle(r))
  {
    var run := s.runs[r];
    var m := run.phase.msg;
    Put(s, r, if m.resp.accepted then run.(phase := Claiming(m)) else OneRefusal(run), [Answered(m.resp.courier)])
    .(missed := s.missed - {m.resp.courier})
  }

  function DoClaim(s: State, r: RunId): State
    requires Enabled(s, Claim(r))
  {
    var run := s.runs[r];
    var m := run.phase.msg;
    var c := m.resp.courier;
    if c in s.free then
      Put(s, r, run.(shown := run.shown - (run.wave - {c}), phase := Won(m, |s.log|)), [Claimed(r, c)])
      .(free := s.free - {c})
    else
      Put(s, r, OneRefusal(run), [])
  }

  /** recordMissed for the next silent courier. */
  function DoMiss(s: State, r: RunId): State
    requires Enabled(s, Miss(r))
  {
    var run := s.runs[r];
    var todo := run.phase.todo;
    if todo == [] then Put(s, r, run.(phase := Between), [])
    else
      var c := todo[0];
      Put(s, r, run.(phase := if ReachesLimit(s.missed, c) then Offlining(c, todo[1..]) else Recording(todo[1..])), [Silent(c)])
      .(missed := RecordedMiss(s.missed, c))
  }

  function DoCancelSearch(s: State, order: string): State {
    if order !in s.pending then s
    else s.(pending := s.pending - {order}, log := s.log + [Detached(s.pending[order])])
  }

  /** The deferred clean-up removes the search's own registration and no other. */
  function DoExit(s: State, r: RunId): State
    requires Enabled(s, Exit(r))
  {
    var run := s.runs[r];
    var gone := Put(s, r, run.(exited := true), []);
    if run.order in s.pending && s.pending[run.order] == r then
      gone.(pending := s.pending - {run.order}, log := s.log + [Detached(r)])
    else gone
  }

  /** dispatchOrder after a win: when the order cannot take the courier, the courier is released. */
  function DoAssign(s: State, r: RunId, orderTook: bool, written: bool): State
    requires Enabled(s, Assign(r, orderTook, written))
  {
    var run := s.runs[r];
    var c := run.phase.msg.resp.courier;
    var done := Put(s, r, run.(settled := true), []);
    if !orderTook && written then done.(free := s.free + {c}, log := s.log + [Released(r, c)]) else done
  }

  // ----- Runs of the whole system -----

  function Init(free: set<string>): State { State(map[], map[], free, map[], []) }

  ghost predicate ValidRun(s: State, es: seq<Event>)
    decreases |es|
  {
    es == [] || (Enabled(s, es[0]) && ValidRun(Apply(s, es[0]), es[1..]))
  }

  ghost function Exec(s: State, es: seq<Event>): State
    requires ValidRun(s, es)
    decreases |es|
  {
    if es == [] then s else Exec(Apply(s, es[0]), es[1..])
  }

  // ----- What every step keeps -----

  /** The registered searches exist, are registered once, and have not been detached. */
  ghost predicate Registered(s: State) {
    && (forall o :: o in s.pending ==> s.pending[o] in s.runs && s.runs[s.pending[o]].order == o)
    && (forall o :: o in s.pending ==> !s.runs[s.pending[o]].exited)
    && (forall o, k :: o in s.pending && 0 <= k < |s.log| ==> s.log[k] != Detached(s.pending[o]))
  }

  /** The log speaks only of searches that exist. */
  ghost predicate KnownRuns(s: State) {
    forall k :: 0 <= k < |s.log| ==>
      match s.log[k]
      case Opened(r, _) => r in s.runs
      case Delivered(r, _) => r in s.runs
      case Taken(r, _) => r in s.runs
      case Claimed(r, _) => r in s.runs
      case Detached(r) => r in s.runs
      case _ => true
  }

  /** Message `m` of run `r` was delivered to it after its current wave was opened. */
  predicate Sent(log: seq<Fact>, r: RunId, run: Run, m: Msg) {
    && m.resp.courier in run.wave
    && run.openedAt < m.at < |log|
    && log[m.at] == Delivered(r, m.resp)
  }

  predicate Increasing(ms: seq<Msg>) {
    forall i, j :: 0 <= i < j < |ms| ==> ms[i].at < ms[j].at
  }

  ghost predicate WaveOk(log: seq<Fact>, r: RunId, run: Run) {
    && run.wave == Set(run.ids) && Distinct(run.ids) && |run.ids| <= WAVE_SIZE && |run.ch| <= WAVE_SIZE
    && (run.ids == [] ==> run.taken == [] && run.ch == [])
    && (run.ids != [] ==> run.openedAt < |log| && log[run.openedAt] == Opened(r, run.ids))
    && (forall k :: run.openedAt < k < |log| ==> !(log[k].Opened? && log[k].run == r))
    && (forall i :: 0 <= i < |run.taken| ==> Sent(log, r, run, run.taken[i]))
    && (forall i :: 0 <= i < |run.ch| ==> Sent(log, r, run, run.ch[i]))
    && Increasing(run.taken + run.ch)
  }

  ghost predicate TookLast(run: Run, m: Msg) {
    && |run.taken| == run.rejected + 1 <= |run.ids|
    && run.taken[|run.taken| - 1] == m
    && run.answered == Set(Couriers(run.taken))
  }

  ghost predicate PhaseOk(log: seq<Fact>, r: RunId, run: Run) {
    match run.phase
    case Awaiting => run.rejected == |run.taken| < |run.ids| && run.answered == Set(Couriers(run.taken)) && run.wave <= run.shown
    case Handling(m) => TookLast(run, m) && run.wave <= run.shown
    case Claiming(m) => TookLast(run, m) && m.resp.accepted && run.wave <= run.shown
    case Won(m, k) =>
      && TookLast(run, m) && m.resp.accepted
      && m.at < k < |log| && log[k] == Claimed(r, m.resp.courier)
      && run.shown * run.wave == {m.resp.courier}
    case Recording(_) => run.shown !! run.wave
    case Offlining(_, _) => run.shown !! run.wave
    case _ => true
  }

  ghost predicate Waves(s: State) {
    forall r :: r in s.runs ==> WaveOk(s.log, r, s.runs[r])
  }

  ghost predicate Phases(s: State) {
    forall r :: r in s.runs ==> PhaseOk(s.log, r, s.runs[r])
  }

  /** A search claims one courier at most, and then it has won. */
  ghost predicate Claims(s: State) {
    forall k :: 0 <= k < |s.log| && s.log[k].Claimed? ==>
      s.log[k].run in s.runs && s.runs[s.log[k].run].phase.Won? && s.runs[s.log[k].run].phase.claimedAt == k
  }

  /** The courier was made available, by himself or by a search. */
  predicate Frees(f: Fact, c: string) {
    f == Freed(c) || (f.Released? && f.courier == c)
  }

  ghost predicate FreedBetween(log: seq<Fact>, i: int, j: int, c: string) {
    exists k :: i < k < j && 0 <= k < |log| && Frees(log[k], c)
  }

  /** A courier is claimed again only after having been made available again. */
  ghost predicate Exclusive(s: State) {
    && (forall i, j :: 0 <= i < j < |s.log| && s.log[i].Claimed? && s.log[j].Claimed? && s.log[i].courier == s.log[j].courier ==>
          FreedBetween(s.log, i, j, s.log[i].courier))
    && (forall i :: 0 <= i < |s.log| && s.log[i].Claimed? && s.log[i].courier in s.free ==>
          FreedBetween(s.log, i, |s.log|, s.log[i].courier))
  }

  /** The reply received at place `k` of the log was delivered to the same search, by a courier of a
      wave that was opened before and not replaced by another one until the reply was received. */
  ghost predicate WithinOneWave(log: seq<Fact>, k: int)
    requires 0 <= k < |log| && log[k].Taken?
  {
    var r, at := log[k].run, log[k].at;
    at < k && log[at].Delivered? && log[at].run == r &&
    exists o :: WaveAround(log, r, o, at, k)
  }

  predicate WaveAround(log: seq<Fact>, r: RunId, o: int, at: int, k: int)
    requires 0 <= at < k <= |log| && log[at].Delivered?
  {
    && 0 <= o < at && log[o].Opened? && log[o].run == r
    && log[at].resp.courier in log[o].ids
    && forall l :: o < l < k ==> !(log[l].Opened? && log[l].run == r)
  }

  ghost predicate Receipts(s: State) {
    forall k :: 0 <= k < |s.log| && s.log[k].Taken? ==> WithinOneWave(s.log, k)
  }

  ghost predicate QueuedLater(s: State) {
    forall k, r, i :: 0 <= k < |s.log| && s.log[k].Taken? && r in s.runs && s.log[k].run == r && 0 <= i < |s.runs[r].ch| ==>
      s.log[k].at < s.runs[r].ch[i].at
  }

  ghost predicate ReceiptOrder(s: State) {
    forall k, l :: 0 <= k < l < |s.log| && s.log[k].Taken? && s.log[l].Taken? && s.log[k].run == s.log[l].run ==>
      s.log[k].at < s.log[l].at
  }

  /** Replies are received once, in the order of their delivery. */
  ghost predicate Fifo(s: State) {
    Receipts(s) && QueuedLater(s) && ReceiptOrder(s)
  }

  /** Nothing is delivered to a search that has been detached. */
  ghost predicate NoLateDelivery(s: State) {
    forall k, l :: 0 <= k < l < |s.log| && s.log[k].Detached? && s.log[l].Delivered? ==> s.log[k].run != s.log[l].run
  }

  /** Missed offers since the courier's last answer. */
  function SilentStreak(log: seq<Fact>, c: string): nat {
    if log == [] then 0
    else
      var last := log[|log| - 1];
      var before := log[..|log| - 1];
      if last == Silent(c) then SilentStreak(before, c) + 1
      else if last == Answered(c) then 0
      else SilentStreak(before, c)
  }

  /** The counter is the streak, started over at each third miss. */
  ghost predicate Counted(s: State) {
    forall c :: Count(s.missed, c) == SilentStreak(s.log, c) % MAX_MISSED
  }

  ghost predicate Inv(s: State) {
    && Registered(s) && KnownRuns(s) && Waves(s) && Phases(s) && Claims(s) && Exclusive(s) && Fifo(s)
    && NoLateDelivery(s) && Counted(s)
  }

  /** The search whose record an event may change. */
  function Target(s: State, e: Event): Option<RunId> {
    match e
    case Reply(order, _) => if order in s.pending then Some(s.pending[order]) else None
    case CancelSearch(_) => None
    case SetAvailable(_, _) => None
    case _ => Some(e.r)
  }

  /** An event touches one search at most and adds at most one fact, never that another search
      opened a wave. */
  lemma Locality(s: State, e: Event)
    requires Enabled(s, e)
    ensures s.log <= Apply(s, e).log && |Apply(s, e).log| <= |s.log| + 1
    ensures forall q :: Target(s, e) != Some(q) ==>
              (q in s.runs <==> q in Apply(s, e).runs) && (q in s.runs ==> Apply(s, e).runs[q] == s.runs[q])
    ensures forall k :: |s.log| <= k < |Apply(s, e).log| && Apply(s, e).log[k].Opened? ==>
              e.OpenWave? && Apply(s, e).log[k].run == e.r
  {
    OthersStay(s, e);
  }

  lemma OthersStay(s: State, e: Event)
    requires Enabled(s, e)
    ensures forall q :: Target(s, e) != Some(q) ==>
              (q in s.runs <==> q in Apply(s, e).runs) && (q in s.runs ==> Apply(s, e).runs[q] == s.runs[q])
  {
  }

  predicate SameWave(a: Run, b: Run) {
    a.ids == b.ids && a.wave == b.wave && a.ch == b.ch && a.taken == b.taken && a.openedAt == b.openedAt
  }

  /** A longer log leaves a wave in order as long as the search opens no other. */
  lemma WaveLasts(log: seq<Fact>, longer: seq<Fact>, r: RunId, run: Run, run': Run)
    requires WaveOk(log, r, run) && SameWave(run, run') && log <= longer
    requires forall k :: |log| <= k < |longer| ==> !(longer[k].Opened? && longer[k].run == r)
    ensures WaveOk(longer, r, run')
  {
    forall i | 0 <= i < |run'.taken| ensures Sent(longer, r, run', run'.taken[i]) {
      assert Sent(log, r, run, run.taken[i]);
    }
    forall i | 0 <= i < |run'.ch| ensures Sent(longer, r, run', run'.ch[i]) {
      assert Sent(log, r, run, run.ch[i]);
    }
  }

  lemma NewWaveOk(s: State, r: RunId, batch: seq<string>)
    requires Enabled(s, OpenWave(r, batch))
    ensures var s' := DoOpenWave(s, r, batch); WaveOk(s'.log, r, s'.runs[r])
  {
  }

  lemma DeliveryOk(s: State, r: RunId, resp: Response)
    requires r in s.runs && WaveOk(s.log, r, s.runs[r]) && Accepts(s.runs[r].wave, |s.runs[r].ch|, resp.courier)
    ensures var run := s.runs[r];
            WaveOk(s.log + [Delivered(r, resp)], r, run.(ch := run.ch + [Msg(resp, |s.log|)]))
  {
    var run := s.runs[r];
    var log := s.log + [Delivered(r, resp)];
    var m := Msg(resp, |s.log|);
    WaveLasts(s.log, log, r, run, run);
    var run' := run.(ch := run.ch + [m]);
    assert run'.taken + run'.ch == (run.taken + run.ch) + [m];
    forall i | 0 <= i < |run.taken + run.ch| ensures (run.taken + run.ch)[i].at < m.at {
      assert if i < |run.taken| then Sent(s.log, r, run, run.taken[i]) else Sent(s.log, r, run, run.ch[i - |run.taken|]);
    }
    forall i | 0 <= i < |run'.taken| ensures Sent(log, r, run', run'.taken[i]) {
      assert Sent(log, r, run, run.taken[i]);
    }
    forall i | 0 <= i < |run'.ch| ensures Sent(log, r, run', run'.ch[i]) {
      if i < |run.ch| {
        assert Sent(log, r, run, run.ch[i]);
      }
    }
  }

  lemma TakeOk(s: State, r: RunId)
    requires Enabled(s, Take(r)) && WaveOk(s.log, r, s.runs[r])
    ensures var s' := DoTake(s, r); WaveOk(s'.log, r, s'.runs[r])
  {
    var s' := DoTake(s, r);
    var run, run' := s.runs[r], s'.runs[r];
    WaveLasts(s.log, s'.log, r, run, run);
    assert run'.taken + run'.ch == run.taken + run.ch;
    forall i | 0 <= i < |run'.taken| ensures Sent(s'.log, r, run', run'.taken[i]) {
      assert if i < |run.taken| then Sent(s'.log, r, run, run.taken[i]) else Sent(s'.log, r, run, run.ch[0]);
    }
    forall i | 0 <= i < |run'.ch| ensures Sent(s'.log, r, run', run'.ch[i]) {
      assert Sent(s'.log, r, run, run.ch[i + 1]);
    }
  }

  lemma OnlyTheseTouchTheWave(s: State, e: Event, q: RunId)
    requires Enabled(s, e) && !e.Register? && !e.OpenWave? && !e.Reply? && !e.Take?
    requires q in Apply(s, e).runs
    ensures q in s.runs && SameWave(s.runs[q], Apply(s, e).runs[q])
  {
    Locality(s, e);
    if Target(s, e) == Some(q) {
      if e.Settle? || e.Claim? || e.Miss? || e.Exit? || e.Assign? {
        SameWaveInSearch(s, e);
      }
    }
  }

  lemma SameWaveInSearch(s: State, e: Event)
    requires Enabled(s, e) && (e.Settle? || e.Claim? || e.Miss? || e.Exit? || e.Assign?)
    ensures e.r in s.runs && e.r in Apply(s, e).runs && SameWave(s.runs[e.r], Apply(s, e).runs[e.r])
  {
    match e
    case Settle(r) => SameWaveSettled(s, r);
    case Claim(r) => SameWaveClaimed(s, r);
    case Miss(r) => assert Apply(s, e) == DoMiss(s, r);
    case Exit(r) => assert Apply(s, e) == DoExit(s, r);
    case Assign(r, orderTook, written) => assert Apply(s, e) == DoAssign(s, r, orderTook, written);
  }

  lemma SameWaveSettled(s: State, r: RunId)
    requires Enabled(s, Settle(r))
    ensures r in DoSettle(s, r).runs && SameWave(s.runs[r], DoSettle(s, r).runs[r])
  {
  }

  lemma SameWaveClaimed(s: State, r: RunId)
    requires Enabled(s, Claim(r))
    ensures r in DoClaim(s, r).runs && SameWave(s.runs[r], DoClaim(s, r).runs[r])
  {
  }

  lemma RegistrationOk(s: State, r: RunId, order: string)
    requires KnownRuns(s) && r !in s.runs
    ensures WaveOk(s.log, r, NewRun(order))
  {
    forall k | 0 < k < |s.log| ensures !(s.log[k].Opened? && s.log[k].run == r) {
    }
  }

  lemma KeepsWaves(s: State, e: Event)
    requires Enabled(s, e) && Waves(s) && KnownRuns(s)
    ensures Waves(Apply(s, e))
  {
    var s' := Apply(s, e);
    Locality(s, e);
    forall q | q in s'.runs ensures WaveOk(s'.log, q, s'.runs[q]) {
      if Target(s, e) != Some(q) {
        WaveLasts(s.log, s'.log, q, s.runs[q], s'.runs[q]);
      } else {
        TargetWaveOk(s, e, q);
      }
    }
  }

  lemma TargetWaveOk(s: State, e: Event, q: RunId)
    requires Enabled(s, e) && Waves(s) && KnownRuns(s) && Target(s, e) == Some(q)
    requires q in Apply(s, e).runs
    ensures WaveOk(Apply(s, e).log, q, Apply(s, e).runs[q])
  {
    if e.Register? {
      RegistrationOk(s, e.r, e.order);
      assert Apply(s, e).log == s.log;
    } else if e.OpenWave? {
      NewWaveOk(s, e.r, e.batch);
    } else if e.Take? {
      TakeOk(s, e.r);
    } else if e.Reply? {
      ReplyWaveOk(s, e.order, e.resp);
    } else {
      OnlyTheseTouchTheWave(s, e, q);
      Locality(s, e);
      WaveLasts(s.log, Apply(s, e).log, q, s.runs[q], Apply(s, e).runs[q]);
    }
  }

  lemma ReplyWaveOk(s: State, order: string, resp: Response)
    requires order in s.pending && s.pending[order] in s.runs && Waves(s)
    ensures var s' := DoReply(s, order, resp); WaveOk(s'.log, s.pending[order], s'.runs[s.pending[order]])
  {
    var r := s.pending[order];
    if Accepts(s.runs[r].wave, |s.runs[r].ch|, resp.courier) {
      DeliveryOk(s, r, resp);
    }
  }

  // ----- Phases -----

  lemma PhaseLasts(log: seq<Fact>, longer: seq<Fact>, r: RunId, run: Run)
    requires PhaseOk(log, r, run) && log <= longer
    ensures PhaseOk(longer, r, run)
  {
  }

  lemma CouriersOfOneMore(ms: seq<Msg>, m: Msg)
    ensures Set(Couriers(ms + [m])) == Set(Couriers(ms)) + {m.resp.courier}
  {
    assert Couriers(ms + [m]) == Couriers(ms) + [m.resp.courier];
  }

  lemma TakePhaseOk(s: State, r: RunId)
    requires Enabled(s, Take(r)) && PhaseOk(s.log, r, s.runs[r])
    ensures var s' := DoTake(s, r); PhaseOk(s'.log, r, s'.runs[r])
  {
    CouriersOfOneMore(s.runs[r].taken, s.runs[r].ch[0]);
  }

  lemma SettlePhaseOk(s: State, r: RunId)
    requires Enabled(s, Settle(r)) && PhaseOk(s.log, r, s.runs[r])
    ensures var s' := DoSettle(s, r); PhaseOk(s'.log, r, s'.runs[r])
  {
  }

  lemma ClaimPhaseOk(s: State, r: RunId)
    requires Enabled(s, Claim(r)) && PhaseOk(s.log, r, s.runs[r]) && WaveOk(s.log, r, s.runs[r])
    ensures var s' := DoClaim(s, r); PhaseOk(s'.log, r, s'.runs[r])
  {
    var run := s.runs[r];
    assert Sent(s.log, r, run, run.taken[|run.taken| - 1]);
  }

  lemma KeepsPhases(s: State, e: Event)
    requires Enabled(s, e) && Waves(s) && Phases(s)
    ensures Phases(Apply(s, e))
  {
    var s' := Apply(s, e);
    Locality(s, e);
    forall q | q in s'.runs ensures PhaseOk(s'.log, q, s'.runs[q]) {
      if Target(s, e) != Some(q) {
        PhaseLasts(s.log, s'.log, q, s.runs[q]);
      } else if e.Take? {
        TakePhaseOk(s, q);
      } else if e.Settle? {
        SettlePhaseOk(s, q);
      } else if e.Claim? {
        ClaimPhaseOk(s, q);
      } else {
        OtherPhaseOk(s, e, q);
      }
    }
  }

  lemma OtherPhaseOk(s: State, e: Event, q: RunId)
    requires Enabled(s, e) && Phases(s) && Target(s, e) == Some(q) && q in Apply(s, e).runs
    requires !e.Take? && !e.Settle? && !e.Claim?
    ensures PhaseOk(Apply(s, e).log, q, Apply(s, e).runs[q])
  {
    if e.Register? {
    } else if e.OpenWave? {
      assert Couriers([]) == [];
    } else if e.Reply? || e.CancelContext? || e.Exit? || e.Assign? {
      QuietForPhase(s, e, q);
      Locality(s, e);
      PhaseLasts(s.log, Apply(s, e).log, q, s.runs[q]);
    } else {
      EndingPhaseOk(s, e, q);
    }
  }

  lemma QuietForPhase(s: State, e: Event, q: RunId)
    requires Enabled(s, e) && Target(s, e) == Some(q) && q in Apply(s, e).runs
    requires e.Reply? || e.CancelContext? || e.Exit? || e.Assign?
    ensures q in s.runs
    ensures var a, b := s.runs[q], Apply(s, e).runs[q];
            a.phase == b.phase && a.taken == b.taken && a.ids == b.ids && a.answered == b.answered
            && a.rejected == b.rejected && a.shown == b.shown && a.wave == b.wave
  {
  }

  lemma EndingPhaseOk(s: State, e: Event, q: RunId)
    requires Enabled(s, e) && Phases(s) && Target(s, e) == Some(q) && q in Apply(s, e).runs
    requires e.ClaimError? || e.Expire? || e.Miss? || e.GoOffline? || e.Stop? || e.Abort?
    ensures PhaseOk(Apply(s, e).log, q, Apply(s, e).runs[q])
  {
    assert PhaseOk(s.log, q, s.runs[q]);
  }

  // ----- Registration -----

  lemma KeepsRegistered(s: State, e: Event)
    requires Enabled(s, e) && Registered(s) && KnownRuns(s)
    ensures Registered(Apply(s, e))
  {
    var s' := Apply(s, e);
    Locality(s, e);
    RegistrationsChange(s, e);
    forall o | o in s'.pending
      ensures s'.pending[o] in s'.runs && s'.runs[s'.pending[o]].order == o && !s'.runs[s'.pending[o]].exited
      ensures forall k :: 0 <= k < |s'.log| ==> s'.log[k] != Detached(s'.pending[o])
    {
      if o in s.pending {
        StaysRegistered(s, e, o);
        StaysAttached(s, e, o);
      }
    }
  }

  /** Only a new search is ever added to the table, and only for an order that had none. */
  lemma RegistrationsChange(s: State, e: Event)
    requires Enabled(s, e)
    ensures forall o :: o in Apply(s, e).pending ==>
              (o in s.pending && Apply(s, e).pending[o] == s.pending[o]) || (e.Register? && o == e.order && Apply(s, e).pending[o] == e.r)
  {
  }

  lemma StaysRegistered(s: State, e: Event, o: string)
    requires Enabled(s, e) && Registered(s) && o in s.pending && o in Apply(s, e).pending
    ensures Apply(s, e).pending[o] == s.pending[o]
    ensures s.pending[o] in Apply(s, e).runs
    ensures Apply(s, e).runs[s.pending[o]].order == o && !Apply(s, e).runs[s.pending[o]].exited
  {
    RegistrationsChange(s, e);
    OrderStays(s, e, s.pending[o]);
    OnlyExitLeaves(s, e, s.pending[o]);
  }

  lemma OrderStays(s: State, e: Event, r: RunId)
    requires Enabled(s, e) && r in s.runs
    ensures r in Apply(s, e).runs && Apply(s, e).runs[r].order == s.runs[r].order
  {
  }

  lemma OnlyExitLeaves(s: State, e: Event, r: RunId)
    requires Enabled(s, e) && r in s.runs && r in Apply(s, e).runs
    ensures Apply(s, e).runs[r].exited ==> s.runs[r].exited || e == Exit(r)
  {
  }

  lemma StaysAttached(s: State, e: Event, o: string)
    requires Enabled(s, e) && Registered(s) && o in s.pending && o in Apply(s, e).pending
    ensures forall k :: 0 <= k < |Apply(s, e).log| ==> Apply(s, e).log[k] != Detached(s.pending[o])
  {
    Locality(s, e);
    var log, log', r := s.log, Apply(s, e).log, s.pending[o];
    if |log'| > |log| && log'[|log|] == Detached(r) {
      DetachingRemoves(s, e, o);
    }
    assert forall k :: 0 <= k < |log| ==> log'[k] == log[k];
  }

  lemma DetachingRemoves(s: State, e: Event, o: string)
    requires Enabled(s, e) && Registered(s) && o in s.pending
    requires |Apply(s, e).log| > |s.log| && Apply(s, e).log[|s.log|] == Detached(s.pending[o])
    ensures o !in Apply(s, e).pending
  {
    if e.CancelSearch? {
      assert s.runs[s.pending[e.order]].order == e.order;
    }
  }

  lemma KeepsKnownRuns(s: State, e: Event)
    requires Enabled(s, e) && Registered(s) && KnownRuns(s)
    ensures KnownRuns(Apply(s, e))
  {
  }

  lemma KeepsNoLateDelivery(s: State, e: Event)
    requires Enabled(s, e) && NoLateDelivery(s) && Registered(s)
    ensures NoLateDelivery(Apply(s, e))
  {
  }

  // ----- Claims -----

  lemma KeepsClaims(s: State, e: Event)
    requires Enabled(s, e) && Claims(s)
    ensures Claims(Apply(s, e))
  {
    var s' := Apply(s, e);
    Locality(s, e);
    forall k | 0 <= k < |s'.log| && s'.log[k].Claimed?
      ensures s'.log[k].run in s'.runs && s'.runs[s'.log[k].run].phase.Won? && s'.runs[s'.log[k].run].phase.claimedAt == k
    {
      if k < |s.log| {
        WonStays(s, e, s.log[k].run);
      } else {
        assert e.Claim?;
      }
    }
  }

  lemma WonStays(s: State, e: Event, r: RunId)
    requires Enabled(s, e) && r in s.runs && s.runs[r].phase.Won?
    ensures r in Apply(s, e).runs && Apply(s, e).runs[r].phase == s.runs[r].phase
  {
  }

  lemma FreedLasts(log: seq<Fact>, longer: seq<Fact>, i: int, j: int, c: string)
    requires FreedBetween(log, i, j, c) && log <= longer && j <= |log|
    ensures FreedBetween(longer, i, j, c) && FreedBetween(longer, i, |longer|, c)
  {
  }

  lemma KeepsExclusive(s: State, e: Event)
    requires Enabled(s, e) && Exclusive(s)
    ensures Exclusive(Apply(s, e))
  {
    var s' := Apply(s, e);
    var n := |s.log|;
    Locality(s, e);
    FreeChanges(s, e);
    forall i, j | 0 <= i < j < |s'.log| && s'.log[i].Claimed? && s'.log[j].Claimed? && s'.log[i].courier == s'.log[j].courier
      ensures FreedBetween(s'.log, i, j, s'.log[i].courier)
    {
      if j < n {
        FreedLasts(s.log, s'.log, i, j, s.log[i].courier);
      } else {
        FreedLasts(s.log, s'.log, i, n, s.log[i].courier);
      }
    }
    forall i | 0 <= i < |s'.log| && s'.log[i].Claimed? && s'.log[i].courier in s'.free
      ensures FreedBetween(s'.log, i, |s'.log|, s'.log[i].courier)
    {
      if s'.log[i].courier in s.free {
        FreedLasts(s.log, s'.log, i, n, s'.log[i].courier);
      } else {
        assert Frees(s'.log[n], s'.log[i].courier);
      }
    }
  }

  /** A courier becomes available only by a logged release, and is claimed only while available. */
  lemma FreeChanges(s: State, e: Event)
    requires Enabled(s, e)
    ensures var s' := Apply(s, e);
            && (forall c :: c in s'.free && c !in s.free ==> |s'.log| == |s.log| + 1 && Frees(s'.log[|s.log|], c))
            && (|s'.log| > |s.log| && s'.log[|s.log|].Claimed? ==>
                  s'.log[|s.log|].courier in s.free && s'.log[|s.log|].courier !in s'.free)
  {
  }

  // ----- Deliveries -----

  lemma KeepsFifo(s: State, e: Event)
    requires Enabled(s, e) && Fifo(s) && Waves(s) && KnownRuns(s)
    ensures Fifo(Apply(s, e))
  {
    KeepsReceipts(s, e);
    KeepsReceiptOrder(s, e);
    var s' := Apply(s, e);
    forall k, r, i | 0 <= k < |s'.log| && s'.log[k].Taken? && r in s'.runs && s'.log[k].run == r && 0 <= i < |s'.runs[r].ch|
      ensures s'.log[k].at < s'.runs[r].ch[i].at
    {
      TakenBeforeQueued(s, e, k, r, i);
    }
  }

  lemma KeepsReceipts(s: State, e: Event)
    requires Enabled(s, e) && Receipts(s) && Waves(s)
    ensures Receipts(Apply(s, e))
  {
    var log, log' := s.log, Apply(s, e).log;
    Locality(s, e);
    ReceiptIsHead(s, e);
    forall k | 0 <= k < |log'| && log'[k].Taken? ensures WithinOneWave(log', k) {
      if k < |log| {
        assert WithinOneWave(log, k);
        var o :| WaveAround(log, log[k].run, o, log[k].at, k);
        assert WaveAround(log', log[k].run, o, log[k].at, k);
      } else {
        var run := s.runs[e.r];
        assert WaveOk(log, e.r, run) && Sent(log, e.r, run, run.ch[0]);
        assert WaveAround(log', e.r, run.openedAt, run.ch[0].at, k);
      }
    }
  }

  lemma KeepsReceiptOrder(s: State, e: Event)
    requires Enabled(s, e) && ReceiptOrder(s) && QueuedLater(s)
    ensures ReceiptOrder(Apply(s, e))
  {
    Locality(s, e);
    ReceiptIsHead(s, e);
  }

  lemma ReceiptIsHead(s: State, e: Event)
    requires Enabled(s, e)
    ensures var s' := Apply(s, e);
            |s'.log| > |s.log| && s'.log[|s.log|].Taken? ==>
              e.Take? && s'.log[|s.log|] == Taken(e.r, s.runs[e.r].ch[0].at)
    ensures e.Take? ==> |Apply(s, e).log| > |s.log| && Apply(s, e).log[|s.log|] == Taken(e.r, s.runs[e.r].ch[0].at)
  {
  }

  lemma TakenBeforeQueued(s: State, e: Event, k: int, r: RunId, i: int)
    requires Enabled(s, e) && Fifo(s) && Waves(s) && KnownRuns(s)
    requires 0 <= k < |Apply(s, e).log| && Apply(s, e).log[k].Taken? && Apply(s, e).log[k].run == r
    requires r in Apply(s, e).runs && 0 <= i < |Apply(s, e).runs[r].ch|
    ensures Apply(s, e).log[k].at < Apply(s, e).runs[r].ch[i].at
  {
    if e.Take? && e.r == r {
      assert DoTake(s, r).log == s.log + [Taken(r, s.runs[r].ch[0].at)];
      HeadBeforeTail(s, r, k, i);
    } else {
      TakenByAnother(s, e, k, r);
      QueueGrowth(s, e, r, i);
      assert WithinOneWave(s.log, k);
    }
  }

  /** Unless the search receives, what it has received it had received before. */
  lemma TakenByAnother(s: State, e: Event, k: int, r: RunId)
    requires Enabled(s, e) && !(e.Take? && e.r == r)
    requires 0 <= k < |Apply(s, e).log| && Apply(s, e).log[k].Taken? && Apply(s, e).log[k].run == r
    ensures k < |s.log| && s.log[k] == Apply(s, e).log[k]
  {
    Locality(s, e);
    ReceiptIsHead(s, e);
  }

  lemma HeadBeforeTail(s: State, r: RunId, k: int, i: int)
    requires Enabled(s, Take(r)) && QueuedLater(s) && WaveOk(s.log, r, s.runs[r])
    requires 0 <= k <= |s.log| && 0 <= i < |s.runs[r].ch| - 1
    requires k < |s.log| ==> s.log[k].Taken? && s.log[k].run == r
    ensures (if k < |s.log| then s.log[k].at else s.runs[r].ch[0].at) < s.runs[r].ch[i + 1].at
  {
    var run := s.runs[r];
    var both := run.taken + run.ch;
    assert run.ch[0] == both[|run.taken|] && run.ch[i + 1] == both[|run.taken| + i + 1];
  }

  /** Unless it is the receiver, a queued reply was queued before or is the newest fact. */
  lemma QueueGrowth(s: State, e: Event, r: RunId, i: int)
    requires Enabled(s, e) && !(e.Take? && e.r == r)
    requires r in Apply(s, e).runs && 0 <= i < |Apply(s, e).runs[r].ch|
    ensures r in s.runs
    ensures Apply(s, e).runs[r].ch[i].at == |s.log| || (i < |s.runs[r].ch| && Apply(s, e).runs[r].ch[i] == s.runs[r].ch[i])
  {
    Locality(s, e);
    if Target(s, e) == Some(r) && !e.Register? && !e.OpenWave? && !e.Reply? {
      OnlyTheseTouchTheWave(s, e, r);
    }
  }

  // ----- Missed offers -----

  lemma StreakAfter(log: seq<Fact>, f: Fact, c: string)
    ensures SilentStreak(log + [f], c) ==
            if f == Silent(c) then SilentStreak(log, c) + 1 else if f == Answered(c) then 0 else SilentStreak(log, c)
  {
    assert (log + [f])[..|log|] == log;
  }

  lemma KeepsCounted(s: State, e: Event)
    requires Enabled(s, e) && Counted(s)
    ensures Counted(Apply(s, e))
  {
    forall c ensures Count(Apply(s, e).missed, c) == SilentStreak(Apply(s, e).log, c) % MAX_MISSED {
      assert Count(s.missed, c) == SilentStreak(s.log, c) % MAX_MISSED;
      if e.Settle? {
        StreakAfter(s.log, Answered(s.runs[e.r].phase.msg.resp.courier), c);
      } else if e.Miss? {
        MissCounted(s, e.r, c);
      } else {
        NobodyAnswered(s, e);
        if Apply(s, e).log != s.log {
          StreakAfter(s.log, Apply(s, e).log[|s.log|], c);
        }
      }
    }
  }

  lemma MissCounted(s: State, r: RunId, c: string)
    requires Enabled(s, Miss(r)) && Count(s.missed, c) == SilentStreak(s.log, c) % MAX_MISSED
    ensures Count(DoMiss(s, r).missed, c) == SilentStreak(DoMiss(s, r).log, c) % MAX_MISSED
  {
    var todo := s.runs[r].phase.todo;
    if todo != [] {
      assert DoMiss(s, r).log == s.log + [Silent(todo[0])];
      StreakAfter(s.log, Silent(todo[0]), c);
      CounterFollows(s.missed, todo[0], c, SilentStreak(s.log, c));
    } else {
      assert DoMiss(s, r).log == s.log + [] == s.log;
    }
  }

  /** One more miss takes the counter of a streak to that of the next, and leaves the others. */
  lemma CounterFollows(missed: map<string, nat>, silent: string, c: string, streak: nat)
    requires Count(missed, c) == streak % MAX_MISSED
    ensures Count(RecordedMiss(missed, silent), c) == if c == silent then (streak + 1) % MAX_MISSED else Count(missed, c)
  {
  }

  lemma NobodyAnswered(s: State, e: Event)
    requires Enabled(s, e) && !e.Settle? && !e.Miss?
    ensures Apply(s, e).missed == s.missed
    ensures Apply(s, e).log == s.log ||
            exists f :: Apply(s, e).log == s.log + [f] && !f.Silent? && !f.Answered?
  {
    var log' := Apply(s, e).log;
    Locality(s, e);
    if |log'| > |s.log| {
      assert log' == s.log + [log'[|s.log|]];
    } else {
      assert log' == s.log;
    }
  }

  // ----- Every reachable state -----

  lemma KeepsInv(s: State, e: Event)
    requires Enabled(s, e) && Inv(s)
    ensures Inv(Apply(s, e))
  {
    KeepsRegistered(s, e);
    KeepsKnownRuns(s, e);
    KeepsWaves(s, e);
    KeepsPhases(s, e);
    KeepsClaims(s, e);
    KeepsExclusive(s, e);
    KeepsFifo(s, e);
    KeepsNoLateDelivery(s, e);
    KeepsCounted(s, e);
  }

  lemma {:induction false} InvAlways(s: State, es: seq<Event>)
    requires Inv(s) && ValidRun(s, es)
    ensures Inv(Exec(s, es))
    decreases |es|
  {
    if es != [] {
      var e := es[0];
      KeepsInv(s, e);
      InvAlways(Apply(s, e), es[1..]);
    }
  }

  ghost predicate Reachable(s: State) {
    exists free, es :: ValidRun(Init(free), es) && s == Exec(Init(free), es)
  }

  lemma ReachableInv(s: State)
    requires Reachable(s)
    ensures Inv(s)
  {
    var free, es :| ValidRun(Init(free), es) && s == Exec(Init(free), es);
    InvAlways(Init(free), es);
  }

  // ----- What the searches guarantee -----

  /** A winner accepted in the current wave of the search that won it, and that search itself took
      the courier from available to unavailable, once. The other couriers' offers are withdrawn. */
  lemma WinnerIsSound(s: State, r: RunId)
    requires Reachable(s) && r in s.runs && s.runs[r].phase.Won?
    ensures var run := s.runs[r]; var m, k := run.phase.msg, run.phase.claimedAt;
            && m.resp.accepted && m.resp.courier in run.wave && run.shown * run.wave == {m.resp.courier}
            && run.openedAt < m.at < k < |s.log|
            && s.log[run.openedAt] == Opened(r, run.ids)
            && s.log[m.at] == Delivered(r, m.resp)
            && s.log[k] == Claimed(r, m.resp.courier)
            && (forall l :: run.openedAt < l < |s.log| ==> !(s.log[l].Opened? && s.log[l].run == r))
            && (forall l :: 0 <= l < |s.log| && s.log[l].Claimed? && s.log[l].run == r ==> l == k)
  {
    ReachableInv(s);
    var run := s.runs[r];
    assert PhaseOk(s.log, r, run) && WaveOk(s.log, r, run);
    assert Sent(s.log, r, run, run.taken[|run.taken| - 1]);
  }

  /** Two searches win the same courier only with a release in between, and a courier that was won
      is not available again before a release. */
  lemma NoCourierWonTwice(s: State, r: RunId, q: RunId)
    requires Reachable(s) && r in s.runs && q in s.runs && r != q
    requires s.runs[r].phase.Won? && s.runs[q].phase.Won?
    requires s.runs[r].phase.msg.resp.courier == s.runs[q].phase.msg.resp.courier
    ensures var c := s.runs[r].phase.msg.resp.courier; var i, j := s.runs[r].phase.claimedAt, s.runs[q].phase.claimedAt;
            && i != j && FreedBetween(s.log, if i < j then i else j, if i < j then j else i, c)
            && (c in s.free ==> FreedBetween(s.log, if i < j then j else i, |s.log|, c))
  {
    ReachableInv(s);
    WinnerIsSound(s, r);
    WinnerIsSound(s, q);
  }

  /** Every reply that was ever received had been delivered to that same search in the wave that was
      still open when it was received, and no reply was received twice. */
  lemma RepliesStayInTheirWave(s: State, k: int)
    requires Reachable(s) && 0 <= k < |s.log| && s.log[k].Taken?
    ensures WithinOneWave(s.log, k)
    ensures forall l :: 0 <= l < |s.log| && l != k && s.log[l].Taken? && s.log[l].run == s.log[k].run ==>
              s.log[l].at != s.log[k].at
  {
    ReachableInv(s);
  }

  /** A search that was taken out of the table can win only with a reply it already had. */
  lemma LateWinUsesAnEarlierReply(s: State, r: RunId, d: int)
    requires Reachable(s) && r in s.runs && s.runs[r].phase.Won? && 0 <= d < |s.log| && s.log[d] == Detached(r)
    ensures s.runs[r].phase.msg.at < d
  {
    ReachableInv(s);
    WinnerIsSound(s, r);
  }

  /** Leaving removes a search's own registration and nobody else's. */
  lemma ExitKeepsTheSuccessor(s: State, r: RunId)
    requires Reachable(s) && Enabled(s, Exit(r))
    ensures var p := DoExit(s, r).pending;
            && (forall o :: o in p ==> p[o] != r)
            && (forall o :: o in s.pending && s.pending[o] != r ==> o in p && p[o] == s.pending[o])
  {
    ReachableInv(s);
  }

  ghost predicate LeftEnded(s: State) {
    forall r :: r in s.runs && s.runs[r].exited ==> s.runs[r].phase.Won? || s.runs[r].phase == Failed
  }

  lemma KeepsLeftEnded(s: State, e: Event)
    requires Enabled(s, e) && LeftEnded(s)
    ensures LeftEnded(Apply(s, e))
  {
    OthersStay(s, e);
    forall r | r in Apply(s, e).runs && Apply(s, e).runs[r].exited && Target(s, e) == Some(r)
      ensures Apply(s, e).runs[r].phase.Won? || Apply(s, e).runs[r].phase == Failed
    {
      StaysEnded(s, e, r);
    }
  }

  lemma StaysEnded(s: State, e: Event, r: RunId)
    requires Enabled(s, e) && LeftEnded(s) && Target(s, e) == Some(r) && r in Apply(s, e).runs && Apply(s, e).runs[r].exited
    ensures Apply(s, e).runs[r].phase.Won? || Apply(s, e).runs[r].phase == Failed
  {
  }

  lemma {:induction false} LeftEndedAlways(s: State, es: seq<Event>)
    requires LeftEnded(s) && ValidRun(s, es)
    ensures LeftEnded(Exec(s, es))
    decreases |es|
  {
    if es != [] {
      KeepsLeftEnded(s, es[0]);
      LeftEndedAlways(Apply(s, es[0]), es[1..]);
    }
  }

  /** A search leaves only when it has won or failed, and for good. */
  lemma LeavesWhenEnded(s: State, r: RunId)
    requires Reachable(s) && r in s.runs && s.runs[r].exited
    ensures s.runs[r].phase.Won? || s.runs[r].phase == Failed
  {
    var free, es :| ValidRun(Init(free), es) && s == Exec(Init(free), es);
    LeftEndedAlways(Init(free), es);
  }

  // ----- Waves that end before their time -----

  lemma {:induction false} SetOfDistinct(a: seq<string>)
    requires Distinct(a)
    ensures |Set(a)| == |a|
  {
    if a != [] {
      SetOfDistinct(a[1..]);
      assert Set(a) == {a[0]} + Set(a[1..]);
    }
  }

  lemma {:induction false} SetOfRepeated(a: seq<string>)
    ensures |Set(a)| <= |a|
    ensures !Distinct(a) ==> |Set(a)| < |a|
  {
    if a != [] {
      SetOfRepeated(a[1..]);
      assert Set(a) == {a[0]} + Set(a[1..]);
      if !Distinct(a) && Distinct(a[1..]) {
        var i, j :| 0 <= i < j < |a| && a[i] == a[j];
        assert i == 0 && a[j] == a[1..][j - 1];
      }
    }
  }

  lemma SubsetOfSameSize(a: set<string>, b: set<string>)
    requires a <= b && |a| == |b|
    ensures a == b
  {
    assert |b - a| == 0;
  }

  lemma RefusalsCount(s: State, e: Event)
    requires Enabled(s, e) && (e.Settle? || e.Claim?) && PhaseOk(s.log, e.r, s.runs[e.r])
    requires Apply(s, e).runs[e.r].phase == Between
    ensures var run := s.runs[e.r]; |run.taken| == |run.ids| && run.answered == Set(Couriers(run.taken))
  {
  }

  lemma EverybodyReplied(log: seq<Fact>, r: RunId, run: Run)
    requires WaveOk(log, r, run) && |run.taken| == |run.ids|
    ensures Set(Couriers(run.taken)) == run.wave <==> Distinct(Couriers(run.taken))
  {
    var who := Couriers(run.taken);
    forall x | x in Set(who) ensures x in run.wave {
      var i :| 0 <= i < |who| && who[i] == x;
      assert Sent(log, r, run, run.taken[i]);
    }
    SetOfDistinct(run.ids);
    SetOfRepeated(who);
    if Distinct(who) {
      SetOfDistinct(who);
      SubsetOfSameSize(Set(who), run.wave);
    }
  }

  /** When refusals end a wave there were as many replies as couriers, so the whole wave replied
      exactly if nobody replied twice. */
  lemma EarlyEnd(s: State, e: Event)
    requires Reachable(s) && Enabled(s, e) && (e.Settle? || e.Claim?)
    requires Apply(s, e).runs[e.r].phase == Between
    ensures var run := s.runs[e.r];
            && |run.taken| == |run.ids|
            && (run.answered == run.wave <==> Distinct(Couriers(run.taken)))
  {
    ReachableInv(s);
    RefusalsCount(s, e);
    EverybodyReplied(s.log, e.r, s.runs[e.r]);
  }

  lemma {:induction false} OneMore(s: State, es: seq<Event>, e: Event)
    requires ValidRun(s, es) && Enabled(Exec(s, es), e)
    ensures ValidRun(s, es + [e]) && Exec(s, es + [e]) == Apply(Exec(s, es), e)
    decreases |es|
  {
    if es == [] {
      assert es + [e] == [e];
    } else {
      OneMore(Apply(s, es[0]), es[1..], e);
      assert (es + [e])[1..] == es[1..] + [e];
    }
  }

  lemma ReachableStep(s: State, e: Event)
    requires Reachable(s) && Enabled(s, e)
    ensures Reachable(Apply(s, e))
  {
    var free, es :| ValidRun(Init(free), es) && s == Exec(Init(free), es);
    OneMore(Init(free), es, e);
  }

  /** A new search has opened its first wave. */
  lemma FirstWave(free: set<string>, o: string, ids: seq<string>) returns (s: State)
    requires Distinct(ids) && 1 <= |ids| <= WAVE_SIZE
    ensures Reachable(s) && s.pending == map[o := 0] && s.runs.Keys == {0} && s.free == free
    ensures var run := s.runs[0];
            run.order == o && run.phase == Awaiting && run.ids == ids && run.wave == Set(ids)
            && run.ch == [] && run.answered == {} && run.rejected == 0
  {
    s := Init(free);
    assert ValidRun(s, []) && Exec(s, []) == s;
    ReachableStep(s, Register(0, o));
    s := Apply(s, Register(0, o));
    ReachableStep(s, OpenWave(0, ids));
    s := Apply(s, OpenWave(0, ids));
  }

  /** A reply of a courier of an awaited wave is delivered and received. */
  lemma ReplyAndTake(s: State, r: RunId, o: string, resp: Response) returns (s': State)
    requires Reachable(s) && o in s.pending && s.pending[o] == r && r in s.runs
    requires s.runs[r].phase == Awaiting && s.runs[r].ch == [] && resp.courier in s.runs[r].wave
    ensures Reachable(s') && s'.pending == s.pending && s'.runs.Keys == s.runs.Keys && s'.free == s.free
    ensures var run, run' := s.runs[r], s'.runs[r];
            run'.phase.Handling? && run'.phase.msg.resp == resp && run'.ch == [] && run'.answered == run.answered + {resp.courier}
            && run'.rejected == run.rejected && run'.ids == run.ids && run'.wave == run.wave && run'.order == run.order
  {
    ReachableStep(s, Reply(o, resp));
    s' := Apply(s, Reply(o, resp));
    ReachableStep(s', Take(r));
    s' := Apply(s', Take(r));
  }

  /** One courier refusing three times ends a wave of three, and the other two are not waited for. */
  lemma OneCourierCanEndTheWave(o: string, ids: seq<string>) returns (s: State, e: Event)
    requires Distinct(ids) && |ids| == 3
    ensures Reachable(s) && Enabled(s, e) && e.Settle? && Apply(s, e).runs[e.r].phase == Between
    ensures s.runs[e.r].ids == ids && s.runs[e.r].answered == {ids[0]}
  {
    var no := Response(ids[0], false);
    e := Settle(0);
    s := FirstWave({}, o, ids);
    s := ReplyAndTake(s, 0, o, no);
    ReachableStep(s, e);
    s := Apply(s, e);
    s := ReplyAndTake(s, 0, o, no);
    ReachableStep(s, e);
    s := Apply(s, e);
    s := ReplyAndTake(s, 0, o, no);
  }

  /** A buffered acceptance survives Cancel, so one order can have two winning searches at once. */
  lemma CancelledSearchCanStillWin(o: string, c: string, d: string) returns (s: State, r: RunId, q: RunId)
    requires c != d
    ensures Reachable(s) && r != q && r in s.runs && q in s.runs
    ensures s.runs[r].order == o && s.runs[q].order == o
    ensures s.runs[r].phase.Won? && s.runs[r].phase.msg.resp.courier == c
    ensures s.runs[q].phase.Won? && s.runs[q].phase.msg.resp.courier == d
  {
    r, q := 0, 1;
    s := FirstWave({c, d}, o, [c]);
    s := ReplyAndTake(s, 0, o, Response(c, true));
    s := Next(s, CancelSearch(o));
    s := Next(s, Register(1, o));
    s := Next(s, OpenWave(1, [d]));
    s := ReplyAndTakeBeside(s, 1, 0, o, Response(d, true));
    s := AcceptedWins(s, 0, 1);
    s := AcceptedWins(s, 1, 0);
  }

  /** ReplyAndTake leaves any other search as it was. */
  lemma ReplyAndTakeBeside(s: State, r: RunId, q: RunId, o: string, resp: Response) returns (s': State)
    requires Reachable(s) && o in s.pending && s.pending[o] == r && r in s.runs && q in s.runs && q != r
    requires s.runs[r].phase == Awaiting && s.runs[r].ch == [] && resp.courier in s.runs[r].wave
    ensures Reachable(s') && s'.free == s.free && r in s'.runs && q in s'.runs && s'.runs[q] == s.runs[q]
    ensures s'.runs[r].phase.Handling? && s'.runs[r].phase.msg.resp == resp && s'.runs[r].order == s.runs[r].order
  {
    s' := Next(s, Reply(o, resp));
    s' := Next(s', Take(r));
  }

  lemma AcceptedWins(s: State, r: RunId, q: RunId) returns (s': State)
    requires Reachable(s) && r in s.runs && q in s.runs && q != r
    requires s.runs[r].phase.Handling? && s.runs[r].phase.msg.resp.accepted
    requires s.runs[r].phase.msg.resp.courier in s.free
    ensures Reachable(s') && r in s'.runs && q in s'.runs && s'.runs[q] == s.runs[q]
    ensures s'.free == s.free - {s.runs[r].phase.msg.resp.courier}
    ensures s'.runs[r].phase.Won? && s'.runs[r].phase.msg == s.runs[r].phase.msg && s'.runs[r].order == s.runs[r].order
  {
    s' := Next(s, Settle(r));
    s' := Next(s', Claim(r));
  }

  lemma Next(s: State, e: Event) returns (s': State)
    requires Reachable(s) && Enabled(s, e)
    ensures s' == Apply(s, e) && Reachable(s')
  {
    ReachableStep(s, e);
    s' := Apply(s, e);
  }

  // ----- Replies that are not lost -----

  /** While nobody has replied twice in a wave, the buffer has room for everybody's reply. */
  lemma FirstReplyIsKept(s: State, o: string, c: string)
    requires Reachable(s) && o in s.pending && s.pending[o] in s.runs && c in s.runs[s.pending[o]].wave
    requires var run := s.runs[s.pending[o]];
             Distinct(Couriers(run.taken + run.ch)) && c !in Couriers(run.taken + run.ch)
    ensures var run := s.runs[s.pending[o]]; Accepts(run.wave, |run.ch|, c)
  {
    ReachableInv(s);
    var r := s.pending[o];
    var run := s.runs[r];
    assert WaveOk(s.log, r, run);
    var who := Couriers(run.taken + run.ch);
    forall x | x in Set(who) ensures x in run.wave - {c} {
      var i :| 0 <= i < |who| && who[i] == x;
      assert if i < |run.taken| then Sent(s.log, r, run, run.taken[i]) else Sent(s.log, r, run, run.ch[i - |run.taken|]);
    }
    SetOfDistinct(who);
    SetOfDistinct(run.ids);
    SmallerSet(Set(who), run.wave - {c});
  }

  lemma SmallerSet(a: set<string>, b: set<string>)
    requires a <= b
    ensures |a| <= |b|
  {
    assert b == a + (b - a);
  }

  // ----- Couriers who stay silent -----

  /** A courier is taken off the line at every third miss in a row and at no other, over all the
      searches together; the counter never reaches three. */
  lemma EveryThirdMiss(s: State, r: RunId)
    requires Reachable(s) && Enabled(s, Miss(r)) && s.runs[r].phase.todo != []
    ensures var todo := s.runs[r].phase.todo; var c := todo[0]; var s' := DoMiss(s, r);
            && (s'.runs[r].phase == Offlining(c, todo[1..]) <==> (SilentStreak(s.log, c) + 1) % MAX_MISSED == 0)
            && SilentStreak(s'.log, c) == SilentStreak(s.log, c) + 1
            && Count(s'.missed, c) == SilentStreak(s'.log, c) % MAX_MISSED
  {
    ReachableInv(s);
    var c := s.runs[r].phase.todo[0];
    StreakAfter(s.log, Silent(c), c);
    MissCounted(s, r, c);
    assert Count(s.missed, c) == SilentStreak(s.log, c) % MAX_MISSED;
  }

  lemma {:induction false} WithoutMembers(ids: seq<string>, answered: set<string>)
    ensures forall x :: x in Without(ids, answered) <==> x in ids && x !in answered
    ensures Distinct(ids) ==> Distinct(Without(ids, answered))
  {
    if ids != [] {
      WithoutMembers(ids[1..], answered);
      assert ids == [ids[0]] + ids[1..];
    }
  }

  /** When the time runs out, exactly the couriers of the wave whose reply was never received are
      recorded as silent, each once, and every offer of the wave is withdrawn. */
  lemma ExpiryRecordsTheSilent(s: State, r: RunId)
    requires Reachable(s) && Enabled(s, Expire(r))
    ensures var run, run' := s.runs[r], Apply(s, Expire(r)).runs[r];
            && run'.phase.Recording? && Distinct(run'.phase.todo)
            && (forall c :: c in run'.phase.todo <==> c in run.wave && c !in Couriers(run.taken))
            && run'.shown !! run.wave
  {
    ReachableInv(s);
    var run := s.runs[r];
    assert WaveOk(s.log, r, run) && PhaseOk(s.log, r, run);
    WithoutMembers(run.ids, run.answered);
  }
}
