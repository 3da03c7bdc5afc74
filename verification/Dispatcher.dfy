/** The Dispatcher object (internal/couriers/dispatch.go, missed.go, reach.go): each method is one of
    the critical sections, or one of the loops, that the protocol in module Dispatch is made of. */
module Dispatcher {
  import opened Outcomes
  import opened Dispatch

  const SECOND: int := 1_000_000_000
  const MILLISECOND: int := 1_000_000

  /** What a courier is told of the restaurant: its id, name, address, place and logo. */
  datatype Restaurant = Unknown | Restaurant(id: string, name: string, address: string, lat: real, lng: real, logo: string)

  datatype OfferInfo = OfferInfo(order: string, restaurant: Restaurant, expiresIn: int)

  class WaveOffer {
    var respCh: seq<Response>
    var wave: set<string>
    var declined: set<string>
    var cancelled: bool
    var expiresAt: int
    var info: OfferInfo

    constructor ()
      ensures respCh == [] && wave == {} && declined == {} && !cancelled
    {
      respCh, wave, declined, cancelled, expiresAt, info := [], {}, {}, false, 0, OfferInfo("", Unknown, 0);
    }
  }

  /** What wakes awaitWave up; for an acceptance, also what ClaimIfAvailable answers. */
  datatype ClaimResult = Yes | No | Broken
  datatype Wake = Answer(resp: Response, claim: ClaimResult) | TimeUp | ContextDone

  datatype Verdict = Waiting | Winner(courier: string) | NobodyLeft | TimedOut | ClaimBroke | Stopped

  predicate Refusal(w: Wake) {
    w.Answer? && (!w.resp.accepted || w.claim == No)
  }

  /** The first `n` wakes were refusals by fewer replies than there are couriers, or the last of them
      decided the wave. */
  ghost predicate DecidedBy(ids: seq<string>, wakes: seq<Wake>, n: nat, v: Verdict) {
    if v.Waiting? then n == |wakes| && n < |ids| && forall j :: 0 <= j < n ==> Refusal(wakes[j])
    else
      && 0 < n <= |wakes| && n <= |ids|
      && (forall j :: 0 <= j < n - 1 ==> Refusal(wakes[j]))
      && match wakes[n - 1]
         case TimeUp => v == TimedOut
         case ContextDone => v == Stopped
         case Answer(resp, claim) =>
           if Refusal(wakes[n - 1]) then n == |ids| && v == NobodyLeft
           else if claim == Yes then v == Winner(resp.courier)
           else v == ClaimBroke
  }

  ghost function Replied(wakes: seq<Wake>): set<string> {
    set w | w in wakes && w.Answer? :: w.resp.courier
  }

  /** `c` counts one more miss exactly when the wave ran its full time without a reply of his. */
  ghost predicate StayedSilent(ids: seq<string>, wakes: seq<Wake>, n: nat, v: Verdict, c: string)
    requires n <= |wakes|
  {
    v == TimedOut && c in ids && c !in Replied(wakes[..n])
  }

  lemma RepliedStep(wakes: seq<Wake>, n: nat)
    requires n < |wakes|
    ensures Replied(wakes[..n + 1]) ==
            Replied(wakes[..n]) + if wakes[n].Answer? then {wakes[n].resp.courier} else {}
  {
    assert wakes[..n + 1] == wakes[..n] + [wakes[n]];
  }

  function Flatten(waves: seq<seq<string>>): seq<string> {
    if waves == [] then [] else Flatten(waves[..|waves| - 1]) + waves[|waves| - 1]
  }

  function Pow2(n: nat): nat {
    if n == 0 then 1 else 2 * Pow2(n - 1)
  }

  lemma {:induction false} Pow2Grows(m: nat, n: nat)
    requires m <= n
    ensures 1 <= Pow2(m) <= Pow2(n)
  {
    if n == 0 {
    } else if m == n {
      Pow2Grows(m - 1, n - 1);
    } else {
      Pow2Grows(m, n - 1);
    }
  }

  function Min(a: int, b: int): int { if a < b then a else b }

  class Dispatcher {
    const offerTTL: nat
    var pending: map<string, WaveOffer>
    var missed: map<string, nat>

    /** No two orders share an offer record, and no counter has reached the limit. */
    ghost predicate Valid()
      reads this
    {
      && (forall o, p :: o in pending && p in pending && o != p ==> pending[o] != pending[p])
      && (forall c :: Count(missed, c) < MAX_MISSED)
    }

    constructor (ttl: nat)
      ensures Valid() && pending == map[] && missed == map[] && offerTTL == ttl
    {
      offerTTL, pending, missed := ttl, map[], map[];
    }

    /** The start of Dispatch; null is ErrAlreadyRunning. */
    method Register(order: string) returns (offer: WaveOffer?)
      requires Valid()
      modifies this`pending
      ensures Valid()
      ensures order in old(pending) <==> offer == null
      ensures offer == null ==> pending == old(pending)
      ensures offer != null ==> fresh(offer) && pending == old(pending)[order := offer]
                                && offer.respCh == [] && offer.wave == {} && !offer.cancelled
    {
      if order in pending {
        return null;
      }
      offer := new WaveOffer();
      pending := pending[order := offer];
    }

    /** Replaces the wave and empties the channel, whoever the record belongs to by now. */
    method StartWave(offer: WaveOffer, batch: seq<string>, info: OfferInfo, now: int)
      requires Valid()
      modifies offer
      ensures Valid()
      ensures offer.wave == Set(batch) && offer.respCh == [] && offer.declined == {}
      ensures offer.expiresAt == now + offerTTL && offer.cancelled == old(offer.cancelled)
      ensures offer.info == info.(expiresIn := offerTTL)
    {
      offer.wave := {};
      offer.info := info.(expiresIn := offerTTL);
      offer.expiresAt := now + offerTTL;
      offer.declined := {};
      for i := 0 to |batch|
        invariant offer.wave == Set(batch[..i])
        invariant offer.expiresAt == now + offerTTL && offer.declined == {} && offer.cancelled == old(offer.cancelled)
        invariant offer.info == info.(expiresIn := offerTTL)
      {
        offer.wave := offer.wave + {batch[i]};
        assert batch[..i + 1] == batch[..i] + [batch[i]];
      }
      assert batch[..|batch|] == batch;
      while offer.respCh != []
        invariant offer.wave == Set(batch) && offer.declined == {}
        invariant offer.expiresAt == now + offerTTL && offer.cancelled == old(offer.cancelled)
        invariant offer.info == info.(expiresIn := offerTTL)
        decreases |offer.respCh|
      {
        offer.respCh := offer.respCh[1..];
      }
    }

    /** True exactly when the reply reached the search that is registered for the order now. A
        refusal by a courier of the wave is remembered even when the channel is full. */
    method HandleResponse(order: string, resp: Response) returns (ok: bool)
      requires Valid()
      modifies pending.Values
      ensures Valid()
      ensures ok <==> order in pending && Accepts(pending[order].wave, old(|pending[order].respCh|), resp.courier)
      ensures order in pending ==>
                var o := pending[order];
                && o.respCh == old(o.respCh) + (if ok then [resp] else [])
                && o.declined == old(o.declined) + (if resp.courier in o.wave && !resp.accepted then {resp.courier} else {})
                && o.wave == old(o.wave) && o.cancelled == old(o.cancelled)
                && o.expiresAt == old(o.expiresAt) && o.info == old(o.info)
      ensures forall p :: p in pending && p != order ==> unchanged(pending[p])
    {
      if order !in pending {
        return false;
      }
      var offer := pending[order];
      if resp.courier !in offer.wave {
        return false;
      }
      if !resp.accepted {
        offer.declined := offer.declined + {resp.courier};
      }
      if |offer.respCh| < WAVE_SIZE {
        offer.respCh := offer.respCh + [resp];
        return true;
      }
      return false;
    }

    /** The registration is gone at once; a later reply finds nothing. */
    method Cancel(order: string) returns (found: bool)
      requires Valid()
      modifies this`pending, pending.Values
      ensures Valid()
      ensures found <==> order in old(pending)
      ensures pending == old(pending) - {order}
      ensures found ==>
                var o := old(pending[order]);
                o.cancelled && o.respCh == old(o.respCh) && o.wave == old(o.wave) && o.declined == old(o.declined)
      ensures forall p :: p in pending ==> unchanged(pending[p])
    {
      if order !in pending {
        return false;
      }
      var offer := pending[order];
      pending := pending - {order};
      offer.cancelled := true;
      return true;
    }

    /** The deferred clean-up of Dispatch: only one's own registration goes. */
    method Exit(order: string, offer: WaveOffer)
      requires Valid()
      modifies this`pending
      ensures Valid()
      ensures pending == if order in old(pending) && old(pending[order]) == offer then old(pending) - {order} else old(pending)
    {
      if order in pending && pending[order] == offer {
        pending := pending - {order};
      }
    }

    method ResetMissed(courier: string)
      requires Valid()
      modifies this`missed
      ensures Valid() && missed == old(missed) - {courier}
    {
      missed := missed - {courier};
      assert forall c :: Count(missed, c) == if c == courier then 0 else old(Count(missed, c));
    }

    /** True when the courier has to be taken off the line. */
    method RecordMissed(courier: string) returns (offline: bool)
      requires Valid()
      modifies this`missed
      ensures Valid()
      ensures missed == RecordedMiss(old(missed), courier) && offline == ReachesLimit(old(missed), courier)
    {
      missed := missed[courier := Count(missed, courier) + 1];
      var n := missed[courier];
      if n >= MAX_MISSED {
        missed := missed - {courier};
      }
      offline := n >= MAX_MISSED;
      assert forall c :: c != courier ==> Count(missed, c) == old(Count(missed, c));
    }

    /** One wave. `withdrawn` are the CancelOffer calls, `offline` the couriers taken off the line and
        `n` the number of wakes used up. */
    method AwaitWave(ids: seq<string>, wakes: seq<Wake>)
      returns (v: Verdict, withdrawn: seq<string>, offline: set<string>, n: nat)
      requires Valid() && Distinct(ids) && ids != []
      modifies this`missed
      ensures Valid()
      ensures n <= |wakes| && DecidedBy(ids, wakes, n, v)
      ensures withdrawn == match v
                           case Winner(c) => Without(ids, {c})
                           case TimedOut => ids
                           case Stopped => ids
                           case _ => []
      ensures forall c :: Count(missed, c) ==
                if c in Replied(wakes[..n]) then 0
                else if StayedSilent(ids, wakes, n, v, c) then (old(Count(missed, c)) + 1) % MAX_MISSED
                else old(Count(missed, c))
      ensures forall c :: c in offline <==>
                StayedSilent(ids, wakes, n, v, c) && old(Count(missed, c)) + 1 == MAX_MISSED
    {
      var rejected := 0;
      var answered: set<string> := {};
      offline, n := {}, 0;
      while n < |wakes|
        invariant n <= |wakes| && rejected == n < |ids| && Valid() && offline == {}
        invariant forall j :: 0 <= j < n ==> Refusal(wakes[j])
        invariant answered == Replied(wakes[..n])
        invariant forall c :: Count(missed, c) == if c in answered then 0 else old(Count(missed, c))
      {
        var w := wakes[n];
        RepliedStep(wakes, n);
        n := n + 1;
        if w == ContextDone {
          return Stopped, ids, offline, n;
        }
        if w == TimeUp {
          offline := RecordSilent(ids, answered);
          return TimedOut, ids, offline, n;
        }
        var courier := w.resp.courier;
        answered := answered + {courier};
        ResetMissed(courier);
        if w.resp.accepted && w.claim == Broken {
          return ClaimBroke, [], offline, n;
        }
        if w.resp.accepted && w.claim == Yes {
          return Winner(courier), Without(ids, {courier}), offline, n;
        }
        rejected := rejected + 1;
        if rejected >= |ids| {
          return NobodyLeft, [], offline, n;
        }
      }
      return Waiting, [], offline, n;
    }

    /** The loop of recordMissed calls over those of the wave that did not answer. */
    method RecordSilent(ids: seq<string>, answered: set<string>) returns (offline: set<string>)
      requires Valid() && Distinct(ids)
      modifies this`missed
      ensures Valid()
      ensures forall c :: Count(missed, c) ==
                if c in ids && c !in answered then (old(Count(missed, c)) + 1) % MAX_MISSED else old(Count(missed, c))
      ensures forall c :: c in offline <==> c in ids && c !in answered && old(Count(missed, c)) + 1 == MAX_MISSED
    {
      offline := {};
      for i := 0 to |ids|
        invariant Valid()
        invariant forall c :: Count(missed, c) ==
                    if c in ids[..i] && c !in answered then (old(Count(missed, c)) + 1) % MAX_MISSED else old(Count(missed, c))
        invariant forall c :: c in offline <==> c in ids[..i] && c !in answered && old(Count(missed, c)) + 1 == MAX_MISSED
      {
        assert ids[i] !in ids[..i];
        assert ids[..i + 1] == ids[..i] + [ids[i]];
        if ids[i] !in answered {
          var out := RecordMissed(ids[i]);
          if out {
            offline := offline + {ids[i]};
          }
        }
      }
      assert ids[..|ids|] == ids;
    }

    /** The waves of one cycle: blocks of three in ranking order, so every ranked courier is offered
        the order once and nobody else is. */
    method CycleWaves(ranked: seq<string>) returns (waves: seq<seq<string>>)
      ensures Flatten(waves) == ranked
      ensures forall i :: 0 <= i < |waves| ==> 1 <= |waves[i]| <= WAVE_SIZE
      ensures forall i :: 0 <= i < |waves| - 1 ==> |waves[i]| == WAVE_SIZE
    {
      waves := [];
      var start := 0;
      while start < |ranked|
        invariant 0 <= start && start % WAVE_SIZE == 0
        invariant Flatten(waves) == ranked[..Min(start, |ranked|)]
        invariant forall i :: 0 <= i < |waves| ==> 1 <= |waves[i]| <= WAVE_SIZE
        invariant start <= |ranked| ==> forall i :: 0 <= i < |waves| ==> |waves[i]| == WAVE_SIZE
        invariant forall i :: 0 <= i < |waves| - 1 ==> |waves[i]| == WAVE_SIZE
        decreases |ranked| - start
      {
        var end := start + WAVE_SIZE;
        if end > |ranked| {
          end := |ranked|;
        }
        var batch := ranked[start..end];
        assert (waves + [batch])[..|waves|] == waves;
        assert ranked[..start] + batch == ranked[..end];
        waves := waves + [batch];
        start := start + WAVE_SIZE;
      }
      assert ranked[..|ranked|] == ranked;
    }

    function RetryPause(): (p: int)
      ensures p >= 50 * MILLISECOND
    {
      var p := offerTTL / 4;
      if p < 50 * MILLISECOND then 50 * MILLISECOND else p
    }

    function MaxRetryPause(): int { offerTTL * 15 }

    /** The pause doubles with every failed cycle after the first, up to the longest one. */
    method BackoffPause(failedCycles: nat) returns (p: int)
      ensures p == Min(MaxRetryPause(), RetryPause() * Pow2(if failedCycles == 0 then 0 else failedCycles - 1))
    {
      p := RetryPause();
      var i := 1;
      while i < failedCycles && p < MaxRetryPause()
        invariant 1 <= i && (i <= failedCycles || i == 1)
        invariant p == RetryPause() * Pow2(i - 1)
      {
        p := p * 2;
        i := i + 1;
      }
      if i < failedCycles {
        Pow2Grows(i - 1, failedCycles - 1);
        MulGrows(RetryPause(), Pow2(i - 1), Pow2(failedCycles - 1));
      }
      if p > MaxRetryPause() {
        p := MaxRetryPause();
      }
    }

    /** The offer to restore when a courier's app comes back: one that is open for him, that he has not
        refused and that has at least a second left, if there is any. It says how much time is left. */
    method PendingOffer(courier: string, now: int) returns (offer: Option<OfferInfo>)
      requires Valid()
      ensures offer.Some? ==>
                exists o :: o in pending && Restorable(pending[o], courier, now) &&
                  offer.value == pending[o].info.(expiresIn := pending[o].expiresAt - now)
      ensures offer.Some? ==> offer.value.expiresIn >= SECOND
      ensures offer.None? <==> forall o :: o in pending ==> !Restorable(pending[o], courier, now)
    {
      var rest := pending.Keys;
      while rest != {}
        invariant rest <= pending.Keys
        invariant forall o :: o in pending && o !in rest ==> !Restorable(pending[o], courier, now)
        decreases rest
      {
        var o :| o in rest;
        rest := rest - {o};
        var found := pending[o];
        if courier in found.wave && courier !in found.declined {
          var left := found.expiresAt - now;
          if left >= SECOND {
            return Some(found.info.(expiresIn := left));
          }
        }
      }
      return None;
    }
  }

  predicate Restorable(o: WaveOffer, courier: string, now: int)
    reads o
  {
    courier in o.wave && courier !in o.declined && o.expiresAt - now >= SECOND
  }

  lemma MulGrows(a: int, x: int, y: int)
    requires a >= 0 && x <= y
    ensures a * x <= a * y
  {
  }

  lemma DistinctHalves(a: seq<string>, b: seq<string>, c: string)
    requires Distinct(a + b) && c in a
    ensures c !in b
  {
    var i :| 0 <= i < |a| && a[i] == c;
    forall j | 0 <= j < |b| ensures b[j] != c {
      assert (a + b)[i] != (a + b)[|a| + j];
    }
  }

  /** Over a whole cycle, being offered the order is being ranked, with the same multiplicity. */
  lemma {:induction false} EveryRankedCourierIsOffered(waves: seq<seq<string>>, ranked: seq<string>, c: string)
    requires Flatten(waves) == ranked && Distinct(ranked)
    ensures c in ranked <==> exists i :: 0 <= i < |waves| && c in waves[i]
    ensures forall i, j :: 0 <= i < j < |waves| && c in waves[i] ==> c !in waves[j]
  {
    if waves != [] {
      var init, last := waves[..|waves| - 1], waves[|waves| - 1];
      var front := Flatten(init);
      assert ranked == front + last;
      assert Distinct(front) by {
        assert forall i :: 0 <= i < |front| ==> front[i] == ranked[i];
      }
      EveryRankedCourierIsOffered(init, front, c);
      assert forall i :: 0 <= i < |init| ==> init[i] == waves[i];
      if c in front {
        DistinctHalves(front, last, c);
      }
      if c in last {
        assert c in waves[|waves| - 1];
      }
    }
  }
}
