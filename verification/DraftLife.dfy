/** Whether what was decided about a draft stays decided (internal/agentapi/service.go). */
module DraftLife {
  // Confirming and approving read and write a draft under the lock of its grant; rejecting takes no lock.
  // The lock does its part: nothing but a rejection ever comes between a locked read and the write that
  // follows it. The rest is about rejections that overlap with a locked request for the same draft.

  import opened Outcomes
  import opened Drafts
  import opened Sequences
  import opened DraftLimits

  predicate Final(d: Draft) {
    d.status == Placed || d.status == Rejected || d.status == Expired
  }

  // ----- What has been read and rejected -----

  datatype Fact =
    | ReadLocked(t: Thread, d: nat, copy: Draft)     // read by a confirmation or an approval, under the lock
    | ReadUnlocked(t: Thread, d: nat, copy: Draft)   // read by a rejection
    | Rejection(t: Thread, d: nat)               // written by a rejection
    | Decision(d: nat, byUser: bool, at: int)    // a confirmation or an approval looked at what it had read
    | Nothing

  function FactOf(s: State, e: Event): Fact
    requires Enabled(s, e)
  {
    match e
    case Read(t) => ReadLocked(t, s.jobs[t].d, s.drafts[s.jobs[t].d])
    case RejectRead(t, d) => ReadUnlocked(t, d, s.drafts[d])
    case RejectWrite(t) => Rejection(t, s.jobs[t].d)
    case Decide(t) => Decision(s.jobs[t].d, s.jobs[t].kind == ByUser, s.now)
    case _ => Nothing
  }

  ghost function History(s: State, es: seq<Event>): (h: seq<Fact>)
    requires ValidRun(s, es)
    ensures |h| == |es|
    decreases |es|
  {
    if es == [] then [] else [FactOf(s, es[0])] + History(Apply(s, es[0]), es[1..])
  }

  /** The latest locked read of thread t was fact p, and it was of draft d. */
  ghost predicate LatestRead(h: seq<Fact>, t: Thread, d: nat, copy: Draft, p: int) {
    && 0 <= p < |h| && h[p] == ReadLocked(t, d, copy)
    && forall k :: p < k < |h| && h[k].ReadLocked? ==> h[k].t != t
  }

  ghost predicate RejectedAfter(h: seq<Fact>, d: nat, p: int) {
    exists q :: p < q < |h| && 0 <= q && h[q].Rejection? && h[q].d == d
  }

  /** A rejection of draft d was written since t read it under the lock. */
  ghost predicate RejectedSinceRead(h: seq<Fact>, t: Thread, d: nat) {
    exists copy, p :: LatestRead(h, t, d, copy, p) && RejectedAfter(h, d, p)
  }

  /** The rejection t read draft d when it was not decided yet. */
  ghost predicate ReadUndecided(h: seq<Fact>, t: Thread, d: nat) {
    exists p :: 0 <= p < |h| && h[p].ReadUnlocked? && h[p].t == t && h[p].d == d && !Final(h[p].copy)
  }

  /** A request works on a copy that it read under the lock. */
  predicate HasCopy(j: Job) {
    j.HasRead? || j.Checking? || j.Placing? || j.Saving?
  }

  /** The copy is the draft as it is now, unless a rejection was written since the read. */
  ghost predicate CopyTraced(s: State, h: seq<Fact>, t: Thread)
    requires t in s.jobs && HasCopy(s.jobs[t])
  {
    var j := s.jobs[t];
    exists p :: LatestRead(h, t, j.d, j.copy, p) &&
      (j.copy.grant == j.g ==> (j.d < |s.drafts| && s.drafts[j.d] == j.copy) || RejectedAfter(h, j.d, p))
  }

  ghost predicate Traced(s: State, h: seq<Fact>) {
    && (forall t :: t in s.jobs && HasCopy(s.jobs[t]) ==> CopyTraced(s, h, t))
    && (forall t :: t in s.jobs && s.jobs[t].Rejecting? ==> ReadUndecided(h, t, s.jobs[t].d))
  }

  lemma ReadsLast(h: seq<Fact>, f: Fact, t: Thread, d: nat, copy: Draft, p: int)
    requires LatestRead(h, t, d, copy, p) && !(f.ReadLocked? && f.t == t)
    ensures LatestRead(h + [f], t, d, copy, p)
    ensures RejectedAfter(h, d, p) ==> RejectedAfter(h + [f], d, p)
    ensures f.Rejection? && f.d == d ==> RejectedAfter(h + [f], d, p)
  {
    var h' := h + [f];
    if RejectedAfter(h, d, p) {
      var q :| p < q < |h| && 0 <= q && h[q].Rejection? && h[q].d == d;
      assert h'[q] == h[q];
    }
    assert h'[|h|] == f;
  }

  /** The request that has the copy keeps it, or has just read it. */
  lemma WhoseCopy(s: State, e: Event, t: Thread)
    requires Enabled(s, e) && t in Apply(s, e).jobs && HasCopy(Apply(s, e).jobs[t])
    ensures t in s.jobs
    ensures e == Read(t) || (HasCopy(s.jobs[t]) && var j, j' := s.jobs[t], Apply(s, e).jobs[t];
                             j'.d == j.d && j'.copy == j.copy && j'.g == j.g)
  {
  }

  /** Between a locked read and the write that follows it only a rejection writes the draft. */
  lemma LockKeepsOthersOut(s: State, e: Event, t: Thread)
    requires Enabled(s, e) && Inv(s) && t in s.jobs && HasCopy(s.jobs[t]) && s.jobs[t].copy.grant == s.jobs[t].g
    requires t in Apply(s, e).jobs && HasCopy(Apply(s, e).jobs[t])
    ensures s.jobs[t].d < |s.drafts| && s.jobs[t].d < |Apply(s, e).drafts|
    ensures Apply(s, e).drafts[s.jobs[t].d] == s.drafts[s.jobs[t].d] || (e.RejectWrite? && s.jobs[e.t].d == s.jobs[t].d)
  {
    assert JobOk(s, s.jobs[t]);
    DraftsAfter(s, e);
    if e.Save? {
      assert JobOk(s, s.jobs[e.t]);
    }
  }

  lemma KeepsCopyTraced(s: State, e: Event, h: seq<Fact>, t: Thread)
    requires Enabled(s, e) && Inv(s) && Traced(s, h) && t in Apply(s, e).jobs && HasCopy(Apply(s, e).jobs[t])
    ensures CopyTraced(Apply(s, e), h + [FactOf(s, e)], t)
  {
    var s', f := Apply(s, e), FactOf(s, e);
    WhoseCopy(s, e, t);
    if e == Read(t) {
      assert LatestRead(h + [f], t, s'.jobs[t].d, s'.jobs[t].copy, |h|);
    } else {
      var j := s.jobs[t];
      assert CopyTraced(s, h, t);
      var p :| LatestRead(h, t, j.d, j.copy, p) &&
               (j.copy.grant == j.g ==> (j.d < |s.drafts| && s.drafts[j.d] == j.copy) || RejectedAfter(h, j.d, p));
      ReadsLast(h, f, t, j.d, j.copy, p);
      if j.copy.grant == j.g {
        LockKeepsOthersOut(s, e, t);
      }
    }
  }

  lemma KeepsTraced(s: State, e: Event, h: seq<Fact>)
    requires Enabled(s, e) && Inv(s) && Traced(s, h)
    ensures Traced(Apply(s, e), h + [FactOf(s, e)])
  {
    var s', h' := Apply(s, e), h + [FactOf(s, e)];
    forall t | t in s'.jobs && HasCopy(s'.jobs[t]) ensures CopyTraced(s', h', t) {
      KeepsCopyTraced(s, e, h, t);
    }
    forall t | t in s'.jobs && s'.jobs[t].Rejecting? ensures ReadUndecided(h', t, s'.jobs[t].d) {
      KeepsReadUndecided(s, e, h, t);
    }
  }

  lemma KeepsReadUndecided(s: State, e: Event, h: seq<Fact>, t: Thread)
    requires Enabled(s, e) && Traced(s, h) && t in Apply(s, e).jobs && Apply(s, e).jobs[t].Rejecting?
    ensures ReadUndecided(h + [FactOf(s, e)], t, Apply(s, e).jobs[t].d)
  {
    var h' := h + [FactOf(s, e)];
    if e.RejectRead? && e.t == t {
      assert h'[|h|] == FactOf(s, e);
    } else {
      WhoRejects(s, e, t);
      var p :| 0 <= p < |h| && h[p].ReadUnlocked? && h[p].t == t && h[p].d == s.jobs[t].d && !Final(h[p].copy);
      assert h'[p] == h[p];
    }
  }

  lemma WhoRejects(s: State, e: Event, t: Thread)
    requires Enabled(s, e) && t in Apply(s, e).jobs && Apply(s, e).jobs[t].Rejecting? && !(e.RejectRead? && e.t == t)
    ensures t in s.jobs && s.jobs[t] == Apply(s, e).jobs[t]
  {
  }

  lemma {:induction false} TracedAlways(s: State, es: seq<Event>, h: seq<Fact>)
    requires Inv(s) && Traced(s, h) && ValidRun(s, es)
    ensures Traced(Exec(s, es), h + History(s, es))
    decreases |es|
  {
    if es == [] {
      assert h + [] == h;
    } else {
      KeepsInv(s, es[0]);
      KeepsTraced(s, es[0], h);
      TracedAlways(Apply(s, es[0]), es[1..], h + [FactOf(s, es[0])]);
      assert h + History(s, es) == (h + [FactOf(s, es[0])]) + History(Apply(s, es[0]), es[1..]);
    }
  }

  // ----- Exactly when a decision is undone -----

  /** A rejection that read the draft before it was decided is written over the decision. */
  ghost predicate RejectsOver(s: State, h: seq<Fact>, e: Event, i: nat)
    requires Enabled(s, e) && i < |s.drafts|
  {
    e.RejectWrite? && s.jobs[e.t].d == i && s.drafts[i].status != Rejected && ReadUndecided(h, e.t, i)
  }

  /** A confirmation or an approval that read the draft before it was rejected is written over the rejection. */
  ghost predicate SavesOver(s: State, h: seq<Fact>, e: Event, i: nat)
    requires Enabled(s, e)
  {
    e.Save? && e.ok && s.jobs[e.t].d == i && RejectedSinceRead(h, e.t, i)
  }

  /** After any run: a step undoes what was decided about a draft exactly if it writes a rejection that read
      the draft before, or saves what was read before a rejection. Otherwise the draft stays as it is, but for
      the time of a repeated rejection. */
  lemma DecisionUndoneExactly(s0: State, es: seq<Event>, e: Event, i: nat)
    requires IsInit(s0) && ValidRun(s0, es) && Enabled(Exec(s0, es), e)
    requires i < |Exec(s0, es).drafts| && Final(Exec(s0, es).drafts[i])
    ensures var s := Exec(s0, es); var s' := Apply(s, e);
            && i < |s'.drafts|
            && (s'.drafts[i].status != s.drafts[i].status <==>
                  RejectsOver(s, History(s0, es), e, i) || SavesOver(s, History(s0, es), e, i))
            && (s'.drafts[i].status == s.drafts[i].status ==>
                  s'.drafts[i] == s.drafts[i] || (e.RejectWrite? && s.drafts[i].status == Rejected))
  {
    var s, h := Exec(s0, es), History(s0, es);
    InvAlways(s0, es);
    TracedAlways(s0, es, []);
    assert [] + h == h;
    if e.Save? && s.jobs[e.t].d == i {
      SaveUndoes(s, h, e.t, e.ok);
    } else {
      OthersUndo(s, e, i);
    }
  }

  /** Saving over a decided draft undoes a rejection, which then came after the read. */
  lemma SaveUndoes(s: State, h: seq<Fact>, t: Thread, ok: bool)
    requires Inv(s) && Traced(s, h) && Enabled(s, Save(t, ok)) && Final(s.drafts[s.jobs[t].d])
    ensures ok ==> RejectedSinceRead(h, t, s.jobs[t].d) && s.drafts[s.jobs[t].d].status == Rejected && s.jobs[t].changed.status != Rejected
  {
    var j := s.jobs[t];
    assert JobOk(s, j);
    assert CopyTraced(s, h, t);
    var p :| LatestRead(h, t, j.d, j.copy, p) &&
             (j.copy.grant == j.g ==> (j.d < |s.drafts| && s.drafts[j.d] == j.copy) || RejectedAfter(h, j.d, p));
  }

  lemma OthersUndo(s: State, e: Event, i: nat)
    requires Inv(s) && Enabled(s, e) && i < |s.drafts| && !(e.Save? && s.jobs[e.t].d == i)
    ensures i < |Apply(s, e).drafts|
    ensures Apply(s, e).drafts[i] == s.drafts[i] ||
            (e.RejectWrite? && s.jobs[e.t].d == i && Apply(s, e).drafts[i].status == Rejected)
    ensures e.RejectWrite? && s.jobs[e.t].d == i ==> Apply(s, e).drafts[i].status == Rejected
  {
    DraftsAfter(s, e);
  }

  /** A draft that waits for its user never becomes open again, whatever is written. */
  lemma NeverOpenAgain(s: State, e: Event, i: nat)
    requires Reachable(s) && Enabled(s, e) && i < |s.drafts| && s.drafts[i].status != Open
    ensures i < |Apply(s, e).drafts| && Apply(s, e).drafts[i].status != Open
  {
    ReachableInv(s);
    DraftsAfter(s, e);
    if Written(s, e).Some? {
      WrittenOk(s, e);
    }
  }

  // ----- What is placed was looked at in time -----

  /** A request goes on after reading exactly if the draft is of its grant and in time, and waits for this kind
      of request: open with the total that the agent named, or waiting for its user, whose grant is usable. */
  lemma GoesOnExactly(s: State, t: Thread)
    requires Enabled(s, Decide(t))
    ensures var j, j' := s.jobs[t], Apply(s, Decide(t)).jobs[t];
            var rightTime := j.copy.grant == j.g && s.now < j.copy.expires;
            && (j'.Checking? <==> rightTime && j.kind == ByAgent(j.copy.total) && j.copy.status == Open)
            && (j'.Placing? <==> rightTime && j.kind == ByUser && j.copy.status == AwaitingUser && Usable(s.grants[j.g], s.now))
            && (j'.Saving? ==> s.now >= j.copy.expires && j'.changed == j.copy.(status := Expired, decided := Some(s.now)))
            && (j'.Saving? <==> j.copy.grant == j.g && s.now >= j.copy.expires
                                && j.copy.status == if j.kind == ByUser then AwaitingUser else Open)
  {
  }

  ghost predicate LookedAt(h: seq<Fact>, d: nat, expires: int) {
    exists p :: 0 <= p < |h| && h[p].Decision? && h[p].d == d && h[p].at < expires
  }

  /** The request is on its way to placing the draft. */
  predicate Places(j: Job) {
    j.Checking? || j.Placing? || (j.Saving? && j.changed.status == Placed)
  }

  ghost predicate InTime(s: State, h: seq<Fact>) {
    && (forall i :: 0 <= i < |s.drafts| && s.drafts[i].status == Placed ==> LookedAt(h, i, s.drafts[i].expires))
    && (forall t :: t in s.jobs && Places(s.jobs[t]) ==> LookedAt(h, s.jobs[t].d, s.jobs[t].copy.expires))
  }

  lemma LooksLast(h: seq<Fact>, f: Fact, d: nat, expires: int)
    ensures LookedAt(h, d, expires) ==> LookedAt(h + [f], d, expires)
    ensures f.Decision? && f.d == d && f.at < expires ==> LookedAt(h + [f], d, expires)
  {
    var h' := h + [f];
    assert h'[|h|] == f;
    if LookedAt(h, d, expires) {
      var p :| 0 <= p < |h| && h[p].Decision? && h[p].d == d && h[p].at < expires;
      assert h'[p] == h[p];
    }
  }

  /** Who is on the way was so before, or has just looked. */
  lemma WhoPlaces(s: State, e: Event, t: Thread)
    requires Enabled(s, e) && t in Apply(s, e).jobs && Places(Apply(s, e).jobs[t])
    ensures t in s.jobs
    ensures var j, j' := s.jobs[t], Apply(s, e).jobs[t];
            (Places(j) && j'.d == j.d && j'.copy == j.copy) ||
            (e == Decide(t) && j.HasRead? && j'.d == j.d && j'.copy == j.copy && s.now < j.copy.expires)
  {
  }

  lemma KeepsInTime(s: State, e: Event, h: seq<Fact>)
    requires Enabled(s, e) && Inv(s) && InTime(s, h)
    ensures InTime(Apply(s, e), h + [FactOf(s, e)])
  {
    var s', h' := Apply(s, e), h + [FactOf(s, e)];
    forall t | t in s'.jobs && Places(s'.jobs[t]) ensures LookedAt(h', s'.jobs[t].d, s'.jobs[t].copy.expires) {
      WhoPlaces(s, e, t);
      LooksLast(h, FactOf(s, e), s'.jobs[t].d, s'.jobs[t].copy.expires);
    }
    DraftsAfter(s, e);
    forall i | 0 <= i < |s'.drafts| && s'.drafts[i].status == Placed ensures LookedAt(h', i, s'.drafts[i].expires) {
      LooksLast(h, FactOf(s, e), i, s'.drafts[i].expires);
      PlacedBefore(s, e, i);
    }
  }

  lemma PlacedBefore(s: State, e: Event, i: nat)
    requires Enabled(s, e) && Inv(s) && i < |Apply(s, e).drafts| && Apply(s, e).drafts[i].status == Placed
    ensures (i < |s.drafts| && s.drafts[i] == Apply(s, e).drafts[i]) ||
            (e.Save? && Places(s.jobs[e.t]) && s.jobs[e.t].d == i && s.jobs[e.t].copy.expires == Apply(s, e).drafts[i].expires)
  {
    DraftsAfter(s, e);
    if e.Insert? || e.Save? {
      assert JobOk(s, s.jobs[e.t]);
    }
  }

  lemma {:induction false} InTimeAlways(s: State, es: seq<Event>, h: seq<Fact>)
    requires Inv(s) && InTime(s, h) && ValidRun(s, es)
    ensures InTime(Exec(s, es), h + History(s, es))
    decreases |es|
  {
    if es == [] {
      assert h + [] == h;
    } else {
      KeepsInv(s, es[0]);
      KeepsInTime(s, es[0], h);
      InTimeAlways(Apply(s, es[0]), es[1..], h + [FactOf(s, es[0])]);
      assert h + History(s, es) == (h + [FactOf(s, es[0])]) + History(Apply(s, es[0]), es[1..]);
    }
  }

  /** After any run, a draft that is placed was looked at by a confirmation or an approval before it expired. */
  lemma PlacedInTime(s0: State, es: seq<Event>, i: nat)
    requires IsInit(s0) && ValidRun(s0, es) && i < |Exec(s0, es).drafts| && Exec(s0, es).drafts[i].status == Placed
    ensures LookedAt(History(s0, es), i, Exec(s0, es).drafts[i].expires)
  {
    InTimeAlways(s0, es, []);
    assert [] + History(s0, es) == History(s0, es);
  }

  // ----- When decisions stand for ever -----

  /** A rejection and a locked request have both read the draft and not finished. */
  ghost predicate Overlap(s: State) {
    exists t, u :: t in s.jobs && u in s.jobs && s.jobs[t].Rejecting? && HasCopy(s.jobs[u]) && s.jobs[t].d == s.jobs[u].d
  }

  ghost predicate NeverOverlaps(s: State, es: seq<Event>)
    requires ValidRun(s, es)
    decreases |es|
  {
    !Overlap(s) && (es == [] || NeverOverlaps(Apply(s, es[0]), es[1..]))
  }

  ghost predicate Undisturbed(s: State) {
    && (forall t :: t in s.jobs && HasCopy(s.jobs[t]) && s.jobs[t].copy.grant == s.jobs[t].g ==>
          s.jobs[t].d < |s.drafts| && s.drafts[s.jobs[t].d] == s.jobs[t].copy)
    && (forall t :: t in s.jobs && s.jobs[t].Rejecting? ==>
          s.jobs[t].d < |s.drafts| && (s.drafts[s.jobs[t].d] == s.jobs[t].copy || s.drafts[s.jobs[t].d].status == Rejected))
  }

  lemma KeepsUndisturbed(s: State, e: Event)
    requires Enabled(s, e) && Inv(s) && Undisturbed(s) && !Overlap(s)
    ensures Undisturbed(Apply(s, e))
  {
    var s' := Apply(s, e);
    DraftsAfter(s, e);
    forall t | t in s'.jobs && HasCopy(s'.jobs[t]) && s'.jobs[t].copy.grant == s'.jobs[t].g
      ensures s'.jobs[t].d < |s'.drafts| && s'.drafts[s'.jobs[t].d] == s'.jobs[t].copy
    {
      WhoseCopy(s, e, t);
      if e != Read(t) {
        LockKeepsOthersOut(s, e, t);
      }
    }
    forall t | t in s'.jobs && s'.jobs[t].Rejecting?
      ensures s'.jobs[t].d < |s'.drafts| && (s'.drafts[s'.jobs[t].d] == s'.jobs[t].copy || s'.drafts[s'.jobs[t].d].status == Rejected)
    {
      RejectionUndisturbed(s, e, t);
    }
  }

  lemma RejectionUndisturbed(s: State, e: Event, t: Thread)
    requires Enabled(s, e) && Undisturbed(s) && !Overlap(s) && t in Apply(s, e).jobs && Apply(s, e).jobs[t].Rejecting?
    ensures var s' := Apply(s, e); var j := s'.jobs[t];
            j.d < |s'.drafts| && (s'.drafts[j.d] == j.copy || s'.drafts[j.d].status == Rejected)
  {
    DraftsAfter(s, e);
    if !(e.RejectRead? && e.t == t) {
      assert t in s.jobs && s.jobs[t] == Apply(s, e).jobs[t];
    }
  }

  /** No step undoes a decision as long as nothing overlaps. */
  lemma StepKeepsDecision(s: State, e: Event, i: nat)
    requires Enabled(s, e) && Inv(s) && Undisturbed(s) && i < |s.drafts| && Final(s.drafts[i])
    ensures i < |Apply(s, e).drafts| && Apply(s, e).drafts[i].status == s.drafts[i].status
    ensures s.drafts[i].status != Rejected ==> Apply(s, e).drafts[i] == s.drafts[i]
  {
    DraftsAfter(s, e);
    if Written(s, e).Some? {
      assert JobOk(s, s.jobs[e.t]);
    }
  }

  lemma {:induction false} DecisionsStand(s: State, es: seq<Event>, i: nat)
    requires Inv(s) && Undisturbed(s) && ValidRun(s, es) && NeverOverlaps(s, es) && i < |s.drafts| && Final(s.drafts[i])
    ensures i < |Exec(s, es).drafts| && Exec(s, es).drafts[i].status == s.drafts[i].status
    ensures s.drafts[i].status != Rejected ==> Exec(s, es).drafts[i] == s.drafts[i]
    decreases |es|
  {
    if es != [] {
      KeepsInv(s, es[0]);
      KeepsUndisturbed(s, es[0]);
      StepKeepsDecision(s, es[0], i);
      DecisionsStand(Apply(s, es[0]), es[1..], i);
    }
  }

  lemma {:induction false} UndisturbedAlways(s: State, es: seq<Event>)
    requires Inv(s) && Undisturbed(s) && ValidRun(s, es) && NeverOverlaps(s, es)
    ensures Inv(Exec(s, es)) && Undisturbed(Exec(s, es))
    decreases |es|
  {
    if es != [] {
      KeepsInv(s, es[0]);
      KeepsUndisturbed(s, es[0]);
      UndisturbedAlways(Apply(s, es[0]), es[1..]);
    }
  }

  /** Placed, rejected and expired are for ever, in every run in which no rejection overlaps with a
      confirmation or an approval of the same draft. */
  lemma DecidedForEver(s0: State, before: seq<Event>, after: seq<Event>, i: nat)
    requires IsInit(s0) && ValidRun(s0, before) && NeverOverlaps(s0, before)
    requires ValidRun(Exec(s0, before), after) && NeverOverlaps(Exec(s0, before), after)
    requires i < |Exec(s0, before).drafts| && Final(Exec(s0, before).drafts[i])
    ensures var s, s' := Exec(s0, before), Exec(Exec(s0, before), after);
            && i < |s'.drafts| && s'.drafts[i].status == s.drafts[i].status
            && (s.drafts[i].status != Rejected ==> s'.drafts[i] == s.drafts[i])
  {
    UndisturbedAlways(s0, before);
    DecisionsStand(Exec(s0, before), after, i);
  }

  // ----- Both ways to lose a decision -----

  /** A confirmation and a rejection have both read the open draft. */
  lemma Race(limit: int, times: Times) returns (s: State)
    requires limit > 0 && times(0, 0)
    ensures ReachableWithin(s, times, {}) && s.now == 0 && s.grants == [Bounded(limit)]
    ensures s.drafts == [Made(limit, 0)] && s.orders == []
    ensures s.jobs == map[0 := Placing(0, 0, s.drafts[0], Some(Check(0, limit))), 1 := Rejecting(0, s.drafts[0])]
  {
    s := CreateBatch(limit, 1, 0, times);
    TotalOfNothing(s.drafts, SpentBy(0, StartOfDay(0)));
    assert s.drafts == [Made(limit, 0)] && s.orders == [];
    s := BeginConfirm(s, 0, times, {});
    s := NextWithin(s, RejectRead(1, 0), times, {});
  }

  /** Rejecting takes no lock: while a confirmation is under way the user's rejection is written over, and
      the rejected draft ends up placed with an order. */
  lemma RejectionCanBeLost(limit: int) returns (s: State, e: Event)
    requires limit > 0
    ensures Reachable(s) && Enabled(s, e) && |s.drafts| == 1 && |s.orders| == 1 && !s.orders[0].cancelled
    ensures s.drafts[0].status == Rejected && Apply(s, e).drafts[0].status == Placed
  {
    var times := Exactly(0, 0);
    s := Race(limit, times);
    var d := s.drafts[0];
    s := NextWithin(s, Place(0, Some(limit), true), times, {});
    assert s.jobs == map[0 := Saving(0, 0, d, Confirmed(d, 0)), 1 := Rejecting(0, d)];
    s := NextWithin(s, RejectWrite(1), times, {});
    assert s.jobs == map[0 := Saving(0, 0, d, Confirmed(d, 0))];
    StillReachable(s, times, times, {}, {});
    e := Save(0, true);
  }

  /** And the other way round: the rejection is written over the placement, and the rejected draft has a live
      order. */
  lemma PlacementCanBeLost(limit: int) returns (s: State, e: Event)
    requires limit > 0
    ensures Reachable(s) && Enabled(s, e) && |s.drafts| == 2 && |s.orders| == 1
    ensures s.drafts[0].status == Placed && Apply(s, e).drafts[0].status == Rejected
    ensures s.orders[0].draft == 0 && !s.orders[0].cancelled && Apply(s, e).orders == s.orders
  {
    var times := Exactly(0, 0);
    s := CreateBatch(limit, 2, 0, times);
    StillReachable(s, times, times, {}, {WrittenOver});
    TotalOfNothing(s.drafts, SpentBy(0, StartOfDay(0)));
    s := PlacedBesideRejection(s, limit, times);
    StillReachable(s, times, times, {WrittenOver}, {WrittenOver});
    e := RejectWrite(1);
  }

  // ----- A grant that may not be used any more -----

  /** Switched off, or past its end. */
  predicate Ended(g: Grant, now: int) { !g.active || (g.expires.Some? && g.expires.value <= now) }

  /** An approval of draft i by the user has got past its checks. */
  predicate Approving(j: Job, g: nat, i: nat) {
    || (j.Placing? && j.d == i && j.copy.grant == g && j.check.None?)
    || (j.Saving? && j.d == i && j.changed.grant == g && j.changed.status == Placed && j.changed.check.None?)
  }

  ghost predicate Approved(s: State, g: nat, i: nat) {
    || (i < |s.drafts| && s.drafts[i].grant == g && s.drafts[i].status == Placed && s.drafts[i].check.None?)
    || exists t :: t in s.jobs && Approving(s.jobs[t], g, i)
  }

  lemma EndedStays(s: State, e: Event, g: nat)
    requires Enabled(s, e) && g < |s.grants| && Ended(s.grants[g], s.now)
    ensures g < |Apply(s, e).grants| && Ended(Apply(s, e).grants[g], Apply(s, e).now)
  {
  }

  lemma NoNewApproving(s: State, e: Event, g: nat, i: nat, t: Thread)
    requires Enabled(s, e) && g < |s.grants| && Ended(s.grants[g], s.now)
    requires t in Apply(s, e).jobs && Approving(Apply(s, e).jobs[t], g, i)
    ensures t in s.jobs && Approving(s.jobs[t], g, i)
  {
  }

  lemma NoNewApproval(s: State, e: Event, g: nat, i: nat)
    requires Enabled(s, e) && Inv(s) && g < |s.grants| && Ended(s.grants[g], s.now) && Approved(Apply(s, e), g, i)
    ensures Approved(s, g, i)
  {
    if t :| t in Apply(s, e).jobs && Approving(Apply(s, e).jobs[t], g, i) {
      NoNewApproving(s, e, g, i, t);
    } else {
      NoNewApprovedDraft(s, e, g, i);
    }
  }

  lemma NoNewApprovedDraft(s: State, e: Event, g: nat, i: nat)
    requires Enabled(s, e) && Inv(s) && i < |Apply(s, e).drafts|
    requires var x := Apply(s, e).drafts[i]; x.grant == g && x.status == Placed && x.check.None?
    ensures Approved(s, g, i)
  {
    DraftsAfter(s, e);
    if e.Insert? {
      assert JobOk(s, s.jobs[e.t]);
    } else if e.Save? && s.jobs[e.t].d == i {
      assert Approving(s.jobs[e.t], g, i) || Apply(s, e).drafts == s.drafts;
    }
  }

  /** Once a grant is switched off or over, the user can approve no more of its drafts, whatever runs: what is
      approved afterwards had got past its checks before. */
  lemma {:induction false} NothingApprovedOnceEnded(s: State, es: seq<Event>, g: nat, i: nat)
    requires ValidRun(s, es) && Inv(s) && g < |s.grants| && Ended(s.grants[g], s.now) && Approved(Exec(s, es), g, i)
    ensures Approved(s, g, i)
    decreases |es|
  {
    if es != [] {
      KeepsInv(s, es[0]);
      EndedStays(s, es[0], g);
      NothingApprovedOnceEnded(Apply(s, es[0]), es[1..], g, i);
      NoNewApproval(s, es[0], g, i);
    }
  }

  /** That is so after a revocation in particular. */
  lemma RevocationStops(s: State, es: seq<Event>, g: nat, i: nat)
    requires Reachable(s) && Enabled(s, Revoke(g)) && ValidRun(Apply(s, Revoke(g)), es)
    requires Approved(Exec(Apply(s, Revoke(g)), es), g, i)
    ensures Approved(s, g, i)
  {
    ReachableInv(s);
    KeepsInv(s, Revoke(g));
    NothingApprovedOnceEnded(Apply(s, Revoke(g)), es, g, i);
  }
}
