/** The gate against impossible courier speeds (internal/delivery/speedgate.go). */
module SpeedGate {
  // Time is in nanoseconds, distance in kilometres. The distance between two points is left open: every
  // result below holds for any function `m`.

  import opened Outcomes

  const SECOND: int := 1_000_000_000
  const HOUR: int := 3600 * SECOND
  const MAX_SPEED: real := 150.0
  const MIN_INTERVAL: int := 3 * SECOND
  const STALE_AFTER: int := 300 * SECOND
  const CONFIRM_AFTER: int := 60 * SECOND
  const CONFIRM_RADIUS: real := 0.15
  const MANY: nat := 1000

  datatype Point = Point(lat: real, lng: real)

  type Metric = (Point, Point) -> real

  datatype Fix = Fix(p: Point, at: int)

  datatype Gate = Gate(last: map<string, Fix>, suspect: map<string, Fix>)

  // ----- One location report -----

  function Speed(m: Metric, a: Point, b: Point, gap: int): real
    requires gap > 0
  {
    m(a, b) / (gap as real / HOUR as real)
  }

  /** The gap is too long, too short or negative, or the speed is possible. */
  predicate Unquestioned(m: Metric, prev: Fix, p: Point, now: int) {
    var gap := now - prev.at;
    gap >= STALE_AFTER || gap < MIN_INTERVAL || Speed(m, prev.p, p, gap) <= MAX_SPEED
  }

  /** A suspect fix that a report of `p` at `now` still agrees with. */
  predicate Agrees(m: Metric, suspect: map<string, Fix>, id: string, p: Point, now: int) {
    id in suspect && now - suspect[id].at < STALE_AFTER && m(suspect[id].p, p) <= CONFIRM_RADIUS
  }

  predicate Plausible(m: Metric, g: Gate, id: string, p: Point, now: int)
    requires id in g.last
  {
    Unquestioned(m, g.last[id], p, now)
    || (Agrees(m, g.suspect, id, p, now) && now - g.suspect[id].at >= CONFIRM_AFTER)
  }

  /** Accept without the clean-up. */
  function Judge(m: Metric, g: Gate, id: string, p: Point, now: int): (Gate, bool) {
    if id in g.last && !Plausible(m, g, id, p, now) then
      (if Agrees(m, g.suspect, id, p, now) then g else g.(suspect := g.suspect[id := Fix(p, now)]), false)
    else
      var confirmed := id in g.suspect && m(g.suspect[id].p, p) <= CONFIRM_RADIUS;
      (Gate(g.last[id := Fix(p, now)], if confirmed then g.suspect - {id} else g.suspect), true)
  }

  function Evict(fixes: map<string, Fix>, now: int): map<string, Fix> {
    if |fixes| > MANY then map id | id in fixes && now - fixes[id].at <= STALE_AFTER :: fixes[id] else fixes
  }

  function Decide(m: Metric, g: Gate, id: string, p: Point, now: int): (Gate, bool) {
    var (g', ok) := Judge(m, g, id, p, now);
    if ok then (Gate(Evict(g'.last, now), Evict(g'.suspect, now)), true) else (g', false)
  }

  /** With too many fixes only those that are not stale are kept; a fix that is not stale is never dropped. */
  lemma MemoryIsBounded(m: Metric, g: Gate, id: string, p: Point, now: int)
    requires Decide(m, g, id, p, now).1
    ensures var g' := Decide(m, g, id, p, now).0;
            && (|g'.last| <= MANY || forall c :: c in g'.last ==> now - g'.last[c].at <= STALE_AFTER)
            && (|g'.suspect| <= MANY || forall c :: c in g'.suspect ==> now - g'.suspect[c].at <= STALE_AFTER)
            && (forall c :: c in g.last && c != id && now - g.last[c].at <= STALE_AFTER ==> c in g'.last && g'.last[c] == g.last[c])
  {
  }

  // ----- Cleaning up cannot be noticed -----

  /** `kept` is what is left of `all`: everything but some fixes that are stale at `now`. */
  ghost predicate Remains(all: map<string, Fix>, kept: map<string, Fix>, now: int) {
    && (forall id :: id in kept ==> id in all && all[id] == kept[id])
    && (forall id :: id in all && id !in kept ==> now - all[id].at > STALE_AFTER)
  }

  ghost predicate Simulates(all: Gate, kept: Gate, now: int) {
    Remains(all.last, kept.last, now) && Remains(all.suspect, kept.suspect, now)
  }

  lemma EvictionRemains(all: map<string, Fix>, kept: map<string, Fix>, now: int)
    requires Remains(all, kept, now)
    ensures Remains(all, Evict(kept, now), now)
  {
  }

  /** With a clock that does not go back, both gates give the same answer and stay related. */
  lemma SameAnswer(m: Metric, all: Gate, kept: Gate, before: int, id: string, p: Point, now: int)
    requires Simulates(all, kept, before) && before <= now
    ensures Decide(m, kept, id, p, now).1 == Judge(m, all, id, p, now).1
    ensures Simulates(Judge(m, all, id, p, now).0, Decide(m, kept, id, p, now).0, now)
  {
    assert Simulates(all, kept, now);
    SameJudgement(m, all, kept, id, p, now);
    var a, k := Judge(m, all, id, p, now).0, Judge(m, kept, id, p, now).0;
    EvictionRemains(a.last, k.last, now);
    EvictionRemains(a.suspect, k.suspect, now);
  }

  lemma SameJudgement(m: Metric, all: Gate, kept: Gate, id: string, p: Point, now: int)
    requires Simulates(all, kept, now)
    ensures Judge(m, kept, id, p, now).1 == Judge(m, all, id, p, now).1
    ensures Simulates(Judge(m, all, id, p, now).0, Judge(m, kept, id, p, now).0, now)
  {
    assert Agrees(m, kept.suspect, id, p, now) == Agrees(m, all.suspect, id, p, now);
  }

  datatype Report = Report(id: string, p: Point, now: int)

  function Answers(m: Metric, g: Gate, rs: seq<Report>): seq<bool>
    decreases |rs|
  {
    if rs == [] then []
    else
      var (g', ok) := Decide(m, g, rs[0].id, rs[0].p, rs[0].now);
      [ok] + Answers(m, g', rs[1..])
  }

  function AnswersWithoutCleanUp(m: Metric, g: Gate, rs: seq<Report>): seq<bool>
    decreases |rs|
  {
    if rs == [] then []
    else
      var (g', ok) := Judge(m, g, rs[0].id, rs[0].p, rs[0].now);
      [ok] + AnswersWithoutCleanUp(m, g', rs[1..])
  }

  predicate ClockRuns(rs: seq<Report>) {
    forall i, j :: 0 <= i < j < |rs| ==> rs[i].now <= rs[j].now
  }

  lemma {:induction false} SimulationAnswers(m: Metric, all: Gate, kept: Gate, before: int, rs: seq<Report>)
    requires Simulates(all, kept, before) && ClockRuns(rs) && (rs != [] ==> before <= rs[0].now)
    ensures Answers(m, kept, rs) == AnswersWithoutCleanUp(m, all, rs)
    decreases |rs|
  {
    if rs != [] {
      var r := rs[0];
      SameAnswer(m, all, kept, before, r.id, r.p, r.now);
      SimulationAnswers(m, Judge(m, all, r.id, r.p, r.now).0, Decide(m, kept, r.id, r.p, r.now).0, r.now, rs[1..]);
    }
  }

  const Empty := Gate(map[], map[])

  /** Dropping stale fixes is a matter of memory only: no sequence of reports is answered otherwise. */
  lemma CleanUpIsUnobservable(m: Metric, rs: seq<Report>)
    requires ClockRuns(rs)
    ensures Answers(m, Empty, rs) == AnswersWithoutCleanUp(m, Empty, rs)
  {
    SimulationAnswers(m, Empty, Empty, if rs == [] then 0 else rs[0].now, rs);
  }

  // ----- What an accepted location means -----

  /** History of reports and answers. */
  datatype Entry = Entry(id: string, fix: Fix, ok: bool)

  datatype Logged = Logged(gate: Gate, log: seq<Entry>)

  function Step(m: Metric, s: Logged, r: Report): Logged {
    var (g, ok) := Judge(m, s.gate, r.id, r.p, r.now);
    Logged(g, s.log + [Entry(r.id, Fix(r.p, r.now), ok)])
  }

  function Run(m: Metric, s: Logged, rs: seq<Report>): Logged
    decreases |rs|
  {
    if rs == [] then s else Run(m, Step(m, s, rs[0]), rs[1..])
  }

  /** Entry k is the last accepted one of its courier before position n. */
  predicate LastAccepted(log: seq<Entry>, k: int, n: int)
    requires n <= |log|
  {
    0 <= k < n && log[k].ok && forall j :: k < j < n && log[j].id == log[k].id ==> !log[j].ok
  }

  /** Entry k was rejected, and so was nothing of this courier since then outside its neighbourhood. */
  predicate Persistent(m: Metric, log: seq<Entry>, k: int, n: int)
    requires n <= |log|
  {
    0 <= k < n && !log[k].ok &&
    forall j :: k < j < n && log[j].id == log[k].id && !log[j].ok ==> m(log[k].fix.p, log[j].fix.p) <= CONFIRM_RADIUS
  }

  ghost predicate Remembers(m: Metric, s: Logged) {
    && (forall id :: id in s.gate.last ==>
          exists k :: 0 <= k < |s.log| && s.log[k] == Entry(id, s.gate.last[id], true) && LastAccepted(s.log, k, |s.log|))
    && (forall j :: 0 <= j < |s.log| && s.log[j].ok ==> s.log[j].id in s.gate.last)
    && (forall id :: id in s.gate.suspect ==>
          exists k :: 0 <= k < |s.log| && s.log[k] == Entry(id, s.gate.suspect[id], false) && Persistent(m, s.log, k, |s.log|))
  }

  lemma StillLast(m: Metric, s: Logged, r: Report, id: string)
    requires Remembers(m, s) && id in Step(m, s, r).gate.last
    ensures var s' := Step(m, s, r);
            exists k :: 0 <= k < |s'.log| && s'.log[k] == Entry(id, s'.gate.last[id], true) && LastAccepted(s'.log, k, |s'.log|)
  {
    var s' := Step(m, s, r);
    var n := |s.log|;
    assert forall j :: 0 <= j < n ==> s'.log[j] == s.log[j];
    if id == r.id && s'.log[n].ok {
      assert LastAccepted(s'.log, n, n + 1);
    } else {
      var k :| 0 <= k < n && s.log[k] == Entry(id, s.gate.last[id], true) && LastAccepted(s.log, k, n);
      assert LastAccepted(s'.log, k, n + 1);
    }
  }

  lemma KeepsMemory(m: Metric, s: Logged, r: Report)
    requires Remembers(m, s)
    ensures Remembers(m, Step(m, s, r))
  {
    var s' := Step(m, s, r);
    forall id | id in s'.gate.last
      ensures exists k :: 0 <= k < |s'.log| && s'.log[k] == Entry(id, s'.gate.last[id], true) && LastAccepted(s'.log, k, |s'.log|)
    {
      StillLast(m, s, r, id);
    }
    forall id | id in s'.gate.suspect
      ensures exists k :: 0 <= k < |s'.log| && s'.log[k] == Entry(id, s'.gate.suspect[id], false) && Persistent(m, s'.log, k, |s'.log|)
    {
      if id in s.gate.suspect && s'.gate.suspect[id] == s.gate.suspect[id] {
        StillPersistent(m, s, r, id);
      } else {
        assert Persistent(m, s'.log, |s.log|, |s'.log|);
      }
    }
  }

  lemma StillPersistent(m: Metric, s: Logged, r: Report, id: string)
    requires Remembers(m, s) && id in s.gate.suspect
    requires var g := Step(m, s, r).gate; id in g.suspect && g.suspect[id] == s.gate.suspect[id]
    ensures var s' := Step(m, s, r);
            exists k :: 0 <= k < |s'.log| && s'.log[k] == Entry(id, s'.gate.suspect[id], false) && Persistent(m, s'.log, k, |s'.log|)
  {
    var s' := Step(m, s, r);
    var k :| 0 <= k < |s.log| && s.log[k] == Entry(id, s.gate.suspect[id], false) && Persistent(m, s.log, k, |s.log|);
    if r.id == id && !s'.log[|s.log|].ok && !Agrees(m, s.gate.suspect, id, r.p, r.now) {
      assert s'.gate.suspect[id] == Fix(r.p, r.now);
      assert Persistent(m, s'.log, |s.log|, |s'.log|);
    } else {
      assert Persistent(m, s'.log, k, |s'.log|);
    }
  }

  lemma {:induction false} MemoryAlways(m: Metric, s: Logged, rs: seq<Report>)
    requires Remembers(m, s)
    ensures Remembers(m, Run(m, s, rs))
    decreases |rs|
  {
    if rs != [] {
      KeepsMemory(m, s, rs[0]);
      MemoryAlways(m, Step(m, s, rs[0]), rs[1..]);
    }
  }

  /** A rejected place that was reported one to five minutes ago, close to the new report, and not
      contradicted by any rejection since. */
  predicate Confirmed(m: Metric, log: seq<Entry>, k: int, n: int)
    requires n < |log|
  {
    && Persistent(m, log, k, n) && log[k].id == log[n].id
    && CONFIRM_AFTER <= log[n].fix.at - log[k].fix.at < STALE_AFTER
    && m(log[k].fix.p, log[n].fix.p) <= CONFIRM_RADIUS
  }

  /** Between two accepted reports in a row, three seconds to five minutes apart, either the courier
      could have travelled or the new place had been confirmed; and a rejected report was too fast. */
  lemma AcceptedMovesAreExplained(m: Metric, rs: seq<Report>, r: Report, i: int)
    requires var s := Run(m, Logged(Empty, []), rs + [r]);
             var n := |s.log| - 1;
             n >= 0 && 0 <= i < n && LastAccepted(s.log, i, n) && s.log[i].id == s.log[n].id
    ensures var s := Run(m, Logged(Empty, []), rs + [r]); var n := |s.log| - 1;
            var gap := s.log[n].fix.at - s.log[i].fix.at;
            && (s.log[n].ok && MIN_INTERVAL <= gap < STALE_AFTER ==>
                  Speed(m, s.log[i].fix.p, s.log[n].fix.p, gap) <= MAX_SPEED || exists k :: Confirmed(m, s.log, k, n))
            && (!s.log[n].ok ==> MIN_INTERVAL <= gap < STALE_AFTER && Speed(m, s.log[i].fix.p, s.log[n].fix.p, gap) > MAX_SPEED)
  {
    var start := Logged(Empty, []);
    var s := Run(m, start, rs);
    MemoryAlways(m, start, rs);
    RunOneMore(m, start, rs, r);
    var log := Step(m, s, r).log;
    assert log[..|s.log|] == s.log && log[|s.log|].id == r.id && log[|s.log|].fix == Fix(r.p, r.now);
    assert LastAccepted(s.log, i, |s.log|) by {
      assert forall j :: 0 <= j < |s.log| ==> log[j] == s.log[j];
    }
    ExplainOne(m, s, r, i);
  }

  lemma {:induction false} RunOneMore(m: Metric, s: Logged, rs: seq<Report>, r: Report)
    ensures Run(m, s, rs + [r]) == Step(m, Run(m, s, rs), r)
    decreases |rs|
  {
    if rs == [] {
      assert rs + [r] == [r];
    } else {
      RunOneMore(m, Step(m, s, rs[0]), rs[1..], r);
      assert (rs + [r])[1..] == rs[1..] + [r];
    }
  }

  lemma ExplainOne(m: Metric, s: Logged, r: Report, i: int)
    requires Remembers(m, s)
    requires 0 <= i < |s.log| && LastAccepted(s.log, i, |s.log|) && s.log[i].id == r.id
    ensures var log := Step(m, s, r).log; var n := |s.log|; var gap := r.now - log[i].fix.at;
            && (log[n].ok && MIN_INTERVAL <= gap < STALE_AFTER ==>
                  Speed(m, log[i].fix.p, r.p, gap) <= MAX_SPEED || exists k :: Confirmed(m, log, k, n))
            && (!log[n].ok ==> MIN_INTERVAL <= gap < STALE_AFTER && Speed(m, log[i].fix.p, r.p, gap) > MAX_SPEED)
  {
    LastIsRemembered(m, s, i);
    var log, n := Step(m, s, r).log, |s.log|;
    if log[n].ok && !Unquestioned(m, s.gate.last[r.id], r.p, r.now) {
      SuspectConfirms(m, s, r);
    }
  }

  lemma LastIsRemembered(m: Metric, s: Logged, i: int)
    requires Remembers(m, s)
    requires 0 <= i < |s.log| && LastAccepted(s.log, i, |s.log|)
    ensures s.log[i].id in s.gate.last && s.gate.last[s.log[i].id] == s.log[i].fix
  {
    var id := s.log[i].id;
    var l :| 0 <= l < |s.log| && s.log[l] == Entry(id, s.gate.last[id], true) && LastAccepted(s.log, l, |s.log|);
    assert l == i;
  }

  lemma SuspectConfirms(m: Metric, s: Logged, r: Report)
    requires Remembers(m, s) && Agrees(m, s.gate.suspect, r.id, r.p, r.now) && r.now - s.gate.suspect[r.id].at >= CONFIRM_AFTER
    ensures exists k :: Confirmed(m, Step(m, s, r).log, k, |s.log|)
  {
    var log, n := Step(m, s, r).log, |s.log|;
    var k :| 0 <= k < n && s.log[k] == Entry(r.id, s.gate.suspect[r.id], false) && Persistent(m, s.log, k, n);
    assert forall j :: 0 <= j < n ==> log[j] == s.log[j];
    assert Persistent(m, log, k, n);
    assert Confirmed(m, log, k, n);
  }

  // ----- Exactly when a location is accepted -----

  /** The suspicion that stands after these entries: the first rejected report at a place to which the courier
      has kept since, unless it is five minutes old at the next rejection, or was settled by an accepted report. */
  function Standing(m: Metric, log: seq<Entry>, id: string): Option<Fix>
    decreases |log|
  {
    if log == [] then None
    else
      var before, e := Standing(m, log[..|log| - 1], id), log[|log| - 1];
      if e.id != id then before
      else
        var near := before.Some? && m(before.value.p, e.fix.p) <= CONFIRM_RADIUS;
        if e.ok then (if near then None else before)
        else if near && e.fix.at - before.value.at < STALE_AFTER then before
        else Some(e.fix)
  }

  ghost predicate Suspects(m: Metric, s: Logged) {
    forall id :: Standing(m, s.log, id) == if id in s.gate.suspect then Some(s.gate.suspect[id]) else None
  }

  lemma KeepsSuspects(m: Metric, s: Logged, r: Report)
    requires Suspects(m, s)
    ensures Suspects(m, Step(m, s, r))
  {
    var s' := Step(m, s, r);
    assert s'.log[..|s'.log| - 1] == s.log;
  }

  lemma {:induction false} SuspectsAlways(m: Metric, s: Logged, rs: seq<Report>)
    requires Suspects(m, s)
    ensures Suspects(m, Run(m, s, rs))
    decreases |rs|
  {
    if rs != [] {
      KeepsSuspects(m, s, rs[0]);
      SuspectsAlways(m, Step(m, s, rs[0]), rs[1..]);
    }
  }

  predicate NeverAccepted(log: seq<Entry>, id: string) {
    forall i :: 0 <= i < |log| && log[i].id == id ==> !log[i].ok
  }

  /** Nothing is wrong with the way from the last accepted location. */
  ghost predicate GoodMove(m: Metric, log: seq<Entry>, r: Report) {
    exists i :: LastAccepted(log, i, |log|) && log[i].id == r.id &&
      var gap := r.now - log[i].fix.at;
      gap < MIN_INTERVAL || gap >= STALE_AFTER || m(log[i].fix.p, r.p) / (gap as real / HOUR as real) <= MAX_SPEED
  }

  /** The suspicion has stood for one to five minutes and is of this place. */
  predicate StandingConfirms(m: Metric, log: seq<Entry>, r: Report) {
    var s := Standing(m, log, r.id);
    s.Some? && CONFIRM_AFTER <= r.now - s.value.at < STALE_AFTER && m(s.value.p, r.p) <= CONFIRM_RADIUS
  }

  /** A report is accepted exactly if it is the courier's first accepted one, or the move is possible, or the
      standing suspicion confirms it: by the log of reports and answers alone. */
  lemma AcceptedExactly(m: Metric, rs: seq<Report>, r: Report)
    ensures var log, log' := Run(m, Logged(Empty, []), rs).log, Run(m, Logged(Empty, []), rs + [r]).log;
            && |log'| == |log| + 1
            && (log'[|log|].ok <==> NeverAccepted(log, r.id) || GoodMove(m, log, r) || StandingConfirms(m, log, r))
  {
    var start := Logged(Empty, []);
    var s := Run(m, start, rs);
    RunOneMore(m, start, rs, r);
    MemoryAlways(m, start, rs);
    SuspectsAlways(m, start, rs);
    AnswerByLog(m, s, r);
  }

  lemma AnswerByLog(m: Metric, s: Logged, r: Report)
    requires Remembers(m, s) && Suspects(m, s)
    ensures Step(m, s, r).log[|s.log|].ok <==> NeverAccepted(s.log, r.id) || GoodMove(m, s.log, r) || StandingConfirms(m, s.log, r)
  {
    ConfirmedByLog(m, s, r);
    if r.id in s.gate.last {
      MovesByLog(m, s, r);
    } else {
      FirstByLog(m, s, r.id);
    }
  }

  lemma ConfirmedByLog(m: Metric, s: Logged, r: Report)
    requires Suspects(m, s)
    ensures StandingConfirms(m, s.log, r) <==>
            Agrees(m, s.gate.suspect, r.id, r.p, r.now) && r.now - s.gate.suspect[r.id].at >= CONFIRM_AFTER
  {
    assert Standing(m, s.log, r.id) == if r.id in s.gate.suspect then Some(s.gate.suspect[r.id]) else None;
  }

  lemma FirstByLog(m: Metric, s: Logged, id: string)
    requires Remembers(m, s)
    ensures id !in s.gate.last <==> NeverAccepted(s.log, id)
  {
    if id in s.gate.last {
      var k :| 0 <= k < |s.log| && s.log[k] == Entry(id, s.gate.last[id], true) && LastAccepted(s.log, k, |s.log|);
    }
  }

  lemma MovesByLog(m: Metric, s: Logged, r: Report)
    requires Remembers(m, s) && r.id in s.gate.last
    ensures GoodMove(m, s.log, r) <==> Unquestioned(m, s.gate.last[r.id], r.p, r.now)
    ensures !NeverAccepted(s.log, r.id)
  {
    var n := |s.log|;
    var k :| 0 <= k < n && s.log[k] == Entry(r.id, s.gate.last[r.id], true) && LastAccepted(s.log, k, n);
    assert forall i :: LastAccepted(s.log, i, n) && s.log[i].id == r.id ==> i == k;
  }

  /** Since entry k the courier made nothing but rejected reports close to it. */
  predicate KeptTo(m: Metric, log: seq<Entry>, k: int, n: int)
    requires 0 <= k < n <= |log|
  {
    forall j :: k < j < n && log[j].id == log[k].id ==> !log[j].ok && m(log[k].fix.p, log[j].fix.p) <= CONFIRM_RADIUS
  }

  predicate TimesRise(log: seq<Entry>) {
    forall i, j :: 0 <= i < j < |log| ==> log[i].fix.at <= log[j].fix.at
  }

  lemma {:induction false} SuspicionStands(m: Metric, log: seq<Entry>, k: int, n: int)
    requires 0 <= k < n <= |log| && TimesRise(log) && KeptTo(m, log, k, n)
    requires Standing(m, log[..k + 1], log[k].id) == Some(log[k].fix)
    requires log[n - 1].fix.at - log[k].fix.at < STALE_AFTER
    ensures Standing(m, log[..n], log[k].id) == Some(log[k].fix)
    decreases n
  {
    if n > k + 1 {
      SuspicionStands(m, log, k, n - 1);
      assert log[..n][..n - 1] == log[..n - 1];
    }
  }

  /** A courier who keeps to a new place is believed: if a rejection began a suspicion, and since then there
      were only rejected reports close to it, then a report close to it is accepted one to five minutes after it. */
  lemma NewPlaceIsBelieved(m: Metric, rs: seq<Report>, r: Report, k: int)
    requires var log := Run(m, Logged(Empty, []), rs).log;
             && 0 <= k < |log| && TimesRise(log) && log[|log| - 1].fix.at <= r.now
             && log[k].id == r.id && Standing(m, log[..k + 1], r.id) == Some(log[k].fix) && KeptTo(m, log, k, |log|)
             && CONFIRM_AFTER <= r.now - log[k].fix.at < STALE_AFTER && m(log[k].fix.p, r.p) <= CONFIRM_RADIUS
    ensures var log := Run(m, Logged(Empty, []), rs + [r]).log; log != [] && log[|log| - 1] == Entry(r.id, Fix(r.p, r.now), true)
  {
    var log := Run(m, Logged(Empty, []), rs).log;
    RunOneMore(m, Logged(Empty, []), rs, r);
    SuspicionStands(m, log, k, |log|);
    assert log[..|log|] == log;
    AcceptedExactly(m, rs, r);
  }

  // ----- The gate object -----

  class SpeedGate {
    const m: Metric
    var last: map<string, Fix>
    var suspect: map<string, Fix>

    constructor (metric: Metric)
      ensures last == map[] && suspect == map[] && m == metric
    {
      m, last, suspect := metric, map[], map[];
    }

    method Accept(id: string, p: Point, now: int) returns (ok: bool)
      modifies this
      ensures (Gate(last, suspect), ok) == Decide(m, old(Gate(last, suspect)), id, p, now)
    {
      if id in last {
        var fits := IsPlausible(id, last[id], p, now);
        if !fits {
          return false;
        }
      }
      last := last[id := Fix(p, now)];
      if id in suspect && m(suspect[id].p, p) <= CONFIRM_RADIUS {
        suspect := suspect - {id};
      }
      if |last| > MANY {
        last := DropStale(last, now);
      }
      if |suspect| > MANY {
        suspect := DropStale(suspect, now);
      }
      return true;
    }

    method IsPlausible(id: string, prev: Fix, p: Point, now: int) returns (ok: bool)
      requires id in last && last[id] == prev
      modifies this`suspect
      ensures ok == Plausible(m, old(Gate(last, suspect)), id, p, now)
      ensures suspect == if ok || Agrees(m, old(suspect), id, p, now) then old(suspect) else old(suspect)[id := Fix(p, now)]
    {
      var gap := now - prev.at;
      if gap >= STALE_AFTER || gap <= 0 || gap < MIN_INTERVAL {
        return true;
      }
      if m(prev.p, p) / (gap as real / HOUR as real) <= MAX_SPEED {
        return true;
      }
      if id !in suspect || now - suspect[id].at >= STALE_AFTER || m(suspect[id].p, p) > CONFIRM_RADIUS {
        suspect := suspect[id := Fix(p, now)];
        return false;
      }
      return now - suspect[id].at >= CONFIRM_AFTER;
    }
  }

  /** The loop that deletes stale fixes while going through the map. */
  method DropStale(fixes: map<string, Fix>, now: int) returns (kept: map<string, Fix>)
    ensures kept == map id | id in fixes && now - fixes[id].at <= STALE_AFTER :: fixes[id]
  {
    kept := fixes;
    var rest := fixes.Keys;
    while rest != {}
      invariant rest <= fixes.Keys
      invariant kept == map id | id in fixes && (id in rest || now - fixes[id].at <= STALE_AFTER) :: fixes[id]
      decreases rest
    {
      var id :| id in rest;
      rest := rest - {id};
      if now - fixes[id].at > STALE_AFTER {
        kept := kept - {id};
      }
    }
  }
}
