/** The budget of paid route requests (liveRouteCache, internal/httpapi/order_tracking.go). */
module LiveRoute {
  // `get` is two critical sections with the request between them, so it is two steps here: Call decides
  // and may start a request, Finish takes its result. Entries are objects that a running request keeps
  // hold of while `forget` and the sweep delete from the map. Times are seconds. The clock is read
  // before the lock is taken, so a reading may be up to LATE seconds old by the time it is used.

  import opened Outcomes
  import opened Sequences

  const FRESH: int := 30
  const MAX_AGE: int := 180
  const MOVE_METERS: real := 100.0
  const RETRY_GAP: int := 15
  const PLANNED_GAP: int := 60
  const FORGET: int := 3600
  const LATE: int := FORGET - MAX_AGE

  datatype Position = Position(lat: real, lng: real)
  type Route = nat
  type Ref = nat
  type Metric = (Position, Position) -> real

  /** The result of the latest request that succeeded: where it started, what it found, when it began. */
  datatype Fix = Fix(from: Position, res: Route, at: int)

  datatype Entry = Entry(fix: Option<Fix>, attempted: Option<int>, inflight: bool)

  const BLANK := Entry(None, None, false)

  datatype Verdict = Cached | Wait | Fetch

  predicate Reusable(fix: Fix, from: Position, now: int, metric: Metric) {
    now - fix.at < FRESH || (now - fix.at < MAX_AGE && metric(fix.from, from) < MOVE_METERS)
  }

  /** What `get` does with an entry. */
  function Judge(e: Entry, from: Position, now: int, metric: Metric): Verdict {
    if e.fix.Some? && Reusable(e.fix.value, from, now, metric) then Cached
    else if e.inflight || (e.attempted.Some? && now - e.attempted.value < RETRY_GAP) then Wait
    else Fetch
  }

  /** The sweep drops the entry. A time that was never set is the zero time, longer ago than anything. */
  predicate Stale(e: Entry, now: int) {
    && !e.inflight
    && (e.fix.Some? ==> now - e.fix.value.at > FORGET)
    && (e.attempted.Some? ==> now - e.attempted.value > FORGET)
  }

  function Finished(e: Entry, from: Position, now: int, result: Option<Route>): Entry {
    e.(inflight := false, fix := if result.Some? then Some(Fix(from, result.value, now)) else e.fix)
  }

  // ----- The protocol -----

  datatype Ending = Running | Failed | Found(res: Route)

  datatype Start = Start(at: int, from: Position, end: Ending)

  datatype Request = Request(id: string, ref: Ref, from: Position, now: int)

  /** `log` has the requests begun for each order since `forget` last deleted its entry, and `tries` the
      times its planned route was allowed; the code keeps neither. */
  datatype State = State(
    metric: Metric,
    time: int,
    entries: map<string, Ref>,
    heap: seq<Entry>,
    running: seq<Request>,
    planned: map<string, int>,
    log: map<string, seq<Start>>,
    tries: map<string, seq<int>>)

  datatype Event =
    | Call(id: string, from: Position, now: int)
    | Finish(k: nat, result: Option<Route>)
    | Forget(id: string)
    | Plan(id: string, now: int)
    | Tick(seconds: nat)

  function Log(s: State, id: string): seq<Start> { if id in s.log then s.log[id] else [] }

  function Tries(s: State, id: string): seq<int> { if id in s.tries then s.tries[id] else [] }

  function At(s: State, ref: Ref): Entry { if ref < |s.heap| then s.heap[ref] else BLANK }

  predicate Read(s: State, now: int) { s.time - LATE <= now <= s.time }

  predicate Enabled(s: State, e: Event) {
    match e
    case Call(id, from, now) => Read(s, now)
    case Finish(k, result) => k < |s.running| && s.running[k].ref < |s.heap|
    case Forget(id) => true
    case Plan(id, now) => Read(s, now)
    case Tick(d) => true
  }

  function Apply(s: State, e: Event): State
    requires Enabled(s, e)
  {
    match e
    case Call(id, from, now) => DoCall(Sweep(s, now), id, from, now)
    case Finish(k, result) => DoFinish(s, k, result)
    case Forget(id) => DoForget(s, id)
    case Plan(id, now) => DoPlan(Sweep(s, now), id, now)
    case Tick(d) => s.(time := s.time + d)
  }

  function Sweep(s: State, now: int): State {
    s.(entries := map id | id in s.entries && !Stale(At(s, s.entries[id]), now) :: s.entries[id],
       planned := map id | id in s.planned && now - s.planned[id] <= FORGET :: s.planned[id])
  }

  /** What is left is under way, or was found or tried within the last hour. */
  lemma SweptExactly(s: State, now: int, id: string)
    requires id in s.entries
    ensures var e := At(s, s.entries[id]);
            id in Sweep(s, now).entries <==>
              || e.inflight
              || (e.fix.Some? && now - FORGET <= e.fix.value.at) || (e.attempted.Some? && now - FORGET <= e.attempted.value)
  {
  }

  function DoCall(s: State, id: string, from: Position, now: int): State {
    if id !in s.entries then
      Begin(s.(entries := s.entries[id := |s.heap|], heap := s.heap + [BLANK]), id, |s.heap|, from, now)
    else if s.entries[id] < |s.heap| && Judge(At(s, s.entries[id]), from, now, s.metric) == Fetch then
      Begin(s, id, s.entries[id], from, now)
    else s
  }

  function Begin(s: State, id: string, ref: Ref, from: Position, now: int): State
    requires ref < |s.heap|
  {
    s.(heap := s.heap[ref := s.heap[ref].(inflight := true, attempted := Some(now))],
       running := s.running + [Request(id, ref, from, now)],
       log := s.log[id := Log(s, id) + [Start(now, from, Running)]])
  }

  function DoFinish(s: State, k: nat, result: Option<Route>): State
    requires Enabled(s, Finish(k, result))
  {
    var r := s.running[k];
    s.(heap := s.heap[r.ref := Finished(s.heap[r.ref], r.from, r.now, result)],
       running := s.running[..k] + s.running[k + 1..],
       log := s.log[r.id := Ended(Log(s, r.id), result)])
  }

  /** The latest request of an order comes to its end. */
  function Ended(log: seq<Start>, result: Option<Route>): seq<Start> {
    if log == [] then []
    else Front(log) + [Last(log).(end := if result.Some? then Found(result.value) else Failed)]
  }

  function DoForget(s: State, id: string): State {
    if id in s.entries && !At(s, s.entries[id]).inflight then
      s.(entries := s.entries - {id}, log := s.log[id := []])
    else s
  }

  function DoPlan(s: State, id: string, now: int): State {
    if id in s.planned && now - s.planned[id] < PLANNED_GAP then s
    else s.(planned := s.planned[id := now], tries := s.tries[id := Tries(s, id) + [now]])
  }

  function Init(metric: Metric, time: int): State { State(metric, time, map[], [], [], map[], map[], map[]) }

  ghost predicate ValidRun(s: State, es: seq<Event>)
    decreases |es|
  {
    es == [] || (Enabled(s, es[0]) && ValidRun(Apply(s, es[0]), es[1..]))
  }

  ghost function Exec(s: State, es: seq<Event>): State
    requires ValidRun(s, es)
    decreases |es|
  {
    if es == [] then s else Exec(Apply(s, es[0]), es[1..])
  }

  ghost predicate Reachable(s: State) {
    exists metric: Metric, time: int, es: seq<Event> :: ValidRun(Init(metric, time), es) && Exec(Init(metric, time), es) == s
  }

  // ----- The budget -----

  /** The latest request that succeeded. */
  function LatestFound(log: seq<Start>): Option<Start> {
    if log == [] then None
    else if Last(log).end.Found? then Some(Last(log))
    else LatestFound(Front(log))
  }

  /** A request may begin now: the one before has ended and began long enough ago, and its latest
      predecessor that succeeded is no longer usable. */
  ghost predicate Justified(metric: Metric, before: seq<Start>, at: int, from: Position) {
    && (before != [] ==> !Last(before).end.Running? && Last(before).at + RETRY_GAP <= at)
    && (LatestFound(before).Some? ==>
          var f := LatestFound(before).value;
          f.at + FRESH <= at && (f.at + MAX_AGE <= at || metric(f.from, from) >= MOVE_METERS))
  }

  ghost predicate Lawful(metric: Metric, log: seq<Start>)
  {
    log == [] || (Lawful(metric, Front(log)) && Justified(metric, Front(log), Last(log).at, Last(log).from))
  }

  // ----- What every step keeps -----

  /** An entry is what the code remembers of an order's requests: of the one that succeeded last, nothing
      if that was before an earlier entry of the order was swept away. */
  ghost predicate Recalls(e: Entry, log: seq<Start>, time: int) {
    && log != []
    && e.attempted == Some(Last(log).at)
    && e.inflight == Last(log).end.Running?
    && (e.fix == FixOf(LatestFound(log)) || (e.fix == None && LongAgo(LatestFound(log), time)))
  }

  /** No reading of the clock goes back to it. */
  predicate LongAgo(f: Option<Start>, time: int) {
    f.Some? ==> f.value.at + FORGET < time
  }

  function FixOf(f: Option<Start>): Option<Fix> {
    if f.Some? && f.value.end.Found? then Some(Fix(f.value.from, f.value.end.res, f.value.at)) else None
  }

  /** The order's entry recalls its requests; an order without one has made none, or none for long. */
  ghost predicate Remembered(s: State, id: string) {
    if id in s.entries then
      s.entries[id] < |s.heap| && Recalls(s.heap[s.entries[id]], Log(s, id), s.time)
    else
      Log(s, id) == [] || (!Last(Log(s, id)).end.Running? && Last(Log(s, id)).at + FORGET < s.time)
  }

  ghost predicate Budgeted(s: State, id: string) {
    && Lawful(s.metric, Log(s, id))
    && (Log(s, id) != [] ==> Last(Log(s, id)).at <= s.time)
  }

  /** A running request is its order's latest, and its entry is still the one in the map. */
  ghost predicate Tied(s: State, k: nat)
    requires k < |s.running|
  {
    var r := s.running[k];
    && r.id in s.entries && s.entries[r.id] == r.ref
    && Log(s, r.id) != [] && Last(Log(s, r.id)) == Start(r.now, r.from, Running)
  }

  ghost predicate Alone(s: State) {
    forall j, k :: 0 <= j < k < |s.running| ==> s.running[j].id != s.running[k].id
  }

  ghost predicate Separate(s: State) {
    forall a, b :: a in s.entries && b in s.entries && a != b ==> s.entries[a] != s.entries[b]
  }

  ghost predicate Runs(s: State, id: string) {
    exists k :: 0 <= k < |s.running| && s.running[k].id == id
  }

  /** An entry in flight has a request that will end it. */
  ghost predicate Attended(s: State, id: string) {
    Log(s, id) != [] && Last(Log(s, id)).end.Running? ==> Runs(s, id)
  }

  ghost predicate Spread(s: State, id: string) {
    && (forall i :: 0 < i < |Tries(s, id)| ==> Tries(s, id)[i - 1] + PLANNED_GAP <= Tries(s, id)[i])
    && (Tries(s, id) != [] ==> Last(Tries(s, id)) <= s.time)
    && (if id in s.planned then Tries(s, id) != [] && s.planned[id] == Last(Tries(s, id))
        else Tries(s, id) == [] || Last(Tries(s, id)) + FORGET < s.time)
  }

  ghost predicate Inv(s: State) {
    && (forall id :: Remembered(s, id))
    && (forall id :: Budgeted(s, id))
    && (forall id :: Attended(s, id))
    && (forall id :: Spread(s, id))
    && (forall k :: 0 <= k < |s.running| ==> Tied(s, k))
    && Alone(s) && Separate(s)
  }

  // ----- Sweeping -----

  lemma {:induction false} FoundIsEarlier(metric: Metric, log: seq<Start>)
    requires Lawful(metric, log) && LatestFound(log).Some?
    ensures LatestFound(log).value.at <= Last(log).at && LatestFound(log).value.end.Found?
  {
    if !Last(log).end.Found? {
      FoundIsEarlier(metric, Front(log));
    }
  }

  lemma SweepKeepsOrder(s: State, now: int, id: string)
    requires Remembered(s, id) && Budgeted(s, id) && Attended(s, id) && Read(s, now)
    ensures var t := Sweep(s, now); Remembered(t, id) && Budgeted(t, id) && Attended(t, id)
  {
    var t := Sweep(s, now);
    assert Log(t, id) == Log(s, id);
    assert Runs(s, id) ==> Runs(t, id);
  }

  lemma SweepKeepsSpread(s: State, now: int, id: string)
    requires Spread(s, id) && Read(s, now)
    ensures Spread(Sweep(s, now), id)
  {
    assert Tries(Sweep(s, now), id) == Tries(s, id);
  }

  lemma SweepKeepsTied(s: State, now: int, k: nat)
    requires k < |s.running| && Tied(s, k) && Remembered(s, s.running[k].id)
    ensures Tied(Sweep(s, now), k)
  {
    assert Log(Sweep(s, now), s.running[k].id) == Log(s, s.running[k].id);
  }

  lemma SweepKeeps(s: State, now: int)
    requires Inv(s) && Read(s, now)
    ensures Inv(Sweep(s, now))
  {
    var t := Sweep(s, now);
    forall id ensures Remembered(t, id) && Budgeted(t, id) && Attended(t, id) { SweepKeepsOrder(s, now, id); }
    forall id ensures Spread(t, id) { SweepKeepsSpread(s, now, id); }
    forall k | 0 <= k < |t.running| ensures Tied(t, k) { SweepKeepsTied(s, now, k); }
  }

  // ----- Beginning a request -----

  /** What makes a new request lawful. */
  lemma FetchIsJustified(s: State, id: string, from: Position, now: int)
    requires Remembered(s, id) && Budgeted(s, id) && Read(s, now)
    requires id in s.entries ==> Judge(At(s, s.entries[id]), from, now, s.metric) == Fetch
    ensures Justified(s.metric, Log(s, id), now, from)
    ensures Log(s, id) != [] ==> Last(Log(s, id)).at <= now
  {
    var log := Log(s, id);
    if log != [] && LatestFound(log).Some? {
      FoundIsEarlier(s.metric, log);
    }
  }

  /** `id` has a new latest request and nothing else has changed. */
  ghost predicate Began(s: State, t: State, id: string, from: Position, now: int) {
    && t.metric == s.metric && t.time == s.time && t.planned == s.planned && t.tries == s.tries
    && Log(t, id) == Log(s, id) + [Start(now, from, Running)]
    && (forall q :: q != id ==> Log(t, q) == Log(s, q))
    && id in t.entries
    && t.running == s.running + [Request(id, t.entries[id], from, now)]
    && |t.heap| >= |s.heap|
    && t.entries[id] < |t.heap|
    && t.entries == s.entries[id := t.entries[id]]
    && (if id in s.entries then t.entries[id] == s.entries[id] else t.entries[id] == |s.heap|)
    && (forall ref :: 0 <= ref < |s.heap| && ref != t.entries[id] ==> t.heap[ref] == s.heap[ref])
    && t.heap[t.entries[id]] == (if id in s.entries then At(s, s.entries[id]) else BLANK).(inflight := true, attempted := Some(now))
  }

  lemma CallBegins(s: State, id: string, from: Position, now: int)
    requires id !in s.entries || (s.entries[id] < |s.heap| && Judge(At(s, s.entries[id]), from, now, s.metric) == Fetch)
    ensures Began(s, DoCall(s, id, from, now), id, from, now)
  {
    if id in s.entries {
      assert s.entries == s.entries[id := s.entries[id]];
    }
  }

  lemma BeganRemembered(s: State, t: State, id: string, from: Position, now: int, q: string)
    requires Began(s, t, id, from, now) && Remembered(s, q) && Budgeted(s, q) && Separate(s)
    ensures Remembered(t, q)
  {
    if q == id {
      assert Front(Log(t, id)) == Log(s, id);
      if Log(s, id) != [] && LatestFound(Log(s, id)).Some? {
        FoundIsEarlier(s.metric, Log(s, id));
      }
    }
  }

  lemma BeganBudgeted(s: State, t: State, id: string, from: Position, now: int, q: string)
    requires Began(s, t, id, from, now) && Budgeted(s, q) && now <= s.time
    requires Justified(s.metric, Log(s, id), now, from)
    ensures Budgeted(t, q)
  {
    if q == id {
      assert Front(Log(t, id)) == Log(s, id);
    }
  }

  lemma BeganAttended(s: State, t: State, id: string, from: Position, now: int, q: string)
    requires Began(s, t, id, from, now) && Attended(s, q)
    ensures Attended(t, q)
  {
    if q == id {
      assert t.running[|s.running|].id == id;
    } else if Runs(s, q) {
      var k :| 0 <= k < |s.running| && s.running[k].id == q;
      assert t.running[k].id == q;
    }
  }

  lemma BeganTied(s: State, t: State, id: string, from: Position, now: int, k: nat)
    requires Began(s, t, id, from, now) && Justified(s.metric, Log(s, id), now, from) && k < |t.running|
    requires forall j :: 0 <= j < |s.running| ==> Tied(s, j)
    ensures Tied(t, k)
    ensures k < |s.running| ==> t.running[k].id != id
  {
    if k < |s.running| {
      assert Tied(s, k);
      assert t.running[k] == s.running[k];
    }
  }

  lemma BeganSeparate(s: State, t: State, id: string, from: Position, now: int)
    requires Began(s, t, id, from, now) && Separate(s) && (forall q :: Remembered(s, q))
    ensures Separate(t)
  {
    forall a | a in s.entries && a != id ensures s.entries[a] != t.entries[id] {
      assert Remembered(s, a);
    }
  }

  lemma BeganSpread(s: State, t: State, id: string, from: Position, now: int, q: string)
    requires Began(s, t, id, from, now) && Spread(s, q)
    ensures Spread(t, q)
  {
    assert Tries(t, q) == Tries(s, q);
  }

  lemma BeginKeeps(s: State, t: State, id: string, from: Position, now: int)
    requires Inv(s) && Began(s, t, id, from, now) && now <= s.time
    requires Justified(s.metric, Log(s, id), now, from)
    ensures Inv(t)
  {
    forall q ensures Remembered(t, q) { BeganRemembered(s, t, id, from, now, q); }
    forall q ensures Budgeted(t, q) { BeganBudgeted(s, t, id, from, now, q); }
    forall q ensures Attended(t, q) { BeganAttended(s, t, id, from, now, q); }
    forall q ensures Spread(t, q) { BeganSpread(s, t, id, from, now, q); }
    forall k | 0 <= k < |t.running| ensures Tied(t, k) && (k < |s.running| ==> t.running[k].id != id) {
      BeganTied(s, t, id, from, now, k);
    }
    BeganSeparate(s, t, id, from, now);
  }

  lemma CallKeeps(s: State, id: string, from: Position, now: int)
    requires Inv(s) && Read(s, now)
    ensures Inv(DoCall(s, id, from, now))
  {
    assert Remembered(s, id);
    if id !in s.entries || Judge(At(s, s.entries[id]), from, now, s.metric) == Fetch {
      CallBegins(s, id, from, now);
      FetchIsJustified(s, id, from, now);
      BeginKeeps(s, DoCall(s, id, from, now), id, from, now);
    }
  }

  // ----- Ending a request -----

  lemma FinishKeepsOrder(s: State, k: nat, result: Option<Route>, q: string)
    requires Enabled(s, Finish(k, result)) && Tied(s, k) && Separate(s)
    requires Remembered(s, q) && Budgeted(s, q)
    ensures var t := DoFinish(s, k, result); Remembered(t, q) && Budgeted(t, q)
  {
    var r := s.running[k];
    if q == r.id {
      EndedLog(s.metric, Log(s, q), result);
    }
  }

  lemma EndedLog(metric: Metric, log: seq<Start>, result: Option<Route>)
    requires log != [] && Last(log).end.Running? && Lawful(metric, log)
    ensures var log' := Ended(log, result);
            && Lawful(metric, log') && log' != [] && Last(log').at == Last(log).at && !Last(log').end.Running?
            && LatestFound(log') == (if result.Some? then Some(Last(log).(end := Found(result.value))) else LatestFound(log))
  {
    var log' := Ended(log, result);
    assert Front(log') == Front(log);
  }

  lemma FinishKeepsTied(s: State, k: nat, result: Option<Route>, j: nat)
    requires Enabled(s, Finish(k, result)) && Alone(s)
    requires j < |s.running| - 1
    requires Tied(s, if j < k then j else j + 1)
    ensures Tied(DoFinish(s, k, result), j)
  {
    var i := if j < k then j else j + 1;
    assert DoFinish(s, k, result).running[j] == s.running[i];
    assert s.running[i].id != s.running[k].id;
  }

  lemma FinishKeepsAttended(s: State, k: nat, result: Option<Route>, q: string)
    requires Enabled(s, Finish(k, result)) && Attended(s, q)
    ensures Attended(DoFinish(s, k, result), q)
  {
    var t := DoFinish(s, k, result);
    if q != s.running[k].id && Runs(s, q) {
      var i :| 0 <= i < |s.running| && s.running[i].id == q;
      assert t.running[if i < k then i else i - 1].id == q;
    }
  }

  lemma FinishKeepsAlone(s: State, k: nat, result: Option<Route>)
    requires Enabled(s, Finish(k, result)) && Alone(s)
    ensures Alone(DoFinish(s, k, result))
  {
    var t := DoFinish(s, k, result);
    forall i, j | 0 <= i < j < |t.running| ensures t.running[i].id != t.running[j].id {
      assert t.running[i] == s.running[if i < k then i else i + 1];
      assert t.running[j] == s.running[if j < k then j else j + 1];
    }
  }

  lemma FinishKeepsSpread(s: State, k: nat, result: Option<Route>, q: string)
    requires Enabled(s, Finish(k, result)) && Spread(s, q)
    ensures Spread(DoFinish(s, k, result), q)
  {
    assert Tries(DoFinish(s, k, result), q) == Tries(s, q);
  }

  lemma FinishKeeps(s: State, k: nat, result: Option<Route>)
    requires Inv(s) && Enabled(s, Finish(k, result))
    ensures Inv(DoFinish(s, k, result))
  {
    var t := DoFinish(s, k, result);
    forall q ensures Remembered(t, q) && Budgeted(t, q) { FinishKeepsOrder(s, k, result, q); }
    forall q ensures Attended(t, q) { FinishKeepsAttended(s, k, result, q); }
    forall q ensures Spread(t, q) { FinishKeepsSpread(s, k, result, q); }
    forall j | 0 <= j < |t.running| ensures Tied(t, j) { FinishKeepsTied(s, k, result, j); }
    FinishKeepsAlone(s, k, result);
  }

  // ----- Forgetting, planning, waiting -----

  lemma ForgetKeepsOrder(s: State, id: string, q: string)
    requires Remembered(s, q) && Budgeted(s, q) && Attended(s, q) && Spread(s, q)
    ensures var t := DoForget(s, id); Remembered(t, q) && Budgeted(t, q) && Attended(t, q) && Spread(t, q)
  {
    var t := DoForget(s, id);
    assert Tries(t, q) == Tries(s, q);
    assert Runs(s, q) ==> Runs(t, q);
  }

  lemma ForgetKeepsTied(s: State, id: string, k: nat)
    requires k < |s.running| && Tied(s, k) && Remembered(s, s.running[k].id)
    ensures Tied(DoForget(s, id), k)
  {
  }

  lemma ForgetKeeps(s: State, id: string)
    requires Inv(s)
    ensures Inv(DoForget(s, id))
  {
    var t := DoForget(s, id);
    forall q ensures Remembered(t, q) && Budgeted(t, q) && Attended(t, q) && Spread(t, q) { ForgetKeepsOrder(s, id, q); }
    forall k | 0 <= k < |t.running| ensures Tied(t, k) { ForgetKeepsTied(s, id, k); }
  }

  lemma PlanKeepsOrder(s: State, id: string, now: int, q: string)
    requires Remembered(s, q) && Budgeted(s, q) && Attended(s, q)
    ensures var t := DoPlan(s, id, now); Remembered(t, q) && Budgeted(t, q) && Attended(t, q)
  {
    var t := DoPlan(s, id, now);
    assert Log(t, q) == Log(s, q);
    assert Runs(s, q) ==> Runs(t, q);
  }

  lemma PlanKeepsSpread(s: State, id: string, now: int, q: string)
    requires Spread(s, q) && Read(s, now)
    ensures Spread(DoPlan(s, id, now), q)
  {
  }

  lemma PlanKeeps(s: State, id: string, now: int)
    requires Inv(s) && Read(s, now)
    ensures Inv(DoPlan(s, id, now))
  {
    var t := DoPlan(s, id, now);
    forall q ensures Remembered(t, q) && Budgeted(t, q) && Attended(t, q) { PlanKeepsOrder(s, id, now, q); }
    forall q ensures Spread(t, q) { PlanKeepsSpread(s, id, now, q); }
    forall k | 0 <= k < |t.running| ensures Tied(t, k) { assert Tied(s, k); }
  }

  lemma TickKeeps(s: State, d: nat)
    requires Inv(s)
    ensures Inv(s.(time := s.time + d))
  {
    var t := s.(time := s.time + d);
    forall q ensures Remembered(t, q) && Budgeted(t, q) { assert Remembered(s, q) && Budgeted(s, q); assert Log(t, q) == Log(s, q); }
    forall q ensures Attended(t, q) { assert Attended(s, q); assert Runs(s, q) ==> Runs(t, q); }
    forall q ensures Spread(t, q) { assert Spread(s, q); assert Tries(t, q) == Tries(s, q); }
    forall k | 0 <= k < |t.running| ensures Tied(t, k) { assert Tied(s, k); }
  }

  lemma StepKeepsInv(s: State, e: Event)
    requires Inv(s) && Enabled(s, e)
    ensures Inv(Apply(s, e))
  {
    match e {
      case Call(id, from, now) => SweepKeeps(s, now); CallKeeps(Sweep(s, now), id, from, now);
      case Finish(k, result) => FinishKeeps(s, k, result);
      case Forget(id) => ForgetKeeps(s, id);
      case Plan(id, now) => SweepKeeps(s, now); PlanKeeps(Sweep(s, now), id, now);
      case Tick(d) => TickKeeps(s, d);
    }
  }

  lemma {:induction false} RunKeepsInv(s: State, es: seq<Event>)
    requires Inv(s) && ValidRun(s, es)
    ensures Inv(Exec(s, es))
    decreases |es|
  {
    if es != [] {
      StepKeepsInv(s, es[0]);
      RunKeepsInv(Apply(s, es[0]), es[1..]);
    }
  }

  lemma ReachableInv(s: State)
    requires Reachable(s)
    ensures Inv(s)
  {
    var metric, time, es :| ValidRun(Init(metric, time), es) && Exec(Init(metric, time), es) == s;
    RunKeepsInv(Init(metric, time), es);
  }

  // ----- Main results -----

  /** No order has two requests under way, every request under way still owns its order's entry, and an
      order is never stuck waiting for a request that nobody makes. */
  lemma OneRequestPerOrder(s: State)
    requires Reachable(s)
    ensures forall j, k :: 0 <= j < k < |s.running| ==> s.running[j].id != s.running[k].id
    ensures forall k :: 0 <= k < |s.running| ==>
              s.running[k].id in s.entries && s.entries[s.running[k].id] == s.running[k].ref && At(s, s.running[k].ref).inflight
    ensures forall id :: id in s.entries && At(s, s.entries[id]).inflight ==> Runs(s, id)
  {
    ReachableInv(s);
    forall k | 0 <= k < |s.running|
      ensures s.running[k].id in s.entries && s.entries[s.running[k].id] == s.running[k].ref && At(s, s.running[k].ref).inflight
    {
      assert Tied(s, k) && Remembered(s, s.running[k].id);
    }
    forall id | id in s.entries && At(s, s.entries[id]).inflight ensures Runs(s, id) {
      assert Remembered(s, id) && Attended(s, id);
    }
  }

  /** Whether a request begins depends on the order's requests so far and on nothing else: that entries
      are swept away after an hour cannot be observed. */
  lemma SweepingIsUnobservable(s: State, id: string, from: Position, now: int)
    requires Reachable(s) && Read(s, now)
    ensures Log(Apply(s, Call(id, from, now)), id) ==
            if Justified(s.metric, Log(s, id), now, from) then Log(s, id) + [Start(now, from, Running)] else Log(s, id)
  {
    ReachableInv(s);
    var t := Sweep(s, now);
    SweepKeeps(s, now);
    assert Remembered(t, id) && Budgeted(t, id);
    assert Log(t, id) == Log(s, id);
    if id !in t.entries || Judge(At(t, t.entries[id]), from, now, t.metric) == Fetch {
      FetchIsJustified(t, id, from, now);
      CallBegins(t, id, from, now);
    } else {
      RefusedIsNotJustified(t, id, from, now);
    }
  }

  lemma RefusedIsNotJustified(s: State, id: string, from: Position, now: int)
    requires Remembered(s, id) && id in s.entries && Judge(At(s, s.entries[id]), from, now, s.metric) != Fetch
    ensures !Justified(s.metric, Log(s, id), now, from)
  {
  }

  /** Of two requests for one order the later begins at least 15 seconds after the earlier, after one that
      succeeded 30 seconds, and 3 minutes if the courier has moved less than 100 meters since. */
  lemma RequestsKeepTheirDistance(s: State, id: string, i: nat, j: nat)
    requires Reachable(s) && i < j < |Log(s, id)|
    ensures var a, b := Log(s, id)[i], Log(s, id)[j];
            && !a.end.Running?
            && a.at + RETRY_GAP <= b.at
            && (a.end.Found? ==> a.at + FRESH <= b.at)
            && (a.end.Found? && (forall m :: i < m < j ==> !Log(s, id)[m].end.Found?) ==>
                  a.at + MAX_AGE <= b.at || s.metric(a.from, b.from) >= MOVE_METERS)
  {
    ReachableInv(s);
    assert Budgeted(s, id);
    LawfulTimes(s.metric, Log(s, id), i, j);
    LawfulPairs(s.metric, Log(s, id), i, j);
  }

  lemma {:induction false} LawfulTimes(metric: Metric, log: seq<Start>, i: nat, j: nat)
    requires Lawful(metric, log) && i < j < |log|
    ensures !log[i].end.Running? && log[i].at + RETRY_GAP <= log[j].at
    decreases |log| + j
  {
    if j < |log| - 1 {
      LawfulTimes(metric, Front(log), i, j);
    } else if i < j - 1 {
      LawfulTimes(metric, log, i, j - 1);
    }
  }

  /** The latest success is not before any success, and is that one if none follows. */
  lemma {:induction false} FoundIsFrom(metric: Metric, log: seq<Start>, i: nat)
    requires Lawful(metric, log) && i < |log| && log[i].end.Found?
    ensures LatestFound(log).Some? && log[i].at <= LatestFound(log).value.at
    ensures (forall m :: i < m < |log| ==> !log[m].end.Found?) ==> LatestFound(log) == Some(log[i])
    decreases |log|
  {
    if Last(log).end.Found? {
      if i < |log| - 1 {
        LawfulTimes(metric, log, i, |log| - 1);
      }
    } else {
      FoundIsFrom(metric, Front(log), i);
    }
  }

  lemma {:induction false} LawfulPairs(metric: Metric, log: seq<Start>, i: nat, j: nat)
    requires Lawful(metric, log) && i < j < |log|
    ensures log[i].end.Found? ==> log[i].at + FRESH <= log[j].at
    ensures log[i].end.Found? && (forall m :: i < m < j ==> !log[m].end.Found?) ==>
              log[i].at + MAX_AGE <= log[j].at || metric(log[i].from, log[j].from) >= MOVE_METERS
    decreases |log|
  {
    var before := Front(log);
    if j < |log| - 1 {
      LawfulPairs(metric, before, i, j);
      assert forall m :: i < m < j ==> before[m] == log[m];
    } else if log[i].end.Found? {
      FoundIsFrom(metric, before, i);
    }
  }

  /** How many of the requests begin within `span` seconds from `since`. */
  function Within(log: seq<Start>, since: int, span: nat): nat {
    if log == [] then 0
    else Within(Front(log), since, span) + if since <= Last(log).at <= since + span then 1 else 0
  }

  lemma {:induction false} FewWithin(metric: Metric, log: seq<Start>, since: int, span: nat)
    requires Lawful(metric, log)
    ensures log != [] ==> Within(log, since, span) * RETRY_GAP <= MaxZero(Last(log).at - since + RETRY_GAP)
    ensures (Within(log, since, span) - 1) * RETRY_GAP <= span
  {
    if log != [] {
      FewWithin(metric, Front(log), since, span);
    }
  }

  function MaxZero(x: int): int { if x < 0 then 0 else x }

  /** Which requests begin then. */
  function BegunWithin(log: seq<Start>, since: int, span: nat): set<nat> {
    set i | 0 <= i < |log| && since <= log[i].at <= since + span
  }

  lemma {:induction false} WithinCounts(log: seq<Start>, since: int, span: nat)
    ensures |BegunWithin(log, since, span)| == Within(log, since, span)
    decreases |log|
  {
    if log != [] {
      var last, before := |log| - 1, BegunWithin(Front(log), since, span);
      WithinCounts(Front(log), since, span);
      assert BegunWithin(log, since, span) == before + if since <= log[last].at <= since + span then {last} else {};
    }
  }

  /** Within any stretch of time, at most one request per 15 seconds and one more. */
  lemma SpendingIsBounded(s: State, id: string, since: int, span: nat)
    requires Reachable(s)
    ensures |BegunWithin(Log(s, id), since, span)| <= span / RETRY_GAP + 1
  {
    ReachableInv(s);
    assert Budgeted(s, id);
    FewWithin(s.metric, Log(s, id), since, span);
    WithinCounts(Log(s, id), since, span);
  }

  /** Planned routes are computed at most once a minute. */
  lemma PlannedRoutesAreSpread(s: State, id: string, i: nat, j: nat)
    requires Reachable(s) && i < j < |Tries(s, id)|
    ensures Tries(s, id)[i] + PLANNED_GAP * (j - i) <= Tries(s, id)[j]
  {
    ReachableInv(s);
    assert Spread(s, id);
    SpreadPairs(Tries(s, id), i, j);
  }

  lemma {:induction false} SpreadPairs(ts: seq<int>, i: nat, j: nat)
    requires forall m :: 0 < m < |ts| ==> ts[m - 1] + PLANNED_GAP <= ts[m]
    requires i < j < |ts|
    ensures ts[i] + PLANNED_GAP * (j - i) <= ts[j]
    decreases j
  {
    if i < j - 1 {
      SpreadPairs(ts, i, j - 1);
    }
  }

  /** A run, state by state. */
  ghost predicate Trace(states: seq<State>, es: seq<Event>) {
    && |states| == |es| + 1
    && forall i :: 0 <= i < |es| ==> Enabled(states[i], es[i]) && states[i + 1] == Apply(states[i], es[i])
  }

  lemma {:induction false} TraceIsRun(states: seq<State>, es: seq<Event>)
    requires Trace(states, es)
    ensures ValidRun(states[0], es) && Exec(states[0], es) == Last(states)
    decreases |es|
  {
    if es != [] {
      TraceIsRun(states[1..], es[1..]);
    }
  }

  /** s is where the run from the beginning at that time has come to. */
  ghost predicate IsAfter(s: State, run: seq<Event>, time: int) {
    exists states :: Trace(states, run) && states[0] == Init(s.metric, time) && Last(states) == s
  }

  lemma IsReachable(s: State, run: seq<Event>, time: int)
    requires IsAfter(s, run, time)
    ensures ValidRun(Init(s.metric, time), run) && Exec(Init(s.metric, time), run) == s && Reachable(s)
  {
    var states :| Trace(states, run) && states[0] == Init(s.metric, time) && Last(states) == s;
    TraceIsRun(states, run);
  }

  lemma NothingYet(metric: Metric, time: int)
    ensures IsAfter(Init(metric, time), [], time)
  {
    assert Trace([Init(metric, time)], []);
  }

  lemma Next(s: State, run: seq<Event>, time: int, e: Event) returns (t: State)
    requires IsAfter(s, run, time) && Enabled(s, e)
    ensures t == Apply(s, e) && IsAfter(t, run + [e], time)
  {
    t := Apply(s, e);
    var states :| Trace(states, run) && states[0] == Init(s.metric, time) && Last(states) == s;
    assert Trace(states + [t], run + [e]);
  }

  /** The entries that a sweep leaves in the map. */
  function Kept(s: State, now: int): map<string, Ref> { Sweep(s, now).entries }

  /** Where the order's entry is once it has one. */
  function RefOf(kept: map<string, Ref>, views: seq<Entry>, id: string): Ref {
    if id in kept then kept[id] else |views|
  }

  function Entered(kept: map<string, Ref>, views: seq<Entry>, id: string): seq<Entry> {
    if id in kept then views else views + [BLANK]
  }

  function Asked(e: Entry, now: int): Entry { e.(inflight := true, attempted := Some(now)) }

  /** The entries after the verdict on one of them. */
  function Noted(all: seq<Entry>, ref: Ref, verdict: Verdict, now: int): seq<Entry> {
    if verdict == Fetch && ref < |all| then all[ref := Asked(all[ref], now)] else all
  }

  /** What a call makes of the entries: the order's entry, made anew if it is not in the map, is marked if its
      route is requested. */
  ghost predicate Called(s: State, t: State, kept: map<string, Ref>, id: string, from: Position, now: int) {
    var ref, all := RefOf(kept, s.heap, id), Entered(kept, s.heap, id);
    && ref < |all| && t.entries == kept[id := ref] && t.metric == s.metric
    && var want := Judge(all[ref], from, now, s.metric);
       t.heap == Noted(all, ref, want, now) && |t.running| == |s.running| + (if want == Fetch then 1 else 0)
  }

  lemma CallEffect(s: State, run: seq<Event>, time: int, id: string, from: Position, now: int) returns (t: State)
    requires IsAfter(s, run, time) && Read(s, now)
    ensures IsAfter(t, run + [Call(id, from, now)], time) && t.planned == Sweep(s, now).planned
    ensures Called(s, t, Kept(s, now), id, from, now)
  {
    EntriesAreInHeap(s, run, time);
    t := Next(s, run, time, Call(id, from, now));
    CallIs(s, id, from, now);
  }

  lemma EntriesAreInHeap(s: State, run: seq<Event>, time: int)
    requires IsAfter(s, run, time)
    ensures forall p :: p in s.entries ==> s.entries[p] < |s.heap|
  {
    IsReachable(s, run, time);
    ReachableInv(s);
    forall p | p in s.entries ensures s.entries[p] < |s.heap| {
      assert Remembered(s, p);
    }
  }

  lemma CallIs(s: State, id: string, from: Position, now: int)
    requires Read(s, now) && forall p :: p in s.entries ==> s.entries[p] < |s.heap|
    ensures var t := Apply(s, Call(id, from, now)); Called(s, t, Kept(s, now), id, from, now) && t.planned == Sweep(s, now).planned
  {
  }

  lemma PlanEffect(s: State, run: seq<Event>, time: int, id: string, now: int) returns (t: State)
    requires IsAfter(s, run, time) && Read(s, now)
    ensures var swept := Sweep(s, now).planned;
            && IsAfter(t, run + [Plan(id, now)], time) && t.metric == s.metric && t.heap == s.heap && t.entries == Kept(s, now)
            && t.planned == if id in swept && now - swept[id] < PLANNED_GAP then swept else swept[id := now]
  {
    t := Next(s, run, time, Plan(id, now));
  }

  // ----- The objects -----

  class LiveRouteEntry {
    var fix: Option<Fix>
    var attempted: Option<int>
    var inflight: bool

    constructor ()
      ensures View() == BLANK
    {
      fix, attempted, inflight := None, None, false;
    }

    function View(): Entry
      reads this
    {
      Entry(fix, attempted, inflight)
    }
  }

  /** `heap` has all the entries that were ever made, `run` is what was called, as a run of the protocol from
      its beginning at `start`, and `state` is where this run has come to. */
  class LiveRouteCache {
    var entries: map<string, LiveRouteEntry>
    var planned: map<string, int>
    const metric: Metric
    ghost const start: int
    ghost var heap: seq<LiveRouteEntry>
    ghost var run: seq<Event>
    ghost var state: State

    ghost predicate Valid()
      reads this, heap
    {
      IsAfter(state, run, start) && state.metric == metric && planned == state.planned && Views(state.heap) && Refs(state.entries)
    }

    /** The objects are as the protocol has them. */
    ghost predicate Views(views: seq<Entry>)
      reads this`heap, heap
    {
      && |heap| == |views|
      && (forall i :: 0 <= i < |heap| ==> heap[i].View() == views[i])
      && (forall i, j :: 0 <= i < j < |heap| ==> heap[i] != heap[j])
    }

    ghost predicate Refs(refs: map<string, Ref>)
      reads this`entries, this`heap
    {
      && entries.Keys == refs.Keys
      && (forall id :: id in refs ==> refs[id] < |heap| && entries[id] == heap[refs[id]])
    }

    /** The answer is the entry's, reusable exactly if it is used; a request begins exactly if it is to be made. */
    ghost predicate Answered(before: State, e: LiveRouteEntry, id: string, from: Position, now: int, verdict: Verdict, answer: Option<Fix>)
      reads this, e
    {
      && id in entries && entries[id] == e && answer == e.fix
      && (verdict == Cached <==> answer.Some? && Reusable(answer.value, from, now, metric))
      && (verdict == Fetch <==> |state.running| == |before.running| + 1)
    }

    constructor (metric: Metric, ghost time: int)
      ensures Valid() && entries == map[] && planned == map[] && this.metric == metric && run == [] && start == time
    {
      entries, planned := map[], map[];
      this.metric, start := metric, time;
      heap, run, state := [], [], Init(metric, time);
      NothingYet(metric, time);
    }

    method SweepEntries(now: int)
      modifies this`entries
      ensures entries == map id | id in old(entries) && !Stale(old(entries[id].View()), now) :: old(entries[id])
    {
      var left := entries.Keys;
      while left != {}
        invariant left <= old(entries).Keys
        invariant forall id :: id in entries <==> id in old(entries) && (id in left || !Stale(old(entries[id].View()), now))
        invariant forall id :: id in entries ==> entries[id] == old(entries)[id]
        decreases left
      {
        var id :| id in left;
        left := left - {id};
        if Stale(entries[id].View(), now) {
          entries := entries - {id};
        }
      }
    }

    method SweepPlanned(now: int)
      modifies this`planned
      ensures planned == map id | id in old(planned) && now - old(planned)[id] <= FORGET :: old(planned)[id]
    {
      var left := planned.Keys;
      while left != {}
        invariant left <= old(planned).Keys
        invariant forall id :: id in planned <==> id in old(planned) && (id in left || now - old(planned)[id] <= FORGET)
        invariant forall id :: id in planned ==> planned[id] == old(planned)[id]
        decreases left
      {
        var id :| id in left;
        left := left - {id};
        if now - planned[id] > FORGET {
          planned := planned - {id};
        }
      }
    }

    method SweepBoth(now: int, ghost s: State, ghost kept: map<string, Ref>)
      requires Views(s.heap) && Refs(s.entries) && planned == s.planned && kept == Kept(s, now)
      modifies this`entries, this`planned
      ensures Refs(kept) && planned == Sweep(s, now).planned
    {
      SweepEntries(now);
      SweepPlanned(now);
    }

    /** The first critical section of `get`: either its answer, or the entry to request a route for. The
        sweep comes first, so an entry that went stale is made anew. */
    method Begin(id: string, from: Position, now: int) returns (e: LiveRouteEntry, verdict: Verdict, answer: Option<Fix>)
      requires Valid() && Read(state, now)
      modifies this, heap
      ensures Valid() && run == old(run) + [Call(id, from, now)]
      ensures Answered(old(state), e, id, from, now, verdict, answer)
    {
      ghost var s := state;
      ghost var kept := SweepFor(id, from, now);
      e, verdict, answer := Follow(s, kept, id, from, now);
    }

    /** The protocol takes its step, and the stale entries go. */
    method SweepFor(id: string, from: Position, now: int) returns (ghost kept: map<string, Ref>)
      requires Valid() && Read(state, now)
      modifies this`entries, this`planned, this`state, this`run
      ensures run == old(run) + [Call(id, from, now)] && IsAfter(state, run, start) && planned == state.planned
      ensures Called(old(state), state, kept, id, from, now) && Refs(kept)
    {
      ghost var s := state;
      state := CallEffect(s, run, start, id, from, now);
      run, kept := run + [Call(id, from, now)], Kept(s, now);
      SweepBoth(now, s, kept);
    }

    /** The objects come to where the protocol is. */
    method Follow(ghost s: State, ghost kept: map<string, Ref>, id: string, from: Position, now: int)
        returns (e: LiveRouteEntry, verdict: Verdict, answer: Option<Fix>)
      requires Called(s, state, kept, id, from, now) && Views(s.heap) && Refs(kept) && s.metric == metric
      requires IsAfter(state, run, start) && planned == state.planned
      modifies this`entries, this`heap, heap
      ensures Valid()
      ensures Answered(s, e, id, from, now, verdict, answer)
    {
      e, verdict, answer := Ask(id, from, now, kept, s.heap, RefOf(kept, s.heap, id), Entered(kept, s.heap, id));
    }

    /** Finds or makes the entry. */
    method Enter(id: string, ghost kept: map<string, Ref>, ghost views: seq<Entry>) returns (e: LiveRouteEntry)
      requires Views(views) && Refs(kept)
      modifies this`entries, this`heap
      ensures Views(Entered(kept, views, id)) && Refs(kept[id := RefOf(kept, views, id)])
      ensures id in entries && entries[id] == e && RefOf(kept, views, id) < |heap| && heap[RefOf(kept, views, id)] == e
      ensures e in old(heap) || fresh(e)
    {
      if id in entries {
        e := entries[id];
      } else {
        e := new LiveRouteEntry();
        entries := entries[id := e];
        heap := heap + [e];
      }
    }

    /** Finds or makes the entry and judges it. */
    method Ask(id: string, from: Position, now: int, ghost kept: map<string, Ref>, ghost views: seq<Entry>, ghost ref: Ref, ghost all: seq<Entry>)
        returns (e: LiveRouteEntry, verdict: Verdict, answer: Option<Fix>)
      requires Views(views) && Refs(kept) && ref == RefOf(kept, views, id) && all == Entered(kept, views, id) && ref < |all|
      modifies this`entries, this`heap, heap
      ensures verdict == Judge(all[ref], from, now, metric) && Views(Noted(all, ref, verdict, now)) && Refs(kept[id := ref])
      ensures id in entries && entries[id] == e && answer == e.fix
      ensures verdict == Cached <==> answer.Some? && Reusable(answer.value, from, now, metric)
    {
      e := Enter(id, kept, views);
      verdict := Decide(e, from, now);
      answer := e.fix;
    }

    /** Answers from the entry, makes the caller wait, or marks the entry. */
    method Decide(e: LiveRouteEntry, from: Position, now: int) returns (verdict: Verdict)
      modifies e
      ensures verdict == Judge(old(e.View()), from, now, metric)
      ensures e.View() == if verdict == Fetch then Asked(old(e.View()), now) else old(e.View())
    {
      if e.fix.Some? && Reusable(e.fix.value, from, now, metric) {
        return Cached;
      } else if e.inflight || (e.attempted.Some? && now - e.attempted.value < RETRY_GAP) {
        return Wait;
      }
      e.inflight, e.attempted := true, Some(now);
      return Fetch;
    }

    /** The second critical section, of request k: an error keeps the earlier result. */
    method Finish(ghost k: nat, e: LiveRouteEntry, from: Position, now: int, result: Option<Route>) returns (answer: Option<Fix>)
      requires Valid() && Enabled(state, Event.Finish(k, result))
      requires e == heap[state.running[k].ref] && from == state.running[k].from && now == state.running[k].now
      modifies this`state, this`run, e
      ensures Valid() && run == old(run) + [Event.Finish(k, result)]
      ensures e.View() == Finished(old(e.View()), from, now, result) && answer == e.fix
    {
      state := Next(state, run, start, Event.Finish(k, result));
      run := run + [Event.Finish(k, result)];
      e.inflight := false;
      if result.Some? {
        e.fix := Some(Fix(from, result.value, now));
      }
      answer := e.fix;
    }

    method AllowPlanned(id: string, now: int) returns (allowed: bool)
      requires Valid() && Read(state, now)
      modifies this
      ensures Valid() && run == old(run) + [Plan(id, now)]
      ensures allowed == !(id in old(planned) && now - old(planned)[id] < PLANNED_GAP)
    {
      ghost var s := state;
      state := PlanEffect(s, run, start, id, now);
      run := run + [Plan(id, now)];
      SweepBoth(now, s, Kept(s, now));
      allowed := !(id in planned && now - planned[id] < PLANNED_GAP);
      if allowed {
        planned := planned[id := now];
      }
    }

    /** An entry with a request under way stays. */
    method Forget(id: string)
      requires Valid()
      modifies this`entries, this`state, this`run
      ensures Valid() && run == old(run) + [Event.Forget(id)]
      ensures entries == if id in old(entries) && !old(entries[id].inflight) then old(entries) - {id} else old(entries)
    {
      state := Next(state, run, start, Event.Forget(id));
      run := run + [Event.Forget(id)];
      if id in entries && !entries[id].inflight {
        entries := entries - {id};
      }
    }

    ghost method Tick(seconds: nat)
      requires Valid()
      modifies this`state, this`run
      ensures Valid() && run == old(run) + [Event.Tick(seconds)]
    {
      state := Next(state, run, start, Event.Tick(seconds));
      run := run + [Event.Tick(seconds)];
    }
  }
}
