/** The notification stream of a restaurant (internal/alerts/service.go over the Store contract of
    internal/alerts/alerts.go, as internal/storage/memory_alerts.go implements it). */
module Alerts {
  // Publish is a few steps of its thread (take the restaurant's lock, insert, send, give the lock
  // back), interleaved with those of other threads; marking as read is one step, for nothing of its
  // restaurant can happen while it has the lock. The lock is one of an array, chosen by a hash of the
  // restaurant's id: any function of the id will do, so the hash is a parameter.

  import opened Outcomes
  import opened Sequences
  import Sorting

  /** What never changes about a notification. */
  datatype Alert = Alert(seq_: nat, id: string, key: string)

  datatype Note = Note(rid: string, alert: Alert, read: bool)

  /** A message on the restaurant's channel: a new notification, or the news that some were read. Both
      carry the number of unread ones; the first also goes out without it. */
  datatype Msg = Msg(rid: string, news: Option<Alert>, unread: Option<nat>)

  // ----- The store -----

  predicate Known(items: seq<Note>, rid: string, key: string) {
    exists i :: 0 <= i < |items| && items[i].rid == rid && items[i].alert.key == key
  }

  function UnreadOf(items: seq<Note>, rid: string): nat {
    if items == [] then 0
    else UnreadOf(Front(items), rid) + if Last(items).rid == rid && !Last(items).read then 1 else 0
  }

  /** The first unread one with that id becomes read. */
  function MarkOne(items: seq<Note>, rid: string, id: string): seq<Note> {
    if items == [] then []
    else if items[0].rid == rid && items[0].alert.id == id && !items[0].read then [items[0].(read := true)] + items[1..]
    else [items[0]] + MarkOne(items[1..], rid, id)
  }

  function MarkUpTo(items: seq<Note>, rid: string, upTo: int): seq<Note> {
    if items == [] then []
    else MarkUpTo(Front(items), rid, upTo) +
         [if Last(items).rid == rid && Last(items).alert.seq_ <= upTo then Last(items).(read := true) else Last(items)]
  }

  const MAX_LIMIT: nat := 100

  function ClampLimit(n: int): (r: nat)
    ensures 1 <= r <= MAX_LIMIT
    ensures 1 <= n <= MAX_LIMIT ==> r == n
  {
    if n <= 0 then 30 else if n > MAX_LIMIT then MAX_LIMIT else n
  }

  predicate Matches(n: Note, rid: string, after: nat) {
    n.rid == rid && !(after > 0 && n.alert.seq_ <= after)
  }

  function Of(items: seq<Note>, rid: string, after: nat): seq<Note> {
    if items == [] then []
    else if Matches(Last(items), rid, after) then Of(Front(items), rid, after) + [Last(items)]
    else Of(Front(items), rid, after)
  }

  predicate Older(a: Note, b: Note) { a.alert.seq_ < b.alert.seq_ }

  predicate Newer(a: Note, b: Note) { Older(b, a) }

  function Take<T>(xs: seq<T>, n: nat): seq<T> { if |xs| > n then xs[..n] else xs }

  /** A page: the oldest of those after a number, or else the newest of all, newest first. */
  function List(items: seq<Note>, rid: string, after: nat, limit: int): seq<Note> {
    var matching := Of(items, rid, after);
    Take(if after > 0 then Sorting.SortStable(matching, Older) else Sorting.SortStable(matching, Newer), ClampLimit(limit))
  }

  function Contents(notes: seq<Note>): seq<Alert> {
    seq(|notes|, i requires 0 <= i < |notes| => notes[i].alert)
  }

  // ----- The protocol -----

  type Thread = nat

  datatype Stage = Waiting | Locked | Stored(news: Alert) | Closing

  datatype Job = Job(rid: string, id: string, key: string, stage: Stage)

  datatype State = State(
    stripe: string -> nat,
    counter: nat,
    items: seq<Note>,
    locks: map<nat, Thread>,
    jobs: map<Thread, Job>,
    sent: seq<Msg>)

  /** The numbers that Insert gives out increase but may leave gaps; if it fails it writes nothing. The
      unread ones are counted after the change, and `counted` says whether that works. */
  datatype Event =
    | Publish(t: Thread, rid: string, id: string, key: string)
    | Lock(t: Thread)
    | Insert(t: Thread, gap: nat, fails: bool)
    | Send(t: Thread, counted: bool)
    | Unlock(t: Thread)
    | MarkRead(rid: string, id: string, counted: bool)
    | MarkAllRead(rid: string, upTo: int, counted: bool)

  predicate At(s: State, t: Thread, stage: Stage) { t in s.jobs && s.jobs[t].stage == stage }

  predicate Enabled(s: State, e: Event) {
    match e
    case Publish(t, rid, id, key) => t !in s.jobs
    case Lock(t) => At(s, t, Waiting) && s.stripe(s.jobs[t].rid) !in s.locks
    case Insert(t, gap, fails) => At(s, t, Locked)
    case Send(t, counted) => t in s.jobs && s.jobs[t].stage.Stored?
    case Unlock(t) => At(s, t, Closing)
    case MarkRead(rid, id, counted) => s.stripe(rid) !in s.locks
    case MarkAllRead(rid, upTo, counted) => s.stripe(rid) !in s.locks
  }

  function Apply(s: State, e: Event): State
    requires Enabled(s, e)
  {
    match e
    case Publish(t, rid, id, key) => s.(jobs := s.jobs[t := Job(rid, id, key, Waiting)])
    case Lock(t) => Move(s, t, Locked).(locks := s.locks[s.stripe(s.jobs[t].rid) := t])
    case Insert(t, gap, fails) => DoInsert(s, t, gap, fails)
    case Send(t, counted) => DoSend(s, t, counted)
    case Unlock(t) => s.(jobs := s.jobs - {t}, locks := s.locks - {s.stripe(s.jobs[t].rid)})
    case MarkRead(rid, id, counted) => Marked(s, rid, MarkOne(s.items, rid, id), counted)
    case MarkAllRead(rid, upTo, counted) => if upTo <= 0 then s else Marked(s, rid, MarkUpTo(s.items, rid, upTo), counted)
  }

  function Move(s: State, t: Thread, stage: Stage): State
    requires t in s.jobs
  {
    s.(jobs := s.jobs[t := s.jobs[t].(stage := stage)])
  }

  function DoInsert(s: State, t: Thread, gap: nat, fails: bool): State
    requires At(s, t, Locked)
  {
    var job := s.jobs[t];
    if fails || Known(s.items, job.rid, job.key) then Move(s, t, Closing)
    else
      var n := Alert(s.counter + 1 + gap, job.id, job.key);
      Move(s, t, Stored(n)).(counter := n.seq_, items := s.items + [Note(job.rid, n, false)])
  }

  /** Without the number if it could not be counted. */
  function DoSend(s: State, t: Thread, counted: bool): State
    requires t in s.jobs && s.jobs[t].stage.Stored?
  {
    var job := s.jobs[t];
    Move(s, t, Closing).(sent := s.sent + [Msg(job.rid, Some(job.stage.news), if counted then Some(UnreadOf(s.items, job.rid)) else None)])
  }

  /** The other panels hear of it only if something changed, and only if the rest could be counted. */
  function Marked(s: State, rid: string, items: seq<Note>, counted: bool): State {
    if items == s.items then s
    else if counted then s.(items := items, sent := s.sent + [Msg(rid, None, Some(UnreadOf(items, rid)))])
    else s.(items := items)
  }

  function Init(stripe: string -> nat): State { State(stripe, 0, [], map[], map[], []) }

  ghost predicate ValidRun(s: State, es: seq<Event>)
    decreases |es|
  {
    es == [] || (Enabled(s, es[0]) && ValidRun(Apply(s, es[0]), es[1..]))
  }

  ghost function Exec(s: State, es: seq<Event>): State
    requires ValidRun(s, es)
    decreases |es|
  {
    if es == [] then s else Exec(Apply(s, es[0]), es[1..])
  }

  ghost predicate Reachable(s: State) {
    exists stripe: string -> nat, es: seq<Event> :: ValidRun(Init(stripe), es) && Exec(Init(stripe), es) == s
  }

  // ----- What every step keeps -----

  /** The restaurant's notifications as they were inserted. */
  function Inserted(items: seq<Note>, rid: string): seq<Alert> {
    if items == [] then []
    else if Last(items).rid == rid then Inserted(Front(items), rid) + [Last(items).alert]
    else Inserted(Front(items), rid)
  }

  /** The restaurant's new notifications as they were sent. */
  function Announced(sent: seq<Msg>, rid: string): seq<Alert> {
    if sent == [] then []
    else if Last(sent).rid == rid && Last(sent).news.Some? then Announced(Front(sent), rid) + [Last(sent).news.value]
    else Announced(Front(sent), rid)
  }

  /** The number of unread ones that a panel shows. */
  function Badge(sent: seq<Msg>, rid: string): nat {
    if sent == [] then 0
    else if Last(sent).rid == rid && Last(sent).unread.Some? then Last(sent).unread.value
    else Badge(Front(sent), rid)
  }

  ghost predicate Numbered(s: State) {
    && (forall i :: 0 <= i < |s.items| ==> 0 < s.items[i].alert.seq_ <= s.counter)
    && (forall i, j :: 0 <= i < j < |s.items| ==> s.items[i].alert.seq_ < s.items[j].alert.seq_)
  }

  ghost predicate KeysDiffer(s: State) {
    forall i, j :: 0 <= i < j < |s.items| && s.items[i].rid == s.items[j].rid ==> s.items[i].alert.key != s.items[j].alert.key
  }

  ghost predicate Exclusive(s: State) {
    forall t :: t in s.jobs && s.jobs[t].stage != Waiting ==>
      s.stripe(s.jobs[t].rid) in s.locks && s.locks[s.stripe(s.jobs[t].rid)] == t
  }

  predicate Unsent(s: State, rid: string, t: Thread) {
    t in s.jobs && s.jobs[t].rid == rid && s.jobs[t].stage.Stored?
  }

  /** What was sent is what was inserted, but for the one that is about to be sent. */
  ghost predicate Streamed(s: State, rid: string) {
    && (forall t :: Unsent(s, rid, t) ==> Inserted(s.items, rid) == Announced(s.sent, rid) + [s.jobs[t].stage.news])
    && ((forall t :: t in s.jobs ==> !Unsent(s, rid, t)) ==> Inserted(s.items, rid) == Announced(s.sent, rid))
  }

  ghost predicate Inv(s: State) {
    && Numbered(s) && KeysDiffer(s) && Exclusive(s)
    && forall rid :: Streamed(s, rid)
  }

  lemma NobodyUnsent(s: State, rid: string, t: Thread)
    requires Exclusive(s) && t in s.jobs && s.jobs[t].stage != Waiting && !Unsent(s, rid, t) && s.jobs[t].rid == rid
    ensures forall u :: u in s.jobs ==> !Unsent(s, rid, u)
  {
    forall u | u in s.jobs ensures !Unsent(s, rid, u) {
      assert s.jobs[t].rid == rid;
    }
  }

  lemma FreeMeansNobodyUnsent(s: State, rid: string)
    requires Exclusive(s) && s.stripe(rid) !in s.locks
    ensures forall u :: u in s.jobs ==> !Unsent(s, rid, u)
  {
  }

  lemma {:induction false} MarkOneKeeps(items: seq<Note>, rid: string, id: string)
    ensures var r := MarkOne(items, rid, id);
            && |r| == |items|
            && (forall i :: 0 <= i < |r| ==> r[i].rid == items[i].rid && r[i].alert == items[i].alert)
            && (forall i :: 0 <= i < |r| && items[i].rid != rid ==> r[i] == items[i])
  {
    if items != [] {
      MarkOneKeeps(items[1..], rid, id);
    }
  }

  lemma {:induction false} MarkUpToKeeps(items: seq<Note>, rid: string, upTo: int)
    ensures var r := MarkUpTo(items, rid, upTo);
            && |r| == |items|
            && (forall i :: 0 <= i < |r| ==> r[i].rid == items[i].rid && r[i].alert == items[i].alert)
            && (forall i :: 0 <= i < |r| && items[i].rid != rid ==> r[i] == items[i])
  {
    if items != [] {
      MarkUpToKeeps(Front(items), rid, upTo);
    }
  }

  /** Marking one restaurant's notifications changes no other's, and nothing but the marks. */
  ghost predicate OnlyMarks(items: seq<Note>, marked: seq<Note>, rid: string) {
    && |marked| == |items|
    && (forall i :: 0 <= i < |items| ==> marked[i].rid == items[i].rid && marked[i].alert == items[i].alert)
    && (forall i :: 0 <= i < |items| && items[i].rid != rid ==> marked[i] == items[i])
  }

  lemma {:induction false} MarksInsertNothing(items: seq<Note>, marked: seq<Note>, rid: string, q: string)
    requires OnlyMarks(items, marked, rid)
    ensures Inserted(marked, q) == Inserted(items, q)
    ensures q != rid ==> UnreadOf(marked, q) == UnreadOf(items, q)
    decreases |items|
  {
    if items != [] {
      MarksInsertNothing(Front(items), Front(marked), rid, q);
    }
  }

  lemma MarkedKeeps(s: State, rid: string, items: seq<Note>, counted: bool, q: string)
    requires Exclusive(s) && Streamed(s, q) && s.stripe(rid) !in s.locks && OnlyMarks(s.items, items, rid)
    ensures Streamed(Marked(s, rid, items, counted), q)
  {
    var t := Marked(s, rid, items, counted);
    FreeMeansNobodyUnsent(s, rid);
    MarksInsertNothing(s.items, items, rid, q);
    if items != s.items && counted {
      assert Front(t.sent) == s.sent;
    }
    assert forall u :: Unsent(t, q, u) <==> Unsent(s, q, u);
  }

  lemma MarkedKeepsRest(s: State, rid: string, items: seq<Note>, counted: bool)
    requires Numbered(s) && KeysDiffer(s) && Exclusive(s) && OnlyMarks(s.items, items, rid)
    ensures var t := Marked(s, rid, items, counted); Numbered(t) && KeysDiffer(t) && Exclusive(t)
  {
  }

  lemma MoveKeeps(s: State, t: Thread, stage: Stage, q: string)
    requires t in s.jobs && !s.jobs[t].stage.Stored? && !stage.Stored? && Streamed(s, q)
    ensures Streamed(Move(s, t, stage), q)
  {
    var s' := Move(s, t, stage);
    assert forall u :: Unsent(s', q, u) <==> Unsent(s, q, u);
  }

  lemma InsertKeeps(s: State, t: Thread, gap: nat, q: string)
    requires At(s, t, Locked) && Exclusive(s) && Streamed(s, q) && !Known(s.items, s.jobs[t].rid, s.jobs[t].key)
    ensures Streamed(DoInsert(s, t, gap, false), q)
  {
    var s' := DoInsert(s, t, gap, false);
    var rid := s.jobs[t].rid;
    assert Front(s'.items) == s.items;
    if q == rid {
      NobodyUnsent(s, rid, t);
      assert Unsent(s', q, t);
      assert forall u :: Unsent(s', q, u) ==> u == t;
    } else {
      assert forall u :: Unsent(s', q, u) <==> Unsent(s, q, u);
    }
  }

  lemma InsertKeepsRest(s: State, t: Thread, gap: nat, fails: bool)
    requires At(s, t, Locked) && Numbered(s) && KeysDiffer(s) && Exclusive(s)
    ensures var s' := DoInsert(s, t, gap, fails); Numbered(s') && KeysDiffer(s') && Exclusive(s')
  {
  }

  lemma SendKeeps(s: State, t: Thread, counted: bool, q: string)
    requires t in s.jobs && s.jobs[t].stage.Stored? && Exclusive(s) && Streamed(s, q)
    ensures Streamed(DoSend(s, t, counted), q)
  {
    var s' := DoSend(s, t, counted);
    var rid := s.jobs[t].rid;
    assert Front(s'.sent) == s.sent;
    if q == rid {
      assert Unsent(s, q, t);
      forall u | u in s'.jobs ensures !Unsent(s', q, u) {
        assert u != t ==> s'.jobs[u] == s.jobs[u];
      }
    } else {
      assert forall u :: Unsent(s', q, u) <==> Unsent(s, q, u);
    }
  }

  lemma SameJobsKeep(s: State, s': State, q: string)
    requires s'.items == s.items && s'.sent == s.sent && Streamed(s, q)
    requires forall u :: Unsent(s', q, u) <==> Unsent(s, q, u)
    requires forall u :: Unsent(s, q, u) ==> u in s'.jobs && s'.jobs[u] == s.jobs[u]
    ensures Streamed(s', q)
  {
    assert (forall u :: u in s.jobs ==> !Unsent(s, q, u)) <==> (forall u :: u in s'.jobs ==> !Unsent(s', q, u));
  }

  lemma PublishKeeps(s: State, t: Thread, rid: string, id: string, key: string)
    requires Inv(s) && t !in s.jobs
    ensures Inv(Apply(s, Publish(t, rid, id, key)))
  {
    forall q ensures Streamed(Apply(s, Publish(t, rid, id, key)), q) { SameJobsKeep(s, Apply(s, Publish(t, rid, id, key)), q); }
  }

  lemma LockKeeps(s: State, t: Thread)
    requires Inv(s) && Enabled(s, Lock(t))
    ensures Inv(Apply(s, Lock(t)))
  {
    forall q ensures Streamed(Apply(s, Lock(t)), q) { SameJobsKeep(s, Apply(s, Lock(t)), q); }
  }

  lemma UnlockKeeps(s: State, t: Thread)
    requires Inv(s) && Enabled(s, Unlock(t))
    ensures Inv(Apply(s, Unlock(t)))
  {
    forall q ensures Streamed(Apply(s, Unlock(t)), q) { SameJobsKeep(s, Apply(s, Unlock(t)), q); }
  }

  lemma InsertStep(s: State, t: Thread, gap: nat, fails: bool)
    requires Inv(s) && At(s, t, Locked)
    ensures Inv(DoInsert(s, t, gap, fails))
  {
    InsertKeepsRest(s, t, gap, fails);
    forall q ensures Streamed(DoInsert(s, t, gap, fails), q) {
      if fails || Known(s.items, s.jobs[t].rid, s.jobs[t].key) {
        MoveKeeps(s, t, Closing, q);
      } else {
        InsertKeeps(s, t, gap, q);
      }
    }
  }

  lemma SendStep(s: State, t: Thread, counted: bool)
    requires Inv(s) && Enabled(s, Send(t, counted))
    ensures Inv(DoSend(s, t, counted))
  {
    forall q ensures Streamed(DoSend(s, t, counted), q) { SendKeeps(s, t, counted, q); }
  }

  lemma MarkStep(s: State, rid: string, items: seq<Note>, counted: bool)
    requires Inv(s) && s.stripe(rid) !in s.locks && OnlyMarks(s.items, items, rid)
    ensures Inv(Marked(s, rid, items, counted))
  {
    MarkedKeepsRest(s, rid, items, counted);
    forall q ensures Streamed(Marked(s, rid, items, counted), q) { MarkedKeeps(s, rid, items, counted, q); }
  }

  lemma StepKeepsInv(s: State, e: Event)
    requires Inv(s) && Enabled(s, e)
    ensures Inv(Apply(s, e))
  {
    match e {
      case Publish(t, rid, id, key) => PublishKeeps(s, t, rid, id, key);
      case Lock(t) => LockKeeps(s, t);
      case Insert(t, gap, fails) => InsertStep(s, t, gap, fails);
      case Send(t, counted) => SendStep(s, t, counted);
      case Unlock(t) => UnlockKeeps(s, t);
      case MarkRead(rid, id, counted) =>
        MarkOneKeeps(s.items, rid, id);
        MarkStep(s, rid, MarkOne(s.items, rid, id), counted);
      case MarkAllRead(rid, upTo, counted) =>
        MarkUpToKeeps(s.items, rid, upTo);
        MarkStep(s, rid, MarkUpTo(s.items, rid, upTo), counted);
    }
  }

  lemma {:induction false} RunKeepsInv(s: State, es: seq<Event>)
    requires Inv(s) && ValidRun(s, es)
    ensures Inv(Exec(s, es))
    decreases |es|
  {
    if es != [] {
      StepKeepsInv(s, es[0]);
      RunKeepsInv(Apply(s, es[0]), es[1..]);
    }
  }

  lemma ReachableInv(s: State)
    requires Reachable(s)
    ensures Inv(s)
  {
    var stripe, es :| ValidRun(Init(stripe), es) && Exec(Init(stripe), es) == s;
    RunKeepsInv(Init(stripe), es);
  }

  // ----- The order of the stream -----

  ghost predicate Increasing(alerts: seq<Alert>) {
    forall i, j :: 0 <= i < j < |alerts| ==> alerts[i].seq_ < alerts[j].seq_
  }

  ghost predicate Prefix<T(!new)>(a: seq<T>, b: seq<T>) { |a| <= |b| && a == b[..|a|] }

  lemma {:induction false} InsertedAreItems(items: seq<Note>, rid: string, i: nat) returns (k: nat)
    requires i < |Inserted(items, rid)|
    ensures k < |items| && items[k].rid == rid && items[k].alert == Inserted(items, rid)[i]
    decreases |items|
  {
    if i < |Inserted(Front(items), rid)| {
      k := InsertedAreItems(Front(items), rid, i);
    } else {
      k := |items| - 1;
    }
  }

  lemma {:induction false} InsertedInOrder(items: seq<Note>, rid: string)
    requires forall i, j :: 0 <= i < j < |items| ==> items[i].alert.seq_ < items[j].alert.seq_
    requires forall i :: 0 <= i < |items| ==> 0 < items[i].alert.seq_
    ensures Increasing(Inserted(items, rid))
    ensures forall i :: 0 <= i < |Inserted(items, rid)| ==> 0 < Inserted(items, rid)[i].seq_
    decreases |items|
  {
    if items != [] {
      var before := Inserted(Front(items), rid);
      InsertedInOrder(Front(items), rid);
      forall i | 0 <= i < |before| ensures before[i].seq_ < Last(items).alert.seq_ {
        var k := InsertedAreItems(Front(items), rid, i);
      }
    }
  }

  lemma {:induction false} InsertedKeysDiffer(items: seq<Note>, rid: string)
    requires forall i, j :: 0 <= i < j < |items| && items[i].rid == items[j].rid ==> items[i].alert.key != items[j].alert.key
    ensures forall i, j :: 0 <= i < j < |Inserted(items, rid)| ==> Inserted(items, rid)[i].key != Inserted(items, rid)[j].key
    decreases |items|
  {
    if items != [] {
      var before := Inserted(Front(items), rid);
      InsertedKeysDiffer(Front(items), rid);
      forall i | 0 <= i < |before| && Last(items).rid == rid ensures before[i].key != Last(items).alert.key {
        var k := InsertedAreItems(Front(items), rid, i);
      }
    }
  }

  /** New notifications are sent in the order in which they were inserted, which is that of their numbers;
      each event is there once; and whenever nobody is between inserting and sending, all were sent. */
  lemma SentAsInserted(s: State, rid: string)
    requires Reachable(s)
    ensures Increasing(Inserted(s.items, rid))
    ensures forall i, j :: 0 <= i < j < |Inserted(s.items, rid)| ==> Inserted(s.items, rid)[i].key != Inserted(s.items, rid)[j].key
    ensures Prefix(Announced(s.sent, rid), Inserted(s.items, rid))
    ensures |Inserted(s.items, rid)| <= |Announced(s.sent, rid)| + 1
    ensures (forall t :: t in s.jobs ==> !Unsent(s, rid, t)) ==> Announced(s.sent, rid) == Inserted(s.items, rid)
  {
    ReachableInv(s);
    InsertedInOrder(s.items, rid);
    InsertedKeysDiffer(s.items, rid);
    assert Streamed(s, rid);
    if t :| t in s.jobs && Unsent(s, rid, t) {
      assert Inserted(s.items, rid) == Announced(s.sent, rid) + [s.jobs[t].stage.news];
    }
  }

  // ----- The number on the badge -----

  /** The event tells the restaurant's panels how many are unread. */
  predicate Tells(s: State, e: Event, rid: string)
    requires Enabled(s, e)
  {
    match e
    case Send(t, counted) => s.jobs[t].rid == rid && counted
    case MarkRead(r, _, counted) => r == rid && counted && Apply(s, e).items != s.items
    case MarkAllRead(r, _, counted) => r == rid && counted && Apply(s, e).items != s.items
    case _ => false
  }

  /** How many notifications of the restaurant the event stores, less those it marks as read. */
  function Change(s: State, e: Event, rid: string): int
    requires Enabled(s, e)
  {
    match e
    case Insert(t, gap, fails) =>
      if s.jobs[t].rid == rid && !fails && !Known(s.items, rid, s.jobs[t].key) then 1 else 0
    case MarkRead(r, id, _) =>
      if r == rid && HasUnread(s.items, rid, id) then -1 else 0
    case MarkAllRead(r, upTo, _) => if r == rid && upTo > 0 then 0 - Changed(s.items, rid, upTo) else 0
    case _ => 0
  }

  predicate IsUnread(n: Note, rid: string) { n.rid == rid && !n.read }

  /** What was stored and marked since the panels were last told a number. */
  ghost function Untold(s: State, es: seq<Event>, rid: string, before: int): int
    requires ValidRun(s, es)
    decreases |es|
  {
    if es == [] then before
    else Untold(Apply(s, es[0]), es[1..], rid, if Tells(s, es[0], rid) then 0 else before + Change(s, es[0], rid))
  }

  predicate HasUnread(items: seq<Note>, rid: string, id: string) {
    exists i :: 0 <= i < |items| && IsUnread(items[i], rid) && items[i].alert.id == id
  }

  lemma HasUnreadFromTheFront(items: seq<Note>, rid: string, id: string)
    requires items != []
    ensures HasUnread(items, rid, id) <==> (IsUnread(items[0], rid) && items[0].alert.id == id) || HasUnread(items[1..], rid, id)
  {
    var later := items[1..];
    if i :| 0 < i < |items| && IsUnread(items[i], rid) && items[i].alert.id == id {
      assert later[i - 1] == items[i];
    }
    assert forall i :: 0 <= i < |later| ==> later[i] == items[i + 1];
  }

  lemma {:induction false} MarkOneCounts(items: seq<Note>, rid: string, id: string, q: string)
    ensures UnreadOf(MarkOne(items, rid, id), q) == UnreadOf(items, q) - if q == rid && HasUnread(items, rid, id) then 1 else 0
  {
    if items != [] {
      MarkOneCounts(items[1..], rid, id, q);
      HasUnreadFromTheFront(items, rid, id);
      UnreadFromTheFront(items, q);
      var r := MarkOne(items, rid, id);
      UnreadFromTheFront(r, q);
      if !(IsUnread(items[0], rid) && items[0].alert.id == id) {
        assert r[1..] == MarkOne(items[1..], rid, id);
      }
    }
  }

  lemma {:induction false} UnreadFromTheFront(items: seq<Note>, rid: string)
    requires items != []
    ensures UnreadOf(items, rid) == UnreadOf(items[1..], rid) + if IsUnread(items[0], rid) then 1 else 0
    decreases |items|
  {
    if |items| > 1 {
      UnreadFromTheFront(Front(items), rid);
      assert Front(items)[1..] == Front(items[1..]);
    } else {
      assert items[1..] == [] && Front(items) == [];
    }
  }

  /** The change is what becomes of the number of unread ones. */
  lemma ChangeIsCounted(s: State, e: Event, rid: string)
    requires Enabled(s, e)
    ensures UnreadOf(Apply(s, e).items, rid) == UnreadOf(s.items, rid) + Change(s, e, rid)
  {
    match e {
      case Insert(t, gap, fails) =>
        var items := Apply(s, e).items;
        if items != s.items {
          assert Front(items) == s.items;
        }
      case MarkRead(r, id, _) => MarkOneCounts(s.items, r, id, rid);
      case MarkAllRead(r, upTo, _) =>
        if r == rid {
          MarksAreCounted(s.items, rid, upTo);
        } else {
          MarkUpToKeeps(s.items, r, upTo);
          MarksInsertNothing(s.items, MarkUpTo(s.items, r, upTo), r, rid);
        }
      case _ =>
    }
  }

  lemma BadgeAfter(s: State, e: Event, rid: string)
    requires Enabled(s, e)
    ensures Badge(Apply(s, e).sent, rid) ==
            if Tells(s, e, rid) then UnreadOf(Apply(s, e).items, rid) else Badge(s.sent, rid)
  {
    match e {
      case Send(t, counted) =>
        var unread := if counted then Some(UnreadOf(s.items, s.jobs[t].rid)) else None;
        BadgeOfOneMore(s.sent, Msg(s.jobs[t].rid, Some(s.jobs[t].stage.news), unread), rid);
      case MarkRead(r, id, counted) => BadgeAfterMarks(s, r, MarkOne(s.items, r, id), counted, rid);
      case MarkAllRead(r, upTo, counted) => BadgeAfterMarks(s, r, MarkUpTo(s.items, r, upTo), counted, rid);
      case _ =>
    }
  }

  lemma BadgeOfOneMore(sent: seq<Msg>, m: Msg, rid: string)
    ensures Badge(sent + [m], rid) == if m.rid == rid && m.unread.Some? then m.unread.value else Badge(sent, rid)
  {
    assert Front(sent + [m]) == sent;
  }

  lemma BadgeAfterMarks(s: State, r: string, items: seq<Note>, counted: bool, rid: string)
    ensures var t := Marked(s, r, items, counted);
            Badge(t.sent, rid) == if r == rid && counted && items != s.items then UnreadOf(items, rid) else Badge(s.sent, rid)
  {
    BadgeOfOneMore(s.sent, Msg(r, None, Some(UnreadOf(items, r))), rid);
  }

  lemma {:induction false} BadgeAlong(s: State, es: seq<Event>, rid: string, before: int)
    requires ValidRun(s, es) && UnreadOf(s.items, rid) == Badge(s.sent, rid) + before
    ensures UnreadOf(Exec(s, es).items, rid) == Badge(Exec(s, es).sent, rid) + Untold(s, es, rid, before)
    decreases |es|
  {
    if es != [] {
      ChangeIsCounted(s, es[0], rid);
      BadgeAfter(s, es[0], rid);
      BadgeAlong(Apply(s, es[0]), es[1..], rid, if Tells(s, es[0], rid) then 0 else before + Change(s, es[0], rid));
    }
  }

  /** The latest number of unread ones that the panels were told differs from the right one by exactly what
      was stored and marked since then without telling a number. */
  lemma BadgeIsRight(stripe: string -> nat, es: seq<Event>, rid: string)
    requires ValidRun(Init(stripe), es)
    ensures var s, untold := Exec(Init(stripe), es), Untold(Init(stripe), es, rid, 0);
            && UnreadOf(s.items, rid) == Badge(s.sent, rid) + untold
            && (Badge(s.sent, rid) == UnreadOf(s.items, rid) <==> untold == 0)
  {
    BadgeAlong(Init(stripe), es, rid, 0);
  }

  predicate Counting(e: Event) {
    (e.Send? || e.MarkRead? || e.MarkAllRead?) ==> e.counted
  }

  /** Nothing is untold but what is stored and about to be sent. */
  ghost predicate UpToDate(s: State, rid: string) {
    && ((forall t :: t in s.jobs ==> !Unsent(s, rid, t)) ==> UnreadOf(s.items, rid) == Badge(s.sent, rid))
    && ((exists t :: t in s.jobs && Unsent(s, rid, t)) ==> UnreadOf(s.items, rid) == Badge(s.sent, rid) + 1)
  }

  lemma CountingKeepsUpToDate(s: State, e: Event, rid: string)
    requires Enabled(s, e) && Inv(s) && UpToDate(s, rid) && Counting(e)
    ensures UpToDate(Apply(s, e), rid)
  {
    match e {
      case Insert(t, gap, fails) => InsertKeepsUpToDate(s, e, rid);
      case Send(t, _) => SendKeepsUpToDate(s, t, rid);
      case MarkRead(r, id, _) => MarkingKeepsUpToDate(s, e, r, rid);
      case MarkAllRead(r, upTo, _) => MarkingKeepsUpToDate(s, e, r, rid);
      case _ =>
        ChangeIsCounted(s, e, rid);
        BadgeAfter(s, e, rid);
        assert forall u :: Unsent(Apply(s, e), rid, u) <==> Unsent(s, rid, u);
    }
  }

  lemma InsertKeepsUpToDate(s: State, e: Event, rid: string)
    requires Enabled(s, e) && e.Insert? && Inv(s) && UpToDate(s, rid)
    ensures UpToDate(Apply(s, e), rid)
  {
    ChangeIsCounted(s, e, rid);
    BadgeAfter(s, e, rid);
    var s' := Apply(s, e);
    if s'.items != s.items && s.jobs[e.t].rid == rid {
      NobodyUnsent(s, rid, e.t);
      assert Unsent(s', rid, e.t);
    } else {
      NoNewUnsent(s, e, rid);
    }
  }

  lemma NoNewUnsent(s: State, e: Event, rid: string)
    requires Enabled(s, e) && e.Insert? && (Apply(s, e).items == s.items || s.jobs[e.t].rid != rid)
    ensures forall u :: Unsent(Apply(s, e), rid, u) <==> Unsent(s, rid, u)
  {
    var job := s.jobs[e.t];
    if !(e.fails || Known(s.items, job.rid, job.key)) {
      assert |Apply(s, e).items| == |s.items| + 1;
    }
  }

  lemma SendKeepsUpToDate(s: State, t: Thread, rid: string)
    requires Enabled(s, Send(t, true)) && Inv(s) && UpToDate(s, rid)
    ensures UpToDate(Apply(s, Send(t, true)), rid)
  {
    var s' := Apply(s, Send(t, true));
    BadgeAfter(s, Send(t, true), rid);
    if s.jobs[t].rid == rid {
      forall u | u in s'.jobs ensures !Unsent(s', rid, u) {
        assert u != t ==> s'.jobs[u] == s.jobs[u];
      }
    } else {
      assert forall u :: Unsent(s', rid, u) <==> Unsent(s, rid, u);
    }
  }

  lemma MarkingKeepsUpToDate(s: State, e: Event, r: string, rid: string)
    requires Enabled(s, e) && Inv(s) && UpToDate(s, rid) && Counting(e)
    requires (e.MarkRead? || e.MarkAllRead?) && e.rid == r
    ensures UpToDate(Apply(s, e), rid)
  {
    ChangeIsCounted(s, e, rid);
    BadgeAfter(s, e, rid);
    FreeMeansNobodyUnsent(s, r);
    assert forall u :: Unsent(Apply(s, e), rid, u) <==> Unsent(s, rid, u);
  }

  /** As long as the counting works, the number is right whenever nothing is about to be sent. */
  lemma {:induction false} CountingKeepsBadgeRight(s: State, es: seq<Event>, rid: string)
    requires ValidRun(s, es) && Inv(s) && UpToDate(s, rid) && forall i :: 0 <= i < |es| ==> Counting(es[i])
    ensures UpToDate(Exec(s, es), rid)
    decreases |es|
  {
    if es != [] {
      StepKeepsInv(s, es[0]);
      CountingKeepsUpToDate(s, es[0], rid);
      CountingKeepsBadgeRight(Apply(s, es[0]), es[1..], rid);
    }
  }

  /** Exactly those up to the number that the panel has seen become read. */
  lemma {:induction false} ReadUpTo(items: seq<Note>, rid: string, upTo: int, i: nat)
    requires i < |items|
    ensures |MarkUpTo(items, rid, upTo)| == |items|
    ensures MarkUpTo(items, rid, upTo)[i].read <==> items[i].read || (items[i].rid == rid && items[i].alert.seq_ <= upTo)
    decreases |items|
  {
    MarkUpToKeeps(Front(items), rid, upTo);
    if i < |items| - 1 {
      ReadUpTo(Front(items), rid, upTo, i);
    }
  }

  lemma InsertOnlyAdds(s: State, t: Thread, gap: nat, fails: bool, rid: string)
    requires At(s, t, Locked)
    ensures Prefix(Inserted(s.items, rid), Inserted(DoInsert(s, t, gap, fails).items, rid))
  {
    var items := DoInsert(s, t, gap, fails).items;
    if items != s.items {
      assert Front(items) == s.items;
    }
  }

  lemma MarkAddsNothing(s: State, r: string, items: seq<Note>, counted: bool, rid: string)
    requires OnlyMarks(s.items, items, r)
    ensures Inserted(Marked(s, r, items, counted).items, rid) == Inserted(s.items, rid)
  {
    MarksInsertNothing(s.items, items, r, rid);
  }

  lemma StepOnlyAdds(s: State, e: Event, rid: string)
    requires Enabled(s, e)
    ensures Prefix(Inserted(s.items, rid), Inserted(Apply(s, e).items, rid))
  {
    match e {
      case Insert(t, gap, fails) => InsertOnlyAdds(s, t, gap, fails, rid);
      case MarkRead(r, id, counted) =>
        MarkOneKeeps(s.items, r, id);
        MarkAddsNothing(s, r, MarkOne(s.items, r, id), counted, rid);
      case MarkAllRead(r, upTo, counted) =>
        MarkUpToKeeps(s.items, r, upTo);
        MarkAddsNothing(s, r, MarkUpTo(s.items, r, upTo), counted, rid);
      case _ =>
    }
  }

  lemma {:induction false} RunOnlyAdds(s: State, es: seq<Event>, rid: string)
    requires ValidRun(s, es)
    ensures Prefix(Inserted(s.items, rid), Inserted(Exec(s, es).items, rid))
    decreases |es|
  {
    if es != [] {
      StepOnlyAdds(s, es[0], rid);
      RunOnlyAdds(Apply(s, es[0]), es[1..], rid);
    }
  }

  // ----- Pages -----

  ghost predicate Rising(notes: seq<Note>) {
    forall i, j :: 0 <= i < j < |notes| ==> notes[i].alert.seq_ < notes[j].alert.seq_
  }

  /** The store's numbers start from 1 and rise. */
  ghost predicate InOrder(items: seq<Note>) {
    Rising(items) && forall i :: 0 <= i < |items| ==> 0 < items[i].alert.seq_
  }

  lemma {:induction false} OldestFirst(notes: seq<Note>)
    requires Rising(notes)
    ensures Sorting.SortStable(notes, Older) == notes
  {
    if notes != [] {
      OldestFirst(notes[1..]);
      assert notes == [notes[0]] + notes[1..];
    }
  }

  function Reverse<T>(xs: seq<T>): seq<T> { if xs == [] then [] else Reverse(xs[1..]) + [xs[0]] }

  lemma {:induction false} InsertOldest(x: Note, notes: seq<Note>)
    requires forall n :: n in notes ==> x.alert.seq_ < n.alert.seq_
    ensures Sorting.Insert(x, notes, Newer) == notes + [x]
  {
    if notes != [] {
      InsertOldest(x, notes[1..]);
    }
  }

  lemma {:induction false} NewestFirst(notes: seq<Note>)
    requires Rising(notes)
    ensures Sorting.SortStable(notes, Newer) == Reverse(notes)
    ensures forall n :: n in Reverse(notes) ==> n in notes
  {
    if notes != [] {
      NewestFirst(notes[1..]);
      InsertOldest(notes[0], Reverse(notes[1..]));
    }
  }

  lemma {:induction false} OfAreItems(items: seq<Note>, rid: string, after: nat, i: nat) returns (k: nat)
    requires i < |Of(items, rid, after)|
    ensures k < |items| && items[k] == Of(items, rid, after)[i]
    decreases |items|
  {
    if i < |Of(Front(items), rid, after)| {
      k := OfAreItems(Front(items), rid, after, i);
    } else {
      k := |items| - 1;
    }
  }

  lemma {:induction false} OfRises(items: seq<Note>, rid: string, after: nat)
    requires Rising(items)
    ensures Rising(Of(items, rid, after))
    decreases |items|
  {
    if items != [] {
      var before := Of(Front(items), rid, after);
      OfRises(Front(items), rid, after);
      forall i | 0 <= i < |before| ensures before[i].alert.seq_ < Last(items).alert.seq_ {
        var k := OfAreItems(Front(items), rid, after, i);
      }
    }
  }

  /** Those after a number. */
  function Beyond(alerts: seq<Alert>, after: nat): seq<Alert> {
    if alerts == [] then []
    else if after > 0 && Last(alerts).seq_ <= after then Beyond(Front(alerts), after)
    else Beyond(Front(alerts), after) + [Last(alerts)]
  }

  lemma ContentsOfOneMore(notes: seq<Note>, n: Note)
    ensures Contents(notes + [n]) == Contents(notes) + [n.alert]
  {
    assert Front(notes + [n]) == notes;
  }

  lemma BeyondOneMore(alerts: seq<Alert>, a: Alert, after: nat)
    ensures Beyond(alerts + [a], after) ==
            if after > 0 && a.seq_ <= after then Beyond(alerts, after) else Beyond(alerts, after) + [a]
  {
    assert Front(alerts + [a]) == alerts;
  }

  lemma {:induction false} OfIsBeyond(items: seq<Note>, rid: string, after: nat)
    ensures Contents(Of(items, rid, after)) == Beyond(Inserted(items, rid), after)
    decreases |items|
  {
    if items != [] {
      OfIsBeyond(Front(items), rid, after);
      var before, earlier := Of(Front(items), rid, after), Inserted(Front(items), rid);
      if Matches(Last(items), rid, after) {
        ContentsOfOneMore(before, Last(items));
        BeyondOneMore(earlier, Last(items).alert, after);
      } else if Last(items).rid == rid {
        BeyondOneMore(earlier, Last(items).alert, after);
      }
    }
  }

  lemma {:induction false} BeyondReceived(alerts: seq<Alert>, k: nat)
    requires Increasing(alerts) && 0 < k <= |alerts| && alerts[k - 1].seq_ > 0
    ensures Beyond(alerts, alerts[k - 1].seq_) == alerts[k..]
    decreases |alerts|
  {
    var front := Front(alerts);
    if k < |alerts| {
      BeyondReceived(front, k);
      assert front[k..] + [Last(alerts)] == alerts[k..];
    } else {
      BeyondNothing(front, Last(alerts).seq_);
    }
  }

  lemma {:induction false} BeyondNothing(alerts: seq<Alert>, after: nat)
    requires after > 0 && forall i :: 0 <= i < |alerts| ==> alerts[i].seq_ <= after
    ensures Beyond(alerts, after) == []
  {
    if alerts != [] {
      BeyondNothing(Front(alerts), after);
    }
  }

  lemma {:induction false} BeyondZero(alerts: seq<Alert>)
    ensures Beyond(alerts, 0) == alerts
    decreases |alerts|
  {
    if alerts != [] {
      BeyondZero(Front(alerts));
      FrontAndLast(alerts);
    }
  }

  lemma {:induction false} ContentsOfTake(notes: seq<Note>, n: nat)
    ensures Contents(Take(notes, n)) == Take(Contents(notes), n)
  {
  }

  function Min(a: int, b: int): int { if a <= b then a else b }

  lemma PageIsNext(items: seq<Note>, rid: string, after: nat, limit: int)
    requires Rising(items) && after > 0
    ensures Contents(List(items, rid, after, limit)) == Take(Beyond(Inserted(items, rid), after), ClampLimit(limit))
  {
    OfRises(items, rid, after);
    OldestFirst(Of(items, rid, after));
    OfIsBeyond(items, rid, after);
    ContentsOfTake(Of(items, rid, after), ClampLimit(limit));
  }

  lemma TakeMore<T>(xs: seq<T>, k: nat, n: nat)
    requires k <= |xs|
    ensures xs[..k] + Take(xs[k..], n) == xs[..Min(|xs|, k + n)]
  {
  }

  /** One page after the first k: exactly the next ones. */
  lemma NextPage(items: seq<Note>, rid: string, k: nat, limit: int)
    requires InOrder(items)
    requires 0 < k <= |Inserted(items, rid)|
    ensures var all := Inserted(items, rid);
            all[..k] + Contents(List(items, rid, all[k - 1].seq_, limit)) == all[..Min(|all|, k + ClampLimit(limit))]
  {
    var all := Inserted(items, rid);
    InsertedInOrder(items, rid);
    PageIsNext(items, rid, all[k - 1].seq_, limit);
    BeyondReceived(all, k);
    TakeMore(all, k, ClampLimit(limit));
  }

  /** What a panel has after it asked for what is after what it had. */
  function WithNextPage(items: seq<Note>, rid: string, got: seq<Alert>, limit: int): seq<Alert> {
    got + Contents(List(items, rid, if got == [] then 0 else Last(got).seq_, limit))
  }

  lemma OnePage(items: seq<Note>, rid: string, all: seq<Alert>, k: nat, limit: int)
    requires InOrder(items) && all == Inserted(items, rid) && 0 < k <= |all|
    ensures WithNextPage(items, rid, all[..k], limit) == all[..Min(|all|, k + ClampLimit(limit))]
  {
    NextPage(items, rid, k, limit);
    assert Last(all[..k]) == all[k - 1];
  }

  /** Several runs, one after the other. */
  ghost predicate ValidRuns(s: State, runs: seq<seq<Event>>)
    decreases |runs|, 0
  {
    runs == [] || (ValidRuns(s, Front(runs)) && ValidRun(After(s, Front(runs)), Last(runs)))
  }

  ghost function After(s: State, runs: seq<seq<Event>>): State
    requires ValidRuns(s, runs)
    decreases |runs|, 1
  {
    if runs == [] then s else Exec(After(s, Front(runs)), Last(runs))
  }

  /** What a panel has that asks for a page at the end of each run, after the last number it has then. */
  ghost function CatchUp(s: State, runs: seq<seq<Event>>, rid: string, got: seq<Alert>, limit: int): seq<Alert>
    requires ValidRuns(s, runs)
    decreases |runs|
  {
    if runs == [] then got
    else WithNextPage(After(s, runs).items, rid, CatchUp(s, Front(runs), rid, got, limit), limit)
  }

  /** Each page is as full as there were notifications for it when it was asked for. */
  ghost function Reached(s: State, runs: seq<seq<Event>>, rid: string, k: nat, limit: int): nat
    requires ValidRuns(s, runs)
    decreases |runs|
  {
    if runs == [] then k
    else Min(|Inserted(After(s, runs).items, rid)|, Reached(s, Front(runs), rid, k, limit) + ClampLimit(limit))
  }

  lemma {:induction false} AfterKeepsInv(s: State, runs: seq<seq<Event>>, rid: string)
    requires Inv(s) && ValidRuns(s, runs)
    ensures Inv(After(s, runs)) && Prefix(Inserted(s.items, rid), Inserted(After(s, runs).items, rid))
    decreases |runs|
  {
    if runs != [] {
      AfterKeepsInv(s, Front(runs), rid);
      RunKeepsInv(After(s, Front(runs)), Last(runs));
      RunOnlyAdds(After(s, Front(runs)), Last(runs), rid);
    }
  }

  lemma {:induction false} PagesReach(s: State, runs: seq<seq<Event>>, rid: string, k: nat, limit: int)
    requires Inv(s) && ValidRuns(s, runs) && 0 < k <= |Inserted(s.items, rid)|
    ensures var all, m := Inserted(After(s, runs).items, rid), Reached(s, runs, rid, k, limit);
            0 < m <= |all| && CatchUp(s, runs, rid, Inserted(s.items, rid)[..k], limit) == all[..m]
    decreases |runs|
  {
    if runs != [] {
      var before, now := After(s, Front(runs)), After(s, runs);
      PagesReach(s, Front(runs), rid, k, limit);
      AfterKeepsInv(s, Front(runs), rid);
      AfterKeepsInv(s, runs, rid);
      RunOnlyAdds(before, Last(runs), rid);
      var m := Reached(s, Front(runs), rid, k, limit);
      PrefixOfBoth(Inserted(before.items, rid), Inserted(now.items, rid), m);
      OnePage(now.items, rid, Inserted(now.items, rid), m, limit);
    }
  }

  lemma PrefixOfBoth(a: seq<Alert>, b: seq<Alert>, m: nat)
    requires Prefix(a, b) && m <= |a|
    ensures a[..m] == b[..m]
  {
  }

  lemma {:induction false} PagesReachFar(s: State, runs: seq<seq<Event>>, rid: string, k: nat, limit: int)
    requires Inv(s) && ValidRuns(s, runs) && k <= |Inserted(s.items, rid)|
    ensures Reached(s, runs, rid, k, limit) >= Min(|Inserted(s.items, rid)|, k + |runs| * ClampLimit(limit))
    decreases |runs|
  {
    if runs != [] {
      PagesReachFar(s, Front(runs), rid, k, limit);
      AfterKeepsInv(s, runs, rid);
      assert (|runs| - 1) * ClampLimit(limit) + ClampLimit(limit) == |runs| * ClampLimit(limit);
    }
  }

  /** Resuming leaves no gap: a panel that received any nonempty part of the stream from its beginning, and
      later asks for pages, each after the last number it has then, has the beginning of the stream in order
      and nothing twice, whatever is published between its requests. After enough pages that is all there was
      when it began to ask; and unless the last page was full, it is all there is. */
  lemma ResumeWithoutGap(s: State, runs: seq<seq<Event>>, rid: string, k: nat, limit: int)
    requires Reachable(s) && ValidRuns(s, runs)
    requires 0 < k <= |Announced(s.sent, rid)|
    ensures var all, m := Inserted(After(s, runs).items, rid), Reached(s, runs, rid, k, limit);
            && m <= |all|
            && CatchUp(s, runs, rid, Announced(s.sent, rid)[..k], limit) == all[..m]
            && m >= Min(|Inserted(s.items, rid)|, k + |runs| * ClampLimit(limit))
            && (runs != [] && m < Reached(s, Front(runs), rid, k, limit) + ClampLimit(limit) ==> m == |all|)
  {
    SentAsInserted(s, rid);
    ReachableInv(s);
    assert Announced(s.sent, rid)[..k] == Inserted(s.items, rid)[..k];
    PagesReach(s, runs, rid, k, limit);
    PagesReachFar(s, runs, rid, k, limit);
  }

  lemma {:induction false} ReverseOf<T>(xs: seq<T>)
    ensures |Reverse(xs)| == |xs| && forall i :: 0 <= i < |xs| ==> Reverse(xs)[i] == xs[|xs| - 1 - i]
  {
    if xs != [] {
      ReverseOf(xs[1..]);
    }
  }

  /** A panel that received nothing asks after 0, and that is no number to be after: it gets the newest
      page, newest first, and nothing is after the newest. It misses some exactly if there are more than
      fit on the page. */
  lemma ResumeFromNothing(items: seq<Note>, rid: string, limit: int)
    requires InOrder(items)
    ensures var all, page := Inserted(items, rid), Contents(List(items, rid, 0, limit));
            && |page| == Min(|all|, ClampLimit(limit))
            && (forall i :: 0 <= i < |page| ==> page[i] == all[|all| - 1 - i])
            && (all != [] ==> List(items, rid, Last(all).seq_, limit) == [])
            && ((exists a :: a in all && a !in page) <==> |all| > ClampLimit(limit))
  {
    var all, page := Inserted(items, rid), Contents(List(items, rid, 0, limit));
    FirstPage(items, rid, limit);
    InsertedInOrder(items, rid);
    FirstPageMisses(all, page, ClampLimit(limit));
    if all != [] {
      NothingAfterTheNewest(items, rid, limit);
    }
  }

  lemma ZeroListsTheNewest(items: seq<Note>, rid: string, limit: int)
    requires Rising(items)
    ensures List(items, rid, 0, limit) == Take(Reverse(Of(items, rid, 0)), ClampLimit(limit))
  {
    OfRises(items, rid, 0);
    NewestFirst(Of(items, rid, 0));
  }

  lemma FirstPage(items: seq<Note>, rid: string, limit: int)
    requires Rising(items)
    ensures var all, page := Inserted(items, rid), Contents(List(items, rid, 0, limit));
            |page| == Min(|all|, ClampLimit(limit)) && forall i :: 0 <= i < |page| ==> page[i] == all[|all| - 1 - i]
  {
    ZeroListsTheNewest(items, rid, limit);
    OfIsBeyond(items, rid, 0);
    BeyondZero(Inserted(items, rid));
    NewestOf(Of(items, rid, 0), ClampLimit(limit));
  }

  lemma NewestOf(notes: seq<Note>, n: nat)
    ensures var all, page := Contents(notes), Contents(Take(Reverse(notes), n));
            |page| == Min(|all|, n) && forall i :: 0 <= i < |page| ==> page[i] == all[|all| - 1 - i]
  {
    ReverseOf(notes);
    ContentsFromTheEnd(notes, Take(Reverse(notes), n));
  }

  lemma ContentsFromTheEnd(notes: seq<Note>, taken: seq<Note>)
    requires |taken| <= |notes| && forall i :: 0 <= i < |taken| ==> taken[i] == notes[|notes| - 1 - i]
    ensures forall i :: 0 <= i < |taken| ==> Contents(taken)[i] == Contents(notes)[|notes| - 1 - i]
  {
  }

  lemma NothingAfterTheNewest(items: seq<Note>, rid: string, limit: int)
    requires InOrder(items)
    requires Inserted(items, rid) != []
    ensures List(items, rid, Last(Inserted(items, rid)).seq_, limit) == []
  {
    var all := Inserted(items, rid);
    InsertedInOrder(items, rid);
    PageIsNext(items, rid, Last(all).seq_, limit);
    BeyondReceived(all, |all|);
    assert Contents(List(items, rid, Last(all).seq_, limit)) == [];
  }

  lemma FirstPageMisses(all: seq<Alert>, page: seq<Alert>, limit: nat)
    requires Increasing(all) && limit > 0 && |page| == Min(|all|, limit)
    requires forall i :: 0 <= i < |page| ==> page[i] == all[|all| - 1 - i]
    ensures (exists a :: a in all && a !in page) <==> |all| > limit
  {
    if |all| > limit {
      assert all[0] in all;
      assert all[0] !in page;
    } else {
      forall a | a in all ensures a in page {
        var i :| 0 <= i < |all| && all[i] == a;
        assert page[|all| - 1 - i] == a;
      }
    }
  }

  // ----- The store in memory -----

  lemma OneMoreItem(items: seq<Note>, i: nat)
    requires i < |items|
    ensures items[..i + 1] != [] && Front(items[..i + 1]) == items[..i] && Last(items[..i + 1]) == items[i]
  {
  }

  function Changed(items: seq<Note>, rid: string, upTo: int): nat {
    if items == [] then 0
    else Changed(Front(items), rid, upTo) +
         if Last(items).rid == rid && !Last(items).read && Last(items).alert.seq_ <= upTo then 1 else 0
  }

  /** The marks take exactly as many from the unread ones as they are said to change. */
  lemma {:induction false} MarksAreCounted(items: seq<Note>, rid: string, upTo: int)
    ensures UnreadOf(MarkUpTo(items, rid, upTo), rid) == UnreadOf(items, rid) - Changed(items, rid, upTo)
    ensures Changed(items, rid, upTo) > 0 <==> MarkUpTo(items, rid, upTo) != items
  {
    if items != [] {
      var r := MarkUpTo(items, rid, upTo);
      MarksAreCounted(Front(items), rid, upTo);
      MarkUpToKeeps(Front(items), rid, upTo);
      assert Front(r) == MarkUpTo(Front(items), rid, upTo);
      assert r == Front(r) + [Last(r)] && items == Front(items) + [Last(items)];
    }
  }

  /** The items when the first i have been looked at. */
  ghost function MarkedSoFar(items: seq<Note>, i: nat, rid: string, upTo: int): (r: seq<Note>)
    requires i <= |items|
    ensures |r| == |items|
    ensures i < |items| ==> r[i] == items[i]
  {
    MarkUpToKeeps(items[..i], rid, upTo);
    MarkUpTo(items[..i], rid, upTo) + items[i..]
  }

  lemma MarkNext(items: seq<Note>, i: nat, rid: string, upTo: int)
    requires i < |items|
    ensures var x := items[i];
            if x.rid == rid && !x.read && x.alert.seq_ <= upTo then
              && MarkedSoFar(items, i + 1, rid, upTo) == MarkedSoFar(items, i, rid, upTo)[i := x.(read := true)]
              && Changed(items[..i + 1], rid, upTo) == Changed(items[..i], rid, upTo) + 1
            else
              && MarkedSoFar(items, i + 1, rid, upTo) == MarkedSoFar(items, i, rid, upTo)
              && Changed(items[..i + 1], rid, upTo) == Changed(items[..i], rid, upTo)
  {
    var x := items[i];
    OneMoreItem(items, i);
    MarkUpToKeeps(items[..i], rid, upTo);
    var marked := if x.rid == rid && x.alert.seq_ <= upTo then x.(read := true) else x;
    assert MarkUpTo(items[..i + 1], rid, upTo) == MarkUpTo(items[..i], rid, upTo) + [marked];
    assert items[i..] == [x] + items[i + 1..];
    assert MarkedSoFar(items, i + 1, rid, upTo) == MarkedSoFar(items, i, rid, upTo)[i := marked];
  }

  /** What is left to do at an item: mark it and be done, or leave it and go on. */
  lemma MarkOneAt(items: seq<Note>, i: nat, rid: string, id: string)
    requires i < |items|
    ensures var left := items[..i] + MarkOne(items[i..], rid, id);
            if items[i].rid == rid && items[i].alert.id == id && !items[i].read
            then left == items[i := items[i].(read := true)]
            else left == items[..i + 1] + MarkOne(items[i + 1..], rid, id)
  {
    assert items[i..] == [items[i]] + items[i + 1..];
    assert items[..i + 1] == items[..i] + [items[i]];
  }

  class MemoryAlertStore {
    var counter: nat
    var items: seq<Note>

    constructor ()
      ensures counter == 0 && items == []
    {
      counter, items := 0, [];
    }

    method Insert(rid: string, id: string, key: string) returns (news: Option<Alert>)
      modifies this
      ensures Known(old(items), rid, key) ==> news == None && items == old(items) && counter == old(counter)
      ensures !Known(old(items), rid, key) ==>
                && counter == old(counter) + 1
                && news == Some(Alert(counter, id, key))
                && items == old(items) + [Note(rid, Alert(counter, id, key), false)]
    {
      for i := 0 to |items|
        invariant items == old(items) && counter == old(counter)
        invariant forall j :: 0 <= j < i ==> !(items[j].rid == rid && items[j].alert.key == key)
      {
        if items[i].rid == rid && items[i].alert.key == key {
          return None;
        }
      }
      counter := counter + 1;
      items := items + [Note(rid, Alert(counter, id, key), false)];
      return Some(Alert(counter, id, key));
    }

    method ListPage(rid: string, after: nat, limit: int) returns (page: seq<Note>)
      ensures page == List(items, rid, after, limit)
    {
      var out: seq<Note> := [];
      for i := 0 to |items|
        invariant out == Of(items[..i], rid, after)
      {
        OneMoreItem(items, i);
        if Matches(items[i], rid, after) {
          out := out + [items[i]];
        }
      }
      assert items[..|items|] == items;
      if after > 0 {
        out := Sorting.SortStable(out, Older);
      } else {
        out := Sorting.SortStable(out, Newer);
      }
      page := Take(out, ClampLimit(limit));
    }

    method UnreadCount(rid: string) returns (n: nat)
      ensures n == UnreadOf(items, rid)
    {
      n := 0;
      for i := 0 to |items|
        invariant n == UnreadOf(items[..i], rid)
      {
        OneMoreItem(items, i);
        if items[i].rid == rid && !items[i].read {
          n := n + 1;
        }
      }
      assert items[..|items|] == items;
    }

    method MarkRead(rid: string, id: string) returns (changed: bool)
      modifies this`items
      ensures items == MarkOne(old(items), rid, id)
      ensures changed <==> items != old(items)
    {
      for i := 0 to |items|
        invariant items == old(items)
        invariant MarkOne(items, rid, id) == items[..i] + MarkOne(items[i..], rid, id)
      {
        MarkOneAt(items, i, rid, id);
        if items[i].alert.id == id && items[i].rid == rid && !items[i].read {
          items := items[i := items[i].(read := true)];
          return true;
        }
      }
      assert items[..|items|] == items;
      return false;
    }

    method MarkAllRead(rid: string, upTo: int) returns (n: nat)
      modifies this`items
      ensures items == MarkUpTo(old(items), rid, upTo)
      ensures n == Changed(old(items), rid, upTo)
    {
      n := 0;
      ghost var was := items;
      for i := 0 to |items|
        invariant |items| == |was| && items == MarkedSoFar(was, i, rid, upTo)
        invariant n == Changed(was[..i], rid, upTo)
      {
        MarkNext(was, i, rid, upTo);
        if items[i].rid == rid && !items[i].read && items[i].alert.seq_ <= upTo {
          items := items[i := items[i].(read := true)];
          n := n + 1;
        }
      }
      assert was[..|items|] == was;
    }
  }
}
