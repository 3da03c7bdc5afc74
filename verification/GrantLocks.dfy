/** The reference-counted mutex per grant (grantLocks.lock, internal/agentapi/service.go). */
module GrantLocks {
  // `lock` is two steps (find or make the entry and count oneself in; take the entry's mutex) and so is
  // the function it returns (give the mutex back; count oneself out and drop an unused entry). The
  // protocol below interleaves these steps of any number of threads.

  import opened Outcomes

  type Thread = nat
  type EntryId = nat

  datatype Entry = Entry(ref: int, owner: Option<Thread>)

  datatype Stage = Waiting | Holding | Releasing

  /** A thread between its first and its last step, and the entry object it works with. */
  datatype Use = Use(id: string, entry: EntryId, stage: Stage)

  datatype State = State(table: map<string, EntryId>, entries: map<EntryId, Entry>, uses: map<Thread, Use>)

  datatype Event =
    | Join(t: Thread, id: string, spare: EntryId)
    | Acquire(t: Thread)
    | Unlock(t: Thread)
    | Leave(t: Thread)

  predicate Enabled(s: State, e: Event) {
    match e
    case Join(t, id, spare) => t !in s.uses && spare !in s.entries
    case Acquire(t) =>
      t in s.uses && s.uses[t].stage == Waiting && s.uses[t].entry in s.entries && s.entries[s.uses[t].entry].owner == None
    case Unlock(t) => t in s.uses && s.uses[t].stage == Holding && s.uses[t].entry in s.entries
    case Leave(t) => t in s.uses && s.uses[t].stage == Releasing && s.uses[t].entry in s.entries
  }

  function Apply(s: State, e: Event): State
    requires Enabled(s, e)
  {
    match e
    case Join(t, id, spare) => DoJoin(s, t, id, spare)
    case Acquire(t) => Move(s, t, Holding, Some(t))
    case Unlock(t) => Move(s, t, Releasing, None)
    case Leave(t) => DoLeave(s, t)
  }

  function DoJoin(s: State, t: Thread, id: string, spare: EntryId): State {
    if id in s.table && s.table[id] in s.entries then
      var x := s.table[id];
      s.(entries := s.entries[x := s.entries[x].(ref := s.entries[x].ref + 1)], uses := s.uses[t := Use(id, x, Waiting)])
    else
      State(s.table[id := spare], s.entries[spare := Entry(1, None)], s.uses[t := Use(id, spare, Waiting)])
  }

  function Move(s: State, t: Thread, stage: Stage, owner: Option<Thread>): State
    requires t in s.uses && s.uses[t].entry in s.entries
  {
    var u := s.uses[t];
    s.(uses := s.uses[t := u.(stage := stage)], entries := s.entries[u.entry := s.entries[u.entry].(owner := owner)])
  }

  function DoLeave(s: State, t: Thread): State
    requires Enabled(s, Leave(t))
  {
    var u := s.uses[t];
    var ref := s.entries[u.entry].ref - 1;
    State(if ref == 0 then s.table - {u.id} else s.table,
          s.entries[u.entry := s.entries[u.entry].(ref := ref)],
          s.uses - {t})
  }

  const Init := State(map[], map[], map[])

  ghost predicate ValidRun(s: State, es: seq<Event>)
    decreases |es|
  {
    es == [] || (Enabled(s, es[0]) && ValidRun(Apply(s, es[0]), es[1..]))
  }

  ghost function Exec(s: State, es: seq<Event>): State
    requires ValidRun(s, es)
    decreases |es|
  {
    if es == [] then s else Exec(Apply(s, es[0]), es[1..])
  }

  // ----- What every step keeps -----

  /** The threads that use an entry: they wait for it, hold it, or have yet to count themselves out. */
  function Users(s: State, x: EntryId): set<Thread> {
    set t | t in s.uses && s.uses[t].entry == x
  }

  /** Everybody who uses an id uses the entry that the table has for it. */
  ghost predicate Shared(s: State) {
    forall t :: t in s.uses ==> s.uses[t].id in s.table && s.table[s.uses[t].id] == s.uses[t].entry
  }

  ghost predicate Separate(s: State) {
    && (forall id :: id in s.table ==> s.table[id] in s.entries)
    && (forall a, b :: a in s.table && b in s.table && a != b ==> s.table[a] != s.table[b])
  }

  ghost predicate Counted(s: State) {
    forall x :: x in s.entries ==> s.entries[x].ref == |Users(s, x)|
  }

  /** An entry in the table is in use. */
  ghost predicate InUse(s: State) {
    forall id :: id in s.table && s.table[id] in s.entries ==> s.entries[s.table[id]].ref > 0
  }

  ghost predicate Owned(s: State) {
    && (forall t :: t in s.uses && s.uses[t].stage == Holding ==>
          s.uses[t].entry in s.entries && s.entries[s.uses[t].entry].owner == Some(t))
    && (forall x :: x in s.entries && s.entries[x].owner.Some? ==>
          var t := s.entries[x].owner.value; t in s.uses && s.uses[t].entry == x && s.uses[t].stage == Holding)
  }

  ghost predicate Wired(s: State) {
    Shared(s) && Separate(s) && Owned(s)
  }

  ghost predicate Inv(s: State) {
    Wired(s) && Counted(s) && InUse(s)
  }

  lemma UsersAfterJoin(s: State, t: Thread, id: string, spare: EntryId, x: EntryId)
    requires Enabled(s, Join(t, id, spare))
    ensures var s' := DoJoin(s, t, id, spare);
            Users(s', x) == if s'.uses[t].entry == x then Users(s, x) + {t} else Users(s, x)
    ensures t !in Users(s, x)
  {
  }

  lemma JoinWired(s: State, t: Thread, id: string, spare: EntryId)
    requires Enabled(s, Join(t, id, spare)) && Wired(s)
    ensures Wired(DoJoin(s, t, id, spare))
  {
    JoinShares(s, t, id, spare);
    JoinOwned(s, t, id, spare);
  }

  lemma JoinShares(s: State, t: Thread, id: string, spare: EntryId)
    requires Enabled(s, Join(t, id, spare)) && Wired(s)
    ensures Shared(DoJoin(s, t, id, spare)) && Separate(DoJoin(s, t, id, spare))
  {
  }

  lemma JoinOwned(s: State, t: Thread, id: string, spare: EntryId)
    requires Enabled(s, Join(t, id, spare)) && Wired(s)
    ensures Owned(DoJoin(s, t, id, spare))
  {
    var s' := DoJoin(s, t, id, spare);
    assert forall x :: x in s.entries ==> x in s'.entries && s'.entries[x].owner == s.entries[x].owner;
    assert forall u :: u in s.uses ==> u in s'.uses && s'.uses[u] == s.uses[u];
  }

  lemma JoinCounted(s: State, t: Thread, id: string, spare: EntryId)
    requires Enabled(s, Join(t, id, spare)) && Wired(s) && Counted(s)
    ensures Counted(DoJoin(s, t, id, spare))
  {
    var s' := DoJoin(s, t, id, spare);
    forall x | x in s'.entries ensures s'.entries[x].ref == |Users(s', x)| {
      UsersAfterJoin(s, t, id, spare, x);
      if x !in s.entries {
        assert Users(s, x) == {};
      }
    }
  }

  lemma KeepsJoin(s: State, t: Thread, id: string, spare: EntryId)
    requires Enabled(s, Join(t, id, spare)) && Inv(s)
    ensures Inv(DoJoin(s, t, id, spare))
  {
    JoinWired(s, t, id, spare);
    JoinCounted(s, t, id, spare);
    JoinInUse(s, t, id, spare);
  }

  lemma JoinInUse(s: State, t: Thread, id: string, spare: EntryId)
    requires Enabled(s, Join(t, id, spare)) && Separate(s) && InUse(s)
    ensures InUse(DoJoin(s, t, id, spare))
  {
  }

  lemma MoveWired(s: State, t: Thread, stage: Stage, owner: Option<Thread>)
    requires t in s.uses && s.uses[t].entry in s.entries && Wired(s)
    requires if stage == Holding then s.entries[s.uses[t].entry].owner == None && owner == Some(t)
             else s.uses[t].stage == Holding && owner == None
    ensures Wired(Move(s, t, stage, owner))
  {
    var s' := Move(s, t, stage, owner);
    assert Shared(s');
    assert Separate(s');
  }

  lemma MoveCounted(s: State, t: Thread, stage: Stage, owner: Option<Thread>)
    requires t in s.uses && s.uses[t].entry in s.entries && Counted(s)
    ensures Counted(Move(s, t, stage, owner))
  {
    var s' := Move(s, t, stage, owner);
    forall x | x in s'.entries ensures s'.entries[x].ref == |Users(s', x)| {
      assert Users(s', x) == Users(s, x);
    }
  }

  lemma MoveInUse(s: State, t: Thread, stage: Stage, owner: Option<Thread>)
    requires t in s.uses && s.uses[t].entry in s.entries && InUse(s)
    ensures InUse(Move(s, t, stage, owner))
  {
  }

  lemma KeepsMove(s: State, t: Thread, stage: Stage, owner: Option<Thread>)
    requires t in s.uses && s.uses[t].entry in s.entries && Inv(s)
    requires if stage == Holding then s.entries[s.uses[t].entry].owner == None && owner == Some(t)
             else s.uses[t].stage == Holding && owner == None
    ensures Inv(Move(s, t, stage, owner))
  {
    MoveWired(s, t, stage, owner);
    MoveCounted(s, t, stage, owner);
    MoveInUse(s, t, stage, owner);
  }

  /** With a count of one there is nobody else. */
  lemma LastUser(s: State, t: Thread, u: Thread)
    requires Counted(s) && t in s.uses && u in s.uses && s.uses[t].entry == s.uses[u].entry
    requires s.uses[t].entry in s.entries
    ensures s.entries[s.uses[t].entry].ref > 0
    ensures s.entries[s.uses[t].entry].ref == 1 ==> t == u
  {
    var a := Users(s, s.uses[t].entry);
    assert {t, u} <= a;
    if t != u {
      TwoUsers(a, t, u);
    }
    assert t in a;
  }

  lemma TwoUsers(a: set<Thread>, t: Thread, u: Thread)
    requires {t, u} <= a && t != u
    ensures |a| >= 2
  {
    assert a == {t, u} + (a - {t, u});
  }

  lemma LeaveShared(s: State, t: Thread)
    requires Enabled(s, Leave(t)) && Wired(s) && Counted(s)
    ensures Shared(DoLeave(s, t))
  {
    var s' := DoLeave(s, t);
    forall u | u in s'.uses ensures s'.uses[u].id in s'.table && s'.table[s'.uses[u].id] == s'.uses[u].entry {
      if s.uses[u].id == s.uses[t].id {
        LastUser(s, t, u);
      }
    }
  }

  lemma LeaveOwned(s: State, t: Thread)
    requires Enabled(s, Leave(t)) && Owned(s)
    ensures Owned(DoLeave(s, t))
  {
  }

  lemma LeaveCounted(s: State, t: Thread)
    requires Enabled(s, Leave(t)) && Counted(s)
    ensures Counted(DoLeave(s, t))
  {
    var s' := DoLeave(s, t);
    var x := s.uses[t].entry;
    forall y | y in s'.entries ensures s'.entries[y].ref == |Users(s', y)| {
      assert Users(s', y) == if y == x then Users(s, y) - {t} else Users(s, y);
      assert t in Users(s, x);
    }
  }

  lemma LeaveInUse(s: State, t: Thread)
    requires Enabled(s, Leave(t)) && Shared(s) && Separate(s) && Counted(s) && InUse(s)
    ensures Separate(DoLeave(s, t)) && InUse(DoLeave(s, t))
  {
    LastUser(s, t, t);
  }

  lemma KeepsLeave(s: State, t: Thread)
    requires Enabled(s, Leave(t)) && Inv(s)
    ensures Inv(DoLeave(s, t))
  {
    LeaveShared(s, t);
    LeaveOwned(s, t);
    LeaveCounted(s, t);
    LeaveInUse(s, t);
  }

  lemma {:induction false} InvAlways(s: State, es: seq<Event>)
    requires Inv(s) && ValidRun(s, es)
    ensures Inv(Exec(s, es))
    decreases |es|
  {
    if es != [] {
      match es[0] {
        case Join(t, id, spare) => KeepsJoin(s, t, id, spare);
        case Leave(t) => KeepsLeave(s, t);
        case Acquire(t) => KeepsMove(s, t, Holding, Some(t));
        case Unlock(t) => KeepsMove(s, t, Releasing, None);
      }
      InvAlways(Apply(s, es[0]), es[1..]);
    }
  }

  // ----- What the lock guarantees -----

  ghost predicate Reachable(s: State) {
    exists es :: ValidRun(Init, es) && s == Exec(Init, es)
  }

  lemma ReachableInv(s: State)
    requires Reachable(s)
    ensures Inv(s)
  {
    var es :| ValidRun(Init, es) && s == Exec(Init, es);
    InvAlways(Init, es);
  }

  /** Two threads never hold one id's lock at once. */
  lemma MutualExclusion(s: State, t: Thread, u: Thread)
    requires Reachable(s) && t in s.uses && u in s.uses && s.uses[t].id == s.uses[u].id
    requires s.uses[t].stage == Holding && s.uses[u].stage == Holding
    ensures t == u
  {
    ReachableInv(s);
  }

  /** Who waits can go on exactly when nobody holds the id's lock, and who holds it can always give it back. */
  lemma NobodyWaitsInVain(s: State, t: Thread)
    requires Reachable(s) && t in s.uses
    ensures match s.uses[t].stage
            case Waiting =>
              Enabled(s, Acquire(t)) <==> forall u :: u in s.uses && s.uses[u].id == s.uses[t].id ==> s.uses[u].stage != Holding
            case Holding => Enabled(s, Unlock(t))
            case Releasing => Enabled(s, Leave(t))
  {
    ReachableInv(s);
    assert s.table[s.uses[t].id] == s.uses[t].entry && s.uses[t].entry in s.entries;
    var owner := s.entries[s.uses[t].entry].owner;
    if owner.Some? {
      OneEntryPerId(s, t, owner.value);
    }
  }

  /** Users of one id share one entry; users of different ids never do. */
  lemma OneEntryPerId(s: State, t: Thread, u: Thread)
    requires Reachable(s) && t in s.uses && u in s.uses
    ensures s.uses[t].id == s.uses[u].id <==> s.uses[t].entry == s.uses[u].entry
  {
    ReachableInv(s);
  }

  /** The count is the number of users; an entry leaves the table with its last user and at no other
      time; and when nobody uses a lock the table is empty. */
  lemma NothingLeftBehind(s: State)
    requires Reachable(s)
    ensures forall id :: id in s.table ==> s.table[id] in s.entries && s.entries[s.table[id]].ref == |Users(s, s.table[id])| > 0
    ensures forall id :: id in s.table <==> exists t :: t in s.uses && s.uses[t].id == id
    ensures s.uses == map[] ==> s.table == map[]
  {
    ReachableInv(s);
    forall id | id in s.table ensures exists t :: t in s.uses && s.uses[t].id == id {
      var x := s.table[id];
      assert Users(s, x) != {};
      var t :| t in Users(s, x);
      assert s.uses[t].id == id;
    }
  }

  // ----- One mutex per id -----

  /** Who holds which id. */
  function Held(s: State): map<string, Thread> {
    map id | id in s.table && s.table[id] in s.entries && s.entries[s.table[id]].owner.Some?
      :: s.entries[s.table[id]].owner.value
  }

  /** Seen from outside, Acquire takes a lock that was free, Unlock gives back the lock of the thread
      that holds it, and the bookkeeping steps change nothing. */
  lemma RefinesMutexes(s: State, e: Event)
    requires Reachable(s) && Enabled(s, e)
    ensures match e
            case Acquire(t) => s.uses[t].id !in Held(s) && Held(Apply(s, e)) == Held(s)[s.uses[t].id := t]
            case Unlock(t) => s.uses[t].id in Held(s) && Held(s)[s.uses[t].id] == t && Held(Apply(s, e)) == Held(s) - {s.uses[t].id}
            case _ => Held(Apply(s, e)) == Held(s)
  {
    ReachableInv(s);
    match e {
      case Join(t, id, spare) => JoinHoldsNothing(s, t, id, spare);
      case Leave(t) => LeaveReleasesNothing(s, t);
      case Acquire(t) => AcquireHolds(s, t);
      case Unlock(t) => UnlockGivesBack(s, t);
    }
  }

  lemma JoinHoldsNothing(s: State, t: Thread, id: string, spare: EntryId)
    requires Wired(s) && Enabled(s, Join(t, id, spare))
    ensures Held(DoJoin(s, t, id, spare)) == Held(s)
  {
    var s' := DoJoin(s, t, id, spare);
    assert forall i :: i in Held(s') <==> i in Held(s);
  }

  lemma AcquireHolds(s: State, t: Thread)
    requires Wired(s) && Enabled(s, Acquire(t))
    ensures s.uses[t].id !in Held(s)
    ensures Held(Move(s, t, Holding, Some(t))) == Held(s)[s.uses[t].id := t]
  {
  }

  lemma UnlockGivesBack(s: State, t: Thread)
    requires Wired(s) && Enabled(s, Unlock(t))
    ensures s.uses[t].id in Held(s) && Held(s)[s.uses[t].id] == t
    ensures Held(Move(s, t, Releasing, None)) == Held(s) - {s.uses[t].id}
  {
  }

  lemma LeaveReleasesNothing(s: State, t: Thread)
    requires Wired(s) && Counted(s) && Enabled(s, Leave(t))
    ensures Held(DoLeave(s, t)) == Held(s)
  {
    var x := s.uses[t].entry;
    if s.entries[x].owner.Some? {
      LastUser(s, t, s.entries[x].owner.value);
    }
    var s' := DoLeave(s, t);
    assert forall i :: i in Held(s') <==> i in Held(s);
  }

  lemma {:induction false} OneMore(s: State, es: seq<Event>, e: Event)
    requires ValidRun(s, es) && Enabled(Exec(s, es), e)
    ensures ValidRun(s, es + [e]) && Exec(s, es + [e]) == Apply(Exec(s, es), e)
    decreases |es|
  {
    if es == [] {
      assert es + [e] == [e];
    } else {
      OneMore(Apply(s, es[0]), es[1..], e);
      assert (es + [e])[1..] == es[1..] + [e];
    }
  }

  lemma Next(s: State, e: Event)
    requires Reachable(s) && Enabled(s, e)
    ensures Reachable(Apply(s, e))
  {
    var es :| ValidRun(Init, es) && s == Exec(Init, es);
    OneMore(Init, es, e);
  }

  /** Joining counts one up in the entry of the id, after making one if there was none. */
  lemma JoinEffect(s: State, t: Thread, id: string, spare: EntryId) returns (r: State, x: EntryId, before: map<EntryId, Entry>)
    requires Reachable(s) && Enabled(s, Event.Join(t, id, spare)) && (id in s.table ==> s.table[id] in s.entries)
    ensures r == Apply(s, Event.Join(t, id, spare)) && Reachable(r)
    ensures x == (if id in s.table then s.table[id] else spare) && t in r.uses && r.uses[t].entry == x
    ensures before == if id in s.table then s.entries else s.entries[spare := Entry(0, None)]
    ensures r.table == if id in s.table then s.table else s.table[id := spare]
    ensures x in before && r.entries == before[x := before[x].(ref := before[x].ref + 1)]
  {
    Next(s, Event.Join(t, id, spare));
    r := Apply(s, Event.Join(t, id, spare));
    x := if id in s.table then s.table[id] else spare;
    before := if id in s.table then s.entries else s.entries[spare := Entry(0, None)];
  }

  lemma MoveEffect(s: State, t: Thread, e: Event, owner: Option<Thread>) returns (r: State)
    requires Reachable(s) && Enabled(s, e)
    requires (e == Event.Acquire(t) && owner == Some(t)) || (e == Event.Unlock(t) && owner == None)
    ensures r == Apply(s, e) && Reachable(r) && r.table == s.table
    ensures var x := s.uses[t].entry; r.entries == s.entries[x := s.entries[x].(owner := owner)]
  {
    Next(s, e);
    r := Apply(s, e);
  }

  lemma LeaveEffect(s: State, t: Thread) returns (r: State)
    requires Reachable(s) && Enabled(s, Event.Leave(t))
    ensures r == Apply(s, Event.Leave(t)) && Reachable(r)
    ensures var x := s.uses[t].entry; var ref := s.entries[x].ref - 1;
            && r.entries == s.entries[x := s.entries[x].(ref := ref)]
            && r.table == if ref == 0 then s.table - {s.uses[t].id} else s.table
  {
    Next(s, Event.Leave(t));
    r := Apply(s, Event.Leave(t));
  }

  lemma NothingYet()
    ensures Reachable(Init)
  {
    assert ValidRun(Init, []) && Init == Exec(Init, []);
  }

  // ----- The objects -----

  class GrantLock {
    var ref: int
    var held: bool

    constructor ()
      ensures ref == 0 && !held
    {
      ref, held := 0, false;
    }
  }

  /** `made` has all the entries that were ever made, and `state` is where the protocol is: every method is
      one of its steps. */
  class Locks {
    var m: map<string, GrantLock>
    ghost var made: seq<GrantLock>
    ghost var state: State

    ghost predicate Valid()
      reads this, made
    {
      Reachable(state) && Shows(state.entries) && Finds(state.table)
    }

    /** The entry objects are as the protocol has them. */
    ghost predicate Shows(entries: map<EntryId, Entry>)
      reads this`made, made
    {
      && (forall i, j :: 0 <= i < j < |made| ==> made[i] != made[j])
      && (forall x: EntryId :: x in entries <==> x < |made|)
      && (forall x: EntryId :: x < |made| ==> made[x].ref == entries[x].ref && made[x].held == entries[x].owner.Some?)
    }

    ghost predicate Finds(table: map<string, EntryId>)
      reads this`m, this`made
    {
      && m.Keys == table.Keys
      && (forall id :: id in m ==> table[id] < |made| && m[id] == made[table[id]])
    }

    constructor ()
      ensures Valid() && m == map[] && made == [] && state == Init
    {
      m, made, state := map[], [], Init;
      new;
      NothingYet();
    }

    /** The first critical section of `lock`. */
    method Join(ghost t: Thread, id: string) returns (e: GrantLock)
      requires Valid() && t !in state.uses
      modifies this, made
      ensures Valid() && state == Apply(old(state), Event.Join(t, id, |old(made)|))
      ensures m == old(m)[id := e]
      ensures old(made) <= made && state.uses[t].entry < |made| && made[state.uses[t].entry] == e
    {
      ghost var s, x, before := state, |made|, map[];
      state, x, before := JoinEffect(s, t, id, |made|);
      e := FindOrMake(id, s.table, s.entries);
      CountIn(e, x, before);
    }

    /** Finds the entry or makes one. */
    method FindOrMake(id: string, ghost table: map<string, EntryId>, ghost entries: map<EntryId, Entry>) returns (e: GrantLock)
      requires Finds(table) && Shows(entries)
      modifies this`m, this`made
      ensures m == old(m)[id := e] && old(made) <= made && (e in old(made) || fresh(e))
      ensures if id in table then made == old(made) && Shows(entries) && Finds(table) && e == made[table[id]]
              else made == old(made) + [e] && Shows(entries[|old(made)| := Entry(0, None)]) && Finds(table[id := |old(made)|])
    {
      if id in m {
        e := m[id];
      } else {
        e := new GrantLock();
        m := m[id := e];
        made := made + [e];
      }
    }

    method CountIn(e: GrantLock, ghost x: EntryId, ghost entries: map<EntryId, Entry>)
      requires Shows(entries) && x < |made| && made[x] == e
      modifies e`ref
      ensures e.ref == old(e.ref) + 1 && Shows(entries[x := entries[x].(ref := entries[x].ref + 1)])
    {
      e.ref := e.ref + 1;
    }

    /** The mutex of the entry is free and taken. */
    method Acquire(ghost t: Thread, e: GrantLock)
      requires Valid() && t in state.uses && state.uses[t].stage == Waiting && state.uses[t].entry < |made|
      requires e == made[state.uses[t].entry] && !e.held
      modifies this`state, e`held
      ensures Valid() && state == Apply(old(state), Event.Acquire(t))
    {
      state := MoveEffect(state, t, Event.Acquire(t), Some(t));
      e.held := true;
    }

    /** The first step of the release function. */
    method Unlock(ghost t: Thread, e: GrantLock)
      requires Valid() && t in state.uses && state.uses[t].stage == Holding && state.uses[t].entry < |made|
      requires e == made[state.uses[t].entry]
      modifies this`state, e`held
      ensures Valid() && state == Apply(old(state), Event.Unlock(t))
    {
      state := MoveEffect(state, t, Event.Unlock(t), None);
      e.held := false;
    }

    /** The last critical section of the release function. */
    method Leave(ghost t: Thread, id: string, e: GrantLock)
      requires Valid() && t in state.uses && state.uses[t].stage == Releasing && state.uses[t].entry < |made|
      requires e == made[state.uses[t].entry] && id == state.uses[t].id
      modifies this`m, this`state, e`ref
      ensures Valid() && state == Apply(old(state), Event.Leave(t))
      ensures e.ref == old(e.ref) - 1 && m == if e.ref == 0 then old(m) - {id} else old(m)
    {
      ghost var s := state;
      state := LeaveEffect(s, t);
      CountOut(e, s.uses[t].entry, s.entries);
      if e.ref == 0 {
        m := m - {id};
      }
    }

    method CountOut(e: GrantLock, ghost x: EntryId, ghost entries: map<EntryId, Entry>)
      requires Shows(entries) && x < |made| && made[x] == e
      modifies e`ref
      ensures e.ref == old(e.ref) - 1 && Shows(entries[x := entries[x].(ref := entries[x].ref - 1)])
    {
      e.ref := e.ref - 1;
    }
  }
}
