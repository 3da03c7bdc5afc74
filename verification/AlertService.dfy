/** The alerts service as an object (Publish, MarkRead and MarkAllRead, internal/alerts/service.go, over the
    store of internal/storage/memory_alerts.go), one call at a time. Every call is a run of the protocol in
    module Alerts. */
module AlertService {
  import opened Outcomes
  import opened Sequences
  import opened Alerts

  predicate Idle(s: State) { s.jobs == map[] && s.locks == map[] }

  /** A whole Publish. */
  function AfterPublish(s: State, rid: string, id: string, key: string, fails: bool, counted: bool): State {
    if fails || Known(s.items, rid, key) then s
    else
      var n := Alert(s.counter + 1, id, key);
      var items := s.items + [Note(rid, n, false)];
      s.(counter := n.seq_, items := items,
         sent := s.sent + [Msg(rid, Some(n), if counted then Some(UnreadOf(items, rid)) else None)])
  }

  lemma {:induction false} OneMore(s: State, es: seq<Event>, e: Event)
    requires ValidRun(s, es) && Enabled(Exec(s, es), e)
    ensures ValidRun(s, es + [e]) && Exec(s, es + [e]) == Apply(Exec(s, es), e)
    decreases |es|
  {
    if es == [] {
      assert es + [e] == [e];
    } else {
      OneMore(Apply(s, es[0]), es[1..], e);
      assert (es + [e])[1..] == es[1..] + [e];
    }
  }

  lemma Next(s: State, e: Event) returns (s': State)
    requires Reachable(s) && Enabled(s, e)
    ensures s' == Apply(s, e) && Reachable(s')
  {
    var stripe, es :| ValidRun(Init(stripe), es) && Exec(Init(stripe), es) == s;
    OneMore(Init(stripe), es, e);
    s' := Apply(s, e);
  }

  /** A state of the protocol that differs from an idle one by the one thread that has the lock. */
  function Busy(s: State, job: Job): State { s.(locks := map[s.stripe(job.rid) := 0], jobs := map[0 := job]) }

  lemma Enter(s: State, rid: string, id: string, key: string) returns (r: State)
    requires Reachable(s) && Idle(s)
    ensures Reachable(r) && r == Busy(s, Job(rid, id, key, Locked))
  {
    r := Next(s, Publish(0, rid, id, key));
    r := Next(r, Lock(0));
    assert r.jobs == map[0 := Job(rid, id, key, Locked)];
  }

  lemma Leave(s: State, job: Job)
    requires Idle(s) && job.stage == Closing && Reachable(Busy(s, job))
    ensures Reachable(s)
  {
    var r := Next(Busy(s, job), Unlock(0));
    assert r.locks == map[] && r.jobs == map[];
  }

  /** What the store makes of a new notification. */
  function WithNote(s: State, rid: string, id: string, key: string): State {
    s.(counter := s.counter + 1, items := s.items + [Note(rid, Alert(s.counter + 1, id, key), false)])
  }

  lemma StoreIt(s: State, rid: string, id: string, key: string) returns (r: State)
    requires Reachable(s) && Idle(s) && !Known(s.items, rid, key)
    ensures Reachable(r) && r == Busy(WithNote(s, rid, id, key), Job(rid, id, key, Stored(Alert(s.counter + 1, id, key))))
  {
    r := Enter(s, rid, id, key);
    r := Next(r, Insert(0, 0, false));
    assert r.jobs == map[0 := Job(rid, id, key, Stored(Alert(s.counter + 1, id, key)))];
  }

  lemma SendIt(s: State, rid: string, id: string, key: string, counted: bool)
    requires Reachable(s) && Idle(s) && !Known(s.items, rid, key)
    ensures Reachable(AfterPublish(s, rid, id, key, false, counted))
  {
    var r := StoreIt(s, rid, id, key);
    r := Next(r, Send(0, counted));
    assert r.jobs == map[0 := Job(rid, id, key, Closing)];
    Leave(AfterPublish(s, rid, id, key, false, counted), Job(rid, id, key, Closing));
  }

  lemma PublishIsARun(s: State, rid: string, id: string, key: string, fails: bool, counted: bool)
    requires Reachable(s) && Idle(s)
    ensures Reachable(AfterPublish(s, rid, id, key, fails, counted))
  {
    if !fails && !Known(s.items, rid, key) {
      SendIt(s, rid, id, key, counted);
    }
  }

  class Service {
    const store: MemoryAlertStore
    ghost const stripe: string -> nat
    var sent: seq<Msg>

    ghost function View(): State
      reads this, store
    {
      State(stripe, store.counter, store.items, map[], map[], sent)
    }

    ghost predicate Valid()
      reads this, store
    {
      Reachable(View())
    }

    constructor (ghost stripe: string -> nat)
      ensures Valid() && fresh(store) && store.items == [] && sent == []
    {
      store := new MemoryAlertStore();
      this.stripe, sent := stripe, [];
      new;
      assert View() == Init(stripe) && ValidRun(Init(stripe), []) && Exec(Init(stripe), []) == View();
    }

    /** Nothing is sent unless it was stored. */
    method Publish(rid: string, id: string, key: string, fails: bool, counted: bool) returns (news: Option<Alert>)
      requires Valid()
      modifies this, store
      ensures Valid() && View() == AfterPublish(old(View()), rid, id, key, fails, counted)
      ensures news.Some? <==> store.items != old(store.items)
      ensures news.Some? ==> Last(sent).news == news && Last(store.items).alert == news.value
    {
      ghost var s := View();
      PublishIsARun(s, rid, id, key, fails, counted);
      if fails {
        return None;
      }
      news := store.Insert(rid, id, key);
      if news == None {
        return;
      }
      assert |store.items| == |s.items| + 1;
      TellNew(rid, news, counted);
    }

    method TellNew(rid: string, news: Option<Alert>, counted: bool)
      modifies this`sent
      ensures sent == old(sent) + [Msg(rid, news, if counted then Some(UnreadOf(store.items, rid)) else None)]
    {
      var unread := None;
      if counted {
        var n := store.UnreadCount(rid);
        unread := Some(n);
      }
      sent := sent + [Msg(rid, news, unread)];
    }

    /** The other panels are told, with the number that is left, if this changed anything. */
    method MarkRead(rid: string, id: string, counted: bool) returns (unread: Option<nat>)
      requires Valid()
      modifies this, store
      ensures Valid() && View() == Apply(old(View()), Alerts.MarkRead(rid, id, counted))
      ensures unread == if counted then Some(UnreadOf(store.items, rid)) else None
    {
      ghost var s := View();
      ghost var t := Next(s, Alerts.MarkRead(rid, id, counted));
      var changed := store.MarkRead(rid, id);
      unread := CountAndTell(s, rid, changed, counted);
    }

    /** The number of those marked and the number that is left. */
    method MarkAllRead(rid: string, upTo: int, counted: bool) returns (r: Option<(nat, nat)>)
      requires Valid()
      modifies this, store
      ensures Valid() && View() == Apply(old(View()), Alerts.MarkAllRead(rid, upTo, counted))
      ensures r.Some? <==> upTo > 0 && counted
      ensures r.Some? ==> r.value == (Changed(old(store.items), rid, upTo), UnreadOf(store.items, rid))
      ensures r.Some? ==> old(UnreadOf(store.items, rid)) == r.value.0 + r.value.1
    {
      ghost var s := View();
      ghost var t := Next(s, Alerts.MarkAllRead(rid, upTo, counted));
      if upTo <= 0 {
        return None;
      }
      MarksAreCounted(store.items, rid, upTo);
      var updated := store.MarkAllRead(rid, upTo);
      var unread := CountAndTell(s, rid, updated > 0, counted);
      return if unread.Some? then Some((updated, unread.value)) else None;
    }

    method CountAndTell(ghost s: State, rid: string, changed: bool, counted: bool) returns (unread: Option<nat>)
      requires View() == s.(items := store.items) && (changed <==> store.items != s.items)
      modifies this
      ensures View() == Marked(s, rid, store.items, counted)
      ensures unread == if counted then Some(UnreadOf(store.items, rid)) else None
    {
      if !counted {
        return None;
      }
      var n := store.UnreadCount(rid);
      if changed {
        sent := sent + [Msg(rid, None, Some(n))];
      }
      return Some(n);
    }
  }
}
