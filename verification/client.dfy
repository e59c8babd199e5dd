/**
 Client of internal/truenas/client.go: the fields guarded by `mu`, and one method per critical
 section. Each method changes the fields in place and is proved equal to its function in ClientCore;
 none of them sends on or closes a closed channel, so `panicked` stays false in View.
 */
module ClientObject {
  import opened Wrappers
  import opened ClientCore

  ghost predicate Injective<K>(m: map<K, nat>) {
    forall i, j | i in m && j in m && i != j :: m[i] != m[j]
  }

  lemma RemoveOne<K>(m: map<K, nat>, key: K)
    requires Injective(m) && key in m
    ensures Injective(m - {key})
    ensures (m - {key}).Values == m.Values - {m[key]} && m[key] in m.Values
    ensures |m - {key}| < |m|
  {
    assert m.Keys == (m - {key}).Keys + {key};
    forall x | x in m.Values - {m[key]}
      ensures x in (m - {key}).Values
    {
      var i :| i in m && m[i] == x;
      assert (m - {key})[i] == x;
    }
  }

  class Client {
    var nextId: nat
    var pending: map<nat, nat>
    var subscriptions: map<Source, nat>
    var unsubscribing: map<Source, nat>
    var closed: bool
    var readErr: bool
    var mailboxes: seq<Mailbox>
    var subs: seq<Sub>
    var cleanups: seq<Cleanup>

    ghost function View(): Core
      reads this
    {
      Core(nextId, pending, subscriptions, unsubscribing, closed, readErr, mailboxes, subs, cleanups, false)
    }

    ghost predicate Valid()
      reads this
    {
      Sound(View())
    }

    constructor ()
      ensures Valid() && View() == EMPTY_CORE
    {
      nextId, pending, subscriptions, unsubscribing := 0, map[], map[], map[];
      closed, readErr := false, false;
      mailboxes, subs, cleanups := [], [], [];
    }

    /** The first section of Call. */
    method BeginCall() returns (id: Option<nat>)
      requires Valid()
      modifies this
      ensures Valid() && (View(), id) == ClientCore.BeginCall(old(View()))
    {
      ghost var before := View();
      BeginCallSound(before);
      if closed {
        return None;
      }
      nextId := nextId + 1;
      mailboxes := mailboxes + [EMPTY_MAILBOX];
      pending := pending[nextId := |mailboxes| - 1];
      assert View() == ClientCore.BeginCall(before).0;
      return Some(nextId);
    }

    method Forget(id: nat)
      requires Valid()
      modifies this
      ensures Valid() && View() == ClientCore.Forget(old(View()), id)
    {
      TakeWaiterSound(View(), id);
      pending := pending - {id};
    }

    /** readLoop looks the waiter up and removes it before it sends. */
    method TakeWaiter(id: nat) returns (ch: Option<nat>)
      requires Valid()
      modifies this
      ensures Valid() && (View(), ch) == ClientCore.TakeWaiter(old(View()), id)
    {
      TakeWaiterSound(View(), id);
      ch := if id in pending then Some(pending[id]) else None;
      pending := pending - {id};
    }

    /** The send that follows TakeWaiter, outside the mutex. */
    method Send(ch: nat, outcome: Outcome)
      requires Valid()
      requires ch < |mailboxes| && mailboxes[ch] == EMPTY_MAILBOX && ch !in pending.Values
      modifies this
      ensures Valid() && View() == ClientCore.Send(old(View()), ch, outcome)
    {
      SendSound(View(), ch, outcome);
      mailboxes := mailboxes[ch := Mailbox(Some(outcome), false)];
    }

    /** failPending: three loops, each closing what one map lists and emptying that map. */
    method FailPending()
      requires Valid()
      modifies this
      ensures Valid() && View() == ClientCore.FailPending(old(View()))
    {
      ghost var before := View();
      readErr := true;
      ClosePending();
      CloseSubscriptions();
      CloseCleanups();
      assert View() == ClientCore.FailPending(before) by {
        FailPendingByCells(before, mailboxes, subs, cleanups);
      }
      assert Sound(ClientCore.FailPending(before)) by {
        FailPendingSound(before);
      }
    }

    method ClosePending()
      requires Injective(pending)
      requires forall id | id in pending :: pending[id] < |mailboxes| && mailboxes[pending[id]] == EMPTY_MAILBOX
      modifies this`pending, this`mailboxes
      ensures pending == map[]
      ensures |mailboxes| == old(|mailboxes|)
      ensures forall i | 0 <= i < |mailboxes| ::
          mailboxes[i] == if i in old(pending).Values then Mailbox(None, true) else old(mailboxes)[i]
    {
      ghost var p, m := pending, mailboxes;
      while pending != map[]
        invariant Injective(pending) && pending.Values <= p.Values
        invariant |mailboxes| == |m|
        invariant forall i | i in pending.Values :: i < |m|
        invariant forall i | 0 <= i < |m| ::
            mailboxes[i] == if i in p.Values - pending.Values then Mailbox(None, true) else m[i]
        decreases |pending|
      {
        var id :| id in pending;
        var ch := pending[id];
        RemoveOne(pending, id);
        mailboxes := mailboxes[ch := Mailbox(mailboxes[ch].slot, true)];
        pending := pending - {id};
      }
    }

    method CloseSubscriptions()
      requires forall s | s in subscriptions :: subscriptions[s] < |subs| && subs[subscriptions[s]].source == s
      modifies this`subscriptions, this`subs
      ensures subscriptions == map[]
      ensures |subs| == old(|subs|)
      ensures forall h | 0 <= h < |subs| ::
          subs[h] == if h in old(subscriptions).Values then CloseSub(old(subs)[h], Interrupted) else old(subs)[h]
    {
      ghost var p, m := subscriptions, subs;
      while subscriptions != map[]
        invariant Injective(subscriptions) && subscriptions.Values <= p.Values
        invariant |subs| == |m|
        invariant forall h | h in subscriptions.Values :: h < |m|
        invariant forall h | 0 <= h < |m| ::
            subs[h] == if h in p.Values - subscriptions.Values then CloseSub(m[h], Interrupted) else m[h]
        decreases |subscriptions|
      {
        var s :| s in subscriptions;
        var h := subscriptions[s];
        RemoveOne(subscriptions, s);
        subs := subs[h := CloseSub(subs[h], Interrupted)];
        subscriptions := subscriptions - {s};
      }
    }

    method CloseCleanups()
      requires forall s | s in unsubscribing :: unsubscribing[s] < |cleanups| && cleanups[unsubscribing[s]].source == s
      modifies this`unsubscribing, this`cleanups
      ensures unsubscribing == map[]
      ensures |cleanups| == old(|cleanups|)
      ensures forall k | 0 <= k < |cleanups| ::
          cleanups[k] == if k in old(unsubscribing).Values then old(cleanups)[k].(done := true) else old(cleanups)[k]
    {
      ghost var p, m := unsubscribing, cleanups;
      while unsubscribing != map[]
        invariant Injective(unsubscribing) && unsubscribing.Values <= p.Values
        invariant |cleanups| == |m|
        invariant forall k | k in unsubscribing.Values :: k < |m|
        invariant forall k | 0 <= k < |m| ::
            cleanups[k] == if k in p.Values - unsubscribing.Values then m[k].(done := true) else m[k]
        decreases |unsubscribing|
      {
        var s :| s in unsubscribing;
        var k := unsubscribing[s];
        RemoveOne(unsubscribing, s);
        cleanups := cleanups[k := cleanups[k].(done := true)];
        unsubscribing := unsubscribing - {s};
      }
    }

    /** Subscribe makes its subscription before it asks to register it. */
    method NewSub(source: Source) returns (h: nat)
      requires Valid()
      modifies this
      ensures Valid() && View() == ClientCore.NewSub(old(View()), source) && h == old(|subs|)
    {
      h := |subs|;
      subs := subs + [Sub(source, [], [], false, None)];
    }

    /** One turn of Subscribe's loop. */
    method TryRegister(h: nat) returns (admission: Admission)
      requires Valid() && h < |subs| && !subs[h].closed
      modifies this
      ensures Valid() && (View(), admission) == ClientCore.TryRegister(old(View()), h)
    {
      TryRegisterSound(View(), h);
      var source := subs[h].source;
      if closed {
        return ClientClosed;
      }
      if readErr {
        return ConnectionLost;
      }
      if source in subscriptions {
        return AlreadyOpen;
      }
      if source !in unsubscribing {
        subscriptions := subscriptions[source := h];
        return Admitted;
      }
      return MustWait(unsubscribing[source]);
    }

    /** unregisterSubscriptionLocked, and with it endSubscription. */
    method Unregister(h: nat, reason: Reason, unsubscribe: bool) returns (cleanup: Option<nat>)
      requires Valid() && h < |subs|
      modifies this
      ensures Valid() && (View(), cleanup) == ClientCore.Unregister(old(View()), h, reason, unsubscribe)
    {
      UnregisterSound(View(), h, reason, unsubscribe);
      var source := subs[h].source;
      if source !in subscriptions || subscriptions[source] != h {
        return None;
      }
      subscriptions := subscriptions - {source};
      subs := subs[h := CloseSub(subs[h], reason)];
      if !unsubscribe {
        return None;
      }
      cleanup := Some(|cleanups|);
      unsubscribing := unsubscribing[source := |cleanups|];
      cleanups := cleanups + [Cleanup(source, false)];
    }

    method Dispatch(source: Source, event: Payload) returns (cleanup: Option<nat>)
      requires Valid()
      modifies this
      ensures Valid() && (View(), cleanup) == ClientCore.Dispatch(old(View()), source, event)
    {
      DispatchSound(View(), source, event);
      if source !in subscriptions {
        return None;
      }
      var h := subscriptions[source];
      if |subs[h].events| < EVENT_CAPACITY {
        subs := subs[h := subs[h].(events := subs[h].events + [event])];
        return None;
      }
      cleanup := Unregister(h, Overflow, true);
    }

    method TakeEvent(h: nat) returns (event: Payload)
      requires Valid() && h < |subs| && subs[h].events != []
      modifies this
      ensures Valid() && View() == ClientCore.TakeEvent(old(View()), h)
      ensures event == old(subs[h].events[0])
    {
      TakeEventSound(View(), h);
      event := subs[h].events[0];
      subs := subs[h := subs[h].(taken := subs[h].taken + [event], events := subs[h].events[1..])];
    }

    /** The section that ends unsubscribeAsync. */
    method FinishCleanup(k: nat)
      requires Valid() && k < |cleanups|
      modifies this
      ensures Valid() && View() == ClientCore.FinishCleanup(old(View()), k)
    {
      FinishCleanupSound(View(), k);
      var source := cleanups[k].source;
      if source in unsubscribing && unsubscribing[source] == k {
        unsubscribing := unsubscribing - {source};
        cleanups := cleanups[k := cleanups[k].(done := true)];
      }
    }

    /** Close's section; `first` tells the one caller that goes on to close the socket. */
    method MarkClosed() returns (first: bool)
      requires Valid()
      modifies this`closed
      ensures Valid() && View() == ClientCore.MarkClosed(old(View())) && first == !old(closed)
    {
      first := !closed;
      closed := true;
    }

    method Alive() returns (alive: bool)
      ensures alive == ClientCore.Alive(View())
    {
      alive := !closed && !readErr;
    }
  }
}
