/** The part of the invariant that ties subscribers and cleanup goroutines to the client's lists and calls. */
module ProtocolParties {
  import opened Wrappers
  import opened ClientCore
  import opened Protocol

  ghost predicate Answered(st: System, call: Option<nat>, accepted: bool) {
    && call.Some?
    && call.value in st.calls
    && st.calls[call.value].pc.Done?
    && st.calls[call.value].pc.result.Reply?
    && st.calls[call.value].pc.result.outcome.Success? == accepted
  }

  predicate Involved(pc: SubscriberPc) {
    pc.BeforeCall? || pc.InCall? || pc.Ending? || pc.Streaming?
  }

  /** Why a subscription is about to end, and so whether the target has to be told. */
  ghost predicate EndsRightly(st: System, call: Option<nat>, reason: Reason, unsubscribe: bool) {
    match reason
    case Cancelled => unsubscribe && Answered(st, call, true)
    case CallFailed(refused) =>
      !Answered(st, call, true) && (refused <==> Answered(st, call, false)) && (unsubscribe <==> !refused)
    case _ => false
  }

  ghost predicate SubscriberOk(st: System, h: nat)
    requires h < |st.subscribers| == |st.core.subs|
  {
    var a := st.subscribers[h];
    var sub := st.core.subs[h];
    && (a.call.Some? ==> a.call.value in st.calls && st.calls[a.call.value].request == SubscribeTo(sub.source, h))
    && (a.pc.InCall? ==> a.call == Some(a.pc.id))
    && (a.call.Some? && !a.pc.InCall? ==> a.call.value in st.calls && st.calls[a.call.value].pc.Done?)
    && (a.pc.AtLoop? || a.pc.Waits? || a.pc.BeforeCall? ==> a.call.None?)
    && (a.pc.AtLoop? || a.pc.Waits? ==> !sub.closed)
    && (IsRegistered(st.core, h) ==> Involved(a.pc))
    && (Involved(a.pc) ==> IsRegistered(st.core, h) || sub.closed)
    && (a.pc.Waits? ==> a.pc.on < |st.core.cleanups| && st.core.cleanups[a.pc.on].source == sub.source)
    && |sub.events| <= EVENT_CAPACITY
    && (a.pc.AtLoop? || a.pc.Waits? ==> sub.taken == sub.events == [])
    && (a.pc.Ending? ==> EndsRightly(st, a.call, a.pc.reason, a.pc.unsubscribe))
    && (a.pc.Streaming? ==> Answered(st, a.call, true))
  }

  ghost predicate CleanerOk(st: System, k: nat)
    requires k < |st.cleaners| == |st.core.cleanups|
  {
    var b := st.cleaners[k];
    var cleanup := st.core.cleanups[k];
    && (b.call.Some? ==>
          b.call.value in st.calls && st.calls[b.call.value].request == UnsubscribeFrom(cleanup.source, k))
    && (b.pc.Unsubscribing? ==> b.call == Some(b.pc.id))
    && (b.pc.Spawned? ==> b.call.None?)
    && (b.pc.Gone? ==> cleanup.done)
    && (!b.pc.Gone? ==> st.core.readErr || !cleanup.done)
    && (b.pc.Failed? ==> !Answered(st, b.call, true))
    && (b.call.Some? && !b.pc.Unsubscribing? ==> b.call.value in st.calls && st.calls[b.call.value].pc.Done?)
    && (st.socketOpen && (b.pc.Removing? || b.pc.Gone?) ==> Answered(st, b.call, true))
  }

  ghost predicate OwnerOk(st: System, id: nat)
    requires id in st.calls
  {
    match st.calls[id].request
    case SubscribeTo(s, h) =>
      h < |st.subscribers| == |st.core.subs| && st.core.subs[h].source == s && st.subscribers[h].call == Some(id)
    case UnsubscribeFrom(s, k) =>
      k < |st.cleaners| == |st.core.cleanups| && st.core.cleanups[k].source == s && st.cleaners[k].call == Some(id)
    case Other(_) => true
  }

  ghost predicate PartiesSound(st: System) {
    && |st.subscribers| == |st.core.subs|
    && |st.cleaners| == |st.core.cleanups|
    && (forall h {:trigger SubscriberOk(st, h)} | 0 <= h < |st.subscribers| :: SubscriberOk(st, h))
    && (forall k {:trigger CleanerOk(st, k)} | 0 <= k < |st.cleaners| :: CleanerOk(st, k))
    && (forall id {:trigger OwnerOk(st, id)} | id in st.calls :: OwnerOk(st, id))
  }

  // Calls are never dropped, keep their request, and once done stay as they are.
  ghost predicate CallsGrow(st: System, st1: System) {
    forall id | id in st.calls ::
      && id in st1.calls
      && st1.calls[id].request == st.calls[id].request
      && (st.calls[id].pc.Done? ==> st1.calls[id].pc == st.calls[id].pc)
  }

  ghost predicate SameLists(st: System, st1: System) {
    && st1.core.subs == st.core.subs
    && st1.core.cleanups == st.core.cleanups
    && st1.core.subscriptions == st.core.subscriptions
    && st1.core.unsubscribing == st.core.unsubscribing
    && st1.core.readErr == st.core.readErr
    && (st1.socketOpen ==> st.socketOpen)
  }

  /** One subscriber moves; everyone else and the lists stay. */
  lemma SubscriberMoves(st: System, st1: System, h: nat)
    requires PartiesSound(st) && CallsGrow(st, st1) && SameLists(st, st1)
    requires h < |st.subscribers| && h < |st1.subscribers| && st1.cleaners == st.cleaners
    requires st1.subscribers == st.subscribers[h := st1.subscribers[h]]
    requires |st1.subscribers| == |st1.core.subs| && SubscriberOk(st1, h)
    requires st.subscribers[h].call.Some? ==> st1.subscribers[h].call == st.subscribers[h].call
    requires forall id | id in st1.calls && id !in st.calls :: OwnerOk(st1, id)
    ensures PartiesSound(st1)
  {
    forall i | 0 <= i < |st1.subscribers|
      ensures SubscriberOk(st1, i)
    {
      assert SubscriberOk(st, i);
    }
    forall k | 0 <= k < |st1.cleaners|
      ensures CleanerOk(st1, k)
    {
      assert CleanerOk(st, k);
    }
    forall id | id in st1.calls
      ensures OwnerOk(st1, id)
    {
      if id in st.calls {
        assert OwnerOk(st, id);
      }
    }
  }

  /** One cleanup goroutine moves; everyone else and the lists stay. */
  lemma CleanerMoves(st: System, st1: System, k: nat)
    requires PartiesSound(st) && CallsGrow(st, st1) && SameLists(st, st1)
    requires k < |st.cleaners| && k < |st1.cleaners| && st1.subscribers == st.subscribers
    requires st1.cleaners == st.cleaners[k := st1.cleaners[k]]
    requires |st1.cleaners| == |st1.core.cleanups| && CleanerOk(st1, k)
    requires st.cleaners[k].call.Some? ==> st1.cleaners[k].call == st.cleaners[k].call
    requires forall id | id in st1.calls && id !in st.calls :: OwnerOk(st1, id)
    ensures PartiesSound(st1)
  {
    forall i | 0 <= i < |st1.subscribers|
      ensures SubscriberOk(st1, i)
    {
      assert SubscriberOk(st, i);
    }
    forall i | 0 <= i < |st1.cleaners|
      ensures CleanerOk(st1, i)
    {
      assert CleanerOk(st, i);
    }
    forall id | id in st1.calls
      ensures OwnerOk(st1, id)
    {
      if id in st.calls {
        assert OwnerOk(st, id);
      }
    }
  }

  /** Steps that move neither subscribers nor cleanup goroutines. */
  lemma NobodyMoves(st: System, st1: System)
    requires PartiesSound(st) && CallsGrow(st, st1) && SameLists(st, st1)
    requires st1.subscribers == st.subscribers && st1.cleaners == st.cleaners
    requires forall id | id in st1.calls && id !in st.calls :: OwnerOk(st1, id)
    ensures PartiesSound(st1)
  {
    forall h | 0 <= h < |st1.subscribers|
      ensures SubscriberOk(st1, h)
    {
      assert SubscriberOk(st, h);
    }
    forall k | 0 <= k < |st1.cleaners|
      ensures CleanerOk(st1, k)
    {
      assert CleanerOk(st, k);
    }
    forall id | id in st1.calls
      ensures OwnerOk(st1, id)
    {
      if id in st.calls {
        assert OwnerOk(st, id);
      }
    }
  }

  /** A subscription changes, or leaves the list, and perhaps a cleanup joins; no one else is affected. */
  lemma SubscriptionChanges(st: System, st1: System, h: nat)
    requires PartiesSound(st) && st1.calls == st.calls
    requires h < |st.core.subs| == |st1.core.subs| && |st1.subscribers| == |st1.core.subs|
    requires forall i | 0 <= i < |st.core.subs| && i != h ::
        st1.core.subs[i] == st.core.subs[i] && st1.subscribers[i] == st.subscribers[i] &&
        (IsRegistered(st1.core, i) <==> IsRegistered(st.core, i))
    requires st1.core.subs[h].source == st.core.subs[h].source && st1.subscribers[h].call == st.subscribers[h].call
    requires SubscriberOk(st1, h)
    requires st1.core.readErr == st.core.readErr && st1.socketOpen == st.socketOpen
    requires |st.cleaners| <= |st1.cleaners| == |st1.core.cleanups|
    requires forall k | 0 <= k < |st.cleaners| ::
        st1.core.cleanups[k] == st.core.cleanups[k] && st1.cleaners[k] == st.cleaners[k]
    requires forall k | |st.cleaners| <= k < |st1.cleaners| ::
        st1.cleaners[k] == Cleaner(Spawned, None) && !st1.core.cleanups[k].done
    ensures PartiesSound(st1)
  {
    forall i | 0 <= i < |st1.subscribers|
      ensures SubscriberOk(st1, i)
    {
      assert SubscriberOk(st, i);
    }
    forall k | 0 <= k < |st1.cleaners|
      ensures CleanerOk(st1, k)
    {
      if k < |st.cleaners| {
        assert CleanerOk(st, k);
      }
    }
    forall id | id in st1.calls
      ensures OwnerOk(st1, id)
    {
      assert OwnerOk(st, id);
    }
  }

  // ----- the steps that need more than a frame -----

  lemma NewSubscriberKeepsParties(st: System, source: Source)
    requires Sound(st.core) && PartiesSound(st)
    ensures Sound(NewSub(st.core, source))
    ensures PartiesSound(
      st.(core := NewSub(st.core, source), subscribers := st.subscribers + [Subscriber(AtLoop, None)]))
  {
    var st1 := st.(core := NewSub(st.core, source), subscribers := st.subscribers + [Subscriber(AtLoop, None)]);
    forall h | 0 <= h < |st1.subscribers|
      ensures SubscriberOk(st1, h)
    {
      if h < |st.subscribers| {
        assert SubscriberOk(st, h);
      }
    }
    forall k | 0 <= k < |st1.cleaners|
      ensures CleanerOk(st1, k)
    {
      assert CleanerOk(st, k);
    }
    forall id | id in st1.calls
      ensures OwnerOk(st1, id)
    {
      assert OwnerOk(st, id);
    }
  }

  lemma AdmitKeepsParties(st: System, h: nat)
    requires Sound(st.core) && PartiesSound(st) && h < |st.subscribers| && st.subscribers[h].pc.AtLoop?
    requires TryRegister(st.core, h).1.Admitted?
    ensures PartiesSound(DoRegister(st, h))
  {
    assert SubscriberOk(st, h);
    SubscriptionChanges(st, DoRegister(st, h), h);
  }

  lemma TurnAwayKeepsParties(st: System, h: nat)
    requires ListsSound(st.core) && PartiesSound(st) && h < |st.subscribers| && st.subscribers[h].pc.AtLoop?
    requires !TryRegister(st.core, h).1.Admitted?
    ensures PartiesSound(DoRegister(st, h))
  {
    assert SubscriberOk(st, h);
    assert SubscriberOk(DoRegister(st, h), h);
    SubscriberMoves(st, DoRegister(st, h), h);
  }

  lemma EndKeepsParties(st: System, h: nat)
    requires Sound(st.core) && PartiesSound(st) && h < |st.subscribers| && st.subscribers[h].pc.Ending?
    ensures Sound(DoEnd(st, h).core)
    ensures PartiesSound(DoEnd(st, h))
  {
    var pc := st.subscribers[h].pc;
    assert SubscriberOk(st, h);
    UnregisterSound(st.core, h, pc.reason, pc.unsubscribe);
    SubscriptionChanges(st, DoEnd(st, h), h);
  }

  lemma DispatchKeepsParties(st: System, source: Source, event: Payload)
    requires Sound(st.core) && PartiesSound(st)
    ensures Sound(DoDispatch(st, source, event).core)
    ensures PartiesSound(DoDispatch(st, source, event))
  {
    DispatchSound(st.core, source, event);
    if source in st.core.subscriptions {
      DeliverKeepsParties(st, source, event);
    } else {
      NobodyMoves(st, DoDispatch(st, source, event));
    }
  }

  lemma DeliverKeepsParties(st: System, source: Source, event: Payload)
    requires ListsSound(st.core) && PartiesSound(st) && source in st.core.subscriptions
    ensures PartiesSound(DoDispatch(st, source, event))
  {
    var h := st.core.subscriptions[source];
    assert IsRegistered(st.core, h);
    assert SubscriberOk(st, h);
    if |st.core.subs[h].events| < EVENT_CAPACITY {
      SubscriptionChanges(st, DoDispatch(st, source, event), h);
    } else {
      OverflowKeepsParties(st, source, event);
    }
  }

  lemma OverflowKeepsParties(st: System, source: Source, event: Payload)
    requires ListsSound(st.core) && PartiesSound(st) && source in st.core.subscriptions
    requires |st.core.subs[st.core.subscriptions[source]].events| >= EVENT_CAPACITY
    ensures PartiesSound(DoDispatch(st, source, event))
  {
    var h := st.core.subscriptions[source];
    assert IsRegistered(st.core, h);
    assert SubscriberOk(st, h);
    SubscriptionChanges(st, DoDispatch(st, source, event), h);
  }

  lemma TakeKeepsParties(st: System, h: nat)
    requires Sound(st.core) && PartiesSound(st) && h < |st.subscribers| && st.core.subs[h].events != []
    ensures Sound(TakeEvent(st.core, h))
    ensures PartiesSound(st.(core := TakeEvent(st.core, h)))
  {
    TakeEventSound(st.core, h);
    assert SubscriberOk(st, h);
    SubscriptionChanges(st, st.(core := TakeEvent(st.core, h)), h);
  }

  lemma RemoveCleanupKeepsParties(st: System, k: nat)
    requires Sound(st.core) && PartiesSound(st) && k < |st.cleaners| && st.cleaners[k].pc.Removing?
    ensures Sound(FinishCleanup(st.core, k))
    ensures PartiesSound(SetCleaner(st, k, Gone).(core := FinishCleanup(st.core, k)))
  {
    var st1 := SetCleaner(st, k, Gone).(core := FinishCleanup(st.core, k));
    FinishCleanupSound(st.core, k);
    forall h | 0 <= h < |st1.subscribers|
      ensures SubscriberOk(st1, h)
    {
      assert SubscriberOk(st, h);
    }
    forall i | 0 <= i < |st1.cleaners|
      ensures CleanerOk(st1, i)
    {
      assert CleanerOk(st, i);
    }
    forall id | id in st1.calls
      ensures OwnerOk(st1, id)
    {
      assert OwnerOk(st, id);
    }
  }

  lemma ReadFailsKeepsParties(st: System)
    requires Sound(st.core) && PartiesSound(st) && WellFormed(st)
    ensures Sound(DoReadFails(st).core)
    ensures PartiesSound(DoReadFails(st))
  {
    var st1 := DoReadFails(st);
    FailPendingSound(st.core);
    forall h | 0 <= h < |st1.subscribers|
      ensures SubscriberOk(st1, h)
    {
      assert SubscriberOk(st, h);
      if h in st.core.subscriptions.Values {
        assert IsRegistered(st.core, h);
      }
      if IsRegistered(st.core, h) {
        assert h in st.core.subscriptions.Values;
      }
    }
    forall k | 0 <= k < |st1.cleaners|
      ensures CleanerOk(st1, k)
    {
      assert CleanerOk(st, k);
    }
    forall id | id in st1.calls
      ensures OwnerOk(st1, id)
    {
      assert OwnerOk(st, id);
    }
  }
}
