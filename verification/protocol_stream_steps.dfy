/** The steps that do move streams, requests, events or the lists keep StreamsSound. */
module ProtocolStreamSteps {
  import opened Wrappers
  import opened ClientCore
  import opened Protocol
  import opened ProtocolCalls
  import opened ProtocolParties
  import opened ProtocolStreams

  // ----- writing a request -----

  lemma WriteKeepsSource(st: System, id: nat, ok: bool, delivered: bool, source: Source)
    requires CallsSound(st) && PartiesSound(st) && Sound(st.core) && SourceOk(st, source)
    requires id in st.calls && st.calls[id].pc.Registered? && (delivered ==> st.socketOpen)
    ensures SourceOk(DoWrite(st, id, ok, delivered), source)
  {
    assert CallOk(st, id) && OwnerOk(st, id);
    match st.calls[id].request
    case SubscribeTo(s, h) =>
      assert SubscriberOk(st, h);
      WriteSubscribeKeepsSource(st, id, ok, delivered, source, h);
    case UnsubscribeFrom(s, k) =>
      assert CleanerOk(st, k);
      WriteUnsubscribeKeepsSource(st, id, ok, delivered, source, k);
    case Other(_) =>
      WriteOtherKeepsSource(st, id, ok, delivered, source);
  }

  lemma WriteOtherKeepsSource(st: System, id: nat, ok: bool, delivered: bool, source: Source)
    requires SourceOk(st, source) && id in st.calls && st.calls[id].pc.Registered? && st.calls[id].request.Other?
    ensures SourceOk(DoWrite(st, id, ok, delivered), source)
  {
    var st1 := DoWrite(st, id, ok, delivered);
    assert forall i :: SubAt(st1, i, source) <==> SubAt(st, i, source);
    assert forall i :: UnsubAt(st1, i, source) <==> UnsubAt(st, i, source);
    assert forall h :: Unwritten(st1, h, source) ==> Unwritten(st, h, source);
  }

  lemma WriteSubscribeKeepsSource(st: System, id: nat, ok: bool, delivered: bool, source: Source, h: nat)
    requires SourceOk(st, source) && id in st.calls && st.calls[id].pc.Registered? && (delivered ==> st.socketOpen)
    requires st.calls[id].request.SubscribeTo? && st.calls[id].request.sub == h
    requires h < |st.subscribers| == |st.core.subs| && SubscriberOk(st, h) && st.subscribers[h].call == Some(id)
    requires st.calls[id].request.source == st.core.subs[h].source
    requires id !in st.decided && st.subscribers[h].pc == InCall(id)
    ensures SourceOk(DoWrite(st, id, ok, delivered), source)
  {
    var st1 := DoWrite(st, id, ok, delivered);
    assert forall i :: i != |st.toTarget| ==> (SubAt(st1, i, source) <==> SubAt(st, i, source));
    assert forall i :: UnsubAt(st1, i, source) <==> UnsubAt(st, i, source);
    assert forall g :: Unwritten(st1, g, source) ==> Unwritten(st, g, source) && g != h;
    if source == st.core.subs[h].source {
      assert Unwritten(st, h, source);
    }
  }

  lemma WriteUnsubscribeKeepsSource(st: System, id: nat, ok: bool, delivered: bool, source: Source, k: nat)
    requires SourceOk(st, source) && id in st.calls && st.calls[id].pc.Registered? && (delivered ==> st.socketOpen)
    requires st.calls[id].request.UnsubscribeFrom? && st.calls[id].request.cleanup == k
    requires k < |st.cleaners| && st.cleaners[k].call == Some(id)
    requires id !in st.decided
    requires st.calls[id].request.source == source && st.socketOpen && !st.core.readErr ==>
      source !in st.core.subscriptions && source in st.core.unsubscribing && st.core.unsubscribing[source] == k
    ensures SourceOk(DoWrite(st, id, ok, delivered), source)
  {
    var st1 := DoWrite(st, id, ok, delivered);
    assert forall i :: SubAt(st1, i, source) <==> SubAt(st, i, source);
    assert forall i :: i != |st.toTarget| ==> (UnsubAt(st1, i, source) <==> UnsubAt(st, i, source));
    assert forall g :: Unwritten(st1, g, source) ==> Unwritten(st, g, source);
  }

  // ----- registering and unregistering -----

  lemma AdmitKeepsSource(st: System, h: nat, source: Source)
    requires PartiesSound(st) && h < |st.subscribers| && st.subscribers[h].pc.AtLoop? && SourceOk(st, source)
    requires TryRegister(st.core, h).1.Admitted?
    ensures SourceOk(DoRegister(st, h), source)
  {
    var st1 := DoRegister(st, h);
    assert SubscriberOk(st, h);
    assert forall i :: SubAt(st1, i, source) <==> SubAt(st, i, source);
    assert forall i :: UnsubAt(st1, i, source) <==> UnsubAt(st, i, source);
    assert forall g :: Unwritten(st1, g, source) ==> g == h || Unwritten(st, g, source);
    if source == st.core.subs[h].source && st.socketOpen {
      assert Silent(st, source);
      assert forall g :: !Unwritten(st, g, source);
      assert IsRegistered(st1.core, h);
    }
  }

  /** A registered subscription ends. A refused one leaves silence; any other leaves a cleanup behind. */
  ghost predicate Unregisters(st: System, st1: System, h: nat, source: Source, unsubscribe: bool) {
    && h < |st.core.subs| == |st1.core.subs|
    && st.core.subs[h].source == source && IsRegistered(st.core, h)
    && st1.core.subscriptions == st.core.subscriptions - {source}
    && (forall g | 0 <= g < |st.core.subs| :: st1.core.subs[g].source == st.core.subs[g].source)
    && (if unsubscribe then
          && st1.core.unsubscribing == st.core.unsubscribing[source := |st.cleaners|]
          && st1.cleaners == st.cleaners + [Cleaner(Spawned, None)]
        else
          st1.core.unsubscribing == st.core.unsubscribing && st1.cleaners == st.cleaners)
    && |st1.subscribers| == |st.subscribers|
    && (forall g | 0 <= g < |st.subscribers| ::
          (g != h ==> st1.subscribers[g] == st.subscribers[g]) && st1.subscribers[g].call == st.subscribers[g].call)
    && st1.calls == st.calls && st1.streams == st.streams
    && st1.toTarget == st.toTarget && st1.fromTarget == st.fromTarget
    && st1.decided == st.decided && st1.owed == st.owed
    && st1.core.readErr == st.core.readErr && st1.socketOpen == st.socketOpen
  }

  lemma UnregisterKeepsSource(st: System, st1: System, h: nat, source: Source, unsubscribe: bool, other: Source)
    requires ListsSound(st.core) && PartiesSound(st) && SourceOk(st, other)
    requires Unregisters(st, st1, h, source, unsubscribe)
    requires !Unwritten(st, h, source) && !Unwritten(st1, h, source)
    requires !unsubscribe ==>
      Decided(st, st.subscribers[h].call) && st.decided[st.subscribers[h].call.value].Refused?
    ensures SourceOk(st1, other)
  {
    if other == source {
      UnregisterKeepsOwnSource(st, st1, h, source, unsubscribe);
    } else {
      UnregisterKeepsOtherSource(st, st1, h, source, unsubscribe, other);
    }
  }

  lemma UnregisterKeepsOwnSource(st: System, st1: System, h: nat, source: Source, unsubscribe: bool)
    requires ListsSound(st.core) && |st.subscribers| == |st.core.subs| && |st.cleaners| == |st.core.cleanups|
    requires Unregisters(st, st1, h, source, unsubscribe) && SourceOk(st, source)
    requires !Unwritten(st, h, source) && !Unwritten(st1, h, source)
    requires !unsubscribe ==>
      Decided(st, st.subscribers[h].call) && st.decided[st.subscribers[h].call.value].Refused?
    ensures SourceOk(st1, source)
  {
    assert forall i :: SubAt(st1, i, source) <==> SubAt(st, i, source);
    assert forall i :: UnsubAt(st1, i, source) <==> UnsubAt(st, i, source);
    assert forall g :: Unwritten(st1, g, source) <==> Unwritten(st, g, source);
  }

  lemma UnregisterKeepsOtherSource(st: System, st1: System, h: nat, source: Source, unsubscribe: bool, other: Source)
    requires |st.subscribers| == |st.core.subs|
    requires other in st.core.subscriptions ==> st.core.subscriptions[other] < |st.core.subs|
    requires other in st.core.unsubscribing ==> st.core.unsubscribing[other] < |st.cleaners|
    requires Unregisters(st, st1, h, source, unsubscribe) && other != source && SourceOk(st, other)
    ensures SourceOk(st1, other)
  {
    assert forall i :: SubAt(st1, i, other) <==> SubAt(st, i, other);
    assert forall i :: UnsubAt(st1, i, other) <==> UnsubAt(st, i, other);
    assert forall g :: Unwritten(st1, g, other) <==> Unwritten(st, g, other);
  }

  lemma RemoveCleanupKeepsSource(st: System, k: nat, source: Source)
    requires Sound(st.core) && CallsSound(st) && PartiesSound(st) && SourceOk(st, source)
    requires k < |st.cleaners| && st.cleaners[k].pc.Removing?
    ensures SourceOk(SetCleaner(st, k, Gone).(core := FinishCleanup(st.core, k)), source)
  {
    var st1 := SetCleaner(st, k, Gone).(core := FinishCleanup(st.core, k));
    assert CleanerOk(st, k);
    assert forall i :: SubAt(st1, i, source) <==> SubAt(st, i, source);
    assert forall i :: UnsubAt(st1, i, source) <==> UnsubAt(st, i, source);
    assert forall g :: Unwritten(st1, g, source) <==> Unwritten(st, g, source);
    if st.socketOpen && !st.core.readErr && source == st.core.cleanups[k].source {
      assert st.core.unsubscribing[source] == k;
      var id := st.cleaners[k].call.value;
      assert CallOk(st, id);
      forall i | EventAt(st.fromTarget, i, source)
        ensures !InFlight(st.fromTarget[i + 1..], id)
      {
      }
    }
  }

  // ----- the read loop -----

  lemma PopKeepsSource(st: System, st1: System, source: Source)
    requires CallsSound(st) && SourceOk(st, source) && st.fromTarget != []
    requires st1.fromTarget == st.fromTarget[1..]
    requires st1.streams == st.streams && st1.toTarget == st.toTarget && st1.calls == st.calls
    requires st1.decided == st.decided && st1.owed == st.owed
    requires st1.core.subs == st.core.subs && st1.core.subscriptions == st.core.subscriptions
    requires st1.core.unsubscribing == st.core.unsubscribing && st1.core.readErr == st.core.readErr
    requires st1.subscribers == st.subscribers && st1.cleaners == st.cleaners && st1.socketOpen == st.socketOpen
    ensures SourceOk(st1, source)
  {
    var q, q1 := st.fromTarget, st1.fromTarget;
    assert forall i :: SubAt(st1, i, source) <==> SubAt(st, i, source);
    assert forall i :: UnsubAt(st1, i, source) <==> UnsubAt(st, i, source);
    assert forall g :: Unwritten(st1, g, source) <==> Unwritten(st, g, source);
    assert forall i :: EventAt(q1, i, source) <==> i >= 0 && EventAt(q, i + 1, source);
    if st.socketOpen && !st.core.readErr && source in st.core.unsubscribing {
      var k := st.core.unsubscribing[source];
      forall id: nat | AnswerComesLast(st, source, id)
        ensures AnswerComesLast(st1, source, id)
      {
        forall i | EventAt(q1, i, source) && id !in st.owed
          ensures InFlight(q1[i + 1..], id)
        {
          assert EventAt(q, i + 1, source);
          assert q1[i + 1..] == q[(i + 1) + 1..];
        }
      }
    }
  }

  /** An event that finds its subscription full ends it. The event in hand shows that the subscribe was written. */
  lemma OverflowKeepsSource(st: System, rest: System, st1: System, h: nat, source: Source, other: Source)
    requires ListsSound(rest.core) && CallsSound(rest) && PartiesSound(rest)
    requires SourceOk(st, source) && SourceOk(rest, other)
    requires EventAt(st.fromTarget, 0, source) && rest == st.(fromTarget := st.fromTarget[1..])
    requires Unregisters(rest, st1, h, source, true) && st1.subscribers == rest.subscribers
    ensures SourceOk(st1, other)
  {
    if Unwritten(rest, h, source) {
      assert Unwritten(st, h, source);
      assert SubscriberOk(rest, h);
      if rest.subscribers[h].pc.InCall? {
        assert CallOk(rest, rest.subscribers[h].pc.id);
      }
      UnregisterDeadKeepsSource(rest, st1, h, source, other);
    } else {
      UnregisterKeepsSource(rest, st1, h, source, true, other);
    }
  }

  // Without a live connection the lists no longer matter.
  lemma UnregisterDeadKeepsSource(st: System, st1: System, h: nat, source: Source, other: Source)
    requires SourceOk(st, other) && Unregisters(st, st1, h, source, true) && st1.subscribers == st.subscribers
    requires |st.subscribers| == |st.core.subs|
    requires !st.socketOpen || st.core.readErr
    ensures SourceOk(st1, other)
  {
    assert forall i :: SubAt(st1, i, other) <==> SubAt(st, i, other);
    assert forall i :: UnsubAt(st1, i, other) <==> UnsubAt(st, i, other);
    assert forall g :: Unwritten(st1, g, other) <==> Unwritten(st, g, other);
  }

  lemma ReadFailsKeepsSource(st: System, source: Source)
    requires WellFormed(st) && SourceOk(st, source)
    ensures SourceOk(DoReadFails(st), source)
  {
    var st1 := DoReadFails(st);
    assert forall i :: SubAt(st1, i, source) <==> SubAt(st, i, source);
    assert forall g :: Unwritten(st1, g, source) <==> Unwritten(st, g, source);
  }

  // ----- the target -----

  // The queue behind the request the target reads.
  lemma NextRequest(st: System, outcome: Outcome, ends: bool, source: Source)
    requires WireOk(st) && st.toTarget != []
    ensures var st1 := DoTargetReads(st, outcome, ends);
      && (forall i :: SubAt(st1, i, source) <==> i >= 0 && SubAt(st, i + 1, source))
      && (forall i :: UnsubAt(st1, i, source) <==> i >= 0 && UnsubAt(st, i + 1, source))
      && (forall g :: Unwritten(st1, g, source) <==> Unwritten(st, g, source))
  {
  }

  lemma TargetReadsKeepsSource(st: System, outcome: Outcome, ends: bool, source: Source)
    requires ListsSound(st.core) && CallsSound(st) && PartiesSound(st) && st.toTarget != [] && SourceOk(st, source)
    ensures SourceOk(DoTargetReads(st, outcome, ends), source)
  {
    var id := st.toTarget[0];
    assert OwnerOk(st, id) && CallOk(st, id);
    NextRequest(st, outcome, ends, source);
    if source in st.core.subscriptions {
      assert SubscriberOk(st, st.core.subscriptions[source]);
    }
    if source in st.core.unsubscribing {
      assert CleanerOk(st, st.core.unsubscribing[source]);
    }
    var request := st.calls[id].request;
    if request.SubscribeTo? && request.source == source {
      TargetReadsSubscribe(st, outcome, ends, source);
    } else if request.UnsubscribeFrom? && request.source == source {
      forall i | UnsubAt(st, i, source) && st.calls[st.toTarget[i]].request.cleanup == request.cleanup
        ensures st.toTarget[i] == id
      {
        assert OwnerOk(st, st.toTarget[i]);
      }
      TargetReadsUnsubscribe(st, outcome, ends, source);
    } else {
      TargetReadsOther(st, outcome, ends, source);
    }
  }

  lemma TargetReadsSubscribe(st: System, outcome: Outcome, ends: bool, source: Source)
    requires WireOk(st) && SourceOk(st, source) && SubAt(st, 0, source)
    requires var id, h := st.toTarget[0], st.calls[st.toTarget[0]].request.sub;
      h < |st.subscribers| && st.subscribers[h].call == Some(id)
    requires source in st.core.unsubscribing ==>
      var k := st.core.unsubscribing[source];
      k < |st.cleaners| && st.cleaners[k].call != Some(st.toTarget[0])
    ensures SourceOk(DoTargetReads(st, outcome, ends), source)
  {
    NextRequest(st, outcome, ends, source);
    var st1 := DoTargetReads(st, outcome, ends);
    assert forall i :: !SubAt(st1, i, source);
  }

  lemma TargetReadsUnsubscribe(st: System, outcome: Outcome, ends: bool, source: Source)
    requires WireOk(st) && SourceOk(st, source) && UnsubAt(st, 0, source)
    requires var id, k := st.toTarget[0], st.calls[st.toTarget[0]].request.cleanup;
      && k < |st.cleaners| && st.cleaners[k].call == Some(id)
      && (forall i | UnsubAt(st, i, source) && st.calls[st.toTarget[i]].request.cleanup == k :: st.toTarget[i] == id)
    ensures SourceOk(DoTargetReads(st, outcome, ends), source)
  {
    NextRequest(st, outcome, ends, source);
  }

  lemma TargetReadsOther(st: System, outcome: Outcome, ends: bool, source: Source)
    requires WireOk(st) && st.toTarget != [] && SourceOk(st, source)
    requires !SubAt(st, 0, source) && !UnsubAt(st, 0, source)
    requires source in st.core.subscriptions ==>
      var h := st.core.subscriptions[source];
      h < |st.subscribers| && st.subscribers[h].call != Some(st.toTarget[0])
    requires source in st.core.unsubscribing ==>
      var k := st.core.unsubscribing[source];
      k < |st.cleaners| && st.cleaners[k].call != Some(st.toTarget[0])
    ensures SourceOk(DoTargetReads(st, outcome, ends), source)
  {
    NextRequest(st, outcome, ends, source);
  }

  lemma TargetSendsKeepsSource(st: System, st1: System, m: Message, source: Source)
    requires WireOk(st) && SourceOk(st, source)
    requires m.Notification? ==> st.streams[m.source] > 0
    requires m.Response? ==> m.id in st.owed
    requires st1 == st.(owed := if m.Response? then st.owed - {m.id} else st.owed, fromTarget := st.fromTarget + [m])
    ensures SourceOk(st1, source)
  {
    var q, q1 := st.fromTarget, st1.fromTarget;
    assert forall i :: SubAt(st1, i, source) <==> SubAt(st, i, source);
    assert forall i :: UnsubAt(st1, i, source) <==> UnsubAt(st, i, source);
    assert forall g :: Unwritten(st1, g, source) <==> Unwritten(st, g, source);
    assert forall i ::
        EventAt(q1, i, source) ==> EventAt(q, i, source) || (i == |q| && m.Notification? && m.source == source);
    if st.socketOpen && !st.core.readErr && source !in st.core.subscriptions && source in st.core.unsubscribing {
      var k := st.core.unsubscribing[source];
      if Decided(st, st.cleaners[k].call) && st.decided[st.cleaners[k].call.value].Success? {
        SendKeepsAnswerLast(st, st1, m, source, st.cleaners[k].call.value);
      }
    }
  }

  lemma SendKeepsAnswerLast(st: System, st1: System, m: Message, source: Source, id: nat)
    requires AnswerComesLast(st, source, id)
    requires st1.owed == if m.Response? then st.owed - {m.id} else st.owed
    requires st1.fromTarget == st.fromTarget + [m]
    requires m.Notification? && m.source == source ==> id in st.owed
    ensures AnswerComesLast(st1, source, id)
  {
    var q, q1 := st.fromTarget, st1.fromTarget;
    forall i | EventAt(q1, i, source) && id !in st1.owed
      ensures InFlight(q1[i + 1..], id)
    {
      if id in st.owed {
        assert q1[i + 1..][|q| - i - 1] == m;
      } else {
        assert EventAt(q, i, source);
        var j :| 0 <= j < |q[i + 1..]| && q[i + 1..][j].Response? && q[i + 1..][j].id == id;
        assert q1[i + 1..][j] == q[i + 1..][j];
      }
    }
  }
}
