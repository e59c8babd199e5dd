/** The invariant holds in every reachable state. */
module ProtocolInvariant {
  import opened Wrappers
  import opened ClientCore
  import opened Protocol
  import opened ProtocolCalls
  import opened ProtocolParties
  import opened ProtocolStreams
  import opened ProtocolStreamSteps

  /** After the read loop has died it stays dead, and only then. */
  ghost predicate LoopDeadOk(st: System) {
    st.loop.Dead? <==> st.core.readErr
  }

  ghost predicate Inv(st: System) {
    && Sound(st.core)
    && CallsSound(st)
    && PartiesSound(st)
    && StreamsSound(st)
    && LoopDeadOk(st)
  }

  lemma InvIsWellFormed(st: System)
    requires Inv(st)
    ensures WellFormed(st)
  {
    forall id | id in st.calls
      ensures st.calls[id].chan < |st.core.mailboxes|
    {
      assert CallOk(st, id);
    }
    forall h | 0 <= h < |st.subscribers|
      ensures st.subscribers[h].pc.Waits? ==> st.subscribers[h].pc.on < |st.cleaners|
      ensures st.subscribers[h].pc.InCall? ==> st.subscribers[h].pc.id in st.calls
    {
      assert SubscriberOk(st, h);
    }
    forall k | 0 <= k < |st.cleaners|
      ensures st.cleaners[k].pc.Unsubscribing? ==> st.cleaners[k].pc.id in st.calls
    {
      assert CleanerOk(st, k);
    }
  }

  /** A step that leaves the target, the wire, the lists and the deliveries alone. */
  lemma SideStep(st: System, st1: System)
    requires Inv(st) && Aside(st, st1)
    requires Sound(st1.core) && CallsSound(st1) && PartiesSound(st1) && LoopDeadOk(st1)
    ensures Inv(st1)
  {
    AsideKeepsStreams(st, st1);
  }

  // ----- Call -----

  /** `mid` is `st` with one more call, `id`, listed and not yet written. */
  ghost predicate Begins(st: System, mid: System, id: nat, request: Request) {
    && id !in st.calls && id in mid.calls
    && mid == st.(core := mid.core, calls := mid.calls)
    && mid.calls == st.calls[id := Call(request, mid.calls[id].chan, Registered)]
    && SameLists(st, mid) && mid.core.closed == st.core.closed
    && Sound(mid.core) && CallsSound(mid)
  }

  lemma BeginRequestBegins(st: System, request: Request)
    requires Sound(st.core) && CallsSound(st) && !st.core.closed
    ensures BeginRequest(st, request).1.Some?
    ensures Begins(st, BeginRequest(st, request).0, BeginRequest(st, request).1.value, request)
  {
    BeginCallSound(st.core);
    BeginRequestKeepsCalls(st, request);
  }

  lemma BeginOtherKeepsInv(st: System, name: string)
    requires Inv(st) && WellFormed(st)
    ensures Inv(BeginRequest(st, Other(name)).0)
  {
    if !st.core.closed {
      BeginRequestBegins(st, Other(name));
      var r := BeginRequest(st, Other(name));
      OtherBegins(st, r.0, r.1.value, name);
    }
  }

  lemma OtherBegins(st: System, mid: System, id: nat, name: string)
    requires Inv(st) && WellFormed(st) && Begins(st, mid, id, Other(name))
    ensures Inv(mid)
  {
    NobodyMoves(st, mid);
    SideStep(st, mid);
  }

  lemma WriteKeepsInv(st: System, id: nat, ok: bool, delivered: bool)
    requires Inv(st) && WellFormed(st) && Enabled(st, Write(id, ok, delivered))
    ensures Inv(DoWrite(st, id, ok, delivered))
  {
    var st1 := DoWrite(st, id, ok, delivered);
    WriteKeepsCalls(st, id, ok, delivered);
    NobodyMoves(st, st1);
    forall source ensures SourceOk(st1, source) {
      assert SourceOk(st, source);
      WriteKeepsSource(st, id, ok, delivered, source);
    }
  }

  lemma GiveUpKeepsInv(st: System, id: nat)
    requires Inv(st) && WellFormed(st) && Enabled(st, GiveUp(id))
    ensures Inv(SetCallPc(st, id, Leaving(GaveUp)))
  {
    var st1 := SetCallPc(st, id, Leaving(GaveUp));
    LeaveKeepsCalls(st, id);
    NobodyMoves(st, st1);
    SideStep(st, st1);
  }

  lemma ForgetKeepsInv(st: System, id: nat)
    requires Inv(st) && WellFormed(st) && Enabled(st, ForgetCall(id))
    ensures Inv(DoForget(st, id))
  {
    var st1 := DoForget(st, id);
    ForgetKeepsCalls(st, id);
    NobodyMoves(st, st1);
    SideStep(st, st1);
  }

  lemma ReceiveKeepsInv(st: System, id: nat)
    requires Inv(st) && WellFormed(st) && Enabled(st, Receive(id))
    ensures Inv(DoReceive(st, id))
  {
    var st1 := DoReceive(st, id);
    ReceiveKeepsSound(st, id);
    ReceiveKeepsCalls(st, id);
    NobodyMoves(st, st1);
    SideStep(st, st1);
  }

  // ----- Subscribe and its watcher -----

  lemma NewSubscriberKeepsInv(st: System, source: Source)
    requires Inv(st) && WellFormed(st)
    ensures Inv(ApplySubscribing(st, NewSubscriber(source)))
  {
    var st1 := ApplySubscribing(st, NewSubscriber(source));
    SameCallsKeepsCalls(st, st1);
    NewSubscriberKeepsParties(st, source);
    AsideKeepsStreams(st, st1);
  }

  lemma RegisterKeepsInv(st: System, h: nat)
    requires Inv(st) && WellFormed(st) && Enabled(st, Register(h))
    ensures Inv(DoRegister(st, h))
  {
    assert SubscriberOk(st, h);
    if TryRegister(st.core, h).1.Admitted? {
      AdmitKeepsInv(st, h);
    } else {
      TurnAwayKeepsParties(st, h);
      SubscriberStep(st, DoRegister(st, h), h);
    }
  }

  lemma AdmitKeepsInv(st: System, h: nat)
    requires Inv(st) && WellFormed(st) && Enabled(st, Register(h)) && TryRegister(st.core, h).1.Admitted?
    ensures Inv(DoRegister(st, h))
  {
    assert SubscriberOk(st, h);
    TryRegisterSound(st.core, h);
    SameCallsKeepsCalls(st, DoRegister(st, h));
    AdmitKeepsParties(st, h);
    AdmitKeepsStreams(st, h);
  }

  lemma AdmitKeepsStreams(st: System, h: nat)
    requires PartiesSound(st) && StreamsSound(st) && h < |st.subscribers| && st.subscribers[h].pc.AtLoop?
    requires TryRegister(st.core, h).1.Admitted?
    ensures StreamsSound(DoRegister(st, h))
  {
    forall source ensures SourceOk(DoRegister(st, h), source) {
      assert SourceOk(st, source);
      AdmitKeepsSource(st, h, source);
    }
  }

  /** One subscriber moves on by itself: it does not become an unwritten one. */
  lemma SubscriberStep(st: System, st1: System, h: nat)
    requires Inv(st) && h < |st.subscribers| == |st1.subscribers|
    requires st1 == st.(subscribers := st1.subscribers)
    requires st1.subscribers == st.subscribers[h := st1.subscribers[h]]
    requires st1.subscribers[h].call == st.subscribers[h].call
    requires !st1.subscribers[h].pc.BeforeCall? && !st1.subscribers[h].pc.InCall?
    requires PartiesSound(st1)
    ensures Inv(st1)
  {
    SameCallsKeepsCalls(st, st1);
    SideStep(st, st1);
  }

  lemma SubscriberMovesOn(st: System, h: nat, pc: SubscriberPc)
    requires Inv(st) && WellFormed(st) && h < |st.subscribers|
    requires !pc.BeforeCall? && !pc.InCall?
    requires SubscriberOk(st, h) ==> SubscriberOk(SetSubscriber(st, h, pc), h)
    ensures Inv(SetSubscriber(st, h, pc))
  {
    var st1 := SetSubscriber(st, h, pc);
    assert SubscriberOk(st, h);
    SubscriberMoves(st, st1, h);
    SubscriberStep(st, st1, h);
  }

  lemma BeginSubscribeKeepsInv(st: System, h: nat)
    requires Inv(st) && WellFormed(st) && Enabled(st, BeginSubscribe(h))
    ensures Inv(DoBeginSubscribe(st, h))
  {
    assert SubscriberOk(st, h);
    if st.core.closed {
      SubscriberMovesOn(st, h, Ending(CallFailed(false), true));
    } else {
      BeginRequestBegins(st, SubscribeTo(st.core.subs[h].source, h));
      var r := BeginRequest(st, SubscribeTo(st.core.subs[h].source, h));
      SubscribeBegins(st, r.0, DoBeginSubscribe(st, h), r.1.value, h);
    }
  }

  lemma SubscribeBegins(st: System, mid: System, st1: System, id: nat, h: nat)
    requires Inv(st) && WellFormed(st) && h < |st.subscribers| && st.subscribers[h].pc.BeforeCall?
    requires Begins(st, mid, id, SubscribeTo(st.core.subs[h].source, h))
    requires st1 == mid.(subscribers := st.subscribers[h := Subscriber(InCall(id), Some(id))])
    ensures Inv(st1)
  {
    assert SubscriberOk(st, h);
    assert SubscriberOk(st1, h);
    SameCallsKeepsCalls(mid, st1);
    SubscriberMoves(st, st1, h);
    SubscribeBeginsAside(st, mid, st1, id, h);
    SideStep(st, st1);
  }

  lemma SubscribeBeginsAside(st: System, mid: System, st1: System, id: nat, h: nat)
    requires WireOk(st) && WellFormed(st)
    requires h < |st.subscribers| && st.subscribers[h].pc.BeforeCall? && SubscriberOk(st, h)
    requires Begins(st, mid, id, SubscribeTo(st.core.subs[h].source, h))
    requires st1 == mid.(subscribers := st.subscribers[h := Subscriber(InCall(id), Some(id))])
    ensures Aside(st, st1)
  {
  }

  lemma EndKeepsInv(st: System, h: nat)
    requires Inv(st) && WellFormed(st) && Enabled(st, End(h))
    ensures Inv(DoEnd(st, h))
  {
    assert SubscriberOk(st, h);
    if IsRegistered(st.core, h) {
      EndRegisteredKeepsInv(st, h);
    } else {
      SubscriberMovesOn(st, h, Finished);
    }
  }

  lemma EndRegisteredKeepsInv(st: System, h: nat)
    requires Inv(st) && WellFormed(st) && Enabled(st, End(h)) && IsRegistered(st.core, h)
    ensures Inv(DoEnd(st, h))
  {
    SameCallsKeepsCalls(st, DoEnd(st, h));
    EndKeepsParties(st, h);
    EndKeepsStreams(st, h);
  }

  lemma EndKeepsStreams(st: System, h: nat)
    requires Inv(st) && WellFormed(st) && Enabled(st, End(h)) && IsRegistered(st.core, h)
    ensures StreamsSound(DoEnd(st, h))
  {
    assert SubscriberOk(st, h);
    if !st.subscribers[h].pc.unsubscribe {
      assert CallOk(st, st.subscribers[h].call.value);
    }
    EndUnregisters(st, h);
    UnregisterKeepsStreams(st, DoEnd(st, h), h, st.core.subs[h].source, st.subscribers[h].pc.unsubscribe);
  }

  lemma EndUnregisters(st: System, h: nat)
    requires |st.cleaners| == |st.core.cleanups| && h < |st.subscribers| == |st.core.subs|
    requires st.subscribers[h].pc.Ending? && IsRegistered(st.core, h)
    ensures var source := st.core.subs[h].source;
      && Unregisters(st, DoEnd(st, h), h, source, st.subscribers[h].pc.unsubscribe)
      && !Unwritten(st, h, source) && !Unwritten(DoEnd(st, h), h, source)
  {
  }

  lemma UnregisterKeepsStreams(st: System, st1: System, h: nat, source: Source, unsubscribe: bool)
    requires ListsSound(st.core) && PartiesSound(st) && StreamsSound(st)
    requires Unregisters(st, st1, h, source, unsubscribe)
    requires !Unwritten(st, h, source) && !Unwritten(st1, h, source)
    requires !unsubscribe ==>
      Decided(st, st.subscribers[h].call) && st.decided[st.subscribers[h].call.value].Refused?
    ensures StreamsSound(st1)
  {
    forall other ensures SourceOk(st1, other) {
      assert SourceOk(st, other);
      UnregisterKeepsSource(st, st1, h, source, unsubscribe, other);
    }
  }

  lemma TakeKeepsInv(st: System, h: nat)
    requires Inv(st) && WellFormed(st) && Enabled(st, Take(h))
    ensures Inv(ApplySubscription(st, Take(h)))
  {
    var st1 := ApplySubscription(st, Take(h));
    SameCallsKeepsCalls(st, st1);
    TakeKeepsParties(st, h);
    AsideKeepsStreams(st, st1);
  }

  // ----- unsubscribeAsync -----

  lemma CleanerMovesOn(st: System, st1: System, k: nat)
    requires Inv(st) && WellFormed(st) && k < |st.cleaners| == |st1.cleaners|
    requires st1 == st.(cleaners := st1.cleaners, socketOpen := st1.socketOpen) && (st1.socketOpen ==> st.socketOpen)
    requires st1.cleaners == st.cleaners[k := st1.cleaners[k]] && st1.cleaners[k].call == st.cleaners[k].call
    requires CleanerOk(st, k) ==> CleanerOk(st1, k)
    ensures Inv(st1)
  {
    assert CleanerOk(st, k);
    SameCallsKeepsCalls(st, st1);
    CleanerMoves(st, st1, k);
    SideStep(st, st1);
  }

  lemma BeginUnsubscribeKeepsInv(st: System, k: nat)
    requires Inv(st) && WellFormed(st) && Enabled(st, BeginUnsubscribe(k))
    ensures Inv(DoBeginUnsubscribe(st, k))
  {
    assert CleanerOk(st, k);
    if st.core.closed {
      CleanerMovesOn(st, DoBeginUnsubscribe(st, k), k);
    } else {
      BeginRequestBegins(st, UnsubscribeFrom(st.core.cleanups[k].source, k));
      var r := BeginRequest(st, UnsubscribeFrom(st.core.cleanups[k].source, k));
      UnsubscribeBegins(st, r.0, DoBeginUnsubscribe(st, k), r.1.value, k);
    }
  }

  lemma UnsubscribeBegins(st: System, mid: System, st1: System, id: nat, k: nat)
    requires Inv(st) && WellFormed(st) && k < |st.cleaners| && st.cleaners[k].pc.Spawned?
    requires Begins(st, mid, id, UnsubscribeFrom(st.core.cleanups[k].source, k))
    requires st1 == mid.(cleaners := st.cleaners[k := Cleaner(Unsubscribing(id), Some(id))])
    ensures Inv(st1)
  {
    assert CleanerOk(st, k);
    SameCallsKeepsCalls(mid, st1);
    CleanerMoves(st, st1, k);
    UnsubscribeBeginsAside(st, mid, st1, id, k);
    SideStep(st, st1);
  }

  lemma UnsubscribeBeginsAside(st: System, mid: System, st1: System, id: nat, k: nat)
    requires WireOk(st) && WellFormed(st) && k < |st.cleaners| && st.cleaners[k].call.None?
    requires Begins(st, mid, id, UnsubscribeFrom(st.core.cleanups[k].source, k))
    requires st1 == mid.(cleaners := st.cleaners[k := Cleaner(Unsubscribing(id), Some(id))])
    ensures Aside(st, st1)
  {
  }

  lemma RemoveCleanupKeepsInv(st: System, k: nat)
    requires Inv(st) && WellFormed(st) && Enabled(st, RemoveCleanup(k))
    ensures Inv(ApplyCleaner(st, RemoveCleanup(k)))
  {
    var st1 := ApplyCleaner(st, RemoveCleanup(k));
    SameCallsKeepsCalls(st, st1);
    RemoveCleanupKeepsParties(st, k);
    forall source ensures SourceOk(st1, source) {
      assert SourceOk(st, source);
      RemoveCleanupKeepsSource(st, k, source);
    }
  }

  // ----- readLoop -----

  lemma ReadEventKeepsInv(st: System)
    requires Inv(st) && WellFormed(st) && Enabled(st, ReadMessage) && st.fromTarget[0].Notification?
    ensures Inv(DoReadMessage(st))
  {
    var source, event := st.fromTarget[0].source, st.fromTarget[0].event;
    var rest := st.(fromTarget := st.fromTarget[1..]);
    PopKeepsInv(st);
    if source != "" {
      assert EventAt(st.fromTarget, 0, source);
      assert SourceOk(st, source);
      DispatchKeepsInv(st, rest, source, event);
    }
  }

  // Every message but an answer leaves the queue without a trace.
  lemma PopKeepsInv(st: System)
    requires Inv(st) && st.fromTarget != [] && !st.fromTarget[0].Response?
    ensures Inv(st.(fromTarget := st.fromTarget[1..]))
  {
    var rest := st.(fromTarget := st.fromTarget[1..]);
    SameCallsKeepsCalls(st, rest);
    NobodyMoves(st, rest);
    forall source ensures SourceOk(rest, source) {
      assert SourceOk(st, source);
      PopKeepsSource(st, rest, source);
    }
  }

  lemma DispatchKeepsInv(st: System, rest: System, source: Source, event: Payload)
    requires Inv(rest) && WellFormed(rest)
    requires PartiesSound(st) && SourceOk(st, source) && EventAt(st.fromTarget, 0, source)
    requires rest == st.(fromTarget := st.fromTarget[1..])
    ensures Inv(DoDispatch(rest, source, event))
  {
    var st1 := DoDispatch(rest, source, event);
    SameCallsKeepsCalls(rest, st1);
    DispatchKeepsParties(rest, source, event);
    if source in st.core.subscriptions && |st.core.subs[st.core.subscriptions[source]].events| >= EVENT_CAPACITY {
      OverflowKeepsStreams(st, rest, source, event);
    } else {
      DeliveredAside(rest, source, event);
      AsideKeepsStreams(rest, st1);
    }
  }

  lemma DeliveredAside(st: System, source: Source, event: Payload)
    requires ListsSound(st.core) && |st.subscribers| == |st.core.subs|
    requires source in st.core.subscriptions ==> |st.core.subs[st.core.subscriptions[source]].events| < EVENT_CAPACITY
    ensures Aside(st, DoDispatch(st, source, event))
  {
  }

  lemma OverflowKeepsStreams(st: System, rest: System, source: Source, event: Payload)
    requires Inv(rest) && SourceOk(st, source) && EventAt(st.fromTarget, 0, source)
    requires rest == st.(fromTarget := st.fromTarget[1..])
    requires source in st.core.subscriptions
    requires |st.core.subs[st.core.subscriptions[source]].events| >= EVENT_CAPACITY
    ensures StreamsSound(DoDispatch(rest, source, event))
  {
    var st1 := DoDispatch(rest, source, event);
    var h := st.core.subscriptions[source];
    assert SubscriberOk(rest, h);
    forall other ensures SourceOk(st1, other) {
      assert SourceOk(rest, other);
      OverflowKeepsSource(st, rest, st1, h, source, other);
    }
  }

  lemma ReadAnswerKeepsInv(st: System)
    requires Inv(st) && WellFormed(st) && Enabled(st, ReadMessage) && st.fromTarget[0].Response?
    ensures Inv(DoReadMessage(st))
  {
    var st1 := DoReadMessage(st);
    TakeWaiterSound(st.core, st.fromTarget[0].id);
    ReadAnswerKeepsCalls(st);
    NobodyMoves(st, st1);
    forall source ensures SourceOk(st1, source) {
      assert SourceOk(st, source);
      PopKeepsSource(st, st1, source);
    }
  }

  lemma SendReplyKeepsInv(st: System)
    requires Inv(st) && WellFormed(st) && Enabled(st, SendReply)
    ensures Inv(ApplyClient(st, SendReply))
  {
    var st1 := ApplyClient(st, SendReply);
    SendKeepsCalls(st);
    NobodyMoves(st, st1);
    SideStep(st, st1);
  }

  lemma ReadFailsKeepsInv(st: System)
    requires Inv(st) && WellFormed(st) && Enabled(st, ReadFails)
    ensures Inv(DoReadFails(st))
  {
    var st1 := DoReadFails(st);
    ReadFailsKeepsCalls(st);
    ReadFailsKeepsParties(st);
    forall source ensures SourceOk(st1, source) {
      assert SourceOk(st, source);
      ReadFailsKeepsSource(st, source);
    }
  }

  // ----- Close and the socket -----

  lemma CloseKeepsInv(st: System, st1: System)
    requires Inv(st)
    requires st1 == st.(core := MarkClosed(st.core)) || st1 == st.(socketOpen := false)
    ensures Inv(st1)
  {
    SameCallsKeepsCalls(st, st1);
    NobodyMoves(st, st1);
    SideStep(st, st1);
  }

  // ----- the target -----

  lemma TargetReadsKeepsInv(st: System, outcome: Outcome, ends: bool)
    requires Inv(st) && WellFormed(st) && Enabled(st, TargetReads(outcome, ends))
    ensures Inv(DoTargetReads(st, outcome, ends))
  {
    var st1 := DoTargetReads(st, outcome, ends);
    TargetReadsKeepsCalls(st, outcome, ends);
    NobodyMoves(st, st1);
    forall source ensures SourceOk(st1, source) {
      assert SourceOk(st, source);
      TargetReadsKeepsSource(st, outcome, ends, source);
    }
  }

  lemma TargetSendsKeepsInv(st: System, st1: System, m: Message)
    requires Inv(st)
    requires m.Notification? ==> st.streams[m.source] > 0
    requires m.Response? ==> m.id in st.owed && m.id in st.decided && m.outcome == st.decided[m.id]
    requires st1 == st.(owed := if m.Response? then st.owed - {m.id} else st.owed, fromTarget := st.fromTarget + [m])
    ensures Inv(st1)
  {
    TargetSendsKeepsCalls(st, st1, m);
    NobodyMoves(st, st1);
    forall source ensures SourceOk(st1, source) {
      assert SourceOk(st, source);
      TargetSendsKeepsSource(st, st1, m, source);
    }
  }

  // ----- every step, and so every run -----

  lemma CallerKeepsInv(st: System, step: Step)
    requires Inv(st) && WellFormed(st) && Enabled(st, step) && OfCaller(step)
    ensures Inv(ApplyCaller(st, step))
  {
    match step
    case BeginOther(name) => BeginOtherKeepsInv(st, name);
    case Write(id, ok, delivered) => WriteKeepsInv(st, id, ok, delivered);
    case GiveUp(id) => GiveUpKeepsInv(st, id);
    case ForgetCall(id) => ForgetKeepsInv(st, id);
    case Receive(id) => ReceiveKeepsInv(st, id);
  }

  lemma SubscribingKeepsInv(st: System, step: Step)
    requires Inv(st) && WellFormed(st) && Enabled(st, step) && OfSubscribing(step)
    ensures Inv(ApplySubscribing(st, step))
  {
    match step
    case NewSubscriber(source) => NewSubscriberKeepsInv(st, source);
    case Register(h) => RegisterKeepsInv(st, h);
    case Wake(h) => SubscriberMovesOn(st, h, AtLoop);
    case Abandon(h) => SubscriberMovesOn(st, h, Finished);
    case BeginSubscribe(h) => BeginSubscribeKeepsInv(st, h);
    case SubscribeReturns(h) => SubscriberMovesOn(st, h, DoSubscribeReturns(st, h).subscribers[h].pc);
  }

  lemma SubscriptionKeepsInv(st: System, step: Step)
    requires Inv(st) && WellFormed(st) && Enabled(st, step) && OfSubscription(step)
    ensures Inv(ApplySubscription(st, step))
  {
    match step
    case CancelStream(h) => SubscriberMovesOn(st, h, Ending(Cancelled, true));
    case End(h) => EndKeepsInv(st, h);
    case WatcherExits(h) => SubscriberMovesOn(st, h, Finished);
    case Take(h) => TakeKeepsInv(st, h);
  }

  lemma CleanerKeepsInv(st: System, step: Step)
    requires Inv(st) && WellFormed(st) && Enabled(st, step) && OfCleaner(step)
    ensures Inv(ApplyCleaner(st, step))
  {
    match step
    case BeginUnsubscribe(k) => BeginUnsubscribeKeepsInv(st, k);
    case UnsubscribeReturns(k) => CleanerMovesOn(st, DoUnsubscribeReturns(st, k), k);
    case CleanerCloses(k) => CleanerMovesOn(st, ApplyCleaner(st, step), k);
    case RemoveCleanup(k) => RemoveCleanupKeepsInv(st, k);
  }

  lemma ClientKeepsInv(st: System, step: Step)
    requires Inv(st) && WellFormed(st) && Enabled(st, step) && OfClient(step)
    ensures Inv(ApplyClient(st, step))
  {
    match step
    case ReadMessage =>
      if st.fromTarget[0].Response? {
        ReadAnswerKeepsInv(st);
      } else if st.fromTarget[0].Notification? {
        ReadEventKeepsInv(st);
      } else {
        PopKeepsInv(st);
      }
    case SendReply => SendReplyKeepsInv(st);
    case ReadFails => ReadFailsKeepsInv(st);
    case Close => CloseKeepsInv(st, ApplyClient(st, step));
    case CloseSocket => CloseKeepsInv(st, ApplyClient(st, step));
  }

  lemma TargetKeepsInv(st: System, step: Step)
    requires Inv(st) && WellFormed(st) && Enabled(st, step) && OfTarget(step)
    ensures Inv(ApplyTarget(st, step))
  {
    match step
    case TargetReads(outcome, ends) => TargetReadsKeepsInv(st, outcome, ends);
    case TargetAnswers(id) => TargetSendsKeepsInv(st, ApplyTarget(st, step), Response(id, st.decided[id]));
    case TargetEmits(source, event) => TargetSendsKeepsInv(st, ApplyTarget(st, step), Notification(source, event));
    case TargetStrays => TargetSendsKeepsInv(st, ApplyTarget(st, step), Stray);
  }

  lemma StepKeepsInv(st: System, step: Step)
    requires Inv(st) && WellFormed(st) && Enabled(st, step)
    ensures Inv(Apply(st, step))
  {
    if OfCaller(step) {
      CallerKeepsInv(st, step);
    } else if OfSubscribing(step) {
      SubscribingKeepsInv(st, step);
    } else if OfSubscription(step) {
      SubscriptionKeepsInv(st, step);
    } else if OfCleaner(step) {
      CleanerKeepsInv(st, step);
    } else if OfClient(step) {
      ClientKeepsInv(st, step);
    } else {
      TargetKeepsInv(st, step);
    }
  }

  lemma {:induction false} RunKeepsInv(states: seq<System>, steps: seq<Step>, n: nat)
    requires IsRun(states, steps) && n <= |steps|
    ensures Inv(states[n])
  {
    if n == 0 {
    } else {
      RunKeepsInv(states, steps, n - 1);
      assert Follows(states, steps, n - 1);
      StepKeepsInv(states[n - 1], steps[n - 1]);
    }
  }

  lemma ReachableInv(st: System)
    requires Reachable(st)
    ensures Inv(st) && WellFormed(st)
  {
    var states, steps :| IsRun(states, steps) && states[|steps|] == st;
    RunKeepsInv(states, steps, |steps|);
    InvIsWellFormed(st);
  }
}
