/** What a whole run says about the present: who set the flags, and what became of each call and each channel. */
module ProtocolHistory {
  import opened ClientCore
  import opened Protocol
  import opened ProtocolCalls
  import opened ProtocolParties
  import opened ProtocolInvariant

  // ----- what a step does to the flags, the calls and the read loop -----

  ghost predicate FlagsMove(st: System, step: Step, st1: System) {
    && (st1.core.closed <==> st.core.closed || step.Close?)
    && (st1.core.readErr <==> st.core.readErr || step.ReadFails?)
    && (st1.socketOpen <==> st.socketOpen && !step.CloseSocket? && !step.CleanerCloses?)
  }

  ghost predicate SameFlags(st: System, st1: System) {
    st1.core.closed == st.core.closed && st1.core.readErr == st.core.readErr && st1.socketOpen == st.socketOpen
  }

  predicate BeginsCall(step: Step) {
    step.BeginOther? || step.BeginSubscribe? || step.BeginUnsubscribe?
  }

  predicate MovesCall(step: Step) {
    step.Write? || step.GiveUp? || step.ForgetCall? || step.Receive?
  }

  predicate MovesLoop(step: Step) {
    step.ReadMessage? || step.SendReply? || step.ReadFails?
  }

  ghost predicate SameCalls(st: System, st1: System) {
    && st1.calls == st.calls && st1.loop == st.loop
    && st1.core.pending == st.core.pending && |st1.core.mailboxes| == |st.core.mailboxes|
    && st1.core.nextId == st.core.nextId
  }

  // What a step asks for, when it begins a call.
  function RequestOf(st: System, step: Step): Request {
    match step
    case BeginOther(name) => Other(name)
    case BeginSubscribe(h) => SubscribeTo(if h < |st.core.subs| then st.core.subs[h].source else "", h)
    case BeginUnsubscribe(k) => UnsubscribeFrom(if k < |st.core.cleanups| then st.core.cleanups[k].source else "", k)
    case _ => Other("")
  }

  /** A closed client refuses a call; otherwise there is one more, listed under an id and a channel that are new. */
  ghost predicate OneMoreCall(st: System, st1: System, request: Request) {
    var id := st.core.nextId + 1;
    && st1.loop == st.loop && st1.core.nextId >= st.core.nextId
    && if st.core.closed then
         && st1.calls == st.calls && st1.core.pending == st.core.pending
         && |st1.core.mailboxes| == |st.core.mailboxes|
       else
         && st1.calls == st.calls[id := Call(request, |st.core.mailboxes|, Registered)]
         && st1.core.pending == st.core.pending[id := |st.core.mailboxes|]
         && |st1.core.mailboxes| == |st.core.mailboxes| + 1
  }

  lemma BeginRequestEffect(st: System, request: Request)
    ensures var st1 := BeginRequest(st, request).0; SameFlags(st, st1) && OneMoreCall(st, st1, request)
  {
  }

  lemma RegisterEffect(st: System, h: nat)
    requires h < |st.subscribers| && h < |st.core.subs|
    ensures SameFlags(st, DoRegister(st, h)) && SameCalls(st, DoRegister(st, h))
  {
  }

  lemma BeginSubscribeEffect(st: System, h: nat)
    requires h < |st.subscribers| && h < |st.core.subs|
    ensures SameFlags(st, DoBeginSubscribe(st, h))
    ensures OneMoreCall(st, DoBeginSubscribe(st, h), SubscribeTo(st.core.subs[h].source, h))
  {
    BeginRequestEffect(st, SubscribeTo(st.core.subs[h].source, h));
  }

  lemma SubscribingEffect(st: System, step: Step)
    requires WellFormed(st) && Enabled(st, step) && OfSubscribing(step)
    ensures var st1 := ApplySubscribing(st, step);
      SameFlags(st, st1) && if BeginsCall(step) then OneMoreCall(st, st1, RequestOf(st, step)) else SameCalls(st, st1)
  {
    if step.BeginSubscribe? {
      BeginSubscribeEffect(st, step.h);
    } else if step.Register? {
      RegisterEffect(st, step.h);
    }
  }

  lemma SubscriptionEffect(st: System, step: Step)
    requires WellFormed(st) && Enabled(st, step) && OfSubscription(step)
    ensures var st1 := ApplySubscription(st, step); SameFlags(st, st1) && SameCalls(st, st1)
  {
  }

  lemma CleanerEffect(st: System, step: Step)
    requires WellFormed(st) && Enabled(st, step) && OfCleaner(step)
    ensures var st1 := ApplyCleaner(st, step);
      && FlagsMove(st, step, st1)
      && if BeginsCall(step) then OneMoreCall(st, st1, RequestOf(st, step)) else SameCalls(st, st1)
  {
    if step.BeginUnsubscribe? {
      BeginRequestEffect(st, UnsubscribeFrom(st.core.cleanups[step.k].source, step.k));
    }
  }

  lemma DispatchLeavesCalls(st: System, source: Source, event: Payload)
    requires source in st.core.subscriptions ==> st.core.subscriptions[source] < |st.core.subs|
    ensures var st1 := DoDispatch(st, source, event);
      SameFlags(st, st1) && SameCalls(st, st1)
  {
  }

  lemma ClientEffect(st: System, step: Step)
    requires WellFormed(st) && Enabled(st, step) && OfClient(step)
    ensures var st1 := ApplyClient(st, step);
      FlagsMove(st, step, st1) && st1.calls == st.calls && (!MovesLoop(step) ==> SameCalls(st, st1))
  {
    if step.ReadMessage? {
      ReadingEffect(st);
    }
  }

  // No channel comes back on the list or into the read loop's hand.
  ghost predicate ListsNoOther(st: System, st1: System) {
    && |st1.core.mailboxes| >= |st.core.mailboxes|
    && (forall id | id in st1.core.pending ::
          st1.core.pending[id] in st.core.pending.Values || st1.core.pending[id] >= |st.core.mailboxes|)
    && (st1.loop.Sending? ==> st1.loop == st.loop || st1.loop.chan in st.core.pending.Values)
  }

  lemma ReadAnswerEffect(st: System)
    requires WellFormed(st) && st.fromTarget != [] && st.fromTarget[0].Response?
    ensures SameFlags(st, DoReadMessage(st)) && ListsNoOther(st, DoReadMessage(st))
    ensures DoReadMessage(st).calls == st.calls
  {
  }

  lemma ReadEventEffect(st: System)
    requires WellFormed(st) && st.fromTarget != [] && st.fromTarget[0].Notification? && st.loop.Reading?
    ensures SameFlags(st, DoReadMessage(st)) && ListsNoOther(st, DoReadMessage(st))
    ensures DoReadMessage(st).calls == st.calls
  {
    DispatchLeavesCalls(st.(fromTarget := st.fromTarget[1..]), st.fromTarget[0].source, st.fromTarget[0].event);
  }

  lemma ReadingEffect(st: System)
    requires WellFormed(st) && st.fromTarget != [] && st.loop.Reading?
    ensures SameFlags(st, DoReadMessage(st)) && ListsNoOther(st, DoReadMessage(st))
    ensures DoReadMessage(st).calls == st.calls
  {
    if st.fromTarget[0].Response? {
      ReadAnswerEffect(st);
    } else if st.fromTarget[0].Notification? {
      ReadEventEffect(st);
    }
  }

  lemma TargetEffect(st: System, step: Step)
    requires WellFormed(st) && Enabled(st, step) && OfTarget(step)
    ensures var st1 := ApplyTarget(st, step); SameFlags(st, st1) && SameCalls(st, st1)
  {
  }

  lemma CallerEffect(st: System, step: Step)
    requires WellFormed(st) && Enabled(st, step) && OfCaller(step)
    ensures var st1 := ApplyCaller(st, step);
      && SameFlags(st, st1)
      && if BeginsCall(step) then OneMoreCall(st, st1, RequestOf(st, step)) else st1.calls.Keys == st.calls.Keys
  {
  }

  lemma StepEffect(st: System, step: Step)
    requires WellFormed(st) && Enabled(st, step)
    ensures var st1 := Apply(st, step);
      && FlagsMove(st, step, st1)
      && (if BeginsCall(step) then OneMoreCall(st, st1, RequestOf(st, step)) else st1.calls.Keys == st.calls.Keys)
      && (!BeginsCall(step) && !MovesCall(step) && !MovesLoop(step) ==> SameCalls(st, st1))
  {
    if OfCaller(step) {
      CallerEffect(st, step);
    } else if OfSubscribing(step) {
      SubscribingEffect(st, step);
    } else if OfSubscription(step) {
      SubscriptionEffect(st, step);
    } else if OfCleaner(step) {
      CleanerEffect(st, step);
    } else if OfClient(step) {
      ClientEffect(st, step);
    } else {
      TargetEffect(st, step);
    }
  }

  // ----- the flags -----

  // Some step before the n-th is a Close, or a failed read.
  predicate ClosedBefore(steps: seq<Step>, n: nat)
    requires n <= |steps|
  {
    exists i :: 0 <= i < n && steps[i].Close?
  }

  predicate FailedBefore(steps: seq<Step>, n: nat)
    requires n <= |steps|
  {
    exists i :: 0 <= i < n && steps[i].ReadFails?
  }

  /** The flags tell the truth about the run: `closed` whether anybody called Close, `readErr` whether a read failed. */
  lemma {:induction false} FlagsIff(states: seq<System>, steps: seq<Step>, n: nat)
    requires IsRun(states, steps) && n <= |steps|
    ensures states[n].core.closed <==> ClosedBefore(steps, n)
    ensures states[n].core.readErr <==> FailedBefore(steps, n)
  {
    if n > 0 {
      FlagsIff(states, steps, n - 1);
      assert Follows(states, steps, n - 1);
      StepEffect(states[n - 1], steps[n - 1]);
      OneStepLater(steps, n);
    }
  }

  lemma OneStepLater(steps: seq<Step>, n: nat)
    requires 0 < n <= |steps|
    ensures ClosedBefore(steps, n) <==> ClosedBefore(steps, n - 1) || steps[n - 1].Close?
    ensures FailedBefore(steps, n) <==> FailedBefore(steps, n - 1) || steps[n - 1].ReadFails?
  {
  }

  /** So Alive holds exactly while nobody has closed the client and no read has failed. */
  lemma AliveIff(states: seq<System>, steps: seq<Step>, n: nat)
    requires IsRun(states, steps) && n <= |steps|
    ensures Alive(states[n].core) <==> forall i | 0 <= i < n :: !steps[i].Close? && !steps[i].ReadFails?
  {
    FlagsIff(states, steps, n);
  }

  /** And nothing clears the read error. */
  lemma ReadFailureIsFinal(states: seq<System>, steps: seq<Step>, i: nat, j: nat)
    requires IsRun(states, steps) && i <= j <= |steps| && states[i].core.readErr
    ensures states[j].core.readErr
  {
    FlagsIff(states, steps, i);
    FlagsIff(states, steps, j);
  }

  predicate CutBefore(steps: seq<Step>, n: nat)
    requires n <= |steps|
  {
    exists i :: 0 <= i < n && (steps[i].CloseSocket? || steps[i].CleanerCloses?)
  }

  lemma OneStepLaterCut(steps: seq<Step>, n: nat)
    requires 0 < n <= |steps|
    ensures CutBefore(steps, n) <==>
            CutBefore(steps, n - 1) || steps[n - 1].CloseSocket? || steps[n - 1].CleanerCloses?
  {
  }

  /** The socket stays open until somebody closes it ... */
  lemma {:induction false} SocketIsOpenIff(states: seq<System>, steps: seq<Step>, n: nat)
    requires IsRun(states, steps) && n <= |steps|
    ensures states[n].socketOpen <==> !CutBefore(steps, n)
  {
    if n > 0 {
      SocketIsOpenIff(states, steps, n - 1);
      assert Follows(states, steps, n - 1);
      StepEffect(states[n - 1], steps[n - 1]);
      OneStepLaterCut(steps, n);
    }
  }

  /** ... and a cleanup does so only when its unsubscribe was not accepted. */
  lemma CleanupClosesOnFailure(states: seq<System>, steps: seq<Step>, n: nat, k: nat)
    requires IsRun(states, steps) && n < |steps| && steps[n] == CleanerCloses(k)
    ensures k < |states[n].cleaners| && !Answered(states[n], states[n].cleaners[k].call, true)
  {
    assert Follows(states, steps, n);
    RunKeepsInv(states, steps, n);
    assert CleanerOk(states[n], k);
  }

  // ----- who gets a call, and who a subscription -----

  /** A step that begins a call begins one, with a new id, for what it asks, unless the client was closed before; and
      no other step begins any. */
  lemma CallsBeginIff(states: seq<System>, steps: seq<Step>, n: nat)
    requires IsRun(states, steps) && n < |steps|
    ensures var st, st1 := states[n], states[n + 1];
      if BeginsCall(steps[n]) && !ClosedBefore(steps, n) then
        exists id: nat ::
          && id !in st.calls && id in st1.calls && st1.calls.Keys == st.calls.Keys + {id}
          && st1.calls[id].request == RequestOf(st, steps[n]) && st1.calls[id].pc.Registered?
          && id in st1.core.pending && st1.core.pending[id] == st1.calls[id].chan
      else st1.calls.Keys == st.calls.Keys
  {
    assert Follows(states, steps, n);
    FlagsIff(states, steps, n);
    StepEffect(states[n], steps[n]);
    RunKeepsInv(states, steps, n);
    var id := states[n].core.nextId + 1;
    assert id in states[n].calls ==> CallOk(states[n], id);
    if BeginsCall(steps[n]) && !ClosedBefore(steps, n) {
      assert id in states[n + 1].calls && id in states[n + 1].core.pending;
    }
  }

  /** Subscribe is refused exactly if the client was closed, a read had failed, or its source is subscribed to already;
      it waits exactly for the cleanup of its source; and else it is listed. */
  lemma RegistersIff(states: seq<System>, steps: seq<Step>, n: nat, h: nat)
    requires IsRun(states, steps) && n < |steps| && steps[n] == Register(h)
    ensures h < |states[n].core.subs| == |states[n + 1].core.subs| && h < |states[n + 1].subscribers|
    ensures var st, st1, source := states[n], states[n + 1], states[n].core.subs[h].source;
      var pc, refused := st1.subscribers[h].pc,
        ClosedBefore(steps, n) || FailedBefore(steps, n) || source in st.core.subscriptions;
      && (pc.Finished? <==> refused)
      && (pc.Waits? <==> !refused && source in st.core.unsubscribing)
      && (pc.Waits? ==> pc.on == st.core.unsubscribing[source])
      && (pc.BeforeCall? <==> !refused && source !in st.core.unsubscribing)
      && (IsRegistered(st1.core, h) <==> pc.BeforeCall?)
  {
    assert Follows(states, steps, n);
    FlagsIff(states, steps, n);
    RunKeepsInv(states, steps, n);
    assert SubscriberOk(states[n], h);
  }

  // ----- calls after the read loop has died -----

  /** The calls that are listed are exactly the unfinished ones with an id above `n`. */
  ghost predicate LateCallsListed(st: System, n: nat) {
    && n <= st.core.nextId
    && forall id :: id in st.core.pending <==> IsLate(st, n, id)
  }

  ghost predicate IsLate(st: System, n: nat, id: nat) {
    id in st.calls && id > n && !st.calls[id].pc.Done?
  }

  lemma FailureListsNone(st: System)
    requires Inv(st) && WellFormed(st) && Enabled(st, ReadFails)
    ensures LateCallsListed(Apply(st, ReadFails), st.core.nextId)
  {
    forall id | id in st.calls
      ensures id <= st.core.nextId
    {
      assert CallOk(st, id);
    }
  }

  lemma LateCallsStayListed(st: System, step: Step, n: nat)
    requires Inv(st) && WellFormed(st) && Enabled(st, step) && st.loop.Dead? && LateCallsListed(st, n)
    ensures LateCallsListed(Apply(st, step), n)
  {
    StepEffect(st, step);
    var st1 := Apply(st, step);
    if MovesCall(step) {
      LateCallMoves(st, step, n);
    } else if BeginsCall(step) {
      LateCallBegins(st, st1, RequestOf(st, step), n);
    } else {
      LateCallsStay(st, st1, n);
    }
  }

  lemma LateCallsStay(st: System, st1: System, n: nat)
    requires SameCalls(st, st1) && LateCallsListed(st, n)
    ensures LateCallsListed(st1, n)
  {
    assert forall id :: IsLate(st1, n, id) <==> IsLate(st, n, id);
  }

  lemma LateCallBegins(st: System, st1: System, request: Request, n: nat)
    requires OneMoreCall(st, st1, request) && LateCallsListed(st, n)
    ensures LateCallsListed(st1, n)
  {
    var next := st.core.nextId + 1;
    if st1.calls != st.calls {
      assert IsLate(st1, n, next);
    }
    assert forall id | id != next :: IsLate(st1, n, id) <==> IsLate(st, n, id);
  }

  lemma LateCallMoves(st: System, step: Step, n: nat)
    requires Inv(st) && WellFormed(st) && Enabled(st, step) && MovesCall(step) && LateCallsListed(st, n)
    ensures LateCallsListed(ApplyCaller(st, step), n)
  {
    if step.Receive? {
      LateCallReceives(st, step.id, n);
    } else {
      var st1 := ApplyCaller(st, step);
      assert forall id | id != step.id :: IsLate(st1, n, id) <==> IsLate(st, n, id);
      assert IsLate(st, n, step.id) <==> step.id > n;
    }
  }

  lemma LateCallReceives(st: System, id: nat, n: nat)
    requires Inv(st) && WellFormed(st) && Enabled(st, Receive(id)) && LateCallsListed(st, n)
    ensures LateCallsListed(DoReceive(st, id), n)
  {
    assert CallOk(st, id);
    assert forall i :: IsLate(DoReceive(st, id), n, i) ==> IsLate(st, n, i);
    assert forall i | i != id :: IsLate(st, n, i) ==> IsLate(DoReceive(st, id), n, i);
  }

  lemma {:induction false} LateCallsListedAfter(states: seq<System>, steps: seq<Step>, i: nat, j: nat)
    requires IsRun(states, steps) && i < j <= |steps| && steps[i].ReadFails?
    ensures LateCallsListed(states[j], states[i].core.nextId)
  {
    if i == j - 1 {
      FailedReadListsNone(states, steps, i);
    } else {
      LateCallsListedAfter(states, steps, i, j - 1);
      NextLateCallsListed(states, steps, i, j - 1);
    }
  }

  lemma FailedReadListsNone(states: seq<System>, steps: seq<Step>, i: nat)
    requires IsRun(states, steps) && i < |steps| && steps[i].ReadFails?
    ensures LateCallsListed(states[i + 1], states[i].core.nextId)
  {
    RunKeepsInv(states, steps, i);
    assert Follows(states, steps, i);
    FailureListsNone(states[i]);
  }

  lemma NextLateCallsListed(states: seq<System>, steps: seq<Step>, i: nat, j: nat)
    requires IsRun(states, steps) && i < j < |steps| && steps[i].ReadFails?
    requires LateCallsListed(states[j], states[i].core.nextId)
    ensures LateCallsListed(states[j + 1], states[i].core.nextId)
  {
    RunKeepsInv(states, steps, j);
    FlagsIff(states, steps, j);
    assert Follows(states, steps, j);
    LateCallsStayListed(states[j], steps[j], states[i].core.nextId);
  }

  /** Call does not look at readErr. So after a failed read the list keeps exactly the calls that began later and
      are not finished, and a caller that waits can receive exactly if its call began before. */
  lemma LateCallsAreStranded(states: seq<System>, steps: seq<Step>, i: nat, j: nat, id: nat)
    requires IsRun(states, steps) && i < j <= |steps| && steps[i].ReadFails?
    ensures WellFormed(states[j])
    ensures var n, st := states[i].core.nextId, states[j];
      && (id in st.core.pending <==> id in st.calls && id > n && !st.calls[id].pc.Done?)
      && (id in st.calls && st.calls[id].pc.Waiting? ==> (Enabled(st, Receive(id)) <==> id <= n))
  {
    LateCallsListedAfter(states, steps, i, j);
    FlagsIff(states, steps, j);
    RunKeepsInv(states, steps, j);
    InvIsWellFormed(states[j]);
    WaitersAreEarlyOrLate(states[j], states[i].core.nextId);
    assert IsLate(states[j], states[i].core.nextId, id) <==> id in states[j].core.pending;
  }

  lemma WaitersAreEarlyOrLate(st: System, n: nat)
    requires Inv(st) && WellFormed(st) && st.core.readErr && LateCallsListed(st, n)
    ensures forall id | id in st.calls && st.calls[id].pc.Waiting? :: Enabled(st, Receive(id)) <==> id <= n
  {
    forall id | id in st.calls && st.calls[id].pc.Waiting?
      ensures Enabled(st, Receive(id)) <==> id <= n
    {
      assert CallOk(st, id);
      assert IsLate(st, n, id) <==> id > n;
    }
  }

  // ----- what is delivered to each channel -----

  // The read loop sends the answer it holds to `ch`, or a failed read closes `ch`.
  ghost predicate Delivers(st: System, step: Step, ch: nat) {
    || (step.SendReply? && st.loop.Sending? && st.loop.chan == ch)
    || (step.ReadFails? && ch in st.core.pending.Values)
  }

  // `ch` has been made, is not listed, and is not the one the read loop is about to send to.
  ghost predicate Spent(st: System, ch: nat) {
    ch < |st.core.mailboxes| && ch !in st.core.pending.Values && !(st.loop.Sending? && st.loop.chan == ch)
  }

  lemma DeliverySpends(st: System, step: Step, ch: nat)
    requires Inv(st) && WellFormed(st) && Enabled(st, step) && Delivers(st, step, ch)
    ensures Spent(Apply(st, step), ch)
  {
    if step.SendReply? {
      SendSpends(st);
    }
  }

  lemma SendSpends(st: System)
    requires Inv(st) && WellFormed(st) && Enabled(st, SendReply)
    ensures st.loop.chan !in st.core.pending.Values && st.loop.chan < |st.core.mailboxes|
  {
    forall i | i in st.core.pending
      ensures st.core.pending[i] != st.loop.chan
    {
      assert CallOk(st, i);
    }
  }

  lemma CallerListsNoOther(st: System, step: Step)
    requires WellFormed(st) && Enabled(st, step) && MovesCall(step)
    ensures ListsNoOther(st, ApplyCaller(st, step))
  {
  }

  lemma OneMoreListsNoOther(st: System, st1: System, request: Request)
    requires OneMoreCall(st, st1, request)
    ensures ListsNoOther(st, st1)
  {
    forall id | id in st1.core.pending && st1.core.pending[id] < |st.core.mailboxes|
      ensures st1.core.pending[id] in st.core.pending.Values
    {
      assert id in st.core.pending;
    }
  }

  lemma StepListsNoOther(st: System, step: Step)
    requires WellFormed(st) && Enabled(st, step)
    ensures ListsNoOther(st, Apply(st, step))
  {
    StepEffect(st, step);
    if step.ReadMessage? {
      ReadingEffect(st);
    } else if BeginsCall(step) {
      OneMoreListsNoOther(st, Apply(st, step), RequestOf(st, step));
    } else if MovesCall(step) {
      CallerListsNoOther(st, step);
    } else if !MovesLoop(step) {
      assert SameCalls(st, Apply(st, step));
    }
  }

  lemma OthersStaySpent(st: System, st1: System, ch: nat)
    requires ListsNoOther(st, st1) && Spent(st, ch)
    ensures Spent(st1, ch)
  {
  }

  lemma RunListsNoOther(states: seq<System>, steps: seq<Step>, n: nat)
    requires IsRun(states, steps) && n < |steps|
    ensures ListsNoOther(states[n], states[n + 1])
  {
    assert Follows(states, steps, n);
    StepListsNoOther(states[n], steps[n]);
  }

  lemma {:induction false} SpentEverAfter(states: seq<System>, i: nat, j: nat, ch: nat)
    requires i <= j < |states| && (forall n | i <= n < j :: ListsNoOther(states[n], states[n + 1]))
    requires Spent(states[i], ch)
    ensures Spent(states[j], ch)
  {
    if i < j {
      SpentEverAfter(states, i, j - 1, ch);
      OthersStaySpent(states[j - 1], states[j], ch);
    }
  }

  /** Every channel gets at most one answer or one close in a whole run, never one after the other. */
  lemma OneDelivery(states: seq<System>, steps: seq<Step>, i: nat, j: nat, ch: nat)
    requires IsRun(states, steps) && i < |steps| && j < |steps|
    requires Delivers(states[i], steps[i], ch) && Delivers(states[j], steps[j], ch)
    ensures i == j
  {
    if i < j {
      NoneAfter(states, steps, i, j, ch);
    } else if j < i {
      NoneAfter(states, steps, j, i, ch);
    }
  }

  lemma NoneAfter(states: seq<System>, steps: seq<Step>, i: nat, j: nat, ch: nat)
    requires IsRun(states, steps) && i < j < |steps| && Delivers(states[i], steps[i], ch)
    ensures !Delivers(states[j], steps[j], ch)
  {
    RunKeepsInv(states, steps, i);
    assert Follows(states, steps, i);
    DeliverySpends(states[i], steps[i], ch);
    forall n | i + 1 <= n < j
      ensures ListsNoOther(states[n], states[n + 1])
    {
      RunListsNoOther(states, steps, n);
    }
    SpentEverAfter(states, i + 1, j, ch);
  }
}
