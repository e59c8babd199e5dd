/** How subscriptions end: for which reason, what is lost, and what the target is told of it. */
module ProtocolEndings {
  import opened Wrappers
  import opened ClientCore
  import opened Protocol
  import opened ProtocolParties
  import opened ProtocolInvariant
  import opened ProtocolHistory
  import opened ProtocolWire
  import opened ProtocolDelivery

  // ----- what a step does to all subscriptions -----

  /** Subscriptions are made by Subscribe alone, empty and open; and a stream is cancelled by its caller alone. */
  ghost predicate SubsGrow(st: System, step: Step, st1: System) {
    && (if step.NewSubscriber? then st1.core.subs == st.core.subs + [Sub(step.source, [], [], false, None)]
        else |st1.core.subs| == |st.core.subs|)
    && (forall h | IsCancelling(st1, h) :: IsCancelling(st, h) || step == CancelStream(h))
    && (forall h | IsFinished(st1, h) ::
          || IsFinished(st, h)
          || step == Register(h) || step == Abandon(h) || step == End(h) || step == WatcherExits(h))
    && (step.CancelStream? ==> IsCancelling(st1, step.h))
    && (step.Abandon? || step.End? || step.WatcherExits? ==> IsFinished(st1, step.h))
    && (forall h | IsFinished(st, h) :: IsFinished(st1, h))
    && (forall h | IsCancelling(st, h) && step != End(h) :: IsCancelling(st1, h))
  }

  ghost predicate IsFinished(st: System, h: nat) {
    h < |st.subscribers| && st.subscribers[h].pc.Finished?
  }

  ghost predicate IsCancelling(st: System, h: nat) {
    h < |st.subscribers| && st.subscribers[h].pc.Ending? && st.subscribers[h].pc.reason.Cancelled?
  }

  lemma CallerSubsGrow(st: System, step: Step)
    requires WellFormed(st) && Enabled(st, step) && OfCaller(step)
    ensures SubsGrow(st, step, ApplyCaller(st, step))
  {
    var st1 := ApplyCaller(st, step);
    assert st1.core.subs == st.core.subs && st1.subscribers == st.subscribers;
  }

  lemma SubscribingSubsGrow(st: System, step: Step)
    requires WellFormed(st) && Enabled(st, step) && OfSubscribing(step)
    ensures SubsGrow(st, step, ApplySubscribing(st, step))
  {
    if step.Register? {
      RegisterSubsGrow(st, step.h);
    } else if step.BeginSubscribe? {
      BeginSubsGrow(st, step.h);
    }
  }

  lemma RegisterSubsGrow(st: System, h: nat)
    requires h < |st.subscribers| && h < |st.core.subs| && st.subscribers[h].pc.AtLoop?
    ensures SubsGrow(st, Register(h), DoRegister(st, h))
  {
  }

  lemma BeginSubsGrow(st: System, h: nat)
    requires h < |st.subscribers| && h < |st.core.subs| && st.subscribers[h].pc.BeforeCall?
    ensures SubsGrow(st, BeginSubscribe(h), DoBeginSubscribe(st, h))
  {
  }

  lemma SubscriptionSubsGrow(st: System, step: Step)
    requires WellFormed(st) && Enabled(st, step) && OfSubscription(step)
    ensures SubsGrow(st, step, ApplySubscription(st, step))
  {
  }

  lemma CleanerSubsGrow(st: System, step: Step)
    requires WellFormed(st) && Enabled(st, step) && OfCleaner(step)
    ensures SubsGrow(st, step, ApplyCleaner(st, step))
  {
    var st1 := ApplyCleaner(st, step);
    assert st1.core.subs == st.core.subs && st1.subscribers == st.subscribers;
  }

  lemma ClientSubsGrow(st: System, step: Step)
    requires WellFormed(st) && Enabled(st, step) && OfClient(step)
    ensures SubsGrow(st, step, ApplyClient(st, step))
  {
    if step.ReadMessage? {
      ReadSubsGrow(st);
    }
  }

  lemma ReadSubsGrow(st: System)
    requires WellFormed(st) && st.fromTarget != []
    ensures SubsGrow(st, ReadMessage, DoReadMessage(st))
  {
    if st.fromTarget[0].Notification? {
      DispatchSubsGrow(st.(fromTarget := st.fromTarget[1..]), st.fromTarget[0].source, st.fromTarget[0].event);
    }
  }

  lemma DispatchSubsGrow(st: System, source: Source, event: Payload)
    requires source in st.core.subscriptions ==> st.core.subscriptions[source] < |st.core.subs|
    ensures var st1 := DoDispatch(st, source, event);
      |st1.core.subs| == |st.core.subs| && st1.subscribers == st.subscribers
  {
  }

  lemma StepSubsGrow(st: System, step: Step)
    requires WellFormed(st) && Enabled(st, step)
    ensures SubsGrow(st, step, Apply(st, step))
  {
    if OfCaller(step) {
      CallerSubsGrow(st, step);
    } else if OfSubscribing(step) {
      SubscribingSubsGrow(st, step);
    } else if OfSubscription(step) {
      SubscriptionSubsGrow(st, step);
    } else if OfCleaner(step) {
      CleanerSubsGrow(st, step);
    } else if OfClient(step) {
      ClientSubsGrow(st, step);
    }
  }

  lemma RunSubsGrow(states: seq<System>, steps: seq<Step>, n: nat)
    requires IsRun(states, steps) && n < |steps|
    ensures SubsGrow(states[n], steps[n], states[n + 1])
    ensures |states[n].core.subs| == |states[n].subscribers|
    ensures steps[n].Take? ==> steps[n].h < |states[n].core.subs| && states[n].core.subs[steps[n].h].events != []
  {
    assert Follows(states, steps, n);
    StepSubsGrow(states[n], steps[n]);
  }

  // ----- the reason -----

  // Some step before the n-th ended subscription `h` for this reason.
  ghost predicate EndedBefore(states: seq<System>, steps: seq<Step>, n: nat, h: nat, reason: Reason)
    requires InRange(states, steps, n)
  {
    exists i :: 0 <= i < n && EndsAs(states[i], steps[i], h) == Some(reason)
  }

  lemma NextEnded(states: seq<System>, steps: seq<Step>, n: nat, h: nat, reason: Reason)
    requires |states| == |steps| + 1 && n < |steps|
    ensures EndedBefore(states, steps, n + 1, h, reason) <==>
            EndedBefore(states, steps, n, h, reason) || EndsAs(states[n], steps[n], h) == Some(reason)
  {
  }

  ghost predicate HasEndedAs(st: System, h: nat, reason: Reason) {
    h < |st.core.subs| && st.core.subs[h].err == Some(reason)
  }

  lemma NextEndedAs(states: seq<System>, steps: seq<Step>, n: nat, h: nat, reason: Reason)
    requires IsRun(states, steps) && n < |steps|
    ensures HasEndedAs(states[n + 1], h, reason) <==>
            HasEndedAs(states[n], h, reason) || EndsAs(states[n], steps[n], h) == Some(reason)
  {
    if h < |states[n].core.subs| {
      RunSubStep(states, steps, n, h);
      RunKeepsInv(states, steps, n);
    } else {
      RunSubsGrow(states, steps, n);
    }
  }

  /** The error of a subscription is the reason for which a step of the run ended it, and there is none before. */
  lemma {:induction false} EndedAsIff(states: seq<System>, steps: seq<Step>, n: nat, h: nat, reason: Reason)
    requires IsRun(states, steps) && n <= |steps|
    ensures HasEndedAs(states[n], h, reason) <==> EndedBefore(states, steps, n, h, reason)
  {
    if n == 0 {
    } else {
      EndedAsIff(states, steps, n - 1, h, reason);
      NextEndedAs(states, steps, n - 1, h, reason);
      NextEnded(states, steps, n - 1, h, reason);
    }
  }

  predicate CancelledBefore(steps: seq<Step>, n: nat, h: nat)
    requires n <= |steps|
  {
    exists i :: 0 <= i < n && steps[i] == CancelStream(h)
  }

  lemma {:induction false} CancellingWasAsked(states: seq<System>, steps: seq<Step>, n: nat, h: nat)
    requires IsRun(states, steps) && n <= |steps| && IsCancelling(states[n], h)
    ensures CancelledBefore(steps, n, h)
  {
    if n > 0 && steps[n - 1] != CancelStream(h) {
      RunSubsGrow(states, steps, n - 1);
      CancellingWasAsked(states, steps, n - 1, h);
    }
  }

  /** A step that ends a subscription ends it for what is the case: its caller has cancelled a stream the target had
      accepted; or its request was refused, or failed in some other way; or its buffer is full; or a read fails. */
  lemma ReasonsAreTrue(states: seq<System>, steps: seq<Step>, n: nat, h: nat)
    requires IsRun(states, steps) && n < |steps| && EndsAs(states[n], steps[n], h).Some?
    ensures h < |states[n].subscribers|
    ensures var st, call := states[n], states[n].subscribers[h].call;
      match EndsAs(st, steps[n], h).value
      case Overflow => FindsFull(st, steps[n], h)
      case Interrupted => steps[n].ReadFails?
      case Cancelled => CancelledBefore(steps, n, h) && Answered(st, call, true)
      case CallFailed(refused) => !Answered(st, call, true) && (refused <==> Answered(st, call, false))
  {
    RunKeepsInv(states, steps, n);
    assert SubscriberOk(states[n], h);
    if IsCancelling(states[n], h) {
      CancellingWasAsked(states, steps, n, h);
    }
  }

  // ----- that it ends -----

  /** Whoever has gone stays gone. */
  lemma {:induction false} FinishedForGood(states: seq<System>, steps: seq<Step>, i: nat, n: nat, h: nat)
    requires IsRun(states, steps) && i < n <= |steps|
    requires steps[i] == Abandon(h) || steps[i] == End(h) || steps[i] == WatcherExits(h)
    ensures IsFinished(states[n], h)
  {
    RunSubsGrow(states, steps, n - 1);
    if i < n - 1 {
      FinishedForGood(states, steps, i, n - 1, h);
    }
  }

  /** A stream that its caller cancels has ended, or nothing but its own next step is needed to end it. */
  lemma {:induction false} CancelEnds(states: seq<System>, steps: seq<Step>, i: nat, n: nat, h: nat)
    requires IsRun(states, steps) && i < n <= |steps| && steps[i] == CancelStream(h)
    ensures WellFormed(states[n])
    ensures Enabled(states[n], End(h)) || (IsFinished(states[n], h) && !Listed(states[n], h))
  {
    RunKeepsInv(states, steps, n);
    InvIsWellFormed(states[n]);
    CancellingOrFinished(states, steps, i, n, h);
    if IsFinished(states[n], h) {
      assert SubscriberOk(states[n], h);
    }
  }

  lemma {:induction false} CancellingOrFinished(states: seq<System>, steps: seq<Step>, i: nat, n: nat, h: nat)
    requires IsRun(states, steps) && i < n <= |steps| && steps[i] == CancelStream(h)
    ensures IsCancelling(states[n], h) || IsFinished(states[n], h)
  {
    RunSubsGrow(states, steps, n - 1);
    if i < n - 1 {
      CancellingOrFinished(states, steps, i, n - 1, h);
    }
  }

  // ----- why Subscribe fails -----

  // Its caller gave up waiting, or it was refused a place on the list.
  ghost predicate TurnedAway(states: seq<System>, steps: seq<Step>, i: nat, h: nat)
    requires i < |steps| && |states| == |steps| + 1
  {
    || steps[i] == Abandon(h)
    || (steps[i] == Register(h) && h < |states[i].core.subs| &&
        (ClosedBefore(steps, i) || FailedBefore(steps, i) ||
         states[i].core.subs[h].source in states[i].core.subscriptions))
  }

  /** A Subscribe that is over without a subscription that ended was turned away, at a step of its own. */
  lemma {:induction false} SubscribeFailsFor(states: seq<System>, steps: seq<Step>, n: nat, h: nat) returns (i: nat)
    requires IsRun(states, steps) && n <= |steps| && IsFinished(states[n], h)
    requires h < |states[n].core.subs| && states[n].core.subs[h].err.None?
    ensures i < n && TurnedAway(states, steps, i, h)
  {
    RunSubsGrow(states, steps, n - 1);
    if IsFinished(states[n - 1], h) {
      RunSubStep(states, steps, n - 1, h);
      i := SubscribeFailsFor(states, steps, n - 1, h);
    } else {
      FinishesFor(states, steps, n - 1, h);
      i := n - 1;
    }
  }

  lemma FinishesFor(states: seq<System>, steps: seq<Step>, n: nat, h: nat)
    requires IsRun(states, steps) && n < |steps| && !IsFinished(states[n], h) && IsFinished(states[n + 1], h)
    requires h < |states[n + 1].core.subs| && states[n + 1].core.subs[h].err.None?
    ensures TurnedAway(states, steps, n, h)
  {
    RunSubsGrow(states, steps, n);
    assert Follows(states, steps, n);
    RunKeepsInv(states, steps, n);
    assert SubscriberOk(states[n], h);
    RunSubStep(states, steps, n, h);
    if steps[n] == Register(h) {
      RegistersIff(states, steps, n, h);
    }
  }

  // ----- what is lost -----

  /** A subscription that finds no room for an event has got every event for its source that was read before it since
      its registration; that one is lost to it, and so are all that come after. */
  lemma OverflowLosesThatEvent(states: seq<System>, steps: seq<Step>, r: nat, e: nat, n: nat, h: nat)
    requires IsRun(states, steps) && r < e < n <= |steps| && steps[r] == Register(h) && Listed(states[r + 1], h)
    requires FindsFull(states[e], steps[e], h)
    ensures HasEndedAs(states[n], h, Overflow) && states[e].fromTarget != [] && states[e].fromTarget[0].Notification?
    ensures EventsFor(ReadBetween(states, steps, r, e + 1), states[n].core.subs[h].source) ==
            Got(states[n], h) + [states[e].fromTarget[0].event]
  {
    NextListedOrEnded(states, steps, e, h);
    DeliveryHasNoGaps(states, steps, r, e, n, h);
    EndedAsIff(states, steps, n, h, Overflow);
    var source := states[e].core.subs[h].source;
    OneEvent(states[e].fromTarget[0], source);
    ReadOneMore(states, steps, r, e, source);
    ListedOrEnded(states, steps, e, n, h);
  }

  // ----- what a reader takes -----

  function Takes(steps: seq<Step>, n: nat, h: nat): nat
    requires n <= |steps|
  {
    if n == 0 then 0 else Takes(steps, n - 1, h) + (if steps[n - 1] == Take(h) then 1 else 0)
  }

  /** Every receive takes one event: so the k-th one takes the k-th of them. */
  lemma {:induction false} EveryTakeTakesOne(states: seq<System>, steps: seq<Step>, n: nat, h: nat)
    requires IsRun(states, steps) && n <= |steps|
    ensures h < |states[n].core.subs| ==> |states[n].core.subs[h].taken| == Takes(steps, n, h)
    ensures h >= |states[n].core.subs| ==> Takes(steps, n, h) == 0
  {
    if n > 0 {
      EveryTakeTakesOne(states, steps, n - 1, h);
      RunSubsGrow(states, steps, n - 1);
      if h < |states[n - 1].core.subs| {
        RunSubStep(states, steps, n - 1, h);
      }
    }
  }

  // ----- what the target is told -----

  // The target may be streaming for a subscription that ended so.
  predicate NeedsUnsubscribe(reason: Reason) {
    reason == Overflow || reason == Cancelled || reason == CallFailed(false)
  }

  /** Every subscription that ends leaves a cleanup for its source, whose goroutine unsubscribes, unless the target has
      refused it or the connection is gone; and nothing else does. */
  lemma EndsLeaveCleanups(st: System, step: Step, h: nat)
    requires Inv(st) && WellFormed(st) && Enabled(st, step) && EndsAs(st, step, h).Some? && !step.ReadFails?
    ensures var st1, source := Apply(st, step), st.core.subs[h].source;
      if NeedsUnsubscribe(EndsAs(st, step, h).value) then
        && st1.core.cleanups == st.core.cleanups + [Cleanup(source, false)]
        && st1.cleaners == st.cleaners + [Cleaner(Spawned, None)]
      else st1.core.cleanups == st.core.cleanups && st1.cleaners == st.cleaners
  {
    assert SubscriberOk(st, h);
    if step.ReadMessage? {
      OverflowLeavesCleanup(st, h);
    }
  }

  lemma OverflowLeavesCleanup(st: System, h: nat)
    requires Inv(st) && WellFormed(st) && FindsFull(st, ReadMessage, h)
    ensures var st1 := DoReadMessage(st);
      && st1.core.cleanups == st.core.cleanups + [Cleanup(st.core.subs[h].source, false)]
      && st1.cleaners == st.cleaners + [Cleaner(Spawned, None)]
  {
    OneEvent(st.fromTarget[0], st.core.subs[h].source);
  }
}
