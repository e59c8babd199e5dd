/** Whose turn it is to subscribe: this part of the invariant outlives the read loop, because the socket can stay
    open after a failed read and a subscribe that was registered before it can still be written. */
module ProtocolTurns {
  import opened ClientCore
  import opened Protocol
  import opened ProtocolCalls
  import opened ProtocolParties
  import opened ProtocolStreams
  import opened ProtocolInvariant
  import opened ProtocolHistory

  ghost predicate CleanupsAnswered(st: System, source: Source) {
    && |st.cleaners| == |st.core.cleanups|
    && (forall k | 0 <= k < |st.cleaners| && st.core.cleanups[k].source == source ::
          st.core.cleanups[k].done && Answered(st, st.cleaners[k].call, true))
  }

  /** Nothing of an earlier subscription to `source` is left, and every unsubscribe was answered with success. */
  ghost predicate TurnIsFree(st: System, source: Source) {
    Silent(st, source) && CleanupsAnswered(st, source)
  }

  ghost predicate TurnsSound(st: System) {
    st.socketOpen ==> forall h, source | Unwritten(st, h, source) :: TurnIsFree(st, source)
  }

  /** While the read loop runs, the lists see to it. */
  lemma LiveTurnsAreSound(st: System)
    requires Inv(st) && !st.core.readErr
    ensures TurnsSound(st)
  {
    if st.socketOpen {
      forall h, source | Unwritten(st, h, source)
        ensures TurnIsFree(st, source)
      {
        LiveTurnIsFree(st, h, source);
      }
    }
  }

  lemma LiveTurnIsFree(st: System, h: nat, source: Source)
    requires Inv(st) && st.socketOpen && !st.core.readErr && Unwritten(st, h, source)
    ensures IsRegistered(st.core, h) && TurnIsFree(st, source)
  {
    assert SourceOk(st, source) && SubscriberOk(st, h);
    if st.subscribers[h].call.Some? {
      assert CallOk(st, st.subscribers[h].call.value);
    }
    forall k | 0 <= k < |st.cleaners| && st.core.cleanups[k].source == source
      ensures st.core.cleanups[k].done && Answered(st, st.cleaners[k].call, true)
    {
      assert CleanerOk(st, k);
    }
  }

  /** The failed read itself takes away the lists and nothing else. */
  lemma FailureKeepsTurns(st: System)
    requires Inv(st) && WellFormed(st) && TurnsSound(st)
    ensures TurnsSound(DoReadFails(st))
  {
    var st1 := DoReadFails(st);
    assert |st1.subscribers| == |st1.core.subs| && |st.subscribers| == |st.core.subs|;
    forall h, source | st.socketOpen && Unwritten(st1, h, source)
      ensures TurnIsFree(st1, source)
    {
      assert Unwritten(st, h, source);
      FailureKeepsTurn(st, source);
    }
  }

  lemma FailureKeepsTurn(st: System, source: Source)
    requires Sound(st.core) && WellFormed(st) && TurnIsFree(st, source)
    ensures TurnIsFree(DoReadFails(st), source)
  {
    var st1 := DoReadFails(st);
    assert forall i :: SubAt(st1, i, source) <==> SubAt(st, i, source);
    assert forall i :: UnsubAt(st1, i, source) <==> UnsubAt(st, i, source);
    assert forall k | 0 <= k < |st.cleaners| ::
        Answered(st1, st.cleaners[k].call, true) <==> Answered(st, st.cleaners[k].call, true);
  }

  // ----- after it -----

  /** Nothing moves at the target or on the wire, no call is undone, no cleanup is added and no subscription gets
      a request that is not written yet. */
  ghost predicate Quiet(st: System, st1: System) {
    && st1.streams == st.streams && st1.toTarget == st.toTarget && st1.fromTarget == st.fromTarget
    && CallsGrow(st, st1)
    && |st1.cleaners| == |st.cleaners| && st1.core.cleanups == st.core.cleanups
    && (forall k | 0 <= k < |st.cleaners| && st.cleaners[k].call.Some? :: st1.cleaners[k].call == st.cleaners[k].call)
    && (forall h, s | Unwritten(st1, h, s) :: Unwritten(st, h, s))
    && (st1.socketOpen ==> st.socketOpen)
  }

  lemma QuietKeepsTurns(st: System, st1: System)
    requires WireOk(st) && Quiet(st, st1) && TurnsSound(st)
    ensures TurnsSound(st1)
  {
    forall h, source | st1.socketOpen && Unwritten(st1, h, source)
      ensures TurnIsFree(st1, source)
    {
      assert Unwritten(st, h, source);
      QuietKeepsTurn(st, st1, source);
    }
  }

  lemma QuietKeepsTurn(st: System, st1: System, source: Source)
    requires WireOk(st) && Quiet(st, st1) && TurnIsFree(st, source)
    ensures TurnIsFree(st1, source)
  {
    assert forall i :: SubAt(st1, i, source) <==> SubAt(st, i, source);
    assert forall i :: UnsubAt(st1, i, source) <==> UnsubAt(st, i, source);
  }

  lemma BeginIsQuiet(st: System, request: Request)
    requires Inv(st)
    ensures Quiet(st, BeginRequest(st, request).0)
    ensures BeginRequest(st, request).1.Some? ==> BeginRequest(st, request).1.value !in st.calls
  {
    BeginRequestKeepsCalls(st, request);
    forall h, s | Unwritten(BeginRequest(st, request).0, h, s)
      ensures Unwritten(st, h, s)
    {
      assert SubscriberOk(st, h);
    }
  }

  lemma CallerIsQuiet(st: System, step: Step)
    requires Inv(st) && WellFormed(st) && Enabled(st, step) && OfCaller(step) && !step.Write?
    ensures Quiet(st, ApplyCaller(st, step))
  {
    if step.BeginOther? {
      BeginIsQuiet(st, Other(step.name));
    }
  }

  lemma SubscribingIsQuiet(st: System, step: Step)
    requires Inv(st) && WellFormed(st) && Enabled(st, step) && OfSubscribing(step) && st.core.readErr
    ensures Quiet(st, ApplySubscribing(st, step))
  {
    if step.BeginSubscribe? {
      BeginSubscribeIsQuiet(st, step.h);
    }
  }

  lemma BeginSubscribeIsQuiet(st: System, h: nat)
    requires Inv(st) && WellFormed(st) && Enabled(st, BeginSubscribe(h))
    ensures Quiet(st, DoBeginSubscribe(st, h))
  {
    var request := SubscribeTo(st.core.subs[h].source, h);
    BeginIsQuiet(st, request);
    var st1 := DoBeginSubscribe(st, h);
    forall g, s | Unwritten(st1, g, s)
      ensures Unwritten(st, g, s)
    {
      if g != h {
        assert Unwritten(BeginRequest(st, request).0, g, s);
      }
    }
  }

  lemma SubscriptionIsQuiet(st: System, step: Step)
    requires Inv(st) && WellFormed(st) && Enabled(st, step) && OfSubscription(step) && st.core.readErr
    ensures Quiet(st, ApplySubscription(st, step))
  {
  }

  lemma CleanerIsQuiet(st: System, step: Step)
    requires Inv(st) && WellFormed(st) && Enabled(st, step) && OfCleaner(step) && st.core.readErr
    ensures Quiet(st, ApplyCleaner(st, step))
  {
    assert CleanerOk(st, step.k);
    if step.BeginUnsubscribe? {
      BeginUnsubscribeIsQuiet(st, step.k);
    } else if step.RemoveCleanup? {
      assert FinishCleanup(st.core, step.k) == st.core;
    }
  }

  lemma BeginUnsubscribeIsQuiet(st: System, k: nat)
    requires Inv(st) && k < |st.cleaners| && st.cleaners[k].call.None?
    ensures |st.cleaners| == |st.core.cleanups| && Quiet(st, DoBeginUnsubscribe(st, k))
  {
    var request := UnsubscribeFrom(st.core.cleanups[k].source, k);
    BeginIsQuiet(st, request);
    forall h, s | Unwritten(DoBeginUnsubscribe(st, k), h, s)
      ensures Unwritten(st, h, s)
    {
      assert Unwritten(BeginRequest(st, request).0, h, s);
    }
  }

  /** Writing a subscribe takes the one turn there is for its source; an unsubscribe that is not written yet was not
      answered, so nobody is waiting for its source. */
  lemma WriteKeepsTurns(st: System, id: nat, ok: bool, delivered: bool)
    requires Inv(st) && WellFormed(st) && Enabled(st, Write(id, ok, delivered)) && TurnsSound(st)
    ensures TurnsSound(DoWrite(st, id, ok, delivered))
  {
    var st1 := DoWrite(st, id, ok, delivered);
    forall h, source | st1.socketOpen && Unwritten(st1, h, source)
      ensures TurnIsFree(st1, source)
    {
      WriteKeepsTurn(st, id, ok, delivered, h, source);
    }
  }

  lemma WriteKeepsTurn(st: System, id: nat, ok: bool, delivered: bool, h: nat, source: Source)
    requires Inv(st) && WellFormed(st) && Enabled(st, Write(id, ok, delivered)) && TurnsSound(st)
    requires st.socketOpen && Unwritten(DoWrite(st, id, ok, delivered), h, source)
    ensures TurnIsFree(DoWrite(st, id, ok, delivered), source)
  {
    assert Unwritten(st, h, source);
    WriteIsElsewhere(st, id, ok, delivered, h, source);
    OtherWriteKeepsTurn(st, id, ok, delivered, source);
  }

  lemma WriteIsElsewhere(st: System, id: nat, ok: bool, delivered: bool, h: nat, source: Source)
    requires Inv(st) && WellFormed(st) && Enabled(st, Write(id, ok, delivered)) && st.socketOpen
    requires Unwritten(st, h, source) && TurnIsFree(st, source)
    requires Unwritten(DoWrite(st, id, ok, delivered), h, source)
    ensures st.calls[id].request.Other? || st.calls[id].request.source != source
  {
    assert OwnerOk(st, id) && SourceOk(st, source);
    var request := st.calls[id].request;
    if request.SubscribeTo? {
      assert SubscriberOk(st, request.sub);
      assert request.source == source ==> Unwritten(st, request.sub, source);
    }
  }

  lemma OtherWriteKeepsTurn(st: System, id: nat, ok: bool, delivered: bool, source: Source)
    requires WireOk(st) && id in st.calls && st.calls[id].pc.Registered? && TurnIsFree(st, source)
    requires st.calls[id].request.Other? || st.calls[id].request.source != source
    ensures TurnIsFree(DoWrite(st, id, ok, delivered), source)
  {
    var st1 := DoWrite(st, id, ok, delivered);
    assert forall i :: SubAt(st1, i, source) ==> SubAt(st, i, source);
    assert forall i :: UnsubAt(st1, i, source) ==> UnsubAt(st, i, source);
  }

  /** The target does nothing about a silent source by itself. */
  lemma TargetKeepsTurns(st: System, step: Step)
    requires Inv(st) && WellFormed(st) && Enabled(st, step) && OfTarget(step) && TurnsSound(st)
    ensures TurnsSound(ApplyTarget(st, step))
  {
    var st1 := ApplyTarget(st, step);
    forall h, source | st1.socketOpen && Unwritten(st1, h, source)
      ensures TurnIsFree(st1, source)
    {
      assert Unwritten(st, h, source);
      TargetKeepsTurn(st, step, source);
    }
  }

  lemma TargetKeepsTurn(st: System, step: Step, source: Source)
    requires WellFormed(st) && Enabled(st, step) && OfTarget(step) && TurnIsFree(st, source)
    ensures TurnIsFree(ApplyTarget(st, step), source)
  {
    var st1 := ApplyTarget(st, step);
    if step.TargetReads? {
      assert !SubAt(st, 0, source);
      assert forall i :: SubAt(st1, i, source) ==> SubAt(st, i + 1, source);
      assert forall i :: UnsubAt(st1, i, source) ==> UnsubAt(st, i + 1, source);
    } else {
      assert forall i :: SubAt(st1, i, source) ==> SubAt(st, i, source);
      assert forall i :: UnsubAt(st1, i, source) ==> UnsubAt(st, i, source);
      assert forall i :: EventAt(st1.fromTarget, i, source) ==> EventAt(st.fromTarget, i, source);
    }
  }

  lemma DeadStepKeepsTurns(st: System, step: Step)
    requires Inv(st) && WellFormed(st) && Enabled(st, step) && st.core.readErr && TurnsSound(st)
    ensures TurnsSound(Apply(st, step))
  {
    if step.Write? {
      WriteKeepsTurns(st, step.id, step.ok, step.delivered);
    } else if OfTarget(step) {
      TargetKeepsTurns(st, step);
    } else {
      OtherDeadStepKeepsTurns(st, step);
    }
  }

  lemma OtherDeadStepKeepsTurns(st: System, step: Step)
    requires Inv(st) && WellFormed(st) && Enabled(st, step) && st.core.readErr && TurnsSound(st)
    requires !step.Write? && !OfTarget(step)
    ensures TurnsSound(Apply(st, step))
  {
    DeadStepIsQuiet(st, step);
    QuietKeepsTurns(st, Apply(st, step));
  }

  lemma DeadStepIsQuiet(st: System, step: Step)
    requires Inv(st) && WellFormed(st) && Enabled(st, step) && st.core.readErr && !step.Write? && !OfTarget(step)
    ensures Quiet(st, Apply(st, step))
  {
    if OfCaller(step) {
      CallerIsQuiet(st, step);
    } else if OfSubscribing(step) {
      SubscribingIsQuiet(st, step);
    } else if OfSubscription(step) {
      SubscriptionIsQuiet(st, step);
    } else if OfCleaner(step) {
      CleanerIsQuiet(st, step);
    } else {
      ClosingIsQuiet(st, step);
    }
  }

  lemma ClosingIsQuiet(st: System, step: Step)
    requires Inv(st) && WellFormed(st) && Enabled(st, step) && st.core.readErr && OfClient(step)
    ensures Quiet(st, ApplyClient(st, step))
  {
  }

  lemma NextTurnsAreSound(states: seq<System>, steps: seq<Step>, n: nat)
    requires IsRun(states, steps) && n < |steps| && TurnsSound(states[n])
    ensures TurnsSound(states[n + 1])
  {
    RunKeepsInv(states, steps, n);
    RunKeepsInv(states, steps, n + 1);
    assert Follows(states, steps, n);
    StepEffect(states[n], steps[n]);
    if !states[n + 1].core.readErr {
      LiveTurnsAreSound(states[n + 1]);
    } else if states[n].core.readErr {
      DeadStepKeepsTurns(states[n], steps[n]);
    } else {
      FailureKeepsTurns(states[n]);
    }
  }

  lemma {:induction false} RunKeepsTurns(states: seq<System>, steps: seq<Step>, n: nat)
    requires IsRun(states, steps) && n <= |steps|
    ensures TurnsSound(states[n])
  {
    if n == 0 {
    } else {
      RunKeepsTurns(states, steps, n - 1);
      NextTurnsAreSound(states, steps, n - 1);
    }
  }
}
