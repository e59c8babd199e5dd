/** The two queues over a whole run: what one end has put on the wire is what the other has taken off it and what is
    still on its way, in order. */
module ProtocolWire {
  import opened Protocol

  // ----- what a step puts on the wire, and what it takes off -----

  function Sends(st: System, step: Step): seq<Message> {
    match step
    case TargetAnswers(id) => if id in st.decided then [Response(id, st.decided[id])] else []
    case TargetEmits(source, event) => [Notification(source, event)]
    case TargetStrays => [Stray]
    case _ => []
  }

  function Reads(st: System, step: Step): seq<Message> {
    if step.ReadMessage? && st.fromTarget != [] then [st.fromTarget[0]] else []
  }

  function Requests(step: Step): seq<nat> {
    if step.Write? && step.delivered then [step.id] else []
  }

  function Serves(st: System, step: Step): seq<nat> {
    if step.TargetReads? && st.toTarget != [] then [st.toTarget[0]] else []
  }

  ghost predicate WireStep(st: System, step: Step, st1: System) {
    && Reads(st, step) + st1.fromTarget == st.fromTarget + Sends(st, step)
    && Serves(st, step) + st1.toTarget == st.toTarget + Requests(step)
  }

  lemma CallerWires(st: System, step: Step)
    requires WellFormed(st) && Enabled(st, step) && OfCaller(step)
    ensures WireStep(st, step, ApplyCaller(st, step))
  {
  }

  lemma SubscribingWires(st: System, step: Step)
    requires WellFormed(st) && Enabled(st, step) && OfSubscribing(step)
    ensures WireStep(st, step, ApplySubscribing(st, step))
  {
    if step.Register? {
      assert SameWire(st, DoRegister(st, step.h));
    } else if step.BeginSubscribe? {
      assert SameWire(st, DoBeginSubscribe(st, step.h));
    }
  }

  ghost predicate SameWire(st: System, st1: System) {
    st1.fromTarget == st.fromTarget && st1.toTarget == st.toTarget
  }

  lemma SubscriptionWires(st: System, step: Step)
    requires WellFormed(st) && Enabled(st, step) && OfSubscription(step)
    ensures WireStep(st, step, ApplySubscription(st, step))
  {
  }

  lemma CleanerWires(st: System, step: Step)
    requires WellFormed(st) && Enabled(st, step) && OfCleaner(step)
    ensures WireStep(st, step, ApplyCleaner(st, step))
  {
  }

  lemma ClientWires(st: System, step: Step)
    requires WellFormed(st) && Enabled(st, step) && OfClient(step)
    ensures WireStep(st, step, ApplyClient(st, step))
  {
    if step.ReadMessage? {
      var st1 := DoReadMessage(st);
      assert st1.fromTarget == st.fromTarget[1..] && st1.toTarget == st.toTarget;
    }
  }

  lemma TargetWires(st: System, step: Step)
    requires WellFormed(st) && Enabled(st, step) && OfTarget(step)
    ensures WireStep(st, step, ApplyTarget(st, step))
  {
  }

  lemma StepWires(st: System, step: Step)
    requires WellFormed(st) && Enabled(st, step)
    ensures WireStep(st, step, Apply(st, step))
  {
    if OfCaller(step) {
      CallerWires(st, step);
    } else if OfSubscribing(step) {
      SubscribingWires(st, step);
    } else if OfSubscription(step) {
      SubscriptionWires(st, step);
    } else if OfCleaner(step) {
      CleanerWires(st, step);
    } else if OfClient(step) {
      ClientWires(st, step);
    } else {
      TargetWires(st, step);
    }
  }

  // ----- over a run -----

  predicate InRange(states: seq<System>, steps: seq<Step>, n: nat) {
    |states| == |steps| + 1 && n <= |steps|
  }

  /** Everything the target has sent before step `n`. */
  function Sent(states: seq<System>, steps: seq<Step>, n: nat): seq<Message>
    requires InRange(states, steps, n)
  {
    if n == 0 then [] else Sent(states, steps, n - 1) + Sends(states[n - 1], steps[n - 1])
  }

  /** Everything the read loop has read from step `r` on, before step `n`. */
  function ReadBetween(states: seq<System>, steps: seq<Step>, r: nat, n: nat): seq<Message>
    requires InRange(states, steps, n) && r <= n
  {
    if n == r then [] else ReadBetween(states, steps, r, n - 1) + Reads(states[n - 1], steps[n - 1])
  }

  /** The requests that reached the target's queue before step `n`, and those it has read. */
  function Requested(states: seq<System>, steps: seq<Step>, n: nat): seq<nat>
    requires InRange(states, steps, n)
  {
    if n == 0 then [] else Requested(states, steps, n - 1) + Requests(steps[n - 1])
  }

  function Served(states: seq<System>, steps: seq<Step>, n: nat): seq<nat>
    requires InRange(states, steps, n)
  {
    if n == 0 then [] else Served(states, steps, n - 1) + Serves(states[n - 1], steps[n - 1])
  }

  lemma RunWires(states: seq<System>, steps: seq<Step>, n: nat)
    requires IsRun(states, steps) && n < |steps|
    ensures WireStep(states[n], steps[n], states[n + 1])
  {
    assert Follows(states, steps, n);
    StepWires(states[n], steps[n]);
  }

  /** Nothing the target sends is lost, doubled or overtaken: the read loop has read it, or it is still on its way. */
  lemma {:induction false} SentIsReadOrOnItsWay(states: seq<System>, steps: seq<Step>, n: nat)
    requires IsRun(states, steps) && n <= |steps|
    ensures Sent(states, steps, n) == ReadBetween(states, steps, 0, n) + states[n].fromTarget
  {
    if n > 0 {
      SentIsReadOrOnItsWay(states, steps, n - 1);
      RunWires(states, steps, n - 1);
      Shift(ReadBetween(states, steps, 0, n - 1), states[n - 1].fromTarget, Sends(states[n - 1], steps[n - 1]),
        Reads(states[n - 1], steps[n - 1]), states[n].fromTarget);
    }
  }

  /** Nor is any request whose write reached the target. */
  lemma {:induction false} RequestedIsServedOrOnItsWay(states: seq<System>, steps: seq<Step>, n: nat)
    requires IsRun(states, steps) && n <= |steps|
    ensures Requested(states, steps, n) == Served(states, steps, n) + states[n].toTarget
  {
    if n > 0 {
      RequestedIsServedOrOnItsWay(states, steps, n - 1);
      RunWires(states, steps, n - 1);
      Shift(Served(states, steps, n - 1), states[n - 1].toTarget, Requests(steps[n - 1]),
        Serves(states[n - 1], steps[n - 1]), states[n].toTarget);
    }
  }

  lemma Shift<T>(done: seq<T>, q: seq<T>, more: seq<T>, taken: seq<T>, q1: seq<T>)
    requires taken + q1 == q + more
    ensures done + q + more == (done + taken) + q1
  {
    assert done + q + more == done + (q + more);
    assert (done + taken) + q1 == done + (taken + q1);
  }
}
