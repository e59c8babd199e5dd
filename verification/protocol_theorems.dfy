/** What holds of one connection in every reachable state, and what holds only on a condition. */
module ProtocolTheorems {
  import opened ClientCore
  import opened Protocol
  import opened ProtocolCalls
  import opened ProtocolParties
  import opened ProtocolStreams
  import opened ProtocolInvariant
  import opened ProtocolTurns

  lemma ReachableStep(st: System, step: Step)
    requires Reachable(st) && WellFormed(st) && Enabled(st, step)
    ensures Reachable(Apply(st, step)) && WellFormed(Apply(st, step))
  {
    var states, steps :| IsRun(states, steps) && states[|steps|] == st;
    var st1 := Apply(st, step);
    RunExtends(states, steps, step, st1);
    ReachableInv(st1);
  }

  lemma RunExtends(states: seq<System>, steps: seq<Step>, step: Step, st1: System)
    requires IsRun(states, steps) && WellFormed(states[|steps|]) && Enabled(states[|steps|], step)
    requires st1 == Apply(states[|steps|], step)
    ensures Reachable(st1)
  {
    var states1, steps1 := states + [st1], steps + [step];
    forall i | 0 <= i < |steps1|
      ensures Follows(states1, steps1, i)
    {
      assert i < |steps| ==> Follows(states, steps, i);
    }
    assert IsRun(states1, steps1) && states1[|steps1|] == st1;
  }

  lemma ReachableInit()
    ensures Reachable(INIT)
  {
    assert IsRun([INIT], []);
  }

  // ----- streams -----

  /** The target never runs two streams for one source, whatever happens to the connection. */
  lemma AtMostOneStream(st: System, source: Source)
    requires Reachable(st)
    ensures st.streams[source] <= 1
  {
    ReachableInv(st);
    assert SourceOk(st, source);
  }

  /** On an open socket, a source that streams, or has a subscribe on its way to the target, is held by exactly one
      of the client's two lists if and only if no read has failed. */
  lemma StreamIsHeldIff(st: System, source: Source)
    requires Reachable(st) && st.socketOpen
    requires st.streams[source] > 0 || exists i :: SubAt(st, i, source)
    ensures (source in st.core.subscriptions <==> source !in st.core.unsubscribing) <==> !st.core.readErr
  {
    ReachableInv(st);
    assert SourceOk(st, source);
  }

  /** failPending empties both lists but leaves the socket open: a read that fails on an open connection leaves
      the streams that were running with no one to end them. */
  lemma ReadFailureLeaksStream()
    ensures exists st :: Reachable(st) && st.socketOpen && st.streams["s"] == 1 &&
                         "s" !in st.core.subscriptions && "s" !in st.core.unsubscribing
  {
    var st1 := StreamingState();
    ReachableStep(st1, ReadFails);
    var st := Apply(st1, ReadFails);
    assert Reachable(st) && st.socketOpen && st.streams["s"] == 1;
  }

  // The shortest run to a registered subscription, and on to a stream.
  lemma RegisteredState() returns (st: System)
    ensures Reachable(st) && WellFormed(st) && st.socketOpen && st.loop.Reading? && !st.core.closed
    ensures |st.subscribers| == |st.core.subs| == 1 && st.core.subs[0].source == "s" && st.subscribers[0].pc.BeforeCall?
    ensures st.core.nextId == 0 && st.toTarget == [] && st.streams == multiset{}
  {
    ReachableInit();
    ReachableStep(INIT, NewSubscriber("s"));
    var st1 := Apply(INIT, NewSubscriber("s"));
    ReachableStep(st1, Register(0));
    st := Apply(st1, Register(0));
  }

  lemma StreamingState() returns (st: System)
    ensures Reachable(st) && WellFormed(st) && st.socketOpen && st.streams["s"] == 1 && st.loop.Reading?
  {
    var st1 := RegisteredState();
    ReachableStep(st1, BeginSubscribe(0));
    var st2 := Apply(st1, BeginSubscribe(0));
    assert 1 in st2.calls && st2.calls[1].request == SubscribeTo("s", 0) && st2.calls[1].pc.Registered?;
    st := TargetAccepts(st2);
  }

  lemma TargetAccepts(st: System) returns (st1: System)
    requires Reachable(st) && WellFormed(st) && st.toTarget == [] && st.socketOpen && st.streams["s"] == 0
    requires 1 in st.calls && st.calls[1].request == SubscribeTo("s", 0) && st.calls[1].pc.Registered?
    ensures Reachable(st1) && WellFormed(st1) && st1.streams["s"] == 1
    ensures st1.socketOpen && st1.loop == st.loop
  {
    ReachableStep(st, Write(1, true, true));
    st1 := TargetReadsSubscribe(Apply(st, Write(1, true, true)));
  }

  lemma TargetReadsSubscribe(st: System) returns (st1: System)
    requires Reachable(st) && WellFormed(st) && st.toTarget == [1] && st.streams["s"] == 0
    requires 1 in st.calls && st.calls[1].request == SubscribeTo("s", 0)
    ensures Reachable(st1) && WellFormed(st1) && st1.streams["s"] == 1
    ensures st1.socketOpen == st.socketOpen && st1.loop == st.loop
  {
    ReachableStep(st, TargetReads(Success("true"), false));
    st1 := Apply(st, TargetReads(Success("true"), false));
  }

  /** A subscribe is written only when nothing of an earlier subscription to its source is left at the target or on
      the wire, and every earlier unsubscribe was answered with success: also after a failed read, when the lists
      that saw to it are gone. */
  lemma ReplacementWaits(st: System, id: nat, ok: bool, source: Source, h: nat)
    requires Reachable(st) && WellFormed(st) && Enabled(st, Write(id, ok, true))
    requires st.calls[id].request == SubscribeTo(source, h)
    ensures Silent(st, source)
    ensures |st.cleaners| == |st.core.cleanups|
    ensures forall k | 0 <= k < |st.cleaners| && st.core.cleanups[k].source == source ::
        st.core.cleanups[k].done && Answered(st, st.cleaners[k].call, true)
    ensures !st.core.readErr ==> source in st.core.subscriptions && st.core.subscriptions[source] == h
  {
    ReachableInv(st);
    assert CallOk(st, id) && OwnerOk(st, id) && SubscriberOk(st, h);
    assert Unwritten(st, h, source);
    ReachableTurns(st);
    if !st.core.readErr {
      LiveTurnIsFree(st, h, source);
    }
  }

  lemma ReachableTurns(st: System)
    requires Reachable(st)
    ensures TurnsSound(st)
  {
    var states, steps :| IsRun(states, steps) && states[|steps|] == st;
    RunKeepsTurns(states, steps, |steps|);
  }

  // ----- channels -----

  /** No interleaving sends on or closes a closed channel, and the read loop never blocks on a waiter: the channel it
      is about to send to is open and empty, and nothing else can reach it. */
  lemma NeverPanicsNorBlocks(st: System)
    requires Reachable(st)
    ensures !st.core.panicked && WellFormed(st) && !BlocksSend(st)
    ensures st.loop.Sending? ==>
      st.core.mailboxes[st.loop.chan] == EMPTY_MAILBOX && st.loop.chan !in st.core.pending.Values
  {
    ReachableInv(st);
    if st.loop.Sending? {
      forall i | i in st.core.pending
        ensures st.core.pending[i] != st.loop.chan
      {
        assert CallOk(st, i);
      }
    }
  }

  /** A call ends with a reply only if the target decided that reply for that very request. */
  lemma RepliesAreNeverCrossed(st: System, id: nat, outcome: Outcome)
    requires Reachable(st) && id in st.calls && st.calls[id].pc == Done(Reply(outcome))
    ensures id in st.decided && st.decided[id] == outcome
  {
    ReachableInv(st);
    assert CallOk(st, id);
  }

  /** An id is never handed out again. */
  lemma IdsAreFresh(st: System, request: Request)
    requires Reachable(st)
    ensures BeginRequest(st, request).1.Some? ==> BeginRequest(st, request).1.value !in st.calls
  {
    ReachableInv(st);
    BeginRequestKeepsCalls(st, request);
  }

  /** A caller waiting in Call is never forgotten: it is listed for the read loop, or it can receive already, or the
      read loop holds its answer. */
  lemma NoCallerIsForgotten(st: System, id: nat)
    requires Reachable(st) && id in st.calls && st.calls[id].pc.Waiting?
    ensures WellFormed(st)
    ensures id in st.core.pending || Enabled(st, Receive(id)) || LoopHolds(st, id)
  {
    ReachableInv(st);
    assert CallOk(st, id);
  }

  // ----- the lists -----

  /** The lists never share a source; a listed subscription is open; a cleanup is finished exactly when it is not
      listed. */
  lemma ListsStaySound(st: System)
    requires Reachable(st)
    ensures st.core.subscriptions.Keys !! st.core.unsubscribing.Keys
    ensures forall h | 0 <= h < |st.core.subs| && st.core.subs[h].closed :: !IsRegistered(st.core, h)
    ensures forall k | 0 <= k < |st.core.cleanups| ::
        st.core.cleanups[k].done <==> k !in st.core.unsubscribing.Values
  {
    ReachableInv(st);
    forall k | 0 <= k < |st.core.cleanups|
      ensures st.core.cleanups[k].done <==> k !in st.core.unsubscribing.Values
    {
      if !st.core.cleanups[k].done {
        assert st.core.unsubscribing[st.core.cleanups[k].source] == k;
      }
    }
  }

  /** Once the read loop has failed both lists are empty, every subscription that got past registration is closed,
      and every Subscribe that was waiting for a cleanup can go on. */
  lemma AfterReadFailure(st: System)
    requires Reachable(st) && st.core.readErr
    ensures WellFormed(st)
    ensures st.core.subscriptions == map[] && st.core.unsubscribing == map[]
    ensures forall h | 0 <= h < |st.subscribers| && Involved(st.subscribers[h].pc) :: st.core.subs[h].closed
    ensures forall h | 0 <= h < |st.subscribers| && st.subscribers[h].pc.Waits? :: Enabled(st, Wake(h))
  {
    ReachableInv(st);
    forall h | 0 <= h < |st.subscribers|
      ensures Involved(st.subscribers[h].pc) ==> st.core.subs[h].closed
      ensures st.subscribers[h].pc.Waits? ==> Enabled(st, Wake(h))
    {
      assert SubscriberOk(st, h);
    }
  }

  // ----- waiting for a cleanup -----

  // Steps that cleanup goroutine `k` takes by itself, with its own request failing or timing out.
  predicate OwnStep(st: System, k: nat, step: Step) {
    && k < |st.cleaners|
    && match step
       case BeginUnsubscribe(i) => i == k
       case UnsubscribeReturns(i) => i == k
       case CleanerCloses(i) => i == k
       case RemoveCleanup(i) => i == k
       case Write(id, ok, delivered) => st.cleaners[k].pc == Unsubscribing(id) && !ok && !delivered
       case GiveUp(id) => st.cleaners[k].pc == Unsubscribing(id)
       case ForgetCall(id) => st.cleaners[k].pc == Unsubscribing(id)
       case _ => false
  }

  // At most `n` own steps away from closing `done`.
  ghost predicate FinishesAlone(st: System, k: nat, n: nat)
    decreases n
  {
    || (k < |st.core.cleanups| && st.core.cleanups[k].done)
    || (n > 0 && WellFormed(st) && exists step ::
          OwnStep(st, k, step) && Enabled(st, step) && FinishesAlone(Apply(st, step), k, n - 1))
  }

  function Distance(st: System, k: nat): nat
    requires k < |st.cleaners|
  {
    match st.cleaners[k].pc
    case Spawned => 7
    case Unsubscribing(id) =>
      if id !in st.calls then 6
      else (match st.calls[id].pc case Registered => 6 case Waiting => 6 case Leaving(_) => 5 case Done(_) => 4)
    case Failed => 3
    case Removing => 1
    case Gone => 0
  }

  function NextOwnStep(st: System, k: nat): Step
    requires k < |st.cleaners| && !st.cleaners[k].pc.Gone?
  {
    match st.cleaners[k].pc
    case Spawned => BeginUnsubscribe(k)
    case Unsubscribing(id) =>
      if id !in st.calls then BeginUnsubscribe(k)
      else (match st.calls[id].pc
            case Registered => Write(id, false, false)
            case Waiting => GiveUp(id)
            case Leaving(_) => ForgetCall(id)
            case Done(_) => UnsubscribeReturns(k))
    case Failed => CleanerCloses(k)
    case Removing => RemoveCleanup(k)
    case Gone => RemoveCleanup(k)
  }

  /** A cleanup never strands a waiting Subscribe: even if the target and the read loop never move again, its own
      goroutine closes `done` within seven steps of its own. */
  lemma {:induction false} CleanupFinishesAlone(st: System, k: nat, n: nat)
    requires Inv(st) && WellFormed(st) && k < |st.cleaners| && Distance(st, k) <= n
    ensures FinishesAlone(st, k, n)
    decreases n
  {
    if st.cleaners[k].pc.Gone? {
      assert CleanerOk(st, k);
    } else {
      var st1 := AfterOwnStep(st, k, n);
      CleanupFinishesAlone(st1, k, n - 1);
    }
  }

  lemma AfterOwnStep(st: System, k: nat, n: nat) returns (st1: System)
    requires Inv(st) && WellFormed(st) && k < |st.cleaners| && !st.cleaners[k].pc.Gone? && Distance(st, k) <= n
    ensures Inv(st1) && WellFormed(st1) && k < |st1.cleaners| && Distance(st1, k) <= n - 1
    ensures FinishesAlone(st1, k, n - 1) ==> FinishesAlone(st, k, n)
  {
    var step := NextOwnStep(st, k);
    OwnStepIsCloser(st, k);
    st1 := Apply(st, step);
    StepKeepsInv(st, step);
    InvIsWellFormed(st1);
    assert OwnStep(st, k, step) && Enabled(st, step);
  }

  ghost predicate Closer(st: System, k: nat)
    requires WellFormed(st) && k < |st.cleaners| && !st.cleaners[k].pc.Gone?
  {
    var step := NextOwnStep(st, k);
    && OwnStep(st, k, step) && Enabled(st, step)
    && k < |Apply(st, step).cleaners|
    && Distance(Apply(st, step), k) < Distance(st, k)
  }

  lemma OwnStepIsCloser(st: System, k: nat)
    requires Inv(st) && WellFormed(st) && k < |st.cleaners| && !st.cleaners[k].pc.Gone?
    ensures Closer(st, k)
  {
    match st.cleaners[k].pc
    case Spawned => SpawnedIsCloser(st, k);
    case Unsubscribing(id) => OwnCallIsCloser(st, k, id);
    case _ => LastStepsAreCloser(st, k);
  }

  lemma SpawnedIsCloser(st: System, k: nat)
    requires WellFormed(st) && k < |st.cleaners| && st.cleaners[k].pc.Spawned?
    ensures Closer(st, k)
  {
  }

  lemma LastStepsAreCloser(st: System, k: nat)
    requires WellFormed(st) && k < |st.cleaners| && (st.cleaners[k].pc.Failed? || st.cleaners[k].pc.Removing?)
    ensures Closer(st, k)
  {
  }

  lemma OwnCallIsCloser(st: System, k: nat, id: nat)
    requires WellFormed(st) && k < |st.cleaners| && st.cleaners[k].pc == Unsubscribing(id)
    ensures Closer(st, k)
  {
  }

  lemma NoWaiterIsStranded(st: System, h: nat)
    requires Reachable(st) && h < |st.subscribers| && st.subscribers[h].pc.Waits?
    ensures FinishesAlone(st, st.subscribers[h].pc.on, 7)
  {
    ReachableInv(st);
    CleanupFinishesAlone(st, st.subscribers[h].pc.on, 7);
  }

  // ----- after the read loop has died -----

  /** Call does not look at the read error, so a call can be listed after the read loop is gone. */
  lemma PendingAfterReadFailure()
    ensures exists st :: Reachable(st) && st.core.readErr && st.core.pending != map[]
  {
    ReachableInit();
    ReachableStep(INIT, ReadFails);
    var st1 := Apply(INIT, ReadFails);
    assert st1.core.readErr && !st1.core.closed;
    PendingAgain(st1);
  }

  lemma PendingAgain(st: System)
    requires Reachable(st) && WellFormed(st) && st.core.readErr && !st.core.closed
    ensures exists st1 :: Reachable(st1) && st1.core.readErr && st1.core.pending != map[]
  {
    ReachableStep(st, BeginOther("m"));
    var st1 := Apply(st, BeginOther("m"));
    assert st1.core.nextId in st1.core.pending;
  }

  /** ... but it gets no answer: it can only leave by its own context or by a failed write. */
  lemma PendingAfterReadFailureIsNeverAnswered(st: System, id: nat)
    requires Reachable(st) && st.core.readErr && id in st.core.pending
    ensures WellFormed(st) && !Enabled(st, Receive(id)) && st.loop.Dead?
    ensures id in st.calls && !(st.calls[id].pc.Done? && st.calls[id].pc.result.Reply?)
  {
    ReachableInv(st);
    assert CallOk(st, id);
  }
}
