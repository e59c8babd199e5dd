/** How each call ends, told from the steps of the run: it returns the answer the read loop took for it, unless its
    write failed, its caller gave up, or a failed read closed its channel first. */
module ProtocolAnswers {
  import opened Wrappers
  import opened ClientCore
  import opened Protocol
  import opened ProtocolCalls
  import opened ProtocolInvariant
  import opened ProtocolHistory
  import opened ProtocolWire

  // ----- one call, as its caller and the read loop see it -----

  // `held`: the answer the read loop has taken and not sent yet.
  datatype View = View(pc: CallPc, slot: Option<Outcome>, closed: bool, listed: bool, held: Option<Outcome>)

  datatype Event = Nothing | Written(ok: bool) | GivesUp | Leaves | Gets | Answered(outcome: Outcome) | Sent | Cut

  /** What a step does to call `id`, if anything. */
  ghost function EventOf(st: System, step: Step, id: nat): Event {
    match step
    case Write(i, ok, _) => if i == id then Written(ok) else Nothing
    case GiveUp(i) => if i == id then GivesUp else Nothing
    case ForgetCall(i) => if i == id then Leaves else Nothing
    case Receive(i) => if i == id then Gets else Nothing
    case ReadMessage =>
      if st.fromTarget != [] && st.fromTarget[0].Response? && st.fromTarget[0].id == id && id in st.core.pending then
        Answered(st.fromTarget[0].outcome)
      else Nothing
    case SendReply => if LoopHolds(st, id) then Sent else Nothing
    case ReadFails => if id in st.core.pending then Cut else Nothing
    case _ => Nothing
  }

  ghost function ViewOf(st: System, id: nat): View
    requires id in st.calls && st.calls[id].chan < |st.core.mailboxes|
  {
    var box := st.core.mailboxes[st.calls[id].chan];
    View(st.calls[id].pc, box.slot, box.closed, id in st.core.pending,
         if LoopHolds(st, id) then Some(st.loop.outcome) else None)
  }

  ghost predicate Follow(v: View, e: Event, v1: View) {
    match e
    case Nothing => v1 == v
    case Written(ok) => v1 == v.(pc := if ok then Waiting else Leaving(Lost)) && v.pc.Registered?
    case GivesUp => v1 == v.(pc := Leaving(GaveUp)) && v.pc.Waiting?
    case Leaves => v.pc.Leaving? && v1 == v.(pc := Done(v.pc.left), listed := false)
    case Gets =>
      && v.pc.Waiting? && (v.slot.Some? || v.closed)
      && v1 == v.(pc := Done(if v.slot.Some? then Reply(v.slot.value) else Lost), slot := None)
    case Answered(outcome) => v.listed && v1 == v.(listed := false, held := Some(outcome))
    case Sent => v.held.Some? && !v.closed && v1 == v.(slot := v.held, held := None)
    case Cut => v.listed && v1 == v.(listed := false, closed := true)
  }

  ghost predicate Moves(st: System, step: Step, st1: System, id: nat)
    requires id in st.calls && st.calls[id].chan < |st.core.mailboxes|
  {
    && id in st1.calls && st1.calls[id].chan < |st1.core.mailboxes|
    && st1.calls[id].chan == st.calls[id].chan
    && Follow(ViewOf(st, id), EventOf(st, step, id), ViewOf(st1, id))
  }

  lemma CallerMoves(st: System, step: Step, id: nat)
    requires Inv(st) && WellFormed(st) && Enabled(st, step) && OfCaller(step) && id in st.calls
    ensures Moves(st, step, ApplyCaller(st, step), id)
  {
    assert CallOk(st, id);
    if step.BeginOther? {
      BeginMoves(st, step, ApplyCaller(st, step), Other(step.name), id);
    } else if step.Receive? {
      ReceiveMoves(st, step.id, id);
    }
  }

  lemma ReceiveMoves(st: System, i: nat, id: nat)
    requires Inv(st) && WellFormed(st) && Enabled(st, Receive(i)) && id in st.calls && CallOk(st, id)
    ensures Moves(st, Receive(i), DoReceive(st, i), id)
  {
    assert CallOk(st, i);
  }

  lemma BeginMoves(st: System, step: Step, st1: System, request: Request, id: nat)
    requires Inv(st) && WellFormed(st) && BeginsCall(step) && id in st.calls
    requires st1.core == BeginRequest(st, request).0.core && st1.calls == BeginRequest(st, request).0.calls
    requires st1.loop == st.loop
    ensures Moves(st, step, st1, id)
  {
    BeginRequestKeepsCalls(st, request);
    assert CallOk(st, id);
  }

  lemma SameCallsMoves(st: System, step: Step, st1: System, id: nat)
    requires id in st.calls && st.calls[id].chan < |st.core.mailboxes|
    requires st1.calls == st.calls && st1.loop == st.loop
    requires st1.core.pending == st.core.pending && st1.core.mailboxes == st.core.mailboxes
    requires EventOf(st, step, id) == Nothing
    ensures Moves(st, step, st1, id)
  {
  }

  lemma SubscribingMoves(st: System, step: Step, id: nat)
    requires Inv(st) && WellFormed(st) && Enabled(st, step) && OfSubscribing(step) && id in st.calls
    ensures Moves(st, step, ApplySubscribing(st, step), id)
  {
    if step.BeginSubscribe? {
      BeginSubscribeMoves(st, step.h, id);
    } else if step.Register? {
      RegisterMoves(st, step.h, id);
    } else {
      SameCallsMoves(st, step, ApplySubscribing(st, step), id);
    }
  }

  lemma BeginSubscribeMoves(st: System, h: nat, id: nat)
    requires Inv(st) && WellFormed(st) && Enabled(st, BeginSubscribe(h)) && id in st.calls
    ensures Moves(st, BeginSubscribe(h), DoBeginSubscribe(st, h), id)
  {
    BeginMoves(st, BeginSubscribe(h), DoBeginSubscribe(st, h), SubscribeTo(st.core.subs[h].source, h), id);
  }

  lemma RegisterMoves(st: System, h: nat, id: nat)
    requires WellFormed(st) && Enabled(st, Register(h)) && id in st.calls
    ensures Moves(st, Register(h), DoRegister(st, h), id)
  {
    SameCallsMoves(st, Register(h), DoRegister(st, h), id);
  }

  lemma SubscriptionMoves(st: System, step: Step, id: nat)
    requires WellFormed(st) && Enabled(st, step) && OfSubscription(step) && id in st.calls
    ensures Moves(st, step, ApplySubscription(st, step), id)
  {
    SameCallsMoves(st, step, ApplySubscription(st, step), id);
  }

  lemma CleanerMovesCalls(st: System, step: Step, id: nat)
    requires Inv(st) && WellFormed(st) && Enabled(st, step) && OfCleaner(step) && id in st.calls
    ensures Moves(st, step, ApplyCleaner(st, step), id)
  {
    if step.BeginUnsubscribe? {
      var request := UnsubscribeFrom(st.core.cleanups[step.k].source, step.k);
      BeginMoves(st, step, DoBeginUnsubscribe(st, step.k), request, id);
    } else {
      SameCallsMoves(st, step, ApplyCleaner(st, step), id);
    }
  }

  lemma ClientMoves(st: System, step: Step, id: nat)
    requires Inv(st) && WellFormed(st) && Enabled(st, step) && OfClient(step) && id in st.calls
    ensures Moves(st, step, ApplyClient(st, step), id)
  {
    assert CallOk(st, id);
    if step.ReadMessage? {
      ReadMoves(st, id);
    } else if step.SendReply? {
      assert CallOk(st, st.loop.id);
    } else if step.ReadFails? {
      FailureMoves(st, id);
    } else {
      SameCallsMoves(st, step, ApplyClient(st, step), id);
    }
  }

  lemma FailureMoves(st: System, id: nat)
    requires Inv(st) && WellFormed(st) && Enabled(st, ReadFails) && id in st.calls
    ensures Moves(st, ReadFails, DoReadFails(st), id)
  {
    assert CallOk(st, id);
    if id in st.core.pending {
      assert st.calls[id].chan in st.core.pending.Values;
    }
    forall i | i in st.core.pending && i != id
      ensures st.core.pending[i] != st.calls[id].chan
    {
      assert CallOk(st, i);
    }
  }

  lemma ReadMoves(st: System, id: nat)
    requires Inv(st) && WellFormed(st) && Enabled(st, ReadMessage) && id in st.calls
    ensures Moves(st, ReadMessage, DoReadMessage(st), id)
  {
    assert CallOk(st, id);
    if st.fromTarget[0].Response? {
      ReadAnswerMoves(st, id);
    } else {
      ReadOtherMoves(st, id);
    }
  }

  lemma ReadAnswerMoves(st: System, id: nat)
    requires Inv(st) && WellFormed(st) && Enabled(st, ReadMessage) && id in st.calls && CallOk(st, id)
    requires st.fromTarget[0].Response?
    ensures Moves(st, ReadMessage, DoReadMessage(st), id)
  {
  }

  lemma ReadOtherMoves(st: System, id: nat)
    requires Inv(st) && WellFormed(st) && Enabled(st, ReadMessage) && id in st.calls && CallOk(st, id)
    requires !st.fromTarget[0].Response?
    ensures Moves(st, ReadMessage, DoReadMessage(st), id)
  {
    var rest := st.(fromTarget := st.fromTarget[1..]);
    if st.fromTarget[0].Notification? && st.fromTarget[0].source != "" {
      DispatchKeepsCallState(rest, st.fromTarget[0].source, st.fromTarget[0].event);
    }
    SameCallsMoves(st, ReadMessage, DoReadMessage(st), id);
  }

  lemma DispatchKeepsCallState(st: System, source: Source, event: Payload)
    requires source in st.core.subscriptions ==> st.core.subscriptions[source] < |st.core.subs|
    ensures var st1 := DoDispatch(st, source, event);
      && st1.calls == st.calls && st1.loop == st.loop
      && st1.core.pending == st.core.pending && st1.core.mailboxes == st.core.mailboxes
  {
  }

  lemma TargetMoves(st: System, step: Step, id: nat)
    requires WellFormed(st) && Enabled(st, step) && OfTarget(step) && id in st.calls
    ensures Moves(st, step, ApplyTarget(st, step), id)
  {
    SameCallsMoves(st, step, ApplyTarget(st, step), id);
  }

  lemma StepMoves(st: System, step: Step, id: nat)
    requires Inv(st) && WellFormed(st) && Enabled(st, step) && id in st.calls
    ensures Moves(st, step, Apply(st, step), id)
  {
    if OfCaller(step) {
      CallerMoves(st, step, id);
    } else if OfSubscribing(step) {
      SubscribingMoves(st, step, id);
    } else if OfSubscription(step) {
      SubscriptionMoves(st, step, id);
    } else if OfCleaner(step) {
      CleanerMovesCalls(st, step, id);
    } else if OfClient(step) {
      ClientMoves(st, step, id);
    } else {
      TargetMoves(st, step, id);
    }
  }

  // ----- a new call -----

  const NEW := View(Registered, None, false, true, None)

  /** A call is new to this step, or there is none. */
  ghost predicate Opens(st: System, st1: System, id: nat) {
    id in st1.calls ==> st1.calls[id].chan < |st1.core.mailboxes| && ViewOf(st1, id) == NEW
  }

  lemma BeginOpens(st: System, request: Request, id: nat)
    requires Inv(st) && id !in st.calls
    ensures Opens(st, BeginRequest(st, request).0, id)
  {
  }

  lemma StepOpens(st: System, step: Step, id: nat)
    requires Inv(st) && WellFormed(st) && Enabled(st, step) && id !in st.calls
    ensures Opens(st, Apply(st, step), id) && EventOf(st, step, id) == Nothing
  {
    if OfCaller(step) {
      CallerOpens(st, step, id);
    } else if step.BeginSubscribe? {
      BeginOpens(st, SubscribeTo(st.core.subs[step.h].source, step.h), id);
    } else if step.BeginUnsubscribe? {
      BeginOpens(st, UnsubscribeFrom(st.core.cleanups[step.k].source, step.k), id);
    } else {
      OthersOpenNone(st, step, id);
    }
  }

  lemma CallerOpens(st: System, step: Step, id: nat)
    requires Inv(st) && WellFormed(st) && Enabled(st, step) && OfCaller(step) && id !in st.calls
    ensures Opens(st, ApplyCaller(st, step), id) && EventOf(st, step, id) == Nothing
  {
    if step.BeginOther? {
      BeginOpens(st, Other(step.name), id);
    }
  }

  lemma OthersOpenNone(st: System, step: Step, id: nat)
    requires Inv(st) && WellFormed(st) && Enabled(st, step) && !OfCaller(step) && !BeginsCall(step) && id !in st.calls
    ensures id !in Apply(st, step).calls && EventOf(st, step, id) == Nothing
  {
    StepEffect(st, step);
    assert step.ReadMessage? ==> Apply(st, step) == DoReadMessage(st);
  }

  // ----- what the run has seen of a call, and what the call must then be -----

  datatype Record = Record(writeFailed: bool, gaveUp: bool, cut: bool, answer: Option<Outcome>)

  function Note(r: Record, e: Event): Record {
    match e
    case Written(ok) => if ok then r else r.(writeFailed := true)
    case GivesUp => r.(gaveUp := true)
    case Cut => r.(cut := true)
    case Answered(outcome) => r.(answer := Some(outcome))
    case _ => r
  }

  ghost function RecordOf(states: seq<System>, steps: seq<Step>, n: nat, id: nat): Record
    requires InRange(states, steps, n)
  {
    if n == 0 then Record(false, false, false, None)
    else Note(RecordOf(states, steps, n - 1, id), EventOf(states[n - 1], steps[n - 1], id))
  }

  predicate Tells(v: View, r: Record) {
    && !(r.writeFailed && r.gaveUp) && !(r.cut && r.answer.Some?)
    && (match v.pc
        case Registered => !r.writeFailed && !r.gaveUp
        case Waiting => !r.writeFailed && !r.gaveUp
        case Leaving(left) => if r.writeFailed then left == Lost else r.gaveUp && left == GaveUp
        case Done(result) =>
          if r.writeFailed then result == Lost
          else if r.gaveUp then result == GaveUp
          else if r.cut then result == Lost
          else r.answer.Some? && result == Reply(r.answer.value))
    && v.closed == r.cut && (r.cut ==> v.slot.None? && v.held.None?)
    && v.listed == (!v.pc.Done? && !r.cut && r.answer.None?)
    && (v.held.Some? ==> v.held == r.answer) && (v.slot.Some? ==> v.slot == r.answer)
    && (r.answer.Some? ==> v.held == r.answer || v.slot == r.answer || v.pc == Done(Reply(r.answer.value)))
  }

  lemma StillTells(v: View, e: Event, v1: View, r: Record)
    requires Tells(v, r) && Follow(v, e, v1)
    ensures Tells(v1, Note(r, e))
    ensures e.Answered? ==> r.answer.None?
  {
  }

  /** At every point of a run each call is what its record says, and nothing is on record before it has begun. */
  ghost predicate RecordTells(states: seq<System>, steps: seq<Step>, n: nat, id: nat)
    requires InRange(states, steps, n)
  {
    if id in states[n].calls then
      && states[n].calls[id].chan < |states[n].core.mailboxes|
      && Tells(ViewOf(states[n], id), RecordOf(states, steps, n, id))
    else RecordOf(states, steps, n, id) == Record(false, false, false, None)
  }

  lemma {:induction false} RunTells(states: seq<System>, steps: seq<Step>, n: nat, id: nat)
    requires IsRun(states, steps) && n <= |steps|
    ensures RecordTells(states, steps, n, id)
  {
    if n > 0 {
      RunTells(states, steps, n - 1, id);
      NextTells(states, steps, n - 1, id);
    }
  }

  lemma NextTells(states: seq<System>, steps: seq<Step>, n: nat, id: nat)
    requires IsRun(states, steps) && n < |steps| && RecordTells(states, steps, n, id)
    ensures RecordTells(states, steps, n + 1, id)
  {
    assert Follows(states, steps, n);
    RunKeepsInv(states, steps, n);
    if id in states[n].calls {
      StepMoves(states[n], steps[n], id);
      StillTells(ViewOf(states[n], id), EventOf(states[n], steps[n], id), ViewOf(states[n + 1], id),
        RecordOf(states, steps, n, id));
    } else {
      StepOpens(states[n], steps[n], id);
    }
  }

  // ----- the record in the words of the steps -----

  ghost predicate WriteFailed(steps: seq<Step>, n: nat, id: nat)
    requires n <= |steps|
  {
    exists i :: 0 <= i < n && steps[i].Write? && steps[i].id == id && !steps[i].ok
  }

  ghost predicate GaveUpBefore(steps: seq<Step>, n: nat, id: nat)
    requires n <= |steps|
  {
    exists i :: 0 <= i < n && steps[i] == GiveUp(id)
  }

  // A read failed while the call was waiting for its answer.
  ghost predicate WasCutOff(states: seq<System>, steps: seq<Step>, n: nat, id: nat)
    requires InRange(states, steps, n)
  {
    exists i :: 0 <= i < n && steps[i].ReadFails? && id in states[i].core.pending
  }

  // The read loop read an answer to the call while it was waiting for one.
  ghost predicate WasAnswered(states: seq<System>, steps: seq<Step>, n: nat, id: nat, outcome: Outcome)
    requires InRange(states, steps, n)
  {
    exists i :: 0 <= i < n && Reads(states[i], steps[i]) == [Response(id, outcome)] && id in states[i].core.pending
  }

  ghost predicate RecordMeans(states: seq<System>, steps: seq<Step>, n: nat, id: nat)
    requires InRange(states, steps, n)
  {
    var r := RecordOf(states, steps, n, id);
    && (r.writeFailed <==> WriteFailed(steps, n, id))
    && (r.gaveUp <==> GaveUpBefore(steps, n, id))
    && (r.cut <==> WasCutOff(states, steps, n, id))
    && (forall outcome :: r.answer == Some(outcome) <==> WasAnswered(states, steps, n, id, outcome))
  }

  lemma {:induction false} RecordHasMeaning(states: seq<System>, steps: seq<Step>, n: nat, id: nat)
    requires IsRun(states, steps) && n <= |steps|
    ensures RecordMeans(states, steps, n, id)
  {
    if n > 0 {
      RecordHasMeaning(states, steps, n - 1, id);
      NextMeaning(states, steps, n - 1, id);
    }
  }

  lemma NextMeaning(states: seq<System>, steps: seq<Step>, n: nat, id: nat)
    requires IsRun(states, steps) && n < |steps| && RecordMeans(states, steps, n, id)
    ensures RecordMeans(states, steps, n + 1, id)
  {
    var step, e := steps[n], EventOf(states[n], steps[n], id);
    NextFailures(steps, n, id);
    NextCutOff(states, steps, n, id);
    AnsweredOnce(states, steps, n, id);
    forall outcome
      ensures WasAnswered(states, steps, n + 1, id, outcome) <==>
              WasAnswered(states, steps, n, id, outcome) || e == Answered(outcome)
    {
      NextAnswered(states, steps, n, id, outcome);
    }
  }

  lemma NextFailures(steps: seq<Step>, n: nat, id: nat)
    requires n < |steps|
    ensures WriteFailed(steps, n + 1, id) <==>
            WriteFailed(steps, n, id) || (steps[n].Write? && steps[n].id == id && !steps[n].ok)
    ensures GaveUpBefore(steps, n + 1, id) <==> GaveUpBefore(steps, n, id) || steps[n] == GiveUp(id)
  {
  }

  lemma NextCutOff(states: seq<System>, steps: seq<Step>, n: nat, id: nat)
    requires |states| == |steps| + 1 && n < |steps|
    ensures WasCutOff(states, steps, n + 1, id) <==>
            WasCutOff(states, steps, n, id) || EventOf(states[n], steps[n], id) == Cut
  {
  }

  lemma NextAnswered(states: seq<System>, steps: seq<Step>, n: nat, id: nat, outcome: Outcome)
    requires |states| == |steps| + 1 && n < |steps|
    ensures WasAnswered(states, steps, n + 1, id, outcome) <==>
            WasAnswered(states, steps, n, id, outcome) || EventOf(states[n], steps[n], id) == Answered(outcome)
  {
    assert EventOf(states[n], steps[n], id) == Answered(outcome) <==>
           Reads(states[n], steps[n]) == [Response(id, outcome)] && id in states[n].core.pending;
  }

  lemma AnsweredOnce(states: seq<System>, steps: seq<Step>, n: nat, id: nat)
    requires IsRun(states, steps) && n < |steps|
    ensures EventOf(states[n], steps[n], id).Answered? ==> RecordOf(states, steps, n, id).answer.None?
  {
    RunTells(states, steps, n, id);
  }

  // ----- the theorems -----

  /** A call that has ended was lost exactly if its write failed, or a read failed while it was waiting and its caller
      did not give up; it was given up exactly if its caller did; and otherwise, and only then, it returns the one
      answer that the read loop read for it. */
  lemma CallEndsAs(states: seq<System>, steps: seq<Step>, n: nat, id: nat)
    requires IsRun(states, steps) && n <= |steps| && id in states[n].calls && states[n].calls[id].pc.Done?
    ensures var result := states[n].calls[id].pc.result;
      && (result == Lost <==>
            WriteFailed(steps, n, id) || (WasCutOff(states, steps, n, id) && !GaveUpBefore(steps, n, id)))
      && (result == GaveUp <==> GaveUpBefore(steps, n, id))
      && (forall outcome :: result == Reply(outcome) <==>
            && WasAnswered(states, steps, n, id, outcome)
            && !WriteFailed(steps, n, id) && !GaveUpBefore(steps, n, id))
  {
    RunTells(states, steps, n, id);
    RecordHasMeaning(states, steps, n, id);
    var r := RecordOf(states, steps, n, id);
    assert forall outcome :: r.answer == Some(outcome) <==> WasAnswered(states, steps, n, id, outcome);
  }

  /** A caller that receives after its answer was read returns that answer, and it is what the target decided. */
  lemma AnswerIsReturned(states: seq<System>, steps: seq<Step>, n: nat, id: nat, outcome: Outcome)
    requires IsRun(states, steps) && n < |steps| && steps[n] == Receive(id)
    requires WasAnswered(states, steps, n, id, outcome)
    ensures id in states[n + 1].calls && states[n + 1].calls[id].pc == Done(Reply(outcome))
    ensures id in states[n + 1].decided && states[n + 1].decided[id] == outcome
  {
    RunTells(states, steps, n, id);
    RunTells(states, steps, n + 1, id);
    RecordHasMeaning(states, steps, n, id);
    ReceiveEnds(states, steps, n, id);
    RunKeepsInv(states, steps, n + 1);
    assert CallOk(states[n + 1], id);
  }

  lemma ReceiveEnds(states: seq<System>, steps: seq<Step>, n: nat, id: nat)
    requires IsRun(states, steps) && n < |steps| && steps[n] == Receive(id)
    ensures id in states[n].calls && states[n].calls[id].pc.Waiting?
    ensures id in states[n + 1].calls && states[n + 1].calls[id].pc.Done?
  {
    assert Follows(states, steps, n);
    RunKeepsInv(states, steps, n);
    StepMoves(states[n], steps[n], id);
  }

  /** An answer once read is never lost: the read loop is about to send it, or it is in the call's channel, or the call
      has returned it. */
  lemma AnswerIsKept(states: seq<System>, steps: seq<Step>, n: nat, id: nat, outcome: Outcome)
    requires IsRun(states, steps) && n <= |steps| && WasAnswered(states, steps, n, id, outcome)
    ensures id in states[n].calls && states[n].calls[id].chan < |states[n].core.mailboxes|
    ensures var st := states[n];
      || (LoopHolds(st, id) && st.loop.outcome == outcome)
      || st.core.mailboxes[st.calls[id].chan].slot == Some(outcome)
      || st.calls[id].pc == Done(Reply(outcome))
  {
    RunTells(states, steps, n, id);
    RecordHasMeaning(states, steps, n, id);
  }

  /** A call is listed from its beginning until it ends, its answer is read or a read fails, whichever comes first. */
  lemma ListedIff(states: seq<System>, steps: seq<Step>, n: nat, id: nat)
    requires IsRun(states, steps) && n <= |steps| && id in states[n].calls
    ensures id in states[n].core.pending <==>
            && !states[n].calls[id].pc.Done? && !WasCutOff(states, steps, n, id)
            && forall outcome :: !WasAnswered(states, steps, n, id, outcome)
  {
    RunTells(states, steps, n, id);
    RecordHasMeaning(states, steps, n, id);
    var r := RecordOf(states, steps, n, id);
    if r.answer.Some? {
      assert WasAnswered(states, steps, n, id, r.answer.value);
    }
  }
}
