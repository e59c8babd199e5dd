/** The part of the invariant that follows each call from its registration to its result. */
module ProtocolCalls {
  import opened ClientCore
  import opened Protocol

  ghost predicate InFlight(q: seq<Message>, id: nat) {
    exists i :: 0 <= i < |q| && q[i].Response? && q[i].id == id
  }

  // The read loop has read the answer to `id`, and it was `outcome`.
  ghost predicate AnswerRead(st: System, id: nat, outcome: Outcome) {
    id in st.decided && st.decided[id] == outcome && id !in st.owed && !InFlight(st.fromTarget, id)
  }

  /** The channel of call `id` is the one made with it; it and the call's result hold nothing but the answer
      to this call; and a caller still inside Call is listed, or has something to receive, or is about to. */
  ghost predicate CallOk(st: System, id: nat)
    requires id in st.calls
  {
    var call := st.calls[id];
    && 1 <= id <= st.core.nextId == |st.core.mailboxes|
    && call.chan == id - 1
    && (id in st.core.pending ==> st.core.pending[id] == call.chan && !call.pc.Done?)
    && (st.core.mailboxes[call.chan].slot.Some? ==> AnswerRead(st, id, st.core.mailboxes[call.chan].slot.value))
    && (call.pc.Done? && call.pc.result.Reply? ==> AnswerRead(st, id, call.pc.result.outcome))
    && (call.pc.Leaving? ==> !call.pc.left.Reply?)
    && (call.pc.Registered? ==> id !in st.toTarget && id !in st.decided)
    && (call.pc.Registered? || call.pc.Waiting? ==>
          id in st.core.pending || st.core.mailboxes[call.chan] != EMPTY_MAILBOX || LoopHolds(st, id))
  }

  ghost predicate LoopHolds(st: System, id: nat) {
    st.loop.Sending? && st.loop.id == id
  }

  /** Between taking a waiter and sending to it, the read loop is the only one that can reach its channel. */
  ghost predicate LoopOk(st: System) {
    st.loop.Sending? ==>
      && st.loop.id in st.calls
      && st.loop.chan == st.loop.id - 1
      && st.loop.chan < |st.core.mailboxes|
      && st.loop.id !in st.core.pending
      && st.core.mailboxes[st.loop.chan] == EMPTY_MAILBOX
      && AnswerRead(st, st.loop.id, st.loop.outcome)
  }

  ghost predicate AnswersOk(q: seq<Message>, decided: map<nat, Outcome>, owed: set<nat>) {
    && (forall i | 0 <= i < |q| && q[i].Response? ::
          q[i].id in decided && q[i].outcome == decided[q[i].id] && q[i].id !in owed)
    && (forall i, j | 0 <= i < j < |q| && q[i].Response? && q[j].Response? :: q[i].id != q[j].id)
  }

  /** What is on the wire belongs to calls, and no request is read or answered twice. */
  ghost predicate WireOk(st: System) {
    && st.core.nextId == |st.core.mailboxes|
    && st.core.pending.Keys <= st.calls.Keys
    && st.decided.Keys <= st.calls.Keys
    && st.owed <= st.decided.Keys
    && (forall i | 0 <= i < |st.toTarget| :: st.toTarget[i] in st.calls && st.toTarget[i] !in st.decided)
    && (forall i, j | 0 <= i < j < |st.toTarget| :: st.toTarget[i] != st.toTarget[j])
    && AnswersOk(st.fromTarget, st.decided, st.owed)
  }

  ghost predicate AllCallsOk(st: System) {
    forall id {:trigger CallOk(st, id)} | id in st.calls :: CallOk(st, id)
  }

  ghost predicate CallsSound(st: System) {
    WireOk(st) && LoopOk(st) && AllCallsOk(st)
  }

  // ----- preservation, by kind of step -----

  lemma BeginRequestKeepsCalls(st: System, request: Request)
    requires Sound(st.core) && CallsSound(st)
    ensures CallsSound(BeginRequest(st, request).0)
    ensures BeginRequest(st, request).1.Some? ==> BeginRequest(st, request).1.value !in st.calls
  {
    var st1 := BeginRequest(st, request).0;
    var id := st.core.nextId + 1;
    forall i | i in st.calls
      ensures i <= st.core.nextId
    {
      assert CallOk(st, i);
    }
    forall i | i in st1.calls
      ensures CallOk(st1, i)
    {
      if i != id {
        assert CallOk(st, i);
      }
    }
  }

  lemma WriteKeepsCalls(st: System, id: nat, ok: bool, delivered: bool)
    requires CallsSound(st) && id in st.calls && st.calls[id].pc.Registered?
    ensures CallsSound(DoWrite(st, id, ok, delivered))
  {
    var st1 := DoWrite(st, id, ok, delivered);
    assert CallOk(st, id);
    forall i | i in st1.calls
      ensures CallOk(st1, i)
    {
      assert CallOk(st, i);
    }
  }

  lemma LeaveKeepsCalls(st: System, id: nat)
    requires CallsSound(st) && id in st.calls && st.calls[id].pc.Waiting?
    ensures CallsSound(SetCallPc(st, id, Leaving(GaveUp)))
  {
    var st1 := SetCallPc(st, id, Leaving(GaveUp));
    forall i | i in st1.calls
      ensures CallOk(st1, i)
    {
      assert CallOk(st, i);
    }
  }

  lemma ForgetKeepsCalls(st: System, id: nat)
    requires CallsSound(st) && id in st.calls && st.calls[id].pc.Leaving?
    ensures CallsSound(DoForget(st, id))
  {
    var st1 := DoForget(st, id);
    forall i | i in st1.calls
      ensures CallOk(st1, i)
    {
      assert CallOk(st, i);
    }
  }

  ghost predicate HasNews(st: System, id: nat)
    requires id in st.calls
  {
    && st.calls[id].pc.Waiting?
    && st.calls[id].chan < |st.core.mailboxes|
    && st.core.mailboxes[st.calls[id].chan] != EMPTY_MAILBOX
  }

  lemma ReceiveKeepsSound(st: System, id: nat)
    requires Sound(st.core) && CallsSound(st) && id in st.calls && HasNews(st, id)
    ensures Sound(DoReceive(st, id).core)
    ensures id !in st.core.pending
  {
    assert CallOk(st, id);
    forall i | i in st.core.pending
      ensures st.core.pending[i] != id - 1
    {
      assert CallOk(st, i);
    }
  }

  lemma ReceiveKeepsCallOk(st: System, id: nat, i: nat)
    requires CallsSound(st) && id in st.calls && HasNews(st, id) && id !in st.core.pending && i in st.calls
    ensures CallOk(DoReceive(st, id), i)
  {
    assert CallOk(st, id);
    assert CallOk(st, i);
  }

  lemma ReceiveKeepsCalls(st: System, id: nat)
    requires CallsSound(st) && id in st.calls && HasNews(st, id) && id !in st.core.pending
    ensures CallsSound(DoReceive(st, id))
  {
    var st1 := DoReceive(st, id);
    forall i | i in st1.calls
      ensures CallOk(st1, i)
    {
      ReceiveKeepsCallOk(st, id, i);
    }
    assert CallOk(st, id);
  }

  lemma ReadAnswerKeepsCalls(st: System)
    requires Sound(st.core) && CallsSound(st) && WellFormed(st) && st.loop.Reading?
    requires st.fromTarget != [] && st.fromTarget[0].Response?
    ensures CallsSound(DoReadMessage(st))
  {
    var st1 := DoReadMessage(st);
    forall i | i in st1.calls
      ensures CallOk(st1, i)
    {
      assert CallOk(st, i);
    }
    if st1.loop.Sending? {
      assert CallOk(st, st1.loop.id);
    }
  }

  lemma SendKeepsCalls(st: System)
    requires Sound(st.core) && CallsSound(st) && st.loop.Sending?
    ensures LoopOk(st)
    ensures CallsSound(st.(core := Send(st.core, st.loop.chan, st.loop.outcome), loop := Reading))
    ensures Sound(Send(st.core, st.loop.chan, st.loop.outcome))
  {
    var st1 := st.(core := Send(st.core, st.loop.chan, st.loop.outcome), loop := Reading);
    forall i | i in st1.calls
      ensures CallOk(st1, i)
      ensures i in st.core.pending ==> st.core.pending[i] != st.loop.chan
    {
      assert CallOk(st, i);
    }
    SendSound(st.core, st.loop.chan, st.loop.outcome);
  }

  lemma ReadFailsKeepsCalls(st: System)
    requires Sound(st.core) && CallsSound(st) && WellFormed(st) && st.loop.Reading?
    ensures CallsSound(DoReadFails(st))
  {
    var st1 := DoReadFails(st);
    forall i | i in st1.calls
      ensures CallOk(st1, i)
    {
      assert CallOk(st, i);
      assert i in st.core.pending ==> st.calls[i].chan in st.core.pending.Values;
    }
  }

  lemma TargetReadsKeepsCalls(st: System, outcome: Outcome, ends: bool)
    requires CallsSound(st) && st.toTarget != []
    ensures CallsSound(DoTargetReads(st, outcome, ends))
  {
    var st1 := DoTargetReads(st, outcome, ends);
    var id := st.toTarget[0];
    assert CallOk(st, id);
    forall i | i in st1.calls
      ensures CallOk(st1, i)
    {
      assert CallOk(st, i);
    }
  }

  // The target adds one message to its queue; an answer is one it owes.
  lemma TargetSendsKeepsCalls(st: System, st1: System, m: Message)
    requires CallsSound(st)
    requires m.Response? ==> m.id in st.owed && m.id in st.decided && m.outcome == st.decided[m.id]
    requires st1 == st.(owed := if m.Response? then st.owed - {m.id} else st.owed, fromTarget := st.fromTarget + [m])
    ensures CallsSound(st1)
  {
    assert forall id: nat ::
        InFlight(st1.fromTarget, id) ==> InFlight(st.fromTarget, id) || (m.Response? && m.id == id);
    forall i | i in st1.calls
      ensures CallOk(st1, i)
    {
      assert CallOk(st, i);
    }
  }

  // Steps that touch neither calls nor the wire.
  lemma SameCallsKeepsCalls(st: System, st1: System)
    requires CallsSound(st)
    requires st1.calls == st.calls && st1.loop == st.loop
    requires st1.core.nextId == st.core.nextId
    requires st1.core.pending == st.core.pending
    requires st1.core.mailboxes == st.core.mailboxes
    requires st1.toTarget == st.toTarget
    requires
      || st1.fromTarget == st.fromTarget
      || (st.fromTarget != [] && !st.fromTarget[0].Response? && st1.fromTarget == st.fromTarget[1..])
    requires st1.decided == st.decided && st1.owed == st.owed
    ensures CallsSound(st1)
  {
    forall i | i in st1.calls
      ensures CallOk(st1, i)
    {
      assert CallOk(st, i);
    }
  }
}
