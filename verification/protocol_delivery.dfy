/** What each subscriber is given, and why its subscription ends, over a whole run. */
module ProtocolDelivery {
  import opened Wrappers
  import opened ClientCore
  import opened Protocol
  import opened ProtocolParties
  import opened ProtocolInvariant
  import opened ProtocolWire

  /** The events for `source` among some messages; a notification without a source is for nobody. */
  function EventsFor(messages: seq<Message>, source: Source): seq<Payload> {
    if messages == [] then []
    else
      var last := messages[|messages| - 1];
      EventsFor(messages[..|messages| - 1], source) +
      (if last.Notification? && source != "" && last.source == source then [last.event] else [])
  }

  lemma EventsForAppend(messages: seq<Message>, m: Message, source: Source)
    ensures EventsFor(messages + [m], source) == EventsFor(messages, source) + EventsFor([m], source)
  {
    assert (messages + [m])[..|messages|] == messages;
    assert [m][..0] == [];
  }

  ghost predicate Listed(st: System, h: nat) {
    h < |st.core.subs| && IsRegistered(st.core, h)
  }

  // What the subscriber has received, and what is still buffered for it.
  function Got(st: System, h: nat): seq<Payload>
    requires h < |st.core.subs|
  {
    st.core.subs[h].taken + st.core.subs[h].events
  }

  // The read loop has an event for subscription `h` in hand, and its buffer is full.
  ghost predicate FindsFull(st: System, step: Step, h: nat) {
    && Listed(st, h) && |st.core.subs[h].events| == EVENT_CAPACITY
    && step.ReadMessage? && EventsFor(Reads(st, step), st.core.subs[h].source) != []
  }

  /** Why this step ends subscription `h`, if it does. */
  ghost function EndsAs(st: System, step: Step, h: nat): Option<Reason> {
    if !Listed(st, h) then None
    else if FindsFull(st, step, h) then Some(Overflow)
    else if step.ReadFails? then Some(Interrupted)
    else if step == End(h) && h < |st.subscribers| && st.subscribers[h].pc.Ending? then
      Some(st.subscribers[h].pc.reason)
    else None
  }

  /** What a step does to one subscription. */
  ghost predicate SubStep(st: System, step: Step, st1: System, h: nat)
    requires h < |st.core.subs|
  {
    && h < |st1.core.subs|
    && var sub, sub1, ends := st.core.subs[h], st1.core.subs[h], EndsAs(st, step, h);
       && sub1.source == sub.source
       && sub1.taken == sub.taken + (if step == Take(h) && sub.events != [] then [sub.events[0]] else [])
       && Got(st1, h) == Got(st, h) +
          (if Listed(st, h) && ends.None? then EventsFor(Reads(st, step), sub.source) else [])
       && sub1.err == (if ends.Some? then ends else sub.err)
       && (Listed(st, h) ==> (Listed(st1, h) <==> ends.None?))
       && (Listed(st1, h) && !Listed(st, h) ==> step == Register(h) && Got(st, h) == [] && !sub.closed)
  }

  ghost predicate SameSubs(st: System, st1: System) {
    st1.core.subs == st.core.subs && st1.core.subscriptions == st.core.subscriptions
  }

  // A step without an event in hand, which changes at most whether `h` is open and listed.
  lemma IsSubStep(st: System, step: Step, st1: System, h: nat)
    requires h < |st.core.subs| && h < |st1.core.subs| && !step.ReadMessage? && step != Take(h)
    requires var sub, sub1, ends := st.core.subs[h], st1.core.subs[h], EndsAs(st, step, h);
      && sub1 == sub.(closed := sub1.closed, err := if ends.Some? then ends else sub.err)
      && (Listed(st, h) ==> (Listed(st1, h) <==> ends.None?))
      && (Listed(st1, h) && !Listed(st, h) ==> step == Register(h) && Got(st, h) == [] && !sub.closed)
    ensures SubStep(st, step, st1, h)
  {
    assert Got(st, h) + [] == Got(st, h) && st.core.subs[h].taken + [] == st.core.subs[h].taken;
  }

  lemma SameSubsIsSubStep(st: System, step: Step, st1: System, h: nat)
    requires h < |st.core.subs| && SameSubs(st, st1)
    requires !step.ReadMessage? && !step.ReadFails? && !step.End? && !step.Take?
    ensures SubStep(st, step, st1, h)
  {
    IsSubStep(st, step, st1, h);
  }

  lemma CallerSubStep(st: System, step: Step, h: nat)
    requires WellFormed(st) && Enabled(st, step) && OfCaller(step) && h < |st.core.subs|
    ensures SubStep(st, step, ApplyCaller(st, step), h)
  {
    SameSubsIsSubStep(st, step, ApplyCaller(st, step), h);
  }

  lemma CleanerSubStep(st: System, step: Step, h: nat)
    requires WellFormed(st) && Enabled(st, step) && OfCleaner(step) && h < |st.core.subs|
    ensures SubStep(st, step, ApplyCleaner(st, step), h)
  {
    SameSubsIsSubStep(st, step, ApplyCleaner(st, step), h);
  }

  lemma TargetSubStep(st: System, step: Step, h: nat)
    requires WellFormed(st) && Enabled(st, step) && OfTarget(step) && h < |st.core.subs|
    ensures SubStep(st, step, ApplyTarget(st, step), h)
  {
    SameSubsIsSubStep(st, step, ApplyTarget(st, step), h);
  }

  lemma SubscribingSubStep(st: System, step: Step, h: nat)
    requires Inv(st) && WellFormed(st) && Enabled(st, step) && OfSubscribing(step) && h < |st.core.subs|
    ensures SubStep(st, step, ApplySubscribing(st, step), h)
  {
    if step.Register? {
      assert SubscriberOk(st, step.h);
      RegisterSubStep(st, step.h, h);
    } else if step.BeginSubscribe? {
      SameSubsIsSubStep(st, step, DoBeginSubscribe(st, step.h), h);
    } else if !step.NewSubscriber? {
      SameSubsIsSubStep(st, step, ApplySubscribing(st, step), h);
    }
  }

  lemma RegisterSubStep(st: System, g: nat, h: nat)
    requires |st.subscribers| == |st.core.subs| && g < |st.subscribers| && SubscriberOk(st, g)
    requires st.subscribers[g].pc.AtLoop? && h < |st.core.subs|
    ensures SubStep(st, Register(g), DoRegister(st, g), h)
  {
    assert DoRegister(st, g).core == TryRegister(st.core, g).0;
    IsSubStep(st, Register(g), DoRegister(st, g), h);
  }

  lemma SubscriptionSubStep(st: System, step: Step, h: nat)
    requires Inv(st) && WellFormed(st) && Enabled(st, step) && OfSubscription(step) && h < |st.core.subs|
    ensures SubStep(st, step, ApplySubscription(st, step), h)
  {
    if step.Take? {
      TakeSubStep(st, step.h, h);
    } else if step.End? {
      EndSubStep(st, step.h, h);
    } else {
      SameSubsIsSubStep(st, step, ApplySubscription(st, step), h);
    }
  }

  lemma TakeSubStep(st: System, g: nat, h: nat)
    requires g < |st.core.subs| && st.core.subs[g].events != [] && h < |st.core.subs|
    ensures SubStep(st, Take(g), st.(core := TakeEvent(st.core, g)), h)
  {
    var st1 := st.(core := TakeEvent(st.core, g));
    if g == h {
      var sub := st.core.subs[h];
      assert sub.taken + [sub.events[0]] + sub.events[1..] == sub.taken + sub.events;
    } else {
      assert st1.core.subs[h] == st.core.subs[h] && st.core.subs[h].taken + [] == st.core.subs[h].taken;
    }
    assert Got(st, h) + [] == Got(st, h);
  }

  lemma EndSubStep(st: System, g: nat, h: nat)
    requires ListsSound(st.core) && |st.subscribers| == |st.core.subs| && g < |st.subscribers|
    requires st.subscribers[g].pc.Ending? && h < |st.core.subs|
    ensures SubStep(st, End(g), DoEnd(st, g), h)
  {
    var pc := st.subscribers[g].pc;
    assert DoEnd(st, g).core == Unregister(st.core, g, pc.reason, pc.unsubscribe).0;
    UnregisterOne(st.core, g, pc.reason, pc.unsubscribe, h);
    IsSubStep(st, End(g), DoEnd(st, g), h);
  }

  lemma UnregisterOne(c: Core, g: nat, reason: Reason, unsubscribe: bool, h: nat)
    requires ListsSound(c) && g < |c.subs| && h < |c.subs|
    ensures var c1, sub, ends := Unregister(c, g, reason, unsubscribe).0, c.subs[h], g == h && IsRegistered(c, h);
      && |c1.subs| == |c.subs|
      && c1.subs[h] == (if ends then sub.(closed := true, err := Some(reason)) else sub)
      && (IsRegistered(c1, h) <==> IsRegistered(c, h) && !ends)
  {
  }

  lemma ClientSubStep(st: System, step: Step, h: nat)
    requires Inv(st) && WellFormed(st) && Enabled(st, step) && OfClient(step) && h < |st.core.subs|
    ensures SubStep(st, step, ApplyClient(st, step), h)
  {
    if step.ReadMessage? {
      ReadSubStep(st, h);
    } else if step.ReadFails? {
      FailureSubStep(st, h);
    } else {
      SameSubsIsSubStep(st, step, ApplyClient(st, step), h);
    }
  }

  lemma FailureSubStep(st: System, h: nat)
    requires Inv(st) && WellFormed(st) && h < |st.core.subs|
    ensures SubStep(st, ReadFails, DoReadFails(st), h)
  {
    if h in st.core.subscriptions.Values {
      assert Listed(st, h);
    }
    if Listed(st, h) {
      assert h in st.core.subscriptions.Values;
    }
    IsSubStep(st, ReadFails, DoReadFails(st), h);
  }

  lemma OneEvent(m: Message, source: Source)
    ensures EventsFor([m], source) ==
            if m.Notification? && source != "" && m.source == source then [m.event] else []
  {
    assert [m][..0] == [];
  }

  lemma ReadSubStep(st: System, h: nat)
    requires Inv(st) && WellFormed(st) && st.fromTarget != [] && h < |st.core.subs|
    ensures SubStep(st, ReadMessage, DoReadMessage(st), h)
  {
    OneEvent(st.fromTarget[0], st.core.subs[h].source);
    if st.fromTarget[0].Notification? && st.fromTarget[0].source != "" {
      DispatchSubStep(st, h);
    } else {
      OtherReadSubStep(st, DoReadMessage(st), h);
    }
  }

  lemma OtherReadSubStep(st: System, st1: System, h: nat)
    requires h < |st.core.subs| && SameSubs(st, st1) && EventsFor(Reads(st, ReadMessage), st.core.subs[h].source) == []
    ensures SubStep(st, ReadMessage, st1, h)
  {
    assert Got(st, h) + [] == Got(st, h) && st.core.subs[h].taken + [] == st.core.subs[h].taken;
  }

  lemma DispatchSubStep(st: System, h: nat)
    requires Inv(st) && WellFormed(st) && h < |st.core.subs|
    requires st.fromTarget != [] && st.fromTarget[0].Notification? && st.fromTarget[0].source != ""
    requires EventsFor([st.fromTarget[0]], st.core.subs[h].source) ==
             if st.fromTarget[0].source == st.core.subs[h].source then [st.fromTarget[0].event] else []
    ensures SubStep(st, ReadMessage, DoReadMessage(st), h)
  {
    var source, event := st.fromTarget[0].source, st.fromTarget[0].event;
    assert DoReadMessage(st).core == Dispatch(st.core, source, event).0;
    assert SubscriberOk(st, h);
    if IsRegistered(st.core, h) && st.core.subs[h].source == source {
      DispatchToIt(st.core, source, event, h);
    } else {
      DispatchToOther(st.core, source, event, h);
    }
    assert Got(st, h) + [] == Got(st, h) && st.core.subs[h].taken + [] == st.core.subs[h].taken;
  }

  lemma DispatchToIt(c: Core, source: Source, event: Payload, h: nat)
    requires ListsSound(c) && h < |c.subs| && IsRegistered(c, h) && c.subs[h].source == source
    ensures var c1, sub := Dispatch(c, source, event).0, c.subs[h];
      && |c1.subs| == |c.subs|
      && if |sub.events| < EVENT_CAPACITY then
           && c1.subs[h] == sub.(events := c1.subs[h].events) && IsRegistered(c1, h)
           && c1.subs[h].taken + c1.subs[h].events == sub.taken + sub.events + [event]
         else c1.subs[h] == sub.(closed := true, err := Some(Overflow)) && !IsRegistered(c1, h)
  {
    var sub := c.subs[h];
    assert sub.taken + (sub.events + [event]) == sub.taken + sub.events + [event];
  }

  lemma DispatchToOther(c: Core, source: Source, event: Payload, h: nat)
    requires ListsSound(c) && h < |c.subs| && !(IsRegistered(c, h) && c.subs[h].source == source)
    ensures var c1 := Dispatch(c, source, event).0;
      |c1.subs| == |c.subs| && c1.subs[h] == c.subs[h] && (IsRegistered(c1, h) <==> IsRegistered(c, h))
  {
  }

  lemma StepSubStep(st: System, step: Step, h: nat)
    requires Inv(st) && WellFormed(st) && Enabled(st, step) && h < |st.core.subs|
    ensures SubStep(st, step, Apply(st, step), h)
  {
    if OfCaller(step) {
      CallerSubStep(st, step, h);
    } else if OfSubscribing(step) {
      SubscribingSubStep(st, step, h);
    } else if OfSubscription(step) {
      SubscriptionSubStep(st, step, h);
    } else if OfCleaner(step) {
      CleanerSubStep(st, step, h);
    } else if OfClient(step) {
      ClientSubStep(st, step, h);
    } else {
      TargetSubStep(st, step, h);
    }
  }

  lemma RunSubStep(states: seq<System>, steps: seq<Step>, n: nat, h: nat)
    requires IsRun(states, steps) && n < |steps| && h < |states[n].core.subs|
    ensures SubStep(states[n], steps[n], states[n + 1], h)
  {
    RunKeepsInv(states, steps, n);
    assert Follows(states, steps, n);
    StepSubStep(states[n], steps[n], h);
  }

  // ----- every event, in order -----

  /** A subscription is listed once in its life: by its Register, until something ends it. */
  lemma {:induction false} ListedOrEnded(states: seq<System>, steps: seq<Step>, i: nat, n: nat, h: nat)
    requires IsRun(states, steps) && i <= n <= |steps| && h < |states[i].core.subs|
    requires Listed(states[i], h) || states[i].core.subs[h].closed
    ensures h < |states[n].core.subs| && states[n].core.subs[h].source == states[i].core.subs[h].source
    ensures Listed(states[n], h) || states[n].core.subs[h].closed
  {
    if i < n {
      ListedOrEnded(states, steps, i, n - 1, h);
      NextListedOrEnded(states, steps, n - 1, h);
    }
  }

  lemma NextListedOrEnded(states: seq<System>, steps: seq<Step>, n: nat, h: nat)
    requires IsRun(states, steps) && n < |steps| && h < |states[n].core.subs|
    requires Listed(states[n], h) || states[n].core.subs[h].closed
    ensures SubStep(states[n], steps[n], states[n + 1], h)
    ensures Listed(states[n + 1], h) || states[n + 1].core.subs[h].closed
    ensures Listed(states[n + 1], h) ==> Listed(states[n], h)
  {
    RunSubStep(states, steps, n, h);
    RunKeepsInv(states, steps, n);
    RunKeepsInv(states, steps, n + 1);
  }

  /** While it is listed, a subscriber has got exactly the events for its source among what was read since. */
  ghost predicate HasGotAll(states: seq<System>, steps: seq<Step>, r: nat, e: nat, h: nat)
    requires InRange(states, steps, e) && r <= e
  {
    Listed(states[e], h) ==>
      Got(states[e], h) == EventsFor(ReadBetween(states, steps, r, e), states[e].core.subs[h].source)
  }

  lemma {:induction false} GotSinceRegistered(states: seq<System>, steps: seq<Step>, r: nat, e: nat, h: nat)
    requires IsRun(states, steps) && r < e <= |steps| && steps[r] == Register(h) && Listed(states[r + 1], h)
    ensures HasGotAll(states, steps, r, e, h)
  {
    if e == r + 1 {
      JustRegistered(states, steps, r, h);
    } else {
      GotSinceRegistered(states, steps, r, e - 1, h);
      NextHasGotAll(states, steps, r, e - 1, h);
    }
  }

  lemma NextHasGotAll(states: seq<System>, steps: seq<Step>, r: nat, e: nat, h: nat)
    requires IsRun(states, steps) && r < e < |steps| && Listed(states[r + 1], h) && HasGotAll(states, steps, r, e, h)
    ensures HasGotAll(states, steps, r, e + 1, h)
  {
    ListedOrEnded(states, steps, r + 1, e, h);
    NextListedOrEnded(states, steps, e, h);
    if Listed(states[e + 1], h) {
      ReadOneMore(states, steps, r, e, states[e].core.subs[h].source);
    }
  }

  lemma ReadOneMore(states: seq<System>, steps: seq<Step>, r: nat, n: nat, source: Source)
    requires |states| == |steps| + 1 && r <= n < |steps|
    ensures EventsFor(ReadBetween(states, steps, r, n + 1), source) ==
            EventsFor(ReadBetween(states, steps, r, n), source) + EventsFor(Reads(states[n], steps[n]), source)
  {
    var before, one := ReadBetween(states, steps, r, n), Reads(states[n], steps[n]);
    if one == [] {
      assert before + one == before;
      assert EventsFor(before, source) + [] == EventsFor(before, source);
    } else {
      EventsForAppend(before, one[0], source);
      assert one == [one[0]];
    }
  }

  lemma JustRegistered(states: seq<System>, steps: seq<Step>, r: nat, h: nat)
    requires IsRun(states, steps) && r < |steps| && steps[r] == Register(h) && Listed(states[r + 1], h)
    ensures Got(states[r + 1], h) == [] && ReadBetween(states, steps, r, r + 1) == []
  {
    RunKeepsInv(states, steps, r);
    assert Follows(states, steps, r) && SubscriberOk(states[r], h);
    RunSubStep(states, steps, r, h);
  }

  lemma {:induction false} GotStays(states: seq<System>, steps: seq<Step>, i: nat, n: nat, h: nat)
    requires IsRun(states, steps) && i <= n <= |steps|
    requires h < |states[i].core.subs| && states[i].core.subs[h].closed && !Listed(states[i], h)
    ensures h < |states[n].core.subs| && states[n].core.subs[h].closed && !Listed(states[n], h)
    ensures Got(states[n], h) == Got(states[i], h) && states[n].core.subs[h].source == states[i].core.subs[h].source
    ensures states[n].core.subs[h].err == states[i].core.subs[h].err
  {
    if i < n {
      GotStays(states, steps, i, n - 1, h);
      NextListedOrEnded(states, steps, n - 1, h);
      assert Got(states[n - 1], h) + [] == Got(states[n - 1], h);
    }
  }

  /** Subscription `h` is listed by step `r`, and from then on until step `e`, which ends it unless `e` is now. */
  ghost predicate ListedBetween(states: seq<System>, steps: seq<Step>, r: nat, e: nat, n: nat, h: nat) {
    && IsRun(states, steps) && r < e <= n <= |steps|
    && steps[r] == Register(h) && Listed(states[r + 1], h)
    && Listed(states[e], h) && (e == n || !Listed(states[e + 1], h))
  }

  /** What a subscriber has received and what is still buffered for it is exactly the events for its source that were
      read, in order and without gaps, between its registration and its end (or now). */
  lemma DeliveryHasNoGaps(states: seq<System>, steps: seq<Step>, r: nat, e: nat, n: nat, h: nat)
    requires ListedBetween(states, steps, r, e, n, h)
    ensures h < |states[n].core.subs|
    ensures Got(states[n], h) == EventsFor(ReadBetween(states, steps, r, e), states[n].core.subs[h].source)
  {
    GotSinceRegistered(states, steps, r, e, h);
    if e < n {
      NextListedOrEnded(states, steps, e, h);
      assert Got(states[e], h) + [] == Got(states[e], h);
      GotStays(states, steps, e + 1, n, h);
    }
  }
}
