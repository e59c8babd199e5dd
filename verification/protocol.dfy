/**
 Everything that runs over one connection in internal/truenas/client.go, as a step system: callers
 inside Call, subscribers inside Subscribe and their watchers, the goroutines of unsubscribeAsync,
 the read loop, Close, and the target at the other end of two FIFO queues. A step is one critical
 section, one channel operation, one write, or one move of the target; any enabled step may come next.

 The target is honest: it reads requests in order, answers each at most once and only after it has
 read it (the answers may come back in any order), streams a source only between a subscribe it
 accepted and the end of that stream, and refuses a subscribe without starting a stream. A write may
 fail at any time, and a write that fails may or may not have reached the target.
 */
module Protocol {
  import opened Wrappers
  import opened ClientCore

  // What a request asks for, and on whose behalf it is sent.
  datatype Request =
    | SubscribeTo(source: Source, sub: nat)
    | UnsubscribeFrom(source: Source, cleanup: nat)
    | Other(name: string)

  datatype CallResult = Reply(outcome: Outcome) | Lost | GaveUp

  predicate IsSuccess(result: CallResult) {
    result.Reply? && result.outcome.Success?
  }

  // Registered: listed in pending, not written. Leaving: about to take itself off the list.
  datatype CallPc = Registered | Waiting | Leaving(left: CallResult) | Done(result: CallResult)

  datatype Call = Call(request: Request, chan: nat, pc: CallPc)

  datatype SubscriberPc =
    | AtLoop
    | Waits(on: nat)
    | BeforeCall
    | InCall(id: nat)
    | Ending(reason: Reason, unsubscribe: bool)
    | Streaming
    | Finished

  // `call` keeps the id of the subscriber's core.subscribe request, once it has one.
  datatype Subscriber = Subscriber(pc: SubscriberPc, call: Option<nat>)

  datatype CleanerPc = Spawned | Unsubscribing(id: nat) | Failed | Removing | Gone

  datatype Cleaner = Cleaner(pc: CleanerPc, call: Option<nat>)

  datatype LoopPc = Reading | Sending(id: nat, chan: nat, outcome: Outcome) | Dead

  datatype Message =
    | Response(id: nat, outcome: Outcome)
    | Notification(source: Source, event: Payload)
    | Stray

  datatype System = System(
    core: Core,
    calls: map<nat, Call>,
    subscribers: seq<Subscriber>,
    cleaners: seq<Cleaner>,
    loop: LoopPc,
    socketOpen: bool,
    toTarget: seq<nat>,               // the ids of the requests written and not yet read
    fromTarget: seq<Message>,
    decided: map<nat, Outcome>,       // what the target decided for each request it read
    owed: set<nat>,                   // decided, not yet answered
    streams: multiset<Source>)        // the streams the target is running

  const INIT := System(EMPTY_CORE, map[], [], [], Reading, true, [], [], map[], {}, multiset{})

  datatype Step =
    | BeginOther(name: string)
    | Write(id: nat, ok: bool, delivered: bool)
    | GiveUp(id: nat)
    | ForgetCall(id: nat)
    | Receive(id: nat)
    | NewSubscriber(source: Source)
    | Register(h: nat)
    | Wake(h: nat)
    | Abandon(h: nat)
    | BeginSubscribe(h: nat)
    | SubscribeReturns(h: nat)
    | CancelStream(h: nat)
    | End(h: nat)
    | WatcherExits(h: nat)
    | Take(h: nat)
    | BeginUnsubscribe(k: nat)
    | UnsubscribeReturns(k: nat)
    | CleanerCloses(k: nat)
    | RemoveCleanup(k: nat)
    | ReadMessage
    | SendReply
    | ReadFails
    | Close
    | CloseSocket
    | TargetReads(outcome: Outcome, ends: bool)
    | TargetAnswers(id: nat)
    | TargetEmits(source: Source, event: Payload)
    | TargetStrays

  predicate WellFormed(st: System) {
    && |st.subscribers| == |st.core.subs|
    && |st.cleaners| == |st.core.cleanups|
    && (forall s | s in st.core.subscriptions :: st.core.subscriptions[s] < |st.core.subs|)
    && (forall s | s in st.core.unsubscribing :: st.core.unsubscribing[s] < |st.core.cleanups|)
    && (forall id | id in st.core.pending :: st.core.pending[id] < |st.core.mailboxes|)
    && (forall id | id in st.calls :: st.calls[id].chan < |st.core.mailboxes|)
    && (st.loop.Sending? ==> st.loop.chan < |st.core.mailboxes|)
    && (forall id | id in st.toTarget :: id in st.calls)
    && (forall h | 0 <= h < |st.subscribers| ::
          && (st.subscribers[h].pc.Waits? ==> st.subscribers[h].pc.on < |st.cleaners|)
          && (st.subscribers[h].pc.InCall? ==> st.subscribers[h].pc.id in st.calls))
    && (forall k | 0 <= k < |st.cleaners| ::
          st.cleaners[k].pc.Unsubscribing? ==> st.cleaners[k].pc.id in st.calls)
  }

  predicate Enabled(st: System, step: Step)
    requires WellFormed(st)
  {
    match step
    case BeginOther(_) => true
    case Write(id, ok, delivered) =>
      id in st.calls && st.calls[id].pc.Registered? && (ok || delivered ==> st.socketOpen) && (ok ==> delivered)
    case GiveUp(id) => id in st.calls && st.calls[id].pc.Waiting?
    case ForgetCall(id) => id in st.calls && st.calls[id].pc.Leaving?
    case Receive(id) =>
      id in st.calls && st.calls[id].pc.Waiting? &&
      (st.core.mailboxes[st.calls[id].chan].slot.Some? || st.core.mailboxes[st.calls[id].chan].closed)
    case NewSubscriber(_) => true
    case Register(h) => h < |st.subscribers| && st.subscribers[h].pc.AtLoop?
    case Wake(h) =>
      h < |st.subscribers| && st.subscribers[h].pc.Waits? && st.core.cleanups[st.subscribers[h].pc.on].done
    case Abandon(h) => h < |st.subscribers| && st.subscribers[h].pc.Waits?
    case BeginSubscribe(h) => h < |st.subscribers| && st.subscribers[h].pc.BeforeCall?
    case SubscribeReturns(h) =>
      h < |st.subscribers| && st.subscribers[h].pc.InCall? && st.calls[st.subscribers[h].pc.id].pc.Done?
    case CancelStream(h) => h < |st.subscribers| && st.subscribers[h].pc.Streaming?
    case End(h) => h < |st.subscribers| && st.subscribers[h].pc.Ending?
    case WatcherExits(h) => h < |st.subscribers| && st.subscribers[h].pc.Streaming? && st.core.subs[h].closed
    case Take(h) => h < |st.subscribers| && st.core.subs[h].events != []
    case BeginUnsubscribe(k) => k < |st.cleaners| && st.cleaners[k].pc.Spawned?
    case UnsubscribeReturns(k) =>
      k < |st.cleaners| && st.cleaners[k].pc.Unsubscribing? && st.calls[st.cleaners[k].pc.id].pc.Done?
    case CleanerCloses(k) => k < |st.cleaners| && st.cleaners[k].pc.Failed?
    case RemoveCleanup(k) => k < |st.cleaners| && st.cleaners[k].pc.Removing?
    case ReadMessage => st.loop.Reading? && st.fromTarget != []
    case SendReply => st.loop.Sending? && !BlocksSend(st)
    case ReadFails => st.loop.Reading?
    case Close => true
    case CloseSocket => true
    case TargetReads(_, _) => st.toTarget != []
    case TargetAnswers(id) => id in st.owed && id in st.decided
    case TargetEmits(source, _) => st.streams[source] > 0
    case TargetStrays => true
  }

  // The read loop sits on a full channel.
  predicate BlocksSend(st: System)
    requires WellFormed(st)
  {
    st.loop.Sending? && st.core.mailboxes[st.loop.chan].slot.Some? && !st.core.mailboxes[st.loop.chan].closed
  }

  // ----- steps of Call -----

  function BeginRequest(st: System, request: Request): (r: (System, Option<nat>)) {
    var r := BeginCall(st.core);
    if r.1.None? then (st, None)
    else (st.(core := r.0, calls := st.calls[r.1.value := Call(request, |st.core.mailboxes|, Registered)]), r.1)
  }

  function SetCallPc(st: System, id: nat, pc: CallPc): System
    requires id in st.calls
  {
    st.(calls := st.calls[id := st.calls[id].(pc := pc)])
  }

  function DoWrite(st: System, id: nat, ok: bool, delivered: bool): System
    requires id in st.calls
  {
    SetCallPc(st, id, if ok then Waiting else Leaving(Lost))
      .(toTarget := if delivered then st.toTarget + [id] else st.toTarget)
  }

  function DoForget(st: System, id: nat): System
    requires id in st.calls && st.calls[id].pc.Leaving?
  {
    SetCallPc(st, id, Done(st.calls[id].pc.left)).(core := Forget(st.core, id))
  }

  function DoReceive(st: System, id: nat): System
    requires id in st.calls && st.calls[id].chan < |st.core.mailboxes|
  {
    var ch := st.calls[id].chan;
    var slot := st.core.mailboxes[ch].slot;
    SetCallPc(st, id, Done(if slot.Some? then Reply(slot.value) else Lost))
      .(core := st.core.(mailboxes := st.core.mailboxes[ch := Mailbox(None, st.core.mailboxes[ch].closed)]))
  }

  // ----- steps of Subscribe -----

  function SetSubscriber(st: System, h: nat, pc: SubscriberPc): System
    requires h < |st.subscribers|
  {
    st.(subscribers := st.subscribers[h := st.subscribers[h].(pc := pc)])
  }

  function DoRegister(st: System, h: nat): System
    requires h < |st.subscribers| && h < |st.core.subs|
  {
    var r := TryRegister(st.core, h);
    if r.1.Admitted? then
      SetSubscriber(st, h, BeforeCall).(core := r.0)
    else
      SetSubscriber(st, h, if r.1.MustWait? then Waits(r.1.cleanup) else Finished)
  }

  function DoBeginSubscribe(st: System, h: nat): System
    requires h < |st.subscribers| && h < |st.core.subs|
  {
    var r := BeginRequest(st, SubscribeTo(st.core.subs[h].source, h));
    if r.1.None? then SetSubscriber(st, h, Ending(CallFailed(false), true))
    else r.0.(subscribers := st.subscribers[h := Subscriber(InCall(r.1.value), r.1)])
  }

  // A refusal by the target needs no unsubscribe; any other failure does.
  function DoSubscribeReturns(st: System, h: nat): System
    requires h < |st.subscribers| && st.subscribers[h].pc.InCall?
    requires st.subscribers[h].pc.id in st.calls && st.calls[st.subscribers[h].pc.id].pc.Done?
  {
    var result := st.calls[st.subscribers[h].pc.id].pc.result;
    SetSubscriber(st, h,
      if IsSuccess(result) then Streaming
      else if result.Reply? then Ending(CallFailed(true), false)
      else Ending(CallFailed(false), true))
  }

  /** endSubscription; a new cleanup brings its goroutine with it. */
  function DoEnd(st: System, h: nat): System
    requires h < |st.subscribers| && h < |st.core.subs| && st.subscribers[h].pc.Ending?
  {
    var pc := st.subscribers[h].pc;
    var (core, cleanup) := Unregister(st.core, h, pc.reason, pc.unsubscribe);
    SetSubscriber(st, h, Finished)
      .(core := core,
        cleaners := if cleanup.Some? then st.cleaners + [Cleaner(Spawned, None)] else st.cleaners)
  }

  // ----- steps of unsubscribeAsync -----

  function SetCleaner(st: System, k: nat, pc: CleanerPc): System
    requires k < |st.cleaners|
  {
    st.(cleaners := st.cleaners[k := st.cleaners[k].(pc := pc)])
  }

  function DoBeginUnsubscribe(st: System, k: nat): System
    requires k < |st.cleaners| && k < |st.core.cleanups|
  {
    var r := BeginRequest(st, UnsubscribeFrom(st.core.cleanups[k].source, k));
    if r.1.None? then SetCleaner(st, k, Failed)
    else r.0.(cleaners := st.cleaners[k := Cleaner(Unsubscribing(r.1.value), r.1)])
  }

  function DoUnsubscribeReturns(st: System, k: nat): System
    requires k < |st.cleaners| && st.cleaners[k].pc.Unsubscribing?
    requires st.cleaners[k].pc.id in st.calls && st.calls[st.cleaners[k].pc.id].pc.Done?
  {
    SetCleaner(st, k, if IsSuccess(st.calls[st.cleaners[k].pc.id].pc.result) then Removing else Failed)
  }

  // ----- steps of the read loop -----

  function DoDispatch(st: System, source: Source, event: Payload): System
    requires source in st.core.subscriptions ==> st.core.subscriptions[source] < |st.core.subs|
  {
    var (core, cleanup) := Dispatch(st.core, source, event);
    st.(core := core,
        cleaners := if cleanup.Some? then st.cleaners + [Cleaner(Spawned, None)] else st.cleaners)
  }

  function DoReadMessage(st: System): System
    requires WellFormed(st) && st.fromTarget != []
  {
    var rest := st.(fromTarget := st.fromTarget[1..]);
    match st.fromTarget[0]
    case Stray => rest
    case Notification(source, event) => if source == "" then rest else DoDispatch(rest, source, event)
    case Response(id, outcome) =>
      var (core, ch) := TakeWaiter(st.core, id);
      rest.(core := core, loop := if ch.Some? then Sending(id, ch.value, outcome) else Reading)
  }

  ghost function DoReadFails(st: System): System
    requires WellFormed(st)
  {
    st.(core := FailPending(st.core), loop := Dead)
  }

  // ----- steps of the target -----

  function DoTargetReads(st: System, outcome: Outcome, ends: bool): System
    requires st.toTarget != [] && st.toTarget[0] in st.calls
  {
    var id := st.toTarget[0];
    st.(toTarget := st.toTarget[1..],
        decided := st.decided[id := outcome],
        owed := st.owed + {id},
        streams :=
          match st.calls[id].request
          case SubscribeTo(s, _) => if outcome.Success? then st.streams + multiset{s} else st.streams
          case UnsubscribeFrom(s, _) => if outcome.Success? || ends then st.streams[s := 0] else st.streams
          case Other(_) => st.streams)
  }

  // ----- all steps, by who takes them -----

  // Callers inside Call, for whatever reason they are there.
  predicate OfCaller(step: Step) {
    step.BeginOther? || step.Write? || step.GiveUp? || step.ForgetCall? || step.Receive?
  }

  // Subscribe up to the return of its request.
  predicate OfSubscribing(step: Step) {
    || step.NewSubscriber? || step.Register? || step.Wake? || step.Abandon?
    || step.BeginSubscribe? || step.SubscribeReturns?
  }

  // A subscription from then on: its reader, its watcher, its end.
  predicate OfSubscription(step: Step) {
    step.CancelStream? || step.End? || step.WatcherExits? || step.Take?
  }

  predicate OfCleaner(step: Step) {
    step.BeginUnsubscribe? || step.UnsubscribeReturns? || step.CleanerCloses? || step.RemoveCleanup?
  }

  predicate OfClient(step: Step) {
    step.ReadMessage? || step.SendReply? || step.ReadFails? || step.Close? || step.CloseSocket?
  }

  predicate OfTarget(step: Step) {
    step.TargetReads? || step.TargetAnswers? || step.TargetEmits? || step.TargetStrays?
  }

  function ApplyCaller(st: System, step: Step): System
    requires WellFormed(st) && Enabled(st, step) && OfCaller(step)
  {
    match step
    case BeginOther(name) => BeginRequest(st, Other(name)).0
    case Write(id, ok, delivered) => DoWrite(st, id, ok, delivered)
    case GiveUp(id) => SetCallPc(st, id, Leaving(GaveUp))
    case ForgetCall(id) => DoForget(st, id)
    case Receive(id) => DoReceive(st, id)
  }

  function ApplySubscribing(st: System, step: Step): System
    requires WellFormed(st) && Enabled(st, step) && OfSubscribing(step)
  {
    match step
    case NewSubscriber(source) =>
      st.(core := NewSub(st.core, source), subscribers := st.subscribers + [Subscriber(AtLoop, None)])
    case Register(h) => DoRegister(st, h)
    case Wake(h) => SetSubscriber(st, h, AtLoop)
    case Abandon(h) => SetSubscriber(st, h, Finished)
    case BeginSubscribe(h) => DoBeginSubscribe(st, h)
    case SubscribeReturns(h) => DoSubscribeReturns(st, h)
  }

  function ApplySubscription(st: System, step: Step): System
    requires WellFormed(st) && Enabled(st, step) && OfSubscription(step)
  {
    match step
    case CancelStream(h) => SetSubscriber(st, h, Ending(Cancelled, true))
    case End(h) => DoEnd(st, h)
    case WatcherExits(h) => SetSubscriber(st, h, Finished)
    case Take(h) => st.(core := TakeEvent(st.core, h))
  }

  function ApplyCleaner(st: System, step: Step): System
    requires WellFormed(st) && Enabled(st, step) && OfCleaner(step)
  {
    match step
    case BeginUnsubscribe(k) => DoBeginUnsubscribe(st, k)
    case UnsubscribeReturns(k) => DoUnsubscribeReturns(st, k)
    case CleanerCloses(k) => SetCleaner(st, k, Removing).(socketOpen := false)
    case RemoveCleanup(k) => SetCleaner(st, k, Gone).(core := FinishCleanup(st.core, k))
  }

  ghost function ApplyClient(st: System, step: Step): System
    requires WellFormed(st) && Enabled(st, step) && OfClient(step)
  {
    match step
    case ReadMessage => DoReadMessage(st)
    case SendReply => st.(core := Send(st.core, st.loop.chan, st.loop.outcome), loop := Reading)
    case ReadFails => DoReadFails(st)
    case Close => st.(core := MarkClosed(st.core))
    case CloseSocket => st.(socketOpen := false)
  }

  function ApplyTarget(st: System, step: Step): System
    requires WellFormed(st) && Enabled(st, step) && OfTarget(step)
  {
    match step
    case TargetReads(outcome, ends) => DoTargetReads(st, outcome, ends)
    case TargetAnswers(id) =>
      st.(owed := st.owed - {id}, fromTarget := st.fromTarget + [Response(id, st.decided[id])])
    case TargetEmits(source, event) => st.(fromTarget := st.fromTarget + [Notification(source, event)])
    case TargetStrays => st.(fromTarget := st.fromTarget + [Stray])
  }

  ghost function Apply(st: System, step: Step): System
    requires WellFormed(st) && Enabled(st, step)
  {
    if OfCaller(step) then ApplyCaller(st, step)
    else if OfSubscribing(step) then ApplySubscribing(st, step)
    else if OfSubscription(step) then ApplySubscription(st, step)
    else if OfCleaner(step) then ApplyCleaner(st, step)
    else if OfClient(step) then ApplyClient(st, step)
    else ApplyTarget(st, step)
  }

  // State `i + 1` follows from state `i` by step `i`.
  ghost predicate Follows(states: seq<System>, steps: seq<Step>, i: nat)
    requires i < |steps| && i + 1 < |states|
  {
    WellFormed(states[i]) && Enabled(states[i], steps[i]) && states[i + 1] == Apply(states[i], steps[i])
  }

  /** `states` is a run: it starts at INIT and each state follows from the one before by one enabled step. */
  ghost predicate IsRun(states: seq<System>, steps: seq<Step>) {
    && |states| == |steps| + 1
    && states[0] == INIT
    && (forall i | 0 <= i < |steps| :: Follows(states, steps, i))
  }

  ghost predicate Reachable(st: System) {
    exists states, steps :: IsRun(states, steps) && states[|steps|] == st
  }
}
