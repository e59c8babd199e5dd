/**
 The state that Client.mu guards in internal/truenas/client.go, together with the channels
 the client hands out, and one function per critical section.

 Go channels and the structs that hold them live on the heap and are shared by pointer. Here each
 of them is a cell of a store (`mailboxes`, `subs`, `cleanups`) and a pointer is an index into it.
 Sending on a closed channel and closing a channel twice crash a Go program; a critical section
 that does either sets `panicked`.
 */
module ClientCore {
  import opened Wrappers

  type Source = string
  type Payload = string

  // The buffer of a subscription's events channel.
  const EVENT_CAPACITY := 64

  // What the target answered to one request.
  datatype Outcome = Success(result: Payload) | Refused(reason: string)

  // Why a subscription ended.
  datatype Reason = Overflow | Interrupted | Cancelled | CallFailed(refused: bool)

  // A waiter's response channel, of capacity one.
  datatype Mailbox = Mailbox(slot: Option<Outcome>, closed: bool)

  // `events` still in the channel, events already `taken` by the reader.
  datatype Sub = Sub(source: Source, taken: seq<Payload>, events: seq<Payload>, closed: bool, err: Option<Reason>)

  datatype Cleanup = Cleanup(source: Source, done: bool)

  datatype Core = Core(
    nextId: nat,
    pending: map<nat, nat>,
    subscriptions: map<Source, nat>,
    unsubscribing: map<Source, nat>,
    closed: bool,
    readErr: bool,
    mailboxes: seq<Mailbox>,
    subs: seq<Sub>,
    cleanups: seq<Cleanup>,
    panicked: bool)

  const EMPTY_CORE := Core(0, map[], map[], map[], false, false, [], [], [], false)
  const EMPTY_MAILBOX := Mailbox(None, false)

  // ----- the invariant every critical section keeps -----

  /** Every waiter still listed owns an open, empty channel of its own. */
  ghost predicate PendingSound(c: Core) {
    && (forall id | id in c.pending ::
          && 1 <= id <= c.nextId
          && c.pending[id] < |c.mailboxes|
          && c.mailboxes[c.pending[id]] == EMPTY_MAILBOX)
    && (forall i, j | i in c.pending && j in c.pending && i != j :: c.pending[i] != c.pending[j])
  }

  /** A registered subscription is open, a listed cleanup is unfinished, no source has both, and an
      unfinished cleanup is always listed. */
  ghost predicate ListsSound(c: Core) {
    && (forall s | s in c.subscriptions ::
          && s !in c.unsubscribing
          && c.subscriptions[s] < |c.subs|
          && c.subs[c.subscriptions[s]].source == s
          && !c.subs[c.subscriptions[s]].closed)
    && (forall s | s in c.unsubscribing ::
          && c.unsubscribing[s] < |c.cleanups|
          && c.cleanups[c.unsubscribing[s]].source == s
          && !c.cleanups[c.unsubscribing[s]].done)
    && (forall k | 0 <= k < |c.cleanups| && !c.cleanups[k].done ::
          c.cleanups[k].source in c.unsubscribing && c.unsubscribing[c.cleanups[k].source] == k)
    && (forall h | 0 <= h < |c.subs| :: c.subs[h].closed <==> c.subs[h].err.Some?)
  }

  ghost predicate Sound(c: Core) {
    && PendingSound(c)
    && ListsSound(c)
    && (c.readErr ==> c.subscriptions == map[] && c.unsubscribing == map[])
    && !c.panicked
  }

  predicate IsRegistered(c: Core, h: nat)
    requires h < |c.subs|
  {
    c.subs[h].source in c.subscriptions && c.subscriptions[c.subs[h].source] == h
  }

  // ----- Call -----

  /** Call's first section: a fresh id and a fresh channel, unless the client is closed. */
  function BeginCall(c: Core): (r: (Core, Option<nat>)) {
    if c.closed then (c, None)
    else
      var id := c.nextId + 1;
      (c.(nextId := id,
          pending := c.pending[id := |c.mailboxes|],
          mailboxes := c.mailboxes + [EMPTY_MAILBOX]), Some(id))
  }

  function Forget(c: Core, id: nat): Core {
    c.(pending := c.pending - {id})
  }

  // ----- readLoop -----

  /** The read loop takes the waiter of `id` off the list before it sends to it. */
  function TakeWaiter(c: Core, id: nat): (r: (Core, Option<nat>)) {
    (Forget(c, id), if id in c.pending then Some(c.pending[id]) else None)
  }

  function Send(c: Core, ch: nat, outcome: Outcome): Core
    requires ch < |c.mailboxes|
  {
    if c.mailboxes[ch].closed then c.(panicked := true)
    else c.(mailboxes := c.mailboxes[ch := Mailbox(Some(outcome), false)])
  }

  function CloseSub(sub: Sub, reason: Reason): Sub {
    if sub.closed then sub else sub.(closed := true, err := Some(reason))
  }

  // Some channel that failPending closes is closed already, or is listed twice.
  ghost predicate FailPendingCrashes(c: Core)
    requires forall id | id in c.pending :: c.pending[id] < |c.mailboxes|
    requires forall s | s in c.unsubscribing :: c.unsubscribing[s] < |c.cleanups|
  {
    || (exists id | id in c.pending :: c.mailboxes[c.pending[id]].closed)
    || (exists i, j | i in c.pending && j in c.pending && i != j :: c.pending[i] == c.pending[j])
    || (exists s | s in c.unsubscribing :: c.cleanups[c.unsubscribing[s]].done)
    || (exists s, t | s in c.unsubscribing && t in c.unsubscribing && s != t ::
          c.unsubscribing[s] == c.unsubscribing[t])
  }

  ghost function FailPending(c: Core): Core
    requires forall id | id in c.pending :: c.pending[id] < |c.mailboxes|
    requires forall s | s in c.unsubscribing :: c.unsubscribing[s] < |c.cleanups|
  {
    c.(readErr := true,
       pending := map[],
       subscriptions := map[],
       unsubscribing := map[],
       mailboxes := seq(|c.mailboxes|, i requires 0 <= i < |c.mailboxes| =>
         if i in c.pending.Values then c.mailboxes[i].(closed := true) else c.mailboxes[i]),
       subs := seq(|c.subs|, h requires 0 <= h < |c.subs| =>
         if h in c.subscriptions.Values then CloseSub(c.subs[h], Interrupted) else c.subs[h]),
       cleanups := seq(|c.cleanups|, k requires 0 <= k < |c.cleanups| =>
         if k in c.unsubscribing.Values then c.cleanups[k].(done := true) else c.cleanups[k]),
       panicked := c.panicked || FailPendingCrashes(c))
  }

  // ----- Subscribe -----

  datatype Admission = ClientClosed | ConnectionLost | AlreadyOpen | Admitted | MustWait(cleanup: nat)

  function NewSub(c: Core, source: Source): Core {
    c.(subs := c.subs + [Sub(source, [], [], false, None)])
  }

  /** One turn of Subscribe's registration loop. */
  function TryRegister(c: Core, h: nat): (r: (Core, Admission))
    requires h < |c.subs|
  {
    var source := c.subs[h].source;
    if c.closed then (c, ClientClosed)
    else if c.readErr then (c, ConnectionLost)
    else if source in c.subscriptions then (c, AlreadyOpen)
    else if source in c.unsubscribing then (c, MustWait(c.unsubscribing[source]))
    else (c.(subscriptions := c.subscriptions[source := h]), Admitted)
  }

  /** unregisterSubscriptionLocked: nothing unless `h` is still the registered subscription. */
  function Unregister(c: Core, h: nat, reason: Reason, unsubscribe: bool): (r: (Core, Option<nat>))
    requires h < |c.subs|
  {
    var source := c.subs[h].source;
    if !IsRegistered(c, h) then (c, None)
    else
      (c.(subscriptions := c.subscriptions - {source},
          subs := c.subs[h := CloseSub(c.subs[h], reason)],
          unsubscribing := if unsubscribe then c.unsubscribing[source := |c.cleanups|] else c.unsubscribing,
          cleanups := if unsubscribe then c.cleanups + [Cleanup(source, false)] else c.cleanups),
       if unsubscribe then Some(|c.cleanups|) else None)
  }

  /** dispatchNotification: the event is buffered, or the subscription ends because it is full. */
  function Dispatch(c: Core, source: Source, event: Payload): (r: (Core, Option<nat>))
    requires source in c.subscriptions ==> c.subscriptions[source] < |c.subs|
  {
    if source !in c.subscriptions then (c, None)
    else
      var h := c.subscriptions[source];
      var sub := c.subs[h];
      if sub.closed then (c.(panicked := true), None)
      else if |sub.events| < EVENT_CAPACITY then
        (c.(subs := c.subs[h := sub.(events := sub.events + [event])]), None)
      else Unregister(c, h, Overflow, true)
  }

  /** The reader receives the oldest buffered event; a closed channel still yields what it holds. */
  function TakeEvent(c: Core, h: nat): Core
    requires h < |c.subs| && c.subs[h].events != []
  {
    var sub := c.subs[h];
    c.(subs := c.subs[h := sub.(taken := sub.taken + [sub.events[0]], events := sub.events[1..])])
  }

  // ----- unsubscribeAsync, Close -----

  /** The last section of unsubscribeAsync. */
  function FinishCleanup(c: Core, k: nat): Core
    requires k < |c.cleanups|
  {
    var source := c.cleanups[k].source;
    if source in c.unsubscribing && c.unsubscribing[source] == k then
      c.(unsubscribing := c.unsubscribing - {source},
         cleanups := c.cleanups[k := c.cleanups[k].(done := true)],
         panicked := c.panicked || c.cleanups[k].done)
    else c
  }

  function MarkClosed(c: Core): Core {
    c.(closed := true)
  }

  predicate Alive(c: Core) {
    !c.closed && !c.readErr
  }

  // ----- each section keeps the invariant -----

  lemma BeginCallSound(c: Core)
    requires Sound(c)
    ensures Sound(BeginCall(c).0)
  {
  }

  lemma TakeWaiterSound(c: Core, id: nat)
    requires Sound(c)
    ensures Sound(TakeWaiter(c, id).0)
    ensures TakeWaiter(c, id).1.Some? ==>
      var ch := TakeWaiter(c, id).1.value;
      ch < |c.mailboxes| && c.mailboxes[ch] == EMPTY_MAILBOX && ch !in TakeWaiter(c, id).0.pending.Values
  {
  }

  lemma SendSound(c: Core, ch: nat, outcome: Outcome)
    requires Sound(c) && ch < |c.mailboxes| && c.mailboxes[ch] == EMPTY_MAILBOX && ch !in c.pending.Values
    ensures Sound(Send(c, ch, outcome))
  {
  }

  lemma FailPendingSound(c: Core)
    requires Sound(c)
    ensures Sound(FailPending(c))
    ensures forall k | 0 <= k < |c.cleanups| :: FailPending(c).cleanups[k].done
  {
    var d := FailPending(c);
    forall k | 0 <= k < |c.cleanups|
      ensures d.cleanups[k].done
    {
      if !c.cleanups[k].done {
        assert c.unsubscribing[c.cleanups[k].source] == k;
      }
    }
  }

  /** The three loops of failPending, each described cell by cell, add up to FailPending. */
  lemma FailPendingByCells(c: Core, mailboxes: seq<Mailbox>, subs: seq<Sub>, cleanups: seq<Cleanup>)
    requires Sound(c)
    requires |mailboxes| == |c.mailboxes| && |subs| == |c.subs| && |cleanups| == |c.cleanups|
    requires forall i | 0 <= i < |mailboxes| ::
        mailboxes[i] == if i in c.pending.Values then Mailbox(None, true) else c.mailboxes[i]
    requires forall h | 0 <= h < |subs| ::
        subs[h] == if h in c.subscriptions.Values then CloseSub(c.subs[h], Interrupted) else c.subs[h]
    requires forall k | 0 <= k < |cleanups| ::
        cleanups[k] == if k in c.unsubscribing.Values then c.cleanups[k].(done := true) else c.cleanups[k]
    ensures FailPending(c) ==
            Core(c.nextId, map[], map[], map[], c.closed, true, mailboxes, subs, cleanups, false)
  {
    var d := FailPending(c);
    assert d.mailboxes == mailboxes;
    assert d.subs == subs;
    assert d.cleanups == cleanups;
  }

  lemma TryRegisterSound(c: Core, h: nat)
    requires Sound(c) && h < |c.subs| && !c.subs[h].closed
    ensures Sound(TryRegister(c, h).0)
  {
  }

  lemma UnregisterSound(c: Core, h: nat, reason: Reason, unsubscribe: bool)
    requires Sound(c) && h < |c.subs|
    ensures Sound(Unregister(c, h, reason, unsubscribe).0)
  {
  }

  lemma DispatchSound(c: Core, source: Source, event: Payload)
    requires Sound(c)
    ensures Sound(Dispatch(c, source, event).0)
  {
    if source in c.subscriptions {
      var h := c.subscriptions[source];
      if |c.subs[h].events| < EVENT_CAPACITY {
      } else {
        UnregisterSound(c, h, Overflow, true);
      }
    }
  }

  lemma TakeEventSound(c: Core, h: nat)
    requires Sound(c) && h < |c.subs| && c.subs[h].events != []
    ensures Sound(TakeEvent(c, h))
  {
  }

  lemma FinishCleanupSound(c: Core, k: nat)
    requires Sound(c) && k < |c.cleanups|
    ensures Sound(FinishCleanup(c, k)) && FinishCleanup(c, k).cleanups[k].done
  {
  }
}
