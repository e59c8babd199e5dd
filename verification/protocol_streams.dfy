/** The part of the invariant about the target's streams: which of them may run, and who holds them. */
module ProtocolStreams {
  import opened Wrappers
  import opened ClientCore
  import opened Protocol
  import opened ProtocolCalls

  // Position `i` of the queue to the target is a subscribe, or an unsubscribe, for `source`.
  ghost predicate SubAt(st: System, i: int, source: Source) {
    && 0 <= i < |st.toTarget|
    && st.toTarget[i] in st.calls
    && st.calls[st.toTarget[i]].request.SubscribeTo?
    && st.calls[st.toTarget[i]].request.source == source
  }

  ghost predicate UnsubAt(st: System, i: int, source: Source) {
    && 0 <= i < |st.toTarget|
    && st.toTarget[i] in st.calls
    && st.calls[st.toTarget[i]].request.UnsubscribeFrom?
    && st.calls[st.toTarget[i]].request.source == source
  }

  ghost predicate EventAt(q: seq<Message>, i: int, source: Source) {
    0 <= i < |q| && q[i].Notification? && q[i].source == source
  }

  /** Nothing about `source` at the target or on the wire, in either direction. */
  ghost predicate Silent(st: System, source: Source) {
    && st.streams[source] == 0
    && (forall i :: !SubAt(st, i, source))
    && (forall i :: !UnsubAt(st, i, source))
    && (forall i :: !EventAt(st.fromTarget, i, source))
  }

  // Subscription `h` is on source `source`, is past registration, and its request is not written.
  ghost predicate Unwritten(st: System, h: nat, source: Source) {
    && h < |st.subscribers| == |st.core.subs|
    && st.core.subs[h].source == source
    && (|| st.subscribers[h].pc.BeforeCall?
        || (st.subscribers[h].pc.InCall? && st.subscribers[h].pc.id in st.calls &&
            st.calls[st.subscribers[h].pc.id].pc.Registered?))
  }

  ghost predicate Decided(st: System, call: Option<nat>) {
    call.Some? && call.value in st.decided
  }

  ghost predicate Exclusive(st: System, source: Source) {
    && st.streams[source] <= 1
    && (forall i | SubAt(st, i, source) :: st.streams[source] == 0)
    && (forall i, j | SubAt(st, i, source) && SubAt(st, j, source) :: i == j)
  }

  /** While the socket is open: no one else has subscribed, or can, while one subscription has yet to. */
  ghost predicate TurnOk(st: System, source: Source) {
    forall h | Unwritten(st, h, source) ::
      && st.streams[source] == 0
      && (forall i :: !SubAt(st, i, source))
      && (forall g | Unwritten(st, g, source) :: g == h)
  }

  ghost predicate SubscribedOk(st: System, source: Source, h: nat) {
    && h < |st.subscribers|
    && (forall i :: !UnsubAt(st, i, source))
    && (forall i | SubAt(st, i, source) :: st.calls[st.toTarget[i]].request.sub == h)
    && (!Decided(st, st.subscribers[h].call) ==>
          st.streams[source] == 0 && forall i :: !EventAt(st.fromTarget, i, source))
    && (Decided(st, st.subscribers[h].call) && st.decided[st.subscribers[h].call.value].Refused? ==> Silent(st, source))
  }

  // Every event of `source` on its way is followed by the answer to `id`, unless that is still owed.
  ghost predicate AnswerComesLast(st: System, source: Source, id: nat) {
    id in st.owed || forall i | EventAt(st.fromTarget, i, source) :: InFlight(st.fromTarget[i + 1..], id)
  }

  ghost predicate LeavingOk(st: System, source: Source, k: nat) {
    && k < |st.cleaners|
    && (forall i | UnsubAt(st, i, source) :: st.calls[st.toTarget[i]].request.cleanup == k)
    && (forall i, j | SubAt(st, i, source) && UnsubAt(st, j, source) :: i < j)
    && (Decided(st, st.cleaners[k].call) ==> forall i :: !SubAt(st, i, source))
    && (Decided(st, st.cleaners[k].call) && st.decided[st.cleaners[k].call.value].Success? ==>
          && st.streams[source] == 0
          && (forall i :: !UnsubAt(st, i, source))
          && AnswerComesLast(st, source, st.cleaners[k].call.value))
  }

  /** While the socket is open and the read loop runs. */
  ghost predicate LiveOk(st: System, source: Source) {
    && (forall h | Unwritten(st, h, source) :: IsRegistered(st.core, h))
    && (if source in st.core.subscriptions then SubscribedOk(st, source, st.core.subscriptions[source])
        else if source in st.core.unsubscribing then LeavingOk(st, source, st.core.unsubscribing[source])
        else Silent(st, source))
  }

  ghost predicate SourceOk(st: System, source: Source) {
    && Exclusive(st, source)
    && (st.socketOpen ==> TurnOk(st, source))
    && (st.socketOpen && !st.core.readErr ==> LiveOk(st, source))
  }

  ghost predicate StreamsSound(st: System) {
    forall source {:trigger SourceOk(st, source)} :: SourceOk(st, source)
  }

  // ----- steps that leave the target, the wire and the lists alone -----

  ghost predicate Aside(st: System, st1: System) {
    && st1.streams == st.streams
    && st1.toTarget == st.toTarget
    && st1.fromTarget == st.fromTarget
    && st1.decided == st.decided
    && st1.owed == st.owed
    && st1.core.subscriptions == st.core.subscriptions
    && st1.core.unsubscribing == st.core.unsubscribing
    && (!st1.core.readErr ==> !st.core.readErr)
    && (st1.socketOpen ==> st.socketOpen)
    && (forall id | id in st.calls :: id in st1.calls && st1.calls[id].request == st.calls[id].request)
    && |st.subscribers| <= |st1.subscribers| == |st1.core.subs|
    && |st.cleaners| == |st1.cleaners|
    && (forall h | 0 <= h < |st.subscribers| && h < |st.core.subs| :: st1.core.subs[h].source == st.core.subs[h].source)
    && (forall h, s | Unwritten(st1, h, s) :: Unwritten(st, h, s))
    && (forall h | 0 <= h < |st.subscribers| ::
          || st1.subscribers[h].call == st.subscribers[h].call
          || (!Decided(st, st.subscribers[h].call) && !Decided(st, st1.subscribers[h].call)))
    && (forall k | 0 <= k < |st.cleaners| ::
          || st1.cleaners[k].call == st.cleaners[k].call
          || (!Decided(st, st.cleaners[k].call) && !Decided(st, st1.cleaners[k].call)))
  }

  lemma AsideKeepsSource(st: System, st1: System, source: Source)
    requires WireOk(st) && Aside(st, st1) && SourceOk(st, source)
    ensures SourceOk(st1, source)
  {
    assert forall i :: SubAt(st1, i, source) <==> SubAt(st, i, source);
    assert forall i :: UnsubAt(st1, i, source) <==> UnsubAt(st, i, source);
    if st1.socketOpen && !st1.core.readErr {
      assert LiveOk(st, source);
    }
  }

  lemma AsideKeepsStreams(st: System, st1: System)
    requires WireOk(st) && Aside(st, st1) && StreamsSound(st)
    ensures StreamsSound(st1)
  {
    forall source ensures SourceOk(st1, source) {
      assert SourceOk(st, source);
      AsideKeepsSource(st, st1, source);
    }
  }
}
