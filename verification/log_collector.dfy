/**
 The bounded log collector (internal/server/log_collector.go:52-115). What each select finds ready is an input, so every
 interleaving of entries, timers and cancellation is covered.
 */
module LogCollector {
  import opened Octets

  datatype Entry = Entry(timestamp: string, text: seq<byte>)

  datatype Bound = CountBound | BytesBound | QuietBound | DeadlineBound | CanceledBound

  datatype Collected = Collected(entries: seq<Entry>, bound: Bound, contentWithheld: bool)

  datatype Options = Options(count: int, byteLimit: int, quietInterval: int, deadline: int)

  // The branch one select takes.
  datatype Event = Arrives(entry: Entry) | StreamCloses | ContextDone | DeadlineFires | QuietFires

  /** A timer that was never started does not fire: the deadline is started if it is positive, the quiet timer by an
      entry. */
  predicate Possible(options: Options, n: nat, event: Event) {
    && (event.DeadlineFires? ==> options.deadline > 0)
    && (event.QuietFires? ==> options.quietInterval > 0 && n > 0)
  }

  function Bytes(entries: seq<Entry>): nat {
    if entries == [] then 0 else Bytes(entries[..|entries| - 1]) + |entries[|entries| - 1].text|
  }

  /** The collection has reached one of its limits. */
  predicate ReachesLimit(options: Options, entries: seq<Entry>) {
    entries != [] && (|entries| == options.count || Bytes(entries) == options.byteLimit)
  }

  predicate GoesOnAt(options: Options, entries: seq<Entry>, i: int) {
    0 <= i <= |entries| && !ReachesLimit(options, entries[..i])
  }

  /** The entries are the beginning of the stream, fit the limits, and did not reach one before the last of them. */
  ghost predicate IsCollected(events: nat -> Event, options: Options, entries: seq<Entry>) {
    && (forall i | 0 <= i < |entries| :: events(i) == Arrives(entries[i]))
    && (forall i | 0 < i < |entries| :: GoesOnAt(options, entries, i))
    && |entries| <= options.count
    && (entries != [] ==> Bytes(entries) <= options.byteLimit)
  }

  /** What a collection is: the stream up to the first point that reaches a limit, or where something else ends it, with
      the cause of its end. */
  ghost predicate IsSnapshot(events: nat -> Event, options: Options, r: Collected) {
    && IsCollected(events, options, r.entries)
    && (r.contentWithheld ==> r.bound == BytesBound)
    && IsCause(events(|r.entries|), options, r)
  }

  /** The bound reported is why the collection ended; `next` is the event after the last entry. */
  predicate IsCause(next: Event, options: Options, r: Collected) {
    var limit := ReachesLimit(options, r.entries);
    match r.bound
    case CountBound => |r.entries| == options.count
    case BytesBound =>
      if r.contentWithheld then !limit && next.Arrives? && Bytes(r.entries) + |next.entry.text| > options.byteLimit
      else limit && |r.entries| != options.count
    case QuietBound => !limit && (next.StreamCloses? || next.QuietFires?)
    case DeadlineBound => !limit && next.DeadlineFires?
    case CanceledBound => !limit && next.ContextDone?
  }

  method CollectLogEntries(events: nat -> Event, options: Options) returns (r: Collected)
    requires forall n: nat :: Possible(options, n, events(n))
    ensures options.count <= 0 ==> r == Collected([], CountBound, false)
    ensures options.count > 0 ==> IsSnapshot(events, options, r)
  {
    if options.count <= 0 {
      return Collected([], CountBound, false);
    }
    var entries: seq<Entry> := [];
    var bytes := 0;
    while true
      invariant bytes == Bytes(entries) && |entries| < options.count
      invariant IsCollected(events, options, entries) && !ReachesLimit(options, entries)
      decreases options.count - |entries|
    {
      match events(|entries|)
      case ContextDone => return Collected(entries, CanceledBound, false);
      case DeadlineFires => return Collected(entries, DeadlineBound, false);
      case QuietFires => return Collected(entries, QuietBound, false);
      case StreamCloses => return Collected(entries, QuietBound, false);
      case Arrives(entry) =>
        if |entry.text| > options.byteLimit - bytes {
          return Collected(entries, BytesBound, true);
        }
        CollectsNext(events, options, entries, entry);
        entries := entries + [entry];
        bytes := bytes + |entry.text|;
        if |entries| == options.count {
          return Collected(entries, CountBound, false);
        }
        if bytes == options.byteLimit {
          return Collected(entries, BytesBound, false);
        }
    }
  }

  lemma CollectsNext(events: nat -> Event, options: Options, entries: seq<Entry>, entry: Entry)
    requires IsCollected(events, options, entries) && !ReachesLimit(options, entries) && |entries| < options.count
    requires events(|entries|) == Arrives(entry) && Bytes(entries) + |entry.text| <= options.byteLimit
    ensures IsCollected(events, options, entries + [entry])
    ensures Bytes(entries + [entry]) == Bytes(entries) + |entry.text|
  {
    var longer := entries + [entry];
    forall i | 0 < i < |longer| ensures GoesOnAt(options, longer, i) {
      if i == |entries| {
        assert longer[..i] == entries;
      } else {
        assert GoesOnAt(options, entries, i) && longer[..i] == entries[..i];
      }
    }
  }

  lemma {:induction false} BytesGrow(entries: seq<Entry>, k: nat)
    requires k <= |entries|
    ensures Bytes(entries[..k]) <= Bytes(entries)
  {
    if k < |entries| {
      BytesGrow(entries[..|entries| - 1], k);
      assert entries[..|entries| - 1][..k] == entries[..k];
    } else {
      assert entries[..k] == entries;
    }
  }

  lemma NotDoneYet(events: nat -> Event, options: Options, entries: seq<Entry>, k: nat)
    requires IsCollected(events, options, entries) && k < |entries|
    ensures !ReachesLimit(options, entries[..k])
    ensures events(k).Arrives? && Bytes(entries[..k]) + |events(k).entry.text| <= options.byteLimit
  {
    BytesGrow(entries, k + 1);
    assert entries[..k + 1][..k] == entries[..k];
    assert k > 0 ==> GoesOnAt(options, entries, k);
  }

  /** What the collector promises leaves it no choice: a stream has exactly one snapshot. */
  lemma SnapshotIsUnique(events: nat -> Event, options: Options, r: Collected, s: Collected)
    requires options.count > 0
    requires IsSnapshot(events, options, r) && IsSnapshot(events, options, s)
    ensures r == s
  {
    NotShorter(events, options, r, s);
    NotShorter(events, options, s, r);
    assert r.entries == s.entries;
  }

  lemma NotShorter(events: nat -> Event, options: Options, r: Collected, s: Collected)
    requires options.count > 0
    requires IsSnapshot(events, options, r) && IsSnapshot(events, options, s)
    ensures |r.entries| >= |s.entries|
  {
    var k := |r.entries|;
    if k < |s.entries| {
      assert forall i | 0 <= i < k :: events(i) == Arrives(r.entries[i]) == Arrives(s.entries[i]);
      assert r.entries == s.entries[..k];
      NotDoneYet(events, options, s.entries, k);
    }
  }

  /** Silence is not mistaken for an empty log: a quiet end without entries means that the stream closed. */
  lemma QuietAndEmptyIsClosed(events: nat -> Event, options: Options, r: Collected)
    requires forall n: nat :: Possible(options, n, events(n))
    requires options.count > 0 && IsSnapshot(events, options, r)
    requires r.bound == QuietBound && r.entries == []
    ensures events(0) == StreamCloses
  {
  }

  /** An entry is withheld exactly when the next one arrived and did not fit; what was collected always fits. */
  lemma WithheldIff(events: nat -> Event, options: Options, r: Collected)
    requires options.count > 0 && IsSnapshot(events, options, r)
    ensures r.contentWithheld <==>
            && !ReachesLimit(options, r.entries) && events(|r.entries|).Arrives?
            && Bytes(r.entries) + |events(|r.entries|).entry.text| > options.byteLimit
  {
  }
}
