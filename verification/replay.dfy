/** ReplayCache of internal/oauth/replay.go: single use of an identifier for a bounded time. */
module Replay {
  /** sweepLocked: forget every claim whose time is up. */
  function Sweep(seen: map<string, int>, now: int): map<string, int> {
    map id | id in seen && now < seen[id] :: seen[id]
  }

  /** The effect and the answer of one Claim whose clock reading was `now`. */
  function ServeClaim(seen: map<string, int>, id: string, ttl: int, now: int): (r: (map<string, int>, bool)) {
    var live := Sweep(seen, now);
    if id in live then (live, false) else (live[id := now + ttl], true)
  }

  class ReplayCache {
    var seen: map<string, int>

    constructor ()
      ensures seen == map[]
    {
      seen := map[];
    }

    method Claim(id: string, ttl: int, now: int) returns (first: bool)
      modifies this
      ensures (seen, first) == ServeClaim(old(seen), id, ttl, now)
    {
      SweepLocked(now);
      if id in seen && now < seen[id] {
        return false;
      }
      seen := seen[id := now + ttl];
      return true;
    }

    method SweepLocked(now: int)
      modifies this
      ensures seen == Sweep(old(seen), now)
    {
      ghost var before := seen;
      var left := seen.Keys;
      while left != {}
        invariant left <= before.Keys
        invariant seen == map id | id in before && (id in left || now < before[id]) :: before[id]
        decreases |left|
      {
        var id :| id in left;
        left := left - {id};
        if !(now < seen[id]) {
          seen := seen - {id};
        }
      }
    }
  }

  // ----- what a cache remembers of all the claims it has served -----

  datatype ClaimRequest = ClaimRequest(id: string, ttl: int, now: int) {
    function Until(): int {
      now + ttl
    }
  }

  /** The cache after serving `log`, in the order in which the claims took the lock. */
  function SeenAfter(log: seq<ClaimRequest>): map<string, int> {
    if log == [] then map[]
    else
      var last := log[|log| - 1];
      ServeClaim(SeenAfter(log[..|log| - 1]), last.id, last.ttl, last.now).0
  }

  predicate Accepted(log: seq<ClaimRequest>, i: nat)
    requires i < |log|
  {
    ServeClaim(SeenAfter(log[..i]), log[i].id, log[i].ttl, log[i].now).1
  }

  // Claim `j` was accepted and no reading after it, before position `n`, has reached the end of its time.
  ghost predicate Remembered(log: seq<ClaimRequest>, j: nat, n: nat)
    requires n <= |log|
  {
    j < n && Accepted(log, j) && forall k | j < k < n :: log[k].now < log[j].Until()
  }

  lemma AcceptedInPrefix(log: seq<ClaimRequest>, n: nat, i: nat)
    requires i < n <= |log|
    ensures Accepted(log[..n], i) == Accepted(log, i)
  {
    assert log[..n][..i] == log[..i];
  }

  lemma RememberedInPrefix(log: seq<ClaimRequest>, n: nat, m: nat, j: nat)
    requires j < m <= n <= |log|
    ensures Remembered(log[..n], j, m) == Remembered(log, j, m)
  {
    AcceptedInPrefix(log, n, j);
  }

  lemma {:induction false} RememberedIsSeen(log: seq<ClaimRequest>, j: nat)
    requires j < |log| && Remembered(log, j, |log|)
    ensures log[j].id in SeenAfter(log) && SeenAfter(log)[log[j].id] == log[j].Until()
  {
    var n := |log| - 1;
    if j < n {
      RememberedInPrefix(log, n, n, j);
      RememberedIsSeen(log[..n], j);
    }
  }

  lemma {:induction false} SeenIsRemembered(log: seq<ClaimRequest>, id: string) returns (j: nat)
    requires id in SeenAfter(log)
    ensures j < |log| && log[j].id == id && Remembered(log, j, |log|)
  {
    var n := |log| - 1;
    if id == log[n].id && Accepted(log, n) {
      j := n;
    } else {
      j := SeenIsRemembered(log[..n], id);
      RememberedInPrefix(log, n, n, j);
      RememberedIsSeen(log[..n], j);
    }
  }

  /** The cache holds exactly the claims it remembers, each until its own time, whatever the clock readings were. */
  lemma CacheContents(log: seq<ClaimRequest>, id: string)
    ensures id in SeenAfter(log) <==> exists j :: 0 <= j < |log| && log[j].id == id && Remembered(log, j, |log|)
    ensures forall j | 0 <= j < |log| && log[j].id == id && Remembered(log, j, |log|) ::
        id in SeenAfter(log) && SeenAfter(log)[id] == log[j].Until()
  {
    forall j | 0 <= j < |log| && log[j].id == id && Remembered(log, j, |log|)
      ensures id in SeenAfter(log) && SeenAfter(log)[id] == log[j].Until()
    {
      RememberedIsSeen(log, j);
    }
    if id in SeenAfter(log) {
      var j := SeenIsRemembered(log, id);
    }
  }

  /** A claim is accepted exactly when no accepted claim to the same id is remembered, itself included among the
      readings that may have made the cache forget. */
  lemma AcceptedIff(log: seq<ClaimRequest>, i: nat)
    requires i < |log|
    ensures Accepted(log, i) <==>
            !exists j :: 0 <= j < i && log[j].id == log[i].id && Remembered(log, j, i) && log[i].now < log[j].Until()
  {
    var before := log[..i];
    CacheContents(before, log[i].id);
    forall j | 0 <= j < i
      ensures Remembered(before, j, i) == Remembered(log, j, i)
    {
      RememberedInPrefix(log, i, i, j);
    }
    if !Accepted(log, i) {
      var j :| 0 <= j < |before| && before[j].id == log[i].id && Remembered(before, j, |before|);
      assert Remembered(log, j, i) && log[i].now < log[j].Until();
    }
  }

  // ----- when lazy sweeping can be seen -----

  // An accepted claim to the same id whose time is not up at the reading of claim `i`.
  ghost predicate Blocks(log: seq<ClaimRequest>, j: int, i: nat)
    requires i < |log|
  {
    0 <= j < i && log[j].id == log[i].id && Accepted(log, j) && log[i].now < log[j].Until()
  }

  // What a log that never forgot an accepted claim would answer.
  ghost predicate FullLogAccepts(log: seq<ClaimRequest>, i: nat)
    requires i < |log|
  {
    forall j :: !Blocks(log, j, i)
  }

  // Some claim blocks claim `i`, and each that does was outlived by a reading in between, later than that of `i`.
  ghost predicate Forgotten(log: seq<ClaimRequest>, i: nat)
    requires i < |log|
  {
    && (exists j :: Blocks(log, j, i))
    && forall j | Blocks(log, j, i) :: exists k :: j < k < i && log[k].now >= log[j].Until()
  }

  /** For any readings, Claim answers as a log that never forgets would if and only if nothing was forgotten too
      early. */
  lemma SweepingIsInvisibleIff(log: seq<ClaimRequest>, i: nat)
    requires i < |log|
    ensures (Accepted(log, i) <==> FullLogAccepts(log, i)) <==> !Forgotten(log, i)
  {
    AcceptedIff(log, i);
    forall j | Blocks(log, j, i)
      ensures Remembered(log, j, i) <==> !exists k :: j < k < i && log[k].now >= log[j].Until()
    {
    }
    assert !Accepted(log, i) <==> exists j :: Blocks(log, j, i) && Remembered(log, j, i);
  }

  ghost predicate InOrder(log: seq<ClaimRequest>) {
    forall i, j | 0 <= i < j < |log| :: log[i].now <= log[j].now
  }

  /** So on a clock whose readings are in lock order, sweeping is never seen ... */
  lemma SweepingIsInvisible(log: seq<ClaimRequest>, i: nat)
    requires InOrder(log) && i < |log|
    ensures Accepted(log, i) <==> FullLogAccepts(log, i)
  {
    SweepingIsInvisibleIff(log, i);
  }

  /** ... but it is when one claim reads the clock before another but takes the lock after it. */
  lemma SweepingShowsOutOfOrder()
    ensures exists log: seq<ClaimRequest> :: |log| == 3 && Accepted(log, 2) && !FullLogAccepts(log, 2)
  {
    var log := [ClaimRequest("a", 60, 0), ClaimRequest("b", 60, 60), ClaimRequest("a", 60, 59)];
    assert log[..0] == [] && log[..1] == [log[0]] && log[..2] == [log[0], log[1]];
    assert SeenAfter(log[..0]) == map[];
    assert log[..1][..0] == [] && SeenAfter(log[..1]) == map["a" := 60];
    assert log[..2][..1] == log[..1] && SeenAfter(log[..2]) == map["b" := 120];
    assert Accepted(log, 0) && Accepted(log, 2);
    assert Blocks(log, 0, 2);
  }
}
