/** No session is leaked, none is opened without need, and a first failure is final. */
module SessionTheorems {
  import opened Wrappers
  import opened Sessions

  ghost predicate Inv(w: World, credentialId: string -> string) {
    HandlersSound(w, credentialId) && SessionsSound(w)
  }

  lemma RequestKeepsInv(w: World, credentialId: string -> string, apiKey: string)
    requires Inv(w, credentialId)
    ensures Inv(Serve(w, credentialId, apiKey).0, credentialId)
  {
  }

  lemma OpenKeepsInv(w: World, credentialId: string -> string, i: nat)
    requires Inv(w, credentialId) && i < |w.providers| && !w.providers[i].failed
    requires w.providers[i].sess.Some? ==> !Alive(w.manager, w.providers[i].sess.value)
    ensures Inv(Apply(w, credentialId, Call(i, true)), credentialId)
  {
    var w1 := Apply(w, credentialId, Call(i, true));
    OpenKeepsTracking(w, credentialId, i);
    OpenReplaces(w, credentialId, i);
    assert HandlersSound(w1, credentialId);
  }

  lemma OpenReplaces(w: World, credentialId: string -> string, i: nat)
    requires Inv(w, credentialId) && i < |w.providers| && !w.providers[i].failed
    requires w.providers[i].sess.Some? ==> !Alive(w.manager, w.providers[i].sess.value)
    ensures var w1, p, n := Apply(w, credentialId, Call(i, true)), w.providers[i], |w.manager.pool|;
      && w1.manager.tracked == w.manager.tracked[p.id := n]
      && w1.providers == w.providers[i := p.(started := true, sess := Some(n))] && w1.handlers == w.handlers
      && |w1.manager.pool| == n + 1 && w1.manager.pool[n] == Session(p.apiKey, false, false)
      && (forall h | 0 <= h < n :: w1.manager.pool[h].apiKey == w.manager.pool[h].apiKey)
  {
  }

  lemma OpenKeepsTracking(w: World, credentialId: string -> string, i: nat)
    requires Inv(w, credentialId) && i < |w.providers| && !w.providers[i].failed
    requires w.providers[i].sess.Some? ==> !Alive(w.manager, w.providers[i].sess.value)
    ensures var w1 := Apply(w, credentialId, Call(i, true));
      forall h | 0 <= h < |w1.manager.pool| && !w1.manager.pool[h].closed :: IsTracked(w1, h)
  {
    var p := w.providers[i];
    var w1 := Apply(w, credentialId, Call(i, true));
    var n := |w.manager.pool|;
    assert w1.manager.tracked == w.manager.tracked[p.id := n];
    forall h | 0 <= h < |w1.manager.pool| && !w1.manager.pool[h].closed
      ensures IsTracked(w1, h)
    {
      if h == n {
        assert w1.manager.tracked[p.id] == n;
      } else {
        assert IsTracked(w, h);
        var id :| id in w.manager.tracked && w.manager.tracked[id] == h;
        assert id == p.id ==> p.sess == Some(h);
        assert w1.manager.tracked[id] == h;
      }
    }
  }

  lemma CallKeepsInv(w: World, credentialId: string -> string, i: nat, opens: bool)
    requires Inv(w, credentialId) && i < |w.providers|
    ensures Inv(Apply(w, credentialId, Call(i, opens)), credentialId)
  {
    var p := w.providers[i];
    if opens && !p.failed && (p.sess.Some? ==> !Alive(w.manager, p.sess.value)) {
      OpenKeepsInv(w, credentialId, i);
    } else {
      var w1 := Apply(w, credentialId, Call(i, opens));
      assert w1.manager == w.manager;
      forall h | 0 <= h < |w1.manager.pool| && !w1.manager.pool[h].closed
        ensures IsTracked(w1, h)
      {
        assert IsTracked(w, h);
      }
    }
  }

  lemma DieKeepsInv(w: World, credentialId: string -> string, h: nat)
    requires Inv(w, credentialId)
    ensures Inv(Apply(w, credentialId, Die(h)), credentialId)
  {
    var w1 := Apply(w, credentialId, Die(h));
    forall g | 0 <= g < |w1.manager.pool| && !w1.manager.pool[g].closed
      ensures IsTracked(w1, g)
    {
      assert IsTracked(w, g);
    }
  }

  lemma ReleaseKeepsInv(w: World, credentialId: string -> string, id: string)
    requires Inv(w, credentialId)
    ensures Inv(Apply(w, credentialId, ReleaseOne(id)), credentialId)
  {
    var w1 := Apply(w, credentialId, ReleaseOne(id));
    forall h | 0 <= h < |w1.manager.pool| && !w1.manager.pool[h].closed
      ensures IsTracked(w1, h)
    {
      assert IsTracked(w, h);
      var i :| i in w.manager.tracked && w.manager.tracked[i] == h;
      assert i in w1.manager.tracked && w1.manager.tracked[i] == h;
    }
  }

  lemma ReleaseAllKeepsInv(w: World, credentialId: string -> string)
    requires Inv(w, credentialId)
    ensures Inv(Apply(w, credentialId, ReleaseAll), credentialId)
  {
    forall h | 0 <= h < |w.manager.pool| && !w.manager.pool[h].closed
      ensures h in w.manager.tracked.Values
    {
      assert IsTracked(w, h);
    }
  }

  lemma {:induction false} RunKeepsInv(credentialId: string -> string, worlds: seq<World>, steps: seq<Step>, n: nat)
    requires IsRun(credentialId, worlds, steps) && n <= |steps|
    ensures Inv(worlds[n], credentialId)
  {
    if n > 0 {
      RunKeepsInv(credentialId, worlds, steps, n - 1);
      assert Follows(credentialId, worlds, steps, n - 1);
      match steps[n - 1]
      case Request(apiKey) => RequestKeepsInv(worlds[n - 1], credentialId, apiKey);
      case Call(i, opens) => CallKeepsInv(worlds[n - 1], credentialId, i, opens);
      case Die(h) => DieKeepsInv(worlds[n - 1], credentialId, h);
      case ReleaseOne(id) => ReleaseKeepsInv(worlds[n - 1], credentialId, id);
      case ReleaseAll => ReleaseAllKeepsInv(worlds[n - 1], credentialId);
    }
  }

  /** In every run, every session ever opened is closed, or is tracked under the id of its one provider, whose current
      session it is and whose key it was opened with; and no two providers share an id. */
  lemma NoSessionIsLeaked(credentialId: string -> string, worlds: seq<World>, steps: seq<Step>, n: nat, h: nat)
    requires IsRun(credentialId, worlds, steps) && n <= |steps|
    requires h < |worlds[n].manager.pool| && !worlds[n].manager.pool[h].closed
    ensures exists i :: 0 <= i < |worlds[n].providers| && Owns(worlds[n], i, h)
    ensures forall i, j | 0 <= i < j < |worlds[n].providers| :: worlds[n].providers[i].id != worlds[n].providers[j].id
  {
    RunKeepsInv(credentialId, worlds, steps, n);
    var w := worlds[n];
    assert IsTracked(w, h);
    var id :| id in w.manager.tracked && w.manager.tracked[id] == h;
    assert Owns(w, w.handlers[id], h);
  }

  ghost predicate Owns(w: World, i: nat, h: nat)
    requires i < |w.providers| && h < |w.manager.pool|
  {
    var p := w.providers[i];
    && p.id in w.manager.tracked && w.manager.tracked[p.id] == h
    && p.sess == Some(h) && w.manager.pool[h].apiKey == p.apiKey
  }

  /** A step opens a session only for a provider's first call, or when that provider's session is dead or closed; and
      it opens at most one. */
  lemma OpensOnlyWhenNeeded(credentialId: string -> string, worlds: seq<World>, steps: seq<Step>, n: nat)
    requires IsRun(credentialId, worlds, steps) && n < |steps|
    requires |worlds[n + 1].manager.pool| != |worlds[n].manager.pool|
    ensures |worlds[n + 1].manager.pool| == |worlds[n].manager.pool| + 1
    ensures steps[n].Call? && steps[n].provider < |worlds[n].providers|
    ensures var p := worlds[n].providers[steps[n].provider];
      !p.started || (!p.failed && p.sess.Some? && !Alive(worlds[n].manager, p.sess.value))
  {
    assert Follows(credentialId, worlds, steps, n);
  }

  /** A provider whose first open failed never opens again: each later call returns the error and changes nothing. */
  lemma {:induction false} FirstFailureIsFinal(
    credentialId: string -> string, worlds: seq<World>, steps: seq<Step>, n: nat, m: nat, i: nat)
    requires IsRun(credentialId, worlds, steps) && n <= m <= |steps|
    requires i < |worlds[n].providers| && worlds[n].providers[i].started && worlds[n].providers[i].failed
    ensures i < |worlds[m].providers| && worlds[m].providers[i] == worlds[n].providers[i]
    ensures forall opens :: Get(worlds[m].manager, worlds[m].providers[i], opens) ==
                            (worlds[m].manager, worlds[m].providers[i], OpenFailed)
  {
    if n < m {
      FirstFailureIsFinal(credentialId, worlds, steps, n, m - 1, i);
      assert Follows(credentialId, worlds, steps, m - 1);
    }
  }

  // ----- what a call answers -----

  /** The first call of provider `i` before step `n` was one that could not open a session. */
  predicate FirstOpenFailed(steps: seq<Step>, n: nat, i: nat)
    requires n <= |steps|
  {
    exists k :: 0 <= k < n && steps[k] == Call(i, false) && forall j | 0 <= j < k :: !IsCallOf(steps[j], i)
  }

  predicate IsCallOf(step: Step, i: nat) {
    step.Call? && step.provider == i
  }

  predicate CalledBefore(steps: seq<Step>, n: nat, i: nat)
    requires n <= |steps|
  {
    exists k :: 0 <= k < n && IsCallOf(steps[k], i)
  }

  lemma OneCallLater(steps: seq<Step>, n: nat, i: nat)
    requires 0 < n <= |steps|
    ensures CalledBefore(steps, n, i) <==> CalledBefore(steps, n - 1, i) || IsCallOf(steps[n - 1], i)
    ensures FirstOpenFailed(steps, n, i) <==>
            FirstOpenFailed(steps, n - 1, i) || (!CalledBefore(steps, n - 1, i) && steps[n - 1] == Call(i, false))
  {
    if !CalledBefore(steps, n - 1, i) && steps[n - 1] == Call(i, false) {
      assert forall j | 0 <= j < n - 1 :: !IsCallOf(steps[j], i);
    }
  }

  lemma FlagsMove(w: World, credentialId: string -> string, step: Step, i: nat)
    requires Inv(w, credentialId) && Enabled(w, step)
    ensures IsCallOf(step, i) ==> i < |w.providers|
    ensures var w1 := Apply(w, credentialId, step);
      && (i < |w.providers| ==>
            && i < |w1.providers|
            && (w1.providers[i].started <==> w.providers[i].started || IsCallOf(step, i))
            && (w1.providers[i].failed <==>
                  w.providers[i].failed || (!w.providers[i].started && step == Call(i, false))))
      && (|w.providers| <= i < |w1.providers| ==> !w1.providers[i].started && !w1.providers[i].failed)
  {
  }

  lemma {:induction false} FlagsTellHistory(
    credentialId: string -> string, worlds: seq<World>, steps: seq<Step>, n: nat, i: nat)
    requires IsRun(credentialId, worlds, steps) && n <= |steps|
    ensures i < |worlds[n].providers| ==>
      && (worlds[n].providers[i].started <==> CalledBefore(steps, n, i))
      && (worlds[n].providers[i].failed <==> FirstOpenFailed(steps, n, i))
    ensures i >= |worlds[n].providers| ==> !CalledBefore(steps, n, i) && !FirstOpenFailed(steps, n, i)
  {
    if n > 0 {
      FlagsTellHistory(credentialId, worlds, steps, n - 1, i);
      RunKeepsInv(credentialId, worlds, steps, n - 1);
      assert Follows(credentialId, worlds, steps, n - 1);
      FlagsMove(worlds[n - 1], credentialId, steps[n - 1], i);
      OneCallLater(steps, n, i);
    }
  }

  /** An open session of provider `i` that still carries requests. */
  ghost predicate HasLive(w: World, i: nat, h: nat)
    requires i < |w.providers|
  {
    h < |w.manager.pool| && Owns(w, i, h) && !w.manager.pool[h].closed && !w.manager.pool[h].dead
  }

  /** A call answers with a session, or fails: exactly if the provider's first call could not open one, or one had to be
      opened, because it had none alive, and could not. */
  lemma CallFailsIff(credentialId: string -> string, worlds: seq<World>, steps: seq<Step>, n: nat, i: nat, opens: bool)
    requires IsRun(credentialId, worlds, steps) && n <= |steps| && i < |worlds[n].providers|
    ensures Get(worlds[n].manager, worlds[n].providers[i], opens).2.OpenFailed? <==>
            FirstOpenFailed(steps, n, i) || (!opens && forall h :: !HasLive(worlds[n], i, h))
  {
    RunKeepsInv(credentialId, worlds, steps, n);
    FlagsTellHistory(credentialId, worlds, steps, n, i);
    var w, p := worlds[n], worlds[n].providers[i];
    if p.sess.Some? && Alive(w.manager, p.sess.value) {
      AliveIsOwned(w, credentialId, i);
      assert HasLive(w, i, p.sess.value);
    }
  }

  lemma AliveIsOwned(w: World, credentialId: string -> string, i: nat)
    requires Inv(w, credentialId) && i < |w.providers|
    requires w.providers[i].sess.Some? && !w.manager.pool[w.providers[i].sess.value].closed
    ensures Owns(w, i, w.providers[i].sess.value)
  {
    var h := w.providers[i].sess.value;
    assert IsTracked(w, h);
    var id :| id in w.manager.tracked && w.manager.tracked[id] == h;
    assert w.providers[w.handlers[id]].apiKey == w.providers[i].apiKey;
  }

  /** The session a call answers with is open and alive, was opened with the provider's own key, is tracked under its
      id, and is the only open session of that key: whatever the provider had before is closed. It is the one the
      provider had, if that is alive, and a new one otherwise. */
  lemma CallAnswersOwnSession(
    credentialId: string -> string, worlds: seq<World>, steps: seq<Step>, n: nat, i: nat, opens: bool)
    requires IsRun(credentialId, worlds, steps) && n < |steps| && steps[n] == Call(i, opens)
    ensures i < |worlds[n].providers|
    ensures var got := Get(worlds[n].manager, worlds[n].providers[i], opens).2;
      got.Usable? ==>
        var w, w1, s := worlds[n], worlds[n + 1], got.session;
        && i < |w1.providers| && HasLive(w1, i, s)
        && w1.manager.pool[s].apiKey == w.providers[i].apiKey
        && (forall h | 0 <= h < |w1.manager.pool| && h != s && w1.manager.pool[h].apiKey == w.providers[i].apiKey ::
              w1.manager.pool[h].closed)
        && (if s < |w.manager.pool| then HasLive(w, i, s) && w1 == w else forall h :: !HasLive(w, i, h))
  {
    RunKeepsInv(credentialId, worlds, steps, n);
    RunKeepsInv(credentialId, worlds, steps, n + 1);
    assert Follows(credentialId, worlds, steps, n);
    var got := Get(worlds[n].manager, worlds[n].providers[i], opens).2;
    if got.Usable? {
      CallGetsOwnSession(worlds[n], credentialId, i, opens, worlds[n + 1]);
      OthersOfKeyAreClosed(worlds[n + 1], credentialId, i, got.session);
    }
  }

  lemma CallGetsOwnSession(w: World, credentialId: string -> string, i: nat, opens: bool, w1: World)
    requires Inv(w, credentialId) && Inv(w1, credentialId) && i < |w.providers|
    requires w1 == Apply(w, credentialId, Call(i, opens)) && Get(w.manager, w.providers[i], opens).2.Usable?
    ensures var s := Get(w.manager, w.providers[i], opens).2.session;
      && i < |w1.providers| && HasLive(w1, i, s) && w1.providers[i].sess == Some(s)
      && w1.providers[i].apiKey == w.providers[i].apiKey && w1.manager.pool[s].apiKey == w.providers[i].apiKey
      && (if s < |w.manager.pool| then HasLive(w, i, s) && w1 == w else forall h :: !HasLive(w, i, h))
  {
    AliveIsOwned(w1, credentialId, i);
    if Get(w.manager, w.providers[i], opens).2.session < |w.manager.pool| {
      assert w1 == w;
    }
  }

  lemma OthersOfKeyAreClosed(w: World, credentialId: string -> string, i: nat, s: nat)
    requires Inv(w, credentialId) && i < |w.providers| && w.providers[i].sess == Some(s)
    ensures forall h | 0 <= h < |w.manager.pool| && h != s && w.manager.pool[h].apiKey == w.providers[i].apiKey ::
              w.manager.pool[h].closed
  {
    forall h | 0 <= h < |w.manager.pool| && !w.manager.pool[h].closed
      ensures h == s || w.manager.pool[h].apiKey != w.providers[i].apiKey
    {
      assert IsTracked(w, h);
      var id :| id in w.manager.tracked && w.manager.tracked[id] == h;
      assert w.manager.pool[h].apiKey == w.providers[w.handlers[id]].apiKey;
    }
  }

  /** CloseAll leaves no session open, of all that were ever opened, and forgets them; which key each has, and which are
      dead, stays. */
  lemma AllAreReleased(credentialId: string -> string, worlds: seq<World>, steps: seq<Step>, n: nat)
    requires IsRun(credentialId, worlds, steps) && n < |steps| && steps[n] == ReleaseAll
    ensures worlds[n + 1].manager.tracked == map[]
    ensures |worlds[n + 1].manager.pool| == |worlds[n].manager.pool|
    ensures forall h | 0 <= h < |worlds[n].manager.pool| ::
        worlds[n + 1].manager.pool[h] == worlds[n].manager.pool[h].(closed := true)
  {
    RunKeepsInv(credentialId, worlds, steps, n);
    assert Follows(credentialId, worlds, steps, n);
    var w := worlds[n];
    forall h | 0 <= h < |w.manager.pool|
      ensures worlds[n + 1].manager.pool[h] == w.manager.pool[h].(closed := true)
    {
      if !w.manager.pool[h].closed {
        assert IsTracked(w, h);
        assert h in w.manager.tracked.Values;
      }
    }
  }

  /** Release makes way: in every run, when the id of a provider is released its session is closed and no other is
      touched; and the next call of the provider, if it can open one, gets a new session, tracked under that id. */
  lemma ReleasedSessionIsReplaced(credentialId: string -> string, worlds: seq<World>, steps: seq<Step>, n: nat, i: nat)
    requires IsRun(credentialId, worlds, steps) && n <= |steps|
    requires i < |worlds[n].providers| && worlds[n].providers[i].sess.Some?
    ensures worlds[n].providers[i].sess.value < |worlds[n].manager.pool|
    ensures IsReleased(worlds[n].manager, worlds[n].providers[i])
    ensures IsReplaced(worlds[n].manager, worlds[n].providers[i])
  {
    RunKeepsInv(credentialId, worlds, steps, n);
    var w := worlds[n];
    var m, p := w.manager, w.providers[i];
    var h := p.sess.value;
    if !m.pool[h].closed {
      assert IsTracked(w, h);
      var id :| id in m.tracked && m.tracked[id] == h;
      assert w.providers[w.handlers[id]].apiKey == p.apiKey;
    }
    var released := ReleaseSession(m, p.id);
    var after := CloseSession(OpenSession(released, p.apiKey), h);
    assert after.pool == released.pool + [Session(p.apiKey, false, false)];
    assert released.tracked[p.id := |m.pool|] == m.tracked[p.id := |m.pool|];
  }

  // Its session, and no other, is closed, and its id is free.
  ghost predicate IsReleased(m: Manager, p: Provider)
    requires p.sess.Some? && p.sess.value < |m.pool|
  {
    var released := ReleaseSession(m, p.id);
    && released.tracked == m.tracked - {p.id}
    && released.pool == m.pool[p.sess.value := m.pool[p.sess.value].(closed := true)]
  }

  // The provider then gets a new session under its id, or an error and no change.
  ghost predicate IsReplaced(m: Manager, p: Provider)
    requires p.sess.Some?
  {
    var released, h := ReleaseSession(m, p.id), |m.pool|;
    && Get(released, p, false) == (released, p, OpenFailed)
    && Get(released, p, true) ==
       (Manager(m.tracked[p.id := h], released.pool + [Session(p.apiKey, false, false)]),
        p.(sess := Some(h)), Usable(h))
  }

  /** Whoever asks with a key is served by a provider of that key, in every run, if and only if credentialID has no
      collisions. */
  lemma OwnKeyIff(credentialId: string -> string)
    ensures (forall a, b :: credentialId(a) == credentialId(b) ==> a == b) <==>
            (forall worlds, steps, apiKey ::
               IsRun(credentialId, worlds, steps) ==> ServedByOwnKey(worlds[|steps|], credentialId, apiKey))
  {
    if forall a, b :: credentialId(a) == credentialId(b) ==> a == b {
      forall worlds: seq<World>, steps: seq<Step>, apiKey: string | IsRun(credentialId, worlds, steps)
        ensures ServedByOwnKey(worlds[|steps|], credentialId, apiKey)
      {
        RunKeepsInv(credentialId, worlds, steps, |steps|);
      }
    } else {
      var a, b :| credentialId(a) == credentialId(b) && a != b;
      var w := Serve(EMPTY_WORLD, credentialId, a).0;
      var worlds, steps := [EMPTY_WORLD, w], [Request(a)];
      assert Follows(credentialId, worlds, steps, 0);
      assert IsRun(credentialId, worlds, steps) && worlds[|steps|] == w;
      assert !ServedByOwnKey(w, credentialId, b);
    }
  }

  ghost predicate ServedByOwnKey(w: World, credentialId: string -> string, apiKey: string) {
    var (w1, i) := Serve(w, credentialId, apiKey);
    i < |w1.providers| && w1.providers[i].apiKey == apiKey
  }

  /** Unique ids matter: two providers that shared one would leak the session of the first. */
  lemma SharedIdLeaks(apiKey: string)
    ensures var m, p := Manager(map[], []), NewProvider("id", apiKey);
      var first := Get(m, p, true);
      var second := Get(first.0, p, true);
      var h := first.2.session;
      && first.2.Usable? && !second.0.pool[h].closed
      && forall id | id in second.0.tracked :: second.0.tracked[id] != h
  {
  }
}
