/**
 Session lifecycle of internal/server/session.go: sessions are opened lazily, replaced when they die, and
 tracked under an id so that they can be closed. `pool` is every session ever opened; a session is an index
 into it. Whether an Open succeeds is an input.
 */
module Sessions {
  import opened Wrappers

  // `dead`: the connection was lost. A session carries requests while it is neither closed nor dead.
  datatype Session = Session(apiKey: string, closed: bool, dead: bool)

  datatype Manager = Manager(tracked: map<string, nat>, pool: seq<Session>)

  // What the closure returned by NewSessionProvider captures.
  datatype Provider = Provider(id: string, apiKey: string, started: bool, failed: bool, sess: Option<nat>)

  datatype Got = Usable(session: nat) | OpenFailed

  function NewProvider(id: string, apiKey: string): Provider {
    Provider(id, apiKey, false, false, None)
  }

  // Nothing has been captured before the first call; after it, either a session or the error.
  predicate Coherent(p: Provider) {
    if p.started then p.failed <==> p.sess.None? else !p.failed && p.sess.None?
  }

  predicate Alive(m: Manager, h: nat) {
    h < |m.pool| && !m.pool[h].closed && !m.pool[h].dead
  }

  function OpenSession(m: Manager, apiKey: string): Manager {
    m.(pool := m.pool + [Session(apiKey, false, false)])
  }

  function CloseSession(m: Manager, h: nat): Manager {
    if h < |m.pool| then m.(pool := m.pool[h := m.pool[h].(closed := true)]) else m
  }

  function TrackSession(m: Manager, id: string, h: nat): Manager {
    m.(tracked := m.tracked[id := h])
  }

  function ReleaseSession(m: Manager, id: string): Manager {
    if id in m.tracked then CloseSession(m, m.tracked[id]).(tracked := m.tracked - {id}) else m
  }

  function CloseAllSessions(m: Manager): Manager {
    Manager(map[], seq(|m.pool|, h requires 0 <= h < |m.pool| =>
      if h in m.tracked.Values then m.pool[h].(closed := true) else m.pool[h]))
  }

  /** One call of a provider; `opens` tells whether an Open, if there is one, succeeds. */
  function Get(m: Manager, p: Provider, opens: bool): (r: (Manager, Provider, Got)) {
    if !p.started then
      if opens then
        var h := |m.pool|;
        (TrackSession(OpenSession(m, p.apiKey), p.id, h), p.(started := true, sess := Some(h)), Usable(h))
      else (m, p.(started := true, failed := true), OpenFailed)
    else if p.failed || p.sess.None? then (m, p, OpenFailed)
    else if Alive(m, p.sess.value) then (m, p, Usable(p.sess.value))
    else if !opens then (m, p, OpenFailed)
    else
      var h := |m.pool|;
      (TrackSession(CloseSession(OpenSession(m, p.apiKey), p.sess.value), p.id, h), p.(sess := Some(h)), Usable(h))
  }

  // ----- the objects -----

  class SessionManager {
    var tracked: map<string, nat>
    var pool: seq<Session>

    ghost function View(): Manager
      reads this
    {
      Manager(tracked, pool)
    }

    constructor ()
      ensures View() == Manager(map[], [])
    {
      tracked, pool := map[], [];
    }

    method Open(apiKey: string) returns (h: nat)
      modifies this`pool
      ensures View() == OpenSession(old(View()), apiKey) && h == old(|pool|)
    {
      h := |pool|;
      pool := pool + [Session(apiKey, false, false)];
    }

    method Close(h: nat)
      modifies this`pool
      ensures View() == CloseSession(old(View()), h)
    {
      if h < |pool| {
        pool := pool[h := pool[h].(closed := true)];
      }
    }

    method Track(id: string, h: nat)
      modifies this`tracked
      ensures View() == TrackSession(old(View()), id, h)
    {
      tracked := tracked[id := h];
    }

    method Release(id: string)
      modifies this
      ensures View() == ReleaseSession(old(View()), id)
    {
      if id in tracked {
        var h := tracked[id];
        tracked := tracked - {id};
        Close(h);
      }
    }

    /** Takes the whole map first, then closes what it listed. */
    method CloseAll()
      modifies this
      ensures View() == CloseAllSessions(old(View()))
    {
      ghost var all, before := tracked.Values, pool;
      var sessions := tracked;
      tracked := map[];
      while sessions != map[]
        invariant tracked == map[] && |pool| == |before|
        invariant sessions.Values <= all
        invariant forall h | 0 <= h < |pool| ::
            && pool[h].apiKey == before[h].apiKey && pool[h].dead == before[h].dead
            && (pool[h].closed <==> before[h].closed || (h in all && (h in sessions.Values ==> pool[h].closed)))
        decreases |sessions|
      {
        var id :| id in sessions;
        var h := sessions[id];
        var rest := sessions - {id};
        assert sessions.Values == rest.Values + {h} by {
          assert forall i | i in sessions && i != id :: i in rest && rest[i] == sessions[i];
        }
        assert |rest| < |sessions| by { assert rest.Keys == sessions.Keys - {id}; }
        Close(h);
        sessions := rest;
      }
    }
  }

  class SessionProvider {
    const sessions: SessionManager
    const id: string
    const apiKey: string
    var started: bool
    var failed: bool
    var sess: Option<nat>

    ghost function View(): Provider
      reads this
    {
      Provider(id, apiKey, started, failed, sess)
    }

    constructor (sessions: SessionManager, id: string, apiKey: string)
      ensures this.sessions == sessions && View() == NewProvider(id, apiKey)
    {
      this.sessions, this.id, this.apiKey := sessions, id, apiKey;
      started, failed, sess := false, false, None;
    }

    /** The function NewSessionProvider returns: open once, fail for good if that fails, then reconnect when dead. */
    method Call(opens: bool) returns (got: Got)
      requires Coherent(View())
      modifies this, sessions
      ensures Coherent(View())
      ensures (sessions.View(), View(), got) == Get(old(sessions.View()), old(View()), opens)
    {
      if !started {
        started := true;
        if opens {
          var h := sessions.Open(apiKey);
          sess := Some(h);
          sessions.Track(id, h);
        } else {
          failed := true;
        }
      }
      if failed || sess.None? {
        return OpenFailed;
      }
      var alive := sess.value < |sessions.pool| && !sessions.pool[sess.value].closed && !sessions.pool[sess.value].dead;
      if !alive {
        if !opens {
          return OpenFailed;
        }
        var replacement := sessions.Open(apiKey);
        sessions.Close(sess.value);
        sess := Some(replacement);
        sessions.Track(id, replacement);
      }
      return Usable(sess.value);
    }
  }

  class McpHandler {
    const sessions: SessionManager
    const credentialId: string -> string
    var handlers: map<string, SessionProvider>

    constructor (sessions: SessionManager, credentialId: string -> string)
      ensures this.sessions == sessions && this.credentialId == credentialId && handlers == map[]
    {
      this.sessions, this.credentialId, handlers := sessions, credentialId, map[];
    }

    /** The provider bound to the credential: always the same one, made on first use. */
    method HandlerFor(apiKey: string) returns (provider: SessionProvider)
      modifies this
      ensures credentialId(apiKey) in handlers && handlers[credentialId(apiKey)] == provider
      ensures credentialId(apiKey) in old(handlers) ==> handlers == old(handlers)
      ensures credentialId(apiKey) !in old(handlers) ==>
        && handlers == old(handlers)[credentialId(apiKey) := provider] && fresh(provider)
        && provider.sessions == sessions && provider.View() == NewProvider(credentialId(apiKey), apiKey)
    {
      var id := credentialId(apiKey);
      if id in handlers {
        return handlers[id];
      }
      provider := new SessionProvider(sessions, id, apiKey);
      handlers := handlers[id := provider];
    }
  }

  // ----- all the providers behind one HTTP handler (internal/server/mcp.go) -----

  // `handlers` is mcpHandler.http: the provider bound to each credential id.
  datatype World = World(manager: Manager, providers: seq<Provider>, handlers: map<string, nat>)

  const EMPTY_WORLD := World(Manager(map[], []), [], map[])

  datatype Step =
    | Request(apiKey: string)              // handlerFor
    | Call(provider: nat, opens: bool)
    | Die(session: nat)
    | ReleaseOne(id: string)
    | ReleaseAll

  predicate Enabled(w: World, step: Step) {
    step.Call? ==> step.provider < |w.providers|
  }

  /** One provider for each credential id, made on first use. */
  function Serve(w: World, credentialId: string -> string, apiKey: string): (r: (World, nat)) {
    var id := credentialId(apiKey);
    if id in w.handlers then (w, w.handlers[id])
    else
      (w.(providers := w.providers + [NewProvider(id, apiKey)], handlers := w.handlers[id := |w.providers|]),
       |w.providers|)
  }

  function Apply(w: World, credentialId: string -> string, step: Step): World
    requires Enabled(w, step)
  {
    match step
    case Request(apiKey) => Serve(w, credentialId, apiKey).0
    case Call(i, opens) =>
      var r := Get(w.manager, w.providers[i], opens);
      w.(manager := r.0, providers := w.providers[i := r.1])
    case Die(h) =>
      if h < |w.manager.pool| then
        w.(manager := w.manager.(pool := w.manager.pool[h := w.manager.pool[h].(dead := true)]))
      else w
    case ReleaseOne(id) => w.(manager := ReleaseSession(w.manager, id))
    case ReleaseAll => w.(manager := CloseAllSessions(w.manager))
  }

  ghost predicate Follows(credentialId: string -> string, worlds: seq<World>, steps: seq<Step>, i: nat)
    requires i < |steps| && i + 1 < |worlds|
  {
    Enabled(worlds[i], steps[i]) && worlds[i + 1] == Apply(worlds[i], credentialId, steps[i])
  }

  ghost predicate IsRun(credentialId: string -> string, worlds: seq<World>, steps: seq<Step>) {
    && |worlds| == |steps| + 1
    && worlds[0] == EMPTY_WORLD
    && forall i | 0 <= i < |steps| :: Follows(credentialId, worlds, steps, i)
  }

  /** A handler's provider carries the handler's id and a key that hashes to it; and each id has one provider. */
  ghost predicate HandlersSound(w: World, credentialId: string -> string) {
    && (forall id | id in w.handlers ::
          w.handlers[id] < |w.providers| && w.providers[w.handlers[id]].id == id)
    && (forall i | 0 <= i < |w.providers| ::
          && w.providers[i].id in w.handlers && w.handlers[w.providers[i].id] == i
          && credentialId(w.providers[i].apiKey) == w.providers[i].id)
  }

  /** What is tracked under an id is the current session of the provider with that id, and every other session that
      was ever opened is closed. */
  ghost predicate SessionsSound(w: World) {
    && (forall i | 0 <= i < |w.providers| :: Coherent(w.providers[i]))
    && (forall i | 0 <= i < |w.providers| && w.providers[i].sess.Some? ::
          && w.providers[i].sess.value < |w.manager.pool|
          && w.manager.pool[w.providers[i].sess.value].apiKey == w.providers[i].apiKey)
    && (forall id | id in w.manager.tracked ::
          id in w.handlers && w.handlers[id] < |w.providers| &&
          w.providers[w.handlers[id]].sess == Some(w.manager.tracked[id]))
    && (forall h | 0 <= h < |w.manager.pool| && !w.manager.pool[h].closed :: IsTracked(w, h))
  }

  ghost predicate IsTracked(w: World, h: nat) {
    exists id :: id in w.manager.tracked && w.manager.tracked[id] == h
  }
}
