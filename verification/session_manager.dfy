/** The backend's session table with idle timeout (`SessionManager` in
    backend/app/session_manager.py). Each session owns one database manager and remembers
    when it was created and last accessed; `now` is the clock reading of each call and
    `id` the freshly generated session id. */
module SessionManager {
  import opened Wrappers
  import Database

  /** The idle time, in seconds, after which a session expires unless configured otherwise. */
  const DefaultTimeout: int := 3600

  datatype Session = Session(db: Database.Manager, createdAt: int, lastAccessed: int)

  datatype Manager = Manager(sessions: map<string, Session>, timeout: int)

  function NewManager(timeout: int := DefaultTimeout): (m: Manager)
    ensures Count(m) == 0 && m.timeout == timeout
  {
    Manager(map[], timeout)
  }

  /** A session left idle for strictly longer than the timeout has expired. */
  predicate Expired(m: Manager, s: Session, now: int)
  {
    now - s.lastAccessed > m.timeout
  }

  /** `get_session_count`: the number of sessions held, expired or not. */
  function Count(m: Manager): (n: nat)
    ensures n == 0 <==> m.sessions == map[]
  {
    |m.sessions|
  }

  /** `create_session`: a new session with a disconnected database manager. */
  function CreateSession(m: Manager, id: string, now: int): (r: Manager)
    requires id !in m.sessions
    ensures id in r.sessions && r.sessions[id] == Session(Database.Disconnected, now, now)
    ensures forall k :: k in m.sessions ==> k in r.sessions && r.sessions[k] == m.sessions[k]
    ensures forall k :: k in r.sessions ==> k == id || k in m.sessions
    ensures Count(r) == Count(m) + 1
    ensures r.timeout == m.timeout
  {
    m.(sessions := m.sessions[id := Session(Database.Disconnected, now, now)])
  }

  /** `cleanup_session`: forgets the session, if there is one. Its database is disconnected
      first, which the model does not observe once the session is gone. */
  function CleanupSession(m: Manager, id: string): (r: Manager)
    ensures id !in r.sessions
    ensures forall k :: k != id ==> (k in r.sessions <==> k in m.sessions)
    ensures forall k :: k in r.sessions ==> r.sessions[k] == m.sessions[k]
    ensures id in m.sessions ==> Count(r) == Count(m) - 1
    ensures id !in m.sessions ==> r == m
    ensures r.timeout == m.timeout
  {
    if id in m.sessions then m.(sessions := m.sessions - {id}) else m
  }

  /** What `get_session` returns, together with the table it leaves behind. */
  datatype Lookup = Lookup(db: Option<Database.Manager>, manager: Manager)

  /** `get_session`: an unknown id finds nothing; an expired session is removed and finds
      nothing; a live one is returned and its last access moved to `now`. */
  function GetSession(m: Manager, id: string, now: int): (r: Lookup)
    ensures id !in m.sessions ==> r == Lookup(None, m)
    ensures id in m.sessions && Expired(m, m.sessions[id], now) ==>
      r.db.None? && r.manager == CleanupSession(m, id)
    ensures id in m.sessions && !Expired(m, m.sessions[id], now) ==>
      && r.db == Some(m.sessions[id].db)
      && r.manager.sessions.Keys == m.sessions.Keys
      && r.manager.sessions[id] == m.sessions[id].(lastAccessed := now)
      && (forall k :: k in m.sessions && k != id ==> r.manager.sessions[k] == m.sessions[k])
    ensures r.manager.timeout == m.timeout
  {
    if id !in m.sessions then Lookup(None, m)
    else
      var s := m.sessions[id];
      if Expired(m, s, now) then Lookup(None, CleanupSession(m, id))
      else Lookup(Some(s.db), m.(sessions := m.sessions[id := s.(lastAccessed := now)]))
  }

  /** `cleanup_expired_sessions`: removes exactly the expired sessions. */
  function CleanupExpiredSessions(m: Manager, now: int): (r: Manager)
    ensures forall k :: k in r.sessions <==> k in m.sessions && !Expired(m, m.sessions[k], now)
    ensures forall k :: k in r.sessions ==> r.sessions[k] == m.sessions[k]
    ensures forall k :: k in r.sessions ==> now - r.sessions[k].lastAccessed <= r.timeout
    ensures r.timeout == m.timeout
  {
    m.(sessions := map k | k in m.sessions && !Expired(m, m.sessions[k], now) :: m.sessions[k])
  }

  /** An access keeps a session alive: looked up again within the timeout, it is found. */
  lemma AccessKeepsAlive(m: Manager, id: string, now: int, later: int)
    requires id in m.sessions && !Expired(m, m.sessions[id], now)
    requires later - now <= m.timeout
    ensures var first := GetSession(m, id, now);
      first.db.Some? && GetSession(first.manager, id, later).db == first.db
  {
  }

  /** A sweep and a lookup agree: a session survives the sweep at `now` exactly when a
      lookup at `now` finds it. */
  lemma SweepAgreesWithLookup(m: Manager, id: string, now: int)
    ensures id in CleanupExpiredSessions(m, now).sessions <==> GetSession(m, id, now).db.Some?
  {
  }

  /** Sweeping twice at the same time removes nothing more. */
  lemma SweepIdempotent(m: Manager, now: int)
    ensures CleanupExpiredSessions(CleanupExpiredSessions(m, now), now) == CleanupExpiredSessions(m, now)
  {
    var once := CleanupExpiredSessions(m, now);
    var twice := CleanupExpiredSessions(once, now);
    assert twice.sessions == once.sessions;
  }

  /** A fresh session is alive for exactly `timeout` seconds after its creation. */
  lemma CreatedSessionLifetime(m: Manager, id: string, now: int, later: int)
    requires id !in m.sessions
    ensures GetSession(CreateSession(m, id, now), id, later).db.Some? <==> later - now <= m.timeout
  {
  }
}
