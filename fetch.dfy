/** The read-through step that Connection.Get (connector/connection.go),
    RCON.runRCONCommand and ServerQuery.getInfo (connector/connections) each
    write out: answer from the response cache when it can; otherwise reconnect
    if the session is more than five seconds old, send the request on the
    session, and cache the answer only when the send succeeds.

    The session is any value `S`; the caller supplies what reconnecting would
    give (`reconnect`: a new session or an error) and what sending on a given
    session gives (`send`). Those are the transport's answers: the model does not
    look inside them. */
module CachedFetch {
  import opened Base
  import opened TtlCache

  /** The state after one request, what it returned, and which network steps
      it took: `redialed` when it ran the reconnect, `sent` when it sent. */
  datatype Fetched<S, V> = Fetched(
    cache: Cache<V>, created: int, session: S,
    redialed: bool, sent: bool, out: Result<V>)

  function Fetch<S, V>(cache: Cache<V>, created: int, session: S, key: string, now: int,
                       reconnect: Result<S>, send: S -> Result<V>): (r: Fetched<S, V>)
    ensures Get(cache, key, now).Some? ==> r.out == Ok(Get(cache, key, now).value)
    ensures r.redialed || r.sent ==> Get(cache, key, now).None?
    ensures r.sent ==> r.out == send(r.session)
    ensures r.out.Ok? ==> Get(r.cache, key, now) == Some(r.out.value)
    ensures r.out.Err? ==> r.cache == cache
  {
    match Get(cache, key, now)
    case Some(v) => Fetched(cache, created, session, false, false, Ok(v))
    case None =>
      if Stale(created, now) && reconnect.Err? then
        Fetched(cache, created, session, true, false, Err(reconnect.error))
      else
        var created' := if Stale(created, now) then now else created;
        var session' := if Stale(created, now) then reconnect.value else session;
        match send(session')
        case Err(e) => Fetched(cache, created', session', Stale(created, now), true, Err(e))
        case Ok(v) => Fetched(Add(cache, key, v, now), created', session', Stale(created, now), true, Ok(v))
  }

  /** A hit: the cached value, no network, nothing changes. */
  lemma HitIsLocal<S, V>(cache: Cache<V>, created: int, session: S, key: string, now: int,
                         reconnect: Result<S>, send: S -> Result<V>)
    requires Get(cache, key, now).Some?
    ensures var r := Fetch(cache, created, session, key, now, reconnect, send);
      && r.out == Ok(Get(cache, key, now).value)
      && !r.redialed && !r.sent
      && r.cache == cache && r.created == created && r.session == session
  {
  }

  /** The reconnect runs exactly on a miss more than five seconds after `created`. */
  lemma RedialOnlyWhenStale<S, V>(cache: Cache<V>, created: int, session: S, key: string, now: int,
                                  reconnect: Result<S>, send: S -> Result<V>)
    ensures Fetch(cache, created, session, key, now, reconnect, send).redialed
        <==> Get(cache, key, now).None? && Stale(created, now)
  {
  }

  /** A fresh miss sends on the session it has, and keeps it and its age. */
  lemma FreshMissKeepsSession<S, V>(cache: Cache<V>, created: int, session: S, key: string, now: int,
                                    reconnect: Result<S>, send: S -> Result<V>)
    requires Get(cache, key, now).None? && !Stale(created, now)
    ensures var r := Fetch(cache, created, session, key, now, reconnect, send);
      && r.sent && !r.redialed && r.session == session && r.created == created
      && r.out == send(session)
  {
  }

  /** A failed reconnect returns its error and changes nothing, and nothing is sent. */
  lemma FailedRedialChangesNothing<S, V>(cache: Cache<V>, created: int, session: S, key: string, now: int,
                                         reconnect: Result<S>, send: S -> Result<V>)
    requires Get(cache, key, now).None? && Stale(created, now) && reconnect.Err?
    ensures var r := Fetch(cache, created, session, key, now, reconnect, send);
      && r.out == Err(reconnect.error) && !r.sent
      && r.cache == cache && r.created == created && r.session == session
  {
  }

  /** A successful reconnect replaces the session and restarts its age at `now`,
      whatever the send then does. */
  lemma RedialRenewsSession<S, V>(cache: Cache<V>, created: int, session: S, key: string, now: int,
                                  reconnect: Result<S>, send: S -> Result<V>)
    requires Get(cache, key, now).None? && Stale(created, now) && reconnect.Ok?
    ensures var r := Fetch(cache, created, session, key, now, reconnect, send);
      && r.sent && r.session == reconnect.value && r.created == now
      && r.out == send(reconnect.value)
  {
  }

  /** Whatever fails, the cache is left exactly as it was. */
  lemma ErrorCachesNothing<S, V>(cache: Cache<V>, created: int, session: S, key: string, now: int,
                                 reconnect: Result<S>, send: S -> Result<V>)
    requires Fetch(cache, created, session, key, now, reconnect, send).out.Err?
    ensures Fetch(cache, created, session, key, now, reconnect, send).cache == cache
  {
  }

  /** Only the requested key can change, whatever happens. */
  lemma OtherKeysUntouched<S, V>(cache: Cache<V>, created: int, session: S, key: string, now: int,
                                 reconnect: Result<S>, send: S -> Result<V>, other: string, t: int)
    requires other != key
    ensures Get(Fetch(cache, created, session, key, now, reconnect, send).cache, other, t)
         == Get(cache, other, t)
  {
    if Get(cache, key, now).None? {
      var r := Fetch(cache, created, session, key, now, reconnect, send);
      if r.out.Ok? {
        AddOtherKey(cache, key, r.out.value, now, other, t);
      }
    }
  }

  /** A successful send is cached: asking again for the same key before the entry
      expires returns the same answer with no network at all, whatever the
      transport would now say. */
  lemma {:induction false} RepeatIsCached<S, V>(cache: Cache<V>, created: int, session: S, key: string,
                                                now: int, reconnect: Result<S>, send: S -> Result<V>,
                                                later: int, reconnect2: Result<S>, send2: S -> Result<V>)
    requires Get(cache, key, now).None?
    requires Fetch(cache, created, session, key, now, reconnect, send).out.Ok?
    requires now <= later && (cache.ttl > 0 ==> later <= now + cache.ttl)
    ensures var r := Fetch(cache, created, session, key, now, reconnect, send);
      var r2 := Fetch(r.cache, r.created, r.session, key, later, reconnect2, send2);
      && r2.out == r.out && !r2.redialed && !r2.sent && r2.cache == r.cache
  {
    var r := Fetch(cache, created, session, key, now, reconnect, send);
    AddThenGet(cache, key, r.out.value, now, later);
    HitIsLocal(r.cache, r.created, r.session, key, later, reconnect2, send2);
  }
}
