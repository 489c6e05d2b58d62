/** Package connections: the two query backends, each with its own response
    cache. RCON (connector/connections/rcon.go) sends the `status` command and
    parses the text it gets back; ServerQuery (connector/connections/serverquery.go)
    asks for the server's info record and maps its fields.

    What the transport would answer is passed in: `dial` for rcon.Connect,
    `reply` for Server.Send on a session, `newSession` for the session
    core.NewServerQuery opens and `fetch` for ServerQuery.GetInfo on a session. */
module Connections {
  import opened Base
  import opened TtlCache
  import opened CachedFetch
  import Parser

  /** config.QueryMode. */
  datatype QueryMode = RconMode | ServerQueryMode

  /** connections.ConnectionOptions; the durations are nanoseconds. */
  datatype ConnectionOptions = ConnectionOptions(
    addr: string, rconPassword: string, mode: QueryMode,
    connectTimeout: int, cacheExpiration: int, cacheCleanupInterval: int)

  /** A call through a session the backend may not have yet: on a nil session
      Go panics before the transport sees anything. */
  function OnSession<V>(call: Session -> Result<V>): Option<Session> -> Result<V>
  {
    (s: Option<Session>) => if s.None? then Err(NilSession) else call(s.value)
  }

  /** The session RCON.Reconnect leaves behind: in ServerQuery mode it dials
      nothing and keeps the session it had. */
  function Redial(mode: QueryMode, session: Option<Session>, dial: Result<Session>): Result<Option<Session>>
  {
    if mode == ServerQueryMode then Ok(session)
    else if dial.Err? then Err(dial.error)
    else Ok(Some(dial.value))
  }

  // ---------------------------------------------------------------------------
  // RCON

  class Rcon {
    const opts: ConnectionOptions
    var cache: Cache<string>
    var created: int
    var rcon: Option<Session>

    /** NewRCON: no session yet, created now, an empty cache. */
    constructor (name: string, opts: ConnectionOptions, now: int)
      ensures this.opts == opts && created == now && rcon == None
      ensures cache == TtlCache.New(opts.cacheExpiration, opts.cacheCleanupInterval)
    {
      this.opts := opts;
      cache := TtlCache.New(opts.cacheExpiration, opts.cacheCleanupInterval);
      created := now;
      rcon := None;
    }

    method Reconnect(now: int, dial: Result<Session>) returns (err: Option<Error>)
      modifies this
      ensures opts.mode == ServerQueryMode ==> err == None && rcon == old(rcon) && created == now
      ensures opts.mode != ServerQueryMode && dial.Err? ==>
        err == Some(dial.error) && rcon == old(rcon) && created == old(created)
      ensures opts.mode != ServerQueryMode && dial.Ok? ==>
        err == None && rcon == Some(dial.value) && created == now
      ensures cache == old(cache)
    {
      if opts.mode != ServerQueryMode {
        if dial.Err? {
          return Some(dial.error);
        }
        rcon := Some(dial.value);
      }
      created := now;
      return None;
    }

    /** runRCONCommand: the response to `cmd`, from the cache or from the server. */
    method RunCommand(cmd: string, now: int, dial: Result<Session>, reply: Session -> Result<string>)
      returns (out: Result<string>)
      modifies this
      ensures var r := Fetch(old(cache), old(created), old(rcon), cmd, now,
                             Redial(opts.mode, old(rcon), dial), OnSession(reply));
        && out == r.out && cache == r.cache && created == r.created && rcon == r.session
    {
      var found := TtlCache.Get(cache, cmd, now);
      if found.None? {
        if Stale(created, now) {
          var err := Reconnect(now, dial);
          if err.Some? {
            return Err(err.value);
          }
          created := now;
        }
        if rcon.None? {
          return Err(NilSession);
        }
        var sent := reply(rcon.value);
        if sent.Err? {
          return Err(sent.error);
        }
        cache := Add(cache, cmd, sent.value, now);
        return Ok(sent.value);
      }
      return Ok(found.value);
    }

    /** GetMap: ParseMap of the `status` response, or the error fetching it. */
    method GetMap(now: int, dial: Result<Session>, reply: Session -> Result<string>)
      returns (name: Result<string>)
      modifies this
      ensures var r := Fetch(old(cache), old(created), old(rcon), "status", now,
                             Redial(opts.mode, old(rcon), dial), OnSession(reply));
        && cache == r.cache && created == r.created && rcon == r.session
        && (r.out.Err? ==> name == Err(r.out.error))
        && (r.out.Ok? ==> name == Ok(Parser.ParseMap(r.out.value)))
    {
      var resp := RunCommand("status", now, dial, reply);
      if resp.Err? {
        return Err(resp.error);
      }
      return Ok(Parser.ParseMap(resp.value));
    }

    /** GetPlayerCount: ParsePlayerCount of the `status` response; the fetch
        error or the parser's error otherwise. */
    method GetPlayerCount(now: int, dial: Result<Session>, reply: Session -> Result<string>)
      returns (count: Result<Parser.PlayerCount>)
      modifies this
      ensures var r := Fetch(old(cache), old(created), old(rcon), "status", now,
                             Redial(opts.mode, old(rcon), dial), OnSession(reply));
        && cache == r.cache && created == r.created && rcon == r.session
        && (r.out.Err? ==> count == Err(r.out.error))
        && (r.out.Ok? ==> count == Parser.ParsePlayerCount(r.out.value))
    {
      var resp := RunCommand("status", now, dial, reply);
      if resp.Err? {
        return Err(resp.error);
      }
      count := Parser.ParsePlayerCount(resp.value);
    }

    /** GetPlayers: ParsePlayers of the `status` response; the fetch error or
        the parser's error otherwise. */
    method GetPlayers(now: int, dial: Result<Session>, reply: Session -> Result<string>)
      returns (players: Result<map<string, Parser.Player>>)
      modifies this
      ensures var r := Fetch(old(cache), old(created), old(rcon), "status", now,
                             Redial(opts.mode, old(rcon), dial), OnSession(reply));
        && cache == r.cache && created == r.created && rcon == r.session
        && (r.out.Err? ==> players == Err(r.out.error))
        && (r.out.Ok? ==> players == Parser.PlayersOf(r.out.value))
    {
      var resp := RunCommand("status", now, dial, reply);
      if resp.Err? {
        return Err(resp.error);
      }
      players := Parser.ParsePlayers(resp.value);
    }
  }

  /** A backend with no session yet that misses within five seconds of being
      created sends on a nil session: NewRCON and NewServerQuery both start so. */
  lemma NoSessionYet<V>(cache: Cache<V>, created: int, key: string, now: int,
                        reconnect: Result<Option<Session>>, call: Session -> Result<V>)
    requires Get(cache, key, now).None? && !Stale(created, now)
    ensures var r := Fetch(cache, created, None, key, now, reconnect, OnSession(call));
      r.out == Err(NilSession) && r.cache == cache && r.session == None
  {
    FreshMissKeepsSession(cache, created, None, key, now, reconnect, OnSession(call));
  }

  /** In ServerQuery mode the RCON reconnect never fails, so a stale miss keeps
      whatever session there was and only restarts its age. */
  lemma ServerQueryModeNeverDials<V>(cache: Cache<V>, created: int, session: Option<Session>, key: string,
                                     now: int, dial: Result<Session>, call: Session -> Result<V>)
    requires Get(cache, key, now).None? && Stale(created, now)
    ensures var r := Fetch(cache, created, session, key, now, Redial(ServerQueryMode, session, dial), OnSession(call));
      r.session == session && r.created == now && r.sent
  {
    RedialRenewsSession(cache, created, session, key, now, Redial(ServerQueryMode, session, dial), OnSession(call));
  }

  // ---------------------------------------------------------------------------
  // ServerQuery

  /** The fields of core.ServerInfo the exporter reads. */
  datatype ServerInfo = ServerInfo(mapName: string, players: int, maxPlayers: int, bots: int)

  /** What ServerQuery.GetInfo does on a session: return an info record (possibly
      nil) or panic. */
  datatype InfoReply = Panicked | Returned(info: Option<ServerInfo>)

  function InfoCall(fetch: Session -> InfoReply): Session -> Result<Option<ServerInfo>>
  {
    (s: Session) => match fetch(s)
      case Panicked => Err(TransportPanic)
      case Returned(info) => Ok(info)
  }

  /** getInfo's answer: a panic anywhere in the fetch is recovered into nil. */
  function InfoOf(out: Result<Option<ServerInfo>>): Option<ServerInfo>
  {
    if out.Ok? then out.value else None
  }

  class ServerQuery {
    const opts: ConnectionOptions
    var cache: Cache<Option<ServerInfo>>
    var con: Option<Session>
    var created: int

    /** NewServerQuery: no session yet, created now, an empty cache. */
    constructor (name: string, opts: ConnectionOptions, now: int)
      ensures this.opts == opts && created == now && con == None
      ensures cache == TtlCache.New(opts.cacheExpiration, opts.cacheCleanupInterval)
    {
      this.opts := opts;
      cache := TtlCache.New(opts.cacheExpiration, opts.cacheCleanupInterval);
      con := None;
      created := now;
    }

    /** Reconnect: only more than five seconds after `created`, close the old
        session if there is one and open `newSession` in its place. `closed` is the
        session whose Close was called. Go's result is always nil. */
    method Reconnect(now: int, newSession: Session) returns (closed: Option<Session>)
      modifies this
      ensures Stale(old(created), now) ==> closed == old(con) && con == Some(newSession) && created == now
      ensures !Stale(old(created), now) ==> closed == None && con == old(con) && created == old(created)
      ensures cache == old(cache)
    {
      closed := None;
      if Stale(created, now) {
        closed := con;
        con := Some(newSession);
        created := now;
      }
    }

    /** getInfo: the info record cached under "data", or fetched, cached and
        returned; nil, with nothing cached, when the fetch panics. */
    method GetInfo(now: int, newSession: Session, fetch: Session -> InfoReply)
      returns (info: Option<ServerInfo>)
      modifies this
      ensures var r := Fetch(old(cache), old(created), old(con), "data", now,
                             Ok(Some(newSession)), OnSession(InfoCall(fetch)));
        && info == InfoOf(r.out) && cache == r.cache && created == r.created && con == r.session
    {
      var found := TtlCache.Get(cache, "data", now);
      if found.Some? {
        return found.value;
      }
      var _ := Reconnect(now, newSession);
      if con.None? {
        return None;
      }
      var reply := fetch(con.value);
      if reply.Panicked? {
        return None;
      }
      cache := Add(cache, "data", reply.info, now);
      return reply.info;
    }

    method GetMap(now: int, newSession: Session, fetch: Session -> InfoReply) returns (name: string)
      modifies this
      ensures var r := Fetch(old(cache), old(created), old(con), "data", now,
                             Ok(Some(newSession)), OnSession(InfoCall(fetch)));
        && name == MapOfInfo(InfoOf(r.out))
        && cache == r.cache && created == r.created && con == r.session
    {
      var info := GetInfo(now, newSession, fetch);
      name := MapOfInfo(info);
    }

    method GetPlayerCount(now: int, newSession: Session, fetch: Session -> InfoReply)
      returns (count: Option<Parser.PlayerCount>)
      modifies this
      ensures var r := Fetch(old(cache), old(created), old(con), "data", now,
                             Ok(Some(newSession)), OnSession(InfoCall(fetch)));
        && count == CountOfInfo(InfoOf(r.out))
        && cache == r.cache && created == r.created && con == r.session
    {
      var info := GetInfo(now, newSession, fetch);
      count := CountOfInfo(info);
    }

    /** GetPlayers: the query protocol gives no player list; nil and no error. */
    method GetPlayers() returns (players: Option<map<string, Parser.Player>>, err: Option<Error>)
      ensures players == None && err == None
    {
      return None, None;
    }
  }

  /** GetMap: the map of the info record; "" with no error when there is none. */
  function MapOfInfo(info: Option<ServerInfo>): (name: string)
    ensures info.None? ==> name == ""
    ensures info.Some? ==> name == info.value.mapName
  {
    if info.None? then "" else info.value.mapName
  }

  /** GetPlayerCount: the info record's Players is reported both as Current and
      as Humans, MaxPlayers as Max and Bots as Bots; no record gives no count. */
  function CountOfInfo(info: Option<ServerInfo>): (c: Option<Parser.PlayerCount>)
    ensures info.None? <==> c.None?
  {
    if info.None? then None
    else Some(Parser.PlayerCount(info.value.players, info.value.maxPlayers, info.value.players, info.value.bots))
  }

  /** The fields of the count come from the record unchanged: Current and Humans
      are both the player total, so Humans counts the bots too. */
  lemma CountOfInfoFields(info: ServerInfo)
    ensures var c := CountOfInfo(Some(info)).value;
      && c.current == info.players && c.humans == info.players
      && c.max == info.maxPlayers && c.bots == info.bots
      && c.humans + c.bots == c.current + info.bots
  {
  }

  /** Unlike a count parsed from `status` text, a count from the info record
      keeps "humans + bots = current" exactly when the server has no bots: ten
      players of whom three are bots give Humans 10, Bots 3 and Current 10. */
  lemma CountOfInfoSplitIffNoBots(info: ServerInfo)
    requires info.players >= 0 && info.maxPlayers >= 0 && info.bots >= 0
    ensures Parser.ValidCount(CountOfInfo(Some(info)).value) <==> info.bots == 0
  {
  }
}
