/** Package connector: one RCON connection per server address, each with its own
    response cache (connector/connection.go), and the registry that holds them
    (connector/connector.go).

    The RCON library is the transport: what `rcon.Connect` and `Server.Send`
    would answer is passed in (`dial`, `reply`), and so is the current time
    (`now`, nanoseconds) and `time.ParseDuration` (`parseDuration`). */
module Connector {
  import opened Base
  import opened TtlCache
  import opened CachedFetch
  import Collect

  /** connector.ConnectionOptions. */
  datatype ConnectionOptions = ConnectionOptions(
    addr: string, rconPassword: string, connectTimeout: string, cacheTimeout: string)

  /** The option map a new connection keeps for reconnecting. */
  function OptionMap(opts: ConnectionOptions): (m: map<string, string>)
    ensures m.Keys == {"Address", "RCONPassword", "Timeout"}
    ensures m["Address"] == opts.addr && m["RCONPassword"] == opts.rconPassword
    ensures m["Timeout"] == opts.connectTimeout
  {
    map["Address" := opts.addr, "RCONPassword" := opts.rconPassword, "Timeout" := opts.connectTimeout]
  }

  /** The go-cache cleanup interval every connection is created with. */
  const CleanupInterval: int := 11 * Second

  class Connection {
    const name: string
    var con: Session
    var cache: Cache<string>
    const opts: map<string, string>
    var created: int

    constructor (name: string, con: Session, cache: Cache<string>, opts: map<string, string>, created: int)
      ensures this.name == name && this.con == con && this.cache == cache
      ensures this.opts == opts && this.created == created
    {
      this.name := name;
      this.con := con;
      this.cache := cache;
      this.opts := opts;
      this.created := created;
    }

    /** reconnect: dial the stored address again; keep the old session and its
        age when that fails. */
    method Reconnect(now: int, dial: Result<Session>) returns (err: Option<Error>)
      modifies this
      ensures dial.Err? ==> err == Some(dial.error) && con == old(con) && created == old(created)
      ensures dial.Ok? ==> err == None && con == dial.value && created == now
      ensures cache == old(cache)
    {
      if dial.Err? {
        return Some(dial.error);
      }
      con := dial.value;
      created := now;
      return None;
    }

    /** Get: the response to `cmd`, from the cache or from the server. `reply`
        says what sending `cmd` on a session would answer. */
    method Get(cmd: string, now: int, dial: Result<Session>, reply: Session -> Result<string>)
      returns (out: Result<string>)
      modifies this
      ensures var r := Fetch(old(cache), old(created), old(con), cmd, now, dial, reply);
        && out == r.out && cache == r.cache && created == r.created && con == r.session
    {
      var found := TtlCache.Get(cache, cmd, now);
      if found.None? {
        if Stale(created, now) {
          var err := Reconnect(now, dial);
          if err.Some? {
            return Err(err.value);
          }
          created := now;
        }
        var sent := reply(con);
        if sent.Err? {
          return Err(sent.error);
        }
        cache := Add(cache, cmd, sent.value, now);
        return Ok(sent.value);
      }
      return Ok(found.value);
    }
  }

  /** What admitting a new address needs, in the order NewConnection checks it:
      a session from the dial, then the connect timeout and the cache timeout
      parsed as durations. */
  function Admission(opts: ConnectionOptions, dial: Result<Session>, parseDuration: string -> Option<int>)
    : (r: Result<(Session, int, int)>)
    ensures dial.Err? ==> r == Err(dial.error)
    ensures dial.Ok? && parseDuration(opts.connectTimeout).None? ==> r == Err(BadDuration(opts.connectTimeout))
    ensures dial.Ok? && parseDuration(opts.connectTimeout).Some? && parseDuration(opts.cacheTimeout).None?
      ==> r == Err(BadDuration(opts.cacheTimeout))
    ensures r.Ok? <==> dial.Ok? && parseDuration(opts.connectTimeout).Some? && parseDuration(opts.cacheTimeout).Some?
    ensures r.Ok? ==> r.value == (dial.value, parseDuration(opts.connectTimeout).value, parseDuration(opts.cacheTimeout).value)
  {
    if dial.Err? then Err(dial.error)
    else if parseDuration(opts.connectTimeout).None? then Err(BadDuration(opts.connectTimeout))
    else if parseDuration(opts.cacheTimeout).None? then Err(BadDuration(opts.cacheTimeout))
    else Ok((dial.value, parseDuration(opts.connectTimeout).value, parseDuration(opts.cacheTimeout).value))
  }

  class Connector {
    var connections: map<string, Connection>

    /** NewConnector: an empty registry. */
    constructor ()
      ensures connections == map[]
    {
      connections := map[];
    }

    /** GetConnections: the registry itself, and never an error. */
    method GetConnections() returns (cs: map<string, Connection>, err: Option<Error>)
      ensures cs == connections && err == None
    {
      return connections, None;
    }

    /** NewConnection: register a connection under `opts.addr`, unless one is
        there already. `name` is only stored in the new connection. */
    method NewConnection(name: string, opts: ConnectionOptions, now: int,
                         dial: Result<Session>, parseDuration: string -> Option<int>)
      returns (err: Option<Error>)
      modifies this
      ensures opts.addr in old(connections) ==> err == None && connections == old(connections)
      ensures opts.addr !in old(connections) && Admission(opts, dial, parseDuration).Err? ==>
        err == Some(Admission(opts, dial, parseDuration).error) && connections == old(connections)
      ensures opts.addr !in old(connections) && Admission(opts, dial, parseDuration).Ok? ==>
        && err == None
        && opts.addr in connections
        && connections == old(connections)[opts.addr := connections[opts.addr]]
        && fresh(connections[opts.addr])
        && var (session, connectTimeout, cacheTimeout) := Admission(opts, dial, parseDuration).value;
           var c := connections[opts.addr];
           && c.name == name && c.con == session && c.opts == OptionMap(opts)
           && c.cache == TtlCache.New(cacheTimeout, CleanupInterval)
           && c.created == now + connectTimeout
    {
      if opts.addr in connections {
        return None;
      }
      if dial.Err? {
        return Some(dial.error);
      }
      var connectTimeout := parseDuration(opts.connectTimeout);
      if connectTimeout.None? {
        return Some(BadDuration(opts.connectTimeout));
      }
      var cacheTimeout := parseDuration(opts.cacheTimeout);
      if cacheTimeout.None? {
        return Some(BadDuration(opts.cacheTimeout));
      }
      var c := new Connection(name, dial.value, TtlCache.New(cacheTimeout.value, CleanupInterval),
                              OptionMap(opts), now + connectTimeout.value);
      connections := connections[opts.addr := c];
      return None;
    }

    /** CloseAll: Close every registered connection once, in the map's (unspecified)
        order. `closed` lists the addresses in the order their connections were closed. */
    method CloseAll() returns (closed: seq<string>)
      ensures forall a :: a in closed <==> a in connections
      ensures forall i, j :: 0 <= i < j < |closed| ==> closed[i] != closed[j]
      ensures |closed| == |connections|
    {
      closed := Collect.RangeKeys(connections);
    }
  }
}
