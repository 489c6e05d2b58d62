/** The start-up logic of cmd/srcds_exporter: which collectors to run and the
    connections to open. The collector factories are the registry
    collector.Factories (name to what calling the factory gives); opening a
    connection goes through Connector.NewConnection, with what each dial would
    answer passed in per server and attempt. */
module Exporter {
  import opened Base
  import opened Text
  import Connector
  import Collect
  import TtlCache

  /** The names the collector package registers. */
  const Registered: set<string> := {"map", "playercount", "players"}

  /** The `collectors.enabled` default. */
  const DefaultCollectors: string := "map,playercount"

  // ---------------------------------------------------------------------------
  // filterAvailableCollectors

  /** The names that are available, in their order, duplicates included. */
  function Available(names: seq<string>, available: set<string>): (kept: seq<string>)
    ensures |kept| <= |names|
  {
    if names == [] then []
    else
      var last := names[|names| - 1];
      Available(names[..|names| - 1], available) + (if last in available then [last] else [])
  }

  /** filterAvailableCollectors: the comma-separated names that are available,
      joined again with commas. */
  method FilterAvailableCollectors(collectors: string, available: set<string>) returns (r: string)
    ensures r == Join(Available(Split(collectors, ','), available), ',')
  {
    var names := Split(collectors, ',');
    var kept: seq<string> := [];
    for i := 0 to |names|
      invariant kept == Available(names[..i], available)
    {
      assert names[..i + 1][..i] == names[..i];
      if names[i] in available {
        kept := kept + [names[i]];
      }
    }
    assert names[..|names|] == names;
    r := Join(kept, ',');
  }

  /** Filtering keeps order: it distributes over concatenation. */
  lemma {:induction false} AvailableAppend(a: seq<string>, b: seq<string>, available: set<string>)
    ensures Available(a + b, available) == Available(a, available) + Available(b, available)
  {
    if b != [] {
      var init := b[..|b| - 1];
      assert (a + b)[..|a + b| - 1] == a + init;
      AvailableAppend(a, init, available);
    } else {
      assert a + b == a;
    }
  }

  /** Exactly the available names are kept, each as often as it is listed. */
  lemma {:induction false} AvailableCounts(names: seq<string>, available: set<string>)
    ensures forall n :: multiset(Available(names, available))[n]
                     == if n in available then multiset(names)[n] else 0
  {
    if names != [] {
      var init := names[..|names| - 1];
      AvailableCounts(init, available);
      assert names == init + [names[|names| - 1]];
    }
  }

  /** No available name at all gives the empty list, which joins to "". */
  lemma {:induction false} NoneAvailable(names: seq<string>, available: set<string>)
    requires forall i :: 0 <= i < |names| ==> names[i] !in available
    ensures Available(names, available) == []
    ensures Join(Available(names, available), ',') == ""
  {
    if names != [] {
      NoneAvailable(names[..|names| - 1], available);
    }
  }

  /** When every listed name is available the filter gives the list back. */
  lemma {:induction false} AllAvailable(names: seq<string>, available: set<string>)
    requires forall i :: 0 <= i < |names| ==> names[i] in available
    ensures Available(names, available) == names
  {
    if names != [] {
      AllAvailable(names[..|names| - 1], available);
    }
  }

  /** The filtered list splits back into the kept names, so it can be handed on
      to loadCollectors. */
  lemma FilteredSplits(collectors: string, available: set<string>)
    requires Available(Split(collectors, ','), available) != []
    ensures Split(Join(Available(Split(collectors, ','), available), ','), ',')
         == Available(Split(collectors, ','), available)
  {
    var names := Split(collectors, ',');
    var kept := Available(names, available);
    AvailableCounts(names, available);
    forall i | 0 <= i < |kept| ensures ',' !in kept[i] {
      assert multiset(kept)[kept[i]] > 0;
      assert kept[i] in multiset(names);
      var j :| 0 <= j < |names| && names[j] == kept[i];
    }
    SplitJoin(kept, ',');
  }

  // ---------------------------------------------------------------------------
  // loadCollectors

  /** What loadCollectors returns for the listed names: the first name without
      a factory, or the first factory error, stops it; otherwise one collector
      per name. */
  function Loaded<C>(names: seq<string>, factories: map<string, Result<C>>): Result<map<string, C>>
  {
    if names == [] then Ok(map[])
    else
      var name := names[|names| - 1];
      match Loaded(names[..|names| - 1], factories)
      case Err(e) => Err(e)
      case Ok(m) =>
        if name !in factories then Err(CollectorUnavailable(name))
        else if factories[name].Err? then Err(factories[name].error)
        else Ok(m[name := factories[name].value])
  }

  /** A name that can be loaded: it has a factory and the factory succeeds. */
  predicate Loadable<C>(name: string, factories: map<string, Result<C>>)
  {
    name in factories && factories[name].Ok?
  }

  method LoadCollectors<C>(list: string, factories: map<string, Result<C>>) returns (r: Result<map<string, C>>)
    ensures r == Loaded(Split(list, ','), factories)
  {
    var names := Split(list, ',');
    var collectors: map<string, C> := map[];
    for i := 0 to |names|
      invariant Loaded(names[..i], factories) == Ok(collectors)
    {
      var name := names[i];
      assert names[..i + 1][..i] == names[..i];
      if name !in factories {
        LoadedStops(names, i + 1, factories);
        return Err(CollectorUnavailable(name));
      }
      if factories[name].Err? {
        LoadedStops(names, i + 1, factories);
        return Err(factories[name].error);
      }
      collectors := collectors[name := factories[name].value];
    }
    assert names[..|names|] == names;
    return Ok(collectors);
  }

  /** An error among the first n names is the error of the whole list. */
  lemma {:induction false} LoadedStops<C>(names: seq<string>, n: nat, factories: map<string, Result<C>>)
    requires n <= |names| && Loaded(names[..n], factories).Err?
    ensures Loaded(names, factories) == Loaded(names[..n], factories)
  {
    if n < |names| {
      var init := names[..|names| - 1];
      assert init[..n] == names[..n];
      LoadedStops(init, n, factories);
    } else {
      assert names[..n] == names;
    }
  }

  /** Loading succeeds exactly when every listed name is loadable; then there
      is one entry per distinct name, holding what its factory made. */
  lemma {:induction false} LoadedOk<C>(names: seq<string>, factories: map<string, Result<C>>)
    ensures Loaded(names, factories).Ok? <==> forall i :: 0 <= i < |names| ==> Loadable(names[i], factories)
    ensures Loaded(names, factories).Ok? ==>
      && (forall n :: n in Loaded(names, factories).value <==> n in names)
      && (forall n :: n in Loaded(names, factories).value ==>
            Loaded(names, factories).value[n] == factories[n].value)
  {
    if names != [] {
      var init := names[..|names| - 1];
      LoadedOk(init, factories);
      assert forall i :: 0 <= i < |init| ==> init[i] == names[i];
      assert names == init + [names[|names| - 1]];
    }
  }

  /** The error names the first listed name that is not available, when every
      name before it loads. */
  lemma FirstUnavailable<C>(names: seq<string>, k: nat, factories: map<string, Result<C>>)
    requires k < |names| && names[k] !in factories
    requires forall i :: 0 <= i < k ==> Loadable(names[i], factories)
    ensures Loaded(names, factories) == Err(CollectorUnavailable(names[k]))
  {
    LoadedOk(names[..k], factories);
    assert names[..k + 1][..k] == names[..k];
    LoadedStops(names, k + 1, factories);
  }

  // ---------------------------------------------------------------------------
  // loadConnections

  /** A server entry of the exporter's configuration file. */
  datatype Server = Server(address: string, rconPassword: string)

  /** The `options` of the exporter's configuration file. */
  datatype Options = Options(rconTimeout: string, cacheTimeout: string)

  /** The options every connection to `server` is opened with. */
  function OptionsFor(server: Server, options: Options): Connector.ConnectionOptions
  {
    Connector.ConnectionOptions(server.address, server.rconPassword, options.rconTimeout, options.cacheTimeout)
  }

  const MaxAttempts: nat := 5

  /** Whether NewConnection attempt `i` succeeds: the address is registered
      already, or the attempt's dial and both durations work out. A failed
      attempt changes nothing, so every attempt sees the same registry. */
  predicate AttemptSucceeds(present: bool, opts: Connector.ConnectionOptions,
                            dial: nat -> Result<Session>, parseDuration: string -> Option<int>, i: nat)
  {
    present || Connector.Admission(opts, dial(i), parseDuration).Ok?
  }

  /** The first of the attempts from `i` on that succeeds, or MaxAttempts. */
  function FirstSuccess(present: bool, opts: Connector.ConnectionOptions,
                        dial: nat -> Result<Session>, parseDuration: string -> Option<int>, i: nat): (k: nat)
    requires i <= MaxAttempts
    ensures i <= k <= MaxAttempts
    ensures k < MaxAttempts ==> AttemptSucceeds(present, opts, dial, parseDuration, k)
    ensures forall j :: i <= j < k ==> !AttemptSucceeds(present, opts, dial, parseDuration, j)
    decreases MaxAttempts - i
  {
    if i == MaxAttempts then MaxAttempts
    else if AttemptSucceeds(present, opts, dial, parseDuration, i) then i
    else FirstSuccess(present, opts, dial, parseDuration, i + 1)
  }

  /** The retry loop of loadConnections for one server: NewConnection until it
      succeeds, at most five times. Attempt i reads the clock as `now(i)` and
      gets `dial(i)` from the transport. */
  method ConnectWithRetry(connector: Connector.Connector, name: string, opts: Connector.ConnectionOptions,
                          now: nat -> int, dial: nat -> Result<Session>, parseDuration: string -> Option<int>)
    returns (err: Option<Error>, attempts: nat)
    modifies connector
    ensures var k := FirstSuccess(opts.addr in old(connector.connections), opts, dial, parseDuration, 0);
      && attempts == (if k < MaxAttempts then k + 1 else MaxAttempts)
      && (err.None? <==> k < MaxAttempts)
      && (err.Some? ==> err == Some(Connector.Admission(opts, dial(MaxAttempts - 1), parseDuration).error))
    ensures err.None? ==> opts.addr in connector.connections
    ensures connector.connections.Keys == old(connector.connections).Keys + (if err.None? then {opts.addr} else {})
    ensures forall a :: a in old(connector.connections) ==> connector.connections[a] == old(connector.connections)[a]
    ensures err.None? && opts.addr !in old(connector.connections) ==>
      var k := FirstSuccess(false, opts, dial, parseDuration, 0);
      var admitted := Connector.Admission(opts, dial(k), parseDuration);
      var c := connector.connections[opts.addr];
      && k < MaxAttempts && admitted.Ok? && fresh(c)
      && c.name == name && c.con == admitted.value.0 && c.opts == Connector.OptionMap(opts)
      && c.cache == TtlCache.New(admitted.value.2, Connector.CleanupInterval)
      && c.created == now(k) + admitted.value.1
  {
    ghost var present := opts.addr in connector.connections;
    attempts := 0;
    err := None;
    while attempts < MaxAttempts
      invariant attempts <= MaxAttempts
      invariant connector.connections == old(connector.connections)
      invariant forall j :: 0 <= j < attempts ==> !AttemptSucceeds(present, opts, dial, parseDuration, j)
      invariant attempts > 0 ==> !present && Connector.Admission(opts, dial(attempts - 1), parseDuration).Err?
      invariant attempts > 0 ==> err == Some(Connector.Admission(opts, dial(attempts - 1), parseDuration).error)
    {
      err := connector.NewConnection(name, opts, now(attempts), dial(attempts), parseDuration);
      attempts := attempts + 1;
      if err.None? {
        FirstSuccessIs(present, opts, dial, parseDuration, attempts - 1);
        return;
      }
    }
    FirstSuccessIs(present, opts, dial, parseDuration, MaxAttempts);
  }

  /** FirstSuccess from 0 is k when attempts 0..k-1 fail and k succeeds (or k is MaxAttempts). */
  lemma FirstSuccessIs(present: bool, opts: Connector.ConnectionOptions,
                       dial: nat -> Result<Session>, parseDuration: string -> Option<int>, k: nat)
    requires k <= MaxAttempts
    requires forall j :: 0 <= j < k ==> !AttemptSucceeds(present, opts, dial, parseDuration, j)
    requires k < MaxAttempts ==> AttemptSucceeds(present, opts, dial, parseDuration, k)
    ensures FirstSuccess(present, opts, dial, parseDuration, 0) == k
  {
  }

  /** loadConnections: connect every configured server, in the map's order;
      a server that cannot be connected in five attempts is fatal and stops
      the exporter, which the model reports as the error of its last attempt.
      Attempt i for server `name` reads the clock as `now(name, i)`. */
  method LoadConnections(connector: Connector.Connector, servers: map<string, Server>, options: Options,
                         now: (string, nat) -> int, dial: (string, nat) -> Result<Session>, parseDuration: string -> Option<int>)
    returns (fatal: Option<Error>)
    modifies connector
    ensures fatal.None? ==> forall name :: name in servers ==> servers[name].address in connector.connections
    ensures old(connector.connections).Keys <= connector.connections.Keys
    ensures forall a :: a in old(connector.connections) ==> connector.connections[a] == old(connector.connections)[a]
    ensures forall a :: a in connector.connections && a !in old(connector.connections) ==>
      exists name :: name in servers && servers[name].address == a && connector.connections[a].name == name
    ensures fatal.Some? ==>
      exists name :: name in servers && servers[name].address !in old(connector.connections)
        && (forall i :: 0 <= i < MaxAttempts ==>
              Connector.Admission(OptionsFor(servers[name], options), dial(name, i), parseDuration).Err?)
        && fatal == Some(Connector.Admission(OptionsFor(servers[name], options), dial(name, MaxAttempts - 1), parseDuration).error)
  {
    var left := servers.Keys;
    while left != {}
      invariant left <= servers.Keys
      invariant forall name :: name in servers && name !in left ==> servers[name].address in connector.connections
      invariant old(connector.connections).Keys <= connector.connections.Keys
      invariant forall a :: a in old(connector.connections) ==> connector.connections[a] == old(connector.connections)[a]
      invariant forall a :: a in connector.connections && a !in old(connector.connections) ==>
        exists name :: name in servers && servers[name].address == a && connector.connections[a].name == name
      decreases left
    {
      var name := Collect.Pick(left);
      var err, _ := ConnectWithRetry(connector, name, OptionsFor(servers[name], options),
                                     (i: nat) => now(name, i), (i: nat) => dial(name, i), parseDuration);
      if err.Some? {
        ghost var o := OptionsFor(servers[name], options);
        ghost var d := (i: nat) => dial(name, i);
        assert forall j :: 0 <= j < MaxAttempts ==> !AttemptSucceeds(o.addr in connector.connections, o, d, parseDuration, j);
        assert forall j :: 0 <= j < MaxAttempts ==> d(j) == dial(name, j);
        return err;
      }
      left := left - {name};
    }
    return None;
  }

  /** The default collector list is kept whole by the registered names. */
  lemma DefaultCollectorsAvailable()
    ensures Join(Available(Split(DefaultCollectors, ','), Registered), ',') == DefaultCollectors
  {
    var names: seq<string> := ["map", "playercount"];
    assert Join(names, ',') == DefaultCollectors by {
      JoinPair("map", "playercount", ',');
    }
    SplitJoin(names, ',');
    AllAvailable(Split(DefaultCollectors, ','), Registered);
  }

  lemma JoinPair(a: string, b: string, sep: char)
    ensures Join([a, b], sep) == a + [sep] + b
  {
    assert [a, b][1..] == [b];
  }
}
