# srcds_exporter: status parsing, cached connections and registry bookkeeping

A Dafny model of the core of `srcds_exporter`, a Prometheus exporter for
Source dedicated servers (SRCDS). The exporter sends the `status` command over
RCON, or asks for the server's info record over the A2S server query protocol.
It caches each answer for a short time per connection and turns the reply text
into a hostname, version, map name, player count and player table.

The model has these modules:

- `Text`: the character classes and line anchors of Go's RE2 syntax (`\s` also
  matches a line break, `.` does not, `(?m)^` is the start of any line), the
  leftmost search of `FindStringSubmatch` and the resuming search of
  `FindAllStringSubmatch`, `strconv.Atoi` on digit strings, NUL stripping, and
  `strings.Split` / `strings.Join`.
- `Parser` (parser/parser.go): each regular expression is written out as a
  hand-written recogniser. The map, player-count and player-line patterns are
  then proved to read back what a server prints: both player-count dialects,
  player rows with or without an address, and any non-blank Steam ID token.
- `LegacyParser` (main.go): the older fixed-line-position parser with its
  stricter patterns. The inputs on which Go would panic become preconditions.
- `Collect`: building a Go map from a list of records, where a later record
  overwrites an earlier one with the same key, and `range` over a map in an
  unspecified order.
- `TtlCache`: the part of go-cache the connections use (`New`, `Get`, `Add`
  with the default expiration).
- `CachedFetch`: the read-through step that connection.go, rcon.go and
  serverquery.go each write out. A hit answers from the cache. A miss
  reconnects only when more than five whole Unix seconds have passed since
  `created`, then sends. Only a successful answer is cached.
- `Connector` (connector/connection.go, connector/connector.go): the
  `Connection` class with `Get` and `reconnect`, and the `Connector` registry,
  keyed by address.
- `Connections` (connector/connections): the `Rcon` and `ServerQuery`
  backends. A panic that `getInfo` recovers becomes a `Panicked` reply, read as
  a nil info record.
- `Metrics` (metrics.go): moving per-player counters between the tracked map
  and the pending-removal map.
- `Exporter` (cmd/srcds_exporter): filtering and loading collectors, and the
  bounded retry loop of `loadConnections`.

The clock is an integer count of nanoseconds passed in as `now`; where Go
reads it once per connection attempt, the model takes one reading per attempt. The transport
is passed in as its answers: `dial` for a connect, `reply` for a send, and
`fetch` for an info request. `time.ParseDuration` is the parameter
`parseDuration`.

## Model

| member | source | states |
|---|---|---|
| `Parser.ParseHostname` | parser/parser.go:37-43 | the value after `hostname\s*: ` on the first line that starts so, up to the end of that line (so never a line break); `""` when no line matches |
| `Parser.HostnameLine` | parser/parser.go:29 | a reply starting `hostname`, blanks, `: ` and a value yields exactly that value, whatever characters other than a line break it holds, non-ASCII ones included |
| `Parser.ParseVersion` | parser/parser.go:46-52 | the value of the first `version\s*: ` line; `""` when there is none |
| `Parser.VersionLine` | parser/parser.go:30 | a `version` line yields the rest of the line after `: ` |
| `Parser.ParseMap` | parser/parser.go:55-61 | the map name of the first matching `map` line, made only of `[a-zA-Z_0-9-]`; `""` when no line matches |
| `Parser.MapLine` | parser/parser.go:31 | `map : NAME` yields NAME, both at the end of the line and when a space and more text (e.g. spawn coordinates) follow |
| `Parser.MapNameStopsAtOtherCharacter` | parser/parser.go:31 | a name followed by a character outside the class that is not a space (e.g. `de_dust2.bsp`) matches nothing |
| `Parser.ParsePlayerCount` | parser/parser.go:64-118 | the only error is "no player count"; every parsed count has non-negative Current and Max, and either Humans = Bots = -1 or Humans + Bots = Current |
| `Parser.ParsePlayerCountFirstMatch` | parser/parser.go:65-117 | the error is returned exactly when no line matches either dialect; otherwise the count is that of the first matching line |
| `Parser.CountOfForm` | parser/parser.go:74-115 | from the first dialect's groups Current = N, Max = M, Humans = Bots = -1; from the second's Humans = H, Bots = B, Max = M, Current = H + B |
| `Parser.SimpleCountLine` | parser/parser.go:32 | `players : N (M max)` followed by anything gives Current N, Max M, Humans -1, Bots -1 |
| `Parser.SplitCountLine` | parser/parser.go:94-108 | `players : H humans, B bots (M max)`, also with `(M/x max)`, gives Humans H, Bots B, Max M and Current H + B |
| `Parser.NoCountWithoutPlayersLine` | parser/parser.go:117 | a reply without a line starting `players` gives the "no player count" error |
| `Parser.ParsePlayers` | parser/parser.go:121-158 | the result is that of PlayersOf: NULs removed, every player-line match stored under its Steam ID in order, or an error when there is none |
| `Parser.PlayersIgnoreNul` | parser/parser.go:122 | inserting a NUL anywhere in the reply does not change the result |
| `Parser.PlayersErrIff` | parser/parser.go:137-139 | the error is returned exactly when no line of the NUL-stripped reply matches the player pattern |
| `Parser.PlayersKeyedBySteamId` | parser/parser.go:140-157 | every match has an entry under its Steam ID, every entry comes from a match, and a match with no later match for the same Steam ID is the one kept |
| `Parser.RowParses` | parser/parser.go:33 | a well-formed player row, with any Steam ID token and with or without a trailing `IP:port`, is matched up to the end of its line with every column as its submatch |
| `Parser.TableMatches` | parser/parser.go:124 | in a reply made of rows, one per line, the search finds exactly the rows, in order |
| `Parser.TablePlayers` | parser/parser.go:124-157 | such a reply yields each row's player under its Steam ID; a row without an address has IP `""` and ConnPort 0 |
| `Text.StripNulIgnoresNul` | parser/parser.go:122 | removing NULs gives the same text whether or not a NUL was inserted |
| `Text.StripNulIdempotent` | parser/parser.go:122 | removing NULs twice is removing them once |
| `Text.FindFirstIsFirstMatch` | parser/parser.go:38 | the search returns the leftmost line start where the pattern matches, or nothing when none does |
| `Text.FindAllEmpty` | parser/parser.go:124 | the list of all matches is empty exactly when no line start matches |
| `Text.FindAllLines` | parser/parser.go:124 | when the text is a run of lines each matched whole, the search returns exactly their matches |
| `LegacyParser.ParseStatus` | main.go:154-165 | the status is read from lines 0, 1, 3 and 4 of the reply and the players from line 7 on, as main.go builds them (ConnPort being the first octet); it needs at least seven lines and a match on each of those lines |
| `LegacyParser.ReplyStatus` | main.go:154-165 | a reply laid out that way gives exactly the hostname, version, map name and count written in it, and each row's player with ConnPort set to its first octet, as main.go:219 does; the corrected map holds each row's port; lines 2, 5 and 6 are ignored |
| `LegacyParser.ParseHostname` | main.go:167-170 | the value of a matching line never holds a line break |
| `LegacyParser.ParseVersion` | main.go:172-175 | the value of a matching line never holds a line break |
| `LegacyParser.ParseMap` | main.go:177-180 | the map name is a non-empty run of letters and underscores |
| `LegacyParser.ParsePlayerCount` | main.go:182-197 | Current and Max of a matching line are never negative |
| `LegacyParser.HostnameOfLine` | main.go:167-170 | a line is accepted exactly when it starts with `hostname: `, and the value is the rest of it |
| `LegacyParser.VersionLine` | main.go:172-175 | `version`, any spaces and `: ` give the rest of the line |
| `LegacyParser.MapLine` | main.go:177-180 | the map name is the run of letters and underscores after `: `, so it stops at the first digit |
| `LegacyParser.CountLineParses` | main.go:182-197 | a whole `players : N (M max)` line gives Current N and Max M |
| `LegacyParser.CountNeedsWholeLine` | main.go:183 | any further text after `max)` on the line defeats the match |
| `LegacyParser.CountRejectsHumansAndBots` | main.go:183 | the `H humans, B bots` dialect is not recognised |
| `LegacyParser.ParsePlayers` | main.go:199-234 | the loop builds the map main.go builds: each non-empty line's player under its numeric user id, a later line overwriting an earlier one, ConnPort being the first octet of the address |
| `LegacyParser.PlayerAsWritten` | main.go:219-231 | the record main.go builds from a match agrees with the corrected record in every field but ConnPort |
| `LegacyParser.AsWrittenDiffersOnlyInPort` | main.go:199-234 | the map as written and the corrected map hold the same user ids, and under each id the same player but for ConnPort |
| `LegacyParser.PlayersSnoc` | main.go:202-231 | one more line of the corrected map: an empty one changes nothing, any other one stores its player under its user id |
| `LegacyParser.EmptyLinesIgnored` | main.go:204-206 | an empty line anywhere in the table leaves the corrected map unchanged |
| `LegacyParser.RowParses` | main.go:200 | a row with a `STEAM_[0-1]:[0-1]:digits` id, dotted IPv4 address and port is matched with each column as its submatch |
| `LegacyParser.RowsPlayers` | main.go:200-231 | rows printed one per line give, in the corrected map, each row's username, Steam ID, state, ping, loss, IP and port under its user id; in the map as written, the same with ConnPort the first octet |
| `LegacyParser.OctetBound` | main.go:200 | an octet accepted by the address pattern is at most 256 |
| `LegacyParser.ConnPortIsFirstOctet` | main.go:219-230 | the record as written takes ConnPort from the first octet of the address; the corrected record takes it from the port |
| `LegacyParser.ConnPortCounterexample` | main.go:219 | a player at 192.168.1.5:27005 is recorded with ConnPort 192 as written, 27005 corrected |
| `Collect.FromSeqKeys` | parser/parser.go:146 | the keys of the built map are exactly the keys of the inserted records |
| `Collect.FromSeqLastWins` | parser/parser.go:146 | a record that no later record shares a key with is the value kept under its key |
| `Collect.InsertAll` | parser/parser.go:140-156 | the insertion loop builds exactly FromSeq of the records |
| `Collect.InsertLineMatches` | main.go:202-232 | the per-line loop skips empty lines and inserts each other line's match |
| `Collect.RangeKeys` | connector/connector.go:87 | `range` over a map visits every key exactly once |
| `Base.StaleAfterSixSeconds` | connector/connection.go:65 | six seconds or more after `created` the connection counts as stale |
| `Base.FreshWithinFiveSeconds` | connector/connection.go:65 | up to five seconds after `created` it does not |
| `TtlCache.New` | connector/connector.go:74 | a new cache answers no key, and keeps the expiration and cleanup interval it was given |
| `TtlCache.AddThenGet` | connector/connection.go:75-77 | a value added on a miss is what Get returns until it expires |
| `TtlCache.AddThenExpire` | connector/connector.go:74 | with a positive expiration the value is gone once that time has passed |
| `TtlCache.AddOtherKey` | connector/connection.go:75 | adding under one key changes no other key |
| `TtlCache.AddKeepsLive` | connector/connection.go:75 | adding over a live entry changes nothing |
| `TtlCache.GetMonotone` | connector/connection.go:63 | a hit at some time is the same hit at every earlier time |
| `CachedFetch.Fetch` | connector/connection.go:59-78 | a hit answers the cached value; only a miss reconnects or sends; a sent request answers what the send gave; a success is what the cache then holds for the key; an error leaves the cache as it was |
| `CachedFetch.HitIsLocal` | connector/connection.go:63-77 | a hit returns the cached string with no reconnect and no send, and changes nothing |
| `CachedFetch.RedialOnlyWhenStale` | connector/connection.go:65 | reconnect runs exactly on a miss more than five Unix seconds after `created` |
| `CachedFetch.FreshMissKeepsSession` | connector/connection.go:71-74 | a miss within five seconds sends on the current session and keeps it and `created` |
| `CachedFetch.FailedRedialChangesNothing` | connector/connection.go:66-68 | a failed reconnect returns its error, sends nothing, caches nothing and keeps session and `created` |
| `CachedFetch.RedialRenewsSession` | connector/connection.go:65-70 | a successful reconnect replaces the session, sets `created` to now and sends on the new session |
| `CachedFetch.ErrorCachesNothing` | connector/connection.go:66-74 | whenever the result is an error the cache is unchanged |
| `CachedFetch.OtherKeysUntouched` | connector/connection.go:75 | only the requested key can change in the cache |
| `CachedFetch.RepeatIsCached` | connector/connection.go:75-77 | after a successful send, a repeat of the same key before expiry returns the same answer with no network use, whatever the transport would now say |
| `Connector.Connection.Reconnect` | connector/connection.go:46-57 | on a dial error the error is returned and session and `created` are kept; on success the session is replaced and `created` is now |
| `Connector.Connection.Get` | connector/connection.go:60-78 | the answer and the new cache, session and `created` are those of the read-through step |
| `Connector.Connector.constructor` | connector/connector.go:33-37 | the registry starts empty |
| `Connector.Connector.GetConnections` | connector/connector.go:40-42 | the live map, never an error |
| `Connector.Admission` | connector/connector.go:49-68 | a dial error, then a bad connect timeout, then a bad cache timeout is the error, in that order; otherwise the session and both durations |
| `Connector.OptionMap` | connector/connector.go:75-79 | the stored option map holds the address, password and timeout under their three keys |
| `Connector.Connector.NewConnection` | connector/connector.go:45-83 | a registered address changes nothing and gives no error; an admission error adds nothing; otherwise one new connection under `opts.Addr` with the name, session, cache of the parsed cache timeout and 11 s cleanup, and `created` = now + connect timeout |
| `Connector.Connector.CloseAll` | connector/connector.go:86-90 | every registered connection is closed exactly once |
| `Connections.Rcon.constructor` | connector/connections/rcon.go:38-44 | no session, `created` = now, a cache built from the options |
| `Connections.Rcon.Reconnect` | connector/connections/rcon.go:46-59 | dials only outside ServerQuery mode; a dial error leaves session and `created` untouched; otherwise `created` becomes now |
| `Connections.Rcon.RunCommand` | connector/connections/rcon.go:67-85 | the answer and new state are those of the read-through step, reconnecting through Reconnect |
| `Connections.Rcon.GetMap` | connector/connections/rcon.go:88-95 | ParseMap of the `status` answer, or the fetch error |
| `Connections.Rcon.GetPlayerCount` | connector/connections/rcon.go:98-110 | ParsePlayerCount of the `status` answer, or the fetch error |
| `Connections.Rcon.GetPlayers` | connector/connections/rcon.go:112-123 | ParsePlayers of the `status` answer, or the fetch error |
| `Connections.NoSessionYet` | connector/connections/rcon.go:79 | a backend with no session that misses within five seconds of creation fails and caches nothing |
| `Connections.ServerQueryModeNeverDials` | connector/connections/rcon.go:47-58 | in ServerQuery mode a stale miss keeps the session and only resets `created` |
| `Connections.ServerQuery.constructor` | connector/connections/serverquery.go:38-45 | no session, `created` = now, a cache built from the options |
| `Connections.ServerQuery.Reconnect` | connector/connections/serverquery.go:47-61 | only when stale: the old session is closed, a new one opened and `created` set; otherwise nothing changes |
| `Connections.ServerQuery.GetInfo` | connector/connections/serverquery.go:68-84 | the record cached under `"data"`, or fetched and cached; nil with nothing cached when the fetch panics |
| `Connections.ServerQuery.GetMap` | connector/connections/serverquery.go:87-94 | the info record's map, `""` when there is no record |
| `Connections.MapOfInfo` | connector/connections/serverquery.go:89-93 | no record gives `""`, otherwise the record's map name |
| `Connections.ServerQuery.GetPlayerCount` | connector/connections/serverquery.go:97-111 | the count mapped from the info record, nil when there is none |
| `Connections.CountOfInfoFields` | connector/connections/serverquery.go:103-108 | Current and Humans are both Players, Max is MaxPlayers, Bots is Bots |
| `Connections.CountOfInfoSplitIffNoBots` | connector/connections/serverquery.go:103-108 | such a count keeps Humans + Bots = Current exactly when the server has no bots |
| `Connections.ServerQuery.GetPlayers` | connector/connections/serverquery.go:113-115 | always nil and no error |
| `Metrics.Registry.UpdatePlayers` | metrics.go:112-159 | the tracked and pending maps become NextTracked and NextPending of the old maps and the players |
| `Metrics.Registry.BringPresentIn` | metrics.go:114-148 | every present player ends up tracked with its kept counter and leaves the pending map; nothing else changes |
| `Metrics.Registry.MoveAbsentOut` | metrics.go:149-158 | every tracked id not present moves with its counter to the pending map |
| `Metrics.TrackedArePlayers` | metrics.go:112-158 | afterwards the tracked ids are exactly the players' ids, and no player's id is pending |
| `Metrics.PresentPlayerCounter` | metrics.go:115-147 | a returning id gets its pending counter back, a tracked id keeps its counter, any other id gets a new one |
| `Metrics.AbsentPlayerCounter` | metrics.go:149-153 | an absent tracked id is pending with its counter; an absent pending id stays pending unchanged; nothing else is pending |
| `Metrics.NothingLost` | metrics.go:114-158 | every id that had a counter still has one, in exactly one of the two maps |
| `Metrics.UpdateIdempotent` | metrics.go:112-158 | repeating an update with the same players changes nothing |
| `Metrics.Registry.Cleanup` | metrics.go:161-168 | every pending counter, maps first, is unregistered once, and neither map loses an entry |
| `Exporter.FilterAvailableCollectors` | cmd/srcds_exporter/srcds_exporter.go:172-181 | the result is the available names of the list, in order, joined with commas |
| `Exporter.AvailableCounts` | cmd/srcds_exporter/srcds_exporter.go:173-179 | each available name is kept as often as it is listed, every other name dropped |
| `Exporter.AvailableAppend` | cmd/srcds_exporter/srcds_exporter.go:174-178 | filtering keeps the order: it distributes over concatenation |
| `Exporter.NoneAvailable` | cmd/srcds_exporter/srcds_exporter.go:180 | no available name gives `""` |
| `Exporter.AllAvailable` | cmd/srcds_exporter/srcds_exporter.go:174-179 | a list of available names is kept whole |
| `Exporter.FilteredSplits` | cmd/srcds_exporter/srcds_exporter.go:180 | the joined result splits back into the kept names |
| `Exporter.DefaultCollectorsAvailable` | cmd/srcds_exporter/srcds_exporter.go:44 | the default list `map,playercount` passes the filter unchanged |
| `Exporter.LoadCollectors` | cmd/srcds_exporter/srcds_exporter.go:200-214 | the result is Loaded of the comma-separated names |
| `Exporter.LoadedOk` | cmd/srcds_exporter/srcds_exporter.go:201-213 | loading succeeds exactly when every name has a working factory, and then holds one entry per distinct name |
| `Exporter.LoadedStops` | cmd/srcds_exporter/srcds_exporter.go:204-210 | the first error among the names is the error of the whole list |
| `Exporter.FirstUnavailable` | cmd/srcds_exporter/srcds_exporter.go:203-206 | the error names the first unavailable collector |
| `Exporter.FirstSuccess` | cmd/srcds_exporter/srcds_exporter.go:219-229 | the first successful attempt, or 5 when all attempts fail |
| `Exporter.ConnectWithRetry` | cmd/srcds_exporter/srcds_exporter.go:219-232 | at most five NewConnection attempts, stopping at the first success; failure after five is the last attempt's error and adds nothing; entries already registered are kept as they were; a new entry is a fresh Connection holding the server's name, the session of the first successful attempt, the option map, a new cache with the cache timeout and `created` = the clock reading of that attempt + the connect timeout |
| `Exporter.LoadConnections` | cmd/srcds_exporter/srcds_exporter.go:216-236 | on success every configured server's address is registered; entries already registered keep their Connection; every added entry is under a configured server's address and carries that server's name; a fatal error is returned only for a configured server whose address was not registered before and whose five attempts all fail, and it is the error of that server's fifth attempt |
| `Text.SplitJoin` | cmd/srcds_exporter/srcds_exporter.go:174 | splitting a joined list of separator-free names gives the list back |
| `Text.JoinSplit` | cmd/srcds_exporter/srcds_exporter.go:180 | joining the pieces of a split gives the text back |

## Left out

- Concurrency: the `cmu` mutexes, the WaitGroup fan-out in `Collect` and the go-cache janitor goroutine. Each operation is one atomic step.
- The cache cleanup interval is kept only as configuration. An expired entry is simply no longer returned by `Get`.
- Sockets, RCON authentication and the A2S protocol: the transport is its answers (`dial`, `reply`, `newSession`, `fetch`). Only the session that `Close` is called on is reported.
- `Close` on `Connection`, `RCON` and `ServerQuery` only delegates to the transport and is not modelled on its own.
- The wall clock and Unix-second truncation: time is an integer nanosecond count, and seconds are `now / 1e9`.
- `time.ParseDuration` is an opaque partial function passed in as `parseDuration`.
- `strconv.Atoi` overflow: integers are unbounded, and only digit strings reach it.
- Connections.Rcon.RunCommand: a send on a session that was never opened is a nil-pointer panic in Go. The model returns the error `NilSession` instead.
- LegacyParser.ParseStatus: the Go code panics on a reply that does not fit the layout. The model makes that layout a precondition.
- Exporter.LoadConnections: `log.Fatalf` ends the process. The model returns the last attempt's error instead.
- Exporter.LoadCollectors: each factory is represented by what calling it gives.
- Metrics: Prometheus counters are opaque values labelled by Steam ID. `Inc`, `Register`, `Unregister`, the `server` label, `initMetrics` and `updateMetrics` are not modelled.
- HTTP serving, signal handling, YAML and flag loading, the `collector` package, `execute` and `main.go`'s `updateMetrics`.
- Text is a sequence of characters, not UTF-8 bytes, and no recogniser looks at a character outside its own ASCII classes.

## Findings

| source | as written | input that shows it | evidently intended | confidence | as-written member | corrected member |
|---|---|---|---|---|---|---|
| main.go:219 | ConnPort is `strconv.Atoi(m[11])`, and group 11 of the player pattern is the first octet of the address | a row ending `192.168.1.5:27005` gives ConnPort 192 | ConnPort from the port group `m[17]`, i.e. 27005 | high, not executed | `LegacyParser.ConnPortCounterexample` | `LegacyParser.RowsPlayers` |

`LegacyParser.ParsePlayers`, `LegacyParser.ParseStatus` and `LegacyParser.StatusOf`
model main.go as written, with ConnPort the first octet. `LegacyParser.Players` is
the corrected map, and `LegacyParser.AsWrittenDiffersOnlyInPort` proves that the
two differ only in ConnPort.
