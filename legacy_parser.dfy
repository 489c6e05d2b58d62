/** The older `status` parser of main.go. The reply is split into lines and each
    field is read from a line at a fixed position, with patterns stricter than
    those of package parser: blanks are only spaces, and every pattern is
    anchored at both ends of the line it reads. Where the Go code indexes into
    a match that does not exist it panics; those paths are preconditions here. */
module LegacyParser {
  import opened Base
  import opened Text
  import Collect

  /** PlayerCount of main.go. */
  datatype PlayerCount = PlayerCount(current: int, max: int)

  /** Player of main.go; the user id is the key of the map that holds it. */
  datatype Player = Player(
    username: string, steamId: string, state: string,
    ping: int, loss: int, ip: string, connPort: int)

  /** Status of main.go. */
  datatype Status = Status(
    hostname: string, version: string, mapName: string,
    playerCount: PlayerCount, players: map<int, Player>)

  predicate StartsWith(t: string, lit: string)
  {
    |lit| <= |t| && t[..|lit|] == lit
  }

  lemma StartsWithOf(lit: string, rest: string)
    ensures StartsWith(lit + rest, lit) && (lit + rest)[|lit|..] == rest
  {
    Halves(lit, rest);
  }

  // ---------------------------------------------------------------------------
  // hostname, version, map

  /** `hostname: (.*)$`: exactly one blank after the colon and none before it. */
  function HostnameAt(t: string): (r: Option<string>)
    ensures r.Some? ==> '\n' !in r.value
  {
    if StartsWith(t, "hostname: ") then Some(RestOfLine(t[10..])) else None
  }

  /** `version[ ]*: (.*)$` */
  function VersionAt(t: string): (r: Option<string>)
    ensures r.Some? ==> '\n' !in r.value
  {
    if StartsWith(t, "version") then
      var u := Skip(t[7..], Blank);
      if StartsWith(u, ": ") then Some(RestOfLine(u[2..])) else None
    else None
  }

  /** `map[ ]*: ([a-zA-Z_]+).*$`: the `.*` takes whatever else is on the line, so
      the name is the maximal run of letters and underscores. */
  function MapAt(t: string): (r: Option<string>)
    ensures r.Some? ==> Field(r.value, LetterOrUnderscore)
  {
    if StartsWith(t, "map") then
      var u := Skip(t[3..], Blank);
      if StartsWith(u, ": ") then
        match Take(u[2..], LetterOrUnderscore)
        case None => None
        case Some((name, _)) => Some(name)
      else None
    else None
  }

  /** `FindStringSubmatch(line)[1]`, which exists only when the pattern matches. */
  function Capture(line: string, at: string -> Option<string>): string
    requires FindFirst(line, 0, at).Some?
  {
    FindFirst(line, 0, at).value.1
  }

  function ParseHostname(line: string): (r: string)
    requires FindFirst(line, 0, HostnameAt).Some?
    ensures '\n' !in r
  {
    Capture(line, HostnameAt)
  }

  function ParseVersion(line: string): (r: string)
    requires FindFirst(line, 0, VersionAt).Some?
    ensures '\n' !in r
  {
    Capture(line, VersionAt)
  }

  function ParseMap(line: string): (r: string)
    requires FindFirst(line, 0, MapAt).Some?
    ensures Field(r, LetterOrUnderscore)
  {
    Capture(line, MapAt)
  }

  /** On a single line parseHostname succeeds exactly when the line starts with
      "hostname: ", and then returns everything after it. */
  lemma HostnameOfLine(line: string)
    requires '\n' !in line
    ensures FindFirst(line, 0, HostnameAt).Some? <==> StartsWith(line, "hostname: ")
    ensures StartsWith(line, "hostname: ") ==> ParseHostname(line) == line[10..]
  {
    SingleLine(line);
    assert line[0..] == line;
    if StartsWith(line, "hostname: ") {
      assert forall c :: c in line[10..] ==> c in line;
      assert line[10..] + "" == line[10..];
      RestOfLineOf(line[10..], "");
      FindAtStart(line, HostnameAt);
    } else {
      assert NoMatchFrom(line, 0, HostnameAt);
    }
  }

  /** A version line gives the rest of the line after ": ", whatever spaces stand
      before the colon. */
  lemma VersionLine(blanks: string, value: string, rest: string)
    requires AllIn(blanks, Blank) && '\n' !in value && AtEol(rest)
    ensures FindFirst("version" + (blanks + (": " + (value + rest))), 0, VersionAt).Some?
    ensures ParseVersion("version" + (blanks + (": " + (value + rest)))) == value
  {
    var after := ": " + (value + rest);
    var s := "version" + (blanks + after);
    assert VersionAt(s) == Some(value) by {
      StartsWithOf("version", blanks + after);
      SkipOf(blanks, after, Blank);
      StartsWithOf(": ", value + rest);
      RestOfLineOf(value, rest);
    }
    FindAtStart(s, VersionAt);
  }

  /** The map name is the run of letters and underscores after ": ", whatever
      follows it on the line: "map : de_dust2" reads as "de_dust". */
  lemma MapLine(blanks: string, name: string, tail: string)
    requires AllIn(blanks, Blank) && Field(name, LetterOrUnderscore)
    requires tail == [] || !In(tail[0], LetterOrUnderscore)
    ensures FindFirst("map" + (blanks + (": " + (name + tail))), 0, MapAt).Some?
    ensures ParseMap("map" + (blanks + (": " + (name + tail)))) == name
  {
    var after := ": " + (name + tail);
    var s := "map" + (blanks + after);
    assert MapAt(s) == Some(name) by {
      StartsWithOf("map", blanks + after);
      SkipOf(blanks, after, Blank);
      StartsWithOf(": ", name + tail);
      TakeOf(name, tail, LetterOrUnderscore);
    }
    FindAtStart(s, MapAt);
  }

  // ---------------------------------------------------------------------------
  // players : N (M max)

  /** `players[ ]*: ([0-9]+) \(([0-9]+) max\)$`: the count and the maximum, and
      nothing else up to the end of the line. */
  function CountAt(t: string): (r: Option<(string, string)>)
    ensures r.Some? ==> Field(r.value.0, Digit) && Field(r.value.1, Digit)
  {
    if StartsWith(t, "players") then
      var u := Skip(t[7..], Blank);
      if StartsWith(u, ": ") then
        match Take(u[2..], Digit)
        case None => None
        case Some((n, r1)) =>
          if StartsWith(r1, " (") then
            match Take(r1[2..], Digit)
            case None => None
            case Some((m, r2)) =>
              if StartsWith(r2, " max)") && AtEol(r2[5..]) then Some((n, m)) else None
          else None
      else None
    else None
  }

  function ParsePlayerCount(line: string): (r: PlayerCount)
    requires FindFirst(line, 0, CountAt).Some?
    ensures r.current >= 0 && r.max >= 0
  {
    var (n, m) := FindFirst(line, 0, CountAt).value.1;
    PlayerCount(Atoi(n), Atoi(m))
  }

  /** The count and the maximum after "players", spaces and ": ". */
  function CountLine(blanks: string, n: string, m: string): string
  {
    "players" + (blanks + (": " + (n + (" (" + (m + " max)")))))
  }

  lemma CountAtSteps(t: string, u: string, n: string, r1: string, m: string, r2: string)
    requires StartsWith(t, "players") && Skip(t[7..], Blank) == u && StartsWith(u, ": ")
    requires Take(u[2..], Digit) == Some((n, r1)) && StartsWith(r1, " (")
    requires Take(r1[2..], Digit) == Some((m, r2))
    ensures CountAt(t) == if StartsWith(r2, " max)") && AtEol(r2[5..]) then Some((n, m)) else None
  {
  }

  /** A count line followed by `rest` is recognised exactly when the line ends there. */
  lemma CountAtOf(blanks: string, n: string, m: string, rest: string)
    requires AllIn(blanks, Blank) && Field(n, Digit) && Field(m, Digit)
    ensures CountAt(CountLine(blanks, n, m) + rest) == if AtEol(rest) then Some((n, m)) else None
  {
    var r2 := " max)" + rest;
    var r1 := " (" + (m + r2);
    var u := ": " + (n + r1);
    var t := CountLine(blanks, n, m) + rest;
    assert t == "players" + (blanks + u);
    assert StartsWith(t, "players") && t[7..] == blanks + u by { StartsWithOf("players", blanks + u); }
    assert Skip(blanks + u, Blank) == u by { SkipOf(blanks, u, Blank); }
    assert StartsWith(u, ": ") && u[2..] == n + r1 by { StartsWithOf(": ", n + r1); }
    assert Take(n + r1, Digit) == Some((n, r1)) by { TakeOf(n, r1, Digit); }
    assert StartsWith(r1, " (") && r1[2..] == m + r2 by { StartsWithOf(" (", m + r2); }
    assert Take(m + r2, Digit) == Some((m, r2)) by { TakeOf(m, r2, Digit); }
    assert StartsWith(r2, " max)") && r2[5..] == rest by { StartsWithOf(" max)", rest); }
    CountAtSteps(t, u, n, r1, m, r2);
  }

  lemma CountFound(t: string, n: string, m: string)
    requires CountAt(t) == Some((n, m))
    ensures FindFirst(t, 0, CountAt).Some?
    ensures ParsePlayerCount(t) == PlayerCount(Atoi(n), Atoi(m))
  {
    FindAtStart(t, CountAt);
  }

  /** A whole `players : N (M max)` line gives Current = N and Max = M. */
  lemma CountLineParses(blanks: string, n: string, m: string, rest: string)
    requires AllIn(blanks, Blank) && Field(n, Digit) && Field(m, Digit) && AtEol(rest)
    ensures FindFirst(CountLine(blanks, n, m) + rest, 0, CountAt).Some?
    ensures ParsePlayerCount(CountLine(blanks, n, m) + rest) == PlayerCount(Atoi(n), Atoi(m))
  {
    CountAtOf(blanks, n, m, rest);
    CountFound(CountLine(blanks, n, m) + rest, n, m);
  }

  /** Anything after "max)" on the same line defeats the match, e.g. a trailing
      " (not hibernating)". */
  lemma CountNeedsWholeLine(blanks: string, n: string, m: string, tail: string)
    requires AllIn(blanks, Blank) && Field(n, Digit) && Field(m, Digit)
    requires tail != [] && tail[0] != '\n'
    ensures CountAt(CountLine(blanks, n, m) + tail) == None
  {
    CountAtOf(blanks, n, m, tail);
  }

  lemma CountHeadSteps(t: string, u: string, n: string, r1: string)
    requires StartsWith(t, "players") && Skip(t[7..], Blank) == u && StartsWith(u, ": ")
    requires Take(u[2..], Digit) == Some((n, r1)) && !StartsWith(r1, " (")
    ensures CountAt(t) == None
  {
  }

  /** The `H humans, B bots` form is not recognised at all. */
  lemma CountRejectsHumansAndBots(blanks: string, h: string, rest: string)
    requires AllIn(blanks, Blank) && Field(h, Digit)
    ensures CountAt("players" + (blanks + (": " + (h + (" humans" + rest))))) == None
  {
    var r1 := " humans" + rest;
    var u := ": " + (h + r1);
    var t := "players" + (blanks + u);
    assert StartsWith(t, "players") && t[7..] == blanks + u by { StartsWithOf("players", blanks + u); }
    assert Skip(blanks + u, Blank) == u by { SkipOf(blanks, u, Blank); }
    assert StartsWith(u, ": ") && u[2..] == h + r1 by { StartsWithOf(": ", h + r1); }
    assert Take(h + r1, Digit) == Some((h, r1)) by { TakeOf(h, r1, Digit); }
    HumansNotParen(rest);
    CountHeadSteps(t, u, h, r1);
  }

  lemma HumansNotParen(rest: string)
    ensures !StartsWith(" humans" + rest, " (")
  {
    assert (" humans" + rest)[1] == 'h';
  }

  // ---------------------------------------------------------------------------
  // player lines

  /** `STEAM_[0-1]:[0-1]:[0-9]+` */
  predicate SteamId(s: string)
  {
    && |s| > 10 && StartsWith(s, "STEAM_") && (s[6] == '0' || s[6] == '1') && s[7] == ':'
    && (s[8] == '0' || s[8] == '1') && s[9] == ':' && AllIn(s[10..], Digit)
  }

  /** `(([0-9]+:)+([0-9]+)?)+`: digits and colons, starting with a digit, holding
      at least one colon and never two colons in a row. */
  predicate ConnectedTime(c: string)
  {
    && c != [] && IsDigit(c[0]) && AllIn(c, DigitOrColon) && ':' in c
    && forall k :: 0 <= k < |c| - 1 ==> !(c[k] == ':' && c[k + 1] == ':')
  }

  /** An octet of the address pattern, `1[0-9]{1,2}|2(5[0-6]|[0-4][0-9])|[0-9]{1,2}`
      (the `1[0-9]{0,2}` of the later octets adds nothing to this set): one or two
      digits, or three digits starting with 1, with 20 to 24, or with 250 to 256. */
  predicate Octet(o: string)
  {
    && IsDigits(o)
    && (1 <= |o| <= 2
        || (|o| == 3 && (o[0] == '1'
              || (o[0] == '2' && ('0' <= o[1] <= '4' || (o[1] == '5' && '0' <= o[2] <= '6'))))))
  }

  /** The pattern's largest octet is 256, one above what IPv4 allows. */
  lemma OctetBound(o: string)
    requires Octet(o)
    ensures Value(o) <= 256
    ensures |o| == 3 && o[0] == '2' && o[1] == '5' && o[2] == '6' ==> Value(o) == 256
  {
    if |o| == 1 {
      assert o[..0] == "";
    } else if |o| == 2 {
      var a := o[..1];
      assert a[..0] == "" && a[0] == o[0];
      assert Value(o) == 10 * Value(a) + (o[1] as int - '0' as int);
    } else {
      var a := o[..2];
      var b := a[..1];
      assert b[..0] == "" && b[0] == o[0] && a[1] == o[1];
      assert Value(b) == o[0] as int - '0' as int;
      assert Value(a) == 10 * Value(b) + (o[1] as int - '0' as int);
      assert Value(o) == 10 * Value(a) + (o[2] as int - '0' as int);
    }
  }

  /** The submatches parsePlayers reads: m[1], m[2], m[3], m[7], m[8], m[9], the
      whole address m[10], its first octet m[11], and the port m[17]. */
  datatype LineMatch = LineMatch(
    userId: string, username: string, steamId: string, ping: string, loss: string,
    state: string, ip: string, firstOctet: string, port: string)

  /** `#[ ]+([0-9]+) "([^"]*)"`: the user id, the name and what follows. */
  function HeadAt(t: string): Option<(string, string, string)>
  {
    if t == [] || t[0] != '#' then None
    else match Take(t[1..], Blank)
      case None => None
      case Some((_, r1)) =>
        match Take(r1, Digit)
        case None => None
        case Some((id, r2)) =>
          if r2 == [] || r2[0] != ' ' then None
          else match QuotedAt(r2[1..])
            case None => None
            case Some((name, r3)) => Some((id, name, r3))
  }

  /** `[ ]+(STEAM_[0-1]:[0-1]:[0-9]+)` and what follows. */
  function SteamAt(t: string): (r: Option<(string, string)>)
    ensures r.Some? ==> SteamId(r.value.0)
  {
    match Take(t, Blank)
    case None => None
    case Some((_, u)) =>
      if |u| > 10 && StartsWith(u, "STEAM_") && (u[6] == '0' || u[6] == '1') && u[7] == ':'
        && (u[8] == '0' || u[8] == '1') && u[9] == ':'
      then
        match Take(u[10..], Digit)
        case None => None
        case Some((d, r)) =>
          assert (u[..10] + d)[..6] == u[..6] && (u[..10] + d)[10..] == d;
          Some((u[..10] + d, r))
      else None
  }

  /** `[ ]+cls+`: one column and what follows it. */
  function ColumnAt(t: string, cls: CharClass): Option<(string, string)>
  {
    match Take(t, Blank)
    case None => None
    case Some((_, u)) => Take(u, cls)
  }

  datatype Stats = Stats(ping: string, loss: string, state: string)

  /** `[ ]+(time)[ ]+([0-9]+)[ ]+([0-9]+)[ ]+([a-z]+)`: the connection time, checked
      but not kept, then ping, loss and state. */
  function StatsAt(t: string): Option<(Stats, string)>
  {
    match ColumnAt(t, DigitOrColon)
    case None => None
    case Some((connected, r1)) =>
      if !ConnectedTime(connected) then None
      else match ColumnAt(r1, Digit)
        case None => None
        case Some((ping, r2)) =>
          match ColumnAt(r2, Digit)
          case None => None
          case Some((loss, r3)) =>
            match ColumnAt(r3, Lower)
            case None => None
            case Some((state, r4)) => Some((Stats(ping, loss, state), r4))
  }

  /** One octet: a maximal digit run, since a dot or a colon must follow it. */
  function OctetAt(t: string): (r: Option<(string, string)>)
    ensures r.Some? ==> Octet(r.value.0)
  {
    match Take(t, Digit)
    case None => None
    case Some((o, rest)) => if Octet(o) then Some((o, rest)) else None
  }

  /** `\.` and an octet. */
  function DottedAt(t: string): (r: Option<(string, string)>)
    ensures r.Some? ==> Octet(r.value.0)
  {
    if t != [] && t[0] == '.' then OctetAt(t[1..]) else None
  }

  /** `[ ]+` and four octets joined by dots. */
  function IpAt(t: string): (r: Option<(seq<string>, string)>)
    ensures r.Some? ==> |r.value.0| == 4
  {
    match Take(t, Blank)
    case None => None
    case Some((_, u)) =>
      match OctetAt(u)
      case None => None
      case Some((o1, r1)) =>
        match DottedAt(r1)
        case None => None
        case Some((o2, r2)) =>
          match DottedAt(r2)
          case None => None
          case Some((o3, r3)) =>
            match DottedAt(r3)
            case None => None
            case Some((o4, r4)) => Some(([o1, o2, o3, o4], r4))
  }

  /** `:([0-9]+)$` */
  function PortAt(t: string): Option<string>
  {
    if t != [] && t[0] == ':' then
      match Take(t[1..], Digit)
      case None => None
      case Some((port, rest)) => if AtEol(rest) then Some(port) else None
    else None
  }

  /** The player pattern of parsePlayers at the front of `t`. */
  function PlayerAt(t: string): (r: Option<LineMatch>)
    ensures r.Some? ==> Field(r.value.userId, Digit) && SteamId(r.value.steamId)
  {
    match HeadAt(t)
    case None => None
    case Some((id, name, r1)) =>
      match SteamAt(r1)
      case None => None
      case Some((steam, r2)) =>
        match StatsAt(r2)
        case None => None
        case Some((stats, r3)) =>
          match IpAt(r3)
          case None => None
          case Some((octets, r4)) =>
            match PortAt(r4)
            case None => None
            case Some(port) =>
              Some(LineMatch(id, name, steam, stats.ping, stats.loss, stats.state,
                Join(octets, '.'), octets[0], port))
  }

  /** Every non-empty line matches the player pattern; on any other line the
      Go code indexes into a nil match and panics. */
  predicate AllRowsMatch(lines: seq<string>)
  {
    EachLineMatches(lines, PlayerAt)
  }

  function UserIdOf(m: LineMatch): int
  {
    Atoi(m.userId)
  }

  /** The record built from a match, with the connection port read from the
      port submatch m[17]. */
  function PlayerOf(m: LineMatch): Player
  {
    Player(m.username, m.steamId, m.state, Atoi(m.ping), Atoi(m.loss), m.ip, Atoi(m.port))
  }

  /** The record main.go builds: its ConnPort is strconv.Atoi(m[11]), and group 11
      is the first octet of the address, not the port. Every other field is the
      corrected record's. */
  function PlayerAsWritten(m: LineMatch): (p: Player)
    ensures p.(connPort := PlayerOf(m).connPort) == PlayerOf(m)
  {
    Player(m.username, m.steamId, m.state, Atoi(m.ping), Atoi(m.loss), m.ip, Atoi(m.firstOctet))
  }

  /** The players map: each match under its user id, a later one replacing an
      earlier one with the same id. */
  function Players(lines: seq<string>): map<int, Player>
    requires AllRowsMatch(lines)
  {
    Collect.FromSeq(LineMatches(lines, PlayerAt), UserIdOf, PlayerOf)
  }

  /** The players map main.go builds: Players with each ConnPort taken from
      the first octet of the address. */
  function PlayersAsWritten(lines: seq<string>): map<int, Player>
    requires AllRowsMatch(lines)
  {
    Collect.FromSeq(LineMatches(lines, PlayerAt), UserIdOf, PlayerAsWritten)
  }

  /** parsePlayers as written. */
  method ParsePlayers(lines: seq<string>) returns (players: map<int, Player>)
    requires AllRowsMatch(lines)
    ensures players == PlayersAsWritten(lines)
  {
    players := Collect.InsertLineMatches(lines, PlayerAt, UserIdOf, PlayerAsWritten);
  }

  /** The map as written and the corrected one hold the same user ids, and under
      each id the same player but for ConnPort. */
  lemma AsWrittenDiffersOnlyInPort(lines: seq<string>)
    requires AllRowsMatch(lines)
    ensures PlayersAsWritten(lines).Keys == Players(lines).Keys
    ensures forall id :: id in Players(lines) ==>
      PlayersAsWritten(lines)[id].(connPort := Players(lines)[id].connPort) == Players(lines)[id]
  {
    var ms := LineMatches(lines, PlayerAt);
    Collect.FromSeqTwoValues(ms, UserIdOf, PlayerOf, PlayerAsWritten);
    forall id | id in Players(lines)
      ensures PlayersAsWritten(lines)[id].(connPort := Players(lines)[id].connPort) == Players(lines)[id]
    {
      var i :| 0 <= i < |ms| && UserIdOf(ms[i]) == id
        && Players(lines)[id] == PlayerOf(ms[i]) && PlayersAsWritten(lines)[id] == PlayerAsWritten(ms[i]);
    }
  }

  /** One more line: an empty one changes nothing, any other one puts its player
      under its user id. */
  lemma PlayersSnoc(lines: seq<string>, line: string)
    requires AllRowsMatch(lines) && (line != "" ==> FindFirst(line, 0, PlayerAt).Some?)
    ensures AllRowsMatch(lines + [line])
    ensures line == "" ==> Players(lines + [line]) == Players(lines)
    ensures line != "" ==>
      Players(lines + [line])
        == Players(lines)[UserIdOf(MatchOf(line, PlayerAt)) := PlayerOf(MatchOf(line, PlayerAt))]
  {
    LineMatchesSnoc(lines, line, PlayerAt);
    if line == "" {
      assert LineMatches(lines + [line], PlayerAt) == LineMatches(lines, PlayerAt);
    } else {
      Collect.FromSeqSnoc(LineMatches(lines, PlayerAt), MatchOf(line, PlayerAt), UserIdOf, PlayerOf);
    }
  }

  /** Empty lines are skipped wherever they stand. */
  lemma EmptyLinesIgnored(a: seq<string>, b: seq<string>)
    requires AllRowsMatch(a) && AllRowsMatch(b)
    ensures AllRowsMatch(a + [""] + b) && AllRowsMatch(a + b)
    ensures Players(a + [""] + b) == Players(a + b)
  {
    EmptyLineSkipped(a, b, PlayerAt);
  }

  // ---------------------------------------------------------------------------
  // player rows as a server prints them

  /** One row: `#`, the user id, the quoted name, the Steam ID, the connection
      time, ping, loss, state and the address, with the runs of spaces `gaps`
      before the id, after the name and before each later column. */
  datatype Row = Row(
    gaps: seq<string>, userId: string, username: string, steamId: string, connected: string,
    ping: string, loss: string, state: string, octets: seq<string>, port: string)

  predicate WellFormedRow(r: Row)
  {
    && |r.gaps| == 7 && (forall i :: 0 <= i < |r.gaps| ==> Field(r.gaps[i], Blank))
    && Field(r.userId, Digit) && '"' !in r.username && SteamId(r.steamId)
    && ConnectedTime(r.connected) && Field(r.ping, Digit) && Field(r.loss, Digit)
    && Field(r.state, Lower)
    && |r.octets| == 4 && (forall i :: 0 <= i < 4 ==> Octet(r.octets[i]))
    && Field(r.port, Digit)
  }

  predicate WellFormedRows(rows: seq<Row>)
  {
    forall i :: 0 <= i < |rows| ==> WellFormedRow(rows[i])
  }

  /** From the blanks before the address to the end of the row. */
  function AddressThen(r: Row, rest: string): string
    requires |r.gaps| == 7
  {
    r.gaps[6] + (Join(r.octets, '.') + (":" + (r.port + rest)))
  }

  /** From the blanks before the connection time to the state, then `tail`. */
  function StatsThen(r: Row, tail: string): string
    requires |r.gaps| == 7
  {
    r.gaps[2] + (r.connected + (r.gaps[3] + (r.ping + (r.gaps[4] + (r.loss
      + (r.gaps[5] + (r.state + tail)))))))
  }

  function RowThen(r: Row, rest: string): string
    requires |r.gaps| == 7
  {
    "#" + (r.gaps[0] + (r.userId + (" " + ("\"" + (r.username + ("\""
      + (r.gaps[1] + (r.steamId + StatsThen(r, AddressThen(r, rest))))))))))
  }

  function RowLine(r: Row): string
    requires |r.gaps| == 7
  {
    RowThen(r, "")
  }

  function RowMatch(r: Row): LineMatch
    requires |r.octets| == 4
  {
    LineMatch(r.userId, r.username, r.steamId, r.ping, r.loss, r.state,
      Join(r.octets, '.'), r.octets[0], r.port)
  }

  function RowUserId(r: Row): int
  {
    Atoi(r.userId)
  }

  /** The player the row describes, its connection port being the printed port. */
  function RowPlayer(r: Row): Player
  {
    Player(r.username, r.steamId, r.state, Atoi(r.ping), Atoi(r.loss), Join(r.octets, '.'), Atoi(r.port))
  }

  /** The player main.go records for the row: ConnPort is the first octet (a
      well-formed row has four). */
  function RowPlayerAsWritten(r: Row): Player
  {
    RowPlayer(r).(connPort := if r.octets == [] then 0 else Atoi(r.octets[0]))
  }

  lemma HeadOf(g: string, id: string, name: string, rest: string)
    requires Field(g, Blank) && Field(id, Digit) && '"' !in name
    ensures HeadAt("#" + (g + (id + (" " + ("\"" + (name + ("\"" + rest))))))) == Some((id, name, rest))
  {
    var q := "\"" + (name + ("\"" + rest));
    var r2 := " " + q;
    Halves("#", g + (id + r2));
    TakeOf(g, id + r2, Blank);
    TakeOf(id, r2, Digit);
    Halves(" ", q);
    QuotedOf(name, rest);
  }

  lemma SteamOf(g: string, steam: string, rest: string)
    requires Field(g, Blank) && SteamId(steam) && (rest == [] || !IsDigit(rest[0]))
    ensures SteamAt(g + (steam + rest)) == Some((steam, rest))
  {
    TakeOf(g, steam + rest, Blank);
    var u := steam + rest;
    assert u[..10] == steam[..10] && u[..6] == steam[..6] && u[6..10] == steam[6..10];
    assert u[10..] == steam[10..] + rest;
    TakeOf(steam[10..], rest, Digit);
    assert u[..10] + steam[10..] == steam;
  }

  lemma ColumnOf(g: string, tok: string, rest: string, cls: CharClass)
    requires Field(g, Blank) && Field(tok, cls) && tok[0] != ' '
    requires rest == [] || !In(rest[0], cls)
    ensures ColumnAt(g + (tok + rest), cls) == Some((tok, rest))
  {
    TakeOf(g, tok + rest, Blank);
    TakeOf(tok, rest, cls);
  }

  lemma StatsSteps(t: string, connected: string, r1: string, ping: string, r2: string,
                   loss: string, r3: string, state: string, r4: string)
    requires ColumnAt(t, DigitOrColon) == Some((connected, r1)) && ConnectedTime(connected)
    requires ColumnAt(r1, Digit) == Some((ping, r2))
    requires ColumnAt(r2, Digit) == Some((loss, r3))
    requires ColumnAt(r3, Lower) == Some((state, r4))
    ensures StatsAt(t) == Some((Stats(ping, loss, state), r4))
  {
  }

  lemma StatsOf(g2: string, connected: string, g3: string, ping: string, g4: string,
                loss: string, g5: string, state: string, tail: string)
    requires Field(g2, Blank) && Field(g3, Blank) && Field(g4, Blank) && Field(g5, Blank)
    requires ConnectedTime(connected) && Field(ping, Digit) && Field(loss, Digit) && Field(state, Lower)
    requires tail != [] && tail[0] == ' '
    ensures StatsAt(g2 + (connected + (g3 + (ping + (g4 + (loss + (g5 + (state + tail))))))))
         == Some((Stats(ping, loss, state), tail))
  {
    var r3 := g5 + (state + tail);
    var r2 := g4 + (loss + r3);
    var r1 := g3 + (ping + r2);
    assert ColumnAt(g2 + (connected + r1), DigitOrColon) == Some((connected, r1)) by {
      ColumnOf(g2, connected, r1, DigitOrColon);
    }
    assert ColumnAt(r1, Digit) == Some((ping, r2)) by { ColumnOf(g3, ping, r2, Digit); }
    assert ColumnAt(r2, Digit) == Some((loss, r3)) by { ColumnOf(g4, loss, r3, Digit); }
    assert ColumnAt(r3, Lower) == Some((state, tail)) by { ColumnOf(g5, state, tail, Lower); }
    StatsSteps(g2 + (connected + r1), connected, r1, ping, r2, loss, r3, state, tail);
  }

  /** Four octets joined by dots, followed by `rest`, associated to the right. */
  lemma JoinFour(o: seq<string>, rest: string)
    requires |o| == 4
    ensures Join(o, '.') + rest == o[0] + ("." + (o[1] + ("." + (o[2] + ("." + (o[3] + rest))))))
  {
    var j3 := Join(o[3..], '.');
    assert j3 == o[3];
    var j2 := Join(o[2..], '.');
    assert o[2..][1..] == o[3..];
    JoinCons(o[2..], '.');
    var j1 := Join(o[1..], '.');
    assert o[1..][1..] == o[2..];
    JoinCons(o[1..], '.');
    JoinCons(o, '.');
    DotThen(o[2], j3, rest);
    DotThen(o[1], j2, rest);
    DotThen(o[0], j1, rest);
  }

  lemma JoinCons(xs: seq<string>, sep: char)
    requires |xs| >= 2
    ensures Join(xs, sep) == xs[0] + [sep] + Join(xs[1..], sep)
  {
  }

  lemma DotThen(a: string, b: string, rest: string)
    ensures (a + "." + b) + rest == a + ("." + (b + rest))
  {
  }

  lemma DottedOf(o: string, rest: string)
    requires Octet(o) && (rest == [] || !IsDigit(rest[0]))
    ensures DottedAt("." + (o + rest)) == Some((o, rest))
  {
    Halves(".", o + rest);
    TakeOf(o, rest, Digit);
  }

  lemma IpSteps(t: string, u: string, o1: string, r1: string, o2: string, r2: string,
                o3: string, r3: string, o4: string, r4: string)
    requires Take(t, Blank).Some? && Take(t, Blank).value.1 == u
    requires OctetAt(u) == Some((o1, r1)) && DottedAt(r1) == Some((o2, r2))
    requires DottedAt(r2) == Some((o3, r3)) && DottedAt(r3) == Some((o4, r4))
    ensures IpAt(t) == Some(([o1, o2, o3, o4], r4))
  {
  }

  lemma IpPartsOf(g: string, o1: string, o2: string, o3: string, o4: string, rest: string)
    requires Field(g, Blank) && Octet(o1) && Octet(o2) && Octet(o3) && Octet(o4)
    requires rest == [] || !IsDigit(rest[0])
    ensures IpAt(g + (o1 + ("." + (o2 + ("." + (o3 + ("." + (o4 + rest)))))))) == Some(([o1, o2, o3, o4], rest))
  {
    var r3 := "." + (o4 + rest);
    var r2 := "." + (o3 + r3);
    var r1 := "." + (o2 + r2);
    var u := o1 + r1;
    assert Take(g + u, Blank) == Some((g, u)) by { TakeOf(g, u, Blank); }
    assert OctetAt(u) == Some((o1, r1)) by { TakeOf(o1, r1, Digit); }
    assert DottedAt(r1) == Some((o2, r2)) by { DottedOf(o2, r2); }
    assert DottedAt(r2) == Some((o3, r3)) by { DottedOf(o3, r3); }
    assert DottedAt(r3) == Some((o4, rest)) by { DottedOf(o4, rest); }
    IpSteps(g + u, u, o1, r1, o2, r2, o3, r3, o4, rest);
  }

  lemma IpOf(g: string, o: seq<string>, rest: string)
    requires Field(g, Blank) && |o| == 4 && (forall i :: 0 <= i < 4 ==> Octet(o[i]))
    requires rest == [] || !IsDigit(rest[0])
    ensures IpAt(g + (Join(o, '.') + rest)) == Some((o, rest))
  {
    var s := o[0] + ("." + (o[1] + ("." + (o[2] + ("." + (o[3] + rest))))));
    assert g + (Join(o, '.') + rest) == g + s by { JoinFour(o, rest); }
    assert IpAt(g + s) == Some(([o[0], o[1], o[2], o[3]], rest)) by {
      assert Octet(o[0]) && Octet(o[1]) && Octet(o[2]) && Octet(o[3]);
      IpPartsOf(g, o[0], o[1], o[2], o[3], rest);
    }
    assert [o[0], o[1], o[2], o[3]] == o by { FourOf(o); }
  }

  lemma FourOf(o: seq<string>)
    requires |o| == 4
    ensures [o[0], o[1], o[2], o[3]] == o
  {
  }

  lemma PortOf(port: string, rest: string)
    requires Field(port, Digit) && AtEol(rest)
    ensures PortAt(":" + (port + rest)) == Some(port)
  {
    Halves(":", port + rest);
    TakeOf(port, rest, Digit);
  }

  lemma PlayerSteps(t: string, id: string, name: string, r1: string, steam: string, r2: string,
                    stats: Stats, r3: string, octets: seq<string>, r4: string, port: string)
    requires HeadAt(t) == Some((id, name, r1)) && SteamAt(r1) == Some((steam, r2))
    requires StatsAt(r2) == Some((stats, r3)) && IpAt(r3) == Some((octets, r4))
    requires PortAt(r4) == Some(port)
    ensures PlayerAt(t) == Some(LineMatch(id, name, steam, stats.ping, stats.loss, stats.state,
      Join(octets, '.'), octets[0], port))
  {
  }

  /** The row up to the Steam ID. */
  lemma RowHeadOf(r: Row, rest: string)
    requires WellFormedRow(r) && AtEol(rest)
    ensures HeadAt(RowThen(r, rest))
         == Some((r.userId, r.username, r.gaps[1] + (r.steamId + StatsThen(r, AddressThen(r, rest)))))
    ensures SteamAt(r.gaps[1] + (r.steamId + StatsThen(r, AddressThen(r, rest))))
         == Some((r.steamId, StatsThen(r, AddressThen(r, rest))))
  {
    var r2 := StatsThen(r, AddressThen(r, rest));
    var r1 := r.gaps[1] + (r.steamId + r2);
    assert Field(r.gaps[0], Blank) && Field(r.gaps[1], Blank) && Field(r.gaps[2], Blank);
    HeadOf(r.gaps[0], r.userId, r.username, r1);
    assert r2[0] == ' ';
    SteamOf(r.gaps[1], r.steamId, r2);
  }

  /** The row from the connection time on. */
  lemma RowTailOf(r: Row, rest: string)
    requires WellFormedRow(r) && AtEol(rest)
    ensures StatsAt(StatsThen(r, AddressThen(r, rest)))
         == Some((Stats(r.ping, r.loss, r.state), AddressThen(r, rest)))
    ensures IpAt(AddressThen(r, rest)) == Some((r.octets, ":" + (r.port + rest)))
    ensures PortAt(":" + (r.port + rest)) == Some(r.port)
  {
    var r3 := AddressThen(r, rest);
    assert Field(r.gaps[2], Blank) && Field(r.gaps[3], Blank) && Field(r.gaps[4], Blank);
    assert Field(r.gaps[5], Blank) && Field(r.gaps[6], Blank);
    assert r3 != [] && r3[0] == ' ';
    StatsOf(r.gaps[2], r.connected, r.gaps[3], r.ping, r.gaps[4], r.loss, r.gaps[5], r.state, r3);
    IpOf(r.gaps[6], r.octets, ":" + (r.port + rest));
    PortOf(r.port, rest);
  }

  /** A printed row, followed by the end of its line, is read back column by column. */
  lemma RowParses(r: Row, rest: string)
    requires WellFormedRow(r) && AtEol(rest)
    ensures PlayerAt(RowThen(r, rest)) == Some(RowMatch(r))
  {
    var r3 := AddressThen(r, rest);
    var r2 := StatsThen(r, r3);
    RowHeadOf(r, rest);
    RowTailOf(r, rest);
    PlayerSteps(RowThen(r, rest), r.userId, r.username, r.gaps[1] + (r.steamId + r2), r.steamId, r2,
      Stats(r.ping, r.loss, r.state), r3, r.octets, ":" + (r.port + rest), r.port);
  }

  /** A row's line is found by the search, at its start. */
  lemma RowLineMatches(r: Row)
    requires WellFormedRow(r)
    ensures RowLine(r) != "" && FindFirst(RowLine(r), 0, PlayerAt).Some?
    ensures MatchOf(RowLine(r), PlayerAt) == RowMatch(r)
  {
    RowParses(r, "");
    FindAtStart(RowLine(r), PlayerAt);
  }

  /** The rows printed one per line. */
  function RowLines(rows: seq<Row>): (lines: seq<string>)
    requires WellFormedRows(rows)
    ensures |lines| == |rows|
  {
    if rows == [] then []
    else
      var init := rows[..|rows| - 1];
      assert forall i :: 0 <= i < |init| ==> init[i] == rows[i];
      RowLines(init) + [RowLine(rows[|rows| - 1])]
  }

  function RowMatches(rows: seq<Row>): (ms: seq<LineMatch>)
    requires WellFormedRows(rows)
    ensures |ms| == |rows|
  {
    if rows == [] then []
    else
      var init := rows[..|rows| - 1];
      assert forall i :: 0 <= i < |init| ==> init[i] == rows[i];
      RowMatches(init) + [RowMatch(rows[|rows| - 1])]
  }


  lemma {:induction false} RowLinesMatch(rows: seq<Row>)
    requires WellFormedRows(rows)
    ensures AllRowsMatch(RowLines(rows))
    ensures LineMatches(RowLines(rows), PlayerAt) == RowMatches(rows)
  {
    if rows == [] {
      assert RowLines(rows) == [];
    } else {
      var init := rows[..|rows| - 1];
      var last := rows[|rows| - 1];
      assert WellFormedRows(init) by {
        assert forall i :: 0 <= i < |init| ==> init[i] == rows[i];
      }
      RowLinesMatch(init);
      RowLineMatches(last);
      LineMatchesSnoc(RowLines(init), RowLine(last), PlayerAt);
    }
  }

  lemma {:induction false} RowsCollect(rows: seq<Row>)
    requires WellFormedRows(rows)
    ensures Collect.FromSeq(RowMatches(rows), UserIdOf, PlayerOf) == Collect.FromSeq(rows, RowUserId, RowPlayer)
    ensures Collect.FromSeq(RowMatches(rows), UserIdOf, PlayerAsWritten)
         == Collect.FromSeq(rows, RowUserId, RowPlayerAsWritten)
  {
    if rows != [] {
      var init := rows[..|rows| - 1];
      assert WellFormedRows(init) by {
        assert forall i :: 0 <= i < |init| ==> init[i] == rows[i];
      }
      RowsCollect(init);
      assert RowMatches(rows) == RowMatches(init) + [RowMatch(rows[|rows| - 1])];
    }
  }

  /** The lines of well-formed rows give each row's player under its user id, a
      later row replacing an earlier one with the same id. */
  lemma RowsPlayers(rows: seq<Row>)
    requires WellFormedRows(rows)
    ensures AllRowsMatch(RowLines(rows))
    ensures Players(RowLines(rows)) == Collect.FromSeq(rows, RowUserId, RowPlayer)
    ensures PlayersAsWritten(RowLines(rows)) == Collect.FromSeq(rows, RowUserId, RowPlayerAsWritten)
  {
    RowLinesMatch(rows);
    RowsCollect(rows);
  }

  /** main.go fills ConnPort from the first octet of the address rather than
      from the port. */
  lemma ConnPortIsFirstOctet(r: Row)
    requires WellFormedRow(r)
    ensures FindFirst(RowLine(r), 0, PlayerAt).Some?
    ensures PlayerAsWritten(MatchOf(RowLine(r), PlayerAt)).connPort == Atoi(r.octets[0])
    ensures PlayerOf(MatchOf(RowLine(r), PlayerAt)).connPort == Atoi(r.port)
  {
    RowLineMatches(r);
    assert Field(r.octets[0], Digit) by { assert Octet(r.octets[0]); }
  }

  /** `#  2 "a" STEAM_0:1:7 00:10 50 0 active 192.168.1.5:27005`, one space between columns. */
  function SampleRow(): Row
  {
    Row([" ", " ", " ", " ", " ", " ", " "], "2", "a", "STEAM_0:1:7", "00:10",
      "50", "0", "active", ["192", "168", "1", "5"], "27005")
  }

  lemma SampleRowWellFormed()
    ensures WellFormedRow(SampleRow())
  {
    var r := SampleRow();
    assert SteamId(r.steamId) by {
      assert "STEAM_0:1:7"[..6] == "STEAM_" && "STEAM_0:1:7"[10..] == "7";
    }
    assert ConnectedTime(r.connected) by {
      assert "00:10"[2] == ':';
    }
    assert forall i :: 0 <= i < 4 ==> Octet(r.octets[i]);
  }

  lemma ValueOfSamples()
    ensures Value("192") == 192 && Value("27005") == 27005
  {
    assert "192"[..2] == "19" && "19"[..1] == "1" && "1"[..0] == "";
    assert "27005"[..4] == "2700" && "2700"[..3] == "270" && "270"[..2] == "27";
    assert "27"[..1] == "2" && "2"[..0] == "";
  }

  /** A player at 192.168.1.5:27005 is recorded with ConnPort 192. */
  lemma ConnPortCounterexample()
    ensures FindFirst(RowLine(SampleRow()), 0, PlayerAt).Some?
    ensures PlayerAsWritten(MatchOf(RowLine(SampleRow()), PlayerAt)).connPort == 192
    ensures PlayerOf(MatchOf(RowLine(SampleRow()), PlayerAt)).connPort == 27005
  {
    SampleRowWellFormed();
    ConnPortIsFirstOctet(SampleRow());
    ValueOfSamples();
  }

  // ---------------------------------------------------------------------------
  // parseStatus

  /** What parseStatus needs in order not to panic: at least seven lines, matches
      on lines 0, 1, 3 and 4, and on every non-empty line from line 7 on. */
  predicate Parsable(resp: string)
  {
    var lines := Split(resp, '\n');
    && |lines| >= 7
    && FindFirst(lines[0], 0, HostnameAt).Some?
    && FindFirst(lines[1], 0, VersionAt).Some?
    && FindFirst(lines[3], 0, MapAt).Some?
    && FindFirst(lines[4], 0, CountAt).Some?
    && AllRowsMatch(lines[7..])
  }

  function StatusOf(resp: string): Status
    requires Parsable(resp)
  {
    var lines := Split(resp, '\n');
    Status(ParseHostname(lines[0]), ParseVersion(lines[1]), ParseMap(lines[3]),
      ParsePlayerCount(lines[4]), PlayersAsWritten(lines[7..]))
  }

  method ParseStatus(resp: string) returns (status: Status)
    requires Parsable(resp)
    ensures status == StatusOf(resp)
  {
    var lines := Split(resp, '\n');
    var players := ParsePlayers(lines[7..]);
    status := Status(ParseHostname(lines[0]), ParseVersion(lines[1]), ParseMap(lines[3]),
      ParsePlayerCount(lines[4]), players);
  }

  /** A reply laid out as parseStatus expects: hostname on line 0, version on
      line 1, map on line 3, the player count on line 4 and player rows from line
      7 on, lines 2, 5 and 6 being ignored. */
  lemma ReplyStatus(lines: seq<string>, hostname: string, vBlanks: string, version: string,
                    mBlanks: string, name: string, mapTail: string,
                    pBlanks: string, n: string, m: string, rows: seq<Row>)
    requires |lines| >= 7 && forall i :: 0 <= i < |lines| ==> '\n' !in lines[i]
    requires lines[0] == "hostname: " + hostname
    requires AllIn(vBlanks, Blank) && lines[1] == "version" + (vBlanks + (": " + (version + "")))
    requires AllIn(mBlanks, Blank) && Field(name, LetterOrUnderscore)
    requires mapTail == [] || !In(mapTail[0], LetterOrUnderscore)
    requires lines[3] == "map" + (mBlanks + (": " + (name + mapTail)))
    requires AllIn(pBlanks, Blank) && Field(n, Digit) && Field(m, Digit)
    requires lines[4] == CountLine(pBlanks, n, m) + ""
    requires WellFormedRows(rows)
    requires lines[7..] == RowLines(rows)
    ensures Parsable(Join(lines, '\n'))
    ensures StatusOf(Join(lines, '\n'))
         == Status(hostname, version, name, PlayerCount(Atoi(n), Atoi(m)),
                   Collect.FromSeq(rows, RowUserId, RowPlayerAsWritten))
    ensures Players(Split(Join(lines, '\n'), '\n')[7..]) == Collect.FromSeq(rows, RowUserId, RowPlayer)
  {
    SplitJoin(lines, '\n');
    HostnameOfLine(lines[0]);
    StartsWithOf("hostname: ", hostname);
    assert '\n' !in version by { assert forall c :: c in version ==> c in lines[1]; }
    VersionLine(vBlanks, version, "");
    MapLine(mBlanks, name, mapTail);
    CountLineParses(pBlanks, n, m, "");
    RowsPlayers(rows);
  }
}
