/** The `status` reply parser of package parser: each Go regular expression is
    written out as a recogniser over the text that follows a line start, and
    FindStringSubmatch / FindAllStringSubmatch as searches over line starts.

    Every repetition in these patterns is followed by something its own
    character class cannot begin, so the greedy choice is the only one the
    regexp engine can settle on; the recognisers therefore take maximal runs
    and never backtrack, except in the two optional groups whose order of
    preference is written out where they occur. */
module Parser {
  import opened Base
  import opened Text
  import Collect

  /** models.PlayerCount; Humans and Bots are -1 when the reply does not give them. */
  datatype PlayerCount = PlayerCount(current: int, max: int, humans: int, bots: int)

  /** models.Player. */
  datatype Player = Player(
    username: string, userId: int, steamId: string, state: string,
    ping: int, loss: int, ip: string, connPort: int)

  // ---------------------------------------------------------------------------
  // hostname, version, map

  /** `KEY\s*: (.*)$` at the front of `t`: the rest of the line after ": ". */
  function FieldAt(key: string, t: string): (r: Option<string>)
    ensures r.Some? ==> '\n' !in r.value
  {
    if |key| <= |t| && t[..|key|] == key then
      var u := Skip(t[|key|..], Space);
      if |u| >= 2 && u[0] == ':' && u[1] == ' ' then Some(RestOfLine(u[2..])) else None
    else None
  }

  function HostnameAt(t: string): Option<string> { FieldAt("hostname", t) }

  function VersionAt(t: string): Option<string> { FieldAt("version", t) }

  /** `map\s*: ([a-zA-Z_0-9-]+)( .*)?$` at the front of `t`. */
  function MapAt(t: string): (r: Option<string>)
    ensures r.Some? ==> r.value != [] && AllIn(r.value, MapChar)
  {
    if |t| >= 3 && t[..3] == "map" then
      var u := Skip(t[3..], Space);
      if |u| >= 2 && u[0] == ':' && u[1] == ' ' then
        match Take(u[2..], MapChar)
        case None => None
        case Some((name, rest)) => if AtEol(rest) || rest[0] == ' ' then Some(name) else None
      else None
    else None
  }

  /** The first submatch of the first line that matches, or "" when none does. */
  function FirstCapture(input: string, at: string -> Option<string>): (r: string)
    ensures forall p: nat :: FirstMatch(input, p, at) ==> r == at(input[p..]).value
    ensures NoMatchFrom(input, 0, at) ==> r == ""
  {
    FindFirstIsFirstMatch(input, at);
    match FindFirst(input, 0, at)
    case Some((_, v)) => v
    case None => ""
  }

  function ParseHostname(input: string): (r: string)
    ensures forall p: nat :: FirstMatch(input, p, HostnameAt) ==> r == HostnameAt(input[p..]).value
    ensures NoMatchFrom(input, 0, HostnameAt) ==> r == ""
    ensures '\n' !in r
  {
    FirstCapture(input, HostnameAt)
  }

  function ParseVersion(input: string): (r: string)
    ensures forall p: nat :: FirstMatch(input, p, VersionAt) ==> r == VersionAt(input[p..]).value
    ensures NoMatchFrom(input, 0, VersionAt) ==> r == ""
    ensures '\n' !in r
  {
    FirstCapture(input, VersionAt)
  }

  function ParseMap(input: string): (r: string)
    ensures forall p: nat :: FirstMatch(input, p, MapAt) ==> r == MapAt(input[p..]).value
    ensures NoMatchFrom(input, 0, MapAt) ==> r == ""
    ensures AllIn(r, MapChar)
  {
    FirstCapture(input, MapAt)
  }

  lemma FieldLine(key: string, blanks: string, value: string, rest: string)
    requires AllIn(blanks, Space) && '\n' !in value && AtEol(rest)
    ensures FieldAt(key, key + (blanks + (": " + (value + rest)))) == Some(value)
  {
    var tail := ": " + (value + rest);
    var s := key + (blanks + tail);
    assert s[..|key|] == key && s[|key|..] == blanks + tail;
    SkipOf(blanks, tail, Space);
    assert tail[2..] == value + rest;
    RestOfLineOf(value, rest);
  }

  /** A `hostname` line at the start of the reply: any blanks before the colon,
      and the value is the whole rest of that line. */
  lemma HostnameLine(blanks: string, value: string, rest: string)
    requires AllIn(blanks, Space) && '\n' !in value && AtEol(rest)
    ensures ParseHostname("hostname" + (blanks + (": " + (value + rest)))) == value
  {
    FieldLine("hostname", blanks, value, rest);
    FindAtStart("hostname" + (blanks + (": " + (value + rest))), HostnameAt);
  }

  /** A `version` line at the start of the reply. */
  lemma VersionLine(blanks: string, value: string, rest: string)
    requires AllIn(blanks, Space) && '\n' !in value && AtEol(rest)
    ensures ParseVersion("version" + (blanks + (": " + (value + rest)))) == value
  {
    FieldLine("version", blanks, value, rest);
    FindAtStart("version" + (blanks + (": " + (value + rest))), VersionAt);
  }

  /** A `map` line: the name is the run of map-name characters, whether the line
      ends there or goes on after a space. */
  lemma MapLine(blanks: string, name: string, tail: string, rest: string)
    requires AllIn(blanks, Space) && name != [] && AllIn(name, MapChar)
    requires tail == [] || (tail[0] == ' ' && '\n' !in tail)
    requires AtEol(rest)
    ensures ParseMap("map" + (blanks + (": " + (name + (tail + rest))))) == name
  {
    var after := ": " + (name + (tail + rest));
    var s := "map" + (blanks + after);
    assert s[..3] == "map" && s[3..] == blanks + after;
    SkipOf(blanks, after, Space);
    assert after[2..] == name + (tail + rest);
    if tail == [] {
      assert tail + rest == rest;
    } else {
      assert (tail + rest)[0] == ' ';
    }
    TakeOf(name, tail + rest, MapChar);
    FindAtStart(s, MapAt);
  }

  /** A map name stops at the first character outside [a-zA-Z_0-9-] that is not
      a space: "map : de_dust2.bsp" matches nothing, so the map is "". */
  lemma MapNameStopsAtOtherCharacter(name: string, c: char, rest: string)
    requires name != [] && AllIn(name, MapChar) && !In(c, MapChar) && c != ' ' && c != '\n'
    ensures MapAt("map: " + (name + ([c] + rest))) == None
  {
    var s := "map: " + (name + ([c] + rest));
    assert s[..3] == "map" && s[3..] == ": " + (name + ([c] + rest));
    assert (": " + (name + ([c] + rest)))[2..] == name + ([c] + rest);
    TakeOf(name, [c] + rest, MapChar);
  }

  // ---------------------------------------------------------------------------
  // players : N (M max)   /   players : H humans, B bots (M[/x] max)

  /** The named submatches of playerCountRegex, "" for a group that did not take part. */
  datatype CountGroups = CountGroups(current1: string, max1: string, humans: string, bots: string, max2: string)

  /** `[0-9]+\s*\([0-9]+\s*max\)`: the count and the maximum. */
  function SimpleCountAt(t: string): (r: Option<(string, string)>)
    ensures r.Some? ==> r.value.0 != [] && IsDigits(r.value.0) && r.value.1 != [] && IsDigits(r.value.1)
  {
    match Take(t, Digit)
    case None => None
    case Some((n, r1)) =>
      var r2 := Skip(r1, Space);
      if r2 == [] || r2[0] != '(' then None
      else match Take(r2[1..], Digit)
        case None => None
        case Some((m, r3)) =>
          var r4 := Skip(r3, Space);
          if |r4| >= 4 && r4[..4] == "max)" then Some((n, m)) else None
  }


  /** `[0-9]+ humans,\s+[0-9]+ bots\s+\([0-9]+(/[0-9]+)?\s+max\)`: humans, bots and
      the maximum. */
  function SplitCountAt(t: string): (r: Option<(string, string, string)>)
    ensures r.Some? ==> r.value.0 != [] && IsDigits(r.value.0) && r.value.1 != [] && IsDigits(r.value.1)
    ensures r.Some? ==> r.value.2 != [] && IsDigits(r.value.2)
  {
    match Take(t, Digit)
    case None => None
    case Some((h, r1)) =>
      if !(|r1| >= 8 && r1[..8] == " humans,") then None
      else match Take(r1[8..], Space)
        case None => None
        case Some((_, r2)) =>
          match BotsAt(r2)
          case None => None
          case Some((b, m)) => Some((h, b, m))
  }

  /** The part from the bots on: `[0-9]+ bots\s+` and the maximum. */
  function BotsAt(t: string): (r: Option<(string, string)>)
    ensures r.Some? ==> r.value.0 != [] && IsDigits(r.value.0) && r.value.1 != [] && IsDigits(r.value.1)
  {
    match Take(t, Digit)
    case None => None
    case Some((b, r3)) =>
      if !(|r3| >= 5 && r3[..5] == " bots") then None
      else match Take(r3[5..], Space)
        case None => None
        case Some((_, r4)) =>
          match MaxAt(r4)
          case None => None
          case Some(m) => Some((b, m))
  }

  /** `\([0-9]+(/[0-9]+)?\s+max\)`: the maximum. */
  function MaxAt(t: string): (r: Option<string>)
    ensures r.Some? ==> r.value != [] && IsDigits(r.value)
  {
    if t == [] || t[0] != '(' then None
    else match Take(t[1..], Digit)
      case None => None
      case Some((m, r5)) =>
        match Take(SkipSlash(r5), Space)
        case None => None
        case Some((_, r6)) => if |r6| >= 4 && r6[..4] == "max)" then Some(m) else None
  }

  /** The optional `(/[0-9]+)?`: taken whenever a digit follows the slash. When it
      is not taken a `/` faces `\s+` and the match fails either way. */
  function SkipSlash(t: string): (rest: string)
    ensures |rest| <= |t|
  {
    if t != [] && t[0] == '/' && Take(t[1..], Digit).Some? then Take(t[1..], Digit).value.1 else t
  }

  /** One of the two reply forms. */
  predicate SimpleForm(g: CountGroups)
  {
    g.current1 != [] && IsDigits(g.current1) && g.max1 != [] && IsDigits(g.max1)
    && g.humans == [] && g.bots == [] && g.max2 == []
  }

  predicate SplitForm(g: CountGroups)
  {
    g.current1 == [] && g.max1 == []
    && g.humans != [] && IsDigits(g.humans) && g.bots != [] && IsDigits(g.bots)
    && g.max2 != [] && IsDigits(g.max2)
  }

  /** `players\s*:\s*( SIMPLE | SPLIT ).*$` at the front of `t`; the trailing
      `.*$` always matches. */
  function CountGroupsAt(t: string): (r: Option<CountGroups>)
    ensures r.Some? ==> SimpleForm(r.value) || SplitForm(r.value)
  {
    if |t| >= 7 && t[..7] == "players" then
      var u := Skip(t[7..], Space);
      if u == [] || u[0] != ':' then None else CountAfterColon(Skip(u[1..], Space))
    else None
  }

  /** The alternation, first alternative preferred. */
  function CountAfterColon(v: string): (r: Option<CountGroups>)
    ensures r.Some? ==> SimpleForm(r.value) || SplitForm(r.value)
  {
    match SimpleCountAt(v)
    case Some((n, m)) => Some(CountGroups(n, m, "", "", ""))
    case None =>
      match SplitCountAt(v)
      case Some((h, b, m)) => Some(CountGroups("", "", h, b, m))
      case None => None
  }

  /** The defaults and the override of parser.go: Current is humans + bots when
      both were given, Max falls back from max1 to max2 to 0. The "-1" defaults
      of humans and bots go through strconv.Atoi, which yields -1. */
  function CountOf(g: CountGroups): PlayerCount
  {
    var currentRaw := if g.current1 != "" then g.current1 else "0";
    var maxRaw := if g.max1 != "" then g.max1 else if g.max2 != "" then g.max2 else "0";
    var current := Atoi(currentRaw);
    var max := Atoi(maxRaw);
    var humans := if g.humans != "" then Atoi(g.humans) else -1;
    var bots := if g.bots != "" then Atoi(g.bots) else -1;
    PlayerCount(if bots != -1 && humans != -1 then bots + humans else current, max, humans, bots)
  }

  /** The invariant of a parsed count: either both halves are unknown, or both
      are known and add up to Current. */
  predicate ValidCount(c: PlayerCount)
  {
    c.current >= 0 && c.max >= 0
    && ((c.humans == -1 && c.bots == -1)
        || (c.humans >= 0 && c.bots >= 0 && c.current == c.humans + c.bots))
  }

  lemma CountOfForm(g: CountGroups)
    requires SimpleForm(g) || SplitForm(g)
    ensures ValidCount(CountOf(g))
    ensures SimpleForm(g) ==> CountOf(g) == PlayerCount(Atoi(g.current1), Atoi(g.max1), -1, -1)
    ensures SplitForm(g) ==> CountOf(g) == PlayerCount(Atoi(g.humans) + Atoi(g.bots), Atoi(g.max2), Atoi(g.humans), Atoi(g.bots))
  {
  }

  function ParsePlayerCount(input: string): (r: Result<PlayerCount>)
    ensures r.Err? ==> r.error == NoPlayerCount
    ensures r.Ok? ==> ValidCount(r.value)
  {
    match FindFirst(input, 0, CountGroupsAt)
    case Some((_, g)) => CountOfForm(g); Ok(CountOf(g))
    case None => Err(NoPlayerCount)
  }

  /** The count comes from the first line that matches; the error is returned
      exactly when no line does. */
  lemma ParsePlayerCountFirstMatch(input: string)
    ensures ParsePlayerCount(input).Err? <==> NoMatchFrom(input, 0, CountGroupsAt)
    ensures forall p: nat :: FirstMatch(input, p, CountGroupsAt) ==>
      ParsePlayerCount(input) == Ok(CountOf(CountGroupsAt(input[p..]).value))
  {
    FindFirstIsFirstMatch(input, CountGroupsAt);
  }

  lemma PlayersColon(v: string)
    requires v == [] || !In(v[0], Space)
    ensures CountGroupsAt("players : " + v) == CountAfterColon(v)
  {
    var s := "players : " + v;
    assert s == "players" + (" " + (":" + (" " + v)));
    Halves("players", " " + (":" + (" " + v)));
    SkipOf(" ", ":" + (" " + v), Space);
    Halves(":", " " + v);
    SkipOf(" ", v, Space);
  }

  lemma SimpleCountSteps(t: string, n: string, r1: string, x: string, m: string, r3: string, rest: string)
    requires Take(t, Digit) == Some((n, r1)) && Skip(r1, Space) == "(" + x
    requires Take(x, Digit) == Some((m, r3)) && Skip(r3, Space) == "max)" + rest
    ensures SimpleCountAt(t) == Some((n, m))
  {
    Halves("(", x);
    Halves("max)", rest);
  }

  lemma SimpleCountOf(n: string, m: string, rest: string)
    requires n != [] && IsDigits(n) && m != [] && IsDigits(m)
    ensures SimpleCountAt(n + (" (" + (m + (" max)" + rest)))) == Some((n, m))
  {
    var tail := " max)" + rest;
    var afterN := " (" + (m + tail);
    assert Take(n + afterN, Digit) == Some((n, afterN)) by { TakeOf(n, afterN, Digit); }
    assert Skip(afterN, Space) == "(" + (m + tail) by {
      assert afterN == " " + ("(" + (m + tail));
      SkipOf(" ", "(" + (m + tail), Space);
    }
    assert Take(m + tail, Digit) == Some((m, tail)) by { TakeOf(m, tail, Digit); }
    assert Skip(tail, Space) == "max)" + rest by {
      assert tail == " " + ("max)" + rest);
      SkipOf(" ", "max)" + rest, Space);
    }
    SimpleCountSteps(n + afterN, n, afterN, m + tail, m, tail, rest);
  }

  lemma SplitCountSteps(t: string, h: string, x1: string, r2: string, b: string, m: string)
    requires Take(t, Digit) == Some((h, " humans," + x1))
    requires Take(x1, Space).Some? && Take(x1, Space).value.1 == r2
    requires BotsAt(r2) == Some((b, m))
    ensures SplitCountAt(t) == Some((h, b, m))
  {
    Halves(" humans,", x1);
  }

  lemma BotsSteps(t: string, b: string, x3: string, r4: string, m: string)
    requires Take(t, Digit) == Some((b, " bots" + x3))
    requires Take(x3, Space).Some? && Take(x3, Space).value.1 == r4
    requires MaxAt(r4) == Some(m)
    ensures BotsAt(t) == Some((b, m))
  {
    Halves(" bots", x3);
  }

  lemma MaxSteps(x4: string, m: string, r5: string, rest: string)
    requires Take(x4, Digit) == Some((m, r5))
    requires Take(SkipSlash(r5), Space).Some? && Take(SkipSlash(r5), Space).value.1 == "max)" + rest
    ensures MaxAt("(" + x4) == Some(m)
  {
    Halves("(", x4);
    Halves("max)", rest);
  }

  lemma SkipSlashOf(slash: string, rest: string)
    requires slash == [] || (|slash| >= 2 && slash[0] == '/' && IsDigits(slash[1..]))
    requires rest == [] || !IsDigit(rest[0])
    requires rest == [] || rest[0] != '/'
    ensures SkipSlash(slash + rest) == rest
  {
    if slash == [] {
      assert slash + rest == rest;
    } else {
      assert (slash + rest)[1..] == slash[1..] + rest;
      TakeOf(slash[1..], rest, Digit);
    }
  }

  lemma SpaceMax(rest: string)
    ensures " max)" + rest == " " + ("max)" + rest)
  {
  }

  lemma MaxOf(m: string, slash: string, rest: string)
    requires m != [] && IsDigits(m)
    requires slash == [] || (|slash| >= 2 && slash[0] == '/' && IsDigits(slash[1..]))
    ensures MaxAt("(" + (m + (slash + (" max)" + rest)))) == Some(m)
  {
    var tail := " max)" + rest;
    var afterM := slash + tail;
    SpaceMax(rest);
    assert afterM[0] == if slash == [] then ' ' else '/';
    assert Take(m + afterM, Digit) == Some((m, afterM)) by { TakeOf(m, afterM, Digit); }
    assert SkipSlash(afterM) == tail by { SkipSlashOf(slash, tail); }
    assert Take(tail, Space) == Some((" ", "max)" + rest)) by {
      TakeOf(" ", "max)" + rest, Space);
    }
    MaxSteps(m + afterM, m, afterM, rest);
  }

  lemma BotsOf(b: string, m: string, slash: string, rest: string)
    requires b != [] && IsDigits(b) && m != [] && IsDigits(m)
    requires slash == [] || (|slash| >= 2 && slash[0] == '/' && IsDigits(slash[1..]))
    ensures BotsAt(b + (" bots (" + (m + (slash + (" max)" + rest))))) == Some((b, m))
  {
    var afterParen := "(" + (m + (slash + (" max)" + rest)));
    var afterB := " bots (" + (m + (slash + (" max)" + rest)));
    assert afterB == " bots" + (" " + afterParen);
    assert Take(b + afterB, Digit) == Some((b, afterB)) by { TakeOf(b, afterB, Digit); }
    assert Take(" " + afterParen, Space) == Some((" ", afterParen)) by { TakeOf(" ", afterParen, Space); }
    MaxOf(m, slash, rest);
    BotsSteps(b + afterB, b, " " + afterParen, afterParen, m);
  }

  lemma SplitCountOf(h: string, b: string, m: string, slash: string, rest: string)
    requires h != [] && IsDigits(h) && b != [] && IsDigits(b) && m != [] && IsDigits(m)
    requires slash == [] || (|slash| >= 2 && slash[0] == '/' && IsDigits(slash[1..]))
    ensures SimpleCountAt(h + (" humans, " + (b + (" bots (" + (m + (slash + (" max)" + rest))))))) == None
    ensures SplitCountAt(h + (" humans, " + (b + (" bots (" + (m + (slash + (" max)" + rest))))))) == Some((h, b, m))
  {
    var afterB := " bots (" + (m + (slash + (" max)" + rest)));
    var afterH := " humans, " + (b + afterB);
    var t := h + afterH;
    assert Take(t, Digit) == Some((h, afterH)) by { TakeOf(h, afterH, Digit); }
    assert afterH == " humans," + (" " + (b + afterB));
    assert Skip(afterH, Space) == "humans, " + (b + afterB) by {
      assert afterH == " " + ("humans, " + (b + afterB));
      SkipOf(" ", "humans, " + (b + afterB), Space);
    }
    assert Take(" " + (b + afterB), Space) == Some((" ", b + afterB)) by { TakeOf(" ", b + afterB, Space); }
    BotsOf(b, m, slash, rest);
    SplitCountSteps(t, h, " " + (b + afterB), b + afterB, b, m);
  }

  /** A reply whose first line matches yields that line's count. */
  lemma CountAtStart(s: string, g: CountGroups)
    requires CountGroupsAt(s) == Some(g)
    ensures ParsePlayerCount(s) == Ok(CountOf(g))
  {
    FindAtStart(s, CountGroupsAt);
  }

  lemma SimpleCountGroups(n: string, m: string, rest: string)
    requires n != [] && IsDigits(n) && m != [] && IsDigits(m)
    ensures CountGroupsAt("players : " + (n + (" (" + (m + (" max)" + rest))))) == Some(CountGroups(n, m, "", "", ""))
  {
    PlayersColon(n + (" (" + (m + (" max)" + rest))));
    SimpleCountOf(n, m, rest);
  }

  lemma SplitCountGroups(h: string, b: string, m: string, slash: string, rest: string)
    requires h != [] && IsDigits(h) && b != [] && IsDigits(b) && m != [] && IsDigits(m)
    requires slash == [] || (|slash| >= 2 && slash[0] == '/' && IsDigits(slash[1..]))
    ensures CountGroupsAt("players : " + (h + (" humans, " + (b + (" bots (" + (m + (slash + (" max)" + rest))))))))
         == Some(CountGroups("", "", h, b, m))
  {
    PlayersColon(h + (" humans, " + (b + (" bots (" + (m + (slash + (" max)" + rest)))))));
    SplitCountOf(h, b, m, slash, rest);
  }

  lemma SimpleGroupsCount(n: string, m: string)
    requires n != [] && IsDigits(n) && m != [] && IsDigits(m)
    ensures CountOf(CountGroups(n, m, "", "", "")) == PlayerCount(Atoi(n), Atoi(m), -1, -1)
  {
    CountOfForm(CountGroups(n, m, "", "", ""));
  }

  lemma SplitGroupsCount(h: string, b: string, m: string)
    requires h != [] && IsDigits(h) && b != [] && IsDigits(b) && m != [] && IsDigits(m)
    ensures CountOf(CountGroups("", "", h, b, m)) == PlayerCount(Atoi(h) + Atoi(b), Atoi(m), Atoi(h), Atoi(b))
  {
    CountOfForm(CountGroups("", "", h, b, m));
  }

  /** "players : N (M max)" followed by anything: Current N, Max M, no split. */
  lemma SimpleCountLine(n: string, m: string, rest: string)
    requires n != [] && IsDigits(n) && m != [] && IsDigits(m)
    ensures ParsePlayerCount("players : " + (n + (" (" + (m + (" max)" + rest)))))
         == Ok(PlayerCount(Atoi(n), Atoi(m), -1, -1))
  {
    var g := CountGroups(n, m, "", "", "");
    SimpleCountGroups(n, m, rest);
    CountAtStart("players : " + (n + (" (" + (m + (" max)" + rest)))), g);
    SimpleGroupsCount(n, m);
  }

  /** "players : H humans, B bots (M max)" or "(M/x max)": Current is H + B. */
  lemma SplitCountLine(h: string, b: string, m: string, slash: string, rest: string)
    requires h != [] && IsDigits(h) && b != [] && IsDigits(b) && m != [] && IsDigits(m)
    requires slash == [] || (|slash| >= 2 && slash[0] == '/' && IsDigits(slash[1..]))
    ensures ParsePlayerCount("players : " + (h + (" humans, " + (b + (" bots (" + (m + (slash + (" max)" + rest))))))))
         == Ok(PlayerCount(Atoi(h) + Atoi(b), Atoi(m), Atoi(h), Atoi(b)))
  {
    var g := CountGroups("", "", h, b, m);
    SplitCountGroups(h, b, m, slash, rest);
    CountAtStart("players : " + (h + (" humans, " + (b + (" bots (" + (m + (slash + (" max)" + rest))))))), g);
    SplitGroupsCount(h, b, m);
  }

  /** Without a line that starts with "players" there is no count. */
  lemma NoCountWithoutPlayersLine(input: string)
    requires forall q :: 0 <= q <= |input| && LineStart(input, q) ==> !(|input[q..]| >= 7 && input[q..][..7] == "players")
    ensures ParsePlayerCount(input) == Err(NoPlayerCount)
  {
    ParsePlayerCountFirstMatch(input);
  }

  // ---------------------------------------------------------------------------
  // # userid "name" steamid connected ping loss state [adr]

  /** The named submatches of playerRegex ("" for ip and connport when the
      optional address group did not take part). */
  datatype PlayerMatch = PlayerMatch(
    userId: string, username: string, steamId: string, ping: string,
    loss: string, state: string, ip: string, connPort: string)

  /** `\s+` then a maximal `cls+` run: the run and what follows it. */
  function Column(t: string, cls: CharClass): (r: Option<(string, string)>)
    ensures r.Some? ==> r.value.0 != [] && AllIn(r.value.0, cls) && |r.value.1| < |t|
  {
    match Take(t, Space)
    case None => None
    case Some((_, u)) => Take(u, cls)
  }

  /** `\s+([0-9]+)(\s+\d+)?\s+` after the `#`: the user id and the text from the
      opening quote on. The optional number takes part exactly when a digit
      follows the blanks after the id. */
  function UserIdAt(t: string): (r: Option<(string, string)>)
    ensures r.Some? ==> r.value.0 != [] && IsDigits(r.value.0) && |r.value.1| < |t|
  {
    match Column(t, Digit)
    case None => None
    case Some((userId, t1)) =>
      match Take(t1, Space)
      case None => None
      case Some((_, t2)) =>
        if t2 != [] && IsDigit(t2[0]) then
          match Take(Skip(t2, Digit), Space)
          case None => None
          case Some((_, t3)) => Some((userId, t3))
        else Some((userId, t2))
  }


  datatype Columns = Columns(steamId: string, ping: string, loss: string, state: string)

  /** `\s+(\S+)\s+[0-9:]+\s+([0-9]+)\s+([0-9]+)\s+([a-z]+)`. */
  function ColumnsAt(t: string): (r: Option<(Columns, string)>)
    ensures r.Some? ==> |r.value.1| < |t|
  {
    match Column(t, NonSpace)
    case None => None
    case Some((steamId, t1)) =>
      match Column(t1, DigitOrColon)
      case None => None
      case Some((_, t2)) =>
        match Column(t2, Digit)
        case None => None
        case Some((ping, t3)) =>
          match Column(t3, Digit)
          case None => None
          case Some((loss, t4)) =>
            match Column(t4, Lower)
            case None => None
            case Some((state, t5)) => Some((Columns(steamId, ping, loss, state), t5))
  }

  /** `([0-9]{1,3}.){n-1}[0-9]{1,3}` as a whole, for `groups` = n: the unescaped
      `.` accepts any character but a newline between the digit groups. */
  predicate IpPattern(x: string, groups: nat)
    decreases groups
  {
    if groups <= 1 then 1 <= |x| <= 3 && IsDigits(x)
    else
      || (GroupThen(x, 1) && IpPattern(x[2..], groups - 1))
      || (GroupThen(x, 2) && IpPattern(x[3..], groups - 1))
      || (GroupThen(x, 3) && IpPattern(x[4..], groups - 1))
  }

  /** `[0-9]{k}.`: k digits and one more character, not a newline. */
  predicate GroupThen(x: string, k: nat)
  {
    k < |x| && IsDigits(x[..k]) && x[k] != '\n'
  }

  predicate IsIp(x: string) { IpPattern(x, 4) }

  /** `\s+IP:([0-9]+)` reaching the end of the line: the port is the run of digits
      ending the line and the address everything between the blanks and the colon
      before it. Yields the address, the port and the text after the line. */
  function AddressAt(t: string): (r: Option<(string, string, string)>)
    ensures r.Some? ==> IsIp(r.value.0) && r.value.1 != [] && IsDigits(r.value.1)
    ensures r.Some? ==> AtEol(r.value.2) && |r.value.2| < |t|
  {
    match Take(t, Space)
    case None => None
    case Some((_, u)) =>
      var line := RestOfLine(u);
      match PortSplit(line)
      case None => None
      case Some((ip, port)) => Some((ip, port, u[|line|..]))
  }

  /** `IP:([0-9]+)` spanning a whole line: the digits ending the line are the
      port, and what comes before the colon in front of them must be an address. */
  function PortSplit(line: string): (r: Option<(string, string)>)
    ensures r.Some? ==> IsIp(r.value.0) && r.value.1 != [] && IsDigits(r.value.1)
  {
    var k := |line| - TrailSpan(line, Digit);
    if k < |line| && k >= 1 && line[k - 1] == ':' && IsIp(line[..k - 1])
    then Some((line[..k - 1], line[k..]))
    else None
  }

  /** `(\s+\d+)?(\s+IP:PORT)?$` after the state: both optional groups prefer to
      take part, the first before the second. Yields ip, port and the rest. */
  function TailAt(t: string): (r: Option<(string, string, string)>)
    ensures r.Some? ==> AtEol(r.value.2) && |r.value.2| <= |t|
    ensures r.Some? ==> (r.value.0 == [] && r.value.1 == []) || (IsIp(r.value.0) && r.value.1 != [] && IsDigits(r.value.1))
  {
    var afterNumber :=
      match Column(t, Digit)
      case None => None
      case Some((_, v)) => Some(v);
    if afterNumber.Some? && AddressAt(afterNumber.value).Some? then AddressAt(afterNumber.value)
    else if afterNumber.Some? && AtEol(afterNumber.value) then Some(("", "", afterNumber.value))
    else if AddressAt(t).Some? then AddressAt(t)
    else if AtEol(t) then Some(("", "", t))
    else None
  }

  /** playerRegex at the front of `t`: the submatches and the text after the match. */
  function PlayerAt(t: string): (r: Option<(PlayerMatch, string)>)
    ensures r.Some? ==> |r.value.1| < |t| && AtEol(r.value.1)
  {
    if t == [] || t[0] != '#' then None
    else match UserIdAt(t[1..])
    case None => None
    case Some((userId, t1)) =>
      match QuotedAt(t1)
      case None => None
      case Some((username, t2)) =>
        match ColumnsAt(t2)
        case None => None
        case Some((c, t3)) =>
          match TailAt(t3)
          case None => None
          case Some((ip, port, rest)) =>
            Some((PlayerMatch(userId, username, c.steamId, c.ping, c.loss, c.state, ip, port), rest))
  }

  lemma PlayerAtConsumes()
    ensures Consumes(PlayerAt)
  {
  }

  /** The matches of playerRegex in `s`, in order. */
  function Matches(s: string): seq<PlayerMatch>
  {
    PlayerAtConsumes();
    FindAll(s, 0, PlayerAt)
  }

  lemma MatchesEmpty(s: string)
    ensures Matches(s) == [] <==> NoMatchFrom(s, 0, PlayerAt)
  {
    PlayerAtConsumes();
    FindAllEmpty(s, 0, PlayerAt);
  }

  function SteamIdOf(m: PlayerMatch): string { m.steamId }

  /** The record of parser.go lines 142-155; absent numbers read as 0. */
  function PlayerOf(m: PlayerMatch): Player
  {
    Player(m.username, Atoi(m.userId), m.steamId, m.state, Atoi(m.ping), Atoi(m.loss), m.ip, Atoi(m.connPort))
  }

  /** What ParsePlayers returns: NUL characters removed, every match turned into
      a player and stored under its Steam ID, a later line overwriting an earlier. */
  function PlayersOf(input: string): Result<map<string, Player>>
  {
    var ms := Matches(StripNul(input));
    if ms == [] then Err(NoPlayers) else Ok(Collect.FromSeq(ms, SteamIdOf, PlayerOf))
  }

  method ParsePlayers(input: string) returns (r: Result<map<string, Player>>)
    ensures r == PlayersOf(input)
  {
    var clean := StripNul(input);
    var ms := Matches(clean);
    if |ms| == 0 {
      return Err(NoPlayers);
    }
    var players := Collect.InsertAll(ms, SteamIdOf, PlayerOf);
    return Ok(players);
  }

  /** NUL characters anywhere in the reply change nothing. */
  lemma PlayersIgnoreNul(a: string, b: string)
    ensures PlayersOf(a + "\0" + b) == PlayersOf(a + b)
  {
    StripNulIgnoresNul(a, b);
  }

  /** The error is returned exactly when no line of the reply is a player line. */
  lemma PlayersErrIff(input: string)
    ensures PlayersOf(input).Err? <==> NoMatchFrom(StripNul(input), 0, PlayerAt)
    ensures PlayersOf(input).Err? ==> PlayersOf(input).error == NoPlayers
  {
    MatchesEmpty(StripNul(input));
  }

  /** Every matched line has an entry under its Steam ID, every entry comes from
      a matched line, and a line that no later line shares its Steam ID with is
      the one kept. */
  lemma PlayersKeyedBySteamId(input: string, i: nat)
    requires i < |Matches(StripNul(input))|
    requires forall j :: i < j < |Matches(StripNul(input))| ==>
      Matches(StripNul(input))[j].steamId != Matches(StripNul(input))[i].steamId
    ensures PlayersOf(input).Ok? && Matches(StripNul(input))[i].steamId in PlayersOf(input).value
    ensures PlayersOf(input).value[Matches(StripNul(input))[i].steamId] == PlayerOf(Matches(StripNul(input))[i])
    ensures forall id :: id in PlayersOf(input).value ==>
      exists j :: 0 <= j < |Matches(StripNul(input))| && Matches(StripNul(input))[j].steamId == id
  {
    var ms := Matches(StripNul(input));
    Collect.FromSeqLastWins(ms, SteamIdOf, PlayerOf, i);
    Collect.FromSeqKeys(ms, SteamIdOf, PlayerOf);
  }

  // ---------------------------------------------------------------------------
  // A row of the player table, and what the parser reads back from it

  /** A remote player's address as `status` prints it: four dot-separated groups
      of one to three digits, a colon and the port. */
  datatype Address = Address(octets: seq<string>, port: string)

  /** One row of the player table: `#`, the user id, the quoted name, the Steam ID,
      the connection time, ping, loss and state, with the seven runs of blanks
      `gaps` before and between them, then ` IP:port` for a remote player. */
  datatype Row = Row(
    gaps: seq<string>, userId: string, username: string, steamId: string, connected: string,
    ping: string, loss: string, state: string, address: Option<Address>)

  predicate Gap(g: string) { g != [] && AllIn(g, Space) }

  predicate WellFormedAddress(a: Address)
  {
    && |a.octets| == 4
    && (forall i :: 0 <= i < |a.octets| ==> 1 <= |a.octets[i]| <= 3 && IsDigits(a.octets[i]))
    && Field(a.port, Digit)
  }

  predicate WellFormedRow(r: Row)
  {
    && |r.gaps| == 7 && (forall i :: 0 <= i < |r.gaps| ==> Gap(r.gaps[i]))
    && Field(r.userId, Digit) && '"' !in r.username && Field(r.steamId, NonSpace)
    && Field(r.connected, DigitOrColon) && Field(r.ping, Digit) && Field(r.loss, Digit)
    && Field(r.state, Lower)
    && (r.address.Some? ==> WellFormedAddress(r.address.value))
  }

  /** The address columns followed by `rest`. */
  function AddressThen(a: Option<Address>, rest: string): string
  {
    match a
    case None => rest
    case Some(a) => " " + (Join(a.octets, '.') + (":" + (a.port + rest)))
  }

  /** The columns from the blanks after the name to the state, followed by `tail`. */
  function ColumnsThen(r: Row, tail: string): string
    requires |r.gaps| == 7
  {
    r.gaps[2] + (r.steamId + (r.gaps[3] + (r.connected + (r.gaps[4] + (r.ping
      + (r.gaps[5] + (r.loss + (r.gaps[6] + (r.state + tail)))))))))
  }

  /** The row followed by `rest`. */
  function RowThen(r: Row, rest: string): string
    requires |r.gaps| == 7
  {
    "#" + (r.gaps[0] + (r.userId + (r.gaps[1] + ("\"" + (r.username + ("\""
      + ColumnsThen(r, AddressThen(r.address, rest))))))))
  }

  /** What may follow a row for it to be read back as printed: the end of the
      reply, or a line break after which the next non-blank text, if any, opens
      another row. (`\s` matches line breaks, so digits starting the next line
      would be taken for the optional number after the state.) */
  predicate RowEnd(rest: string)
  {
    rest == [] || (rest[0] == '\n' && (Skip(rest, Space) == [] || Skip(rest, Space)[0] == '#'))
  }

  /** The submatches the row should produce. */
  function RowMatch(r: Row): PlayerMatch
  {
    PlayerMatch(r.userId, r.username, r.steamId, r.ping, r.loss, r.state,
      if r.address.Some? then Join(r.address.value.octets, '.') else "",
      if r.address.Some? then r.address.value.port else "")
  }

  /** The player record the row describes: a local player has no address and port 0. */
  function RowPlayer(r: Row): Player
  {
    Player(r.username, Atoi(r.userId), r.steamId, r.state, Atoi(r.ping), Atoi(r.loss),
      if r.address.Some? then Join(r.address.value.octets, '.') else "",
      if r.address.Some? then Atoi(r.address.value.port) else 0)
  }

  lemma ColumnOf(blanks: string, tok: string, rest: string, cls: CharClass)
    requires Gap(blanks) && Field(tok, cls) && !In(tok[0], Space)
    requires rest == [] || !In(rest[0], cls)
    ensures Column(blanks + (tok + rest), cls) == Some((tok, rest))
  {
    TakeOf(blanks, tok + rest, Space);
    TakeOf(tok, rest, cls);
  }

  lemma UserIdOf(g0: string, userId: string, g1: string, rest: string)
    requires Gap(g0) && Field(userId, Digit) && Gap(g1)
    requires rest != [] && rest[0] == '"'
    ensures UserIdAt(g0 + (userId + (g1 + rest))) == Some((userId, rest))
  {
    ColumnOf(g0, userId, g1 + rest, Digit);
    TakeOf(g1, rest, Space);
  }



  lemma ColumnsSteps(t: string, steamId: string, t1: string, t2: string, ping: string, t3: string,
                     loss: string, t4: string, state: string, t5: string)
    requires Column(t, NonSpace) == Some((steamId, t1))
    requires Column(t1, DigitOrColon).Some? && Column(t1, DigitOrColon).value.1 == t2
    requires Column(t2, Digit) == Some((ping, t3))
    requires Column(t3, Digit) == Some((loss, t4))
    requires Column(t4, Lower) == Some((state, t5))
    ensures ColumnsAt(t) == Some((Columns(steamId, ping, loss, state), t5))
  {
  }

  /** A field of the row followed by a gap. */
  lemma FieldThenGap(blanks: string, tok: string, g: string, rest: string, cls: CharClass)
    requires cls == NonSpace || cls == DigitOrColon || cls == Digit
    requires Gap(blanks) && Field(tok, cls) && Gap(g)
    ensures Column(blanks + (tok + (g + rest)), cls) == Some((tok, g + rest))
  {
    assert (g + rest)[0] == g[0];
    ColumnOf(blanks, tok, g + rest, cls);
  }

  lemma ColumnsOf(g2: string, steamId: string, g3: string, connected: string, g4: string,
                  ping: string, g5: string, loss: string, g6: string, state: string, tail: string)
    requires Gap(g2) && Gap(g3) && Gap(g4) && Gap(g5) && Gap(g6)
    requires Field(steamId, NonSpace) && Field(connected, DigitOrColon)
    requires Field(ping, Digit) && Field(loss, Digit) && Field(state, Lower)
    requires tail == [] || !In(tail[0], Lower)
    ensures ColumnsAt(g2 + (steamId + (g3 + (connected + (g4 + (ping + (g5 + (loss + (g6 + (state + tail))))))))))
         == Some((Columns(steamId, ping, loss, state), tail))
  {
    var t4 := g6 + (state + tail);
    var t3 := g5 + (loss + t4);
    var t2 := g4 + (ping + t3);
    var t1 := g3 + (connected + t2);
    assert Column(g2 + (steamId + t1), NonSpace) == Some((steamId, t1)) by {
      FieldThenGap(g2, steamId, g3, connected + t2, NonSpace);
    }
    assert Column(t1, DigitOrColon) == Some((connected, t2)) by {
      FieldThenGap(g3, connected, g4, ping + t3, DigitOrColon);
    }
    assert Column(t2, Digit) == Some((ping, t3)) by { FieldThenGap(g4, ping, g5, loss + t4, Digit); }
    assert Column(t3, Digit) == Some((loss, t4)) by { FieldThenGap(g5, loss, g6, state + tail, Digit); }
    assert Column(t4, Lower) == Some((state, tail)) by { ColumnOf(g6, state, tail, Lower); }
    ColumnsSteps(g2 + (steamId + t1), steamId, t1, t2, ping, t3, loss, t4, state, tail);
  }

  /** An address matching the IP pattern starts with a digit. */
  lemma IpHead(x: string, groups: nat)
    requires IpPattern(x, groups)
    ensures x != [] && IsDigit(x[0])
  {
    if groups > 1 {
      var k := if GroupThen(x, 1) && IpPattern(x[2..], groups - 1) then 1
        else if GroupThen(x, 2) && IpPattern(x[3..], groups - 1) then 2 else 3;
      assert x[..k][0] == x[0];
    }
  }

  /** Dot-separated groups of one to three digits match the IP pattern. */
  lemma {:induction false} DottedIsIp(o: seq<string>)
    requires |o| >= 1
    requires forall i :: 0 <= i < |o| ==> 1 <= |o[i]| <= 3 && IsDigits(o[i])
    ensures IpPattern(Join(o, '.'), |o|) && AllIn(Join(o, '.'), DigitOrDot)
  {
    var x := Join(o, '.');
    if |o| == 1 {
      assert x == o[0];
    } else {
      var y := Join(o[1..], '.');
      assert forall i :: 0 <= i < |o| - 1 ==> o[1..][i] == o[i + 1];
      DottedIsIp(o[1..]);
      var k := |o[0]|;
      assert x == o[0] + ['.'] + y;
      assert x[..k] == o[0];
      assert x[k + 1..] == y;
      assert GroupThen(x, k) && IpPattern(x[k + 1..], |o| - 1);
      forall j | 0 <= j < |x| ensures In(x[j], DigitOrDot) {
        if j > k {
          assert x[j] == y[j - k - 1];
        }
      }
    }
  }

  lemma AddressNoNewline(ip: string, port: string)
    requires AllIn(ip, DigitOrDot) && Field(port, Digit)
    ensures '\n' !in ip + ":" + port
  {
    var line := ip + ":" + port;
    forall j | 0 <= j < |line| ensures line[j] != '\n' {
      if j > |ip| {
        assert line[j] == port[j - |ip| - 1];
      }
    }
  }

  /** The line of an address: the colon before the trailing digits separates it. */
  lemma PortSplitOf(ip: string, port: string)
    requires IsIp(ip) && Field(port, Digit)
    ensures PortSplit(ip + ":" + port) == Some((ip, port))
  {
    var line := ip + ":" + port;
    assert TrailSpan(line, Digit) == |port| by { TrailSpanOf(ip + ":", port, Digit); }
    assert line[..|ip|] == ip && line[|ip| + 1..] == port;
  }

  lemma AddressAtOf(ip: string, port: string, rest: string)
    requires IsIp(ip) && AllIn(ip, DigitOrDot) && Field(port, Digit) && AtEol(rest)
    ensures AddressAt(" " + (ip + (":" + (port + rest)))) == Some((ip, port, rest))
  {
    var u := ip + (":" + (port + rest));
    var line := ip + ":" + port;
    assert u == line + rest;
    assert Take(" " + u, Space) == Some((" ", u)) by {
      IpHead(ip, 4);
      assert u[0] == ip[0];
      TakeOf(" ", u, Space);
    }
    PortSplitOf(ip, port);
    AddressNoNewline(ip, port);
    assert RestOfLine(u) == line && u[|line|..] == rest by {
      RestOfLineOf(line, rest);
      Halves(line, rest);
    }
  }

  /** Before an address, the optional number takes the first group of digits and
      then meets the dot, so it cannot take part. */
  lemma NumberStopsAtDot(o: seq<string>, after: string)
    requires |o| >= 2 && Field(o[0], Digit)
    ensures match Column(" " + (Join(o, '.') + after), Digit)
      case Some((_, v)) => v != [] && v[0] == '.'
      case None => true
  {
    var y := Join(o[1..], '.');
    var v := (['.'] + y) + after;
    assert Join(o, '.') + after == o[0] + v;
    assert v[0] == '.';
    ColumnOf(" ", o[0], v, Digit);
  }

  /** When the optional number cannot be followed by anything, the address decides. */
  lemma TailFromAddress(t: string, ip: string, port: string, rest: string)
    requires AddressAt(t) == Some((ip, port, rest))
    requires match Column(t, Digit)
      case Some((_, v)) => v != [] && v[0] == '.'
      case None => true
    ensures TailAt(t) == Some((ip, port, rest))
  {
    match Column(t, Digit)
    case None =>
    case Some((_, v)) => DotEndsNothing(v);
  }

  /** A dot can neither start the address group nor end the line. */
  lemma DotEndsNothing(v: string)
    requires v != [] && v[0] == '.'
    ensures AddressAt(v).None? && !AtEol(v)
  {
    assert Take(v, Space).None?;
  }

  lemma TailAddressOf(a: Address, rest: string)
    requires WellFormedAddress(a) && AtEol(rest)
    ensures TailAt(AddressThen(Some(a), rest)) == Some((Join(a.octets, '.'), a.port, rest))
  {
    var ip := Join(a.octets, '.');
    var t := " " + (ip + (":" + (a.port + rest)));
    assert AddressAt(t) == Some((ip, a.port, rest)) by {
      DottedIsIp(a.octets);
      AddressAtOf(ip, a.port, rest);
    }
    assert Field(a.octets[0], Digit);
    NumberStopsAtDot(a.octets, ":" + (a.port + rest));
    TailFromAddress(t, ip, a.port, rest);
  }

  lemma TailNone(rest: string)
    requires RowEnd(rest)
    ensures TailAt(rest) == Some(("", "", rest))
  {
    if rest != [] {
      var u := Skip(rest, Space);
      assert Take(rest, Space).value.1 == u;
      assert Column(rest, Digit).None?;
      if u != [] {
        HashNotAddress(u);
      }
    }
  }

  /** A line that starts with `#` holds no address. */
  lemma HashNotAddress(u: string)
    requires u != [] && u[0] == '#'
    ensures PortSplit(RestOfLine(u)).None?
  {
    var line := RestOfLine(u);
    assert line != [] && line[0] == '#';
    var k := |line| - TrailSpan(line, Digit);
    if k < |line| && k >= 1 && line[k - 1] == ':' && IsIp(line[..k - 1]) {
      IpHead(line[..k - 1], 4);
      assert false;
    }
  }

  /** The columns after the state: ` IP:port` for a remote player, nothing for a
      local one. */
  lemma TailOf(a: Option<Address>, rest: string)
    requires a.Some? ==> WellFormedAddress(a.value)
    requires RowEnd(rest)
    ensures TailAt(AddressThen(a, rest)) == Some((
      if a.Some? then Join(a.value.octets, '.') else "",
      if a.Some? then a.value.port else "",
      rest))
    ensures AddressThen(a, rest) == [] || !In(AddressThen(a, rest)[0], Lower)
  {
    if a.Some? {
      TailAddressOf(a.value, rest);
    } else {
      TailNone(rest);
    }
  }

  lemma PlayerSteps(u: string, userId: string, t1: string, username: string, t2: string,
                    c: Columns, t3: string, ip: string, port: string, rest: string)
    requires UserIdAt(u) == Some((userId, t1))
    requires QuotedAt(t1) == Some((username, t2))
    requires ColumnsAt(t2) == Some((c, t3))
    requires TailAt(t3) == Some((ip, port, rest))
    ensures PlayerAt("#" + u) == Some((PlayerMatch(userId, username, c.steamId, c.ping, c.loss, c.state, ip, port), rest))
  {
    Halves("#", u);
  }

  /** A well-formed row is read back as printed: playerRegex matches it up to the
      end of its line, with each column as its submatch. */
  lemma RowParses(r: Row, rest: string)
    requires WellFormedRow(r) && RowEnd(rest)
    ensures PlayerAt(RowThen(r, rest)) == Some((RowMatch(r), rest))
  {
    var tail := AddressThen(r.address, rest);
    TailOf(r.address, rest);
    var g := r.gaps;
    assert Gap(g[0]) && Gap(g[1]) && Gap(g[2]) && Gap(g[3]) && Gap(g[4]) && Gap(g[5]) && Gap(g[6]);
    var cols := ColumnsThen(r, tail);
    var c := Columns(r.steamId, r.ping, r.loss, r.state);
    assert ColumnsAt(cols) == Some((c, tail)) by {
      ColumnsOf(g[2], r.steamId, g[3], r.connected, g[4], r.ping, g[5], r.loss, g[6], r.state, tail);
    }
    var q := "\"" + (r.username + ("\"" + cols));
    assert QuotedAt(q) == Some((r.username, cols)) by { QuotedOf(r.username, cols); }
    assert UserIdAt(g[0] + (r.userId + (g[1] + q))) == Some((r.userId, q)) by {
      UserIdOf(g[0], r.userId, g[1], q);
    }
    PlayerSteps(g[0] + (r.userId + (g[1] + q)), r.userId, q, r.username, cols, c, tail,
      RowMatch(r).ip, RowMatch(r).connPort, rest);
  }

  lemma AddressThenEnds(a: Option<Address>, rest: string)
    ensures EndsWith(AddressThen(a, rest), rest)
  {
    assert EndsWith(rest, rest);
    if a.Some? {
      var t1 := a.value.port + rest;
      EndsWithPrepend(a.value.port, rest, rest);
      var t2 := ":" + t1;
      EndsWithPrepend(":", t1, rest);
      var t3 := Join(a.value.octets, '.') + t2;
      EndsWithPrepend(Join(a.value.octets, '.'), t2, rest);
      EndsWithPrepend(" ", t3, rest);
    }
  }

  lemma ColumnsThenEnds(r: Row, tail: string)
    requires |r.gaps| == 7
    ensures EndsWith(ColumnsThen(r, tail), tail)
  {
    var g := r.gaps;
    assert EndsWith(tail, tail);
    var t1 := r.state + tail;         EndsWithPrepend(r.state, tail, tail);
    var t2 := g[6] + t1;              EndsWithPrepend(g[6], t1, tail);
    var t3 := r.loss + t2;            EndsWithPrepend(r.loss, t2, tail);
    var t4 := g[5] + t3;              EndsWithPrepend(g[5], t3, tail);
    var t5 := r.ping + t4;            EndsWithPrepend(r.ping, t4, tail);
    var t6 := g[4] + t5;              EndsWithPrepend(g[4], t5, tail);
    var t7 := r.connected + t6;       EndsWithPrepend(r.connected, t6, tail);
    var t8 := g[3] + t7;              EndsWithPrepend(g[3], t7, tail);
    var t9 := r.steamId + t8;         EndsWithPrepend(r.steamId, t8, tail);
    EndsWithPrepend(g[2], t9, tail);
  }

  /** The text after a row is what the row's text ends with. */
  lemma RowThenEnds(r: Row, rest: string)
    requires |r.gaps| == 7
    ensures EndsWith(RowThen(r, rest), rest)
  {
    var g := r.gaps;
    var tail := AddressThen(r.address, rest);
    AddressThenEnds(r.address, rest);
    var t0 := ColumnsThen(r, tail);
    assert EndsWith(t0, rest) by {
      ColumnsThenEnds(r, tail);
    }
    var t1 := "\"" + t0;             EndsWithPrepend("\"", t0, rest);
    var t2 := r.username + t1;        EndsWithPrepend(r.username, t1, rest);
    var t3 := "\"" + t2;             EndsWithPrepend("\"", t2, rest);
    var t4 := g[1] + t3;              EndsWithPrepend(g[1], t3, rest);
    var t5 := r.userId + t4;          EndsWithPrepend(r.userId, t4, rest);
    var t6 := g[0] + t5;              EndsWithPrepend(g[0], t5, rest);
    EndsWithPrepend("#", t6, rest);
  }

  predicate WellFormedRows(rows: seq<Row>)
  {
    forall i :: 0 <= i < |rows| ==> WellFormedRow(rows[i])
  }

  /** Rows printed one per line. */
  function Table(rows: seq<Row>): string
    requires WellFormedRows(rows)
    decreases |rows|, 1
  {
    if rows == [] then "" else RowThen(rows[0], TableRest(rows))
  }

  /** What follows the first row of a table. */
  function TableRest(rows: seq<Row>): string
    requires rows != [] && WellFormedRows(rows)
    decreases |rows|, 0
  {
    if |rows| == 1 then "" else "\n" + Table(rows[1..])
  }

  function RowMatches(rows: seq<Row>): seq<PlayerMatch>
  {
    seq(|rows|, i requires 0 <= i < |rows| => RowMatch(rows[i]))
  }

  function RowSteamId(r: Row): string { r.steamId }

  /** The first row of a table is matched and followed by the others. */
  lemma TableHead(s: string, p: nat, rows: seq<Row>)
    requires rows != [] && WellFormedRows(rows)
    requires p <= |s| && s[p..] == Table(rows)
    ensures PlayerAt(s[p..]) == Some((RowMatch(rows[0]), TableRest(rows)))
    ensures EndsWith(s, TableRest(rows))
  {
    var rest := TableRest(rows);
    var r := rows[0];
    assert WellFormedRow(r);
    assert s[p..] == RowThen(r, rest);
    assert RowEnd(rest) by {
      if |rows| > 1 {
        SkipOf("\n", Table(rows[1..]), Space);
      }
    }
    assert PlayerAt(RowThen(r, rest)) == Some((RowMatch(r), rest)) by { RowParses(r, rest); }
    assert EndsWith(s, rest) by {
      RowThenEnds(r, rest);
      EndsWithSlice(s, p, rest);
    }
  }

  /** The rows of a table are its lines, each matched whole. */
  lemma {:induction false} TableLines(s: string, p: nat, rows: seq<Row>)
    requires rows != [] && WellFormedRows(rows)
    requires p <= |s| && LineStart(s, p) && s[p..] == Table(rows)
    ensures MatchLines(s, p, PlayerAt, RowMatches(rows))
    decreases |rows|
  {
    if |rows| == 1 {
      TableHead(s, p, rows);
      RowMatchesCons(rows);
      assert RowMatches(rows[1..]) == [];
      MatchLinesLast(s, p, PlayerAt, RowMatch(rows[0]));
    } else {
      var q := |s| - |TableRest(rows)| + 1;
      TableNext(s, p, rows, q);
      TableLines(s, q, rows[1..]);
      TableStep(s, p, rows, q);
    }
  }

  /** The next row starts on the line after the first. */
  lemma TableNext(s: string, p: nat, rows: seq<Row>, q: nat)
    requires |rows| > 1 && WellFormedRows(rows)
    requires p <= |s| && s[p..] == Table(rows) && q == |s| - |TableRest(rows)| + 1
    ensures q <= |s| && LineStart(s, q) && s[q..] == Table(rows[1..])
  {
    var rest := TableRest(rows);
    TableHead(s, p, rows);
    assert s[q - 1..] == rest;
    assert s[q..] == s[q - 1..][1..];
  }

  /** A first row followed by the lines of the rest is the lines of the table. */
  lemma TableStep(s: string, p: nat, rows: seq<Row>, q: nat)
    requires |rows| > 1 && WellFormedRows(rows)
    requires p <= |s| && LineStart(s, p) && s[p..] == Table(rows) && q == |s| - |TableRest(rows)| + 1
    requires MatchLines(s, q, PlayerAt, RowMatches(rows[1..]))
    ensures MatchLines(s, p, PlayerAt, RowMatches(rows))
  {
    var rest := TableRest(rows);
    TableHead(s, p, rows);
    RowMatchesCons(rows);
    assert PlayerAt(rest) == None;
    MatchLinesCons(s, p, PlayerAt, RowMatch(rows[0]), rest, q, RowMatches(rows[1..]));
  }

  /** Every row of a table is matched, in order, and nothing else is. */
  lemma TableMatches(rows: seq<Row>)
    requires rows != [] && WellFormedRows(rows)
    ensures Matches(Table(rows)) == RowMatches(rows)
  {
    var s := Table(rows);
    PlayerAtConsumes();
    TableLines(s, 0, rows);
    FindAllLines(s, 0, PlayerAt, RowMatches(rows));
  }

  lemma RowMatchesCons(rows: seq<Row>)
    requires rows != []
    ensures RowMatches(rows) == [RowMatch(rows[0])] + RowMatches(rows[1..])
  {
  }

  lemma {:induction false} RowsCollect(rows: seq<Row>)
    ensures Collect.FromSeq(RowMatches(rows), SteamIdOf, PlayerOf) == Collect.FromSeq(rows, RowSteamId, RowPlayer)
  {
    if rows != [] {
      var init := rows[..|rows| - 1];
      RowsCollect(init);
      assert RowMatches(rows)[..|rows| - 1] == RowMatches(init);
    }
  }

  /** A reply made of well-formed rows yields each row's player under its Steam ID,
      a later row replacing an earlier one with the same Steam ID. */
  lemma TablePlayers(rows: seq<Row>)
    requires rows != [] && WellFormedRows(rows)
    requires '\0' !in Table(rows)
    ensures PlayersOf(Table(rows)) == Ok(Collect.FromSeq(rows, RowSteamId, RowPlayer))
  {
    var s := Table(rows);
    StripNulNoNul(s);
    TableMatches(rows);
    RowsCollect(rows);
  }
}
