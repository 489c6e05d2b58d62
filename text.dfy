/** Text primitives shared by both status parsers: the character classes their
    regular expressions use, maximal runs of a class, Go's multi-line anchors,
    first-match search, strconv.Atoi on digit strings, NUL stripping and
    strings.Split / strings.Join on a one-character separator. */
module Text {
  import opened Base

  /** The character classes appearing in the parsers' regular expressions. */
  datatype CharClass =
    | Space        // \s in Go's RE2 syntax: [\t\n\f\r ]
    | NonSpace     // \S
    | Digit        // [0-9], \d
    | Lower        // [a-z]
    | MapChar      // [a-zA-Z_0-9-]
    | LetterOrUnderscore // [a-zA-Z_]
    | NotQuote     // [^"]
    | NotNewline   // . (Go's dot does not match \n)
    | DigitOrColon // [0-9:]
    | Blank        // [ ]
    | DigitOrDot   // [0-9.]

  predicate IsDigit(c: char) { '0' <= c <= '9' }

  predicate IsSpace(c: char) { c == ' ' || c == '\t' || c == '\n' || c == 12 as char || c == '\r' }

  predicate In(c: char, cls: CharClass)
  {
    match cls
    case Space => IsSpace(c)
    case NonSpace => !IsSpace(c)
    case Digit => IsDigit(c)
    case Lower => 'a' <= c <= 'z'
    case MapChar => 'a' <= c <= 'z' || 'A' <= c <= 'Z' || IsDigit(c) || c == '_' || c == '-'
    case LetterOrUnderscore => 'a' <= c <= 'z' || 'A' <= c <= 'Z' || c == '_'
    case NotQuote => c != '"'
    case NotNewline => c != '\n'
    case DigitOrColon => IsDigit(c) || c == ':'
    case Blank => c == ' '
    case DigitOrDot => IsDigit(c) || c == '.'
  }

  predicate AllIn(s: string, cls: CharClass)
  {
    forall k :: 0 <= k < |s| ==> In(s[k], cls)
  }

  /** Length of the longest prefix of `t` made of `cls` characters: what a greedy
      `cls*` consumes. */
  function Span(t: string, cls: CharClass): (n: nat)
    ensures n <= |t|
    ensures forall k :: 0 <= k < n ==> In(t[k], cls)
    ensures n == |t| || !In(t[n], cls)
  {
    if t != [] && In(t[0], cls) then 1 + Span(t[1..], cls) else 0
  }

  /** A greedy `cls+`: the non-empty maximal run at the front of `t` and what follows it. */
  function Take(t: string, cls: CharClass): (r: Option<(string, string)>)
    ensures r.None? <==> t == [] || !In(t[0], cls)
    ensures r.Some? ==> r.value.0 != [] && r.value.0 + r.value.1 == t && AllIn(r.value.0, cls)
    ensures r.Some? ==> r.value.1 == [] || !In(r.value.1[0], cls)
  {
    var n := Span(t, cls);
    if n == 0 then None
    else
      assert t[..n] + t[n..] == t;
      Some((t[..n], t[n..]))
  }

  /** A greedy `cls*`: what follows the maximal run at the front of `t`. */
  function Skip(t: string, cls: CharClass): (rest: string)
    ensures |rest| <= |t| && rest == t[|t| - |rest|..]
    ensures AllIn(t[..|t| - |rest|], cls)
    ensures rest == [] || !In(rest[0], cls)
  {
    t[Span(t, cls)..]
  }

  /** A maximal run is determined by where the class stops. */
  lemma TakeOf(tok: string, rest: string, cls: CharClass)
    requires tok != [] && AllIn(tok, cls)
    requires rest == [] || !In(rest[0], cls)
    ensures Take(tok + rest, cls) == Some((tok, rest))
  {
    var t := tok + rest;
    assert t[..|tok|] == tok && t[|tok|..] == rest;
  }

  lemma SkipOf(run: string, rest: string, cls: CharClass)
    requires AllIn(run, cls)
    requires rest == [] || !In(rest[0], cls)
    ensures Skip(run + rest, cls) == rest
  {
    var t := run + rest;
    assert t[|run|..] == rest;
  }

  lemma SpanOf(run: string, rest: string, cls: CharClass)
    requires AllIn(run, cls)
    requires rest == [] || !In(rest[0], cls)
    ensures Span(run + rest, cls) == |run|
  {
    SkipOf(run, rest, cls);
  }

  /** A non-empty token of one class, as a column of the player table. */
  predicate Field(s: string, cls: CharClass) { s != [] && AllIn(s, cls) }

  /** `"([^"]*)"`: the quoted text and what follows the closing quote. */
  function QuotedAt(t: string): (r: Option<(string, string)>)
    ensures r.Some? ==> '"' !in r.value.0 && |r.value.1| < |t|
  {
    if t == [] || t[0] != '"' then None
    else
      var n := Span(t[1..], NotQuote);
      if n == |t| - 1 then None
      else
        assert forall k :: 0 <= k < n ==> t[1..][..n][k] == t[1..][k];
        Some((t[1..][..n], t[1..][n + 1..]))
  }

  lemma QuotedOf(name: string, rest: string)
    requires '"' !in name
    ensures QuotedAt("\"" + (name + ("\"" + rest))) == Some((name, rest))
  {
    Halves("\"", name + ("\"" + rest));
    SpanOf(name, "\"" + rest, NotQuote);
    Halves(name, "\"" + rest);
    Halves("\"", rest);
  }

  // ---------------------------------------------------------------------------
  // Go's (?m) anchors and leftmost-match search

  /** `^` in multi-line mode: the start of the text or just after a newline. */
  predicate LineStart(s: string, p: nat)
  {
    p == 0 || (0 < p <= |s| && s[p - 1] == '\n')
  }

  /** `$` in multi-line mode, at the front of the remaining text. */
  predicate AtEol(t: string)
  {
    t == [] || t[0] == '\n'
  }

  /** The rest of the current line: what a greedy `.*` consumes. */
  function RestOfLine(t: string): (line: string)
    ensures '\n' !in line && |line| <= |t|
    ensures line == t[..|line|] && AtEol(t[|line|..])
  {
    var n := Span(t, NotNewline);
    assert forall k :: 0 <= k < n ==> t[..n][k] != '\n';
    t[..n]
  }

  /** No position from `p` on where a line starts and `at` recognises the text. */
  ghost predicate NoMatchFrom<T>(s: string, p: nat, at: string -> Option<T>)
  {
    forall q :: p <= q <= |s| && LineStart(s, q) ==> at(s[q..]).None?
  }

  /** `p` is the leftmost position where a line starts and `at` recognises the text. */
  ghost predicate FirstMatch<T>(s: string, p: nat, at: string -> Option<T>)
  {
    && p <= |s| && LineStart(s, p) && at(s[p..]).Some?
    && forall q :: 0 <= q < p && LineStart(s, q) ==> at(s[q..]).None?
  }

  /** Regexp.FindStringSubmatch for a pattern that starts with `^` under (?m):
      the leftmost line start from `p` on where the pattern matches. */
  function FindFirst<T>(s: string, p: nat, at: string -> Option<T>): (r: Option<(nat, T)>)
    requires p <= |s|
    ensures r.Some? ==> p <= r.value.0 <= |s| && LineStart(s, r.value.0)
    ensures r.Some? ==> at(s[r.value.0..]) == Some(r.value.1)
    ensures r.Some? ==> forall q :: p <= q < r.value.0 && LineStart(s, q) ==> at(s[q..]).None?
    ensures r.None? <==> NoMatchFrom(s, p, at)
    decreases |s| - p
  {
    if LineStart(s, p) && at(s[p..]).Some? then Some((p, at(s[p..]).value))
    else if p == |s| then None
    else FindFirst(s, p + 1, at)
  }

  /** The search from the start of the text finds exactly the first match. */
  lemma FindFirstIsFirstMatch<T>(s: string, at: string -> Option<T>)
    ensures forall p: nat :: FirstMatch(s, p, at) ==> FindFirst(s, 0, at) == Some((p, at(s[p..]).value))
    ensures NoMatchFrom(s, 0, at) ==> FindFirst(s, 0, at) == None
  {
    var r := FindFirst(s, 0, at);
    forall p: nat | FirstMatch(s, p, at)
      ensures r == Some((p, at(s[p..]).value))
    {
      assert r.Some?;
    }
  }

  /** A recogniser that always consumes something. */
  ghost predicate Consumes<T>(at: string -> Option<(T, string)>)
  {
    forall t :: at(t).Some? ==> |at(t).value.1| < |t|
  }

  /** Regexp.FindAllStringSubmatch(s, -1) for a pattern that starts with `^` under
      (?m) and never matches the empty string: the matches from position `p` on,
      each search resuming where the previous match ended. */
  function FindAll<T>(s: string, p: nat, at: string -> Option<(T, string)>): (ms: seq<T>)
    requires p <= |s| && Consumes(at)
    decreases |s| - p
  {
    if LineStart(s, p) && at(s[p..]).Some? then
      [at(s[p..]).value.0] + FindAll(s, |s| - |at(s[p..]).value.1|, at)
    else if p == |s| then []
    else FindAll(s, p + 1, at)
  }

  /** There are no matches exactly when no line start from `p` on matches. */
  lemma {:induction false} FindAllEmpty<T>(s: string, p: nat, at: string -> Option<(T, string)>)
    requires p <= |s| && Consumes(at)
    ensures FindAll(s, p, at) == [] <==> NoMatchFrom(s, p, at)
    decreases |s| - p
  {
    if LineStart(s, p) && at(s[p..]).Some? {
    } else if p < |s| {
      FindAllEmpty(s, p + 1, at);
    }
  }

  /** A match at `p`: the search resumes where it ends. */
  lemma FindAllMatch<T>(s: string, p: nat, at: string -> Option<(T, string)>, x: T, rest: string)
    requires p <= |s| && Consumes(at) && LineStart(s, p) && at(s[p..]) == Some((x, rest))
    ensures FindAll(s, p, at) == [x] + FindAll(s, |s| - |rest|, at)
  {
  }

  /** No match at a line break: the search goes on at the next line. */
  lemma FindAllSkipBreak<T>(s: string, q: nat, at: string -> Option<(T, string)>)
    requires q < |s| && s[q] == '\n' && Consumes(at) && at(s[q..]).None?
    ensures LineStart(s, q + 1) && FindAll(s, q, at) == FindAll(s, q + 1, at)
  {
  }

  lemma FindAllEnd<T>(s: string, at: string -> Option<(T, string)>)
    requires Consumes(at) && at([]).None?
    ensures FindAll(s, |s|, at) == []
  {
    assert s[|s|..] == [];
  }

  /** From `p` on, `s` is a run of lines each matched whole by `at`, with values
      `xs`, and nothing after the last. */
  ghost predicate MatchLines<T>(s: string, p: nat, at: string -> Option<(T, string)>, xs: seq<T>)
    decreases |xs|
  {
    && p <= |s| && LineStart(s, p) && xs != []
    && at(s[p..]).Some? && at(s[p..]).value.0 == xs[0]
    && var rest := at(s[p..]).value.1;
      && EndsWith(s, rest)
      && if |xs| == 1 then rest == []
         else rest != [] && rest[0] == '\n' && at(rest).None? && MatchLines(s, |s| - |rest| + 1, at, xs[1..])
  }

  lemma MatchLinesLast<T>(s: string, p: nat, at: string -> Option<(T, string)>, x: T)
    requires p <= |s| && LineStart(s, p) && at(s[p..]) == Some((x, []))
    ensures MatchLines(s, p, at, [x])
  {
  }

  lemma MatchLinesCons<T>(s: string, p: nat, at: string -> Option<(T, string)>, x: T, rest: string,
                          q: nat, xs: seq<T>)
    requires p <= |s| && LineStart(s, p) && at(s[p..]) == Some((x, rest)) && EndsWith(s, rest)
    requires rest != [] && rest[0] == '\n' && at(rest).None?
    requires q == |s| - |rest| + 1 && MatchLines(s, q, at, xs)
    ensures MatchLines(s, p, at, [x] + xs)
  {
    assert ([x] + xs)[1..] == xs;
  }

  /** Such a run is exactly what the search finds. */
  lemma {:induction false} FindAllLines<T>(s: string, p: nat, at: string -> Option<(T, string)>, xs: seq<T>)
    requires Consumes(at) && at([]).None? && MatchLines(s, p, at, xs)
    ensures FindAll(s, p, at) == xs
    decreases |xs|
  {
    var rest := at(s[p..]).value.1;
    var q := |s| - |rest|;
    assert s[q..] == rest;
    FindAllMatch(s, p, at, xs[0], rest);
    if |xs| == 1 {
      FindAllEnd(s, at);
    } else {
      FindAllSkipBreak(s, q, at);
      FindAllLines(s, q + 1, at, xs[1..]);
    }
  }

  /** `r` is what `t` ends with. */
  predicate EndsWith(t: string, r: string)
  {
    |r| <= |t| && t[|t| - |r|..] == r
  }

  lemma EndsWithPrepend(a: string, t: string, r: string)
    requires EndsWith(t, r)
    ensures EndsWith(a + t, r)
  {
    assert (a + t)[|a + t| - |r|..] == t[|t| - |r|..];
  }

  lemma EndsWithSlice(s: string, p: nat, r: string)
    requires p <= |s| && EndsWith(s[p..], r)
    ensures EndsWith(s, r)
  {
    assert s[|s| - |r|..] == s[p..][|s[p..]| - |r|..];
  }

  lemma Halves(a: string, b: string)
    ensures (a + b)[..|a|] == a && (a + b)[|a|..] == b
  {
  }

  // ---------------------------------------------------------------------------
  // FindStringSubmatch applied to each line of a list

  /** Every non-empty line has a match. */
  predicate EachLineMatches<T>(lines: seq<string>, at: string -> Option<T>)
  {
    lines == [] ||
    (&& EachLineMatches(lines[..|lines| - 1], at)
     && (lines[|lines| - 1] != "" ==> FindFirst(lines[|lines| - 1], 0, at).Some?))
  }

  lemma {:induction false} EachLineMatchesAt<T>(lines: seq<string>, i: nat, at: string -> Option<T>)
    requires EachLineMatches(lines, at) && i < |lines| && lines[i] != ""
    ensures FindFirst(lines[i], 0, at).Some?
  {
    if i < |lines| - 1 {
      EachLineMatchesAt(lines[..|lines| - 1], i, at);
    }
  }

  lemma {:induction false} EachLineMatchesPrefix<T>(lines: seq<string>, n: nat, at: string -> Option<T>)
    requires EachLineMatches(lines, at) && n <= |lines|
    ensures EachLineMatches(lines[..n], at)
  {
    if n < |lines| {
      EachLineMatchesPrefix(lines[..|lines| - 1], n, at);
      assert lines[..|lines| - 1][..n] == lines[..n];
    } else {
      assert lines[..n] == lines;
    }
  }

  /** The submatches of a line that has a match. */
  function MatchOf<T>(line: string, at: string -> Option<T>): T
    requires FindFirst(line, 0, at).Some?
  {
    FindFirst(line, 0, at).value.1
  }

  /** The submatches of the non-empty lines, in order. */
  function LineMatches<T>(lines: seq<string>, at: string -> Option<T>): (ms: seq<T>)
    requires EachLineMatches(lines, at)
    ensures |ms| <= |lines|
  {
    if lines == [] then []
    else
      var last := lines[|lines| - 1];
      LineMatches(lines[..|lines| - 1], at) + (if last == "" then [] else [MatchOf(last, at)])
  }

  lemma LineMatchesSnoc<T>(lines: seq<string>, line: string, at: string -> Option<T>)
    requires EachLineMatches(lines, at)
    requires line != "" ==> FindFirst(line, 0, at).Some?
    ensures EachLineMatches(lines + [line], at)
    ensures LineMatches(lines + [line], at)
         == LineMatches(lines, at) + (if line == "" then [] else [MatchOf(line, at)])
  {
    assert (lines + [line])[..|lines|] == lines;
  }

  lemma {:induction false} LineMatchesAppend<T>(a: seq<string>, b: seq<string>, at: string -> Option<T>)
    requires EachLineMatches(a, at) && EachLineMatches(b, at)
    ensures EachLineMatches(a + b, at)
    ensures LineMatches(a + b, at) == LineMatches(a, at) + LineMatches(b, at)
  {
    if b == [] {
      assert a + b == a;
    } else {
      var init := b[..|b| - 1];
      var last := b[|b| - 1];
      LineMatchesAppend(a, init, at);
      assert a + b == (a + init) + [last] by { AppendLast(a, b); }
      LineMatchesSnoc(a + init, last, at);
    }
  }

  lemma AppendLast<T>(a: seq<T>, b: seq<T>)
    requires b != []
    ensures a + b == (a + b[..|b| - 1]) + [b[|b| - 1]]
  {
  }

  /** An empty line contributes nothing. */
  lemma EmptyLineSkipped<T>(a: seq<string>, b: seq<string>, at: string -> Option<T>)
    requires EachLineMatches(a, at) && EachLineMatches(b, at)
    ensures EachLineMatches(a + [""] + b, at) && EachLineMatches(a + b, at)
    ensures LineMatches(a + [""] + b, at) == LineMatches(a + b, at)
  {
    LineMatchesSnoc(a, "", at);
    LineMatchesAppend(a + [""], b, at);
    LineMatchesAppend(a, b, at);
  }

  /** A match at the very start of the text is the one found. */
  lemma FindAtStart<T>(s: string, at: string -> Option<T>)
    requires at(s).Some?
    ensures FindFirst(s, 0, at) == Some((0, at(s).value))
  {
    assert s[0..] == s;
  }

  lemma RestOfLineOf(line: string, rest: string)
    requires '\n' !in line && AtEol(rest)
    ensures RestOfLine(line + rest) == line
  {
    var t := line + rest;
    assert t[..|line|] == line;
  }

  /** Length of the longest suffix of `t` made of `cls` characters. */
  function TrailSpan(t: string, cls: CharClass): (n: nat)
    ensures n <= |t|
    ensures forall k :: |t| - n <= k < |t| ==> In(t[k], cls)
    ensures n == |t| || !In(t[|t| - n - 1], cls)
  {
    if t != [] && In(t[|t| - 1], cls) then 1 + TrailSpan(t[..|t| - 1], cls) else 0
  }

  lemma {:induction false} TrailSpanOf(init: string, run: string, cls: CharClass)
    requires AllIn(run, cls)
    requires init == [] || !In(init[|init| - 1], cls)
    ensures TrailSpan(init + run, cls) == |run|
  {
    if run == [] {
      assert init + run == init;
    } else {
      var shorter := run[..|run| - 1];
      assert (init + run)[..|init + run| - 1] == init + shorter;
      TrailSpanOf(init, shorter, cls);
    }
  }

  /** In text without newlines the only line start is the beginning. */
  lemma SingleLine(s: string)
    requires '\n' !in s
    ensures forall q :: 0 < q <= |s| ==> !LineStart(s, q)
  {
    forall q | 0 < q <= |s| ensures !LineStart(s, q) {
      assert s[q - 1] in s;
    }
  }

  // ---------------------------------------------------------------------------
  // strconv.Atoi on the digit strings the patterns capture

  predicate IsDigits(s: string)
  {
    forall k :: 0 <= k < |s| ==> IsDigit(s[k])
  }

  /** The decimal value of a digit string (most significant digit first). */
  function Value(s: string): nat
    requires IsDigits(s)
  {
    if s == [] then 0 else 10 * Value(s[..|s| - 1]) + (s[|s| - 1] as int - '0' as int)
  }

  /** strconv.Atoi with its error discarded, as the parsers call it: the value of a
      non-empty digit string, and 0 for anything else (in particular for ""). */
  function Atoi(s: string): nat
  {
    if s != [] && IsDigits(s) then Value(s) else 0
  }

  // ---------------------------------------------------------------------------
  // strings.Replace(s, "\000", "", -1)

  function StripNul(s: string): (r: string)
    ensures '\0' !in r
    ensures |r| <= |s|
  {
    if s == [] then []
    else (if s[0] == '\0' then [] else [s[0]]) + StripNul(s[1..])
  }

  lemma {:induction false} StripNulAppend(a: string, b: string)
    ensures StripNul(a + b) == StripNul(a) + StripNul(b)
  {
    if a != [] {
      assert (a + b)[1..] == a[1..] + b;
      StripNulAppend(a[1..], b);
    } else {
      assert a + b == b;
    }
  }

  lemma {:induction false} StripNulNoNul(s: string)
    requires '\0' !in s
    ensures StripNul(s) == s
  {
    if s != [] {
      assert s[0] in s;
      assert forall c :: c in s[1..] ==> c in s;
      StripNulNoNul(s[1..]);
    }
  }

  /** Stripping twice is stripping once. */
  lemma StripNulIdempotent(s: string)
    ensures StripNul(StripNul(s)) == StripNul(s)
  {
    StripNulNoNul(StripNul(s));
  }

  /** A NUL inserted anywhere disappears again. */
  lemma StripNulIgnoresNul(a: string, b: string)
    ensures StripNul(a + "\0" + b) == StripNul(a + b)
  {
    StripNulAppend(a + "\0", b);
    StripNulAppend(a, "\0");
    StripNulAppend(a, b);
    assert StripNul("\0") == [];
  }

  // ---------------------------------------------------------------------------
  // strings.Split(s, sep) and strings.Join(xs, sep) for a one-character separator

  function Split(s: string, sep: char): (parts: seq<string>)
    ensures |parts| >= 1
    ensures forall i :: 0 <= i < |parts| ==> sep !in parts[i]
  {
    if s == [] then [""]
    else
      var rest := Split(s[1..], sep);
      if s[0] == sep then [""] + rest
      else [[s[0]] + rest[0]] + rest[1..]
  }

  function Join(xs: seq<string>, sep: char): string
  {
    if xs == [] then ""
    else if |xs| == 1 then xs[0]
    else xs[0] + [sep] + Join(xs[1..], sep)
  }

  lemma {:induction false} SplitPrefix(a: string, rest: string, sep: char)
    requires sep !in a
    ensures Split(a + rest, sep) == [a + Split(rest, sep)[0]] + Split(rest, sep)[1..]
  {
    if a != [] {
      assert (a + rest)[1..] == a[1..] + rest;
      assert a[0] in a;
      assert forall c :: c in a[1..] ==> c in a;
      SplitPrefix(a[1..], rest, sep);
      assert [a[0]] + (a[1..] + Split(rest, sep)[0]) == a + Split(rest, sep)[0];
    } else {
      assert a + rest == rest;
      assert a + Split(rest, sep)[0] == Split(rest, sep)[0];
      assert [a + Split(rest, sep)[0]] + Split(rest, sep)[1..] == Split(rest, sep);
    }
  }

  /** Splitting a joined list gives the list back, when no element holds the separator. */
  lemma {:induction false} SplitJoin(xs: seq<string>, sep: char)
    requires xs != []
    requires forall i :: 0 <= i < |xs| ==> sep !in xs[i]
    ensures Split(Join(xs, sep), sep) == xs
  {
    if |xs| == 1 {
      SplitPrefix(xs[0], "", sep);
      assert xs[0] + "" == xs[0];
    } else {
      SplitJoin(xs[1..], sep);
      var j := Join(xs[1..], sep);
      assert Split([sep] + j, sep) == [""] + Split(j, sep);
      assert xs[0] + [sep] + j == xs[0] + ([sep] + j);
      SplitPrefix(xs[0], [sep] + j, sep);
      assert xs[0] + "" == xs[0];
    }
  }

  /** Joining the pieces of a split gives the text back. */
  lemma {:induction false} JoinSplit(s: string, sep: char)
    ensures Join(Split(s, sep), sep) == s
  {
    if s != [] {
      JoinSplit(s[1..], sep);
      var rest := Split(s[1..], sep);
      if s[0] == sep {
        assert Join([""] + rest, sep) == "" + [sep] + Join(rest, sep);
        assert s == [s[0]] + s[1..];
      } else {
        var parts := [[s[0]] + rest[0]] + rest[1..];
        if |rest| == 1 {
          assert Join(parts, sep) == [s[0]] + rest[0];
          assert s == [s[0]] + s[1..];
        } else {
          assert parts[1..] == rest[1..];
          assert Join(parts, sep) == [s[0]] + rest[0] + [sep] + Join(rest[1..], sep);
          assert Join(rest, sep) == rest[0] + [sep] + Join(rest[1..], sep);
          assert s == [s[0]] + s[1..];
        }
      }
    }
  }

  /** A join is empty exactly when it joins nothing or one empty string. */
  lemma JoinEmpty(xs: seq<string>, sep: char)
    ensures Join(xs, sep) == "" <==> xs == [] || xs == [""]
  {
    if |xs| > 1 {
      assert |Join(xs, sep)| >= 1;
    }
  }
}
