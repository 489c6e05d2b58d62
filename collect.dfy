/** Building a Go map by inserting the records of a list in order, as both status
    parsers do with their player tables: `m[key(x)] = value(x)` for each x. */
module Collect {
  import opened Base
  import opened Text

  function FromSeq<T, K, V>(xs: seq<T>, key: T -> K, value: T -> V): map<K, V>
  {
    if xs == [] then map[]
    else FromSeq(xs[..|xs| - 1], key, value)[key(xs[|xs| - 1]) := value(xs[|xs| - 1])]
  }

  /** The keys are exactly the keys of the inserted records. */
  lemma {:induction false} FromSeqKeys<T, K, V>(xs: seq<T>, key: T -> K, value: T -> V)
    ensures forall i :: 0 <= i < |xs| ==> key(xs[i]) in FromSeq(xs, key, value)
    ensures forall k :: k in FromSeq(xs, key, value) ==> exists i :: 0 <= i < |xs| && key(xs[i]) == k
  {
    if xs != [] {
      var init := xs[..|xs| - 1];
      FromSeqKeys(init, key, value);
      forall i | 0 <= i < |xs| - 1 ensures key(xs[i]) in FromSeq(xs, key, value) {
        assert init[i] == xs[i];
      }
      forall k | k in FromSeq(xs, key, value)
        ensures exists i :: 0 <= i < |xs| && key(xs[i]) == k
      {
        if k != key(xs[|xs| - 1]) {
          assert k in FromSeq(init, key, value);
          var i :| 0 <= i < |init| && key(init[i]) == k;
          assert xs[i] == init[i];
        }
      }
    }
  }

  /** A record that no later record shares a key with is the one the map keeps:
      a later record with the same key overwrites an earlier one. */
  lemma {:induction false} FromSeqLastWins<T, K, V>(xs: seq<T>, key: T -> K, value: T -> V, i: nat)
    requires i < |xs|
    requires forall j :: i < j < |xs| ==> key(xs[j]) != key(xs[i])
    ensures key(xs[i]) in FromSeq(xs, key, value)
    ensures FromSeq(xs, key, value)[key(xs[i])] == value(xs[i])
  {
    if i < |xs| - 1 {
      var init := xs[..|xs| - 1];
      assert init[i] == xs[i];
      forall j | i < j < |init| ensures key(init[j]) != key(init[i]) {
        assert init[j] == xs[j];
      }
      FromSeqLastWins(init, key, value, i);
    }
  }

  /** Two maps built from the same records under the same keys have the same
      keys, and under each key the two values of one and the same record. */
  lemma {:induction false} FromSeqTwoValues<T, K, V, W>(xs: seq<T>, key: T -> K, f: T -> V, g: T -> W)
    ensures FromSeq(xs, key, f).Keys == FromSeq(xs, key, g).Keys
    ensures forall k :: k in FromSeq(xs, key, f) ==>
      (exists i :: 0 <= i < |xs| && key(xs[i]) == k
         && FromSeq(xs, key, f)[k] == f(xs[i]) && FromSeq(xs, key, g)[k] == g(xs[i]))
  {
    if xs != [] {
      var init := xs[..|xs| - 1];
      var last := |xs| - 1;
      FromSeqTwoValues(init, key, f, g);
      forall k | k in FromSeq(xs, key, f)
        ensures exists i :: 0 <= i < |xs| && key(xs[i]) == k && FromSeq(xs, key, f)[k] == f(xs[i]) && FromSeq(xs, key, g)[k] == g(xs[i])
      {
        if k == key(xs[last]) {
          assert key(xs[last]) == k && FromSeq(xs, key, f)[k] == f(xs[last]);
        } else {
          var i :| 0 <= i < |init| && key(init[i]) == k
            && FromSeq(init, key, f)[k] == f(init[i]) && FromSeq(init, key, g)[k] == g(init[i]);
          assert xs[i] == init[i];
        }
      }
    }
  }

  /** Inserting one more record at the end. */
  lemma FromSeqSnoc<T, K, V>(xs: seq<T>, x: T, key: T -> K, value: T -> V)
    ensures FromSeq(xs + [x], key, value) == FromSeq(xs, key, value)[key(x) := value(x)]
  {
    assert (xs + [x])[..|xs|] == xs;
  }

  /** `for _, x := range xs { m[key(x)] = value(x) }` */
  method InsertAll<T, K, V>(xs: seq<T>, key: T -> K, value: T -> V) returns (m: map<K, V>)
    ensures m == FromSeq(xs, key, value)
  {
    m := map[];
    for i := 0 to |xs|
      invariant m == FromSeq(xs[..i], key, value)
    {
      FromSeqSnoc(xs[..i], xs[i], key, value);
      assert xs[..i + 1] == xs[..i] + [xs[i]];
      m := m[key(xs[i]) := value(xs[i])];
    }
    assert xs[..|xs|] == xs;
  }

  /** The loop of both player parsers: run the line pattern on each line, skip
      the empty ones, and insert each match's record under its key. */
  method InsertLineMatches<T, K, V>(lines: seq<string>, at: string -> Option<T>, key: T -> K, value: T -> V)
    returns (m: map<K, V>)
    requires EachLineMatches(lines, at)
    ensures m == FromSeq(LineMatches(lines, at), key, value)
  {
    m := map[];
    for i := 0 to |lines|
      invariant EachLineMatches(lines[..i], at)
      invariant m == FromSeq(LineMatches(lines[..i], at), key, value)
    {
      InsertLineStep(lines, i, at, key, value);
      if lines[i] != "" {
        var x := MatchOf(lines[i], at);
        m := m[key(x) := value(x)];
      }
    }
    assert lines[..|lines|] == lines;
  }

  /** One more line: an empty one adds nothing, any other inserts its match. */
  lemma InsertLineStep<T, K, V>(lines: seq<string>, i: nat, at: string -> Option<T>, key: T -> K, value: T -> V)
    requires EachLineMatches(lines, at) && i < |lines| && EachLineMatches(lines[..i], at)
    ensures lines[i] != "" ==> FindFirst(lines[i], 0, at).Some?
    ensures EachLineMatches(lines[..i + 1], at)
    ensures lines[i] == "" ==>
      FromSeq(LineMatches(lines[..i + 1], at), key, value) == FromSeq(LineMatches(lines[..i], at), key, value)
    ensures lines[i] != "" ==>
      FromSeq(LineMatches(lines[..i + 1], at), key, value)
      == FromSeq(LineMatches(lines[..i], at), key, value)[key(MatchOf(lines[i], at)) := value(MatchOf(lines[i], at))]
  {
    var line := lines[i];
    assert lines[..i + 1] == lines[..i] + [line];
    if line != "" {
      EachLineMatchesAt(lines, i, at);
    }
    LineMatchesSnoc(lines[..i], line, at);
    if line != "" {
      FromSeqSnoc(LineMatches(lines[..i], at), MatchOf(line, at), key, value);
    } else {
      assert LineMatches(lines[..i + 1], at) == LineMatches(lines[..i], at);
    }
  }

  /** `for k := range m`: every key once, in an order the model leaves open. */
  method RangeKeys<K, V>(m: map<K, V>) returns (keys: seq<K>)
    ensures forall k :: k in keys <==> k in m
    ensures forall i, j :: 0 <= i < j < |keys| ==> keys[i] != keys[j]
    ensures |keys| == |m|
  {
    keys := [];
    var left := m.Keys;
    while left != {}
      invariant left <= m.Keys
      invariant forall k :: k in keys <==> k in m && k !in left
      invariant forall i, j :: 0 <= i < j < |keys| ==> keys[i] != keys[j]
      invariant |keys| + |left| == |m.Keys|
      decreases left
    {
      var k := Pick(left);
      keys := keys + [k];
      left := left - {k};
    }
  }

  /** Some element of a non-empty set: the next key a `range` loop visits. */
  method Pick<T>(s: set<T>) returns (x: T)
    requires s != {}
    ensures x in s
  {
    x :| x in s;
  }
}
