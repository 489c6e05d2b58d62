/** The per-player bookkeeping of metrics.go: a counter per connected user id,
    and the counters of users who left, kept aside until cleanupMetrics
    unregisters them. The Prometheus counters themselves are opaque; a new one
    is described by the Steam ID it is labelled with. */
module Metrics {
  import Collect
  import LegacyParser

  /** A Prometheus counter for one player, by its `steamid` label. */
  datatype Metric = PlayerCounter(steamId: string)

  /** The counter a player present in this update ends up with: the one set
      aside for it if it had left, else the one it has, else a new one. */
  function Kept(tracked: map<int, Metric>, pending: map<int, Metric>,
                players: map<int, LegacyParser.Player>, id: int): Metric
    requires id in players
  {
    if id in pending then pending[id]
    else if id in tracked then tracked[id]
    else PlayerCounter(players[id].steamId)
  }

  /** metricPlayersMetrics after updatePlayersMetrics. */
  function NextTracked(tracked: map<int, Metric>, pending: map<int, Metric>,
                       players: map<int, LegacyParser.Player>): map<int, Metric>
  {
    map id | id in players :: Kept(tracked, pending, players, id)
  }

  /** metricsPlayersToBeRemoved after updatePlayersMetrics: what was set aside
      for ids still absent, plus the counters of the ids that just left. */
  function NextPending(tracked: map<int, Metric>, pending: map<int, Metric>,
                       players: map<int, LegacyParser.Player>): map<int, Metric>
  {
    (map id | id in pending && id !in players :: pending[id])
    + (map id | id in tracked && id !in players :: tracked[id])
  }

  /** The package-level maps of metrics.go. */
  class Registry {
    var tracked: map<int, Metric>      // metricPlayersMetrics
    var pending: map<int, Metric>      // metricsPlayersToBeRemoved
    var mapsPending: map<int, Metric>  // metricsMapsToBeRemoved

    constructor ()
      ensures tracked == map[] && pending == map[] && mapsPending == map[]
    {
      tracked := map[];
      pending := map[];
      mapsPending := map[];
    }

    /** updatePlayersMetrics: first bring every present player's counter into
        `tracked`, then move every absent one out to `pending`. */
    method UpdatePlayers(players: map<int, LegacyParser.Player>)
      modifies this
      ensures tracked == NextTracked(old(tracked), old(pending), players)
      ensures pending == NextPending(old(tracked), old(pending), players)
      ensures mapsPending == old(mapsPending)
    {
      ghost var t0, p0 := tracked, pending;
      BringPresentIn(players);
      MoveAbsentOut(players);
      assert forall x :: x in tracked <==> x in NextTracked(t0, p0, players);
      assert forall x :: x in pending <==> x in NextPending(t0, p0, players);
      assert forall x | x in pending :: pending[x] == NextPending(t0, p0, players)[x];
    }

    /** The first loop of updatePlayersMetrics (metrics.go lines 114-148). */
    method BringPresentIn(players: map<int, LegacyParser.Player>)
      modifies this
      ensures forall x :: x in pending <==> x in old(pending) && x !in players
      ensures forall x :: x in pending ==> pending[x] == old(pending)[x]
      ensures forall x :: x in tracked <==> x in old(tracked) || x in players
      ensures forall x :: x in players ==> tracked[x] == Kept(old(tracked), old(pending), players, x)
      ensures forall x :: x in tracked && x !in players ==> tracked[x] == old(tracked)[x]
      ensures mapsPending == old(mapsPending)
    {
      var ids := players.Keys;
      ghost var done: set<int> := {};
      while ids != {}
        invariant ids + done == players.Keys && ids !! done
        invariant forall x :: x in pending <==> x in old(pending) && x !in done
        invariant forall x :: x in pending ==> pending[x] == old(pending)[x]
        invariant forall x :: x in tracked <==> x in old(tracked) || x in done
        invariant forall x :: x in done ==> tracked[x] == Kept(old(tracked), old(pending), players, x)
        invariant forall x :: x in tracked && x !in done ==> tracked[x] == old(tracked)[x]
        invariant mapsPending == old(mapsPending)
        decreases ids
      {
        var id := Collect.Pick(ids);
        if id in pending {
          tracked := tracked[id := pending[id]];
          pending := pending - {id};
        } else if id !in tracked {
          tracked := tracked[id := PlayerCounter(players[id].steamId)];
        }
        ids := ids - {id};
        done := done + {id};
      }
    }

    /** The second loop of updatePlayersMetrics (metrics.go lines 149-158). */
    method MoveAbsentOut(players: map<int, LegacyParser.Player>)
      modifies this
      ensures forall x :: x in tracked <==> x in old(tracked) && x in players
      ensures forall x :: x in tracked ==> tracked[x] == old(tracked)[x]
      ensures forall x :: x in pending <==> x in old(pending) || (x in old(tracked) && x !in players)
      ensures forall x :: x in pending ==>
        pending[x] == if x in old(tracked) && x !in players then old(tracked)[x] else old(pending)[x]
      ensures mapsPending == old(mapsPending)
    {
      var keys := tracked.Keys;
      ghost var seen: set<int> := {};
      while keys != {}
        invariant keys + seen == old(tracked).Keys && keys !! seen
        invariant forall x :: x in tracked <==> x in old(tracked) && (x !in seen || x in players)
        invariant forall x :: x in tracked ==> tracked[x] == old(tracked)[x]
        invariant forall x :: x in pending <==> x in old(pending) || (x in seen && x !in players)
        invariant forall x :: x in pending ==>
          pending[x] == if x in seen && x !in players then old(tracked)[x] else old(pending)[x]
        invariant mapsPending == old(mapsPending)
        decreases keys
      {
        var id := Collect.Pick(keys);
        if id !in players {
          pending := pending[id := tracked[id]];
          tracked := tracked - {id};
        }
        keys := keys - {id};
        seen := seen + {id};
      }
    }

    /** cleanupMetrics: unregister every counter set aside, maps first, and take
        nothing out of either map. The results list the keys whose counters
        were unregistered, in call order. */
    method Cleanup() returns (mapKeys: seq<int>, playerKeys: seq<int>)
      ensures forall k :: k in mapKeys <==> k in mapsPending
      ensures forall k :: k in playerKeys <==> k in pending
      ensures |mapKeys| == |mapsPending| && |playerKeys| == |pending|
    {
      mapKeys := Collect.RangeKeys(mapsPending);
      playerKeys := Collect.RangeKeys(pending);
    }
  }

  /** After an update the tracked ids are exactly the present players, and no
      present player is left pending. */
  lemma TrackedArePlayers(tracked: map<int, Metric>, pending: map<int, Metric>,
                          players: map<int, LegacyParser.Player>)
    ensures NextTracked(tracked, pending, players).Keys == players.Keys
    ensures forall id :: id in players ==> id !in NextPending(tracked, pending, players)
  {
  }

  /** Which counter a present player gets: the one set aside if it had left,
      otherwise the one it already has, otherwise a new one. */
  lemma PresentPlayerCounter(tracked: map<int, Metric>, pending: map<int, Metric>,
                             players: map<int, LegacyParser.Player>, id: int)
    requires id in players
    ensures id in pending ==> NextTracked(tracked, pending, players)[id] == pending[id]
    ensures id !in pending && id in tracked ==> NextTracked(tracked, pending, players)[id] == tracked[id]
    ensures id !in pending && id !in tracked ==>
      NextTracked(tracked, pending, players)[id] == PlayerCounter(players[id].steamId)
  {
  }

  /** A tracked player who left moves to `pending` with its counter; one already
      pending, absent and not tracked stays as it was; nothing else is pending. */
  lemma AbsentPlayerCounter(tracked: map<int, Metric>, pending: map<int, Metric>,
                            players: map<int, LegacyParser.Player>, id: int)
    requires id !in players
    ensures id in tracked ==> NextPending(tracked, pending, players)[id] == tracked[id]
    ensures id !in tracked && id in pending ==> NextPending(tracked, pending, players)[id] == pending[id]
    ensures id in NextPending(tracked, pending, players) <==> id in tracked || id in pending
  {
  }

  /** No counter is lost: every id that had one still has one, in exactly one
      of the two maps. */
  lemma NothingLost(tracked: map<int, Metric>, pending: map<int, Metric>,
                    players: map<int, LegacyParser.Player>)
    ensures var t := NextTracked(tracked, pending, players);
      var p := NextPending(tracked, pending, players);
      && (forall id :: id in tracked || id in pending ==> id in t || id in p)
      && t.Keys !! p.Keys
  {
  }

  /** Repeating an update with the same players changes nothing. */
  lemma {:induction false} UpdateIdempotent(tracked: map<int, Metric>, pending: map<int, Metric>,
                                            players: map<int, LegacyParser.Player>)
    ensures var t := NextTracked(tracked, pending, players);
      var p := NextPending(tracked, pending, players);
      NextTracked(t, p, players) == t && NextPending(t, p, players) == p
  {
    var t := NextTracked(tracked, pending, players);
    var p := NextPending(tracked, pending, players);
    assert NextTracked(t, p, players) == t;
    assert NextPending(t, p, players) == p;
  }
}
