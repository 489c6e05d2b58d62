/** Shared value types: optional values, results carrying the exporter's errors,
    and the clock units used by the connection layer. */
module Base {

  datatype Option<+T> = None | Some(value: T)

  /** The error values the modelled Go code returns (or, for a panic the code
      does not recover from, the error the model reports instead). */
  datatype Error =
    | Network(reason: string)            // a transport error from the RCON library
    | NoPlayerCount                      // "no player count found in input"
    | NoPlayers                          // "no matches found in input"
    | BadDuration(text: string)          // time.ParseDuration failed
    | CollectorUnavailable(name: string) // "collector '<name>' not available"
    | FactoryFailed(reason: string)      // a collector factory returned an error
    | NilSession                         // a method called on a nil session: a Go panic
    | TransportPanic                     // a panic inside the query library

  datatype Result<+T> = Ok(value: T) | Err(error: Error)

  /** An open session of a transport library (go-rcon's *Server, rconGo's
      *ServerQuery), known to the model only by its identity. */
  datatype Session = Session(id: nat)

  /** Clock readings and durations are integers counting nanoseconds,
      as Go's time.Time.UnixNano and time.Duration do. */
  const Second: int := 1_000_000_000

  /** time.Time.Unix(): whole seconds, rounded towards minus infinity. */
  function UnixSeconds(t: int): int
  {
    t / Second
  }

  /** The check `time.Now().Unix() - created.Unix() > 5` shared by every backend:
      more than five whole Unix seconds lie between `created` and `now`. */
  predicate Stale(created: int, now: int)
  {
    UnixSeconds(now) - UnixSeconds(created) > 5
  }

  lemma {:induction false} StaleAfterSixSeconds(created: int, now: int)
    requires now >= created + 6 * Second
    ensures Stale(created, now)
  {
    assert UnixSeconds(now) >= UnixSeconds(created + 6 * Second);
    assert (created + 6 * Second) / Second == created / Second + 6;
  }

  lemma {:induction false} FreshWithinFiveSeconds(created: int, now: int)
    requires now <= created + 5 * Second
    ensures !Stale(created, now)
  {
    assert UnixSeconds(now) <= UnixSeconds(created + 5 * Second);
    assert (created + 5 * Second) / Second == created / Second + 5;
  }
}
