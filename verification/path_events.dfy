/** The path-event handler.

    After each readiness event the client drains the engine's queue of path
    events. A validated path becomes the connection's active path through
    an explicit `migrate`; failed validation, a closed path and a reused
    source id are only logged. A new path created by the peer and a
    peer-initiated migration cannot happen to a client (the source marks
    them `unreachable!()`), so they are excluded by precondition.
 */
module PathEvents {
  import opened Pools
  import opened Connection

  datatype PathEvent =
    | New(local: Addr, peer: Addr)
    | Validated(local: Addr, peer: Addr)
    | FailedValidation(local: Addr, peer: Addr)
    | Closed(local: Addr, peer: Addr)
    | ReusedSourceConnectionId(cidSeq: nat, previous: Path, current: Path)
    | PeerMigrated(local: Addr, peer: Addr)

  /** The events a client may receive: all but the two server-side ones. */
  predicate ClientExpects(e: PathEvent) {
    !e.New? && !e.PeerMigrated?
  }

  /** The targets of the `Validated` events of `q`, in queue order. */
  function ValidatedPaths(q: seq<PathEvent>): (r: seq<Path>)
    ensures |r| <= |q|
    ensures forall p :: p in r <==> exists k :: 0 <= k < |q| && q[k] == Validated(p.local, p.peer)
  {
    if q == [] then []
    else
      var rest := ValidatedPaths(q[1..]);
      assert forall k :: 0 <= k < |q| - 1 ==> q[1..][k] == q[k + 1];
      if q[0].Validated? then [Path(q[0].local, q[0].peer)] + rest else rest
  }

  /** One event: a migration for `Validated`, nothing else for the rest. */
  function HandleEvent(c: Conn, e: PathEvent): (r: Conn)
    requires ClientExpects(e)
    ensures e.Validated? ==> r.migrations == c.migrations + [Path(e.local, e.peer)]
    ensures !e.Validated? ==> r == c
    ensures r == c.(migrations := r.migrations)
  {
    match e
    case Validated(l, p) => c.Migrate(Path(l, p))
    case FailedValidation(_, _) => c
    case Closed(_, _) => c
    case ReusedSourceConnectionId(_, _, _) => c
  }

  /** `while let Some(qe) = conn.path_event_next()`: the whole queue, in
      order. */
  function DrainEvents(c: Conn, q: seq<PathEvent>): (r: Conn)
    requires forall e <- q :: ClientExpects(e)
    decreases |q|
    // one migration per Validated event, to that event's path, in queue order
    ensures r.migrations == c.migrations + ValidatedPaths(q)
    // nothing else about the connection changes
    ensures r == c.(migrations := r.migrations)
  {
    if q == [] then c else DrainEvents(HandleEvent(c, q[0]), q[1..])
  }

  /** Draining an empty queue, any number of times, changes nothing. */
  lemma DrainEmptyIsNoOp(c: Conn)
    ensures DrainEvents(c, []) == c
    ensures DrainEvents(DrainEvents(c, []), []) == c
  {
  }

  /** Draining a queue in two parts is draining it at once. */
  lemma {:induction false} DrainConcat(c: Conn, q1: seq<PathEvent>, q2: seq<PathEvent>)
    requires forall e <- q1 :: ClientExpects(e)
    requires forall e <- q2 :: ClientExpects(e)
    ensures forall e <- q1 + q2 :: ClientExpects(e)
    ensures DrainEvents(c, q1 + q2) == DrainEvents(DrainEvents(c, q1), q2)
    decreases |q1|
  {
    if q1 != [] {
      assert (q1 + q2)[1..] == q1[1..] + q2;
      DrainConcat(HandleEvent(c, q1[0]), q1[1..], q2);
    } else {
      assert q1 + q2 == q2;
    }
  }

  /** A queue without `Validated` events causes no migration at all. */
  lemma {:induction false} NoValidatedNoMigration(c: Conn, q: seq<PathEvent>)
    requires forall e <- q :: ClientExpects(e)
    requires forall e <- q :: !e.Validated?
    ensures DrainEvents(c, q) == c
    decreases |q|
  {
    if q != [] {
      assert q[0] in q;
      assert forall e <- q[1..] :: e in q;
      NoValidatedNoMigration(c, q[1..]);
    }
  }
}
