/** The client: setup and the event loop, once the engine is abstracted.

    Setup binds one local socket per message, builds the peer table and
    connects from socket 0 to peer slot 0. Each readiness event then runs
    one iteration: the engine ingests what arrived; if the handshake is
    complete the client replenishes source ids, reads the answers and
    records finished messages, asks for a close once all are answered, and
    runs the dispatcher; in every case it then drains the path events.
    The state the loop threads through iterations is a `Session`.
 */
module Client {
  import opened Outcomes
  import opened Pools
  import opened Connection
  import opened ScidManager
  import opened Delivery
  import opened Dispatcher
  import opened PathEvents

  /** `local_addrs` (one per message) and `peer_addrs` (the peer table). */
  datatype AddressTables = AddressTables(local: seq<Addr>, peer: seq<Addr>)

  /** The loop's state: the connection, the `received` flags and
      `idx_message`. */
  datatype Session = Session(conn: Conn, received: seq<bool>, idx: nat)

  datatype Started = Started(tables: AddressTables, session: Session)

  /** What the outside world contributes to one iteration: the engine's
      state once the arrived datagrams are ingested, whether the handshake
      is complete, the id generator and the engine's answers to
      `new_scid`, the chunks read back, and the queued path events. */
  datatype Tick = Tick(
    view: EngineView,
    established: bool,
    gen: nat -> ScidPair,
    accepts: nat -> bool,
    chunks: seq<Chunk>,
    events: seq<PathEvent>)

  predicate ValidTick(t: Tick) {
    forall e <- t.events :: ClientExpects(e)
  }

  predicate ValidTicks(ticks: seq<Tick>) {
    forall k :: 0 <= k < |ticks| ==> ValidTick(ticks[k])
  }

  /** Socket binding, the connection to peer slot 0 and the initial loop
      state; `v` is the engine's state right after `connect`. Without
      messages there is no socket 0 and the process panics. */
  function Setup(messages: seq<string>, maxSockets: nat, v: EngineView): (r: Result<Started>)
    requires maxSockets > 0
    ensures r.Ok? <==> 0 < |messages| && LOCAL_BASE_PORT + |messages| - 1 <= MAX_PORT
    ensures r.Ok? ==> |r.value.tables.local| == |messages| && r.value.tables.peer == PeerPool(maxSockets)
    ensures r.Ok? ==> r.value.tables.local == LocalPool(|messages|).value
    ensures r.Ok? ==> forall i :: 0 <= i < |messages| ==> r.value.tables.local[i].port == LOCAL_BASE_PORT + i
    ensures r.Ok? ==> var s := r.value.session;
                      && s.conn == Fresh(v) && s.idx == 0 && |s.received| == |messages|
                      && !(exists j :: 0 <= j < |messages| && s.received[j])
  {
    var local :- LocalPool(|messages|);
    if |local| == 0 then Panic(IndexOutOfBounds)
    else Ok(Started(AddressTables(local, PeerPool(maxSockets)), Session(Fresh(v), seq(|messages|, _ => false), 0)))
  }

  /** One readiness event of the loop. */
  function Iteration(s: Session, tables: AddressTables, messages: seq<string>, t: Tick): (r: Result<Session>)
    requires ValidTick(t)
  {
    var c := s.conn.Observe(t.view);
    if t.established then
      var c1 := ScidLoop(c, t.gen, t.accepts, 0).conn;
      var received :- RecordChunks(s.received, t.chunks);
      var c2 := CloseIfDone(c1, received);
      var step :- SendStreamNewPath(c2, tables.local, tables.peer, messages, s.idx);
      Ok(Session(DrainEvents(step.conn, t.events), received, step.idx))
    else
      Ok(Session(DrainEvents(c, t.events), s.received, s.idx))
  }

  /** A sequence of iterations; the first panic ends the process. */
  function Run(s: Session, tables: AddressTables, messages: seq<string>, ticks: seq<Tick>): (r: Result<Session>)
    requires ValidTicks(ticks)
    decreases |ticks|
  {
    if |ticks| == 0 then Ok(s)
    else
      var s1 :- Iteration(s, tables, messages, ticks[0]);
      Run(s1, tables, messages, ticks[1..])
  }

  /** The sequential gate: messages `0 .. idx-1` have been sent, in order,
      each whole on its own stream, and nothing else has. */
  predicate SendLog(s: Session, messages: seq<string>) {
    s.idx <= |messages| && s.conn.writes == SendsFor(messages, s.idx)
  }

  /** Only the dispatcher writes to streams, so an iteration keeps the gate. */
  lemma IterationKeepsSendLog(s: Session, tables: AddressTables, messages: seq<string>, t: Tick)
    requires ValidTick(t) && SendLog(s, messages)
    ensures var r := Iteration(s, tables, messages, t);
            r.Ok? ==> SendLog(r.value, messages) && s.idx <= r.value.idx <= s.idx + 1
  {
  }

  /** Over any run, the writes are exactly streams 0, 4, ..., 4(k-1)
      carrying messages 0 .. k-1 in order, where k is the pending index,
      which only grows and never passes the number of messages. */
  lemma {:induction false} RunKeepsSendLog(s: Session, tables: AddressTables, messages: seq<string>, ticks: seq<Tick>)
    requires ValidTicks(ticks) && SendLog(s, messages)
    ensures var r := Run(s, tables, messages, ticks);
            r.Ok? ==> SendLog(r.value, messages) && s.idx <= r.value.idx
    decreases |ticks|
  {
    if |ticks| > 0 {
      IterationKeepsSendLog(s, tables, messages, ticks[0]);
      var r1 := Iteration(s, tables, messages, ticks[0]);
      if r1.Ok? {
        RunKeepsSendLog(r1.value, tables, messages, ticks[1..]);
      }
    }
  }

  /** From a fresh start, every run sends message i whole on stream 4i,
      in index order, no stream twice. */
  lemma RunSendsMessagesInOrder(messages: seq<string>, maxSockets: nat, v: EngineView, ticks: seq<Tick>)
    requires maxSockets > 0 && ValidTicks(ticks)
    requires Setup(messages, maxSockets, v).Ok?
    ensures var st := Setup(messages, maxSockets, v).value;
            var r := Run(st.session, st.tables, messages, ticks);
            r.Ok? ==>
              && r.value.idx <= |messages|
              && |r.value.conn.writes| == r.value.idx
              && (forall i :: 0 <= i < r.value.idx ==>
                    r.value.conn.writes[i] == StreamWrite(4 * i, messages[i], true))
              && (forall i, j :: 0 <= i < j < r.value.idx ==>
                    r.value.conn.writes[i].stream < r.value.conn.writes[j].stream)
  {
    var st := Setup(messages, maxSockets, v).value;
    assert SendsFor(messages, 0) == [];
    RunKeepsSendLog(st.session, st.tables, messages, ticks);
    var r := Run(st.session, st.tables, messages, ticks);
    if r.Ok? {
      SendsForOrdered(messages, r.value.idx);
    }
  }

  /** The close request of an established iteration: the graceful close is
      asked for exactly when every flag is set after this iteration's
      reads; an iteration before the handshake completes never asks. */
  lemma IterationClosesIffAllReceived(s: Session, tables: AddressTables, messages: seq<string>, t: Tick)
    requires ValidTick(t)
    ensures var r := Iteration(s, tables, messages, t);
            r.Ok? ==>
              && |r.value.received| == |s.received|
              && (t.established && AllReceived(r.value.received) ==>
                    r.value.conn.closes == s.conn.closes + [CloseFrame(true, 0x00, "closing")])
              && (!t.established || !AllReceived(r.value.received) ==>
                    r.value.conn.closes == s.conn.closes)
  {
  }

  /** With no messages the close is asked for on the first established
      iteration. */
  lemma NoMessagesClosesAtOnce(s: Session, tables: AddressTables, t: Tick)
    requires ValidTick(t) && t.established && s.received == []
    ensures var r := Iteration(s, tables, [], t);
            r.Ok? ==> r.value.conn.closes == s.conn.closes + [CloseFrame(true, 0x00, "closing")]
  {
  }

  /** A close, once asked for, was asked for only after every message had
      been answered (fin read on its stream), and the flags stay set. */
  predicate CloseAfterDelivery(s: Session) {
    |s.conn.closes| > 0 ==> AllReceived(s.received)
  }

  lemma {:induction false} RunClosesOnlyAfterDelivery(s: Session, tables: AddressTables, messages: seq<string>, ticks: seq<Tick>)
    requires ValidTicks(ticks) && CloseAfterDelivery(s)
    ensures var r := Run(s, tables, messages, ticks);
            r.Ok? ==> CloseAfterDelivery(r.value) && |r.value.received| == |s.received|
    decreases |ticks|
  {
    if |ticks| > 0 {
      var t := ticks[0];
      IterationClosesIffAllReceived(s, tables, messages, t);
      var r1 := Iteration(s, tables, messages, t);
      if r1.Ok? {
        if t.established {
          assert forall j :: 0 <= j < |s.received| && s.received[j] ==> r1.value.received[j];
        }
        RunClosesOnlyAfterDelivery(r1.value, tables, messages, ticks[1..]);
      }
    }
  }

  /** Past the twentieth message the dispatcher indexes the peer table out
      of bounds: an established iteration with message 20 pending panics. */
  lemma PeerTableOverflowPanics(messages: seq<string>, maxSockets: nat, v: EngineView,
                                s: Session, t: Tick)
    requires maxSockets > 0 && ValidTick(t)
    requires Setup(messages, maxSockets, v).Ok?
    requires s.idx == PEER_SLOTS < |messages| && t.established
    requires RecordChunks(s.received, t.chunks).Ok?
    ensures Iteration(s, Setup(messages, maxSockets, v).value.tables, messages, t).Panic?
  {
  }

  /** With at most twenty messages, and answers only on the client's own
      streams, no iteration panics. */
  lemma {:induction false} RunWithinPeerTableNeverPanics(messages: seq<string>, maxSockets: nat, v: EngineView,
                                                         s: Session, ticks: seq<Tick>)
    requires maxSockets > 0 && ValidTicks(ticks)
    requires Setup(messages, maxSockets, v).Ok? && |messages| <= PEER_SLOTS
    requires |s.received| == |messages|
    requires forall k, i :: 0 <= k < |ticks| && 0 <= i < |ticks[k].chunks| ==>
               !OutOfRange(ticks[k].chunks[i], |messages|)
    ensures Run(s, Setup(messages, maxSockets, v).value.tables, messages, ticks).Ok?
    decreases |ticks|
  {
    if |ticks| > 0 {
      var tables := Setup(messages, maxSockets, v).value.tables;
      var r1 := Iteration(s, tables, messages, ticks[0]);
      assert r1.Ok?;
      assert ValidTicks(ticks[1..]);
      RunWithinPeerTableNeverPanics(messages, maxSockets, v, r1.value, ticks[1..]);
    }
  }

  /** The path of the pending message, when both tables reach it. */
  predicate HasPendingPath(s: Session, tables: AddressTables) {
    s.idx < |tables.local| && s.idx < |tables.peer|
  }

  /** A path that the engine keeps reporting as failed validation holds its
      message back forever: no probe, no send, no progress. */
  lemma {:induction false} RunStallsOnFailedPath(s: Session, tables: AddressTables, messages: seq<string>, ticks: seq<Tick>)
    requires ValidTicks(ticks) && HasPendingPath(s, tables) && s.idx < |messages|
    requires var p := Path(tables.local[s.idx], tables.peer[s.idx]);
             forall k :: 0 <= k < |ticks| ==> p in ticks[k].view.paths && !ticks[k].view.paths[p]
    ensures var r := Run(s, tables, messages, ticks);
            r.Ok? ==> r.value.idx == s.idx && r.value.conn.writes == s.conn.writes
                      && r.value.conn.probes == s.conn.probes
    decreases |ticks|
  {
    if |ticks| > 0 {
      var r1 := Iteration(s, tables, messages, ticks[0]);
      if r1.Ok? {
        RunStallsOnFailedPath(r1.value, tables, messages, ticks[1..]);
      }
    }
  }

  /** The paths of messages `0 .. k`. */
  function PathsUpTo(tables: AddressTables, k: nat): set<Path> {
    set j | 0 <= j <= k && j < |tables.local| && j < |tables.peer| :: Path(tables.local[j], tables.peer[j])
  }

  /** Every probe so far targeted the path of a message that was pending
      at the time, so no path is probed ahead of the sequential gate. */
  predicate ProbesBehindGate(s: Session, tables: AddressTables) {
    forall p <- s.conn.probes :: p in PathsUpTo(tables, s.idx)
  }

  lemma {:induction false} RunProbesBehindGate(s: Session, tables: AddressTables, messages: seq<string>, ticks: seq<Tick>)
    requires ValidTicks(ticks) && ProbesBehindGate(s, tables)
    ensures var r := Run(s, tables, messages, ticks);
            r.Ok? ==> ProbesBehindGate(r.value, tables)
    decreases |ticks|
  {
    if |ticks| > 0 {
      var r1 := Iteration(s, tables, messages, ticks[0]);
      if r1.Ok? {
        IterationProbesBehindGate(s, tables, messages, ticks[0]);
        RunProbesBehindGate(r1.value, tables, messages, ticks[1..]);
      }
    }
  }

  lemma IterationProbesBehindGate(s: Session, tables: AddressTables, messages: seq<string>, t: Tick)
    requires ValidTick(t) && ProbesBehindGate(s, tables)
    ensures var r := Iteration(s, tables, messages, t);
            r.Ok? ==> ProbesBehindGate(r.value, tables)
  {
  }
}
