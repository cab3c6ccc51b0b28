/** The message dispatcher, `send_stream_new_path`.

    Message `i` belongs to path `i`: local address `i` towards peer slot
    `i`. Once per established iteration the dispatcher looks at the first
    message not yet sent. If its path is unknown to the engine and a spare
    peer connection id exists, it probes the path; if the path is
    validated, it sends the whole message, with fin, on stream `4 * i` and
    moves on to the next message; otherwise it waits. Messages therefore
    leave strictly in order, one stream each.
 */
module Dispatcher {
  import opened Outcomes
  import opened Pools
  import opened Connection

  /** The connection after one activation and the index of the next
      message to send (`idx_message`). */
  datatype Step = Step(conn: Conn, idx: nat)

  /** The stream that carries message `i`: client-initiated bidirectional
      streams are the multiples of four. */
  function StreamOf(i: nat): nat {
    4 * i
  }

  /** The writes the dispatcher has made once messages `0 .. k-1` are out. */
  function SendsFor(messages: seq<string>, k: nat): seq<StreamWrite>
    requires k <= |messages|
  {
    seq(k, i requires 0 <= i < k => StreamWrite(StreamOf(i), messages[i], true))
  }

  /** One activation of the dispatcher for pending index `idx`. Indexing the
      address tables past their end panics. */
  function SendStreamNewPath(c: Conn, localAddrs: seq<Addr>, peerAddrs: seq<Addr>,
                             messages: seq<string>, idx: nat): (r: Result<Step>)
    // all messages out: nothing happens, now or ever
    ensures idx >= |messages| ==> r == Ok(Step(c, idx))
    // the address lookups are the only way to fail
    ensures r.Panic? <==> idx < |messages| && (idx >= |localAddrs| || idx >= |peerAddrs|)
    // the engine's state is never touched, and neither are migrations, ids or closes
    ensures r.Ok? ==> r.value.conn.engine == c.engine && r.value.conn.migrations == c.migrations
                      && r.value.conn.scids == c.scids && r.value.conn.closes == c.closes
    // a probe goes to the pending message's path, exactly when that path is
    // unknown and a spare peer id exists; it sends nothing and keeps the index
    ensures r.Ok? ==> (r.value.conn.probes != c.probes <==>
                        idx < |messages| && c.IsPathValidated(Path(localAddrs[idx], peerAddrs[idx])).Unknown?
                        && c.engine.availableDcids > 0)
    ensures r.Ok? && r.value.conn.probes != c.probes ==>
              r.value.conn.probes == c.probes + [Path(localAddrs[idx], peerAddrs[idx])]
              && r.value.conn.writes == c.writes && r.value.idx == idx
    // a send happens exactly when the pending message's path is validated: the
    // whole message, with fin, on stream 4 * idx, and the index moves by one
    ensures r.Ok? ==> (r.value.idx != idx <==>
                        idx < |messages| && c.IsPathValidated(Path(localAddrs[idx], peerAddrs[idx])) == Known(true))
    ensures r.Ok? && r.value.idx != idx ==>
              r.value.idx == idx + 1 && r.value.conn.probes == c.probes
              && r.value.conn.writes == c.writes + [StreamWrite(StreamOf(idx), messages[idx], true)]
    // otherwise (validation failed or pending, or no spare id) nothing changes
    ensures r.Ok? && r.value.idx == idx ==> r.value.conn.writes == c.writes
  {
    if idx >= |messages| then Ok(Step(c, idx))
    else if idx >= |localAddrs| || idx >= |peerAddrs| then Panic(IndexOutOfBounds)
    else
      var path := Path(localAddrs[idx], peerAddrs[idx]);
      var status := c.IsPathValidated(path);
      if status.Unknown? && c.engine.availableDcids > 0 then
        Ok(Step(c.ProbePath(path), idx))
      else if status == Known(true) then
        Ok(Step(c.StreamSend(StreamOf(idx), messages[idx], true), idx + 1))
      else
        Ok(Step(c, idx))
  }

  /** The send log stays exactly "messages `0 .. idx-1`, in order, each on
      its own stream": the dispatcher extends it by the next message or
      leaves it alone. */
  lemma DispatchKeepsSendLog(c: Conn, localAddrs: seq<Addr>, peerAddrs: seq<Addr>,
                             messages: seq<string>, idx: nat)
    requires idx <= |messages| && c.writes == SendsFor(messages, idx)
    ensures var r := SendStreamNewPath(c, localAddrs, peerAddrs, messages, idx);
            r.Ok? ==> r.value.idx <= |messages| && r.value.conn.writes == SendsFor(messages, r.value.idx)
  {
  }

  /** Stream ids of the send log are strictly increasing, hence pairwise
      distinct, and write `i` carries message `i` whole. */
  lemma SendsForOrdered(messages: seq<string>, k: nat)
    requires k <= |messages|
    ensures |SendsFor(messages, k)| == k
    ensures forall i, j :: 0 <= i < j < k ==> SendsFor(messages, k)[i].stream < SendsFor(messages, k)[j].stream
    ensures forall i :: 0 <= i < k ==>
              && SendsFor(messages, k)[i].stream / 4 == i
              && SendsFor(messages, k)[i].payload == messages[i]
              && SendsFor(messages, k)[i].fin
  {
  }
}
