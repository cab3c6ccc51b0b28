/** Delivery tracking and the close trigger.

    Each data chunk the client reads back carries its stream id and a fin
    flag. A fin on stream `s` marks message `s / 4` as answered; a stream
    whose quotient is past the last message makes the flag lookup panic.
    Once every message is answered the client asks for a graceful close,
    application error code 0 with reason "closing".
 */
module Delivery {
  import opened Outcomes
  import opened Connection

  /** One successful `stream_recv`: the stream read and its fin flag (the
      bytes themselves only go to the log). */
  datatype Chunk = Chunk(stream: nat, fin: bool)

  const CLOSE_CODE: nat := 0x00
  const CLOSE_REASON: string := "closing"

  /** The flag a chunk sets, if any. */
  predicate Marks(ch: Chunk, j: nat) {
    ch.fin && ch.stream / 4 == j
  }

  /** A chunk that would index the flags past their end. */
  predicate OutOfRange(ch: Chunk, n: nat) {
    ch.fin && ch.stream / 4 >= n
  }

  /** Reads the chunks in order, setting `received[s / 4]` on every fin. */
  function RecordChunks(received: seq<bool>, chunks: seq<Chunk>): (r: Result<seq<bool>>)
    decreases |chunks|
    // the only failure: a fin whose stream has no flag
    ensures r.Panic? <==> exists k :: 0 <= k < |chunks| && OutOfRange(chunks[k], |received|)
    // flag j is set afterwards exactly when it was set before or some fin marked it
    ensures r.Ok? ==> |r.value| == |received|
    ensures r.Ok? ==> forall j :: 0 <= j < |received| ==>
              (r.value[j] <==> received[j] || exists k :: 0 <= k < |chunks| && Marks(chunks[k], j))
  {
    if chunks == [] then Ok(received)
    else
      var ch := chunks[0];
      var rest := chunks[1..];
      assert forall k :: 0 <= k < |rest| ==> rest[k] == chunks[k + 1];
      if !ch.fin then
        RecordChunks(received, rest)
      else if ch.stream / 4 < |received| then
        RecordChunks(received[ch.stream / 4 := true], rest)
      else
        Panic(IndexOutOfBounds)
  }

  /** `received.iter().all(|b| *b)`: vacuously true without messages. */
  predicate AllReceived(received: seq<bool>) {
    forall j :: 0 <= j < |received| ==> received[j]
  }

  /** Asks for the graceful close when every message has been answered. */
  function CloseIfDone(c: Conn, received: seq<bool>): (r: Conn)
    ensures AllReceived(received) ==> r.closes == c.closes + [CloseFrame(true, CLOSE_CODE, CLOSE_REASON)]
    ensures !AllReceived(received) ==> r.closes == c.closes
    ensures r == c.(closes := r.closes)
  {
    if AllReceived(received) then c.Close(true, CLOSE_CODE, CLOSE_REASON) else c
  }

  /** A single fin sets its own flag and leaves every other flag alone. */
  lemma FinSetsOnlyItsFlag(received: seq<bool>, s: nat)
    requires s / 4 < |received|
    ensures RecordChunks(received, [Chunk(s, true)]) == Ok(received[s / 4 := true])
  {
  }

  /** Splitting what was read into two batches changes nothing: the flags
      after both batches are those after reading them together. */
  lemma {:induction false} RecordChunksConcat(received: seq<bool>, a: seq<Chunk>, b: seq<Chunk>)
    requires RecordChunks(received, a).Ok?
    ensures RecordChunks(received, a + b) == RecordChunks(RecordChunks(received, a).value, b)
    decreases |a|
  {
    if a != [] {
      assert (a + b)[1..] == a[1..] + b;
      assert (a + b)[0] == a[0];
      if a[0].fin {
        RecordChunksConcat(received[a[0].stream / 4 := true], a[1..], b);
      } else {
        RecordChunksConcat(received, a[1..], b);
      }
    } else {
      assert a + b == b;
    }
  }
}
