# Multipath QUIC test client: a Dafny model of its decision logic

This project models the per-iteration decision logic of the multipath
QUIC client in `src/bin/client.rs`. The client sends one application
message per network path. Message `i` goes from local socket `i` (port
`9000 + i`) to peer slot `i` (port `8000 + i % MAX_NUMBER_SOCKETS`). A
message is sent only once its path has been validated, and only after
every earlier message has been sent. The QUIC engine (quiche) is
abstracted as a plain record, `Connection.Conn`, with these parts:

- an engine-owned view: the validation status of each known path, the
  `available_dcids` count and the `scids_left` count;
- logs of what the client asked of the engine: probes, migrations, stream
  writes, registered source connection ids and close requests.

Between two loop iterations the engine may change its view in any way
(`Conn.Observe`, applied once at the start of each iteration). Within an
iteration, client calls only append to the logs. There is one exception:
a registered source id uses up one unit of `scids_left`.

Every panic the model keeps becomes `Outcomes.Result.Panic`: an address
that does not parse and a `Vec` index past its end. The two
`unreachable!()` path events are ruled out by a precondition instead.
The other `unwrap`s of the source are assumed to succeed; "## Left out"
lists them.

Modules, one per component:

- `Pools`: the local and peer address tables.
- `Connection`: the abstract connection record.
- `ScidManager`: the source-connection-id replenishment loop.
- `Delivery`: the received flags and the close trigger.
- `Dispatcher`: `send_stream_new_path`.
- `PathEvents`: the path-event match.
- `Client`: setup, one loop iteration (`Iteration`) and a run of
  iterations (`Run`).

Edge cases of the code that the model keeps:

- With no messages, the code panics at `sockets[0]` (line 84), before it
  connects; `Client.Setup` panics in this case. The close trigger for
  zero messages is still proved for the iteration alone
  (`Client.NoMessagesClosesAtOnce`).
- The peer table has exactly twenty slots. A pending message with index
  20 or more makes `peer_addrs[idx]` panic (line 229).
- `FailedValidation` and `Closed` events only log (lines 189-198); no
  path state changes.
- A message counts as delivered once a fin is read on any stream `s`
  with `s / 4` equal to its index (line 163); `s` need not be the
  client's own stream `4 * i`.

## Model

| member | source | states |
|---|---|---|
| Pools.LocalPoolFrom | src/bin/client.rs:39-42 | the binding loop from socket `i` succeeds iff the last port `9000 + n - 1` fits, and socket `i + k` gets port `9000 + i + k` |
| Pools.LocalPool | src/bin/client.rs:39-42 | one local address per message: address `i` is port `9000 + i`; panics iff some port exceeds 65535 |
| Pools.LocalPoolDistinct | src/bin/client.rs:39-42 | no two local sockets share an address |
| Pools.PeerPool | src/bin/client.rs:90-94 | the peer table has 20 slots, every port lies in `[8000, 8000 + MAX_NUMBER_SOCKETS)`, and slot `i < MAX_NUMBER_SOCKETS` is port `8000 + i` |
| Pools.PeerPoolRepeats | src/bin/client.rs:91-93 | peer slots `MAX_NUMBER_SOCKETS` apart hold the same address (the table is cyclic) |
| Pools.PeerPoolDistinctInCycle | src/bin/client.rs:91-93 | peer slots less than `MAX_NUMBER_SOCKETS` apart hold different addresses |
| Dispatcher.SendStreamNewPath | src/bin/client.rs:217-241 | no-op once the index reaches the message count; panics iff the pending index is past an address table; probes the pending path iff it is unknown and a spare dcid exists, with no send and the same index; sends `messages[idx]` with fin on stream `4*idx` and advances by exactly one iff the path is validated; otherwise changes nothing; never touches the engine, migrations, ids or closes |
| Dispatcher.DispatchKeepsSendLog | src/bin/client.rs:224-239 | if the write log is messages `0..idx` on streams `0, 4, ...`, it still is after one activation, with the new index |
| Dispatcher.SendsForOrdered | src/bin/client.rs:237 | in the send log, write `i` uses stream `i` times four, carries message `i` whole with fin, and stream ids strictly increase |
| ScidManager.ScidLoop | src/bin/client.rs:150-156 | the loop makes at most the initial `scids_left` calls; every call but a final refused one was accepted; it stops exactly at the first refusal or once the accepted ids use up the quota; the accepted ids are registered in call order, one quota unit each; nothing else changes |
| ScidManager.NoQuotaNoCall | src/bin/client.rs:150 | with `scids_left() == 0` the loop makes no call |
| ScidManager.AllAcceptedFillsQuota | src/bin/client.rs:150-156 | when the engine accepts every id, the loop makes exactly `scids_left` calls and registers the generated ids in call order |
| Delivery.RecordChunks | src/bin/client.rs:158-166 | reading panics iff some fin names a stream whose `s / 4` is past the flags; otherwise flag `j` is set iff it was set or some fin's stream divided by four is `j`; the length is unchanged |
| Delivery.FinSetsOnlyItsFlag | src/bin/client.rs:162-164 | one fin on stream `s` sets flag `s / 4` and no other |
| Delivery.RecordChunksConcat | src/bin/client.rs:158-166 | reading two batches one after the other gives the same flags as reading them together |
| Delivery.CloseIfDone | src/bin/client.rs:167-169 | a close `(app, 0x00, "closing")` is requested iff every flag is set; nothing else changes |
| PathEvents.ValidatedPaths | src/bin/client.rs:184-187 | the migration targets are exactly the paths of the queue's `Validated` events, never more targets than events |
| PathEvents.HandleEvent | src/bin/client.rs:181-208 | `Validated(l, p)` yields exactly one `migrate(l, p)`; `FailedValidation`, `Closed` and `ReusedSourceConnectionId` change nothing; `New` and `PeerMigrated` cannot be handled |
| PathEvents.DrainEvents | src/bin/client.rs:180-209 | draining the queue migrates once per `Validated` event, to its path, in queue order, and changes nothing else |
| PathEvents.DrainEmptyIsNoOp | src/bin/client.rs:180 | draining an empty queue, once or twice, changes nothing |
| PathEvents.DrainConcat | src/bin/client.rs:180-209 | draining a queue in two parts is the same as draining it at once |
| PathEvents.NoValidatedNoMigration | src/bin/client.rs:180-209 | a queue without `Validated` events leaves the connection unchanged |
| Client.Setup | src/bin/client.rs:23-103 | setup succeeds iff there is at least one message and every local port fits; then local address `i` is port `9000 + i`, one per message, the peer table is the 20-slot table, no flag is set, the index is 0 and the connection has no log entries |
| Client.IterationKeepsSendLog | src/bin/client.rs:143-178 | one loop iteration keeps the sequential gate and advances the index by at most one |
| Client.RunKeepsSendLog | src/bin/client.rs:124-214 | over any run the write log stays messages `0..idx` in order, and the index never decreases or passes the message count |
| Client.RunSendsMessagesInOrder | src/bin/client.rs:171-177 | from setup, after any run with final index `k`, write `i` is message `i` with fin on stream `4i` for `i < k`, with stream ids strictly increasing |
| Client.IterationClosesIffAllReceived | src/bin/client.rs:158-169 | an established iteration requests the graceful close iff every flag is set after its reads; an iteration before the handshake completes never requests it |
| Client.NoMessagesClosesAtOnce | src/bin/client.rs:167-168 | with no messages, the first established iteration requests the close |
| Client.RunClosesOnlyAfterDelivery | src/bin/client.rs:158-169 | over any run, if a close has been requested then every message has been answered with a fin |
| Client.RunStallsOnFailedPath | src/bin/client.rs:230-240 | while the engine reports the pending message's path as failed (`Ok(false)`), no run probes, sends or advances the index |
| Client.IterationProbesBehindGate | src/bin/client.rs:171-177 | one loop iteration keeps every probe on the path of a message at or below the pending index |
| Client.RunProbesBehindGate | src/bin/client.rs:224-233 | over any run, every probe targets the path of a message whose index is at most the pending index, so no path is probed ahead of the sequential gate |
| Client.PeerTableOverflowPanics | src/bin/client.rs:228-229 | with more than 20 messages, an established iteration with message 20 pending panics on the peer table lookup |
| Client.RunWithinPeerTableNeverPanics | src/bin/client.rs:158-177 | with at most 20 messages and every fin on a stream of a message, no run panics on the address tables or the flag lookups (engine refusals, including a repeated `close`, are not modelled) |

## Left out

- Socket I/O is not modelled: mio polling and registration, `send_to` and its would-block retry, and the initial handshake send (lines 33-48, 109-122). Each readiness event is one `Client.Tick`.
- Timers are not modelled: the `timeout()` / `on_timeout()` tick and the `is_closed()` exit of the loop (lines 124-141) belong to the engine.
- `read_loop`, `write_loop`, `generate_cid_and_reset_token` and `MAX_NUMBER_SOCKETS` live in a shared module that is not part of this model. Ingest becomes the tick's engine view. The generator becomes the `gen` parameter. `MAX_NUMBER_SOCKETS` becomes a positive parameter, since `%` by zero would panic.
- quiche internals are not modelled: the handshake, how paths get validated, how ids are retired, and packet encoding. The engine's state is an arbitrary `EngineView` at the start of each iteration, and the engine's answer to each `new_scid` is the `accepts` parameter.
- Engine refusals are not modelled. Every `unwrap` on `probe_path`, `stream_send`, `migrate` and `close` (lines 168, 186, 233, 238) is taken to succeed. This includes a second `close` after one is already pending, which quiche may refuse.
- Client.RunWithinPeerTableNeverPanics: promises no panic from the address tables or the flag lookups only. Line 168 calls `close(..).unwrap()` again on every later established event once all flags are set, and a refusal of that repeated close would panic; the engine's answer to it is not part of this model.
- Setup failures other than address parsing are not modelled: `bind(..).unwrap()`, `register(..).unwrap()` and `connect(..).unwrap()` (lines 42-45, 103) are taken to succeed.
- ScidManager.ScidLoop: assumes that each accepted `new_scid` lowers `scids_left()` by one. Without that, the loop in the source need not end.
- Configuration is not modelled: transport parameters, `SSLKEYLOGFILE` key logging, logging and `println!` (lines 53-79, 126-130).
- Received bytes are not modelled, so neither is their UTF-8 decoding and its `unwrap` (line 160). Message payloads are kept as strings, not as their UTF-8 bytes.
- Randomness is not modelled: the HMAC key and the initial source id (lines 81-88) have no behavioural contract here.
- `u64` / `usize` widths are not modelled. `idx_message * 4` cannot overflow for any message list that fits in memory, and stream ids and indexes are unbounded naturals.
