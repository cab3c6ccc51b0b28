/** The QUIC connection, seen from the client.

    The protocol engine is a collaborator whose internals are not part of
    this model. What the client can observe of it is an `EngineView`: the
    validation status of every path the engine knows, how many peer-issued
    connection ids are spare for probing, and how many more source
    connection ids it accepts. What the client asks of it is recorded, in
    order, in logs: path probes, migrations, stream writes, registered
    source connection ids and close requests. The engine changes its view
    on its own between client calls (`Observe`); client calls only append
    to the logs, except that a registered source connection id uses up one
    unit of the `scids_left` quota.
 */
module Connection {
  import opened Pools

  /** A path: the (local, peer) address pair. */
  datatype Path = Path(local: Addr, peer: Addr)

  /** `is_path_validated(local, peer)`: `Err` for a path the engine does not
      know (`Unknown`), `Ok(validated)` otherwise. */
  datatype PathStatus = Unknown | Known(validated: bool)

  /** One `stream_send(stream, payload, fin)`. */
  datatype StreamWrite = StreamWrite(stream: nat, payload: string, fin: bool)

  /** One `close(app, code, reason)`. */
  datatype CloseFrame = CloseFrame(app: bool, code: nat, reason: string)

  /** A fresh source connection id with its stateless reset token, as made
      by the (random) generator. */
  datatype ScidPair = ScidPair(cid: seq<bv8>, resetToken: nat)

  /** The engine-owned part of the connection. A path absent from `paths`
      is one `is_path_validated` reports as an error. */
  datatype EngineView = EngineView(paths: map<Path, bool>, availableDcids: nat, scidsLeft: nat)

  datatype Conn = Conn(
    engine: EngineView,
    probes: seq<Path>,
    migrations: seq<Path>,
    writes: seq<StreamWrite>,
    scids: seq<ScidPair>,
    closes: seq<CloseFrame>)
  {
    function IsPathValidated(p: Path): PathStatus {
      if p in engine.paths then Known(engine.paths[p]) else Unknown
    }

    function ProbePath(p: Path): Conn {
      this.(probes := probes + [p])
    }

    function Migrate(p: Path): Conn {
      this.(migrations := migrations + [p])
    }

    function StreamSend(stream: nat, payload: string, fin: bool): Conn {
      this.(writes := writes + [StreamWrite(stream, payload, fin)])
    }

    /** A successful `new_scid`: the id is registered and the quota shrinks. */
    function NewScid(s: ScidPair): Conn
      requires engine.scidsLeft > 0
    {
      this.(scids := scids + [s], engine := engine.(scidsLeft := engine.scidsLeft - 1))
    }

    function Close(app: bool, code: nat, reason: string): Conn {
      this.(closes := closes + [CloseFrame(app, code, reason)])
    }

    /** The engine's own progress (packets ingested, timers fired, paths
        validated or abandoned, ids retired) between two client calls. */
    function Observe(v: EngineView): Conn {
      this.(engine := v)
    }
  }

  /** A connection just returned by `connect`: the engine in state `v`,
      nothing asked of it yet. */
  function Fresh(v: EngineView): Conn {
    Conn(v, [], [], [], [], [])
  }
}
