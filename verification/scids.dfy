/** The connection-id manager: the source-id replenishment loop.

    While the engine still accepts source connection ids (`scids_left()`
    is positive) the client generates a fresh id with its reset token and
    registers it with `new_scid`; the first refusal ends the loop for this
    iteration. The generator is random and the engine's answer is its own
    business, so both are parameters: `gen(k)` is the pair made for the
    `k`-th call and `accepts(k)` says whether the engine took it.
 */
module ScidManager {
  import opened Connection

  /** The connection after the loop, how many ids the engine accepted,
      and whether the loop ended on a refusal (one more `new_scid` call)
      rather than on an exhausted quota. */
  datatype ScidRun = ScidRun(conn: Conn, accepted: nat, refused: bool) {
    /** The number of `new_scid` calls the loop made. */
    function Calls(): nat {
      if refused then accepted + 1 else accepted
    }
  }

  /** Ids registered by calls `k .. k+n-1`. */
  function Generated(gen: nat -> ScidPair, k: nat, n: nat): seq<ScidPair> {
    seq(n, i requires 0 <= i < n => gen(k + i))
  }

  /** The loop from its `k`-th call on. */
  function ScidLoop(c: Conn, gen: nat -> ScidPair, accepts: nat -> bool, k: nat): (r: ScidRun)
    decreases c.engine.scidsLeft
    // never more calls than the quota allowed when the loop started
    ensures r.Calls() <= c.engine.scidsLeft
    // every call before the last one was accepted
    ensures forall j :: k <= j < k + r.accepted ==> accepts(j)
    // the loop stops at the first refusal ...
    ensures r.refused ==> !accepts(k + r.accepted)
    // ... or else because the quota is used up
    ensures !r.refused ==> r.accepted == c.engine.scidsLeft
    // the accepted ids are registered in call order, each using one unit of
    // the quota, and nothing else about the connection changes
    ensures r.conn.scids == c.scids + Generated(gen, k, r.accepted)
    ensures r.conn == c.(scids := r.conn.scids, engine := c.engine.(scidsLeft := c.engine.scidsLeft - r.accepted))
  {
    if c.engine.scidsLeft == 0 then ScidRun(c, 0, false)
    else if !accepts(k) then ScidRun(c, 0, true)
    else
      var r := ScidLoop(c.NewScid(gen(k)), gen, accepts, k + 1);
      GeneratedCons(gen, k, r.accepted);
      ScidRun(r.conn, r.accepted + 1, r.refused)
  }

  lemma GeneratedCons(gen: nat -> ScidPair, k: nat, n: nat)
    ensures Generated(gen, k, n + 1) == [gen(k)] + Generated(gen, k + 1, n)
  {
  }

  /** An exhausted quota means no call at all. */
  lemma NoQuotaNoCall(c: Conn, gen: nat -> ScidPair, accepts: nat -> bool)
    requires c.engine.scidsLeft == 0
    ensures ScidLoop(c, gen, accepts, 0).Calls() == 0
    ensures ScidLoop(c, gen, accepts, 0).conn == c
  {
  }

  /** When the engine accepts every id, the loop fills the quota exactly:
      one call and one registered id per unit of `scids_left`. */
  lemma AllAcceptedFillsQuota(c: Conn, gen: nat -> ScidPair, accepts: nat -> bool, k: nat)
    requires forall j :: k <= j < k + c.engine.scidsLeft ==> accepts(j)
    ensures ScidLoop(c, gen, accepts, k).Calls() == c.engine.scidsLeft
    ensures ScidLoop(c, gen, accepts, k).conn.scids == c.scids + Generated(gen, k, c.engine.scidsLeft)
  {
  }
}
