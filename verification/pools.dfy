/** The address pools of the client.

    Every address is on the loopback interface, so an address is fully
    described by its port. The client binds one local socket per message,
    on consecutive ports from 9000, and builds a fixed table of twenty peer
    addresses whose ports cycle through the server's sockets from 8000.
 */
module Pools {
  import opened Outcomes

  /** A socket address `127.0.0.1:port`. */
  datatype Addr = Addr(port: nat)

  const LOCAL_BASE_PORT: nat := 9000
  const PEER_BASE_PORT: nat := 8000
  /** Length of the peer table: `for i in 0..20`. */
  const PEER_SLOTS: nat := 20
  /** Largest port a socket address can carry (`u16`). */
  const MAX_PORT: nat := 65535

  /** `format!("127.0.0.1:{port}").parse().unwrap()`: panics when the port
      does not fit in a socket address. */
  function ParseAddr(port: nat): (r: Result<Addr>)
    ensures r.Ok? <==> port <= MAX_PORT
    ensures r.Ok? ==> r.value.port == port
  {
    if port <= MAX_PORT then Ok(Addr(port)) else Panic(InvalidAddress)
  }

  /** The local sockets `i .. n-1` of the binding loop, in the order they
      are bound; the first port that does not parse stops the process. */
  function LocalPoolFrom(i: nat, n: nat): (r: Result<seq<Addr>>)
    requires i <= n
    decreases n - i
    ensures r.Ok? <==> i == n || LOCAL_BASE_PORT + n - 1 <= MAX_PORT
    ensures r.Ok? ==> |r.value| == n - i
    ensures r.Ok? ==> forall k :: 0 <= k < n - i ==> r.value[k].port == LOCAL_BASE_PORT + i + k
  {
    if i == n then Ok([])
    else
      var a :- ParseAddr(LOCAL_BASE_PORT + i);
      var rest :- LocalPoolFrom(i + 1, n);
      Ok([a] + rest)
  }

  /** The local addresses, one per message: socket `i` is bound to port
      `9000 + i`. */
  function LocalPool(n: nat): (r: Result<seq<Addr>>)
    ensures r.Ok? <==> n == 0 || LOCAL_BASE_PORT + n - 1 <= MAX_PORT
    ensures r.Ok? ==> |r.value| == n
    ensures r.Ok? ==> forall i :: 0 <= i < n ==> r.value[i].port == LOCAL_BASE_PORT + i
  {
    LocalPoolFrom(0, n)
  }

  /** No two local sockets share a port, so every message has its own
      socket and its own path. */
  lemma LocalPoolDistinct(n: nat)
    requires LocalPool(n).Ok?
    ensures forall i, j :: 0 <= i < j < n ==> LocalPool(n).value[i] != LocalPool(n).value[j]
  {
  }

  /** The peer table: twenty slots, slot `i` on port
      `8000 + i % maxSockets`, where `maxSockets` is the number of sockets
      the server listens on. */
  function PeerPool(maxSockets: nat): (r: seq<Addr>)
    requires maxSockets > 0
    ensures |r| == PEER_SLOTS
    ensures forall i :: 0 <= i < PEER_SLOTS ==>
              PEER_BASE_PORT <= r[i].port < PEER_BASE_PORT + maxSockets
    ensures forall i :: 0 <= i < PEER_SLOTS && i < maxSockets ==> r[i].port == PEER_BASE_PORT + i
  {
    assert forall i: nat :: i < maxSockets ==> i % maxSockets == i by {
      forall i: nat | i < maxSockets {
        DivisionUnique(i, maxSockets, 0, i, i / maxSockets, i % maxSockets);
      }
    }
    seq(PEER_SLOTS, i requires 0 <= i => Addr(PEER_BASE_PORT + i % maxSockets))
  }

  /** The peer table is cyclic: slots `maxSockets` apart name the same
      server socket. */
  lemma PeerPoolRepeats(maxSockets: nat, i: nat)
    requires maxSockets > 0
    requires i + maxSockets < PEER_SLOTS
    ensures PeerPool(maxSockets)[i] == PeerPool(maxSockets)[i + maxSockets]
  {
    ModShift(i, maxSockets);
  }

  /** Within one cycle the slots are pairwise different. */
  lemma PeerPoolDistinctInCycle(maxSockets: nat, i: nat, j: nat)
    requires maxSockets > 0
    requires i < j < PEER_SLOTS && j < i + maxSockets
    ensures PeerPool(maxSockets)[i] != PeerPool(maxSockets)[j]
  {
    ModInjective(i, j, maxSockets);
  }

  /** `(i + m) % m == i % m`, from the uniqueness of Euclidean division. */
  lemma ModShift(i: nat, m: nat)
    requires m > 0
    ensures (i + m) % m == i % m
  {
    var a, b := i % m, (i + m) % m;
    var qa, qb := i / m, (i + m) / m;
    assert i == qa * m + a;
    assert i + m == qb * m + b;
    assert (qa + 1) * m == qa * m + m;
    DivisionUnique(i + m, m, qa + 1, a, qb, b);
  }

  /** Two numbers less than `m` apart have different remainders. */
  lemma ModInjective(i: nat, j: nat, m: nat)
    requires m > 0 && i < j < i + m
    ensures i % m != j % m
  {
    var a, b := i % m, j % m;
    var qa, qb := i / m, j / m;
    assert j - i == (qb - qa) * m + (b - a) by {
      assert qb * m - qa * m == (qb - qa) * m;
    }
    MulSign(qb - qa, m);
  }

  /** Quotient and remainder of a Euclidean division are unique. */
  lemma DivisionUnique(x: int, m: nat, q1: int, r1: int, q2: int, r2: int)
    requires m > 0
    requires x == q1 * m + r1 && 0 <= r1 < m
    requires x == q2 * m + r2 && 0 <= r2 < m
    ensures q1 == q2 && r1 == r2
  {
    assert (q1 - q2) * m == r2 - r1 by {
      assert q1 * m - q2 * m == (q1 - q2) * m;
    }
    MulSign(q1 - q2, m);
  }

  /** A non-zero multiple of `m` is at least `m` away from zero. */
  lemma MulSign(k: int, m: nat)
    ensures k >= 1 ==> k * m >= m
    ensures k <= -1 ==> k * m <= 0 - m
    ensures k == 0 ==> k * m == 0
  {
  }
}
