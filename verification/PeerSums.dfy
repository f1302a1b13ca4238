/** Sums of per-peer contributions to a chunk, in exact arithmetic. */
module PeerSums {

  /** One peer's contribution to one chunk. */
  datatype Work = Work(peer: nat, chunk: nat)

  /** The received values of the peers below `n` whose contribution to `c` is in `added`. */
  function SumOf(recv: Work -> int, added: set<Work>, c: nat, n: nat): int {
    if n == 0 then 0
    else SumOf(recv, added, c, n - 1) + if Work(n - 1, c) in added then recv(Work(n - 1, c)) else 0
  }

  /** The received values of all peers below `n`. */
  function SumAll(recv: Work -> int, c: nat, n: nat): int {
    if n == 0 then 0 else SumAll(recv, c, n - 1) + recv(Work(n - 1, c))
  }

  function CountOf(ws: set<Work>, c: nat, n: nat): (k: nat)
    ensures k <= n
  {
    if n == 0 then 0 else CountOf(ws, c, n - 1) + if Work(n - 1, c) in ws then 1 else 0
  }

  lemma {:induction false} SumAfterAdd(recv: Work -> int, added: set<Work>, w: Work, c: nat, n: nat)
    requires w !in added
    ensures SumOf(recv, added + {w}, c, n)
            == SumOf(recv, added, c, n) + if w.chunk == c && w.peer < n then recv(w) else 0
  {
    if n == 0 {
    } else {
      SumAfterAdd(recv, added, w, c, n - 1);
    }
  }

  lemma {:induction false} SumOfNone(recv: Work -> int, added: set<Work>, c: nat, n: nat)
    requires forall w :: w in added ==> w.chunk != c
    ensures SumOf(recv, added, c, n) == 0
  {
    if n == 0 {
    } else {
      SumOfNone(recv, added, c, n - 1);
    }
  }

  lemma {:induction false} CountAfterAdd(ws: set<Work>, w: Work, c: nat, n: nat)
    requires w !in ws
    ensures CountOf(ws + {w}, c, n) == CountOf(ws, c, n) + if w.chunk == c && w.peer < n then 1 else 0
  {
    if n == 0 {
    } else {
      CountAfterAdd(ws, w, c, n - 1);
    }
  }

  lemma {:induction false} CountEmpty(c: nat, n: nat)
    ensures CountOf({}, c, n) == 0
  {
    if n == 0 {
    } else {
      CountEmpty(c, n - 1);
    }
  }

  /** The count is full exactly when every peer is in. */
  lemma {:induction false} CountFull(ws: set<Work>, c: nat, n: nat)
    ensures CountOf(ws, c, n) == n <==> forall p :: 0 <= p < n ==> Work(p, c) in ws
  {
    if n == 0 {
    } else {
      CountFull(ws, c, n - 1);
    }
  }

  /** When every peer has been added, the sum is complete. */
  lemma {:induction false} SumFull(recv: Work -> int, added: set<Work>, c: nat, n: nat)
    requires forall p :: 0 <= p < n ==> Work(p, c) in added
    ensures SumOf(recv, added, c, n) == SumAll(recv, c, n)
  {
    if n == 0 {
    } else {
      SumFull(recv, added, c, n - 1);
    }
  }
}
