/** The ring of words that the EFA proxy's flag, tail and barrier writes are sent from.  Each
    write claims the next word by a cursor that is never checked against the writes still in
    flight, so a word may be overwritten before the network card has read it.
 */
module StagingRing {
  import opened Arith
  import EfaProxy

  /** `count` words, at most `budget` writes in flight.  Completions may come in order or not,
      and the queue pair may refuse writes, which have claimed their words all the same.
   */
  datatype Ring = Ring(count: nat, budget: nat, inOrder: bool, refusals: bool)

  /** `pending` are the claims whose writes are in flight. */
  datatype State = State(cursor: nat, pending: set<nat>)

  // ----- steps

  /** Claim a word; `ok` tells whether the write will be accepted. */
  function Claim(s: State, ok: bool): State {
    State(s.cursor + 1, if ok then s.pending + {s.cursor} else s.pending)
  }

  ghost predicate CanClaim(z: Ring, s: State, ok: bool) {
    |s.pending| < z.budget && (ok || z.refusals)
  }

  function Retire(s: State, n: nat): State {
    s.(pending := s.pending - {n})
  }

  ghost predicate CanRetire(z: Ring, s: State, n: nat) {
    n in s.pending && (z.inOrder ==> forall m :: m in s.pending ==> n <= m)
  }

  ghost predicate Next(z: Ring, s: State, s': State) {
    || (exists ok :: CanClaim(z, s, ok) && s' == Claim(s, ok))
    || (exists n :: CanRetire(z, s, n) && s' == Retire(s, n))
  }

  ghost predicate IsRun(z: Ring, run: seq<State>) {
    && |run| > 0 && run[0] == State(0, {})
    && forall n :: 0 <= n < |run| - 1 ==> Next(z, run[n], run[n + 1])
  }

  ghost predicate Reachable(z: Ring, s: State) {
    exists run: seq<State> :: IsRun(z, run) && run[|run| - 1] == s
  }

  /** The next claim overwrites the word of a write in flight. */
  ghost predicate Clash(z: Ring, s: State)
    requires z.count > 0
  {
    |s.pending| < z.budget && exists n :: n in s.pending && n % z.count == s.cursor % z.count
  }

  /** Up to `total` claims, none overwrites such a word. */
  ghost predicate Safe(z: Ring, total: nat)
    requires z.count > 0
  {
    forall s :: Reachable(z, s) && s.cursor < total ==> !Clash(z, s)
  }

  // ----- where it is safe

  /** Claims in flight lie behind the cursor, and without reordering or refusals they are the
      latest ones.
   */
  ghost predicate Inv(z: Ring, s: State) {
    && (forall n :: n in s.pending ==> n < s.cursor)
    && |s.pending| <= z.budget
    && (z.inOrder && !z.refusals ==> forall n :: s.cursor - |s.pending| <= n < s.cursor ==> n in s.pending)
  }

  lemma ClaimInv(z: Ring, s: State, ok: bool)
    requires Inv(z, s) && CanClaim(z, s, ok)
    ensures Inv(z, Claim(s, ok))
  {
  }

  lemma Latest(s: State)
    requires forall n :: n in s.pending ==> n < s.cursor
    requires forall n :: s.cursor - |s.pending| <= n < s.cursor ==> n in s.pending
    ensures |s.pending| <= s.cursor && forall n :: n in s.pending ==> s.cursor - |s.pending| <= n
  {
    var lo := s.cursor - |s.pending|;
    SubsetSize(s.pending, Below(s.cursor));
    BelowSize(s.cursor);
    var latest := Below(s.cursor) - Below(lo);
    BelowSize(lo);
    assert Below(s.cursor) == latest + Below(lo);
    SubsetSize(latest, s.pending);
  }

  lemma RetireInv(z: Ring, s: State, n: nat)
    requires Inv(z, s) && CanRetire(z, s, n)
    ensures Inv(z, Retire(s, n))
  {
    if z.inOrder && !z.refusals {
      Latest(s);
      var oldest: nat := s.cursor - |s.pending|;
      assert oldest in s.pending;
      assert |Retire(s, n).pending| == |s.pending| - 1;
    }
  }

  lemma {:induction false} RunInv(z: Ring, run: seq<State>, n: nat)
    requires IsRun(z, run) && n < |run|
    ensures Inv(z, run[n])
  {
    if n == 0 {
    } else {
      RunInv(z, run, n - 1);
      var s := run[n - 1];
      assert Next(z, run[n - 1], run[n - 1 + 1]);
      if ok :| CanClaim(z, s, ok) && run[n] == Claim(s, ok) {
        ClaimInv(z, s, ok);
      } else {
        var m :| CanRetire(z, s, m) && run[n] == Retire(s, m);
        RetireInv(z, s, m);
      }
    }
  }

  lemma NoClash(z: Ring, s: State, total: nat)
    requires z.count > 0 && Inv(z, s) && s.cursor < total
    requires total <= z.count || z.budget <= 1 || (z.inOrder && !z.refusals && z.budget <= z.count)
    ensures !Clash(z, s)
  {
    if n :| |s.pending| < z.budget && n in s.pending && n % z.count == s.cursor % z.count {
      if total <= z.count {
        DivIs(n, z.count, 0, n);
        DivIs(s.cursor, z.count, 0, s.cursor);
      } else if z.budget > 1 {
        Latest(s);
        SameResidue(s.cursor, n, z.count);
      }
    }
  }

  // ----- and where it is not

  lemma ReachNext(z: Ring, s: State, s': State)
    requires Reachable(z, s) && Next(z, s, s')
    ensures Reachable(z, s')
  {
    var run: seq<State> :| IsRun(z, run) && run[|run| - 1] == s;
    var longer := run + [s'];
    forall n | 0 <= n < |longer| - 1
      ensures Next(z, longer[n], longer[n + 1])
    {
      if n < |run| - 1 {
        assert Next(z, run[n], run[n + 1]);
      }
    }
    assert longer[|longer| - 1] == s';
  }

  lemma ReachClaim(z: Ring, s: State)
    requires Reachable(z, s) && |s.pending| < z.budget
    ensures Reachable(z, Claim(s, true))
  {
    assert CanClaim(z, s, true);
    ReachNext(z, s, Claim(s, true));
  }

  lemma ReachFirst(z: Ring)
    requires z.budget > 0
    ensures Reachable(z, State(1, {0}))
  {
    assert IsRun(z, [State(0, {})]) && [State(0, {})][0] == State(0, {});
    assert Reachable(z, State(0, {}));
    ReachClaim(z, State(0, {}));
  }

  /** The first write stays in flight while others are refused or overtake it. */
  lemma {:induction false} ReachStraggler(z: Ring, c: nat)
    requires z.budget > 1 && (z.refusals || !z.inOrder) && c > 0
    ensures Reachable(z, State(c, {0}))
  {
    if c == 1 {
      ReachFirst(z);
    } else {
      ReachStraggler(z, c - 1);
      var s := State(c - 1, {0});
      if z.refusals {
        assert CanClaim(z, s, false) && Claim(s, false) == State(c, {0});
        ReachNext(z, s, State(c, {0}));
      } else {
        var s1 := Claim(s, true);
        ReachClaim(z, s);
        assert CanRetire(z, s1, c - 1) && Retire(s1, c - 1) == State(c, {0});
        ReachNext(z, s1, State(c, {0}));
      }
    }
  }

  /** Nothing completes until the ring is full. */
  lemma {:induction false} ReachFull(z: Ring, c: nat)
    requires c <= z.budget
    ensures Reachable(z, State(c, Below(c)))
  {
    if c == 0 {
      assert IsRun(z, [State(0, {})]) && [State(0, {})][0] == State(0, Below(0));
    } else {
      ReachFull(z, c - 1);
      BelowSize(c - 1);
      ReachClaim(z, State(c - 1, Below(c - 1)));
    }
  }

  lemma SomeClash(z: Ring, total: nat) returns (s: State)
    requires 0 < z.count < total && z.budget > 1 && (!z.inOrder || z.refusals || z.budget > z.count)
    ensures Reachable(z, s) && s.cursor < total && Clash(z, s)
  {
    DivIs(z.count, z.count, 1, 0);
    DivIs(0, z.count, 0, 0);
    if z.refusals || !z.inOrder {
      s := State(z.count, {0});
      ReachStraggler(z, z.count);
    } else {
      s := State(z.count, Below(z.count));
      ReachFull(z, z.count);
      BelowSize(z.count);
    }
    assert 0 in s.pending && 0 % z.count == s.cursor % z.count;
  }

  // ----- main results

  /** The exact condition: no word is overwritten under a write in flight, in any run of up to
      `total` claims, if and only if they all have words of their own, or there is never a second
      write in flight, or completions come in order, nothing is refused, and the writes in
      flight fit the ring.
   */
  lemma SafeIff(z: Ring, total: nat)
    requires z.count > 0
    ensures Safe(z, total) <==>
            total <= z.count || z.budget <= 1 || (z.inOrder && !z.refusals && z.budget <= z.count)
  {
    if total <= z.count || z.budget <= 1 || (z.inOrder && !z.refusals && z.budget <= z.count) {
      forall s | Reachable(z, s) && s.cursor < total
        ensures !Clash(z, s)
      {
        var run: seq<State> :| IsRun(z, run) && run[|run| - 1] == s;
        RunInv(z, run, |run| - 1);
        NoClash(z, s, total);
      }
    } else {
      var s := SomeClash(z, total);
    }
  }

  const WORDS := 8192     // of a session's ring
  const SQ_DEPTH := 512
  const MAX_PEERS := 16

  lemma BudgetBelow(m: nat, p: nat, q: nat)
    requires 0 < q <= EfaProxy.MAX_EXCHANGE_QPS && p <= SQ_DEPTH / 4 - EfaProxy.BATCH_SIZE && m == p * q
    ensures 2 * m + MAX_PEERS <= WORDS
  {
    Multiple(EfaProxy.MAX_EXCHANGE_QPS - q, p);
    assert p * EfaProxy.MAX_EXCHANGE_QPS == p * q + (EfaProxy.MAX_EXCHANGE_QPS - q) * p;
  }

  /** A session's ring is large enough for all writes its proxy can have in flight: a flag and a
      tail for every command of the budget and a barrier word for every peer.  So with
      completions in order and no refusals it is safe for ever; otherwise for one lap.
   */
  lemma SessionRing(maxInflight: int, numQps: int, inOrder: bool, refusals: bool, total: nat)
    ensures var budget := 2 * EfaProxy.EffectiveMaxInflight(EfaProxy.RemoteFlag, maxInflight, SQ_DEPTH, numQps) + MAX_PEERS;
            1 < budget <= WORDS
            && (Safe(Ring(WORDS, budget, inOrder, refusals), total) <==> total <= WORDS || (inOrder && !refusals))
  {
    var m := EfaProxy.EffectiveMaxInflight(EfaProxy.RemoteFlag, maxInflight, SQ_DEPTH, numQps);
    var p, q := EfaProxy.PerQpBudget(EfaProxy.RemoteFlag, maxInflight, SQ_DEPTH), EfaProxy.ClampQps(numQps);
    assert p <= SQ_DEPTH / 4 - EfaProxy.BATCH_SIZE && m == m / q * q + m % q;
    BudgetBelow(m, p, q);
    SafeIff(Ring(WORDS, 2 * m + MAX_PEERS, inOrder, refusals), total);
  }
}
