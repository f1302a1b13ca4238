/** The grid barrier of ag_gemm: each CTA adds one to a counter that is never reset, derives
    from its own arrival number the count that ends this use, and waits for it.  The gate
    after phase 1 is the same code over fewer CTAs.
 */
module TicketBarrier {
  import opened Arith

  // ----- the counter

  const INT_MAX := 0x7FFF_FFFF

  /** How the counter and the targets are kept: as they are, or as signed 32-bit integers. */
  datatype Width = Unbounded | Signed32

  /** The signed 32-bit integer that `x` wraps to. */
  function Int32(x: int): int {
    var y := x % 0x1_0000_0000;
    if y > INT_MAX then y - 0x1_0000_0000 else y
  }

  lemma Int32Is(x: int, y: int)
    requires -0x8000_0000 <= y <= INT_MAX && (x == y || x == y + 0x1_0000_0000)
    ensures Int32(x) == y
  {
  }

  lemma Int32Next(x: int)
    ensures Int32(Int32(x) + 1) == Int32(x + 1)
  {
  }

  function Wrap(w: Width, x: int): int {
    match w
    case Unbounded => x
    case Signed32 => Int32(x)
  }

  /** Division toward zero. */
  function Quotient(x: int, n: nat): int
    requires n > 0
  {
    if x >= 0 then x / n else -((-x) / n)
  }

  /** The count that ends the use which arrival number `mine` belongs to. */
  function TargetOf(w: Width, mine: int, n: nat): int
    requires n > 0
  {
    Wrap(w, (Quotient(mine, n) + 1) * n)
  }

  // ----- the barrier

  /** `uses` counts a CTA's arrivals. */
  datatype Pc = Away(uses: nat) | Waiting(uses: nat, target: int)

  datatype State = State(pc: seq<Pc>, counter: int)

  function Arrive(w: Width, s: State, i: nat): State
    requires i < |s.pc|
  {
    State(s.pc[i := Waiting(s.pc[i].uses + 1, TargetOf(w, s.counter, |s.pc|))], Wrap(w, s.counter + 1))
  }

  /** Poll the counter; leave when it has reached the target. */
  function Poll(s: State, i: nat): State
    requires i < |s.pc| && s.pc[i].Waiting?
  {
    if s.counter < s.pc[i].target then s else s.(pc := s.pc[i := Away(s.pc[i].uses)])
  }

  function Step(w: Width, s: State, i: nat): State
    requires i < |s.pc|
  {
    if s.pc[i].Away? then Arrive(w, s, i) else Poll(s, i)
  }

  ghost predicate Init(s: State) {
    |s.pc| > 0 && s.counter == 0 && forall i :: 0 <= i < |s.pc| ==> s.pc[i] == Away(0)
  }

  ghost predicate Next(w: Width, s: State, s': State) {
    exists i :: 0 <= i < |s.pc| && s' == Step(w, s, i)
  }

  ghost predicate IsRun(w: Width, run: seq<State>) {
    && |run| > 0
    && Init(run[0])
    && forall n :: 0 <= n < |run| - 1 ==> Next(w, run[n], run[n + 1])
  }

  // ----- the invariant

  /** How many of the first `n` CTAs have arrived `u` times. */
  function Arrived(pc: seq<Pc>, u: nat, n: nat): (k: nat)
    requires n <= |pc|
    ensures k <= n
  {
    if n == 0 then 0 else Arrived(pc, u, n - 1) + if pc[n - 1].uses == u then 1 else 0
  }

  /** In round `r` every CTA has arrived r or r + 1 times, and those who have arrived r + 1
      times are waiting; the counter says how many they are.
   */
  ghost predicate InvAt(s: State, r: nat) {
    && |s.pc| > 0
    && (forall i :: 0 <= i < |s.pc| ==> s.pc[i].uses == r || (s.pc[i].uses == r + 1 && s.pc[i].Waiting?))
    && (forall i :: 0 <= i < |s.pc| && s.pc[i].Waiting? ==> s.pc[i].target == Pair(s.pc[i].uses, |s.pc|, 0))
    && Arrived(s.pc, r + 1, |s.pc|) < |s.pc|
    && s.counter == Pair(r, |s.pc|, Arrived(s.pc, r + 1, |s.pc|))
  }

  lemma {:induction false} ArrivedAfter(pc: seq<Pc>, i: nat, x: Pc, u: nat, n: nat)
    requires i < |pc| && n <= |pc| && x.uses != pc[i].uses
    ensures Arrived(pc[i := x], u, n)
            == Arrived(pc, u, n) + if i >= n then 0 else if x.uses == u then 1 else if pc[i].uses == u then -1 else 0
  {
    if n == 0 {
    } else {
      ArrivedAfter(pc, i, x, u, n - 1);
    }
  }

  lemma {:induction false} ArrivedSame(pc: seq<Pc>, pc': seq<Pc>, u: nat, n: nat)
    requires n <= |pc| == |pc'| && forall i :: 0 <= i < n ==> pc[i].uses == pc'[i].uses
    ensures Arrived(pc, u, n) == Arrived(pc', u, n)
  {
    if n == 0 {
    } else {
      ArrivedSame(pc, pc', u, n - 1);
    }
  }

  lemma {:induction false} ArrivedAll(pc: seq<Pc>, u: nat, n: nat)
    requires n <= |pc|
    ensures Arrived(pc, u, n) == n <==> forall i :: 0 <= i < n ==> pc[i].uses == u
    ensures Arrived(pc, u, n) == 0 <==> forall i :: 0 <= i < n ==> pc[i].uses != u
  {
    if n == 0 {
    } else {
      ArrivedAll(pc, u, n - 1);
    }
  }

  /** An arrival computes the target of its own round; the last one opens the next round. */
  lemma ArriveInv(s: State, i: nat, r: nat)
    requires InvAt(s, r) && i < |s.pc| && s.pc[i].Away?
    ensures InvAt(Arrive(Unbounded, s, i), r) || InvAt(Arrive(Unbounded, s, i), r + 1)
    ensures Arrive(Unbounded, s, i).pc[i].target == Pair(r + 1, |s.pc|, 0)
  {
    var n, s' := |s.pc|, Arrive(Unbounded, s, i);
    PairDigits(r, n, Arrived(s.pc, r + 1, n));
    ArrivedAfter(s.pc, i, s'.pc[i], r + 1, n);
    ArrivedAll(s'.pc, r + 1, n);
    if Arrived(s'.pc, r + 1, n) == n {
      ArrivedAll(s'.pc, r + 2, n);
      assert Pair(r + 1, n, 0) == Pair(r, n, n);
      assert InvAt(s', r + 1);
    } else {
      assert InvAt(s', r);
    }
  }

  /** Only those of a past round can leave. */
  lemma PollInv(s: State, i: nat, r: nat)
    requires InvAt(s, r) && i < |s.pc| && s.pc[i].Waiting?
    ensures InvAt(Poll(s, i), r)
    ensures Poll(s, i) != s <==> s.pc[i].uses == r
  {
    var n := |s.pc|;
    if s.pc[i].uses == r {
      ArrivedSame(s.pc, Poll(s, i).pc, r + 1, n);
    } else {
      PairBelow(r, r + 1, n, Arrived(s.pc, r + 1, n));
    }
  }

  lemma {:induction false} RunInv(run: seq<State>, n: nat) returns (r: nat)
    requires IsRun(Unbounded, run) && n < |run|
    ensures InvAt(run[n], r)
    ensures |run[n].pc| == |run[0].pc|
  {
    if n == 0 {
      r := 0;
      ArrivedAll(run[0].pc, 1, |run[0].pc|);
    } else {
      r := RunInv(run, n - 1);
      assert Next(Unbounded, run[n - 1], run[n - 1 + 1]);
      var i :| 0 <= i < |run[n - 1].pc| && run[n] == Step(Unbounded, run[n - 1], i);
      if run[n - 1].pc[i].Away? {
        ArriveInv(run[n - 1], i, r);
        r := if InvAt(run[n], r) then r else r + 1;
      } else {
        PollInv(run[n - 1], i, r);
      }
    }
  }

  // ----- main results

  /** The number of uses a CTA has come out of. */
  function Passed(pc: Pc): int {
    if pc.Away? then pc.uses else pc.uses - 1
  }

  /** No CTA comes out of its k-th use before every CTA has arrived at its k-th. */
  lemma NobodyPassesEarly(run: seq<State>, n: nat, i: nat, j: nat)
    requires IsRun(Unbounded, run) && n < |run| && i < |run[n].pc| && j < |run[n].pc|
    ensures Passed(run[n].pc[i]) <= run[n].pc[j].uses
  {
    var r := RunInv(run, n);
  }

  lemma ArrivalsDifferByAtMostOne(run: seq<State>, n: nat, i: nat, j: nat)
    requires IsRun(Unbounded, run) && n < |run| && i < |run[n].pc| && j < |run[n].pc|
    ensures run[n].pc[i].uses <= run[n].pc[j].uses + 1
  {
    var r := RunInv(run, n);
  }

  function Total(pc: seq<Pc>, n: nat): nat
    requires n <= |pc|
  {
    if n == 0 then 0 else Total(pc, n - 1) + pc[n - 1].uses
  }

  lemma {:induction false} TotalIs(pc: seq<Pc>, r: nat, n: nat)
    requires n <= |pc| && forall i :: 0 <= i < n ==> pc[i].uses == r || pc[i].uses == r + 1
    ensures Total(pc, n) == Pair(r, n, Arrived(pc, r + 1, n))
  {
    if n == 0 {
    } else {
      TotalIs(pc, r, n - 1);
      assert r * n == r * (n - 1) + r;
    }
  }

  /** The counter is the number of arrivals of all uses together, and the count that ends
      k-th uses is k times the number of CTAs, with no reset in between.
   */
  lemma CounterCountsAllUses(run: seq<State>, n: nat)
    requires IsRun(Unbounded, run) && n < |run|
    ensures run[n].counter == Total(run[n].pc, |run[n].pc|)
    ensures forall i :: 0 <= i < |run[n].pc| && run[n].pc[i].Waiting? ==>
              run[n].pc[i].target == run[n].pc[i].uses * |run[n].pc|
  {
    var r := RunInv(run, n);
    TotalIs(run[n].pc, r, |run[n].pc|);
  }

  lemma RoundIsOpen(s: State, r: nat) returns (i: nat)
    requires InvAt(s, r)
    ensures i < |s.pc| && s.pc[i].uses == r
  {
    ArrivedAll(s.pc, r + 1, |s.pc|);
    i :| 0 <= i < |s.pc| && s.pc[i].uses != r + 1;
  }

  /** Once every CTA has arrived at its k-th use, every CTA still waiting there is let go. */
  lemma AllArrivedReleases(run: seq<State>, n: nat, k: nat, i: nat)
    requires IsRun(Unbounded, run) && n < |run| && i < |run[n].pc|
    requires forall j :: 0 <= j < |run[n].pc| ==> run[n].pc[j].uses >= k
    requires run[n].pc[i].Waiting? && run[n].pc[i].uses == k
    ensures Poll(run[n], i).pc[i] == Away(k)
  {
    var r := RunInv(run, n);
    var j := RoundIsOpen(run[n], r);
    PollInv(run[n], i, r);
  }

  /** The barrier cannot deadlock: some CTA can always arrive or leave. */
  lemma SomebodyMoves(run: seq<State>, n: nat) returns (i: nat)
    requires IsRun(Unbounded, run) && n < |run|
    ensures i < |run[n].pc| && Step(Unbounded, run[n], i) != run[n]
  {
    var r := RunInv(run, n);
    i := RoundIsOpen(run[n], r);
    if run[n].pc[i].Waiting? {
      PollInv(run[n], i, r);
    } else {
      assert Arrive(Unbounded, run[n], i).counter == run[n].counter + 1;
    }
  }

  // ----- on 32 bits, as long as the count fits

  /** Every CTA makes at most `k` uses. */
  ghost predicate AtMost(run: seq<State>, k: nat) {
    forall n, i :: 0 <= n < |run| && 0 <= i < |run[n].pc| ==> run[n].pc[i].uses <= k
  }

  lemma BelowLimit(r: nat, k: nat, n: nat)
    requires r < k
    ensures Pair(r, n, n) == Pair(r + 1, n, 0) <= k * n
  {
    Multiple(k - r, n);
    assert k * n == r * n + (k - r) * n;
  }

  /** Below the limit an arrival does the same on 32 bits. */
  lemma SameArrive(s: State, i: nat, r: nat, k: nat)
    requires InvAt(s, r) && i < |s.pc| && s.pc[i].Away?
    requires s.pc[i].uses + 1 <= k && k * |s.pc| <= INT_MAX
    ensures Arrive(Signed32, s, i) == Arrive(Unbounded, s, i)
  {
    var n, mine := |s.pc|, s.counter;
    ArriveInv(s, i, r);
    BelowLimit(r, k, n);
    Int32Is(mine + 1, mine + 1);
    Int32Is((Quotient(mine, n) + 1) * n, (Quotient(mine, n) + 1) * n);
  }

  lemma SameStep(s: State, s': State, r: nat, k: nat, w: Width, w': Width)
    requires InvAt(s, r) && k * |s.pc| <= INT_MAX && Next(w, s, s')
    requires forall i :: 0 <= i < |s'.pc| ==> s'.pc[i].uses <= k
    ensures Next(w', s, s')
  {
    var i :| 0 <= i < |s.pc| && s' == Step(w, s, i);
    if s.pc[i].Away? {
      assert s'.pc[i].uses == s.pc[i].uses + 1;
      SameArrive(s, i, r, k);
    }
    assert s' == Step(w', s, i);
  }

  lemma {:induction false} SamePrefix(run: seq<State>, n: nat, k: nat, w: Width, w': Width)
    requires IsRun(w, run) && n < |run| && AtMost(run, k) && k * |run[0].pc| <= INT_MAX
    ensures IsRun(w', run[..n + 1]) && |run[n].pc| == |run[0].pc|
  {
    if n == 0 {
    } else {
      SamePrefix(run, n - 1, k, w, Unbounded);
      SamePrefix(run, n - 1, k, w, w');
      var before := run[..n];
      var r := RunInv(before, n - 1);
      assert Next(w, run[n - 1], run[n - 1 + 1]);
      SameStep(run[n - 1], run[n], r, k, w, w');
      var all := run[..n + 1];
      forall m | 0 <= m < |all| - 1
        ensures Next(w', all[m], all[m + 1])
      {
        if m < n - 1 {
          assert Next(w', before[m], before[m + 1]);
        }
      }
    }
  }

  /** Where all uses together fit the signed 32-bit counter, the barrier has the same runs on it
      as on an unbounded one.
   */
  lemma SameRuns(run: seq<State>, k: nat)
    requires |run| > 0 && AtMost(run, k) && k * |run[0].pc| <= INT_MAX
    ensures IsRun(Signed32, run) <==> IsRun(Unbounded, run)
  {
    assert run[..|run| - 1 + 1] == run;
    if IsRun(Signed32, run) {
      SamePrefix(run, |run| - 1, k, Signed32, Unbounded);
    }
    if IsRun(Unbounded, run) {
      SamePrefix(run, |run| - 1, k, Unbounded, Signed32);
    }
  }

  // ----- what a barrier is for

  /** Nobody has come out of a use that somebody has not arrived at. */
  ghost predicate NobodyEarly(s: State) {
    forall i, j :: 0 <= i < |s.pc| && 0 <= j < |s.pc| ==> Passed(s.pc[i]) <= s.pc[j].uses
  }

  /** Whoever waits at a use that all have arrived at is let go. */
  ghost predicate NobodyStuck(s: State) {
    forall i :: 0 <= i < |s.pc| && s.pc[i].Waiting? && (forall j :: 0 <= j < |s.pc| ==> s.pc[j].uses >= s.pc[i].uses) ==>
      Poll(s, i).pc[i].Away?
  }

  ghost predicate Works(s: State) {
    NobodyEarly(s) && NobodyStuck(s)
  }

  /** So up to that limit the 32-bit barrier works. */
  lemma WorksBelow(run: seq<State>, n: nat, k: nat) returns (mover: nat)
    requires IsRun(Signed32, run) && n < |run| && AtMost(run, k) && k * |run[0].pc| <= INT_MAX
    ensures Works(run[n])
    ensures mover < |run[n].pc| && Step(Signed32, run[n], mover) != run[n]
  {
    SameRuns(run, k);
    var s := run[n];
    forall i, j | 0 <= i < |s.pc| && 0 <= j < |s.pc|
      ensures Passed(s.pc[i]) <= s.pc[j].uses
    {
      NobodyPassesEarly(run, n, i, j);
    }
    forall i | 0 <= i < |s.pc| && s.pc[i].Waiting? && (forall j :: 0 <= j < |s.pc| ==> s.pc[j].uses >= s.pc[i].uses)
      ensures Poll(s, i).pc[i].Away?
    {
      AllArrivedReleases(run, n, s.pc[i].uses, i);
    }
    mover := SomebodyMoves(run, n);
    assert s.pc[mover].Away? ==> Step(Signed32, s, mover).pc[mover].Waiting?;
  }

  /** One CTA alone never waits, whatever the counter does. */
  lemma {:induction false} AloneInv(run: seq<State>, n: nat)
    requires IsRun(Signed32, run) && n < |run| && |run[0].pc| == 1
    ensures |run[n].pc| == 1 && (run[n].pc[0].Waiting? ==> run[n].pc[0].target == run[n].counter)
  {
    if n == 0 {
    } else {
      AloneInv(run, n - 1);
      assert Next(Signed32, run[n - 1], run[n - 1 + 1]);
    }
  }

  // ----- and beyond

  /** Some run of at most `k` uses a CTA ends in `s`. */
  ghost predicate Reachable(s: State, k: nat) {
    exists run: seq<State> :: IsRun(Signed32, run) && AtMost(run, k) && run[|run| - 1] == s
  }

  lemma ReachNext(s: State, k: nat, i: nat)
    requires Reachable(s, k) && i < |s.pc| && Step(Signed32, s, i).pc[i].uses <= k
    ensures Reachable(Step(Signed32, s, i), k)
  {
    var run: seq<State> :| IsRun(Signed32, run) && AtMost(run, k) && run[|run| - 1] == s;
    var s' := Step(Signed32, s, i);
    var longer := run + [s'];
    forall n | 0 <= n < |longer| - 1
      ensures Next(Signed32, longer[n], longer[n + 1])
    {
      if n < |run| - 1 {
        assert Next(Signed32, run[n], run[n + 1]);
      }
    }
    forall n, j | 0 <= n < |longer| && 0 <= j < |longer[n].pc|
      ensures longer[n].pc[j].uses <= k
    {
      assert run[|run| - 1].pc == s.pc;
    }
    assert longer[|longer| - 1] == s';
  }

  /** In use r + 1 the first `j` of `n` CTAs have arrived, */
  ghost function In(n: nat, r: nat, j: nat): State {
    State(seq(n, i requires 0 <= i < n => if i < j then Waiting(r + 1, Pair(r + 1, n, 0)) else Away(r)), Pair(r, n, j))
  }

  /** or all have, and the first `j` of them have left. */
  ghost function Out(n: nat, r: nat, j: nat): State {
    State(seq(n, i requires 0 <= i < n => if i < j then Away(r + 1) else Waiting(r + 1, Pair(r + 1, n, 0))), Pair(r + 1, n, 0))
  }

  lemma StepIn(n: nat, r: nat, j: nat)
    requires 0 < j <= n && Pair(r + 1, n, 0) <= INT_MAX
    ensures Step(Signed32, In(n, r, j - 1), j - 1) == In(n, r, j)
  {
    PairDigits(r, n, j - 1);
    BelowLimit(r, r + 1, n);
    Int32Is(Pair(r, n, j), Pair(r, n, j));
    Int32Is(Pair(r + 1, n, 0), Pair(r + 1, n, 0));
    assert TargetOf(Signed32, Pair(r, n, j - 1), n) == Pair(r + 1, n, 0);
    assert Step(Signed32, In(n, r, j - 1), j - 1).pc == In(n, r, j).pc;
  }

  lemma {:induction false} ReachIn(n: nat, r: nat, j: nat, k: nat)
    requires n > 0 && j <= n && r < k && Pair(r + 1, n, 0) <= INT_MAX && Reachable(In(n, r, 0), k)
    ensures Reachable(In(n, r, j), k)
  {
    if j == 0 {
    } else {
      ReachIn(n, r, j - 1, k);
      StepIn(n, r, j);
      ReachNext(In(n, r, j - 1), k, j - 1);
    }
  }

  lemma {:induction false} ReachOut(n: nat, r: nat, j: nat, k: nat)
    requires n > 0 && j <= n && r < k && Reachable(Out(n, r, 0), k)
    ensures Reachable(Out(n, r, j), k)
  {
    if j == 0 {
    } else {
      ReachOut(n, r, j - 1, k);
      assert Step(Signed32, Out(n, r, j - 1), j - 1) == Out(n, r, j);
      ReachNext(Out(n, r, j - 1), k, j - 1);
    }
  }

  /** All CTAs can go through `r` uses together as long as the count fits. */
  lemma {:induction false} ReachUse(n: nat, r: nat, k: nat)
    requires n > 0 && r <= k && Pair(r, n, 0) <= INT_MAX
    ensures Reachable(In(n, r, 0), k)
  {
    if r == 0 {
      assert IsRun(Signed32, [In(n, 0, 0)]) && AtMost([In(n, 0, 0)], k);
      assert [In(n, 0, 0)][0] == In(n, 0, 0);
    } else {
      BelowLimit(r - 1, r, n);
      ReachUse(n, r - 1, k);
      ReachIn(n, r - 1, n, k);
      assert In(n, r - 1, n) == Out(n, r - 1, 0);
      ReachOut(n, r - 1, n, k);
      assert Out(n, r - 1, n) == In(n, r, 0);
    }
  }

  lemma ReachLeaving(n: nat, r: nat, j: nat, k: nat)
    requires n > 0 && j <= n && r < k && Pair(r + 1, n, 0) <= INT_MAX
    ensures Reachable(Out(n, r, j), k)
  {
    BelowLimit(r, r + 1, n);
    ReachUse(n, r, k);
    ReachIn(n, r, n, k);
    assert In(n, r, n) == Out(n, r, 0);
    ReachOut(n, r, j, k);
  }

  /** `s'` comes from `s` by the arrival of CTAs `j` up to `m` at their next use. */
  ghost predicate ArrivedFrom(s: State, s': State, j: nat, m: nat) {
    && |s'.pc| == |s.pc| && j <= m <= |s.pc| && s'.counter == Int32(s.counter + (m - j))
    && (forall i :: 0 <= i < |s.pc| && !(j <= i < m) ==> s'.pc[i] == s.pc[i])
    && (forall i :: j <= i < m ==> s'.pc[i].Waiting? && s'.pc[i].uses == s.pc[i].uses + 1)
  }

  lemma OneMore(s: State, s1: State, j: nat, m: nat)
    requires j < m <= |s.pc| && ArrivedFrom(s, s1, j, m - 1) && s.pc[m - 1].Away?
    ensures ArrivedFrom(s, Step(Signed32, s1, m - 1), j, m)
  {
    Int32Next(s.counter + (m - 1 - j));
    assert s.counter + (m - 1 - j) + 1 == s.counter + (m - j);
    assert s1.pc[m - 1] == s.pc[m - 1];
  }

  lemma {:induction false} ReachArrivals(s: State, j: nat, m: nat, k: nat) returns (s': State)
    requires Reachable(s, k) && j <= m <= |s.pc| && s.counter == Int32(s.counter)
    requires forall i :: j <= i < m ==> s.pc[i].Away? && s.pc[i].uses < k
    ensures Reachable(s', k) && ArrivedFrom(s, s', j, m)
  {
    if j == m {
      s' := s;
    } else {
      var s1 := ReachArrivals(s, j, m - 1, k);
      OneMore(s, s1, j, m);
      ReachNext(s1, k, m - 1);
      s' := Step(Signed32, s1, m - 1);
    }
  }

  /** The first CTA to arrive at a use whose target no longer fits walks through alone. */
  lemma FirstWalksThrough(n: nat, r: nat, k: nat) returns (s: State)
    requires 2 <= n <= INT_MAX && r < k && Pair(r, n, 0) < INT_MAX < Pair(r + 1, n, 0)
    ensures Reachable(s, k) && |s.pc| == n && s.pc[0] == Away(r + 1) && s.pc[1] == Away(r)
  {
    ReachUse(n, r, k);
    var s0 := In(n, r, 0);
    PairDigits(r, n, 0);
    assert Pair(r + 1, n, 0) == Pair(r, n, 0) + n;
    ReachNext(s0, k, 0);
    var s1 := Step(Signed32, s0, 0);
    assert s1.pc[0] == Waiting(r + 1, Pair(r + 1, n, 0) - 0x1_0000_0000) && s1.counter == Pair(r, n, 0) + 1;
    ReachNext(s1, k, 0);
    s := Step(Signed32, s1, 0);
  }

  lemma SecondTarget(n: nat, r: nat)
    requires 2 <= n <= INT_MAX && Pair(r, n, 0) == INT_MAX
    ensures TargetOf(Signed32, -0x8000_0000, n) == n - INT_MAX
  {
    PairDigits(r, n, 1);
    assert Pair(r, n, 1) == 0x8000_0000;
    assert (1 - r) * n == n - INT_MAX;
    Int32Is(n - INT_MAX, n - INT_MAX);
  }

  /** If the count fits to the last digit, the second CTA to arrive is never let go. */
  lemma SecondIsStuck(n: nat, r: nat, k: nat) returns (s: State)
    requires 2 <= n <= INT_MAX && r < k && Pair(r, n, 0) == INT_MAX
    ensures Reachable(s, k) && |s.pc| == n && s.pc[1].Waiting? && s.pc[1].uses == r + 1
    ensures (forall j :: 0 <= j < n ==> s.pc[j].uses == r + 1) && s.counter < s.pc[1].target
  {
    ReachUse(n, r, k);
    ReachNext(In(n, r, 0), k, 0);
    var s1 := Step(Signed32, In(n, r, 0), 0);
    Int32Is(INT_MAX + 1, -0x8000_0000);
    SecondTarget(n, r);
    ReachNext(s1, k, 1);
    var s2 := Step(Signed32, s1, 1);
    Int32Is(-0x7FFF_FFFF, -0x7FFF_FFFF);
    assert s2.pc[1] == Waiting(r + 1, n - INT_MAX) && s2.counter == -0x7FFF_FFFF;
    s := ReachArrivals(s2, 2, n, k);
    Int32Is(-0x7FFF_FFFF + (n - 2), -0x7FFF_FFFF + (n - 2));
  }

  /** A CTA that is slow to poll is stuck once enough others have arrived at the next use for
      the counter to wrap, although its own target fits.
   */
  lemma LatePollerIsStuck(n: nat, r: nat, m: nat, k: nat) returns (s: State)
    requires 2 <= n <= INT_MAX && r < k && m < n && r > 0 && Pair(r, n, 0) <= INT_MAX < Pair(r, n, m)
    ensures Reachable(s, k) && |s.pc| == n && s.pc[n - 1] == Waiting(r, Pair(r, n, 0)) && s.counter < s.pc[n - 1].target
    ensures forall j :: 0 <= j < n ==> s.pc[j].uses >= r
  {
    BelowLimit(r - 1, r, n);
    ReachLeaving(n, r - 1, n - 1, k);
    s := ReachArrivals(Out(n, r - 1, n - 1), 0, m, k);
    Int32Is(Pair(r, n, m), Pair(r, n, m) - 0x1_0000_0000);
  }

  lemma {:induction false} SizeKept(run: seq<State>, n: nat)
    requires IsRun(Signed32, run) && n < |run|
    ensures |run[n].pc| == |run[0].pc|
  {
    if n == 0 {
    } else {
      SizeKept(run, n - 1);
      assert Next(Signed32, run[n - 1], run[n - 1 + 1]);
    }
  }

  /** Every state of every 32-bit run of `n` CTAs with at most `k` uses each works. */
  ghost predicate AlwaysWorks(n: nat, k: nat) {
    forall s :: Reachable(s, k) && |s.pc| == n ==> Works(s)
  }

  lemma BreaksBeyond(n: nat, k: nat)
    requires 2 <= n <= INT_MAX && k * n > INT_MAX
    ensures !AlwaysWorks(n, k)
  {
    var r := INT_MAX / n;
    DigitsPair(INT_MAX, n);
    assert Pair(r + 1, n, 0) == Pair(r, n, n);
    assert r < k by {
      Multiple(r - k, n);
      assert (r - k) * n == r * n - k * n;
    }
    if Pair(r, n, 0) < INT_MAX {
      var s := FirstWalksThrough(n, r, k);
      assert Passed(s.pc[0]) > s.pc[1].uses;
    } else {
      var s := SecondIsStuck(n, r, k);
      assert Poll(s, 1) == s;
    }
  }

  /** The exact limit: on its signed 32-bit counter the barrier of `n` CTAs works in every run of
      at most `k` uses if and only if k * n fits, or there is nobody to wait for.
   */
  lemma WorksIff(n: nat, k: nat)
    requires 1 <= n <= INT_MAX
    ensures AlwaysWorks(n, k) <==> n == 1 || k * n <= INT_MAX
  {
    if n > 1 && k * n > INT_MAX {
      BreaksBeyond(n, k);
    } else {
      forall s | Reachable(s, k) && |s.pc| == n
        ensures Works(s)
      {
        var run: seq<State> :| IsRun(Signed32, run) && AtMost(run, k) && run[|run| - 1] == s;
        SizeKept(run, |run| - 1);
        if n == 1 {
          AloneInv(run, |run| - 1);
        } else {
          var _ := WorksBelow(run, |run| - 1, k);
        }
      }
    }
  }

  /** 132 CTAs: at use 16268816 the first to arrive comes out although nobody else is there, */
  lemma EarlyAt132() returns (s: State)
    ensures Reachable(s, 16268816) && |s.pc| == 132 && s.pc[0] == Away(16268816) && s.pc[1] == Away(16268815)
  {
    s := FirstWalksThrough(132, 16268815, 16268816);
  }

  /** and a CTA that has not polled since use 16268815, whose target fits, is stuck there after
      68 others have arrived again.
   */
  lemma LateAt132() returns (s: State)
    ensures Reachable(s, 16268816) && |s.pc| == 132 && s.pc[131] == Waiting(16268815, 2147483580)
    ensures (forall j :: 0 <= j < 132 ==> s.pc[j].uses >= 16268815) && Poll(s, 131) == s
  {
    s := LatePollerIsStuck(132, 16268815, 68, 16268816);
  }
}
