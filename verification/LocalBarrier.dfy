/** The reusable two-phase shared-memory barrier of `LocalBroker::sync`.

    Every rank runs the same straight-line code over two shared words, `barrier`
    (a counter) and `sense` (a flag).  One atomic access of a shared word is one
    step, and ranks interleave freely over unboundedly many uses of the barrier.
 */
module LocalBarrier {

  /** Where a rank is inside `sync`; the two counter updates happen when it leaves
      `Outside` and `BeforeDec`.
   */
  datatype Pc =
    | Outside     // between two calls of sync
    | SetSense    // its increment returned the world size: about to raise sense
    | AwaitUp     // spinning until sense is raised
    | BeforeDec   // saw sense raised: about to decrement the counter
    | ClearSense  // its decrement returned zero: about to lower sense
    | AwaitDown   // spinning until sense is lowered

  /** `done[i]` counts the calls of `sync` from which rank `i` has returned. */
  datatype State = State(pc: seq<Pc>, done: seq<nat>, barrier: int, sense: bool)

  ghost predicate WellFormed(s: State) {
    && |s.pc| == |s.done|
    && |s.pc| > 0
  }

  ghost predicate Init(s: State) {
    && WellFormed(s)
    && s.barrier == 0
    && !s.sense
    && (forall i :: 0 <= i < |s.pc| ==> s.pc[i] == Outside)
    && (forall i :: 0 <= i < |s.pc| ==> s.done[i] == 0)
  }

  function Goto(s: State, i: nat, pc: Pc): State
    requires i < |s.pc|
  {
    s.(pc := s.pc[i := pc])
  }

  /** The next atomic access of rank `i`; a failed spin leaves the state as it is. */
  function Step(s: State, i: nat): (s': State)
    requires WellFormed(s) && i < |s.pc|
    ensures WellFormed(s') && |s'.pc| == |s.pc|
  {
    match s.pc[i]
    case Outside =>
      var arrived := s.barrier + 1;
      Goto(s, i, if arrived == |s.pc| then SetSense else AwaitUp).(barrier := arrived)
    case SetSense => Goto(s, i, AwaitUp).(sense := true)
    case AwaitUp => if s.sense then Goto(s, i, BeforeDec) else s
    case BeforeDec =>
      var arrived := s.barrier - 1;
      Goto(s, i, if arrived == 0 then ClearSense else AwaitDown).(barrier := arrived)
    case ClearSense => Goto(s, i, AwaitDown).(sense := false)
    case AwaitDown =>
      if s.sense then s else Goto(s, i, Outside).(done := s.done[i := s.done[i] + 1])
  }

  /** A run: any finite interleaving from an initial state. */
  ghost predicate IsRun(run: seq<State>) {
    && |run| > 0
    && Init(run[0])
    && (forall k :: 0 <= k < |run| ==> WellFormed(run[k]))
    && (forall k :: 0 <= k < |run| - 1 ==> exists i: nat :: i < |run[k].pc| && run[k + 1] == Step(run[k], i))
  }

  // ----- counting the ranks that hold a unit of the counter

  predicate Holds(pc: Pc) {
    pc == SetSense || pc == AwaitUp || pc == BeforeDec
  }

  function Held(pc: seq<Pc>): (n: nat)
    ensures n <= |pc|
  {
    if pc == [] then 0 else Held(pc[..|pc| - 1]) + (if Holds(pc[|pc| - 1]) then 1 else 0)
  }

  lemma {:induction false} HeldUpdate(pc: seq<Pc>, i: nat, x: Pc)
    requires i < |pc|
    ensures Held(pc[i := x]) == Held(pc) - (if Holds(pc[i]) then 1 else 0) + (if Holds(x) then 1 else 0)
  {
    var n := |pc| - 1;
    if i < n {
      HeldUpdate(pc[..n], i, x);
      assert pc[i := x][..n] == pc[..n][i := x];
    } else {
      assert pc[i := x][..n] == pc[..n];
    }
  }

  lemma {:induction false} HeldBounds(pc: seq<Pc>)
    ensures Held(pc) == |pc| <==> forall i :: 0 <= i < |pc| ==> Holds(pc[i])
    ensures Held(pc) == 0 <==> forall i :: 0 <= i < |pc| ==> !Holds(pc[i])
  {
    if pc == [] {
    } else {
      var n := |pc| - 1;
      HeldBounds(pc[..n]);
      assert forall i :: 0 <= i < n ==> pc[..n][i] == pc[i];
    }
  }

  // ----- the inductive invariant

  /** `sense` is down: ranks are leaving round `r - 1` or gathering for round `r`. */
  ghost predicate Gathering(s: State, r: nat)
    requires WellFormed(s)
  {
    && (forall i :: 0 <= i < |s.pc| ==> s.pc[i] in {Outside, SetSense, AwaitUp, AwaitDown})
    && (forall i :: 0 <= i < |s.pc| ==> s.done[i] == if s.pc[i] == AwaitDown then r - 1 else r)
    && (forall i :: 0 <= i < |s.pc| && s.pc[i] == SetSense ==> s.barrier == |s.pc|)
    && (forall i, j :: 0 <= i < j < |s.pc| && s.pc[i] == SetSense ==> s.pc[j] != SetSense)
    && (s.barrier == |s.pc| ==> SetSense in s.pc)
  }

  /** `sense` is up: every rank has entered call `r` and none has returned from it. */
  ghost predicate Releasing(s: State, r: nat)
    requires WellFormed(s)
  {
    && (forall i :: 0 <= i < |s.pc| ==> s.pc[i] in {AwaitUp, BeforeDec, ClearSense, AwaitDown})
    && (forall i :: 0 <= i < |s.pc| ==> s.done[i] == r)
    && (forall i :: 0 <= i < |s.pc| && s.pc[i] == ClearSense ==> s.barrier == 0)
    && (forall i, j :: 0 <= i < j < |s.pc| && s.pc[i] == ClearSense ==> s.pc[j] != ClearSense)
    && (s.barrier == 0 ==> ClearSense in s.pc)
  }

  ghost predicate InvAt(s: State, r: nat) {
    && WellFormed(s)
    && s.barrier == Held(s.pc)
    && (if s.sense then Releasing(s, r) else Gathering(s, r))
  }

  lemma InitInv(s: State)
    requires Init(s)
    ensures InvAt(s, 0)
  {
    HeldBounds(s.pc);
  }

  /** The round after a step: it advances exactly when `sense` is lowered. */
  function NextRound(s: State, i: nat, r: nat): nat
    requires i < |s.pc|
  {
    if s.pc[i] == ClearSense then r + 1 else r
  }

  lemma StaysIn(pc: seq<Pc>, i: nat, x: Pc, y: Pc)
    requires i < |pc| && pc[i] != y
    ensures y in pc ==> y in pc[i := x]
  {
    if y in pc {
      var j :| 0 <= j < |pc| && pc[j] == y;
      assert pc[i := x][j] == y;
    }
  }

  /** A step while `sense` is down; only raising it ends the gathering. */
  lemma GatheringStep(s: State, i: nat, r: nat)
    requires InvAt(s, r) && i < |s.pc| && !s.sense && s.pc[i] != SetSense
    ensures InvAt(Step(s, i), r)
  {
    var s' := Step(s, i);
    HeldUpdate(s.pc, i, s'.pc[i]);
    assert s'.pc == s.pc[i := s'.pc[i]];
    if s.pc[i] == Outside {
      HeldBounds(s.pc);
      assert s'.pc[i] in s'.pc;
    }
    StaysIn(s.pc, i, s'.pc[i], SetSense);
  }

  lemma RaiseStep(s: State, i: nat, r: nat)
    requires InvAt(s, r) && i < |s.pc| && s.pc[i] == SetSense
    ensures InvAt(Step(s, i), r)
  {
    HeldUpdate(s.pc, i, AwaitUp);
    HeldBounds(s.pc);
    assert forall j :: 0 <= j < |s.pc| ==> Holds(s.pc[j]);
  }

  /** A step while `sense` is up; only lowering it ends the release. */
  lemma ReleasingStep(s: State, i: nat, r: nat)
    requires InvAt(s, r) && i < |s.pc| && s.sense && s.pc[i] != ClearSense
    ensures InvAt(Step(s, i), r)
  {
    var s' := Step(s, i);
    HeldUpdate(s.pc, i, s'.pc[i]);
    assert s'.pc == s.pc[i := s'.pc[i]];
    HeldBounds(s.pc);
    if s.pc[i] == BeforeDec {
      assert s'.pc[i] in s'.pc;
    }
  }

  lemma LowerStep(s: State, i: nat, r: nat)
    requires InvAt(s, r) && i < |s.pc| && s.pc[i] == ClearSense
    ensures InvAt(Step(s, i), r + 1)
  {
    HeldUpdate(s.pc, i, AwaitDown);
    HeldBounds(s.pc);
    assert forall j :: 0 <= j < |s.pc| ==> !Holds(s.pc[j]);
  }

  lemma StepInv(s: State, i: nat, r: nat)
    requires InvAt(s, r) && i < |s.pc|
    ensures InvAt(Step(s, i), NextRound(s, i, r))
  {
    if s.pc[i] == SetSense {
      RaiseStep(s, i, r);
    } else if s.pc[i] == ClearSense {
      LowerStep(s, i, r);
    } else if s.sense {
      ReleasingStep(s, i, r);
    } else {
      GatheringStep(s, i, r);
    }
  }

  // ----- whole runs

  lemma {:induction false} RunInv(run: seq<State>, k: nat)
    requires IsRun(run) && k < |run|
    ensures exists r: nat :: InvAt(run[k], r)
  {
    if k == 0 {
      InitInv(run[0]);
    } else {
      RunInv(run, k - 1);
      var r: nat :| InvAt(run[k - 1], r);
      assert run[(k - 1) + 1] == run[k];
      var i: nat :| i < |run[k - 1].pc| && run[k] == Step(run[k - 1], i);
      StepInv(run[k - 1], i, r);
    }
  }

  /** The calls of `sync` that rank `i` has entered. */
  function Entered(s: State, i: nat): nat
    requires WellFormed(s) && i < |s.pc|
  {
    s.done[i] + if s.pc[i] == Outside then 0 else 1
  }

  /** No rank returns from its k-th `sync` before every rank has entered its k-th. */
  lemma BarrierSafe(run: seq<State>, k: nat, i: nat, j: nat)
    requires IsRun(run) && k < |run|
    requires i < |run[k].pc| && j < |run[k].pc|
    ensures run[k].done[i] <= Entered(run[k], j) <= run[k].done[i] + 2
    ensures Entered(run[k], j) <= Entered(run[k], i) + 1
  {
    RunInv(run, k);
  }

  /** Code that runs between calls of `sync` never overlaps code of another section:
      two ranks that are both outside have returned from equally many calls.
   */
  lemma SectionsNeverOverlap(run: seq<State>, k: nat, i: nat, j: nat)
    requires IsRun(run) && k < |run|
    requires i < |run[k].pc| && j < |run[k].pc|
    requires run[k].pc[i] == Outside && run[k].pc[j] == Outside
    ensures run[k].done[i] == run[k].done[j]
  {
    RunInv(run, k);
  }

  /** Both words are back at their initial values whenever all ranks are outside:
      the barrier is reused with no reset.
   */
  lemma ReusedWithoutReset(run: seq<State>, k: nat)
    requires IsRun(run) && k < |run|
    requires forall i :: 0 <= i < |run[k].pc| ==> run[k].pc[i] == Outside
    ensures run[k].barrier == 0 && !run[k].sense
  {
    RunInv(run, k);
    HeldBounds(run[k].pc);
    assert run[k].pc[0] == Outside;
  }

  /** When all ranks are inside `sync`, some rank can take a step that is not a failed
      spin.
   */
  lemma SomebodyMoves(s: State, r: nat) returns (i: nat)
    requires InvAt(s, r) && forall i :: 0 <= i < |s.pc| ==> s.pc[i] != Outside
    ensures i < |s.pc| && Step(s, i) != s
  {
    HeldBounds(s.pc);
    var idle := if s.sense then AwaitDown else AwaitUp;
    if forall i :: 0 <= i < |s.pc| ==> s.pc[i] == idle {
      assert false;
    }
    i :| 0 <= i < |s.pc| && s.pc[i] != idle;
    assert Step(s, i).pc[i] != s.pc[i];
  }

  lemma NoDeadlock(run: seq<State>, k: nat) returns (i: nat)
    requires IsRun(run) && k < |run|
    requires forall i :: 0 <= i < |run[k].pc| ==> run[k].pc[i] != Outside
    ensures i < |run[k].pc| && Step(run[k], i) != run[k]
  {
    RunInv(run, k);
    var r: nat :| InvAt(run[k], r);
    i := SomebodyMoves(run[k], r);
  }
}
