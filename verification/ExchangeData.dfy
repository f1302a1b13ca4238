/** `LocalBroker::exchange_data`: an all-gather through the shared vault, built on two
    calls of `sync`.

    A call of a rank is: `sync`, copy the own bytes into the own vault cell, `sync`, copy every
    cell out.  Calls of other kinds may come in between.  Each byte copied is one step, so that
    a fast rank's next write may try to overtake a slow rank's read.
 */
module ExchangeData {
  import LocalBarrier
  import opened BrokerPlan

  newtype byte = b: int | 0 <= b < 256

  const CELL := 64  // VAULT_SIZE_PER_RANK

  /** `src(i, c)` is what rank `i` passes to call `c`; all ranks of a call pass equally
      many bytes, at most one cell (larger sizes are refused before the first `sync`).
   */
  ghost predicate Uniform(src: (nat, nat) -> seq<byte>) {
    forall i: nat, c: nat :: |src(i, c)| == |src(0, c)| <= CELL
  }

  /** What the ranks do between the syncs, and what they pass. */
  datatype Job = Job(plan: nat -> Section, src: (nat, nat) -> seq<byte>)

  ghost predicate JobOk(j: Job) {
    PlanOk(j.plan) && Uniform(j.src)
  }

  function Size(src: (nat, nat) -> seq<byte>, c: nat): nat {
    |src(0, c)|
  }

  /** `row[i]` and `col[i]` are the cell and the byte that rank `i` copies next in its
      current section, and `dst[i]` is what it has copied out in its latest read section.
   */
  datatype State = State(b: LocalBarrier.State, vault: seq<byte>, row: seq<nat>, col: seq<nat>, dst: seq<seq<byte>>)

  ghost predicate Shaped(s: State) {
    && LocalBarrier.WellFormed(s.b)
    && |s.vault| == |s.b.pc| * CELL
    && |s.row| == |s.col| == |s.dst| == |s.b.pc|
  }

  ghost predicate Init(s: State) {
    Shaped(s) && LocalBarrier.Init(s.b)
  }

  /** What rank `i` is to do before its next `sync`. */
  function SectionAt(j: Job, s: State, i: nat): Section
    requires i < |s.b.done|
  {
    j.plan(s.b.done[i])
  }

  predicate SectionDone(j: Job, s: State, i: nat)
    requires |s.b.done| == |s.b.pc| == |s.row| == |s.col| && i < |s.b.pc|
  {
    match SectionAt(j, s, i)
    case Write(c) => s.col[i] >= Size(j.src, c)
    case Read(_) => s.row[i] >= |s.b.pc|
    case _ => true
  }

  /** A step of `sync`; returning from it starts the next section. */
  ghost function SyncStep(s: State, i: nat): (s': State)
    requires Shaped(s) && i < |s.b.pc|
  {
    var b' := LocalBarrier.Step(s.b, i);
    if b'.done == s.b.done then s.(b := b')
    else State(b', s.vault, s.row[i := 0], s.col[i := 0], s.dst[i := []])
  }

  ghost function WriteStep(j: Job, s: State, i: nat): (s': State)
    requires Uniform(j.src) && Shaped(s) && i < |s.b.pc|
    requires SectionAt(j, s, i).Write? && s.col[i] < Size(j.src, SectionAt(j, s, i).c)
  {
    var k := s.col[i];
    s.(vault := s.vault[i * CELL + k := j.src(i, SectionAt(j, s, i).c)[k]], col := s.col[i := k + 1])
  }

  ghost function ReadStep(j: Job, s: State, i: nat): (s': State)
    requires Uniform(j.src) && Shaped(s) && i < |s.b.pc|
    requires SectionAt(j, s, i).Read? && s.row[i] < |s.b.pc|
  {
    var k := s.col[i];
    if k < Size(j.src, SectionAt(j, s, i).c) then
      s.(dst := s.dst[i := s.dst[i] + [s.vault[s.row[i] * CELL + k]]], col := s.col[i := k + 1])
    else
      s.(row := s.row[i := s.row[i] + 1], col := s.col[i := 0])
  }

  /** One access by rank `i` in a section that is not done. */
  ghost function CopyStep(j: Job, s: State, i: nat): (s': State)
    requires Uniform(j.src) && Shaped(s) && i < |s.b.pc| && !SectionDone(j, s, i)
    ensures Shaped(s') && s'.b == s.b
  {
    if SectionAt(j, s, i).Write? then WriteStep(j, s, i) else ReadStep(j, s, i)
  }

  // ----- what a call must return

  /** The contributions of ranks 0 .. m-1 to call `c`, packed one after another. */
  function Gathered(src: (nat, nat) -> seq<byte>, c: nat, m: nat): seq<byte> {
    if m == 0 then [] else Gathered(src, c, m - 1) + src(m - 1, c)
  }

  /** Byte `k` of rank `i`'s contribution lands at offset `i * size + k`. */
  lemma {:induction false} GatheredAt(src: (nat, nat) -> seq<byte>, c: nat, m: nat, i: nat, k: nat)
    requires Uniform(src) && i < m && k < Size(src, c)
    ensures |Gathered(src, c, m)| == m * Size(src, c)
    ensures i * Size(src, c) + k < m * Size(src, c)
    ensures Gathered(src, c, m)[i * Size(src, c) + k] == src(i, c)[k]
  {
    var z := Size(src, c);
    assert m * z == (m - 1) * z + z;
    if m <= 1 {
    } else {
      GatheredAt(src, c, m - 1, if i < m - 1 then i else 0, k);
    }
  }

  // ----- the inductive invariant

  ghost predicate CellHolds(src: (nat, nat) -> seq<byte>, s: State, i: nat, c: nat, upto: nat)
    requires Uniform(src) && Shaped(s) && i < |s.b.pc|
  {
    upto <= Size(src, c) && forall k :: 0 <= k < upto ==> s.vault[i * CELL + k] == src(i, c)[k]
  }

  ghost predicate CopiedOut(src: (nat, nat) -> seq<byte>, s: State, i: nat, c: nat)
    requires Uniform(src) && Shaped(s) && i < |s.b.pc|
  {
    && s.row[i] <= |s.b.pc|
    && s.col[i] <= Size(src, c)
    && (s.row[i] == |s.b.pc| ==> s.col[i] == 0)
    && s.dst[i] == Gathered(src, c, s.row[i]) + src(s.row[i], c)[..s.col[i]]
  }

  ghost predicate RankOk(j: Job, s: State, i: nat)
    requires JobOk(j) && Shaped(s) && i < |s.b.pc|
  {
    match SectionAt(j, s, i)
    case Write(c) =>
      && CellHolds(j.src, s, i, c, s.col[i])
      && (!s.b.pc[i].Outside? ==> s.col[i] == Size(j.src, c))
    case Read(c) =>
      && CellHolds(j.src, s, i, c, Size(j.src, c))
      && (!s.b.pc[i].Outside? ==> s.row[i] == |s.b.pc|)
      && CopiedOut(j.src, s, i, c)
    case _ => true
  }

  ghost predicate Inv(j: Job, s: State, r: nat) {
    && JobOk(j)
    && Shaped(s)
    && LocalBarrier.InvAt(s.b, r)
    && forall i :: 0 <= i < |s.b.pc| ==> RankOk(j, s, i)
  }

  /** What rank `i` finds when its own `sync` has moved on. */
  lemma SyncSelf(j: Job, s: State, i: nat, r: nat)
    requires Inv(j, s, r) && i < |s.b.pc|
    requires !s.b.pc[i].Outside? || SectionDone(j, s, i)
    ensures RankOk(j, SyncStep(s, i), i)
  {
    var s', d := SyncStep(s, i), s.b.done[i];
    assert RankOk(j, s, i);
    if s'.b.done != s.b.done && j.plan(d).Write? {
      var c := j.plan(d).c;
      assert j.plan(d + 1) == Read(c);
      assert CellHolds(j.src, s', i, c, Size(j.src, c));
      assert Gathered(j.src, c, 0) + j.src(0, c)[..0] == [];
    }
  }

  lemma SyncOther(j: Job, s: State, i: nat, k: nat)
    requires JobOk(j) && Shaped(s) && i < |s.b.pc| && k < |s.b.pc| && k != i && RankOk(j, s, k)
    ensures RankOk(j, SyncStep(s, i), k)
  {
  }

  lemma SyncStepInv(j: Job, s: State, i: nat, r: nat)
    requires Inv(j, s, r) && i < |s.b.pc|
    requires !s.b.pc[i].Outside? || SectionDone(j, s, i)
    ensures Inv(j, SyncStep(s, i), LocalBarrier.NextRound(s.b, i, r))
  {
    LocalBarrier.StepInv(s.b, i, r);
    var s' := SyncStep(s, i);
    forall k | 0 <= k < |s.b.pc|
      ensures RankOk(j, s', k)
    {
      assert RankOk(j, s, k);
      if k == i { SyncSelf(j, s, i, r); } else { SyncOther(j, s, i, k); }
    }
  }

  lemma WriteStepInv(j: Job, s: State, i: nat, r: nat)
    requires Inv(j, s, r) && i < |s.b.pc|
    requires s.b.pc[i].Outside? && SectionAt(j, s, i).Write? && !SectionDone(j, s, i)
    ensures Inv(j, WriteStep(j, s, i), r)
  {
    var s' := WriteStep(j, s, i);
    forall k | 0 <= k < |s.b.pc|
      ensures RankOk(j, s', k)
    {
      assert RankOk(j, s, k);
    }
  }

  /** While rank `i` reads for a call, every cell holds its owner's bytes of that call: each rank
      either reads for it too or is still inside the second `sync` of it.
   */
  lemma CellsStableWhileReading(j: Job, s: State, i: nat, r: nat, k: nat)
    requires Inv(j, s, r) && i < |s.b.pc| && k < |s.b.pc|
    requires s.b.pc[i].Outside? && SectionAt(j, s, i).Read?
    ensures var c := SectionAt(j, s, i).c; CellHolds(j.src, s, k, c, Size(j.src, c))
  {
    assert RankOk(j, s, k);
    assert s.b.done[i] == r && s.b.done[k] in {r, r - 1};
    assert r > 0 && j.plan(r - 1 + 1).Read?;
  }

  /** The reader's buffer grows by the right byte, or goes on to the next cell. */
  lemma ReadSelf(j: Job, s: State, i: nat, r: nat)
    requires Inv(j, s, r) && i < |s.b.pc|
    requires s.b.pc[i].Outside? && SectionAt(j, s, i).Read? && !SectionDone(j, s, i)
    ensures RankOk(j, ReadStep(j, s, i), i)
  {
    var s', src := ReadStep(j, s, i), j.src;
    var c := SectionAt(j, s, i).c;
    var m, k := s.row[i], s.col[i];
    assert RankOk(j, s, i);
    CellsStableWhileReading(j, s, i, r, m);
    if k < Size(src, c) {
      assert src(m, c)[..k + 1] == src(m, c)[..k] + [src(m, c)[k]];
    } else {
      assert src(m, c)[..k] == src(m, c);
      assert s'.dst[i] == Gathered(src, c, m + 1) + src(m + 1, c)[..0];
    }
  }

  lemma ReadOther(j: Job, s: State, i: nat, k: nat)
    requires JobOk(j) && Shaped(s) && i < |s.b.pc| && k < |s.b.pc| && k != i && RankOk(j, s, k)
    requires SectionAt(j, s, i).Read? && s.row[i] < |s.b.pc|
    ensures RankOk(j, ReadStep(j, s, i), k)
  {
  }

  lemma ReadStepInv(j: Job, s: State, i: nat, r: nat)
    requires Inv(j, s, r) && i < |s.b.pc|
    requires s.b.pc[i].Outside? && SectionAt(j, s, i).Read? && !SectionDone(j, s, i)
    ensures Inv(j, ReadStep(j, s, i), r)
  {
    assert RankOk(j, s, i);
    forall k | 0 <= k < |s.b.pc|
      ensures RankOk(j, ReadStep(j, s, i), k)
    {
      assert RankOk(j, s, k);
      if k == i { ReadSelf(j, s, i, r); } else { ReadOther(j, s, i, k); }
    }
  }

  lemma CopyStepInv(j: Job, s: State, i: nat, r: nat)
    requires Inv(j, s, r) && i < |s.b.pc| && s.b.pc[i].Outside? && !SectionDone(j, s, i)
    ensures Inv(j, CopyStep(j, s, i), r)
  {
    if SectionAt(j, s, i).Write? {
      WriteStepInv(j, s, i, r);
    } else {
      ReadStepInv(j, s, i, r);
    }
  }

  lemma InitOk(j: Job, s: State)
    requires JobOk(j) && Init(s)
    ensures Inv(j, s, 0)
  {
    LocalBarrier.InitInv(s.b);
  }

  /** When rank `i` has copied out all cells, its buffer holds exactly the bytes that every rank
      contributed to that same call.
   */
  lemma CopiedAll(j: Job, s: State, r: nat, i: nat)
    requires Inv(j, s, r) && i < |s.b.pc| && SectionAt(j, s, i).Read? && SectionDone(j, s, i)
    ensures s.dst[i] == Gathered(j.src, SectionAt(j, s, i).c, |s.b.pc|)
  {
    assert RankOk(j, s, i);
  }
}
