/** That programs of broker calls come to an end: a measure of the work left up to a given number
    of syncs, which every step that changes something lowers, and from every state of every run a
    way to all ranks having returned from that many.
 */
module BrokerProgress {
  import opened Arith
  import opened BrokerPlan
  import LocalBarrier
  import ExchangeData
  import ExchangeFds
  import opened Broker

  ghost function Sum(f: nat -> int, n: nat): int {
    if n == 0 then 0 else Sum(f, n - 1) + f(n - 1)
  }

  lemma {:induction false} SumChange(f: nat -> int, g: nat -> int, i: nat, n: nat)
    requires forall k: nat :: k < n && k != i ==> g(k) == f(k)
    ensures Sum(g, n) == Sum(f, n) + if i < n then g(i) - f(i) else 0
  {
    if n == 0 {
    } else {
      SumChange(f, g, i, n - 1);
    }
  }

  lemma {:induction false} SumPositive(f: nat -> int, n: nat)
    requires forall k: nat :: k < n ==> f(k) >= 0
    ensures Sum(f, n) >= 0
  {
    if n == 0 {
    } else {
      SumPositive(f, n - 1);
    }
  }

  // ----- inside the barrier

  /** Steps of `sync` behind a rank. */
  function Passed(pc: LocalBarrier.Pc): nat {
    match pc
    case Outside => 0
    case SetSense => 1
    case AwaitUp => 2
    case BeforeDec => 3
    case ClearSense => 4
    case AwaitDown => 5
  }

  /** Steps that rank `i` has left until it has returned from `syncs` calls, and one more. */
  function SyncRank(b: LocalBarrier.State, syncs: nat, i: nat): int {
    if i < |b.pc| && i < |b.done| then 6 * (syncs + 1 - b.done[i]) - Passed(b.pc[i]) else 0
  }

  ghost function SyncsLeft(b: LocalBarrier.State, syncs: nat): int {
    Sum((i: nat) => SyncRank(b, syncs, i), |b.pc|)
  }

  lemma SyncLowers(b: LocalBarrier.State, i: nat, syncs: nat)
    requires LocalBarrier.WellFormed(b) && i < |b.pc| && LocalBarrier.Step(b, i) != b
    ensures SyncsLeft(LocalBarrier.Step(b, i), syncs) < SyncsLeft(b, syncs)
  {
    var b' := LocalBarrier.Step(b, i);
    ExchangeFds.BarrierFrame(b, i);
    SumChange((k: nat) => SyncRank(b, syncs, k), (k: nat) => SyncRank(b', syncs, k), i, |b.pc|);
  }

  /** Some rank has not returned from `syncs` calls. */
  ghost predicate Missing(b: LocalBarrier.State, syncs: nat) {
    exists i :: 0 <= i < |b.pc| == |b.done| && b.done[i] < syncs
  }

  lemma SyncsLeftPositive(b: LocalBarrier.State, r: nat, syncs: nat)
    requires LocalBarrier.InvAt(b, r) && Missing(b, syncs)
    ensures SyncsLeft(b, syncs) >= 0
  {
    assert r <= syncs;
    forall k: nat | k < |b.pc|
      ensures SyncRank(b, syncs, k) >= 0
    {
      assert b.done[k] <= r;
    }
    SumPositive((i: nat) => SyncRank(b, syncs, i), |b.pc|);
  }

  // ----- between two syncs

  function CopyLeft(j: Job, col: nat, c: nat): nat {
    if col < ExchangeData.Size(j.src, c) then ExchangeData.Size(j.src, c) - col else 0
  }

  function Cells(m: nat, each: nat): nat {
    m * each
  }

  /** Steps that rank `i` has left in copying. */
  function CopyRank(j: Job, s: ExchangeData.State, i: nat): nat {
    if i < |s.b.done| && i < |s.col| && i < |s.row| then
      match j.plan(s.b.done[i])
      case Write(c) => CopyLeft(j, s.col[i], c)
      case Read(c) => if s.row[i] < |s.b.pc| then Cells(|s.b.pc| - s.row[i] - 1, ExchangeData.Size(j.src, c) + 1) + CopyLeft(j, s.col[i], c) + 1 else 0
      case _ => 0
    else 0
  }

  function SendRank(w: nat, d: nat, s: nat): nat {
    if d >= w then 2 else Cells(w - d, w + 2) + 2 + if s < w then w - s else 0
  }

  /** Steps that rank `i` has left in an exchange, or before the next one. */
  function PassRank(w: nat, i: nat, phase: ExchangeFds.Phase): nat {
    match phase
    case Start => 1
    case Ready => 0
    case SendOwn => 2 + w
    case Recv(n, _) => 1 + (if n < w then w - n else 0) + if i == 0 then SendRank(w, 1, 0) else 0
    case Send(d, s) => SendRank(w, d, s)
    case Close => 1
    case Done => 0
    case Failed => 0
  }

  function WorkRank(j: Job, s: State, i: nat): nat {
    CopyRank(j, s.data, i) + if i < |s.fds.io.phase| then PassRank(|s.fds.io.phase|, i, s.fds.io.phase[i]) else 0
  }

  ghost function WorkLeft(j: Job, s: State): int {
    Sum((i: nat) => WorkRank(j, s, i), Ranks(s))
  }

  lemma CopyRankLowers(j: Job, s: ExchangeData.State, i: nat)
    requires JobOk(j) && ExchangeData.Shaped(s) && i < |s.b.pc| && !ExchangeData.SectionDone(DataJob(j), s, i)
    ensures var s' := ExchangeData.CopyStep(DataJob(j), s, i);
            CopyRank(j, s', i) < CopyRank(j, s, i) && forall k: nat :: k != i ==> CopyRank(j, s', k) == CopyRank(j, s, k)
  {
    var s' := ExchangeData.CopyStep(DataJob(j), s, i);
    match j.plan(s.b.done[i]) {
      case Read(c) =>
        var m, z: nat := |s.b.pc| - s.row[i] - 1, ExchangeData.Size(j.src, c) + 1;
        if m > 0 { assert Cells(m, z) == Cells(m - 1, z) + z; }
      case _ =>
    }
  }

  lemma CopyLowers(j: Job, s: State, i: nat)
    requires JobOk(j) && Shaped(s) && i < Ranks(s) && !ExchangeData.SectionDone(DataJob(j), s.data, i)
    ensures var s' := s.(data := ExchangeData.CopyStep(DataJob(j), s.data, i));
            s'.data.b == s.data.b && WorkLeft(j, s') < WorkLeft(j, s)
  {
    var s' := s.(data := ExchangeData.CopyStep(DataJob(j), s.data, i));
    CopyRankLowers(j, s.data, i);
    SumChange((k: nat) => WorkRank(j, s, k), (k: nat) => WorkRank(j, s', k), i, Ranks(s));
  }

  lemma HeardBelow(w: nat, i: nat, n: nat, got: set<nat>)
    requires i < w && n == |got| && got <= ExchangeFds.Others(i, w)
    ensures n < w
  {
    ExchangeFds.OthersSize(i, w);
    SubsetSize(got, ExchangeFds.Others(i, w));
  }

  /** Going on to the next destination or the next source. */
  lemma SendRankFalls(w: nat, d: nat, t: nat)
    requires d < w
    ensures SendRank(w, d + 1, 0) < SendRank(w, d, t)
    ensures t < w ==> SendRank(w, d, t + 1) < SendRank(w, d, t)
  {
    assert Cells(w - d, w + 2) == Cells(w - d - 1, w + 2) + w + 2;
  }

  lemma IoLowers(x: ExchangeFds.Io, x': ExchangeFds.Io, i: nat, own: int, c: nat)
    requires ExchangeFds.Shaped(x, |x.phase|) && ExchangeFds.IoStep(x, x', i, own, c) && ExchangeFds.PhaseOk(x, i)
    ensures |x'.phase| == |x.phase| && x'.phase == x.phase[i := x'.phase[i]]
    ensures PassRank(|x.phase|, i, x'.phase[i]) < PassRank(|x.phase|, i, x.phase[i])
  {
    var w := |x.phase|;
    match x.phase[i] {
      case Recv(n, got) => HeardBelow(w, i, n, got);
      case Send(d, t) => if d < w { SendRankFalls(w, d, t); }
      case _ =>
    }
  }

  lemma PhaseLowers(j: Job, s: ExchangeFds.State, s': ExchangeFds.State, i: nat, r: nat)
    requires ExchangeFds.Inv(FdsJob(j), s, r) && i < |s.b.pc| && s.b.pc[i].Outside?
    requires ExchangeFds.WorkStep(FdsJob(j), s, s', i)
    ensures |s'.io.phase| == |s.io.phase| && s'.io.phase == s.io.phase[i := s'.io.phase[i]]
    ensures PassRank(|s.io.phase|, i, s'.io.phase[i]) < PassRank(|s.io.phase|, i, s.io.phase[i])
  {
    assert s.b.done[i] == r;
    if s.io.phase[i] != ExchangeFds.Start {
      var c := j.plan(r).c;
      assert ExchangeFds.PhaseOk(s.io, i);
      IoLowers(s.io, s'.io, i, j.fd(i, c), c);
    }
  }

  lemma PassLowers(j: Job, s: State, s': State, i: nat, r: nat)
    requires Shaped(s) && Inv(j, s, r) && i < Ranks(s) && s.data.b.pc[i].Outside?
    requires s'.data == s.data && ExchangeFds.WorkStep(FdsJob(j), s.fds, s'.fds, i)
    ensures WorkLeft(j, s') < WorkLeft(j, s)
  {
    PhaseLowers(j, s.fds, s'.fds, i, r);
    SumChange((k: nat) => WorkRank(j, s, k), (k: nat) => WorkRank(j, s', k), i, Ranks(s));
  }

  // ----- together

  /** Fewer steps of `sync` left, or as many and less to do in between. */
  ghost predicate Lower(j: Job, s': State, s: State, syncs: nat) {
    || SyncsLeft(s'.data.b, syncs) < SyncsLeft(s.data.b, syncs)
    || (SyncsLeft(s'.data.b, syncs) == SyncsLeft(s.data.b, syncs) && 0 <= WorkLeft(j, s') < WorkLeft(j, s))
  }

  lemma WorkLeftPositive(j: Job, s: State)
    ensures WorkLeft(j, s) >= 0
  {
    SumPositive((i: nat) => WorkRank(j, s, i), Ranks(s));
  }

  /** Every step of every run takes one off the work left, unless it is a failed spin. */
  lemma StepLowers(j: Job, run: seq<State>, n: nat, i: nat, s': State, syncs: nat)
    requires IsRun(j, run) && n < |run| && Shaped(run[n]) && StepOf(j, run[n], s', i)
    ensures s' == run[n] || Lower(j, s', run[n], syncs)
  {
    var r := RunInv(j, run, n);
    var s := run[n];
    WorkLeftPositive(j, s');
    if !s.data.b.pc[i].Outside? || SectionDone(j, s, i) {
      if LocalBarrier.Step(s.data.b, i) != s.data.b {
        SyncLowers(s.data.b, i, syncs);
      }
    } else if !ExchangeData.SectionDone(DataJob(j), s.data, i) {
      CopyLowers(j, s, i);
    } else {
      PassLowers(j, s, s', i, r);
    }
  }

  lemma GoesOn(j: Job, run: seq<State>, syncs: nat) returns (s': State)
    requires IsRun(j, run) && Missing(run[|run| - 1].data.b, syncs)
    ensures Next(j, run[|run| - 1], s')
    ensures Lower(j, s', run[|run| - 1], syncs)
    ensures SyncsLeft(run[|run| - 1].data.b, syncs) >= 0 && WorkLeft(j, run[|run| - 1]) >= 0
  {
    var s, n := run[|run| - 1], |run| - 1;
    var r := RunInv(j, run, n);
    SyncsLeftPositive(s.data.b, r, syncs);
    WorkLeftPositive(j, s);
    var i := SomebodyMoves(j, run, n);
    s' :| StepOf(j, s, s', i) && s' != s;
    StepLowers(j, run, n, i, s', syncs);
  }

  lemma Prolong(j: Job, run: seq<State>, s': State)
    requires IsRun(j, run) && Next(j, run[|run| - 1], s')
    ensures IsRun(j, run + [s'])
  {
  }

  /** From every state of every run, whatever the calls: the ranks can go on until all of them
      have returned from any number of syncs, so that every call of every program comes to its
      end.
   */
  lemma {:induction false} CanComplete(j: Job, run: seq<State>, syncs: nat) returns (run': seq<State>)
    requires IsRun(j, run)
    ensures IsRun(j, run') && run <= run' && Shaped(run'[|run'| - 1])
    ensures var s := run'[|run'| - 1]; forall i :: 0 <= i < Ranks(s) ==> s.data.b.done[i] >= syncs
    decreases SyncsLeft(run[|run| - 1].data.b, syncs), WorkLeft(j, run[|run| - 1])
  {
    if Missing(run[|run| - 1].data.b, syncs) {
      var s' := GoesOn(j, run, syncs);
      Prolong(j, run, s');
      run' := CanComplete(j, run + [s'], syncs);
    } else {
      var r := RunInv(j, run, |run| - 1);
      run' := run;
    }
  }
}
