/** That the static gemm_ar reducers come to an end: a measure of the work left which every step
    lowers unless it polls, and from every state of every run, once all words and local results
    are in, a way to all chunks published and all CTAs gone.
 */
module GemmArStaticProgress {
  import opened Arith
  import opened ArrivalQueue
  import opened PeerSums
  import opened GemmArStatic
  import Claim = GemmArClaim

  // ----- the work left

  const WORK := 4  // a work still to be marked

  /** What a CTA has in hand in draining. */
  function DrainRank(pc: Claim.Pc): nat {
    match pc
    case DWork(ws) => WORK * |ws| + 1
    case DFlag(_, ws) => WORK * |ws| + 3
    case _ => 0
  }

  /** What a CTA has left at its chunk. */
  function ChunkRank(z: Setup, pc: Pc): int {
    match pc
    case Early(_, done) => 3 + z.cfg.peers - |done|
    case Fresh(_, done, _) => 3 + z.cfg.peers - |done|
    case Add(_, done, _, _) => 3 + z.cfg.peers - |done|
    case Out(_) => 2
    case Count(_) => 1
    case Tail(_) => 1
    case Exited(_) => 0
    case _ => 3 + z.cfg.peers
  }

  /** And at all its chunks, at `peers` + 4 each. */
  function CtaRank(z: Setup, pc: Pc): int {
    (z.cfg.peers + 4) * (if pc.c < z.cfg.chunks then z.cfg.chunks - pc.c else 0) + ChunkRank(z, pc)
  }

  ghost function Ranks(z: Setup, pc: seq<Pc>, drains: seq<Claim.Pc>, n: nat): int
    requires n <= |pc| && n <= |drains|
  {
    if n == 0 then 0 else Ranks(z, pc, drains, n - 1) + CtaRank(z, pc[n - 1]) + DrainRank(drains[n - 1])
  }

  ghost function InboxLeft(z: Setup, b: Inbox): nat {
    if |b.heads| == |b.flags| then WordsLeft(z.cfg.decode, WORK, b, |b.heads|) else 0
  }

  ghost function Left(z: Setup, s: State): int
    requires |s.drains| == |s.pc|
  {
    InboxLeft(z, s.sh.inbox) + Ranks(z, s.pc, s.drains, |s.pc|)
  }

  lemma {:induction false} RanksAfter(z: Setup, pc: seq<Pc>, drains: seq<Claim.Pc>, i: nat, x: Pc, d: Claim.Pc, n: nat)
    requires i < |pc| == |drains| && n <= |pc|
    ensures Ranks(z, pc[i := x], drains[i := d], n)
            == Ranks(z, pc, drains, n)
             + if i < n then CtaRank(z, x) - CtaRank(z, pc[i]) + DrainRank(d) - DrainRank(drains[i]) else 0
  {
    if n == 0 {
    } else {
      RanksAfter(z, pc, drains, i, x, d, n - 1);
    }
  }

  /** How a step of CTA `i` changes the work left. */
  lemma LeftAfter(z: Setup, s: State, s': State, i: nat)
    requires i < |s.pc| == |s.drains| == |s'.pc| == |s'.drains|
    requires s'.pc == s.pc[i := s'.pc[i]] && s'.drains == s.drains[i := s'.drains[i]]
    ensures Left(z, s') - Left(z, s)
            == InboxLeft(z, s'.sh.inbox) - InboxLeft(z, s.sh.inbox)
             + CtaRank(z, s'.pc[i]) - CtaRank(z, s.pc[i]) + DrainRank(s'.drains[i]) - DrainRank(s.drains[i])
  {
    RanksAfter(z, s.pc, s.drains, i, s'.pc[i], s'.drains[i], |s.pc|);
  }

  // ----- no step raises it

  /** Going around a loop. */
  predicate Turns(x: Pc, y: Pc) {
    || x == y
    || (x.Wait? && y == Saw(x.c)) || (x.Saw? && y == Wait(x.c))
    || (x.Early? && y.Fresh? && y.c == x.c && y.done == x.done)
    || (x.Fresh? && y.Add? && y.c == x.c && y.done == x.done && y.todo == x.todo)
    || (x.Add? && y == Early(x.c, x.done))
  }

  /** A step gets something done, or leaves everything shared as it is and only turns CTA `i`
      around in its loop or lets it see a word.
   */
  ghost predicate Lowers(z: Setup, s: State, s': State, i: nat)
    requires i < |s.pc| == |s.drains|
  {
    && |s'.drains| == |s'.pc| == |s.pc|
    && (|| Left(z, s') < Left(z, s)
        || (Left(z, s') == Left(z, s) && s'.sh == s.sh
            && s'.pc == s.pc[i := s'.pc[i]] && s'.drains == s.drains[i := s'.drains[i]] && Turns(s.pc[i], s'.pc[i])))
  }

  /** Works of one chunk are as many as their peers. */
  lemma {:induction false} InjectedSize(ws: set<Work>, c: nat)
    requires forall w :: w in ws ==> w.chunk == c
    ensures |set w | w in ws :: w.peer| == |ws|
    decreases ws
  {
    if ws == {} {
    } else {
      var x :| x in ws;
      InjectedSize(ws - {x}, c);
      assert (set w | w in ws :: w.peer) == (set w | w in ws - {x} :: w.peer) + {x.peer};
    }
  }

  lemma DoneBound(z: Setup, h: Shared, c: nat, done: set<Work>)
    requires PartialSum(z, h, c, done)
    ensures |done| <= z.cfg.peers
  {
    var ps := set w | w in done :: w.peer;
    assert done == set p | p in ps :: Work(p, c);
    InjectedSize(done, c);
    BelowSize(z.cfg.peers);
    SubsetSize(ps, Below(z.cfg.peers));
  }

  lemma TurnLowers(z: Setup, c: nat)
    requires z.stride > 0 && c < z.cfg.chunks
    ensures CtaRank(z, Turn(z, c + z.stride)) < CtaRank(z, Count(c))
  {
    var k, m := z.cfg.peers + 4, z.cfg.chunks - c;
    if c + z.stride < z.cfg.chunks {
      Multiple(m - (z.cfg.chunks - c - z.stride), k);
      assert k * m - k * (m - z.stride) == z.stride * k;
    } else {
      Multiple(m, k);
    }
  }

  lemma CtaLowers(z: Setup, s: State, s': State, i: nat, w: Work)
    requires Shaped(z, s) && z.stride > 0 && i < |s.pc| && CtaStep(z, s, s', i, w)
    requires s.pc[i].Out? || s.pc[i].Count? ==> s.pc[i].c < z.cfg.chunks
    requires s.pc[i].Add? ==> s.pc[i].done !! s.pc[i].todo && |s.pc[i].done| <= z.cfg.peers
    ensures Lowers(z, s, s', i)
  {
    CtaFrame(z, s, s', i, w);
    LeftAfter(z, s, s', i);
    if s.pc[i].Count? {
      TurnLowers(z, s.pc[i].c);
    }
  }

  lemma DrainTakeLowers(z: Setup, v: Claim.State, i: nat, q: nat)
    requires Claim.Shaped(z.cfg, v.sh) && i < |v.pc| && OnlyDrains(v.pc[i]) && Claim.PcOk(z.cfg, v.sh, v.pc[i])
    ensures var v' := Claim.Step(z.cfg, v, i, Claim.Drain(q));
            var change := InboxLeft(z, v'.sh.inbox) + DrainRank(v'.pc[i]) - InboxLeft(z, v.sh.inbox) - DrainRank(v.pc[i]);
            if v.pc[i].Idle? then change == 0 && v'.sh == v.sh else change < 0
  {
    if v.pc[i].DTake? {
      assert Claim.DrainStep(z.cfg, v, i).sh.inbox == Advance(v.sh.inbox, v.pc[i].q);
      WordsAfter(z.cfg.decode, WORK, v.sh.inbox, v.pc[i].q, |v.sh.inbox.heads|);
    }
  }

  lemma DrainLowers(z: Setup, s: State, s': State, i: nat, q: nat)
    requires Inv(z, s) && DrainStep(z, s, s', i, q)
    ensures Lowers(z, s, s', i)
    ensures !s.drains[i].Idle? ==> Left(z, s') < Left(z, s)
  {
    var v := View(z, s);
    assert Claim.PcOk(z.cfg, v.sh, v.pc[i]);
    DrainFrame(z.cfg, v, i, q);
    DrainTakeLowers(z, v, i, q);
    LeftAfter(z, s, s', i);
  }

  /** Every step of every CTA, at every state of every run, lowers the work left or is a poll. */
  lemma StepLowers(z: Setup, s: State, s': State, i: nat, w: Work, q: nat)
    requires Inv(z, s) && z.stride > 0 && i < |s.pc| && (CtaStep(z, s, s', i, w) || DrainStep(z, s, s', i, q))
    ensures Lowers(z, s, s', i)
  {
    assert PcOk(z, s.sh, s.pc[i]);
    if CtaStep(z, s, s', i, w) {
      if s.pc[i].Add? {
        DoneBound(z, s.sh, s.pc[i].c, s.pc[i].done);
      }
      CtaLowers(z, s, s', i, w);
    } else {
      DrainLowers(z, s, s', i, q);
    }
  }

  lemma CtaRankPositive(z: Setup, s: State, i: nat)
    requires Inv(z, s) && i < |s.pc|
    ensures CtaRank(z, s.pc[i]) >= 0
  {
    var pc := s.pc[i];
    assert PcOk(z, s.sh, pc);
    if pc.Early? || pc.Fresh? || pc.Add? {
      DoneBound(z, s.sh, pc.c, pc.done);
    }
    Multiple(if pc.c < z.cfg.chunks then z.cfg.chunks - pc.c else 0, z.cfg.peers + 4);
  }

  lemma {:induction false} RanksPositive(z: Setup, pc: seq<Pc>, drains: seq<Claim.Pc>, n: nat)
    requires n <= |pc| == |drains| && forall i :: 0 <= i < n ==> CtaRank(z, pc[i]) >= 0
    ensures Ranks(z, pc, drains, n) >= 0
  {
    if n == 0 {
    } else {
      RanksPositive(z, pc, drains, n - 1);
    }
  }

  lemma LeftPositive(z: Setup, s: State)
    requires Inv(z, s)
    ensures Left(z, s) >= 0
  {
    forall i | 0 <= i < |s.pc|
      ensures CtaRank(z, s.pc[i]) >= 0
    {
      CtaRankPositive(z, s, i);
    }
    RanksPositive(z, s.pc, s.drains, |s.pc|);
  }

  // ----- going on with a run

  function Last(run: seq<State>): State
    requires |run| > 0
  {
    run[|run| - 1]
  }

  /** All local results are done, and words with no hole before them announce every work. */
  ghost predicate InputsIn(z: Setup, s: State) {
    && (forall c :: 0 <= c < z.cfg.chunks ==> c in s.sh.flags.localDone)
    && (forall p: nat, c: nat :: p < z.cfg.peers && c < z.cfg.chunks ==> Landed(s.sh.inbox, z.cfg.decode, Work(p, c)))
  }

  /** A CTA is draining only while it is at the top of a loop. */
  ghost predicate DrainsLoop(s: State) {
    |s.drains| == |s.pc| && forall i :: 0 <= i < |s.pc| && s.drains[i] != Claim.Idle ==> Looping(s.pc[i])
  }

  lemma NextDrainsLoop(z: Setup, s: State, s': State)
    requires Shaped(z, s) && Claim.Shaped(z.cfg, View(z, s).sh) && forall i :: 0 <= i < |s.drains| ==> OnlyDrains(s.drains[i])
    requires DrainsLoop(s) && Next(z, s, s')
    ensures DrainsLoop(s')
  {
    if i: nat, q: nat :| DrainStep(z, s, s', i, q) {
      DrainFrame(z.cfg, View(z, s), i, q);
    } else if i, w :| CtaStep(z, s, s', i, w) {
      CtaFrame(z, s, s', i, w);
    }
  }

  lemma {:induction false} RunDrainsLoop(z: Setup, run: seq<State>, n: nat)
    requires IsRun(z, run) && n < |run|
    ensures DrainsLoop(run[n])
  {
    if n == 0 {
    } else {
      RunInv(z, run, n - 1);
      RunDrainsLoop(z, run, n - 1);
      assert Next(z, run[n - 1], run[n - 1 + 1]);
      NextDrainsLoop(z, run[n - 1], run[n]);
    }
  }

  /** A run at a state from which the CTAs alone can go on. */
  ghost predicate Goes(z: Setup, run: seq<State>) {
    IsRun(z, run) && InputsIn(z, Last(run))
  }

  lemma LastShaped(z: Setup, run: seq<State>)
    requires IsRun(z, run)
    ensures SetupOk(z) && Shaped(z, Last(run)) && DrainsLoop(Last(run)) && Claim.Shaped(z.cfg, View(z, Last(run)).sh)
    ensures forall i :: 0 <= i < |Last(run).drains| ==> OnlyDrains(Last(run).drains[i])
  {
    RunInv(z, run, |run| - 1);
    RunDrainsLoop(z, run, |run| - 1);
  }

  lemma ExtendRun(z: Setup, run: seq<State>, s': State)
    requires IsRun(z, run) && Next(z, Last(run), s')
    ensures IsRun(z, run + [s'])
  {
    var longer := run + [s'];
    forall n | 0 <= n < |longer| - 1
      ensures Next(z, longer[n], longer[n + 1])
    {
      if n < |run| - 1 {
        assert Next(z, run[n], run[n + 1]);
      }
    }
  }

  lemma SameInputs(z: Setup, s: State, s': State)
    requires InputsIn(z, s) && s.sh.flags.localDone <= s'.sh.flags.localDone && s'.sh.inbox.flags == s.sh.inbox.flags
    ensures InputsIn(z, s')
  {
    forall p: nat, c: nat | p < z.cfg.peers && c < z.cfg.chunks
      ensures Landed(s'.sh.inbox, z.cfg.decode, Work(p, c))
    {
      assert Landed(s.sh.inbox, z.cfg.decode, Work(p, c));
    }
  }

  lemma LastLowers(z: Setup, run: seq<State>, s': State, i: nat, w: Work, q: nat)
    requires IsRun(z, run) && i < |Last(run).pc| && Shaped(z, Last(run))
    requires CtaStep(z, Last(run), s', i, w) || DrainStep(z, Last(run), s', i, q)
    ensures Lowers(z, Last(run), s', i)
  {
    RunInv(z, run, |run| - 1);
    StepLowers(z, Last(run), s', i, w, q);
  }

  /** CTA `i` takes a step at its chunk. */
  lemma GoCta(z: Setup, run: seq<State>, s': State, i: nat, w: Work) returns (run': seq<State>)
    requires Goes(z, run) && i < |Last(run).pc| && Shaped(z, Last(run)) && CtaStep(z, Last(run), s', i, w)
    ensures run' == run + [s'] && Goes(z, run') && Lowers(z, Last(run), s', i)
  {
    LastLowers(z, run, s', i, w, 0);
    CtaFrame(z, Last(run), s', i, w);
    assert s'.sh.inbox == View(z, s').sh.inbox;
    SameInputs(z, Last(run), s');
    ExtendRun(z, run, s');
    run' := run + [s'];
  }

  lemma DrainKeepsWords(cfg: Claim.Cfg, v: Claim.State, i: nat, q: nat)
    requires i < |v.pc| && Claim.Shaped(cfg, v.sh) && OnlyDrains(v.pc[i])
    ensures Claim.Step(cfg, v, i, Claim.Drain(q)).sh.inbox.flags == v.sh.inbox.flags
  {
  }

  /** Or in draining. */
  lemma GoDrain(z: Setup, run: seq<State>, i: nat, q: nat) returns (run': seq<State>)
    requires Goes(z, run) && i < |Last(run).pc| == |Last(run).drains| && Claim.Shaped(z.cfg, View(z, Last(run)).sh)
    requires Looping(Last(run).pc[i]) && OnlyDrains(Last(run).drains[i])
    ensures run' == run + [WithDrains(Last(run), Claim.Step(z.cfg, View(z, Last(run)), i, Claim.Drain(q)))]
    ensures Goes(z, run') && Lowers(z, Last(run), Last(run'), i)
    ensures !Last(run).drains[i].Idle? ==> Left(z, Last(run')) < Left(z, Last(run))
  {
    var s := Last(run);
    var s' := WithDrains(s, Claim.Step(z.cfg, View(z, s), i, Claim.Drain(q)));
    RunInv(z, run, |run| - 1);
    assert DrainStep(z, s, s', i, q);
    DrainLowers(z, s, s', i, q);
    DrainFrame(z.cfg, View(z, s), i, q);
    DrainKeepsWords(z.cfg, View(z, s), i, q);
    SameInputs(z, s, s');
    assert Next(z, s, s');
    ExtendRun(z, run, s');
    run' := run + [s'];
  }

  /** The run has gone on and something has got done. */
  ghost predicate Better(z: Setup, run: seq<State>, run': seq<State>) {
    && Goes(z, run) && Goes(z, run') && run <= run'
    && |Last(run).drains| == |Last(run).pc| && |Last(run').drains| == |Last(run').pc|
    && Left(z, Last(run')) < Left(z, Last(run))
  }

  /** Or CTA `i` has come around to the top of its loop. */
  ghost predicate NowLooping(z: Setup, run: seq<State>, run': seq<State>, i: nat) {
    && Goes(z, run) && Goes(z, run') && run <= run'
    && var s, s' := Last(run), Last(run');
    && i < |s.pc| == |s.drains| == |s'.pc| && s'.sh == s.sh && s'.drains == s.drains
    && s'.pc == s.pc[i := s'.pc[i]] && Looping(s'.pc[i]) && s'.pc[i].c == s.pc[i].c && Left(z, s') == Left(z, s)
  }

  /** The step a CTA takes next at its chunk, unless it is still draining. */
  lemma CtaCan(z: Setup, s: State, i: nat) returns (s': State, w: Work)
    requires Shaped(z, s) && i < |s.pc| && (Looping(s.pc[i]) ==> s.drains[i] == Claim.Idle)
    requires s.pc[i].Add? || s.pc[i].Out? ==> s.pc[i].c < z.cfg.chunks
    ensures CtaStep(z, s, s', i, w)
  {
    w := Work(0, 0);
    var f := s.sh.flags;
    match s.pc[i] {
      case Wait(c) => s' := if c in f.arrived then At(s, i, Saw(c)) else s;
      case Saw(c) => s' := At(s, i, if LocalFlag(f, c) then Out(c) else Wait(c));
      case Early(c, done) => s' := At(s, i, Fresh(c, done, MaskOf(f, c) - done));
      case Fresh(c, done, todo) => s' := At(s, i, Add(c, done, todo, LocalFlag(f, c) && AllPeers(z, done + todo, c)));
      case Add(c, done, todo, ready) =>
        if todo == {} {
          s' := At(s, i, if ready then Out(c) else Early(c, done));
        } else {
          w :| w in todo;
          s' := At(s, i, Add(c, done + {w}, todo - {w}, ready)).(sh := AddOne(z, s.sh, c, done, w));
        }
      case Out(c) => s' := At(s, i, Count(c)).(sh := WriteOut(z, s.sh, c));
      case Count(c) => s' := At(s, i, Turn(z, c + z.stride)).(sh := Finish(s.sh, c));
      case Tail(c) => s' := if s.sh.res.published >= z.cfg.chunks then At(s, i, Exited(c)) else s;
      case Exited(_) => s' := s;
    }
  }

  lemma PcInRange(z: Setup, run: seq<State>, i: nat)
    requires IsRun(z, run) && i < |Last(run).pc| && !Last(run).pc[i].Tail? && !Last(run).pc[i].Exited?
    ensures Last(run).pc[i].c < z.cfg.chunks
  {
    RunInv(z, run, |run| - 1);
    assert PcOk(z, Last(run).sh, Last(run).pc[i]);
  }

  /** CTA `i` takes its next step at its chunk. */
  lemma Go(z: Setup, run: seq<State>, i: nat) returns (run': seq<State>, w: Work)
    requires Goes(z, run) && i < |Last(run).pc| && !Last(run).pc[i].Exited? && (|Last(run).drains| > i ==> Last(run).drains[i] == Claim.Idle)
    ensures Shaped(z, Last(run)) && run <= run' && Goes(z, run')
    ensures CtaStep(z, Last(run), Last(run'), i, w) && Lowers(z, Last(run), Last(run'), i)
  {
    LastShaped(z, run);
    if !Last(run).pc[i].Tail? {
      PcInRange(z, run, i);
    }
    var s';
    s', w := CtaCan(z, Last(run), i);
    run' := GoCta(z, run, s', i, w);
  }

  /** A CTA that is not at the top of a loop gets something done or comes around to it. */
  lemma ToLoop(z: Setup, run: seq<State>, i: nat) returns (run': seq<State>)
    requires Goes(z, run) && i < |Last(run).pc| && !Last(run).pc[i].Exited?
    requires |Last(run).drains| == |Last(run).pc| && Last(run).drains[i] == Claim.Idle
    ensures Better(z, run, run') || NowLooping(z, run, run', i)
  {
    var w: Work;
    run' := run;
    if !Looping(Last(run).pc[i]) {
      run', w := Go(z, run, i);
      if Left(z, Last(run')) >= Left(z, Last(run)) && !Looping(Last(run').pc[i]) {
        var run1 := run';
        run', w := Go(z, run1, i);
      }
    }
  }

  lemma BetterAfterLoop(z: Setup, run: seq<State>, mid: seq<State>, run': seq<State>, i: nat)
    requires NowLooping(z, run, mid, i) && Better(z, mid, run')
    ensures Better(z, run, run')
  {
  }

  /** A step that does more than turn a CTA around gets something done. */
  lemma GoLowers(z: Setup, run: seq<State>, run': seq<State>, i: nat)
    requires Goes(z, run) && Goes(z, run') && run <= run' && i < |Last(run).pc| == |Last(run).drains|
    requires Lowers(z, Last(run), Last(run'), i) && !Turns(Last(run).pc[i], Last(run').pc[i])
    ensures Better(z, run, run')
  {
  }

  // ----- what is worth doing

  /** A drainer whose queue has a word takes it in two steps. */
  lemma DrainGoesOn(z: Setup, run: seq<State>, i: nat, q: nat) returns (run': seq<State>)
    requires Goes(z, run) && i < |Last(run).pc| && |Last(run).drains| == |Last(run).pc|
    requires Looping(Last(run).pc[i]) && Last(run).drains[i] == Claim.Idle
    requires i < z.cfg.drainers && Claim.Visits(i, z.cfg.drainers, q) && HeadWord(Last(run).sh.inbox, q) != 0
    ensures Better(z, run, run')
  {
    LastShaped(z, run);
    var run1 := GoDrain(z, run, i, q);
    assert Last(run1).drains[i].DTake? && Last(run1).pc == Last(run).pc;
    LastShaped(z, run1);
    run' := GoDrain(z, run1, i, q);
  }

  /** Everything that a CTA could wait for at chunk `c` is there. */
  ghost predicate Available(z: Setup, f: Claim.Flags, c: nat) {
    c in f.arrived && c in f.localDone && AllPeers(z, f.mask, c)
  }

  /** Then a CTA that waits there goes on, */
  lemma WaitGoesOn(z: Setup, run: seq<State>, i: nat) returns (run': seq<State>)
    requires Goes(z, run) && i < |Last(run).pc| && |Last(run).drains| == |Last(run).pc| && Last(run).drains[i] == Claim.Idle
    requires Last(run).pc[i].Wait? && Available(z, Last(run).sh.flags, Last(run).pc[i].c)
    ensures Better(z, run, run')
  {
    var run1, w1 := Go(z, run, i);
    assert Last(run1).pc[i] == Saw(Last(run).pc[i].c) && Last(run1).drains == Last(run).drains;
    var w2;
    run', w2 := Go(z, run1, i);
    GoLowers(z, run1, run', i);
  }

  lemma LookStep(z: Setup, s: State, s': State, i: nat, w: Work)
    requires Shaped(z, s) && i < |s.pc| && CtaStep(z, s, s', i, w) && s.pc[i].Early?
    ensures s'.sh == s.sh && s'.drains == s.drains && |s'.pc| == |s.pc|
    ensures var c, done := s.pc[i].c, s.pc[i].done; s'.pc[i] == Fresh(c, done, MaskOf(s.sh.flags, c) - done)
  {
  }

  lemma ReadyStep(z: Setup, s: State, s': State, i: nat, w: Work)
    requires Shaped(z, s) && i < |s.pc| && CtaStep(z, s, s', i, w) && s.pc[i].Fresh?
    requires s.pc[i].todo == MaskOf(s.sh.flags, s.pc[i].c) - s.pc[i].done && Available(z, s.sh.flags, s.pc[i].c)
    ensures s'.drains == s.drains && |s'.pc| == |s.pc|
    ensures s'.pc[i] == Add(s.pc[i].c, s.pc[i].done, s.pc[i].todo, true)
  {
    assert AllPeers(z, s.pc[i].done + s.pc[i].todo, s.pc[i].c);
  }

  lemma AddStep(z: Setup, s: State, s': State, i: nat, w: Work)
    requires Shaped(z, s) && i < |s.pc| && CtaStep(z, s, s', i, w) && s.pc[i].Add? && s.pc[i].ready
    ensures |s'.pc| == |s.pc| && !Turns(s.pc[i], s'.pc[i])
  {
    if s.pc[i].todo != {} {
      assert w in s.pc[i].todo && w !in s'.pc[i].todo;
    }
  }

  /** and one that accumulates early has another peer to add, or all of them. */
  lemma EarlyGoesOn(z: Setup, run: seq<State>, i: nat) returns (run': seq<State>)
    requires Goes(z, run) && i < |Last(run).pc| && |Last(run).drains| == |Last(run).pc| && Last(run).drains[i] == Claim.Idle
    requires Last(run).pc[i].Early? && Available(z, Last(run).sh.flags, Last(run).pc[i].c)
    ensures Better(z, run, run')
  {
    var run1, w1 := Go(z, run, i);
    LookStep(z, Last(run), Last(run1), i, w1);
    var run2, w2 := Go(z, run1, i);
    ReadyStep(z, Last(run1), Last(run2), i, w2);
    var w3;
    run', w3 := Go(z, run2, i);
    AddStep(z, Last(run2), Last(run'), i, w3);
    GoLowers(z, run2, run', i);
  }

  lemma ChunkAvailable(z: Setup, run: seq<State>, c: nat)
    requires Goes(z, run) && c < z.cfg.chunks && Dry(Last(run).sh.inbox)
    requires forall i :: 0 <= i < |Last(run).drains| ==> Last(run).drains[i] == Claim.Idle
    ensures Available(z, Last(run).sh.flags, c)
  {
    RunInv(z, run, |run| - 1);
    DryMeansArrived(z, Last(run), c);
  }

  // ----- to the end

  ghost predicate Gone(s: State) {
    forall i :: 0 <= i < |s.pc| ==> s.pc[i].Exited?
  }

  /** Nobody is draining. */
  ghost predicate Calm(s: State) {
    |s.drains| == |s.pc| && forall i :: 0 <= i < |s.drains| ==> s.drains[i] == Claim.Idle
  }

  lemma NobodyGone(z: Setup, run: seq<State>)
    requires IsRun(z, run) && Last(run).sh.res.published < z.cfg.chunks
    ensures forall i :: 0 <= i < |Last(run).pc| ==> !Last(run).pc[i].Exited?
    ensures exists i :: 0 <= i < |Last(run).pc| && !Last(run).pc[i].Tail?
  {
    var s := Last(run);
    RunInv(z, run, |run| - 1);
    forall i | 0 <= i < |s.pc|
      ensures !s.pc[i].Exited?
    {
      assert PcOk(z, s.sh, s.pc[i]);
    }
    if forall i :: 0 <= i < |s.pc| ==> s.pc[i].Tail? {
      TailEnds(z, run, |run| - 1);
    }
  }

  lemma AllInTail(z: Setup, run: seq<State>)
    requires IsRun(z, run) && Last(run).sh.res.published >= z.cfg.chunks
    ensures forall i :: 0 <= i < |Last(run).pc| ==> Last(run).pc[i].Tail? || Last(run).pc[i].Exited?
  {
    var s := Last(run);
    RunInv(z, run, |run| - 1);
    PublishedIsFull(z, run, |run| - 1);
    BelowSize(z.cfg.chunks);
    SubsetSize(s.sh.res.finished, Below(z.cfg.chunks));
    forall i | 0 <= i < |s.pc|
      ensures s.pc[i].Tail? || s.pc[i].Exited?
    {
      assert PcOk(z, s.sh, s.pc[i]);
      assert s.pc[i].c !in s.sh.res.finished;
    }
  }

  lemma PcAtLoop(z: Setup, run: seq<State>, i: nat)
    requires IsRun(z, run) && i < |Last(run).pc| && Looping(Last(run).pc[i]) && Last(run).pc[i].c < z.cfg.chunks
    ensures Last(run).pc[i].Wait? || Last(run).pc[i].Early?
  {
    RunInv(z, run, |run| - 1);
    assert PcOk(z, Last(run).sh, Last(run).pc[i]);
  }

  /** While chunks are missing, somebody can be brought to do something about it. */
  lemma WorkGoesOn(z: Setup, run: seq<State>) returns (run': seq<State>)
    requires Goes(z, run) && Calm(Last(run)) && Last(run).sh.res.published < z.cfg.chunks
    ensures Better(z, run, run')
  {
    var s := Last(run);
    LastShaped(z, run);
    NobodyGone(z, run);
    if q: nat :| q < |s.sh.inbox.heads| && HeadWord(s.sh.inbox, q) != 0 {
      var i := q % z.cfg.drainers;
      Claim.VisitsIs(i, z.cfg.drainers, q);
      var mid := ToLoop(z, run, i);
      if Better(z, run, mid) {
        run' := mid;
      } else {
        run' := DrainGoesOn(z, mid, i, q);
        BetterAfterLoop(z, run, mid, run', i);
      }
    } else {
      var i :| 0 <= i < |s.pc| && !s.pc[i].Tail?;
      PcInRange(z, run, i);
      ChunkAvailable(z, run, s.pc[i].c);
      var mid := ToLoop(z, run, i);
      if Better(z, run, mid) {
        run' := mid;
      } else {
        PcAtLoop(z, mid, i);
        if Last(mid).pc[i].Wait? {
          run' := WaitGoesOn(z, mid, i);
        } else {
          run' := EarlyGoesOn(z, mid, i);
        }
        BetterAfterLoop(z, run, mid, run', i);
      }
    }
  }

  lemma GoesOn(z: Setup, run: seq<State>) returns (run': seq<State>)
    requires Goes(z, run) && !Gone(Last(run))
    ensures Better(z, run, run')
  {
    var s := Last(run);
    LastShaped(z, run);
    if i :| 0 <= i < |s.drains| && s.drains[i] != Claim.Idle {
      run' := GoDrain(z, run, i, 0);
    } else if s.sh.res.published < z.cfg.chunks {
      run' := WorkGoesOn(z, run);
    } else {
      AllInTail(z, run);
      var i :| 0 <= i < |s.pc| && !s.pc[i].Exited?;
      var w;
      run', w := Go(z, run, i);
      GoLowers(z, run, run', i);
    }
  }

  /** From every state of every run, with and without early accumulation, once all local results
      are done and all words have landed with no hole before them, some schedule of the CTAs
      publishes every chunk in full and lets every CTA go.
   */
  lemma CanFinish(z: Setup, run: seq<State>) returns (run': seq<State>)
    requires IsRun(z, run) && InputsIn(z, Last(run))
    ensures IsRun(z, run') && run <= run' && Gone(Last(run'))
    ensures |Last(run').pc| > 0 ==>
              |Last(run').sh.res.out| == z.cfg.chunks
              && forall c :: 0 <= c < z.cfg.chunks ==> Last(run').sh.res.out[c] == Claim.Full(z.cfg, c)
    decreases if |Last(run).drains| == |Last(run).pc| then Left(z, Last(run)) else 0
  {
    LastShaped(z, run);
    RunInv(z, run, |run| - 1);
    LeftPositive(z, Last(run));
    if Gone(Last(run)) {
      run' := run;
      if |Last(run').pc| > 0 {
        ExitMeansDone(z, run', |run'| - 1, 0);
      }
    } else {
      var more := GoesOn(z, run);
      run' := CanFinish(z, more);
    }
  }
}
