/** That the claiming reducers of gemm_ar come to an end, in all ways the kernel uses them: a
    measure of the work left which every step of a CTA lowers unless it polls, and from every
    state of every run, once all words and local results are in, a way to all chunks published
    and all reducers gone.
 */
module GemmArProgress {
  import opened Arith
  import opened ArrivalQueue
  import opened PeerSums
  import opened TicketQueue
  import opened GemmArClaim

  // ----- the kernel's roles

  /** Reducers that claim directly and drain, progress CTAs that drain for reducers that claim
      directly, or progress CTAs that drain and enqueue for reducers that only dequeue.
   */
  datatype Kernel = Direct | Split | Queued

  predicate Reducer(k: Kernel, cfg: Cfg, i: nat) {
    k.Direct? || i >= cfg.drainers
  }

  /** What an idle CTA `i` may turn to. */
  predicate MayDo(k: Kernel, cfg: Cfg, i: nat, a: Choice)
    requires cfg.drainers > 0
  {
    match a
    case Drain(_) => i < cfg.drainers
    case Scan(c, enqueue) =>
      if k.Queued? then enqueue && i < cfg.drainers && c % cfg.drainers == i else !enqueue && Reducer(k, cfg, i)
    case Pop => k.Queued? && i >= cfg.drainers
    case TryExit => Reducer(k, cfg, i)
  }

  /** There is a CTA for everything. */
  predicate KernelOk(k: Kernel, cfg: Cfg, ctas: nat) {
    0 < cfg.drainers && if k.Direct? then cfg.drainers <= ctas else cfg.drainers < ctas
  }

  ghost predicate CtaNext(k: Kernel, cfg: Cfg, s: State, s': State, i: nat, a: Choice) {
    && cfg.drainers > 0 && Shaped(cfg, s.sh) && i < |s.pc|
    && (s.pc[i].Idle? ==> MayDo(k, cfg, i, a)) && s' == Step(cfg, s, i, a)
  }

  ghost predicate KernelNext(k: Kernel, cfg: Cfg, s: State, s': State) {
    Shaped(cfg, s.sh) && ((exists i: nat, a :: CtaNext(k, cfg, s, s', i, a)) || Outside(cfg, s, s'))
  }

  ghost predicate KernelStepAt(k: Kernel, cfg: Cfg, run: seq<State>, n: nat)
    requires n + 1 < |run|
  {
    KernelNext(k, cfg, run[n], run[n + 1])
  }

  ghost predicate IsKernelRun(k: Kernel, cfg: Cfg, run: seq<State>) {
    && |run| > 0 && Init(cfg, run[0]) && KernelOk(k, cfg, |run[0].pc|)
    && forall n :: 0 <= n < |run| - 1 ==> KernelStepAt(k, cfg, run, n)
  }

  /** What a CTA of a kernel can be doing. */
  predicate PcKind(k: Kernel, cfg: Cfg, i: nat, pc: Pc) {
    match pc
    case SLocal(c, enqueue) => if k.Queued? then enqueue && i < cfg.drainers else !enqueue
    case SCas(c, enqueue) => if k.Queued? then enqueue && i < cfg.drainers else !enqueue
    case DTake(_, _, _) => i < cfg.drainers
    case DWork(_) => i < cfg.drainers
    case DFlag(_, _) => i < cfg.drainers
    case QTicket(_) => k.Queued? && i < cfg.drainers
    case QPublish(_, _) => k.Queued? && i < cfg.drainers
    case PTail(_) => k.Queued? && i >= cfg.drainers
    case PCas(_) => k.Queued? && i >= cfg.drainers
    case PSpin(_) => k.Queued? && i >= cfg.drainers
    case POut(_, _) => k.Queued? && i >= cfg.drainers
    case PCount(_, _) => k.Queued? && i >= cfg.drainers
    case DOut(_) => !k.Queued?
    case DCount(_) => !k.Queued?
    case Idle => true
    case Exited => Reducer(k, cfg, i)
  }

  ghost predicate Kind(k: Kernel, cfg: Cfg, s: State) {
    && KernelOk(k, cfg, |s.pc|)
    && (forall i :: 0 <= i < |s.pc| ==> PcKind(k, cfg, i, s.pc[i]))
    && (!k.Queued? ==> s.sh.rq.tickets == [])
  }

  lemma StepKind(k: Kernel, cfg: Cfg, s: State, s': State, i: nat, a: Choice)
    requires Kind(k, cfg, s) && CtaNext(k, cfg, s, s', i, a)
    ensures Kind(k, cfg, s')
  {
  }

  lemma KernelNextGood(k: Kernel, cfg: Cfg, s: State, s': State)
    requires Good(cfg, s) && Kind(k, cfg, s) && KernelNext(k, cfg, s, s')
    ensures Good(cfg, s') && Kind(k, cfg, s')
  {
    if i: nat, a :| CtaNext(k, cfg, s, s', i, a) {
      StepGood(cfg, s, i, a);
      StepKind(k, cfg, s, s', i, a);
    } else {
      OutsideGood(cfg, s, s');
    }
  }

  lemma {:induction false} KernelRunGood(k: Kernel, cfg: Cfg, run: seq<State>, n: nat)
    requires IsKernelRun(k, cfg, run) && n < |run|
    ensures Good(cfg, run[n]) && Kind(k, cfg, run[n])
  {
    if n == 0 {
      InitGood(cfg, run[0]);
    } else {
      KernelRunGood(k, cfg, run, n - 1);
      assert KernelStepAt(k, cfg, run, n - 1);
      KernelNextGood(k, cfg, run[n - 1], run[n]);
    }
  }

  // ----- the work left

  const WORK := 4    // a work still to be marked
  const CHUNK := 10  // a chunk not claimed
  const ENTRY := 7   // an entry of the queue

  /** What a CTA has in hand; one for leaving. */
  function Rank(pc: Pc): nat {
    match pc
    case Exited => 0
    case DWork(ws) => WORK * |ws| + 2
    case DFlag(_, ws) => WORK * |ws| + 4
    case QTicket(_) => 10
    case QPublish(_, _) => 2
    case PSpin(_) => 7
    case POut(_, _) => 6
    case PCount(_, _) => 5
    case DOut(_) => 9
    case DCount(_) => 5
    case _ => 1
  }

  ghost function Ranks(pc: seq<Pc>, n: nat): nat
    requires n <= |pc|
  {
    if n == 0 then 0 else Ranks(pc, n - 1) + Rank(pc[n - 1])
  }

  ghost function SharedLeft(cfg: Cfg, h: Shared): int {
    (if |h.inbox.heads| == |h.inbox.flags| then WordsLeft(cfg.decode, WORK, h.inbox, |h.inbox.heads|) else 0)
    + CHUNK * (cfg.chunks - |h.flags.claimed|) + ENTRY * (|h.rq.tickets| - h.rq.head)
  }

  ghost function Left(cfg: Cfg, s: State): int {
    SharedLeft(cfg, s.sh) + Ranks(s.pc, |s.pc|)
  }

  lemma {:induction false} RanksAfter(pc: seq<Pc>, i: nat, x: Pc, n: nat)
    requires i < |pc| && n <= |pc|
    ensures Ranks(pc[i := x], n) == Ranks(pc, n) + if i < n then Rank(x) - Rank(pc[i]) else 0
  {
    if n == 0 {
    } else {
      RanksAfter(pc, i, x, n - 1);
    }
  }

  lemma LeftPositive(cfg: Cfg, s: State)
    requires Good(cfg, s)
    ensures Left(cfg, s) >= 0
  {
    BelowSize(cfg.chunks);
    SubsetSize(s.sh.flags.claimed, Below(cfg.chunks));
  }

  // ----- no step raises it

  /** A CTA that looks for something to do, or has only seen it. */
  predicate Polling(pc: Pc) {
    pc.Idle? || pc.DTake? || pc.SLocal? || pc.SCas? || pc.PTail? || pc.PCas?
  }

  /** A step gets something done, or leaves everything shared and all other CTAs as they are, and
      its own polling or spinning.
   */
  ghost predicate Lowers(cfg: Cfg, s: State, s': State, i: nat)
    requires i < |s.pc|
  {
    || Left(cfg, s') < Left(cfg, s)
    || (s'.sh == s.sh && |s'.pc| == |s.pc| && s'.pc == s.pc[i := s'.pc[i]] && Left(cfg, s') == Left(cfg, s)
        && (s' == s || (Polling(s.pc[i]) && Polling(s'.pc[i]))))
  }

  lemma LeftAfter(cfg: Cfg, s: State, s': State, i: nat)
    requires i < |s.pc| == |s'.pc| && s'.pc == s.pc[i := s'.pc[i]]
    ensures Left(cfg, s') - Left(cfg, s) == SharedLeft(cfg, s'.sh) - SharedLeft(cfg, s.sh) + Rank(s'.pc[i]) - Rank(s.pc[i])
  {
    RanksAfter(s.pc, i, s'.pc[i], |s.pc|);
  }

  lemma TakeLowers(cfg: Cfg, s: State, i: nat)
    requires Shaped(cfg, s.sh) && i < |s.pc| && s.pc[i].DTake? && PcOk(cfg, s.sh, s.pc[i])
    ensures Left(cfg, DrainStep(cfg, s, i)) < Left(cfg, s)
  {
    LeftAfter(cfg, s, DrainStep(cfg, s, i), i);
    assert DrainStep(cfg, s, i).sh.inbox == Advance(s.sh.inbox, s.pc[i].q);
    WordsAfter(cfg.decode, WORK, s.sh.inbox, s.pc[i].q, |s.sh.inbox.heads|);
  }

  lemma MarkLowers(cfg: Cfg, s: State, i: nat)
    requires i < |s.pc| && (s.pc[i].DWork? || s.pc[i].DFlag?)
    ensures Left(cfg, DrainStep(cfg, s, i)) < Left(cfg, s)
  {
    LeftAfter(cfg, s, DrainStep(cfg, s, i), i);
  }

  lemma ClaimLowers(cfg: Cfg, s: State, i: nat)
    requires i < |s.pc| && (s.pc[i].SLocal? || s.pc[i].SCas?)
    ensures Lowers(cfg, s, ClaimStep(s, i), i)
  {
    LeftAfter(cfg, s, ClaimStep(s, i), i);
  }

  lemma QueueLowers(cfg: Cfg, s: State, i: nat)
    requires i < |s.pc| && |s.sh.rq.slots| > 0 && Queueing(s.pc[i])
    ensures Lowers(cfg, s, QueueStep(s, i), i)
  {
    LeftAfter(cfg, s, QueueStep(s, i), i);
  }

  lemma OutLowers(cfg: Cfg, s: State, i: nat)
    requires i < |s.pc| && Publishing(s.pc[i]) && |s.sh.res.out| == cfg.chunks && s.pc[i].c < cfg.chunks
    ensures Left(cfg, OutStep(cfg, s, i)) < Left(cfg, s)
  {
    LeftAfter(cfg, s, OutStep(cfg, s, i), i);
  }

  lemma StartLowers(cfg: Cfg, s: State, i: nat, a: Choice)
    requires i < |s.pc| && s.pc[i].Idle?
    ensures Lowers(cfg, s, StartStep(cfg, s, i, a), i)
  {
    LeftAfter(cfg, s, StartStep(cfg, s, i, a), i);
  }

  /** Every step of every CTA, at every state of every run, lowers the work left or is a poll. */
  lemma StepLowers(cfg: Cfg, s: State, i: nat, a: Choice)
    requires Shaped(cfg, s.sh) && cfg.capacity > 0 && i < |s.pc| && PcOk(cfg, s.sh, s.pc[i])
    requires Publishing(s.pc[i]) ==> s.pc[i].c < cfg.chunks
    ensures Lowers(cfg, s, Step(cfg, s, i, a), i)
  {
    var pc := s.pc[i];
    if pc.Idle? {
      StartLowers(cfg, s, i, a);
    } else if pc.DTake? {
      TakeLowers(cfg, s, i);
    } else if pc.DWork? || pc.DFlag? {
      MarkLowers(cfg, s, i);
    } else if pc.SLocal? || pc.SCas? {
      ClaimLowers(cfg, s, i);
    } else if Queueing(pc) {
      QueueLowers(cfg, s, i);
    } else if Publishing(pc) {
      OutLowers(cfg, s, i);
    }
  }

  // ----- going on with a run

  function Last(run: seq<State>): State
    requires |run| > 0
  {
    run[|run| - 1]
  }

  /** All local results are done, and words with no hole before them announce every work. */
  ghost predicate InputsIn(cfg: Cfg, s: State) {
    && (forall c :: 0 <= c < cfg.chunks ==> c in s.sh.flags.localDone)
    && (forall p: nat, c: nat :: p < cfg.peers && c < cfg.chunks ==> Landed(s.sh.inbox, cfg.decode, Work(p, c)))
  }

  /** A run of the kernel at a state from which the CTAs alone can go on. */
  ghost predicate Goes(k: Kernel, cfg: Cfg, run: seq<State>) {
    IsKernelRun(k, cfg, run) && InputsIn(cfg, Last(run))
  }

  lemma StepKeepsInputs(cfg: Cfg, s: State, i: nat, a: Choice)
    requires Shaped(cfg, s.sh) && i < |s.pc| && InputsIn(cfg, s)
    ensures InputsIn(cfg, Step(cfg, s, i, a))
  {
    var s' := Step(cfg, s, i, a);
    assert s'.sh.inbox.flags == s.sh.inbox.flags && s'.sh.flags.localDone == s.sh.flags.localDone;
    forall p: nat, c: nat | p < cfg.peers && c < cfg.chunks
      ensures Landed(s'.sh.inbox, cfg.decode, Work(p, c))
    {
      assert Landed(s.sh.inbox, cfg.decode, Work(p, c));
    }
  }

  lemma PublishingInRange(cfg: Cfg, s: State, i: nat)
    requires Good(cfg, s) && i < |s.pc| && Publishing(s.pc[i])
    ensures s.pc[i].c < cfg.chunks
  {
    assert PcOk(cfg, s.sh, s.pc[i]);
    PublishingIsReady(cfg, s.sh, s.pc[i]);
  }

  lemma ExtendRun(k: Kernel, cfg: Cfg, run: seq<State>, s': State)
    requires IsKernelRun(k, cfg, run) && KernelNext(k, cfg, Last(run), s')
    ensures IsKernelRun(k, cfg, run + [s'])
  {
    var longer := run + [s'];
    forall n | 0 <= n < |longer| - 1
      ensures KernelStepAt(k, cfg, longer, n)
    {
      if n < |run| - 1 {
        assert KernelStepAt(k, cfg, run, n);
      }
    }
  }

  lemma LastLowers(k: Kernel, cfg: Cfg, s: State, i: nat, a: Choice)
    requires Good(cfg, s) && i < |s.pc|
    ensures Shaped(cfg, s.sh) && Lowers(cfg, s, Step(cfg, s, i, a), i)
  {
    assert PcOk(cfg, s.sh, s.pc[i]);
    if Publishing(s.pc[i]) {
      PublishingInRange(cfg, s, i);
    }
    StepLowers(cfg, s, i, a);
  }

  /** CTA `i` takes a step. */
  lemma Go(k: Kernel, cfg: Cfg, run: seq<State>, i: nat, a: Choice) returns (run': seq<State>)
    requires Goes(k, cfg, run) && cfg.drainers > 0 && i < |Last(run).pc| && (Last(run).pc[i].Idle? ==> MayDo(k, cfg, i, a))
    ensures Shaped(cfg, Last(run).sh) && run' == run + [Step(cfg, Last(run), i, a)]
    ensures Goes(k, cfg, run') && Lowers(cfg, Last(run), Last(run'), i)
  {
    var s := Last(run);
    KernelRunGood(k, cfg, run, |run| - 1);
    LastLowers(k, cfg, s, i, a);
    run' := run + [Step(cfg, s, i, a)];
    assert CtaNext(k, cfg, s, Last(run'), i, a);
    ExtendRun(k, cfg, run, Last(run'));
    StepKeepsInputs(cfg, s, i, a);
  }

  /** The run has gone on and something has got done. */
  ghost predicate Better(k: Kernel, cfg: Cfg, run: seq<State>, run': seq<State>) {
    && Goes(k, cfg, run) && Goes(k, cfg, run') && run <= run'
    && Left(cfg, Last(run')) < Left(cfg, Last(run))
  }

  /** Or only CTA `i` has become idle. */
  ghost predicate NowIdle(k: Kernel, cfg: Cfg, run: seq<State>, run': seq<State>, i: nat) {
    && Goes(k, cfg, run) && Goes(k, cfg, run') && run <= run' && i < |Last(run).pc|
    && Last(run') == At(Last(run), i, Idle) && Left(cfg, Last(run')) == Left(cfg, Last(run))
  }

  lemma OneMorePoll(cfg: Cfg, s: State, s1: State, i: nat)
    requires Shaped(cfg, s.sh) && cfg.capacity > 0 && i < |s.pc| && Polling(s.pc[i]) && !s.pc[i].Idle?
    requires s1 == Step(cfg, s, i, TryExit) && s1.sh == s.sh && Polling(s1.pc[i]) && !s1.pc[i].Idle?
    ensures var s2 := Step(cfg, s1, i, TryExit); s2.sh != s1.sh || s2.pc[i].Idle?
  {
  }

  /** A CTA that polls takes something or is idle within two steps. */
  lemma ToIdle(k: Kernel, cfg: Cfg, run: seq<State>, i: nat) returns (run': seq<State>)
    requires Goes(k, cfg, run) && cfg.drainers > 0 && i < |Last(run).pc| && Polling(Last(run).pc[i])
    ensures Better(k, cfg, run, run') || NowIdle(k, cfg, run, run', i)
  {
    var s := Last(run);
    run' := run;
    if !s.pc[i].Idle? {
      run' := Go(k, cfg, run, i, TryExit);
      var s1 := Last(run');
      if Left(cfg, s1) == Left(cfg, s) && !s1.pc[i].Idle? {
        OneMorePoll(cfg, s, s1, i);
        run' := Go(k, cfg, run', i, TryExit);
      }
    }
  }

  lemma BetterTwice(k: Kernel, cfg: Cfg, run: seq<State>, mid: seq<State>, run': seq<State>, i: nat)
    requires NowIdle(k, cfg, run, mid, i) && Better(k, cfg, mid, run')
    ensures Better(k, cfg, run, run')
  {
  }

  /** A step that changes something shared gets something done. */
  lemma GoLowers(k: Kernel, cfg: Cfg, run: seq<State>, run': seq<State>, i: nat)
    requires Goes(k, cfg, run) && Goes(k, cfg, run') && run <= run' && i < |Last(run).pc| == |Last(run').pc|
    requires Lowers(cfg, Last(run), Last(run'), i)
    requires Last(run').sh != Last(run).sh || (Last(run') != Last(run) && !(Polling(Last(run).pc[i]) && Polling(Last(run').pc[i])))
    ensures Better(k, cfg, run, run')
  {
  }

  // ----- with somebody busy

  lemma LastShaped(k: Kernel, cfg: Cfg, run: seq<State>)
    requires IsKernelRun(k, cfg, run)
    ensures Shaped(cfg, Last(run).sh) && cfg.capacity > 0 && cfg.drainers > 0
  {
    KernelRunGood(k, cfg, run, |run| - 1);
  }

  /** If a CTA is busy, it or the one it spins for can move. */
  lemma BusyMover(k: Kernel, cfg: Cfg, run: seq<State>, i: nat) returns (j: nat)
    requires IsKernelRun(k, cfg, run) && i < |Last(run).pc| && !Polling(Last(run).pc[i]) && !Last(run).pc[i].Exited?
    ensures CanMove(cfg, Last(run), j, TryExit) && !Polling(Last(run).pc[j])
  {
    var s := Last(run);
    j := i;
    KernelRunGood(k, cfg, run, |run| - 1);
    if s.pc[i].PSpin? && |s.sh.rq.slots| > 0 && QueueStep(s, i) == s {
      j := SpinIsServed(cfg, s, i);
    }
    BusyCtaMoves(cfg, s, j, TryExit);
  }

  lemma BusyGoesOn(k: Kernel, cfg: Cfg, run: seq<State>, i: nat) returns (run': seq<State>)
    requires Goes(k, cfg, run) && i < |Last(run).pc| && !Polling(Last(run).pc[i]) && !Last(run).pc[i].Exited?
    ensures Better(k, cfg, run, run')
  {
    LastShaped(k, cfg, run);
    var j := BusyMover(k, cfg, run, i);
    run' := Go(k, cfg, run, j, TryExit);
    GoLowers(k, cfg, run, run', j);
  }

  // ----- with nobody busy

  /** What an idle CTA should turn to. */
  ghost predicate Worthwhile(cfg: Cfg, h: Shared, i: nat, a: Choice) {
    match a
    case Drain(q) =>
      q < |h.inbox.heads| == |h.inbox.flags| && i < cfg.drainers && Visits(i, cfg.drainers, q) && HeadWord(h.inbox, q) != 0
    case Scan(c, _) => c < cfg.chunks && c in h.flags.arrived && c in h.flags.localDone && c !in h.flags.claimed
    case Pop => h.rq.head < |h.rq.tickets|
    case TryExit => h.res.published >= cfg.chunks
  }

  /** Undisturbed, it gets it in at most three steps: the first sees it, the last takes it. */
  lemma StepsToIt(cfg: Cfg, s: State, i: nat, a: Choice)
    requires Shaped(cfg, s.sh) && cfg.capacity > 0 && i < |s.pc| && s.pc[i].Idle? && Worthwhile(cfg, s.sh, i, a)
    ensures var s1 := Step(cfg, s, i, a);
            if a.TryExit? then s1 == At(s, i, Exited)
            else
              s1.sh == s.sh && !s1.pc[i].Idle? &&
              var s2 := Step(cfg, s1, i, a);
              if a.Drain? then s2.sh.inbox != s1.sh.inbox
              else s2.sh == s.sh && !s2.pc[i].Idle? && Step(cfg, s2, i, a).sh != s2.sh
  {
    var s1 := Step(cfg, s, i, a);
    match a {
      case Drain(q) =>
        var h := s.sh.inbox.heads[q];
        assert s1.pc[i] == DTake(q, h, HeadWord(s.sh.inbox, q));
        assert Step(cfg, s1, i, a).sh.inbox == StoreHead(s.sh.inbox, q, h + 1);
        assert StoreHead(s.sh.inbox, q, h + 1).heads[q] != h;
      case Scan(c, enqueue) =>
        assert s1.pc[i] == SLocal(c, enqueue);
        assert Step(cfg, s1, i, a).pc[i] == SCas(c, enqueue);
      case Pop =>
        assert s1.pc[i] == PTail(s.sh.rq.head);
        assert Step(cfg, s1, i, a).pc[i] == PCas(s.sh.rq.head);
      case TryExit =>
    }
  }

  lemma IdleExits(k: Kernel, cfg: Cfg, run: seq<State>, i: nat) returns (run': seq<State>)
    requires Goes(k, cfg, run) && cfg.drainers > 0 && i < |Last(run).pc| && Last(run).pc[i].Idle?
    requires MayDo(k, cfg, i, TryExit) && Worthwhile(cfg, Last(run).sh, i, TryExit)
    ensures Better(k, cfg, run, run')
  {
    LastShaped(k, cfg, run);
    StepsToIt(cfg, Last(run), i, TryExit);
    run' := Go(k, cfg, run, i, TryExit);
    GoLowers(k, cfg, run, run', i);
  }

  lemma IdleDrains(k: Kernel, cfg: Cfg, run: seq<State>, i: nat, a: Choice) returns (run': seq<State>)
    requires Goes(k, cfg, run) && cfg.drainers > 0 && i < |Last(run).pc| && Last(run).pc[i].Idle? && a.Drain?
    requires MayDo(k, cfg, i, a) && Worthwhile(cfg, Last(run).sh, i, a)
    ensures Better(k, cfg, run, run')
  {
    LastShaped(k, cfg, run);
    StepsToIt(cfg, Last(run), i, a);
    var run1 := Go(k, cfg, run, i, a);
    run' := Go(k, cfg, run1, i, a);
    GoLowers(k, cfg, run1, run', i);
  }

  lemma IdleTakes(k: Kernel, cfg: Cfg, run: seq<State>, i: nat, a: Choice) returns (run': seq<State>)
    requires Goes(k, cfg, run) && cfg.drainers > 0 && i < |Last(run).pc| && Last(run).pc[i].Idle? && (a.Scan? || a.Pop?)
    requires MayDo(k, cfg, i, a) && Worthwhile(cfg, Last(run).sh, i, a)
    ensures Better(k, cfg, run, run')
  {
    LastShaped(k, cfg, run);
    StepsToIt(cfg, Last(run), i, a);
    var run1 := Go(k, cfg, run, i, a);
    var run2 := Go(k, cfg, run1, i, a);
    run' := Go(k, cfg, run2, i, a);
    GoLowers(k, cfg, run2, run', i);
  }

  lemma IdleGoesOn(k: Kernel, cfg: Cfg, run: seq<State>, i: nat, a: Choice) returns (run': seq<State>)
    requires Goes(k, cfg, run) && cfg.drainers > 0 && i < |Last(run).pc| && Last(run).pc[i].Idle?
    requires MayDo(k, cfg, i, a) && Worthwhile(cfg, Last(run).sh, i, a)
    ensures Better(k, cfg, run, run')
  {
    if a.TryExit? {
      run' := IdleExits(k, cfg, run, i);
    } else if a.Drain? {
      run' := IdleDrains(k, cfg, run, i, a);
    } else {
      run' := IdleTakes(k, cfg, run, i, a);
    }
  }

  /** The same for a CTA that still polls for something else. */
  lemma PollerGoesOn(k: Kernel, cfg: Cfg, run: seq<State>, i: nat, a: Choice) returns (run': seq<State>)
    requires Goes(k, cfg, run) && cfg.drainers > 0 && i < |Last(run).pc| && Polling(Last(run).pc[i])
    requires MayDo(k, cfg, i, a) && Worthwhile(cfg, Last(run).sh, i, a)
    ensures Better(k, cfg, run, run')
  {
    var mid := ToIdle(k, cfg, run, i);
    if Better(k, cfg, run, mid) {
      run' := mid;
    } else {
      run' := IdleGoesOn(k, cfg, mid, i, a);
      BetterTwice(k, cfg, run, mid, run', i);
    }
  }

  /** Nobody is in the middle of an operation. */
  ghost predicate Calm(s: State) {
    forall i :: 0 <= i < |s.pc| ==> Polling(s.pc[i]) || s.pc[i].Exited?
  }

  /** Words that have landed are marked by then, and their chunks flagged. */
  lemma DryMeansArrived(cfg: Cfg, s: State, c: nat)
    requires Good(cfg, s) && Calm(s) && Dry(s.sh.inbox) && InputsIn(cfg, s) && c < cfg.chunks
    ensures c in s.sh.flags.arrived
  {
    forall p | 0 <= p < cfg.peers
      ensures Work(p, c) in s.sh.flags.mask
    {
      DryMeansPast(s.sh.inbox, cfg.decode, Work(p, c));
      assert !InHand(s.pc, Work(p, c));
    }
    CountFull(s.sh.flags.mask, c, cfg.peers);
    assert AllIn(cfg, s.sh.flags.mask, c);
    assert !Held(s.pc, Raise(c));
  }

  lemma NotPublished(cfg: Cfg, s: State) returns (c: nat)
    requires Good(cfg, s) && s.sh.res.published < cfg.chunks
    ensures c < cfg.chunks && c !in s.sh.res.finished
  {
    BelowSize(cfg.chunks);
    if Below(cfg.chunks) <= s.sh.res.finished {
      SubsetSize(Below(cfg.chunks), s.sh.res.finished);
      assert false;
    }
    c :| c in Below(cfg.chunks) && c !in s.sh.res.finished;
  }

  lemma ClaimedIsQueued(cfg: Cfg, s: State, c: nat)
    requires Good(cfg, s) && Calm(s) && c in s.sh.flags.claimed && c !in s.sh.res.finished
    ensures s.sh.rq.head < |s.sh.rq.tickets|
  {
    assert !Held(s.pc, Carry(c));
    var m :| 0 <= m < |s.sh.rq.tickets| && s.sh.rq.tickets[m] == c;
    assert !Held(s.pc, Entry(m));
  }

  /** While chunks are not published, there is something worth while for some CTA. */
  lemma SomethingWorthwhile(k: Kernel, cfg: Cfg, s: State) returns (i: nat, a: Choice)
    requires Good(cfg, s) && Kind(k, cfg, s) && Calm(s) && InputsIn(cfg, s) && s.sh.res.published < cfg.chunks
    ensures i < |s.pc| && Polling(s.pc[i]) && MayDo(k, cfg, i, a) && Worthwhile(cfg, s.sh, i, a)
  {
    assert forall j :: 0 <= j < |s.pc| ==> PcOk(cfg, s.sh, s.pc[j]);
    if q: nat :| q < |s.sh.inbox.heads| && HeadWord(s.sh.inbox, q) != 0 {
      i, a := q % cfg.drainers, Drain(q);
      VisitsIs(i, cfg.drainers, q);
    } else {
      var c := NotPublished(cfg, s);
      DryMeansArrived(cfg, s, c);
      if c !in s.sh.flags.claimed {
        i, a := if k.Queued? then c % cfg.drainers else if k.Split? then cfg.drainers else 0, Scan(c, k.Queued?);
      } else {
        ClaimedIsQueued(cfg, s, c);
        i, a := cfg.drainers, Pop;
      }
    }
  }

  // ----- to the end

  /** All chunks are published in full, and all reducers are gone. */
  ghost predicate Done(k: Kernel, cfg: Cfg, s: State) {
    && s.sh.res.published == cfg.chunks == |s.sh.res.out|
    && (forall c :: 0 <= c < cfg.chunks ==> s.sh.res.out[c] == Full(cfg, c))
    && forall i :: 0 <= i < |s.pc| && Reducer(k, cfg, i) ==> s.pc[i].Exited?
  }

  lemma PublishedMeansFull(cfg: Cfg, s: State)
    requires Good(cfg, s) && s.sh.res.published >= cfg.chunks
    ensures s.sh.res.published == cfg.chunks == |s.sh.res.out|
    ensures forall c :: 0 <= c < cfg.chunks ==> s.sh.res.out[c] == Full(cfg, c)
  {
    BelowSize(cfg.chunks);
    SubsetSize(s.sh.res.finished, Below(cfg.chunks));
  }

  lemma GoesOn(k: Kernel, cfg: Cfg, run: seq<State>) returns (run': seq<State>)
    requires Goes(k, cfg, run) && !Done(k, cfg, Last(run))
    ensures Better(k, cfg, run, run')
  {
    var s := Last(run);
    KernelRunGood(k, cfg, run, |run| - 1);
    if i :| 0 <= i < |s.pc| && !Polling(s.pc[i]) && !s.pc[i].Exited? {
      run' := BusyGoesOn(k, cfg, run, i);
    } else if s.sh.res.published < cfg.chunks {
      var i, a := SomethingWorthwhile(k, cfg, s);
      run' := PollerGoesOn(k, cfg, run, i, a);
    } else {
      PublishedMeansFull(cfg, s);
      var i :| 0 <= i < |s.pc| && Reducer(k, cfg, i) && !s.pc[i].Exited?;
      run' := PollerGoesOn(k, cfg, run, i, TryExit);
    }
  }

  /** From every state of every run of every kernel, once all local results are done and all
      words have landed with no hole before them, some schedule of the CTAs publishes every chunk
      in full and lets every reducer go: no interleaving leads to a dead end.
   */
  lemma CanFinish(k: Kernel, cfg: Cfg, run: seq<State>) returns (run': seq<State>)
    requires IsKernelRun(k, cfg, run) && InputsIn(cfg, Last(run))
    ensures IsKernelRun(k, cfg, run') && run <= run' && Done(k, cfg, Last(run'))
    decreases Left(cfg, Last(run))
  {
    KernelRunGood(k, cfg, run, |run| - 1);
    LeftPositive(cfg, Last(run));
    if Done(k, cfg, Last(run)) {
      run' := run;
    } else {
      var more := GoesOn(k, cfg, run);
      run' := CanFinish(k, cfg, more);
    }
  }

  /** The runs of every kernel are runs of the claiming reducers. */
  lemma KernelRunIsRun(k: Kernel, cfg: Cfg, run: seq<State>)
    requires IsKernelRun(k, cfg, run)
    ensures IsRun(cfg, run)
  {
    forall n | 0 <= n < |run| - 1
      ensures StepAt(cfg, run, n)
    {
      assert KernelStepAt(k, cfg, run, n);
      var s, s' := run[n], run[n + 1];
      if i: nat, a :| CtaNext(k, cfg, s, s', i, a) {
        assert i < |s.pc| && s' == Step(cfg, s, i, a);
      }
    }
  }
}
