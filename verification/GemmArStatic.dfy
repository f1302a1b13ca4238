/** The gemm_ar reducer with static ownership: CTA `i` publishes chunks i, i + stride, ... in
    order, with no claim.  With early accumulation it adds each peer's chunk as soon as that
    peer has arrived, in whatever order they come.  Each time around one of its loops it drains
    its arrival queues, as the claiming reducers do.
 */
module GemmArStatic {
  import opened Arith
  import opened ArrivalQueue
  import opened PeerSums
  import opened TicketQueue
  import Claim = GemmArClaim

  /** `lane` gives the owner of each chunk. */
  datatype Setup = Setup(cfg: Claim.Cfg, stride: nat, lane: nat -> nat, early: bool)

  ghost predicate SetupOk(z: Setup) {
    Claim.CfgOk(z.cfg) && z.cfg.drainers == z.stride && Strides(z.lane, z.stride)
  }

  // ----- states

  /** `c` is the chunk a CTA is at; `done` holds the contributions added to it so far. */
  datatype Pc =
    | Wait(c: nat)
    | Saw(c: nat)                                                      // arrival flag seen
    | Early(c: nat, done: set<Work>)
    | Fresh(c: nat, done: set<Work>, todo: set<Work>)                  // new arrivals seen
    | Add(c: nat, done: set<Work>, todo: set<Work>, ready: bool)       // adding them
    | Out(c: nat)
    | Count(c: nat)
    | Tail(c: nat)
    | Exited(c: nat)

  datatype Shared = Shared(inbox: Inbox, flags: Claim.Flags, accum: seq<int>, res: Claim.Result)

  /** `drains` says how far each CTA is in draining. */
  datatype State = State(pc: seq<Pc>, drains: seq<Claim.Pc>, sh: Shared)

  function At(s: State, i: nat, pc: Pc): State
    requires i < |s.pc|
  {
    s.(pc := s.pc[i := pc])
  }

  /** Turn to chunk `c`, or leave the loop. */
  function Turn(z: Setup, c: nat): Pc {
    if c >= z.cfg.chunks then Tail(c) else if z.early then Early(c, {}) else Wait(c)
  }

  ghost predicate Shaped(z: Setup, s: State) {
    |s.pc| == |s.drains| == z.stride && |s.sh.accum| == |s.sh.res.out| == z.cfg.chunks
  }

  // ----- draining

  /** The drains as those of claiming reducers that have claimed nothing. */
  ghost function View(z: Setup, s: State): Claim.State {
    Claim.State(s.drains, Claim.Shared(s.sh.inbox, s.sh.flags, Queue([], seq(z.cfg.capacity, _ => 0), 0),
                                       Claim.Result(seq(z.cfg.chunks, _ => 0), 0, {})))
  }

  function WithDrains(s: State, v: Claim.State): State {
    s.(drains := v.pc, sh := s.sh.(inbox := v.sh.inbox, flags := v.sh.flags))
  }

  /** At the top of a loop that drains. */
  predicate Looping(pc: Pc) {
    pc.Wait? || pc.Early? || pc.Tail?
  }

  /** CTA `i` goes on draining, or looks at queue `q`. */
  ghost predicate DrainStep(z: Setup, s: State, s': State, i: nat, q: nat) {
    && i < |s.pc| == |s.drains| && Looping(s.pc[i]) && Claim.Shaped(z.cfg, View(z, s).sh)
    && s' == WithDrains(s, Claim.Step(z.cfg, View(z, s), i, Claim.Drain(q)))
  }

  /** Payloads and words land, local results are completed. */
  ghost predicate OutsideStep(z: Setup, s: State, s': State, v: Claim.State) {
    Claim.Outside(z.cfg, View(z, s), v) && s' == WithDrains(s, v)
  }

  // ----- steps

  predicate LocalFlag(f: Claim.Flags, c: nat) {
    c in f.localDone
  }

  function MaskOf(f: Claim.Flags, c: nat): set<Work> {
    set w | w in f.mask && w.chunk == c
  }

  ghost predicate AllPeers(z: Setup, ws: set<Work>, c: nat) {
    forall p :: 0 <= p < z.cfg.peers ==> Work(p, c) in ws
  }

  /** Add one new contribution; the first one overwrites what the buffer held. */
  function AddOne(z: Setup, h: Shared, c: nat, done: set<Work>, w: Work): Shared
    requires c < |h.accum|
  {
    var v := Claim.Seen(z.cfg, h.flags.landed, w);
    h.(accum := h.accum[c := if done == {} then v else h.accum[c] + v])
  }

  function WriteOut(z: Setup, h: Shared, c: nat): Shared
    requires c < |h.accum| == |h.res.out|
  {
    var v := if z.early then (if c in h.flags.localDone then z.cfg.local(c) else z.cfg.staleLocal(c)) + h.accum[c]
             else Claim.SumNow(z.cfg, h.flags, c);
    h.(res := h.res.(out := h.res.out[c := v]))
  }

  function Finish(h: Shared, c: nat): Shared {
    h.(res := h.res.(published := h.res.published + 1, finished := h.res.finished + {c}))
  }

  /** One step of CTA `i`; `w` is the contribution added, if any. */
  ghost predicate CtaStep(z: Setup, s: State, s': State, i: nat, w: Work)
    requires Shaped(z, s)
  {
    i < |s.pc| && (Looping(s.pc[i]) ==> s.drains[i] == Claim.Idle) &&
    var f := s.sh.flags;
    match s.pc[i]
    case Wait(c) => s' == if c in f.arrived then At(s, i, Saw(c)) else s
    case Saw(c) => s' == At(s, i, if LocalFlag(f, c) then Out(c) else Wait(c))
    case Early(c, done) => s' == At(s, i, Fresh(c, done, MaskOf(f, c) - done))
    case Fresh(c, done, todo) => s' == At(s, i, Add(c, done, todo, LocalFlag(f, c) && AllPeers(z, done + todo, c)))
    case Add(c, done, todo, ready) =>
      if todo == {} then s' == At(s, i, if ready then Out(c) else Early(c, done))
      else w in todo && c < |s.sh.accum| && s' == At(s, i, Add(c, done + {w}, todo - {w}, ready)).(sh := AddOne(z, s.sh, c, done, w))
    case Out(c) => c < |s.sh.accum| && s' == At(s, i, Count(c)).(sh := WriteOut(z, s.sh, c))
    case Count(c) => s' == At(s, i, Turn(z, c + z.stride)).(sh := Finish(s.sh, c))
    case Tail(c) => s' == if s.sh.res.published >= z.cfg.chunks then At(s, i, Exited(c)) else s
    case Exited(_) => s' == s
  }

  ghost predicate Next(z: Setup, s: State, s': State) {
    && Shaped(z, s)
    && (|| (exists i, w :: CtaStep(z, s, s', i, w))
        || (exists i: nat, q: nat :: DrainStep(z, s, s', i, q))
        || (exists v :: OutsideStep(z, s, s', v)))
  }

  ghost predicate Init(z: Setup, s: State) {
    && SetupOk(z) && Shaped(z, s) && Claim.Init(z.cfg, View(z, s))
    && (forall i :: 0 <= i < |s.pc| ==> s.pc[i] == Turn(z, i))
    && s.sh.res.published == 0 && s.sh.res.finished == {}
  }

  // ----- the invariant

  ghost predicate FlagsOk(z: Setup, f: Claim.Flags) {
    && (forall w :: w in f.landed ==> w.peer < z.cfg.peers)
    && f.mask <= f.landed
    && (forall c :: c in f.arrived ==> AllPeers(z, f.mask, c))
  }

  /** CTA `i` has published exactly its chunks before the one it is at. */
  ghost predicate ProgressOk(z: Setup, pc: seq<Pc>, finished: set<nat>) {
    && (forall i :: 0 <= i < |pc| ==> z.lane(pc[i].c) == i)
    && (forall c :: c in finished <==> 0 <= c < z.cfg.chunks && z.lane(c) < |pc| && c < pc[z.lane(c)].c)
  }

  ghost predicate ResOk(z: Setup, r: Claim.Result)
    requires |r.out| == z.cfg.chunks
  {
    && r.published == |r.finished|
    && (forall c :: c in r.finished ==> c < z.cfg.chunks && r.out[c] == Claim.Full(z.cfg, c))
  }

  /** The partial sum of chunk `c` holds exactly the contributions in `done`. */
  ghost predicate PartialSum(z: Setup, h: Shared, c: nat, done: set<Work>) {
    && (forall w :: w in done ==> w.chunk == c && w.peer < z.cfg.peers && w in h.flags.landed)
    && c < |h.accum|
    && (done != {} ==> h.accum[c] == SumOf(z.cfg.recv, done, c, z.cfg.peers))
  }

  ghost predicate TodoOk(z: Setup, f: Claim.Flags, c: nat, done: set<Work>, todo: set<Work>) {
    todo !! done && forall w :: w in todo ==> w.chunk == c && w.peer < z.cfg.peers && w in f.landed
  }

  ghost predicate PcOk(z: Setup, h: Shared, pc: Pc)
    requires |h.res.out| == z.cfg.chunks
  {
    match pc
    case Wait(c) => c < z.cfg.chunks && !z.early
    case Saw(c) => c < z.cfg.chunks && !z.early && c in h.flags.arrived
    case Early(c, done) => c < z.cfg.chunks && z.early && PartialSum(z, h, c, done)
    case Fresh(c, done, todo) =>
      c < z.cfg.chunks && z.early && PartialSum(z, h, c, done) && TodoOk(z, h.flags, c, done, todo)
    case Add(c, done, todo, ready) =>
      && c < z.cfg.chunks && z.early && PartialSum(z, h, c, done) && TodoOk(z, h.flags, c, done, todo)
      && (ready ==> c in h.flags.localDone && AllPeers(z, done + todo, c))
    case Out(c) =>
      && c < z.cfg.chunks && c in h.flags.localDone && AllPeers(z, h.flags.landed, c)
      && (z.early ==> c < |h.accum| && h.accum[c] == SumAll(z.cfg.recv, c, z.cfg.peers))
    case Count(c) => c < z.cfg.chunks && h.res.out[c] == Claim.Full(z.cfg, c)
    case Tail(c) => c >= z.cfg.chunks
    case Exited(c) => c >= z.cfg.chunks && h.res.published >= z.cfg.chunks
  }

  ghost predicate PcsOk(z: Setup, s: State)
    requires |s.sh.res.out| == z.cfg.chunks
  {
    forall i :: 0 <= i < |s.pc| ==> PcOk(z, s.sh, s.pc[i])
  }

  predicate OnlyDrains(pc: Claim.Pc) {
    pc.Idle? || pc.DTake? || pc.DWork? || pc.DFlag?
  }

  /** The drains keep what they keep for claiming reducers, and do nothing else. */
  ghost predicate DrainsOk(z: Setup, s: State) {
    && Claim.Good(z.cfg, View(z, s))
    && forall i :: 0 <= i < |s.drains| ==> OnlyDrains(s.drains[i])
  }

  ghost predicate Inv(z: Setup, s: State) {
    && SetupOk(z) && Shaped(z, s)
    && DrainsOk(z, s) && FlagsOk(z, s.sh.flags)
    && ProgressOk(z, s.pc, s.sh.res.finished)
    && ResOk(z, s.sh.res)
    && PcsOk(z, s)
  }

  // ----- steps keep it

  /** The contribution is new, so the sum grows by it once. */
  lemma AddOneKeeps(z: Setup, h: Shared, c: nat, done: set<Work>, todo: set<Work>, w: Work)
    requires PartialSum(z, h, c, done) && TodoOk(z, h.flags, c, done, todo) && w in todo
    ensures PartialSum(z, AddOne(z, h, c, done, w), c, done + {w})
    ensures TodoOk(z, h.flags, c, done + {w}, todo - {w})
    ensures forall c' :: AllPeers(z, done + todo, c') ==> AllPeers(z, (done + {w}) + (todo - {w}), c')
  {
    SumAfterAdd(z.cfg.recv, done, w, c, z.cfg.peers);
    if done == {} {
      SumOfNone(z.cfg.recv, done, c, z.cfg.peers);
    }
    assert (done + {w}) + (todo - {w}) == done + todo;
  }

  /** When every peer has been added, the partial sum is the whole sum. */
  lemma AddedAll(z: Setup, h: Shared, c: nat, done: set<Work>)
    requires z.cfg.peers > 0 && PartialSum(z, h, c, done) && AllPeers(z, done, c)
    ensures h.accum[c] == SumAll(z.cfg.recv, c, z.cfg.peers) && AllPeers(z, h.flags.landed, c)
  {
    assert Work(0, c) in done;
    SumFull(z.cfg.recv, done, c, z.cfg.peers);
  }

  lemma WrittenIsFull(z: Setup, h: Shared, c: nat)
    requires |h.accum| == |h.res.out| == z.cfg.chunks && PcOk(z, h, Out(c))
    ensures WriteOut(z, h, c).res.out[c] == Claim.Full(z.cfg, c)
  {
    Claim.SumSeen(z.cfg, h.flags.landed, c, z.cfg.peers);
  }

  /** Steps of one CTA do not disturb the chunks of another. */
  lemma OthersKept(z: Setup, h: Shared, h': Shared, c: nat, p: Pc)
    requires |h.res.out| == |h'.res.out| == z.cfg.chunks && |h.accum| == |h'.accum|
    requires h'.flags == h.flags && h'.res.published >= h.res.published
    requires forall e :: 0 <= e < |h.accum| && e != c ==> h'.accum[e] == h.accum[e]
    requires forall e :: 0 <= e < |h.res.out| && e != c ==> h'.res.out[e] == h.res.out[e]
    requires PcOk(z, h, p) && p.c != c
    ensures PcOk(z, h', p)
  {
  }

  lemma NewPcOk(z: Setup, s: State, s': State, i: nat, w: Work)
    requires Inv(z, s) && CtaStep(z, s, s', i, w)
    ensures |s'.pc| == |s.pc| && |s'.sh.res.out| == z.cfg.chunks && PcOk(z, s'.sh, s'.pc[i])
  {
    assert PcOk(z, s.sh, s.pc[i]);
    match s.pc[i] {
      case Add(c, done, todo, ready) =>
        if todo == {} {
          if ready {
            assert done + todo == done;
            AddedAll(z, s.sh, c, done);
          }
        } else {
          AddOneKeeps(z, s.sh, c, done, todo, w);
        }
      case Out(c) => WrittenIsFull(z, s.sh, c);
      case _ =>
    }
  }

  /** A step of CTA `i` changes only what belongs to its chunk. */
  lemma CtaFrame(z: Setup, s: State, s': State, i: nat, w: Work)
    requires Shaped(z, s) && CtaStep(z, s, s', i, w)
    ensures |s'.pc| == |s.pc| && s'.pc == s.pc[i := s'.pc[i]]
    ensures View(z, s') == View(z, s) && s'.sh.flags == s.sh.flags && s'.sh.res.published >= s.sh.res.published
    ensures |s'.sh.accum| == |s.sh.accum| && |s'.sh.res.out| == |s.sh.res.out|
    ensures forall e :: 0 <= e < |s.sh.accum| && e != s.pc[i].c ==> s'.sh.accum[e] == s.sh.accum[e]
    ensures forall e :: 0 <= e < |s.sh.res.out| && e != s.pc[i].c ==> s'.sh.res.out[e] == s.sh.res.out[e]
  {
  }

  lemma CtaPcs(z: Setup, s: State, s': State, i: nat, w: Work)
    requires Inv(z, s) && CtaStep(z, s, s', i, w)
    ensures |s'.sh.res.out| == z.cfg.chunks && PcsOk(z, s')
  {
    NewPcOk(z, s, s', i, w);
    CtaFrame(z, s, s', i, w);
    forall j | 0 <= j < |s.pc| && j != i
      ensures PcOk(z, s'.sh, s.pc[j])
    {
      assert z.lane(s.pc[j].c) == j && z.lane(s.pc[i].c) == i;
      OthersKept(z, s.sh, s'.sh, s.pc[i].c, s.pc[j]);
    }
  }

  lemma TurnProgress(z: Setup, pc: seq<Pc>, finished: set<nat>, i: nat)
    requires SetupOk(z) && ProgressOk(z, pc, finished) && i < |pc| && pc[i].c < z.cfg.chunks
    ensures pc[i].c !in finished
    ensures ProgressOk(z, pc[i := Turn(z, pc[i].c + z.stride)], finished + {pc[i].c})
  {
    assert NextInLane(z.lane, z.stride, pc[i].c);
  }

  /** A CTA that stays at its chunk. */
  lemma SameProgress(z: Setup, pc: seq<Pc>, finished: set<nat>, i: nat, x: Pc)
    requires ProgressOk(z, pc, finished) && i < |pc| && x.c == pc[i].c
    ensures ProgressOk(z, pc[i := x], finished)
  {
  }

  lemma SameChunk(z: Setup, s: State, s': State, i: nat, w: Work)
    requires Shaped(z, s) && CtaStep(z, s, s', i, w) && !s.pc[i].Count?
    ensures |s'.pc| == |s.pc| && s'.pc[i].c == s.pc[i].c && s'.pc == s.pc[i := s'.pc[i]]
    ensures s'.sh.res.finished == s.sh.res.finished
  {
  }

  lemma CtaProgress(z: Setup, s: State, s': State, i: nat, w: Work)
    requires SetupOk(z) && Shaped(z, s) && ProgressOk(z, s.pc, s.sh.res.finished) && CtaStep(z, s, s', i, w)
    requires s.pc[i].Count? ==> s.pc[i].c < z.cfg.chunks
    ensures ProgressOk(z, s'.pc, s'.sh.res.finished)
  {
    if s.pc[i].Count? {
      TurnProgress(z, s.pc, s.sh.res.finished, i);
    } else {
      SameChunk(z, s, s', i, w);
      SameProgress(z, s.pc, s.sh.res.finished, i, s'.pc[i]);
    }
  }

  lemma CtaRes(z: Setup, s: State, s': State, i: nat, w: Work)
    requires Shaped(z, s) && ResOk(z, s.sh.res) && CtaStep(z, s, s', i, w) && PcOk(z, s.sh, s.pc[i])
    requires s.pc[i].Count? || s.pc[i].Out? ==> s.pc[i].c !in s.sh.res.finished
    ensures Shaped(z, s') && ResOk(z, s'.sh.res) && s'.drains == s.drains
  {
  }

  lemma CtaInv(z: Setup, s: State, s': State, i: nat, w: Work)
    requires Inv(z, s) && CtaStep(z, s, s', i, w)
    ensures Inv(z, s')
  {
    assert PcOk(z, s.sh, s.pc[i]);
    assert s.pc[i].c !in s.sh.res.finished;
    CtaFrame(z, s, s', i, w);
    CtaPcs(z, s, s', i, w);
    CtaProgress(z, s, s', i, w);
    CtaRes(z, s, s', i, w);
  }

  /** Flags are only ever raised. */
  ghost predicate FlagsGrow(f: Claim.Flags, f': Claim.Flags) {
    f.landed <= f'.landed && f.mask <= f'.mask && f.arrived <= f'.arrived && f.localDone <= f'.localDone
  }

  lemma FlagKeeps(z: Setup, h: Shared, b: Inbox, f': Claim.Flags, p: Pc)
    requires |h.res.out| == z.cfg.chunks && PcOk(z, h, p) && FlagsGrow(h.flags, f')
    ensures PcOk(z, h.(inbox := b, flags := f'), p)
  {
  }

  lemma DrainsMeanFlags(z: Setup, v: Claim.State)
    requires Claim.Inv(z.cfg, v)
    ensures FlagsOk(z, v.sh.flags)
  {
    forall c | c in v.sh.flags.arrived
      ensures AllPeers(z, v.sh.flags.mask, c)
    {
      CountFull(v.sh.flags.mask, c, z.cfg.peers);
    }
  }

  /** A step of the drains or from outside. */
  lemma DrainsInv(z: Setup, s: State, v: Claim.State)
    requires Inv(z, s) && Claim.Good(z.cfg, v) && v == View(z, WithDrains(s, v)) && |v.pc| == |s.pc|
    requires FlagsGrow(s.sh.flags, v.sh.flags) && forall i :: 0 <= i < |v.pc| ==> OnlyDrains(v.pc[i])
    ensures Inv(z, WithDrains(s, v))
  {
    var s' := WithDrains(s, v);
    DrainsMeanFlags(z, v);
    forall i | 0 <= i < |s.pc|
      ensures PcOk(z, s'.sh, s.pc[i])
    {
      FlagKeeps(z, s.sh, v.sh.inbox, v.sh.flags, s.pc[i]);
    }
  }

  /** What a drain step leaves alone. */
  lemma DrainFrame(cfg: Claim.Cfg, v: Claim.State, i: nat, q: nat)
    requires i < |v.pc| && Claim.Shaped(cfg, v.sh) && OnlyDrains(v.pc[i])
    ensures var v' := Claim.Step(cfg, v, i, Claim.Drain(q));
            && v' == Claim.State(v.pc[i := v'.pc[i]], v.sh.(inbox := v'.sh.inbox, flags := v'.sh.flags))
            && OnlyDrains(v'.pc[i]) && FlagsGrow(v.sh.flags, v'.sh.flags)
  {
  }

  lemma DrainInv(z: Setup, s: State, s': State, i: nat, q: nat)
    requires Inv(z, s) && DrainStep(z, s, s', i, q)
    ensures Inv(z, s')
  {
    var v := View(z, s);
    DrainFrame(z.cfg, v, i, q);
    Claim.StepGood(z.cfg, v, i, Claim.Drain(q));
    DrainsInv(z, s, Claim.Step(z.cfg, v, i, Claim.Drain(q)));
  }

  lemma OutsideInv(z: Setup, s: State, s': State, v: Claim.State)
    requires Inv(z, s) && OutsideStep(z, s, s', v)
    ensures Inv(z, s')
  {
    Claim.OutsideGood(z.cfg, View(z, s), v);
    assert v.pc == s.drains && v.sh.rq == View(z, s).sh.rq && v.sh.res == View(z, s).sh.res;
    DrainsInv(z, s, v);
  }

  lemma NextInv(z: Setup, s: State, s': State)
    requires Inv(z, s) && Next(z, s, s')
    ensures Inv(z, s')
  {
    if i, w :| CtaStep(z, s, s', i, w) {
      CtaInv(z, s, s', i, w);
    } else if i: nat, q: nat :| DrainStep(z, s, s', i, q) {
      DrainInv(z, s, s', i, q);
    } else {
      var v :| OutsideStep(z, s, s', v);
      OutsideInv(z, s, s', v);
    }
  }

  // ----- whole runs

  ghost predicate IsRun(z: Setup, run: seq<State>) {
    && |run| > 0
    && Init(z, run[0])
    && forall n :: 0 <= n < |run| - 1 ==> Next(z, run[n], run[n + 1])
  }

  lemma {:induction false} LaneAtMost(lane: nat -> nat, n: nat, t: nat)
    requires Strides(lane, n)
    ensures lane(t) <= t
  {
    if t < n {
    } else {
      LaneAtMost(lane, n, t - n);
      assert NextInLane(lane, n, t - n);
    }
  }

  lemma InitInv(z: Setup, s: State)
    requires Init(z, s)
    ensures Inv(z, s)
  {
    Claim.InitGood(z.cfg, View(z, s));
    DrainsMeanFlags(z, View(z, s));
    forall c | 0 <= c < z.cfg.chunks
      ensures z.lane(c) <= c
    {
      LaneAtMost(z.lane, z.stride, c);
    }
  }

  lemma {:induction false} RunInv(z: Setup, run: seq<State>, n: nat)
    requires IsRun(z, run) && n < |run|
    ensures Inv(z, run[n])
  {
    if n == 0 {
      InitInv(z, run[0]);
    } else {
      RunInv(z, run, n - 1);
      assert Next(z, run[n - 1], run[n - 1 + 1]);
      NextInv(z, run[n - 1], run[n]);
    }
  }

  // ----- main results

  /** A chunk is written out by its owner only, once, when its local result is done and every
      peer's payload has landed.
   */
  lemma PublishedAtMostOnce(z: Setup, run: seq<State>, n: nat, i: nat)
    requires IsRun(z, run) && n < |run| && i < |run[n].pc| && run[n].pc[i].Out?
    ensures var s, c := run[n], run[n].pc[i].c;
            && c < z.cfg.chunks && z.lane(c) == i && c !in s.sh.res.finished
            && c in s.sh.flags.localDone && AllPeers(z, s.sh.flags.landed, c)
  {
    RunInv(z, run, n);
    assert PcOk(z, run[n].sh, run[n].pc[i]);
  }

  /** `published_chunks` counts distinct chunks; each holds the local value plus every peer's. */
  lemma PublishedIsFull(z: Setup, run: seq<State>, n: nat)
    requires IsRun(z, run) && n < |run|
    ensures var r := run[n].sh.res;
            && r.published == |r.finished| <= z.cfg.chunks == |r.out|
            && forall c :: c in r.finished ==> c < z.cfg.chunks && r.out[c] == Claim.Full(z.cfg, c)
  {
    RunInv(z, run, n);
    BelowSize(z.cfg.chunks);
    SubsetSize(run[n].sh.res.finished, Below(z.cfg.chunks));
  }

  /** A CTA that has left the final wait knows every chunk to be published, by whomever. */
  lemma ExitMeansDone(z: Setup, run: seq<State>, n: nat, i: nat)
    requires IsRun(z, run) && n < |run| && i < |run[n].pc| && run[n].pc[i].Exited?
    ensures run[n].sh.res.finished == Below(z.cfg.chunks) && |run[n].sh.res.out| == z.cfg.chunks
    ensures forall c :: 0 <= c < z.cfg.chunks ==> run[n].sh.res.out[c] == Claim.Full(z.cfg, c)
  {
    RunInv(z, run, n);
    assert PcOk(z, run[n].sh, run[n].pc[i]);
    BelowSize(z.cfg.chunks);
    SubsetSize(run[n].sh.res.finished, Below(z.cfg.chunks));
  }

  lemma AllWalked(z: Setup, s: State)
    requires Inv(z, s) && forall i :: 0 <= i < |s.pc| ==> s.pc[i].Tail? || s.pc[i].Exited?
    ensures s.sh.res.finished == Below(z.cfg.chunks)
  {
    forall c: nat | c < z.cfg.chunks
      ensures c in s.sh.res.finished
    {
      assert PcOk(z, s.sh, s.pc[z.lane(c)]);
    }
  }

  /** When every CTA has worked through its chunks, the final wait ends. */
  lemma TailEnds(z: Setup, run: seq<State>, n: nat)
    requires IsRun(z, run) && n < |run|
    requires forall i :: 0 <= i < |run[n].pc| ==> run[n].pc[i].Tail? || run[n].pc[i].Exited?
    ensures run[n].sh.res.published == z.cfg.chunks
  {
    RunInv(z, run, n);
    BelowSize(z.cfg.chunks);
    AllWalked(z, run[n]);
  }

  // ----- end to end

  /** A CTA finds nothing to do at its chunk. */
  ghost predicate Waits(z: Setup, f: Claim.Flags, pc: Pc) {
    match pc
    case Wait(c) => c !in f.arrived || c !in f.localDone
    case Early(c, done) => MaskOf(f, c) <= done && (c !in f.localDone || !AllPeers(z, done, c))
    case Tail(_) => true
    case Exited(_) => true
    case _ => false
  }

  /** The CTAs have run dry: the queues are drained and everybody waits. */
  ghost predicate Quiet(z: Setup, s: State) {
    && Dry(s.sh.inbox) && |s.drains| == |s.pc|
    && forall i :: 0 <= i < |s.pc| ==> s.drains[i] == Claim.Idle && Waits(z, s.sh.flags, s.pc[i])
  }

  /** Words that have landed are marked by then, and their chunks flagged. */
  lemma DryMeansArrived(z: Setup, s: State, c: nat)
    requires DrainsOk(z, s) && Dry(s.sh.inbox) && forall i :: 0 <= i < |s.drains| ==> s.drains[i] == Claim.Idle
    requires forall p :: 0 <= p < z.cfg.peers ==> Landed(s.sh.inbox, z.cfg.decode, Work(p, c))
    ensures c in s.sh.flags.arrived && AllPeers(z, s.sh.flags.mask, c)
  {
    var v := View(z, s);
    forall p | 0 <= p < z.cfg.peers
      ensures Work(p, c) in s.sh.flags.mask
    {
      DryMeansPast(s.sh.inbox, z.cfg.decode, Work(p, c));
      assert !Claim.InHand(v.pc, Work(p, c));
    }
    CountFull(s.sh.flags.mask, c, z.cfg.peers);
    assert !Claim.Held(v.pc, Claim.Raise(c));
  }

  lemma NobodyWaitsForever(z: Setup, s: State, i: nat)
    requires Inv(z, s) && Quiet(z, s) && i < |s.pc|
    requires forall c :: 0 <= c < z.cfg.chunks ==> c in s.sh.flags.localDone
    requires forall p: nat, c: nat :: p < z.cfg.peers && c < z.cfg.chunks ==> Landed(s.sh.inbox, z.cfg.decode, Work(p, c))
    ensures s.pc[i].Tail? || s.pc[i].Exited?
  {
    assert PcOk(z, s.sh, s.pc[i]);
    if s.pc[i].Wait? || s.pc[i].Early? {
      DryMeansArrived(z, s, s.pc[i].c);
    }
  }

  /** When all local results are done, all words have landed with no hole before them and the
      CTAs have run dry, every chunk has been published with its complete sum.
   */
  lemma QuietMeansDone(z: Setup, run: seq<State>, n: nat)
    requires IsRun(z, run) && n < |run| && Quiet(z, run[n])
    requires forall c :: 0 <= c < z.cfg.chunks ==> c in run[n].sh.flags.localDone
    requires forall p: nat, c: nat :: p < z.cfg.peers && c < z.cfg.chunks ==> Landed(run[n].sh.inbox, z.cfg.decode, Work(p, c))
    ensures run[n].sh.res.published == z.cfg.chunks == |run[n].sh.res.out|
    ensures forall c :: 0 <= c < z.cfg.chunks ==> run[n].sh.res.out[c] == Claim.Full(z.cfg, c)
  {
    RunInv(z, run, n);
    forall i | 0 <= i < |run[n].pc|
      ensures run[n].pc[i].Tail? || run[n].pc[i].Exited?
    {
      NobodyWaitsForever(z, run[n], i);
    }
    TailEnds(z, run, n);
    AllWalked(z, run[n]);
    PublishedIsFull(z, run, n);
  }

  /** The kernel's stride: chunk `c` belongs to CTA c % stride. */
  lemma StrideSetupOk(cfg: Claim.Cfg, stride: nat, early: bool)
    requires Claim.CfgOk(cfg) && stride > 0 && cfg.drainers == stride
    ensures SetupOk(Setup(cfg, stride, (c: nat) => c % stride, early))
  {
    ModStrides(stride);
    var lane := (c: nat) => c % stride;
    assert Strides(lane, stride);
  }
}
