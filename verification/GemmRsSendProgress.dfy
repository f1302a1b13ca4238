/** That the hand-over of gemm_rs comes to an end: from every state of every run the compute CTAs
    can count all their tiles, and then the send CTAs can post all chunks and leave their loops.
 */
module GemmRsSendProgress {
  import opened Arith
  import opened GemmRsSend
  import opened GemmRsLayout

  function Last(run: seq<State>): State
    requires |run| > 0
  {
    run[|run| - 1]
  }

  lemma ExtendRun(p: Plan, run: seq<State>, s': State)
    requires IsRun(p, run) && Next(p, Last(run), s')
    ensures IsRun(p, run + [s'])
  {
    var longer := run + [s'];
    forall n | 0 <= n < |longer| - 1
      ensures Next(p, longer[n], longer[n + 1])
    {
      if n < |run| - 1 {
        assert Next(p, run[n], run[n + 1]);
      }
    }
  }

  // ----- computing

  /** A compute CTA is through with its tasks, */
  predicate Through(p: Plan, pc: CompPc) {
    pc.Tile? && pc.next >= p.tasks
  }

  /** and all are. */
  ghost predicate Computed(p: Plan, k: Work) {
    forall a {:trigger k.comp[a]} :: a in k.comp ==> Through(p, k.comp[a])
  }

  ghost function Pairs(devices: nat, n: nat): set<At> {
    set d, i | d in Below(devices) && i in Below(n) :: At(d, i)
  }

  // What is left: tiles to count, counts to pass on, bits to raise.

  ghost function TilesLeft(p: Plan, s: State): nat { |Pairs(p.devices, p.tasks) - s.work.counted| }

  ghost function SignalsLeft(p: Plan, s: State): nat { |Pairs(p.devices, p.chunks) - s.work.signalled| }

  ghost function BitsLeft(p: Plan, s: State): nat { |Below(p.chunks) - s.board.raised| }

  lemma OneLess<T>(all: set<T>, some: set<T>, x: T)
    requires x in all && x !in some
    ensures |all - (some + {x})| < |all - some|
  {
    assert all - (some + {x}) == (all - some) - {x};
  }

  /** Less is left. */
  ghost predicate Fewer(p: Plan, s: State, s': State) {
    if TilesLeft(p, s') != TilesLeft(p, s) then TilesLeft(p, s') < TilesLeft(p, s)
    else if SignalsLeft(p, s') != SignalsLeft(p, s) then SignalsLeft(p, s') < SignalsLeft(p, s)
    else BitsLeft(p, s') < BitsLeft(p, s)
  }

  lemma TileCounts(p: Plan, s: State, s': State, a: At)
    requires WorkOk(p, s.work) && Strides(p.lane, p.ctas) && CompStep(p, s, s', a) && s.work.comp[a].Tile?
    ensures TilesLeft(p, s') < TilesLeft(p, s)
  {
    var t := s.work.comp[a].next;
    assert a.dev < p.devices && p.lane(t) == a.id;
    OneLess(Pairs(p.devices, p.tasks), s.work.counted, At(a.dev, t));
  }

  lemma SignalCounts(p: Plan, s: State, s': State, a: At)
    requires WorkOk(p, s.work) && CompStep(p, s, s', a) && s.work.comp[a].Signal?
    ensures TilesLeft(p, s') == TilesLeft(p, s) && SignalsLeft(p, s') < SignalsLeft(p, s)
  {
    var k := At(a.dev, s.work.comp[a].c);
    assert k in s.work.done;
    OneLess(Pairs(p.devices, p.chunks), s.work.signalled, k);
  }

  lemma RaiseCounts(p: Plan, s: State, s': State, a: At)
    requires OwnerShape(p, s.owner) && RaiseOk(p, s.work.comp, s.owner.ready, s.board.raised)
    requires CompStep(p, s, s', a) && s.work.comp[a].Raise?
    ensures TilesLeft(p, s') == TilesLeft(p, s) && SignalsLeft(p, s') == SignalsLeft(p, s) && BitsLeft(p, s') < BitsLeft(p, s)
  {
    OneLess(Below(p.chunks), s.board.raised, s.work.comp[a].c);
  }

  /** Every step of a compute CTA, at every state of every run, is a step towards the end. */
  lemma CompCounts(p: Plan, run: seq<State>, s': State, a: At)
    requires IsRun(p, run) && CompStep(p, Last(run), s', a)
    ensures s'.out == Last(run).out && Fewer(p, Last(run), s')
  {
    var s := Last(run);
    RunGood(p, run, |run| - 1);
    match s.work.comp[a] {
      case Tile(_) => TileCounts(p, s, s', a);
      case Signal(_, _) => SignalCounts(p, s, s', a);
      case Raise(_, _) => RaiseCounts(p, s, s', a);
    }
  }

  /** A compute CTA that is not through has a next step. */
  lemma CompCanMove(p: Plan, run: seq<State>, a: At) returns (s': State)
    requires IsRun(p, run) && a in Last(run).work.comp && !Through(p, Last(run).work.comp[a])
    ensures CompStep(p, Last(run), s', a)
  {
    var s := Last(run);
    RunGood(p, run, |run| - 1);
    match s.work.comp[a] {
      case Tile(t) =>
        assert At(a.dev, p.chunkOf(a.dev, t)) in s.work.done;
        s' := s.(work := CountTile(p, s.work, a));
      case Signal(_, c) =>
        s' := s.(work := Signalled(s.work, a, s.owner.ready[c] + 1 == p.devices), owner := CountDevice(s.owner, c));
      case Raise(_, c) =>
        s' := s.(work := Raised(s.work, a), board := SetBit(p, s.board, c));
    }
  }

  lemma ComputeOne(p: Plan, run: seq<State>, a: At) returns (run': seq<State>)
    requires IsRun(p, run) && a in Last(run).work.comp && !Through(p, Last(run).work.comp[a])
    ensures IsRun(p, run') && run <= run' && Fewer(p, Last(run), Last(run'))
  {
    var s' := CompCanMove(p, run, a);
    CompCounts(p, run, s', a);
    ExtendRun(p, run, s');
    run' := run + [s'];
  }

  /** So the compute CTAs can always get through. */
  lemma CanCompute(p: Plan, run: seq<State>) returns (run': seq<State>)
    requires IsRun(p, run)
    ensures IsRun(p, run') && run <= run' && Computed(p, Last(run').work)
    decreases TilesLeft(p, Last(run)), SignalsLeft(p, Last(run)), BitsLeft(p, Last(run))
  {
    var s := Last(run);
    if a :| a in s.work.comp && !Through(p, s.work.comp[a]) {
      var more := ComputeOne(p, run, a);
      run' := CanCompute(p, more);
    } else {
      run' := run;
    }
  }

  // ----- sending

  /** A send CTA in its loop is short of its quota. */
  ghost predicate Short(p: Plan, o: Out) {
    forall a {:trigger o.send[a]} :: a in o.send && a in o.posted && !o.send[a].Top? && !o.send[a].Finished? ==> o.posted[a] < p.quota(a.id)
  }

  lemma NextShort(p: Plan, s: State, s': State)
    requires Short(p, s.out) && Next(p, s, s')
    ensures Short(p, s'.out)
  {
    var a :| CompStep(p, s, s', a) || SendStep(p, s, s', a);
    if SendStep(p, s, s', a) && s.out.send[a].Try? {
      var n :| ClaimStep(p, s, s', a, n);
    }
  }

  lemma {:induction false} RunShort(p: Plan, run: seq<State>, n: nat)
    requires IsRun(p, run) && n < |run|
    ensures Short(p, run[n].out)
  {
    if n == 0 {
    } else {
      RunShort(p, run, n - 1);
      assert Next(p, run[n - 1], run[n - 1 + 1]);
      NextShort(p, run[n - 1], run[n]);
    }
  }

  /** How far a scan at word `w` of `words` is from word `target`. */
  function Distance(w: nat, words: nat, target: nat): nat {
    if w <= target then target - w else if w < words then words - w + 1 + target else 1 + target
  }

  /** How many steps it takes at most until a bit is claimed, if word `target` has one. */
  ghost function ScanRank(p: Plan, s: State, a: At, target: nat): nat
    requires a in s.out.send
  {
    match s.out.send[a]
    case Scan(w) => 3 + Distance(w, p.words, target)
    case Try(w, seen) =>
      var x := Word(a.dev, a.id, w);
      if x !in s.board.bits || s.board.bits[x] == seen then 1
      else if s.board.bits[x] != {} then 2
      else 6 + p.words + target
    case _ => 0
  }

  /** Send CTA `a` is scanning, and its word `target` has a bit set. */
  ghost predicate Scanning(p: Plan, s: State, a: At, target: nat) {
    && a in s.out.send && (s.out.send[a].Scan? || s.out.send[a].Try?)
    && target < p.words && Word(a.dev, a.id, target) in s.board.bits && s.board.bits[Word(a.dev, a.id, target)] != {}
  }

  /** Nothing but the scan of `a` has moved. */
  ghost predicate OnlyScanned(s: State, s': State, a: At) {
    && s'.work == s.work && s'.out.sent == s.out.sent && s'.out.posted == s.out.posted
    && a in s'.out.send && s'.out.send == s.out.send[a := s'.out.send[a]]
  }

  /** A step of the scan comes closer to a bit, or claims one within the quota. */
  lemma ScanStepLowers(p: Plan, s: State, s': State, a: At, target: nat)
    requires BoardOk(p, s.board) && Scanning(p, s, a, target) && SendStep(p, s, s', a)
    ensures OnlyScanned(s, s', a)
    ensures s'.out.send[a].Post? || (s'.board == s.board && Scanning(p, s', a, target) && ScanRank(p, s', a, target) < ScanRank(p, s, a, target))
  {
    if s.out.send[a].Try? {
      var n :| ClaimStep(p, s, s', a, n);
      var x := Word(a.dev, a.id, s.out.send[a].w);
      if s.board.bits[x] == s.out.send[a].seen {
        assert ValidPlace(p, Place(x, n));
      }
    }
  }

  lemma SenderStep(p: Plan, run: seq<State>, a: At) returns (run': seq<State>)
    requires IsRun(p, run) && a in Last(run).out.send && !Last(run).out.send[a].Finished?
    ensures IsRun(p, run') && run <= run' && SendStep(p, Last(run), Last(run'), a)
  {
    SenderCanMove(p, run, |run| - 1, a);
    var s' :| SendStep(p, Last(run), s', a);
    ExtendRun(p, run, s');
    run' := run + [s'];
  }

  lemma LastBoard(p: Plan, run: seq<State>)
    requires IsRun(p, run)
    ensures BoardOk(p, Last(run).board)
  {
    RunGood(p, run, |run| - 1);
  }

  /** Undisturbed, a scan claims a bit. */
  lemma CanClaim(p: Plan, run: seq<State>, a: At, target: nat) returns (run': seq<State>)
    requires IsRun(p, run) && Scanning(p, Last(run), a, target)
    ensures IsRun(p, run') && run <= run' && OnlyScanned(Last(run), Last(run'), a) && Last(run').out.send[a].Post?
    decreases ScanRank(p, Last(run), a, target)
  {
    LastBoard(p, run);
    run' := SenderStep(p, run, a);
    ScanStepLowers(p, Last(run), Last(run'), a, target);
    if !Last(run').out.send[a].Post? {
      run' := CanClaim(p, run', a, target);
    }
  }

  // What is left: chunks to send, and send CTAs still in their loops.

  ghost function ChunksLeft(p: Plan, s: State): nat { |Below(p.chunks) - s.out.sent| }

  ghost function Staying(o: Out): set<At> { set a | a in o.send && !o.send[a].Finished? }

  lemma PostLowers(p: Plan, run: seq<State>, run': seq<State>, a: At)
    requires IsRun(p, run) && IsRun(p, run') && SendStep(p, Last(run), Last(run'), a) && Last(run).out.send[a].Post?
    ensures Last(run').work == Last(run).work && ChunksLeft(p, Last(run')) < ChunksLeft(p, Last(run))
  {
    var s := Last(run);
    RunGood(p, run, |run| - 1);
    OneLess(Below(p.chunks), s.out.sent, p.chunkAt(s.out.send[a].place));
  }

  lemma FinishLowers(p: Plan, s: State, s': State, a: At)
    requires SendStep(p, s, s', a) && s.out.send[a].Top? && s'.out.send[a].Finished?
    ensures s'.work == s.work && s'.out.sent == s.out.sent && |Staying(s'.out)| < |Staying(s.out)|
  {
    assert Staying(s'.out) == Staying(s.out) - {a};
  }

  /** A send CTA that scans while all tiles are counted finds a bit of its own. */
  lemma FindsTarget(p: Plan, run: seq<State>, a: At) returns (target: nat)
    requires IsRun(p, run) && Computed(p, Last(run).work) && a in Last(run).out.send
    requires Last(run).out.send[a].Scan? || Last(run).out.send[a].Try?
    ensures Scanning(p, Last(run), a, target)
  {
    var n := |run| - 1;
    RunGood(p, run, n);
    RunShort(p, run, n);
    assert a in Last(run).out.posted;
    var c := SenderFindsWork(p, run, n, a);
    target := p.place(c).word.w;
    assert p.place(c).word == Word(a.dev, a.id, target);
  }

  /** A send CTA gets to post a chunk or to leave. */
  lemma SendOne(p: Plan, run: seq<State>, a: At) returns (run': seq<State>)
    requires IsRun(p, run) && Computed(p, Last(run).work) && a in Last(run).out.send && !Last(run).out.send[a].Finished?
    ensures IsRun(p, run') && run <= run' && Computed(p, Last(run').work)
    ensures || ChunksLeft(p, Last(run')) < ChunksLeft(p, Last(run))
            || (ChunksLeft(p, Last(run')) == ChunksLeft(p, Last(run)) && |Staying(Last(run').out)| < |Staying(Last(run).out)|)
  {
    run' := run;
    if Last(run').out.send[a].Top? {
      run' := SenderStep(p, run, a);
      if Last(run').out.send[a].Finished? {
        FinishLowers(p, Last(run), Last(run'), a);
        return;
      }
    }
    if !Last(run').out.send[a].Post? {
      var target := FindsTarget(p, run', a);
      run' := CanClaim(p, run', a, target);
    }
    var before := run';
    run' := SenderStep(p, before, a);
    PostLowers(p, before, run', a);
  }

  lemma CanSend(p: Plan, run: seq<State>) returns (run': seq<State>)
    requires IsRun(p, run) && Computed(p, Last(run).work)
    ensures IsRun(p, run') && run <= run' && Staying(Last(run').out) == {}
    decreases ChunksLeft(p, Last(run)), |Staying(Last(run).out)|
  {
    if a :| a in Staying(Last(run).out) {
      var more := SendOne(p, run, a);
      run' := CanSend(p, more);
    } else {
      run' := run;
    }
  }

  // ----- main results

  /** From every state of every run some schedule lets every send CTA leave its loop, having
      posted its queue: no interleaving leads to a dead end.
   */
  lemma CanFinish(p: Plan, run: seq<State>) returns (run': seq<State>)
    requires IsRun(p, run)
    ensures IsRun(p, run') && run <= run'
    ensures forall a {:trigger Last(run').out.send[a]} :: a in Last(run').out.send ==>
              Last(run').out.send[a].Finished? && SentFrom(p, Last(run').out.sent, a) == QueueOf(p, a)
  {
    var computed := CanCompute(p, run);
    run' := CanSend(p, computed);
    forall a {:trigger Last(run').out.send[a]} | a in Last(run').out.send
      ensures Last(run').out.send[a].Finished? && SentFrom(p, Last(run').out.sent, a) == QueueOf(p, a)
    {
      assert a !in Staying(Last(run').out);
      FinishedMeansAllSent(p, run', |run'| - 1, a);
    }
  }

  /** For every grid of gemm_rs: every chunk of every device can be posted. */
  lemma GridCanFinish(g: Grid, run: seq<State>) returns (run': seq<State>)
    requires GridOk(g) && PerRow(g) > 0 && IsRun(GridPlan(g), run)
    ensures IsRun(GridPlan(g), run') && run <= run'
    ensures Last(run').out.sent == Below(g.devices * g.rows * PerRow(g))
  {
    run' := CanFinish(GridPlan(g), run);
    var o := Last(run').out;
    assert forall a {:trigger o.send[a]} :: a in o.send ==> o.send[a].Finished?;
    AllPosted(g, run', |run'| - 1);
  }
}
