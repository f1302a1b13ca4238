/** The row-block counters of dispatch_gemm: copy workers publish a ready flag for each chunk
    that has arrived, dispatch workers wait for the flags of a slice, move it and add its
    tokens, GEMM workers wait until a row block's counter is exactly 128, and the last CTA to
    finish clears the counters for the next launch.
 */
module DispatchCounters {
  import opened Arith
  import opened DispatchWalk
  import opened DispatchGates
  import SendLayout

  const TOKENS_PER_BLOCK := 16
  const SLICES := 8  // per row block

  /** `dispatch` and `gemm` are the workers' walks, over slices and over output tiles of
      `cols` per row block, and `copies` those of the node's copy workers over the ready flags.
      Slice x waits for the flags f with gate(x, f).  `others` CTAs of the launch only send
      and copy.
   */
  datatype Plan = Plan(blocks: nat, cols: nat, dispatch: seq<seq<nat>>, gemm: seq<seq<nat>>, others: nat,
                       copies: seq<seq<nat>>, flags: nat, gate: (nat, nat) -> bool)

  ghost predicate PlanOk(p: Plan) {
    && p.cols > 0
    && OnceEach(p.dispatch, Pair(p.blocks, SLICES, 0))
    && OnceEach(p.gemm, Pair(p.blocks, p.cols, 0))
    && OnceEach(p.copies, p.flags)
    && (forall x: nat, f: nat :: p.gate(x, f) ==> f < p.flags)
  }

  function Ctas(p: Plan): nat { |p.dispatch| + |p.gemm| + p.others }

  /** Slice `x` holds a row that is gated on flag `f`. */
  ghost predicate SliceGate(z: Rows, me: nat, sources: seq<Source>, x: nat, f: nat)
    requires RowsOk(z)
  {
    exists i :: 0 <= i < |sources| && i / TOKENS_PER_BLOCK == x && Gates(z, me, sources[i], f)
  }

  /** A launch: the experts, the numbers of CTAs, and where the rows come from. */
  datatype Launch = Launch(es: seq<Expert>, cols: nat, dispatchers: nat, computers: nat, others: nat, copiers: nat,
                           rows: Rows, me: nat, sources: seq<Source>)

  ghost predicate LaunchOk(k: Launch) {
    ExpertsOk(k.es) && k.cols > 0 && k.dispatchers > 0 && k.computers > 0 && k.copiers > 0 && RowsOk(k.rows)
  }

  /** Its plan: two-pass walks over the experts, gates by the rows' sources. */
  ghost function PlanOf(k: Launch): Plan
    requires LaunchOk(k)
  {
    var flags := FlagsOf(k.rows);
    Plan(StartOf(k.es, |k.es|), k.cols, AllWalks(k.es, SLICES, k.dispatchers), AllWalks(k.es, k.cols, k.computers), k.others,
         CopyWalks(flags, k.copiers), FlagCount(flags), (x: nat, f: nat) => SliceGate(k.rows, k.me, k.sources, x, f))
  }

  lemma WalksMakePlan(k: Launch)
    requires LaunchOk(k)
    ensures PlanOk(PlanOf(k))
  {
    WalksCoverAll(k.es, SLICES, k.dispatchers);
    WalksCoverAll(k.es, k.cols, k.computers);
    CopiesCoverAll(FlagsOf(k.rows), k.copiers);
    forall x: nat, f: nat | SliceGate(k.rows, k.me, k.sources, x, f)
      ensures f < FlagCount(FlagsOf(k.rows))
    {
      var i :| 0 <= i < |k.sources| && i / TOKENS_PER_BLOCK == x && Gates(k.rows, k.me, k.sources[i], f);
      GateBelow(k.rows, k.me, k.sources[i], f);
    }
  }

  // ----- states

  /** `dpos`, `gpos` and `cpos` say how far each worker has come in its walk; `handled` records
      the slices whose tokens have been added, `arrived` and `ready` the flags set by the
      network and by the copy workers; `over` is set by the last CTA, and `cleared` are the row
      blocks it has cleared since.
   */
  datatype State = State(dpos: seq<nat>, gpos: seq<nat>, cpos: seq<nat>, count: seq<nat>, handled: set<nat>,
                         arrived: set<nat>, ready: set<nat>, finished: set<nat>, cleanup: nat, over: bool,
                         cleared: set<nat>)

  ghost predicate Shaped(p: Plan, s: State) {
    && |s.dpos| == |p.dispatch| && |s.gpos| == |p.gemm| && |s.cpos| == |p.copies| && |s.count| == p.blocks
    && (forall i :: 0 <= i < |s.dpos| ==> s.dpos[i] <= |p.dispatch[i]|)
    && (forall j :: 0 <= j < |s.gpos| ==> s.gpos[j] <= |p.gemm[j]|)
    && (forall i :: 0 <= i < |s.cpos| ==> s.cpos[i] <= |p.copies[i]|)
  }

  /** The rows of a slice that exist; all of them, since row blocks are padded. */
  function TokensOf(p: Plan, x: nat): nat {
    var rows := Pair(p.blocks, ROW_BLOCK, 0);
    var first := Pair(x, TOKENS_PER_BLOCK, 0);
    if first >= rows then 0 else if rows - first < TOKENS_PER_BLOCK then rows - first else TOKENS_PER_BLOCK
  }

  /** The write of a chunk lands. */
  ghost predicate Arrive(p: Plan, s: State, s': State, f: nat) {
    f < p.flags && s' == s.(arrived := s.arrived + {f})
  }

  /** A copy worker sees its next flag set and publishes it. */
  ghost predicate Copy(p: Plan, s: State, s': State, i: nat)
    requires Shaped(p, s)
  {
    && i < |s.cpos| && s.cpos[i] < |p.copies[i]|
    && var f := p.copies[i][s.cpos[i]];
    && f in s.arrived
    && s' == s.(cpos := s.cpos[i := s.cpos[i] + 1], ready := s.ready + {f})
  }

  /** All flags that slice `x` waits for are set. */
  ghost predicate Open(p: Plan, ready: set<nat>, x: nat) {
    forall f: nat :: p.gate(x, f) ==> f in ready
  }

  /** A dispatch worker finds its next slice open and moves it. */
  ghost predicate Handle(p: Plan, s: State, s': State, i: nat)
    requires Shaped(p, s)
  {
    && i < |s.dpos| && s.dpos[i] < |p.dispatch[i]|
    && var x := p.dispatch[i][s.dpos[i]];
    && x / SLICES < p.blocks && Open(p, s.ready, x)
    && s' == s.(dpos := s.dpos[i := s.dpos[i] + 1], handled := s.handled + {x},
                count := s.count[x / SLICES := s.count[x / SLICES] + TokensOf(p, x)])
  }

  /** The row block a GEMM worker needs next. */
  function Needs(p: Plan, s: State, j: nat): nat
    requires p.cols > 0 && j < |s.gpos| == |p.gemm| && s.gpos[j] < |p.gemm[j]|
  {
    p.gemm[j][s.gpos[j]] / p.cols
  }

  /** A GEMM worker finds the counter at 128 and computes its tile. */
  ghost predicate Compute(p: Plan, s: State, s': State, j: nat)
    requires Shaped(p, s) && p.cols > 0
  {
    && j < |s.gpos| && s.gpos[j] < |p.gemm[j]|
    && Needs(p, s, j) < p.blocks && s.count[Needs(p, s, j)] == ROW_BLOCK
    && s' == s.(gpos := s.gpos[j := s.gpos[j] + 1])
  }

  /** CTA `c` is through with its part. */
  predicate Through(p: Plan, dpos: seq<nat>, gpos: seq<nat>, c: nat) {
    && (c < |dpos| == |p.dispatch| ==> dpos[c] == |p.dispatch[c]|)
    && (|p.dispatch| <= c < |p.dispatch| + |p.gemm| && |gpos| == |p.gemm| ==>
          gpos[c - |p.dispatch|] == |p.gemm[c - |p.dispatch|]|)
  }

  /** It adds one to the cleanup counter; the last one starts clearing. */
  ghost predicate Finish(p: Plan, s: State, s': State, c: nat) {
    && c < Ctas(p) && c !in s.finished && Through(p, s.dpos, s.gpos, c)
    && var last := s.cleanup + 1 == Ctas(p);
    s' == s.(finished := s.finished + {c}, cleanup := if last then 0 else s.cleanup + 1, over := s.over || last)
  }

  ghost predicate Clear(s: State, s': State, b: nat) {
    s.over && b < |s.count| && s' == s.(count := s.count[b := 0], cleared := s.cleared + {b})
  }

  ghost predicate Next(p: Plan, s: State, s': State) {
    && Shaped(p, s) && p.cols > 0
    && (|| (exists f: nat :: Arrive(p, s, s', f))
        || (exists i: nat :: Copy(p, s, s', i))
        || (exists i: nat :: Handle(p, s, s', i))
        || (exists j: nat :: Compute(p, s, s', j))
        || (exists c: nat :: Finish(p, s, s', c))
        || (exists b: nat :: Clear(s, s', b)))
  }

  ghost predicate Init(p: Plan, s: State) {
    && PlanOk(p) && Shaped(p, s)
    && (forall i :: 0 <= i < |s.dpos| ==> s.dpos[i] == 0)
    && (forall j :: 0 <= j < |s.gpos| ==> s.gpos[j] == 0)
    && (forall i :: 0 <= i < |s.cpos| ==> s.cpos[i] == 0)
    && (forall b :: 0 <= b < |s.count| ==> s.count[b] == 0)
    && s.handled == {} && s.arrived == {} && s.ready == {} && s.finished == {} && s.cleanup == 0 && !s.over && s.cleared == {}
  }

  // ----- the invariant

  ghost function HandledIn(handled: set<nat>, b: nat): set<nat> {
    set x | x in handled && x / SLICES == b
  }

  /** The slices of row block `b`. */
  function SlicesOf(b: nat): (s: set<nat>)
    ensures forall x :: x in s <==> x >= 0 && x / SLICES == b
  {
    var n := SLICES * b;
    {n, n + 1, n + 2, n + 3, n + 4, n + 5, n + 6, n + 7}
  }

  ghost predicate CountOk(p: Plan, count: seq<nat>, handled: set<nat>)
    requires |count| == p.blocks
  {
    forall b :: 0 <= b < |count| ==> count[b] == TOKENS_PER_BLOCK * |HandledIn(handled, b)|
  }

  /** Exactly the slices that some walk has gone past are handled. */
  ghost predicate HandledOk(p: Plan, dpos: seq<nat>, handled: set<nat>)
    requires |dpos| == |p.dispatch|
  {
    && (forall i, k :: 0 <= i < |dpos| && 0 <= k < |p.dispatch[i]| ==> (p.dispatch[i][k] in handled <==> k < dpos[i]))
    && (forall x :: x in handled ==> x < Pair(p.blocks, SLICES, 0))
  }

  ghost predicate FinishedOk(p: Plan, s: State) {
    && (forall c :: c in s.finished ==> c < Ctas(p) && Through(p, s.dpos, s.gpos, c))
    && (if s.over then |s.finished| == Ctas(p) else s.cleanup == |s.finished| < Ctas(p))
  }

  /** Exactly the flags that some copy worker has gone past are ready, and only arrived ones. */
  ghost predicate ReadyOk(p: Plan, cpos: seq<nat>, arrived: set<nat>, ready: set<nat>)
    requires |cpos| == |p.copies|
  {
    && ready <= arrived
    && (forall i, k :: 0 <= i < |cpos| && 0 <= k < |p.copies[i]| ==> (p.copies[i][k] in ready <==> k < cpos[i]))
  }

  /** Slices are moved only when they are open. */
  ghost predicate OpenOk(p: Plan, handled: set<nat>, ready: set<nat>) {
    forall x :: x in handled ==> Open(p, ready, x)
  }

  /** The last CTA leaves the cleanup counter and what it has cleared at zero. */
  ghost predicate ClearedOk(s: State) {
    && (s.over ==> s.cleanup == 0)
    && (!s.over ==> s.cleared == {})
    && (forall b :: b in s.cleared ==> b < |s.count| && s.count[b] == 0)
  }

  ghost predicate Inv(p: Plan, s: State) {
    && PlanOk(p) && Shaped(p, s)
    && (!s.over ==> CountOk(p, s.count, s.handled))
    && (s.over ==> forall b :: 0 <= b < |s.count| ==> s.count[b] == 0 || s.count[b] == ROW_BLOCK)
    && HandledOk(p, s.dpos, s.handled)
    && ReadyOk(p, s.cpos, s.arrived, s.ready) && OpenOk(p, s.handled, s.ready)
    && FinishedOk(p, s)
    && ClearedOk(s)
  }

  lemma TokensFull(p: Plan, x: nat)
    requires x < Pair(p.blocks, SLICES, 0)
    ensures TokensOf(p, x) == TOKENS_PER_BLOCK && x / SLICES < p.blocks
  {
  }

  /** A row block never counts more than its 128 rows, and has all of them only when all of
      its slices have been handled.
   */
  lemma CountAtMost(handled: set<nat>, b: nat)
    ensures |HandledIn(handled, b)| <= SLICES
    ensures |HandledIn(handled, b)| == SLICES <==> forall x :: x in SlicesOf(b) ==> x in handled
  {
    var n := SLICES * b;
    assert |SlicesOf(b)| == SLICES;
    SubsetSize(HandledIn(handled, b), SlicesOf(b));
    if forall x :: x in SlicesOf(b) ==> x in handled {
      assert HandledIn(handled, b) == SlicesOf(b);
    }
  }

  lemma HandleCount(p: Plan, count: seq<nat>, handled: set<nat>, x: nat)
    requires |count| == p.blocks && CountOk(p, count, handled) && x !in handled && x < Pair(p.blocks, SLICES, 0)
    ensures x / SLICES < p.blocks
    ensures CountOk(p, count[x / SLICES := count[x / SLICES] + TokensOf(p, x)], handled + {x})
  {
    TokensFull(p, x);
    forall b | 0 <= b < |count|
      ensures HandledIn(handled + {x}, b) == HandledIn(handled, b) + if b == x / SLICES then {x} else {}
    {
    }
  }

  /** Once the last CTA has finished, every walk is complete. */
  lemma OverMeansThrough(p: Plan, s: State)
    requires Shaped(p, s) && FinishedOk(p, s) && s.over
    ensures forall c :: 0 <= c < Ctas(p) ==> Through(p, s.dpos, s.gpos, c)
  {
    BelowSize(Ctas(p));
    SubsetSize(s.finished, Below(Ctas(p)));
    forall c | 0 <= c < Ctas(p)
      ensures Through(p, s.dpos, s.gpos, c)
    {
      assert c in Below(Ctas(p));
    }
  }

  /** So while some CTA is not through, or has not finished, clearing has not begun. */
  lemma NotOver(p: Plan, s: State, c: nat)
    requires Shaped(p, s) && FinishedOk(p, s) && c < Ctas(p) && (!Through(p, s.dpos, s.gpos, c) || c !in s.finished)
    ensures !s.over
  {
    BelowSize(Ctas(p));
    SubsetSize(s.finished, Below(Ctas(p)));
  }

  lemma HandleInv(p: Plan, s: State, s': State, i: nat)
    requires Inv(p, s) && Handle(p, s, s', i)
    ensures Inv(p, s')
  {
    var x := p.dispatch[i][s.dpos[i]];
    assert !Through(p, s.dpos, s.gpos, i);
    NotOver(p, s, i);
    HandleCount(p, s.count, s.handled, x);
    assert HandledOk(p, s'.dpos, s'.handled);
    forall c | c in s'.finished
      ensures c < Ctas(p) && Through(p, s'.dpos, s'.gpos, c)
    {
      assert c != i;
    }
  }

  /** A step that leaves the walks of the launch alone leaves the finished CTAs through. */
  lemma SameFinished(p: Plan, s: State, s': State)
    requires FinishedOk(p, s) && s'.finished == s.finished && s'.cleanup == s.cleanup && s'.over == s.over
    requires s'.dpos == s.dpos && s'.gpos == s.gpos
    ensures FinishedOk(p, s')
  {
    forall c | c in s'.finished
      ensures c < Ctas(p) && Through(p, s'.dpos, s'.gpos, c)
    {
      assert Through(p, s.dpos, s.gpos, c);
    }
  }

  lemma CopyInv(p: Plan, s: State, s': State, i: nat)
    requires Inv(p, s) && Copy(p, s, s', i)
    ensures Inv(p, s')
  {
    assert ReadyOk(p, s'.cpos, s'.arrived, s'.ready);
    SameFinished(p, s, s');
  }

  lemma ComputeInv(p: Plan, s: State, s': State, j: nat)
    requires Inv(p, s) && Compute(p, s, s', j)
    ensures Inv(p, s')
  {
    assert !Through(p, s.dpos, s.gpos, |p.dispatch| + j);
    forall c | c in s'.finished
      ensures c < Ctas(p) && Through(p, s'.dpos, s'.gpos, c)
    {
      assert c != |p.dispatch| + j;
    }
  }

  /** When all dispatch walks are complete, every counter stands at exactly 128. */
  lemma AllCounted(p: Plan, s: State, b: nat)
    requires PlanOk(p) && Shaped(p, s) && CountOk(p, s.count, s.handled) && HandledOk(p, s.dpos, s.handled) && b < p.blocks
    requires forall i :: 0 <= i < |s.dpos| ==> s.dpos[i] == |p.dispatch[i]|
    ensures s.count[b] == ROW_BLOCK
  {
    forall x | x in SlicesOf(b)
      ensures x in s.handled
    {
      assert Somewhere(p.dispatch, x);
      var i, k :| 0 <= i < |p.dispatch| && 0 <= k < |p.dispatch[i]| && p.dispatch[i][k] == x;
    }
    CountAtMost(s.handled, b);
  }

  lemma FinishInv(p: Plan, s: State, s': State, c: nat)
    requires Inv(p, s) && Finish(p, s, s', c)
    ensures Inv(p, s')
  {
    NotOver(p, s, c);
    assert FinishedOk(p, s');
    if s'.over {
      OverMeansThrough(p, s');
      forall i | 0 <= i < |s.dpos|
        ensures s.dpos[i] == |p.dispatch[i]|
      {
        assert Through(p, s'.dpos, s'.gpos, i);
      }
      forall b | 0 <= b < |s.count|
        ensures s.count[b] == ROW_BLOCK
      {
        AllCounted(p, s, b);
      }
    }
  }

  lemma NextInv(p: Plan, s: State, s': State)
    requires Inv(p, s) && Next(p, s, s')
    ensures Inv(p, s')
  {
    if f: nat :| Arrive(p, s, s', f) {
      SameFinished(p, s, s');
    } else if i: nat :| Copy(p, s, s', i) {
      CopyInv(p, s, s', i);
    } else if i: nat :| Handle(p, s, s', i) {
      HandleInv(p, s, s', i);
    } else if j: nat :| Compute(p, s, s', j) {
      ComputeInv(p, s, s', j);
    } else if c: nat :| Finish(p, s, s', c) {
      FinishInv(p, s, s', c);
    } else {
      var b: nat :| Clear(s, s', b);
      SameFinished(p, s, s');
    }
  }

  ghost predicate IsRun(p: Plan, run: seq<State>) {
    && |run| > 0
    && Init(p, run[0])
    && forall n :: 0 <= n < |run| - 1 ==> Next(p, run[n], run[n + 1])
  }

  lemma {:induction false} RunInv(p: Plan, run: seq<State>, n: nat)
    requires IsRun(p, run) && n < |run|
    ensures Ctas(p) > 0 ==> Inv(p, run[n])
  {
    if Ctas(p) > 0 {
      if n == 0 {
        assert forall b :: HandledIn({}, b) == {};
      } else {
        RunInv(p, run, n - 1);
        assert Next(p, run[n - 1], run[n - 1 + 1]);
        NextInv(p, run[n - 1], run[n]);
      }
    }
  }

  // ----- main results

  /** A GEMM worker that has found 128 may read: all slices of its row block were moved, all
      chunks that they waited for have arrived, and the counters are not being cleared.
   */
  lemma WaitIsSound(p: Plan, run: seq<State>, n: nat, s': State, j: nat)
    requires IsRun(p, run) && n < |run| && Shaped(p, run[n]) && p.cols > 0 && Compute(p, run[n], s', j)
    ensures !run[n].over
    ensures forall x :: x in SlicesOf(Needs(p, run[n], j)) ==> x in run[n].handled
    ensures forall x, f: nat :: x in SlicesOf(Needs(p, run[n], j)) && p.gate(x, f) ==> f in run[n].arrived
  {
    RunInv(p, run, n);
    var s := run[n];
    assert !Through(p, s.dpos, s.gpos, |p.dispatch| + j);
    NotOver(p, s, |p.dispatch| + j);
    CountAtMost(s.handled, Needs(p, s, j));
  }

  /** No counter ever passes 128, so the wait for exactly 128 cannot miss it. */
  lemma NeverOvershoots(p: Plan, run: seq<State>, n: nat)
    requires IsRun(p, run) && n < |run| && Ctas(p) > 0
    ensures forall b :: 0 <= b < |run[n].count| ==> run[n].count[b] <= ROW_BLOCK
  {
    RunInv(p, run, n);
    var s := run[n];
    forall b | 0 <= b < |s.count|
      ensures s.count[b] <= ROW_BLOCK
    {
      CountAtMost(s.handled, b);
    }
  }

  /** Every byte of every remote row of the block it reads was written by a chunk that has
      arrived.
   */
  lemma RowsHaveArrived(k: Launch, run: seq<State>, n: nat, s': State, j: nat, row: nat, b: nat) returns (c: nat)
    requires LaunchOk(k) && row < |k.sources|
    requires var src := k.sources[row]; src.Remote? && SourceOk(k.rows, k.me, src) && Loads(k.rows, k.me, src, b)
    requires var p := PlanOf(k);
             && IsRun(p, run) && n < |run| && Shaped(p, run[n]) && Compute(p, run[n], s', j)
             && row / ROW_BLOCK == Needs(p, run[n], j)
    ensures SendLayout.Writes(LoadOf(k.rows), k.sources[row].node, k.me, c, b)
    ensures ArrivalOf(k.rows, k.me, k.sources[row], c) in run[n].arrived
  {
    var p, x := PlanOf(k), row / TOKENS_PER_BLOCK;
    c := GateCoversRow(k.rows, k.me, k.sources[row], b);
    WaitIsSound(p, run, n, s', j);
    assert SliceGate(k.rows, k.me, k.sources, x, ArrivalOf(k.rows, k.me, k.sources[row], c));
    assert x / SLICES == row / ROW_BLOCK;
    assert p.gate(x, ArrivalOf(k.rows, k.me, k.sources[row], c));
  }

  // ----- nobody waits for ever

  /** A worker goes on in its walk. */
  ghost predicate Progress(p: Plan, s: State, s': State)
    requires Shaped(p, s) && p.cols > 0
  {
    || (exists i: nat :: Copy(p, s, s', i))
    || (exists i: nat :: Handle(p, s, s', i))
    || (exists j: nat :: Compute(p, s, s', j))
  }

  /** All walks are complete. */
  ghost predicate AllWalked(p: Plan, s: State)
    requires Shaped(p, s)
  {
    && (forall i :: 0 <= i < |s.cpos| ==> s.cpos[i] == |p.copies[i]|)
    && (forall i :: 0 <= i < |s.dpos| ==> s.dpos[i] == |p.dispatch[i]|)
    && (forall j :: 0 <= j < |s.gpos| ==> s.gpos[j] == |p.gemm[j]|)
  }

  /** With all flags ready a dispatch worker can go on. */
  lemma DispatchMoves(p: Plan, s: State, i: nat)
    requires Inv(p, s) && p.cols > 0 && i < |s.dpos| && s.dpos[i] < |p.dispatch[i]|
    requires forall w :: 0 <= w < |s.cpos| ==> s.cpos[w] == |p.copies[w]|
    ensures exists s' :: Handle(p, s, s', i)
  {
    var x := p.dispatch[i][s.dpos[i]];
    TokensFull(p, x);
    forall f: nat | p.gate(x, f)
      ensures f in s.ready
    {
      assert Somewhere(p.copies, f);
      var w, k :| 0 <= w < |p.copies| && 0 <= k < |p.copies[w]| && p.copies[w][k] == f;
    }
    assert Handle(p, s, s.(dpos := s.dpos[i := s.dpos[i] + 1], handled := s.handled + {x},
                           count := s.count[x / SLICES := s.count[x / SLICES] + TokensOf(p, x)]), i);
  }

  /** With dispatch complete a waiting GEMM worker is let through. */
  lemma GemmMoves(p: Plan, s: State, j: nat)
    requires Inv(p, s) && p.cols > 0 && j < |s.gpos| && s.gpos[j] < |p.gemm[j]|
    requires forall i :: 0 <= i < |s.dpos| ==> s.dpos[i] == |p.dispatch[i]|
    ensures exists s' :: Compute(p, s, s', j)
  {
    assert !Through(p, s.dpos, s.gpos, |p.dispatch| + j);
    NotOver(p, s, |p.dispatch| + j);
    QuotientBelow(p.gemm[j][s.gpos[j]], p.blocks, p.cols);
    AllCounted(p, s, Needs(p, s, j));
    assert Compute(p, s, s.(gpos := s.gpos[j := s.gpos[j] + 1]), j);
  }

  /** Once every chunk has arrived, some worker can go on until all walks are complete.  Each
      such step takes one item off the work left, so that no wait lasts for ever.
   */
  lemma WaitsEnd(p: Plan, run: seq<State>, n: nat)
    requires IsRun(p, run) && n < |run| && Ctas(p) > 0
    requires forall f: nat :: f < p.flags ==> f in run[n].arrived
    ensures Shaped(p, run[n]) && p.cols > 0
    ensures AllWalked(p, run[n]) || exists s' :: Progress(p, run[n], s')
  {
    RunInv(p, run, n);
    var s := run[n];
    if i :| 0 <= i < |s.cpos| && s.cpos[i] < |p.copies[i]| {
      var f := p.copies[i][s.cpos[i]];
      var s' := s.(cpos := s.cpos[i := s.cpos[i] + 1], ready := s.ready + {f});
      assert Copy(p, s, s', i);
      assert Progress(p, s, s');
    } else if i :| 0 <= i < |s.dpos| && s.dpos[i] < |p.dispatch[i]| {
      DispatchMoves(p, s, i);
      var s' :| Handle(p, s, s', i);
      assert Progress(p, s, s');
    } else if j :| 0 <= j < |s.gpos| && s.gpos[j] < |p.gemm[j]| {
      GemmMoves(p, s, j);
      var s' :| Compute(p, s, s', j);
      assert Progress(p, s, s');
    }
  }

  /** Items that the first `n` walks have left. */
  ghost function Left(walks: seq<seq<nat>>, pos: seq<nat>, n: nat): int
    requires n <= |walks| && n <= |pos|
  {
    if n == 0 then 0 else Left(walks, pos, n - 1) + |walks[n - 1]| - pos[n - 1]
  }

  ghost function WorkLeft(p: Plan, s: State): int
    requires Shaped(p, s)
  {
    Left(p.copies, s.cpos, |p.copies|) + Left(p.dispatch, s.dpos, |p.dispatch|) + Left(p.gemm, s.gpos, |p.gemm|)
  }

  lemma {:induction false} LeftStep(walks: seq<seq<nat>>, pos: seq<nat>, i: nat, n: nat)
    requires i < |pos| == |walks| && n <= |walks|
    ensures Left(walks, pos[i := pos[i] + 1], n) == Left(walks, pos, n) - if i < n then 1 else 0
  {
    if n == 0 {
    } else {
      LeftStep(walks, pos, i, n - 1);
    }
  }

  lemma {:induction false} LeftBound(walks: seq<seq<nat>>, pos: seq<nat>, n: nat)
    requires |pos| == |walks| && n <= |walks| && forall i :: 0 <= i < |pos| ==> pos[i] <= |walks[i]|
    ensures Left(walks, pos, n) >= 0
  {
    if n == 0 {
    } else {
      LeftBound(walks, pos, n - 1);
    }
  }

  lemma WorkLeftBound(p: Plan, s: State)
    requires Shaped(p, s)
    ensures WorkLeft(p, s) >= 0
  {
    LeftBound(p.copies, s.cpos, |p.copies|);
    LeftBound(p.dispatch, s.dpos, |p.dispatch|);
    LeftBound(p.gemm, s.gpos, |p.gemm|);
  }

  lemma CopyCounts(p: Plan, s: State, s': State, i: nat)
    requires Shaped(p, s) && Copy(p, s, s', i)
    ensures Shaped(p, s') && WorkLeft(p, s') == WorkLeft(p, s) - 1
  {
    LeftStep(p.copies, s.cpos, i, |p.copies|);
  }

  lemma HandleCounts(p: Plan, s: State, s': State, i: nat)
    requires Shaped(p, s) && Handle(p, s, s', i)
    ensures Shaped(p, s') && WorkLeft(p, s') == WorkLeft(p, s) - 1
  {
    LeftStep(p.dispatch, s.dpos, i, |p.dispatch|);
  }

  lemma ComputeCounts(p: Plan, s: State, s': State, j: nat)
    requires p.cols > 0 && Shaped(p, s) && Compute(p, s, s', j)
    ensures Shaped(p, s') && WorkLeft(p, s') == WorkLeft(p, s) - 1
  {
    LeftStep(p.gemm, s.gpos, j, |p.gemm|);
  }

  lemma ProgressCounts(p: Plan, s: State, s': State)
    requires p.cols > 0 && Shaped(p, s) && Progress(p, s, s')
    ensures Shaped(p, s') && 0 <= WorkLeft(p, s') == WorkLeft(p, s) - 1
  {
    if i: nat :| Copy(p, s, s', i) {
      CopyCounts(p, s, s', i);
    } else if i: nat :| Handle(p, s, s', i) {
      HandleCounts(p, s, s', i);
    } else {
      var j: nat :| Compute(p, s, s', j);
      ComputeCounts(p, s, s', j);
    }
    WorkLeftBound(p, s');
  }

  /** Counters are cleared only when no CTA is left that could wait on them or add to them. */
  lemma ClearedAfterAll(p: Plan, run: seq<State>, n: nat, s': State, b: nat)
    requires IsRun(p, run) && n < |run| && Ctas(p) > 0 && Clear(run[n], s', b)
    ensures Shaped(p, run[n]) && p.cols > 0
    ensures forall i: nat, t :: !Handle(p, run[n], t, i)
    ensures forall j: nat, t :: !Compute(p, run[n], t, j)
  {
    RunInv(p, run, n);
    var s := run[n];
    OverMeansThrough(p, s);
    forall i: nat, t
      ensures !Handle(p, s, t, i)
    {
      if i < |s.dpos| {
        assert Through(p, s.dpos, s.gpos, i);
      }
    }
    forall j: nat, t
      ensures !Compute(p, s, t, j)
    {
      if j < |s.gpos| {
        assert Through(p, s.dpos, s.gpos, |p.dispatch| + j);
      }
    }
  }

  // ----- a launch comes to its end

  /** The last CTA has cleared every row block. */
  ghost predicate Ended(s: State) {
    s.over && forall b :: 0 <= b < |s.count| ==> b in s.cleared
  }

  /** Then all counters are what the next launch starts with. */
  lemma EndedIsClean(p: Plan, s: State)
    requires Inv(p, s) && Ended(s)
    ensures s.cleanup == 0 && forall b :: 0 <= b < |s.count| ==> s.count[b] == 0
  {
  }

  lemma Extends(p: Plan, run: seq<State>, s': State)
    requires IsRun(p, run) && Next(p, run[|run| - 1], s')
    ensures IsRun(p, run + [s'])
  {
    var longer := run + [s'];
    forall n | 0 <= n < |longer| - 1
      ensures Next(p, longer[n], longer[n + 1])
    {
      if n < |run| - 1 {
        assert Next(p, run[n], run[n + 1]);
      }
    }
  }

  function Last(run: seq<State>): State
    requires |run| > 0
  {
    run[|run| - 1]
  }

  /** Once every chunk has arrived, all walks can be completed, */
  lemma CanWalk(p: Plan, run: seq<State>) returns (run': seq<State>)
    requires IsRun(p, run) && Ctas(p) > 0 && forall f: nat :: f < p.flags ==> f in Last(run).arrived
    ensures IsRun(p, run') && Shaped(p, Last(run')) && AllWalked(p, Last(run'))
    decreases if Shaped(p, Last(run)) then WorkLeft(p, Last(run)) else 0
  {
    var s := Last(run);
    WaitsEnd(p, run, |run| - 1);
    if AllWalked(p, s) {
      run' := run;
    } else {
      var s' :| Progress(p, s, s');
      ProgressCounts(p, s, s');
      assert Next(p, s, s');
      Extends(p, run, s');
      assert Last(run + [s']) == s' && s'.arrived == s.arrived;
      run' := CanWalk(p, run + [s']);
    }
  }

  lemma WalkedMeansThrough(p: Plan, s: State, c: nat)
    requires Shaped(p, s) && AllWalked(p, s)
    ensures Through(p, s.dpos, s.gpos, c)
  {
  }

  /** then all CTAs can finish, and the last one begins to clear, */
  lemma CanFinish(p: Plan, run: seq<State>) returns (run': seq<State>)
    requires IsRun(p, run) && Ctas(p) > 0 && Shaped(p, Last(run)) && AllWalked(p, Last(run))
    ensures IsRun(p, run') && Last(run').over
    decreases Ctas(p) - |Last(run).finished|
  {
    var s := Last(run);
    RunInv(p, run, |run| - 1);
    if s.over {
      run' := run;
    } else {
      BelowSize(Ctas(p));
      var c :| c in Below(Ctas(p)) && c !in s.finished by {
        if Below(Ctas(p)) <= s.finished {
          SubsetSize(Below(Ctas(p)), s.finished);
        }
      }
      WalkedMeansThrough(p, s, c);
      var last := s.cleanup + 1 == Ctas(p);
      var s' := s.(finished := s.finished + {c}, cleanup := if last then 0 else s.cleanup + 1, over := s.over || last);
      assert Finish(p, s, s', c);
      Extends(p, run, s');
      assert Last(run + [s']) == s';
      run' := CanFinish(p, run + [s']);
    }
  }

  /** which it can do to the end. */
  lemma CanClear(p: Plan, run: seq<State>, n: nat) returns (run': seq<State>)
    requires IsRun(p, run) && Ctas(p) > 0 && Last(run).over && n <= |Last(run).count|
    requires forall b :: 0 <= b < n ==> b in Last(run).cleared
    ensures IsRun(p, run') && Ended(Last(run'))
    decreases |Last(run).count| - n
  {
    var s := Last(run);
    RunInv(p, run, |run| - 1);
    if n == |s.count| {
      run' := run;
    } else {
      var s' := s.(count := s.count[n := 0], cleared := s.cleared + {n});
      assert Clear(s, s', n);
      Extends(p, run, s');
      assert Last(run + [s']) == s';
      run' := CanClear(p, run + [s'], n + 1);
    }
  }

  /** So from every state in which all chunks have arrived, whatever happened before, the launch
      can come to its end, with all counters at zero.
   */
  lemma CanEnd(p: Plan, run: seq<State>) returns (run': seq<State>)
    requires IsRun(p, run) && Ctas(p) > 0 && forall f: nat :: f < p.flags ==> f in Last(run).arrived
    ensures IsRun(p, run') && Ended(Last(run')) && Last(run').cleanup == 0
    ensures |Last(run').count| == p.blocks && forall b :: 0 <= b < p.blocks ==> Last(run').count[b] == 0
  {
    var walked := CanWalk(p, run);
    var over := CanFinish(p, walked);
    run' := CanClear(p, over, 0);
    RunInv(p, run', |run'| - 1);
    EndedIsClean(p, Last(run'));
  }

  // ----- launch after launch

  /** What launches leave to each other: the counters, of which each uses those of its own row
      blocks, and the cleanup counter.
   */
  datatype Memory = Memory(counters: seq<nat>, cleanup: nat)

  ghost predicate Clean(m: Memory) {
    m.cleanup == 0 && forall b :: 0 <= b < |m.counters| ==> m.counters[b] == 0
  }

  /** A launch starts from what it finds in memory; the host has zeroed the ready flags, and
      arrivals are those of its own epoch.
   */
  ghost predicate StartsFrom(p: Plan, m: Memory, s: State) {
    && PlanOk(p) && Shaped(p, s) && p.blocks <= |m.counters|
    && s.count == m.counters[..p.blocks] && s.cleanup == m.cleanup
    && (forall i :: 0 <= i < |s.dpos| ==> s.dpos[i] == 0)
    && (forall j :: 0 <= j < |s.gpos| ==> s.gpos[j] == 0)
    && (forall i :: 0 <= i < |s.cpos| ==> s.cpos[i] == 0)
    && s.handled == {} && s.arrived == {} && s.ready == {} && s.finished == {} && !s.over && s.cleared == {}
  }

  ghost predicate RunFrom(p: Plan, m: Memory, run: seq<State>) {
    && |run| > 0
    && StartsFrom(p, m, run[0])
    && forall n :: 0 <= n < |run| - 1 ==> Next(p, run[n], run[n + 1])
  }

  /** What a launch that has come to its end leaves. */
  function Leaves(p: Plan, m: Memory, s: State): Memory
    requires p.blocks <= |m.counters|
  {
    Memory(s.count + m.counters[p.blocks..], s.cleanup)
  }

  ghost predicate LaunchAt(ps: seq<Plan>, runs: seq<seq<State>>, ms: seq<Memory>, i: nat)
    requires i < |ps| == |runs| == |ms|
  {
    && Ctas(ps[i]) > 0 && RunFrom(ps[i], ms[i], runs[i])
    && (i + 1 < |ps| ==> Ended(Last(runs[i])) && ms[i + 1] == Leaves(ps[i], ms[i], Last(runs[i])))
  }

  /** Launch `i` runs from `ms[i]`, and all before the last one to their ends. */
  ghost predicate Launches(ps: seq<Plan>, runs: seq<seq<State>>, ms: seq<Memory>) {
    && |ps| == |runs| == |ms| > 0
    && Clean(ms[0])
    && (forall i :: 0 <= i < |ps| ==> LaunchAt(ps, runs, ms, i))
  }

  lemma CleanRun(p: Plan, m: Memory, run: seq<State>)
    requires Clean(m) && RunFrom(p, m, run)
    ensures IsRun(p, run)
  {
  }

  /** Every launch finds clean counters, whatever the row blocks of the launches before it. */
  lemma {:induction false} EveryLaunchStartsClean(ps: seq<Plan>, runs: seq<seq<State>>, ms: seq<Memory>, i: nat)
    requires Launches(ps, runs, ms) && i < |ps|
    ensures Clean(ms[i]) && IsRun(ps[i], runs[i])
  {
    assert LaunchAt(ps, runs, ms, i);
    if i == 0 {
    } else {
      EveryLaunchStartsClean(ps, runs, ms, i - 1);
      assert LaunchAt(ps, runs, ms, i - 1);
      var p, m, s := ps[i - 1], ms[i - 1], Last(runs[i - 1]);
      RunInv(p, runs[i - 1], |runs[i - 1]| - 1);
      EndedIsClean(p, s);
      assert ms[i - 1 + 1] == Leaves(p, m, s);
    }
    CleanRun(ps[i], ms[i], runs[i]);
  }

  /** So in every launch a GEMM worker that has found 128 may read. */
  lemma EveryWaitIsSound(ps: seq<Plan>, runs: seq<seq<State>>, ms: seq<Memory>, i: nat, n: nat, s': State, j: nat)
    requires Launches(ps, runs, ms) && i < |ps| && n < |runs[i]|
    requires Shaped(ps[i], runs[i][n]) && ps[i].cols > 0 && Compute(ps[i], runs[i][n], s', j)
    ensures !runs[i][n].over
    ensures forall x :: x in SlicesOf(Needs(ps[i], runs[i][n], j)) ==> x in runs[i][n].handled
    ensures forall x, f: nat :: x in SlicesOf(Needs(ps[i], runs[i][n], j)) && ps[i].gate(x, f) ==> f in runs[i][n].arrived
  {
    EveryLaunchStartsClean(ps, runs, ms, i);
    WaitIsSound(ps[i], runs[i], n, s', j);
  }
}
