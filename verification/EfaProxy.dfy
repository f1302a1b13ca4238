/** The EFA CPU proxy: the loop that moves transfer commands from the GPU's FIFO onto
    queue pairs, one batch at a time.

    The GPU side, the NIC and the scheduler are the environment: it decides when a command
    becomes visible to a poll, whether a post succeeds, and in which order completions
    arrive.
 */
module EfaProxy {
  import opened Arith

  datatype CmdType = Empty | Write | Fence | BarrierNotify

  datatype TransferCmd = TransferCmd(cmdType: CmdType, dstRank: nat, laneId: nat, tileId: nat,
                                     remoteOffset: nat, localOffset: nat, bytes: nat)

  datatype Option<T> = None | Some(value: T)

  const BATCH_SIZE := 8
  const ACCUMULATE_SPINS := 128
  const ACCUMULATE_MISS_BUDGET := 8
  const SRD_SQ_DEPTH := 512
  const MAX_EXCHANGE_QPS := 24
  const POLL_WIDTH := 32

  datatype NotifyMode = WriteImm | RemoteFlag

  // ----- constructor limits

  function ClampQps(numQps: int): (q: int)
    ensures 1 <= q <= MAX_EXCHANGE_QPS
  {
    if numQps <= 0 then 1 else Min(numQps, MAX_EXCHANGE_QPS)
  }

  /** Work requests that fit one send queue. */
  function SqDepth(sqDepth: int): int { if sqDepth > 0 then sqDepth else SRD_SQ_DEPTH }

  /** A queue pair may have `p` commands in flight: up to the configured limit, and with remote
      flags, where a command takes up to three requests, a quarter of the send queue, less a
      batch if the queue is large enough.
   */
  predicate Allowed(mode: NotifyMode, maxInflight: int, sqDepth: int, p: int) {
    && p <= (if maxInflight <= 0 then 128 else maxInflight)
    && (mode == RemoteFlag ==>
          4 * p <= SqDepth(sqDepth) && (SqDepth(sqDepth) >= 4 * (BATCH_SIZE + 1) ==> 4 * (p + BATCH_SIZE) <= SqDepth(sqDepth)))
  }

  /** The largest number allowed, and one in any case. */
  function PerQpBudget(mode: NotifyMode, maxInflight: int, sqDepth: int): (p: int)
    ensures p >= 1 && (p == 1 || Allowed(mode, maxInflight, sqDepth, p))
    ensures forall k :: Allowed(mode, maxInflight, sqDepth, k) ==> k <= p
  {
    var limit := if maxInflight <= 0 then 128 else maxInflight;
    var quarter := SqDepth(sqDepth) / 4;
    var cap :=
      if mode == RemoteFlag then (if quarter > BATCH_SIZE then quarter - BATCH_SIZE else quarter)
      else limit;
    var capped := Min(cap, limit);
    if capped <= 0 then 1 else capped
  }

  /** The in-flight budget over all queue pairs of this proxy. */
  function EffectiveMaxInflight(mode: NotifyMode, maxInflight: int, sqDepth: int, numQps: int): (m: int)
    ensures m >= ClampQps(numQps)
    ensures m / ClampQps(numQps) == PerQpBudget(mode, maxInflight, sqDepth) && m % ClampQps(numQps) == 0
  {
    var p, q := PerQpBudget(mode, maxInflight, sqDepth), ClampQps(numQps);
    Multiple(p, q);
    DivIs(p * q, q, p, 0);
    p * q
  }

  // ----- the commands seen so far

  /** The WRITE commands at FIFO positions `from` .. `end - 1`, in order. */
  function WritesIn(stream: seq<TransferCmd>, from: nat, end: nat): seq<TransferCmd>
    requires from <= end <= |stream|
    decreases end
  {
    if from == end then []
    else
      var rest := WritesIn(stream, from, end - 1);
      if stream[end - 1].cmdType == Write then rest + [stream[end - 1]] else rest
  }

  function BarriersIn(stream: seq<TransferCmd>, from: nat, end: nat): nat
    requires from <= end <= |stream|
    decreases end
  {
    if from == end then 0
    else BarriersIn(stream, from, end - 1) + if stream[end - 1].cmdType == BarrierNotify then 1 else 0
  }

  // ----- gathering one batch

  /** What a collection phase has built: the batch, the command that did not fit, whether
      a BARRIER waits behind the batch, how many BARRIERs were posted on the spot or found
      the flag already raised, and whether the phase has broken off.
   */
  datatype Gather = Gather(batch: seq<TransferCmd>, stash: Option<TransferCmd>, barrier: bool,
                           inlined: nat, merged: nat, stopped: bool)

  function LocalQp(numQps: nat, cmd: TransferCmd): (q: nat)
    requires numQps > 0
    ensures q < numQps
  {
    cmd.laneId % numQps
  }

  predicate Fits(numQps: nat, batch: seq<TransferCmd>, cmd: TransferCmd)
    requires numQps > 0
  {
    batch == [] || (LocalQp(numQps, cmd) == LocalQp(numQps, batch[0]) && cmd.dstRank == batch[0].dstRank)
  }

  /** The effect of one polled command on the batch under construction. */
  function Absorb(numQps: nat, g: Gather, cmd: TransferCmd): Gather
    requires numQps > 0
  {
    match cmd.cmdType
    case BarrierNotify =>
      if g.batch == [] then g.(inlined := g.inlined + 1)
      else g.(barrier := true, merged := g.merged + (if g.barrier then 1 else 0), stopped := true)
    case Write =>
      if Fits(numQps, g.batch, cmd) then g.(batch := g.batch + [cmd])
      else g.(stash := Some(cmd), stopped := true)
    case _ => g
  }

  /** One collection phase over the commands that its polls returned. */
  function Fold(numQps: nat, g: Gather, stream: seq<TransferCmd>, from: nat, end: nat): Gather
    requires numQps > 0 && from <= end <= |stream|
    decreases end
  {
    if from == end then g else Absorb(numQps, Fold(numQps, g, stream, from, end - 1), stream[end - 1])
  }

  /** The phase breaks off at its last command if it breaks off at all. */
  ghost predicate StopsAtEnd(numQps: nat, g: Gather, stream: seq<TransferCmd>, from: nat, end: nat)
    requires numQps > 0 && from <= end <= |stream|
  {
    forall k :: from <= k < end ==> !Fold(numQps, g, stream, from, k).stopped
  }

  /** A phase that began with `g0` at position `from` has built `g` at position `end`. */
  ghost predicate Polled(numQps: nat, g0: Gather, stream: seq<TransferCmd>, from: nat, end: nat, g: Gather) {
    && numQps > 0 && from <= end <= |stream|
    && g == Fold(numQps, g0, stream, from, end)
    && StopsAtEnd(numQps, g0, stream, from, end)
  }

  /** One more command of a phase that has not broken off. */
  lemma FoldStep(numQps: nat, g0: Gather, stream: seq<TransferCmd>, from: nat, end: nat, g: Gather)
    requires Polled(numQps, g0, stream, from, end, g) && end < |stream| && !g.stopped
    ensures Polled(numQps, g0, stream, from, end + 1, Absorb(numQps, g, stream[end]))
  {
  }

  function StashSeq(g: Gather): seq<TransferCmd> {
    if g.stash.Some? then [g.stash.value] else []
  }

  /** All commands go to one queue pair and one peer. */
  ghost predicate SingleTarget(numQps: nat, batch: seq<TransferCmd>)
    requires numQps > 0
  {
    forall k :: 0 <= k < |batch| ==>
      LocalQp(numQps, batch[k]) == LocalQp(numQps, batch[0]) && batch[k].dstRank == batch[0].dstRank
  }

  lemma AbsorbKeepsOrder(numQps: nat, g: Gather, cmd: TransferCmd)
    requires numQps > 0 && g.stash.None? && SingleTarget(numQps, g.batch)
    ensures var h := Absorb(numQps, g, cmd);
            && h.batch + StashSeq(h) == g.batch + (if cmd.cmdType == Write then [cmd] else [])
            && SingleTarget(numQps, h.batch)
            && (h.stash.Some? ==> h.stopped && !Fits(numQps, h.batch, h.stash.value))
  {
  }

  /** Nothing is lost, duplicated or reordered by a phase that starts with no stash: its
      WRITEs are appended to the batch, except a last one that does not fit.
   */
  lemma {:induction false} FoldKeepsOrder(numQps: nat, g: Gather, stream: seq<TransferCmd>, from: nat, end: nat)
    requires numQps > 0 && from <= end <= |stream|
    requires !g.stopped && g.stash.None? && StopsAtEnd(numQps, g, stream, from, end)
    requires SingleTarget(numQps, g.batch)
    ensures var h := Fold(numQps, g, stream, from, end);
            && h.batch + StashSeq(h) == g.batch + WritesIn(stream, from, end)
            && SingleTarget(numQps, h.batch)
            && (h.stash.Some? ==> h.stopped && !Fits(numQps, h.batch, h.stash.value))
    decreases end
  {
    if from == end {
    } else {
      FoldKeepsOrder(numQps, g, stream, from, end - 1);
      AbsorbKeepsOrder(numQps, Fold(numQps, g, stream, from, end - 1), stream[end - 1]);
      assert g.batch + (WritesIn(stream, from, end - 1) + [stream[end - 1]])
          == (g.batch + WritesIn(stream, from, end - 1)) + [stream[end - 1]];
    }
  }

  /** Every BARRIER of a phase is posted on the spot, raises the flag, or finds it raised. */
  lemma {:induction false} BarriersConserved(numQps: nat, g: Gather, stream: seq<TransferCmd>, from: nat, end: nat)
    requires numQps > 0 && from <= end <= |stream|
    ensures var h := Fold(numQps, g, stream, from, end);
            && h.inlined + h.merged + (if h.barrier then 1 else 0)
               == g.inlined + g.merged + (if g.barrier then 1 else 0) + BarriersIn(stream, from, end)
            && (g.barrier ==> h.barrier)
    decreases end
  {
    if from == end {
    } else {
      BarriersConserved(numQps, g, stream, from, end - 1);
    }
  }

  /** While a phase has not broken off, its batch is empty exactly when it started empty and has
      polled no WRITE.
   */
  lemma {:induction false} BatchWhileOpen(numQps: nat, g: Gather, stream: seq<TransferCmd>, from: nat, end: nat)
    requires numQps > 0 && from <= end <= |stream|
    requires StopsAtEnd(numQps, g, stream, from, end) && !Fold(numQps, g, stream, from, end).stopped
    ensures Fold(numQps, g, stream, from, end).batch == [] <==> g.batch == [] && WritesIn(stream, from, end) == []
    decreases end
  {
    if from == end {
    } else {
      assert !Fold(numQps, g, stream, from, end - 1).stopped;
      BatchWhileOpen(numQps, g, stream, from, end - 1);
    }
  }

  /** The commands polled from `from` to `end` break a phase off at a BARRIER: the last one is a
      BARRIER, and there is a WRITE for it to wait behind.
   */
  ghost predicate BreaksAtBarrier(g: Gather, stream: seq<TransferCmd>, from: nat, end: nat) {
    && from < end <= |stream| && stream[end - 1].cmdType == BarrierNotify
    && (g.batch != [] || WritesIn(stream, from, end - 1) != [])
  }

  lemma OpenMeansNoBreak(numQps: nat, g: Gather, stream: seq<TransferCmd>, from: nat, end: nat)
    requires numQps > 0 && from <= end <= |stream|
    requires StopsAtEnd(numQps, g, stream, from, end) && !Fold(numQps, g, stream, from, end).stopped
    ensures !BreaksAtBarrier(g, stream, from, end)
  {
    if from < end {
      assert !Fold(numQps, g, stream, from, end - 1).stopped;
      BatchWhileOpen(numQps, g, stream, from, end - 1);
    }
  }

  /** A phase swallows a BARRIER exactly when one was waiting before the phase and the commands
      it polls break it off at another.
   */
  lemma {:induction false} BarrierLostExactlyWhen(numQps: nat, g: Gather, stream: seq<TransferCmd>, from: nat, end: nat)
    requires numQps > 0 && from <= end <= |stream|
    requires !g.stopped && StopsAtEnd(numQps, g, stream, from, end)
    ensures var h := Fold(numQps, g, stream, from, end);
            && h.barrier == (g.barrier || BreaksAtBarrier(g, stream, from, end))
            && h.merged == g.merged + (if g.barrier && BreaksAtBarrier(g, stream, from, end) then 1 else 0)
    decreases end
  {
    if from == end {
    } else {
      assert !Fold(numQps, g, stream, from, end - 1).stopped;
      BatchWhileOpen(numQps, g, stream, from, end - 1);
      OpenMeansNoBreak(numQps, g, stream, from, end - 1);
      BarrierLostExactlyWhen(numQps, g, stream, from, end - 1);
    }
  }

  /** The accumulate-spin phase is entered on a short batch with nothing stashed; a raised
      barrier flag does not keep it from polling on.
   */
  predicate SpinEntered(g: Gather) {
    0 < |g.batch| < BATCH_SIZE && g.stash.None?
  }

  /** Collecting a fresh batch: the seeding phase polls up to position `mid`, then the spin
      phase, if entered, polls on up to `end`.
   */
  ghost predicate TwoPhases(numQps: nat, start: Gather, stream: seq<TransferCmd>, from: nat, mid: nat, end: nat, g: Gather) {
    && numQps > 0 && from <= mid <= end <= |stream|
    && var seeded := Fold(numQps, start, stream, from, mid);
    && Polled(numQps, start, stream, from, mid, seeded)
    && if SpinEntered(seeded) then Polled(numQps, seeded.(stopped := false), stream, mid, end, g)
    else end == mid && g == seeded
  }

  lemma {:induction false} WritesJoin(stream: seq<TransferCmd>, from: nat, mid: nat, end: nat)
    requires from <= mid <= end <= |stream|
    ensures WritesIn(stream, from, end) == WritesIn(stream, from, mid) + WritesIn(stream, mid, end)
    decreases end
  {
    if mid == end {
    } else {
      WritesJoin(stream, from, mid, end - 1);
    }
  }

  lemma SpinKeepsOrder(numQps: nat, before: seq<TransferCmd>, g: Gather, stream: seq<TransferCmd>, from: nat, mid: nat, end: nat)
    requires numQps > 0 && from <= mid <= end <= |stream|
    requires !g.stopped && g.stash.None? && StopsAtEnd(numQps, g, stream, mid, end) && SingleTarget(numQps, g.batch)
    requires g.batch == before + WritesIn(stream, from, mid)
    ensures var h := Fold(numQps, g, stream, mid, end);
            h.batch + StashSeq(h) == before + WritesIn(stream, from, end) && SingleTarget(numQps, h.batch)
  {
    FoldKeepsOrder(numQps, g, stream, mid, end);
    WritesJoin(stream, from, mid, end);
    assert before + (WritesIn(stream, from, mid) + WritesIn(stream, mid, end)) == g.batch + WritesIn(stream, mid, end);
  }

  /** A whole collection keeps FIFO order. */
  lemma CollectionKeepsOrder(numQps: nat, start: Gather, stream: seq<TransferCmd>, from: nat, mid: nat, end: nat, g: Gather)
    requires TwoPhases(numQps, start, stream, from, mid, end, g)
    requires !start.stopped && start.stash.None? && SingleTarget(numQps, start.batch)
    ensures g.batch + StashSeq(g) == start.batch + WritesIn(stream, from, end)
    ensures SingleTarget(numQps, g.batch)
  {
    FoldKeepsOrder(numQps, start, stream, from, mid);
    var seeded := Fold(numQps, start, stream, from, mid);
    if SpinEntered(seeded) {
      SpinKeepsOrder(numQps, start.batch, seeded.(stopped := false), stream, from, mid, end);
    }
  }

  /** How many BARRIERs a collection swallows, by the commands polled and whether one was waiting
      at the start: one if the seeding phase breaks off at another, and one if the spin phase
      ends at one although a BARRIER is waiting by then.
   */
  lemma BarriersSwallowed(numQps: nat, start: Gather, stream: seq<TransferCmd>, from: nat, mid: nat, end: nat, g: Gather)
    requires TwoPhases(numQps, start, stream, from, mid, end, g) && !start.stopped && start.merged == 0
    ensures var waiting := start.barrier || BreaksAtBarrier(start, stream, from, mid);
            g.merged == (if start.barrier && BreaksAtBarrier(start, stream, from, mid) then 1 else 0)
                      + (if waiting && mid < end && stream[end - 1].cmdType == BarrierNotify then 1 else 0)
  {
    BarrierLostExactlyWhen(numQps, start, stream, from, mid);
    var seeded := Fold(numQps, start, stream, from, mid);
    if SpinEntered(seeded) {
      BarrierLostExactlyWhen(numQps, seeded.(stopped := false), stream, mid, end);
    }
  }

  /** Two BARRIERs can collapse into one: behind a WRITE, the first one breaks off the
      seeding phase, the spin phase polls on past it and swallows the second.
   */
  lemma TwoBarriersOnePost(w: TransferCmd, b1: TransferCmd, b2: TransferCmd) returns (g: Gather)
    requires w.cmdType == Write && b1.cmdType == BarrierNotify && b2.cmdType == BarrierNotify
    ensures TwoPhases(1, Gather([], None, false, 0, 0, false), [w, b1, b2], 0, 2, 3, g)
    ensures BarriersIn([w, b1, b2], 0, 3) == 2
    ensures g.barrier && g.inlined == 0 && g.merged == 1
  {
    var stream := [w, b1, b2];
    var empty := Gather([], None, false, 0, 0, false);
    assert Fold(1, empty, stream, 0, 0) == empty;
    assert Fold(1, empty, stream, 0, 1).batch == [w];
    assert BarriersIn(stream, 0, 1) == 0 && BarriersIn(stream, 0, 2) == 1;
    var seeded := Fold(1, empty, stream, 0, 2);
    assert SpinEntered(seeded);
    g := Fold(1, seeded.(stopped := false), stream, 2, 3);
    assert Fold(1, seeded.(stopped := false), stream, 2, 2) == seeded.(stopped := false);
  }

  // ----- work requests and credits

  /** What a work request belongs to: the n-th posted WRITE, or a barrier write to a peer. */
  datatype Tag = ForWrite(n: nat) | ForBarrier(peer: nat)

  /** The credits of `count` WRITEs numbered from `first`: one each. */
  ghost function WriteCredits(first: nat, count: nat): multiset<Tag> {
    if count == 0 then multiset{} else WriteCredits(first, count - 1) + multiset{ForWrite(first + count - 1)}
  }

  lemma {:induction false} CreditCount(first: nat, count: nat)
    ensures |WriteCredits(first, count)| == count
  {
    if count == 0 {
    } else {
      CreditCount(first, count - 1);
    }
  }

  lemma {:induction false} OneCreditEach(first: nat, count: nat, tag: Tag)
    ensures WriteCredits(first, count)[tag] == if tag.ForWrite? && first <= tag.n < first + count then 1 else 0
  {
    if count == 0 {
    } else {
      OneCreditEach(first, count - 1, tag);
      var rest, last := WriteCredits(first, count - 1), ForWrite(first + count - 1);
      assert WriteCredits(first, count)[tag] == rest[tag] + if tag == last then 1 else 0;
    }
  }

  // ----- history

  /** What the proxy put on the wire or learnt from the completion queue. */
  datatype Event =
    | Posted(qp: nat, cmds: seq<TransferCmd>)
    | Retired(n: nat)
    | BarrierRound(head: nat)                // a barrier round starts at FIFO position `head`
    | BarrierPosted(peer: nat, head: nat)

  /** A history, latest event outermost. */
  datatype Trace = Start | Then(before: Trace, event: Event)

  /** The WRITEs posted so far, in posting order. */
  ghost function PostedWrites(t: Trace): seq<TransferCmd> {
    match t
    case Start => []
    case Then(b, e) => if e.Posted? then PostedWrites(b) + e.cmds else PostedWrites(b)
  }

  /** The WRITEs (by posting number) whose credit has come back. */
  ghost function RetiredWrites(t: Trace): set<nat> {
    match t
    case Start => {}
    case Then(b, e) => if e.Retired? then RetiredWrites(b) + {e.n} else RetiredWrites(b)
  }

  ghost function Rounds(t: Trace): nat {
    match t
    case Start => 0
    case Then(b, e) => if e.BarrierRound? then Rounds(b) + 1 else Rounds(b)
  }

  /** The peers that barrier round `r` has been written to, in order. */
  ghost function RoundPeers(t: Trace, r: nat): seq<nat> {
    match t
    case Start => []
    case Then(b, e) => RoundPeers(b, r) + if e.BarrierPosted? && Rounds(b) == r + 1 then [e.peer] else []
  }

  lemma {:induction false} NoPeersYet(t: Trace, r: nat)
    requires Rounds(t) <= r
    ensures RoundPeers(t, r) == []
  {
    match t {
      case Start =>
      case Then(b, _) => NoPeersYet(b, r);
    }
  }

  ghost predicate AllRetired(t: Trace) {
    forall n: nat :: n < |PostedWrites(t)| ==> n in RetiredWrites(t)
  }

  /** Every WRITE in front of FIFO position `head` has been posted and retired. */
  ghost predicate Settled(stream: seq<TransferCmd>, t: Trace, head: nat) {
    && head <= |stream|
    && PostedWrites(t) == WritesIn(stream, 0, head)
    && AllRetired(t)
  }

  /** A batch fit for one post: one queue pair and one peer. */
  ghost predicate Postable(numQps: nat, qp: nat, cmds: seq<TransferCmd>)
    requires numQps > 0
  {
    && 0 < |cmds| <= BATCH_SIZE
    && forall k :: 0 <= k < |cmds| ==> cmds[k].laneId % numQps == qp && cmds[k].dstRank == cmds[0].dstRank
  }

  /** When an event may follow a history: a barrier only once everything in front of it is
      settled, a batch only if it has a single target.
   */
  ghost predicate MayFollow(stream: seq<TransferCmd>, numQps: nat, t: Trace, e: Event) {
    match e
    case Posted(qp, cmds) => numQps > 0 && Postable(numQps, qp, cmds)
    case Retired(_) => true
    case BarrierRound(head) => Settled(stream, t, head)
    case BarrierPosted(_, head) => Settled(stream, t, head)
  }

  /** Every event of the history was allowed when it happened. */
  ghost predicate Safe(stream: seq<TransferCmd>, numQps: nat, t: Trace) {
    match t
    case Start => true
    case Then(b, e) => Safe(stream, numQps, b) && MayFollow(stream, numQps, b, e)
  }

  /** `b` is an earlier stage of history `t`. */
  ghost predicate Before(b: Trace, t: Trace) {
    b == t || (t.Then? && Before(b, t.before))
  }

  lemma {:induction false} EveryEventAllowed(stream: seq<TransferCmd>, numQps: nat, t: Trace, b: Trace, e: Event)
    requires Safe(stream, numQps, t) && Before(Then(b, e), t)
    ensures MayFollow(stream, numQps, b, e)
  {
    if Then(b, e) == t {
    } else {
      EveryEventAllowed(stream, numQps, t.before, b, e);
    }
  }

  lemma {:induction false} WriteIsListed(stream: seq<TransferCmd>, head: nat, k: nat)
    requires k < head <= |stream| && stream[k].cmdType == Write
    ensures exists n :: 0 <= n < |WritesIn(stream, 0, head)| && WritesIn(stream, 0, head)[n] == stream[k]
    decreases head
  {
    if k < head - 1 {
      WriteIsListed(stream, head - 1, k);
      var n :| 0 <= n < |WritesIn(stream, 0, head - 1)| && WritesIn(stream, 0, head - 1)[n] == stream[k];
      assert WritesIn(stream, 0, head)[n] == stream[k];
    } else {
      assert WritesIn(stream, 0, head)[|WritesIn(stream, 0, head - 1)|] == stream[k];
    }
  }

  /** Whenever a barrier write went out, every WRITE ahead of it in the FIFO had been posted
      and its credit had come back.
   */
  lemma BarrierWaitsForWrites(stream: seq<TransferCmd>, numQps: nat, t: Trace, b: Trace, peer: nat, head: nat, k: nat)
    requires Safe(stream, numQps, t) && Before(Then(b, BarrierPosted(peer, head)), t)
    requires k < head && k < |stream| && stream[k].cmdType == Write
    ensures exists n: nat :: n < |PostedWrites(b)| && PostedWrites(b)[n] == stream[k] && n in RetiredWrites(b)
  {
    EveryEventAllowed(stream, numQps, t, b, BarrierPosted(peer, head));
    WriteIsListed(stream, head, k);
    var n :| 0 <= n < |WritesIn(stream, 0, head)| && WritesIn(stream, 0, head)[n] == stream[k];
    assert PostedWrites(b)[n] == stream[k];
  }

  // ----- the credit ledger

  /** `inflight` is the number of posted commands and barrier writes whose credit-bearing
      completion is still unpolled; a WRITE's credit is outstanding from its post until it
      is retired; and the history is safe.
   */
  ghost predicate Ledger(stream: seq<TransferCmd>, numQps: nat, inflight: int, credited: multiset<Tag>, t: Trace) {
    && inflight == |credited|
    && (forall n: nat :: credited[ForWrite(n)] == if n < |PostedWrites(t)| && n !in RetiredWrites(t) then 1 else 0)
    && (forall n: nat :: n in RetiredWrites(t) ==> n < |PostedWrites(t)|)
    && Safe(stream, numQps, t)
  }

  function AfterRetire(t: Trace, tag: Tag): Trace {
    if tag.ForWrite? then Then(t, Retired(tag.n)) else t
  }

  lemma LedgerRetire(stream: seq<TransferCmd>, numQps: nat, inflight: int, credited: multiset<Tag>, t: Trace, tag: Tag)
    requires Ledger(stream, numQps, inflight, credited, t) && tag in credited
    ensures Ledger(stream, numQps, inflight - 1, credited - multiset{tag}, AfterRetire(t, tag))
  {
    var credited' := credited - multiset{tag};
    var t' := AfterRetire(t, tag);
    assert tag.ForWrite? ==> credited[ForWrite(tag.n)] == 1;
    forall n: nat
      ensures credited'[ForWrite(n)] == if n < |PostedWrites(t')| && n !in RetiredWrites(t') then 1 else 0
    {
      assert credited[ForWrite(n)] == if n < |PostedWrites(t)| && n !in RetiredWrites(t) then 1 else 0;
    }
  }

  lemma LedgerPost(stream: seq<TransferCmd>, numQps: nat, inflight: int, credited: multiset<Tag>, t: Trace,
                   qp: nat, batch: seq<TransferCmd>)
    requires Ledger(stream, numQps, inflight, credited, t) && numQps > 0 && Postable(numQps, qp, batch)
    ensures Ledger(stream, numQps, inflight + |batch|,
                   credited + WriteCredits(|PostedWrites(t)|, |batch|), Then(t, Posted(qp, batch)))
  {
    var first := |PostedWrites(t)|;
    var t' := Then(t, Posted(qp, batch));
    var credited' := credited + WriteCredits(first, |batch|);
    forall n: nat
      ensures credited'[ForWrite(n)] == if n < |PostedWrites(t')| && n !in RetiredWrites(t') then 1 else 0
    {
      OneCreditEach(first, |batch|, ForWrite(n));
      assert credited[ForWrite(n)] == if n < first && n !in RetiredWrites(t) then 1 else 0;
    }
    CreditCount(first, |batch|);
  }

  lemma LedgerBarrier(stream: seq<TransferCmd>, numQps: nat, inflight: int, credited: multiset<Tag>, t: Trace,
                      peer: nat, head: nat)
    requires Ledger(stream, numQps, inflight, credited, t) && Settled(stream, t, head)
    ensures Ledger(stream, numQps, inflight + 1, credited + multiset{ForBarrier(peer)},
                   Then(t, BarrierPosted(peer, head)))
    ensures Settled(stream, Then(t, BarrierPosted(peer, head)), head)
    ensures Ledger(stream, numQps, inflight, credited, Then(t, BarrierRound(head)))
    ensures Settled(stream, Then(t, BarrierRound(head)), head)
  {
  }

  /** With no credit outstanding, every posted WRITE has been retired. */
  lemma NothingInFlight(stream: seq<TransferCmd>, numQps: nat, credited: multiset<Tag>, t: Trace)
    requires Ledger(stream, numQps, 0, credited, t)
    ensures AllRetired(t)
  {
    forall n: nat | n < |PostedWrites(t)|
      ensures n in RetiredWrites(t)
    {
      assert credited[ForWrite(n)] == 0;
    }
  }

  // ----- what is left to do

  /** What the environment does in one iteration of the loop: pauses the proxy, makes commands
      below a FIFO position visible, accepts the batch.
   */
  datatype Turn = Turn(paused: bool, visible: nat, accept: bool)

  /** Commands not polled; WRITEs polled but not posted, and those of them stashed; a waiting
      BARRIER; completions not polled; polls that may come back empty.
   */
  datatype Todo = Todo(unpolled: nat, unposted: nat, stashed: nat, barrier: nat, requests: nat, misses: nat)

  predicate Fewer(requests: nat, misses: nat, requests': nat, misses': nat) {
    requests < requests' || (requests == requests' && misses < misses')
  }

  predicate Less(x: Todo, y: Todo) {
    if x.unpolled != y.unpolled then x.unpolled < y.unpolled
    else if x.unposted != y.unposted then x.unposted < y.unposted
    else if x.stashed != y.stashed then x.stashed < y.stashed
    else if x.barrier != y.barrier then x.barrier < y.barrier
    else Fewer(x.requests, x.misses, y.requests, y.misses)
  }

  /** An iteration that sees all commands below `visible` and whose post is accepted. */
  predicate Helps(turn: Turn, visible: nat) {
    !turn.paused && turn.accept && turn.visible >= visible
  }

  ghost predicate HelpsAgain(turns: nat -> Turn, visible: nat, i: nat) {
    exists k: nat :: k >= i && Helps(turns(k), visible)
  }

  ghost function NextHelp(turns: nat -> Turn, visible: nat, i: nat): (k: nat)
    requires HelpsAgain(turns, visible, i)
    ensures k >= i && Helps(turns(k), visible)
  {
    var k: nat :| k >= i && Helps(turns(k), visible);
    k
  }

  lemma LessTransitive(x: Todo, y: Todo, z: Todo)
    requires x == y || Less(x, y)
    requires y == z || Less(y, z)
    ensures x == z || Less(x, z)
    ensures Less(x, y) || Less(y, z) ==> Less(x, z)
  {
  }

  class Proxy {
    // Configuration.
    const stream: seq<TransferCmd>    // everything the GPU pushes, in FIFO order
    const mode: NotifyMode
    const useArrivalQueue: bool
    const enableRemoteTail: bool
    const peerHasTail: nat -> bool    // by destination rank
    const numQps: nat
    const effectiveMaxInflight: nat
    const stagingReady: bool          // flag staging is configured
    const barrierAddr: seq<bool>      // per peer: it published a barrier address
    const barrierAccepts: (nat, nat) -> bool  // the NIC takes the write of a round to a peer

    // The proxy's own state; the batch being retried is a local of `run` that outlives an iteration.
    var inflight: int
    var pendingCmd: TransferCmd
    var hasPendingCmd: bool
    var hasPendingBarrier: bool
    var pendingBatch: seq<TransferCmd>
    var pendingBatchQp: nat
    var pendingCpuHead: nat
    var totalCmds: nat                // commands posted
    var merged: nat                   // BARRIERs that found the flag raised (history)
    var rounds: nat                   // barrier rounds so far (history)

    // FIFO cursors.
    var cpuHead: nat
    var tail: nat

    // The NIC: the posted requests whose completion has not been polled (those without
    // credit are only counted), and the number of empty polls it may still return before
    // it delivers something.
    var plain: nat
    var credited: multiset<Tag>
    var emptyPolls: nat

    ghost var hist: Trace

    ghost function Stash(): seq<TransferCmd>
      reads this
    {
      if hasPendingCmd then [pendingCmd] else []
    }

    /** In FIFO order: posted WRITEs, then the batch being retried or built, then the stash. */
    ghost predicate InOrder(batch: seq<TransferCmd>)
      reads this
    {
      && cpuHead <= |stream|
      && WritesIn(stream, 0, cpuHead) == PostedWrites(hist) + (batch + Stash())
    }

    /** Every BARRIER polled was given a round, waits for one, or was swallowed. */
    ghost predicate BarriersCounted()
      reads this
    {
      && cpuHead <= |stream|
      && BarriersIn(stream, 0, cpuHead) == Rounds(hist) + merged + (if hasPendingBarrier then 1 else 0)
    }

    ghost predicate Accounts()
      reads this
    {
      && numQps > 0
      && effectiveMaxInflight > 0
      && Ledger(stream, numQps, inflight, credited, hist)
      && totalCmds == |PostedWrites(hist)| && rounds == Rounds(hist)
      && tail <= cpuHead
    }

    /** Round `r` is to be written to peer `p`, and the NIC takes it. */
    predicate Reaches(r: nat, p: nat) {
      stagingReady && p < |barrierAddr| && barrierAddr[p] && barrierAccepts(r, p)
    }

    /** The peers below `n` that round `r` reaches. */
    function Reached(r: nat, n: nat): seq<nat> {
      if n == 0 then [] else Reached(r, n - 1) + if Reaches(r, n - 1) then [n - 1] else []
    }

    /** The first `n` rounds were written to every peer they reach, and to no other. */
    ghost predicate RoundsSent(t: Trace, n: nat) {
      forall r: nat :: r < n ==> RoundPeers(t, r) == Reached(r, |barrierAddr|)
    }

    /** Other events leave that as it is. */
    lemma StillSent(t: Trace, e: Event)
      requires RoundsSent(t, Rounds(t)) && !e.BarrierPosted? && !e.BarrierRound?
      ensures RoundsSent(Then(t, e), Rounds(Then(t, e)))
    {
    }

    ghost predicate Common()
      reads this
    {
      Accounts() && RoundsSent(hist, Rounds(hist))
    }

    /** A batch that may be posted now: one target, and room for its credits. */
    ghost predicate BatchOk(batch: seq<TransferCmd>)
      requires numQps > 0
      reads this
    {
      && |batch| <= BATCH_SIZE
      && SingleTarget(numQps, batch)
      && inflight + |batch| <= effectiveMaxInflight + |barrierAddr|
    }

    /** Holds between iterations of the run loop. */
    ghost predicate Valid()
      reads this
    {
      && Common()
      && BarriersCounted()
      && InOrder(pendingBatch)
      && BatchOk(pendingBatch)
      && (pendingBatch != [] ==>
            LocalQp(numQps, pendingBatch[0]) == pendingBatchQp && tail <= pendingCpuHead <= cpuHead)
    }

    constructor (stream: seq<TransferCmd>, mode: NotifyMode, useArrivalQueue: bool, enableRemoteTail: bool,
                 peerHasTail: nat -> bool, maxInflight: int, sqDepth: int, qps: int,
                 stagingReady: bool, barrierAddr: seq<bool>, barrierAccepts: (nat, nat) -> bool)
      ensures Valid()
      ensures this.stream == stream && cpuHead == 0 && hist == Start
      ensures numQps == ClampQps(qps)
      ensures effectiveMaxInflight == EffectiveMaxInflight(mode, maxInflight, sqDepth, qps)
    {
      this.stream, this.mode, this.useArrivalQueue := stream, mode, useArrivalQueue;
      this.enableRemoteTail, this.peerHasTail := enableRemoteTail, peerHasTail;
      this.numQps := ClampQps(qps);
      this.effectiveMaxInflight := EffectiveMaxInflight(mode, maxInflight, sqDepth, qps);
      this.stagingReady, this.barrierAddr, this.barrierAccepts := stagingReady, barrierAddr, barrierAccepts;
      inflight, hasPendingCmd, hasPendingBarrier, pendingBatch, pendingBatchQp := 0, false, false, [], 0;
      pendingCmd := TransferCmd(Empty, 0, 0, 0, 0, 0, 0);
      pendingCpuHead, totalCmds, merged, rounds, cpuHead, tail := 0, 0, 0, 0, 0, 0;
      plain, credited := 0, multiset{};
      emptyPolls := *;
      hist := Start;
    }

    // ----- the completion queue

    /** Retire one delivered completion that bears a credit. */
    method Retire(tag: Tag)
      requires Common() && tag in credited
      modifies this`inflight, this`credited, this`hist
      ensures Common()
      ensures inflight == old(inflight) - 1
      ensures |credited| < old(|credited|)
      ensures hist == AfterRetire(old(hist), tag)
    {
      LedgerRetire(stream, numQps, inflight, credited, hist, tag);
      if tag.ForWrite? {
        StillSent(hist, Retired(tag.n));
      }
      inflight := inflight - 1;
      credited := credited - multiset{tag};
      hist := AfterRetire(hist, tag);
    }

    /** One `poll_cq`: up to 32 completions in any order, all retired. */
    method PollCq()
      requires Common()
      modifies this`inflight, this`plain, this`credited, this`emptyPolls, this`hist
      ensures Common()
      ensures inflight <= old(inflight)
      ensures PostedWrites(hist) == PostedWrites(old(hist)) && Rounds(hist) == Rounds(old(hist))
      ensures plain + |credited| <= old(plain + |credited|)
      ensures plain + |credited| == old(plain + |credited|) ==>
                emptyPolls < old(emptyPolls) || (plain + |credited| == 0 && emptyPolls == old(emptyPolls))
    {
      if emptyPolls > 0 {
        var miss: bool := *;
        if miss {
          emptyPolls := emptyPolls - 1;
          return;
        }
      }
      var n := 0;
      while n < POLL_WIDTH && plain + |credited| > 0
        invariant 0 <= n
        invariant Common()
        invariant inflight <= old(inflight)
        invariant PostedWrites(hist) == PostedWrites(old(hist)) && Rounds(hist) == Rounds(old(hist))
        invariant plain + |credited| <= old(plain + |credited|) - (if n > 0 then 1 else 0)
        invariant emptyPolls == old(emptyPolls)
        decreases POLL_WIDTH - n
      {
        var enough: bool := *;
        if n > 0 && enough { break; }
        var free: bool := *;
        if |credited| == 0 || (free && plain > 0) {
          plain := plain - 1;
        } else {
          var tag :| tag in credited;
          Retire(tag);
        }
        n := n + 1;
      }
      if n > 0 {
        emptyPolls := *;
      }
    }

    /** Wait until every credit has come back. */
    method DrainCq()
      requires Common()
      modifies this`inflight, this`plain, this`credited, this`emptyPolls, this`hist
      ensures Common()
      ensures inflight == 0
      ensures PostedWrites(hist) == PostedWrites(old(hist)) && Rounds(hist) == Rounds(old(hist))
      ensures AllRetired(hist)
    {
      while inflight > 0
        invariant Common()
        invariant PostedWrites(hist) == PostedWrites(old(hist)) && Rounds(hist) == Rounds(old(hist))
        decreases plain + |credited|, emptyPolls
      {
        PollCq();
      }
      NothingInFlight(stream, numQps, credited, hist);
    }

    /** A round has come to peer `p`. */
    ghost predicate Writing(r: nat, p: nat)
      reads this
    {
      && Accounts() && Settled(stream, hist, cpuHead)
      && Rounds(hist) == r + 1 && RoundsSent(hist, r)
      && RoundPeers(hist, r) == Reached(r, p)
      && inflight == |Reached(r, p)| <= p
      && forall q: nat :: credited[ForBarrier(q)] == if q < p && Reaches(r, q) then 1 else 0
    }

    method BeginRound()
      requires Common() && inflight == 0 && Settled(stream, hist, cpuHead)
      modifies this`hist, this`rounds
      ensures Writing(Rounds(old(hist)), 0) && PostedWrites(hist) == PostedWrites(old(hist))
    {
      LedgerBarrier(stream, numQps, inflight, credited, hist, 0, cpuHead);
      NoPeersYet(hist, Rounds(hist));
      hist, rounds := Then(hist, BarrierRound(cpuHead)), rounds + 1;
    }

    lemma SkipPeer(r: nat, p: nat)
      requires Writing(r, p) && !Reaches(r, p)
      ensures Writing(r, p + 1)
    {
    }

    method WriteBarrier(ghost r: nat, p: nat)
      requires Writing(r, p) && Reaches(r, p)
      modifies this`inflight, this`credited, this`hist
      ensures Writing(r, p + 1) && PostedWrites(hist) == PostedWrites(old(hist))
    {
      LedgerBarrier(stream, numQps, inflight, credited, hist, p, cpuHead);
      hist := Then(hist, BarrierPosted(p, cpuHead));
      credited := credited + multiset{ForBarrier(p)};
      inflight := inflight + 1;
    }

    lemma {:induction false} NothingReached(r: nat, n: nat)
      requires !stagingReady
      ensures Reached(r, n) == []
    {
      if n == 0 {
      } else {
        NothingReached(r, n - 1);
      }
    }

    /** Write the epoch into every peer's barrier slot; a peer without an address is
        skipped and a failed post is dropped.  Nothing is issued before everything in
        front of the current FIFO position is posted and retired.
     */
    method PostStageBarrier()
      requires Common() && inflight == 0
      requires Settled(stream, hist, cpuHead)
      modifies this`inflight, this`credited, this`hist, this`rounds
      ensures Common()
      ensures inflight == |Reached(Rounds(old(hist)), |barrierAddr|)| <= |barrierAddr|
      ensures forall p: nat :: credited[ForBarrier(p)] == if Reaches(Rounds(old(hist)), p) then 1 else 0
      ensures RoundPeers(hist, Rounds(old(hist))) == Reached(Rounds(old(hist)), |barrierAddr|)
      ensures PostedWrites(hist) == PostedWrites(old(hist)) && Rounds(hist) == Rounds(old(hist)) + 1
    {
      var r := rounds;
      BeginRound();
      if stagingReady {
        for p := 0 to |barrierAddr|
          invariant Writing(r, p)
          invariant PostedWrites(hist) == PostedWrites(old(hist))
        {
          if !barrierAddr[p] || !barrierAccepts(r, p) {
            SkipPeer(r, p);
            continue;
          }
          WriteBarrier(r, p);
        }
      } else {
        NothingReached(r, |barrierAddr|);
      }
    }

    // ----- posting a batch

    /** WRITE_IMM mode: one signaled request per command, bearing its credit. */
    method PostWriteImmBatch(first: nat, batch: seq<TransferCmd>) returns (free: nat, credits: multiset<Tag>)
      ensures credits == WriteCredits(first, |batch|) && free == 0
    {
      free, credits := 0, multiset{};
      for i := 0 to |batch|
        invariant credits == WriteCredits(first, i) && free == 0
      {
        credits := credits + multiset{ForWrite(first + i)};
      }
    }

    /** REMOTE_FLAG mode: data, flag and, in the queue layout, possibly a tail write per
        command; only the last of them bears the command's credit.
     */
    method PostRemoteFlagBatch(first: nat, batch: seq<TransferCmd>) returns (free: nat, credits: multiset<Tag>)
      requires batch != []
      ensures credits == WriteCredits(first, |batch|)
      ensures free == |batch| * (if useArrivalQueue && enableRemoteTail && peerHasTail(batch[0].dstRank) then 2 else 1)
    {
      free, credits := 0, multiset{};
      var hasTail := enableRemoteTail && peerHasTail(batch[0].dstRank);
      for i := 0 to |batch|
        invariant credits == WriteCredits(first, i)
        invariant free == i * (if useArrivalQueue && hasTail then 2 else 1)
      {
        free := free + 1;                                       // data
        if !useArrivalQueue {
          credits := credits + multiset{ForWrite(first + i)};   // flat flag
        } else if hasTail {
          free := free + 1;                                     // queue slot
          credits := credits + multiset{ForWrite(first + i)};   // tail
        } else {
          credits := credits + multiset{ForWrite(first + i)};   // queue slot
        }
      }
    }

    /** The requests of a batch in the notify mode at hand. */
    method Requests(batch: seq<TransferCmd>) returns (free: nat, credits: multiset<Tag>)
      requires batch != []
      ensures credits == WriteCredits(totalCmds, |batch|)
    {
      if mode == RemoteFlag {
        free, credits := PostRemoteFlagBatch(totalCmds, batch);
      } else {
        free, credits := PostWriteImmBatch(totalCmds, batch);
      }
    }

    /** Account for an accepted batch. */
    method Account(batch: seq<TransferCmd>, qp: nat, free: nat, credits: multiset<Tag>)
      requires Common() && Postable(numQps, qp, batch) && credits == WriteCredits(totalCmds, |batch|)
      modifies this`inflight, this`plain, this`credited, this`totalCmds, this`hist
      ensures Common()
      ensures hist == Then(old(hist), Posted(qp, batch)) && inflight == old(inflight) + |batch|
    {
      StillSent(hist, Posted(qp, batch));
      LedgerPost(stream, numQps, inflight, credited, hist, qp, batch);
      plain := plain + free;
      credited := credited + credits;
      inflight := inflight + |batch|;
      totalCmds := totalCmds + |batch|;
      hist := Then(hist, Posted(qp, batch));
    }

    /** Post a batch on its queue pair, if the NIC accepts it as a whole. */
    method PostBatch(batch: seq<TransferCmd>, qp: nat, accept: bool)
      requires Common() && Postable(numQps, qp, batch)
      modifies this`inflight, this`plain, this`credited, this`totalCmds, this`hist
      ensures Common()
      ensures accept ==> hist == Then(old(hist), Posted(qp, batch)) && inflight == old(inflight) + |batch|
      ensures !accept ==> hist == old(hist) && inflight == old(inflight) && plain == old(plain) && credited == old(credited)
    {
      var free, credits := Requests(batch);
      if accept {
        Account(batch, qp, free, credits);
      }
    }

    // ----- collecting a batch

    /** Drain, then send a barrier round: the only way a BARRIER leaves the run loop. */
    method FlushBarrier()
      requires Common() && cpuHead <= |stream|
      requires WritesIn(stream, 0, cpuHead) == PostedWrites(hist)
      modifies this`inflight, this`plain, this`credited, this`emptyPolls, this`hist, this`rounds
      ensures Common()
      ensures inflight <= |barrierAddr|
      ensures PostedWrites(hist) == PostedWrites(old(hist)) && Rounds(hist) == Rounds(old(hist)) + 1
    {
      DrainCq();
      PostStageBarrier();
    }

    /** What a collection phase has built, read off the proxy's state. */
    ghost function Built(batch: seq<TransferCmd>, g: Gather, merged0: nat): Gather
      requires merged0 <= merged
      reads this
    {
      Gather(batch, if hasPendingCmd then Some(pendingCmd) else None, hasPendingBarrier,
             g.inlined, merged - merged0, g.stopped)
    }

    /** Holds while a batch is being collected; `g` is what the phase has built so far. */
    ghost predicate Collecting(batch: seq<TransferCmd>, g: Gather, merged0: nat)
      reads this
    {
      && Common()
      && BarriersCounted()
      && InOrder(batch)
      && SingleTarget(numQps, batch)
      && pendingBatch == []
      && merged0 <= merged
      && g == Built(batch, g, merged0)
    }

    /** The BARRIER just polled at `cpuHead - 1`: with no WRITE in the batch it is drained
        for and posted on the spot, behind one it waits its turn.
     */
    method TakeBarrier(batch: seq<TransferCmd>) returns (stop: bool)
      requires Common() && InOrder(batch) && !hasPendingCmd
      modifies this`inflight, this`plain, this`credited, this`emptyPolls, this`hist, this`rounds,
               this`hasPendingBarrier, this`merged
      ensures Common() && InOrder(batch)
      ensures stop == (batch != [])
      ensures hasPendingBarrier == (old(hasPendingBarrier) || stop)
      ensures merged == old(merged) + (if old(hasPendingBarrier) && stop then 1 else 0)
      ensures Rounds(hist) == Rounds(old(hist)) + (if stop then 0 else 1)
      ensures if stop then inflight == old(inflight) else inflight <= |barrierAddr|
    {
      stop := |batch| > 0;
      if stop {
        merged := merged + (if hasPendingBarrier then 1 else 0);
        hasPendingBarrier := true;
      } else {
        assert PostedWrites(hist) + (batch + Stash()) == PostedWrites(hist);
        FlushBarrier();
      }
    }

    /** The WRITE just polled at `cpuHead - 1` joins the batch, or is stashed if it has
        another queue pair or another peer.
     */
    method TakeWrite(batch: seq<TransferCmd>, cmd: TransferCmd) returns (batch': seq<TransferCmd>, stop: bool)
      requires numQps > 0 && !hasPendingCmd
      modifies this`pendingCmd, this`hasPendingCmd
      ensures batch' + Stash() == batch + [cmd]
      ensures stop == hasPendingCmd == !Fits(numQps, batch, cmd)
      ensures batch' == if stop then batch else batch + [cmd]
      ensures stop ==> pendingCmd == cmd
    {
      if |batch| == 0 || (LocalQp(numQps, cmd) == LocalQp(numQps, batch[0]) && cmd.dstRank == batch[0].dstRank) {
        batch', stop := batch + [cmd], false;
      } else {
        pendingCmd := cmd;
        hasPendingCmd := true;
        batch', stop := batch, true;
      }
    }

    /** The batch leaves room for its credits, given what was in flight when collection
        began; posting barriers on the spot may since have replaced those credits.
     */
    ghost predicate Budgeted(batch: seq<TransferCmd>, room: int)
      reads this
    {
      && |batch| <= BATCH_SIZE
      && (batch != [] ==> |batch| <= room)
      && room <= effectiveMaxInflight
      && (inflight + room == effectiveMaxInflight || inflight <= |barrierAddr|)
    }

    /** Poll and handle the command at the head of the FIFO. */
    method Take(batch: seq<TransferCmd>, ghost room: int, ghost g: Gather, ghost merged0: nat)
      returns (batch': seq<TransferCmd>, stop: bool, ghost g': Gather)
      requires Collecting(batch, g, merged0) && !hasPendingCmd && !g.stopped
      requires cpuHead < |stream| && Budgeted(batch, room) && |batch| < BATCH_SIZE && |batch| < room
      modifies this`cpuHead, this`inflight, this`plain, this`credited, this`emptyPolls, this`hist, this`rounds,
               this`pendingCmd, this`hasPendingCmd, this`hasPendingBarrier, this`merged
      ensures cpuHead == old(cpuHead) + 1
      ensures g' == Absorb(numQps, g, stream[old(cpuHead)])
      ensures Collecting(batch', g', merged0) && stop == g'.stopped
      ensures !stop ==> !hasPendingCmd
      ensures Budgeted(batch', room)
      ensures batch != [] ==> batch' != []
    {
      var cmd := stream[cpuHead];
      batch', stop, g' := batch, false, Absorb(numQps, g, cmd);
      AbsorbKeepsOrder(numQps, g, cmd);
      cpuHead := cpuHead + 1;
      match cmd.cmdType {
        case BarrierNotify =>
          stop := TakeBarrier(batch);
        case Write =>
          assert PostedWrites(hist) + (batch + [cmd]) == PostedWrites(hist) + (batch + Stash()) + [cmd];
          batch', stop := TakeWrite(batch, cmd);
        case _ =>
      }
    }

    /** A phase that began with `g0` at FIFO position `from` and has built `g`. */
    ghost predicate Phase(batch: seq<TransferCmd>, room: int, g: Gather, merged0: nat, g0: Gather, from: nat)
      reads this
    {
      && Collecting(batch, g, merged0)
      && Budgeted(batch, room)
      && Polled(numQps, g0, stream, from, cpuHead, g)
    }

    /** One poll of a phase. */
    method TakeNext(batch: seq<TransferCmd>, room: int, ghost g: Gather, ghost merged0: nat, ghost g0: Gather, ghost from: nat)
      returns (batch': seq<TransferCmd>, stop: bool, ghost g': Gather)
      requires Phase(batch, room, g, merged0, g0, from) && !hasPendingCmd && !g.stopped
      requires cpuHead < |stream| && |batch| < BATCH_SIZE && |batch| < room
      modifies this`cpuHead, this`inflight, this`plain, this`credited, this`emptyPolls, this`hist, this`rounds,
               this`pendingCmd, this`hasPendingCmd, this`hasPendingBarrier, this`merged
      ensures Phase(batch', room, g', merged0, g0, from) && cpuHead == old(cpuHead) + 1
      ensures stop == g'.stopped && (!stop ==> !hasPendingCmd)
      ensures batch != [] ==> batch' != []
    {
      ghost var head := cpuHead;
      batch', stop, g' := Take(batch, room, g, merged0);
      FoldStep(numQps, g0, stream, from, head, g);
    }

    /** Whether a poll finds a command: one below `visible` is there for sure, later ones may
        have come in meanwhile.
     */
    method Visible(visible: nat) returns (found: bool)
      ensures found ==> cpuHead < |stream|
      ensures cpuHead < visible && cpuHead < |stream| ==> found
    {
      found := *;
      found := cpuHead < |stream| && (found || cpuHead < visible);
    }

    /** Nothing has been posted or completed. */
    ghost predicate Untouched(plain0: nat, credited0: multiset<Tag>, emptyPolls0: nat, hist0: Trace)
      reads this
    {
      plain == plain0 && credited == credited0 && emptyPolls == emptyPolls0 && hist == hist0
    }

    /** The seeding loop: poll until a miss, a full batch, an exhausted budget or a command
        that breaks it off.
     */
    method SeedPhase(seed: seq<TransferCmd>, room: int, visible: nat, ghost g0: Gather, ghost merged0: nat)
      returns (batch: seq<TransferCmd>, ghost g: Gather)
      requires Collecting(seed, g0, merged0) && !g0.stopped && !hasPendingCmd && Budgeted(seed, room)
      modifies this`cpuHead, this`inflight, this`plain, this`credited, this`emptyPolls, this`hist, this`rounds,
               this`pendingCmd, this`hasPendingCmd, this`hasPendingBarrier, this`merged
      ensures Phase(batch, room, g, merged0, g0, old(cpuHead))
      ensures seed != [] ==> batch != []
      ensures g.stopped || |batch| >= BATCH_SIZE || |batch| >= room || cpuHead >= visible || cpuHead == |stream|
      ensures cpuHead == old(cpuHead) ==> Untouched(old(plain), old(credited), old(emptyPolls), old(hist))
    {
      batch, g := seed, g0;
      var open := true;
      while open && |batch| < BATCH_SIZE && |batch| < room
        invariant Phase(batch, room, g, merged0, g0, old(cpuHead))
        invariant seed != [] ==> batch != []
        invariant open ==> !hasPendingCmd && !g.stopped
        invariant !open ==> g.stopped
        invariant cpuHead == old(cpuHead) ==> Untouched(old(plain), old(credited), old(emptyPolls), old(hist))
        decreases |stream| - cpuHead
      {
        var found := Visible(visible);
        if !found { break; }
        var stop;
        batch, stop, g := TakeNext(batch, room, g, merged0, g0, old(cpuHead));
        open := !stop;
      }
    }

    /** The accumulate-spin loop: keep polling for a while to fill a short batch. */
    method SpinPhase(short: seq<TransferCmd>, room: int, visible: nat, ghost g0: Gather, ghost merged0: nat)
      returns (batch: seq<TransferCmd>, ghost g: Gather)
      requires Collecting(short, g0, merged0) && !g0.stopped && !hasPendingCmd && Budgeted(short, room) && short != []
      modifies this`cpuHead, this`inflight, this`plain, this`credited, this`emptyPolls, this`hist, this`rounds,
               this`pendingCmd, this`hasPendingCmd, this`hasPendingBarrier, this`merged
      ensures Phase(batch, room, g, merged0, g0, old(cpuHead)) && batch != []
      ensures || g.stopped || |batch| >= BATCH_SIZE || |batch| >= room || cpuHead >= visible || cpuHead == |stream|
              || cpuHead - old(cpuHead) >= ACCUMULATE_SPINS
      ensures cpuHead == old(cpuHead) ==> Untouched(old(plain), old(credited), old(emptyPolls), old(hist))
    {
      batch, g := short, g0;
      var open, spin, misses := true, 0, 0;
      while open && spin < ACCUMULATE_SPINS && misses < ACCUMULATE_MISS_BUDGET && |batch| < BATCH_SIZE && |batch| < room
        invariant Phase(batch, room, g, merged0, g0, old(cpuHead)) && batch != []
        invariant open ==> !hasPendingCmd && !g.stopped
        invariant !open ==> g.stopped
        invariant cpuHead < visible && cpuHead < |stream| ==> misses == 0 && cpuHead - old(cpuHead) >= spin
        invariant cpuHead == old(cpuHead) ==> Untouched(old(plain), old(credited), old(emptyPolls), old(hist))
        decreases ACCUMULATE_SPINS - spin
      {
        spin := spin + 1;
        var found := Visible(visible);
        if !found {
          misses := misses + 1;
        } else {
          misses := 0;
          var stop;
          batch, stop, g := TakeNext(batch, room, g, merged0, g0, old(cpuHead));
          open := !stop;
        }
      }
    }

    /** The stashed command, if there is one, opens the batch. */
    method Unstash(ghost room: int) returns (batch: seq<TransferCmd>)
      requires Valid() && pendingBatch == [] && inflight + room == effectiveMaxInflight && room > 0
      modifies this`hasPendingCmd
      ensures batch == old(Stash()) && !hasPendingCmd && Budgeted(batch, room)
      ensures Collecting(batch, Gather(batch, None, hasPendingBarrier, 0, 0, false), merged)
    {
      batch := [];
      if hasPendingCmd {
        batch := [pendingCmd];
        hasPendingCmd := false;
      }
    }

    /** A fresh batch: seeded with the stash when the budget allows, then both phases.
        The spin phase follows whenever the batch is short and nothing is stashed.  Collecting
        goes on as long as commands are visible and there is room, up to the spin budget.
     */
    method Collect(visible: nat) returns (batch: seq<TransferCmd>, ghost mid: nat, ghost g: Gather)
      requires Valid() && pendingBatch == [] && inflight < effectiveMaxInflight
      modifies this`cpuHead, this`inflight, this`plain, this`credited, this`emptyPolls, this`hist, this`rounds,
               this`pendingCmd, this`hasPendingCmd, this`hasPendingBarrier, this`merged
      ensures Collecting(batch, g, old(merged)) && BatchOk(batch)
      ensures old(cpuHead) <= mid <= cpuHead <= |stream|
      ensures TwoPhases(numQps, Gather(old(Stash()), None, old(hasPendingBarrier), 0, 0, false),
                        stream, old(cpuHead), mid, cpuHead, g)
      ensures || g.stopped || |batch| >= BATCH_SIZE || |batch| >= effectiveMaxInflight - old(inflight)
              || cpuHead >= visible || cpuHead == |stream| || cpuHead - mid >= ACCUMULATE_SPINS
      ensures old(cpuHead) < visible && old(cpuHead) < |stream| && !old(hasPendingCmd) ==> old(cpuHead) < cpuHead
      ensures cpuHead == old(cpuHead) ==> Untouched(old(plain), old(credited), old(emptyPolls), old(hist))
    {
      var room := effectiveMaxInflight - inflight;
      batch := Unstash(room);
      g := Gather(batch, None, hasPendingBarrier, 0, 0, false);
      batch, g := SeedPhase(batch, room, visible, g, merged);
      mid := cpuHead;
      if 0 < |batch| < BATCH_SIZE && !hasPendingCmd {
        batch, g := SpinPhase(batch, room, visible, g.(stopped := false), old(merged));
      }
    }

    // ----- the run loop

    /** Ready to post: the batch comes right after the posted WRITEs in FIFO order. */
    ghost predicate Ready(batch: seq<TransferCmd>, qp: nat)
      reads this
    {
      && Common()
      && BarriersCounted()
      && InOrder(batch)
      && BatchOk(batch)
      && (batch != [] ==> LocalQp(numQps, batch[0]) == qp && tail <= pendingCpuHead <= cpuHead)
    }

    // What is left to do, the coarsest part first.

    /** Every command below `visible` has been polled, every WRITE polled has been posted, and no
        BARRIER waits for its round.
     */
    ghost predicate CaughtUp(visible: nat)
      reads this
    {
      (cpuHead >= visible || cpuHead == |stream|) && pendingBatch == [] && !hasPendingCmd && !hasPendingBarrier
    }

    /** With `batch` in hand, and between iterations. */
    ghost function ToDoWith(batch: seq<TransferCmd>): Todo
      reads this
    {
      Todo(if cpuHead <= |stream| then |stream| - cpuHead else 0, |batch| + |Stash()|, |Stash()|,
           if hasPendingBarrier then 1 else 0, plain + |credited|, emptyPolls)
    }

    ghost function ToDo(): Todo
      reads this
    {
      ToDoWith(pendingBatch)
    }

    /** A stashed BARRIER may go out now. */
    ghost predicate BarrierDue()
      reads this
    {
      hasPendingBarrier && pendingBatch == [] && !hasPendingCmd
    }

    /** A fresh batch, as far as the work left is concerned. */
    method Fresh(visible: nat) returns (batch: seq<TransferCmd>)
      requires Valid() && pendingBatch == [] && !BarrierDue() && inflight < effectiveMaxInflight
      modifies this`cpuHead, this`inflight, this`plain, this`credited, this`emptyPolls, this`hist, this`rounds,
               this`pendingCmd, this`hasPendingCmd, this`hasPendingBarrier, this`merged
      ensures Common() && BarriersCounted() && InOrder(batch) && BatchOk(batch)
      ensures old(cpuHead) <= cpuHead
      ensures ToDoWith(batch) == old(ToDo()) || Less(ToDoWith(batch), old(ToDo()))
      ensures ToDoWith(batch) == old(ToDo()) ==> old(CaughtUp(visible))
    {
      ghost var mid, g;
      batch, mid, g := Collect(visible);
    }

    /** The batch of this iteration: the refused one again, or a fresh one. */
    method NextBatch(visible: nat) returns (batch: seq<TransferCmd>, qp: nat)
      requires Valid() && !BarrierDue()
      modifies this`cpuHead, this`inflight, this`plain, this`credited, this`emptyPolls, this`hist, this`rounds,
               this`pendingCmd, this`hasPendingCmd, this`hasPendingBarrier, this`merged, this`pendingCpuHead
      ensures Ready(batch, qp)
      ensures old(cpuHead) <= cpuHead && (batch == [] ==> pendingBatch == [])
      ensures ToDoWith(batch) == old(ToDo()) || Less(ToDoWith(batch), old(ToDo()))
      ensures ToDoWith(batch) == old(ToDo()) && !old(CaughtUp(visible)) ==> batch != [] || inflight > 0
      ensures pendingBatch != [] ==> batch == pendingBatch
      ensures pendingBatch == [] && batch != [] ==> pendingCpuHead == cpuHead
    {
      batch, qp := pendingBatch, pendingBatchQp;
      if pendingBatch == [] {
        if inflight < effectiveMaxInflight {
          batch := Fresh(visible);
        }
        if batch != [] {
          qp := LocalQp(numQps, batch[0]);
          pendingCpuHead := cpuHead;
        }
      }
    }

    /** Post the batch, or keep it for a retry if the NIC refuses it. */
    method PostOrKeep(batch: seq<TransferCmd>, qp: nat, accept: bool)
      requires Ready(batch, qp) && (pendingBatch != [] ==> batch == pendingBatch)
      modifies this`inflight, this`plain, this`credited, this`totalCmds, this`hist, this`pendingBatch, this`pendingBatchQp
      ensures Valid()
      ensures accept && batch != [] ==> pendingBatch == [] && PostedWrites(hist) == PostedWrites(old(hist)) + batch
                                        && tail <= pendingCpuHead <= cpuHead
      ensures if accept && batch != [] then Less(ToDo(), old(ToDoWith(batch)))
              else pendingBatch == batch && hist == old(hist) && inflight == old(inflight) && ToDo() == old(ToDoWith(batch))
      ensures Rounds(hist) == Rounds(old(hist))
    {
      if batch != [] {
        PostBatch(batch, qp, accept);
        pendingBatch, pendingBatchQp := if accept then [] else batch, qp;
        assert PostedWrites(old(hist)) + (batch + Stash()) == (PostedWrites(old(hist)) + batch) + ([] + Stash());
      }
    }

    /** The stashed BARRIER goes out. */
    method FlushPending()
      requires Valid() && BarrierDue()
      modifies this`inflight, this`plain, this`credited, this`emptyPolls, this`hist, this`rounds, this`hasPendingBarrier
      ensures Valid() && !hasPendingBarrier
      ensures Rounds(hist) == Rounds(old(hist)) + 1 && PostedWrites(hist) == PostedWrites(old(hist))
    {
      hasPendingBarrier := false;
      FlushBarrier();
    }

    /** Poll the completion queue between iterations. */
    method PollValid()
      requires Valid()
      modifies this`inflight, this`plain, this`credited, this`emptyPolls, this`hist
      ensures Valid()
      ensures PostedWrites(hist) == PostedWrites(old(hist)) && Rounds(hist) == Rounds(old(hist))
      ensures ToDo() == old(ToDo()) || Less(ToDo(), old(ToDo()))
      ensures old(inflight) > 0 ==> Less(ToDo(), old(ToDo()))
    {
      PollCq();
    }

    /** Hand the FIFO slots up to the posted batch back to the GPU. */
    method AdvanceTail()
      requires Valid() && tail <= pendingCpuHead <= cpuHead
      modifies this`tail
      ensures Valid() && tail == pendingCpuHead
    {
      tail := pendingCpuHead;
    }

    /** Post or keep the batch, poll, and free the FIFO slots of what was posted. */
    method PostAndPoll(batch: seq<TransferCmd>, qp: nat, accept: bool)
      requires Ready(batch, qp) && (pendingBatch != [] ==> batch == pendingBatch)
      modifies this`inflight, this`plain, this`credited, this`emptyPolls, this`totalCmds, this`hist,
               this`pendingBatch, this`pendingBatchQp, this`tail
      ensures Valid()
      ensures tail == if accept && batch != [] then pendingCpuHead else old(tail)
      ensures pendingBatch == if accept then [] else batch
      ensures PostedWrites(hist) + pendingBatch == PostedWrites(old(hist)) + batch && Rounds(hist) == Rounds(old(hist))
      ensures ToDo() == old(ToDoWith(batch)) || Less(ToDo(), old(ToDoWith(batch)))
      ensures (if batch == [] then old(inflight) > 0 else accept) ==> Less(ToDo(), old(ToDoWith(batch)))
    {
      ghost var before := ToDoWith(batch);
      PostOrKeep(batch, qp, accept);
      ghost var between := ToDo();
      PollValid();
      LessTransitive(ToDo(), between, before);
      if accept && batch != [] {
        AdvanceTail();
      }
    }

    method CollectAndPost(visible: nat, accept: bool)
      requires Valid() && !BarrierDue()
      modifies this
      ensures Valid()
      ensures old(cpuHead) <= cpuHead && old(tail) <= tail
      ensures accept ==> pendingBatch == []
      ensures ToDo() == old(ToDo()) || Less(ToDo(), old(ToDo()))
      ensures accept && !old(CaughtUp(visible)) ==> Less(ToDo(), old(ToDo()))
    {
      ghost var before, due := ToDo(), !CaughtUp(visible);
      var batch, qp := NextBatch(visible);
      ghost var between := ToDoWith(batch);
      assert due && between == before ==> batch != [] || inflight > 0;
      PostAndPoll(batch, qp, accept);
      LessTransitive(ToDo(), between, before);
    }

    /** One iteration.  A stashed BARRIER goes out as soon as no batch waits for a retry and
        no command waits to seed one; otherwise a batch is replayed or collected, and posted.
        No iteration makes more to do, and one whose post is accepted gets something done.
     */
    method Iterate(turn: Turn)
      requires Valid()
      modifies this
      ensures Valid()
      ensures old(cpuHead) <= cpuHead && old(tail) <= tail
      ensures turn.paused ==> hist == old(hist) && cpuHead == old(cpuHead)
      ensures !turn.paused && old(BarrierDue()) ==>
                !hasPendingBarrier && Rounds(hist) == Rounds(old(hist)) + 1 && cpuHead == old(cpuHead)
                && PostedWrites(hist) == PostedWrites(old(hist))
      ensures !turn.paused && turn.accept ==> pendingBatch == []
      ensures ToDo() == old(ToDo()) || Less(ToDo(), old(ToDo()))
      ensures !turn.paused && turn.accept && !old(CaughtUp(turn.visible)) ==> Less(ToDo(), old(ToDo()))
    {
      if turn.paused { return; }
      if hasPendingBarrier && pendingBatch == [] && !hasPendingCmd {
        FlushPending();
        return;
      }
      CollectAndPost(turn.visible, turn.accept);
    }

    /** The run loop under any schedule, followed by the final drain. */
    method Run(turns: seq<Turn>)
      requires Valid()
      modifies this
      ensures Valid()
      ensures WritesIn(stream, 0, cpuHead) == PostedWrites(hist) + (pendingBatch + Stash())
      ensures Safe(stream, numQps, hist)
      ensures inflight == 0 && AllRetired(hist)
      ensures BarriersIn(stream, 0, cpuHead) == Rounds(hist) + merged + (if hasPendingBarrier then 1 else 0)
    {
      for i := 0 to |turns|
        invariant Valid()
      {
        Iterate(turns[i]);
      }
      DrainCq();
    }

    /** Pauses and refusals only delay: as long as iterations whose posts are accepted keep coming,
        every visible WRITE is posted and every waiting BARRIER gets its round, after finitely
        many iterations.
     */
    method RunUntilCaughtUp(turns: nat -> Turn, visible: nat) returns (n: nat)
      requires Valid() && forall i: nat :: HelpsAgain(turns, visible, i)
      modifies this
      ensures Valid() && CaughtUp(visible)
      ensures PostedWrites(hist) == WritesIn(stream, 0, cpuHead)
      ensures BarriersIn(stream, 0, cpuHead) == Rounds(hist) + merged && RoundsSent(hist, Rounds(hist))
    {
      n := 0;
      ghost var next, left := NextHelp(turns, visible, 0), ToDo();
      while (cpuHead < visible && cpuHead < |stream|) || pendingBatch != [] || hasPendingCmd || hasPendingBarrier
        invariant Valid() && left == ToDo()
        invariant n <= next && Helps(turns(next), visible)
        decreases left.unpolled, left.unposted, left.stashed, left.barrier, left.requests, left.misses, next - n
      {
        Iterate(turns(n));
        left := ToDo();
        if n == next {
          next := NextHelp(turns, visible, n + 1);
        }
        n := n + 1;
      }
      assert PostedWrites(hist) + ([] + []) == PostedWrites(hist);
    }
  }
}
