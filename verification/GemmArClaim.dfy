/** The gemm_ar reducers that claim chunks by compare-and-swap: the receive-ready queue, work
    stealing and the bounded-window scan.

    The one drainer of an arrival queue takes words off it, marks which peers have arrived and
    flags a chunk when the last one has.  It moves the queue's head by a plain load and store,
    which the stride of the drainers makes safe.  A chunk whose local result is done and whose peers have arrived is claimed by changing its local
    flag from 1 to 2, and then either published by the claimer or passed through a queue.
    CTAs of every kind may be mixed; one atomic access is one step.
 */
module GemmArClaim {
  import opened Arith
  import opened ArrivalQueue
  import opened PeerSums
  import opened TicketQueue

  /** `capacity` is that of the ready queue.  `decode` gives the work announced by an arrival
      word.  CTAs below `drainers` drain the arrival queues, with that stride.  `staleLocal` and
      `staleRecv` are what the buffers hold before their data is in.
   */
  datatype Cfg = Cfg(chunks: nat, peers: nat, capacity: nat, local: nat -> int, recv: Work -> int,
                     staleLocal: nat -> int, staleRecv: Work -> int, decode: nat -> seq<Work>, drainers: nat)

  ghost predicate CfgOk(cfg: Cfg) {
    cfg.peers > 0 && cfg.capacity > 0 && cfg.chunks <= cfg.capacity
  }

  function EncodeChunk(c: nat): nat { c + 1 }

  // ----- who drains which queue

  /** CTA `id` comes to queue `q` in its loop. */
  predicate Visits(id: nat, stride: nat, q: nat) {
    stride > 0 && id <= q && (q - id) % stride == 0
  }

  /** Between two queues of a drainer there is none of its own. */
  lemma VisitsBelow(id: nat, stride: nat, k: nat)
    requires stride > 0
    ensures Visits(id, stride, Pair(k, stride, id))
    ensures forall j: nat :: Pair(k, stride, id) < j < Pair(k, stride, id) + stride ==> !Visits(id, stride, j)
  {
    PairDigits(k, stride, 0);
    forall j: nat | Pair(k, stride, id) < j < Pair(k, stride, id) + stride
      ensures !Visits(id, stride, j)
    {
      PairDigits(k, stride, j - Pair(k, stride, id));
      assert j - id == Pair(k, stride, j - Pair(k, stride, id));
    }
  }

  /** The loop of a drainer over its queues. */
  method OwnedQueues(id: nat, queues: nat, stride: nat) returns (qs: seq<nat>)
    requires stride > 0
    ensures forall q: nat :: q in qs <==> q < queues && Visits(id, stride, q)
  {
    qs := [];
    var q := id;
    ghost var k := 0;
    while q < queues
      invariant q == Pair(k, stride, id)
      invariant forall j: nat :: j in qs <==> j < q && j < queues && Visits(id, stride, j)
    {
      VisitsBelow(id, stride, k);
      qs := qs + [q];
      q := q + stride;
      k := k + 1;
    }
  }

  lemma VisitsIs(id: nat, stride: nat, q: nat)
    requires id < stride
    ensures Visits(id, stride, q) <==> q % stride == id
  {
    DigitsPair(q, stride);
    if id <= q {
      DigitsPair(q - id, stride);
      if Visits(id, stride, q) {
        DivIs(q, stride, (q - id) / stride, id);
      } else if q % stride == id {
        DivIs(q - id, stride, q / stride, 0);
        assert false;
      }
    } else {
      DivIs(q, stride, 0, q);
    }
  }

  /** No queue has two drainers among CTAs 0 to n - 1. */
  ghost predicate OneDrainer(n: nat, stride: nat, queues: nat) {
    forall q: nat, i: nat, j: nat ::
      q < queues && i < n && j < n && Visits(i, stride, q) && Visits(j, stride, q) ==> i == j
  }

  /** Which holds exactly if no CTA, or no queue, lies beyond the stride. */
  lemma OneDrainerIff(n: nat, stride: nat, queues: nat)
    requires stride > 0
    ensures OneDrainer(n, stride, queues) <==> n <= stride || queues <= stride
  {
    if n <= stride || queues <= stride {
      forall q: nat, i: nat, j: nat | q < queues && i < n && j < n && Visits(i, stride, q) && Visits(j, stride, q)
        ensures i == j
      {
        VisitsIs(i, stride, q);
        VisitsIs(j, stride, q);
      }
    } else {
      DivIs(stride, stride, 1, 0);
      assert Visits(0, stride, stride) && Visits(stride, stride, stride);
    }
  }

  // ----- states

  datatype Pc =
    | Idle
    | DTake(q: nat, h: nat, v: nat)   // word seen at the head of a queue, to move the head
    | DWork(ws: seq<Work>)            // works of a drained word, to mark
    | DFlag(c: nat, ws: seq<Work>)    // to flag a chunk whose last peer has arrived
    | SLocal(c: nat, enqueue: bool)   // arrival seen, to look at the local flag
    | SCas(c: nat, enqueue: bool)     // both seen, to claim
    | QTicket(c: nat)                 // claimed, to enqueue
    | QPublish(k: nat, c: nat)
    | PTail(h: nat)                   // to dequeue
    | PCas(h: nat)
    | PSpin(k: nat)
    | POut(k: nat, c: nat)            // to write out a dequeued chunk
    | PCount(k: nat, c: nat)
    | DOut(c: nat)                    // to write out a chunk claimed directly
    | DCount(c: nat)
    | Exited

  /** `landed`: payloads in the receive buffers.  `mask`: peers marked as arrived.  The local
      flag of a chunk is 0 outside `localDone`, 2 in `claimed` and 1 otherwise.
   */
  datatype Flags = Flags(landed: set<Work>, mask: set<Work>, arrived: set<nat>, localDone: set<nat>, claimed: set<nat>)

  /** `finished` records the chunks counted in `published_chunks`. */
  datatype Result = Result(out: seq<int>, published: nat, finished: set<nat>)

  datatype Shared = Shared(inbox: Inbox, flags: Flags, rq: Queue<nat>, res: Result)

  datatype State = State(pc: seq<Pc>, sh: Shared)

  function At(s: State, i: nat, pc: Pc): State
    requires i < |s.pc|
  {
    s.(pc := s.pc[i := pc])
  }

  // ----- steps

  datatype Choice = Drain(q: nat) | Scan(c: nat, enqueue: bool) | Pop | TryExit

  ghost predicate Shaped(cfg: Cfg, h: Shared) {
    |h.inbox.heads| == |h.inbox.flags| && |h.rq.slots| == cfg.capacity && |h.res.out| == cfg.chunks
  }

  /** What the receive buffer of a peer's chunk holds. */
  function Seen(cfg: Cfg, landed: set<Work>, w: Work): int {
    if w in landed then cfg.recv(w) else cfg.staleRecv(w)
  }

  /** The sum a reducer reads at this moment. */
  function SumNow(cfg: Cfg, f: Flags, c: nat): int {
    (if c in f.localDone then cfg.local(c) else cfg.staleLocal(c)) + SumAll(w => Seen(cfg, f.landed, w), c, cfg.peers)
  }

  function Full(cfg: Cfg, c: nat): int {
    cfg.local(c) + SumAll(cfg.recv, c, cfg.peers)
  }

  function StartStep(cfg: Cfg, s: State, i: nat, a: Choice): State
    requires i < |s.pc|
  {
    var f := s.sh.flags;
    match a
    case Drain(q) =>
      if q < |s.sh.inbox.heads| && i < cfg.drainers && Visits(i, cfg.drainers, q) && HeadWord(s.sh.inbox, q) != 0 then
        At(s, i, DTake(q, s.sh.inbox.heads[q], HeadWord(s.sh.inbox, q)))
      else s
    case Scan(c, enqueue) => if c < cfg.chunks && c in f.arrived then At(s, i, SLocal(c, enqueue)) else s
    case Pop => At(s, i, PTail(s.sh.rq.head))
    case TryExit => if s.sh.res.published >= cfg.chunks then At(s, i, Exited) else s
  }

  /** Store the head; mark the next work of a word; whoever completes a chunk's peers flags it. */
  function DrainStep(cfg: Cfg, s: State, i: nat): State
    requires i < |s.pc|
  {
    var f := s.sh.flags;
    match s.pc[i]
    case DTake(q, h, v) =>
      At(s, i, DWork(cfg.decode(v))).(sh := s.sh.(inbox := StoreHead(s.sh.inbox, q, h + 1)))
    case DWork(ws) =>
      if ws == [] then At(s, i, Idle)
      else
        var w, mask := ws[0], f.mask + {ws[0]};
        var last := CountOf(f.mask, w.chunk, cfg.peers) < cfg.peers <= CountOf(mask, w.chunk, cfg.peers);
        At(s, i, if last then DFlag(w.chunk, ws[1..]) else DWork(ws[1..])).(sh := s.sh.(flags := f.(mask := mask)))
    case DFlag(c, ws) => At(s, i, DWork(ws)).(sh := s.sh.(flags := f.(arrived := f.arrived + {c})))
    case _ => s
  }

  function ClaimStep(s: State, i: nat): State
    requires i < |s.pc|
  {
    var f := s.sh.flags;
    match s.pc[i]
    case SLocal(c, enqueue) =>
      At(s, i, if c in f.localDone && c !in f.claimed then SCas(c, enqueue) else Idle)
    case SCas(c, enqueue) =>
      if c in f.localDone && c !in f.claimed then
        At(s, i, if enqueue then QTicket(c) else DOut(c)).(sh := s.sh.(flags := f.(claimed := f.claimed + {c})))
      else At(s, i, Idle)
    case _ => s
  }

  /** Positions wrap around the capacity of the queue. */
  function SlotAt(q: Queue<nat>, k: nat): nat
    requires |q.slots| > 0
  {
    k % |q.slots|
  }

  function QueueStep(s: State, i: nat): State
    requires i < |s.pc| && |s.sh.rq.slots| > 0
  {
    var q := s.sh.rq;
    match s.pc[i]
    case QTicket(c) => At(s, i, QPublish(|q.tickets|, c)).(sh := s.sh.(rq := Ticket(q, c)))
    case QPublish(k, c) => At(s, i, Idle).(sh := s.sh.(rq := Publish(q, SlotAt(q, k), EncodeChunk(c))))
    case PTail(h) => At(s, i, if h < |q.tickets| then PCas(h) else Idle)
    case PCas(h) => if q.head == h then At(s, i, PSpin(h)).(sh := s.sh.(rq := Claim(q))) else At(s, i, Idle)
    case PSpin(k) => if q.slots[SlotAt(q, k)] != 0 then At(s, i, POut(k, q.slots[SlotAt(q, k)] - 1)) else s
    case _ => s
  }

  function WriteOut(cfg: Cfg, h: Shared, c: nat): Shared
    requires c < |h.res.out|
  {
    h.(res := h.res.(out := h.res.out[c := SumNow(cfg, h.flags, c)]))
  }

  function Finish(h: Shared, c: nat): Shared {
    h.(res := h.res.(published := h.res.published + 1, finished := h.res.finished + {c}))
  }

  function OutStep(cfg: Cfg, s: State, i: nat): State
    requires i < |s.pc|
  {
    match s.pc[i]
    case POut(k, c) => if c < |s.sh.res.out| then At(s, i, PCount(k, c)).(sh := WriteOut(cfg, s.sh, c)) else s
    case DOut(c) => if c < |s.sh.res.out| then At(s, i, DCount(c)).(sh := WriteOut(cfg, s.sh, c)) else s
    case PCount(k, c) => At(s, i, Idle).(sh := Finish(s.sh, c))
    case DCount(c) => At(s, i, Idle).(sh := Finish(s.sh, c))
    case _ => s
  }

  function Step(cfg: Cfg, s: State, i: nat, a: Choice): State
    requires i < |s.pc| && Shaped(cfg, s.sh)
  {
    match s.pc[i]
    case Idle => StartStep(cfg, s, i, a)
    case DTake(_, _, _) | DWork(_) | DFlag(_, _) => DrainStep(cfg, s, i)
    case SLocal(_, _) | SCas(_, _) => ClaimStep(s, i)
    case QTicket(_) | QPublish(_, _) | PTail(_) | PCas(_) | PSpin(_) => if cfg.capacity > 0 then QueueStep(s, i) else s
    case POut(_, _) | DOut(_) | PCount(_, _) | DCount(_) => OutStep(cfg, s, i)
    case Exited => s
  }

  /** A peer's payload lands. */
  ghost predicate Land(cfg: Cfg, s: State, s': State, w: Work) {
    && w.peer < cfg.peers && w.chunk < cfg.chunks
    && s' == s.(sh := s.sh.(flags := s.sh.flags.(landed := s.sh.flags.landed + {w})))
  }

  ghost predicate AllLanded(landed: set<Work>, ws: seq<Work>) {
    forall n :: 0 <= n < |ws| ==> ws[n] in landed
  }

  /** An arrival word lands in an empty slot, behind the payloads it announces. */
  ghost predicate Arrive(cfg: Cfg, s: State, s': State, q: nat, k: nat, v: nat) {
    && AllLanded(s.sh.flags.landed, cfg.decode(v))
    && Lands(s.sh.inbox, s'.sh.inbox, q, k, v)
    && s' == s.(sh := s.sh.(inbox := s'.sh.inbox))
  }

  /** The local result of a chunk is complete: its flag goes from 0 to 1. */
  ghost predicate LocalDone(cfg: Cfg, s: State, s': State, c: nat) {
    && c < cfg.chunks && c !in s.sh.flags.localDone
    && s' == s.(sh := s.sh.(flags := s.sh.flags.(localDone := s.sh.flags.localDone + {c})))
  }

  ghost predicate Outside(cfg: Cfg, s: State, s': State) {
    || (exists w :: Land(cfg, s, s', w))
    || (exists q: nat, k: nat, v: nat :: Arrive(cfg, s, s', q, k, v))
    || (exists c: nat :: LocalDone(cfg, s, s', c))
  }

  ghost predicate Next(cfg: Cfg, s: State, s': State) {
    && Shaped(cfg, s.sh)
    && ((exists i: nat, a :: i < |s.pc| && s' == Step(cfg, s, i, a)) || Outside(cfg, s, s'))
  }

  ghost predicate Init(cfg: Cfg, s: State) {
    && CfgOk(cfg) && Shaped(cfg, s.sh)
    && (forall i :: 0 <= i < |s.pc| ==> s.pc[i] == Idle)
    && (forall q :: 0 <= q < |s.sh.inbox.flags| ==> s.sh.inbox.heads[q] == 0)
    && (forall q, k :: 0 <= q < |s.sh.inbox.flags| && 0 <= k < |s.sh.inbox.flags[q]| ==> s.sh.inbox.flags[q][k] == 0)
    && s.sh.flags == Flags({}, {}, {}, {}, {})
    && s.sh.rq.tickets == [] && s.sh.rq.head == 0
    && (forall k :: 0 <= k < |s.sh.rq.slots| ==> s.sh.rq.slots[k] == 0)
    && s.sh.res.published == 0 && s.sh.res.finished == {}
  }

  // ----- who holds what

  datatype Token = NoToken | Head(q: nat) | Raise(c: nat) | Carry(c: nat) | Slot(k: nat) | Entry(k: nat)

  /** A CTA in the middle of an operation holds the sole right to continue it. */
  function TokenOf(pc: Pc): Token {
    match pc
    case QTicket(c) => Carry(c)
    case DOut(c) => Carry(c)
    case DCount(c) => Carry(c)
    case QPublish(k, _) => Slot(k)
    case PSpin(k) => Entry(k)
    case POut(k, _) => Entry(k)
    case PCount(k, _) => Entry(k)
    case DTake(q, _, _) => Head(q)
    case DFlag(c, _) => Raise(c)
    case _ => NoToken
  }

  ghost predicate Exclusive(pc: seq<Pc>) {
    forall i, j :: 0 <= i < j < |pc| && TokenOf(pc[i]) == TokenOf(pc[j]) ==> TokenOf(pc[i]) == NoToken
  }

  ghost predicate Held(pc: seq<Pc>, t: Token) {
    exists i :: 0 <= i < |pc| && TokenOf(pc[i]) == t
  }

  ghost predicate Free(pc: seq<Pc>, i: nat, t: Token) {
    t == NoToken || forall j :: 0 <= j < |pc| && j != i ==> TokenOf(pc[j]) != t
  }

  lemma HeldAfter(pc: seq<Pc>, i: nat, x: Pc)
    requires i < |pc|
    ensures Held(pc[i := x], TokenOf(x))
    ensures forall t :: Held(pc, t) && t != TokenOf(pc[i]) ==> Held(pc[i := x], t)
  {
    assert TokenOf(pc[i := x][i]) == TokenOf(x);
    forall t | Held(pc, t) && t != TokenOf(pc[i])
      ensures Held(pc[i := x], t)
    {
      var j :| 0 <= j < |pc| && TokenOf(pc[j]) == t;
      assert TokenOf(pc[i := x][j]) == t;
    }
  }

  // ----- the invariant

  ghost predicate AllIn(cfg: Cfg, mask: set<Work>, c: nat) {
    CountOf(mask, c, cfg.peers) == cfg.peers
  }

  ghost predicate FlagsOk(cfg: Cfg, f: Flags) {
    && (forall w :: w in f.landed ==> w.peer < cfg.peers && w.chunk < cfg.chunks)
    && f.mask <= f.landed
    && (forall c :: c in f.arrived ==> AllIn(cfg, f.mask, c))
    && (forall c :: c in f.localDone ==> c < cfg.chunks)
    && f.claimed <= f.localDone && f.claimed <= f.arrived
  }

  /** Words in the queues announce landed payloads. */
  ghost predicate WordsOk(cfg: Cfg, b: Inbox, landed: set<Work>) {
    forall q, k :: 0 <= q < |b.flags| && 0 <= k < |b.flags[q]| && b.flags[q][k] != 0 ==>
      AllLanded(landed, cfg.decode(b.flags[q][k]))
  }

  ghost predicate QueueOk(claimed: set<nat>, q: Queue<nat>) {
    && Consistent(q, EncodeChunk)
    && (forall k :: 0 <= k < |q.tickets| ==> q.tickets[k] in claimed)
  }

  ghost predicate ResOk(cfg: Cfg, claimed: set<nat>, q: Queue<nat>, r: Result)
    requires |r.out| == cfg.chunks
  {
    && r.published == |r.finished|
    && (forall c :: c in r.finished ==> c in claimed && c < cfg.chunks && r.out[c] == Full(cfg, c))
    && (forall k :: q.head <= k < |q.tickets| ==> q.tickets[k] !in r.finished)
  }

  ghost predicate SharedOk(cfg: Cfg, h: Shared) {
    && CfgOk(cfg) && Shaped(cfg, h)
    && FlagsOk(cfg, h.flags)
    && WordsOk(cfg, h.inbox, h.flags.landed)
    && QueueOk(h.flags.claimed, h.rq)
    && ResOk(cfg, h.flags.claimed, h.rq, h.res)
  }

  ghost predicate PcOk(cfg: Cfg, h: Shared, pc: Pc)
    requires Shaped(cfg, h)
  {
    match pc
    case DTake(q, k, v) => q < |h.inbox.heads| && h.inbox.heads[q] == k && HeadWord(h.inbox, q) == v && v != 0
    case DWork(ws) => AllLanded(h.flags.landed, ws)
    case DFlag(c, ws) => AllLanded(h.flags.landed, ws) && AllIn(cfg, h.flags.mask, c) && c !in h.flags.arrived
    case SLocal(c, _) => c in h.flags.arrived
    case SCas(c, _) => c in h.flags.arrived && c in h.flags.localDone
    case QTicket(c) => c in h.flags.claimed && c !in h.rq.tickets && c !in h.res.finished
    case DOut(c) => c in h.flags.claimed && c !in h.rq.tickets && c !in h.res.finished
    case DCount(c) =>
      c in h.flags.claimed && c !in h.rq.tickets && c !in h.res.finished && c < cfg.chunks && h.res.out[c] == Full(cfg, c)
    case QPublish(k, c) => k < |h.rq.tickets| <= |h.rq.slots| && h.rq.tickets[k] == c && h.rq.slots[k] == 0
    case PCas(h') => h' < |h.rq.tickets|
    case PSpin(k) => k < h.rq.head <= |h.rq.tickets| && h.rq.tickets[k] !in h.res.finished
    case POut(k, c) => k < h.rq.head <= |h.rq.tickets| && h.rq.tickets[k] == c && c !in h.res.finished
    case PCount(k, c) =>
      k < h.rq.head <= |h.rq.tickets| && h.rq.tickets[k] == c && c !in h.res.finished
      && c < cfg.chunks && h.res.out[c] == Full(cfg, c)
    case Exited => h.res.published >= cfg.chunks
    case _ => true
  }

  ghost predicate OthersOk(cfg: Cfg, s: State, i: int) {
    && Shaped(cfg, s.sh)
    && forall j :: 0 <= j < |s.pc| && j != i ==> PcOk(cfg, s.sh, s.pc[j])
  }

  ghost predicate Inv(cfg: Cfg, s: State) {
    SharedOk(cfg, s.sh) && Exclusive(s.pc) && OthersOk(cfg, s, -1)
  }

  /** Every unfinished claim, slot and arrival is in the hands of some CTA or in the queue. */
  ghost predicate NothingLost(cfg: Cfg, s: State)
    requires Shaped(cfg, s.sh)
  {
    && (forall c :: AllIn(cfg, s.sh.flags.mask, c) ==> c in s.sh.flags.arrived || Held(s.pc, Raise(c)))
    && (forall c :: c in s.sh.flags.claimed ==> c in s.sh.res.finished || c in s.sh.rq.tickets || Held(s.pc, Carry(c)))
    && (forall k :: 0 <= k < |s.sh.rq.tickets| <= |s.sh.rq.slots| ==> s.sh.rq.slots[k] != 0 || Held(s.pc, Slot(k)))
    && (forall k :: 0 <= k < s.sh.rq.head <= |s.sh.rq.tickets| ==>
          s.sh.rq.tickets[k] in s.sh.res.finished || Held(s.pc, Entry(k)))
  }

  lemma Assemble(cfg: Cfg, s: State, s': State, i: nat)
    requires i < |s.pc| == |s'.pc| && s'.pc == s.pc[i := s'.pc[i]]
    requires Exclusive(s.pc) && Free(s.pc, i, TokenOf(s'.pc[i]))
    requires SharedOk(cfg, s'.sh) && OthersOk(cfg, s', i) && PcOk(cfg, s'.sh, s'.pc[i])
    ensures Inv(cfg, s')
  {
  }

  lemma StillFree(pc: seq<Pc>, i: nat)
    requires Exclusive(pc) && i < |pc|
    ensures Free(pc, i, TokenOf(pc[i]))
  {
  }

  lemma LocalMove(cfg: Cfg, s: State, i: nat, x: Pc)
    requires Inv(cfg, s) && i < |s.pc| && PcOk(cfg, s.sh, x) && TokenOf(x) == TokenOf(s.pc[i])
    ensures Inv(cfg, At(s, i, x))
  {
    StillFree(s.pc, i);
    Assemble(cfg, s, At(s, i, x), i);
  }

  lemma LocalLosesNothing(cfg: Cfg, s: State, i: nat, x: Pc)
    requires Shaped(cfg, s.sh) && NothingLost(cfg, s) && i < |s.pc| && TokenOf(x) == TokenOf(s.pc[i])
    ensures NothingLost(cfg, At(s, i, x))
  {
    HeldAfter(s.pc, i, x);
  }

  // ----- draining

  lemma MarkCounts(cfg: Cfg, mask: set<Work>, w: Work, c: nat)
    ensures AllIn(cfg, mask, c) ==> AllIn(cfg, mask + {w}, c)
    ensures c != w.chunk && AllIn(cfg, mask + {w}, c) ==> AllIn(cfg, mask, c)
  {
    if w in mask {
      assert mask + {w} == mask;
    } else {
      CountAfterAdd(mask, w, c, cfg.peers);
    }
  }

  function Marked(h: Shared, w: Work): Shared {
    h.(flags := h.flags.(mask := h.flags.mask + {w}))
  }

  lemma MarkKeeps(cfg: Cfg, h: Shared, w: Work)
    requires SharedOk(cfg, h) && w in h.flags.landed
    ensures SharedOk(cfg, Marked(h, w))
    ensures forall p :: PcOk(cfg, h, p) ==> PcOk(cfg, Marked(h, w), p)
  {
    forall c
      ensures AllIn(cfg, h.flags.mask, c) ==> AllIn(cfg, h.flags.mask + {w}, c)
    {
      MarkCounts(cfg, h.flags.mask, w, c);
    }
  }

  /** The drainer that brings a chunk's count to the number of peers flags it. */
  lemma MarkInv(cfg: Cfg, s: State, i: nat)
    requires Inv(cfg, s) && i < |s.pc| && s.pc[i].DWork?
    ensures Inv(cfg, DrainStep(cfg, s, i))
  {
    var s' := DrainStep(cfg, s, i);
    assert PcOk(cfg, s.sh, s.pc[i]);
    if s.pc[i].ws == [] {
      LocalMove(cfg, s, i, Idle);
    } else {
      MarkKeeps(cfg, s.sh, s.pc[i].ws[0]);
      assert OthersOk(cfg, s', i);
      Assemble(cfg, s, s', i);
    }
  }

  lemma MarkLosesNothing(cfg: Cfg, s: State, i: nat)
    requires Shaped(cfg, s.sh) && NothingLost(cfg, s) && i < |s.pc| && s.pc[i].DWork? && s.pc[i].ws != []
    ensures NothingLost(cfg, DrainStep(cfg, s, i))
  {
    var s', w := DrainStep(cfg, s, i), s.pc[i].ws[0];
    HeldAfter(s.pc, i, s'.pc[i]);
    forall c
      ensures c != w.chunk && AllIn(cfg, s.sh.flags.mask + {w}, c) ==> AllIn(cfg, s.sh.flags.mask, c)
    {
      MarkCounts(cfg, s.sh.flags.mask, w, c);
    }
  }

  function Flagged(h: Shared, c: nat): Shared {
    h.(flags := h.flags.(arrived := h.flags.arrived + {c}))
  }

  lemma FlagKeeps(cfg: Cfg, h: Shared, c: nat)
    requires SharedOk(cfg, h) && AllIn(cfg, h.flags.mask, c)
    ensures SharedOk(cfg, Flagged(h, c))
    ensures forall p :: PcOk(cfg, h, p) && TokenOf(p) != Raise(c) ==> PcOk(cfg, Flagged(h, c), p)
  {
  }

  lemma FlagInv(cfg: Cfg, s: State, i: nat)
    requires Inv(cfg, s) && i < |s.pc| && s.pc[i].DFlag?
    ensures Inv(cfg, DrainStep(cfg, s, i))
  {
    assert PcOk(cfg, s.sh, s.pc[i]);
    StillFree(s.pc, i);
    FlagKeeps(cfg, s.sh, s.pc[i].c);
    assert OthersOk(cfg, DrainStep(cfg, s, i), i);
    Assemble(cfg, s, DrainStep(cfg, s, i), i);
  }

  lemma FlagLosesNothing(cfg: Cfg, s: State, i: nat)
    requires Shaped(cfg, s.sh) && NothingLost(cfg, s) && i < |s.pc| && s.pc[i].DFlag?
    ensures NothingLost(cfg, DrainStep(cfg, s, i))
  {
    HeldAfter(s.pc, i, DWork(s.pc[i].ws));
  }

  /** Only the drainers of a queue are about to move its head. */
  ghost predicate DrainersOk(cfg: Cfg, pc: seq<Pc>) {
    forall i :: 0 <= i < |pc| && pc[i].DTake? ==> i < cfg.drainers && Visits(i, cfg.drainers, pc[i].q)
  }

  lemma StepDrainers(cfg: Cfg, s: State, i: nat, a: Choice)
    requires Shaped(cfg, s.sh) && DrainersOk(cfg, s.pc) && i < |s.pc|
    ensures DrainersOk(cfg, Step(cfg, s, i, a).pc)
  {
  }

  /** Seeing a word: nobody else is about to move that head. */
  lemma SeeWordInv(cfg: Cfg, s: State, i: nat, q: nat)
    requires Inv(cfg, s) && DrainersOk(cfg, s.pc) && i < |s.pc| && s.pc[i] == Idle
    requires q < |s.sh.inbox.heads| && i < cfg.drainers && Visits(i, cfg.drainers, q) && HeadWord(s.sh.inbox, q) != 0
    ensures Inv(cfg, At(s, i, DTake(q, s.sh.inbox.heads[q], HeadWord(s.sh.inbox, q))))
  {
    OneDrainerIff(cfg.drainers, cfg.drainers, q + 1);
    assert Free(s.pc, i, Head(q));
    Assemble(cfg, s, At(s, i, DTake(q, s.sh.inbox.heads[q], HeadWord(s.sh.inbox, q))), i);
  }

  lemma MoveHeadKeeps(cfg: Cfg, h: Shared, q: nat)
    requires SharedOk(cfg, h) && q < |h.inbox.heads|
    ensures var h' := h.(inbox := Advance(h.inbox, q));
            SharedOk(cfg, h') && forall p :: PcOk(cfg, h, p) && TokenOf(p) != Head(q) ==> PcOk(cfg, h', p)
  {
  }

  /** So the plain store moves the head by one, over the word that was seen. */
  lemma TakeWordInv(cfg: Cfg, s: State, i: nat)
    requires Inv(cfg, s) && i < |s.pc| && s.pc[i].DTake?
    ensures DrainStep(cfg, s, i).sh.inbox == Advance(s.sh.inbox, s.pc[i].q)
    ensures Inv(cfg, DrainStep(cfg, s, i))
  {
    assert PcOk(cfg, s.sh, s.pc[i]);
    MoveHeadKeeps(cfg, s.sh, s.pc[i].q);
    StillFree(s.pc, i);
    assert OthersOk(cfg, DrainStep(cfg, s, i), i);
    Assemble(cfg, s, DrainStep(cfg, s, i), i);
  }

  // ----- every word a head has passed is drained completely

  function Remaining(pc: Pc): seq<Work> {
    match pc
    case DWork(ws) => ws
    case DFlag(_, ws) => ws
    case _ => []
  }

  ghost predicate InHand(pc: seq<Pc>, w: Work) {
    exists i :: 0 <= i < |pc| && w in Remaining(pc[i])
  }

  /** Heads pass only words, and every work of a word passed is marked or still in the hands of
      the drainer that took it.
   */
  ghost predicate Drained(cfg: Cfg, s: State) {
    && HeadsOk(s.sh.inbox)
    && (forall w :: Past(s.sh.inbox, cfg.decode, w) ==> w in s.sh.flags.mask || InHand(s.pc, w))
  }

  lemma InHandAfter(pc: seq<Pc>, i: nat, x: Pc)
    requires i < |pc|
    ensures forall w :: w in Remaining(x) ==> InHand(pc[i := x], w)
    ensures forall w :: InHand(pc, w) && (w in Remaining(pc[i]) ==> w in Remaining(x)) ==> InHand(pc[i := x], w)
  {
    forall w | w in Remaining(x)
      ensures InHand(pc[i := x], w)
    {
      assert w in Remaining(pc[i := x][i]);
    }
    forall w | InHand(pc, w) && (w in Remaining(pc[i]) ==> w in Remaining(x))
      ensures InHand(pc[i := x], w)
    {
      var j :| 0 <= j < |pc| && w in Remaining(pc[j]);
      assert j != i ==> w in Remaining(pc[i := x][j]);
    }
  }

  lemma SameInboxDrained(cfg: Cfg, s: State, s': State, i: nat)
    requires Drained(cfg, s) && i < |s.pc| == |s'.pc| && s'.pc == s.pc[i := s'.pc[i]]
    requires s'.sh.inbox == s.sh.inbox && s.sh.flags.mask <= s'.sh.flags.mask
    requires forall w :: w in Remaining(s.pc[i]) ==> w in Remaining(s'.pc[i]) || w in s'.sh.flags.mask
    ensures Drained(cfg, s')
  {
    InHandAfter(s.pc, i, s'.pc[i]);
  }

  lemma TakeWordDrained(cfg: Cfg, s: State, i: nat)
    requires Shaped(cfg, s.sh) && Drained(cfg, s) && i < |s.pc| && s.pc[i].DTake? && PcOk(cfg, s.sh, s.pc[i])
    ensures Drained(cfg, DrainStep(cfg, s, i))
  {
    var q, x := s.pc[i].q, DrainStep(cfg, s, i).pc[i];
    AdvancePast(s.sh.inbox, cfg.decode, q);
    InHandAfter(s.pc, i, x);
    assert DrainStep(cfg, s, i).sh.inbox == Advance(s.sh.inbox, q);
    forall w | Past(Advance(s.sh.inbox, q), cfg.decode, w)
      ensures w in s.sh.flags.mask || InHand(s.pc[i := x], w)
    {
      assert Past(s.sh.inbox, cfg.decode, w) || w in Remaining(x);
    }
  }

  lemma MarkDrained(cfg: Cfg, s: State, i: nat)
    requires Drained(cfg, s) && i < |s.pc| && (s.pc[i].DWork? || s.pc[i].DFlag?)
    ensures Drained(cfg, DrainStep(cfg, s, i))
  {
    if s.pc[i].DWork? && s.pc[i].ws != [] {
      var ws := s.pc[i].ws;
      assert forall w :: w in ws ==> w == ws[0] || w in ws[1..];
    }
    SameInboxDrained(cfg, s, DrainStep(cfg, s, i), i);
  }

  lemma StepDrained(cfg: Cfg, s: State, i: nat, a: Choice)
    requires Shaped(cfg, s.sh) && Drained(cfg, s) && i < |s.pc| && PcOk(cfg, s.sh, s.pc[i])
    ensures Drained(cfg, Step(cfg, s, i, a))
  {
    if s.pc[i].DWork? || s.pc[i].DFlag? {
      MarkDrained(cfg, s, i);
    } else if s.pc[i].DTake? {
      TakeWordDrained(cfg, s, i);
    } else {
      SameInboxDrained(cfg, s, Step(cfg, s, i, a), i);
    }
  }

  lemma OutsideDrained(cfg: Cfg, s: State, s': State)
    requires Drained(cfg, s)
    requires Outside(cfg, s, s')
    ensures Drained(cfg, s')
  {
    if q: nat, k: nat, v: nat :| Arrive(cfg, s, s', q, k, v) {
      LandsPast(s.sh.inbox, s'.sh.inbox, cfg.decode, q, k, v);
    }
  }

  // ----- claiming

  function Claimed(h: Shared, c: nat): Shared {
    h.(flags := h.flags.(claimed := h.flags.claimed + {c}))
  }

  lemma ClaimKeeps(cfg: Cfg, h: Shared, c: nat)
    requires SharedOk(cfg, h) && c in h.flags.arrived && c in h.flags.localDone
    ensures SharedOk(cfg, Claimed(h, c))
    ensures forall p :: PcOk(cfg, h, p) ==> PcOk(cfg, Claimed(h, c), p)
  {
  }

  /** The local flag is 1, so nobody has claimed the chunk: the claim is this CTA's alone. */
  lemma ClaimInv(cfg: Cfg, s: State, i: nat)
    requires Inv(cfg, s) && i < |s.pc| && s.pc[i].SCas?
    ensures Inv(cfg, ClaimStep(s, i))
  {
    var c := s.pc[i].c;
    assert PcOk(cfg, s.sh, s.pc[i]);
    if c in s.sh.flags.claimed {
      LocalMove(cfg, s, i, Idle);
    } else {
      ClaimKeeps(cfg, s.sh, c);
      assert Free(s.pc, i, Carry(c)) by {
        assert forall j :: 0 <= j < |s.pc| ==> PcOk(cfg, s.sh, s.pc[j]);
      }
      assert OthersOk(cfg, ClaimStep(s, i), i);
      Assemble(cfg, s, ClaimStep(s, i), i);
    }
  }

  lemma ClaimStepInv(cfg: Cfg, s: State, i: nat)
    requires Inv(cfg, s) && i < |s.pc| && (s.pc[i].SLocal? || s.pc[i].SCas?)
    ensures Inv(cfg, ClaimStep(s, i))
  {
    if s.pc[i].SCas? {
      ClaimInv(cfg, s, i);
    } else {
      assert PcOk(cfg, s.sh, s.pc[i]);
      LocalMove(cfg, s, i, ClaimStep(s, i).pc[i]);
    }
  }

  lemma ClaimLosesNothing(cfg: Cfg, s: State, i: nat)
    requires Shaped(cfg, s.sh) && NothingLost(cfg, s) && i < |s.pc| && (s.pc[i].SLocal? || s.pc[i].SCas?)
    ensures NothingLost(cfg, ClaimStep(s, i))
  {
    HeldAfter(s.pc, i, ClaimStep(s, i).pc[i]);
  }

  // ----- the ready queue

  /** Chunks are ticketed at most once, so positions never wrap around. */
  lemma RoomForTicket(cfg: Cfg, h: Shared, c: nat)
    requires SharedOk(cfg, h) && c in h.flags.claimed && c !in h.rq.tickets
    ensures |h.rq.tickets| < |h.rq.slots|
  {
    var all := h.rq.tickets + [c];
    assert forall k :: 0 <= k < |all| ==> all[k] in h.flags.claimed;
    DistinctBelow(all, cfg.chunks);
  }

  lemma NoWrap(q: Queue<nat>, k: nat)
    requires k < |q.slots|
    ensures SlotAt(q, k) == k
  {
    DivIs(k, |q.slots|, 0, k);
  }

  lemma TicketKeeps(cfg: Cfg, h: Shared, c: nat)
    requires SharedOk(cfg, h) && c in h.flags.claimed && c !in h.rq.tickets && c !in h.res.finished
    ensures SharedOk(cfg, h.(rq := Ticket(h.rq, c)))
    ensures forall p :: PcOk(cfg, h, p) && TokenOf(p) != Carry(c) ==> PcOk(cfg, h.(rq := Ticket(h.rq, c)), p)
    ensures forall p :: PcOk(cfg, h, p) ==> TokenOf(p) != Slot(|h.rq.tickets|)
  {
    RoomForTicket(cfg, h, c);
    TicketConsistent(h.rq, EncodeChunk, c);
  }

  lemma TicketInv(cfg: Cfg, s: State, i: nat)
    requires Inv(cfg, s) && i < |s.pc| && s.pc[i].QTicket? && |s.sh.rq.slots| > 0
    ensures Inv(cfg, QueueStep(s, i))
  {
    assert PcOk(cfg, s.sh, s.pc[i]);
    StillFree(s.pc, i);
    RoomForTicket(cfg, s.sh, s.pc[i].c);
    TicketKeeps(cfg, s.sh, s.pc[i].c);
    assert OthersOk(cfg, QueueStep(s, i), i) && Free(s.pc, i, Slot(|s.sh.rq.tickets|));
    Assemble(cfg, s, QueueStep(s, i), i);
  }

  lemma PublishKeeps(cfg: Cfg, h: Shared, k: nat)
    requires SharedOk(cfg, h) && k < |h.rq.tickets|
    ensures var h' := h.(rq := Publish(h.rq, k, EncodeChunk(h.rq.tickets[k])));
            SharedOk(cfg, h') && forall p :: PcOk(cfg, h, p) && TokenOf(p) != Slot(k) ==> PcOk(cfg, h', p)
  {
    PublishConsistent(h.rq, EncodeChunk, k);
  }

  lemma PublishInv(cfg: Cfg, s: State, i: nat)
    requires Inv(cfg, s) && i < |s.pc| && s.pc[i].QPublish? && |s.sh.rq.slots| > 0
    ensures Inv(cfg, QueueStep(s, i))
  {
    assert PcOk(cfg, s.sh, s.pc[i]);
    StillFree(s.pc, i);
    NoWrap(s.sh.rq, s.pc[i].k);
    PublishKeeps(cfg, s.sh, s.pc[i].k);
    assert OthersOk(cfg, QueueStep(s, i), i);
    Assemble(cfg, s, QueueStep(s, i), i);
  }

  lemma PopKeeps(cfg: Cfg, h: Shared)
    requires SharedOk(cfg, h) && h.rq.head < |h.rq.tickets|
    ensures SharedOk(cfg, h.(rq := Claim(h.rq)))
    ensures forall p :: PcOk(cfg, h, p) ==> PcOk(cfg, h.(rq := Claim(h.rq)), p) && TokenOf(p) != Entry(h.rq.head)
  {
  }

  lemma PopInv(cfg: Cfg, s: State, i: nat)
    requires Inv(cfg, s) && i < |s.pc| && s.pc[i].PCas? && |s.sh.rq.slots| > 0
    ensures Inv(cfg, QueueStep(s, i))
  {
    assert PcOk(cfg, s.sh, s.pc[i]);
    if s.sh.rq.head == s.pc[i].h {
      PopKeeps(cfg, s.sh);
      assert OthersOk(cfg, QueueStep(s, i), i) && Free(s.pc, i, Entry(s.sh.rq.head));
      Assemble(cfg, s, QueueStep(s, i), i);
    } else {
      LocalMove(cfg, s, i, Idle);
    }
  }

  lemma SpinInv(cfg: Cfg, s: State, i: nat)
    requires Inv(cfg, s) && i < |s.pc| && s.pc[i].PSpin? && |s.sh.rq.slots| > 0
    ensures Inv(cfg, QueueStep(s, i))
    ensures TokenOf(QueueStep(s, i).pc[i]) == TokenOf(s.pc[i])
  {
    var k := s.pc[i].k;
    assert PcOk(cfg, s.sh, s.pc[i]);
    NoWrap(s.sh.rq, k);
    if s.sh.rq.slots[k] != 0 {
      LocalMove(cfg, s, i, POut(k, s.sh.rq.tickets[k]));
    }
  }

  predicate Queueing(pc: Pc) {
    pc.QTicket? || pc.QPublish? || pc.PTail? || pc.PCas? || pc.PSpin?
  }

  lemma QueueStepInv(cfg: Cfg, s: State, i: nat)
    requires Inv(cfg, s) && i < |s.pc| && Queueing(s.pc[i]) && |s.sh.rq.slots| > 0
    ensures Inv(cfg, QueueStep(s, i))
  {
    match s.pc[i] {
      case QTicket(_) => TicketInv(cfg, s, i);
      case QPublish(_, _) => PublishInv(cfg, s, i);
      case PTail(h) => LocalMove(cfg, s, i, if h < |s.sh.rq.tickets| then PCas(h) else Idle);
      case PCas(_) => PopInv(cfg, s, i);
      case PSpin(_) => SpinInv(cfg, s, i);
    }
  }

  lemma TicketLosesNothing(cfg: Cfg, s: State, i: nat)
    requires Shaped(cfg, s.sh) && NothingLost(cfg, s) && i < |s.pc| && s.pc[i].QTicket?
    requires s.sh.rq.head <= |s.sh.rq.tickets| < |s.sh.rq.slots|
    ensures NothingLost(cfg, QueueStep(s, i))
  {
    HeldAfter(s.pc, i, QueueStep(s, i).pc[i]);
    assert Ticket(s.sh.rq, s.pc[i].c).tickets[|s.sh.rq.tickets|] == s.pc[i].c;
    assert forall c :: c in s.sh.rq.tickets ==> c in Ticket(s.sh.rq, s.pc[i].c).tickets;
  }

  lemma PublishLosesNothing(cfg: Cfg, s: State, i: nat)
    requires i < |s.pc| && s.pc[i].QPublish? && Shaped(cfg, s.sh) && NothingLost(cfg, s) && PcOk(cfg, s.sh, s.pc[i])
    ensures |s.sh.rq.slots| > 0 && NothingLost(cfg, QueueStep(s, i))
  {
    NoWrap(s.sh.rq, s.pc[i].k);
    HeldAfter(s.pc, i, Idle);
  }

  lemma PopLosesNothing(cfg: Cfg, s: State, i: nat)
    requires i < |s.pc| && s.pc[i].PCas? && s.sh.rq.head == s.pc[i].h && Shaped(cfg, s.sh) && NothingLost(cfg, s)
    requires s.sh.rq.head < |s.sh.rq.tickets| && |s.sh.rq.slots| > 0
    ensures NothingLost(cfg, QueueStep(s, i))
  {
    HeldAfter(s.pc, i, PSpin(s.sh.rq.head));
  }

  lemma QueueLosesNothing(cfg: Cfg, s: State, i: nat)
    requires i < |s.pc| && Queueing(s.pc[i]) && |s.sh.rq.slots| > 0
    requires SharedOk(cfg, s.sh) && PcOk(cfg, s.sh, s.pc[i]) && NothingLost(cfg, s)
    ensures NothingLost(cfg, QueueStep(s, i))
  {
    if s.pc[i].QTicket? {
      RoomForTicket(cfg, s.sh, s.pc[i].c);
      TicketLosesNothing(cfg, s, i);
    } else if s.pc[i].QPublish? {
      PublishLosesNothing(cfg, s, i);
    } else if s.pc[i].PCas? && s.sh.rq.head == s.pc[i].h {
      PopLosesNothing(cfg, s, i);
    } else {
      assert QueueStep(s, i) == At(s, i, QueueStep(s, i).pc[i]);
      LocalLosesNothing(cfg, s, i, QueueStep(s, i).pc[i]);
    }
  }

  // ----- writing out

  lemma {:induction false} SumSeen(cfg: Cfg, landed: set<Work>, c: nat, n: nat)
    requires forall p :: 0 <= p < n ==> Work(p, c) in landed
    ensures SumAll(w => Seen(cfg, landed, w), c, n) == SumAll(cfg.recv, c, n)
  {
    if n == 0 {
    } else {
      SumSeen(cfg, landed, c, n - 1);
    }
  }

  /** The sum read for a claimed chunk is complete. */
  lemma ClaimedIsFull(cfg: Cfg, f: Flags, c: nat)
    requires FlagsOk(cfg, f) && c in f.claimed
    ensures SumNow(cfg, f, c) == Full(cfg, c)
  {
    CountFull(f.mask, c, cfg.peers);
    assert AllIn(cfg, f.mask, c);
    SumSeen(cfg, f.landed, c, cfg.peers);
  }

  lemma WriteKeeps(cfg: Cfg, h: Shared, c: nat)
    requires SharedOk(cfg, h) && c in h.flags.claimed && c < cfg.chunks
    ensures WriteOut(cfg, h, c).res.out[c] == Full(cfg, c)
    ensures SharedOk(cfg, WriteOut(cfg, h, c))
    ensures forall p :: PcOk(cfg, h, p) ==> PcOk(cfg, WriteOut(cfg, h, c), p)
  {
    ClaimedIsFull(cfg, h.flags, c);
  }

  lemma WriteInv(cfg: Cfg, s: State, i: nat)
    requires Inv(cfg, s) && i < |s.pc| && (s.pc[i].POut? || s.pc[i].DOut?)
    ensures Inv(cfg, OutStep(cfg, s, i))
  {
    assert PcOk(cfg, s.sh, s.pc[i]);
    StillFree(s.pc, i);
    WriteKeeps(cfg, s.sh, s.pc[i].c);
    assert OthersOk(cfg, OutStep(cfg, s, i), i);
    Assemble(cfg, s, OutStep(cfg, s, i), i);
  }

  lemma FinishShared(cfg: Cfg, h: Shared, x: Pc)
    requires SharedOk(cfg, h) && PcOk(cfg, h, x) && (x.PCount? || x.DCount?)
    ensures SharedOk(cfg, Finish(h, x.c))
  {
  }

  lemma FinishKeeps(cfg: Cfg, h: Shared, x: Pc, p: Pc)
    requires Shaped(cfg, h) && Distinct(h.rq.tickets) && PcOk(cfg, h, x) && (x.PCount? || x.DCount?)
    requires PcOk(cfg, h, p) && TokenOf(p) != TokenOf(x)
    ensures PcOk(cfg, Finish(h, x.c), p)
  {
  }

  lemma FinishInv(cfg: Cfg, s: State, i: nat)
    requires Inv(cfg, s) && i < |s.pc| && (s.pc[i].PCount? || s.pc[i].DCount?)
    ensures Inv(cfg, OutStep(cfg, s, i))
  {
    assert PcOk(cfg, s.sh, s.pc[i]);
    StillFree(s.pc, i);
    FinishShared(cfg, s.sh, s.pc[i]);
    forall j | 0 <= j < |s.pc| && j != i
      ensures PcOk(cfg, OutStep(cfg, s, i).sh, s.pc[j])
    {
      FinishKeeps(cfg, s.sh, s.pc[i], s.pc[j]);
    }
    Assemble(cfg, s, OutStep(cfg, s, i), i);
  }

  lemma WriteLosesNothing(cfg: Cfg, s: State, i: nat)
    requires Shaped(cfg, s.sh) && NothingLost(cfg, s) && i < |s.pc| && (s.pc[i].POut? || s.pc[i].DOut?)
    ensures NothingLost(cfg, OutStep(cfg, s, i))
  {
    HeldAfter(s.pc, i, OutStep(cfg, s, i).pc[i]);
  }

  lemma FinishLosesNothing(cfg: Cfg, s: State, i: nat)
    requires Shaped(cfg, s.sh) && NothingLost(cfg, s) && i < |s.pc| && PcOk(cfg, s.sh, s.pc[i])
    requires s.pc[i].PCount? || s.pc[i].DCount?
    ensures NothingLost(cfg, OutStep(cfg, s, i))
  {
    HeldAfter(s.pc, i, Idle);
  }

  // ----- whole runs

  ghost predicate Good(cfg: Cfg, s: State) {
    Inv(cfg, s) && NothingLost(cfg, s) && Drained(cfg, s) && DrainersOk(cfg, s.pc)
  }

  lemma StartInv(cfg: Cfg, s: State, i: nat, a: Choice)
    requires Inv(cfg, s) && NothingLost(cfg, s) && DrainersOk(cfg, s.pc) && i < |s.pc| && s.pc[i] == Idle
    ensures Inv(cfg, StartStep(cfg, s, i, a)) && NothingLost(cfg, StartStep(cfg, s, i, a))
  {
    var s' := StartStep(cfg, s, i, a);
    if a.Drain? && s' != s {
      SeeWordInv(cfg, s, i, a.q);
      HeldAfter(s.pc, i, s'.pc[i]);
    } else if s' != s {
      LocalMove(cfg, s, i, s'.pc[i]);
      LocalLosesNothing(cfg, s, i, s'.pc[i]);
    }
  }

  lemma StepGood(cfg: Cfg, s: State, i: nat, a: Choice)
    requires Good(cfg, s) && i < |s.pc|
    ensures Good(cfg, Step(cfg, s, i, a))
  {
    var pc := s.pc[i];
    assert PcOk(cfg, s.sh, pc);
    StepDrained(cfg, s, i, a);
    StepDrainers(cfg, s, i, a);
    if pc.Idle? {
      StartInv(cfg, s, i, a);
    } else if pc.DTake? {
      TakeWordInv(cfg, s, i);
      HeldAfter(s.pc, i, DrainStep(cfg, s, i).pc[i]);
    } else if pc.DWork? {
      MarkInv(cfg, s, i);
      if pc.ws == [] { LocalLosesNothing(cfg, s, i, Idle); } else { MarkLosesNothing(cfg, s, i); }
    } else if pc.DFlag? {
      FlagInv(cfg, s, i);
      FlagLosesNothing(cfg, s, i);
    } else if pc.SLocal? || pc.SCas? {
      ClaimStepInv(cfg, s, i);
      ClaimLosesNothing(cfg, s, i);
    } else if Queueing(pc) {
      if cfg.capacity > 0 {
        QueueStepInv(cfg, s, i);
        QueueLosesNothing(cfg, s, i);
      }
    } else if pc.POut? || pc.DOut? {
      WriteInv(cfg, s, i);
      WriteLosesNothing(cfg, s, i);
    } else if pc.PCount? || pc.DCount? {
      FinishInv(cfg, s, i);
      FinishLosesNothing(cfg, s, i);
    }
  }

  lemma LandKeeps(cfg: Cfg, s: State, s': State, w: Work)
    requires SharedOk(cfg, s.sh) && Land(cfg, s, s', w)
    ensures SharedOk(cfg, s'.sh) && s'.pc == s.pc
    ensures forall p :: PcOk(cfg, s.sh, p) ==> PcOk(cfg, s'.sh, p)
    ensures NothingLost(cfg, s) ==> NothingLost(cfg, s')
  {
  }

  lemma ArriveKeeps(cfg: Cfg, s: State, s': State, q: nat, k: nat, v: nat)
    requires SharedOk(cfg, s.sh) && Arrive(cfg, s, s', q, k, v)
    ensures SharedOk(cfg, s'.sh) && s'.pc == s.pc
    ensures forall p :: PcOk(cfg, s.sh, p) ==> PcOk(cfg, s'.sh, p)
    ensures NothingLost(cfg, s) ==> NothingLost(cfg, s')
  {
  }

  lemma OutsideKeeps(cfg: Cfg, s: State, s': State)
    requires SharedOk(cfg, s.sh)
    requires Outside(cfg, s, s')
    ensures SharedOk(cfg, s'.sh) && s'.pc == s.pc
    ensures forall p :: PcOk(cfg, s.sh, p) ==> PcOk(cfg, s'.sh, p)
    ensures NothingLost(cfg, s) ==> NothingLost(cfg, s')
  {
    if w :| Land(cfg, s, s', w) {
      LandKeeps(cfg, s, s', w);
    } else if q: nat, k: nat, v: nat :| Arrive(cfg, s, s', q, k, v) {
      ArriveKeeps(cfg, s, s', q, k, v);
    }
  }

  lemma OutsideGood(cfg: Cfg, s: State, s': State)
    requires Good(cfg, s)
    requires Outside(cfg, s, s')
    ensures Good(cfg, s')
  {
    OutsideDrained(cfg, s, s');
    OutsideKeeps(cfg, s, s');
    forall j | 0 <= j < |s.pc|
      ensures PcOk(cfg, s'.sh, s.pc[j])
    {
      assert PcOk(cfg, s.sh, s.pc[j]);
    }
  }

  lemma NextGood(cfg: Cfg, s: State, s': State)
    requires Good(cfg, s) && Next(cfg, s, s')
    ensures Good(cfg, s')
  {
    if i: nat, a :| i < |s.pc| && s' == Step(cfg, s, i, a) {
      StepGood(cfg, s, i, a);
    } else {
      OutsideGood(cfg, s, s');
    }
  }

  ghost predicate StepAt(cfg: Cfg, run: seq<State>, n: nat)
    requires n + 1 < |run|
  {
    Next(cfg, run[n], run[n + 1])
  }

  ghost predicate Follows(cfg: Cfg, run: seq<State>) {
    forall n :: 0 <= n < |run| - 1 ==> StepAt(cfg, run, n)
  }

  ghost predicate IsRun(cfg: Cfg, run: seq<State>) {
    |run| > 0 && Init(cfg, run[0]) && Follows(cfg, run)
  }

  lemma InitGood(cfg: Cfg, s: State)
    requires Init(cfg, s)
    ensures Good(cfg, s)
  {
    forall c
      ensures CountOf({}, c, cfg.peers) == 0
    {
      CountEmpty(c, cfg.peers);
    }
  }

  lemma {:induction false} RunGood(cfg: Cfg, run: seq<State>, n: nat)
    requires IsRun(cfg, run) && n < |run|
    ensures Good(cfg, run[n])
  {
    if n == 0 {
      InitGood(cfg, run[0]);
    } else {
      RunGood(cfg, run, n - 1);
      assert StepAt(cfg, run, n - 1);
      NextGood(cfg, run[n - 1], run[n]);
    }
  }

  // ----- main results

  /** Writing a chunk out, or having written it and about to count it. */
  predicate Publishing(pc: Pc) {
    pc.POut? || pc.DOut? || pc.PCount? || pc.DCount?
  }

  /** Both flags of chunk `c` were seen: its local result is done and every peer has landed. */
  ghost predicate Ready(cfg: Cfg, f: Flags, c: nat) {
    c in f.localDone && c in f.arrived && forall p :: 0 <= p < cfg.peers ==> Work(p, c) in f.landed
  }

  lemma PublishingIsReady(cfg: Cfg, h: Shared, x: Pc)
    requires SharedOk(cfg, h) && PcOk(cfg, h, x) && Publishing(x)
    ensures x.c < cfg.chunks && x.c !in h.res.finished && Ready(cfg, h.flags, x.c)
  {
    assert x.c in h.flags.claimed;
    assert AllIn(cfg, h.flags.mask, x.c);
    CountFull(h.flags.mask, x.c, cfg.peers);
  }

  lemma OnePublisher(cfg: Cfg, h: Shared, x: Pc, y: Pc)
    requires Shaped(cfg, h) && Distinct(h.rq.tickets) && PcOk(cfg, h, x) && PcOk(cfg, h, y)
    requires Publishing(x) && Publishing(y) && TokenOf(x) != TokenOf(y)
    ensures x.c != y.c
  {
  }

  /** A chunk is being published only when it is ready and has not been, by one CTA. */
  lemma PublishedAtMostOnce(cfg: Cfg, run: seq<State>, n: nat, i: nat)
    requires IsRun(cfg, run) && n < |run| && i < |run[n].pc| && Publishing(run[n].pc[i])
    ensures var s, c := run[n], run[n].pc[i].c;
            && c < cfg.chunks && c !in s.sh.res.finished && Ready(cfg, s.sh.flags, c)
            && forall j :: 0 <= j < |s.pc| && j != i && Publishing(s.pc[j]) ==> s.pc[j].c != c
  {
    RunGood(cfg, run, n);
    var s := run[n];
    assert PcOk(cfg, s.sh, s.pc[i]);
    PublishingIsReady(cfg, s.sh, s.pc[i]);
    forall j | 0 <= j < |s.pc| && j != i && Publishing(s.pc[j])
      ensures s.pc[j].c != s.pc[i].c
    {
      assert PcOk(cfg, s.sh, s.pc[j]);
      OnePublisher(cfg, s.sh, s.pc[i], s.pc[j]);
    }
  }

  /** `published_chunks` counts distinct chunks, never more than there are, and each of them
      holds the local value plus every peer's value.
   */
  lemma PublishedIsFull(cfg: Cfg, run: seq<State>, n: nat)
    requires IsRun(cfg, run) && n < |run|
    ensures var r := run[n].sh.res;
            && r.published == |r.finished| <= cfg.chunks == |r.out|
            && forall c :: c in r.finished ==> c < cfg.chunks && r.out[c] == Full(cfg, c)
  {
    RunGood(cfg, run, n);
    BelowSize(cfg.chunks);
    SubsetSize(run[n].sh.res.finished, Below(cfg.chunks));
  }

  /** A reducer leaves only when every chunk has been published. */
  lemma ExitMeansDone(cfg: Cfg, run: seq<State>, n: nat, i: nat)
    requires IsRun(cfg, run) && n < |run| && i < |run[n].pc| && run[n].pc[i] == Exited
    ensures run[n].sh.res.finished == Below(cfg.chunks)
    ensures |run[n].sh.res.out| == cfg.chunks
    ensures forall c :: 0 <= c < cfg.chunks ==> run[n].sh.res.out[c] == Full(cfg, c)
  {
    RunGood(cfg, run, n);
    assert PcOk(cfg, run[n].sh, run[n].pc[i]);
    BelowSize(cfg.chunks);
    SubsetSize(run[n].sh.res.finished, Below(cfg.chunks));
  }

  /** Some CTA is about to flag, enqueue or publish chunk `c`, or has dequeued it. */
  ghost predicate InHands(s: State, c: nat) {
    || Held(s.pc, Raise(c))
    || Held(s.pc, Carry(c))
    || exists k :: 0 <= k < s.sh.rq.head <= |s.sh.rq.tickets| && s.sh.rq.tickets[k] == c && Held(s.pc, Entry(k))
  }

  ghost predicate Queued(q: Queue<nat>, c: nat) {
    exists k :: q.head <= k < |q.tickets| && q.tickets[k] == c
  }

  /** No chunk is lost: one that is done locally and whose peers have been marked has been
      published, is queued or in some CTA's hands, or can be claimed by the next scan of it.
   */
  lemma MarkedNotForgotten(cfg: Cfg, s: State, c: nat)
    requires Good(cfg, s) && c in s.sh.flags.localDone
    requires forall p :: 0 <= p < cfg.peers ==> Work(p, c) in s.sh.flags.mask
    ensures || c in s.sh.res.finished
            || Queued(s.sh.rq, c)
            || InHands(s, c)
            || (c in s.sh.flags.arrived && c !in s.sh.flags.claimed)
  {
    CountFull(s.sh.flags.mask, c, cfg.peers);
    assert AllIn(cfg, s.sh.flags.mask, c);
  }

  /** The same from the arrival words on: when every peer's word for the chunk has landed, with
      no hole before it, and the queues are drained, the chunk has been published, is queued or
      in some CTA's hands, one of its works is still to be marked by the CTA that took its word,
      or the chunk can be claimed.
   */
  lemma NothingForgotten(cfg: Cfg, run: seq<State>, n: nat, c: nat)
    requires IsRun(cfg, run) && n < |run| && Dry(run[n].sh.inbox) && c in run[n].sh.flags.localDone
    requires forall p :: 0 <= p < cfg.peers ==> Landed(run[n].sh.inbox, cfg.decode, Work(p, c))
    ensures var s := run[n];
            || c in s.sh.res.finished
            || Queued(s.sh.rq, c)
            || InHands(s, c)
            || (exists p :: 0 <= p < cfg.peers && InHand(s.pc, Work(p, c)))
            || (c in s.sh.flags.arrived && c !in s.sh.flags.claimed)
  {
    RunGood(cfg, run, n);
    var s := run[n];
    if forall p :: 0 <= p < cfg.peers ==> !InHand(s.pc, Work(p, c)) {
      forall p | 0 <= p < cfg.peers
        ensures Work(p, c) in s.sh.flags.mask
      {
        DryMeansPast(s.sh.inbox, cfg.decode, Work(p, c));
      }
      MarkedNotForgotten(cfg, s, c);
    }
  }

  /** The CTAs have run dry: none is busy, the queues are drained, no scan would find a chunk. */
  ghost predicate Quiet(s: State) {
    && Dry(s.sh.inbox)
    && (forall i :: 0 <= i < |s.pc| ==> s.pc[i] == Idle || s.pc[i] == Exited)
    && s.sh.rq.head == |s.sh.rq.tickets|
    && (forall c :: c in s.sh.flags.arrived && c in s.sh.flags.localDone ==> c in s.sh.flags.claimed)
  }

  /** End to end: when all local results are done, all words have landed and the CTAs have run
      dry, every chunk has been published with its complete sum.
   */
  lemma QuietMeansDone(cfg: Cfg, run: seq<State>, n: nat)
    requires IsRun(cfg, run) && n < |run| && Quiet(run[n])
    requires forall c :: 0 <= c < cfg.chunks ==> c in run[n].sh.flags.localDone
    requires forall p: nat, c: nat :: p < cfg.peers && c < cfg.chunks ==> Landed(run[n].sh.inbox, cfg.decode, Work(p, c))
    ensures run[n].sh.res.published == cfg.chunks == |run[n].sh.res.out|
    ensures forall c :: 0 <= c < cfg.chunks ==> run[n].sh.res.out[c] == Full(cfg, c)
  {
    RunGood(cfg, run, n);
    var s := run[n];
    assert forall t :: Held(s.pc, t) ==> t == NoToken;
    forall c: nat | c < cfg.chunks
      ensures c in s.sh.res.finished
    {
      NothingForgotten(cfg, run, n, c);
    }
    BelowSize(cfg.chunks);
    SubsetSize(Below(cfg.chunks), s.sh.res.finished);
    PublishedIsFull(cfg, run, n);
  }

  /** A spinning reducer waits for a CTA that can publish its slot in one step. */
  lemma SpinIsServed(cfg: Cfg, s: State, i: nat) returns (j: nat)
    requires Good(cfg, s) && i < |s.pc| && s.pc[i].PSpin? && |s.sh.rq.slots| > 0 && QueueStep(s, i) == s
    ensures j < |s.pc| && s.pc[j].QPublish? && s.pc[j].k == s.pc[i].k
    ensures QueueStep(QueueStep(s, j), i).pc[i].POut?
  {
    assert PcOk(cfg, s.sh, s.pc[i]);
    var k := s.pc[i].k;
    NoWrap(s.sh.rq, k);
    assert Held(s.pc, Slot(k));
    j :| 0 <= j < |s.pc| && TokenOf(s.pc[j]) == Slot(k);
    NoWrap(QueueStep(s, j).sh.rq, k);
  }

  // ----- bounded windows

  /** Where the scan starts after `m` misses. */
  function ScanStart(start: nat, m: nat, win: nat, chunks: nat): nat
    requires chunks > 0
  {
    if m == 0 then start else (ScanStart(start, m - 1, win, chunks) + win) % chunks
  }

  lemma {:induction false} ScanStartIs(start: nat, m: nat, win: nat, chunks: nat, i: nat)
    requires chunks > 0
    ensures (ScanStart(start, m, win, chunks) + i) % chunks == (start + Pair(m, win, i)) % chunks
  {
    if m == 0 {
    } else {
      ModAdd(ScanStart(start, m - 1, win, chunks) + win, i, chunks);
      ScanStartIs(start, m - 1, win, chunks, win + i);
      assert Pair(m - 1, win, win + i) == Pair(m, win, i);
    }
  }

  /** A scan that moves on by a window at each miss looks at every chunk within
      chunks / win misses, rounded up.
   */
  lemma WindowCovers(start: nat, win: nat, chunks: nat, c: nat) returns (m: nat, i: nat)
    requires 0 < win && start < chunks && c < chunks
    ensures i < win && m < CeilDiv(chunks, win) && (ScanStart(start, m, win, chunks) + i) % chunks == c
  {
    var d := if start <= c then c - start else c + chunks - start;
    m, i := d / win, d % win;
    DigitsPair(d, win);
    CeilBelow(m, chunks, win);
    ScanStartIs(start, m, win, chunks, i);
    DivIs(start + d, chunks, if start <= c then 0 else 1, c);
  }

  // ----- progress

  /** CTA `i` has seen chunk `c` arrive and is still looking at it. */
  predicate Scanning(pc: Pc, c: nat) {
    (pc.SLocal? || pc.SCas?) && pc.c == c
  }

  ghost predicate ScanKept(s: State, i: nat, c: nat) {
    i < |s.pc| && c in s.sh.flags.localDone && (Scanning(s.pc[i], c) || c in s.sh.flags.claimed)
  }

  lemma StepKeepsScan(cfg: Cfg, s: State, j: nat, a: Choice, i: nat, c: nat)
    requires Shaped(cfg, s.sh) && j < |s.pc| && ScanKept(s, i, c)
    ensures ScanKept(Step(cfg, s, j, a), i, c)
  {
  }

  lemma RunKeepsScan(cfg: Cfg, run: seq<State>, n: nat, i: nat, c: nat)
    requires Follows(cfg, run) && n + 1 < |run| && ScanKept(run[n], i, c)
    ensures ScanKept(run[n + 1], i, c)
  {
    var s, s' := run[n], run[n + 1];
    assert StepAt(cfg, run, n);
    if j: nat, a :| j < |s.pc| && s' == Step(cfg, s, j, a) {
      StepKeepsScan(cfg, s, j, a, i, c);
    }
  }

  /** A scan never misses: whatever the other CTAs do in between, by the time a CTA stops looking
      at an arrived chunk whose local result is done, the chunk is claimed, by it or another.
   */
  lemma {:induction false} ScanClaims(cfg: Cfg, run: seq<State>, m: nat, n: nat, i: nat, c: nat)
    requires Follows(cfg, run) && m <= n < |run| && i < |run[m].pc|
    requires Scanning(run[m].pc[i], c) && c in run[m].sh.flags.localDone
    ensures i < |run[n].pc| && (Scanning(run[n].pc[i], c) || c in run[n].sh.flags.claimed)
    ensures ScanKept(run[n], i, c)
  {
    if m == n {
    } else {
      ScanClaims(cfg, run, m, n - 1, i, c);
      RunKeepsScan(cfg, run, n - 1, i, c);
    }
  }

  ghost predicate CanMove(cfg: Cfg, s: State, i: nat, a: Choice) {
    Shaped(cfg, s.sh) && i < |s.pc| && Step(cfg, s, i, a).pc[i] != s.pc[i]
  }

  /** A busy CTA always moves on, except one that spins on an empty slot, which
      `SpinIsServed` speaks of.
   */
  lemma BusyCtaMoves(cfg: Cfg, s: State, i: nat, a: Choice)
    requires Good(cfg, s) && i < |s.pc| && s.pc[i] != Idle && s.pc[i] != Exited
    ensures CanMove(cfg, s, i, a) || (s.pc[i].PSpin? && |s.sh.rq.slots| > 0 && QueueStep(s, i) == s)
  {
    assert PcOk(cfg, s.sh, s.pc[i]);
  }

  // ----- the capacity of the queue

  /** The host's capacity: the next power of two from at least 16. */
  function QueueCapacity(chunks: bv32): bv32 {
    var least: bv32 := if chunks < 16 then 16 else chunks;
    var v0 := least - 1;
    var v1 := v0 | (v0 >> 1);
    var v2 := v1 | (v1 >> 2);
    var v3 := v2 | (v2 >> 4);
    var v4 := v3 | (v3 >> 8);
    (v4 | (v4 >> 16)) + 1
  }

  /** It is a power of two and at least the number of chunks, and less than twice what is asked. */
  lemma CapacitySuffices(chunks: bv32)
    requires chunks <= 0x4000_0000
    ensures chunks <= QueueCapacity(chunks)
    ensures QueueCapacity(chunks) & (QueueCapacity(chunks) - 1) == 0
    ensures chunks >= 16 ==> QueueCapacity(chunks) < chunks + chunks
  {
  }
}
