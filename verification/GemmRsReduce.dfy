/** The incremental peer reduction of gemm_rs: arrival words are drained into a peer
    accumulation queue, each entry is added into its chunk's staging value under a lock,
    and a chunk whose peers have all been added goes through a ready queue to the output.

    Every CTA runs every role; one atomic access is one step, under any interleaving.
 */
module GemmRsReduce {
  import opened Arith
  import opened ArrivalQueue
  import opened ArrivalWord
  import opened PeerSums
  import opened TicketQueue

  /** `peers` is the number of other nodes.  `decode` gives the work announced by an arrival
      word, `pack` and `unpack` make and read the words of the accumulation queue; `local` and
      `recv` are a chunk's local value and a peer's received value.
   */
  datatype Cfg = Cfg(chunks: nat, peers: nat, node: nat, receiverOwner: bool,
                     decode: nat -> seq<Work>, pack: Work -> nat, unpack: nat -> Work,
                     local: nat -> int, recv: Work -> int)

  const MAX_PEERS := 16

  predicate InRange(cfg: Cfg, w: Work) {
    w.peer < cfg.peers && w.chunk < cfg.chunks
  }

  ghost predicate CfgOk(cfg: Cfg) {
    && 1 <= cfg.peers <= MAX_PEERS
    && forall w :: InRange(cfg, w) ==> cfg.pack(w) != 0 && cfg.unpack(cfg.pack(w)) == w
  }

  predicate Owns(cfg: Cfg, c: nat) {
    !cfg.receiverOwner || c % (cfg.peers + 1) == cfg.node
  }

  /** The word of a ready queue. */
  function EncodeChunk(c: nat): nat { c + 1 }

  // ----- states

  datatype Pc =
    | Idle
      // draining an arrival queue
    | DFlag(q: nat, h: nat)
    | DClaim(q: nat, h: nat, word: nat)
    | DWork(ws: seq<Work>)
    | DTicket(w: Work, ws: seq<Work>)
    | DPublish(k: nat, w: Work, ws: seq<Work>)
      // accumulating one peer's chunk
    | ATail(h: nat)
    | ACas(h: nat)
    | ASpin(k: nat)
    | AWait(k: nat, w: Work)
    | ALock(k: nat, w: Work)
    | ARead(k: nat, w: Work)
    | AWrite(k: nat, w: Work, v: int)
    | AUnlock(k: nat, w: Work)
    | ACount(k: nat, w: Work)
    | AFlag(c: nat)
    | ARTicket(c: nat)
    | ARPublish(k: nat, c: nat)
      // writing out a finished chunk
    | RTail(h: nat)
    | RCas(h: nat)
    | RSpin(k: nat)
    | RWait(k: nat, c: nat)
    | ROut(k: nat, c: nat)
    | RDone(k: nat, c: nat)

  /** `added` and `counted` record whose value has been added and counted. */
  datatype Sums = Sums(senderDone: set<nat>, lock: set<nat>, staging: seq<int>, added: set<Work>,
                       count: seq<nat>, counted: set<Work>)

  /** `finished` records the chunks counted in `chunks_processed`. */
  datatype Result = Result(reduceDone: set<nat>, out: seq<int>, processed: nat, finished: set<nat>)

  /** `inbox` are the arrival queues, `mask` the per-chunk peer mask. */
  datatype Shared = Shared(inbox: Inbox, mask: set<Work>, acc: Queue<Work>, sums: Sums, rdy: Queue<nat>, res: Result)

  datatype State = State(pc: seq<Pc>, sh: Shared)

  // ----- steps of a CTA

  /** What an idle CTA turns to. */
  datatype Choice = Drain(q: nat) | Accumulate | PopReady

  function At(s: State, i: nat, pc: Pc): State
    requires i < |s.pc|
  {
    s.(pc := s.pc[i := pc])
  }

  ghost predicate Shaped(cfg: Cfg, h: Shared) {
    && |h.inbox.heads| == |h.inbox.flags|
    && |h.acc.slots| == cfg.chunks * cfg.peers
    && |h.rdy.slots| == |h.sums.staging| == |h.sums.count| == |h.res.out| == cfg.chunks
  }

  function StartStep(s: State, i: nat, a: Choice): State
    requires i < |s.pc| && |s.sh.inbox.heads| == |s.sh.inbox.flags|
  {
    match a
    case Drain(q) =>
      if q < |s.sh.inbox.heads| && s.sh.inbox.heads[q] < |s.sh.inbox.flags[q]| then At(s, i, DFlag(q, s.sh.inbox.heads[q])) else s
    case Accumulate => At(s, i, ATail(s.sh.acc.head))
    case PopReady => At(s, i, RTail(s.sh.rdy.head))
  }

  function DrainStep(cfg: Cfg, s: State, i: nat): State
    requires i < |s.pc| && |s.sh.inbox.heads| == |s.sh.inbox.flags|
  {
    var b := s.sh.inbox;
    match s.pc[i]
    case DFlag(q, h) =>
      if q < |b.flags| && h < |b.flags[q]| && b.flags[q][h] != 0 then At(s, i, DClaim(q, h, b.flags[q][h]))
      else At(s, i, Idle)
    case DClaim(q, h, v) =>
      if q < |b.heads| && b.heads[q] == h then
        At(s, i, DWork(cfg.decode(v))).(sh := s.sh.(inbox := Advance(b, q)))
      else At(s, i, Idle)
    case DWork(ws) =>
      if ws == [] then At(s, i, Idle)
      else if !Owns(cfg, ws[0].chunk) || ws[0] in s.sh.mask then At(s, i, DWork(ws[1..]))
      else At(s, i, DTicket(ws[0], ws[1..])).(sh := s.sh.(mask := s.sh.mask + {ws[0]}))
    case DTicket(w, ws) => At(s, i, DPublish(|s.sh.acc.tickets|, w, ws)).(sh := s.sh.(acc := Ticket(s.sh.acc, w)))
    case DPublish(k, w, ws) => At(s, i, DWork(ws)).(sh := s.sh.(acc := Publish(s.sh.acc, k, cfg.pack(w))))
    case _ => s
  }

  function PopAccStep(cfg: Cfg, s: State, i: nat): State
    requires i < |s.pc|
  {
    match s.pc[i]
    case ATail(h) => At(s, i, if h < |s.sh.acc.tickets| then ACas(h) else Idle)
    case ACas(h) => if s.sh.acc.head == h then At(s, i, ASpin(h)).(sh := s.sh.(acc := Claim(s.sh.acc))) else At(s, i, Idle)
    case ASpin(k) =>
      if k < |s.sh.acc.slots| && s.sh.acc.slots[k] != 0 then
        var w := cfg.unpack(s.sh.acc.slots[k]);
        At(s, i, if InRange(cfg, w) && Owns(cfg, w.chunk) then AWait(k, w) else Idle)
      else s
    case _ => s
  }

  function AddStep(cfg: Cfg, s: State, i: nat): State
    requires i < |s.pc| && |s.sh.sums.staging| == |s.sh.sums.count| == cfg.chunks
  {
    var m := s.sh.sums;
    match s.pc[i]
    case AWait(k, w) => if w.chunk in m.senderDone then At(s, i, ALock(k, w)) else s
    case ALock(k, w) =>
      if w.chunk in m.lock then s else At(s, i, ARead(k, w)).(sh := s.sh.(sums := m.(lock := m.lock + {w.chunk})))
    case ARead(k, w) => if w.chunk < cfg.chunks then At(s, i, AWrite(k, w, m.staging[w.chunk])) else s
    case AWrite(k, w, v) =>
      if w.chunk < cfg.chunks then
        At(s, i, AUnlock(k, w)).(sh := s.sh.(sums := m.(staging := m.staging[w.chunk := v + cfg.recv(w)], added := m.added + {w})))
      else s
    case AUnlock(k, w) => At(s, i, ACount(k, w)).(sh := s.sh.(sums := m.(lock := m.lock - {w.chunk})))
    case ACount(k, w) =>
      if w.chunk < cfg.chunks then
        var n := m.count[w.chunk] + 1;
        At(s, i, if n == cfg.peers then AFlag(w.chunk) else Idle)
          .(sh := s.sh.(sums := m.(count := m.count[w.chunk := n], counted := m.counted + {w})))
      else s
    case _ => s
  }

  function ReadyStep(s: State, i: nat): State
    requires i < |s.pc|
  {
    match s.pc[i]
    case AFlag(c) => At(s, i, ARTicket(c)).(sh := s.sh.(res := s.sh.res.(reduceDone := s.sh.res.reduceDone + {c})))
    case ARTicket(c) => At(s, i, ARPublish(|s.sh.rdy.tickets|, c)).(sh := s.sh.(rdy := Ticket(s.sh.rdy, c)))
    case ARPublish(k, c) => At(s, i, Idle).(sh := s.sh.(rdy := Publish(s.sh.rdy, k, EncodeChunk(c))))
    case _ => s
  }

  function OutStep(s: State, i: nat): State
    requires i < |s.pc| && |s.sh.res.out| == |s.sh.sums.staging|
  {
    var r := s.sh.res;
    match s.pc[i]
    case RTail(h) => At(s, i, if h < |s.sh.rdy.tickets| then RCas(h) else Idle)
    case RCas(h) => if s.sh.rdy.head == h then At(s, i, RSpin(h)).(sh := s.sh.(rdy := Claim(s.sh.rdy))) else At(s, i, Idle)
    case RSpin(k) =>
      if k < |s.sh.rdy.slots| && s.sh.rdy.slots[k] != 0 then At(s, i, RWait(k, s.sh.rdy.slots[k] - 1)) else s
    case RWait(k, c) => if c in r.reduceDone then At(s, i, ROut(k, c)) else s
    case ROut(k, c) =>
      if c < |r.out| then At(s, i, RDone(k, c)).(sh := s.sh.(res := r.(out := r.out[c := s.sh.sums.staging[c]]))) else s
    case RDone(k, c) => At(s, i, Idle).(sh := s.sh.(res := r.(processed := r.processed + 1, finished := r.finished + {c})))
    case _ => s
  }

  // The roles of a CTA.

  predicate Draining(pc: Pc) {
    pc.DFlag? || pc.DClaim? || pc.DWork? || pc.DTicket? || pc.DPublish?
  }

  predicate Popping(pc: Pc) {
    pc.ATail? || pc.ACas? || pc.ASpin?
  }

  predicate Adding(pc: Pc) {
    pc.AWait? || pc.ALock? || pc.ARead? || pc.AWrite? || pc.AUnlock? || pc.ACount?
  }

  predicate Announcing(pc: Pc) {
    pc.AFlag? || pc.ARTicket? || pc.ARPublish?
  }

  predicate WritingOut(pc: Pc) {
    pc.RTail? || pc.RCas? || pc.RSpin? || pc.RWait? || pc.ROut? || pc.RDone?
  }

  function Step(cfg: Cfg, s: State, i: nat, a: Choice): State
    requires i < |s.pc| && |s.sh.inbox.heads| == |s.sh.inbox.flags|
    requires |s.sh.sums.staging| == |s.sh.sums.count| == |s.sh.res.out| == cfg.chunks
  {
    var pc := s.pc[i];
    if pc.Idle? then StartStep(s, i, a)
    else if Draining(pc) then DrainStep(cfg, s, i)
    else if Popping(pc) then PopAccStep(cfg, s, i)
    else if Adding(pc) then AddStep(cfg, s, i)
    else if Announcing(pc) then ReadyStep(s, i)
    else OutStep(s, i)
  }

  // ----- steps of the environment

  /** An arrival word lands in an empty slot; it announces only work in range. */
  ghost predicate Arrive(cfg: Cfg, s: State, s': State, q: nat, k: nat, v: nat) {
    && (forall n :: 0 <= n < |cfg.decode(v)| ==> InRange(cfg, cfg.decode(v)[n]))
    && Lands(s.sh.inbox, s'.sh.inbox, q, k, v)
    && s' == s.(sh := s.sh.(inbox := s'.sh.inbox))
  }

  /** The send CTA hands chunk `c` over: its staging value is complete. */
  ghost predicate SenderDone(cfg: Cfg, s: State, s': State, c: nat) {
    && c < cfg.chunks == |s.sh.sums.staging| && c !in s.sh.sums.senderDone
    && s' == s.(sh := s.sh.(sums := s.sh.sums.(senderDone := s.sh.sums.senderDone + {c}, staging := s.sh.sums.staging[c := cfg.local(c)])))
  }

  ghost predicate Next(cfg: Cfg, s: State, s': State) {
    && Shaped(cfg, s.sh)
    && (|| (exists i: nat, a :: i < |s.pc| && s' == Step(cfg, s, i, a))
        || (exists q: nat, k: nat, v: nat :: Arrive(cfg, s, s', q, k, v))
        || (exists c: nat :: SenderDone(cfg, s, s', c)))
  }

  ghost predicate Init(cfg: Cfg, s: State) {
    && CfgOk(cfg)
    && Shaped(cfg, s.sh)
    && (forall i :: 0 <= i < |s.pc| ==> s.pc[i] == Idle)
    && (forall q :: 0 <= q < |s.sh.inbox.flags| ==> s.sh.inbox.heads[q] == 0)
    && (forall q, k :: 0 <= q < |s.sh.inbox.flags| && 0 <= k < |s.sh.inbox.flags[q]| ==> s.sh.inbox.flags[q][k] == 0)
    && s.sh.mask == {}
    && s.sh.acc.tickets == [] && s.sh.acc.head == 0
    && (forall k :: 0 <= k < |s.sh.acc.slots| ==> s.sh.acc.slots[k] == 0)
    && s.sh.sums.senderDone == {} && s.sh.sums.lock == {} && s.sh.sums.added == {} && s.sh.sums.counted == {}
    && (forall c :: 0 <= c < cfg.chunks ==> s.sh.sums.count[c] == 0)
    && s.sh.rdy.tickets == [] && s.sh.rdy.head == 0
    && (forall k :: 0 <= k < |s.sh.rdy.slots| ==> s.sh.rdy.slots[k] == 0)
    && s.sh.res.reduceDone == {} && s.sh.res.processed == 0 && s.sh.res.finished == {}
  }

  // ----- who holds what

  /** A CTA in the middle of an operation holds the sole right to continue it. */
  datatype Token =
    | NoToken
    | NewWork(w: Work)   // first to see this work, to take a ticket for it
    | Slot(k: nat)       // to publish accumulation slot k
    | Entry(k: nat)      // to process accumulation slot k
    | Fire(c: nat)       // to announce chunk c
    | ReadySlot(k: nat)  // to publish ready slot k
    | ReadyEntry(k: nat) // to process ready slot k

  function TokenOf(pc: Pc): Token {
    match pc
    case DTicket(w, _) => NewWork(w)
    case DPublish(k, _, _) => Slot(k)
    case ASpin(k) => Entry(k)
    case AWait(k, _) => Entry(k)
    case ALock(k, _) => Entry(k)
    case ARead(k, _) => Entry(k)
    case AWrite(k, _, _) => Entry(k)
    case AUnlock(k, _) => Entry(k)
    case ACount(k, _) => Entry(k)
    case AFlag(c) => Fire(c)
    case ARTicket(c) => Fire(c)
    case ARPublish(k, _) => ReadySlot(k)
    case RSpin(k) => ReadyEntry(k)
    case RWait(k, _) => ReadyEntry(k)
    case ROut(k, _) => ReadyEntry(k)
    case RDone(k, _) => ReadyEntry(k)
    case _ => NoToken
  }

  predicate InLock(pc: Pc) {
    pc.ARead? || pc.AWrite? || pc.AUnlock?
  }

  ghost predicate Exclusive(pc: seq<Pc>) {
    && (forall i, j :: 0 <= i < j < |pc| && TokenOf(pc[i]) == TokenOf(pc[j]) ==> TokenOf(pc[i]) == NoToken)
    && (forall i, j :: 0 <= i < j < |pc| && InLock(pc[i]) && InLock(pc[j]) ==> pc[i].w.chunk != pc[j].w.chunk)
  }

  ghost predicate Held(pc: seq<Pc>, t: Token) {
    exists i :: 0 <= i < |pc| && TokenOf(pc[i]) == t
  }

  /** Moving one CTA keeps all other tokens held. */
  lemma HeldAfter(pc: seq<Pc>, i: nat, x: Pc)
    requires i < |pc|
    ensures Held(pc[i := x], TokenOf(x))
    ensures forall t :: Held(pc, t) && t != TokenOf(pc[i]) ==> Held(pc[i := x], t)
  {
    assert TokenOf(pc[i := x][i]) == TokenOf(x);
    forall t | Held(pc, t) && t != TokenOf(pc[i])
      ensures Held(pc[i := x], t)
    {
      var j :| 0 <= j < |pc| && TokenOf(pc[j]) == t;
      assert TokenOf(pc[i := x][j]) == t;
    }
  }

  /** What the staging of chunk `c` must hold in the end. */
  function Full(cfg: Cfg, c: nat): int {
    cfg.local(c) + SumAll(cfg.recv, c, cfg.peers)
  }

  // ----- the inductive invariant

  ghost predicate AllInRange(cfg: Cfg, ws: seq<Work>) {
    forall n :: 0 <= n < |ws| ==> InRange(cfg, ws[n])
  }

  ghost predicate FlagsOk(cfg: Cfg, b: Inbox) {
    forall q, k :: 0 <= q < |b.flags| && 0 <= k < |b.flags[q]| && b.flags[q][k] != 0 ==>
      AllInRange(cfg, cfg.decode(b.flags[q][k]))
  }

  ghost predicate AccOk(cfg: Cfg, mask: set<Work>, acc: Queue<Work>) {
    && Consistent(acc, cfg.pack)
    && (forall k :: 0 <= k < |acc.tickets| ==>
          InRange(cfg, acc.tickets[k]) && Owns(cfg, acc.tickets[k].chunk) && acc.tickets[k] in mask)
  }

  ghost predicate SumsOk(cfg: Cfg, acc: Queue<Work>, m: Sums)
    requires |m.staging| == |m.count| == cfg.chunks
  {
    && (forall w :: w in m.added ==> w in acc.tickets && w.chunk in m.senderDone)
    && (forall k :: acc.head <= k < |acc.tickets| ==> acc.tickets[k] !in m.added)
    && m.counted <= m.added
    && (forall c :: 0 <= c < cfg.chunks && c in m.senderDone ==>
          m.staging[c] == cfg.local(c) + SumOf(cfg.recv, m.added, c, cfg.peers))
    && (forall c :: 0 <= c < cfg.chunks ==> m.count[c] == CountOf(m.counted, c, cfg.peers))
  }

  ghost predicate Complete(cfg: Cfg, m: Sums, c: nat)
    requires |m.count| == cfg.chunks
  {
    c < cfg.chunks && Owns(cfg, c) && m.count[c] == cfg.peers
  }

  ghost predicate ResOk(cfg: Cfg, m: Sums, rdy: Queue<nat>, r: Result)
    requires |m.count| == |r.out| == cfg.chunks
  {
    && Consistent(rdy, EncodeChunk)
    && (forall k :: 0 <= k < |rdy.tickets| ==> rdy.tickets[k] in r.reduceDone)
    && (forall c :: c in r.reduceDone ==> Complete(cfg, m, c))
    && (forall c :: c in r.finished ==> c in rdy.tickets && c < cfg.chunks && r.out[c] == Full(cfg, c))
    && (forall k :: rdy.head <= k < |rdy.tickets| ==> rdy.tickets[k] !in r.finished)
    && r.processed == |r.finished|
  }

  /** The local variables of a CTA agree with the accumulation queue, */
  ghost predicate PcAcc(cfg: Cfg, mask: set<Work>, acc: Queue<Work>, pc: Pc) {
    match pc
    case DClaim(_, _, v) => AllInRange(cfg, cfg.decode(v))
    case DWork(ws) => AllInRange(cfg, ws)
    case DTicket(w, ws) =>
      AllInRange(cfg, ws) && InRange(cfg, w) && Owns(cfg, w.chunk) && w in mask && w !in acc.tickets
    case DPublish(k, w, ws) =>
      AllInRange(cfg, ws) && k < |acc.tickets| <= |acc.slots| && acc.tickets[k] == w && acc.slots[k] == 0
    case ACas(h) => h < |acc.tickets|
    case ASpin(k) => k < acc.head <= |acc.tickets|
    case AWait(k, w) => k < acc.head <= |acc.tickets| && acc.tickets[k] == w
    case ALock(k, w) => k < acc.head <= |acc.tickets| && acc.tickets[k] == w
    case ARead(k, w) => k < acc.head <= |acc.tickets| && acc.tickets[k] == w
    case AWrite(k, w, _) => k < acc.head <= |acc.tickets| && acc.tickets[k] == w
    case AUnlock(k, w) => k < acc.head <= |acc.tickets| && acc.tickets[k] == w
    case ACount(k, w) => k < acc.head <= |acc.tickets| && acc.tickets[k] == w
    case _ => true
  }

  /** with the sums, */
  ghost predicate PcSums(cfg: Cfg, tickets: seq<Work>, m: Sums, pc: Pc)
    requires |m.staging| == |m.count| == cfg.chunks
  {
    match pc
    case ASpin(k) => k < |tickets| && tickets[k] !in m.added
    case AWait(_, w) => InRange(cfg, w) && Owns(cfg, w.chunk) && w !in m.added
    case ALock(_, w) => InRange(cfg, w) && Owns(cfg, w.chunk) && w !in m.added && w.chunk in m.senderDone
    case ARead(_, w) =>
      InRange(cfg, w) && Owns(cfg, w.chunk) && w !in m.added && w.chunk in m.senderDone && w.chunk in m.lock
    case AWrite(_, w, v) =>
      InRange(cfg, w) && Owns(cfg, w.chunk) && w !in m.added && w.chunk in m.senderDone && w.chunk in m.lock
      && v == m.staging[w.chunk]
    case AUnlock(_, w) => InRange(cfg, w) && Owns(cfg, w.chunk) && w in m.added && w !in m.counted && w.chunk in m.lock
    case ACount(_, w) => InRange(cfg, w) && Owns(cfg, w.chunk) && w in m.added && w !in m.counted
    case _ => true
  }

  /** and with the ready queue and the results. */
  ghost predicate PcRes(cfg: Cfg, m: Sums, rdy: Queue<nat>, r: Result, pc: Pc)
    requires |m.count| == |r.out| == cfg.chunks
  {
    match pc
    case AFlag(c) => Complete(cfg, m, c) && c !in rdy.tickets
    case ARTicket(c) => c in r.reduceDone && c !in rdy.tickets
    case ARPublish(k, c) => k < |rdy.tickets| <= |rdy.slots| && rdy.tickets[k] == c && rdy.slots[k] == 0
    case RCas(h) => h < |rdy.tickets|
    case RSpin(k) => k < rdy.head <= |rdy.tickets| && rdy.tickets[k] !in r.finished
    case RWait(k, c) => k < rdy.head <= |rdy.tickets| && rdy.tickets[k] == c && c !in r.finished
    case ROut(k, c) => k < rdy.head <= |rdy.tickets| && rdy.tickets[k] == c && c !in r.finished
    case RDone(k, c) =>
      k < rdy.head <= |rdy.tickets| && rdy.tickets[k] == c && c !in r.finished && c < cfg.chunks && r.out[c] == Full(cfg, c)
    case _ => true
  }

  ghost predicate PcOk(cfg: Cfg, h: Shared, x: Pc)
    requires Shaped(cfg, h)
  {
    && PcAcc(cfg, h.mask, h.acc, x)
    && PcSums(cfg, h.acc.tickets, h.sums, x)
    && PcRes(cfg, h.sums, h.rdy, h.res, x)
  }

  ghost predicate PcsOk(cfg: Cfg, s: State)
    requires Shaped(cfg, s.sh)
  {
    forall i :: 0 <= i < |s.pc| ==> PcOk(cfg, s.sh, s.pc[i])
  }

  /** Nothing is lost: every unfinished item is in the hands of some CTA or in a queue. */
  ghost predicate NothingLost(cfg: Cfg, s: State)
    requires Shaped(cfg, s.sh)
  {
    && (forall w :: w in s.sh.mask ==> w in s.sh.acc.tickets || Held(s.pc, NewWork(w)))
    && (forall k :: 0 <= k < |s.sh.acc.tickets| <= |s.sh.acc.slots| ==> s.sh.acc.slots[k] != 0 || Held(s.pc, Slot(k)))
    && (forall k :: 0 <= k < s.sh.acc.head <= |s.sh.acc.tickets| ==> s.sh.acc.tickets[k] in s.sh.sums.counted || Held(s.pc, Entry(k)))
    && (forall c :: Complete(cfg, s.sh.sums, c) ==> c in s.sh.rdy.tickets || Held(s.pc, Fire(c)))
    && (forall k :: 0 <= k < |s.sh.rdy.tickets| <= |s.sh.rdy.slots| ==> s.sh.rdy.slots[k] != 0 || Held(s.pc, ReadySlot(k)))
    && (forall k :: 0 <= k < s.sh.rdy.head <= |s.sh.rdy.tickets| ==> s.sh.rdy.tickets[k] in s.sh.res.finished || Held(s.pc, ReadyEntry(k)))
  }

  ghost predicate Inv(cfg: Cfg, s: State) {
    && CfgOk(cfg)
    && Shaped(cfg, s.sh)
    && FlagsOk(cfg, s.sh.inbox)
    && AccOk(cfg, s.sh.mask, s.sh.acc)
    && SumsOk(cfg, s.sh.acc, s.sh.sums)
    && ResOk(cfg, s.sh.sums, s.sh.rdy, s.sh.res)
    && Exclusive(s.pc)
    && PcsOk(cfg, s)
  }

  lemma InitInv(cfg: Cfg, s: State)
    requires Init(cfg, s)
    ensures Inv(cfg, s) && NothingLost(cfg, s)
  {
    forall c | 0 <= c < cfg.chunks
      ensures CountOf({}, c, cfg.peers) == 0
    {
      CountEmpty(c, cfg.peers);
    }
  }

  // ----- every step keeps the invariant

  /** No CTA but `i` holds token `t`. */
  ghost predicate Free(pc: seq<Pc>, i: nat, t: Token) {
    t == NoToken || forall j :: 0 <= j < |pc| && j != i ==> TokenOf(pc[j]) != t
  }

  /** CTA `i` moves from `s` to `s'`; the shared parts keep their invariants. */
  ghost predicate SharedOk(cfg: Cfg, h: Shared) {
    && CfgOk(cfg)
    && Shaped(cfg, h)
    && FlagsOk(cfg, h.inbox)
    && AccOk(cfg, h.mask, h.acc)
    && SumsOk(cfg, h.acc, h.sums)
    && ResOk(cfg, h.sums, h.rdy, h.res)
  }

  /** Other CTAs are not disturbed. */
  ghost predicate OthersOk(cfg: Cfg, s: State, i: nat) {
    && Shaped(cfg, s.sh)
    && forall j :: 0 <= j < |s.pc| && j != i ==> PcOk(cfg, s.sh, s.pc[j])
  }

  lemma Assemble(cfg: Cfg, s: State, s': State, i: nat)
    requires i < |s.pc| == |s'.pc| && s'.pc == s.pc[i := s'.pc[i]]
    requires Exclusive(s.pc) && Free(s.pc, i, TokenOf(s'.pc[i]))
    requires InLock(s'.pc[i]) ==>
               forall j :: 0 <= j < |s.pc| && j != i && InLock(s.pc[j]) ==> s.pc[j].w.chunk != s'.pc[i].w.chunk
    requires SharedOk(cfg, s'.sh) && OthersOk(cfg, s', i) && PcOk(cfg, s'.sh, s'.pc[i])
    ensures Inv(cfg, s')
  {
  }

  /** The holder of a token keeps it: nobody else has it. */
  lemma StillFree(pc: seq<Pc>, i: nat)
    requires Exclusive(pc) && i < |pc|
    ensures Free(pc, i, TokenOf(pc[i]))
    ensures InLock(pc[i]) ==>
              forall j :: 0 <= j < |pc| && j != i && InLock(pc[j]) ==> pc[j].w.chunk != pc[i].w.chunk
  {
  }

  /** Steps that leave the queues, the counts and the token alone lose nothing. */
  lemma SameQueuesLoseNothing(cfg: Cfg, s: State, s': State, i: nat)
    requires Shaped(cfg, s.sh) && Shaped(cfg, s'.sh) && NothingLost(cfg, s)
    requires i < |s.pc| == |s'.pc| && s'.pc == s.pc[i := s'.pc[i]] && TokenOf(s'.pc[i]) == TokenOf(s.pc[i])
    requires s'.sh.mask == s.sh.mask && s'.sh.acc == s.sh.acc && s'.sh.rdy == s.sh.rdy
    requires s'.sh.sums.count == s.sh.sums.count && s'.sh.sums.counted == s.sh.sums.counted && s'.sh.res.finished == s.sh.res.finished
    ensures NothingLost(cfg, s')
  {
    HeldAfter(s.pc, i, s'.pc[i]);
  }

  /** A step that only moves CTA `i`, keeping its token and its lock. */
  lemma LocalMove(cfg: Cfg, s: State, i: nat, x: Pc)
    requires Inv(cfg, s) && i < |s.pc|
    requires TokenOf(x) == TokenOf(s.pc[i])
    requires InLock(x) ==> InLock(s.pc[i]) && x.w == s.pc[i].w
    requires PcOk(cfg, s.sh, x)
    ensures Inv(cfg, At(s, i, x))
  {
    StillFree(s.pc, i);
    Assemble(cfg, s, At(s, i, x), i);
  }

  lemma StartInv(cfg: Cfg, s: State, i: nat, a: Choice)
    requires Inv(cfg, s) && i < |s.pc| && s.pc[i].Idle?
    ensures Inv(cfg, StartStep(s, i, a))
  {
    match a {
      case Drain(q) =>
        if q < |s.sh.inbox.heads| { LocalMove(cfg, s, i, DFlag(q, s.sh.inbox.heads[q])); }
      case Accumulate => LocalMove(cfg, s, i, ATail(s.sh.acc.head));
      case PopReady => LocalMove(cfg, s, i, RTail(s.sh.rdy.head));
    }
  }

  // ----- draining

  lemma FlagInv(cfg: Cfg, s: State, i: nat)
    requires Inv(cfg, s) && i < |s.pc| && s.pc[i].DFlag?
    ensures Inv(cfg, DrainStep(cfg, s, i))
  {
    var q, h := s.pc[i].q, s.pc[i].h;
    if q < |s.sh.inbox.flags| && h < |s.sh.inbox.flags[q]| && s.sh.inbox.flags[q][h] != 0 {
      LocalMove(cfg, s, i, DClaim(q, h, s.sh.inbox.flags[q][h]));
    } else {
      LocalMove(cfg, s, i, Idle);
    }
  }

  lemma AdvanceInv(cfg: Cfg, s: State, q: nat)
    requires Inv(cfg, s) && q < |s.sh.inbox.heads|
    ensures Inv(cfg, s.(sh := s.sh.(inbox := Advance(s.sh.inbox, q))))
  {
  }

  lemma WordInv(cfg: Cfg, s: State, i: nat)
    requires Inv(cfg, s) && i < |s.pc| && s.pc[i].DClaim?
    ensures Inv(cfg, DrainStep(cfg, s, i))
  {
    var q, h := s.pc[i].q, s.pc[i].h;
    if q < |s.sh.inbox.heads| && s.sh.inbox.heads[q] == h {
      AdvanceInv(cfg, s, q);
      LocalMove(cfg, s.(sh := s.sh.(inbox := Advance(s.sh.inbox, q))), i, DWork(cfg.decode(s.pc[i].word)));
    } else {
      LocalMove(cfg, s, i, Idle);
    }
  }

  lemma MarkLosesNothing(cfg: Cfg, s: State, i: nat, w: Work, ws: seq<Work>)
    requires Shaped(cfg, s.sh) && NothingLost(cfg, s) && i < |s.pc| && s.pc[i].DWork?
    ensures NothingLost(cfg, At(s, i, DTicket(w, ws)).(sh := s.sh.(mask := s.sh.mask + {w})))
  {
    HeldAfter(s.pc, i, DTicket(w, ws));
  }

  /** The first drainer to see a work marks it and will enqueue it. */
  lemma MarkNewInv(cfg: Cfg, s: State, i: nat)
    requires Inv(cfg, s) && i < |s.pc| && s.pc[i].DWork? && s.pc[i].ws != []
    requires Owns(cfg, s.pc[i].ws[0].chunk) && s.pc[i].ws[0] !in s.sh.mask
    ensures Inv(cfg, DrainStep(cfg, s, i))
  {
    var w, ws := s.pc[i].ws[0], s.pc[i].ws[1..];
    assert Free(s.pc, i, NewWork(w)) by {
      assert forall j :: 0 <= j < |s.pc| ==> PcOk(cfg, s.sh, s.pc[j]);
    }
    assert OthersOk(cfg, DrainStep(cfg, s, i), i);
    Assemble(cfg, s, DrainStep(cfg, s, i), i);
  }

  /** Later drainers skip it. */
  lemma MarkInv(cfg: Cfg, s: State, i: nat)
    requires Inv(cfg, s) && i < |s.pc| && s.pc[i].DWork?
    ensures Inv(cfg, DrainStep(cfg, s, i))
  {
    var ws := s.pc[i].ws;
    if ws == [] {
      LocalMove(cfg, s, i, Idle);
    } else if !Owns(cfg, ws[0].chunk) || ws[0] in s.sh.mask {
      LocalMove(cfg, s, i, DWork(ws[1..]));
    } else {
      MarkNewInv(cfg, s, i);
    }
  }

  /** Works are handed out at most once each, so the queue never overflows. */
  lemma RoomForTicket(cfg: Cfg, mask: set<Work>, acc: Queue<Work>, w: Work)
    requires AccOk(cfg, mask, acc) && InRange(cfg, w) && w !in acc.tickets
    ensures |acc.tickets| < cfg.chunks * cfg.peers
  {
    var all := acc.tickets + [w];
    var keys := seq(|all|, k requires 0 <= k < |all| => Pair(all[k].chunk, cfg.peers, all[k].peer));
    forall k | 0 <= k < |all|
      ensures keys[k] < cfg.chunks * cfg.peers
    {
      assert InRange(cfg, all[k]);
      PairBelow(all[k].chunk, cfg.chunks, cfg.peers, all[k].peer);
    }
    forall k, l | 0 <= k < l < |all|
      ensures keys[k] != keys[l]
    {
      assert InRange(cfg, all[k]) && InRange(cfg, all[l]) && all[k] != all[l];
      PairDigits(all[k].chunk, cfg.peers, all[k].peer);
      PairDigits(all[l].chunk, cfg.peers, all[l].peer);
    }
    DistinctBelow(keys, cfg.chunks * cfg.peers);
  }

  lemma TicketKeeps(cfg: Cfg, h: Shared, w: Work, p: Pc)
    requires Shaped(cfg, h) && PcOk(cfg, h, p) && TokenOf(p) != NewWork(w) && |h.acc.tickets| < |h.acc.slots|
    ensures PcOk(cfg, h.(acc := Ticket(h.acc, w)), p)
  {
  }

  lemma TicketLosesNothing(cfg: Cfg, s: State, i: nat)
    requires Shaped(cfg, s.sh) && NothingLost(cfg, s) && i < |s.pc| && s.pc[i].DTicket?
    requires |s.sh.acc.tickets| < |s.sh.acc.slots| && s.sh.acc.head <= |s.sh.acc.tickets|
    ensures NothingLost(cfg, DrainStep(cfg, s, i))
  {
    var s' := DrainStep(cfg, s, i);
    HeldAfter(s.pc, i, s'.pc[i]);
    assert s'.sh.acc.tickets[|s.sh.acc.tickets|] == s.pc[i].w;
    assert forall w :: w in s.sh.acc.tickets ==> w in s'.sh.acc.tickets;
  }

  lemma TicketShared(cfg: Cfg, h: Shared, w: Work)
    requires SharedOk(cfg, h) && |h.acc.tickets| < |h.acc.slots|
    requires InRange(cfg, w) && Owns(cfg, w.chunk) && w in h.mask && w !in h.acc.tickets
    ensures SharedOk(cfg, h.(acc := Ticket(h.acc, w)))
  {
    TicketConsistent(h.acc, cfg.pack, w);
  }

  lemma TicketOthers(cfg: Cfg, s: State, i: nat)
    requires Shaped(cfg, s.sh) && PcsOk(cfg, s) && Exclusive(s.pc) && i < |s.pc| && s.pc[i].DTicket?
    requires |s.sh.acc.tickets| < |s.sh.acc.slots|
    ensures OthersOk(cfg, DrainStep(cfg, s, i), i)
    ensures Free(s.pc, i, Slot(|s.sh.acc.tickets|))
  {
    StillFree(s.pc, i);
    forall j | 0 <= j < |s.pc| && j != i
      ensures PcOk(cfg, DrainStep(cfg, s, i).sh, s.pc[j]) && TokenOf(s.pc[j]) != Slot(|s.sh.acc.tickets|)
    {
      assert PcOk(cfg, s.sh, s.pc[j]);
      TicketKeeps(cfg, s.sh, s.pc[i].w, s.pc[j]);
    }
  }

  lemma TicketInv(cfg: Cfg, s: State, i: nat)
    requires Inv(cfg, s) && i < |s.pc| && s.pc[i].DTicket?
    ensures Inv(cfg, DrainStep(cfg, s, i))
  {
    var w := s.pc[i].w;
    var s' := DrainStep(cfg, s, i);
    assert PcOk(cfg, s.sh, s.pc[i]);
    RoomForTicket(cfg, s.sh.mask, s.sh.acc, w);
    TicketShared(cfg, s.sh, w);
    TicketOthers(cfg, s, i);
    Assemble(cfg, s, s', i);
  }

  lemma PublishKeeps(cfg: Cfg, h: Shared, k: nat, v: nat, p: Pc)
    requires Shaped(cfg, h) && PcOk(cfg, h, p) && TokenOf(p) != Slot(k)
    ensures PcOk(cfg, h.(acc := Publish(h.acc, k, v)), p)
  {
  }

  lemma PublishLosesNothing(cfg: Cfg, s: State, i: nat)
    requires Shaped(cfg, s.sh) && NothingLost(cfg, s) && i < |s.pc| && s.pc[i].DPublish? && cfg.pack(s.pc[i].w) != 0
    ensures NothingLost(cfg, DrainStep(cfg, s, i))
  {
    HeldAfter(s.pc, i, DWork(s.pc[i].ws));
  }

  /** The capacity guard never drops a work. */
  lemma PublishInv(cfg: Cfg, s: State, i: nat)
    requires Inv(cfg, s) && i < |s.pc| && s.pc[i].DPublish?
    ensures s.pc[i].k < |s.sh.acc.slots|
    ensures Inv(cfg, DrainStep(cfg, s, i))
  {
    var k, w := s.pc[i].k, s.pc[i].w;
    assert PcOk(cfg, s.sh, s.pc[i]);
    StillFree(s.pc, i);
    PublishConsistent(s.sh.acc, cfg.pack, k);
    forall j | 0 <= j < |s.pc| && j != i
      ensures PcOk(cfg, DrainStep(cfg, s, i).sh, s.pc[j])
    {
      PublishKeeps(cfg, s.sh, k, cfg.pack(w), s.pc[j]);
    }
    Assemble(cfg, s, DrainStep(cfg, s, i), i);
  }

  // ----- claiming an entry

  lemma ClaimKeeps(cfg: Cfg, h: Shared, p: Pc)
    requires Shaped(cfg, h) && PcOk(cfg, h, p) && h.acc.head < |h.acc.tickets|
    ensures PcOk(cfg, h.(acc := Claim(h.acc)), p)
  {
  }

  lemma ClaimLosesNothing(cfg: Cfg, s: State, i: nat)
    requires Shaped(cfg, s.sh) && NothingLost(cfg, s) && i < |s.pc| && s.pc[i].ACas? && s.sh.acc.head == s.pc[i].h
    requires s.sh.acc.head < |s.sh.acc.tickets|
    ensures NothingLost(cfg, PopAccStep(cfg, s, i))
  {
    HeldAfter(s.pc, i, ASpin(s.sh.acc.head));
  }

  lemma ClaimInv(cfg: Cfg, s: State, i: nat)
    requires Inv(cfg, s) && i < |s.pc| && s.pc[i].ACas? && s.sh.acc.head == s.pc[i].h
    ensures Inv(cfg, PopAccStep(cfg, s, i))
  {
    assert PcOk(cfg, s.sh, s.pc[i]);
    assert Free(s.pc, i, Entry(s.sh.acc.head)) by {
      assert forall j :: 0 <= j < |s.pc| ==> PcOk(cfg, s.sh, s.pc[j]);
    }
    forall j | 0 <= j < |s.pc| && j != i
      ensures PcOk(cfg, PopAccStep(cfg, s, i).sh, s.pc[j])
    {
      ClaimKeeps(cfg, s.sh, s.pc[j]);
    }
    Assemble(cfg, s, PopAccStep(cfg, s, i), i);
  }

  /** A claimed slot, once published, decodes to the work it was handed out for. */
  lemma SpinInv(cfg: Cfg, s: State, i: nat)
    requires Inv(cfg, s) && i < |s.pc| && s.pc[i].ASpin?
    ensures Inv(cfg, PopAccStep(cfg, s, i))
  {
    var k := s.pc[i].k;
    assert PcOk(cfg, s.sh, s.pc[i]);
    var w := s.sh.acc.tickets[k];
    if s.sh.acc.slots[k] != 0 {
      assert PopAccStep(cfg, s, i) == At(s, i, AWait(k, w));
      LocalMove(cfg, s, i, AWait(k, w));
    }
  }

  lemma SpinLosesNothing(cfg: Cfg, s: State, i: nat)
    requires CfgOk(cfg) && Shaped(cfg, s.sh) && NothingLost(cfg, s) && i < |s.pc| && s.pc[i].ASpin?
    requires AccOk(cfg, s.sh.mask, s.sh.acc) && PcOk(cfg, s.sh, s.pc[i])
    ensures NothingLost(cfg, PopAccStep(cfg, s, i))
  {
    var k := s.pc[i].k;
    assert PcOk(cfg, s.sh, s.pc[i]);
    var w := s.sh.acc.tickets[k];
    if s.sh.acc.slots[k] != 0 {
      assert PopAccStep(cfg, s, i) == At(s, i, AWait(k, w));
      SameQueuesLoseNothing(cfg, s, PopAccStep(cfg, s, i), i);
    }
  }

  lemma PopAccInv(cfg: Cfg, s: State, i: nat)
    requires Inv(cfg, s) && i < |s.pc| && Popping(s.pc[i])
    ensures Inv(cfg, PopAccStep(cfg, s, i))
  {
    match s.pc[i] {
      case ATail(h) => LocalMove(cfg, s, i, if h < |s.sh.acc.tickets| then ACas(h) else Idle);
      case ACas(h) =>
        if s.sh.acc.head == h { ClaimInv(cfg, s, i); } else { LocalMove(cfg, s, i, Idle); }
      case ASpin(k) => SpinInv(cfg, s, i);
    }
  }

  // ----- adding one peer's chunk

  lemma LockKeeps(cfg: Cfg, h: Shared, c: nat, p: Pc)
    requires Shaped(cfg, h) && PcOk(cfg, h, p)
    ensures PcOk(cfg, h.(sums := h.sums.(lock := h.sums.lock + {c})), p)
    ensures !InLock(p) || p.w.chunk != c ==> PcOk(cfg, h.(sums := h.sums.(lock := h.sums.lock - {c})), p)
  {
  }

  lemma LockOthers(cfg: Cfg, s: State, i: nat)
    requires Shaped(cfg, s.sh) && PcsOk(cfg, s) && i < |s.pc| && s.pc[i].ALock? && s.pc[i].w.chunk !in s.sh.sums.lock
    ensures OthersOk(cfg, AddStep(cfg, s, i), i)
    ensures forall j :: 0 <= j < |s.pc| && j != i && InLock(s.pc[j]) ==> s.pc[j].w.chunk != s.pc[i].w.chunk
  {
    forall j | 0 <= j < |s.pc| && j != i
      ensures PcOk(cfg, AddStep(cfg, s, i).sh, s.pc[j])
      ensures InLock(s.pc[j]) ==> s.pc[j].w.chunk != s.pc[i].w.chunk
    {
      assert PcOk(cfg, s.sh, s.pc[j]);
      LockKeeps(cfg, s.sh, s.pc[i].w.chunk, s.pc[j]);
    }
  }

  lemma LockInv(cfg: Cfg, s: State, i: nat)
    requires Inv(cfg, s) && i < |s.pc| && s.pc[i].ALock? && s.pc[i].w.chunk !in s.sh.sums.lock
    ensures Inv(cfg, AddStep(cfg, s, i))
  {
    assert PcOk(cfg, s.sh, s.pc[i]);
    StillFree(s.pc, i);
    LockOthers(cfg, s, i);
    Assemble(cfg, s, AddStep(cfg, s, i), i);
  }

  lemma UnlockOthers(cfg: Cfg, s: State, i: nat)
    requires Shaped(cfg, s.sh) && PcsOk(cfg, s) && Exclusive(s.pc) && i < |s.pc| && s.pc[i].AUnlock?
    ensures OthersOk(cfg, AddStep(cfg, s, i), i)
  {
    StillFree(s.pc, i);
    forall j | 0 <= j < |s.pc| && j != i
      ensures PcOk(cfg, AddStep(cfg, s, i).sh, s.pc[j])
    {
      LockKeeps(cfg, s.sh, s.pc[i].w.chunk, s.pc[j]);
    }
  }

  lemma UnlockInv(cfg: Cfg, s: State, i: nat)
    requires Inv(cfg, s) && i < |s.pc| && s.pc[i].AUnlock?
    ensures Inv(cfg, AddStep(cfg, s, i))
  {
    assert PcOk(cfg, s.sh, s.pc[i]);
    StillFree(s.pc, i);
    UnlockOthers(cfg, s, i);
    Assemble(cfg, s, AddStep(cfg, s, i), i);
  }

  function AfterAdd(cfg: Cfg, m: Sums, w: Work): Sums
    requires w.chunk < |m.staging|
  {
    m.(staging := m.staging[w.chunk := m.staging[w.chunk] + cfg.recv(w)], added := m.added + {w})
  }

  /** Under the lock of its chunk, reading, adding and writing back is atomic: the staging
      value grows by exactly this peer's contribution.
   */
  lemma AddSums(cfg: Cfg, acc: Queue<Work>, m: Sums, k: nat, w: Work)
    requires |m.staging| == |m.count| == cfg.chunks && SumsOk(cfg, acc, m)
    requires InRange(cfg, w) && w !in m.added && w.chunk in m.senderDone
    requires k < acc.head <= |acc.tickets| && acc.tickets[k] == w && Distinct(acc.tickets)
    ensures SumsOk(cfg, acc, AfterAdd(cfg, m, w))
  {
    forall c | 0 <= c < cfg.chunks
      ensures SumOf(cfg.recv, m.added + {w}, c, cfg.peers) == SumOf(cfg.recv, m.added, c, cfg.peers) + if w.chunk == c then cfg.recv(w) else 0
    {
      SumAfterAdd(cfg.recv, m.added, w, c, cfg.peers);
    }
  }

  lemma AddKeeps(cfg: Cfg, h: Shared, k: nat, w: Work, p: Pc)
    requires Shaped(cfg, h) && PcOk(cfg, h, p) && Distinct(h.acc.tickets)
    requires w.chunk < cfg.chunks && k < |h.acc.tickets| && h.acc.tickets[k] == w
    requires TokenOf(p) != Entry(k) && (InLock(p) ==> p.w.chunk != w.chunk)
    ensures PcOk(cfg, h.(sums := AfterAdd(cfg, h.sums, w)), p)
  {
  }

  lemma WriteShared(cfg: Cfg, h: Shared, k: nat, w: Work)
    requires SharedOk(cfg, h) && k < h.acc.head && h.acc.tickets[k] == w
    requires InRange(cfg, w) && w !in h.sums.added && w.chunk in h.sums.senderDone
    ensures SharedOk(cfg, h.(sums := AfterAdd(cfg, h.sums, w)))
  {
    AddSums(cfg, h.acc, h.sums, k, w);
  }

  lemma WriteOthers(cfg: Cfg, s: State, i: nat)
    requires Shaped(cfg, s.sh) && PcsOk(cfg, s) && Exclusive(s.pc) && Distinct(s.sh.acc.tickets)
    requires i < |s.pc| && s.pc[i].AWrite?
    ensures OthersOk(cfg, AddStep(cfg, s, i), i)
  {
    var k, w, s' := s.pc[i].k, s.pc[i].w, AddStep(cfg, s, i);
    assert PcOk(cfg, s.sh, s.pc[i]);
    StillFree(s.pc, i);
    assert s'.sh.sums == AfterAdd(cfg, s.sh.sums, w);
    forall j | 0 <= j < |s.pc| && j != i
      ensures PcOk(cfg, s'.sh, s.pc[j])
    {
      AddKeeps(cfg, s.sh, k, w, s.pc[j]);
    }
  }

  lemma WriteInv(cfg: Cfg, s: State, i: nat)
    requires Inv(cfg, s) && i < |s.pc| && s.pc[i].AWrite?
    ensures Inv(cfg, AddStep(cfg, s, i))
  {
    assert PcOk(cfg, s.sh, s.pc[i]);
    StillFree(s.pc, i);
    WriteShared(cfg, s.sh, s.pc[i].k, s.pc[i].w);
    WriteOthers(cfg, s, i);
    Assemble(cfg, s, AddStep(cfg, s, i), i);
  }

  function AfterCount(m: Sums, w: Work): Sums
    requires w.chunk < |m.count|
  {
    m.(count := m.count[w.chunk := m.count[w.chunk] + 1], counted := m.counted + {w})
  }

  lemma CountSums(cfg: Cfg, acc: Queue<Work>, m: Sums, w: Work)
    requires |m.staging| == |m.count| == cfg.chunks && SumsOk(cfg, acc, m)
    requires InRange(cfg, w) && w in m.added && w !in m.counted
    ensures SumsOk(cfg, acc, AfterCount(m, w))
    ensures m.count[w.chunk] < cfg.peers
  {
    forall c | 0 <= c < cfg.chunks
      ensures CountOf(m.counted + {w}, c, cfg.peers) == CountOf(m.counted, c, cfg.peers) + if w.chunk == c then 1 else 0
    {
      CountAfterAdd(m.counted, w, c, cfg.peers);
    }
    assert CountOf(m.counted + {w}, w.chunk, cfg.peers) <= cfg.peers;
  }

  lemma CountKeeps(cfg: Cfg, h: Shared, w: Work, p: Pc)
    requires Shaped(cfg, h) && PcOk(cfg, h, p) && w.chunk < cfg.chunks && h.sums.count[w.chunk] < cfg.peers
    requires p.AUnlock? || p.ACount? ==> p.w != w
    requires forall c :: c in h.res.reduceDone ==> Complete(cfg, h.sums, c)
    ensures PcOk(cfg, h.(sums := AfterCount(h.sums, w)), p)
  {
  }

  lemma CountShared(cfg: Cfg, h: Shared, w: Work)
    requires SharedOk(cfg, h) && InRange(cfg, w) && w in h.sums.added && w !in h.sums.counted
    ensures SharedOk(cfg, h.(sums := AfterCount(h.sums, w)))
    ensures h.sums.count[w.chunk] < cfg.peers
  {
    CountSums(cfg, h.acc, h.sums, w);
  }

  lemma CountLosesNothing(cfg: Cfg, s: State, i: nat)
    requires Shaped(cfg, s.sh) && NothingLost(cfg, s) && i < |s.pc| && s.pc[i].ACount?
    requires PcOk(cfg, s.sh, s.pc[i])
    ensures NothingLost(cfg, AddStep(cfg, s, i))
  {
    HeldAfter(s.pc, i, AddStep(cfg, s, i).pc[i]);
  }

  lemma CountOthers(cfg: Cfg, s: State, i: nat)
    requires Shaped(cfg, s.sh) && PcsOk(cfg, s) && Exclusive(s.pc) && Distinct(s.sh.acc.tickets)
    requires i < |s.pc| && s.pc[i].ACount? && s.pc[i].w.chunk < cfg.chunks && s.sh.sums.count[s.pc[i].w.chunk] < cfg.peers
    requires forall c :: c in s.sh.res.reduceDone ==> Complete(cfg, s.sh.sums, c)
    ensures OthersOk(cfg, AddStep(cfg, s, i), i)
    ensures Free(s.pc, i, Fire(s.pc[i].w.chunk))
  {
    var k, w, s' := s.pc[i].k, s.pc[i].w, AddStep(cfg, s, i);
    assert PcOk(cfg, s.sh, s.pc[i]);
    StillFree(s.pc, i);
    assert s'.sh.sums == AfterCount(s.sh.sums, w);
    forall j | 0 <= j < |s.pc| && j != i
      ensures PcOk(cfg, s'.sh, s.pc[j]) && TokenOf(s.pc[j]) != Fire(w.chunk)
    {
      assert PcOk(cfg, s.sh, s.pc[j]) && TokenOf(s.pc[j]) != Entry(k);
      CountKeeps(cfg, s.sh, w, s.pc[j]);
    }
  }

  /** The peer that makes the count complete, and only that one, will announce the chunk. */
  lemma CountInv(cfg: Cfg, s: State, i: nat)
    requires Inv(cfg, s) && i < |s.pc| && s.pc[i].ACount?
    ensures Inv(cfg, AddStep(cfg, s, i))
  {
    assert PcOk(cfg, s.sh, s.pc[i]);
    CountShared(cfg, s.sh, s.pc[i].w);
    CountOthers(cfg, s, i);
    Assemble(cfg, s, AddStep(cfg, s, i), i);
  }

  lemma AwaitInv(cfg: Cfg, s: State, i: nat)
    requires Inv(cfg, s) && i < |s.pc| && s.pc[i].AWait?
    ensures Inv(cfg, AddStep(cfg, s, i))
  {
    assert PcOk(cfg, s.sh, s.pc[i]);
    if s.pc[i].w.chunk in s.sh.sums.senderDone {
      LocalMove(cfg, s, i, ALock(s.pc[i].k, s.pc[i].w));
    }
  }

  lemma ReadInv(cfg: Cfg, s: State, i: nat)
    requires Inv(cfg, s) && i < |s.pc| && s.pc[i].ARead?
    ensures Inv(cfg, AddStep(cfg, s, i))
  {
    assert PcOk(cfg, s.sh, s.pc[i]);
    LocalMove(cfg, s, i, AWrite(s.pc[i].k, s.pc[i].w, s.sh.sums.staging[s.pc[i].w.chunk]));
  }

  lemma AddInv(cfg: Cfg, s: State, i: nat)
    requires Inv(cfg, s) && i < |s.pc|
    requires Adding(s.pc[i])
    ensures Inv(cfg, AddStep(cfg, s, i))
  {
    assert PcOk(cfg, s.sh, s.pc[i]);
    match s.pc[i] {
      case AWait(_, _) => AwaitInv(cfg, s, i);
      case ALock(k, w) =>
        if w.chunk !in s.sh.sums.lock { LockInv(cfg, s, i); }
      case ARead(_, _) => ReadInv(cfg, s, i);
      case AWrite(_, _, _) => WriteInv(cfg, s, i);
      case AUnlock(_, _) => UnlockInv(cfg, s, i);
      case ACount(_, _) => CountInv(cfg, s, i);
    }
  }

  // ----- announcing a finished chunk

  lemma AnnounceKeeps(cfg: Cfg, h: Shared, c: nat, p: Pc)
    requires Shaped(cfg, h) && PcOk(cfg, h, p)
    ensures PcOk(cfg, h.(res := h.res.(reduceDone := h.res.reduceDone + {c})), p)
  {
  }

  lemma AnnounceInv(cfg: Cfg, s: State, i: nat)
    requires Inv(cfg, s) && i < |s.pc| && s.pc[i].AFlag?
    ensures Inv(cfg, ReadyStep(s, i))
  {
    var s' := ReadyStep(s, i);
    assert PcOk(cfg, s.sh, s.pc[i]);
    StillFree(s.pc, i);
    forall j | 0 <= j < |s.pc| && j != i
      ensures PcOk(cfg, s'.sh, s.pc[j])
    {
      AnnounceKeeps(cfg, s.sh, s.pc[i].c, s.pc[j]);
    }
    Assemble(cfg, s, s', i);
  }

  /** A chunk is announced at most once, so the ready queue never overflows. */
  lemma RoomForReady(cfg: Cfg, m: Sums, rdy: Queue<nat>, r: Result, c: nat)
    requires |m.count| == |r.out| == cfg.chunks && ResOk(cfg, m, rdy, r)
    requires c in r.reduceDone && c !in rdy.tickets
    ensures |rdy.tickets| < cfg.chunks
  {
    var all := rdy.tickets + [c];
    assert forall k :: 0 <= k < |all| ==> all[k] in r.reduceDone;
    DistinctBelow(all, cfg.chunks);
  }

  lemma ReadyTicketKeeps(cfg: Cfg, h: Shared, c: nat, p: Pc)
    requires Shaped(cfg, h) && PcOk(cfg, h, p) && TokenOf(p) != Fire(c) && |h.rdy.tickets| < |h.rdy.slots|
    ensures PcOk(cfg, h.(rdy := Ticket(h.rdy, c)), p)
  {
  }

  lemma ReadyTicketOthers(cfg: Cfg, s: State, i: nat)
    requires Shaped(cfg, s.sh) && PcsOk(cfg, s) && Exclusive(s.pc) && i < |s.pc| && s.pc[i].ARTicket?
    requires |s.sh.rdy.tickets| < |s.sh.rdy.slots|
    ensures OthersOk(cfg, ReadyStep(s, i), i)
    ensures Free(s.pc, i, ReadySlot(|s.sh.rdy.tickets|))
  {
    StillFree(s.pc, i);
    forall j | 0 <= j < |s.pc| && j != i
      ensures PcOk(cfg, ReadyStep(s, i).sh, s.pc[j]) && TokenOf(s.pc[j]) != ReadySlot(|s.sh.rdy.tickets|)
    {
      assert PcOk(cfg, s.sh, s.pc[j]);
      ReadyTicketKeeps(cfg, s.sh, s.pc[i].c, s.pc[j]);
    }
  }

  lemma ReadyTicketLosesNothing(cfg: Cfg, s: State, i: nat)
    requires Shaped(cfg, s.sh) && NothingLost(cfg, s) && i < |s.pc| && s.pc[i].ARTicket?
    requires |s.sh.rdy.tickets| < |s.sh.rdy.slots| && s.sh.rdy.head <= |s.sh.rdy.tickets|
    ensures NothingLost(cfg, ReadyStep(s, i))
  {
    var s' := ReadyStep(s, i);
    HeldAfter(s.pc, i, s'.pc[i]);
    assert s'.sh.rdy.tickets[|s.sh.rdy.tickets|] == s.pc[i].c;
    assert forall c :: c in s.sh.rdy.tickets ==> c in s'.sh.rdy.tickets;
  }

  lemma ReadyTicketShared(cfg: Cfg, h: Shared, c: nat)
    requires SharedOk(cfg, h) && |h.rdy.tickets| < |h.rdy.slots| && c in h.res.reduceDone && c !in h.rdy.tickets
    ensures SharedOk(cfg, h.(rdy := Ticket(h.rdy, c)))
  {
    TicketConsistent(h.rdy, EncodeChunk, c);
  }

  lemma ReadyTicketInv(cfg: Cfg, s: State, i: nat)
    requires Inv(cfg, s) && i < |s.pc| && s.pc[i].ARTicket?
    ensures Inv(cfg, ReadyStep(s, i))
  {
    assert PcOk(cfg, s.sh, s.pc[i]);
    RoomForReady(cfg, s.sh.sums, s.sh.rdy, s.sh.res, s.pc[i].c);
    ReadyTicketShared(cfg, s.sh, s.pc[i].c);
    ReadyTicketOthers(cfg, s, i);
    Assemble(cfg, s, ReadyStep(s, i), i);
  }

  lemma ReadyPublishKeeps(cfg: Cfg, h: Shared, k: nat, v: nat, p: Pc)
    requires Shaped(cfg, h) && PcOk(cfg, h, p) && TokenOf(p) != ReadySlot(k)
    ensures PcOk(cfg, h.(rdy := Publish(h.rdy, k, v)), p)
  {
  }

  lemma ReadyPublishLosesNothing(cfg: Cfg, s: State, i: nat)
    requires Shaped(cfg, s.sh) && NothingLost(cfg, s) && i < |s.pc| && s.pc[i].ARPublish?
    ensures NothingLost(cfg, ReadyStep(s, i))
  {
    HeldAfter(s.pc, i, Idle);
  }

  lemma ReadyPublishInv(cfg: Cfg, s: State, i: nat)
    requires Inv(cfg, s) && i < |s.pc| && s.pc[i].ARPublish?
    ensures s.pc[i].k < |s.sh.rdy.slots|
    ensures Inv(cfg, ReadyStep(s, i))
  {
    var k, c, s' := s.pc[i].k, s.pc[i].c, ReadyStep(s, i);
    assert PcOk(cfg, s.sh, s.pc[i]);
    StillFree(s.pc, i);
    PublishConsistent(s.sh.rdy, EncodeChunk, k);
    forall j | 0 <= j < |s.pc| && j != i
      ensures PcOk(cfg, s'.sh, s.pc[j])
    {
      ReadyPublishKeeps(cfg, s.sh, k, EncodeChunk(c), s.pc[j]);
    }
    Assemble(cfg, s, s', i);
  }

  // ----- writing a chunk out

  lemma ReadyClaimKeeps(cfg: Cfg, h: Shared, p: Pc)
    requires Shaped(cfg, h) && PcOk(cfg, h, p) && h.rdy.head < |h.rdy.tickets|
    ensures PcOk(cfg, h.(rdy := Claim(h.rdy)), p)
  {
  }

  lemma ReadyClaimLosesNothing(cfg: Cfg, s: State, i: nat)
    requires Shaped(cfg, s.sh) && NothingLost(cfg, s) && i < |s.pc| && s.pc[i].RCas? && s.sh.rdy.head == s.pc[i].h
    requires s.sh.rdy.head < |s.sh.rdy.tickets|
    ensures NothingLost(cfg, OutStep(s, i))
  {
    HeldAfter(s.pc, i, RSpin(s.sh.rdy.head));
  }

  lemma ReadyClaimOthers(cfg: Cfg, s: State, i: nat)
    requires Shaped(cfg, s.sh) && PcsOk(cfg, s) && i < |s.pc| && s.pc[i].RCas? && s.sh.rdy.head == s.pc[i].h
    requires s.sh.rdy.head < |s.sh.rdy.tickets|
    ensures OthersOk(cfg, OutStep(s, i), i)
    ensures Free(s.pc, i, ReadyEntry(s.sh.rdy.head))
  {
    forall j | 0 <= j < |s.pc| && j != i
      ensures PcOk(cfg, OutStep(s, i).sh, s.pc[j]) && TokenOf(s.pc[j]) != ReadyEntry(s.sh.rdy.head)
    {
      assert PcOk(cfg, s.sh, s.pc[j]);
      ReadyClaimKeeps(cfg, s.sh, s.pc[j]);
    }
  }

  lemma ReadyClaimInv(cfg: Cfg, s: State, i: nat)
    requires Inv(cfg, s) && i < |s.pc| && s.pc[i].RCas? && s.sh.rdy.head == s.pc[i].h
    ensures Inv(cfg, OutStep(s, i))
  {
    assert PcOk(cfg, s.sh, s.pc[i]);
    ReadyClaimOthers(cfg, s, i);
    Assemble(cfg, s, OutStep(s, i), i);
  }

  /** An announced chunk's staging value is final: local plus every peer once. */
  lemma AnnouncedIsFull(cfg: Cfg, acc: Queue<Work>, m: Sums, c: nat)
    requires |m.staging| == |m.count| == cfg.chunks && SumsOk(cfg, acc, m) && CfgOk(cfg)
    requires Complete(cfg, m, c)
    ensures m.staging[c] == Full(cfg, c)
    ensures forall p :: 0 <= p < cfg.peers ==> Work(p, c) in m.counted
  {
    CountFull(m.counted, c, cfg.peers);
    SumFull(cfg.recv, m.added, c, cfg.peers);
    assert Work(0, c) in m.counted;
  }

  lemma OutKeeps(cfg: Cfg, h: Shared, c: nat, p: Pc)
    requires Shaped(cfg, h) && PcOk(cfg, h, p) && c < cfg.chunks
    ensures PcOk(cfg, h.(res := h.res.(out := h.res.out[c := Full(cfg, c)])), p)
  {
  }

  lemma OutOthers(cfg: Cfg, s: State, i: nat)
    requires Shaped(cfg, s.sh) && PcsOk(cfg, s) && i < |s.pc| && s.pc[i].ROut? && s.pc[i].c < cfg.chunks
    requires s.sh.sums.staging[s.pc[i].c] == Full(cfg, s.pc[i].c)
    ensures OthersOk(cfg, OutStep(s, i), i)
  {
    forall j | 0 <= j < |s.pc| && j != i
      ensures PcOk(cfg, OutStep(s, i).sh, s.pc[j])
    {
      OutKeeps(cfg, s.sh, s.pc[i].c, s.pc[j]);
    }
  }

  lemma OutShared(cfg: Cfg, s: State, i: nat)
    requires Inv(cfg, s) && i < |s.pc| && s.pc[i].ROut?
    ensures SharedOk(cfg, OutStep(s, i).sh) && PcOk(cfg, OutStep(s, i).sh, OutStep(s, i).pc[i])
  {
    assert PcOk(cfg, s.sh, s.pc[i]);
    assert s.pc[i].c in s.sh.res.reduceDone;
    AnnouncedIsFull(cfg, s.sh.acc, s.sh.sums, s.pc[i].c);
  }

  lemma OutInv(cfg: Cfg, s: State, i: nat)
    requires Inv(cfg, s) && i < |s.pc| && s.pc[i].ROut?
    ensures Inv(cfg, OutStep(s, i))
  {
    assert PcOk(cfg, s.sh, s.pc[i]);
    OutShared(cfg, s, i);
    StillFree(s.pc, i);
    OutOthers(cfg, s, i);
    Assemble(cfg, s, OutStep(s, i), i);
  }

  lemma FinishKeeps(cfg: Cfg, h: Shared, k: nat, p: Pc)
    requires Shaped(cfg, h) && PcOk(cfg, h, p) && Distinct(h.rdy.tickets)
    requires k < |h.rdy.tickets| && TokenOf(p) != ReadyEntry(k)
    ensures var r := h.res;
            PcOk(cfg, h.(res := r.(processed := r.processed + 1, finished := r.finished + {h.rdy.tickets[k]})), p)
  {
  }

  lemma FinishLosesNothing(cfg: Cfg, s: State, i: nat)
    requires Shaped(cfg, s.sh) && NothingLost(cfg, s) && i < |s.pc| && s.pc[i].RDone? && PcOk(cfg, s.sh, s.pc[i])
    ensures NothingLost(cfg, OutStep(s, i))
  {
    HeldAfter(s.pc, i, Idle);
  }

  lemma FinishShared(cfg: Cfg, h: Shared, k: nat, c: nat)
    requires SharedOk(cfg, h) && k < h.rdy.head && h.rdy.tickets[k] == c && c !in h.res.finished
    requires c < cfg.chunks && h.res.out[c] == Full(cfg, c)
    ensures var r := h.res;
            SharedOk(cfg, h.(res := r.(processed := r.processed + 1, finished := r.finished + {c})))
  {
  }

  lemma FinishOthers(cfg: Cfg, s: State, i: nat)
    requires Inv(cfg, s) && i < |s.pc| && s.pc[i].RDone?
    ensures forall j :: 0 <= j < |s.pc| && j != i ==> PcOk(cfg, OutStep(s, i).sh, s.pc[j])
  {
    assert PcOk(cfg, s.sh, s.pc[i]);
    forall j | 0 <= j < |s.pc| && j != i
      ensures PcOk(cfg, OutStep(s, i).sh, s.pc[j])
    {
      FinishKeeps(cfg, s.sh, s.pc[i].k, s.pc[j]);
    }
  }

  lemma FinishInv(cfg: Cfg, s: State, i: nat)
    requires Inv(cfg, s) && i < |s.pc| && s.pc[i].RDone?
    ensures Inv(cfg, OutStep(s, i))
  {
    var k, c, s' := s.pc[i].k, s.pc[i].c, OutStep(s, i);
    assert PcOk(cfg, s.sh, s.pc[i]);
    FinishShared(cfg, s.sh, k, c);
    StillFree(s.pc, i);
    FinishOthers(cfg, s, i);
    Assemble(cfg, s, s', i);
  }

  lemma ReadySpinPc(cfg: Cfg, h: Shared, k: nat)
    requires SharedOk(cfg, h) && PcOk(cfg, h, RSpin(k)) && h.rdy.slots[k] != 0
    ensures h.rdy.slots[k] - 1 == h.rdy.tickets[k] && PcOk(cfg, h, RWait(k, h.rdy.tickets[k]))
  {
  }

  lemma ReadySpinInv(cfg: Cfg, s: State, i: nat)
    requires Inv(cfg, s) && i < |s.pc| && s.pc[i].RSpin?
    ensures Inv(cfg, OutStep(s, i))
  {
    var k := s.pc[i].k;
    assert PcOk(cfg, s.sh, s.pc[i]);
    if s.sh.rdy.slots[k] != 0 {
      ReadySpinPc(cfg, s.sh, k);
      assert OutStep(s, i) == At(s, i, RWait(k, s.sh.rdy.tickets[k]));
      LocalMove(cfg, s, i, RWait(k, s.sh.rdy.tickets[k]));
    }
  }

  lemma ReadyWaitInv(cfg: Cfg, s: State, i: nat)
    requires Inv(cfg, s) && i < |s.pc| && s.pc[i].RWait?
    ensures Inv(cfg, OutStep(s, i))
  {
    assert PcOk(cfg, s.sh, s.pc[i]);
    if s.pc[i].c in s.sh.res.reduceDone {
      LocalMove(cfg, s, i, ROut(s.pc[i].k, s.pc[i].c));
    }
  }

  lemma ReadyTailInv(cfg: Cfg, s: State, i: nat)
    requires Inv(cfg, s) && i < |s.pc| && (s.pc[i].RTail? || s.pc[i].RCas?)
    ensures Inv(cfg, OutStep(s, i))
  {
    if s.pc[i].RTail? {
      LocalMove(cfg, s, i, if s.pc[i].h < |s.sh.rdy.tickets| then RCas(s.pc[i].h) else Idle);
    } else if s.sh.rdy.head == s.pc[i].h {
      ReadyClaimInv(cfg, s, i);
    } else {
      LocalMove(cfg, s, i, Idle);
    }
  }

  // ----- the environment

  lemma ArriveInv(cfg: Cfg, s: State, s': State, q: nat, k: nat, v: nat)
    requires Inv(cfg, s) && Arrive(cfg, s, s', q, k, v)
    ensures Inv(cfg, s')
  {
  }

  lemma SenderDoneKeeps(cfg: Cfg, h: Shared, c: nat, p: Pc)
    requires Shaped(cfg, h) && PcOk(cfg, h, p) && c < cfg.chunks && c !in h.sums.senderDone
    ensures PcOk(cfg, h.(sums := h.sums.(senderDone := h.sums.senderDone + {c}, staging := h.sums.staging[c := cfg.local(c)])), p)
  {
  }

  lemma SenderDoneInv(cfg: Cfg, s: State, s': State, c: nat)
    requires Inv(cfg, s) && SenderDone(cfg, s, s', c)
    ensures Inv(cfg, s')
  {
    SumOfNone(cfg.recv, s.sh.sums.added, c, cfg.peers);
    assert SumsOk(cfg, s'.sh.acc, s'.sh.sums);
    forall j | 0 <= j < |s.pc|
      ensures PcOk(cfg, s'.sh, s.pc[j])
    {
      SenderDoneKeeps(cfg, s.sh, c, s.pc[j]);
    }
  }

  // ----- whole runs

  lemma DrainInv(cfg: Cfg, s: State, i: nat)
    requires Inv(cfg, s) && i < |s.pc|
    requires Draining(s.pc[i])
    ensures Inv(cfg, DrainStep(cfg, s, i))
  {
    match s.pc[i] {
      case DFlag(_, _) => FlagInv(cfg, s, i);
      case DClaim(_, _, _) => WordInv(cfg, s, i);
      case DWork(_) => MarkInv(cfg, s, i);
      case DTicket(_, _) => TicketInv(cfg, s, i);
      case DPublish(_, _, _) => PublishInv(cfg, s, i);
    }
  }

  lemma AnnounceStepInv(cfg: Cfg, s: State, i: nat)
    requires Inv(cfg, s) && i < |s.pc| && Announcing(s.pc[i])
    ensures Inv(cfg, ReadyStep(s, i))
  {
    match s.pc[i] {
      case AFlag(_) => AnnounceInv(cfg, s, i);
      case ARTicket(_) => ReadyTicketInv(cfg, s, i);
      case ARPublish(_, _) => ReadyPublishInv(cfg, s, i);
    }
  }

  lemma OutStepInv(cfg: Cfg, s: State, i: nat)
    requires Inv(cfg, s) && i < |s.pc|
    requires WritingOut(s.pc[i])
    ensures Inv(cfg, OutStep(s, i))
  {
    if s.pc[i].RTail? || s.pc[i].RCas? {
      ReadyTailInv(cfg, s, i);
    } else if s.pc[i].ROut? {
      OutInv(cfg, s, i);
    } else if s.pc[i].RDone? {
      FinishInv(cfg, s, i);
    } else if s.pc[i].RSpin? {
      ReadySpinInv(cfg, s, i);
    } else {
      ReadyWaitInv(cfg, s, i);
    }
  }

  lemma StepInv(cfg: Cfg, s: State, i: nat, a: Choice)
    requires Inv(cfg, s) && i < |s.pc|
    ensures Inv(cfg, Step(cfg, s, i, a))
  {
    var pc := s.pc[i];
    if pc.Idle? {
      StartInv(cfg, s, i, a);
    } else if Draining(pc) {
      DrainInv(cfg, s, i);
    } else if Popping(pc) {
      PopAccInv(cfg, s, i);
    } else if Adding(pc) {
      AddInv(cfg, s, i);
    } else if Announcing(pc) {
      AnnounceStepInv(cfg, s, i);
    } else {
      OutStepInv(cfg, s, i);
    }
  }

  // ----- no step loses an item

  lemma DrainLosesNothing(cfg: Cfg, s: State, i: nat)
    requires CfgOk(cfg) && Shaped(cfg, s.sh) && NothingLost(cfg, s) && i < |s.pc|
    requires AccOk(cfg, s.sh.mask, s.sh.acc) && PcOk(cfg, s.sh, s.pc[i])
    requires Draining(s.pc[i])
    ensures NothingLost(cfg, DrainStep(cfg, s, i))
  {
    var pc := s.pc[i];
    if pc.DTicket? {
      RoomForTicket(cfg, s.sh.mask, s.sh.acc, pc.w);
      TicketLosesNothing(cfg, s, i);
    } else if pc.DPublish? {
      PublishLosesNothing(cfg, s, i);
    } else if pc.DWork? && pc.ws != [] && Owns(cfg, pc.ws[0].chunk) && pc.ws[0] !in s.sh.mask {
      MarkLosesNothing(cfg, s, i, pc.ws[0], pc.ws[1..]);
    } else {
      SameQueuesLoseNothing(cfg, s, DrainStep(cfg, s, i), i);
    }
  }

  lemma PopAccLosesNothing(cfg: Cfg, s: State, i: nat)
    requires CfgOk(cfg) && Shaped(cfg, s.sh) && NothingLost(cfg, s) && i < |s.pc|
    requires AccOk(cfg, s.sh.mask, s.sh.acc) && PcOk(cfg, s.sh, s.pc[i])
    requires Popping(s.pc[i])
    ensures NothingLost(cfg, PopAccStep(cfg, s, i))
  {
    if s.pc[i].ASpin? {
      SpinLosesNothing(cfg, s, i);
    } else if s.pc[i].ACas? && s.sh.acc.head == s.pc[i].h {
      ClaimLosesNothing(cfg, s, i);
    } else {
      SameQueuesLoseNothing(cfg, s, PopAccStep(cfg, s, i), i);
    }
  }

  lemma AddLosesNothing(cfg: Cfg, s: State, i: nat)
    requires Shaped(cfg, s.sh) && NothingLost(cfg, s) && i < |s.pc| && PcOk(cfg, s.sh, s.pc[i])
    requires Adding(s.pc[i])
    ensures NothingLost(cfg, AddStep(cfg, s, i))
  {
    if s.pc[i].ACount? {
      CountLosesNothing(cfg, s, i);
    } else {
      SameQueuesLoseNothing(cfg, s, AddStep(cfg, s, i), i);
    }
  }

  lemma AnnounceLosesNothing(cfg: Cfg, s: State, i: nat)
    requires Shaped(cfg, s.sh) && NothingLost(cfg, s) && i < |s.pc| && PcOk(cfg, s.sh, s.pc[i])
    requires ResOk(cfg, s.sh.sums, s.sh.rdy, s.sh.res)
    requires Announcing(s.pc[i])
    ensures NothingLost(cfg, ReadyStep(s, i))
  {
    if s.pc[i].ARTicket? {
      RoomForReady(cfg, s.sh.sums, s.sh.rdy, s.sh.res, s.pc[i].c);
      ReadyTicketLosesNothing(cfg, s, i);
    } else if s.pc[i].ARPublish? {
      ReadyPublishLosesNothing(cfg, s, i);
    } else {
      SameQueuesLoseNothing(cfg, s, ReadyStep(s, i), i);
    }
  }

  lemma WaitLosesNothing(cfg: Cfg, s: State, i: nat)
    requires Shaped(cfg, s.sh) && NothingLost(cfg, s) && i < |s.pc| && PcOk(cfg, s.sh, s.pc[i])
    requires WritingOut(s.pc[i]) && !s.pc[i].RDone? && !s.pc[i].ROut? && (s.pc[i].RCas? ==> s.sh.rdy.head != s.pc[i].h)
    ensures NothingLost(cfg, OutStep(s, i))
  {
    SameQueuesLoseNothing(cfg, s, OutStep(s, i), i);
  }

  lemma WriteOutLosesNothing(cfg: Cfg, s: State, i: nat)
    requires Shaped(cfg, s.sh) && NothingLost(cfg, s) && i < |s.pc| && PcOk(cfg, s.sh, s.pc[i]) && s.pc[i].ROut?
    ensures NothingLost(cfg, OutStep(s, i))
  {
    SameQueuesLoseNothing(cfg, s, OutStep(s, i), i);
  }

  lemma OutLosesNothing(cfg: Cfg, s: State, i: nat)
    requires Shaped(cfg, s.sh) && NothingLost(cfg, s) && i < |s.pc| && PcOk(cfg, s.sh, s.pc[i])
    requires WritingOut(s.pc[i])
    ensures NothingLost(cfg, OutStep(s, i))
  {
    if s.pc[i].RDone? {
      FinishLosesNothing(cfg, s, i);
    } else if s.pc[i].RCas? && s.sh.rdy.head == s.pc[i].h {
      ReadyClaimLosesNothing(cfg, s, i);
    } else if s.pc[i].ROut? {
      WriteOutLosesNothing(cfg, s, i);
    } else {
      WaitLosesNothing(cfg, s, i);
    }
  }

  lemma StartLosesNothing(cfg: Cfg, s: State, i: nat, a: Choice)
    requires Shaped(cfg, s.sh) && NothingLost(cfg, s) && i < |s.pc| && s.pc[i].Idle?
    ensures NothingLost(cfg, StartStep(s, i, a))
  {
    SameQueuesLoseNothing(cfg, s, StartStep(s, i, a), i);
  }

  lemma StepLosesNothing(cfg: Cfg, s: State, i: nat, a: Choice)
    requires CfgOk(cfg) && Shaped(cfg, s.sh) && NothingLost(cfg, s) && i < |s.pc| && PcOk(cfg, s.sh, s.pc[i])
    requires AccOk(cfg, s.sh.mask, s.sh.acc) && ResOk(cfg, s.sh.sums, s.sh.rdy, s.sh.res)
    requires Shaped(cfg, Step(cfg, s, i, a).sh)
    ensures NothingLost(cfg, Step(cfg, s, i, a))
  {
    var pc := s.pc[i];
    if pc.Idle? {
      StartLosesNothing(cfg, s, i, a);
    } else if Draining(pc) {
      DrainLosesNothing(cfg, s, i);
    } else if Popping(pc) {
      PopAccLosesNothing(cfg, s, i);
    } else if Adding(pc) {
      AddLosesNothing(cfg, s, i);
    } else if Announcing(pc) {
      AnnounceLosesNothing(cfg, s, i);
    } else {
      OutLosesNothing(cfg, s, i);
    }
  }

  ghost predicate LockHeld(pc: seq<Pc>, c: nat) {
    exists i :: 0 <= i < |pc| && InLock(pc[i]) && pc[i].w.chunk == c
  }

  /** Every taken lock belongs to a CTA that will release it. */
  ghost predicate LocksHeld(s: State) {
    forall c :: c in s.sh.sums.lock ==> LockHeld(s.pc, c)
  }

  lemma LocksStayHeld(s: State, s': State, i: nat)
    requires LocksHeld(s) && i < |s.pc| == |s'.pc| && s'.pc == s.pc[i := s'.pc[i]]
    requires forall c :: c in s'.sh.sums.lock ==>
               || (c in s.sh.sums.lock && !(InLock(s.pc[i]) && s.pc[i].w.chunk == c))
               || (InLock(s'.pc[i]) && s'.pc[i].w.chunk == c)
    ensures LocksHeld(s')
  {
    forall c | c in s'.sh.sums.lock
      ensures LockHeld(s'.pc, c)
    {
      if InLock(s'.pc[i]) && s'.pc[i].w.chunk == c {
      } else {
        var j :| 0 <= j < |s.pc| && InLock(s.pc[j]) && s.pc[j].w.chunk == c;
        assert s'.pc[j] == s.pc[j];
      }
    }
  }

  lemma AddKeepsLocks(cfg: Cfg, s: State, i: nat)
    requires Shaped(cfg, s.sh) && LocksHeld(s) && i < |s.pc|
    requires Adding(s.pc[i])
    ensures LocksHeld(AddStep(cfg, s, i))
  {
    LocksStayHeld(s, AddStep(cfg, s, i), i);
  }

  lemma StepKeepsLocks(cfg: Cfg, s: State, i: nat, a: Choice)
    requires Shaped(cfg, s.sh) && LocksHeld(s) && i < |s.pc|
    ensures LocksHeld(Step(cfg, s, i, a))
  {
    if Adding(s.pc[i]) {
      AddKeepsLocks(cfg, s, i);
    } else {
      LocksStayHeld(s, Step(cfg, s, i, a), i);
    }
  }

  // ----- every word a head has passed is drained completely

  /** The works of a claimed word that a drainer has not looked at yet. */
  function Remaining(pc: Pc): seq<Work> {
    match pc
    case DWork(ws) => ws
    case DTicket(_, ws) => ws
    case DPublish(_, _, ws) => ws
    case _ => []
  }

  ghost predicate InHand(pc: seq<Pc>, w: Work) {
    exists i :: 0 <= i < |pc| && w in Remaining(pc[i])
  }

  /** A drainer about to claim a word has read it from its queue. */
  ghost predicate ClaimOk(b: Inbox, pc: Pc) {
    match pc
    case DFlag(q, h) => q < |b.flags| && h < |b.flags[q]|
    case DClaim(q, h, v) => q < |b.flags| && h < |b.flags[q]| && b.flags[q][h] == v && v != 0
    case _ => true
  }

  /** Heads pass only words, and every owned work of a word passed is marked or still in the
      hands of the drainer that claimed it.
   */
  ghost predicate Drained(cfg: Cfg, s: State) {
    && HeadsOk(s.sh.inbox)
    && (forall i :: 0 <= i < |s.pc| ==> ClaimOk(s.sh.inbox, s.pc[i]))
    && (forall w :: Past(s.sh.inbox, cfg.decode, w) && Owns(cfg, w.chunk) ==> w in s.sh.mask || InHand(s.pc, w))
  }

  lemma InHandAfter(pc: seq<Pc>, i: nat, x: Pc)
    requires i < |pc|
    ensures forall w :: w in Remaining(x) ==> InHand(pc[i := x], w)
    ensures forall w :: InHand(pc, w) && (w in Remaining(pc[i]) ==> w in Remaining(x)) ==> InHand(pc[i := x], w)
  {
    forall w | w in Remaining(x)
      ensures InHand(pc[i := x], w)
    {
      assert w in Remaining(pc[i := x][i]);
    }
    forall w | InHand(pc, w) && (w in Remaining(pc[i]) ==> w in Remaining(x))
      ensures InHand(pc[i := x], w)
    {
      var j :| 0 <= j < |pc| && w in Remaining(pc[j]);
      assert j != i ==> w in Remaining(pc[i := x][j]);
    }
  }

  /** Steps that leave the inbox and the remaining works alone. */
  lemma SameInboxDrained(cfg: Cfg, s: State, s': State, i: nat)
    requires Drained(cfg, s) && i < |s.pc| == |s'.pc| && s'.pc == s.pc[i := s'.pc[i]]
    requires s'.sh.inbox == s.sh.inbox && s'.sh.mask == s.sh.mask
    requires Remaining(s'.pc[i]) == Remaining(s.pc[i]) && ClaimOk(s.sh.inbox, s'.pc[i])
    ensures Drained(cfg, s')
  {
    InHandAfter(s.pc, i, s'.pc[i]);
  }

  /** The drainer that wins the head takes all works of the word with it. */
  lemma ClaimWordDrained(cfg: Cfg, s: State, i: nat)
    requires |s.sh.inbox.heads| == |s.sh.inbox.flags|
    requires Drained(cfg, s) && i < |s.pc| && s.pc[i].DClaim? && s.sh.inbox.heads[s.pc[i].q] == s.pc[i].h
    ensures Drained(cfg, DrainStep(cfg, s, i))
  {
    AdvancePast(s.sh.inbox, cfg.decode, s.pc[i].q);
    InHandAfter(s.pc, i, DrainStep(cfg, s, i).pc[i]);
  }

  /** It lets go of a work only when somebody else owns it or it is marked. */
  lemma WorkDrained(cfg: Cfg, s: State, i: nat)
    requires |s.sh.inbox.heads| == |s.sh.inbox.flags|
    requires Drained(cfg, s) && i < |s.pc| && s.pc[i].DWork? && s.pc[i].ws != []
    ensures Drained(cfg, DrainStep(cfg, s, i))
  {
    var ws := s.pc[i].ws;
    assert forall w :: w in ws ==> w == ws[0] || w in ws[1..];
    InHandAfter(s.pc, i, DrainStep(cfg, s, i).pc[i]);
  }

  lemma DrainStepDrained(cfg: Cfg, s: State, i: nat)
    requires |s.sh.inbox.heads| == |s.sh.inbox.flags|
    requires Drained(cfg, s) && i < |s.pc|
    requires Draining(s.pc[i])
    ensures Drained(cfg, DrainStep(cfg, s, i))
  {
    assert ClaimOk(s.sh.inbox, s.pc[i]);
    if s.pc[i].DClaim? && s.sh.inbox.heads[s.pc[i].q] == s.pc[i].h {
      ClaimWordDrained(cfg, s, i);
    } else if s.pc[i].DWork? && s.pc[i].ws != [] {
      WorkDrained(cfg, s, i);
    } else {
      SameInboxDrained(cfg, s, DrainStep(cfg, s, i), i);
    }
  }

  lemma LaterStepDrained(cfg: Cfg, s: State, i: nat, a: Choice)
    requires Shaped(cfg, s.sh) && Drained(cfg, s) && i < |s.pc| && !Draining(s.pc[i]) && !s.pc[i].Idle?
    ensures Drained(cfg, Step(cfg, s, i, a))
  {
    var s' := Step(cfg, s, i, a);
    assert s'.sh.inbox == s.sh.inbox && s'.sh.mask == s.sh.mask;
    assert Remaining(s'.pc[i]) == [] && ClaimOk(s.sh.inbox, s'.pc[i]);
    SameInboxDrained(cfg, s, s', i);
  }

  lemma StepDrained(cfg: Cfg, s: State, i: nat, a: Choice)
    requires Shaped(cfg, s.sh) && Drained(cfg, s) && i < |s.pc|
    ensures Drained(cfg, Step(cfg, s, i, a))
  {
    if Draining(s.pc[i]) {
      DrainStepDrained(cfg, s, i);
    } else if s.pc[i].Idle? {
      SameInboxDrained(cfg, s, StartStep(s, i, a), i);
    } else {
      LaterStepDrained(cfg, s, i, a);
    }
  }

  lemma ArriveDrained(cfg: Cfg, s: State, s': State, q: nat, k: nat, v: nat)
    requires Drained(cfg, s) && Arrive(cfg, s, s', q, k, v)
    ensures Drained(cfg, s')
  {
    LandsPast(s.sh.inbox, s'.sh.inbox, cfg.decode, q, k, v);
    forall i | 0 <= i < |s.pc|
      ensures ClaimOk(s'.sh.inbox, s.pc[i])
    {
      assert ClaimOk(s.sh.inbox, s.pc[i]);
    }
  }

  // ----- whole runs

  ghost predicate Good(cfg: Cfg, s: State) {
    Inv(cfg, s) && NothingLost(cfg, s) && LocksHeld(s) && Drained(cfg, s)
  }

  lemma StepGood(cfg: Cfg, s: State, i: nat, a: Choice)
    requires Good(cfg, s) && i < |s.pc|
    ensures Good(cfg, Step(cfg, s, i, a))
  {
    StepInv(cfg, s, i, a);
    assert PcOk(cfg, s.sh, s.pc[i]);
    StepLosesNothing(cfg, s, i, a);
    StepKeepsLocks(cfg, s, i, a);
    StepDrained(cfg, s, i, a);
  }

  lemma ArriveGood(cfg: Cfg, s: State, s': State, q: nat, k: nat, v: nat)
    requires Good(cfg, s) && Arrive(cfg, s, s', q, k, v)
    ensures Good(cfg, s')
  {
    ArriveInv(cfg, s, s', q, k, v);
    ArriveDrained(cfg, s, s', q, k, v);
  }

  lemma SenderDoneGood(cfg: Cfg, s: State, s': State, c: nat)
    requires Good(cfg, s) && SenderDone(cfg, s, s', c)
    ensures Good(cfg, s')
  {
    SenderDoneInv(cfg, s, s', c);
  }

  lemma NextGood(cfg: Cfg, s: State, s': State)
    requires Good(cfg, s) && Next(cfg, s, s')
    ensures Good(cfg, s')
  {
    if i: nat, a :| i < |s.pc| && s' == Step(cfg, s, i, a) {
      StepGood(cfg, s, i, a);
    } else if q: nat, k: nat, v: nat :| Arrive(cfg, s, s', q, k, v) {
      ArriveGood(cfg, s, s', q, k, v);
    } else {
      var c: nat :| SenderDone(cfg, s, s', c);
      SenderDoneGood(cfg, s, s', c);
    }
  }

  ghost predicate IsRun(cfg: Cfg, run: seq<State>) {
    && |run| > 0
    && Init(cfg, run[0])
    && forall n :: 0 <= n < |run| - 1 ==> Next(cfg, run[n], run[n + 1])
  }

  lemma {:induction false} RunGood(cfg: Cfg, run: seq<State>, n: nat)
    requires IsRun(cfg, run) && n < |run|
    ensures Good(cfg, run[n])
  {
    if n == 0 {
      InitInv(cfg, run[0]);
    } else {
      RunGood(cfg, run, n - 1);
      assert Next(cfg, run[n - 1], run[n - 1 + 1]);
      NextGood(cfg, run[n - 1], run[n]);
    }
  }

  // ----- main results

  /** In every state of every run, each peer's chunk is handed out at most once, so is each
      finished chunk, and no capacity guard ever drops an entry.
   */
  lemma QueuedAtMostOnce(cfg: Cfg, run: seq<State>, n: nat)
    requires IsRun(cfg, run) && n < |run|
    ensures var h := run[n].sh;
            && Distinct(h.acc.tickets) && |h.acc.tickets| <= |h.acc.slots|
            && Distinct(h.rdy.tickets) && |h.rdy.tickets| <= |h.rdy.slots|
    ensures forall i :: 0 <= i < |run[n].pc| && run[n].pc[i].DPublish? ==> run[n].pc[i].k < |run[n].sh.acc.slots|
    ensures forall i :: 0 <= i < |run[n].pc| && run[n].pc[i].ARPublish? ==> run[n].pc[i].k < |run[n].sh.rdy.slots|
  {
    RunGood(cfg, run, n);
    assert forall i :: 0 <= i < |run[n].pc| ==> PcOk(cfg, run[n].sh, run[n].pc[i]);
  }

  /** A peer's chunk is added only when it has not been added before, so a handed-over chunk
      always holds its local value plus each added peer's value once.
   */
  lemma AddedOnce(cfg: Cfg, run: seq<State>, n: nat)
    requires IsRun(cfg, run) && n < |run|
    ensures Shaped(cfg, run[n].sh)
    ensures forall i :: 0 <= i < |run[n].pc| && run[n].pc[i].AWrite? ==> run[n].pc[i].w !in run[n].sh.sums.added
    ensures forall c :: 0 <= c < cfg.chunks && c in run[n].sh.sums.senderDone ==>
              run[n].sh.sums.staging[c] == cfg.local(c) + SumOf(cfg.recv, run[n].sh.sums.added, c, cfg.peers)
  {
    RunGood(cfg, run, n);
    assert forall i :: 0 <= i < |run[n].pc| ==> PcOk(cfg, run[n].sh, run[n].pc[i]);
  }

  /** A chunk is in the ready queue only when every peer has been counted and its staging
      holds the local value plus every peer's value once; the same value is written out.
   */
  lemma ReadyIsFull(cfg: Cfg, run: seq<State>, n: nat)
    requires IsRun(cfg, run) && n < |run|
    ensures Shaped(cfg, run[n].sh)
    ensures forall c :: c in run[n].sh.rdy.tickets ==>
              && c < cfg.chunks && Owns(cfg, c)
              && run[n].sh.sums.staging[c] == Full(cfg, c)
              && forall p :: 0 <= p < cfg.peers ==> Work(p, c) in run[n].sh.sums.counted
    ensures forall c :: c in run[n].sh.res.finished ==> c < cfg.chunks && run[n].sh.res.out[c] == Full(cfg, c)
  {
    RunGood(cfg, run, n);
    var h := run[n].sh;
    forall c | c in h.rdy.tickets
      ensures && c < cfg.chunks && Owns(cfg, c) && h.sums.staging[c] == Full(cfg, c)
              && forall p :: 0 <= p < cfg.peers ==> Work(p, c) in h.sums.counted
    {
      assert Complete(cfg, h.sums, c);
      AnnouncedIsFull(cfg, h.acc, h.sums, c);
    }
  }

  /** A CTA that looks for something to do holds nothing. */
  predicate Polling(pc: Pc) {
    pc.Idle? || pc.DFlag? || pc.DClaim? || pc.ATail? || pc.ACas? || pc.RTail? || pc.RCas?
  }

  /** The CTAs have run dry: all are looking for work, and all queues are drained. */
  ghost predicate Quiet(s: State) {
    && Dry(s.sh.inbox)
    && (forall i :: 0 <= i < |s.pc| ==> Polling(s.pc[i]))
    && s.sh.acc.head == |s.sh.acc.tickets|
    && s.sh.rdy.head == |s.sh.rdy.tickets|
  }

  /** The chunks a node must write out. */
  function Owned(cfg: Cfg): set<nat> {
    set c | 0 <= c < cfg.chunks && Owns(cfg, c)
  }

  lemma FinishedOwned(cfg: Cfg, h: Shared)
    requires SharedOk(cfg, h)
    ensures h.res.finished <= Owned(cfg)
  {
    forall c | c in h.res.finished
      ensures c in Owned(cfg)
    {
      assert Complete(cfg, h.sums, c);
    }
  }

  /** A chunk whose works have all been marked is written out once the CTAs have run dry. */
  lemma MarkedIsFinished(cfg: Cfg, s: State, c: nat)
    requires Good(cfg, s) && Quiet(s) && c < cfg.chunks && Owns(cfg, c)
    requires forall p :: 0 <= p < cfg.peers ==> Work(p, c) in s.sh.mask
    ensures c in s.sh.res.finished
  {
    assert forall t :: Held(s.pc, t) ==> t == NoToken;
    forall p | 0 <= p < cfg.peers
      ensures Work(p, c) in s.sh.sums.counted
    {
      assert Work(p, c) in s.sh.acc.tickets;
    }
    CountFull(s.sh.sums.counted, c, cfg.peers);
    assert Complete(cfg, s.sh.sums, c);
    assert c in s.sh.rdy.tickets;
  }

  /** Words with no hole before them announce every peer's owned chunks. */
  ghost predicate AllAnnounced(cfg: Cfg, b: Inbox) {
    forall p: nat, c: nat :: p < cfg.peers && c < cfg.chunks && Owns(cfg, c) ==> Landed(b, cfg.decode, Work(p, c))
  }

  /** Every owned chunk has been written out in full, and counted. */
  ghost predicate Finished(cfg: Cfg, h: Shared) {
    && Shaped(cfg, h)
    && (forall c :: 0 <= c < cfg.chunks && Owns(cfg, c) ==> c in h.res.finished && h.res.out[c] == Full(cfg, c))
    && h.res.processed == |Owned(cfg)|
  }

  lemma QuietMeansFinished(cfg: Cfg, s: State)
    requires Good(cfg, s) && Quiet(s) && AllAnnounced(cfg, s.sh.inbox)
    ensures Finished(cfg, s.sh)
  {
    forall c: nat | c < cfg.chunks && Owns(cfg, c)
      ensures c in s.sh.res.finished
    {
      forall p: nat | p < cfg.peers
        ensures Work(p, c) in s.sh.mask
      {
        DryMeansPast(s.sh.inbox, cfg.decode, Work(p, c));
        assert !InHand(s.pc, Work(p, c));
      }
      MarkedIsFinished(cfg, s, c);
    }
    FinishedOwned(cfg, s.sh);
    assert s.sh.res.finished == Owned(cfg);
  }

  /** When the words that have landed, with no hole before them, announce every peer's owned
      chunks, and the CTAs have run dry, every owned chunk has been written out in full: from
      arrival word to output nothing is lost.
   */
  lemma NothingForgotten(cfg: Cfg, run: seq<State>, n: nat)
    requires IsRun(cfg, run) && n < |run| && Quiet(run[n]) && AllAnnounced(cfg, run[n].sh.inbox)
    ensures Finished(cfg, run[n].sh)
  {
    RunGood(cfg, run, n);
    QuietMeansFinished(cfg, run[n]);
  }

  /** The exit test of a reducer: the count of processed chunks reaches the target only when
      every owned chunk has been written out in full, and never passes it.
   */
  lemma ExitMeansDone(cfg: Cfg, run: seq<State>, n: nat)
    requires IsRun(cfg, run) && n < |run|
    ensures Shaped(cfg, run[n].sh)
    ensures run[n].sh.res.processed <= |Owned(cfg)|
    ensures run[n].sh.res.processed >= |Owned(cfg)| ==>
              forall c :: 0 <= c < cfg.chunks && Owns(cfg, c) ==> run[n].sh.res.out[c] == Full(cfg, c)
  {
    RunGood(cfg, run, n);
    var h := run[n].sh;
    FinishedOwned(cfg, h);
    SubsetSize(h.res.finished, Owned(cfg));
    if h.res.processed >= |Owned(cfg)| {
      assert forall c :: 0 <= c < cfg.chunks && Owns(cfg, c) ==> c in Owned(cfg);
    }
  }

  /** The exit target, as the host computes it. */
  function OwnerChunksTotal(chunks: nat, nodes: nat, node: nat): nat
    requires nodes > 0
  {
    if node < chunks then 1 + (chunks - 1 - node) / nodes else 0
  }

  lemma TargetStep(chunks: nat, nodes: nat, node: nat)
    requires node < nodes && chunks > 0
    ensures OwnerChunksTotal(chunks, nodes, node)
            == OwnerChunksTotal(chunks - 1, nodes, node) + if (chunks - 1) % nodes == node then 1 else 0
  {
    var m := chunks - 1;
    if m <= node {
      DivIs(m, nodes, 0, m);
      DivIs(0, nodes, 0, 0);
    } else {
      var d, e := (m - node) / nodes, (m - node) % nodes;
      if e == 0 {
        DivIs(m - 1 - node, nodes, d - 1, nodes - 1);
        DivIs(m, nodes, d, node);
      } else {
        DivIs(m - 1 - node, nodes, d, e - 1);
        if m % nodes == node {
          DivIs(m - node, nodes, m / nodes, 0);
        }
      }
    }
  }

  lemma {:induction false} OwnedBelow(cfg: Cfg, n: nat)
    requires cfg.node <= cfg.peers
    ensures |set c | 0 <= c < n && Owns(cfg, c)|
            == if cfg.receiverOwner then OwnerChunksTotal(n, cfg.peers + 1, cfg.node) else n
  {
    if n == 0 {
    } else {
      OwnedBelow(cfg, n - 1);
      var before := set c | 0 <= c < n - 1 && Owns(cfg, c);
      var after := set c | 0 <= c < n && Owns(cfg, c);
      if Owns(cfg, n - 1) {
        assert after == before + {n - 1};
      } else {
        assert after == before;
      }
      TargetStep(n, cfg.peers + 1, cfg.node);
    }
  }

  lemma ExitTarget(cfg: Cfg)
    requires cfg.node <= cfg.peers
    ensures |Owned(cfg)| == if cfg.receiverOwner then OwnerChunksTotal(cfg.chunks, cfg.peers + 1, cfg.node) else cfg.chunks
  {
    OwnedBelow(cfg, cfg.chunks);
  }

  predicate Spinning(pc: Pc) {
    pc.ASpin? || pc.ALock? || pc.RSpin?
  }

  /** Waiting for the send CTA to hand its chunk over. */
  predicate AwaitsSender(m: Sums, pc: Pc) {
    pc.AWait? && pc.w.chunk !in m.senderDone
  }

  lemma Moves(cfg: Cfg, s: State, j: nat, a: Choice)
    requires Inv(cfg, s) && j < |s.pc| && s.pc[j] != Idle && !Spinning(s.pc[j]) && !AwaitsSender(s.sh.sums, s.pc[j])
    ensures Step(cfg, s, j, a).pc[j] != s.pc[j]
  {
    assert PcOk(cfg, s.sh, s.pc[j]);
  }

  /** A CTA that spins waits for a CTA that does not: the one about to publish its slot or
      the one inside its lock.
   */
  lemma SpinWaitsFor(cfg: Cfg, s: State, i: nat) returns (j: nat)
    requires Shaped(cfg, s.sh) && NothingLost(cfg, s) && LocksHeld(s) && i < |s.pc| && PcOk(cfg, s.sh, s.pc[i])
    requires |s.sh.acc.tickets| <= |s.sh.acc.slots| && |s.sh.rdy.tickets| <= |s.sh.rdy.slots|
    requires s.pc[i].ASpin? ==> s.pc[i].k < |s.sh.acc.slots| && s.sh.acc.slots[s.pc[i].k] == 0
    requires s.pc[i].ALock? ==> s.pc[i].w.chunk in s.sh.sums.lock
    requires s.pc[i].RSpin? ==> s.pc[i].k < |s.sh.rdy.slots| && s.sh.rdy.slots[s.pc[i].k] == 0
    requires Spinning(s.pc[i])
    ensures j < |s.pc| && !Polling(s.pc[j]) && !Spinning(s.pc[j]) && !s.pc[j].AWait?
  {
    if s.pc[i].ASpin? {
      assert Held(s.pc, Slot(s.pc[i].k));
      j :| 0 <= j < |s.pc| && TokenOf(s.pc[j]) == Slot(s.pc[i].k);
    } else if s.pc[i].ALock? {
      assert LockHeld(s.pc, s.pc[i].w.chunk);
      j :| 0 <= j < |s.pc| && InLock(s.pc[j]) && s.pc[j].w.chunk == s.pc[i].w.chunk;
    } else {
      assert Held(s.pc, ReadySlot(s.pc[i].k));
      j :| 0 <= j < |s.pc| && TokenOf(s.pc[j]) == ReadySlot(s.pc[i].k);
    }
  }

  /** A published slot ends the spin on it. */
  lemma SlotEndsSpin(cfg: Cfg, s: State, i: nat, a: Choice)
    requires Inv(cfg, s) && i < |s.pc| && s.pc[i].ASpin?
    ensures s.pc[i].k < |s.sh.acc.slots|
    ensures s.sh.acc.slots[s.pc[i].k] != 0 ==> Step(cfg, s, i, a).pc[i] != s.pc[i]
  {
    assert PcOk(cfg, s.sh, s.pc[i]);
    if s.sh.acc.slots[s.pc[i].k] != 0 {
    }
  }

  /** A busy CTA whose next step is no spin. */
  ghost predicate CanMove(cfg: Cfg, s: State, j: nat, a: Choice) {
    Shaped(cfg, s.sh) && j < |s.pc| && s.pc[j] != Idle && Step(cfg, s, j, a).pc[j] != s.pc[j]
  }

  /** While some CTA is busy, some busy CTA can move on: no spin waits for ever.  The one wait
      for something outside is that for the send CTA's hand-over of the very chunk.
   */
  lemma BusyCtaMoves(cfg: Cfg, s: State, i: nat, a: Choice) returns (j: nat)
    requires i < |s.pc| && s.pc[i] != Idle && !AwaitsSender(s.sh.sums, s.pc[i]) && Good(cfg, s)
    ensures CanMove(cfg, s, j, a) && (!Polling(s.pc[i]) ==> !Polling(s.pc[j]))
  {
    assert PcOk(cfg, s.sh, s.pc[i]);
    j := i;
    if s.pc[i].ASpin? {
      SlotEndsSpin(cfg, s, i, a);
    }
    if Spinning(s.pc[i]) && Step(cfg, s, i, a).pc[i] == s.pc[i] {
      j := SpinWaitsFor(cfg, s, i);
    }
    if !Spinning(s.pc[j]) {
      Moves(cfg, s, j, a);
    }
  }

  // ----- the words of the kernel

  /** gemm_rs: chunks of a slice of shape `z`, arrival words and queue words as it packs them. */
  function KernelCfg(z: Shape, peers: nat, node: nat, receiverOwner: bool, local: nat -> int, recv: Work -> int): Cfg
    requires ShapeOk(z)
  {
    Cfg(Pair(z.rows, PerRow(z), 0), peers, node, receiverOwner,
        (v: nat) => Announced(z, v), (w: Work) => PackWork(w), (v: nat) => UnpackWork(v), local, recv)
  }

  /** The queue word serves exactly as long as all chunk numbers fit its 24 bits. */
  lemma KernelCfgOkIff(z: Shape, peers: nat, node: nat, receiverOwner: bool, local: nat -> int, recv: Work -> int)
    requires ShapeOk(z) && 1 <= peers <= MAX_PEERS && Pair(z.rows, PerRow(z), 0) < 0x8000_0000
    ensures CfgOk(KernelCfg(z, peers, node, receiverOwner, local, recv)) <==> Pair(z.rows, PerRow(z), 0) < FIELD
  {
    var cfg := KernelCfg(z, peers, node, receiverOwner, local, recv);
    if cfg.chunks < FIELD {
      forall w | InRange(cfg, w)
        ensures cfg.pack(w) != 0 && cfg.unpack(cfg.pack(w)) == w
      {
        WorkRoundTripIff(w);
      }
    } else {
      var w := Work(0, FIELD - 1);
      assert InRange(cfg, w);
      WorkRoundTripIff(w);
      assert cfg.unpack(cfg.pack(w)) != w;
    }
  }

  lemma ChunkInRange(cfg: Cfg, z: Shape, peer: nat, rb: nat, i: nat)
    requires ShapeOk(z) && cfg.chunks == Pair(z.rows, PerRow(z), 0) && peer < cfg.peers && rb < z.rows && i < PerRow(z)
    ensures InRange(cfg, Work(peer, Pair(rb, PerRow(z), i)))
  {
    PairBelow(rb, z.rows, PerRow(z), i);
  }

  lemma GroupInRange(cfg: Cfg, z: Shape, peer: nat, rb: nat, i: nat, k: nat, ws: seq<Work>)
    requires ShapeOk(z) && cfg.chunks == Pair(z.rows, PerRow(z), 0) && peer < cfg.peers && rb < z.rows && i + k <= PerRow(z)
    requires ws == seq(k, j requires 0 <= j < k => Work(peer, Pair(rb, PerRow(z), i + j)))
    ensures AllInRange(cfg, ws)
  {
    forall j | 0 <= j < |ws|
      ensures InRange(cfg, ws[j])
    {
      ChunkInRange(cfg, z, peer, rb, i + j);
    }
  }

  /** A group of chunks that its arrival word can hold. */
  ghost predicate GroupOk(z: Shape, peer: nat, rb: nat, i: nat, k: nat)
    requires ShapeOk(z)
  {
    && rb < z.rows && k > 0 && i + k <= PerRow(z)
    && FirstTile(z, peer, rb, i) + 1 < FIELD && GroupTiles(z, i, k) <= 256
  }

  /** The word a sender announces a group of chunks with is one that `Arrive` takes. */
  lemma SenderWordInRange(z: Shape, cfg: Cfg, peer: nat, rb: nat, i: nat, k: nat)
    requires ShapeOk(z) && peer < cfg.peers && GroupOk(z, peer, rb, i, k)
    requires cfg == KernelCfg(z, cfg.peers, cfg.node, cfg.receiverOwner, cfg.local, cfg.recv)
    ensures var v := GroupWord(z, peer, rb, i, k); v != 0 && AllInRange(cfg, cfg.decode(v))
  {
    GroupAnnounced(z, peer, rb, i, k);
    GroupInRange(cfg, z, peer, rb, i, k, Announced(z, GroupWord(z, peer, rb, i, k)));
  }

  /** Slot `k` of queue `q` holds the word of a group with chunk `i` of row block `rb` in it, and
      no slot before it is empty.
   */
  ghost predicate Announces(z: Shape, b: Inbox, peer: nat, rb: nat, i: nat, q: nat, k: nat, first: nat, count: nat)
    requires ShapeOk(z)
  {
    && q < |b.flags| && k < |b.flags[q]| && FullTo(b.flags[q], k)
    && GroupOk(z, peer, rb, first, count) && first <= i < first + count
    && b.flags[q][k] == GroupWord(z, peer, rb, first, count)
  }

  ghost predicate SomeWordAnnounces(z: Shape, b: Inbox, peer: nat, rb: nat, i: nat)
    requires ShapeOk(z)
  {
    exists q: nat, k: nat, first: nat, count: nat :: Announces(z, b, peer, rb, i, q, k, first, count)
  }

  lemma AnnouncesLanded(z: Shape, cfg: Cfg, b: Inbox, peer: nat, rb: nat, i: nat, q: nat, k: nat, first: nat, count: nat)
    requires ShapeOk(z) && Announces(z, b, peer, rb, i, q, k, first, count)
    requires cfg == KernelCfg(z, cfg.peers, cfg.node, cfg.receiverOwner, cfg.local, cfg.recv)
    ensures Landed(b, cfg.decode, Work(peer, Pair(rb, PerRow(z), i)))
  {
    GroupAnnounced(z, peer, rb, first, count);
    var ws := cfg.decode(b.flags[q][k]);
    assert ws[i - first] == Work(peer, Pair(rb, PerRow(z), i));
  }

  /** Every peer has announced each of the owned chunks in some group. */
  ghost predicate GroupsAnnounced(z: Shape, cfg: Cfg, b: Inbox)
    requires ShapeOk(z)
  {
    forall p: nat, rb: nat, i: nat :: p < cfg.peers && rb < z.rows && i < PerRow(z) && Owns(cfg, Pair(rb, PerRow(z), i)) ==>
      SomeWordAnnounces(z, b, p, rb, i)
  }

  lemma GroupsAnnounceAll(z: Shape, cfg: Cfg, b: Inbox)
    requires ShapeOk(z) && cfg == KernelCfg(z, cfg.peers, cfg.node, cfg.receiverOwner, cfg.local, cfg.recv)
    requires GroupsAnnounced(z, cfg, b)
    ensures AllAnnounced(cfg, b)
  {
    forall p: nat, c: nat | p < cfg.peers && c < cfg.chunks && Owns(cfg, c)
      ensures Landed(b, cfg.decode, Work(p, c))
    {
      CeilBelow(0, z.cols, z.chunk);
      var rb, i := c / PerRow(z), c % PerRow(z);
      DigitsPair(c, PerRow(z));
      QuotientBelow(c, z.rows, PerRow(z));
      assert SomeWordAnnounces(z, b, p, rb, i);
      var q: nat, k: nat, first: nat, count: nat :| Announces(z, b, p, rb, i, q, k, first, count);
      AnnouncesLanded(z, cfg, b, p, rb, i, q, k, first, count);
    }
  }

  /** gemm_rs end to end: if every peer has announced each of the owned chunks in some group, and
      the CTAs have run dry, the output of every owned chunk is its local value plus every
      peer's value once.
   */
  lemma KernelReduces(z: Shape, cfg: Cfg, run: seq<State>, n: nat)
    requires ShapeOk(z) && IsRun(cfg, run) && n < |run| && Quiet(run[n])
    requires cfg == KernelCfg(z, cfg.peers, cfg.node, cfg.receiverOwner, cfg.local, cfg.recv)
    requires GroupsAnnounced(z, cfg, run[n].sh.inbox)
    ensures Finished(cfg, run[n].sh)
  {
    GroupsAnnounceAll(z, cfg, run[n].sh.inbox);
    NothingForgotten(cfg, run, n);
  }
}
