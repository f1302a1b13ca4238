/** Session bootstrap: every node goes through all node pairs (lo, hi) in the same order and
    blocks in an exchange with its partner at each pair it belongs to, unless the partner is not
    among its peers.
 */
module Bootstrap {
  import opened Arith
  import opened PeerSlots

  const MAX_PEERS := 16

  // ----- tables and ports

  lemma RankMod(rank: nat, nodes: nat, slot: nat)
    requires rank < nodes && slot < nodes - 1
    ensures (rank + 1 + slot) % nodes == PeerRank(rank, nodes, slot)
  {
    DivIs(rank + 1 + slot, nodes, if rank + 1 + slot < nodes then 0 else 1, PeerRank(rank, nodes, slot));
  }

  /** The caller's ranks in slot order, or the ring order if there are none. */
  datatype Ranks = Default | Given(ranks: seq<int>)

  method PeerRanks(rank: nat, peers: nat, given: Ranks) returns (ranks: seq<int>)
    requires 1 <= peers <= MAX_PEERS && rank <= peers && (given.Given? ==> |given.ranks| == peers)
    ensures |ranks| == peers
    ensures given.Given? ==> ranks == given.ranks
    ensures given.Default? ==> forall p :: 0 <= p < peers ==> ranks[p] == PeerRank(rank, peers + 1, p)
  {
    ranks := [];
    for p := 0 to peers
      invariant |ranks| == p
      invariant given.Given? ==> ranks == given.ranks[..p]
      invariant given.Default? ==> forall q :: 0 <= q < p ==> ranks[q] == PeerRank(rank, peers + 1, q)
    {
      RankMod(rank, peers + 1, p);
      ranks := ranks + [if given.Given? then given.ranks[p] else (rank + 1 + p) % (peers + 1)];
    }
  }

  /** Slot `p` is the last one before `n` with rank `r`, or there is none and p is -1. */
  ghost predicate LastSlot(ranks: seq<int>, n: nat, r: int, p: int)
    requires n <= |ranks|
  {
    && -1 <= p < n
    && (p >= 0 ==> ranks[p] == r)
    && forall q :: p < q < n ==> ranks[q] != r
  }

  /** The table from rank to slot; ranks outside it are passed over. */
  method SlotTable(ranks: seq<int>) returns (slotByRank: seq<int>)
    ensures |slotByRank| == MAX_PEERS + 1
    ensures forall r :: 0 <= r <= MAX_PEERS ==> LastSlot(ranks, |ranks|, r, slotByRank[r])
  {
    slotByRank := [];
    for r := 0 to MAX_PEERS + 1
      invariant |slotByRank| == r && forall q :: 0 <= q < r ==> slotByRank[q] == -1
    {
      slotByRank := slotByRank + [-1];
    }
    for p := 0 to |ranks|
      invariant |slotByRank| == MAX_PEERS + 1
      invariant forall r :: 0 <= r <= MAX_PEERS ==> LastSlot(ranks, p, r, slotByRank[r])
    {
      if 0 <= ranks[p] <= MAX_PEERS {
        slotByRank := slotByRank[ranks[p] := p];
      }
    }
  }

  /** In ring order the table inverts the slots: the slot of every peer, -1 for oneself and for
      ranks that do not exist.
   */
  lemma RingSlots(rank: nat, peers: nat, ranks: seq<int>, r: nat, p: int)
    requires 1 <= peers <= MAX_PEERS && rank <= peers && |ranks| == peers
    requires forall q :: 0 <= q < peers ==> ranks[q] == PeerRank(rank, peers + 1, q)
    requires LastSlot(ranks, peers, r, p)
    ensures p == if r == rank || r > peers then -1 else SlotAtPeer(r, rank, peers + 1)
  {
    if r <= peers && r != rank {
      SlotsInverse(rank, r, peers + 1, 0);
      assert ranks[SlotAtPeer(r, rank, peers + 1)] == r;
    }
    if p >= 0 {
      SlotsInverse(rank, PeerRank(rank, peers + 1, p), peers + 1, p);
    }
  }

  /** The first slot from `from` on with rank `r`, or the length if there is none. */
  function FirstSlot(ranks: seq<int>, r: int, from: nat): (p: nat)
    requires from <= |ranks|
    ensures from <= p <= |ranks| && (p < |ranks| ==> ranks[p] == r)
    ensures forall q :: from <= q < p ==> ranks[q] != r
    decreases |ranks| - from
  {
    if from == |ranks| || ranks[from] == r then from else FirstSlot(ranks, r, from + 1)
  }

  /** The slot a rank occupies in a table, or -1. */
  method FindSlot(ranks: seq<int>, peer: nat) returns (p: int)
    ensures p == -1 ==> peer !in ranks
    ensures p != -1 ==> 0 <= p < |ranks| && ranks[p] == peer && forall q :: 0 <= q < p ==> ranks[q] != peer
    ensures FirstSlot(ranks, peer, 0) == if p == -1 then |ranks| else p
  {
    p := -1;
    for i := 0 to |ranks|
      invariant p == -1 && forall q :: 0 <= q < i ==> ranks[q] != peer
    {
      if ranks[i] == peer {
        return i;
      }
    }
  }

  /** The port of the pair (lo, hi) for one local rank. */
  function PortOf(base: nat, nodes: nat, worldSize: nat, lo: nat, hi: nat): nat {
    base + Pair(lo, nodes, hi) * worldSize
  }

  method GetPeerPorts(node: nat, nodes: nat, base: nat, worldSize: nat) returns (ports: seq<nat>)
    requires node < nodes
    ensures |ports| == nodes - 1
    ensures forall p :: 0 <= p < nodes - 1 ==>
              var i := PeerRank(node, nodes, p);
              ports[p] == PortOf(base, nodes, worldSize, if node < i then node else i, if node < i then i else node)
  {
    ports := [];
    for slot := 0 to nodes - 1
      invariant |ports| == slot
      invariant forall p :: 0 <= p < slot ==>
                  var i := PeerRank(node, nodes, p);
                  ports[p] == PortOf(base, nodes, worldSize, if node < i then node else i, if node < i then i else node)
    {
      RankMod(node, nodes, slot);
      var i := (node + 1 + slot) % nodes;
      var lo, hi := i, node;
      if node < i {
        lo, hi := node, i;
      }
      ports := ports + [PortOf(base, nodes, worldSize, lo, hi)];
    }
  }

  /** Both ends of a pair derive the same port, from their own tables. */
  lemma SamePort(ports: seq<nat>, peerPorts: seq<nat>, node: nat, peer: nat, nodes: nat, base: nat, worldSize: nat)
    requires node < nodes && peer < nodes && node != peer && |ports| == |peerPorts| == nodes - 1
    requires forall p :: 0 <= p < nodes - 1 ==>
               var i := PeerRank(node, nodes, p);
               ports[p] == PortOf(base, nodes, worldSize, if node < i then node else i, if node < i then i else node)
    requires forall p :: 0 <= p < nodes - 1 ==>
               var i := PeerRank(peer, nodes, p);
               peerPorts[p] == PortOf(base, nodes, worldSize, if peer < i then peer else i, if peer < i then i else peer)
    ensures 0 <= SlotAtPeer(peer, node, nodes) < nodes - 1 && 0 <= SlotAtPeer(node, peer, nodes) < nodes - 1
    ensures ports[SlotAtPeer(peer, node, nodes)] == peerPorts[SlotAtPeer(node, peer, nodes)]
  {
    SlotsInverse(node, peer, nodes, 0);
    SlotsInverse(peer, node, nodes, 0);
  }

  /** Different pairs or different local ranks never share a port. */
  lemma PortsDistinct(tcp: nat, nodes: nat, worldSize: nat, lo: nat, hi: nat, local: nat, lo': nat, hi': nat, local': nat)
    requires hi < nodes && hi' < nodes && local < worldSize && local' < worldSize
    requires PortOf(tcp + local, nodes, worldSize, lo, hi) == PortOf(tcp + local', nodes, worldSize, lo', hi')
    ensures lo == lo' && hi == hi' && local == local'
  {
    PairInjective(Pair(lo, nodes, hi), worldSize, local, Pair(lo', nodes, hi'), local');
    PairInjective(lo, nodes, hi, lo', hi');
  }

  // ----- the walk over pairs

  datatype Pr = Pr(lo: nat, hi: nat)

  predicate IsPair(p: Pr, n: nat) {
    p.lo < p.hi < n
  }

  function Successor(p: Pr, n: nat): Pr {
    if p.hi + 1 < n then Pr(p.lo, p.hi + 1) else Pr(p.lo + 1, p.lo + 2)
  }

  predicate Before(p: Pr, q: Pr) {
    p.lo < q.lo || (p.lo == q.lo && p.hi < q.hi)
  }

  /** Where a node is: at a pair, or past the last one. */
  predicate IsCursor(p: Pr, n: nat) {
    IsPair(p, n) || (p.lo + 1 == n && p.hi == n)
  }

  lemma SuccessorIsNext(p: Pr, n: nat)
    requires IsPair(p, n)
    ensures IsCursor(Successor(p, n), n)
    ensures forall q :: IsPair(q, n) ==> (Before(q, Successor(p, n)) <==> Before(q, p) || q == p)
  {
  }

  // ----- states

  /** How far a node is with its current pair. */
  datatype Phase =
    | Fresh
    | Listening  // server: the port is open
    | Linked     // both: the connection is up
    | Sent       // server: own info sent
    | Heard      // client: the server's info received

  /** `ranks[i]` are the peers of node `i` in slot order.  `infos[i][p]` is the rank whose
      connection info it holds in slot `p`, or -1; `linked` records the pairs that have connected.
   */
  datatype State = State(ranks: seq<seq<int>>, at: seq<Pr>, phase: seq<Phase>, infos: seq<seq<int>>, linked: set<Pr>)

  ghost predicate Shaped(s: State) {
    && |s.at| >= 2 && |s.phase| == |s.infos| == |s.ranks| == |s.at|
    && forall i :: 0 <= i < |s.at| ==> |s.infos[i]| == |s.ranks[i]| == |s.at| - 1
  }

  /** Where node `i` keeps the info of node `j`. */
  function Slot(s: State, i: nat, j: nat): (p: nat)
    requires i < |s.ranks|
    ensures p <= |s.ranks[i]| && (p < |s.ranks[i]| ==> s.ranks[i][p] == j)
  {
    FirstSlot(s.ranks[i], j, 0)
  }

  /** Node `j` is among the peers of node `i`. */
  predicate Lists(s: State, i: nat, j: nat)
    requires i < |s.ranks|
  {
    Slot(s, i, j) < |s.ranks[i]|
  }

  function Move(s: State, i: nat, at: Pr, phase: Phase): State
    requires i < |s.at| == |s.phase|
  {
    s.(at := s.at[i := at], phase := s.phase[i := phase])
  }

  /** Node `i` stores the info of node `j` in its slot. */
  function Store(s: State, i: nat, j: nat): State
    requires Shaped(s) && i < |s.at| && Lists(s, i, j)
  {
    var row: seq<int> := s.infos[i][Slot(s, i, j) := j];
    s.(infos := s.infos[i := row])
  }

  // ----- steps

  /** Node `i` belongs to pair `p` and knows the other. */
  predicate Joins(s: State, i: nat, p: Pr)
    requires i < |s.ranks|
  {
    (i == p.lo && Lists(s, i, p.hi)) || (i == p.hi && Lists(s, i, p.lo))
  }

  /** A node passes over a pair it does not belong to, or whose other node it does not know. */
  ghost predicate Skip(s: State, s': State, i: nat)
    requires Shaped(s)
  {
    && i < |s.at| && IsPair(s.at[i], |s.at|) && !Joins(s, i, s.at[i])
    && s' == Move(s, i, Successor(s.at[i], |s.at|), Fresh)
  }

  /** The server opens its port. */
  ghost predicate Listen(s: State, s': State, p: Pr)
    requires Shaped(s)
  {
    IsPair(p, |s.at|) && Lists(s, p.lo, p.hi) && s.at[p.lo] == p && s.phase[p.lo].Fresh? && s' == Move(s, p.lo, p, Listening)
  }

  /** The client connects to the open port and the server accepts. */
  ghost predicate Connect(s: State, s': State, p: Pr)
    requires Shaped(s)
  {
    && IsPair(p, |s.at|) && Lists(s, p.hi, p.lo)
    && s.at[p.lo] == p && s.at[p.hi] == p && s.phase[p.lo].Listening? && s.phase[p.hi].Fresh?
    && s' == Move(Move(s, p.lo, p, Linked), p.hi, p, Linked).(linked := s.linked + {p})
  }

  ghost predicate ServerSend(s: State, s': State, p: Pr)
    requires Shaped(s)
  {
    IsPair(p, |s.at|) && s.at[p.lo] == p && s.phase[p.lo].Linked? && s' == Move(s, p.lo, p, Sent)
  }

  /** The client receives, which takes the server's send, */
  ghost predicate ClientRecv(s: State, s': State, p: Pr)
    requires Shaped(s)
  {
    && IsPair(p, |s.at|) && Lists(s, p.hi, p.lo) && s.at[p.hi] == p && s.phase[p.hi].Linked?
    && (Before(p, s.at[p.lo]) || (s.at[p.lo] == p && s.phase[p.lo].Sent?))
    && s' == Move(Store(s, p.hi, p.lo), p.hi, p, Heard)
  }

  /** then sends and goes on to the next pair; */
  ghost predicate ClientSend(s: State, s': State, p: Pr)
    requires Shaped(s)
  {
    IsPair(p, |s.at|) && s.at[p.hi] == p && s.phase[p.hi].Heard? && s' == Move(s, p.hi, Successor(p, |s.at|), Fresh)
  }

  /** and the server receives, which takes the client's send, and goes on. */
  ghost predicate ServerRecv(s: State, s': State, p: Pr)
    requires Shaped(s)
  {
    && IsPair(p, |s.at|) && Lists(s, p.lo, p.hi) && s.at[p.lo] == p && s.phase[p.lo].Sent? && Before(p, s.at[p.hi])
    && s' == Move(Store(s, p.lo, p.hi), p.lo, Successor(p, |s.at|), Fresh)
  }

  ghost predicate Next(s: State, s': State) {
    && Shaped(s)
    && (|| (exists i: nat :: Skip(s, s', i))
        || (exists p :: Listen(s, s', p) || Connect(s, s', p) || ServerSend(s, s', p)
                        || ClientRecv(s, s', p) || ClientSend(s, s', p) || ServerRecv(s, s', p)))
  }

  ghost predicate Init(s: State) {
    && Shaped(s) && s.linked == {}
    && (forall i :: 0 <= i < |s.at| ==> s.at[i] == Pr(0, 1) && s.phase[i] == Fresh)
    && (forall i, p :: 0 <= i < |s.at| && 0 <= p < |s.at| - 1 ==> s.infos[i][p] == -1)
  }

  // ----- the invariant

  function Rank(phase: Phase): nat {
    match phase
    case Fresh => 0
    case Listening => 1
    case Linked => 2
    case Sent => 3
    case Heard => 3
  }

  /** How far a node at `at` is with pair `p`: 4 once it has gone past. */
  function Stage(at: Pr, phase: Phase, p: Pr): nat {
    if Before(p, at) then 4 else if at == p then Rank(phase) else 0
  }

  /** Server and client are in step. */
  predicate InStep(server: nat, client: nat) {
    || (server <= 1 && client == 0)
    || (server == 2 && client == 2)
    || (server == 3 && client >= 2)
    || (server == 4 && client == 4)
  }

  /** A phase other than `Fresh` belongs to a pair of the node, and to its side of it. */
  predicate PhaseOk(at: Pr, phase: Phase, i: nat, n: nat) {
    || phase.Fresh?
    || (IsPair(at, n) && i == at.lo && (phase.Listening? || phase.Linked? || phase.Sent?))
    || (IsPair(at, n) && i == at.hi && (phase.Linked? || phase.Heard?))
  }

  /** Server and client of pair `p`: their stages, and whether they have connected.  If only one
      of them knows the other, it never gets past the pair.
   */
  predicate StagesOk(server: nat, client: nat, serverKnows: bool, clientKnows: bool, linked: bool) {
    if serverKnows && clientKnows then InStep(server, client) && (linked <==> server >= 2)
    else
      && !linked
      && (if serverKnows then server <= 1 else server in {0, 4})
      && (if clientKnows then client == 0 else client in {0, 4})
  }

  /** What the two hold of each other. */
  ghost predicate PairOk(s: State, p: Pr)
    requires Shaped(s) && IsPair(p, |s.at|)
  {
    var server, client := Stage(s.at[p.lo], s.phase[p.lo], p), Stage(s.at[p.hi], s.phase[p.hi], p);
    && StagesOk(server, client, Lists(s, p.lo, p.hi), Lists(s, p.hi, p.lo), p in s.linked)
    && (Lists(s, p.lo, p.hi) ==> s.infos[p.lo][Slot(s, p.lo, p.hi)] == if server == 4 then p.hi else -1)
    && (Lists(s, p.hi, p.lo) ==> s.infos[p.hi][Slot(s, p.hi, p.lo)] == if client >= 3 then p.lo else -1)
  }

  /** Slot `k` of node `i` is where it keeps the info of node `r`. */
  predicate IsFor(s: State, i: nat, k: nat, r: int)
    requires i < |s.ranks|
  {
    0 <= r < |s.at| && r != i && k == Slot(s, i, r) && Lists(s, i, r)
  }

  /** A slot holds nothing, or the rank it is for, if it is the first slot for it. */
  ghost predicate InfosOk(s: State)
    requires Shaped(s)
  {
    forall i, k :: 0 <= i < |s.at| && 0 <= k < |s.at| - 1 ==>
      s.infos[i][k] == -1 || IsFor(s, i, k, s.infos[i][k])
  }

  ghost predicate Inv(s: State) {
    && Shaped(s)
    && (forall i :: 0 <= i < |s.at| ==> IsCursor(s.at[i], |s.at|) && PhaseOk(s.at[i], s.phase[i], i, |s.at|))
    && (forall p :: IsPair(p, |s.at|) ==> PairOk(s, p))
    && InfosOk(s)
  }

  lemma InitInv(s: State)
    requires Init(s)
    ensures Inv(s)
  {
  }

  /** Going on to the next pair changes no other pair's stage. */
  lemma OtherStages(at: Pr, phase: Phase, phase': Phase, n: nat)
    requires IsPair(at, n)
    ensures IsCursor(Successor(at, n), n)
    ensures forall p :: IsPair(p, n) && p != at ==> Stage(Successor(at, n), Fresh, p) == Stage(at, phase, p)
    ensures forall p :: p != at ==> Stage(at, phase', p) == Stage(at, phase, p)
    ensures Stage(Successor(at, n), Fresh, at) == 4
  {
    SuccessorIsNext(at, n);
  }

  /** Nothing that pair `q` depends on has changed. */
  ghost predicate SamePair(s: State, s': State, q: Pr)
    requires Shaped(s) && Shaped(s') && |s'.at| == |s.at| && IsPair(q, |s.at|)
  {
    && s'.ranks == s.ranks
    && Stage(s'.at[q.lo], s'.phase[q.lo], q) == Stage(s.at[q.lo], s.phase[q.lo], q)
    && Stage(s'.at[q.hi], s'.phase[q.hi], q) == Stage(s.at[q.hi], s.phase[q.hi], q)
    && (q in s'.linked <==> q in s.linked)
    && (forall k :: 0 <= k < |s.at| - 1 && k == Slot(s, q.lo, q.hi) ==> s'.infos[q.lo][k] == s.infos[q.lo][k])
    && (forall k :: 0 <= k < |s.at| - 1 && k == Slot(s, q.hi, q.lo) ==> s'.infos[q.hi][k] == s.infos[q.hi][k])
  }

  lemma SamePairOk(s: State, s': State, q: Pr)
    requires Shaped(s) && Shaped(s') && |s'.at| == |s.at| && IsPair(q, |s.at|) && PairOk(s, q) && SamePair(s, s', q)
    ensures PairOk(s', q)
  {
  }

  /** Only the entries of pair `p` may change. */
  ghost predicate InfosOfPair(s: State, s': State, p: Pr)
    requires Shaped(s) && Shaped(s') && |s'.at| == |s.at| && IsPair(p, |s.at|)
  {
    forall j, k :: 0 <= j < |s.at| && 0 <= k < |s.at| - 1 && s'.infos[j][k] != s.infos[j][k] ==>
      (j == p.lo && k == Slot(s, p.lo, p.hi)) || (j == p.hi && k == Slot(s, p.hi, p.lo))
  }

  lemma OtherInfos(s: State, s': State, p: Pr, q: Pr)
    requires Shaped(s) && Shaped(s') && |s'.at| == |s.at| && IsPair(p, |s.at|) && IsPair(q, |s.at|) && p != q
    requires InfosOfPair(s, s', p)
    ensures forall k :: 0 <= k < |s.at| - 1 && k == Slot(s, q.lo, q.hi) ==> s'.infos[q.lo][k] == s.infos[q.lo][k]
    ensures forall k :: 0 <= k < |s.at| - 1 && k == Slot(s, q.hi, q.lo) ==> s'.infos[q.hi][k] == s.infos[q.hi][k]
  {
  }

  /** Node `i` moves from its pair `p`; any other pair is as it was. */
  lemma MoveSame(s: State, s': State, i: nat, p: Pr, q: Pr)
    requires Shaped(s) && Shaped(s') && |s'.at| == |s.at| && i < |s.at| && s.at[i] == p && IsPair(p, |s.at|)
    requires PhaseOk(p, s.phase[i], i, |s.at|) && PhaseOk(s'.at[i], s'.phase[i], i, |s.at|)
    requires s'.at == s.at[i := s'.at[i]] && s'.phase == s.phase[i := s'.phase[i]]
    requires s'.at[i] == p || (s'.at[i] == Successor(p, |s.at|) && s'.phase[i] == Fresh)
    requires s'.ranks == s.ranks && s'.linked == s.linked && InfosOfPair(s, s', p) && IsPair(q, |s.at|) && q != p
    ensures SamePair(s, s', q)
  {
    OtherStages(p, s.phase[i], s'.phase[i], |s.at|);
    OtherInfos(s, s', p, q);
  }

  lemma MoveKeeps(s: State, s': State, i: nat, p: Pr)
    requires Inv(s) && Shaped(s') && |s'.at| == |s.at| && i < |s.at| && s.at[i] == p && IsPair(p, |s.at|)
    requires s'.at == s.at[i := s'.at[i]] && s'.phase == s.phase[i := s'.phase[i]]
    requires s'.at[i] == p || (s'.at[i] == Successor(p, |s.at|) && s'.phase[i] == Fresh)
    requires PhaseOk(s'.at[i], s'.phase[i], i, |s.at|)
    requires s'.ranks == s.ranks && s'.linked == s.linked && InfosOfPair(s, s', p) && PairOk(s', p) && InfosOk(s')
    ensures Inv(s')
  {
    forall q | IsPair(q, |s.at|) && q != p
      ensures PairOk(s', q)
    {
      assert PairOk(s, q);
      MoveSame(s, s', i, p, q);
      SamePairOk(s, s', q);
    }
  }

  lemma SkippedPair(s: State, s': State, i: nat)
    requires Shaped(s) && Skip(s, s', i) && PairOk(s, s.at[i])
    ensures Shaped(s') && PairOk(s', s.at[i])
  {
    OtherStages(s.at[i], s.phase[i], Fresh, |s.at|);
  }

  lemma SkipInv(s: State, s': State, i: nat)
    requires Inv(s) && Skip(s, s', i)
    ensures Inv(s')
  {
    assert PairOk(s, s.at[i]);
    SkippedPair(s, s', i);
    MoveKeeps(s, s', i, s.at[i]);
  }

  lemma ConnectedPair(s: State, s': State, p: Pr)
    requires Shaped(s) && Connect(s, s', p) && PairOk(s, p)
    ensures Shaped(s') && PairOk(s', p) && p !in s.linked
  {
  }

  lemma ConnectSame(s: State, s': State, p: Pr, q: Pr)
    requires Shaped(s) && Connect(s, s', p) && IsPair(q, |s.at|) && q != p
    ensures Shaped(s') && SamePair(s, s', q)
  {
    OtherStages(p, s.phase[p.lo], Linked, |s.at|);
    OtherStages(p, s.phase[p.hi], Linked, |s.at|);
  }

  lemma ConnectInv(s: State, s': State, p: Pr)
    requires Inv(s) && Connect(s, s', p)
    ensures p !in s.linked && Inv(s')
  {
    assert PairOk(s, p);
    ConnectedPair(s, s', p);
    forall q | IsPair(q, |s.at|) && q != p
      ensures PairOk(s', q)
    {
      assert PairOk(s, q);
      ConnectSame(s, s', p, q);
      SamePairOk(s, s', q);
    }
  }

  lemma ServerMoveInv(s: State, s': State, p: Pr)
    requires Inv(s) && (Listen(s, s', p) || ServerSend(s, s', p))
    ensures Inv(s')
  {
    assert PairOk(s, p);
    MoveKeeps(s, s', p.lo, p);
  }

  lemma ServerReceived(s: State, s': State, p: Pr)
    requires Shaped(s) && ServerRecv(s, s', p) && PairOk(s, p) && InfosOk(s)
    ensures Shaped(s') && InfosOfPair(s, s', p) && PairOk(s', p) && InfosOk(s')
  {
    OtherStages(p, s.phase[p.lo], s'.phase[p.lo], |s.at|);
  }

  lemma ServerRecvInv(s: State, s': State, p: Pr)
    requires Inv(s) && ServerRecv(s, s', p)
    ensures Inv(s')
  {
    assert PairOk(s, p);
    ServerReceived(s, s', p);
    MoveKeeps(s, s', p.lo, p);
  }

  lemma ClientRecvInv(s: State, s': State, p: Pr)
    requires Inv(s) && ClientRecv(s, s', p)
    ensures Inv(s')
  {
    assert PairOk(s, p);
    MoveKeeps(s, s', p.hi, p);
  }

  lemma ClientSendInv(s: State, s': State, p: Pr)
    requires Inv(s) && ClientSend(s, s', p)
    ensures Inv(s')
  {
    assert PairOk(s, p);
    OtherStages(p, s.phase[p.hi], s'.phase[p.hi], |s.at|);
    MoveKeeps(s, s', p.hi, p);
  }

  lemma NextInv(s: State, s': State)
    requires Inv(s) && Next(s, s')
    ensures Inv(s') && |s'.at| == |s.at| && s'.ranks == s.ranks
  {
    if i: nat :| Skip(s, s', i) {
      SkipInv(s, s', i);
    } else {
      var p :| Listen(s, s', p) || Connect(s, s', p) || ServerSend(s, s', p)
               || ClientRecv(s, s', p) || ClientSend(s, s', p) || ServerRecv(s, s', p);
      if Connect(s, s', p) {
        ConnectInv(s, s', p);
      } else if ClientRecv(s, s', p) {
        ClientRecvInv(s, s', p);
      } else if ClientSend(s, s', p) {
        ClientSendInv(s, s', p);
      } else {
        if ServerRecv(s, s', p) { ServerRecvInv(s, s', p); } else { ServerMoveInv(s, s', p); }
      }
    }
  }

  ghost predicate StepAt(run: seq<State>, n: nat)
    requires n + 1 < |run|
  {
    Next(run[n], run[n + 1])
  }

  ghost predicate IsRun(run: seq<State>) {
    && |run| > 0
    && Init(run[0])
    && forall n :: 0 <= n < |run| - 1 ==> StepAt(run, n)
  }

  lemma {:induction false} RunInv(run: seq<State>, n: nat)
    requires IsRun(run) && n < |run|
    ensures Inv(run[n]) && |run[n].at| == |run[0].at| && run[n].ranks == run[0].ranks
  {
    if n == 0 {
      InitInv(run[0]);
    } else {
      RunInv(run, n - 1);
      assert StepAt(run, n - 1);
      NextInv(run[n - 1], run[n]);
    }
  }

  // ----- main results

  ghost predicate Finished(s: State) {
    forall i :: 0 <= i < |s.at| ==> !IsPair(s.at[i], |s.at|)
  }

  /** A node at the earliest pair. */
  lemma {:induction false} Earliest(at: seq<Pr>, n: nat) returns (i: nat)
    requires 0 < n <= |at|
    ensures i < n && forall j :: 0 <= j < n ==> !Before(at[j], at[i])
  {
    if n == 1 {
      i := 0;
    } else {
      i := Earliest(at, n - 1);
      if Before(at[n - 1], at[i]) {
        i := n - 1;
      }
    }
  }

  ghost predicate CanMove(s: State) {
    exists s' :: Next(s, s')
  }

  /** Of two nodes at the same pair, one can go on. */
  lemma PairCanMove(s: State, p: Pr)
    requires Inv(s) && IsPair(p, |s.at|) && (s.at[p.lo] == p || s.at[p.hi] == p)
    requires !Before(s.at[p.lo], p) && !Before(s.at[p.hi], p) && Lists(s, p.lo, p.hi) && Lists(s, p.hi, p.lo)
    ensures CanMove(s)
  {
    assert PairOk(s, p);
    var n, server, client := |s.at|, Stage(s.at[p.lo], s.phase[p.lo], p), Stage(s.at[p.hi], s.phase[p.hi], p);
    assert PhaseOk(s.at[p.lo], s.phase[p.lo], p.lo, n) && PhaseOk(s.at[p.hi], s.phase[p.hi], p.hi, n);
    assert server < 4 ==> s.at[p.lo] == p;
    assert client < 4 ==> s.at[p.hi] == p;
    if server == 0 {
      assert Listen(s, Move(s, p.lo, p, Listening), p);
      assert Next(s, Move(s, p.lo, p, Listening));
    } else if server == 1 {
      var s' := Move(Move(s, p.lo, p, Linked), p.hi, p, Linked).(linked := s.linked + {p});
      assert Connect(s, s', p);
      assert Next(s, s');
    } else if server == 2 {
      assert ServerSend(s, Move(s, p.lo, p, Sent), p);
      assert Next(s, Move(s, p.lo, p, Sent));
    } else if client == 2 {
      var s' := Move(Store(s, p.hi, p.lo), p.hi, p, Heard);
      assert ClientRecv(s, s', p);
      assert Next(s, s');
    } else if client == 3 {
      var s' := Move(s, p.hi, Successor(p, n), Fresh);
      assert ClientSend(s, s', p);
      assert Next(s, s');
    } else {
      var s' := Move(Store(s, p.lo, p.hi), p.lo, Successor(p, n), Fresh);
      assert ServerRecv(s, s', p);
      assert Next(s, s');
    }
  }

  /** Nodes know each other or neither knows the other. */
  ghost predicate Mutual(s: State) {
    |s.ranks| == |s.at| && forall p :: IsPair(p, |s.at|) ==> (Lists(s, p.lo, p.hi) <==> Lists(s, p.hi, p.lo))
  }

  /** Then bootstrap cannot deadlock: until all nodes are through, one can move. */
  lemma NeverDeadlocks(run: seq<State>, n: nat)
    requires IsRun(run) && n < |run| && !Finished(run[n]) && Mutual(run[0])
    ensures CanMove(run[n])
  {
    RunInv(run, n);
    var s := run[n];
    var nodes := |s.at|;
    var i := Earliest(s.at, nodes);
    var p := s.at[i];
    var k :| 0 <= k < nodes && IsPair(s.at[k], nodes);
    assert IsPair(p, nodes);
    if Joins(s, i, p) {
      assert Lists(run[0], p.lo, p.hi) <==> Lists(run[0], p.hi, p.lo);
      PairCanMove(s, p);
    } else {
      var s' := Move(s, i, Successor(p, nodes), Fresh);
      assert Skip(s, s', i);
      assert Next(s, s');
    }
  }

  /** And only then: if some node knows another that does not know it, no run ever ends with
      all nodes through.
   */
  lemma FinishedMeansMutual(run: seq<State>, n: nat)
    requires IsRun(run) && n < |run| && Finished(run[n])
    ensures Mutual(run[0])
  {
    RunInv(run, n);
    var s := run[n];
    forall p | IsPair(p, |s.at|)
      ensures Lists(run[0], p.lo, p.hi) <==> Lists(run[0], p.hi, p.lo)
    {
      assert IsCursor(s.at[p.lo], |s.at|) && IsCursor(s.at[p.hi], |s.at|) && PairOk(s, p);
    }
  }

  /** A pair connects at most once. */
  lemma PairsMeetOnce(run: seq<State>, n: nat, s': State, p: Pr)
    requires IsRun(run) && n < |run| && Shaped(run[n]) && Connect(run[n], s', p)
    ensures p !in run[n].linked && s'.linked == run[n].linked + {p}
  {
    RunInv(run, n);
    ConnectInv(run[n], s', p);
  }

  lemma PairAtEnd(s: State, p: Pr)
    requires Inv(s) && Finished(s) && IsPair(p, |s.at|)
    ensures p in s.linked <==> Lists(s, p.lo, p.hi)
    ensures Lists(s, p.lo, p.hi) ==> s.infos[p.lo][Slot(s, p.lo, p.hi)] == p.hi
    ensures Lists(s, p.hi, p.lo) ==> s.infos[p.hi][Slot(s, p.hi, p.lo)] == p.lo
  {
    assert IsCursor(s.at[p.lo], |s.at|) && IsCursor(s.at[p.hi], |s.at|) && PairOk(s, p);
    assert Stage(s.at[p.lo], s.phase[p.lo], p) == 4 && Stage(s.at[p.hi], s.phase[p.hi], p) == 4;
  }

  /** In the end the pairs that know each other have connected, and every slot holds the info of
      the rank it is for; a slot that is for no other node, or repeats one, holds nothing.
   */
  lemma EverySlotHoldsItsPeer(run: seq<State>, n: nat)
    requires IsRun(run) && n < |run| && Finished(run[n])
    ensures Shaped(run[n]) && run[n].ranks == run[0].ranks
    ensures forall p :: IsPair(p, |run[n].at|) ==> (p in run[n].linked <==> Lists(run[n], p.lo, p.hi))
    ensures forall i, k :: 0 <= i < |run[n].at| && 0 <= k < |run[n].at| - 1 ==>
              var r := run[n].ranks[i][k];
              run[n].infos[i][k] == if IsFor(run[n], i, k, r) then r else -1
  {
    RunInv(run, n);
    FinishedMeansMutual(run, n);
    var s := run[n];
    var nodes := |s.at|;
    forall p | IsPair(p, nodes)
      ensures p in s.linked <==> Lists(s, p.lo, p.hi)
    {
      PairAtEnd(s, p);
    }
    forall i, k | 0 <= i < nodes && 0 <= k < nodes - 1
      ensures var r := s.ranks[i][k]; s.infos[i][k] == if IsFor(s, i, k, r) then r else -1
    {
      var r := s.ranks[i][k];
      assert s.infos[i][k] == -1 || IsFor(s, i, k, s.infos[i][k]);
      if IsFor(s, i, k, r) {
        PairAtEnd(s, if i < r then Pr(i, r) else Pr(r, i));
      }
    }
  }

  /** In ring order every node knows all others, each in one slot. */
  lemma RingOrder(s: State)
    requires Shaped(s)
    requires forall i, k :: 0 <= i < |s.at| && 0 <= k < |s.at| - 1 ==> s.ranks[i][k] == PeerRank(i, |s.at|, k)
    ensures Mutual(s)
    ensures forall i, k :: 0 <= i < |s.at| && 0 <= k < |s.at| - 1 ==> IsFor(s, i, k, PeerRank(i, |s.at|, k))
  {
    var n := |s.at|;
    forall i, j | 0 <= i < n && 0 <= j < n && i != j
      ensures Lists(s, i, j) && Slot(s, i, j) == SlotAtPeer(j, i, n)
    {
      SlotsInverse(i, j, n, 0);
      assert s.ranks[i][SlotAtPeer(j, i, n)] == j;
      SlotsInverse(i, j, n, Slot(s, i, j));
    }
    forall i, k | 0 <= i < n && 0 <= k < n - 1
      ensures IsFor(s, i, k, PeerRank(i, n, k))
    {
      SlotsInverse(i, PeerRank(i, n, k), n, k);
    }
  }

  // ----- every run ends

  /** The pairs a node still has to go through, at most, four steps each. */
  function Left(at: Pr, phase: Phase, n: nat): int {
    4 * (Pair(if at.lo < n then n - at.lo else 0, n, 0) + n - at.hi) - Rank(phase)
  }

  function TotalLeft(s: State, k: nat): int
    requires k <= |s.at| == |s.phase|
  {
    if k == 0 then 0 else TotalLeft(s, k - 1) + Left(s.at[k - 1], s.phase[k - 1], |s.at|)
  }

  lemma SuccessorLeft(p: Pr, phase: Phase, n: nat)
    requires IsPair(p, n)
    ensures Left(Successor(p, n), Fresh, n) < Left(p, phase, n)
  {
    if p.hi + 1 >= n {
      assert Pair(n - p.lo, n, 0) == Pair(n - p.lo - 1, n, 0) + n;
    }
  }

  lemma {:induction false} TotalAfter(s: State, i: nat, at: Pr, phase: Phase, k: nat)
    requires i < |s.at| == |s.phase| && k <= |s.at|
    ensures TotalLeft(Move(s, i, at, phase), k)
            == TotalLeft(s, k) + if i < k then Left(at, phase, |s.at|) - Left(s.at[i], s.phase[i], |s.at|) else 0
  {
    if k == 0 {
    } else {
      TotalAfter(s, i, at, phase, k - 1);
    }
  }

  lemma {:induction false} TotalSame(s: State, s': State, k: nat)
    requires |s.at| == |s.phase| && s'.at == s.at && s'.phase == s.phase && k <= |s.at|
    ensures TotalLeft(s', k) == TotalLeft(s, k)
  {
    if k == 0 {
    } else {
      TotalSame(s, s', k - 1);
    }
  }

  /** Moving one node on. */
  lemma MoveCounts(s: State, i: nat, at: Pr, phase: Phase)
    requires i < |s.at| == |s.phase| && IsPair(s.at[i], |s.at|)
    requires (at == s.at[i] && Rank(phase) > Rank(s.phase[i])) || (at == Successor(s.at[i], |s.at|) && phase == Fresh)
    ensures TotalLeft(Move(s, i, at, phase), |s.at|) < TotalLeft(s, |s.at|)
  {
    SuccessorLeft(s.at[i], s.phase[i], |s.at|);
    TotalAfter(s, i, at, phase, |s.at|);
  }

  lemma ConnectCounts(s: State, s': State, p: Pr)
    requires Shaped(s) && Connect(s, s', p)
    ensures TotalLeft(s', |s.at|) < TotalLeft(s, |s.at|)
  {
    var n := |s.at|;
    var s1 := Move(s, p.lo, p, Linked);
    TotalAfter(s, p.lo, p, Linked, n);
    TotalAfter(s1, p.hi, p, Linked, n);
    TotalSame(Move(s1, p.hi, p, Linked), s', n);
  }

  lemma ServerCounts(s: State, s': State, p: Pr)
    requires Shaped(s) && (Listen(s, s', p) || ServerSend(s, s', p) || ServerRecv(s, s', p))
    ensures |s'.at| == |s.at| == |s'.phase| && TotalLeft(s', |s.at|) < TotalLeft(s, |s.at|)
  {
    MoveCounts(s, p.lo, s'.at[p.lo], s'.phase[p.lo]);
    TotalSame(Move(s, p.lo, s'.at[p.lo], s'.phase[p.lo]), s', |s.at|);
  }

  lemma ClientCounts(s: State, s': State, p: Pr)
    requires Shaped(s) && (ClientRecv(s, s', p) || ClientSend(s, s', p))
    ensures |s'.at| == |s.at| == |s'.phase| && TotalLeft(s', |s.at|) < TotalLeft(s, |s.at|)
  {
    MoveCounts(s, p.hi, s'.at[p.hi], s'.phase[p.hi]);
    TotalSame(Move(s, p.hi, s'.at[p.hi], s'.phase[p.hi]), s', |s.at|);
  }

  /** Every step brings the end closer. */
  lemma StepCounts(s: State, s': State)
    requires Next(s, s')
    ensures |s'.at| == |s.at| == |s'.phase| && TotalLeft(s', |s.at|) < TotalLeft(s, |s.at|)
  {
    if i: nat :| Skip(s, s', i) {
      MoveCounts(s, i, s'.at[i], Fresh);
    } else {
      var p :| Listen(s, s', p) || Connect(s, s', p) || ServerSend(s, s', p)
               || ClientRecv(s, s', p) || ClientSend(s, s', p) || ServerRecv(s, s', p);
      if Connect(s, s', p) {
        ConnectCounts(s, s', p);
      } else if ClientRecv(s, s', p) || ClientSend(s, s', p) {
        ClientCounts(s, s', p);
      } else {
        ServerCounts(s, s', p);
      }
    }
  }

  lemma LeftPositive(at: Pr, phase: Phase, i: nat, n: nat)
    requires IsCursor(at, n) && PhaseOk(at, phase, i, n)
    ensures Left(at, phase, n) >= 0
  {
    Multiple(n - at.lo, n);
  }

  lemma {:induction false} TotalPositive(s: State, k: nat)
    requires Inv(s) && k <= |s.at|
    ensures TotalLeft(s, k) >= 0
  {
    if k == 0 {
    } else {
      TotalPositive(s, k - 1);
      LeftPositive(s.at[k - 1], s.phase[k - 1], k - 1, |s.at|);
    }
  }

  lemma RunTotal(run: seq<State>, n: nat)
    requires IsRun(run) && n < |run|
    ensures |run[n].at| == |run[n].phase| == |run[0].at|
    ensures TotalLeft(run[n], |run[0].at|) >= 0
  {
    RunInv(run, n);
    TotalPositive(run[n], |run[n].at|);
  }

  lemma RunLowers(run: seq<State>, n: nat)
    requires IsRun(run) && n + 1 < |run|
    requires |run[n].at| == |run[n].phase| == |run[0].at| && |run[n + 1].at| == |run[n + 1].phase| == |run[0].at|
    ensures TotalLeft(run[n + 1], |run[0].at|) < TotalLeft(run[n], |run[0].at|)
  {
    assert StepAt(run, n);
    StepCounts(run[n], run[n + 1]);
  }

  /** No run is longer than the total number of steps to go at the start: together with the
      absence of deadlock, every bootstrap completes.
   */
  lemma {:induction false} RunsEnd(run: seq<State>, n: nat)
    requires IsRun(run) && n < |run|
    ensures |run[n].at| == |run[n].phase| == |run[0].at| == |run[0].phase|
    ensures n <= n + TotalLeft(run[n], |run[0].at|) <= TotalLeft(run[0], |run[0].at|)
  {
    RunTotal(run, n);
    RunTotal(run, 0);
    if n == 0 {
    } else {
      RunsEnd(run, n - 1);
      RunLowers(run, n - 1);
    }
  }
}
