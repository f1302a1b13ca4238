/** The ring of ag_gemm: a node sends its shard to its successor, and the proxy of every node
    forwards what it has received one hop further, into the next bank of the successor.
 */
module Ring {
  import opened Arith
  import opened PeerSlots

  const U32 := 0x1_0000_0000

  /** `chunks` arrival slots and `half` bytes per shard; `slots` notification slots. */
  datatype Net = Net(nodes: nat, chunks: nat, half: nat, enabled: bool, slots: nat)

  /** The number of notification slots is a signed 32-bit integer. */
  ghost predicate NetOk(g: Net) {
    g.nodes >= 2 && g.chunks > 0 && g.half > 0 && g.slots < 0x8000_0000
  }

  function Peers(g: Net): nat
    requires g.nodes >= 1
  {
    g.nodes - 1
  }

  /** A transfer that has arrived at `rank`: its tile number and its offset in the buffer. */
  datatype Arrival = Arrival(rank: nat, tile: nat, offset: nat)

  // ----- the code

  /** What node `origin` sends of its own shard. */
  function FirstSend(g: Net, origin: nat, chunk: nat, base: nat): Arrival
    requires NetOk(g) && origin < g.nodes
  {
    var next := PeerRank(origin, g.nodes, 0);
    var slot := SlotAtPeer(origin, next, g.nodes);
    if slot < 0 then Arrival(next, 0, 0)
    else Arrival(next, Pair(slot, g.chunks, chunk) % U32, Pair(slot, g.half, base))
  }

  /** The virtual slot of an arrival, and its bank and slot. */
  function VirtualOf(g: Net, tile: nat): nat
    requires g.chunks > 0
  {
    tile / g.chunks
  }

  function BankOf(g: Net, tile: nat): nat
    requires g.chunks > 0 && g.nodes >= 2
  {
    VirtualOf(g, tile) / Peers(g)
  }

  function SlotOf(g: Net, tile: nat): (slot: nat)
    requires g.chunks > 0 && g.nodes >= 2
    ensures slot < Peers(g)
  {
    VirtualOf(g, tile) % Peers(g)
  }

  /** The guard of the forward rule. */
  predicate ForwardEnabled(g: Net, tile: nat) {
    if !g.enabled || g.chunks <= 0 || g.half == 0 then false
    else if tile >= g.slots then false
    else if g.nodes < 2 then false
    else BankOf(g, tile) + 1 < Peers(g)
  }

  /** The forward rule: where an arrival goes next. */
  function Forward(g: Net, a: Arrival): Arrival
    requires NetOk(g) && a.rank < g.nodes
  {
    var origin := PeerRank(a.rank, g.nodes, SlotOf(g, a.tile));
    var next := PeerRank(a.rank, g.nodes, 0);
    var slot := SlotAtPeer(origin, next, g.nodes);
    if slot < 0 then Arrival(next, 0, 0)
    else
      var dst := Pair(BankOf(g, a.tile) + 1, Peers(g), slot);
      Arrival(next, Pair(dst, g.chunks, a.tile % g.chunks) % U32, Pair(dst, g.half, a.offset % g.half % U32))
  }

  /** The node whose shard a node drains at a step. */
  function RingOrigin(node: nat, nodes: nat, step: nat): int
    requires node < nodes && step < nodes
  {
    var origin := node - 1 - step;
    if origin < 0 then origin + nodes else origin
  }

  /** The virtual slot that the drain of `node` waits on and reads at a step. */
  function DrainSlot(g: Net, node: nat, step: nat): int
    requires NetOk(g) && node < g.nodes && step < Peers(g)
  {
    SlotAtPeer(RingOrigin(node, g.nodes, step), node, g.nodes) + Peers(g) * step
  }

  /** The row the drain loads for row `row` of the shard, of `rows` rows each. */
  function DrainRow(g: Net, node: nat, step: nat, rows: nat, row: nat): int
    requires NetOk(g) && node < g.nodes && step < Peers(g)
  {
    var store := SlotAtPeer(RingOrigin(node, g.nodes, step), node, g.nodes) * rows + row;
    store + step * (Peers(g) * rows)
  }

  // ----- iterating the rule

  /** What has become of a chunk of node `origin` after `k` forwards. */
  function Hops(g: Net, origin: nat, chunk: nat, base: nat, k: nat): (a: Arrival)
    requires NetOk(g) && origin < g.nodes
    ensures a.rank < g.nodes
  {
    if k == 0 then FirstSend(g, origin, chunk, base) else Forward(g, Hops(g, origin, chunk, base, k - 1))
  }

  /** The node k + 1 hops down the ring. */
  function After(origin: nat, nodes: nat, k: nat): nat
    requires origin < nodes && k < nodes
  {
    if origin + 1 + k < nodes then origin + 1 + k else origin + 1 + k - nodes
  }

  /** The virtual slot after `k` forwards: bank k, and one slot less at every hop. */
  function SlotAfter(g: Net, k: nat): nat
    requires g.nodes >= 2 && k < Peers(g)
  {
    Pair(k, Peers(g), Peers(g) - 1 - k)
  }

  function TileAfter(g: Net, chunk: nat, k: nat): nat
    requires g.nodes >= 2 && k < Peers(g)
  {
    Pair(SlotAfter(g, k), g.chunks, chunk)
  }

  lemma SlotAfterFits(g: Net, k: nat, chunk: nat)
    requires NetOk(g) && k < Peers(g) && chunk < g.chunks
    ensures SlotAfter(g, k) / Peers(g) == k && SlotAfter(g, k) % Peers(g) == Peers(g) - 1 - k
    ensures TileAfter(g, chunk, k) / g.chunks == SlotAfter(g, k) && TileAfter(g, chunk, k) % g.chunks == chunk
  {
    PairDigits(k, Peers(g), Peers(g) - 1 - k);
    PairDigits(SlotAfter(g, k), g.chunks, chunk);
  }

  lemma TileIs(g: Net, chunk: nat, k: nat)
    requires g.nodes >= 2 && k < Peers(g)
    ensures TileAfter(g, chunk, k) == Pair(k + 1, (Peers(g) - 1) * g.chunks, chunk)
  {
    var n := Peers(g);
    assert SlotAfter(g, k) == (k + 1) * (n - 1) by {
      assert (k + 1) * (n - 1) == k * n + n - 1 - k;
    }
    assert (k + 1) * (n - 1) * g.chunks == (k + 1) * ((n - 1) * g.chunks);
  }

  /** Each hop adds the same to the tile number, and no more than it was at first. */
  lemma TileGrows(g: Net, chunk: nat, k: nat)
    requires NetOk(g) && k + 1 < Peers(g)
    ensures TileAfter(g, chunk, k) < TileAfter(g, chunk, k + 1) <= TileAfter(g, chunk, k) + TileAfter(g, chunk, 0)
    ensures TileAfter(g, chunk, 0) <= TileAfter(g, chunk, k)
  {
    var d := (Peers(g) - 1) * g.chunks;
    Multiple(Peers(g) - 1, g.chunks);
    TileIs(g, chunk, 0);
    TileIs(g, chunk, k);
    TileIs(g, chunk, k + 1);
    assert Pair(k + 2, d, chunk) == Pair(k + 1, d, chunk) + d;
    assert Pair(k + 1, d, chunk) == Pair(1, d, chunk) + k * d;
  }

  /** A chunk comes through `k` forwards: its first tile number fits 32 bits, and the guard lets
      the last of them pass.
   */
  ghost predicate ComesTo(g: Net, chunk: nat, k: nat)
    requires NetOk(g) && k < Peers(g)
  {
    if k == 0 then TileAfter(g, chunk, 0) < U32 else ForwardEnabled(g, TileAfter(g, chunk, k - 1))
  }

  /** The guard that lets the last pass has let the ones before pass, and no tile number has
      wrapped around.
   */
  lemma CameTo(g: Net, chunk: nat, k: nat)
    requires NetOk(g) && 0 < k < Peers(g) && chunk < g.chunks && ComesTo(g, chunk, k)
    ensures ComesTo(g, chunk, k - 1) && TileAfter(g, chunk, k) < U32
  {
    TileGrows(g, chunk, k - 1);
    if k > 1 {
      TileGrows(g, chunk, k - 2);
      SlotAfterFits(g, k - 2, chunk);
    }
  }

  ghost predicate At(g: Net, a: Arrival, origin: nat, chunk: nat, base: nat, k: nat)
    requires NetOk(g) && origin < g.nodes && k < Peers(g)
  {
    a == Arrival(After(origin, g.nodes, k), TileAfter(g, chunk, k), Pair(SlotAfter(g, k), g.half, base))
  }

  /** One hop: the next bank of the next node, same chunk; the byte base goes through a 32-bit
      cast.
   */
  lemma ForwardOnce(g: Net, a: Arrival, origin: nat, chunk: nat, base: nat, k: nat)
    requires NetOk(g) && origin < g.nodes && chunk < g.chunks && base < g.half && k + 1 < Peers(g)
    requires At(g, a, origin, chunk, base, k) && ForwardEnabled(g, a.tile)
    ensures At(g, Forward(g, a), origin, chunk, base % U32, k + 1)
  {
    CameTo(g, chunk, k + 1);
    SlotAfterFits(g, k, chunk);
    PairDigits(SlotAfter(g, k), g.half, base);
    DivIs(TileAfter(g, chunk, k + 1), U32, 0, TileAfter(g, chunk, k + 1));
  }

  /** The byte base after `k` forwards: each of them casts it to 32 bits. */
  function BaseAfter(base: nat, k: nat): nat {
    if k == 0 then base else base % U32
  }

  /** A first send is right exactly if its tile number fits 32 bits. */
  lemma FirstSendIff(g: Net, origin: nat, chunk: nat, base: nat)
    requires NetOk(g) && origin < g.nodes && chunk < g.chunks && base < g.half
    ensures At(g, FirstSend(g, origin, chunk, base), origin, chunk, base, 0) <==> TileAfter(g, chunk, 0) < U32
  {
    var tile := TileAfter(g, chunk, 0);
    assert FirstSend(g, origin, chunk, base).tile == tile % U32;
    if tile < U32 {
      DivIs(tile, U32, 0, tile);
    }
  }

  /** After k forwards a chunk sits in bank k of the node k + 1 hops on, at its own chunk. */
  lemma {:induction false} HopsAt(g: Net, origin: nat, chunk: nat, base: nat, k: nat)
    requires NetOk(g) && origin < g.nodes && chunk < g.chunks && base < g.half && k < Peers(g) && ComesTo(g, chunk, k)
    ensures At(g, Hops(g, origin, chunk, base, k), origin, chunk, BaseAfter(base, k), k)
  {
    if k == 0 {
      FirstSendIff(g, origin, chunk, base);
    } else {
      CameTo(g, chunk, k);
      HopsAt(g, origin, chunk, base, k - 1);
      ForwardOnce(g, Hops(g, origin, chunk, base, k - 1), origin, chunk, BaseAfter(base, k - 1), k - 1);
    }
  }

  // ----- main results

  lemma DrainIs(g: Net, origin: nat, k: nat)
    requires NetOk(g) && origin < g.nodes && k < Peers(g)
    ensures RingOrigin(After(origin, g.nodes, k), g.nodes, k) == origin
    ensures SlotAtPeer(origin, After(origin, g.nodes, k), g.nodes) == Peers(g) - 1 - k
    ensures DrainSlot(g, After(origin, g.nodes, k), k) == SlotAfter(g, k)
  {
    assert Peers(g) * k == k * Peers(g);
  }

  lemma RowOf(peers: nat, k: nat, rows: nat, row: nat)
    requires k < peers
    ensures (peers - 1 - k) * rows + row + k * (peers * rows) == Pair(k, peers, peers - 1 - k) * rows + row
  {
    assert k * (peers * rows) == (k * peers) * rows;
  }

  /** The virtual slot, buffer slot and buffer row that k hops of the forward rule fill are
      those the drain of the node reached reads at step k, for the same origin; the chunk is
      kept, and the byte base exactly when it is below 4 GiB or has not been forwarded.
   */
  lemma ForwardMeetsDrain(g: Net, origin: nat, chunk: nat, base: nat, k: nat, rows: nat, row: nat)
    requires NetOk(g) && origin < g.nodes && chunk < g.chunks && base < g.half && k < Peers(g) && ComesTo(g, chunk, k)
    ensures var a := Hops(g, origin, chunk, base, k);
            && RingOrigin(a.rank, g.nodes, k) == origin
            && a.tile / g.chunks == DrainSlot(g, a.rank, k) && a.tile % g.chunks == chunk
            && a.offset / g.half == DrainSlot(g, a.rank, k)
            && (a.offset % g.half == base <==> k == 0 || base < U32)
            && DrainRow(g, a.rank, k, rows, row) == (a.offset / g.half) * rows + row
  {
    HopsAt(g, origin, chunk, base, k);
    DrainIs(g, origin, k);
    PairDigits(SlotAfter(g, k), g.chunks, chunk);
    PairDigits(SlotAfter(g, k), g.half, BaseAfter(base, k));
    RowOf(Peers(g), k, rows, row);
  }

  /** The byte base survives a hop exactly when it is below 4 GiB. */
  lemma BaseKeptIff(g: Net, a: Arrival, origin: nat, chunk: nat, base: nat, k: nat)
    requires NetOk(g) && origin < g.nodes && chunk < g.chunks && base < g.half && k + 1 < Peers(g)
    requires At(g, a, origin, chunk, base, k) && ForwardEnabled(g, a.tile)
    ensures Forward(g, a).offset % g.half == base <==> base < U32
  {
    ForwardOnce(g, a, origin, chunk, base, k);
    PairDigits(SlotAfter(g, k + 1), g.half, base % U32);
  }

  /** A shard of 8 GiB in chunks of 64 KiB: the base of chunk 65536 is lost at the first hop. */
  lemma BaseLost()
    ensures var g := Net(4, 131072, 0x2_0000_0000, true, 1179648);
            && NetOk(g)
            && Hops(g, 0, 65536, 65536 * 65536, 0).offset % g.half == 65536 * 65536
            && Hops(g, 0, 65536, 65536 * 65536, 1).offset % g.half == 0
  {
    var g := Net(4, 131072, 0x2_0000_0000, true, 1179648);
    assert Pair(Pair(3, 3, 0), 131072, 0) == 1179648;
    HopsAt(g, 0, 65536, U32, 0);
    HopsAt(g, 0, 65536, U32, 1);
    PairDigits(SlotAfter(g, 0), g.half, U32);
    PairDigits(SlotAfter(g, 1), g.half, 0);
  }

  /** Two transfers that come to the same slot of the same node are the same: no two pairs of
      origin and hop share a slot.
   */
  lemma SlotsNeverShared(g: Net, o: nat, chunk: nat, base: nat, k: nat, o': nat, chunk': nat, base': nat, k': nat)
    requires NetOk(g) && o < g.nodes && chunk < g.chunks && base < g.half && k < Peers(g)
    requires o' < g.nodes && chunk' < g.chunks && base' < g.half && k' < Peers(g)
    requires ComesTo(g, chunk, k) && ComesTo(g, chunk', k')
    requires var a, a' := Hops(g, o, chunk, base, k), Hops(g, o', chunk', base', k');
             a.rank == a'.rank && a.tile == a'.tile
    ensures o == o' && k == k' && chunk == chunk'
  {
    HopsAt(g, o, chunk, base, k);
    HopsAt(g, o', chunk', base', k');
    PairInjective(SlotAfter(g, k), g.chunks, chunk, SlotAfter(g, k'), chunk');
    PairInjective(k, Peers(g), Peers(g) - 1 - k, k', Peers(g) - 1 - k');
  }

  lemma TileFits(g: Net, chunk: nat, k: nat)
    requires NetOk(g) && chunk < g.chunks && k < Peers(g)
    requires Pair(Pair(Peers(g), Peers(g), 0), g.chunks, 0) <= g.slots
    ensures TileAfter(g, chunk, k) < g.slots
  {
    PairBelow(k, Peers(g), Peers(g), Peers(g) - 1 - k);
    PairBelow(SlotAfter(g, k), Pair(Peers(g), Peers(g), 0), g.chunks, chunk);
  }

  /** With a notification slot for every chunk of every virtual slot, every chunk comes through,
      and the guard lets it go on exactly until the next node would be its origin.
   */
  lemma GuardStopsAtOrigin(g: Net, origin: nat, chunk: nat, base: nat, k: nat)
    requires NetOk(g) && origin < g.nodes && chunk < g.chunks && base < g.half && k < Peers(g)
    requires g.enabled && Pair(Pair(Peers(g), Peers(g), 0), g.chunks, 0) <= g.slots
    ensures ComesTo(g, chunk, k)
    ensures var a := Hops(g, origin, chunk, base, k);
            ForwardEnabled(g, a.tile) <==> PeerRank(a.rank, g.nodes, 0) != origin
  {
    TileFits(g, chunk, 0);
    if k > 0 {
      TileFits(g, chunk, k - 1);
      SlotAfterFits(g, k - 1, chunk);
    }
    HopsAt(g, origin, chunk, base, k);
    TileFits(g, chunk, k);
    SlotAfterFits(g, k, chunk);
  }
}
