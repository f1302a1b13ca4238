/** What a dispatch worker of dispatch_gemm waits for before it moves a slice: copy workers turn
    the arrival of a chunk into a ready flag, and a remote token is gated on the flags of the
    chunks that its bytes lie in.
 */
module DispatchGates {
  import opened Arith
  import opened PeerSlots
  import opened SendLayout
  import opened DispatchWalk

  // ----- the copy workers

  /** Ready flags of all devices of a node: by device, sender slot and chunk. */
  datatype Flags = Flags(devices: nat, peers: nat, chunks: nat)

  function PerDevice(z: Flags): nat { z.peers * z.chunks }

  function FlagCount(z: Flags): nat { z.devices * PerDevice(z) }

  function FlagOf(z: Flags, dev: nat, slot: nat, chunk: nat): nat {
    Pair(dev, PerDevice(z), Pair(slot, z.chunks, chunk))
  }

  lemma FlagInjective(z: Flags, d: nat, s: nat, c: nat, d': nat, s': nat, c': nat)
    requires s < z.peers && c < z.chunks && s' < z.peers && c' < z.chunks
    requires FlagOf(z, d, s, c) == FlagOf(z, d', s', c')
    ensures d == d' && s == s' && c == c'
  {
    PairBelow(s, z.peers, z.chunks, c);
    PairBelow(s', z.peers, z.chunks, c');
    PairInjective(d, PerDevice(z), Pair(s, z.chunks, c), d', Pair(s', z.chunks, c'));
    PairInjective(s, z.chunks, c, s', c');
  }

  /** The flags of one chunk, for every sender slot in turn. */
  function FlagRow(z: Flags, dev: nat, chunk: nat): (fs: seq<nat>)
    ensures |fs| == z.peers && forall slot :: 0 <= slot < z.peers ==> fs[slot] == FlagOf(z, dev, slot, chunk)
  {
    seq(z.peers, slot requires 0 <= slot < z.peers => FlagOf(z, dev, slot, chunk))
  }

  /** The flags of the first `n` listed chunks. */
  function FlagsFor(z: Flags, dev: nat, chunks: seq<nat>, n: nat): (fs: seq<nat>)
    requires n <= |chunks|
    ensures |fs| == Pair(n, z.peers, 0)
  {
    if n == 0 then [] else FlagsFor(z, dev, chunks, n - 1) + FlagRow(z, dev, chunks[n - 1])
  }

  /** Entry `slot` of the j-th row. */
  lemma {:induction false} FlagsForAt(z: Flags, dev: nat, chunks: seq<nat>, n: nat, j: nat, slot: nat)
    requires j < n <= |chunks| && slot < z.peers
    ensures Pair(j, z.peers, slot) < |FlagsFor(z, dev, chunks, n)|
    ensures FlagsFor(z, dev, chunks, n)[Pair(j, z.peers, slot)] == FlagOf(z, dev, slot, chunks[j])
  {
    var rest := FlagsFor(z, dev, chunks, n - 1);
    if j < n - 1 {
      FlagsForAt(z, dev, chunks, n - 1, j, slot);
    } else {
      assert Pair(j, z.peers, slot) == |rest| + slot;
    }
  }

  /** The chunks of copy worker `id` of `workers`, in order. */
  function ChunksOf(z: Flags, id: nat, workers: nat): seq<nat>
    requires workers > 0
  {
    Pick(Interval(0, z.chunks), id, workers)
  }

  /** The flags it waits for and then publishes. */
  function WalkOf(z: Flags, dev: nat, id: nat, workers: nat): seq<nat>
    requires workers > 0
  {
    FlagsFor(z, dev, ChunksOf(z, id, workers), |ChunksOf(z, id, workers)|)
  }

  method CopyRow(z: Flags, dev: nat, chunk: nat) returns (row: seq<nat>)
    ensures row == FlagRow(z, dev, chunk)
  {
    row := [];
    for slot := 0 to z.peers
      invariant row == FlagRow(z, dev, chunk)[..slot]
    {
      row := row + [FlagOf(z, dev, slot, chunk)];
    }
  }

  method CopyWalk(z: Flags, dev: nat, id: nat, workers: nat) returns (out: seq<nat>)
    requires workers > 0
    ensures out == WalkOf(z, dev, id, workers)
  {
    ghost var all := ChunksOf(z, id, workers);
    ghost var n := 0;
    out := [];
    var chunk := id;
    while chunk < z.chunks
      invariant n <= |all| && all[n..] == Pick(Interval(0, z.chunks), chunk, workers)
      invariant out == FlagsFor(z, dev, all, n)
    {
      var row := CopyRow(z, dev, chunk);
      assert all[n] == all[n..][0] == chunk;
      assert all[n + 1..] == all[n..][1..];
      n, out := n + 1, out + row;
      chunk := chunk + workers;
    }
    assert n == |all|;
  }

  /** Place k of a worker's walk: which slot and which chunk it is. */
  lemma CopyAt(z: Flags, dev: nat, id: nat, workers: nat, k: nat) returns (slot: nat, chunk: nat, j: nat)
    requires id < workers && k < |WalkOf(z, dev, id, workers)|
    ensures slot < z.peers && chunk < z.chunks && chunk == Pair(j, workers, id) && k == Pair(j, z.peers, slot)
    ensures WalkOf(z, dev, id, workers)[k] == FlagOf(z, dev, slot, chunk)
  {
    var chunks := ChunksOf(z, id, workers);
    assert z.peers > 0;
    QuotientBelow(k, |chunks|, z.peers);
    DigitsPair(k, z.peers);
    slot, j := k % z.peers, k / z.peers;
    chunk := Pair(j, workers, id);
    PickAt(Interval(0, z.chunks), id, workers, j);
    FlagsForAt(z, dev, chunks, |chunks|, j, slot);
  }

  lemma PlaceOfFlag(z: Flags, dev: nat, workers: nat, slot: nat, chunk: nat) returns (id: nat, k: nat)
    requires workers > 0 && slot < z.peers && chunk < z.chunks
    ensures id < workers && k < |WalkOf(z, dev, id, workers)| && WalkOf(z, dev, id, workers)[k] == FlagOf(z, dev, slot, chunk)
  {
    var j := chunk / workers;
    id, k := chunk % workers, Pair(j, z.peers, slot);
    DigitsPair(chunk, workers);
    var chunks := ChunksOf(z, id, workers);
    PickAt(Interval(0, z.chunks), id, workers, j);
    FlagsForAt(z, dev, chunks, |chunks|, j, slot);
  }

  /** The walks of the copy workers of all devices; worker `w` is on device w / workers. */
  function CopyWalks(z: Flags, workers: nat): (lists: seq<seq<nat>>)
    requires workers > 0
    ensures |lists| == Pair(z.devices, workers, 0)
    ensures forall w :: 0 <= w < |lists| ==> lists[w] == WalkOf(z, w / workers, w % workers, workers)
  {
    seq(Pair(z.devices, workers, 0),
        w requires 0 <= w < Pair(z.devices, workers, 0) => WalkOf(z, w / workers, w % workers, workers))
  }

  lemma CopyBelow(z: Flags, dev: nat, id: nat, workers: nat, k: nat)
    requires dev < z.devices && id < workers && k < |WalkOf(z, dev, id, workers)|
    ensures WalkOf(z, dev, id, workers)[k] < FlagCount(z)
  {
    var slot, chunk, j := CopyAt(z, dev, id, workers, k);
    PairBelow(slot, z.peers, z.chunks, chunk);
    PairBelow(dev, z.devices, PerDevice(z), Pair(slot, z.chunks, chunk));
  }

  lemma CopyInjective(z: Flags, workers: nat, dev: nat, id: nat, k: nat, dev': nat, id': nat, k': nat)
    requires id < workers && k < |WalkOf(z, dev, id, workers)| && id' < workers && k' < |WalkOf(z, dev', id', workers)|
    requires WalkOf(z, dev, id, workers)[k] == WalkOf(z, dev', id', workers)[k']
    ensures dev == dev' && id == id' && k == k'
  {
    var slot, chunk, j := CopyAt(z, dev, id, workers, k);
    var slot', chunk', j' := CopyAt(z, dev', id', workers, k');
    FlagInjective(z, dev, slot, chunk, dev', slot', chunk');
    PairInjective(j, workers, id, j', id');
  }

  lemma CopySomewhere(z: Flags, workers: nat, x: nat)
    requires workers > 0 && x < FlagCount(z)
    ensures Somewhere(CopyWalks(z, workers), x)
  {
    Multiple(z.devices, PerDevice(z));
    var dev, slot, chunk := ThreeDigits(x, z.devices, z.peers, z.chunks);
    var id, k := PlaceOfFlag(z, dev, workers, slot, chunk);
    var w := Pair(dev, workers, id);
    PairDigits(dev, workers, id);
    PairBelow(dev, z.devices, workers, id);
    assert CopyWalks(z, workers)[w][k] == x;
  }

  /** Worker `w` is worker `id` of device `dev`. */
  lemma WorkerIs(z: Flags, workers: nat, w: nat) returns (dev: nat, id: nat)
    requires workers > 0 && w < |CopyWalks(z, workers)|
    ensures dev < z.devices && id < workers && w == Pair(dev, workers, id)
    ensures CopyWalks(z, workers)[w] == WalkOf(z, dev, id, workers)
  {
    QuotientBelow(w, z.devices, workers);
    DigitsPair(w, workers);
    dev, id := w / workers, w % workers;
  }

  lemma WalksBelow(z: Flags, lists: seq<seq<nat>>, workers: nat, w: nat, k: nat)
    requires workers > 0 && lists == CopyWalks(z, workers) && w < |lists| && k < |lists[w]|
    ensures lists[w][k] < FlagCount(z)
  {
    var dev, id := WorkerIs(z, workers, w);
    CopyBelow(z, dev, id, workers, k);
  }

  lemma WalksInjective(z: Flags, lists: seq<seq<nat>>, workers: nat, w: nat, k: nat, w': nat, k': nat)
    requires workers > 0 && lists == CopyWalks(z, workers) && w < |lists| && k < |lists[w]| && w' < |lists| && k' < |lists[w']|
    requires lists[w][k] == lists[w'][k']
    ensures w == w' && k == k'
  {
    var dev, id := WorkerIs(z, workers, w);
    var dev', id' := WorkerIs(z, workers, w');
    CopyInjective(z, workers, dev, id, k, dev', id', k');
  }

  /** Together the copy workers publish every ready flag exactly once. */
  lemma CopiesCoverAll(z: Flags, workers: nat)
    requires workers > 0
    ensures OnceEach(CopyWalks(z, workers), FlagCount(z))
  {
    var lists := CopyWalks(z, workers);
    forall w, k | 0 <= w < |lists| && 0 <= k < |lists[w]|
      ensures lists[w][k] < FlagCount(z)
    {
      WalksBelow(z, lists, workers, w, k);
    }
    forall w, k, w', k' | 0 <= w < |lists| && 0 <= k < |lists[w]| && 0 <= w' < |lists| && 0 <= k' < |lists[w']|
                          && lists[w][k] == lists[w'][k']
      ensures w == w' && k == k'
    {
      WalksInjective(z, lists, workers, w, k, w', k');
    }
    forall x | 0 <= x < FlagCount(z)
      ensures Somewhere(lists, x)
    {
      CopySomewhere(z, workers, x);
    }
  }

  // ----- what a token waits for

  /** Where a row of the padded list comes from; a padding row comes from nowhere. */
  datatype Source = Nowhere | Local | Remote(node: nat, dev: nat, token: nat)

  /** Token rows of `row` bytes, `tokens` of them from each sender. */
  datatype Rows = Rows(nodes: nat, devices: nat, tokens: nat, row: nat, chunk: nat)

  ghost predicate RowsOk(z: Rows) {
    z.nodes >= 2 && z.tokens > 0 && z.row > 0 && z.chunk > 0
  }

  /** What one device of a sender writes to the same device of a receiver. */
  function LoadOf(z: Rows): (l: Load)
    requires RowsOk(z)
    ensures LoadOk(l)
  {
    Multiple(z.tokens, z.row);
    Load(z.nodes, z.tokens * z.row, z.chunk)
  }

  function FlagsOf(z: Rows): Flags
    requires RowsOk(z)
  {
    Flags(z.devices, z.nodes - 1, Chunks(LoadOf(z)))
  }

  ghost predicate SourceOk(z: Rows, me: nat, s: Source) {
    me < z.nodes && (s.Remote? ==> s.node < z.nodes && s.node != me && s.dev < z.devices && s.token < z.tokens)
  }

  function FirstChunk(z: Rows, token: nat): nat
    requires RowsOk(z)
  {
    Pair(token, z.row, 0) / z.chunk
  }

  function LastChunk(z: Rows, token: nat): nat
    requires RowsOk(z)
  {
    (Pair(token, z.row, 0) + z.row - 1) / z.chunk
  }

  /** The flag of chunk `c` of the row's sender. */
  function ArrivalOf(z: Rows, me: nat, s: Source, c: nat): nat
    requires RowsOk(z) && s.Remote? && SourceOk(z, me, s)
  {
    SlotsInverse(me, s.node, z.nodes, 0);
    FlagOf(FlagsOf(z), s.dev, SlotAtPeer(s.node, me, z.nodes), c)
  }

  /** A dispatch worker spins on flag `f` before it loads the row. */
  ghost predicate Gates(z: Rows, me: nat, s: Source, f: nat)
    requires RowsOk(z)
  {
    && s.Remote? && SourceOk(z, me, s)
    && exists c: nat :: FirstChunk(z, s.token) <= c <= LastChunk(z, s.token) && f == ArrivalOf(z, me, s, c)
  }

  /** Byte `b` of the receiver's buffer is part of the row that a worker loads for `s`. */
  predicate Loads(z: Rows, me: nat, s: Source, b: nat)
    requires RowsOk(z) && s.Remote? && SourceOk(z, me, s)
  {
    SlotsInverse(me, s.node, z.nodes, 0);
    var at := Pair(Pair(SlotAtPeer(s.node, me, z.nodes), z.tokens, s.token), z.row, 0);
    at <= b < at + z.row
  }

  /** Byte i of row `t` of a sender lies within the sender's part of the buffer. */
  lemma RowPlace(slot: nat, tokens: nat, row: nat, t: nat, i: nat)
    requires t < tokens && i < row
    ensures Pair(t, row, i) < tokens * row
    ensures Pair(Pair(slot, tokens, t), row, i) == Pair(slot, tokens * row, Pair(t, row, i))
  {
    PairBelow(t, tokens, row, i);
    assert (slot * tokens + t) * row == slot * (tokens * row) + t * row;
  }

  lemma QuotientsOrdered(x: nat, y: nat, n: nat)
    requires n > 0 && x <= y
    ensures x / n <= y / n
  {
    Multiple(y / n - x / n, n);
    assert (y / n - x / n) * n == y - y % n - (x - x % n);
  }

  /** Every byte a worker loads for a remote row is written by a chunk whose flag gates the
      row, and that flag is the arrival index of the chunk's command.
   */
  lemma GateCoversRow(z: Rows, me: nat, s: Source, b: nat) returns (c: nat)
    requires RowsOk(z) && s.Remote? && SourceOk(z, me, s) && Loads(z, me, s, b)
    ensures Writes(LoadOf(z), s.node, me, c, b)
    ensures Gates(z, me, s, ArrivalOf(z, me, s, c))
    ensures ArrivalOf(z, me, s, c) == Pair(s.dev, PerDevice(FlagsOf(z)), CmdOf(LoadOf(z), s.node, me, c).arrival)
  {
    SlotsInverse(me, s.node, z.nodes, 0);
    var l, slot := LoadOf(z), SlotAtPeer(s.node, me, z.nodes);
    var i := b - Pair(Pair(slot, z.tokens, s.token), z.row, 0);
    var off := Pair(s.token, z.row, i);
    RowPlace(slot, z.tokens, z.row, s.token, i);
    PairDigits(slot, l.bytes, off);
    c := off / z.chunk;
    DigitsPair(off, z.chunk);
    CeilBelow(c, l.bytes, z.chunk);
    WritesDigits(l, s.node, me, c, b);
    QuotientsOrdered(Pair(s.token, z.row, 0), off, z.chunk);
    QuotientsOrdered(off, Pair(s.token, z.row, 0) + z.row - 1, z.chunk);
  }

  lemma GateBelow(z: Rows, me: nat, s: Source, f: nat)
    requires RowsOk(z) && Gates(z, me, s, f)
    ensures f < FlagCount(FlagsOf(z))
  {
    var l, fs := LoadOf(z), FlagsOf(z);
    var c: nat :| FirstChunk(z, s.token) <= c <= LastChunk(z, s.token) && f == ArrivalOf(z, me, s, c);
    SlotsInverse(me, s.node, z.nodes, 0);
    PairBelow(s.token, z.tokens, z.row, z.row - 1);
    DigitsPair(Pair(s.token, z.row, z.row - 1), z.chunk);
    CeilBelow(LastChunk(z, s.token), l.bytes, z.chunk);
    PairBelow(SlotAtPeer(s.node, me, z.nodes), fs.peers, fs.chunks, c);
    PairBelow(s.dev, fs.devices, PerDevice(fs), Pair(SlotAtPeer(s.node, me, z.nodes), fs.chunks, c));
  }
}
