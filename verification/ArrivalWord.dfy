/** The word that announces an RDMA transfer: its first tile and its number of tiles in one
    32-bit word, and how a drainer turns it back into chunks.
 */
module ArrivalWord {
  import opened Arith
  import opened PeerSums

  const FIELD := 0x100_0000  // 24 bits below, 8 above
  const U32 := 0x1_0000_0000

  // ----- packing

  /** Bitwise or. */
  function Or(a: nat, b: nat): nat {
    if a == 0 then b else 2 * Or(a / 2, b / 2) + if a % 2 == 1 || b % 2 == 1 then 1 else 0
  }

  /** low | (high << 24), on 32 bits. */
  function Word(low: nat, high: nat): nat {
    Pair(Or(low % U32 / FIELD, high % 256), FIELD, low % FIELD)
  }

  lemma WordDigits(low: nat, high: nat)
    ensures Word(low, high) / FIELD == Or(low % U32 / FIELD, high % 256) && Word(low, high) % FIELD == low % FIELD
    ensures low < FIELD ==> Word(low, high) / FIELD == high % 256
  {
    PairDigits(Or(low % U32 / FIELD, high % 256), FIELD, low % FIELD);
  }

  function Pack(first: nat, tiles: nat): nat {
    Word(first + 1, if tiles == 0 then 0 else tiles - 1)
  }

  function UnpackFirst(w: nat): nat { (w % FIELD + U32 - 1) % U32 }

  function UnpackTiles(w: nat): nat { w / FIELD % 256 + 1 }

  /** The field below gives its number back exactly when that number fits. */
  lemma LowFits(low: nat)
    requires low < U32
    ensures (low + 1) % FIELD != 0 && ((low + 1) % FIELD + U32 - 1) % U32 == low <==> low + 1 < FIELD
  {
    if low + 1 < FIELD {
      DivIs(low + 1, FIELD, 0, low + 1);
      DivIs(low + U32, U32, 1, low);
    }
  }

  lemma CountFits(tiles: nat)
    ensures (if tiles == 0 then 0 else tiles - 1) % 256 + 1 == tiles <==> 1 <= tiles <= 256
  {
  }

  /** The word brings its transfer back, and is not the "not ready" word, exactly when the
      tile number leaves room for the count and the count fits its byte.
   */
  lemma PackRoundTripIff(first: nat, tiles: nat)
    requires first < U32 && tiles < U32
    ensures var w := Pack(first, tiles);
            (w % FIELD != 0 && UnpackFirst(w) == first && UnpackTiles(w) == tiles)
            <==> (first + 1 < FIELD && 1 <= tiles <= 256)
  {
    LowFits(first);
    WordDigits(first + 1, if tiles == 0 then 0 else tiles - 1);
    if first + 1 < FIELD {
      CountFits(tiles);
    }
  }

  /** The word of the gemm_rs accumulation queue: peer slot above, chunk plus one below. */
  function PackWork(w: Work): nat { Word(w.chunk + 1, w.peer % 128) }

  /** A word with nothing below gives chunk -1, as an unsigned number. */
  function UnpackWork(v: nat): Work { Work(v / FIELD % 128, (v % FIELD + U32 - 1) % U32) }

  /** The word gives its work back exactly when both parts fit; chunk numbers are 32-bit signed. */
  lemma WorkRoundTripIff(w: Work)
    requires w.chunk < 0x8000_0000
    ensures UnpackWork(PackWork(w)) == w <==> w.peer < 128 && w.chunk + 1 < FIELD
    ensures w.chunk + 1 < FIELD ==> PackWork(w) % FIELD != 0
  {
    LowFits(w.chunk);
    WordDigits(w.chunk + 1, w.peer % 128);
  }

  // ----- draining

  /** `cols` tiles per row block, cut into chunks of up to `chunk` tiles. */
  datatype Shape = Shape(rows: nat, cols: nat, chunk: nat)

  ghost predicate ShapeOk(z: Shape) {
    z.rows > 0 && z.cols > 0 && z.chunk > 0
  }

  function PerRow(z: Shape): nat
    requires ShapeOk(z)
  {
    CeilDiv(z.cols, z.chunk)
  }

  /** The tiles of the chunk that column `col` is in. */
  function TilesAt(z: Shape, col: nat): nat
    requires ShapeOk(z) && col < z.cols
  {
    var left := z.cols - col / z.chunk * z.chunk;
    if left < 0 then 0 else Min(z.chunk, left)
  }

  /** The chunk that column `col` of row block `rb` is in. */
  function ChunkAt(z: Shape, rb: nat, col: nat): nat
    requires ShapeOk(z)
  {
    Pair(rb, PerRow(z), col / z.chunk)
  }

  /** The chunks covered by `left` tiles from column `col` on. */
  function Covered(z: Shape, peer: nat, rb: nat, col: nat, left: nat): seq<Work>
    requires ShapeOk(z)
    decreases left
  {
    if left == 0 || col >= z.cols then []
    else
      var used := Min(left, TilesAt(z, col));
      if used == 0 then []
      else [Work(peer, ChunkAt(z, rb, col))] + Covered(z, peer, rb, col + used, left - used)
  }

  /** The loop of the drainer over the chunks of one word. */
  method DrainLoop(z: Shape, peer: nat, rb: nat, start: nat, tiles: nat) returns (ws: seq<Work>)
    requires ShapeOk(z)
    ensures ws == Covered(z, peer, rb, start, tiles)
  {
    var col: nat, left: nat := start, tiles;
    ws := [];
    while left > 0 && col < z.cols
      invariant Covered(z, peer, rb, start, tiles) == ws + Covered(z, peer, rb, col, left)
      decreases left
    {
      var used: nat := Min(left, TilesAt(z, col));
      if used == 0 {
        break;
      }
      ws := ws + [Work(peer, ChunkAt(z, rb, col))];
      col := col + used;
      left := left - used;
    }
  }

  /** Sender slot, row block and column of a tile. */
  function PeerOf(z: Shape, tile: nat): nat
    requires ShapeOk(z) && Pair(z.rows, z.cols, 0) > 0
  {
    tile / Pair(z.rows, z.cols, 0)
  }

  function RowOf(z: Shape, tile: nat): nat
    requires ShapeOk(z) && Pair(z.rows, z.cols, 0) > 0
  {
    tile % Pair(z.rows, z.cols, 0) / z.cols
  }

  function ColumnOf(z: Shape, tile: nat): (col: nat)
    requires ShapeOk(z) && Pair(z.rows, z.cols, 0) > 0
    ensures col < z.cols
  {
    tile % Pair(z.rows, z.cols, 0) % z.cols
  }

  lemma TilesPositive(z: Shape)
    requires ShapeOk(z)
    ensures Pair(z.rows, z.cols, 0) > 0
  {
    Multiple(z.rows, z.cols);
  }

  /** The chunks of the row block of tile `first` that `tiles` tiles from it on cover. */
  function CoveredFrom(z: Shape, first: nat, tiles: nat): seq<Work>
    requires ShapeOk(z) && Pair(z.rows, z.cols, 0) > 0
  {
    Covered(z, PeerOf(z, first), RowOf(z, first), ColumnOf(z, first), Min(tiles, z.cols - ColumnOf(z, first)))
  }

  /** The first tile as a signed integer, where one that underflowed is taken for 0. */
  function FirstOf(word: nat): nat {
    if UnpackFirst(word) >= 0x8000_0000 then 0 else UnpackFirst(word)
  }

  /** The chunks an arrival word announces. */
  function Announced(z: Shape, word: nat): seq<Work>
    requires ShapeOk(z)
  {
    TilesPositive(z);
    CoveredFrom(z, FirstOf(word), UnpackTiles(word))
  }

  /** The drainer: sender, row block and column of the first tile, then the loop. */
  method DrainFrom(z: Shape, first: nat, tiles: nat) returns (ws: seq<Work>)
    requires ShapeOk(z) && Pair(z.rows, z.cols, 0) > 0
    ensures ws == CoveredFrom(z, first, tiles)
  {
    var per := Pair(z.rows, z.cols, 0);
    DigitsPair(first, per);
    var peer, tile := first / per, first - Pair(first / per, per, 0);
    DigitsPair(tile, z.cols);
    var rb, col := tile / z.cols, tile - Pair(tile / z.cols, z.cols, 0);
    ws := DrainLoop(z, peer, rb, col, Min(tiles, z.cols - col));
  }

  method Drain(z: Shape, word: nat) returns (ws: seq<Work>)
    requires ShapeOk(z)
    ensures ws == Announced(z, word)
  {
    TilesPositive(z);
    ws := DrainFrom(z, FirstOf(word), UnpackTiles(word));
  }

  // ----- what the sender announces

  /** Columns before chunk `i`. */
  function ColOf(z: Shape, i: nat): nat { Pair(i, z.chunk, 0) }

  /** The tiles of chunks i .. i + k of a row; only the last of a row may be short. */
  function GroupTiles(z: Shape, i: nat, k: nat): nat
    requires ShapeOk(z) && k > 0
  {
    var left := z.cols - ColOf(z, i + k - 1);
    ColOf(z, k - 1) + if left < 0 then 0 else Min(z.chunk, left)
  }

  lemma ColDigits(z: Shape, i: nat)
    requires ShapeOk(z) && i < PerRow(z)
    ensures ColOf(z, i) < z.cols && ColOf(z, i) / z.chunk == i
    ensures TilesAt(z, ColOf(z, i)) == Min(z.chunk, z.cols - ColOf(z, i)) > 0
    ensures i + 1 < PerRow(z) ==> TilesAt(z, ColOf(z, i)) == z.chunk && ColOf(z, i + 1) == ColOf(z, i) + z.chunk
  {
    CeilBelow(i, z.cols, z.chunk);
    CeilBelow(i + 1, z.cols, z.chunk);
    PairDigits(i, z.chunk, 0);
    assert Pair(i + 1, z.chunk, 0) == Pair(i, z.chunk, 0) + z.chunk;
  }

  lemma GroupSplit(z: Shape, i: nat, k: nat)
    requires ShapeOk(z) && k > 1 && i + k <= PerRow(z)
    ensures GroupTiles(z, i, k) == z.chunk + GroupTiles(z, i + 1, k - 1)
  {
    assert Pair(k - 1, z.chunk, 0) == Pair(k - 2, z.chunk, 0) + z.chunk;
  }

  /** Draining the word of a group of k consecutive chunks of a row yields exactly these k
      chunks of that sender, in order.
   */
  lemma {:induction false} GroupCovered(z: Shape, peer: nat, rb: nat, i: nat, k: nat)
    requires ShapeOk(z) && k > 0 && i + k <= PerRow(z)
    ensures Covered(z, peer, rb, ColOf(z, i), GroupTiles(z, i, k))
            == seq(k, j requires 0 <= j < k => Work(peer, Pair(rb, PerRow(z), i + j)))
    decreases k
  {
    ColDigits(z, i);
    if k == 1 {
      assert GroupTiles(z, i, 1) == TilesAt(z, ColOf(z, i));
      assert Covered(z, peer, rb, ColOf(z, i) + GroupTiles(z, i, 1), 0) == [];
    } else {
      GroupSplit(z, i, k);
      GroupCovered(z, peer, rb, i + 1, k - 1);
    }
  }

  lemma GroupFits(z: Shape, i: nat, k: nat)
    requires ShapeOk(z) && k > 0 && i + k <= PerRow(z)
    ensures 1 <= GroupTiles(z, i, k) <= z.cols - ColOf(z, i)
  {
    ColDigits(z, i + k - 1);
    assert Pair(i + k - 1, z.chunk, 0) == Pair(i, z.chunk, 0) + Pair(k - 1, z.chunk, 0);
  }

  /** The tile a sender announces for row block `rb` and chunk `i` in slot `peer`. */
  function FirstTile(z: Shape, peer: nat, rb: nat, i: nat): nat {
    Pair(peer, Pair(z.rows, z.cols, 0), Pair(rb, z.cols, ColOf(z, i)))
  }

  lemma TileDigits(z: Shape, peer: nat, rb: nat, col: nat)
    requires ShapeOk(z) && rb < z.rows && col < z.cols && Pair(z.rows, z.cols, 0) > 0
    ensures var t := Pair(peer, Pair(z.rows, z.cols, 0), Pair(rb, z.cols, col));
            PeerOf(z, t) == peer && RowOf(z, t) == rb && ColumnOf(z, t) == col
  {
    PairBelow(rb, z.rows, z.cols, col);
    PairDigits(peer, Pair(z.rows, z.cols, 0), Pair(rb, z.cols, col));
    PairDigits(rb, z.cols, col);
  }

  /** The word a sender announces k consecutive chunks of a row with. */
  function GroupWord(z: Shape, peer: nat, rb: nat, i: nat, k: nat): nat
    requires ShapeOk(z) && k > 0
  {
    Pack(FirstTile(z, peer, rb, i), GroupTiles(z, i, k))
  }

  lemma Unpacked(first: nat, tiles: nat)
    requires first + 1 < FIELD && 1 <= tiles <= 256
    ensures Pack(first, tiles) != 0
    ensures FirstOf(Pack(first, tiles)) == first && UnpackTiles(Pack(first, tiles)) == tiles
  {
    PackRoundTripIff(first, tiles);
  }

  lemma GroupCoveredFrom(z: Shape, peer: nat, rb: nat, i: nat, k: nat)
    requires ShapeOk(z) && Pair(z.rows, z.cols, 0) > 0 && rb < z.rows && k > 0 && i + k <= PerRow(z)
    ensures CoveredFrom(z, FirstTile(z, peer, rb, i), GroupTiles(z, i, k))
            == Covered(z, peer, rb, ColOf(z, i), GroupTiles(z, i, k))
  {
    ColDigits(z, i);
    TileDigits(z, peer, rb, ColOf(z, i));
    GroupFits(z, i, k);
  }

  /** From sender to drainer: what a sender announces for a group of chunks is what the
      receiver's drainer takes out of the word, whenever the word can hold it.
   */
  lemma GroupAnnounced(z: Shape, peer: nat, rb: nat, i: nat, k: nat)
    requires ShapeOk(z) && rb < z.rows && k > 0 && i + k <= PerRow(z)
    requires FirstTile(z, peer, rb, i) + 1 < FIELD && GroupTiles(z, i, k) <= 256
    ensures GroupWord(z, peer, rb, i, k) != 0
    ensures Announced(z, GroupWord(z, peer, rb, i, k))
            == seq(k, j requires 0 <= j < k => Work(peer, Pair(rb, PerRow(z), i + j)))
  {
    TilesPositive(z);
    GroupFits(z, i, k);
    Unpacked(FirstTile(z, peer, rb, i), GroupTiles(z, i, k));
    GroupCoveredFrom(z, peer, rb, i, k);
    GroupCovered(z, peer, rb, i, k);
  }

  // ----- the tiles of all senders together

  /** Chunk `i` of row block `rb` from the sender in slot `peer` writes tile `t` of the receiver. */
  predicate Writes(z: Shape, peer: nat, rb: nat, i: nat, t: nat)
    requires ShapeOk(z)
  {
    rb < z.rows && i < PerRow(z) && FirstTile(z, peer, rb, i) <= t < FirstTile(z, peer, rb, i) + GroupTiles(z, i, 1)
  }

  lemma WriterIs(z: Shape, peer: nat, rb: nat, i: nat, t: nat)
    requires ShapeOk(z) && Pair(z.rows, z.cols, 0) > 0 && Writes(z, peer, rb, i, t)
    ensures PeerOf(z, t) == peer && RowOf(z, t) == rb && ColumnOf(z, t) / z.chunk == i
  {
    ColDigits(z, i);
    var j := t - FirstTile(z, peer, rb, i);
    TileDigits(z, peer, rb, ColOf(z, i) + j);
    PairDigits(i, z.chunk, j);
  }

  lemma WriterOf(z: Shape, t: nat) returns (peer: nat, rb: nat, i: nat)
    requires ShapeOk(z)
    ensures Writes(z, peer, rb, i, t) && Pair(z.rows, z.cols, 0) > 0 && peer == t / Pair(z.rows, z.cols, 0)
  {
    var per := Pair(z.rows, z.cols, 0);
    Multiple(z.rows, z.cols);
    DigitsPair(t, per);
    var rest := t % per;
    QuotientBelow(rest, z.rows, z.cols);
    DigitsPair(rest, z.cols);
    var col := rest % z.cols;
    DigitsPair(col, z.chunk);
    peer, rb, i := t / per, rest / z.cols, col / z.chunk;
    CeilBelow(i, z.cols, z.chunk);
    ColDigits(z, i);
  }

  /** Every tile of a receiver's buffer is written by exactly one chunk of one sender. */
  lemma EveryTileOnce(z: Shape, peers: nat, t: nat) returns (peer: nat, rb: nat, i: nat)
    requires ShapeOk(z) && t < peers * Pair(z.rows, z.cols, 0)
    ensures peer < peers && Writes(z, peer, rb, i, t)
    ensures forall peer': nat, rb': nat, i': nat :: Writes(z, peer', rb', i', t) ==> peer' == peer && rb' == rb && i' == i
  {
    TilesPositive(z);
    peer, rb, i := WriterOf(z, t);
    QuotientBelow(t, peers, Pair(z.rows, z.cols, 0));
    WriterIs(z, peer, rb, i, t);
    forall peer': nat, rb': nat, i': nat | Writes(z, peer', rb', i', t)
      ensures peer' == peer && rb' == rb && i' == i
    {
      WriterIs(z, peer', rb', i', t);
    }
  }
}
