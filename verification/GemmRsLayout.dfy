/** The index arithmetic of gemm_rs: which task computes which tile, which tiles form a
    chunk, and which bit of which send CTA's bitmap stands for a chunk.
 */
module GemmRsLayout {
  import opened Arith
  import opened GemmRsSend

  /** `rows` row blocks per device slice and `cols` column blocks, cut into chunks of up to
      `chunkTiles` tiles of one row block.
   */
  datatype Grid = Grid(devices: nat, ctas: nat, senders: nat, rows: nat, cols: nat, chunkTiles: nat)

  ghost predicate GridOk(g: Grid) {
    g.devices > 0 && g.ctas > 0 && g.senders > 0 && g.cols > 0 && g.chunkTiles > 0
  }

  datatype Cell = Cell(row: nat, col: nat)

  function PerRow(g: Grid): nat
    requires GridOk(g)
  {
    CeilDiv(g.cols, g.chunkTiles)
  }

  // ----- tasks and tiles

  function Rotate(k: nat, d: nat, n: nat): nat
    requires n > 0
  {
    (k + d) % n
  }

  /** Each device starts a round with its own slice. */
  function TileOf(g: Grid, d: nat, t: nat): Cell
    requires GridOk(g)
  {
    var perRound := g.devices * g.cols;
    var round, within := t / perRound, t % perRound;
    Cell(Pair(Rotate(within / g.cols, d, g.devices), g.rows, round), within % g.cols)
  }

  /** Rotation by `d` is undone by rotation by n - d. */
  lemma RotateBack(k: nat, d: nat, n: nat)
    requires k < n && d <= n
    ensures Rotate(k, d, n) < n && Rotate(Rotate(k, d, n), n - d, n) == k
  {
    if k + d < n {
      DivIs(k + d, n, 0, k + d);
      DivIs(k + n, n, 1, k);
    } else if k + d < n + n {
      DivIs(k + d, n, 1, k + d - n);
      DivIs(k, n, 0, k);
    }
  }

  /** The task that is the `k`-th slice's in its round. */
  function TaskAt(g: Grid, round: nat, k: nat, col: nat): nat {
    Pair(round, g.devices * g.cols, Pair(k, g.cols, col))
  }

  lemma TaskBelow(g: Grid, round: nat, k: nat, col: nat)
    requires round < g.rows && k < g.devices && col < g.cols
    ensures TaskAt(g, round, k, col) < g.devices * g.rows * g.cols
  {
    PairBelow(k, g.devices, g.cols, col);
    PairBelow(round, g.rows, g.devices * g.cols, Pair(k, g.cols, col));
    assert g.rows * (g.devices * g.cols) == g.devices * g.rows * g.cols;
  }

  lemma TileOfDigits(g: Grid, d: nat, round: nat, k: nat, col: nat)
    requires GridOk(g) && k < g.devices && col < g.cols
    ensures TileOf(g, d, TaskAt(g, round, k, col)) == Cell(Pair(Rotate(k, d, g.devices), g.rows, round), col)
  {
    PairBelow(k, g.devices, g.cols, col);
    PairDigits(round, g.devices * g.cols, Pair(k, g.cols, col));
    PairDigits(k, g.cols, col);
  }

  lemma TaskDigits(g: Grid, t: nat) returns (round: nat, k: nat, col: nat)
    requires GridOk(g) && t < g.devices * g.rows * g.cols
    ensures round < g.rows && k < g.devices && col < g.cols && t == TaskAt(g, round, k, col)
  {
    assert g.rows * (g.devices * g.cols) == g.devices * g.rows * g.cols;
    round, k, col := ThreeDigits(t, g.rows, g.devices, g.cols);
  }

  // ----- chunks

  function ChunkOf(g: Grid, d: nat, t: nat): nat
    requires GridOk(g)
  {
    var x := TileOf(g, d, t);
    Pair(x.row, PerRow(g), x.col / g.chunkTiles)
  }

  /** The number of tiles of the `i`-th chunk of a row. */
  function TilesIn(cols: nat, chunkTiles: nat, i: nat): nat {
    var left := cols - i * chunkTiles;
    if left < 0 then 0 else if chunkTiles < left then chunkTiles else left
  }

  function TilesOf(g: Grid, c: nat): nat
    requires GridOk(g) && PerRow(g) > 0
  {
    TilesIn(g.cols, g.chunkTiles, c % PerRow(g))
  }

  lemma PerRowPositive(g: Grid)
    requires GridOk(g)
    ensures PerRow(g) > 0
  {
    CeilBelow(0, g.cols, g.chunkTiles);
  }

  /** The task of device `d` for the `j`-th tile of chunk `i` of a row block. */
  function TaskIn(g: Grid, d: nat, slice: nat, round: nat, i: nat, j: nat): nat
    requires d <= g.devices && g.devices > 0
  {
    TaskAt(g, round, Rotate(slice, g.devices - d, g.devices), Pair(i, g.chunkTiles, j))
  }

  lemma TaskInChunk(g: Grid, d: nat, slice: nat, round: nat, i: nat, j: nat)
    requires GridOk(g) && d < g.devices && slice < g.devices && round < g.rows
    requires j < TilesIn(g.cols, g.chunkTiles, i)
    ensures var t := TaskIn(g, d, slice, round, i, j);
            && t < g.devices * g.rows * g.cols
            && TileOf(g, d, t).col == Pair(i, g.chunkTiles, j)
            && ChunkOf(g, d, t) == Pair(Pair(slice, g.rows, round), PerRow(g), i)
  {
    var k := Rotate(slice, g.devices - d, g.devices);
    RotateBack(slice, g.devices - d, g.devices);
    TaskBelow(g, round, k, Pair(i, g.chunkTiles, j));
    TileOfDigits(g, d, round, k, Pair(i, g.chunkTiles, j));
    PairDigits(i, g.chunkTiles, j);
  }

  lemma ChunkOfTask(g: Grid, d: nat, t: nat) returns (slice: nat, round: nat, i: nat, j: nat)
    requires GridOk(g) && d < g.devices && t < g.devices * g.rows * g.cols
    ensures slice < g.devices && round < g.rows && i < PerRow(g) && j < TilesIn(g.cols, g.chunkTiles, i)
    ensures t == TaskIn(g, d, slice, round, i, j)
    ensures ChunkOf(g, d, t) == Pair(Pair(slice, g.rows, round), PerRow(g), i)
  {
    var k, col;
    round, k, col := TaskDigits(g, t);
    TileOfDigits(g, d, round, k, col);
    slice := Rotate(k, d, g.devices);
    RotateBack(k, d, g.devices);
    i, j := col / g.chunkTiles, col % g.chunkTiles;
    DigitsPair(col, g.chunkTiles);
    CeilBelow(i, g.cols, g.chunkTiles);
  }

  /** The slice, row block and position of a chunk. */
  lemma ChunkDigits(g: Grid, c: nat) returns (slice: nat, round: nat, i: nat)
    requires GridOk(g) && PerRow(g) > 0 && c < g.devices * g.rows * PerRow(g)
    ensures slice < g.devices && round < g.rows && i < PerRow(g)
    ensures c == Pair(Pair(slice, g.rows, round), PerRow(g), i)
    ensures c % PerRow(g) == i && c / PerRow(g) == Pair(slice, g.rows, round)
    ensures c / PerRow(g) / g.rows == slice && c / PerRow(g) % g.rows == round
  {
    DigitsPair(c, PerRow(g));
    QuotientBelow(c, g.devices * g.rows, PerRow(g));
    var row := c / PerRow(g);
    DigitsPair(row, g.rows);
    QuotientBelow(row, g.devices, g.rows);
    slice, round, i := row / g.rows, row % g.rows, c % PerRow(g);
  }

  lemma ChunkBelow(g: Grid, slice: nat, round: nat, i: nat)
    requires GridOk(g) && slice < g.devices && round < g.rows && i < PerRow(g)
    ensures Pair(Pair(slice, g.rows, round), PerRow(g), i) < g.devices * g.rows * PerRow(g)
  {
    PairBelow(slice, g.devices, g.rows, round);
    PairBelow(Pair(slice, g.rows, round), g.devices * g.rows, PerRow(g), i);
  }

  // ----- bits

  /** The row blocks of send CTA `sid`. */
  function RowsOf(rows: nat, senders: nat, sid: nat): nat
    requires senders > 0
  {
    if sid < rows then CeilDiv(rows - sid, senders) else 0
  }

  /** What send CTA `sid` has to post: its row blocks times the chunks of a row. */
  function Quota(g: Grid, sid: nat): nat
    requires GridOk(g)
  {
    Pair(RowsOf(g.rows, g.senders, sid), PerRow(g), 0)
  }

  function Words(g: Grid): nat
    requires GridOk(g)
  {
    CeilDiv(Pair(CeilDiv(g.rows, g.senders), PerRow(g), 0), WORD_BITS)
  }

  /** Position `idx` of a queue. */
  function PositionOf(dev: nat, sid: nat, idx: nat): Place {
    Place(Word(dev, sid, idx / WORD_BITS), idx % WORD_BITS)
  }

  lemma PositionIndex(dev: nat, sid: nat, idx: nat)
    ensures IndexOf(PositionOf(dev, sid, idx)) == idx && PositionOf(dev, sid, idx).bit < WORD_BITS
  {
  }

  lemma IndexPosition(a: Place)
    requires a.bit < WORD_BITS
    ensures PositionOf(a.word.dev, a.word.sid, IndexOf(a)) == a
  {
  }

  /** Where the compute side raises the bit of chunk `c`. */
  function PlaceOf(g: Grid, c: nat): Place
    requires GridOk(g) && PerRow(g) > 0
  {
    if g.rows == 0 then PositionOf(0, 0, 0) else
    var row := c / PerRow(g);
    var local := row % g.rows;
    PositionOf(row / g.rows, local % g.senders, Pair(local / g.senders, PerRow(g), c % PerRow(g)))
  }

  /** What the send side takes a bit to be. */
  function ChunkAt(g: Grid, a: Place): nat
    requires GridOk(g) && PerRow(g) > 0
  {
    var rb := Pair(IndexOf(a) / PerRow(g), g.senders, a.word.sid);
    Pair(Pair(a.word.dev, g.rows, rb), PerRow(g), IndexOf(a) % PerRow(g))
  }

  predicate ValidIn(g: Grid, a: Place)
    requires GridOk(g)
  {
    && a.word.dev < g.devices && a.word.sid < g.senders && a.word.w < Words(g)
    && a.bit < WORD_BITS && IndexOf(a) < Quota(g, a.word.sid)
  }

  /** The k-th row block of send CTA `sid` is sid + k * senders, as long as that exists. */
  lemma OwnedRows(rows: nat, senders: nat, sid: nat, k: nat)
    requires sid < senders
    ensures k < RowsOf(rows, senders, sid) <==> Pair(k, senders, sid) < rows
    ensures k < RowsOf(rows, senders, sid) ==> k < CeilDiv(rows, senders)
  {
    CeilBelow(k, rows, senders);
    if sid < rows {
      CeilBelow(k, rows - sid, senders);
    } else {
      assert k * senders >= 0;
    }
  }

  /** Queue positions and owned row blocks match. */
  lemma QueueRows(rows: nat, senders: nat, sid: nat, n: nat, k: nat, i: nat)
    requires sid < senders && i < n
    ensures Pair(k, n, i) < Pair(RowsOf(rows, senders, sid), n, 0) <==> Pair(k, senders, sid) < rows
    ensures Pair(k, senders, sid) < rows ==> Pair(k, n, i) < Pair(CeilDiv(rows, senders), n, 0)
  {
    OwnedRows(rows, senders, sid, k);
    PairOrder(k, RowsOf(rows, senders, sid), n, i, 0);
    PairOrder(k, CeilDiv(rows, senders), n, i, 0);
  }

  /** The position of chunk `i` of the k-th row block of a send CTA. */
  lemma PositionValid(g: Grid, dev: nat, sid: nat, k: nat, i: nat)
    requires GridOk(g) && dev < g.devices && sid < g.senders && i < PerRow(g)
    ensures Pair(k, PerRow(g), i) < Quota(g, sid) <==> Pair(k, g.senders, sid) < g.rows
    ensures Pair(k, g.senders, sid) < g.rows ==> ValidIn(g, PositionOf(dev, sid, Pair(k, PerRow(g), i)))
  {
    var idx := Pair(k, PerRow(g), i);
    QueueRows(g.rows, g.senders, sid, PerRow(g), k, i);
    PositionIndex(dev, sid, idx);
    CeilBelow(idx / WORD_BITS, Pair(CeilDiv(g.rows, g.senders), PerRow(g), 0), WORD_BITS);
  }

  lemma PlaceOfDigits(g: Grid, dev: nat, sid: nat, k: nat, i: nat)
    requires GridOk(g) && PerRow(g) > 0 && sid < g.senders && i < PerRow(g) && Pair(k, g.senders, sid) < g.rows
    ensures PlaceOf(g, Pair(Pair(dev, g.rows, Pair(k, g.senders, sid)), PerRow(g), i))
            == PositionOf(dev, sid, Pair(k, PerRow(g), i))
  {
    var rb := Pair(k, g.senders, sid);
    PairDigits(Pair(dev, g.rows, rb), PerRow(g), i);
    PairDigits(dev, g.rows, rb);
    PairDigits(k, g.senders, sid);
  }

  lemma ChunkAtDigits(g: Grid, dev: nat, sid: nat, k: nat, i: nat)
    requires GridOk(g) && i < PerRow(g)
    ensures ChunkAt(g, PositionOf(dev, sid, Pair(k, PerRow(g), i)))
            == Pair(Pair(dev, g.rows, Pair(k, g.senders, sid)), PerRow(g), i)
  {
    PositionIndex(dev, sid, Pair(k, PerRow(g), i));
    PairDigits(k, PerRow(g), i);
  }

  /** The bit raised for a chunk is within a queue, and the send CTA takes it for that chunk. */
  lemma PlaceRoundTrip(g: Grid, c: nat)
    requires GridOk(g) && PerRow(g) > 0 && c < g.devices * g.rows * PerRow(g)
    ensures ValidIn(g, PlaceOf(g, c))
    ensures ChunkAt(g, PlaceOf(g, c)) == c
  {
    var dev, local, i := ChunkDigits(g, c);
    var sid, k := local % g.senders, local / g.senders;
    DigitsPair(local, g.senders);
    PlaceOfDigits(g, dev, sid, k, i);
    PositionValid(g, dev, sid, k, i);
    ChunkAtDigits(g, dev, sid, k, i);
  }

  lemma PositionRoundTrip(g: Grid, dev: nat, sid: nat, k: nat, i: nat)
    requires GridOk(g) && dev < g.devices && sid < g.senders && i < PerRow(g) && Pair(k, PerRow(g), i) < Quota(g, sid)
    ensures var a := PositionOf(dev, sid, Pair(k, PerRow(g), i));
            ChunkAt(g, a) < g.devices * g.rows * PerRow(g) && PlaceOf(g, ChunkAt(g, a)) == a
  {
    PositionValid(g, dev, sid, k, i);
    ChunkAtDigits(g, dev, sid, k, i);
    PlaceOfDigits(g, dev, sid, k, i);
    ChunkBelow(g, dev, Pair(k, g.senders, sid), i);
  }

  /** Every bit within a queue is the bit of the chunk the send CTA takes it for. */
  lemma ChunkRoundTrip(g: Grid, a: Place)
    requires GridOk(g) && PerRow(g) > 0 && ValidIn(g, a)
    ensures ChunkAt(g, a) < g.devices * g.rows * PerRow(g)
    ensures PlaceOf(g, ChunkAt(g, a)) == a
  {
    DigitsPair(IndexOf(a), PerRow(g));
    IndexPosition(a);
    PositionRoundTrip(g, a.word.dev, a.word.sid, IndexOf(a) / PerRow(g), IndexOf(a) % PerRow(g));
  }

  // ----- the plan

  function GridPlan(g: Grid): Plan
    requires GridOk(g) && PerRow(g) > 0
  {
    Plan(g.devices, g.ctas, g.senders, g.devices * g.rows * g.cols, g.devices * g.rows * PerRow(g), Words(g),
         (t: nat) => t % g.ctas,
         (d: nat, t: nat) => ChunkOf(g, d, t),
         (c: nat) => TilesOf(g, c),
         (c: nat) => PlaceOf(g, c),
         a => ChunkAt(g, a),
         (sid: nat) => Quota(g, sid))
  }

  /** A chunk has as many tasks on each device as it has tiles. */
  lemma TasksOfChunk(g: Grid, d: nat, c: nat)
    requires GridOk(g) && PerRow(g) > 0 && d < g.devices && c < g.devices * g.rows * PerRow(g)
    ensures |TasksOf(GridPlan(g), d, c)| == TilesOf(g, c) > 0
  {
    var slice, round, i := ChunkDigits(g, c);
    CeilBelow(i, g.cols, g.chunkTiles);
    var s := TasksOf(GridPlan(g), d, c);
    var f := (j: nat) => TaskIn(g, d, slice, round, i, j);
    forall j | 0 <= j < TilesOf(g, c)
      ensures f(j) in s && TileOf(g, d, f(j)).col == Pair(i, g.chunkTiles, j)
    {
      TaskInChunk(g, d, slice, round, i, j);
    }
    forall t | t in s
      ensures exists j :: 0 <= j < TilesOf(g, c) && f(j) == t
    {
      var slice', round', i', j' := ChunkOfTask(g, d, t);
      PairInjective(Pair(slice, g.rows, round), PerRow(g), i, Pair(slice', g.rows, round'), i');
      PairInjective(slice, g.rows, round, slice', round');
      assert f(j') == t;
    }
    EnumeratedSize(f, TilesOf(g, c), s);
  }

  lemma PlanTiles(g: Grid)
    requires GridOk(g) && PerRow(g) > 0
    ensures TilesOk(GridPlan(g))
  {
    var p := GridPlan(g);
    forall d, t | 0 <= d < p.devices && 0 <= t < p.tasks
      ensures p.chunkOf(d, t) < p.chunks
    {
      var slice, round, i, j := ChunkOfTask(g, d, t);
      ChunkBelow(g, slice, round, i);
    }
    forall d, c | 0 <= d < p.devices && 0 <= c < p.chunks
      ensures |TasksOf(p, d, c)| == p.tilesOf(c) > 0
    {
      TasksOfChunk(g, d, c);
    }
  }

  lemma QueueEntry(g: Grid, a: At, idx: nat)
    requires GridOk(g) && PerRow(g) > 0 && a.dev < g.devices && a.id < g.senders && idx < Quota(g, a.id)
    ensures var c := ChunkAt(g, PositionOf(a.dev, a.id, idx));
            c in QueueOf(GridPlan(g), a) && IndexOf(PlaceOf(g, c)) == idx
  {
    DigitsPair(idx, PerRow(g));
    PositionRoundTrip(g, a.dev, a.id, idx / PerRow(g), idx % PerRow(g));
    PositionIndex(a.dev, a.id, idx);
  }

  lemma QueueIndex(g: Grid, a: At, c: nat)
    requires GridOk(g) && PerRow(g) > 0 && c in QueueOf(GridPlan(g), a)
    ensures IndexOf(PlaceOf(g, c)) < Quota(g, a.id)
    ensures ChunkAt(g, PositionOf(a.dev, a.id, IndexOf(PlaceOf(g, c)))) == c
  {
    PlaceRoundTrip(g, c);
    IndexPosition(PlaceOf(g, c));
  }

  lemma QueueSize(g: Grid, a: At)
    requires GridOk(g) && PerRow(g) > 0 && a.dev < g.devices && a.id < g.senders
    ensures |QueueOf(GridPlan(g), a)| == Quota(g, a.id)
  {
    var s := QueueOf(GridPlan(g), a);
    var f := (idx: nat) => ChunkAt(g, PositionOf(a.dev, a.id, idx));
    forall idx | 0 <= idx < Quota(g, a.id)
      ensures f(idx) in s && IndexOf(PlaceOf(g, f(idx))) == idx
    {
      QueueEntry(g, a, idx);
    }
    forall c | c in s
      ensures exists idx :: 0 <= idx < Quota(g, a.id) && f(idx) == c
    {
      QueueIndex(g, a, c);
      assert f(IndexOf(PlaceOf(g, c))) == c;
    }
    EnumeratedSize(f, Quota(g, a.id), s);
  }

  lemma PlanPlaces(g: Grid)
    requires GridOk(g) && PerRow(g) > 0
    ensures PlacesOk(GridPlan(g))
  {
    var p := GridPlan(g);
    forall c | 0 <= c < p.chunks
      ensures ValidPlace(p, p.place(c)) && p.chunkAt(p.place(c)) == c
    {
      PlaceRoundTrip(g, c);
    }
    forall a | ValidPlace(p, a)
      ensures p.chunkAt(a) < p.chunks && p.place(p.chunkAt(a)) == a
    {
      ChunkRoundTrip(g, a);
    }
    forall d, i | 0 <= d < p.devices && 0 <= i < p.senders
      ensures |QueueOf(p, At(d, i))| == p.quota(i)
    {
      QueueSize(g, At(d, i));
    }
  }

  /** The schedule of gemm_rs meets everything the hand-over protocol relies on, for every
      grid: bits and chunks correspond one to one and each queue is exactly as long as its
      send CTA's loop.
   */
  lemma GridPlanOk(g: Grid)
    requires GridOk(g)
    ensures PerRow(g) > 0 && PlanOk(GridPlan(g))
  {
    PerRowPositive(g);
    ModStrides(g.ctas);
    assert GridPlan(g).lane == ((t: nat) => t % g.ctas);
    PlanTiles(g);
    PlanPlaces(g);
  }

  /** When all send CTAs of all devices have left their loops, every chunk has been posted. */
  lemma AllPosted(g: Grid, run: seq<State>, n: nat)
    requires GridOk(g) && PerRow(g) > 0 && IsRun(GridPlan(g), run) && n < |run|
    requires forall a {:trigger run[n].out.send[a]} :: a in run[n].out.send ==> run[n].out.send[a].Finished?
    ensures run[n].out.sent == Below(g.devices * g.rows * PerRow(g))
  {
    var p, o := GridPlan(g), run[n].out;
    RunGood(p, run, n);
    forall c: nat | c < p.chunks
      ensures c in o.sent
    {
      PlaceRoundTrip(g, c);
      var a := SenderOf(p.place(c));
      assert a in o.send && o.send[a].Finished?;
      FinishedMeansAllSent(p, run, n, a);
      assert c in QueueOf(p, a);
    }
  }

  // ----- bitmap addresses

  /** The bitmap words start after the per-chunk counts. */
  function WordAddress(g: Grid, x: Word): nat
    requires GridOk(g)
  {
    Pair(Pair(g.devices, g.rows, 0), PerRow(g), Pair(x.sid, Words(g), x.w))
  }

  /** Words of a device never share an address with each other or with a chunk's count. */
  lemma WordAddressesDistinct(g: Grid, x: Word, y: Word, c: nat)
    requires GridOk(g) && x.dev == y.dev && x.w < Words(g) && y.w < Words(g)
    requires c < g.devices * g.rows * PerRow(g)
    ensures WordAddress(g, x) == WordAddress(g, y) ==> x == y
    ensures c < WordAddress(g, x)
  {
    PairDigits(x.sid, Words(g), x.w);
    PairDigits(y.sid, Words(g), y.w);
  }
}
