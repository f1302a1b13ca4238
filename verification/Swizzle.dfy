/** The compute schedule of ag_gemm: tasks walk this node's shard first and then the others,
    each shard in bands of SUPER_M row blocks taken column by column, with a shorter last band.
 */
module Swizzle {
  import opened Arith

  const SUPER_M := 12

  /** `rows` row blocks per node shard, `cols` column blocks. */
  datatype Grid = Grid(nodes: nat, node: nat, rows: nat, cols: nat, ctas: nat)

  ghost predicate GridOk(g: Grid) {
    g.node < g.nodes && g.rows > 0 && g.cols > 0 && g.ctas > 0
  }

  datatype Cell = Cell(row: nat, col: nat)

  function SuperRows(rows: nat): nat { rows / SUPER_M * SUPER_M }

  // ----- one shard

  function DecodeBand(cols: nat, flat: nat): Cell
    requires cols > 0
  {
    var superBlocks := SUPER_M * cols;
    Cell(Pair(flat / superBlocks, SUPER_M, flat % SUPER_M), flat % superBlocks / SUPER_M)
  }

  function DecodeTail(base: nat, finalRows: nat, rem: nat): Cell {
    var safe := if finalRows > 0 then finalRows else 1;
    Cell(base + rem % safe, rem / safe)
  }

  function Decode(rows: nat, cols: nat, flat: nat): Cell
    requires cols > 0
  {
    var limit := Pair(SuperRows(rows), cols, 0);
    if flat < limit then DecodeBand(cols, flat)
    else DecodeTail(SuperRows(rows), rows - SuperRows(rows), flat - limit)
  }

  /** The place of a cell in the walk. */
  function Encode(rows: nat, cols: nat, x: Cell): nat {
    var base := SuperRows(rows);
    if x.row < base then Pair(x.row / SUPER_M, SUPER_M * cols, Pair(x.col, SUPER_M, x.row % SUPER_M))
    else Pair(base, cols, Pair(x.col, rows - base, x.row - base))
  }

  predicate InShard(rows: nat, cols: nat, x: Cell) {
    x.row < rows && x.col < cols
  }

  lemma BandDigits(cols: nat, band: nat, col: nat, r: nat)
    requires col < cols && r < SUPER_M
    ensures DecodeBand(cols, Pair(band, SUPER_M * cols, Pair(col, SUPER_M, r))) == Cell(Pair(band, SUPER_M, r), col)
  {
    var flat := Pair(band, SUPER_M * cols, Pair(col, SUPER_M, r));
    PairBelow(col, cols, SUPER_M, r);
    PairDigits(band, SUPER_M * cols, Pair(col, SUPER_M, r));
    PairDigits(col, SUPER_M, r);
    assert flat == Pair(band * cols + col, SUPER_M, r);
    PairDigits(band * cols + col, SUPER_M, r);
  }

  lemma BandLimit(rows: nat, cols: nat, band: nat, col: nat, r: nat)
    requires band < rows / SUPER_M && col < cols && r < SUPER_M
    ensures Pair(band, SUPER_M * cols, Pair(col, SUPER_M, r)) < Pair(SuperRows(rows), cols, 0)
    ensures Pair(band, SUPER_M, r) < SuperRows(rows)
  {
    PairBelow(col, cols, SUPER_M, r);
    PairBelow(band, rows / SUPER_M, SUPER_M * cols, Pair(col, SUPER_M, r));
    assert rows / SUPER_M * (SUPER_M * cols) == Pair(SuperRows(rows), cols, 0);
    PairBelow(band, rows / SUPER_M, SUPER_M, r);
  }

  /** A cell in a full band: decoding its place, */
  lemma BandDecode(rows: nat, cols: nat, band: nat, col: nat, r: nat)
    requires band < rows / SUPER_M && col < cols && r < SUPER_M
    ensures Decode(rows, cols, Pair(band, SUPER_M * cols, Pair(col, SUPER_M, r))) == Cell(Pair(band, SUPER_M, r), col)
  {
    BandLimit(rows, cols, band, col, r);
    BandDigits(cols, band, col, r);
  }

  /** and finding it. */
  lemma BandEncode(rows: nat, cols: nat, band: nat, col: nat, r: nat)
    requires band < rows / SUPER_M && col < cols && r < SUPER_M
    ensures Encode(rows, cols, Cell(Pair(band, SUPER_M, r), col)) == Pair(band, SUPER_M * cols, Pair(col, SUPER_M, r))
  {
    BandLimit(rows, cols, band, col, r);
    PairDigits(band, SUPER_M, r);
  }

  /** A cell in the last, shorter band. */
  lemma TailRoundTrip(rows: nat, cols: nat, col: nat, r: nat)
    requires r < rows - SuperRows(rows) && cols > 0
    ensures var flat := Pair(SuperRows(rows), cols, Pair(col, rows - SuperRows(rows), r));
            && Decode(rows, cols, flat) == Cell(SuperRows(rows) + r, col)
            && Encode(rows, cols, Cell(SuperRows(rows) + r, col)) == flat
  {
    PairDigits(col, rows - SuperRows(rows), r);
  }

  lemma TailBelow(rows: nat, cols: nat, col: nat, r: nat)
    requires r < rows - SuperRows(rows) && col < cols
    ensures Pair(SuperRows(rows), cols, Pair(col, rows - SuperRows(rows), r)) < rows * cols
  {
    var base := SuperRows(rows);
    PairBelow(col, cols, rows - base, r);
    assert cols * (rows - base) + base * cols == rows * cols;
  }

  lemma BandBelow(rows: nat, cols: nat)
    ensures Pair(SuperRows(rows), cols, 0) <= rows * cols
  {
    assert rows * cols == SuperRows(rows) * cols + (rows - SuperRows(rows)) * cols;
  }

  /** Every cell has a place in the walk that decodes to it. */
  lemma EncodeDecode(rows: nat, cols: nat, x: Cell)
    requires InShard(rows, cols, x)
    ensures Encode(rows, cols, x) < rows * cols
    ensures Decode(rows, cols, Encode(rows, cols, x)) == x
  {
    if x.row < SuperRows(rows) {
      DigitsPair(x.row, SUPER_M);
      QuotientBelow(x.row, rows / SUPER_M, SUPER_M);
      BandLimit(rows, cols, x.row / SUPER_M, x.col, x.row % SUPER_M);
      BandDecode(rows, cols, x.row / SUPER_M, x.col, x.row % SUPER_M);
      BandEncode(rows, cols, x.row / SUPER_M, x.col, x.row % SUPER_M);
      BandBelow(rows, cols);
    } else {
      TailRoundTrip(rows, cols, x.col, x.row - SuperRows(rows));
      TailBelow(rows, cols, x.col, x.row - SuperRows(rows));
    }
  }

  lemma BandDigitsOf(rows: nat, cols: nat, flat: nat) returns (band: nat, col: nat, r: nat)
    requires cols > 0 && flat < Pair(SuperRows(rows), cols, 0)
    ensures band < rows / SUPER_M && col < cols && r < SUPER_M
    ensures flat == Pair(band, SUPER_M * cols, Pair(col, SUPER_M, r))
  {
    assert Pair(SuperRows(rows), cols, 0) == rows / SUPER_M * (cols * SUPER_M);
    band, col, r := ThreeDigits(flat, rows / SUPER_M, cols, SUPER_M);
  }

  lemma TailDigitsOf(rows: nat, cols: nat, flat: nat) returns (col: nat, r: nat)
    requires cols > 0 && Pair(SuperRows(rows), cols, 0) <= flat < rows * cols
    ensures col < cols && r < rows - SuperRows(rows)
    ensures flat == Pair(SuperRows(rows), cols, Pair(col, rows - SuperRows(rows), r))
  {
    var base := SuperRows(rows);
    var n, rem := rows - base, flat - Pair(base, cols, 0);
    assert cols * n + base * cols == rows * cols;
    assert rem < cols * n;
    assert n > 0;
    QuotientBelow(rem, cols, n);
    DigitsPair(rem, n);
    col, r := rem / n, rem % n;
  }

  /** Every task of the walk is the place of the cell it decodes to. */
  lemma DecodeEncode(rows: nat, cols: nat, flat: nat)
    requires cols > 0 && flat < rows * cols
    ensures InShard(rows, cols, Decode(rows, cols, flat))
    ensures Encode(rows, cols, Decode(rows, cols, flat)) == flat
  {
    if flat < Pair(SuperRows(rows), cols, 0) {
      var band, col, r := BandDigitsOf(rows, cols, flat);
      BandLimit(rows, cols, band, col, r);
      BandDecode(rows, cols, band, col, r);
      BandEncode(rows, cols, band, col, r);
    } else {
      var col, r := TailDigitsOf(rows, cols, flat);
      TailRoundTrip(rows, cols, col, r);
    }
  }

  // ----- all shards

  function ShardRank(g: Grid, step: nat): nat
    requires g.nodes > 0
  {
    (g.node + step) % g.nodes
  }

  /** The step at which a shard is reached. */
  function StepOf(g: Grid, shard: nat): nat
    requires g.node < g.nodes
  {
    if shard >= g.node then shard - g.node else shard + g.nodes - g.node
  }

  lemma ShardRoundTrip(g: Grid, k: nat)
    requires g.node < g.nodes && k < g.nodes
    ensures ShardRank(g, k) < g.nodes && StepOf(g, ShardRank(g, k)) == k
    ensures StepOf(g, k) < g.nodes && ShardRank(g, StepOf(g, k)) == k
    ensures ShardRank(g, k) == g.node <==> k == 0
  {
    DivIs(g.node + k, g.nodes, if g.node + k < g.nodes then 0 else 1, if g.node + k < g.nodes then g.node + k else g.node + k - g.nodes);
    DivIs(g.node + StepOf(g, k), g.nodes, if k >= g.node then 0 else 1, k);
  }

  function Output(g: Grid, step: nat, flat: nat): Cell
    requires GridOk(g)
  {
    var x := Decode(g.rows, g.cols, flat);
    Cell(Pair(ShardRank(g, step), g.rows, x.row), x.col)
  }

  /** The tile of C that a task produces. */
  function OutputOf(g: Grid, t: nat): Cell
    requires GridOk(g)
  {
    var perShard := Pair(g.rows, g.cols, 0);
    Output(g, t / perShard, t % perShard)
  }

  /** The task that produces a tile of C. */
  function TaskOf(g: Grid, x: Cell): nat
    requires GridOk(g)
  {
    Pair(StepOf(g, x.row / g.rows), Pair(g.rows, g.cols, 0), Encode(g.rows, g.cols, Cell(x.row % g.rows, x.col)))
  }

  function Tasks(g: Grid): nat { Pair(g.nodes, Pair(g.rows, g.cols, 0), 0) }

  predicate InOutput(g: Grid, x: Cell) {
    x.row < g.nodes * g.rows && x.col < g.cols
  }

  lemma OutputDigits(g: Grid, step: nat, flat: nat)
    requires GridOk(g) && flat < Pair(g.rows, g.cols, 0)
    ensures OutputOf(g, Pair(step, Pair(g.rows, g.cols, 0), flat)) == Output(g, step, flat)
  {
    PairDigits(step, Pair(g.rows, g.cols, 0), flat);
  }

  /** Every tile of C is produced by some task, */
  lemma TileHasTask(g: Grid, x: Cell)
    requires GridOk(g) && InOutput(g, x)
    ensures TaskOf(g, x) < Tasks(g) && OutputOf(g, TaskOf(g, x)) == x
  {
    var shard, y := x.row / g.rows, Cell(x.row % g.rows, x.col);
    DigitsPair(x.row, g.rows);
    QuotientBelow(x.row, g.nodes, g.rows);
    ShardRoundTrip(g, shard);
    EncodeDecode(g.rows, g.cols, y);
    PairBelow(StepOf(g, shard), g.nodes, Pair(g.rows, g.cols, 0), Encode(g.rows, g.cols, y));
    OutputDigits(g, StepOf(g, shard), Encode(g.rows, g.cols, y));
  }

  /** and by no other. */
  lemma TaskHasTile(g: Grid, t: nat)
    requires GridOk(g) && t < Tasks(g)
    ensures InOutput(g, OutputOf(g, t)) && TaskOf(g, OutputOf(g, t)) == t
  {
    var n := Pair(g.rows, g.cols, 0);
    Multiple(g.rows, g.cols);
    var step, flat := t / n, t % n;
    DigitsPair(t, n);
    QuotientBelow(t, g.nodes, n);
    ShardRoundTrip(g, step);
    DecodeEncode(g.rows, g.cols, flat);
    var x := Decode(g.rows, g.cols, flat);
    PairDigits(ShardRank(g, step), g.rows, x.row);
    PairBelow(ShardRank(g, step), g.nodes, g.rows, x.row);
  }

  // ----- main results

  /** The k-th task of compute CTA `i` gives tile `x` of C. */
  ghost predicate Produces(g: Grid, i: nat, k: nat, x: Cell)
    requires GridOk(g)
  {
    i < g.ctas && Pair(k, g.ctas, i) < Tasks(g) && OutputOf(g, Pair(k, g.ctas, i)) == x
  }

  lemma ProducerIs(g: Grid, i: nat, k: nat, x: Cell)
    requires GridOk(g) && Produces(g, i, k, x)
    ensures Pair(k, g.ctas, i) == TaskOf(g, x)
  {
    TaskHasTile(g, Pair(k, g.ctas, i));
  }

  lemma OneProducer(g: Grid, x: Cell, i: nat, k: nat, i': nat, k': nat)
    requires GridOk(g) && Produces(g, i, k, x) && Produces(g, i', k', x)
    ensures i' == i && k' == k
  {
    ProducerIs(g, i, k, x);
    ProducerIs(g, i', k', x);
    PairInjective(k, g.ctas, i, k', i');
  }

  lemma ProducerOf(g: Grid, x: Cell, t: nat) returns (i: nat, k: nat)
    requires GridOk(g) && t < Tasks(g) && OutputOf(g, t) == x
    ensures Produces(g, i, k, x)
  {
    i, k := t % g.ctas, t / g.ctas;
    DigitsPair(t, g.ctas);
  }

  /** Every tile of C is produced exactly once: there is one CTA and one turn of it whose task
      gives that tile.
   */
  lemma EveryTileOnce(g: Grid, x: Cell) returns (i: nat, k: nat)
    requires GridOk(g) && InOutput(g, x)
    ensures Produces(g, i, k, x)
    ensures forall i': nat, k': nat :: Produces(g, i', k', x) ==> i' == i && k' == k
  {
    TileHasTask(g, x);
    i, k := ProducerOf(g, x, TaskOf(g, x));
    forall i': nat, k': nat | Produces(g, i', k', x)
      ensures i' == i && k' == k
    {
      OneProducer(g, x, i, k, i', k');
    }
  }

  /** The tile comes from this node's own shard. */
  predicate IsLocal(g: Grid, x: Cell)
    requires GridOk(g)
  {
    x.row / g.rows == g.node
  }

  lemma LocalStep(g: Grid, step: nat, flat: nat)
    requires GridOk(g) && step < g.nodes && flat < g.rows * g.cols
    ensures IsLocal(g, Output(g, step, flat)) <==> step == 0
  {
    ShardRoundTrip(g, step);
    DecodeEncode(g.rows, g.cols, flat);
    PairDigits(ShardRank(g, step), g.rows, Decode(g.rows, g.cols, flat).row);
  }

  lemma LocalIff(g: Grid, t: nat)
    requires GridOk(g) && t < Tasks(g)
    ensures IsLocal(g, OutputOf(g, t)) <==> t < Pair(g.rows, g.cols, 0)
  {
    var n := Pair(g.rows, g.cols, 0);
    Multiple(g.rows, g.cols);
    DigitsPair(t, n);
    QuotientBelow(t, g.nodes, n);
    LocalStep(g, t / n, t % n);
    Multiple(t / n, n);
  }

  /** Each CTA takes all its local tiles before any remote one. */
  lemma LocalFirst(g: Grid, i: nat, k: nat, x: Cell, k': nat, x': Cell)
    requires GridOk(g) && Produces(g, i, k, x) && Produces(g, i, k', x')
    requires IsLocal(g, x) && !IsLocal(g, x')
    ensures k < k'
  {
    LocalIff(g, Pair(k, g.ctas, i));
    LocalIff(g, Pair(k', g.ctas, i));
    PairOrder(k, k', g.ctas, i, i);
  }
}
