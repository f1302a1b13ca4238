/** The attention arithmetic of ring_attention for one query row and one output column, in
    exact reals: the running-maximum loop over key blocks, and the merge of ring stages by
    their log-sum-exp.
 */
module Softmax {

  /** A key's raw score against the query, and its value. */
  datatype Key = Key(score: real, value: real)

  /** The elementary functions and constants used; `scale` is the softmax scale. */
  datatype Fns = Fns(exp2: real -> real, exp: real -> real, ln: real -> real, log2e: real, ln2: real, scale: real)

  // ----- what is known about the elementary functions

  function InBase2(f: Fns, x: real): real { x * f.log2e }

  ghost predicate AddLaw(f: Fns, x: real, y: real) {
    f.exp2(x + y) == f.exp2(x) * f.exp2(y)
  }

  ghost predicate Laws(f: Fns) {
    && (forall x :: f.exp2(x) > 0.0)
    && (forall x, y :: AddLaw(f, x, y))
    && (forall x :: f.exp(x) == f.exp2(InBase2(f, x)))
    && (forall x :: f.ln(f.exp(x)) == x)
    && (forall y :: y > 0.0 ==> f.exp(f.ln(y)) == y)
    && f.log2e * f.ln2 == 1.0
  }

  // ----- the plain definition

  /** A score as it enters the softmax. */
  function Logit(f: Fns, score: real): real { score * f.scale }

  function Weight(f: Fns, k: Key): real {
    f.exp(Logit(f, k.score))
  }

  /** The sum of all weights, */
  function WeightSum(f: Fns, ks: seq<Key>): real {
    if ks == [] then 0.0 else WeightSum(f, ks[..|ks| - 1]) + Weight(f, ks[|ks| - 1])
  }

  /** of all weighted values, */
  function ValueSum(f: Fns, ks: seq<Key>): real {
    if ks == [] then 0.0 else ValueSum(f, ks[..|ks| - 1]) + Weight(f, ks[|ks| - 1]) * ks[|ks| - 1].value
  }

  /** and the softmax-weighted average with its log-sum-exp. */
  datatype Att = Att(o: real, l: real)

  ghost predicate IsSoftmax(f: Fns, ks: seq<Key>, a: Att) {
    && WeightSum(f, ks) > 0.0
    && a.o == ValueSum(f, ks) / WeightSum(f, ks)
    && a.l == f.ln(WeightSum(f, ks))
  }

  function Flatten<T>(xs: seq<seq<T>>): seq<T> {
    if xs == [] then [] else Flatten(xs[..|xs| - 1]) + xs[|xs| - 1]
  }

  // ----- sums

  lemma {:induction false} SumsOfConcat(f: Fns, a: seq<Key>, b: seq<Key>)
    ensures WeightSum(f, a + b) == WeightSum(f, a) + WeightSum(f, b)
    ensures ValueSum(f, a + b) == ValueSum(f, a) + ValueSum(f, b)
  {
    if b == [] {
      assert a + b == a;
    } else {
      SumsOfConcat(f, a, b[..|b| - 1]);
      assert (a + b)[..|a + b| - 1] == a + b[..|b| - 1];
    }
  }

  lemma {:induction false} WeightsPositive(f: Fns, ks: seq<Key>)
    requires Laws(f)
    ensures WeightSum(f, ks) >= 0.0
    ensures ks != [] ==> WeightSum(f, ks) > 0.0
  {
    if ks == [] {
    } else {
      WeightsPositive(f, ks[..|ks| - 1]);
    }
  }

  lemma ExpSum(f: Fns, x: real, y: real, z: real)
    requires Laws(f) && x + y == z
    ensures f.exp2(z) == f.exp2(x) * f.exp2(y)
  {
    assert AddLaw(f, x, y);
  }

  lemma Combine(x: real, y: real, e: real)
    ensures x * e + y * e == (x + y) * e
  {
  }

  // ----- the code's block sums

  /** What a raw score contributes to the base-two exponent. */
  function Scaled(f: Fns, x: real): real {
    x * (f.log2e * f.scale)
  }

  /** `row_max` over a block, starting from `m`. */
  function MaxOf(m: real, b: seq<Key>): (r: real)
    ensures r >= m && forall i :: 0 <= i < |b| ==> r >= b[i].score
    ensures r == m || exists i :: 0 <= i < |b| && r == b[i].score
  {
    if b == [] then m
    else
      var r := MaxOf(m, b[..|b| - 1]);
      assert forall i :: 0 <= i < |b| - 1 ==> b[..|b| - 1][i] == b[i];
      if r >= b[|b| - 1].score then r else b[|b| - 1].score
  }

  /** The weight of a key relative to a maximum `m`, and the sums of these. */
  function Relative(f: Fns, m: real, k: Key): real {
    f.exp2(Scaled(f, k.score) - Scaled(f, m))
  }

  function BlockSum(f: Fns, m: real, b: seq<Key>): real {
    if b == [] then 0.0 else BlockSum(f, m, b[..|b| - 1]) + Relative(f, m, b[|b| - 1])
  }

  function BlockOut(f: Fns, m: real, b: seq<Key>): real {
    if b == [] then 0.0 else BlockOut(f, m, b[..|b| - 1]) + Relative(f, m, b[|b| - 1]) * b[|b| - 1].value
  }

  lemma {:induction false} BlocksOfConcat(f: Fns, m: real, a: seq<Key>, b: seq<Key>)
    ensures BlockSum(f, m, a + b) == BlockSum(f, m, a) + BlockSum(f, m, b)
    ensures BlockOut(f, m, a + b) == BlockOut(f, m, a) + BlockOut(f, m, b)
  {
    if b == [] {
      assert a + b == a;
    } else {
      BlocksOfConcat(f, m, a, b[..|b| - 1]);
      assert (a + b)[..|a + b| - 1] == a + b[..|b| - 1];
    }
  }

  lemma RelativeShift(f: Fns, m: real, m': real, k: Key)
    requires Laws(f)
    ensures Relative(f, m', k) == Relative(f, m, k) * f.exp2(Scaled(f, m) - Scaled(f, m'))
  {
    ExpSum(f, Scaled(f, k.score) - Scaled(f, m), Scaled(f, m) - Scaled(f, m'), Scaled(f, k.score) - Scaled(f, m'));
  }

  lemma ScaleStep(o: real, w: real, v: real, e: real)
    ensures (o + w * v) * e == o * e + (w * e) * v
  {
  }

  /** A larger maximum shrinks every sum by the same factor. */
  lemma {:induction false} BlockSumShift(f: Fns, m: real, m': real, ks: seq<Key>)
    requires Laws(f)
    ensures BlockSum(f, m', ks) == BlockSum(f, m, ks) * f.exp2(Scaled(f, m) - Scaled(f, m'))
  {
    if ks == [] {
    } else {
      var a, k := ks[..|ks| - 1], ks[|ks| - 1];
      BlockSumShift(f, m, m', a);
      RelativeShift(f, m, m', k);
      Combine(BlockSum(f, m, a), Relative(f, m, k), f.exp2(Scaled(f, m) - Scaled(f, m')));
    }
  }

  lemma {:induction false} BlockOutShift(f: Fns, m: real, m': real, ks: seq<Key>)
    requires Laws(f)
    ensures BlockOut(f, m', ks) == BlockOut(f, m, ks) * f.exp2(Scaled(f, m) - Scaled(f, m'))
  {
    if ks == [] {
    } else {
      var a, k := ks[..|ks| - 1], ks[|ks| - 1];
      BlockOutShift(f, m, m', a);
      RelativeShift(f, m, m', k);
      ScaleStep(BlockOut(f, m, a), Relative(f, m, k), k.value, f.exp2(Scaled(f, m) - Scaled(f, m')));
    }
  }

  // ----- the running-maximum loop

  /** Sums over the keys seen, scaled down by the running maximum; before the first block the
      maximum is minus infinity.
   */
  datatype Running = Fresh | Running(max: real, norm: real, out: real)

  function StepBlock(f: Fns, r: Running, b: seq<Key>): Running
    requires b != []
  {
    match r
    case Fresh =>
      var m := MaxOf(b[0].score, b);
      Running(m, BlockSum(f, m, b), BlockOut(f, m, b))
    case Running(last, norm, out) =>
      var m := MaxOf(last, b);
      var shrink := f.exp2(Scaled(f, last) - Scaled(f, m));
      Running(m, norm * shrink + BlockSum(f, m, b), out * shrink + BlockOut(f, m, b))
  }

  ghost predicate Seen(f: Fns, r: Running, ks: seq<Key>) {
    match r
    case Fresh => ks == []
    case Running(m, norm, out) =>
      && ks != [] && (forall i :: 0 <= i < |ks| ==> m >= ks[i].score)
      && norm == BlockSum(f, m, ks)
      && out == BlockOut(f, m, ks)
  }

  lemma StepMax(f: Fns, r: Running, ks: seq<Key>, b: seq<Key>)
    requires b != [] && (r.Fresh? ==> ks == []) && (r.Running? ==> forall i :: 0 <= i < |ks| ==> r.max >= ks[i].score)
    ensures forall i :: 0 <= i < |ks + b| ==> StepBlock(f, r, b).max >= (ks + b)[i].score
  {
  }

  lemma StepSums(f: Fns, r: Running, ks: seq<Key>, b: seq<Key>)
    requires Laws(f) && b != [] && (r.Fresh? ==> ks == [])
    requires r.Running? ==> r.norm == BlockSum(f, r.max, ks) && r.out == BlockOut(f, r.max, ks)
    ensures var r' := StepBlock(f, r, b);
            && r'.norm == BlockSum(f, r'.max, ks) + BlockSum(f, r'.max, b)
            && r'.out == BlockOut(f, r'.max, ks) + BlockOut(f, r'.max, b)
  {
    if r.Running? {
      BlockSumShift(f, r.max, StepBlock(f, r, b).max, ks);
      BlockOutShift(f, r.max, StepBlock(f, r, b).max, ks);
    }
  }

  /** One block: rescaling by the change of the maximum keeps the sums right, and no exponent
      is ever positive.
   */
  lemma StepBlockSeen(f: Fns, r: Running, ks: seq<Key>, b: seq<Key>)
    requires Laws(f) && Seen(f, r, ks) && b != []
    ensures Seen(f, StepBlock(f, r, b), ks + b)
  {
    StepSums(f, r, ks, b);
    StepMax(f, r, ks, b);
    BlocksOfConcat(f, StepBlock(f, r, b).max, ks, b);
  }

  // ----- closing a stage

  /** The closing division and logarithm. */
  function Close(f: Fns, r: Running): Att
    requires r.Running? && r.norm != 0.0
  {
    Att(r.out / r.norm, f.ln(r.norm) + Scaled(f, r.max) * f.ln2)
  }

  lemma LogitInBase2(f: Fns, x: real)
    ensures InBase2(f, Logit(f, x)) == Scaled(f, x)
  {
    assert x * f.scale * f.log2e == x * (f.log2e * f.scale);
  }

  lemma RelativeIs(f: Fns, m: real, k: Key)
    requires Laws(f)
    ensures Relative(f, m, k) == Weight(f, k) * f.exp2(-Scaled(f, m))
  {
    ExpSum(f, Scaled(f, k.score), -Scaled(f, m), Scaled(f, k.score) - Scaled(f, m));
    LogitInBase2(f, k.score);
  }

  lemma {:induction false} BlockSumIs(f: Fns, m: real, ks: seq<Key>)
    requires Laws(f)
    ensures BlockSum(f, m, ks) == WeightSum(f, ks) * f.exp2(-Scaled(f, m))
  {
    if ks == [] {
    } else {
      var a, k := ks[..|ks| - 1], ks[|ks| - 1];
      BlockSumIs(f, m, a);
      RelativeIs(f, m, k);
      Combine(WeightSum(f, a), Weight(f, k), f.exp2(-Scaled(f, m)));
    }
  }

  lemma {:induction false} BlockOutIs(f: Fns, m: real, ks: seq<Key>)
    requires Laws(f)
    ensures BlockOut(f, m, ks) == ValueSum(f, ks) * f.exp2(-Scaled(f, m))
  {
    if ks == [] {
    } else {
      var a, k := ks[..|ks| - 1], ks[|ks| - 1];
      BlockOutIs(f, m, a);
      RelativeIs(f, m, k);
      ScaleStep(ValueSum(f, a), Weight(f, k), k.value, f.exp2(-Scaled(f, m)));
    }
  }

  lemma QuotientIs(q: real, y: real, x: real)
    requires y > 0.0 && q * y == x
    ensures x / y == q
  {
  }

  lemma QuotientOfScaled(s: real, z: real, e: real)
    requires z > 0.0 && e > 0.0
    ensures z * e > 0.0 && (s * e) / (z * e) == s / z
  {
    var q := s / z;
    assert q * z == s;
    assert q * (z * e) == s * e;
    QuotientIs(q, z * e, s * e);
  }

  lemma LogOf(f: Fns, y: real, x: real)
    requires Laws(f) && y == f.exp(x)
    ensures f.ln(y) == x
  {
    assert f.ln(f.exp(x)) == x;
  }

  lemma LogOfScaled(f: Fns, z: real, m: real, y: real)
    requires Laws(f) && z > 0.0 && y == z * f.exp2(-Scaled(f, m))
    ensures f.ln(y) == f.ln(z) - Logit(f, m)
  {
    var l, x := f.ln(z), f.ln(z) - Logit(f, m);
    LogitInBase2(f, m);
    assert InBase2(f, x) == InBase2(f, l) - InBase2(f, Logit(f, m));
    ExpSum(f, InBase2(f, l), -Scaled(f, m), InBase2(f, x));
    assert f.exp(l) == z;
    LogOf(f, y, x);
  }

  lemma ScaledBack(f: Fns, m: real)
    requires f.log2e * f.ln2 == 1.0
    ensures Scaled(f, m) * f.ln2 == Logit(f, m)
  {
    assert Scaled(f, m) * f.ln2 == m * f.scale * (f.log2e * f.ln2);
  }

  lemma CloseOf(f: Fns, s: real, z: real, r: Running)
    requires Laws(f) && z > 0.0 && r.Running?
    requires r.norm == z * f.exp2(-Scaled(f, r.max)) && r.out == s * f.exp2(-Scaled(f, r.max))
    ensures r.norm > 0.0 && Close(f, r) == Att(s / z, f.ln(z))
  {
    QuotientOfScaled(s, z, f.exp2(-Scaled(f, r.max)));
    LogOfScaled(f, z, r.max, r.norm);
    ScaledBack(f, r.max);
  }

  /** The closing division and logarithm give the softmax of the keys seen. */
  lemma CloseIsSoftmax(f: Fns, r: Running, ks: seq<Key>)
    requires Laws(f) && Seen(f, r, ks) && ks != []
    ensures r.norm > 0.0 && IsSoftmax(f, ks, Close(f, r))
  {
    WeightsPositive(f, ks);
    BlockSumIs(f, r.max, ks);
    BlockOutIs(f, r.max, ks);
    CloseOf(f, ValueSum(f, ks), WeightSum(f, ks), r);
  }

  /** One stage over its key blocks. */
  method AttnPartial(f: Fns, blocks: seq<seq<Key>>) returns (a: Att)
    requires Laws(f) && blocks != [] && forall i :: 0 <= i < |blocks| ==> blocks[i] != []
    ensures IsSoftmax(f, Flatten(blocks), a)
  {
    var r := Fresh;
    var i := 0;
    while i < |blocks|
      invariant 0 <= i <= |blocks|
      invariant Seen(f, r, Flatten(blocks[..i]))
      invariant i > 0 ==> Flatten(blocks[..i]) != []
    {
      StepBlockSeen(f, r, Flatten(blocks[..i]), blocks[i]);
      assert blocks[..i + 1][..i] == blocks[..i];
      r := StepBlock(f, r, blocks[i]);
      i := i + 1;
    }
    assert blocks[..i] == blocks;
    CloseIsSoftmax(f, r, Flatten(blocks));
    a := Close(f, r);
  }

  // ----- merging stages

  /** Fold one stage into the result so far, as both the fused and the separate reduction do. */
  function Merge(f: Fns, prev: Att, stage: Att): Att {
    var l := f.ln(f.exp(stage.l - prev.l) + 1.0) + prev.l;
    Att(f.exp(prev.l - l) * prev.o + f.exp(stage.l - l) * stage.o, l)
  }

  lemma ExpOfDifference(f: Fns, x: real, y: real)
    requires Laws(f) && x > 0.0 && y > 0.0
    ensures f.exp(f.ln(x) - f.ln(y)) == x / y
  {
    var a, b := f.ln(x), f.ln(y);
    Combine(a - b, b, f.log2e);
    ExpSum(f, InBase2(f, a - b), InBase2(f, b), InBase2(f, a));
    assert f.exp(a) == x && f.exp(b) == y;
    QuotientIs(f.exp(a - b), y, x);
  }

  lemma OnePlusQuotient(x: real, y: real)
    requires x > 0.0
    ensures (x + y) / x == y / x + 1.0
  {
    QuotientIs(y / x + 1.0, x, x + y);
  }

  /** The merged log-sum-exp is that of the sum. */
  lemma MergedLog(f: Fns, x: real, y: real)
    requires Laws(f) && x > 0.0 && y > 0.0
    ensures f.ln(f.exp(f.ln(y) - f.ln(x)) + 1.0) + f.ln(x) == f.ln(x + y)
  {
    ExpOfDifference(f, y, x);
    ExpOfDifference(f, x + y, x);
    OnePlusQuotient(x, y);
    assert f.ln(f.exp(f.ln(x + y) - f.ln(x))) == f.ln(x + y) - f.ln(x);
  }

  lemma WeightedMean(z: real, s: real, w: real)
    requires z > 0.0 && w > 0.0
    ensures z / w * (s / z) == s / w
  {
    var q, r := s / z, z / w;
    assert q * z == s && r * w == z;
    assert r * q * w == q * (r * w);
    QuotientIs(r * q, w, s);
  }

  lemma AddQuotients(a: real, b: real, w: real)
    requires w > 0.0
    ensures a / w + b / w == (a + b) / w
  {
    Combine(a / w, b / w, w);
    QuotientIs(a / w + b / w, w, a + b);
  }

  lemma MeansOfSum(z1: real, s1: real, z2: real, s2: real)
    requires z1 > 0.0 && z2 > 0.0
    ensures z1 / (z1 + z2) * (s1 / z1) + z2 / (z1 + z2) * (s2 / z2) == (s1 + s2) / (z1 + z2)
  {
    WeightedMean(z1, s1, z1 + z2);
    WeightedMean(z2, s2, z1 + z2);
    AddQuotients(s1, s2, z1 + z2);
  }

  lemma MergeOf(f: Fns, z1: real, s1: real, z2: real, s2: real)
    requires Laws(f) && z1 > 0.0 && z2 > 0.0
    ensures Merge(f, Att(s1 / z1, f.ln(z1)), Att(s2 / z2, f.ln(z2))) == Att((s1 + s2) / (z1 + z2), f.ln(z1 + z2))
  {
    MergedLog(f, z1, z2);
    ExpOfDifference(f, z1, z1 + z2);
    ExpOfDifference(f, z2, z1 + z2);
    MeansOfSum(z1, s1, z2, s2);
  }

  /** Merging gives the softmax over both sets of keys. */
  lemma MergeIsSoftmax(f: Fns, ks: seq<Key>, prev: Att, js: seq<Key>, stage: Att)
    requires Laws(f) && IsSoftmax(f, ks, prev) && IsSoftmax(f, js, stage)
    ensures IsSoftmax(f, ks + js, Merge(f, prev, stage))
  {
    SumsOfConcat(f, ks, js);
    MergeOf(f, WeightSum(f, ks), ValueSum(f, ks), WeightSum(f, js), ValueSum(f, js));
  }

  lemma FlattenOne<T>(x: seq<T>)
    ensures Flatten([x]) == x
  {
    assert [x][..0] == [];
  }

  lemma {:induction false} FlattenConcat<T>(xs: seq<seq<T>>, ys: seq<seq<T>>)
    ensures Flatten(xs + ys) == Flatten(xs) + Flatten(ys)
  {
    if ys == [] {
      assert xs + ys == xs;
    } else {
      FlattenConcat(xs, ys[..|ys| - 1]);
      assert (xs + ys)[..|xs + ys| - 1] == xs + ys[..|ys| - 1];
    }
  }

  /** All ring stages: whatever the split of the keys into stages and blocks, the result is the
      plain softmax average over all keys and its log-sum-exp.
   */
  method RingAttention(f: Fns, stages: seq<seq<seq<Key>>>) returns (a: Att)
    requires Laws(f) && stages != []
    requires forall i :: 0 <= i < |stages| ==> stages[i] != [] && forall j :: 0 <= j < |stages[i]| ==> stages[i][j] != []
    ensures IsSoftmax(f, Flatten(Flatten(stages)), a)
  {
    a := AttnPartial(f, stages[0]);
    FlattenOne(stages[0]);
    assert stages[..1] == [stages[0]];
    var i := 1;
    while i < |stages|
      invariant 1 <= i <= |stages|
      invariant IsSoftmax(f, Flatten(Flatten(stages[..i])), a)
    {
      var s := AttnPartial(f, stages[i]);
      MergeIsSoftmax(f, Flatten(Flatten(stages[..i])), a, Flatten(stages[i]), s);
      assert stages[..i + 1][..i] == stages[..i];
      FlattenConcat(Flatten(stages[..i]), stages[i]);
      a := Merge(f, a, s);
      i := i + 1;
    }
    assert stages[..i] == stages;
  }
}
