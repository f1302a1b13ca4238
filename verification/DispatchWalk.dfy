/** The two-pass walk of dispatch_gemm over experts: all experts' purely local row blocks in
    the first pass, the remaining ones in the second.  Dispatch workers take 16-token slices
    this way, GEMM workers take output tiles; both walk `width` items per row block.
 */
module DispatchWalk {
  import opened Arith

  const ROW_BLOCK := 128

  /** A padded number of rows, and how many of its row blocks are purely local. */
  datatype Expert = Expert(padded: nat, local: nat)

  ghost predicate ExpertsOk(es: seq<Expert>) {
    forall e :: 0 <= e < |es| ==> es[e].padded % ROW_BLOCK == 0 && es[e].local * ROW_BLOCK <= es[e].padded
  }

  // ----- what the host computes

  /** Rows of an expert, rounded up to whole row blocks, and its purely local row blocks. */
  function ExpertOf(tokens: nat, localTokens: nat): Expert {
    Expert((tokens + ROW_BLOCK - 1) / ROW_BLOCK * ROW_BLOCK, localTokens / ROW_BLOCK)
  }

  /** The host's counts meet what the walk relies on, and a row of a purely local block really
      holds one of the local tokens, which come first; the next block is not purely local.
   */
  lemma HostCountsFit(tokens: nat, localTokens: nat, row: nat)
    requires localTokens <= tokens
    ensures ExpertsOk([ExpertOf(tokens, localTokens)])
    ensures tokens <= ExpertOf(tokens, localTokens).padded < tokens + ROW_BLOCK
    ensures row < ExpertOf(tokens, localTokens).local * ROW_BLOCK ==> row < localTokens
    ensures localTokens < (ExpertOf(tokens, localTokens).local + 1) * ROW_BLOCK
  {
    assert (tokens + ROW_BLOCK - 1) / ROW_BLOCK * ROW_BLOCK % ROW_BLOCK == 0;
  }

  // ----- the list of a pass

  /** The first row block of expert `e`. */
  function StartOf(es: seq<Expert>, e: nat): nat
    requires e <= |es|
  {
    if e == 0 then 0 else StartOf(es, e - 1) + es[e - 1].padded / ROW_BLOCK
  }

  /** Row blocks of an expert in a pass: where they start and how many there are. */
  function SegStart(es: seq<Expert>, pass: nat, e: nat): nat
    requires e < |es|
  {
    StartOf(es, e) + if pass == 0 then 0 else es[e].local
  }

  function SegBlocks(x: Expert, pass: nat): nat {
    if pass == 0 then x.local else if x.local <= x.padded / ROW_BLOCK then x.padded / ROW_BLOCK - x.local else 0
  }

  function Interval(a: nat, n: nat): (s: seq<nat>)
    ensures |s| == n && forall k :: 0 <= k < n ==> s[k] == a + k
  {
    seq(n, k requires 0 <= k < n => a + k)
  }

  /** All items of the first `e` experts in a pass. */
  function PassList(es: seq<Expert>, pass: nat, width: nat, e: nat): seq<nat>
    requires e <= |es|
  {
    if e == 0 then []
    else PassList(es, pass, width, e - 1)
         + Interval(Pair(SegStart(es, pass, e - 1), width, 0), Pair(SegBlocks(es[e - 1], pass), width, 0))
  }

  /** Every `stride`-th item from position `i` on. */
  function Pick(list: seq<nat>, i: nat, stride: nat): seq<nat>
    requires stride > 0
    decreases if i < |list| then |list| - i else 0
  {
    if i >= |list| then [] else [list[i]] + Pick(list, i + stride, stride)
  }

  /** What worker `i` of `stride` handles, in order. */
  function Walked(es: seq<Expert>, width: nat, i: nat, stride: nat): seq<nat>
    requires stride > 0
  {
    Pick(PassList(es, 0, width, |es|), i, stride) + Pick(PassList(es, 1, width, |es|), i, stride)
  }

  // ----- the loops

  lemma {:induction false} PassPrefix(es: seq<Expert>, pass: nat, width: nat, d: nat, e: nat)
    requires d <= e <= |es|
    ensures |PassList(es, pass, width, d)| <= |PassList(es, pass, width, e)|
    ensures forall k :: 0 <= k < |PassList(es, pass, width, d)| ==>
              PassList(es, pass, width, e)[k] == PassList(es, pass, width, d)[k]
  {
    if d == e {
    } else {
      PassPrefix(es, pass, width, d, e - 1);
    }
  }

  /** The item at place `task` of an expert's segment. */
  lemma SegmentAt(es: seq<Expert>, pass: nat, width: nat, e: nat, task: nat)
    requires e < |es| && task < Pair(SegBlocks(es[e], pass), width, 0)
    ensures var before := |PassList(es, pass, width, e)|;
            && before + task < |PassList(es, pass, width, |es|)|
            && PassList(es, pass, width, |es|)[before + task] == Pair(SegStart(es, pass, e), width, task)
  {
    var before := |PassList(es, pass, width, e)|;
    PassPrefix(es, pass, width, e + 1, |es|);
    assert PassList(es, pass, width, e + 1)[before + task] == Pair(SegStart(es, pass, e), width, 0) + task;
  }

  /** The item a task of a segment stands for, as the loop computes it. */
  function ItemOf(offset: nat, width: nat, task: nat): nat
    requires width > 0
  {
    Pair(offset + task / width, width, task % width)
  }

  lemma ItemIs(offset: nat, width: nat, task: nat)
    requires width > 0
    ensures ItemOf(offset, width, task) == Pair(offset, width, task)
  {
    DigitsPair(task, width);
  }

  /** The rounding in the loop is exact: experts start at whole row blocks. */
  lemma {:induction false} WholeBlocks(es: seq<Expert>, e: nat, cum: nat)
    requires ExpertsOk(es) && e < |es| && cum == StartOf(es, e) * ROW_BLOCK
    ensures cum / ROW_BLOCK == StartOf(es, e)
    ensures cum + es[e].padded == StartOf(es, e + 1) * ROW_BLOCK
    ensures (cum + es[e].padded + ROW_BLOCK - 1) / ROW_BLOCK == StartOf(es, e + 1)
    ensures es[e].local <= es[e].padded / ROW_BLOCK
  {
  }

  /** The part of the walk over one expert's segment. */
  method WalkSegment(es: seq<Expert>, pass: nat, width: nat, e: nat, offset: nat, blocks: nat, start: nat, stride: nat)
      returns (out: seq<nat>, task: nat)
    requires width > 0 && stride > 0 && e < |es|
    requires offset == SegStart(es, pass, e) && blocks == SegBlocks(es[e], pass)
    ensures task >= Pair(blocks, width, 0)
    ensures var list, before := PassList(es, pass, width, |es|), |PassList(es, pass, width, e)|;
            Pick(list, before + start, stride) == out + Pick(list, before + task, stride)
  {
    ghost var list, before := PassList(es, pass, width, |es|), |PassList(es, pass, width, e)|;
    out := [];
    var end := Pair(blocks, width, 0);
    task := start;
    while task < end
      invariant Pick(list, before + start, stride) == out + Pick(list, before + task, stride)
    {
      SegmentAt(es, pass, width, e, task);
      ItemIs(offset, width, task);
      out := out + [ItemOf(offset, width, task)];
      task := task + stride;
    }
  }

  /** Where expert `e`'s row blocks of a pass start and how many they are, from the rows before. */
  method Segment(es: seq<Expert>, pass: nat, e: nat, before: nat) returns (offset: nat, blocks: nat, cum: nat)
    requires ExpertsOk(es) && e < |es| && before == StartOf(es, e) * ROW_BLOCK
    ensures offset == SegStart(es, pass, e) && blocks == SegBlocks(es[e], pass)
    ensures cum == StartOf(es, e + 1) * ROW_BLOCK
  {
    WholeBlocks(es, e, before);
    var rbStart := before / ROW_BLOCK;
    cum := before + es[e].padded;
    var rbEnd := (cum + ROW_BLOCK - 1) / ROW_BLOCK;
    offset := if pass == 0 then rbStart else rbStart + es[e].local;
    blocks := if pass == 0 then es[e].local else rbEnd - rbStart - es[e].local;
  }

  method WalkPass(es: seq<Expert>, pass: nat, width: nat, start: nat, stride: nat) returns (out: seq<nat>)
    requires ExpertsOk(es) && pass < 2 && width > 0 && stride > 0
    ensures out == Pick(PassList(es, pass, width, |es|), start, stride)
  {
    ghost var list := PassList(es, pass, width, |es|);
    out := [];
    var task: nat, cum: nat := start, 0;
    for e := 0 to |es|
      invariant cum == StartOf(es, e) * ROW_BLOCK
      invariant Pick(list, start, stride) == out + Pick(list, |PassList(es, pass, width, e)| + task, stride)
    {
      var offset, blocks;
      offset, blocks, cum := Segment(es, pass, e, cum);
      var part;
      part, task := WalkSegment(es, pass, width, e, offset, blocks, task, stride);
      out := out + part;
      task := task - Pair(blocks, width, 0);
    }
  }

  method TwoPassWalk(es: seq<Expert>, width: nat, start: nat, stride: nat) returns (out: seq<nat>)
    requires ExpertsOk(es) && width > 0 && stride > 0
    ensures out == Walked(es, width, start, stride)
  {
    out := WalkPass(es, 0, width, start, stride);
    var rest := WalkPass(es, 1, width, start, stride);
    out := out + rest;
  }

  // ----- every item is in the lists once

  lemma SplitBlocks(start: nat, blocks: nat, local: nat, width: nat)
    requires local <= blocks
    ensures Pair(start + blocks, width, 0) == Pair(start, width, 0) + Pair(local, width, 0) + Pair(blocks - local, width, 0)
    ensures Pair(start + local, width, 0) == Pair(start, width, 0) + Pair(local, width, 0)
  {
  }

  lemma {:induction false} InList(es: seq<Expert>, width: nat, e: nat, x: nat) returns (pass: nat, p: nat)
    requires ExpertsOk(es) && e <= |es| && x < Pair(StartOf(es, e), width, 0)
    ensures pass < 2 && p < |PassList(es, pass, width, e)| && PassList(es, pass, width, e)[p] == x
  {
    assert e > 0;
    if x < Pair(StartOf(es, e - 1), width, 0) {
      pass, p := InList(es, width, e - 1, x);
    } else {
      var y, k := es[e - 1], x - Pair(StartOf(es, e - 1), width, 0);
      WholeBlocks(es, e - 1, StartOf(es, e - 1) * ROW_BLOCK);
      SplitBlocks(StartOf(es, e - 1), y.padded / ROW_BLOCK, y.local, width);
      if k < Pair(y.local, width, 0) {
        pass, p := 0, |PassList(es, 0, width, e - 1)| + k;
      } else {
        pass, p := 1, |PassList(es, 1, width, e - 1)| + k - Pair(y.local, width, 0);
      }
    }
  }

  /** Where the items of a list lie: the first experts' below those of the last one. */
  lemma {:induction false} ListBelow(es: seq<Expert>, pass: nat, width: nat, e: nat, p: nat)
    requires ExpertsOk(es) && e <= |es| && p < |PassList(es, pass, width, e)|
    ensures PassList(es, pass, width, e)[p] < Pair(StartOf(es, e), width, 0)
  {
    if e == 0 {
    } else {
      var before, y := |PassList(es, pass, width, e - 1)|, es[e - 1];
      WholeBlocks(es, e - 1, StartOf(es, e - 1) * ROW_BLOCK);
      SplitBlocks(StartOf(es, e - 1), y.padded / ROW_BLOCK, y.local, width);
      if p < before {
        ListBelow(es, pass, width, e - 1, p);
      }
    }
  }

  lemma {:induction false} ListsDisjoint(es: seq<Expert>, width: nat, e: nat, pass: nat, p: nat, pass': nat, p': nat)
    requires ExpertsOk(es) && e <= |es| && pass < 2 && pass' < 2
    requires p < |PassList(es, pass, width, e)| && p' < |PassList(es, pass', width, e)|
    requires PassList(es, pass, width, e)[p] == PassList(es, pass', width, e)[p']
    ensures pass == pass' && p == p'
  {
    if e == 0 {
    } else {
      var b, b' := |PassList(es, pass, width, e - 1)|, |PassList(es, pass', width, e - 1)|;
      var y := es[e - 1];
      WholeBlocks(es, e - 1, StartOf(es, e - 1) * ROW_BLOCK);
      SplitBlocks(StartOf(es, e - 1), y.padded / ROW_BLOCK, y.local, width);
      if p < b { ListBelow(es, pass, width, e - 1, p); }
      if p' < b' { ListBelow(es, pass', width, e - 1, p'); }
      if p < b && p' < b' {
        ListsDisjoint(es, width, e - 1, pass, p, pass', p');
      }
    }
  }

  // ----- striding

  lemma {:induction false} PickAt(list: seq<nat>, i: nat, stride: nat, k: nat)
    requires stride > 0
    ensures k < |Pick(list, i, stride)| <==> Pair(k, stride, i) < |list|
    ensures k < |Pick(list, i, stride)| ==> Pick(list, i, stride)[k] == list[Pair(k, stride, i)]
    decreases k
  {
    assert Pair(k, stride, i) >= i;
    if i >= |list| || k == 0 {
    } else {
      PickAt(list, i + stride, stride, k - 1);
      assert Pair(k - 1, stride, i + stride) == Pair(k, stride, i);
    }
  }

  // ----- main results

  ghost predicate Somewhere(lists: seq<seq<nat>>, x: nat) {
    exists i, k :: 0 <= i < |lists| && 0 <= k < |lists[i]| && lists[i][k] == x
  }

  /** Every number below `total` is in exactly one place of the lists, and nothing else is. */
  ghost predicate OnceEach(lists: seq<seq<nat>>, total: nat) {
    && (forall i, k :: 0 <= i < |lists| && 0 <= k < |lists[i]| ==> lists[i][k] < total)
    && (forall i, k, j, l ::
          0 <= i < |lists| && 0 <= k < |lists[i]| && 0 <= j < |lists| && 0 <= l < |lists[j]| && lists[i][k] == lists[j][l] ==>
            i == j && k == l)
    && (forall x :: 0 <= x < total ==> Somewhere(lists, x))
  }

  /** The lists of all workers. */
  function AllWalks(es: seq<Expert>, width: nat, stride: nat): (lists: seq<seq<nat>>)
    requires stride > 0
    ensures |lists| == stride && forall i :: 0 <= i < stride ==> lists[i] == Walked(es, width, i, stride)
  {
    seq(stride, i requires 0 <= i < stride => Walked(es, width, i, stride))
  }

  /** Place k of worker `i`'s walk, as a pass and a position in that pass. */
  lemma WalkedAt(es: seq<Expert>, width: nat, i: nat, stride: nat, k: nat) returns (pass: nat, p: nat)
    requires stride > 0 && i < stride && k < |Walked(es, width, i, stride)|
    ensures pass < 2 && p < |PassList(es, pass, width, |es|)| && p % stride == i
    ensures Walked(es, width, i, stride)[k] == PassList(es, pass, width, |es|)[p]
    ensures k == p / stride + if pass == 0 then 0 else |Pick(PassList(es, 0, width, |es|), i, stride)|
  {
    var first := |Pick(PassList(es, 0, width, |es|), i, stride)|;
    if k < first {
      pass, p := 0, Pair(k, stride, i);
      PickAt(PassList(es, 0, width, |es|), i, stride, k);
      PairDigits(k, stride, i);
    } else {
      pass, p := 1, Pair(k - first, stride, i);
      PickAt(PassList(es, 1, width, |es|), i, stride, k - first);
      PairDigits(k - first, stride, i);
    }
  }

  lemma PlaceInWalk(es: seq<Expert>, width: nat, stride: nat, pass: nat, p: nat) returns (i: nat, k: nat)
    requires stride > 0 && pass < 2 && p < |PassList(es, pass, width, |es|)|
    ensures i < stride && k < |Walked(es, width, i, stride)|
    ensures Walked(es, width, i, stride)[k] == PassList(es, pass, width, |es|)[p]
  {
    i, k := p % stride, p / stride;
    DigitsPair(p, stride);
    PickAt(PassList(es, pass, width, |es|), i, stride, k);
    if pass == 1 {
      k := k + |Pick(PassList(es, 0, width, |es|), i, stride)|;
    }
  }

  /** Over all workers, the two-pass walk visits every item of every row block exactly once. */
  lemma WalksCoverAll(es: seq<Expert>, width: nat, stride: nat)
    requires ExpertsOk(es) && stride > 0
    ensures OnceEach(AllWalks(es, width, stride), Pair(StartOf(es, |es|), width, 0))
  {
    var lists, total := AllWalks(es, width, stride), Pair(StartOf(es, |es|), width, 0);
    forall i, k | 0 <= i < |lists| && 0 <= k < |lists[i]|
      ensures lists[i][k] < total
    {
      var pass, p := WalkedAt(es, width, i, stride, k);
      ListBelow(es, pass, width, |es|, p);
    }
    forall i, k, j, l | 0 <= i < |lists| && 0 <= k < |lists[i]| && 0 <= j < |lists| && 0 <= l < |lists[j]|
                        && lists[i][k] == lists[j][l]
      ensures i == j && k == l
    {
      var pass, p := WalkedAt(es, width, i, stride, k);
      var pass', p' := WalkedAt(es, width, j, stride, l);
      ListsDisjoint(es, width, |es|, pass, p, pass', p');
    }
    forall x | 0 <= x < total
      ensures Somewhere(lists, x)
    {
      var pass, p := InList(es, width, |es|, x);
      var i, k := PlaceInWalk(es, width, stride, pass, p);
      assert lists[i][k] == x;
    }
  }
}
