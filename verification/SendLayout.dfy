/** Where senders write at a receiver: data and arrival flags by sender slot, and, with arrival
    queues, which queue and which slot of it a transfer is announced in.
 */
module SendLayout {
  import opened Arith
  import opened PeerSlots

  // ----- data and arrival flags

  /** `bytes` from each sender, cut into chunks of `chunk` bytes. */
  datatype Load = Load(nodes: nat, bytes: nat, chunk: nat)

  ghost predicate LoadOk(z: Load) {
    z.nodes >= 2 && z.bytes > 0 && z.chunk > 0
  }

  function Chunks(z: Load): nat
    requires LoadOk(z)
  {
    CeilDiv(z.bytes, z.chunk)
  }

  /** The command for chunk `c` of sender `s` to receiver `r`. */
  datatype Cmd = Cmd(offset: nat, bytes: nat, arrival: nat)

  function CmdOf(z: Load, s: nat, r: nat, c: nat): Cmd
    requires LoadOk(z) && s < z.nodes && r < z.nodes && s != r && c < Chunks(z)
  {
    CeilBelow(c, z.bytes, z.chunk);
    SlotsInverse(r, s, z.nodes, 0);
    var slot := SlotAtPeer(s, r, z.nodes);
    var off := Pair(c, z.chunk, 0);
    Cmd(Pair(slot, z.bytes, off), if z.chunk < z.bytes - off then z.chunk else z.bytes - off, Pair(slot, Chunks(z), c))
  }

  predicate Sends(z: Load, s: nat, r: nat, c: nat)
    requires LoadOk(z)
  {
    s < z.nodes && r < z.nodes && s != r && c < Chunks(z)
  }

  /** Chunk `c` of sender `s` writes byte `b` of receiver `r`. */
  predicate Writes(z: Load, s: nat, r: nat, c: nat, b: nat)
    requires LoadOk(z)
  {
    Sends(z, s, r, c) && CmdOf(z, s, r, c).offset <= b < CmdOf(z, s, r, c).offset + CmdOf(z, s, r, c).bytes
  }

  lemma WritesDigits(z: Load, s: nat, r: nat, c: nat, b: nat)
    requires LoadOk(z) && Sends(z, s, r, c)
    ensures 0 <= SlotAtPeer(s, r, z.nodes) < z.nodes - 1
    ensures Writes(z, s, r, c, b) <==> b / z.bytes == SlotAtPeer(s, r, z.nodes) && b % z.bytes / z.chunk == c
  {
    SlotsInverse(r, s, z.nodes, 0);
    CeilBelow(c, z.bytes, z.chunk);
    var slot, off := SlotAtPeer(s, r, z.nodes), Pair(c, z.chunk, 0);
    if Writes(z, s, r, c, b) {
      var rest := b - Pair(slot, z.bytes, 0);
      assert b == Pair(slot, z.bytes, rest);
      PairDigits(slot, z.bytes, rest);
      assert rest == Pair(c, z.chunk, rest - off);
      PairDigits(c, z.chunk, rest - off);
    } else if b / z.bytes == slot && b % z.bytes / z.chunk == c {
      DigitsPair(b, z.bytes);
      DigitsPair(b % z.bytes, z.chunk);
      assert false;
    }
  }

  /** The writes of all senders partition a receiver's buffer: every byte of it is written by
      exactly one chunk of one sender.
   */
  lemma EveryByteOnce(z: Load, r: nat, b: nat) returns (s: nat, c: nat)
    requires LoadOk(z) && r < z.nodes && b < (z.nodes - 1) * z.bytes
    ensures Writes(z, s, r, c, b)
    ensures forall s': nat, c': nat :: Writes(z, s', r, c', b) ==> s' == s && c' == c
  {
    QuotientBelow(b, z.nodes - 1, z.bytes);
    var slot := b / z.bytes;
    DigitsPair(b, z.bytes);
    s, c := PeerRank(r, z.nodes, slot), b % z.bytes / z.chunk;
    SlotsInverse(r, PeerRank(r, z.nodes, slot), z.nodes, slot);
    DigitsPair(b % z.bytes, z.chunk);
    CeilBelow(c, z.bytes, z.chunk);
    WritesDigits(z, s, r, c, b);
    forall s': nat, c': nat | Writes(z, s', r, c', b)
      ensures s' == s && c' == c
    {
      WritesDigits(z, s', r, c', b);
      SlotsInverse(r, s', z.nodes, slot);
    }
  }

  /** The slot and the chunk behind an arrival index. */
  lemma FlagDigits(z: Load, s: nat, r: nat, c: nat)
    requires LoadOk(z) && Sends(z, s, r, c)
    ensures 0 <= SlotAtPeer(s, r, z.nodes) < z.nodes - 1 && Chunks(z) > 0
    ensures CmdOf(z, s, r, c).arrival / Chunks(z) == SlotAtPeer(s, r, z.nodes)
    ensures CmdOf(z, s, r, c).arrival % Chunks(z) == c
  {
    SlotsInverse(r, s, z.nodes, 0);
    PairDigits(SlotAtPeer(s, r, z.nodes), Chunks(z), c);
  }

  lemma FlagSender(z: Load, r: nat, i: nat) returns (s: nat, c: nat)
    requires LoadOk(z) && r < z.nodes && i < (z.nodes - 1) * Chunks(z)
    ensures Sends(z, s, r, c) && CmdOf(z, s, r, c).arrival == i
  {
    CeilBelow(0, z.bytes, z.chunk);
    QuotientBelow(i, z.nodes - 1, Chunks(z));
    DigitsPair(i, Chunks(z));
    var slot := i / Chunks(z);
    s, c := PeerRank(r, z.nodes, slot), i % Chunks(z);
    SlotsInverse(r, PeerRank(r, z.nodes, slot), z.nodes, slot);
  }

  lemma FlagUnique(z: Load, r: nat, s: nat, c: nat, s': nat, c': nat)
    requires LoadOk(z) && Sends(z, s, r, c) && Sends(z, s', r, c')
    requires CmdOf(z, s, r, c).arrival == CmdOf(z, s', r, c').arrival
    ensures s' == s && c' == c
  {
    FlagDigits(z, s, r, c);
    FlagDigits(z, s', r, c');
    SlotsInverse(r, s, z.nodes, 0);
    SlotsInverse(r, s', z.nodes, 0);
  }

  /** So do the arrival flags. */
  lemma EveryFlagOnce(z: Load, r: nat, i: nat) returns (s: nat, c: nat)
    requires LoadOk(z) && r < z.nodes && i < (z.nodes - 1) * Chunks(z)
    ensures Sends(z, s, r, c) && CmdOf(z, s, r, c).arrival == i
    ensures forall s': nat, c': nat :: Sends(z, s', r, c') && CmdOf(z, s', r, c').arrival == i ==> s' == s && c' == c
  {
    s, c := FlagSender(z, r, i);
    forall s': nat, c': nat | Sends(z, s', r, c') && CmdOf(z, s', r, c').arrival == i
      ensures s' == s && c' == c
    {
      FlagUnique(z, r, s, c, s', c');
    }
  }

  // ----- queues

  /** Queues set aside per peer. */
  function PerPeer(nodes: nat, queues: nat): nat
    requires nodes >= 2
  {
    if queues / (nodes - 1) > 1 then queues / (nodes - 1) else 1
  }

  /** The queue of a transfer: its lane, wrapped around the number of queues. */
  function QueueOf(nodes: nat, queues: nat, slot: nat, logical: nat): nat
    requires nodes >= 2 && queues > 0
  {
    Pair(slot, PerPeer(nodes, queues), logical % PerPeer(nodes, queues)) % queues
  }

  lemma PerPeerFits(peers: nat, queues: nat)
    requires peers > 0 && queues >= peers
    ensures peers * PerPeer(peers + 1, queues) <= queues
  {
    DigitsPair(queues, peers);
    assert queues / peers * peers <= queues;
  }

  lemma LaneFits(nodes: nat, queues: nat, slot: nat, logical: nat)
    requires nodes >= 2 && queues >= nodes - 1 && slot < nodes - 1
    ensures QueueOf(nodes, queues, slot, logical) == Pair(slot, PerPeer(nodes, queues), logical % PerPeer(nodes, queues))
  {
    var n := PerPeer(nodes, queues);
    DigitsPair(queues, nodes - 1);
    PairBelow(slot, nodes - 1, n, logical % n);
    PerPeerFits(nodes - 1, queues);
    DivIs(Pair(slot, n, logical % n), queues, 0, Pair(slot, n, logical % n));
  }

  lemma LanesDiffer(nodes: nat, queues: nat, slot: nat, logical: nat, slot': nat, logical': nat)
    requires nodes >= 2 && queues >= nodes - 1 && slot < nodes - 1 && slot' < nodes - 1 && slot != slot'
    ensures QueueOf(nodes, queues, slot, logical) != QueueOf(nodes, queues, slot', logical')
  {
    var n := PerPeer(nodes, queues);
    LaneFits(nodes, queues, slot, logical);
    LaneFits(nodes, queues, slot', logical');
    PairDigits(slot, n, logical % n);
    PairDigits(slot', n, logical' % n);
  }

  /** The queue sender `s` announces in at receiver `r`, by its slot there. */
  function LaneTo(nodes: nat, queues: nat, s: nat, r: nat, logical: nat): nat
    requires nodes >= 2 && queues > 0 && s < nodes && r < nodes && s != r
  {
    SlotsInverse(r, s, nodes, 0);
    QueueOf(nodes, queues, SlotAtPeer(s, r, nodes), logical)
  }

  /** The first queues / peers lanes of a peer are distinct queues: its transfers spread over as
      many queues as there are for each peer.
   */
  lemma LanesSpread(nodes: nat, queues: nat, slot: nat, logical: nat, logical': nat)
    requires nodes >= 2 && queues >= nodes - 1 && slot < nodes - 1
    requires logical < queues / (nodes - 1) && logical' < queues / (nodes - 1) && logical != logical'
    ensures QueueOf(nodes, queues, slot, logical) != QueueOf(nodes, queues, slot, logical')
  {
    var n := PerPeer(nodes, queues);
    LaneFits(nodes, queues, slot, logical);
    LaneFits(nodes, queues, slot, logical');
    DivIs(logical, n, 0, logical);
    DivIs(logical', n, 0, logical');
  }

  /** Two senders never use the same queue of a receiver. */
  ghost predicate SendersApart(nodes: nat, queues: nat)
    requires nodes >= 2 && queues > 0
  {
    forall r: nat, s: nat, s': nat, q: nat, q': nat ::
      r < nodes && s < nodes && s' < nodes && s != r && s' != r && s != s' ==>
        LaneTo(nodes, queues, s, r, q) != LaneTo(nodes, queues, s', r, q')
  }

  /** Two receivers never share a sequence counter of a sender. */
  ghost predicate ReceiversApart(nodes: nat, queues: nat)
    requires nodes >= 2 && queues > 0
  {
    forall s: nat, r: nat, r': nat, q: nat, q': nat ::
      s < nodes && r < nodes && r' < nodes && s != r && s != r' && r != r' ==>
        LaneTo(nodes, queues, s, r, q) != LaneTo(nodes, queues, s, r', q')
  }

  lemma LanesApart(nodes: nat, queues: nat)
    requires nodes >= 2 && queues >= nodes - 1
    ensures SendersApart(nodes, queues) && ReceiversApart(nodes, queues)
  {
    forall r: nat, s: nat, s': nat, q: nat, q': nat | r < nodes && s < nodes && s' < nodes && s != r && s' != r && s != s'
      ensures LaneTo(nodes, queues, s, r, q) != LaneTo(nodes, queues, s', r, q')
    {
      SlotsInverse(r, s, nodes, 0);
      SlotsInverse(r, s', nodes, 0);
      LanesDiffer(nodes, queues, SlotAtPeer(s, r, nodes), q, SlotAtPeer(s', r, nodes), q');
    }
    forall s: nat, r: nat, r': nat, q: nat, q': nat | s < nodes && r < nodes && r' < nodes && s != r && s != r' && r != r'
      ensures LaneTo(nodes, queues, s, r, q) != LaneTo(nodes, queues, s, r', q')
    {
      SlotsInverse(r, s, nodes, 0);
      SlotsInverse(r', s, nodes, 0);
      LanesDiffer(nodes, queues, SlotAtPeer(s, r, nodes), q, SlotAtPeer(s, r', nodes), q');
    }
  }

  /** With fewer queues than peers, slots 0 and `queues` meet in queue 0. */
  lemma LanesShared(nodes: nat, queues: nat)
    requires nodes >= 2 && 0 < queues < nodes - 1
    ensures !SendersApart(nodes, queues) && !ReceiversApart(nodes, queues)
  {
    DivIs(queues, nodes - 1, 0, queues);
    assert PerPeer(nodes, queues) == 1;
    DivIs(0, queues, 0, 0);
    DivIs(queues, queues, 1, 0);
    assert QueueOf(nodes, queues, 0, 0) == 0 && QueueOf(nodes, queues, queues, 0) == 0;
    // receiver 0 and the senders in its slots 0 and `queues`
    assert SlotAtPeer(1, 0, nodes) == 0 && SlotAtPeer(1 + queues, 0, nodes) == queues;
    assert LaneTo(nodes, queues, 1, 0, 0) == LaneTo(nodes, queues, 1 + queues, 0, 0);
    // sender nodes - 1 and the receivers where it is in slots 0 and `queues`
    var s, r, r' := nodes - 1, nodes - 2, nodes - 2 - queues;
    assert SlotAtPeer(s, r, nodes) == 0 && SlotAtPeer(s, r', nodes) == queues;
    assert LaneTo(nodes, queues, s, r, 0) == LaneTo(nodes, queues, s, r', 0);
  }

  /** Queues are private exactly when there are at least as many of them as peers.  (gemm_rs
      takes the sender's own slot for the receiver, which swaps the two roles.)
   */
  lemma LanesApartIff(nodes: nat, queues: nat)
    requires nodes >= 2 && queues > 0
    ensures SendersApart(nodes, queues) <==> queues >= nodes - 1
    ensures ReceiversApart(nodes, queues) <==> queues >= nodes - 1
  {
    if queues >= nodes - 1 {
      LanesApart(nodes, queues);
    } else {
      LanesShared(nodes, queues);
    }
  }

  // ----- slots of a queue

  /** How many of the first `n` posts went to queue `q`. */
  function PostsTo(posts: seq<nat>, q: nat, n: nat): (k: nat)
    requires n <= |posts|
    ensures k <= n
  {
    if n == 0 then 0 else PostsTo(posts, q, n - 1) + if posts[n - 1] == q then 1 else 0
  }

  lemma CountersStep(posts: seq<nat>, next: seq<nat>, next': seq<nat>, k: nat)
    requires k < |posts| && posts[k] < |next| && forall q :: 0 <= q < |next| ==> next[q] == PostsTo(posts, q, k)
    requires next' == next[posts[k] := next[posts[k]] + 1]
    ensures forall q :: 0 <= q < |next'| ==> next'[q] == PostsTo(posts, q, k + 1)
  {
  }

  /** The proxy's sequence counters: every post takes the next slot of its queue. */
  method AssignSlots(posts: seq<nat>, queues: nat) returns (slots: seq<nat>)
    requires forall k :: 0 <= k < |posts| ==> posts[k] < queues
    ensures |slots| == |posts|
    ensures forall k :: 0 <= k < |posts| ==> slots[k] == PostsTo(posts, posts[k], k)
  {
    var next: seq<nat> := seq(queues, _ => 0);
    slots := [];
    for k := 0 to |posts|
      invariant |slots| == k && |next| == queues
      invariant forall j :: 0 <= j < k ==> slots[j] == PostsTo(posts, posts[j], j)
      invariant forall q :: 0 <= q < queues ==> next[q] == PostsTo(posts, q, k)
    {
      CountersStep(posts, next, next[posts[k] := next[posts[k]] + 1], k);
      slots := slots + [next[posts[k]]];
      next := next[posts[k] := next[posts[k]] + 1];
    }
  }

  lemma {:induction false} PostsGrow(posts: seq<nat>, q: nat, k: nat, n: nat)
    requires k <= n <= |posts|
    ensures PostsTo(posts, q, k) <= PostsTo(posts, q, n)
    ensures k < n && posts[k] == q ==> PostsTo(posts, q, k) < PostsTo(posts, q, n)
  {
    if k == n {
    } else {
      PostsGrow(posts, q, k, n - 1);
    }
  }

  /** Every slot below the count is taken by some post: the queue fills from slot 0 with no
      hole, */
  lemma {:induction false} NoHole(posts: seq<nat>, q: nat, n: nat, slot: nat) returns (k: nat)
    requires n <= |posts| && slot < PostsTo(posts, q, n)
    ensures k < n && posts[k] == q && PostsTo(posts, q, k) == slot
  {
    if slot < PostsTo(posts, q, n - 1) {
      k := NoHole(posts, q, n - 1, slot);
    } else {
      k := n - 1;
    }
  }

  /** and no two posts take the same slot. */
  lemma NoOverwrite(posts: seq<nat>, k: nat, l: nat)
    requires k < l < |posts| && posts[k] == posts[l]
    ensures PostsTo(posts, posts[k], k) != PostsTo(posts, posts[l], l)
  {
    PostsGrow(posts, posts[k], k, l);
  }

  // ----- refused posts

  /** A post that the queue pair refuses has used up its slot all the same, and the batch is
      posted again with new slots.  `slot` of queue `q` is filled by one of the first `n`.
   */
  ghost predicate Filled(posts: seq<nat>, ok: seq<bool>, q: nat, n: nat, slot: nat)
    requires n <= |posts| == |ok|
  {
    exists k :: 0 <= k < n && ok[k] && posts[k] == q && PostsTo(posts, q, k) == slot
  }

  /** No slot is left out below a filled one. */
  ghost predicate Gapless(posts: seq<nat>, ok: seq<bool>, q: nat, n: nat)
    requires n <= |posts| == |ok|
  {
    forall slot: nat, slot': nat :: slot < slot' && Filled(posts, ok, q, n, slot') ==> Filled(posts, ok, q, n, slot)
  }

  /** A refused post to the queue is followed by one that goes through. */
  ghost predicate RefusedBefore(posts: seq<nat>, ok: seq<bool>, q: nat, n: nat)
    requires n <= |posts| == |ok|
  {
    exists j, k :: 0 <= j < k < n && posts[j] == q && posts[k] == q && !ok[j] && ok[k]
  }

  lemma RefusalLeavesHole(posts: seq<nat>, ok: seq<bool>, n: nat, j: nat, k: nat)
    requires j < k < n <= |posts| == |ok| && posts[j] == posts[k] && !ok[j] && ok[k]
    ensures !Gapless(posts, ok, posts[j], n)
  {
    var q := posts[j];
    var slot, slot' := PostsTo(posts, q, j), PostsTo(posts, q, k);
    PostsGrow(posts, q, j, k);
    assert Filled(posts, ok, q, n, slot');
    if Filled(posts, ok, q, n, slot) {
      var l :| 0 <= l < n && ok[l] && posts[l] == q && PostsTo(posts, q, l) == slot;
      PostsGrow(posts, q, Min(j, l), if j < l then l else j);
    }
  }

  /** The receiver, which reads a queue slot by slot, gets to see every word exactly when no
      post is retried after a refusal: a retry leaves a hole that nothing fills.
   */
  lemma GaplessIff(posts: seq<nat>, ok: seq<bool>, q: nat, n: nat)
    requires n <= |posts| == |ok|
    ensures Gapless(posts, ok, q, n) <==> !RefusedBefore(posts, ok, q, n)
  {
    if j, k :| 0 <= j < k < n && posts[j] == q && posts[k] == q && !ok[j] && ok[k] {
      RefusalLeavesHole(posts, ok, n, j, k);
    } else {
      forall slot: nat, slot': nat | slot < slot' && Filled(posts, ok, q, n, slot')
        ensures Filled(posts, ok, q, n, slot)
      {
        var k :| 0 <= k < n && ok[k] && posts[k] == q && PostsTo(posts, q, k) == slot';
        var j := NoHole(posts, q, k, slot);
        assert ok[j];
      }
    }
  }

  // ----- the flags of all senders together

  datatype Post = Post(dst: nat, logical: nat)

  ghost predicate PostsOk(nodes: nat, s: nat, posts: seq<Post>) {
    s < nodes && forall k :: 0 <= k < |posts| ==> posts[k].dst < nodes && posts[k].dst != s
  }

  function QueuesOf(nodes: nat, queues: nat, s: nat, posts: seq<Post>): (qs: seq<nat>)
    requires nodes >= 2 && queues > 0 && PostsOk(nodes, s, posts)
    ensures |qs| == |posts| && forall k :: 0 <= k < |posts| ==> qs[k] == LaneTo(nodes, queues, s, posts[k].dst, posts[k].logical)
  {
    seq(|posts|, k requires 0 <= k < |posts| => LaneTo(nodes, queues, s, posts[k].dst, posts[k].logical))
  }

  /** The word that the k-th post of sender `s` is announced in. */
  function WordOf(nodes: nat, queues: nat, stride: nat, s: nat, posts: seq<Post>, k: nat): nat
    requires nodes >= 2 && queues > 0 && PostsOk(nodes, s, posts) && k < |posts|
  {
    var qs := QueuesOf(nodes, queues, s, posts);
    Pair(qs[k], stride, PostsTo(qs, qs[k], k))
  }

  /** Posts of a sender that use one queue all go to one receiver, so that receiver sees the
      queue filled without a hole.
   */
  lemma QueueHasOneReceiver(nodes: nat, queues: nat, s: nat, posts: seq<Post>, k: nat, l: nat)
    requires nodes >= 2 && queues >= nodes - 1 && PostsOk(nodes, s, posts) && k < |posts| && l < |posts|
    requires QueuesOf(nodes, queues, s, posts)[k] == QueuesOf(nodes, queues, s, posts)[l]
    ensures posts[k].dst == posts[l].dst
  {
    LanesApart(nodes, queues);
  }

  /** At a receiver no announcement overwrites another, whoever sent them, as long as no queue
      gets more than its stride.
   */
  lemma WordsNeverShared(nodes: nat, queues: nat, stride: nat, s: nat, posts: seq<Post>, k: nat, s': nat, posts': seq<Post>, k': nat)
    requires nodes >= 2 && queues >= nodes - 1
    requires PostsOk(nodes, s, posts) && k < |posts| && PostsOk(nodes, s', posts') && k' < |posts'|
    requires s == s' ==> posts == posts'
    requires posts[k].dst == posts'[k'].dst
    requires var qs := QueuesOf(nodes, queues, s, posts); PostsTo(qs, qs[k], k) < stride
    requires var qs' := QueuesOf(nodes, queues, s', posts'); PostsTo(qs', qs'[k'], k') < stride
    requires WordOf(nodes, queues, stride, s, posts, k) == WordOf(nodes, queues, stride, s', posts', k')
    ensures s == s' && k == k'
  {
    var qs, qs' := QueuesOf(nodes, queues, s, posts), QueuesOf(nodes, queues, s', posts');
    PairInjective(qs[k], stride, PostsTo(qs, qs[k], k), qs'[k'], PostsTo(qs', qs'[k'], k'));
    LanesApart(nodes, queues);
    if k < k' {
      NoOverwrite(qs, k, k');
    } else if k' < k {
      NoOverwrite(qs, k', k);
    }
  }
}
