/** The arrival queues of a receiver: words land in the slots of a queue, and a drainer moves
    the queue's head past them, one by one, until it meets an empty slot.
 */
module ArrivalQueue {
  import opened PeerSums

  datatype Inbox = Inbox(flags: seq<seq<nat>>, heads: seq<nat>)

  /** A word lands in an empty slot. */
  ghost predicate Lands(b: Inbox, b': Inbox, q: nat, k: nat, v: nat) {
    && q < |b.flags| && k < |b.flags[q]| && b.flags[q][k] == 0 && v != 0
    && var row: seq<nat> := b.flags[q][k := v];
    b' == b.(flags := b.flags[q := row])
  }

  /** The word at the head of queue `q`, or 0 if there is none. */
  function HeadWord(b: Inbox, q: nat): nat {
    if q < |b.flags| && q < |b.heads| && b.heads[q] < |b.flags[q]| then b.flags[q][b.heads[q]] else 0
  }

  function Advance(b: Inbox, q: nat): Inbox
    requires q < |b.heads|
  {
    b.(heads := b.heads[q := b.heads[q] + 1])
  }

  /** A plain store of a queue's head. */
  function StoreHead(b: Inbox, q: nat, h: nat): Inbox {
    if q < |b.heads| then b.(heads := b.heads[q := h]) else b
  }

  /** A head has passed only slots that hold a word. */
  ghost predicate HeadsOk(b: Inbox) {
    && |b.heads| == |b.flags|
    && (forall q :: 0 <= q < |b.heads| ==> b.heads[q] <= |b.flags[q]|)
    && (forall q, k :: 0 <= q < |b.heads| && 0 <= k < b.heads[q] ==> b.flags[q][k] != 0)
  }

  /** Work `w` is announced by a word that its queue's head has passed. */
  ghost predicate Past(b: Inbox, decode: nat -> seq<Work>, w: Work) {
    exists q, k :: 0 <= q < |b.heads| == |b.flags| && 0 <= k < b.heads[q] <= |b.flags[q]| && w in decode(b.flags[q][k])
  }

  ghost predicate FullTo(queue: seq<nat>, k: int) {
    forall j :: 0 <= j <= k && j < |queue| ==> queue[j] != 0
  }

  /** Work `w` is announced by a word that has landed with no empty slot before it. */
  ghost predicate Landed(b: Inbox, decode: nat -> seq<Work>, w: Work) {
    exists q, k :: 0 <= q < |b.flags| && 0 <= k < |b.flags[q]| && FullTo(b.flags[q], k) && w in decode(b.flags[q][k])
  }

  /** Every drainer would stop: each head is at an empty slot or at the end. */
  ghost predicate Dry(b: Inbox) {
    forall q :: 0 <= q < |b.heads| == |b.flags| ==> HeadWord(b, q) == 0
  }

  /** In a dry queue the head has passed everything that landed with no hole before it. */
  lemma DryMeansPast(b: Inbox, decode: nat -> seq<Work>, w: Work)
    requires HeadsOk(b) && Dry(b) && Landed(b, decode, w)
    ensures Past(b, decode, w)
  {
    var q, k :| 0 <= q < |b.flags| && 0 <= k < |b.flags[q]| && FullTo(b.flags[q], k) && w in decode(b.flags[q][k]);
    assert HeadWord(b, q) == 0;
  }

  /** Moving a head past a word adds exactly the works of that word. */
  lemma AdvancePast(b: Inbox, decode: nat -> seq<Work>, q: nat)
    requires HeadsOk(b) && q < |b.heads| && HeadWord(b, q) != 0
    ensures HeadsOk(Advance(b, q))
    ensures forall w :: Past(Advance(b, q), decode, w) <==> Past(b, decode, w) || w in decode(HeadWord(b, q))
  {
    var b', h := Advance(b, q), b.heads[q];
    forall w
      ensures Past(b', decode, w) <==> Past(b, decode, w) || w in decode(HeadWord(b, q))
    {
      if Past(b, decode, w) {
        var p, k :| 0 <= p < |b.heads| && 0 <= k < b.heads[p] && w in decode(b.flags[p][k]);
        assert k < b'.heads[p];
      }
      if w in decode(HeadWord(b, q)) {
        assert h < b'.heads[q] && w in decode(b'.flags[q][h]);
      }
      if Past(b', decode, w) {
        var p, k :| 0 <= p < |b'.heads| && 0 <= k < b'.heads[p] && w in decode(b'.flags[p][k]);
        assert k < b.heads[p] || (p == q && k == h);
      }
    }
  }

  /** A word that lands disturbs no slot that a head has passed. */
  lemma LandsPast(b: Inbox, b': Inbox, decode: nat -> seq<Work>, q: nat, k: nat, v: nat)
    requires HeadsOk(b) && Lands(b, b', q, k, v)
    ensures HeadsOk(b')
    ensures forall w :: Past(b', decode, w) <==> Past(b, decode, w)
  {
    forall w
      ensures Past(b', decode, w) <==> Past(b, decode, w)
    {
      if Past(b, decode, w) {
        var p, j :| 0 <= p < |b.heads| && 0 <= j < b.heads[p] && w in decode(b.flags[p][j]);
        assert b'.flags[p][j] == b.flags[p][j];
      }
      if Past(b', decode, w) {
        var p, j :| 0 <= p < |b'.heads| && 0 <= j < b'.heads[p] && w in decode(b'.flags[p][j]);
        assert b'.flags[p][j] == b.flags[p][j];
      }
    }
  }

  // ----- the words still to be taken, each at 2 and `cost` for every work

  /** Those of a queue from slot `h` up to the first empty one. */
  ghost function QueueLeft(decode: nat -> seq<Work>, cost: nat, queue: seq<nat>, h: nat): nat
    decreases |queue| - h
  {
    if h >= |queue| || queue[h] == 0 then 0
    else 2 + cost * |decode(queue[h])| + QueueLeft(decode, cost, queue, h + 1)
  }

  ghost function WordsLeft(decode: nat -> seq<Work>, cost: nat, b: Inbox, n: nat): nat
    requires n <= |b.flags| && n <= |b.heads|
  {
    if n == 0 then 0 else WordsLeft(decode, cost, b, n - 1) + QueueLeft(decode, cost, b.flags[n - 1], b.heads[n - 1])
  }

  lemma {:induction false} WordsAfter(decode: nat -> seq<Work>, cost: nat, b: Inbox, q: nat, n: nat)
    requires q < |b.heads| == |b.flags| && n <= |b.heads| && HeadWord(b, q) != 0
    ensures WordsLeft(decode, cost, Advance(b, q), n)
            == WordsLeft(decode, cost, b, n) - if q < n then 2 + cost * |decode(HeadWord(b, q))| else 0
  {
    if n == 0 {
    } else {
      WordsAfter(decode, cost, b, q, n - 1);
    }
  }

  lemma {:induction false} WordsZero(decode: nat -> seq<Work>, cost: nat, b: Inbox, n: nat)
    requires n <= |b.heads| == |b.flags|
    ensures WordsLeft(decode, cost, b, n) == 0 <==> forall q :: 0 <= q < n ==> HeadWord(b, q) == 0
  {
    if n == 0 {
    } else {
      WordsZero(decode, cost, b, n - 1);
      assert QueueLeft(decode, cost, b.flags[n - 1], b.heads[n - 1]) == 0 <==> HeadWord(b, n - 1) == 0;
    }
  }
}
