/** The ticket queue shared by the chunk pipelines: a producer adds one to `tail` to get a
    slot and then publishes a non-zero word there; a consumer advances `head` by
    compare-and-swap and then spins until its slot is non-zero.

    `tickets` records which item each slot was handed out for; its length is `tail`.
 */
module TicketQueue {

  datatype Queue<T> = Queue(tickets: seq<T>, slots: seq<nat>, head: nat)

  ghost predicate Distinct<T>(s: seq<T>) {
    forall i, j :: 0 <= i < j < |s| ==> s[i] != s[j]
  }

  /** Slots hold nothing or the word of the item they were handed out for. */
  ghost predicate Consistent<T(!new)>(q: Queue<T>, encode: T -> nat) {
    && Distinct(q.tickets)
    && q.head <= |q.tickets| <= |q.slots|
    && (forall k :: 0 <= k < |q.tickets| ==> q.slots[k] == 0 || q.slots[k] == encode(q.tickets[k]))
    && (forall k :: |q.tickets| <= k < |q.slots| ==> q.slots[k] == 0)
  }

  /** Hand out the next slot. */
  function Ticket<T>(q: Queue<T>, x: T): Queue<T> {
    q.(tickets := q.tickets + [x])
  }

  /** Store the word; a slot beyond the capacity is silently dropped. */
  function Publish<T>(q: Queue<T>, k: nat, word: nat): Queue<T> {
    if k < |q.slots| then q.(slots := q.slots[k := word]) else q
  }

  function Claim<T>(q: Queue<T>): Queue<T> {
    q.(head := q.head + 1)
  }

  // ----- distinct items fit the capacity

  lemma {:induction false} DistinctBelow(s: seq<nat>, n: nat)
    requires Distinct(s) && forall i :: 0 <= i < |s| ==> s[i] < n
    ensures |s| <= n
  {
    if |s| == 0 {
    } else {
      assert s[0] < n;
      if k :| 0 <= k < |s| && s[k] == n - 1 {
        DistinctBelow(s[..k] + s[k + 1..], n - 1);
      } else {
        DistinctBelow(s, n - 1);
      }
    }
  }

  lemma TicketConsistent<T(!new)>(q: Queue<T>, encode: T -> nat, x: T)
    requires Consistent(q, encode) && x !in q.tickets && |q.tickets| < |q.slots|
    ensures Consistent(Ticket(q, x), encode)
  {
  }

  lemma PublishConsistent<T(!new)>(q: Queue<T>, encode: T -> nat, k: nat)
    requires Consistent(q, encode) && k < |q.tickets|
    ensures Consistent(Publish(q, k, encode(q.tickets[k])), encode)
  {
  }
}
