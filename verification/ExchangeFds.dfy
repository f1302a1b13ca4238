/** `LocalBroker::exchange_fds`: rank 0 collects everybody's file descriptor over its socket and
    sends all of them to all others, between two calls of `sync`.  Calls of other kinds may come
    in between.

    Datagrams wait in the receiver's socket and are taken out in any order.  `fd(i, c)` is the
    descriptor rank `i` passes to call `c`.
 */
module ExchangeFds {
  import LocalBarrier
  import opened BrokerPlan
  import opened Arith

  // ----- one exchange

  /** `call` tells physical datagrams apart; receivers do not look at it. */
  datatype Msg = Msg(src: nat, fd: int, call: nat)

  /** Where a rank is.  `n` is the loop counter, `got` the sources received so far. */
  datatype Phase =
    | Start                       // between two calls
    | Ready                       // destination cleared, at or inside the first sync
    | SendOwn
    | Recv(n: nat, got: set<nat>)
    | Send(d: nat, s: nat)        // rank 0 only: next destination and source
    | Close
    | Done                        // at or inside the second sync
    | Failed                      // an exception was thrown

  datatype Io = Io(phase: seq<Phase>, dst: seq<seq<int>>, box: seq<set<Msg>>)

  ghost predicate Shaped(x: Io, w: nat) {
    |x.phase| == |x.dst| == |x.box| == w && forall i :: 0 <= i < w ==> |x.dst[i]| == w
  }

  function Blank(w: nat): (s: seq<int>)
    ensures |s| == w && forall k :: 0 <= k < w ==> s[k] == -1
  {
    seq(w, _ => -1)
  }

  /** Enter the exchange after the first sync. */
  function Enter(x: Io, i: nat, own: int): Io
    requires i < |x.phase| == |x.dst| && (i == 0 ==> |x.dst[0]| > 0)
  {
    if i == 0 then
      var row: seq<int> := x.dst[0][0 := own];
      x.(phase := x.phase[0 := Recv(0, {})], dst := x.dst[0 := row])
    else x.(phase := x.phase[i := SendOwn])
  }

  /** Take datagram `m` out of the own socket. */
  function Take(x: Io, i: nat, m: Msg): Io
    requires i < |x.phase| == |x.dst| == |x.box| && x.phase[i].Recv? && m.src < |x.dst[i]|
  {
    var row: seq<int> := x.dst[i][m.src := m.fd];
    Io(x.phase[i := Recv(x.phase[i].n + 1, x.phase[i].got + {m.src})], x.dst[i := row], x.box[i := x.box[i] - {m}])
  }

  function Put(x: Io, to_: nat, m: Msg): Io
    requires to_ < |x.box|
  {
    x.(box := x.box[to_ := x.box[to_] + {m}])
  }

  /** One step of rank `i` inside the exchange of call `c`. */
  ghost predicate IoStep(x: Io, x': Io, i: nat, own: int, c: nat)
    requires Shaped(x, |x.phase|)
  {
    var w := |x.phase|;
    i < w &&
    match x.phase[i]
    case SendOwn => w > 0 && x' == Put(x.(phase := x.phase[i := Recv(0, {})]), 0, Msg(i, own, c))
    case Recv(n, got) =>
      if n == w - 1 then x' == x.(phase := x.phase[i := if i == 0 then Send(1, 0) else Done])
      else exists m :: m in x.box[i] &&
             if m.fd < 0 || m.src == i || m.src >= w then x' == x.(phase := x.phase[i := Failed])
             else x' == Take(x, i, m)
    case Send(d, s) =>
      if d >= w then x' == x.(phase := x.phase[i := Close])
      else if s >= w then x' == x.(phase := x.phase[i := Send(d + 1, 0)])
      else
        var y := x.(phase := x.phase[i := Send(d, s + 1)]);
        x' == if s == d then y else Put(y, d, Msg(s, x.dst[i][s], c))
    case Close =>
      w > 0 && var row: seq<int> := x.dst[i][0 := -1];
      x' == x.(phase := x.phase[i := Done], dst := x.dst[i := row])
    case _ => false
  }

  // ----- the invariant of one exchange

  ghost function Others(i: nat, w: nat): set<nat> {
    set k: nat | k in Below(w) && k != i
  }

  /** The sources rank `i` has received in this call. */
  ghost function Got(x: Io, i: nat): set<nat>
    requires i < |x.phase|
  {
    match x.phase[i]
    case Recv(_, got) => got
    case Send(_, _) => Others(i, |x.phase|)
    case Close => Others(i, |x.phase|)
    case Done => Others(i, |x.phase|)
    case _ => {}
  }

  predicate HasSent(p: Phase) {
    p.Recv? || p.Done?
  }

  /** The sources whose descriptor has been sent to rank `i` in this call. */
  ghost function SentTo(x: Io, i: nat): set<nat>
    requires i < |x.phase|
  {
    if i == 0 then set j | j in Others(0, |x.phase|) && HasSent(x.phase[j])
    else
      match x.phase[0]
      case Send(d, s) => if i < d then Others(i, |x.phase|) else if i == d then set k | k in Others(i, |x.phase|) && k < s else {}
      case Close => Others(i, |x.phase|)
      case Done => Others(i, |x.phase|)
      case _ => {}
  }

  /** A socket holds exactly what was sent to it and not yet taken out. */
  ghost predicate BoxOk(x: Io, fd: (nat, nat) -> nat, c: nat, i: nat)
    requires i < |x.phase| == |x.box|
  {
    && Got(x, i) <= SentTo(x, i)
    && forall m :: m in x.box[i] <==> m.src in SentTo(x, i) && m.src !in Got(x, i) && m == Msg(m.src, fd(m.src, c), c)
  }

  /** A destination holds exactly what has been received; the own entry stays empty, except
      that rank 0 keeps its own descriptor while it distributes.
   */
  ghost predicate DstOk(x: Io, fd: (nat, nat) -> nat, c: nat, i: nat)
    requires Shaped(x, |x.phase|) && i < |x.phase|
  {
    && (forall k :: 0 <= k < |x.phase| && k != i ==> x.dst[i][k] == if k in Got(x, i) then fd(k, c) else -1)
    && x.dst[i][i] == if i == 0 && (x.phase[0].Recv? || x.phase[0].Send? || x.phase[0].Close?) then fd(0, c) else -1
  }

  ghost predicate PhaseOk(x: Io, i: nat)
    requires i < |x.phase|
  {
    match x.phase[i]
    case Start => false
    case Failed => false
    case SendOwn => i != 0
    case Recv(n, got) => n == |got| && got <= Others(i, |x.phase|)
    case Send(d, s) => i == 0 && d >= 1
    case Close => i == 0
    case _ => true
  }

  ghost predicate IoInv(x: Io, fd: (nat, nat) -> nat, c: nat) {
    && Shaped(x, |x.phase|) && |x.phase| > 0
    && forall i :: 0 <= i < |x.phase| ==> PhaseOk(x, i) && BoxOk(x, fd, c, i) && DstOk(x, fd, c, i)
  }

  lemma OthersSize(i: nat, w: nat)
    requires i < w
    ensures |Others(i, w)| == w - 1
  {
    BelowSize(w);
    assert Below(w) == Others(i, w) + {i};
  }

  /** A step that changes no socket and sends and receives nothing leaves the flow as it was. */
  lemma SameFlow(x: Io, x': Io, fd: (nat, nat) -> nat, c: nat, i: nat)
    requires IoInv(x, fd, c) && i < |x.phase| == |x'.phase| && Shaped(x', |x'.phase|) && x'.box == x.box
    requires x'.phase == x.phase[i := x'.phase[i]] && Got(x', i) == Got(x, i)
    requires forall k :: 0 <= k < |x.phase| ==> SentTo(x', k) == SentTo(x, k)
    requires forall k :: 0 <= k < |x.phase| && k != i ==> x'.dst[k] == x.dst[k]
    requires PhaseOk(x', i) && DstOk(x', fd, c, i)
    ensures IoInv(x', fd, c)
  {
    forall k | 0 <= k < |x.phase|
      ensures PhaseOk(x', k) && BoxOk(x', fd, c, k) && DstOk(x', fd, c, k)
    {
      assert PhaseOk(x, k) && BoxOk(x, fd, c, k) && DstOk(x, fd, c, k);
    }
  }

  lemma EnterInv(x: Io, fd: (nat, nat) -> nat, c: nat, i: nat)
    requires IoInv(x, fd, c) && i < |x.phase| && x.phase[i] == Ready
    ensures IoInv(Enter(x, i, fd(i, c)), fd, c)
  {
    var x' := Enter(x, i, fd(i, c));
    assert DstOk(x, fd, c, i);
    SameFlow(x, x', fd, c, i);
  }

  /** Sending: one more source for one socket. */
  lemma PutFlow(x: Io, x': Io, fd: (nat, nat) -> nat, c: nat, i: nat, d: nat, k: nat)
    requires IoInv(x, fd, c) && i < |x.phase| == |x'.phase| && d < |x.phase| && Shaped(x', |x'.phase|) && x'.dst == x.dst
    requires x'.phase == x.phase[i := x'.phase[i]] && Got(x', i) == Got(x, i)
    requires x'.box == x.box[d := x.box[d] + {Msg(k, fd(k, c), c)}]
    requires k !in SentTo(x, d) && SentTo(x', d) == SentTo(x, d) + {k}
    requires forall j :: 0 <= j < |x.phase| && j != d ==> SentTo(x', j) == SentTo(x, j)
    requires PhaseOk(x', i) && DstOk(x', fd, c, i)
    ensures IoInv(x', fd, c)
  {
    forall j | 0 <= j < |x.phase|
      ensures PhaseOk(x', j) && BoxOk(x', fd, c, j) && DstOk(x', fd, c, j)
    {
      assert PhaseOk(x, j) && BoxOk(x, fd, c, j) && DstOk(x, fd, c, j);
    }
  }

  lemma SendOwnInv(x: Io, x': Io, fd: (nat, nat) -> nat, c: nat, i: nat)
    requires IoInv(x, fd, c) && i < |x.phase| && x.phase[i].SendOwn? && IoStep(x, x', i, fd(i, c), c)
    ensures IoInv(x', fd, c)
  {
    assert PhaseOk(x, i) && DstOk(x, fd, c, i);
    assert SentTo(x', 0) == SentTo(x, 0) + {i};
    PutFlow(x, x', fd, c, i, 0, i);
  }

  lemma TakeSelf(x: Io, fd: (nat, nat) -> nat, c: nat, i: nat, m: Msg)
    requires i < |x.phase| && Shaped(x, |x.phase|) && x.phase[i].Recv? && m in x.box[i]
    requires PhaseOk(x, i) && BoxOk(x, fd, c, i) && DstOk(x, fd, c, i)
    requires SentTo(Take(x, i, m), i) == SentTo(x, i)
    ensures PhaseOk(Take(x, i, m), i) && BoxOk(Take(x, i, m), fd, c, i) && DstOk(Take(x, i, m), fd, c, i)
  {
  }

  lemma TakeOther(x: Io, fd: (nat, nat) -> nat, c: nat, i: nat, m: Msg, j: nat)
    requires IoInv(x, fd, c) && i < |x.phase| && j < |x.phase| && j != i && x.phase[i].Recv? && m in x.box[i]
    requires m.src < |x.phase| && m.fd >= 0 && SentTo(Take(x, i, m), j) == SentTo(x, j)
    ensures var x' := Take(x, i, m); PhaseOk(x', j) && BoxOk(x', fd, c, j) && DstOk(x', fd, c, j)
  {
    assert PhaseOk(x, j) && BoxOk(x, fd, c, j) && DstOk(x, fd, c, j);
  }

  /** Every datagram in the socket is one of this call, from somebody else, not seen before. */
  lemma TakeInv(x: Io, fd: (nat, nat) -> nat, c: nat, i: nat, m: Msg)
    requires IoInv(x, fd, c) && i < |x.phase| && x.phase[i].Recv? && m in x.box[i]
    ensures m.fd >= 0 && m.src != i && m.src < |x.phase| && m.src !in x.phase[i].got
    ensures IoInv(Take(x, i, m), fd, c)
  {
    assert PhaseOk(x, i) && BoxOk(x, fd, c, i) && DstOk(x, fd, c, i);
    var x' := Take(x, i, m);
    assert forall k :: 0 <= k < |x.phase| ==> SentTo(x', k) == SentTo(x, k);
    TakeSelf(x, fd, c, i, m);
    forall j | 0 <= j < |x.phase| && j != i
      ensures PhaseOk(x', j) && BoxOk(x', fd, c, j) && DstOk(x', fd, c, j)
    {
      TakeOther(x, fd, c, i, m, j);
    }
  }

  /** After as many datagrams as there are other ranks, all of them have been heard. */
  lemma HeardAll(x: Io, i: nat)
    requires i < |x.phase| && x.phase[i].Recv? && PhaseOk(x, i) && x.phase[i].n == |x.phase| - 1
    ensures Got(x, i) == Others(i, |x.phase|)
  {
    OthersSize(i, |x.phase|);
    SubsetSize(x.phase[i].got, Others(i, |x.phase|));
  }

  lemma RecvInv(x: Io, x': Io, fd: (nat, nat) -> nat, c: nat, i: nat)
    requires IoInv(x, fd, c) && i < |x.phase| && x.phase[i].Recv? && IoStep(x, x', i, fd(i, c), c)
    ensures IoInv(x', fd, c)
  {
    assert PhaseOk(x, i) && BoxOk(x, fd, c, i) && DstOk(x, fd, c, i);
    if x.phase[i].n == |x.phase| - 1 {
      HeardAll(x, i);
      SameFlow(x, x', fd, c, i);
    } else {
      var m :| m in x.box[i] &&
             if m.fd < 0 || m.src == i || m.src >= |x.phase| then x' == x.(phase := x.phase[i := Failed])
             else x' == Take(x, i, m);
      TakeInv(x, fd, c, i, m);
    }
  }

  lemma SendInv(x: Io, x': Io, fd: (nat, nat) -> nat, c: nat, i: nat)
    requires IoInv(x, fd, c) && i < |x.phase| && x.phase[i].Send? && IoStep(x, x', i, fd(i, c), c)
    ensures IoInv(x', fd, c)
  {
    assert PhaseOk(x, i) && DstOk(x, fd, c, i);
    var d, s, w := x.phase[0].d, x.phase[0].s, |x.phase|;
    if d < w && s < w && s != d {
      assert SentTo(x', d) == SentTo(x, d) + {s};
      PutFlow(x, x', fd, c, i, d, s);
    } else {
      assert forall k :: 0 <= k < w ==> SentTo(x', k) == SentTo(x, k);
      SameFlow(x, x', fd, c, i);
    }
  }

  lemma IoStepInv(x: Io, x': Io, fd: (nat, nat) -> nat, c: nat, i: nat)
    requires IoInv(x, fd, c) && IoStep(x, x', i, fd(i, c), c)
    ensures IoInv(x', fd, c) && |x'.phase| == |x.phase|
  {
    if x.phase[i].SendOwn? {
      SendOwnInv(x, x', fd, c, i);
    } else if x.phase[i].Recv? {
      RecvInv(x, x', fd, c, i);
    } else if x.phase[i].Send? {
      SendInv(x, x', fd, c, i);
    } else {
      assert PhaseOk(x, i) && DstOk(x, fd, c, i);
      SameFlow(x, x', fd, c, i);
    }
  }

  // ----- nobody waits for ever

  ghost predicate CanStep(x: Io, i: nat, own: int, c: nat)
    requires Shaped(x, |x.phase|)
  {
    exists x' :: IoStep(x, x', i, own, c)
  }

  /** A rank that has not heard from everybody it was sent to by can receive. */
  lemma CanReceive(x: Io, fd: (nat, nat) -> nat, c: nat, i: nat)
    requires IoInv(x, fd, c) && i < |x.phase| && x.phase[i].Recv? && SentTo(x, i) == Others(i, |x.phase|)
    ensures CanStep(x, i, fd(i, c), c)
  {
    var w := |x.phase|;
    assert PhaseOk(x, i) && BoxOk(x, fd, c, i);
    if x.phase[i].n == w - 1 {
      var x' := x.(phase := x.phase[i := if i == 0 then Send(1, 0) else Done]);
      assert IoStep(x, x', i, fd(i, c), c);
    } else {
      OthersSize(i, w);
      assert x.phase[i].got != Others(i, w);
      assert Others(i, w) - x.phase[i].got != {};
      var k :| k in Others(i, w) - x.phase[i].got;
      var m := Msg(k, fd(k, c), c);
      assert m in x.box[i];
      assert IoStep(x, Take(x, i, m), i, fd(i, c), c);
    }
  }

  lemma CanSendOwn(x: Io, fd: (nat, nat) -> nat, c: nat, i: nat)
    requires IoInv(x, fd, c) && i < |x.phase| && x.phase[i].SendOwn?
    ensures CanStep(x, i, fd(i, c), c)
  {
    var x' := Put(x.(phase := x.phase[i := Recv(0, {})]), 0, Msg(i, fd(i, c), c));
    assert IoStep(x, x', i, fd(i, c), c);
  }

  lemma CanDistribute(x: Io, fd: (nat, nat) -> nat, c: nat)
    requires IoInv(x, fd, c) && (x.phase[0].Send? || x.phase[0].Close?)
    ensures CanStep(x, 0, fd(0, c), c)
  {
    var w := |x.phase|;
    if x.phase[0].Close? {
      var row: seq<int> := x.dst[0][0 := -1];
      assert IoStep(x, x.(phase := x.phase[0 := Done], dst := x.dst[0 := row]), 0, fd(0, c), c);
    } else {
      var d, s := x.phase[0].d, x.phase[0].s;
      var y := x.(phase := x.phase[0 := Send(d, s + 1)]);
      var x' := if d >= w then x.(phase := x.phase[0 := Close])
                else if s >= w then x.(phase := x.phase[0 := Send(d + 1, 0)])
                else if s == d then y else Put(y, d, Msg(s, x.dst[0][s], c));
      assert IoStep(x, x', 0, fd(0, c), c);
    }
  }

  /** Once all ranks are in the exchange and until all are through, some rank can go on,
      whatever has been delivered so far.
   */
  lemma SomebodyMoves(x: Io, fd: (nat, nat) -> nat, c: nat, late: nat) returns (i: nat)
    requires IoInv(x, fd, c) && late < |x.phase| && x.phase[late] != Done
    requires forall k :: 0 <= k < |x.phase| ==> x.phase[k] != Ready
    ensures i < |x.phase| && CanStep(x, i, fd(i, c), c)
  {
    var w := |x.phase|;
    forall k | 0 <= k < w
      ensures x.phase[k].Recv? || x.phase[k].Done? || (if k == 0 then x.phase[k].Send? || x.phase[k].Close? else x.phase[k].SendOwn?)
    {
      assert PhaseOk(x, k);
    }
    i := 0;
    if j :| 0 <= j < w && x.phase[j].SendOwn? {
      i := j;
      CanSendOwn(x, fd, c, j);
    } else if x.phase[0].Recv? {
      assert forall k :: k in Others(0, w) ==> HasSent(x.phase[k]);
      assert SentTo(x, 0) == Others(0, w);
      CanReceive(x, fd, c, 0);
    } else if x.phase[0].Send? || x.phase[0].Close? {
      CanDistribute(x, fd, c);
    } else {
      i := late;
      CanReceive(x, fd, c, late);
    }
  }

  // ----- calls, one after another

  datatype State = State(b: LocalBarrier.State, io: Io)

  ghost predicate WellFormed(s: State) {
    LocalBarrier.WellFormed(s.b) && Shaped(s.io, |s.b.pc|)
  }

  /** What the ranks do between the syncs, and the descriptors they pass. */
  datatype Job = Job(plan: nat -> Section, fd: (nat, nat) -> nat)

  /** A step of `sync`; returning from it starts an exchange or not. */
  function SyncStep(j: Job, s: State, i: nat): State
    requires LocalBarrier.WellFormed(s.b) && |s.io.phase| == |s.io.dst| == |s.b.pc| && i < |s.b.pc|
    requires forall k :: 0 <= k < |s.io.dst| ==> |s.io.dst[k]| == |s.b.pc|
  {
    var b' := LocalBarrier.Step(s.b, i);
    if b'.done == s.b.done then s.(b := b')
    else
      match j.plan(b'.done[i])
      case Pass(c) => State(b', Enter(s.io, i, j.fd(i, c)))
      case _ => State(b', s.io.(phase := s.io.phase[i := Start]))
  }

  /** Rank `i` has done what comes before its next `sync`. */
  predicate SectionDone(j: Job, s: State, i: nat)
    requires i < |s.b.done| && i < |s.io.phase|
  {
    var d := s.b.done[i];
    s.io.phase[i] == if j.plan(d).Pass? then Done else if j.plan(d + 1).Pass? then Ready else Start
  }

  /** A step before the next `sync`: clear the destination for the call to come, or go on with
      the exchange.
   */
  ghost predicate WorkStep(j: Job, s: State, s': State, i: nat)
    requires WellFormed(s)
  {
    && i < |s.b.pc| && s'.b == s.b
    && if s.io.phase[i].Start? then
         j.plan(s.b.done[i] + 1).Pass?
         && s'.io == s.io.(phase := s.io.phase[i := Ready], dst := s.io.dst[i := Blank(|s.b.pc|)])
       else
         j.plan(s.b.done[i]).Pass?
         && var c := j.plan(s.b.done[i]).c; IoStep(s.io, s'.io, i, j.fd(i, c), c)
  }

  ghost predicate Init(s: State) {
    && WellFormed(s) && LocalBarrier.Init(s.b)
    && forall i :: 0 <= i < |s.b.pc| ==> s.io.phase[i] == Start && s.io.box[i] == {}
  }

  // ----- the invariant of all calls

  /** What call `c` leaves in the destination of rank `i`. */
  ghost predicate Delivered(row: seq<int>, i: nat, fd: (nat, nat) -> nat, c: nat) {
    forall k :: 0 <= k < |row| ==> row[k] == if k == i then -1 else fd(k, c)
  }

  /** In some rounds the exchange of call `c` is going on. */
  ghost predicate Exchanging(j: Job, s: State, r: nat, c: nat)
    requires WellFormed(s)
  {
    && IoInv(s.io, j.fd, c)
    && forall i :: 0 <= i < |s.b.pc| ==>
         if s.b.done[i] == r then s.io.phase[i] != Ready && (s.b.pc[i].Outside? || s.io.phase[i] == Done)
         else s.io.phase[i] == Ready
  }

  /** In the others its socket is empty, and a rank that is through with an exchange, or has just
      returned from it, has its result.
   */
  ghost predicate RankBetween(j: Job, w: nat, r: nat, i: nat, outside: bool, d: nat, phase: Phase, row: seq<int>, box: set<Msg>) {
    && box == {}
    && (if d == r then
          if j.plan(r + 1).Pass? then phase == Ready || (phase == Start && outside) else phase == Start
        else phase == if r > 0 && j.plan(r - 1).Pass? then Done else Start)
    && (phase == Ready ==> row == Blank(w))
    && (phase == Done && j.plan(d).Pass? ==> Delivered(row, i, j.fd, j.plan(d).c))
    && (phase == Start && d > 0 && j.plan(d - 1).Pass? ==> Delivered(row, i, j.fd, j.plan(d - 1).c))
  }

  ghost predicate Between(j: Job, s: State, r: nat)
    requires WellFormed(s)
  {
    forall i :: 0 <= i < |s.b.pc| ==>
      RankBetween(j, |s.b.pc|, r, i, s.b.pc[i].Outside?, s.b.done[i], s.io.phase[i], s.io.dst[i], s.io.box[i])
  }

  ghost predicate Inv(j: Job, s: State, r: nat) {
    && PlanOk(j.plan) && WellFormed(s) && LocalBarrier.InvAt(s.b, r)
    && if j.plan(r).Pass? then Exchanging(j, s, r, j.plan(r).c) else Between(j, s, r)
  }

  /** When everybody is through with an exchange, nothing is left in any socket. */
  lemma ExchangeComplete(x: Io, fd: (nat, nat) -> nat, c: nat)
    requires IoInv(x, fd, c) && forall i :: 0 <= i < |x.phase| ==> x.phase[i] == Done
    ensures forall i :: 0 <= i < |x.phase| ==> x.box[i] == {} && Delivered(x.dst[i], i, fd, c)
  {
    forall i | 0 <= i < |x.phase|
      ensures x.box[i] == {} && Delivered(x.dst[i], i, fd, c)
    {
      assert BoxOk(x, fd, c, i) && DstOk(x, fd, c, i);
    }
  }

  lemma FreshExchange(x: Io, fd: (nat, nat) -> nat, c: nat)
    requires Shaped(x, |x.phase|) && |x.phase| > 0
    requires forall i :: 0 <= i < |x.phase| ==> x.phase[i] == Ready && x.box[i] == {} && x.dst[i] == Blank(|x.phase|)
    ensures IoInv(x, fd, c)
  {
    forall i | 0 <= i < |x.phase|
      ensures PhaseOk(x, i) && BoxOk(x, fd, c, i) && DstOk(x, fd, c, i)
    {
      assert SentTo(x, i) == {};
    }
  }

  /** A step of the barrier moves one rank only. */
  lemma BarrierFrame(b: LocalBarrier.State, i: nat)
    requires LocalBarrier.WellFormed(b) && i < |b.pc|
    ensures forall k :: 0 <= k < |b.pc| && k != i ==>
              LocalBarrier.Step(b, i).pc[k] == b.pc[k] && LocalBarrier.Step(b, i).done[k] == b.done[k]
  {
  }

  lemma BetweenOthers(j: Job, s: State, s': State, i: nat, r: nat)
    requires WellFormed(s) && WellFormed(s') && Between(j, s, r) && i < |s.b.pc| == |s'.b.pc|
    requires forall k :: 0 <= k < |s.b.pc| && k != i ==> s'.b.pc[k] == s.b.pc[k] && s'.b.done[k] == s.b.done[k]
    requires forall k :: 0 <= k < |s.b.pc| && k != i ==>
               s'.io.phase[k] == s.io.phase[k] && s'.io.dst[k] == s.io.dst[k] && s'.io.box[k] == s.io.box[k]
    requires RankBetween(j, |s.b.pc|, r, i, s'.b.pc[i].Outside?, s'.b.done[i], s'.io.phase[i], s'.io.dst[i], s'.io.box[i])
    ensures Between(j, s', r)
  {
    forall k | 0 <= k < |s'.b.pc|
      ensures RankBetween(j, |s'.b.pc|, r, k, s'.b.pc[k].Outside?, s'.b.done[k], s'.io.phase[k], s'.io.dst[k], s'.io.box[k])
    {
      assert RankBetween(j, |s.b.pc|, r, k, s.b.pc[k].Outside?, s.b.done[k], s.io.phase[k], s.io.dst[k], s.io.box[k]);
    }
  }

  /** The last rank to leave a barrier ends one round and begins the next. */
  lemma TurnInv(j: Job, s: State, i: nat, r: nat)
    requires Inv(j, s, r) && i < |s.b.pc| && s.b.pc[i].ClearSense?
    ensures Inv(j, SyncStep(j, s, i), r + 1)
  {
    LocalBarrier.StepInv(s.b, i, r);
    assert s.b.sense;
    if j.plan(r).Pass? {
      ExchangeComplete(s.io, j.fd, j.plan(r).c);
    } else if j.plan(r + 1).Pass? {
      FreshExchange(s.io, j.fd, j.plan(r + 1).c);
    }
  }

  /** Leaving a barrier: into an exchange, or not. */
  lemma ReturnInto(j: Job, s: State, i: nat, r: nat)
    requires Inv(j, s, r) && j.plan(r).Pass? && i < |s.b.pc| && s.b.pc[i].AwaitDown? && !s.b.sense
    ensures Inv(j, SyncStep(j, s, i), r)
  {
    LocalBarrier.StepInv(s.b, i, r);
    EnterInv(s.io, j.fd, j.plan(r).c, i);
  }

  lemma ReturnFrom(j: Job, s: State, i: nat, r: nat)
    requires Inv(j, s, r) && !j.plan(r).Pass? && i < |s.b.pc| && s.b.pc[i].AwaitDown? && !s.b.sense
    ensures Inv(j, SyncStep(j, s, i), r)
  {
    LocalBarrier.StepInv(s.b, i, r);
    BarrierFrame(s.b, i);
    assert s.b.done[i] == r - 1;
    assert RankBetween(j, |s.b.pc|, r, i, false, r - 1, s.io.phase[i], s.io.dst[i], s.io.box[i]);
    BetweenOthers(j, s, SyncStep(j, s, i), i, r);
  }

  /** Moving inside a barrier, or into it when ready for it. */
  lemma InsideBetween(j: Job, s: State, i: nat, r: nat)
    requires Inv(j, s, r) && !j.plan(r).Pass? && i < |s.b.pc| && (!s.b.pc[i].Outside? || SectionDone(j, s, i))
    requires !s.b.pc[i].ClearSense? && !(s.b.pc[i].AwaitDown? && !s.b.sense)
    ensures Inv(j, SyncStep(j, s, i), r)
  {
    LocalBarrier.StepInv(s.b, i, r);
    BarrierFrame(s.b, i);
    assert RankBetween(j, |s.b.pc|, r, i, s.b.pc[i].Outside?, s.b.done[i], s.io.phase[i], s.io.dst[i], s.io.box[i]);
    assert s.b.pc[i].Outside? ==> s.b.done[i] == r;
    BetweenOthers(j, s, SyncStep(j, s, i), i, r);
  }

  lemma InsideExchange(j: Job, s: State, i: nat, r: nat)
    requires Inv(j, s, r) && j.plan(r).Pass? && i < |s.b.pc| && (!s.b.pc[i].Outside? || SectionDone(j, s, i))
    requires !s.b.pc[i].ClearSense? && !(s.b.pc[i].AwaitDown? && !s.b.sense)
    ensures Inv(j, SyncStep(j, s, i), r)
  {
    LocalBarrier.StepInv(s.b, i, r);
    BarrierFrame(s.b, i);
    assert LocalBarrier.Step(s.b, i).done == s.b.done;
    assert s.b.pc[i].Outside? ==> s.b.done[i] == r;
  }

  lemma SyncInv(j: Job, s: State, i: nat, r: nat)
    requires Inv(j, s, r) && i < |s.b.pc| && (!s.b.pc[i].Outside? || SectionDone(j, s, i))
    ensures Inv(j, SyncStep(j, s, i), LocalBarrier.NextRound(s.b, i, r))
  {
    if s.b.pc[i].ClearSense? {
      TurnInv(j, s, i, r);
    } else if s.b.pc[i].AwaitDown? && !s.b.sense {
      if j.plan(r).Pass? { ReturnInto(j, s, i, r); } else { ReturnFrom(j, s, i, r); }
    } else {
      if j.plan(r).Pass? { InsideExchange(j, s, i, r); } else { InsideBetween(j, s, i, r); }
    }
  }

  lemma WorkInv(j: Job, s: State, s': State, i: nat, r: nat)
    requires Inv(j, s, r) && WorkStep(j, s, s', i) && s.b.pc[i].Outside?
    ensures Inv(j, s', r)
  {
    assert s.b.done[i] == r;
    if j.plan(r).Pass? {
      assert PhaseOk(s.io, i);
      IoStepInv(s.io, s'.io, j.fd, j.plan(r).c, i);
      assert forall k :: 0 <= k < |s.b.pc| && k != i ==> s'.io.phase[k] == s.io.phase[k];
    } else {
      assert RankBetween(j, |s.b.pc|, r, i, true, r, s.io.phase[i], s.io.dst[i], s.io.box[i]);
      BetweenOthers(j, s, s', i, r);
    }
  }

  lemma InitOk(j: Job, s: State)
    requires PlanOk(j.plan) && Init(s)
    ensures Inv(j, s, 0)
  {
    LocalBarrier.InitInv(s.b);
  }

  // ----- what follows from it

  lemma PhaseInRound(j: Job, s: State, i: nat, r: nat)
    requires Inv(j, s, r) && i < |s.b.pc|
    ensures s.io.phase[i] != Failed
    ensures j.plan(r).Pass? ==> s.io.phase[i] != Start
  {
    if j.plan(r).Pass? {
      assert PhaseOk(s.io, i);
    }
  }

  /** A rank that is in no exchange has cleared its destination for the next or not. */
  lemma PhaseAfter(j: Job, s: State, i: nat, r: nat)
    requires Inv(j, s, r) && i < |s.b.pc| && !j.plan(s.b.done[i]).Pass?
    ensures s.io.phase[i] == Start || s.io.phase[i] == Ready
  {
    if !j.plan(r).Pass? {
      assert RankBetween(j, |s.b.pc|, r, i, s.b.pc[i].Outside?, s.b.done[i], s.io.phase[i], s.io.dst[i], s.io.box[i]);
    }
  }

  /** When rank `i` has returned from a call, its destination holds every other rank's descriptor
      of that same call and -1 for itself, and no socket holds a datagram.
   */
  lemma ReturnedFrom(j: Job, s: State, i: nat, r: nat, d: nat)
    requires Inv(j, s, r) && i < |s.b.pc| && j.plan(d).Pass?
    requires s.b.done[i] == d + 1 && s.io.phase[i] == Start
    ensures Delivered(s.io.dst[i], i, j.fd, j.plan(d).c)
    ensures forall k :: 0 <= k < |s.b.pc| ==> s.io.box[k] == {}
  {
    PhaseInRound(j, s, i, r);
    assert j.plan(d + 1) == Nothing;
    assert s.b.done[i] == r || s.b.done[i] == r - 1;
    assert RankBetween(j, |s.b.pc|, r, i, s.b.pc[i].Outside?, d + 1, s.io.phase[i], s.io.dst[i], s.io.box[i]);
  }

  /** Every datagram waiting in a socket belongs to the call its receiver is in. */
  lemma WaitingIsOwn(j: Job, s: State, i: nat, r: nat, m: Msg)
    requires Inv(j, s, r) && i < |s.b.pc| && m in s.io.box[i]
    ensures m == Msg(m.src, j.fd(m.src, m.call), m.call) && m.src != i
    ensures j.plan(s.b.done[i]) == Pass(m.call) || (j.plan(s.b.done[i] + 1) == Pass(m.call) && s.io.phase[i] == Ready)
  {
    if j.plan(r).Pass? {
      assert BoxOk(s.io, j.fd, j.plan(r).c, i);
    }
  }
}
