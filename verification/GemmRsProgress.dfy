/** That the reduction of gemm_rs comes to an end: a measure of the work left which no step of a
    CTA raises and every step that gets something done lowers, and from every state of every
    run, once all words and local values are in, a way to the finished output.
 */
module GemmRsProgress {
  import opened Arith
  import opened ArrivalQueue
  import opened ArrivalWord
  import opened PeerSums
  import opened TicketQueue
  import opened GemmRsReduce

  // ----- the work left

  // Bounds on the steps that one item can still cause.
  const WORK := 30   // a work still to be marked
  const ENTRY := 20  // an entry of the accumulation queue
  const READY := 8   // an entry of the ready queue

  /** What a CTA has in hand. */
  function Rank(pc: Pc): nat {
    match pc
    case DWork(ws) => WORK * |ws| + 1
    case DTicket(_, ws) => WORK * |ws| + 26
    case DPublish(_, _, ws) => WORK * |ws| + 2
    case ASpin(_) => 19
    case AWait(_, _) => 18
    case ALock(_, _) => 17
    case ARead(_, _) => 16
    case AWrite(_, _, _) => 15
    case AUnlock(_, _) => 14
    case ACount(_, _) => 13
    case AFlag(_) => 12
    case ARTicket(_) => 11
    case ARPublish(_, _) => 1
    case RSpin(_) => 7
    case RWait(_, _) => 6
    case ROut(_, _) => 5
    case RDone(_, _) => 4
    case _ => 0
  }

  lemma RankIsZero(pc: Pc)
    ensures Rank(pc) == 0 <==> Polling(pc)
  {
  }

  ghost function Ranks(pc: seq<Pc>, n: nat): nat
    requires n <= |pc|
  {
    if n == 0 then 0 else Ranks(pc, n - 1) + Rank(pc[n - 1])
  }

  ghost function EntriesLeft<T>(q: Queue<T>): int {
    |q.tickets| - q.head
  }

  ghost function SharedLeft(cfg: Cfg, h: Shared): int {
    (if |h.inbox.heads| == |h.inbox.flags| then WordsLeft(cfg.decode, WORK, h.inbox, |h.inbox.heads|) else 0) + ENTRY * EntriesLeft(h.acc) + READY * EntriesLeft(h.rdy)
  }

  ghost function Left(cfg: Cfg, s: State): int {
    SharedLeft(cfg, s.sh) + Ranks(s.pc, |s.pc|)
  }

  lemma {:induction false} RanksAfter(pc: seq<Pc>, i: nat, x: Pc, n: nat)
    requires i < |pc| && n <= |pc|
    ensures Ranks(pc[i := x], n) == Ranks(pc, n) + if i < n then Rank(x) - Rank(pc[i]) else 0
  {
    if n == 0 {
    } else {
      RanksAfter(pc, i, x, n - 1);
    }
  }

  // ----- no step raises it

  /** A step gets something done, or leaves everything shared as it is and the CTA polling or
      spinning.
   */
  ghost predicate Lowers(cfg: Cfg, s: State, s': State, i: nat)
    requires i < |s.pc|
  {
    || Left(cfg, s') < Left(cfg, s)
    || (s'.sh == s.sh && |s'.pc| == |s.pc| && Left(cfg, s') == Left(cfg, s) && (s' == s || (Polling(s.pc[i]) && Polling(s'.pc[i]))))
  }

  /** How a step of CTA `i` changes the work left. */
  lemma LeftAfter(cfg: Cfg, s: State, s': State, i: nat)
    requires i < |s.pc| == |s'.pc| && s'.pc == s.pc[i := s'.pc[i]]
    ensures Left(cfg, s') - Left(cfg, s) == SharedLeft(cfg, s'.sh) - SharedLeft(cfg, s.sh) + Rank(s'.pc[i]) - Rank(s.pc[i])
  {
    RanksAfter(s.pc, i, s'.pc[i], |s.pc|);
  }

  lemma DrainLowers(cfg: Cfg, s: State, i: nat)
    requires |s.sh.inbox.heads| == |s.sh.inbox.flags| && i < |s.pc| && Draining(s.pc[i]) && ClaimOk(s.sh.inbox, s.pc[i])
    ensures Lowers(cfg, s, DrainStep(cfg, s, i), i)
  {
    var s' := DrainStep(cfg, s, i);
    LeftAfter(cfg, s, s', i);
    if s.pc[i].DClaim? && s.sh.inbox.heads[s.pc[i].q] == s.pc[i].h {
      WordsAfter(cfg.decode, WORK, s.sh.inbox, s.pc[i].q, |s.sh.inbox.heads|);
    }
  }

  lemma PopLowers(cfg: Cfg, s: State, i: nat)
    requires i < |s.pc| && Popping(s.pc[i])
    ensures Lowers(cfg, s, PopAccStep(cfg, s, i), i)
  {
    LeftAfter(cfg, s, PopAccStep(cfg, s, i), i);
  }

  lemma AddLowers(cfg: Cfg, s: State, i: nat)
    requires |s.sh.sums.staging| == |s.sh.sums.count| == cfg.chunks
    requires i < |s.pc| && Adding(s.pc[i])
    ensures Lowers(cfg, s, AddStep(cfg, s, i), i)
  {
    LeftAfter(cfg, s, AddStep(cfg, s, i), i);
  }

  lemma AnnounceLowers(cfg: Cfg, s: State, i: nat)
    requires i < |s.pc| && Announcing(s.pc[i])
    ensures Lowers(cfg, s, ReadyStep(s, i), i)
  {
    LeftAfter(cfg, s, ReadyStep(s, i), i);
  }

  lemma OutLowers(cfg: Cfg, s: State, i: nat)
    requires |s.sh.res.out| == |s.sh.sums.staging|
    requires i < |s.pc| && WritingOut(s.pc[i])
    ensures Lowers(cfg, s, OutStep(s, i), i)
  {
    LeftAfter(cfg, s, OutStep(s, i), i);
  }

  /** Every step of every CTA, at every state of every run, lowers the work left or is a poll. */
  lemma StepLowers(cfg: Cfg, s: State, i: nat, a: Choice)
    requires Shaped(cfg, s.sh) && i < |s.pc| && ClaimOk(s.sh.inbox, s.pc[i])
    ensures Lowers(cfg, s, Step(cfg, s, i, a), i)
  {
    if s.pc[i].Idle? {
      LeftAfter(cfg, s, StartStep(s, i, a), i);
    } else if Draining(s.pc[i]) {
      DrainLowers(cfg, s, i);
    } else if Popping(s.pc[i]) {
      PopLowers(cfg, s, i);
    } else if Adding(s.pc[i]) {
      AddLowers(cfg, s, i);
    } else if Announcing(s.pc[i]) {
      AnnounceLowers(cfg, s, i);
    } else {
      OutLowers(cfg, s, i);
    }
  }

  // ----- and some step lowers it

  lemma {:induction false} RanksZero(pc: seq<Pc>, n: nat)
    requires n <= |pc|
    ensures Ranks(pc, n) == 0 <==> forall i :: 0 <= i < n ==> Polling(pc[i])
  {
    if n == 0 {
    } else {
      RanksZero(pc, n - 1);
      RankIsZero(pc[n - 1]);
    }
  }

  /** Nothing in any queue and nobody busy: then the CTAs have run dry, and not before. */
  lemma LeftIsZero(cfg: Cfg, s: State)
    requires |s.sh.inbox.heads| == |s.sh.inbox.flags|
    requires s.sh.acc.head <= |s.sh.acc.tickets| && s.sh.rdy.head <= |s.sh.rdy.tickets|
    ensures Left(cfg, s) >= 0
    ensures Left(cfg, s) == 0 <==> Quiet(s)
  {
    RanksZero(s.pc, |s.pc|);
    WordsZero(cfg.decode, WORK, s.sh.inbox, |s.sh.inbox.heads|);
  }

  // ----- schedules

  /** CTA `i` takes a step, towards `a` if it is idle. */
  datatype Move = Move(i: nat, a: Choice)

  ghost function Do(cfg: Cfg, s: State, m: Move): State {
    if Shaped(cfg, s.sh) && m.i < |s.pc| then Step(cfg, s, m.i, m.a) else s
  }

  ghost function After(cfg: Cfg, s: State, moves: seq<Move>): State
    decreases |moves|
  {
    if moves == [] then s else After(cfg, Do(cfg, s, moves[0]), moves[1..])
  }

  lemma {:induction false} AfterBoth(cfg: Cfg, s: State, ms: seq<Move>, ms': seq<Move>)
    ensures After(cfg, s, ms + ms') == After(cfg, After(cfg, s, ms), ms')
    decreases |ms|
  {
    if ms == [] {
      assert ms + ms' == ms';
    } else {
      assert (ms + ms')[1..] == ms[1..] + ms';
      AfterBoth(cfg, Do(cfg, s, ms[0]), ms[1..], ms');
    }
  }

  lemma AfterMore(cfg: Cfg, s: State, m: Move, ms: seq<Move>)
    ensures After(cfg, s, [m] + ms) == After(cfg, Do(cfg, s, m), ms)
  {
    assert ([m] + ms)[1..] == ms;
  }

  /** All local values of owned chunks have been handed over, and there is a CTA to work. */
  ghost predicate CanWork(cfg: Cfg, s: State) {
    |s.pc| > 0 && forall c :: 0 <= c < cfg.chunks && Owns(cfg, c) ==> c in s.sh.sums.senderDone
  }

  /** What a step of a CTA leaves as it is. */
  ghost predicate SameInput(s: State, s': State) {
    && |s'.pc| == |s.pc| && s'.sh.sums.senderDone == s.sh.sums.senderDone
    && s'.sh.inbox.flags == s.sh.inbox.flags
  }

  /** `s'` comes from `s` by steps of CTAs that did not raise the work left. */
  ghost predicate Later(cfg: Cfg, s: State, s': State) {
    Good(cfg, s') && SameInput(s, s') && Left(cfg, s') <= Left(cfg, s)
  }

  lemma StepSameInput(cfg: Cfg, s: State, i: nat, a: Choice)
    requires Shaped(cfg, s.sh) && i < |s.pc|
    ensures SameInput(s, Step(cfg, s, i, a))
  {
  }

  lemma DoLater(cfg: Cfg, s: State, m: Move)
    requires Good(cfg, s) && m.i < |s.pc|
    ensures Later(cfg, s, Do(cfg, s, m)) && Lowers(cfg, s, Do(cfg, s, m), m.i)
  {
    StepGood(cfg, s, m.i, m.a);
    StepSameInput(cfg, s, m.i, m.a);
    assert ClaimOk(s.sh.inbox, s.pc[m.i]);
    StepLowers(cfg, s, m.i, m.a);
  }

  // ----- with nobody busy

  /** What an idle CTA should turn to. */
  ghost predicate Worthwhile(h: Shared, a: Choice) {
    match a
    case Accumulate => h.acc.head < |h.acc.tickets|
    case PopReady => h.rdy.head < |h.rdy.tickets|
    case Drain(q) => q < |h.inbox.heads| == |h.inbox.flags| && HeadWord(h.inbox, q) != 0
  }

  /** Undisturbed, it looks at the queue, sees the entry and takes it. */
  lemma ThreeSteps(cfg: Cfg, s: State, i: nat, a: Choice)
    requires Shaped(cfg, s.sh) && i < |s.pc| && s.pc[i].Idle? && Worthwhile(s.sh, a)
    ensures var m := Move(i, a);
            var s1 := Do(cfg, s, m); var s2 := Do(cfg, s1, m); var s3 := Do(cfg, s2, m);
            s1.sh == s2.sh == s.sh && |s1.pc| == |s2.pc| == |s.pc| && s3.sh != s2.sh
  {
    var m := Move(i, a);
    var s1 := Do(cfg, s, m);
    var s2 := Do(cfg, s1, m);
    match a {
      case Accumulate => assert s1.pc[i] == ATail(s.sh.acc.head) && s2.pc[i] == ACas(s.sh.acc.head);
      case PopReady => assert s1.pc[i] == RTail(s.sh.rdy.head) && s2.pc[i] == RCas(s.sh.rdy.head);
      case Drain(q) =>
        assert s1.pc[i] == DFlag(q, s.sh.inbox.heads[q]);
        assert s2.pc[i] == DClaim(q, s.sh.inbox.heads[q], HeadWord(s.sh.inbox, q));
        assert Advance(s.sh.inbox, q).heads[q] != s.sh.inbox.heads[q];
    }
  }

  lemma IdleLowers(cfg: Cfg, s: State, i: nat, a: Choice) returns (moves: seq<Move>)
    requires Good(cfg, s) && i < |s.pc| && s.pc[i].Idle? && Worthwhile(s.sh, a)
    ensures |moves| == 3 && Later(cfg, s, After(cfg, s, moves)) && Left(cfg, After(cfg, s, moves)) < Left(cfg, s)
  {
    var m := Move(i, a);
    moves := [m] + ([m] + ([m] + []));
    ThreeSteps(cfg, s, i, a);
    var s1 := Do(cfg, s, m);
    DoLater(cfg, s, m);
    var s2 := Do(cfg, s1, m);
    DoLater(cfg, s1, m);
    DoLater(cfg, s2, m);
    AfterMore(cfg, s, m, [m] + ([m] + []));
    AfterMore(cfg, s1, m, [m] + []);
    AfterMore(cfg, s2, m, []);
  }

  /** A CTA that polls takes something or is idle within two steps. */
  lemma PollEnds(cfg: Cfg, s: State, i: nat, a: Choice)
    requires Shaped(cfg, s.sh) && i < |s.pc| && Polling(s.pc[i])
    ensures var s1 := Do(cfg, s, Move(i, a)); var s2 := Do(cfg, s1, Move(i, a));
            && |s1.pc| == |s2.pc| == |s.pc|
            && (s.pc[i].Idle? || s1.sh != s.sh || s1.pc[i].Idle? || s2.sh != s1.sh || s2.pc[i].Idle?)
  {
  }

  lemma PollLowers(cfg: Cfg, s: State, i: nat) returns (moves: seq<Move>)
    requires Good(cfg, s) && i < |s.pc| && Polling(s.pc[i])
    ensures |moves| <= 2 && Later(cfg, s, After(cfg, s, moves))
    ensures Left(cfg, After(cfg, s, moves)) < Left(cfg, s)
            || (After(cfg, s, moves).pc[i].Idle? && After(cfg, s, moves).sh == s.sh)
  {
    var m := Move(i, Accumulate);
    PollEnds(cfg, s, i, Accumulate);
    if s.pc[i].Idle? {
      moves := [];
    } else {
      var s1 := Do(cfg, s, m);
      DoLater(cfg, s, m);
      AfterMore(cfg, s, m, []);
      moves := [m] + [];
      if Left(cfg, s1) >= Left(cfg, s) && !s1.pc[i].Idle? {
        DoLater(cfg, s1, m);
        AfterMore(cfg, s1, m, []);
        AfterMore(cfg, s, m, [m] + []);
        moves := [m] + ([m] + []);
      }
    }
  }

  /** If there is anything in a queue, it is worth looking for. */
  lemma SomethingWorthwhile(cfg: Cfg, s: State) returns (a: Choice)
    requires |s.sh.inbox.heads| == |s.sh.inbox.flags|
    requires (forall i :: 0 <= i < |s.pc| ==> Polling(s.pc[i])) && !Quiet(s)
    requires s.sh.acc.head <= |s.sh.acc.tickets| && s.sh.rdy.head <= |s.sh.rdy.tickets|
    ensures Worthwhile(s.sh, a)
  {
    if s.sh.acc.head < |s.sh.acc.tickets| {
      a := Accumulate;
    } else if s.sh.rdy.head < |s.sh.rdy.tickets| {
      a := PopReady;
    } else {
      var q :| 0 <= q < |s.sh.inbox.heads| && HeadWord(s.sh.inbox, q) != 0;
      a := Drain(q);
    }
  }

  // ----- some way lowers it

  lemma BusyLowers(cfg: Cfg, s: State, i: nat) returns (moves: seq<Move>)
    requires Good(cfg, s) && CanWork(cfg, s) && i < |s.pc| && !Polling(s.pc[i])
    ensures |moves| <= 5 && Later(cfg, s, After(cfg, s, moves)) && Left(cfg, After(cfg, s, moves)) < Left(cfg, s)
  {
    assert PcOk(cfg, s.sh, s.pc[i]);
    var j := BusyCtaMoves(cfg, s, i, Accumulate);
    DoLater(cfg, s, Move(j, Accumulate));
    AfterMore(cfg, s, Move(j, Accumulate), []);
    moves := [Move(j, Accumulate)] + [];
  }

  lemma CalmLowers(cfg: Cfg, s: State) returns (moves: seq<Move>)
    requires Good(cfg, s) && CanWork(cfg, s) && !Quiet(s) && forall i :: 0 <= i < |s.pc| ==> Polling(s.pc[i])
    ensures |moves| <= 5 && Later(cfg, s, After(cfg, s, moves)) && Left(cfg, After(cfg, s, moves)) < Left(cfg, s)
  {
    LeftIsZero(cfg, s);
    var a := SomethingWorthwhile(cfg, s);
    moves := PollLowers(cfg, s, 0);
    var s1 := After(cfg, s, moves);
    if Left(cfg, s1) >= Left(cfg, s) {
      var more := IdleLowers(cfg, s1, 0, a);
      AfterBoth(cfg, s, moves, more);
      moves := moves + more;
    }
  }

  /** From every reachable state some schedule of the CTAs runs dry, in at most five steps for
      each unit of the work left.
   */
  lemma CanRunDry(cfg: Cfg, s: State) returns (moves: seq<Move>)
    requires Good(cfg, s) && CanWork(cfg, s)
    ensures |moves| <= 5 * Left(cfg, s) && Later(cfg, s, After(cfg, s, moves)) && Quiet(After(cfg, s, moves))
    decreases Left(cfg, s)
  {
    LeftIsZero(cfg, s);
    if Quiet(s) {
      moves := [];
    } else {
      if i :| 0 <= i < |s.pc| && !Polling(s.pc[i]) {
        moves := BusyLowers(cfg, s, i);
      } else {
        moves := CalmLowers(cfg, s);
      }
      var s1 := After(cfg, s, moves);
      LeftIsZero(cfg, s1);
      var more := CanRunDry(cfg, s1);
      AfterBoth(cfg, s, moves, more);
      moves := moves + more;
    }
  }

  /** So whatever has happened so far, once every owned chunk has been handed over and announced
      by every peer, the CTAs can still finish: no interleaving leads to a dead end.
   */
  lemma CanFinish(cfg: Cfg, run: seq<State>, n: nat) returns (moves: seq<Move>)
    requires IsRun(cfg, run) && n < |run| && CanWork(cfg, run[n]) && AllAnnounced(cfg, run[n].sh.inbox)
    ensures Finished(cfg, After(cfg, run[n], moves).sh)
    ensures |moves| <= 5 * Left(cfg, run[n])
  {
    RunGood(cfg, run, n);
    moves := CanRunDry(cfg, run[n]);
    var s := After(cfg, run[n], moves);
    forall p: nat, c: nat | p < cfg.peers && c < cfg.chunks && Owns(cfg, c)
      ensures Landed(s.sh.inbox, cfg.decode, Work(p, c))
    {
      assert Landed(run[n].sh.inbox, cfg.decode, Work(p, c));
    }
    QuietMeansFinished(cfg, s);
  }

  /** The same for the words of the kernel. */
  lemma KernelCanFinish(z: Shape, cfg: Cfg, run: seq<State>, n: nat) returns (moves: seq<Move>)
    requires ShapeOk(z) && cfg == KernelCfg(z, cfg.peers, cfg.node, cfg.receiverOwner, cfg.local, cfg.recv)
    requires IsRun(cfg, run) && n < |run| && CanWork(cfg, run[n]) && GroupsAnnounced(z, cfg, run[n].sh.inbox)
    ensures Finished(cfg, After(cfg, run[n], moves).sh)
  {
    GroupsAnnounceAll(z, cfg, run[n].sh.inbox);
    moves := CanFinish(cfg, run, n);
  }
}
