/** All calls of a `LocalBroker` together: every rank makes the same calls of `exchange_data`,
    `exchange_fds` and `sync`, in any order, over one barrier, one vault and one set of sockets.
 */
module Broker {
  import LocalBarrier
  import ExchangeData
  import ExchangeFds
  import opened BrokerPlan

  /** What the ranks do between the syncs, and what they pass to each call. */
  datatype Job = Job(plan: nat -> Section, src: (nat, nat) -> seq<ExchangeData.byte>, fd: (nat, nat) -> nat)

  ghost predicate JobOk(j: Job) {
    PlanOk(j.plan) && ExchangeData.Uniform(j.src)
  }

  function DataJob(j: Job): ExchangeData.Job { ExchangeData.Job(j.plan, j.src) }

  function FdsJob(j: Job): ExchangeFds.Job { ExchangeFds.Job(j.plan, j.fd) }

  /** The vault and the sockets, seen with the one barrier they share. */
  datatype State = State(data: ExchangeData.State, fds: ExchangeFds.State)

  ghost predicate Shaped(s: State) {
    s.data.b == s.fds.b && ExchangeData.Shaped(s.data) && ExchangeFds.WellFormed(s.fds)
  }

  function Ranks(s: State): nat { |s.data.b.pc| }

  /** Rank `i` has done what comes before its next `sync`. */
  ghost predicate SectionDone(j: Job, s: State, i: nat)
    requires Shaped(s) && i < Ranks(s)
  {
    ExchangeData.SectionDone(DataJob(j), s.data, i) && ExchangeFds.SectionDone(FdsJob(j), s.fds, i)
  }

  ghost predicate StepOf(j: Job, s: State, s': State, i: nat)
    requires JobOk(j) && Shaped(s)
  {
    i < Ranks(s) &&
    if !s.data.b.pc[i].Outside? || SectionDone(j, s, i) then
      s' == State(ExchangeData.SyncStep(s.data, i), ExchangeFds.SyncStep(FdsJob(j), s.fds, i))
    else if !ExchangeData.SectionDone(DataJob(j), s.data, i) then
      s' == s.(data := ExchangeData.CopyStep(DataJob(j), s.data, i))
    else
      s'.data == s.data && ExchangeFds.WorkStep(FdsJob(j), s.fds, s'.fds, i)
  }

  ghost predicate Next(j: Job, s: State, s': State) {
    JobOk(j) && Shaped(s) && exists i: nat :: StepOf(j, s, s', i)
  }

  ghost predicate Init(s: State) {
    Shaped(s) && ExchangeData.Init(s.data) && ExchangeFds.Init(s.fds)
  }

  ghost predicate IsRun(j: Job, run: seq<State>) {
    && JobOk(j) && |run| > 0
    && Init(run[0])
    && forall n :: 0 <= n < |run| - 1 ==> Next(j, run[n], run[n + 1])
  }

  // ----- both invariants hold together

  ghost predicate Inv(j: Job, s: State, r: nat) {
    && s.data.b == s.fds.b
    && ExchangeData.Inv(DataJob(j), s.data, r)
    && ExchangeFds.Inv(FdsJob(j), s.fds, r)
  }

  lemma StepInv(j: Job, s: State, s': State, i: nat, r: nat) returns (r': nat)
    requires JobOk(j) && Shaped(s) && Inv(j, s, r) && StepOf(j, s, s', i)
    ensures Inv(j, s', r')
  {
    r' := r;
    if !s.data.b.pc[i].Outside? || SectionDone(j, s, i) {
      r' := LocalBarrier.NextRound(s.data.b, i, r);
      ExchangeData.SyncStepInv(DataJob(j), s.data, i, r);
      ExchangeFds.SyncInv(FdsJob(j), s.fds, i, r);
    } else if !ExchangeData.SectionDone(DataJob(j), s.data, i) {
      ExchangeData.CopyStepInv(DataJob(j), s.data, i, r);
    } else {
      ExchangeFds.WorkInv(FdsJob(j), s.fds, s'.fds, i, r);
    }
  }

  lemma {:induction false} RunInv(j: Job, run: seq<State>, n: nat) returns (r: nat)
    requires IsRun(j, run) && n < |run|
    ensures Shaped(run[n]) && Inv(j, run[n], r)
  {
    if n == 0 {
      r := 0;
      ExchangeData.InitOk(DataJob(j), run[0].data);
      ExchangeFds.InitOk(FdsJob(j), run[0].fds);
    } else {
      r := RunInv(j, run, n - 1);
      assert Next(j, run[n - 1], run[n - 1 + 1]);
      var i: nat :| StepOf(j, run[n - 1], run[n], i);
      r := StepInv(j, run[n - 1], run[n], i, r);
    }
  }

  // ----- main results

  /** In every run, whatever the interleaving and whatever calls came before: when rank `i` has
      copied out all cells for call `c`, its buffer holds exactly the bytes that every rank
      contributed to that same call.
   */
  lemma AllGatherCorrect(j: Job, run: seq<State>, n: nat, i: nat, c: nat)
    requires IsRun(j, run) && n < |run| && Shaped(run[n]) && i < Ranks(run[n])
    requires j.plan(run[n].data.b.done[i]) == Read(c) && ExchangeData.SectionDone(DataJob(j), run[n].data, i)
    ensures run[n].data.dst[i] == ExchangeData.Gathered(j.src, c, Ranks(run[n]))
  {
    var r := RunInv(j, run, n);
    ExchangeData.CopiedAll(DataJob(j), run[n].data, r, i);
  }

  /** When rank `i` has returned from call `c`, its destination holds every other rank's
      descriptor of that same call and -1 for itself, and no socket holds a datagram, so no
      later call can see one of this call.
   */
  lemma FdsExchanged(j: Job, run: seq<State>, n: nat, i: nat, d: nat, c: nat)
    requires IsRun(j, run) && n < |run| && Shaped(run[n]) && i < Ranks(run[n])
    requires j.plan(d) == Pass(c) && run[n].fds.b.done[i] == d + 1 && run[n].fds.io.phase[i] == ExchangeFds.Start
    ensures forall k :: 0 <= k < Ranks(run[n]) ==> run[n].fds.io.dst[i][k] == if k == i then -1 else j.fd(k, c)
    ensures forall k :: 0 <= k < Ranks(run[n]) ==> run[n].fds.io.box[k] == {}
  {
    var r := RunInv(j, run, n);
    ExchangeFds.ReturnedFrom(FdsJob(j), run[n].fds, i, r, d);
  }

  /** No rank ever throws: every datagram received is valid and from somebody else. */
  lemma NeverFails(j: Job, run: seq<State>, n: nat, i: nat)
    requires IsRun(j, run) && n < |run| && Shaped(run[n]) && i < Ranks(run[n])
    ensures run[n].fds.io.phase[i] != ExchangeFds.Failed
  {
    var r := RunInv(j, run, n);
    ExchangeFds.PhaseInRound(FdsJob(j), run[n].fds, i, r);
  }

  /** Every datagram waiting in a socket belongs to the call its receiver is in or about to
      enter.
   */
  lemma CallsNeverMix(j: Job, run: seq<State>, n: nat, i: nat, m: ExchangeFds.Msg)
    requires IsRun(j, run) && n < |run| && Shaped(run[n]) && i < Ranks(run[n]) && m in run[n].fds.io.box[i]
    ensures m == ExchangeFds.Msg(m.src, j.fd(m.src, m.call), m.call) && m.src != i
    ensures var d := run[n].fds.b.done[i];
            j.plan(d) == Pass(m.call) || (j.plan(d + 1) == Pass(m.call) && run[n].fds.io.phase[i] == ExchangeFds.Ready)
  {
    var r := RunInv(j, run, n);
    ExchangeFds.WaitingIsOwn(FdsJob(j), run[n].fds, i, r, m);
  }

  // ----- programs of calls

  /** The ranks of a run make the calls of a program, one after another. */
  ghost predicate RunsProgram(calls: seq<Call>, j: Job, run: seq<State>) {
    j.plan == PlanOf(calls) && IsRun(j, run)
  }

  /** Rank `i` is through with what it does after its last `sync`, or has gone on to the next. */
  ghost predicate HasCopied(j: Job, s: State, i: nat)
    requires Shaped(s) && i < Ranks(s)
  {
    ExchangeData.SectionDone(DataJob(j), s.data, i) || !s.data.b.pc[i].Outside?
  }

  /** Whatever the program: when a rank has come through both syncs of an `exchange_data` and is
      past its copying, its buffer holds the bytes of every rank's contribution to that call.
   */
  lemma ExchangeDataReturns(calls: seq<Call>, c: nat, j: Job, run: seq<State>, n: nat, i: nat)
    requires RunsProgram(calls, j, run) && n < |run| && Shaped(run[n]) && i < Ranks(run[n])
    requires c < |calls| && calls[c] == Data
    requires run[n].data.b.done[i] == SyncsBefore(calls, c) + 2 && HasCopied(j, run[n], i)
    ensures run[n].data.dst[i] == ExchangeData.Gathered(j.src, c, Ranks(run[n]))
  {
    PlanOfCall(calls, c);
    var r := RunInv(j, run, n);
    assert ExchangeData.RankOk(DataJob(j), run[n].data, i);
    ExchangeData.CopiedAll(DataJob(j), run[n].data, r, i);
  }

  /** When it has come through both syncs of an `exchange_fds`, and until it clears the buffer of
      its next one, it holds every other rank's descriptor of that call and -1 for itself.
   */
  lemma ExchangeFdsReturns(calls: seq<Call>, c: nat, j: Job, run: seq<State>, n: nat, i: nat)
    requires RunsProgram(calls, j, run) && n < |run| && Shaped(run[n]) && i < Ranks(run[n])
    requires c < |calls| && calls[c] == Fds
    requires run[n].fds.b.done[i] == SyncsBefore(calls, c) + 2 && run[n].fds.io.phase[i] != ExchangeFds.Ready
    ensures forall k :: 0 <= k < Ranks(run[n]) ==> run[n].fds.io.dst[i][k] == if k == i then -1 else j.fd(k, c)
    ensures forall k :: 0 <= k < Ranks(run[n]) ==> run[n].fds.io.box[k] == {}
  {
    PlanOfCall(calls, c);
    var r := RunInv(j, run, n);
    ExchangeFds.PhaseAfter(FdsJob(j), run[n].fds, i, r);
    FdsExchanged(j, run, n, i, SyncsBefore(calls, c) + 1, c);
  }

  // ----- nobody waits for ever

  /** Rank `i` can take a step that changes something. */
  ghost predicate CanMove(j: Job, s: State, i: nat) {
    JobOk(j) && Shaped(s) && exists s' :: StepOf(j, s, s', i) && s' != s
  }

  /** A rank that is outside but not ready for its next `sync`, in a round without an exchange. */
  lemma OwnWorkMoves(j: Job, s: State, i: nat, r: nat)
    requires JobOk(j) && Shaped(s) && Inv(j, s, r) && i < Ranks(s) && s.data.b.pc[i].Outside? && !SectionDone(j, s, i)
    requires !j.plan(r).Pass? || !ExchangeData.SectionDone(DataJob(j), s.data, i)
    ensures CanMove(j, s, i)
  {
    if !ExchangeData.SectionDone(DataJob(j), s.data, i) {
      var s' := s.(data := ExchangeData.CopyStep(DataJob(j), s.data, i));
      assert s'.data.col[i] != s.data.col[i] || s'.data.row[i] != s.data.row[i];
      assert StepOf(j, s, s', i);
    } else {
      var x := s.fds.io;
      assert s.fds.b.done[i] == r;
      assert ExchangeFds.RankBetween(FdsJob(j), Ranks(s), r, i, true, r, x.phase[i], x.dst[i], x.box[i]);
      var s' := s.(fds := s.fds.(io := x.(phase := x.phase[i := ExchangeFds.Ready], dst := x.dst[i := ExchangeFds.Blank(Ranks(s))])));
      assert s'.fds.io.phase[i] != x.phase[i];
      assert StepOf(j, s, s', i);
    }
  }

  /** Going on with an exchange. */
  lemma ExchangeMoves(j: Job, s: State, r: nat, k: nat, x': ExchangeFds.Io)
    requires JobOk(j) && Shaped(s) && Inv(j, s, r) && j.plan(r).Pass? && k < Ranks(s) && s.data.b.done[k] == r
    requires ExchangeFds.IoStep(s.fds.io, x', k, j.fd(k, j.plan(r).c), j.plan(r).c)
    ensures CanMove(j, s, k)
  {
    var x := s.fds.io;
    assert ExchangeFds.PhaseOk(x, k);
    assert x.phase[k] != ExchangeFds.Done && s.data.b.pc[k].Outside?;
    assert x'.phase[k] != x.phase[k];
    assert StepOf(j, s, s.(fds := s.fds.(io := x')), k);
  }

  lemma BarrierMoves(j: Job, s: State, i: nat)
    requires JobOk(j) && Shaped(s) && i < Ranks(s) && LocalBarrier.Step(s.data.b, i) != s.data.b
    requires !s.data.b.pc[i].Outside? || SectionDone(j, s, i)
    ensures CanMove(j, s, i)
  {
    var s' := State(ExchangeData.SyncStep(s.data, i), ExchangeFds.SyncStep(FdsJob(j), s.fds, i));
    assert s'.data.b == LocalBarrier.Step(s.data.b, i);
    assert StepOf(j, s, s', i);
  }

  /** Everybody has left the last barrier if nobody can. */
  lemma AllInRound(b: LocalBarrier.State, r: nat, late: nat)
    requires LocalBarrier.InvAt(b, r) && late < |b.pc| && b.pc[late].Outside?
    requires forall i :: 0 <= i < |b.pc| && !b.pc[i].Outside? ==> LocalBarrier.Step(b, i) == b
    ensures forall i :: 0 <= i < |b.pc| ==> b.done[i] == r
  {
    forall i | 0 <= i < |b.pc|
      ensures b.done[i] == r
    {
      if b.pc[i].AwaitDown? {
        assert LocalBarrier.Step(b, i).pc[i] == LocalBarrier.Outside;
      }
    }
  }

  /** Whatever calls are made and whatever has been delivered so far, some rank can go on. */
  lemma SomebodyMoves(j: Job, run: seq<State>, n: nat) returns (i: nat)
    requires IsRun(j, run) && n < |run|
    ensures i < Ranks(run[n]) && CanMove(j, run[n], i)
  {
    var r := RunInv(j, run, n);
    var s := run[n];
    var b := s.data.b;
    if k :| 0 <= k < Ranks(s) && !b.pc[k].Outside? && LocalBarrier.Step(b, k) != b {
      i := k;
      BarrierMoves(j, s, k);
    } else if k :| 0 <= k < Ranks(s) && b.pc[k].Outside? && SectionDone(j, s, k) {
      i := k;
      assert LocalBarrier.Step(b, k).barrier != b.barrier;
      BarrierMoves(j, s, k);
    } else if forall k :: 0 <= k < Ranks(s) ==> !b.pc[k].Outside? {
      i := LocalBarrier.SomebodyMoves(b, r);
      assert false;
    } else {
      var late :| 0 <= late < Ranks(s) && b.pc[late].Outside?;
      i := late;
      if !j.plan(r).Pass? || !ExchangeData.SectionDone(DataJob(j), s.data, late) {
        OwnWorkMoves(j, s, late, r);
      } else {
        AllInRound(b, r, late);
        i := ExchangeFds.SomebodyMoves(s.fds.io, j.fd, j.plan(r).c, late);
        var x' :| ExchangeFds.IoStep(s.fds.io, x', i, j.fd(i, j.plan(r).c), j.plan(r).c);
        ExchangeMoves(j, s, r, i, x');
      }
    }
  }
}
