/** How gemm_rs hands finished chunks to its send CTAs: compute CTAs count tiles, then
    devices, then raise a bit in the owner's bitmap; a send CTA scans its words, clears one
    bit by compare-and-swap and posts that chunk.

    One atomic access is one step; CTAs of all devices interleave freely.
 */
module GemmRsSend {
  import opened Arith

  /** A numbered thing of one device: a CTA, a task, or the device's count for a chunk. */
  datatype At = At(dev: nat, id: nat)

  /** A word of the bitmap of send CTA `sid`. */
  datatype Word = Word(dev: nat, sid: nat, w: nat)

  /** A bit of it. */
  datatype Place = Place(word: Word, bit: nat)

  const WORD_BITS := 32

  /** The static schedule: task `t` belongs to CTA `lane(t)`, `chunkOf(d, t)` is the chunk of device `d`'s task `t`, `place` and
      `chunkAt` map chunks to bits and back, `quota` is what a send CTA has to post.
   */
  datatype Plan = Plan(devices: nat, ctas: nat, senders: nat, tasks: nat, chunks: nat, words: nat,
                       lane: nat -> nat, chunkOf: (nat, nat) -> nat, tilesOf: nat -> nat,
                       place: nat -> Place, chunkAt: Place -> nat, quota: nat -> nat)

  predicate ValidWord(p: Plan, x: Word) {
    x.dev < p.devices && x.sid < p.senders && x.w < p.words
  }

  /** The position of a bit in its queue. */
  function IndexOf(a: Place): nat {
    a.word.w * WORD_BITS + a.bit
  }

  predicate ValidPlace(p: Plan, a: Place) {
    ValidWord(p, a.word) && a.bit < WORD_BITS && IndexOf(a) < p.quota(a.word.sid)
  }

  /** The send CTA that scans a bit. */
  function SenderOf(a: Place): At {
    At(a.word.dev, a.word.sid)
  }

  ghost function QueueOf(p: Plan, a: At): set<nat> {
    set c | 0 <= c < p.chunks && SenderOf(p.place(c)) == a
  }

  ghost function TasksOf(p: Plan, d: nat, c: nat): set<nat> {
    set t | 0 <= t < p.tasks && p.chunkOf(d, t) == c
  }

  /** Every chunk has its tiles on every device, */
  ghost predicate TilesOk(p: Plan) {
    && (forall d, t :: 0 <= d < p.devices && 0 <= t < p.tasks ==> p.chunkOf(d, t) < p.chunks)
    && (forall d, c :: 0 <= d < p.devices && 0 <= c < p.chunks ==> |TasksOf(p, d, c)| == p.tilesOf(c) > 0)
  }

  /** and bits and chunks match one to one. */
  ghost predicate PlacesOk(p: Plan) {
    && (forall c :: 0 <= c < p.chunks ==> ValidPlace(p, p.place(c)) && p.chunkAt(p.place(c)) == c)
    && (forall a :: ValidPlace(p, a) ==> p.chunkAt(a) < p.chunks && p.place(p.chunkAt(a)) == a)
    && (forall d, i :: 0 <= d < p.devices && 0 <= i < p.senders ==> |QueueOf(p, At(d, i))| == p.quota(i))
  }

  ghost predicate PlanOk(p: Plan) {
    p.devices > 0 && Strides(p.lane, p.ctas) && TilesOk(p) && PlacesOk(p)
  }

  // ----- states

  /** `next` is the first task of this CTA that has not been counted. */
  datatype CompPc =
    | Tile(next: nat)
    | Signal(next: nat, c: nat)  // this device has counted all tiles of `c`
    | Raise(next: nat, c: nat)   // all devices have

  datatype SendPc =
    | Top
    | Scan(w: nat)
    | Try(w: nat, seen: set<nat>)
    | Post(place: Place)
    | Finished

  /** Compute CTAs and each device's tile counts; `counted` and `signalled` record which tasks
      have been counted and which full counts have been passed on to the owner.
   */
  datatype Work = Work(comp: map<At, CompPc>, done: map<At, nat>, counted: set<At>, signalled: set<At>)

  /** The owners' device counts. */
  datatype Owner = Owner(ready: map<nat, nat>)

  /** The owners' bitmaps; `raised` and `claimed` record which bits have been set and cleared. */
  datatype Board = Board(bits: map<Word, set<nat>>, raised: set<nat>, claimed: set<nat>)

  /** Send CTAs, their loop counters and the chunks posted. */
  datatype Out = Out(send: map<At, SendPc>, posted: map<At, nat>, sent: set<nat>)

  datatype State = State(work: Work, owner: Owner, board: Board, out: Out)

  /** What `ffs` finds. */
  ghost predicate IsLowest(bits: set<nat>, b: nat) {
    b in bits && forall o :: o in bits ==> b <= o
  }

  // ----- compute CTAs

  /** Count the tile just computed; the last one of its chunk must tell the owner. */
  function CountTile(p: Plan, k: Work, a: At): Work
    requires a in k.comp && At(a.dev, p.chunkOf(a.dev, k.comp[a].next)) in k.done
  {
    var t := k.comp[a].next;
    var c := p.chunkOf(a.dev, t);
    var prev := k.done[At(a.dev, c)];
    var pc := if prev + 1 == p.tilesOf(c) then Signal(t + p.ctas, c) else Tile(t + p.ctas);
    k.(comp := k.comp[a := pc], done := k.done[At(a.dev, c) := prev + 1], counted := k.counted + {At(a.dev, t)})
  }

  /** Having counted this device at the owner; the last device must raise the bit. */
  function Signalled(k: Work, a: At, last: bool): Work
    requires a in k.comp && k.comp[a].Signal?
  {
    var t, c := k.comp[a].next, k.comp[a].c;
    k.(comp := k.comp[a := if last then Raise(t, c) else Tile(t)], signalled := k.signalled + {At(a.dev, c)})
  }

  function CountDevice(o: Owner, c: nat): Owner
    requires c in o.ready
  {
    o.(ready := o.ready[c := o.ready[c] + 1])
  }

  function Raised(k: Work, a: At): Work
    requires a in k.comp
  {
    k.(comp := k.comp[a := Tile(k.comp[a].next)])
  }

  function SetBit(p: Plan, b: Board, c: nat): Board
    requires p.place(c).word in b.bits
  {
    var x := p.place(c).word;
    b.(bits := b.bits[x := b.bits[x] + {p.place(c).bit}], raised := b.raised + {c})
  }

  ghost predicate CompStep(p: Plan, s: State, s': State, a: At) {
    a in s.work.comp &&
    match s.work.comp[a]
    case Tile(t) =>
      t < p.tasks && At(a.dev, p.chunkOf(a.dev, t)) in s.work.done && s' == s.(work := CountTile(p, s.work, a))
    case Signal(_, c) =>
      c in s.owner.ready &&
      s' == s.(work := Signalled(s.work, a, s.owner.ready[c] + 1 == p.devices), owner := CountDevice(s.owner, c))
    case Raise(_, c) =>
      p.place(c).word in s.board.bits && s' == s.(work := Raised(s.work, a), board := SetBit(p, s.board, c))
  }

  // ----- send CTAs

  function Move(o: Out, a: At, pc: SendPc): Out {
    o.(send := o.send[a := pc])
  }

  /** Go on with the bits seen in word `w`, or with the next word. */
  function Look(w: nat, seen: set<nat>): SendPc {
    if seen == {} then Scan(w + 1) else Try(w, seen)
  }

  function ClearBit(p: Plan, b: Board, x: Word, n: nat): Board
    requires x in b.bits
  {
    b.(bits := b.bits[x := b.bits[x] - {n}], claimed := b.claimed + {p.chunkAt(Place(x, n))})
  }

  function PostChunk(p: Plan, o: Out, a: At): Out
    requires a in o.send && o.send[a].Post? && a in o.posted
  {
    Move(o, a, Top).(posted := o.posted[a := o.posted[a] + 1], sent := o.sent + {p.chunkAt(o.send[a].place)})
  }

  /** The compare-and-swap clears bit `n` if the word still is what was seen; a bit beyond the
      quota would be dropped.
   */
  ghost predicate ClaimStep(p: Plan, s: State, s': State, a: At, n: nat)
    requires a in s.out.send && s.out.send[a].Try?
  {
    var w, seen := s.out.send[a].w, s.out.send[a].seen;
    var x := Word(a.dev, a.id, w);
    && x in s.board.bits && IsLowest(seen, n)
    && s' == if s.board.bits[x] != seen then s.(out := Move(s.out, a, Look(w, s.board.bits[x])))
             else s.(board := ClearBit(p, s.board, x, n),
                     out := Move(s.out, a, if IndexOf(Place(x, n)) < p.quota(a.id) then Post(Place(x, n)) else Look(w, seen - {n})))
  }

  ghost predicate SendStep(p: Plan, s: State, s': State, a: At) {
    a in s.out.send && a in s.out.posted &&
    match s.out.send[a]
    case Top => s' == s.(out := Move(s.out, a, if s.out.posted[a] < p.quota(a.id) then Scan(0) else Finished))
    case Scan(w) =>
      if w < p.words then
        Word(a.dev, a.id, w) in s.board.bits && s' == s.(out := Move(s.out, a, Look(w, s.board.bits[Word(a.dev, a.id, w)])))
      else s' == s.(out := Move(s.out, a, Scan(0)))
    case Try(_, _) => exists n :: ClaimStep(p, s, s', a, n)
    case Post(_) => s' == s.(out := PostChunk(p, s.out, a))
    case Finished => false
  }

  ghost predicate Next(p: Plan, s: State, s': State) {
    exists a :: CompStep(p, s, s', a) || SendStep(p, s, s', a)
  }

  ghost predicate WorkShape(p: Plan, k: Work) {
    && (forall a {:trigger a in k.comp} :: a in k.comp <==> a.dev < p.devices && a.id < p.ctas)
    && (forall a {:trigger a in k.done} :: a in k.done <==> a.dev < p.devices && a.id < p.chunks)
  }

  ghost predicate OwnerShape(p: Plan, o: Owner) {
    forall c :: c in o.ready <==> c < p.chunks
  }

  ghost predicate BoardShape(p: Plan, b: Board) {
    forall x {:trigger x in b.bits} :: x in b.bits <==> ValidWord(p, x)
  }

  ghost predicate OutShape(p: Plan, o: Out) {
    && (forall a {:trigger a in o.send} :: a in o.send <==> a.dev < p.devices && a.id < p.senders)
    && (forall a {:trigger a in o.posted} :: a in o.posted <==> a.dev < p.devices && a.id < p.senders)
  }

  ghost predicate Init(p: Plan, s: State) {
    && PlanOk(p)
    && WorkShape(p, s.work) && OwnerShape(p, s.owner) && BoardShape(p, s.board) && OutShape(p, s.out)
    && (forall a {:trigger s.work.comp[a]} :: a in s.work.comp ==> s.work.comp[a] == Tile(a.id))
    && (forall a {:trigger s.work.done[a]} :: a in s.work.done ==> s.work.done[a] == 0)
    && (forall c :: c in s.owner.ready ==> s.owner.ready[c] == 0)
    && (forall x :: x in s.board.bits ==> s.board.bits[x] == {})
    && (forall a {:trigger s.out.send[a]} :: a in s.out.send ==> s.out.send[a] == Top)
    && (forall a {:trigger s.out.posted[a]} :: a in s.out.posted ==> s.out.posted[a] == 0)
    && s.work.counted == {} && s.work.signalled == {} && s.board.raised == {} && s.board.claimed == {} && s.out.sent == {}
  }

  // ----- the invariant

  ghost function CountedOf(p: Plan, counted: set<At>, d: nat, c: nat): set<nat> {
    set t | t in TasksOf(p, d, c) && At(d, t) in counted
  }

  ghost function SignalledBy(p: Plan, signalled: set<At>, c: nat): set<nat> {
    set d | 0 <= d < p.devices && At(d, c) in signalled
  }

  ghost function SentFrom(p: Plan, sent: set<nat>, a: At): set<nat> {
    set c | c in sent && SenderOf(p.place(c)) == a
  }

  /** A CTA has counted its tasks up to `next`. */
  ghost predicate ProgressOk(p: Plan, comp: map<At, CompPc>, counted: set<At>) {
    && (forall a {:trigger comp[a]} :: a in comp ==> p.lane(comp[a].next) == a.id)
    && (forall a {:trigger a in counted} :: a in counted <==>
          a.id < p.tasks && At(a.dev, p.lane(a.id)) in comp && a.id < comp[At(a.dev, p.lane(a.id))].next)
  }

  /** The tile counts are those of the counted tasks. */
  ghost predicate TallyOk(p: Plan, counted: set<At>, done: map<At, nat>) {
    forall a {:trigger done[a]} :: a in done ==> done[a] == |CountedOf(p, counted, a.dev, a.id)|
  }

  /** Only a full count is signalled, by one CTA. */
  ghost predicate CountsOk(p: Plan, comp: map<At, CompPc>, done: map<At, nat>, signalled: set<At>) {
    && (forall a {:trigger a in signalled} :: a in signalled ==> a in done && done[a] == p.tilesOf(a.id))
    && (forall a {:trigger comp[a]} :: a in comp && comp[a].Signal? ==>
          var k := At(a.dev, comp[a].c);
          k in done && done[k] == p.tilesOf(k.id) && k !in signalled)
    && (forall a, b {:trigger comp[a], comp[b]} ::
          a in comp && b in comp && a != b && a.dev == b.dev && comp[a].Signal? && comp[b].Signal? ==> comp[a].c != comp[b].c)
  }

  ghost predicate WorkOk(p: Plan, k: Work) {
    && WorkShape(p, k)
    && ProgressOk(p, k.comp, k.counted)
    && TallyOk(p, k.counted, k.done)
    && CountsOk(p, k.comp, k.done, k.signalled)
  }

  /** Device counts. */
  ghost predicate OwnerOk(p: Plan, o: Owner, signalled: set<At>) {
    && OwnerShape(p, o)
    && (forall c :: c in o.ready ==> o.ready[c] == |SignalledBy(p, signalled, c)|)
  }

  /** Only a chunk counted by all devices is raised, by one CTA. */
  ghost predicate RaiseOk(p: Plan, comp: map<At, CompPc>, ready: map<nat, nat>, raised: set<nat>) {
    && (forall c :: c in raised ==> c in ready && ready[c] == p.devices)
    && (forall a {:trigger comp[a]} :: a in comp && comp[a].Raise? ==>
          comp[a].c in ready && ready[comp[a].c] == p.devices && comp[a].c !in raised)
    && (forall a, b {:trigger comp[a], comp[b]} ::
          a in comp && b in comp && a != b && comp[a].Raise? && comp[b].Raise? ==> comp[a].c != comp[b].c)
  }

  /** The bitmap holds exactly the chunks raised and not yet claimed. */
  ghost predicate BoardOk(p: Plan, b: Board) {
    && BoardShape(p, b)
    && b.claimed <= b.raised
    && (forall c :: c in b.raised ==> c < p.chunks)
    && (forall c :: c in b.raised && c !in b.claimed ==>
          p.place(c).word in b.bits && p.place(c).bit in b.bits[p.place(c).word])
    && (forall x, n :: x in b.bits && n in b.bits[x] ==>
          && ValidPlace(p, Place(x, n))
          && p.chunkAt(Place(x, n)) in b.raised && p.chunkAt(Place(x, n)) !in b.claimed)
  }

  /** A claimed chunk is sent or about to be, by the CTA whose queue it is in. */
  ghost predicate ClaimsOk(p: Plan, send: map<At, SendPc>, sent: set<nat>, claimed: set<nat>) {
    && sent <= claimed
    && (forall c :: c in claimed ==> c < p.chunks && p.chunkAt(p.place(c)) == c)
    && (forall a {:trigger send[a]} :: a in send && send[a].Post? ==>
          var c := p.chunkAt(send[a].place);
          SenderOf(send[a].place) == a && ValidPlace(p, send[a].place) && p.place(c) == send[a].place && c in claimed && c !in sent)
    && (forall c :: c in claimed && c !in sent ==>
          SenderOf(p.place(c)) in send && send[SenderOf(p.place(c))] == Post(p.place(c)))
  }

  /** The loop counters are the numbers of chunks sent. */
  ghost predicate SentOk(p: Plan, posted: map<At, nat>, sent: set<nat>) {
    forall a {:trigger posted[a]} :: a in posted ==> posted[a] == |SentFrom(p, sent, a)|
  }

  ghost predicate OutOk(p: Plan, o: Out, claimed: set<nat>) {
    && OutShape(p, o)
    && ClaimsOk(p, o.send, o.sent, claimed)
    && SentOk(p, o.posted, o.sent)
    && (forall a {:trigger o.send[a]} :: a in o.send && a in o.posted && o.send[a].Finished? ==> o.posted[a] >= p.quota(a.id))
    && (forall a {:trigger o.send[a]} :: a in o.send && o.send[a].Try? ==> o.send[a].seen != {} && o.send[a].w < p.words)
  }

  ghost predicate Inv(p: Plan, s: State) {
    && WorkOk(p, s.work)
    && OwnerOk(p, s.owner, s.work.signalled)
    && RaiseOk(p, s.work.comp, s.owner.ready, s.board.raised)
    && BoardOk(p, s.board)
    && OutOk(p, s.out, s.board.claimed)
  }

  ghost predicate Signalling(comp: map<At, CompPc>, k: At) {
    exists a {:trigger comp[a]} :: a in comp && a.dev == k.dev && comp[a].Signal? && comp[a].c == k.id
  }

  ghost predicate Raising(comp: map<At, CompPc>, c: nat) {
    exists a {:trigger comp[a]} :: a in comp && comp[a].Raise? && comp[a].c == c
  }

  /** Nothing is forgotten: a complete count has been passed on or is in some CTA's hands. */
  ghost predicate Passed(p: Plan, s: State) {
    && (forall a {:trigger s.work.done[a]} :: a in s.work.done && s.work.done[a] == p.tilesOf(a.id) ==>
          a in s.work.signalled || Signalling(s.work.comp, a))
    && (forall c :: c in s.owner.ready && s.owner.ready[c] == p.devices ==> c in s.board.raised || Raising(s.work.comp, c))
  }

  // ----- counting tiles

  /** A compute CTA counts its own next task, which nobody else counts. */
  lemma CountProgress(p: Plan, comp: map<At, CompPc>, counted: set<At>, a: At, pc: CompPc)
    requires ProgressOk(p, comp, counted)
    requires a in comp && NextInLane(p.lane, p.ctas, comp[a].next) && comp[a].next < p.tasks && pc.next == comp[a].next + p.ctas
    ensures ProgressOk(p, comp[a := pc], counted + {At(a.dev, comp[a].next)})
    ensures At(a.dev, comp[a].next) !in counted
  {
    assert At(a.dev, p.lane(comp[a].next)) == a;
  }

  lemma CountOne(p: Plan, counted: set<At>, d: nat, t: nat, e: nat, c: nat)
    requires t < p.tasks && At(d, t) !in counted
    ensures |CountedOf(p, counted + {At(d, t)}, e, c)|
            == |CountedOf(p, counted, e, c)| + if e == d && c == p.chunkOf(d, t) then 1 else 0
    ensures |CountedOf(p, counted + {At(d, t)}, e, c)| <= |TasksOf(p, e, c)|
  {
    assert CountedOf(p, counted + {At(d, t)}, e, c)
        == CountedOf(p, counted, e, c) + if e == d && c == p.chunkOf(d, t) then {t} else {};
    SubsetSize(CountedOf(p, counted + {At(d, t)}, e, c), TasksOf(p, e, c));
  }

  lemma CountTally(p: Plan, counted: set<At>, done: map<At, nat>, d: nat, t: nat)
    requires TallyOk(p, counted, done) && t < p.tasks && At(d, t) !in counted
    requires At(d, p.chunkOf(d, t)) in done
    ensures var k := At(d, p.chunkOf(d, t));
            TallyOk(p, counted + {At(d, t)}, done[k := done[k] + 1]) && done[k] < |TasksOf(p, d, k.id)|
  {
    var k := At(d, p.chunkOf(d, t));
    forall b {:trigger done[b]} | b in done
      ensures |CountedOf(p, counted + {At(d, t)}, b.dev, b.id)| == |CountedOf(p, counted, b.dev, b.id)| + if b == k then 1 else 0
    {
      CountOne(p, counted, d, t, b.dev, b.id);
    }
    CountOne(p, counted, d, t, d, k.id);
  }

  /** The step that counts the last tile is the only one that sees the full count. */
  lemma CountCounts(p: Plan, comp: map<At, CompPc>, done: map<At, nat>, signalled: set<At>, a: At, k: At, pc: CompPc)
    requires CountsOk(p, comp, done, signalled) && a in comp && k in done && k.dev == a.dev && done[k] < p.tilesOf(k.id)
    requires pc.Signal? ==> pc.c == k.id && done[k] + 1 == p.tilesOf(k.id)
    ensures CountsOk(p, comp[a := pc], done[k := done[k] + 1], signalled)
  {
  }

  lemma CountWork(p: Plan, w: Work, a: At)
    requires WorkOk(p, w) && a in w.comp && NextInLane(p.lane, p.ctas, w.comp[a].next)
    requires var c := p.chunkOf(a.dev, w.comp[a].next); |TasksOf(p, a.dev, c)| == p.tilesOf(c)
    requires w.comp[a].next < p.tasks && At(a.dev, p.chunkOf(a.dev, w.comp[a].next)) in w.done
    ensures WorkOk(p, CountTile(p, w, a))
  {
    var k, pc := At(a.dev, p.chunkOf(a.dev, w.comp[a].next)), CountTile(p, w, a).comp[a];
    CountProgress(p, w.comp, w.counted, a, pc);
    CountTally(p, w.counted, w.done, a.dev, w.comp[a].next);
    CountCounts(p, w.comp, w.done, w.signalled, a, k, pc);
  }

  /** Moving a CTA that does not come to raise a bit. */
  lemma MoveRaise(p: Plan, comp: map<At, CompPc>, ready: map<nat, nat>, raised: set<nat>, a: At, pc: CompPc)
    requires RaiseOk(p, comp, ready, raised) && a in comp && !pc.Raise?
    ensures RaiseOk(p, comp[a := pc], ready, raised)
  {
  }

  lemma CountTileInv(p: Plan, s: State, s': State, a: At)
    requires Strides(p.lane, p.ctas) && TilesOk(p) && Inv(p, s) && CompStep(p, s, s', a) && s.work.comp[a].Tile?
    ensures Inv(p, s')
  {
    assert NextInLane(p.lane, p.ctas, s.work.comp[a].next);
    CountWork(p, s.work, a);
    MoveRaise(p, s.work.comp, s.owner.ready, s.board.raised, a, s'.work.comp[a]);
  }

  // ----- counting devices

  /** Moving a CTA that passes no task. */
  lemma MoveProgress(p: Plan, comp: map<At, CompPc>, counted: set<At>, a: At, pc: CompPc)
    requires ProgressOk(p, comp, counted) && a in comp && pc.next == comp[a].next
    ensures ProgressOk(p, comp[a := pc], counted)
  {
  }

  lemma SignalWork(p: Plan, w: Work, a: At, last: bool)
    requires WorkOk(p, w) && a in w.comp && w.comp[a].Signal?
    ensures WorkOk(p, Signalled(w, a, last))
  {
    MoveProgress(p, w.comp, w.counted, a, Signalled(w, a, last).comp[a]);
  }

  lemma DevicesAtMost(p: Plan, signalled: set<At>, c: nat)
    ensures |SignalledBy(p, signalled, c)| <= p.devices
    ensures |SignalledBy(p, signalled, c)| == p.devices ==>
              forall d :: 0 <= d < p.devices ==> At(d, c) in signalled
  {
    BelowSize(p.devices);
    SubsetSize(SignalledBy(p, signalled, c), Below(p.devices));
    if |SignalledBy(p, signalled, c)| == p.devices {
      forall d | 0 <= d < p.devices
        ensures At(d, c) in signalled
      {
        assert d in SignalledBy(p, signalled, c);
      }
    }
  }

  lemma SignalOwner(p: Plan, o: Owner, signalled: set<At>, k: At)
    requires OwnerOk(p, o, signalled) && k.dev < p.devices && k !in signalled && k.id in o.ready
    ensures OwnerOk(p, CountDevice(o, k.id), signalled + {k})
    ensures o.ready[k.id] < p.devices
  {
    assert SignalledBy(p, signalled + {k}, k.id) == SignalledBy(p, signalled, k.id) + {k.dev};
    assert forall e :: e != k.id ==> SignalledBy(p, signalled + {k}, e) == SignalledBy(p, signalled, e);
    DevicesAtMost(p, signalled + {k}, k.id);
  }

  lemma SignalRaise(p: Plan, comp: map<At, CompPc>, ready: map<nat, nat>, raised: set<nat>, a: At, c: nat, pc: CompPc)
    requires RaiseOk(p, comp, ready, raised) && a in comp && c in ready && ready[c] < p.devices
    requires pc.Raise? ==> pc.c == c && ready[c] + 1 == p.devices
    ensures RaiseOk(p, comp[a := pc], ready[c := ready[c] + 1], raised)
  {
  }

  lemma SignalInv(p: Plan, s: State, s': State, a: At)
    requires Inv(p, s) && CompStep(p, s, s', a) && s.work.comp[a].Signal?
    ensures Inv(p, s')
  {
    var c := s.work.comp[a].c;
    assert At(a.dev, c) !in s.work.signalled;
    SignalWork(p, s.work, a, s.owner.ready[c] + 1 == p.devices);
    SignalOwner(p, s.owner, s.work.signalled, At(a.dev, c));
    SignalRaise(p, s.work.comp, s.owner.ready, s.board.raised, a, c, s'.work.comp[a]);
  }

  // ----- raising and clearing bits

  lemma SetBitBoard(p: Plan, b: Board, c: nat)
    requires PlacesOk(p) && BoardOk(p, b) && c < p.chunks && c !in b.raised && p.place(c).word in b.bits
    ensures BoardOk(p, SetBit(p, b, c))
  {
  }

  lemma RaisedWork(p: Plan, w: Work, a: At)
    requires WorkOk(p, w) && a in w.comp && w.comp[a].Raise?
    ensures WorkOk(p, Raised(w, a))
  {
    MoveProgress(p, w.comp, w.counted, a, Tile(w.comp[a].next));
  }

  lemma RaisedRaise(p: Plan, comp: map<At, CompPc>, ready: map<nat, nat>, raised: set<nat>, a: At)
    requires RaiseOk(p, comp, ready, raised) && a in comp && comp[a].Raise?
    ensures RaiseOk(p, comp[a := Tile(comp[a].next)], ready, raised + {comp[a].c})
  {
  }

  lemma RaiseInv(p: Plan, s: State, s': State, a: At)
    requires PlacesOk(p) && Inv(p, s) && CompStep(p, s, s', a) && s.work.comp[a].Raise?
    ensures Inv(p, s')
  {
    RaisedWork(p, s.work, a);
    RaisedRaise(p, s.work.comp, s.owner.ready, s.board.raised, a);
    SetBitBoard(p, s.board, s.work.comp[a].c);
  }

  /** A bit that is set is always within the quota, so the guard never drops one. */
  lemma ClearBitBoard(p: Plan, b: Board, x: Word, n: nat)
    requires PlacesOk(p) && BoardOk(p, b) && x in b.bits && n in b.bits[x]
    ensures ValidPlace(p, Place(x, n)) && p.chunkAt(Place(x, n)) !in b.claimed
    ensures BoardOk(p, ClearBit(p, b, x, n))
  {
  }

  lemma ClaimClaims(p: Plan, send: map<At, SendPc>, sent: set<nat>, claimed: set<nat>, a: At, q: Place)
    requires ClaimsOk(p, send, sent, claimed) && a in send && !send[a].Post? && SenderOf(q) == a && ValidPlace(p, q)
    requires var c := p.chunkAt(q); c < p.chunks && p.place(c) == q && c !in claimed
    ensures ClaimsOk(p, send[a := Post(q)], sent, claimed + {p.chunkAt(q)})
  {
  }

  lemma ClaimOut(p: Plan, o: Out, claimed: set<nat>, a: At, q: Place)
    requires OutOk(p, o, claimed) && a in o.send && !o.send[a].Post? && SenderOf(q) == a && ValidPlace(p, q)
    requires var c := p.chunkAt(q); c < p.chunks && p.place(c) == q && c !in claimed
    ensures OutOk(p, Move(o, a, Post(q)), claimed + {p.chunkAt(q)})
  {
    ClaimClaims(p, o.send, o.sent, claimed, a, q);
  }

  lemma MoveOut(p: Plan, o: Out, claimed: set<nat>, a: At, pc: SendPc)
    requires OutOk(p, o, claimed)
    requires a in o.send && !o.send[a].Post? && !pc.Post? && (pc.Finished? ==> a in o.posted && o.posted[a] >= p.quota(a.id))
    requires pc.Try? ==> pc.seen != {} && pc.w < p.words
    ensures OutOk(p, Move(o, a, pc), claimed)
  {
  }

  lemma SentOne(p: Plan, sent: set<nat>, c: nat, b: At)
    requires c !in sent
    ensures |SentFrom(p, sent + {c}, b)| == |SentFrom(p, sent, b)| + if SenderOf(p.place(c)) == b then 1 else 0
  {
    assert SentFrom(p, sent + {c}, b) == SentFrom(p, sent, b) + if SenderOf(p.place(c)) == b then {c} else {};
  }

  lemma PostClaims(p: Plan, send: map<At, SendPc>, sent: set<nat>, claimed: set<nat>, a: At)
    requires ClaimsOk(p, send, sent, claimed) && a in send && send[a].Post?
    ensures ClaimsOk(p, send[a := Top], sent + {p.chunkAt(send[a].place)}, claimed)
  {
  }

  lemma PostSent(p: Plan, posted: map<At, nat>, sent: set<nat>, a: At, c: nat)
    requires SentOk(p, posted, sent) && a in posted && c !in sent && SenderOf(p.place(c)) == a
    ensures SentOk(p, posted[a := posted[a] + 1], sent + {c})
  {
    forall b {:trigger posted[b]} | b in posted
      ensures |SentFrom(p, sent + {c}, b)| == |SentFrom(p, sent, b)| + if a == b then 1 else 0
    {
      SentOne(p, sent, c, b);
    }
  }

  lemma PostOut(p: Plan, o: Out, claimed: set<nat>, a: At)
    requires OutOk(p, o, claimed) && a in o.send && a in o.posted && o.send[a].Post?
    ensures OutOk(p, PostChunk(p, o, a), claimed)
  {
    PostClaims(p, o.send, o.sent, claimed, a);
    PostSent(p, o.posted, o.sent, a, p.chunkAt(o.send[a].place));
  }

  lemma ClaimInv(p: Plan, s: State, s': State, a: At, n: nat)
    requires PlacesOk(p) && Inv(p, s) && a in s.out.send && s.out.send[a].Try? && ClaimStep(p, s, s', a, n)
    ensures Inv(p, s')
  {
    var x := Word(a.dev, a.id, s.out.send[a].w);
    if s.board.bits[x] == s.out.send[a].seen {
      ClearBitBoard(p, s.board, x, n);
      ClaimOut(p, s.out, s.board.claimed, a, Place(x, n));
    } else {
      MoveOut(p, s.out, s.board.claimed, a, s'.out.send[a]);
    }
  }

  lemma SendInv(p: Plan, s: State, s': State, a: At)
    requires PlacesOk(p) && Inv(p, s) && SendStep(p, s, s', a)
    ensures Inv(p, s')
  {
    if s.out.send[a].Try? {
      var n :| ClaimStep(p, s, s', a, n);
      ClaimInv(p, s, s', a, n);
    } else if s.out.send[a].Post? {
      PostOut(p, s.out, s.board.claimed, a);
    } else {
      MoveOut(p, s.out, s.board.claimed, a, s'.out.send[a]);
    }
  }

  // ----- nothing is forgotten

  /** Moving a CTA away from a task, or on from a signal it has given, keeps the others' duties. */
  lemma OtherDuties(comp: map<At, CompPc>, a: At, pc: CompPc)
    requires a in comp
    ensures forall k :: Signalling(comp, k) && !(comp[a].Signal? && k == At(a.dev, comp[a].c)) ==> Signalling(comp[a := pc], k)
    ensures forall c :: Raising(comp, c) && !(comp[a].Raise? && comp[a].c == c) ==> Raising(comp[a := pc], c)
    ensures pc.Signal? ==> Signalling(comp[a := pc], At(a.dev, pc.c))
    ensures pc.Raise? ==> Raising(comp[a := pc], pc.c)
  {
    var comp' := comp[a := pc];
    forall k | Signalling(comp, k) && !(comp[a].Signal? && k == At(a.dev, comp[a].c))
      ensures Signalling(comp', k)
    {
      var b :| b in comp && b.dev == k.dev && comp[b].Signal? && comp[b].c == k.id;
      assert comp'[b] == comp[b];
    }
    forall c | Raising(comp, c) && !(comp[a].Raise? && comp[a].c == c)
      ensures Raising(comp', c)
    {
      var b :| b in comp && comp[b].Raise? && comp[b].c == c;
      assert comp'[b] == comp[b];
    }
    assert comp'[a] == pc;
  }

  lemma CompPassed(p: Plan, s: State, s': State, a: At)
    requires Passed(p, s) && CompStep(p, s, s', a)
    ensures Passed(p, s')
  {
    OtherDuties(s.work.comp, a, s'.work.comp[a]);
  }

  // ----- whole runs

  ghost predicate Good(p: Plan, s: State) {
    Inv(p, s) && Passed(p, s)
  }

  lemma InitGood(p: Plan, s: State)
    requires Init(p, s)
    ensures Good(p, s)
  {
    forall a {:trigger s.work.done[a]} | a in s.work.done
      ensures CountedOf(p, s.work.counted, a.dev, a.id) == {} && |TasksOf(p, a.dev, a.id)| == p.tilesOf(a.id) > 0
    {
    }
    assert forall c :: SignalledBy(p, s.work.signalled, c) == {};
    assert forall a :: SentFrom(p, s.out.sent, a) == {};
  }

  lemma CompInv(p: Plan, s: State, s': State, a: At)
    requires PlanOk(p) && Inv(p, s) && CompStep(p, s, s', a)
    ensures Inv(p, s')
  {
    match s.work.comp[a] {
      case Tile(_) => CountTileInv(p, s, s', a);
      case Signal(_, _) => SignalInv(p, s, s', a);
      case Raise(_, _) => RaiseInv(p, s, s', a);
    }
  }

  lemma SendPassed(p: Plan, s: State, s': State, a: At)
    requires Passed(p, s) && SendStep(p, s, s', a)
    ensures Passed(p, s')
  {
    assert s'.work == s.work && s'.owner == s.owner && s'.board.raised == s.board.raised;
  }

  lemma NextGood(p: Plan, s: State, s': State)
    requires PlanOk(p) && Good(p, s) && Next(p, s, s')
    ensures Good(p, s')
  {
    var a :| CompStep(p, s, s', a) || SendStep(p, s, s', a);
    if SendStep(p, s, s', a) {
      SendInv(p, s, s', a);
      SendPassed(p, s, s', a);
    } else {
      CompInv(p, s, s', a);
      CompPassed(p, s, s', a);
    }
  }

  ghost predicate IsRun(p: Plan, run: seq<State>) {
    && |run| > 0
    && Init(p, run[0])
    && forall n :: 0 <= n < |run| - 1 ==> Next(p, run[n], run[n + 1])
  }

  lemma {:induction false} RunGood(p: Plan, run: seq<State>, n: nat)
    requires IsRun(p, run) && n < |run|
    ensures Good(p, run[n])
  {
    if n == 0 {
      InitGood(p, run[0]);
    } else {
      RunGood(p, run, n - 1);
      assert Next(p, run[n - 1], run[n - 1 + 1]);
      NextGood(p, run[n - 1], run[n]);
    }
  }

  // ----- main results

  /** Every device has counted every tile of chunk `c`. */
  ghost predicate AllTilesCounted(p: Plan, k: Work, c: nat) {
    forall d, t :: 0 <= d < p.devices && t in TasksOf(p, d, c) ==> At(d, t) in k.counted
  }

  lemma ReadyMeansCounted(p: Plan, s: State, c: nat)
    requires PlanOk(p) && Inv(p, s) && c in s.owner.ready && s.owner.ready[c] == p.devices
    ensures AllTilesCounted(p, s.work, c)
  {
    DevicesAtMost(p, s.work.signalled, c);
    forall d, t | 0 <= d < p.devices && t in TasksOf(p, d, c)
      ensures At(d, t) in s.work.counted
    {
      assert At(d, c) in s.work.signalled;
      SubsetSize(CountedOf(p, s.work.counted, d, c), TasksOf(p, d, c));
      assert t in CountedOf(p, s.work.counted, d, c);
    }
  }

  /** A bit is raised only when every device has counted every tile of its chunk, and only
      if it has not been raised before.
   */
  lemma RaisedOnceWhenComplete(p: Plan, run: seq<State>, n: nat)
    requires IsRun(p, run) && n < |run|
    ensures forall c :: c in run[n].board.raised ==> AllTilesCounted(p, run[n].work, c)
    ensures forall a {:trigger run[n].work.comp[a]} :: a in run[n].work.comp && run[n].work.comp[a].Raise? ==>
              run[n].work.comp[a].c !in run[n].board.raised && AllTilesCounted(p, run[n].work, run[n].work.comp[a].c)
  {
    RunGood(p, run, n);
    var s := run[n];
    forall c | c in s.owner.ready && s.owner.ready[c] == p.devices
      ensures AllTilesCounted(p, s.work, c)
    {
      ReadyMeansCounted(p, s, c);
    }
  }

  /** Every bit set lies within its send CTA's quota and stands for a raised chunk that nobody
      has claimed.
   */
  lemma NoStrayBit(p: Plan, run: seq<State>, n: nat, x: Word, b: nat)
    requires IsRun(p, run) && n < |run| && x in run[n].board.bits && b in run[n].board.bits[x]
    ensures ValidPlace(p, Place(x, b))
    ensures var c := p.chunkAt(Place(x, b)); c in run[n].board.raised && c !in run[n].board.claimed && c !in run[n].out.sent
  {
    RunGood(p, run, n);
  }

  /** A send CTA posts only chunks of its own queue, each complete and not posted before. */
  lemma PostedOnce(p: Plan, run: seq<State>, n: nat, a: At)
    requires IsRun(p, run) && n < |run| && a in run[n].out.send && run[n].out.send[a].Post?
    ensures var q := run[n].out.send[a].place;
            && SenderOf(q) == a && ValidPlace(p, q)
            && p.chunkAt(q) !in run[n].out.sent
            && AllTilesCounted(p, run[n].work, p.chunkAt(q))
  {
    RunGood(p, run, n);
    RaisedOnceWhenComplete(p, run, n);
  }

  /** A send CTA that has left its loop has posted exactly its queue. */
  lemma FinishedMeansAllSent(p: Plan, run: seq<State>, n: nat, a: At)
    requires IsRun(p, run) && n < |run| && a in run[n].out.send && run[n].out.send[a].Finished?
    ensures SentFrom(p, run[n].out.sent, a) == QueueOf(p, a)
    ensures a in run[n].out.posted && run[n].out.posted[a] == p.quota(a.id)
  {
    RunGood(p, run, n);
    var o := run[n].out;
    assert PlanOk(p) && |QueueOf(p, At(a.dev, a.id))| == p.quota(a.id);
    SubsetSize(SentFrom(p, o.sent, a), QueueOf(p, a));
  }

  lemma AllTasksCounted(p: Plan, k: Work, d: nat, c: nat)
    requires Strides(p.lane, p.ctas) && WorkOk(p, k) && d < p.devices
    requires forall a {:trigger k.comp[a]} :: a in k.comp ==> k.comp[a].next >= p.tasks
    ensures CountedOf(p, k.counted, d, c) == TasksOf(p, d, c)
  {
    forall t | t in TasksOf(p, d, c)
      ensures At(d, t) in k.counted
    {
      assert At(d, p.lane(t)) in k.comp;
    }
  }

  /** Once the compute CTAs are through, every chunk has been posted, is being posted, or has
      its bit set where its send CTA will find it.
   */
  lemma NothingForgotten(p: Plan, run: seq<State>, n: nat, c: nat)
    requires IsRun(p, run) && n < |run| && c < p.chunks
    requires forall a {:trigger run[n].work.comp[a]} :: a in run[n].work.comp ==> run[n].work.comp[a].Tile? && run[n].work.comp[a].next >= p.tasks
    ensures c in run[n].board.raised
    ensures var s, q := run[n], p.place(c);
            || c in s.out.sent
            || (SenderOf(q) in s.out.send && s.out.send[SenderOf(q)] == Post(q))
            || (q.word in s.board.bits && q.bit in s.board.bits[q.word])
  {
    RunGood(p, run, n);
    var s := run[n];
    forall d | 0 <= d < p.devices
      ensures At(d, c) in s.work.signalled
    {
      AllTasksCounted(p, s.work, d, c);
      assert At(d, c) in s.work.done;
    }
    assert SignalledBy(p, s.work.signalled, c) == Below(p.devices);
    BelowSize(p.devices);
  }

  // ----- progress

  lemma {:induction false} LowestExists(bits: set<nat>) returns (b: nat)
    requires bits != {}
    ensures IsLowest(bits, b)
    decreases |bits|
  {
    var x :| x in bits;
    var rest := bits - {x};
    b := x;
    if rest == {} {
    } else {
      var m := LowestExists(rest);
      b := if m < x then m else x;
    }
    forall o | o in bits
      ensures b <= o
    {
      assert o == x || o in rest;
    }
  }

  lemma ClaimCanMove(p: Plan, s: State, a: At)
    requires a in s.out.send && a in s.out.posted && s.out.send[a].Try? && s.out.send[a].seen != {}
    requires Word(a.dev, a.id, s.out.send[a].w) in s.board.bits
    ensures exists s' :: SendStep(p, s, s', a)
  {
    var w, seen := s.out.send[a].w, s.out.send[a].seen;
    var x := Word(a.dev, a.id, w);
    var b := LowestExists(seen);
    var s' := if s.board.bits[x] != seen then s.(out := Move(s.out, a, Look(w, s.board.bits[x])))
              else s.(board := ClearBit(p, s.board, x, b),
                      out := Move(s.out, a, if IndexOf(Place(x, b)) < p.quota(a.id) then Post(Place(x, b)) else Look(w, seen - {b})));
    assert ClaimStep(p, s, s', a, b);
    assert SendStep(p, s, s', a);
  }

  /** A send CTA that has not finished always has a next step, */
  lemma SenderCanMove(p: Plan, run: seq<State>, n: nat, a: At)
    requires IsRun(p, run) && n < |run| && a in run[n].out.send && !run[n].out.send[a].Finished?
    ensures exists s' :: SendStep(p, run[n], s', a)
  {
    RunGood(p, run, n);
    var s := run[n];
    var o := s.out;
    match o.send[a] {
      case Top => assert SendStep(p, s, s.(out := Move(o, a, if o.posted[a] < p.quota(a.id) then Scan(0) else Finished)), a);
      case Scan(w) =>
        if w < p.words {
          assert SendStep(p, s, s.(out := Move(o, a, Look(w, s.board.bits[Word(a.dev, a.id, w)]))), a);
        } else {
          assert SendStep(p, s, s.(out := Move(o, a, Scan(0))), a);
        }
      case Try(_, _) => ClaimCanMove(p, s, a);
      case Post(_) => assert SendStep(p, s, s.(out := PostChunk(p, o, a)), a);
    }
  }

  /** and once the compute CTAs are through, a send CTA short of its quota is posting or has a
      bit set in one of its words: its scan never runs empty for ever.
   */
  lemma SenderFindsWork(p: Plan, run: seq<State>, n: nat, a: At) returns (c: nat)
    requires IsRun(p, run) && n < |run| && a in run[n].out.send && a in run[n].out.posted && run[n].out.posted[a] < p.quota(a.id)
    requires forall b {:trigger run[n].work.comp[b]} :: b in run[n].work.comp ==> run[n].work.comp[b].Tile? && run[n].work.comp[b].next >= p.tasks
    ensures c < p.chunks && SenderOf(p.place(c)) == a && c !in run[n].out.sent
    ensures run[n].out.send[a].Post? || (p.place(c).word in run[n].board.bits && p.place(c).bit in run[n].board.bits[p.place(c).word])
  {
    RunGood(p, run, n);
    var o := run[n].out;
    assert PlanOk(p) && |QueueOf(p, At(a.dev, a.id))| == p.quota(a.id);
    if QueueOf(p, a) <= SentFrom(p, o.sent, a) {
      SubsetSize(QueueOf(p, a), SentFrom(p, o.sent, a));
      assert false;
    }
    c :| c in QueueOf(p, a) && c !in SentFrom(p, o.sent, a);
    NothingForgotten(p, run, n, c);
  }
}
