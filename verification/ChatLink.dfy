/** Two chat connection loops joined by two byte pipes. Each loop waits in a select for the next
    header byte or the next outgoing message; when the outgoing message wins, the header read is
    dropped together with the bytes it already took. */
module ChatLink {
  import opened Basics
  import opened Framing

  /** Where a loop is suspended: in the select, in the body read, or in the write. */
  datatype Phase =
    | Selecting(header: seq<byte>)
    | ReadingBody(need: nat, got: seq<byte>)
    | Writing(rest: seq<byte>)

  /** `queued`, `taken` and `lost` are history: everything ever put on the outbound queue, every
      message taken from it, and how many header bytes were dropped. */
  datatype Endpoint = Endpoint(
    phase: Phase,
    outbound: seq<Message>,
    inbound: seq<Message>,
    alive: bool,
    queued: seq<Message>,
    taken: seq<Message>,
    lost: nat)

  const FRESH := Endpoint(Selecting([]), [], [], true, [], [], 0)

  function ReaderOf(p: Phase): Reader {
    match p
    case Selecting(header) => Header(header)
    case ReadingBody(need, got) => Body(need, got)
    case Writing(_) => Header([])
  }

  function PhaseOf(r: Reader): Phase {
    match r case Header(got) => Selecting(got) case Body(need, got) => ReadingBody(need, got)
  }

  function Unwritten(e: Endpoint): seq<byte> {
    if e.phase.Writing? then e.phase.rest else []
  }

  predicate ValidEndpoint(e: Endpoint) {
    && Framing.Valid(ReaderOf(e.phase))
    && (e.phase.Writing? ==> e.phase.rest != [])
    && e.taken + e.outbound == e.queued
    && AllShort(e.inbound)
  }

  // ---- What a loop can do ----

  function Enqueue(e: Endpoint, m: Message): Endpoint {
    e.(outbound := e.outbound + [m], queued := e.queued + [m])
  }

  predicate CanRead(e: Endpoint, piece: seq<byte>)
    requires ValidEndpoint(e)
  {
    e.alive && !e.phase.Writing? && 0 < |piece| <= Wants(ReaderOf(e.phase))
  }

  function Read(e: Endpoint, piece: seq<byte>): Endpoint
    requires ValidEndpoint(e) && CanRead(e, piece)
  {
    var (r, ms) := ReadSome(ReaderOf(e.phase), piece);
    e.(phase := PhaseOf(r), inbound := e.inbound + ms)
  }

  predicate CanTake(e: Endpoint) {
    e.alive && e.phase.Selecting? && e.outbound != []
  }

  /** The outgoing branch wins the select. */
  function TakeOutgoing(e: Endpoint): Endpoint
    requires CanTake(e)
  {
    e.(phase := Writing(Frame(e.outbound[0])),
       outbound := e.outbound[1..],
       taken := e.taken + [e.outbound[0]],
       lost := e.lost + |e.phase.header|)
  }

  predicate CanWrite(e: Endpoint, n: nat) {
    e.alive && e.phase.Writing? && 0 < n <= |e.phase.rest|
  }

  function Write(e: Endpoint, n: nat): Endpoint
    requires CanWrite(e, n)
  {
    e.(phase := if n == |e.phase.rest| then Selecting([]) else Writing(e.phase.rest[n..]))
  }

  // ---- One step of one end; what is not possible changes nothing ----

  datatype Act = Queue(m: Message) | ReadBytes(n: nat) | Take | WriteBytes(n: nat) | Stop

  datatype Moved = Moved(e: Endpoint, input: seq<byte>, output: seq<byte>)

  function Move(e: Endpoint, input: seq<byte>, output: seq<byte>, act: Act): Moved
    requires ValidEndpoint(e)
  {
    match act
    case Queue(m) => Moved(if e.alive then Enqueue(e, m) else e, input, output)
    case ReadBytes(n) =>
      if n <= |input| && CanRead(e, input[..n]) then Moved(Read(e, input[..n]), input[n..], output)
      else Moved(e, input, output)
    case Take => Moved(if CanTake(e) then TakeOutgoing(e) else e, input, output)
    case WriteBytes(n) =>
      if CanWrite(e, n) then Moved(Write(e, n), input, output + e.phase.rest[..n])
      else Moved(e, input, output)
    case Stop => Moved(e.(alive := false), input, output)
  }

  lemma MoveStaysValid(e: Endpoint, input: seq<byte>, output: seq<byte>, act: Act)
    requires ValidEndpoint(e)
    ensures ValidEndpoint(Move(e, input, output, act).e)
  {
    match act
    case ReadBytes(n) =>
      if n <= |input| && CanRead(e, input[..n]) {
        ReadSomeStaysValid(ReaderOf(e.phase), input[..n]);
      }
    case Take =>
      if CanTake(e) {
        HeadTail(e.outbound);
      }
    case _ =>
  }

  // ---- One direction: from writer `w` through `pipe` to reader `r` ----

  function InFlight(w: Endpoint, pipe: seq<byte>): seq<byte> {
    pipe + Unwritten(w)
  }

  /** What the reader delivered, followed by what it will decode from the bytes still on their way,
      is exactly what the writer took from its queue. */
  predicate Conserved(w: Endpoint, pipe: seq<byte>, r: Endpoint)
    requires ValidEndpoint(r)
  {
    var (end, rest) := Feed(ReaderOf(r.phase), InFlight(w, pipe));
    end == Header([]) && r.inbound + rest == w.taken
  }

  predicate FlowInv(w: Endpoint, pipe: seq<byte>, r: Endpoint) {
    && ValidEndpoint(w) && ValidEndpoint(r)
    && Size(r.inbound) + Held(ReaderOf(r.phase)) + |InFlight(w, pipe)| + r.lost == Sent(w)
    && (r.lost == 0 && AllShort(w.taken) ==> Conserved(w, pipe, r))
  }

  /** The bytes of all frames the writer made. */
  function Sent(w: Endpoint): nat { Size(w.taken) }

  lemma WriterTakes(w: Endpoint, pipe: seq<byte>, r: Endpoint)
    requires FlowInv(w, pipe, r) && CanTake(w)
    ensures FlowInv(TakeOutgoing(w), pipe, r)
  {
    var v, m := TakeOutgoing(w), w.outbound[0];
    MoveStaysValid(w, [], [], Take);
    SizeConcat(w.taken, [m]);
    SizeOne(m);
    assert InFlight(v, pipe) == InFlight(w, pipe) + Frame(m);
    if r.lost == 0 && AllShort(v.taken) {
      assert m in v.taken && AllShort(w.taken);
      FeedFrame(m);
      FeedConcat(ReaderOf(r.phase), InFlight(w, pipe), Frame(m));
      ConcatAssoc(r.inbound, Feed(ReaderOf(r.phase), InFlight(w, pipe)).1, [m]);
    }
  }

  lemma SameFlow(w: Endpoint, pipe: seq<byte>, v: Endpoint, pipe': seq<byte>, r: Endpoint)
    requires FlowInv(w, pipe, r) && ValidEndpoint(v)
    requires v.taken == w.taken && InFlight(v, pipe') == InFlight(w, pipe)
    ensures FlowInv(v, pipe', r)
  {}

  lemma WriteMovesBytes(w: Endpoint, pipe: seq<byte>, n: nat)
    requires CanWrite(w, n)
    ensures InFlight(Write(w, n), pipe + w.phase.rest[..n]) == InFlight(w, pipe)
  {
    assert w.phase.rest == w.phase.rest[..n] + w.phase.rest[n..];
  }

  lemma WriterKeepsFlow(w: Endpoint, input: seq<byte>, pipe: seq<byte>, r: Endpoint, act: Act)
    requires FlowInv(w, pipe, r)
    ensures var n := Move(w, input, pipe, act);
      FlowInv(n.e, n.output, r)
  {
    MoveStaysValid(w, input, pipe, act);
    var n := Move(w, input, pipe, act);
    if act.Take? && CanTake(w) {
      WriterTakes(w, pipe, r);
    } else {
      if act.WriteBytes? && CanWrite(w, act.n) {
        WriteMovesBytes(w, pipe, act.n);
      }
      SameFlow(w, pipe, n.e, n.output, r);
    }
  }

  /** Reading moves bytes from flight to hand, or out as a message, and decodes no differently. */
  lemma ReadMovesBytes(w: Endpoint, pipe: seq<byte>, r: Endpoint, n: nat)
    requires ValidEndpoint(r) && n <= |pipe| && CanRead(r, pipe[..n])
    ensures var (next, ms) := ReadSome(ReaderOf(r.phase), pipe[..n]);
      var later := InFlight(w, pipe[n..]);
      && Framing.Valid(next)
      && Feed(ReaderOf(r.phase), InFlight(w, pipe)) == (Feed(next, later).0, ms + Feed(next, later).1)
      && Held(ReaderOf(r.phase)) + |InFlight(w, pipe)| == Size(ms) + Held(next) + |later|
  {
    var piece, later := pipe[..n], InFlight(w, pipe[n..]);
    var reader := ReaderOf(r.phase);
    ReadSomeStaysValid(reader, piece);
    ReadSomeCounts(reader, piece);
    assert InFlight(w, pipe) == piece + later;
    FeedPiece(reader, piece);
    FeedConcat(reader, piece, later);
  }

  lemma ReaderReads(w: Endpoint, pipe: seq<byte>, r: Endpoint, n: nat)
    requires FlowInv(w, pipe, r) && n <= |pipe| && CanRead(r, pipe[..n])
    ensures FlowInv(w, pipe[n..], Read(r, pipe[..n]))
  {
    var (next, ms) := ReadSome(ReaderOf(r.phase), pipe[..n]);
    ReadSomeStaysValid(ReaderOf(r.phase), pipe[..n]);
    ReadMovesBytes(w, pipe, r, n);
    SizeConcat(r.inbound, ms);
    assert ReaderOf(PhaseOf(next)) == next;
    ConcatAssoc(r.inbound, ms, Feed(next, InFlight(w, pipe[n..])).1);
  }

  lemma ReaderKeepsFlow(w: Endpoint, pipe: seq<byte>, r: Endpoint, output: seq<byte>, act: Act)
    requires FlowInv(w, pipe, r)
    ensures var n := Move(r, pipe, output, act);
      FlowInv(w, n.input, n.e)
  {
    MoveStaysValid(r, pipe, output, act);
    if act.ReadBytes? && act.n <= |pipe| && CanRead(r, pipe[..act.n]) {
      ReaderReads(w, pipe, r, act.n);
    }
  }

  /** Nothing is lost, invented or reordered in flight if and only if the reader's select never
      dropped a header byte and every message taken so far fits its 32-bit length. */
  lemma ConservedExactly(w: Endpoint, pipe: seq<byte>, r: Endpoint)
    requires FlowInv(w, pipe, r)
    ensures Conserved(w, pipe, r) <==> r.lost == 0 && AllShort(w.taken)
  {
    if Conserved(w, pipe, r) {
      var (end, rest) := Feed(ReaderOf(r.phase), InFlight(w, pipe));
      FeedStaysValid(ReaderOf(r.phase), InFlight(w, pipe));
      FeedCounts(ReaderOf(r.phase), InFlight(w, pipe));
      SizeConcat(r.inbound, rest);
    }
  }

  // ---- Both directions at once, over whole runs ----

  datatype Side = A | B

  datatype Step = Step(side: Side, act: Act)

  /** `ab` carries bytes from `a` to `b`, `ba` the other way. */
  datatype System = System(a: Endpoint, b: Endpoint, ab: seq<byte>, ba: seq<byte>)

  predicate Inv(s: System) {
    FlowInv(s.a, s.ab, s.b) && FlowInv(s.b, s.ba, s.a)
  }

  predicate ValidEnds(s: System) {
    ValidEndpoint(s.a) && ValidEndpoint(s.b)
  }

  function Apply(s: System, x: Step): (r: System)
    requires ValidEnds(s)
    ensures ValidEnds(r)
  {
    MoveStaysValid(s.a, s.ba, s.ab, x.act);
    MoveStaysValid(s.b, s.ab, s.ba, x.act);
    if x.side.A? then
      var n := Move(s.a, s.ba, s.ab, x.act);
      System(n.e, s.b, n.output, n.input)
    else
      var n := Move(s.b, s.ab, s.ba, x.act);
      System(s.a, n.e, n.input, n.output)
  }

  lemma ApplyKeepsInv(s: System, x: Step)
    requires Inv(s)
    ensures Inv(Apply(s, x))
  {
    if x.side.A? {
      WriterKeepsFlow(s.a, s.ba, s.ab, s.b, x.act);
      ReaderKeepsFlow(s.b, s.ba, s.a, s.ab, x.act);
    } else {
      WriterKeepsFlow(s.b, s.ab, s.ba, s.a, x.act);
      ReaderKeepsFlow(s.a, s.ab, s.b, s.ba, x.act);
    }
  }

  function Run(h: Log<Step>): (s: System)
    ensures ValidEnds(s)
  {
    match h
    case Start => System(FRESH, FRESH, [], [])
    case Then(past, x) => Apply(Run(past), x)
  }

  lemma {:induction false} RunKeepsInv(h: Log<Step>)
    ensures Inv(Run(h))
  {
    if h.Then? {
      RunKeepsInv(h.before);
      ApplyKeepsInv(Run(h.before), h.last);
    }
  }

  function End(s: System, side: Side): Endpoint {
    match side case A => s.a case B => s.b
  }

  /** Whenever `side` turned to an outgoing message, its header read had taken no byte. */
  predicate NeverInterrupts(h: Log<Step>, side: Side) {
    h.Then? ==>
      && NeverInterrupts(h.before, side)
      && var e := End(Run(h.before), side);
         (h.last == Step(side, Take) && CanTake(e) ==> e.phase.header == [])
  }

  lemma MoveLoses(e: Endpoint, input: seq<byte>, output: seq<byte>, act: Act)
    requires ValidEndpoint(e)
    ensures Move(e, input, output, act).e.lost ==
      e.lost + (if act.Take? && CanTake(e) then |e.phase.header| else 0)
  {}

  lemma {:induction false} LosesExactlyByInterrupting(h: Log<Step>, side: Side)
    ensures End(Run(h), side).lost == 0 <==> NeverInterrupts(h, side)
  {
    if h.Then? {
      LosesExactlyByInterrupting(h.before, side);
      var s := Run(h.before);
      if h.last.side == side {
        MoveLoses(End(s, side), if side.A? then s.ba else s.ab, if side.A? then s.ab else s.ba, h.last.act);
      }
    }
  }

  /** For every interleaving, in both directions at once: the direction is conserved if and only if
      its reading side never interrupts a header and its writing side took no oversized message. */
  lemma {:induction false} LinkConservedExactly(h: Log<Step>)
    ensures var s := Run(h);
      && (Conserved(s.a, s.ab, s.b) <==> NeverInterrupts(h, B) && AllShort(s.a.taken))
      && (Conserved(s.b, s.ba, s.a) <==> NeverInterrupts(h, A) && AllShort(s.b.taken))
  {
    var s := Run(h);
    RunKeepsInv(h);
    ConservedExactly(s.a, s.ab, s.b);
    ConservedExactly(s.b, s.ba, s.a);
    LosesExactlyByInterrupting(h, A);
    LosesExactlyByInterrupting(h, B);
  }

  /** Then the other side has received a prefix of what was queued, and all that was taken once no
      byte is on its way. */
  lemma {:induction false} DeliversInOrder(h: Log<Step>)
    requires NeverInterrupts(h, B) && AllShort(Run(h).a.taken)
    ensures var s := Run(h);
      && s.b.inbound <= s.a.taken <= s.a.queued
      && (InFlight(s.a, s.ab) == [] ==> s.b.inbound == s.a.taken)
  {
    LinkConservedExactly(h);
  }

  lemma {:induction false} InterruptionStays(h: Log<Step>, more: Log<Step>, side: Side)
    requires !NeverInterrupts(h, side)
    ensures !NeverInterrupts(Append(h, more), side)
  {
    if more.Then? {
      InterruptionStays(h, more.before, side);
    }
  }

  /** Once a reading side has interrupted a header, its direction is never conserved again, whatever
      the two ends go on to do. */
  lemma {:induction false} LossIsForGood(h: Log<Step>, more: Log<Step>)
    ensures var s := Run(Append(h, more));
      && (!NeverInterrupts(h, B) ==> !Conserved(s.a, s.ab, s.b))
      && (!NeverInterrupts(h, A) ==> !Conserved(s.b, s.ba, s.a))
  {
    LinkConservedExactly(Append(h, more));
    if !NeverInterrupts(h, B) {
      InterruptionStays(h, more, B);
    }
    if !NeverInterrupts(h, A) {
      InterruptionStays(h, more, A);
    }
  }

  /** The side condition is needed: here `b` has read one header byte when its own outgoing message
      wins the select, and what `a` sent can no longer be decoded. */
  function InterruptedRun(fromA: Message, fromB: Message): Log<Step> {
    var h1 := Then(Then(Start, Step(A, Queue(fromA))), Step(B, Queue(fromB)));
    var h2 := Then(Then(h1, Step(A, Take)), Step(A, WriteBytes(1)));
    Then(Then(h2, Step(B, ReadBytes(1))), Step(B, Take))
  }

  lemma BeforeTheInterrupt(fromA: Message, fromB: Message)
    ensures var s := Run(InterruptedRun(fromA, fromB).before.before);
      && s.ab == Frame(fromA)[..1] && s.b == Enqueue(FRESH, fromB)
  {
    var h4 := InterruptedRun(fromA, fromB).before.before;
    var h2 := h4.before.before;
    assert Run(h2.before.before) == System(FRESH, FRESH, [], []);
    assert Run(h2.before) == System(Enqueue(FRESH, fromA), FRESH, [], []);
    assert Run(h2) == System(Enqueue(FRESH, fromA), Enqueue(FRESH, fromB), [], []);
    assert Run(h4.before) == System(TakeOutgoing(Enqueue(FRESH, fromA)), Enqueue(FRESH, fromB), [], []);
    assert [] + Frame(fromA)[..1] == Frame(fromA)[..1];
  }

  lemma OneHeaderByteRead(fromA: Message, fromB: Message)
    ensures var e := Run(InterruptedRun(fromA, fromB).before).b;
      CanTake(e) && e.phase.header != []
  {
    var h := InterruptedRun(fromA, fromB).before;
    BeforeTheInterrupt(fromA, fromB);
    var s := Run(h.before);
    assert s.ab[..1] == s.ab;
    assert Run(h).b == Read(s.b, s.ab);
  }

  /** It stays so however the run goes on. */
  lemma InterruptedRunLosesMessage(fromA: Message, fromB: Message, more: Log<Step>)
    ensures var h := InterruptedRun(fromA, fromB);
      var s := Run(Append(h, more));
      !NeverInterrupts(h, B) && !Conserved(s.a, s.ab, s.b)
  {
    OneHeaderByteRead(fromA, fromB);
    LossIsForGood(InterruptedRun(fromA, fromB), more);
  }

  // ---- What is queued can be delivered ----

  /** In every phase but writing, a live end takes what it finds in its pipe, up to what its read still
      wants: the bytes it holds grow by it, or with it they make up the frame of one message, which is
      delivered. */
  lemma EveryByteIsTaken(e: Endpoint, input: seq<byte>, output: seq<byte>, n: nat)
    requires ValidEndpoint(e) && e.alive && !e.phase.Writing?
    requires 0 < n <= |input| && n <= Wants(ReaderOf(e.phase))
    ensures var r := Move(e, input, output, ReadBytes(n));
      && r.input == input[n..] && r.output == output
      && r.e.alive && r.e.outbound == e.outbound && r.e.queued == e.queued && r.e.taken == e.taken
      && ValidEndpoint(r.e) && !r.e.phase.Writing?
      && e.inbound <= r.e.inbound && |r.e.inbound| <= |e.inbound| + 1
      && HeldBytes(ReaderOf(e.phase)) + input[..n] ==
           Frames(r.e.inbound[|e.inbound|..]) + HeldBytes(ReaderOf(r.e.phase))
  {
    MoveStaysValid(e, input, output, ReadBytes(n));
    ReadSomeReencodes(ReaderOf(e.phase), input[..n]);
    var r := Move(e, input, output, ReadBytes(n)).e;
    var ms := ReadSome(ReaderOf(e.phase), input[..n]).1;
    assert r.inbound == e.inbound + ms && r.inbound[|e.inbound|..] == ms;
  }

  /** A live end in its select turns to a waiting message whatever part of a header it has read: that part
      is dropped and the message's length in four bytes and its bytes are what it writes next. */
  lemma AnyMessageIsTaken(e: Endpoint, input: seq<byte>, output: seq<byte>)
    requires e.alive && e.phase.Selecting? && e.outbound != [] && ValidEndpoint(e)
    ensures var r := Move(e, input, output, Take);
      var m := e.outbound[0];
      && r.input == input && r.output == output
      && Unwritten(r.e) == ToBe(|m| % TWO_TO_THE_32) + m
      && r.e.outbound == e.outbound[1..] && r.e.taken == e.taken + [m] && r.e.inbound == e.inbound
      && r.e.alive && r.e.lost == e.lost + |e.phase.header|
  {}

  /** A live end writes any part of its frame from the front, and returns to the select after the last. */
  lemma AnyPartIsWritten(e: Endpoint, input: seq<byte>, output: seq<byte>, n: nat)
    requires e.alive && e.phase.Writing? && 0 < n <= |e.phase.rest| && ValidEndpoint(e)
    ensures var r := Move(e, input, output, WriteBytes(n));
      && r.input == input
      && r.output + Unwritten(r.e) == output + e.phase.rest && |r.output| == |output| + n
      && (n == |e.phase.rest| ==> r.e.phase == Selecting([]))
      && r.e.alive && r.e.outbound == e.outbound && r.e.taken == e.taken && r.e.inbound == e.inbound
  {
    assert e.phase.rest == e.phase.rest[..n] + e.phase.rest[n..];
  }

  /** A loop that has returned does nothing more: not even its queue takes a message. */
  lemma EndedDoesNothing(e: Endpoint, input: seq<byte>, output: seq<byte>, act: Act)
    requires !e.alive && ValidEndpoint(e)
    ensures Move(e, input, output, act) == Moved(e, input, output)
  {}

  /** Steps still to be made from writer `w` through `pipe`, a byte counting three in the queue, two in
      the frame being written and one in the pipe. */
  function Work(w: Endpoint, pipe: seq<byte>): nat {
    3 * Size(w.outbound) + 2 * |Unwritten(w)| + |pipe|
  }

  function TotalWork(s: System): nat { Work(s.a, s.ab) + Work(s.b, s.ba) }

  predicate BothLive(s: System) { s.a.alive && s.b.alive }

  /** No side has dropped a header byte and nothing queued is oversized. */
  predicate Unspoilt(h: Log<Step>) {
    && NeverInterrupts(h, A) && NeverInterrupts(h, B)
    && AllShort(Run(h).a.queued) && AllShort(Run(h).b.queued)
  }

  /** Reading, taking from the queue and writing only. */
  predicate Forwards(h: Log<Step>) {
    h.Then? ==> Forwards(h.before) && !h.last.act.Queue? && !h.last.act.Stop?
  }

  lemma WriteLessensWork(e: Endpoint, input: seq<byte>, output: seq<byte>)
    requires ValidEndpoint(e) && e.alive && e.phase.Writing?
    ensures var n := Move(e, input, output, WriteBytes(|e.phase.rest|));
      && Work(n.e, n.output) < Work(e, output) && n.input == input
      && n.e.alive && n.e.queued == e.queued
  {}

  lemma ReadLessensWork(e: Endpoint, input: seq<byte>, output: seq<byte>)
    requires ValidEndpoint(e) && e.alive && !e.phase.Writing? && input != []
    ensures var n := Move(e, input, output, ReadBytes(1));
      && |n.input| < |input| && n.output == output && Work(n.e, output) == Work(e, output)
      && n.e.alive && n.e.queued == e.queued
  {
    EveryByteIsTaken(e, input, output, 1);
  }

  lemma TakeLessensWork(e: Endpoint, input: seq<byte>, output: seq<byte>)
    requires ValidEndpoint(e) && CanTake(e)
    ensures var n := Move(e, input, output, Take);
      && Work(n.e, output) < Work(e, output) && n.input == input && n.output == output
      && n.e.alive && n.e.queued == e.queued
  {
    HeadTail(e.outbound);
    SizeOne(e.outbound[0]);
    SizeConcat([e.outbound[0]], e.outbound[1..]);
  }

  /** Between messages and with nothing on its way, neither end is inside a header or a body. */
  lemma {:induction false} IdleMeansSelecting(h: Log<Step>)
    requires Unspoilt(h)
    requires var s := Run(h); s.ab == [] && s.ba == [] && !s.a.phase.Writing? && !s.b.phase.Writing?
    ensures Run(h).a.phase == Selecting([]) && Run(h).b.phase == Selecting([])
  {
    var s := Run(h);
    RunKeepsInv(h);
    assert forall m :: m in s.a.taken ==> m in s.a.taken + s.a.outbound;
    assert forall m :: m in s.b.taken ==> m in s.b.taken + s.b.outbound;
    LinkConservedExactly(h);
    assert InFlight(s.a, s.ab) == [] && InFlight(s.b, s.ba) == [];
  }

  /** Which step to make next: write, else read, else take. */
  function NextStep(s: System): Step {
    if s.a.phase.Writing? then Step(A, WriteBytes(|s.a.phase.rest|))
    else if s.b.phase.Writing? then Step(B, WriteBytes(|s.b.phase.rest|))
    else if s.ab != [] then Step(B, ReadBytes(1))
    else if s.ba != [] then Step(A, ReadBytes(1))
    else if s.a.outbound != [] then Step(A, Take)
    else Step(B, Take)
  }

  lemma {:induction false} NextStepHelps(h: Log<Step>)
    requires Unspoilt(h) && BothLive(Run(h)) && TotalWork(Run(h)) > 0
    ensures var s, r := Run(h), Run(Then(h, NextStep(Run(h))));
      && Unspoilt(Then(h, NextStep(s))) && BothLive(r) && TotalWork(r) < TotalWork(s)
      && r.a.queued == s.a.queued && r.b.queued == s.b.queued
  {
    var s := Run(h);
    if s.a.phase.Writing? {
      WriteLessensWork(s.a, s.ba, s.ab);
    } else if s.b.phase.Writing? {
      WriteLessensWork(s.b, s.ab, s.ba);
    } else if s.ab != [] {
      ReadLessensWork(s.b, s.ab, s.ba);
    } else if s.ba != [] {
      ReadLessensWork(s.a, s.ba, s.ab);
    } else {
      IdleMeansSelecting(h);
      if s.a.outbound != [] {
        TakeLessensWork(s.a, s.ba, s.ab);
      } else {
        TakeLessensWork(s.b, s.ab, s.ba);
      }
    }
  }

  lemma {:induction false} AppendAssoc<T>(a: Log<T>, b: Log<T>, c: Log<T>)
    ensures Append(Append(a, b), c) == Append(a, Append(b, c))
  {
    if c.Then? {
      AppendAssoc(a, b, c.before);
    }
  }

  lemma {:induction false} ForwardsAppend(a: Log<Step>, b: Log<Step>)
    requires Forwards(a) && Forwards(b)
    ensures Forwards(Append(a, b))
  {
    if b.Then? {
      ForwardsAppend(a, b.before);
    }
  }

  /** Each side has received, in order, exactly what the other had been given to send. */
  predicate AllDelivered(s: System, r: System) {
    r.b.inbound == s.a.queued && r.a.inbound == s.b.queued
  }

  /** Nothing is left to do only when everything is delivered. */
  lemma {:induction false} NoWorkMeansDelivered(h: Log<Step>)
    requires Unspoilt(h) && TotalWork(Run(h)) == 0
    ensures AllDelivered(Run(h), Run(h))
  {
    var s := Run(h);
    RunKeepsInv(h);
    assert s.a.outbound == [] && s.b.outbound == [];
    assert s.a.taken + [] == s.a.taken && s.b.taken + [] == s.b.taken;
    LinkConservedExactly(h);
    assert InFlight(s.a, s.ab) == [] && InFlight(s.b, s.ba) == [];
  }

  /** Going on with `more`, which queues nothing new and stops nobody, everything queued is delivered. */
  predicate Delivers(h: Log<Step>, more: Log<Step>) {
    Forwards(more) && AllDelivered(Run(h), Run(Append(h, more)))
  }

  lemma {:induction false} WorkOff(h: Log<Step>) returns (more: Log<Step>)
    requires Unspoilt(h) && BothLive(Run(h))
    ensures Delivers(h, more)
    decreases TotalWork(Run(h))
  {
    if TotalWork(Run(h)) == 0 {
      more := Start;
      NoWorkMeansDelivered(h);
    } else {
      var x := NextStep(Run(h));
      NextStepHelps(h);
      var rest := WorkOff(Then(h, x));
      var first := Then(Start, x);
      more := Append(first, rest);
      assert Append(h, first) == Then(h, x);
      AppendAssoc(h, first, rest);
      ForwardsAppend(first, rest);
    }
  }

  lemma {:induction false} ForwardsQueuesNothing(h: Log<Step>, more: Log<Step>)
    requires Forwards(more)
    ensures var s, r := Run(h), Run(Append(h, more));
      r.a.queued == s.a.queued && r.b.queued == s.b.queued
  {
    if more.Then? {
      ForwardsQueuesNothing(h, more.before);
    }
  }

  lemma {:induction false} DeliveredMeansUnspoilt(h: Log<Step>, more: Log<Step>)
    requires Delivers(h, more)
    ensures Unspoilt(h)
  {
    var all := Append(h, more);
    var r := Run(all);
    RunKeepsInv(all);
    ForwardsQueuesNothing(h, more);
    SizeConcat(r.a.taken, r.a.outbound);
    SizeConcat(r.b.taken, r.b.outbound);
    LosesExactlyByInterrupting(all, A);
    LosesExactlyByInterrupting(all, B);
    if !NeverInterrupts(h, A) {
      InterruptionStays(h, more, A);
    }
    if !NeverInterrupts(h, B) {
      InterruptionStays(h, more, B);
    }
  }

  /** While both ends live, reading, taking and writing can still bring everything queued to the other
      side, in both directions at once, if and only if no side has interrupted a header so far and
      nothing queued is oversized. */
  lemma {:induction false} DeliverableExactly(h: Log<Step>)
    requires BothLive(Run(h))
    ensures (exists more :: Delivers(h, more)) <==> Unspoilt(h)
  {
    if Unspoilt(h) {
      var more := WorkOff(h);
      assert Delivers(h, more);
    } else {
      forall more | Delivers(h, more) ensures false {
        DeliveredMeansUnspoilt(h, more);
      }
    }
  }
}
