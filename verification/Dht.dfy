/** The DHT discovery component: a command queue gated on bootstrap and a buffer of found peers,
    both driven by polls of the HyperDht handle. */
module Dht {
  import opened Basics

  datatype QueryOpts = QueryOpts(topic: Topic, port: Option<int>, localAddr: Option<SocketAddr>)

  datatype Command = Lookup(opts: QueryOpts) | Announce(opts: QueryOpts)

  /** A command before the announce port is put on it. */
  datatype TopicCommand = LookupTopic(topic: Topic) | AnnounceTopic(topic: Topic)

  datatype HyperDhtEvent =
    | Bootstrapped
    | AnnounceResult
    | LookupResult(topic: Topic, remotes: seq<SocketAddr>)
    | UnAnnounceResult
    | OtherEvent

  /** One observable thing that happened at this component. `Wait` is the handle answering Pending. */
  datatype Action =
    | Request(command: Command)
    | Issue(command: Command)
    | Consume(event: HyperDhtEvent)
    | Emit(peer: PeerInfo)
    | Wait

  /** `ready` holds the events the handle answers before its next Pending; `trace` is history only. */
  datatype State = State(
    announcePort: u16,
    bootstrapped: bool,
    pendingCommands: seq<Command>,
    pendingEvents: seq<PeerInfo>,
    ready: seq<HyperDhtEvent>,
    trace: Log<Action>)

  function Init(port: u16): State {
    State(port, false, [], [], [], Start)
  }

  // ---- What a poll, a lookup and an announce do ----

  function Query(port: u16, topic: Topic): QueryOpts {
    QueryOpts(topic, Some(port), None)
  }

  function OnDht(port: u16, c: TopicCommand): Command {
    match c
    case LookupTopic(t) => Lookup(Query(port, t))
    case AnnounceTopic(t) => Announce(Query(port, t))
  }

  function Enqueue(s: State, c: Command): State {
    s.(pendingCommands := s.pendingCommands + [c], trace := Then(s.trace, Request(c)))
  }

  function ExecutePending(s: State): (r: State)
    ensures r.ready == s.ready && r.pendingEvents == s.pendingEvents && r.pendingCommands == []
    ensures r.bootstrapped == s.bootstrapped && r.announcePort == s.announcePort
    decreases |s.pendingCommands|
  {
    if s.pendingCommands == [] then s
    else ExecutePending(s.(pendingCommands := s.pendingCommands[1..],
                           trace := Then(s.trace, Issue(s.pendingCommands[0]))))
  }

  function PeersOf(e: HyperDhtEvent): seq<PeerInfo> {
    if e.LookupResult?
    then seq(|e.remotes|, i requires 0 <= i < |e.remotes| => PeerInfo(e.remotes[i], Some(e.topic), ViaDht))
    else []
  }

  /** The peers of every lookup result among `events`, in order. */
  function PeersIn(events: seq<HyperDhtEvent>): seq<PeerInfo> {
    if events == [] then [] else PeersOf(events[0]) + PeersIn(events[1..])
  }

  lemma {:induction false} PeersInConcat(a: seq<HyperDhtEvent>, b: seq<HyperDhtEvent>)
    ensures PeersIn(a + b) == PeersIn(a) + PeersIn(b)
  {
    if a == [] {
      assert [] + b == b;
    } else {
      ConcatTail(a, b);
      PeersInConcat(a[1..], b);
    }
  }

  /** The next ready event is taken from the handle and handled. */
  function TakeEvent(s: State): State
    requires s.ready != []
  {
    var e := s.ready[0];
    s.(ready := s.ready[1..],
       bootstrapped := s.bootstrapped || e.Bootstrapped?,
       pendingEvents := s.pendingEvents + PeersOf(e),
       trace := Then(s.trace, Consume(e)))
  }

  function Flush(s: State): State {
    if s.bootstrapped then ExecutePending(s) else s
  }

  function EmitFirst(s: State): State
    requires s.pendingEvents != []
  {
    s.(pendingEvents := s.pendingEvents[1..], trace := Then(s.trace, Emit(s.pendingEvents[0])))
  }

  function PollNext(s: State): (State, Poll<PeerInfo>)
    decreases |s.ready|
  {
    if s.pendingEvents != [] then
      (EmitFirst(s), Ready(s.pendingEvents[0]))
    else
      var f := Flush(s);
      if f.ready == [] then (f.(trace := Then(f.trace, Wait)), Pending)
      else PollNext(TakeEvent(f))
  }

  // ---- The trace, and which traces are legal ----

  function RequestOf(a: Action): seq<Command> { if a.Request? then [a.command] else [] }
  function IssueOf(a: Action): seq<Command> { if a.Issue? then [a.command] else [] }
  function ReportOf(a: Action): seq<PeerInfo> { if a.Consume? then PeersOf(a.event) else [] }
  function EventOf(a: Action): seq<HyperDhtEvent> { if a.Consume? then [a.event] else [] }
  function EmitOf(a: Action): seq<PeerInfo> { if a.Emit? then [a.peer] else [] }

  function Requested(t: Log<Action>): seq<Command> { Collect(RequestOf, t) }
  function Issued(t: Log<Action>): seq<Command> { Collect(IssueOf, t) }
  function Consumed(t: Log<Action>): seq<HyperDhtEvent> { Collect(EventOf, t) }
  function Emitted(t: Log<Action>): seq<PeerInfo> { Collect(EmitOf, t) }

  /** What was asked for, ports aside. */
  function AskOf(a: Action): seq<TopicCommand> {
    if a.Request? then [if a.command.Lookup? then LookupTopic(a.command.opts.topic)
                        else AnnounceTopic(a.command.opts.topic)] else []
  }
  function Asked(t: Log<Action>): seq<TopicCommand> { Collect(AskOf, t) }

  /** The peers of every consumed lookup result, each tagged with its topic, in order. */
  function Reported(t: Log<Action>): seq<PeerInfo> { Collect(ReportOf, t) }

  predicate CarriesPort(t: Log<Action>, port: u16) {
    t.Then? ==>
      && CarriesPort(t.before, port)
      && (t.last.Request? ==> t.last.command.opts.port == Some(port) && t.last.command.opts.localAddr == None)
  }

  predicate BootstrapSeen(t: Log<Action>) { Contains(t, Consume(Bootstrapped)) }

  /** Nothing is buffered, and after bootstrap no command is held back. */
  predicate Settled(past: Log<Action>) {
    && Emitted(past) == Reported(past)
    && (BootstrapSeen(past) ==> Issued(past) == Requested(past))
  }

  /** Commands reach the handle only after bootstrap, once each and in request order; peers leave
      in report order; the handle is asked for an event only when the component is settled. */
  predicate Allowed(past: Log<Action>, a: Action) {
    match a
    case Request(_) => true
    case Issue(c) => BootstrapSeen(past) && Issued(past) + [c] <= Requested(past)
    case Emit(p) => Emitted(past) + [p] <= Reported(past)
    case Consume(_) => Settled(past)
    case Wait => Settled(past)
  }

  predicate Legal(t: Log<Action>) {
    t.Then? ==> Legal(t.before) && Allowed(t.before, t.last)
  }

  /** The fields are exactly what the trace leaves over. */
  predicate Inv(s: State) {
    && Legal(s.trace)
    && s.bootstrapped == BootstrapSeen(s.trace)
    && Issued(s.trace) + s.pendingCommands == Requested(s.trace)
    && Emitted(s.trace) + s.pendingEvents == Reported(s.trace)
    && CarriesPort(s.trace, s.announcePort)
    && (forall p :: p in s.pendingEvents ==> p.discoveryMethod == ViaDht)
  }

  lemma EnqueueKeepsInv(s: State, c: TopicCommand)
    requires Inv(s)
    ensures var r := Enqueue(s, OnDht(s.announcePort, c));
      && Inv(r)
      && Asked(r.trace) == Asked(s.trace) + [c]
      && Emitted(r.trace) == Emitted(s.trace)
      && Consumed(r.trace) == Consumed(s.trace)
  {}

  lemma {:induction false} ExecutePendingKeepsInv(s: State)
    requires Inv(s) && s.bootstrapped
    ensures var r := ExecutePending(s);
      && Inv(r)
      && Asked(r.trace) == Asked(s.trace)
      && Issued(r.trace) == Requested(s.trace)
      && Emitted(r.trace) == Emitted(s.trace)
      && Consumed(r.trace) == Consumed(s.trace)
      && Length(s.trace) <= Length(r.trace)
    decreases |s.pendingCommands|
  {
    if s.pendingCommands != [] {
      var c := s.pendingCommands[0];
      assert s.pendingCommands == [c] + s.pendingCommands[1..];
      assert Issued(s.trace) + s.pendingCommands == (Issued(s.trace) + [c]) + s.pendingCommands[1..];
      ExecutePendingKeepsInv(s.(pendingCommands := s.pendingCommands[1..], trace := Then(s.trace, Issue(c))));
    }
  }

  lemma FlushKeepsInv(s: State)
    requires Inv(s)
    ensures var r := Flush(s);
      && Inv(r)
      && Asked(r.trace) == Asked(s.trace)
      && Emitted(r.trace) == Emitted(s.trace)
      && Consumed(r.trace) == Consumed(s.trace)
      && Length(s.trace) <= Length(r.trace)
      && r.ready == s.ready && r.pendingEvents == s.pendingEvents
      && (r.bootstrapped ==> r.pendingCommands == [])
      && r.bootstrapped == s.bootstrapped && r.announcePort == s.announcePort
  {
    if s.bootstrapped {
      ExecutePendingKeepsInv(s);
    }
  }

  lemma TakeEventKeepsInv(s: State)
    requires Inv(s) && s.ready != [] && s.pendingEvents == []
    requires s.bootstrapped ==> s.pendingCommands == []
    ensures var r := TakeEvent(s);
      && Inv(r)
      && Asked(r.trace) == Asked(s.trace)
      && Emitted(r.trace) == Emitted(s.trace)
      && Consumed(r.trace) + r.ready == Consumed(s.trace) + s.ready
      && Length(s.trace) <= Length(r.trace)
  {
    assert s.ready == [s.ready[0]] + s.ready[1..];
  }

  lemma EmitFirstKeepsInv(s: State)
    requires Inv(s) && s.pendingEvents != []
    ensures var r := EmitFirst(s);
      && Inv(r)
      && Asked(r.trace) == Asked(s.trace)
      && Consumed(r.trace) == Consumed(s.trace)
      && Emitted(r.trace) == Emitted(s.trace) + [s.pendingEvents[0]]
      && s.pendingEvents[0].discoveryMethod == ViaDht
  {
    var p := s.pendingEvents[0];
    assert s.pendingEvents == [p] + s.pendingEvents[1..];
    assert Emitted(s.trace) + s.pendingEvents == (Emitted(s.trace) + [p]) + s.pendingEvents[1..];
  }

  lemma WaitKeepsInv(s: State)
    requires Inv(s) && s.pendingEvents == [] && (s.bootstrapped ==> s.pendingCommands == [])
    ensures var r := s.(trace := Then(s.trace, Wait));
      && Inv(r)
      && Asked(r.trace) == Asked(s.trace)
      && Consumed(r.trace) == Consumed(s.trace)
      && Emitted(r.trace) == Emitted(s.trace)
  {}

  /** One poll keeps the invariant, requests nothing, loses no event and extends the trace; what it
      answers is what it emits. */
  lemma {:induction false} PollNextKeepsInv(s: State)
    requires Inv(s)
    ensures var (r, answer) := PollNext(s);
      && Inv(r)
      && Asked(r.trace) == Asked(s.trace)
      && Consumed(r.trace) + r.ready == Consumed(s.trace) + s.ready
      && Emitted(r.trace) == Emitted(s.trace) + (if answer.Ready? then [answer.item] else [])
      && (answer.Ready? ==> answer.item.discoveryMethod == ViaDht)
      && Length(s.trace) < Length(r.trace)
      && r.announcePort == s.announcePort
    decreases |s.ready|
  {
    if s.pendingEvents != [] {
      EmitFirstKeepsInv(s);
    } else {
      FlushKeepsInv(s);
      var f := Flush(s);
      if f.ready == [] {
        WaitKeepsInv(f);
      } else {
        TakeEventKeepsInv(f);
        PollNextKeepsInv(TakeEvent(f));
      }
    }
  }

  /** Every peer the component can still deliver before the handle answers Pending. */
  function Upcoming(s: State): seq<PeerInfo> {
    s.pendingEvents + PeersIn(s.ready)
  }

  // The same in the fields of what the handle reports: a peer for each remote of each lookup result.

  function AddrOf(p: PeerInfo): seq<SocketAddr> { [p.addr] }
  function TopicOf(p: PeerInfo): seq<seq<byte>> { if p.topic.Some? then [p.topic.value] else [] }

  function RemotesOf(e: HyperDhtEvent): seq<SocketAddr> { if e.LookupResult? then e.remotes else [] }

  /** The topic of a lookup result, once for each of its remotes. */
  function RemoteTopicsOf(e: HyperDhtEvent): seq<seq<byte>> {
    if e.LookupResult? then seq(|e.remotes|, _ => e.topic) else []
  }

  /** The addresses of the peers buffered, then the remotes of the lookup results still unread. */
  function AddrsAhead(s: State): seq<SocketAddr> {
    Gather(AddrOf, s.pendingEvents) + Gather(RemotesOf, s.ready)
  }

  function TopicsAhead(s: State): seq<seq<byte>> {
    Gather(TopicOf, s.pendingEvents) + Gather(RemoteTopicsOf, s.ready)
  }

  lemma {:induction false} PeersInGather<B>(
    f: PeerInfo -> seq<B>, k: HyperDhtEvent -> seq<B>, events: seq<HyperDhtEvent>)
    requires forall e :: Gather(f, PeersOf(e)) == k(e)
    ensures Gather(f, PeersIn(events)) == Gather(k, events)
  {
    if events != [] {
      var n := |events| - 1;
      var e := events[n];
      assert events == events[..n] + [e] && [e][1..] == [];
      PeersInConcat(events[..n], [e]);
      assert PeersIn([e]) == PeersOf(e) + [] == PeersOf(e);
      PeersInGather(f, k, events[..n]);
      GatherConcat(f, PeersIn(events[..n]), PeersOf(e));
      assert Gather(f, PeersOf(e)) == k(e);
    }
  }

  lemma PeersInFields(events: seq<HyperDhtEvent>)
    ensures Gather(AddrOf, PeersIn(events)) == Gather(RemotesOf, events)
    ensures Gather(TopicOf, PeersIn(events)) == Gather(RemoteTopicsOf, events)
  {
    forall e ensures Gather(AddrOf, PeersOf(e)) == RemotesOf(e) && Gather(TopicOf, PeersOf(e)) == RemoteTopicsOf(e) {
      OneFromEach(AddrOf, PeersOf(e), RemotesOf(e));
      OneFromEach(TopicOf, PeersOf(e), RemoteTopicsOf(e));
    }
    PeersInGather(AddrOf, RemotesOf, events);
    PeersInGather(TopicOf, RemoteTopicsOf, events);
  }

  lemma AheadIsUpcoming(s: State)
    ensures Gather(AddrOf, Upcoming(s)) == AddrsAhead(s) && Gather(TopicOf, Upcoming(s)) == TopicsAhead(s)
  {
    PeersInFields(s.ready);
    GatherConcat(AddrOf, s.pendingEvents, PeersIn(s.ready));
    GatherConcat(TopicOf, s.pendingEvents, PeersIn(s.ready));
  }

  /** A poll answers the first peer ahead, with its result's topic, and leaves the rest ahead; Pending
      means there was none. */
  lemma PollNextTakesFirst(s: State)
    ensures var (r, answer) := PollNext(s);
      && (answer.Pending? <==> AddrsAhead(s) == [])
      && (answer.Pending? ==> AddrsAhead(r) == [] && TopicsAhead(r) == [])
      && (answer.Ready? ==>
            && AddrsAhead(s) == [answer.item.addr] + AddrsAhead(r)
            && TopicsAhead(s) == TopicOf(answer.item) + TopicsAhead(r))
  {
    var (r, answer) := PollNext(s);
    PollNextAnswer(s);
    AheadIsUpcoming(s);
    AheadIsUpcoming(r);
    if answer.Ready? {
      HeadTail(Upcoming(s));
      GatherConcat(AddrOf, [answer.item], Upcoming(r));
      GatherConcat(TopicOf, [answer.item], Upcoming(r));
      GatherOne(AddrOf, answer.item);
      GatherOne(TopicOf, answer.item);
    }
  }

  /** What a poll answers, read off the state before it: the next peer if a buffered or ready one
      exists, otherwise Pending, with the handle drained and, after bootstrap, every command issued. */
  lemma {:induction false} PollNextAnswer(s: State)
    ensures var (r, answer) := PollNext(s);
      && (answer.Pending? <==> Upcoming(s) == [])
      && (answer.Pending? <==> r.trace.Then? && r.trace.last == Wait)
      && (answer.Ready? ==> answer.item == Upcoming(s)[0] && Upcoming(r) == Upcoming(s)[1..])
      && (answer.Pending? ==>
            r.ready == [] && r.pendingEvents == [] && (r.bootstrapped ==> r.pendingCommands == []))
    decreases |s.ready|
  {
    if s.pendingEvents != [] {
      ConcatTail(s.pendingEvents, PeersIn(s.ready));
    } else if s.ready != [] {
      var n := TakeEvent(Flush(s));
      assert Upcoming(n) == Upcoming(s);
      PollNextAnswer(n);
    }
  }

  lemma NothingAhead(s: State)
    ensures Upcoming(s) == [] <==> AddrsAhead(s) == []
  {
    PollNextAnswer(s);
    PollNextTakesFirst(s);
  }

  lemma {:induction false} ExecutePendingGrows(s: State)
    ensures Length(s.trace) <= Length(ExecutePending(s).trace)
    decreases |s.pendingCommands|
  {
    if s.pendingCommands != [] {
      ExecutePendingGrows(s.(pendingCommands := s.pendingCommands[1..],
                             trace := Then(s.trace, Issue(s.pendingCommands[0]))));
    }
  }

  /** Every poll leaves a mark on the trace. */
  lemma {:induction false} PollNextGrows(s: State)
    ensures Length(s.trace) < Length(PollNext(s).0.trace)
    decreases |s.ready|
  {
    if s.pendingEvents == [] {
      ExecutePendingGrows(s);
      if s.ready != [] {
        PollNextGrows(TakeEvent(Flush(s)));
      }
    }
  }

  /** A poll that starts after bootstrap with an empty buffer leaves no command pending; one that
      starts with a full buffer only takes its first peer out. */
  lemma {:induction false} PollNextFlushes(s: State)
    ensures var (r, answer) := PollNext(s);
      && (s.bootstrapped ==> r.bootstrapped)
      && (s.bootstrapped && s.pendingEvents == [] ==> r.pendingCommands == [])
      && (s.pendingEvents != [] ==>
            && r.pendingEvents == s.pendingEvents[1..]
            && r.pendingCommands == s.pendingCommands && r.ready == s.ready)
    decreases |s.ready|
  {
    if s.pendingEvents == [] && s.ready != [] {
      var n := TakeEvent(Flush(s));
      PollNextFlushes(n);
    }
  }

  /** `c` asks the DHT for `t`, with the port and without a local address. */
  predicate AsksFor(c: Command, t: TopicCommand, port: u16) {
    && c.opts.topic == t.topic && c.opts.port == Some(port) && c.opts.localAddr == None
    && (c.Lookup? <==> t.LookupTopic?)
  }

  /** The DHT requests are the asked-for commands, one for one and in order, with the bound port. */
  lemma {:induction false} RequestsCarryPort(t: Log<Action>, port: u16, i: nat)
    requires CarriesPort(t, port) && i < |Asked(t)|
    ensures |Requested(t)| == |Asked(t)| && AsksFor(Requested(t)[i], Asked(t)[i], port)
  {
    RequestsMatchAsked(t);
    RequestsMatchAsked(t.before);
    if i < |Asked(t.before)| {
      RequestsCarryPort(t.before, port, i);
    }
  }

  lemma {:induction false} RequestsMatchAsked(t: Log<Action>)
    ensures |Requested(t)| == |Asked(t)|
  {
    if t.Then? {
      RequestsMatchAsked(t.before);
    }
  }

  /** The component as an object. The methods update the fields in place and are proved against the
      functions above through `View`. */
  class DhtDiscovery {
    const announcePort: u16
    var bootstrapped: bool
    var pendingCommands: seq<Command>
    var pendingEvents: seq<PeerInfo>
    /** What the HyperDht handle answers before its next Pending. */
    var ready: seq<HyperDhtEvent>
    ghost var trace: Log<Action>

    ghost function View(): State
      reads this
    {
      State(announcePort, bootstrapped, pendingCommands, pendingEvents, ready, trace)
    }

    constructor (port: u16)
      ensures View() == Init(port)
    {
      announcePort, bootstrapped := port, false;
      pendingCommands, pendingEvents, ready, trace := [], [], [], Start;
    }

    method ExecutePendingCommands()
      modifies this
      ensures View() == ExecutePending(old(View()))
    {
      while pendingCommands != []
        invariant ExecutePending(View()) == ExecutePending(old(View()))
        decreases |pendingCommands|
      {
        var command := pendingCommands[0];
        pendingCommands := pendingCommands[1..];
        trace := Then(trace, Issue(command));
      }
    }

    method LookUp(topic: Topic)
      modifies this
      ensures View() == Enqueue(old(View()), OnDht(announcePort, LookupTopic(topic)))
      ensures pendingCommands == old(pendingCommands) + [Lookup(QueryOpts(topic, Some(announcePort), None))]
    {
      var opts := QueryOpts(topic, Some(announcePort), None);
      pendingCommands := pendingCommands + [Lookup(opts)];
      trace := Then(trace, Request(Lookup(opts)));
    }

    method AnnounceOn(topic: Topic)
      modifies this
      ensures View() == Enqueue(old(View()), OnDht(announcePort, AnnounceTopic(topic)))
      ensures pendingCommands == old(pendingCommands) + [Announce(QueryOpts(topic, Some(announcePort), None))]
    {
      var opts := QueryOpts(topic, Some(announcePort), None);
      pendingCommands := pendingCommands + [Announce(opts)];
      trace := Then(trace, Request(Announce(opts)));
    }

    method BufferPeers(topic: Topic, remotes: seq<SocketAddr>)
      modifies this`pendingEvents
      ensures |pendingEvents| == |old(pendingEvents)| + |remotes|
      ensures forall i :: 0 <= i < |old(pendingEvents)| ==> pendingEvents[i] == old(pendingEvents)[i]
      ensures forall i :: 0 <= i < |remotes| ==>
        pendingEvents[|old(pendingEvents)| + i] == PeerInfo(remotes[i], Some(topic), ViaDht)
    {
      ghost var n := |pendingEvents|;
      for i := 0 to |remotes|
        invariant |pendingEvents| == n + i
        invariant forall j :: 0 <= j < n ==> pendingEvents[j] == old(pendingEvents)[j]
        invariant forall j :: 0 <= j < i ==> pendingEvents[n + j] == PeerInfo(remotes[j], Some(topic), ViaDht)
      {
        pendingEvents := pendingEvents + [PeerInfo(remotes[i], Some(topic), ViaDht)];
      }
    }

    /** One pass of the poll loop from the handle's answer on. */
    method HandleEvent()
      requires ready != []
      modifies this
      ensures View() == TakeEvent(old(View()))
    {
      var event := ready[0];
      ready := ready[1..];
      trace := Then(trace, Consume(event));
      match event {
        case Bootstrapped =>
          bootstrapped := true;
        case LookupResult(topic, remotes) =>
          BufferPeers(topic, remotes);
          assert pendingEvents == old(pendingEvents) + PeersOf(event);
        case _ =>
      }
    }

    method Poll() returns (answer: Poll<PeerInfo>)
      modifies this
      ensures (View(), answer) == PollNext(old(View()))
      ensures answer.Pending? <==> AddrsAhead(old(View())) == []
      ensures answer.Ready? ==> AddrsAhead(old(View())) == [answer.item.addr] + AddrsAhead(View())
      ensures answer.Ready? ==> TopicsAhead(old(View())) == TopicOf(answer.item) + TopicsAhead(View())
    {
      PollNextTakesFirst(View());
      while true
        invariant PollNext(View()) == PollNext(old(View()))
        decreases |ready|
      {
        if pendingEvents != [] {
          var peer := pendingEvents[0];
          pendingEvents := pendingEvents[1..];
          trace := Then(trace, Emit(peer));
          return Ready(peer);
        }
        if bootstrapped {
          ExecutePendingCommands();
        }
        if ready == [] {
          trace := Then(trace, Wait);
          return Pending;
        }
        HandleEvent();
      }
    }
  }
}
