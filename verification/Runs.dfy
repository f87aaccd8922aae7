/** Whole runs of the swarm: the caller, its handles, the consumer's polls and four adversarial
    sources interleave in any order. The results here hold in every state such a run can reach. */
module Runs {
  import opened Basics
  import Dht
  import Discovery
  import Links
  import Transport
  import opened Swarm

  datatype Step =
    | Configure(command: ConfigureCommand)
    | HandleConfigure(command: ConfigureCommand)
    | Poll(now: Transport.AtOnce)
    | DhtEvent(event: Dht.HyperDhtEvent)
    | Heard(sighting: Discovery.Sighting)
    | Accept(protocol: Protocol, outcome: Result<Stream>)
    | ConnectEnds(protocol: Protocol, addr: SocketAddr, outcome: Result<Stream>)

  function Apply(s: State, x: Step): State {
    match x
    case Configure(c) => Reconfigure(s, true, c)
    case HandleConfigure(c) => s.(channel := s.channel + [c])
    case Poll(now) => PollNext(s, now).0
    case DhtEvent(e) => s.(discovery := Discovery.OfferEvent(s.discovery, e))
    case Heard(g) => s.(discovery := Discovery.OfferSighting(s.discovery, g))
    case Accept(p, o) => s.(transport := Transport.Accept(s.transport, p, o))
    case ConnectEnds(p, a, o) => s.(transport := Transport.ConnectEnds(s.transport, p, a, o))
  }

  function RunFrom(s: State, h: Log<Step>): State {
    match h case Start => s case Then(past, x) => Apply(RunFrom(s, past), x)
  }

  function Run(port: u16, h: Log<Step>): State {
    RunFrom(Init(port), h)
  }

  function Polls(h: Log<Step>): nat {
    match h case Start => 0 case Then(past, x) => Polls(past) + (if x.Poll? then 1 else 0)
  }

  lemma LastSteps(s: State, h: Log<Step>, x: Step, y: Step)
    ensures RunFrom(s, Then(Then(h, x), y)) == Apply(Apply(RunFrom(s, h), x), y)
  {
    assert RunFrom(s, Then(h, x)) == Apply(RunFrom(s, h), x);
  }

  // ---- Every step keeps the invariant and the accounts ----

  function EventOf(x: Step): seq<Dht.HyperDhtEvent> { if x.DhtEvent? then [x.event] else [] }
  function SightingOf(x: Step): seq<Discovery.Sighting> { if x.Heard? then [x.sighting] else [] }
  function DirectOf(x: Step): seq<ConfigureCommand> { if x.Configure? then [x.command] else [] }
  function SentOf(x: Step): seq<ConfigureCommand> { if x.HandleConfigure? then [x.command] else [] }
  function TcpOf(x: Step): seq<Result<Stream>> { if x.Accept? && x.protocol.Tcp? then [x.outcome] else [] }
  function UtpOf(x: Step): seq<Result<Stream>> { if x.Accept? && x.protocol.Utp? then [x.outcome] else [] }

  /** The connects that a step ends: a running one, or those that the poll starts and that end at once. */
  function EndsIn(s: State, x: Step): Transport.Ends {
    match x
    case ConnectEnds(p, addr, outcome) =>
      if addr in Transport.LinkOf(s.transport, p).connecting
      then Transport.EndsOn(p, Links.Completion(addr, outcome)) else Transport.NO_ENDS
    case Poll(now) => EndsOfDial(Discovery.Front(s.discovery), now)
    case _ => Transport.NO_ENDS
  }

  lemma ArrivalStepKeepsInv(s: State, x: Step)
    requires Inv(s) && (x.Accept? || x.ConnectEnds?)
    ensures var r := Apply(s, x);
      && Inv(r) && r.discovery == s.discovery
      && Transport.AccountOf(r.transport) == AddToTransport(Transport.AccountOf(s.transport), s, x)
  {
    if x.Accept? {
      Transport.AcceptKeepsInv(s.transport, x.protocol, x.outcome);
    } else {
      Transport.ConnectEndsKeepsInv(s.transport, x.protocol, x.addr, x.outcome);
    }
  }

  /** One step keeps the invariant and adds to the accounts exactly what it brought in. */
  lemma {:induction false} ApplyKeepsInv(s: State, x: Step)
    requires Inv(s)
    ensures var r := Apply(s, x);
      && Inv(r)
      && Discovery.AccountOf(r.discovery) == AddToDiscovery(Discovery.AccountOf(s.discovery), x)
      && Transport.AccountOf(r.transport) == AddToTransport(Transport.AccountOf(s.transport), s, x)
      && r.discovery.dht.announcePort == s.discovery.dht.announcePort
  {
    match x
    case Configure(c) => ConfigureKeepsInv(s, true, c);
    case HandleConfigure(_) =>
    case Poll(now) => PollNextKeepsInv(s, now);
    case DhtEvent(e) => Discovery.OffersKeepInv(s.discovery, e, Discovery.Sighting([], SocketAddr(0, 0)));
    case Heard(g) => Discovery.OffersKeepInv(s.discovery, Dht.OtherEvent, g);
    case Accept(_, _) => ArrivalStepKeepsInv(s, x);
    case ConnectEnds(_, _, _) => ArrivalStepKeepsInv(s, x);
  }

  function AddToDiscovery(a: Discovery.Account, x: Step): Discovery.Account {
    match x
    case DhtEvent(e) => a.(events := a.events + [e])
    case Heard(g) => a.(sightings := a.sightings + [g])
    case _ => a
  }

  function AddToTransport(a: Transport.Account, s: State, x: Step): Transport.Account {
    if x.Accept? then Transport.AddAccepted(a, x.protocol, x.outcome) else Transport.AddEnds(a, EndsIn(s, x))
  }

  /** The connects that ended over `p` in a run, oldest first, each with the outcome it ended with. */
  function EndedConnects(port: u16, h: Log<Step>, p: Protocol): seq<Links.Completion> {
    match h
    case Start => []
    case Then(past, x) =>
      var e := EndsIn(Run(port, past), x);
      EndedConnects(port, past, p) + (match p case Tcp => e.tcp case Utp => e.utp)
  }

  function OfferedTo(port: u16, h: Log<Step>): Transport.Account {
    Transport.Account(
      Links.Account(Collect(TcpOf, h), EndedConnects(port, h, Tcp)),
      Links.Account(Collect(UtpOf, h), EndedConnects(port, h, Utp)))
  }

  lemma {:induction false} RunKeepsInv(port: u16, h: Log<Step>)
    ensures Inv(Run(port, h)) && Run(port, h).discovery.dht.announcePort == port
  {
    match h
    case Start => InitInv(port);
    case Then(past, x) =>
      RunKeepsInv(port, past);
      ApplyKeepsInv(Run(port, past), x);
  }

  lemma OfferedGrows(port: u16, past: Log<Step>, x: Step)
    ensures OfferedTo(port, Then(past, x)) == AddToTransport(OfferedTo(port, past), Run(port, past), x)
  {}

  /** No event, sighting, accepted stream or ended connect is ever lost, duplicated, altered or
      reordered: what a run offered is what the state has taken followed by what still waits. */
  lemma {:induction false} RunAccounts(port: u16, h: Log<Step>)
    ensures var s := Run(port, h);
      && Discovery.AccountOf(s.discovery) == Discovery.Account(Collect(EventOf, h), Collect(SightingOf, h))
      && Transport.AccountOf(s.transport) == OfferedTo(port, h)
  {
    match h
    case Start =>
    case Then(past, x) =>
      RunAccounts(port, past);
      RunKeepsInv(port, past);
      ApplyKeepsInv(Run(port, past), x);
      OfferedGrows(port, past, x);
  }

  /** The configures carried out, in the order they take effect, and those still in the channel: a
      direct one takes effect at once, a sent one when the next poll drains the channel. */
  datatype Schedule = Schedule(executed: Log<Executed>, queued: seq<ConfigureCommand>)

  function ScheduleOf(h: Log<Step>): Schedule {
    match h
    case Start => Schedule(Start, [])
    case Then(past, x) =>
      var d := ScheduleOf(past);
      match x
      case Configure(c) => d.(executed := Then(d.executed, Executed(true, c)))
      case HandleConfigure(c) => d.(queued := d.queued + [c])
      case Poll(_) => Schedule(ExecuteAll(d.executed, d.queued), [])
      case _ => d
  }

  /** Over any run, what was executed is the schedule, direct and sent configures interleaved. */
  lemma {:induction false} ConfiguresExecuteInOrder(port: u16, h: Log<Step>)
    ensures Schedule(Run(port, h).executed, Run(port, h).channel) == ScheduleOf(h)
  {
    match h
    case Start =>
    case Then(past, x) =>
      ConfiguresExecuteInOrder(port, past);
      if x.Poll? {
        PollExecutes(Run(port, past), x.now);
      }
  }

  /** Each configure call is executed exactly once: direct ones at once, those sent through handles
      in sending order, the rest still queued. */
  lemma {:induction false} ConfiguresExecuteOnce(port: u16, h: Log<Step>)
    ensures var s := Run(port, h);
      && ExecutedBy(s, true) == Collect(DirectOf, h)
      && ExecutedBy(s, false) + s.channel == Collect(SentOf, h)
  {
    match h
    case Start =>
    case Then(past, x) =>
      ConfiguresExecuteOnce(port, past);
      if x.Poll? {
        RunKeepsInv(port, past);
        PollNextKeepsInv(Run(port, past), x.now);
      }
  }

  // ---- A run that starts a lookup ----

  function LookedUp(topic: Topic): Log<Step> {
    Then(Then(Then(Start,
      Configure(ConfigureCommand(topic, TopicConfig(false, true)))),
      DhtEvent(Dht.Bootstrapped)),
      Poll(Transport.LATER))
  }

  /** Nothing is on hand or running, and no connection was made. */
  predicate Idle(s: State) {
    && s.channel == [] && s.surfaced == Start
    && s.discovery.dht.ready == [] && s.discovery.dht.pendingEvents == [] && s.discovery.mdns.sightings == []
    && s.transport.connected == {}
    && IdleLink(s.transport.tcp, Tcp) && IdleLink(s.transport.utp, Utp)
  }

  predicate IdleLink(l: Links.State, p: Protocol) {
    l.protocol == p && l.incoming == [] && l.completed == [] && l.connecting == multiset{}
  }

  lemma IssuedOnce(c: Dht.Command)
    ensures var t := Then(Then(Start, Dht.Request(c)), Dht.Consume(Dht.Bootstrapped));
      Dht.Issued(Then(Then(t, Dht.Issue(c)), Dht.Wait)) == [c]
  {
    var t := Then(Then(Start, Dht.Request(c)), Dht.Consume(Dht.Bootstrapped));
    assert Dht.Issued(Start) == [] && Dht.IssueOf(Dht.Request(c)) == [];
    assert Dht.Issued(t.before) == Dht.Issued(Start);
    assert Dht.Issued(t) == [];
    assert Dht.Issued(Then(t, Dht.Issue(c))) == [] + [c];
  }

  /** The poll that learns of the bootstrap sends the lookup out and leaves the swarm idle. */
  lemma LookedUpIsIdle(port: u16, topic: Topic)
    ensures var s := Run(port, LookedUp(topic));
      && Idle(s)
      && s.discovery.dht.bootstrapped
      && Dht.Issued(s.discovery.dht.trace) == [Dht.Lookup(Dht.QueryOpts(topic, Some(port), None))]
  {
    var h := LookedUp(topic);
    assert Run(port, Start) == Init(port);
    var c := ConfigureCommand(topic, TopicConfig(false, true));
    assert Run(port, h.before.before) == Apply(Init(port), Configure(c));
    var s := Run(port, h.before);
    assert s == Apply(Apply(Init(port), Configure(c)), DhtEvent(Dht.Bootstrapped));
    var dht := s.discovery.dht;
    var lookup := Dht.Lookup(Dht.QueryOpts(topic, Some(port), None));
    assert dht == Dht.Enqueue(Dht.Init(port), lookup).(ready := [Dht.Bootstrapped]);
    var taken := Dht.TakeEvent(dht);
    assert taken.bootstrapped && taken.pendingEvents == [] && taken.ready == [] && taken.pendingCommands == [lookup];
    var flushed := Dht.Flush(taken);
    assert flushed == Dht.ExecutePending(taken)
      == taken.(pendingCommands := [], trace := Then(taken.trace, Dht.Issue(lookup)));
    IssuedOnce(lookup);
    assert Dht.PollNext(dht) == Dht.PollNext(taken) == (flushed.(trace := Then(flushed.trace, Dht.Wait)), Pending);
    assert Drain(s) == s;
    LaterStagesLeaveDiscovery(s.(discovery := Discovery.PollNext(s.discovery).0), Pending, Transport.LATER);
  }
}
