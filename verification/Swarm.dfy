/** The swarm: topic configuration drives discovery, what is discovered is dialed, and the
    connections that come of it are handed to the consumer. */
module Swarm {
  import opened Basics
  import Dht
  import Discovery
  import Links
  import Transport

  datatype ConfigureCommand = ConfigureCommand(topic: Topic, config: TopicConfig)

  /** A configure that was carried out: called on the swarm itself, or sent through a handle. */
  datatype Executed = Executed(direct: bool, command: ConfigureCommand)

  /** `executed`, `surfaced` (what the consumer was given) and `logged` are history. */
  datatype State = State(
    topics: map<Topic, TopicConfig>,
    discovery: Discovery.State,
    transport: Transport.State,
    channel: seq<ConfigureCommand>,
    executed: Log<Executed>,
    surfaced: Log<Result<Connection>>,
    logged: seq<IoError>)

  function Init(port: u16): State {
    State(map[], Discovery.Init(port), Transport.Init(), [], Start, Start, [])
  }

  function Ask(d: Discovery.State, was: TopicConfig, c: ConfigureCommand): Discovery.State {
    var e := if c.config.announce && !was.announce
             then Discovery.Send(d, Dht.AnnounceTopic(c.topic)) else d;
    if c.config.lookup && !was.lookup then Discovery.Send(e, Dht.LookupTopic(c.topic)) else e
  }

  function Reconfigure(s: State, direct: bool, c: ConfigureCommand): State {
    var was := if c.topic in s.topics then s.topics[c.topic] else DEFAULT_CONFIG;
    s.(discovery := Ask(s.discovery, was, c),
       topics := s.topics[c.topic := c.config],
       executed := Then(s.executed, Executed(direct, c)))
  }

  function Drain(s: State): State
    decreases |s.channel|
  {
    if s.channel == [] then s
    else Drain(Reconfigure(s.(channel := s.channel[1..]), false, s.channel[0]))
  }

  function PollTransport(s: State): (State, Poll<Result<Connection>>) {
    var (t, answer) := Transport.PollNext(s.transport);
    if answer.Pending? then (s.(transport := t), Pending)
    else if answer.item.Ok? then (s.(transport := t, surfaced := Then(s.surfaced, answer.item)), answer)
    else (s.(transport := t, logged := s.logged + [answer.item.error]), Pending)
  }

  /** What follows the discovery poll: an error goes up, a peer is dialed, then connections. */
  function AfterDiscovery(s: State, found: Poll<Result<PeerInfo>>, now: Transport.AtOnce)
    : (State, Poll<Result<Connection>>)
  {
    match found
    case Pending => PollTransport(s)
    case Ready(Err(e)) => (s.(surfaced := Then(s.surfaced, Err(e))), Ready(Err(e)))
    case Ready(Ok(peer)) => PollTransport(s.(transport := Transport.Connect(s.transport, peer.addr, now)))
  }

  /** One poll; `now` is the environment's: how the connects it starts, if it starts any, end at once. */
  function PollNext(s: State, now: Transport.AtOnce): (State, Poll<Result<Connection>>) {
    var d := Drain(s);
    var (disc, found) := Discovery.PollNext(d.discovery);
    AfterDiscovery(d.(discovery := disc), found, now)
  }

  /** The transport once the peer just found, if any, is dialed. */
  function AfterDialing(t: Transport.State, found: Poll<Result<PeerInfo>>, now: Transport.AtOnce): Transport.State {
    if found.Ready? && found.item.Ok? then Transport.Connect(t, found.item.value.addr, now) else t
  }

  /** The connects that a discovery answer makes the poll start and that end in the same poll. */
  function EndsOfDial(found: Poll<Result<PeerInfo>>, now: Transport.AtOnce): Transport.Ends {
    if found.Ready? && found.item.Ok? then Transport.EndsAtOnce(found.item.value.addr, now) else Transport.NO_ENDS
  }

  // ---- Reference: what a history of configures asks for ----

  function ConfigOf(h: Log<Executed>, t: Topic): TopicConfig {
    match h
    case Start => DEFAULT_CONFIG
    case Then(past, e) => if e.command.topic == t then e.command.config else ConfigOf(past, t)
  }

  predicate Configured(h: Log<Executed>, t: Topic) {
    h.Then? && (h.last.command.topic == t || Configured(h.before, t))
  }

  /** An announce on a rising announce flag, then a lookup on a rising lookup flag. */
  function AddEdges(cs: seq<Dht.TopicCommand>, was: TopicConfig, c: ConfigureCommand): seq<Dht.TopicCommand> {
    var announced := if c.config.announce && !was.announce then cs + [Dht.AnnounceTopic(c.topic)] else cs;
    if c.config.lookup && !was.lookup then announced + [Dht.LookupTopic(c.topic)] else announced
  }

  function EdgeCommands(h: Log<Executed>): seq<Dht.TopicCommand> {
    match h
    case Start => []
    case Then(past, e) => AddEdges(EdgeCommands(past), ConfigOf(past, e.command.topic), e.command)
  }

  /** Sent configures `cs` are carried out one after the other. */
  function ExecuteAll(h: Log<Executed>, cs: seq<ConfigureCommand>): Log<Executed>
    decreases |cs|
  {
    if cs == [] then h else ExecuteAll(Then(h, Executed(false, cs[0])), cs[1..])
  }

  function ConnectionsIn(l: Log<Result<Connection>>): Log<Connection> {
    match l
    case Start => Start
    case Then(past, r) => if r.Ok? then Then(ConnectionsIn(past), r.value) else ConnectionsIn(past)
  }

  function ErrorOf(r: Result<Connection>): seq<IoError> { if r.Err? then [r.error] else [] }

  /** Discovery was asked for exactly the edges of the configure history, and `topics` is its last word. */
  ghost predicate TopicsInv(topics: map<Topic, TopicConfig>, h: Log<Executed>, d: Discovery.State) {
    && Discovery.Inv(d)
    && Discovery.Received(d.mdns) == EdgeCommands(h)
    && (forall t :: t in topics <==> Configured(h, t))
    && (forall t :: t in topics ==> topics[t] == ConfigOf(h, t))
  }

  /** What was found is what was dialed; what was delivered or failed is what came out. */
  ghost predicate FlowInv(
    found: Log<Result<PeerInfo>>, t: Transport.State, surfaced: Log<Result<Connection>>, logged: seq<IoError>)
  {
    && Transport.Inv(t)
    && Links.Started(t.tcp) == Collect(Discovery.AddrOf, found)
    && ConnectionsIn(surfaced) == Transport.Delivered(t.arrivals)
    && Collect(ErrorOf, surfaced) == Collect(Discovery.ErrorOf, found)
    && logged == Transport.Failures(t.arrivals)
  }

  ghost predicate Inv(s: State) {
    && TopicsInv(s.topics, s.executed, s.discovery)
    && FlowInv(s.discovery.found, s.transport, s.surfaced, s.logged)
  }

  // ---- What stays put, for reading histories across a step ----

  function CommandOf(direct: bool): Executed -> seq<ConfigureCommand> {
    (e: Executed) => if e.direct == direct then [e.command] else []
  }

  /** Configures executed with the given origin, oldest first. */
  function ExecutedBy(s: State, direct: bool): seq<ConfigureCommand> {
    Collect(CommandOf(direct), s.executed)
  }

  /** Only commands, topics and the configure history may differ. */
  predicate Quiet(s: State, r: State) {
    && Discovery.AccountOf(r.discovery) == Discovery.AccountOf(s.discovery)
    && r.discovery.found == s.discovery.found
    && r.discovery.dht.announcePort == s.discovery.dht.announcePort
    && r.transport == s.transport && r.surfaced == s.surfaced && r.logged == s.logged
  }

  lemma UnconfiguredIsDefault(h: Log<Executed>, t: Topic)
    requires !Configured(h, t)
    ensures ConfigOf(h, t) == DEFAULT_CONFIG
  {}

  lemma InitInv(port: u16)
    ensures Inv(Init(port))
  {
    assert forall addr :: Links.Balanced(Links.Init(Tcp), addr) && Links.Balanced(Links.Init(Utp), addr);
  }

  lemma AskKeepsInv(d: Discovery.State, was: TopicConfig, c: ConfigureCommand)
    requires Discovery.Inv(d)
    ensures var r := Ask(d, was, c);
      && Discovery.Inv(r)
      && Discovery.Received(r.mdns) == AddEdges(Discovery.Received(d.mdns), was, c)
      && Discovery.AccountOf(r) == Discovery.AccountOf(d) && r.found == d.found
      && r.dht.announcePort == d.dht.announcePort
  {
    Discovery.SendKeepsInv(d, Dht.AnnounceTopic(c.topic));
    var e := if c.config.announce && !was.announce
             then Discovery.Send(d, Dht.AnnounceTopic(c.topic)) else d;
    Discovery.SendKeepsInv(e, Dht.LookupTopic(c.topic));
  }

  lemma ConfigureKeepsInv(s: State, direct: bool, c: ConfigureCommand)
    requires Inv(s)
    ensures var r := Reconfigure(s, direct, c);
      && Inv(r) && Quiet(s, r)
  {
    if c.topic !in s.topics {
      UnconfiguredIsDefault(s.executed, c.topic);
    }
    AskKeepsInv(s.discovery, ConfigOf(s.executed, c.topic), c);
  }

  lemma {:induction false} DrainKeepsInv(s: State)
    requires Inv(s)
    ensures var r := Drain(s);
      && Inv(r) && r.channel == [] && Quiet(s, r)
    decreases |s.channel|
  {
    if s.channel != [] {
      var n := s.(channel := s.channel[1..]);
      ConfigureKeepsInv(n, false, s.channel[0]);
      DrainKeepsInv(Reconfigure(n, false, s.channel[0]));
    }
  }

  /** Draining touches neither the DHT's buffer nor any source. */
  lemma {:induction false} DrainLeavesSources(s: State)
    ensures var r := Drain(s);
      && r.channel == []
      && r.transport == s.transport && r.logged == s.logged && r.discovery.found == s.discovery.found
      && r.discovery.dht.bootstrapped == s.discovery.dht.bootstrapped
      && r.discovery.dht.pendingEvents == s.discovery.dht.pendingEvents
      && r.discovery.dht.ready == s.discovery.dht.ready
      && r.discovery.mdns.sightings == s.discovery.mdns.sightings
      && r.discovery.mdns.trace == s.discovery.mdns.trace
      && Length(s.discovery.dht.trace) <= Length(r.discovery.dht.trace)
    decreases |s.channel|
  {
    if s.channel != [] {
      DrainLeavesSources(Reconfigure(s.(channel := s.channel[1..]), false, s.channel[0]));
    }
  }

  /** So discovery's answer can be read off the state before draining. */
  lemma DrainKeepsFront(s: State)
    ensures Discovery.PollNext(Drain(s).discovery).1 == Discovery.Front(s.discovery)
  {
    DrainLeavesSources(s);
    Discovery.AnswersInPriorityOrder(Drain(s).discovery);
  }

  /** Draining executes everything queued, as handle configures in queue order, and nothing else. */
  lemma {:induction false} DrainExecutes(s: State)
    ensures var r := Drain(s);
      && r.executed == ExecuteAll(s.executed, s.channel)
      && ExecutedBy(r, true) == ExecutedBy(s, true)
      && ExecutedBy(r, false) == ExecutedBy(s, false) + s.channel
    decreases |s.channel|
  {
    if s.channel != [] {
      HeadTail(s.channel);
      DrainExecutes(Reconfigure(s.(channel := s.channel[1..]), false, s.channel[0]));
    }
  }

  lemma {:induction false} PollTransportKeepsFlow(s: State)
    requires FlowInv(s.discovery.found, s.transport, s.surfaced, s.logged)
    ensures var (r, answer) := PollTransport(s);
      && FlowInv(r.discovery.found, r.transport, r.surfaced, r.logged)
      && Transport.AccountOf(r.transport) == Transport.AccountOf(s.transport)
      && r.surfaced == (if answer.Ready? then Then(s.surfaced, answer.item) else s.surfaced)
  {
    Transport.PollNextKeepsInv(s.transport);
  }

  /** Dialing, polling the transports and surfacing keep what was found, dialed and surfaced in step. */
  lemma {:induction false} AfterDiscoveryKeepsFlow(
    s: State, past: Log<Result<PeerInfo>>, found: Poll<Result<PeerInfo>>, now: Transport.AtOnce)
    requires FlowInv(past, s.transport, s.surfaced, s.logged)
    requires s.discovery.found == (if found.Ready? then Then(past, found.item) else past)
    ensures var (r, answer) := AfterDiscovery(s, found, now);
      && FlowInv(r.discovery.found, r.transport, r.surfaced, r.logged)
      && r.discovery == s.discovery && r.topics == s.topics && r.executed == s.executed && r.channel == s.channel
      && Transport.AccountOf(r.transport) == Transport.AddEnds(Transport.AccountOf(s.transport), EndsOfDial(found, now))
      && r.surfaced == (if answer.Ready? then Then(s.surfaced, answer.item) else s.surfaced)
  {
    LaterStagesLeaveDiscovery(s, found, now);
    match found
    case Pending => PollTransportKeepsFlow(s);
    case Ready(Err(_)) =>
    case Ready(Ok(peer)) =>
      Transport.ConnectKeepsInv(s.transport, peer.addr, now);
      PollTransportKeepsFlow(s.(transport := Transport.Connect(s.transport, peer.addr, now)));
  }

  lemma TransportPollLeavesRest(s: State)
    ensures var r := PollTransport(s).0;
      && r.discovery == s.discovery && r.topics == s.topics
      && r.executed == s.executed && r.channel == s.channel
  {}

  lemma LaterStagesLeaveDiscovery(s: State, found: Poll<Result<PeerInfo>>, now: Transport.AtOnce)
    ensures var r := AfterDiscovery(s, found, now).0;
      && r.discovery == s.discovery && r.topics == s.topics
      && r.executed == s.executed && r.channel == s.channel
  {
    match found
    case Pending => TransportPollLeavesRest(s);
    case Ready(Err(_)) =>
    case Ready(Ok(peer)) => TransportPollLeavesRest(s.(transport := Transport.Connect(s.transport, peer.addr, now)));
  }

  lemma PollExecutes(s: State, now: Transport.AtOnce)
    ensures var r := PollNext(s, now).0;
      r.executed == ExecuteAll(s.executed, s.channel) && r.channel == []
  {
    DrainExecutes(s);
    DrainLeavesSources(s);
    var d := Drain(s);
    var (disc, found) := Discovery.PollNext(d.discovery);
    LaterStagesLeaveDiscovery(d.(discovery := disc), found, now);
  }

  /** One swarm poll keeps every invariant, takes nothing without accounting for it, executes
      exactly what was queued and records what the consumer gets. */
  lemma PollNextKeepsInv(s: State, now: Transport.AtOnce)
    requires Inv(s)
    ensures var (r, answer) := PollNext(s, now);
      && Inv(r) && r.channel == []
      && Discovery.AccountOf(r.discovery) == Discovery.AccountOf(s.discovery)
      && Transport.AccountOf(r.transport) ==
           Transport.AddEnds(Transport.AccountOf(s.transport), EndsOfDial(Discovery.Front(s.discovery), now))
      && r.discovery.dht.announcePort == s.discovery.dht.announcePort
      && ExecutedBy(r, true) == ExecutedBy(s, true)
      && ExecutedBy(r, false) == ExecutedBy(s, false) + s.channel
      && r.surfaced == (if answer.Ready? then Then(s.surfaced, answer.item) else s.surfaced)
  {
    DrainKeepsInv(s);
    DrainExecutes(s);
    var d := Drain(s);
    Discovery.PollNextKeepsInv(d.discovery);
    var (disc, found) := Discovery.PollNext(d.discovery);
    DrainKeepsFront(s);
    AfterDiscoveryKeepsFlow(d.(discovery := disc), d.discovery.found, found, now);
  }

  // ---- The swarm as an object ----

  /** An unbounded channel of configure commands, shared by the swarm and its handles. */
  class Channel {
    var queue: seq<ConfigureCommand>

    constructor ()
      ensures queue == []
    {
      queue := [];
    }
  }

  class SwarmHandle {
    const commandTx: Channel

    constructor (tx: Channel)
      ensures commandTx == tx
    {
      commandTx := tx;
    }

    method Configure(topic: Topic, config: TopicConfig)
      modifies commandTx
      ensures commandTx.queue == old(commandTx.queue) + [ConfigureCommand(topic, config)]
    {
      commandTx.queue := commandTx.queue + [ConfigureCommand(topic, config)];
    }
  }

  class Hyperswarm {
    var topics: map<Topic, TopicConfig>
    const discovery: Discovery.CombinedDiscovery
    const transport: Transport.CombinedTransport
    const commandRx: Channel
    ghost var executed: Log<Executed>
    ghost var surfaced: Log<Result<Connection>>
    ghost var logged: seq<IoError>

    ghost const Repr: set<object> := {this, commandRx} + discovery.Repr + transport.Repr

    ghost function View(): State
      reads Repr
    {
      State(topics, discovery.View(), transport.View(), commandRx.queue, executed, surfaced, logged)
    }

    /** The objects are apart, and the histories and fields satisfy the swarm's invariant. */
    ghost predicate Valid()
      reads Repr
    {
      transport.Valid() && Inv(View())
    }

    constructor Bind(announcePort: u16)
      ensures Valid() && fresh(Repr) && View() == Init(announcePort)
    {
      topics, executed, surfaced, logged := map[], Start, Start, [];
      discovery := new Discovery.CombinedDiscovery(announcePort);
      transport := new Transport.CombinedTransport();
      commandRx := new Channel();
      new;
      InitInv(announcePort);
    }

    method Handle() returns (h: SwarmHandle)
      ensures h.commandTx == commandRx
    {
      h := new SwarmHandle(commandRx);
    }

    /** A direct configure. */
    method Configure(topic: Topic, config: TopicConfig)
      requires Valid()
      modifies Repr
      ensures Valid() && View() == Reconfigure(old(View()), true, ConfigureCommand(topic, config))
    {
      ConfigureKeepsInv(View(), true, ConfigureCommand(topic, config));
      CarryOut(true, ConfigureCommand(topic, config));
    }

    /** `now` stands for the connects this poll may start, should they end the first time they are polled. */
    method Poll(now: Transport.AtOnce) returns (answer: Poll<Result<Connection>>)
      requires Valid()
      modifies Repr
      ensures Valid() && (View(), answer) == PollNext(old(View()), now)
    {
      PollNextKeepsInv(View(), now);
      answer := PollSources(now);
    }

    method AskDiscovery(was: TopicConfig, c: ConfigureCommand)
      modifies discovery.Repr
      ensures discovery.View() == Ask(old(discovery.View()), was, c)
    {
      if c.config.announce && !was.announce {
        discovery.Announce(c.topic);
      }
      if c.config.lookup && !was.lookup {
        discovery.Lookup(c.topic);
      }
    }

    method CarryOut(ghost direct: bool, c: ConfigureCommand)
      modifies Repr
      ensures View() == Reconfigure(old(View()), direct, c)
    {
      ghost var before := View();
      var was := if c.topic in topics then topics[c.topic] else DEFAULT_CONFIG;
      AskDiscovery(was, c);
      assert View() == before.(discovery := discovery.View());
      topics := topics[c.topic := c.config];
      executed := Then(executed, Executed(direct, c));
    }

    method DrainCommands()
      modifies Repr
      ensures View() == Drain(old(View()))
    {
      while commandRx.queue != []
        invariant Drain(View()) == Drain(old(View()))
        decreases |commandRx.queue|
      {
        var c := commandRx.queue[0];
        ghost var before := View();
        commandRx.queue := commandRx.queue[1..];
        assert View() == before.(channel := before.channel[1..]);
        CarryOut(false, c);
      }
    }

    method PollConnections() returns (answer: Poll<Result<Connection>>)
      requires transport.Valid()
      modifies Repr
      ensures (View(), answer) == PollTransport(old(View()))
    {
      ghost var before := View();
      var res := transport.Poll();
      assert View() == before.(transport := transport.View());
      if res.Pending? {
        return Pending;
      }
      match res.item {
        case Ok(conn) =>
          surfaced := Then(surfaced, res.item);
          answer := Ready(Ok(conn));
        case Err(e) =>
          logged := logged + [e];
          answer := Pending;
      }
    }

    method HandleDiscovery(found: Poll<Result<PeerInfo>>, now: Transport.AtOnce)
      returns (answer: Poll<Result<Connection>>)
      requires transport.Valid()
      modifies Repr
      ensures (View(), answer) == AfterDiscovery(old(View()), found, now)
    {
      match found {
        case Pending =>
        case Ready(Err(e)) =>
          surfaced := Then(surfaced, Err(e));
          return Ready(Err(e));
        case Ready(Ok(peer)) =>
          ghost var before := View();
          transport.Dial(peer.addr, now);
          assert View() == before.(transport := Transport.Connect(before.transport, peer.addr, now));
      }
      ghost var dialed := View();
      answer := PollConnections();
      assert (View(), answer) == PollTransport(dialed);
    }

    method PollSources(now: Transport.AtOnce) returns (answer: Poll<Result<Connection>>)
      requires transport.Valid()
      modifies Repr
      ensures (View(), answer) == PollNext(old(View()), now)
    {
      DrainCommands();
      ghost var before := View();
      var found := discovery.Poll();
      assert View() == before.(discovery := discovery.View());
      answer := HandleDiscovery(found, now);
    }
  }
}
