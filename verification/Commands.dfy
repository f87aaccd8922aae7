/** Configure commands end to end: from the caller, through rising edges, to the DHT. */
module Commands {
  import opened Basics
  import Dht
  import Discovery
  import Transport
  import opened Swarm
  import opened Runs

  // ---- Counting edges topic by topic ----

  /** The configs given to topic `t`, oldest first. */
  function ConfigsOf(h: Log<Executed>, t: Topic): Log<TopicConfig> {
    match h
    case Start => Start
    case Then(past, e) =>
      if e.command.topic == t then Then(ConfigsOf(past, t), e.command.config) else ConfigsOf(past, t)
  }

  function Flags(l: Log<TopicConfig>, announce: bool): Log<bool> {
    match l
    case Start => Start
    case Then(past, c) => Then(Flags(past, announce), if announce then c.announce else c.lookup)
  }

  /** How often a flag that starts false turns from false to true. */
  function Rises(l: Log<bool>): nat {
    match l
    case Start => 0
    case Then(past, now) => Rises(past) + (if now && !(past.Then? && past.last) then 1 else 0)
  }

  lemma {:induction false} LastConfig(h: Log<Executed>, t: Topic)
    ensures ConfigOf(h, t) == (if ConfigsOf(h, t).Then? then ConfigsOf(h, t).last else DEFAULT_CONFIG)
  {
    if h.Then? {
      LastConfig(h.before, t);
    }
  }

  lemma CountAfterEdges(cs: seq<Dht.TopicCommand>, was: TopicConfig, c: ConfigureCommand, t: Topic)
    ensures multiset(AddEdges(cs, was, c))[Dht.AnnounceTopic(t)] == multiset(cs)[Dht.AnnounceTopic(t)] +
      (if c.topic == t && c.config.announce && !was.announce then 1 else 0)
    ensures multiset(AddEdges(cs, was, c))[Dht.LookupTopic(t)] == multiset(cs)[Dht.LookupTopic(t)] +
      (if c.topic == t && c.config.lookup && !was.lookup then 1 else 0)
  {}

  /** Whatever other topics do in between, topic `t` is announced once per rise of its announce flag
      and looked up once per rise of its lookup flag. */
  lemma {:induction false} OneCommandPerRise(h: Log<Executed>, t: Topic)
    ensures multiset(EdgeCommands(h))[Dht.AnnounceTopic(t)] == Rises(Flags(ConfigsOf(h, t), true))
    ensures multiset(EdgeCommands(h))[Dht.LookupTopic(t)] == Rises(Flags(ConfigsOf(h, t), false))
  {
    match h
    case Start =>
    case Then(past, e) =>
      OneCommandPerRise(past, t);
      LastConfig(past, t);
      CountAfterEdges(EdgeCommands(past), ConfigOf(past, e.command.topic), e.command, t);
  }

  // ---- Exactly once, in order, after bootstrap ----

  /** Before a Bootstrapped event is consumed nothing is issued. `Legal` traces are closed under
      taking their past, so this holds at every moment of a run. */
  lemma {:induction false} NothingBeforeBootstrap(t: Log<Dht.Action>)
    requires Dht.Legal(t) && !Dht.BootstrapSeen(t)
    ensures Dht.Issued(t) == []
  {
    if t.Then? {
      NothingBeforeBootstrap(t.before);
    }
  }

  /** In every reachable state the commands issued to the DHT followed by those pending are, one for
      one and in order, the edges of the configures executed so far, each with the bound port; the
      trace is legal, so none was issued early, twice or out of order; mDNS was sent the same ones. */
  lemma CommandsDelivered(port: u16, h: Log<Step>, i: nat)
    ensures var s := Run(port, h);
      var d := s.discovery.dht;
      var all := Dht.Issued(d.trace) + d.pendingCommands;
      var edges := EdgeCommands(s.executed);
      && |all| == |edges|
      && (i < |edges| ==>
            && all[i].opts == Dht.QueryOpts(edges[i].topic, Some(port), None)
            && (all[i].Lookup? <==> edges[i].LookupTopic?))
      && Dht.Legal(d.trace)
      && Discovery.Received(s.discovery.mdns) == edges
  {
    RunKeepsInv(port, h);
    var d := Run(port, h).discovery.dht;
    Dht.RequestsMatchAsked(d.trace);
    if i < |Dht.Asked(d.trace)| {
      Dht.RequestsCarryPort(d.trace, port, i);
    }
  }

  /** As many commands with these options as there are entries of the topic and kind. */
  lemma {:induction false} CountAsked(port: u16, all: seq<Dht.Command>, cs: seq<Dht.TopicCommand>, t: Topic)
    requires |all| == |cs| && forall i :: 0 <= i < |cs| ==> Dht.AsksFor(all[i], cs[i], port)
    ensures var opts := Dht.QueryOpts(t, Some(port), None);
      && multiset(all)[Dht.Announce(opts)] == multiset(cs)[Dht.AnnounceTopic(t)]
      && multiset(all)[Dht.Lookup(opts)] == multiset(cs)[Dht.LookupTopic(t)]
  {
    if cs != [] {
      HeadTail(all);
      HeadTail(cs);
      CountAsked(port, all[1..], cs[1..], t);
      assert Dht.AsksFor(all[0], cs[0], port);
      assert multiset(all) == multiset{all[0]} + multiset(all[1..]);
      assert multiset(cs) == multiset{cs[0]} + multiset(cs[1..]);
    }
  }

  /** In every reachable state, whatever other topics do and however direct and sent configures
      interleave: the DHT commands for `t`, issued or pending, are as many as the rises of its two flags
      over the configures the run has carried out. */
  lemma {:induction false} RisesReachDht(port: u16, h: Log<Step>, t: Topic)
    ensures var d := Run(port, h).discovery.dht;
      var all := Dht.Issued(d.trace) + d.pendingCommands;
      var configs := ConfigsOf(ScheduleOf(h).executed, t);
      var opts := Dht.QueryOpts(t, Some(port), None);
      && multiset(all)[Dht.Announce(opts)] == Rises(Flags(configs, true))
      && multiset(all)[Dht.Lookup(opts)] == Rises(Flags(configs, false))
  {
    var s := Run(port, h);
    var d := s.discovery.dht;
    var all, edges := Dht.Issued(d.trace) + d.pendingCommands, EdgeCommands(s.executed);
    ConfiguresExecuteInOrder(port, h);
    CommandsDelivered(port, h, 0);
    forall i | 0 <= i < |edges| ensures Dht.AsksFor(all[i], edges[i], port) {
      CommandsDelivered(port, h, i);
    }
    CountAsked(port, all, edges, t);
    OneCommandPerRise(s.executed, t);
  }

  /** What one configure adds to the DHT's queue: an announce if the announce flag rises and then a
      lookup if the lookup flag does, both with the topic and the bound port. */
  lemma ConfigureQueuesInOrder(s: State, direct: bool, c: ConfigureCommand)
    ensures var d, r := s.discovery.dht, Reconfigure(s, direct, c).discovery.dht;
      var was := if c.topic in s.topics then s.topics[c.topic] else TopicConfig(false, false);
      var opts := Dht.QueryOpts(c.topic, Some(d.announcePort), None);
      var announces, looksUp := c.config.announce && !was.announce, c.config.lookup && !was.lookup;
      r.pendingCommands == d.pendingCommands +
        (if announces && looksUp then [Dht.Announce(opts), Dht.Lookup(opts)]
         else if announces then [Dht.Announce(opts)]
         else if looksUp then [Dht.Lookup(opts)] else [])
  {}

  /** Configuring a topic as it already is asks for nothing: neither discovery source changes. */
  lemma {:induction false} RepeatingAsksNothing(port: u16, h: Log<Step>, c: ConfigureCommand)
    requires ConfigsOf(ScheduleOf(h).executed, c.topic).Then?
    requires ConfigsOf(ScheduleOf(h).executed, c.topic).last == c.config
    ensures Run(port, Then(h, Configure(c))).discovery == Run(port, h).discovery
  {
    ConfiguresExecuteInOrder(port, h);
    TopicsHoldLastConfigs(port, h, c.topic);
  }

  /** `topics` holds each configured topic's last config and no other topic. */
  lemma TopicsHoldLastConfigs(port: u16, h: Log<Step>, t: Topic)
    ensures var s := Run(port, h);
      && (t in s.topics <==> ConfigsOf(s.executed, t).Then?)
      && (t in s.topics ==> s.topics[t] == ConfigsOf(s.executed, t).last)
  {
    RunKeepsInv(port, h);
    var s := Run(port, h);
    LastConfig(s.executed, t);
    ConfiguredIffHasConfig(s.executed, t);
  }

  lemma {:induction false} ConfiguredIffHasConfig(h: Log<Executed>, t: Topic)
    ensures Configured(h, t) <==> ConfigsOf(h, t).Then?
  {
    if h.Then? {
      ConfiguredIffHasConfig(h.before, t);
    }
  }

  // ---- Bounded latency ----

  lemma PollTowardsFlush(s: State, now: Transport.AtOnce)
    ensures var r := PollNext(s, now).0;
      && r.channel == []
      && (s.discovery.dht.bootstrapped ==> r.discovery.dht.bootstrapped)
      && (s.discovery.dht.bootstrapped && s.discovery.dht.pendingEvents == [] ==> r.discovery.dht.pendingCommands == [])
      && (s.discovery.dht.pendingEvents != [] ==>
            r.discovery.dht.pendingEvents == s.discovery.dht.pendingEvents[1..])
  {
    DrainLeavesSources(s);
    var d := Drain(s);
    Dht.PollNextFlushes(d.discovery.dht);
    var (disc, found) := Discovery.PollNext(d.discovery);
    assert disc.dht == Dht.PollNext(d.discovery.dht).0;
    LaterStagesLeaveDiscovery(d.(discovery := disc), found, now);
  }

  lemma {:induction false} BufferShrinks(s: State, h: Log<Step>)
    requires s.discovery.dht.bootstrapped && Polls(h) <= |s.discovery.dht.pendingEvents|
    ensures var d := RunFrom(s, h).discovery.dht;
      d.bootstrapped && |d.pendingEvents| == |s.discovery.dht.pendingEvents| - Polls(h)
  {
    match h
    case Start =>
    case Then(past, x) =>
      BufferShrinks(s, past);
      if x.Poll? {
        PollTowardsFlush(RunFrom(s, past), x.now);
      }
  }

  /** From a bootstrapped state with k buffered peers, whatever else happens in between, the
      (k+1)-th poll leaves no command unissued and no configure unexecuted. */
  lemma {:induction false} CommandsIssuedInTime(
    port: u16, start: Log<Step>, more: Log<Step>, now: Transport.AtOnce)
    requires Run(port, start).discovery.dht.bootstrapped
    requires Polls(more) == |Run(port, start).discovery.dht.pendingEvents|
    ensures var s := Run(port, Append(start, Then(more, Poll(now))));
      && s.discovery.dht.pendingCommands == []
      && Dht.Issued(s.discovery.dht.trace) == Dht.Requested(s.discovery.dht.trace)
      && ExecutedBy(s, false) == Collect(SentOf, Append(start, more))
  {
    var s := Run(port, start);
    BufferShrinks(s, more);
    PollTowardsFlush(RunFrom(s, more), now);
    RunAppends(Init(port), start, more);
    var all := Append(start, Then(more, Poll(now)));
    RunKeepsInv(port, all);
    ConfiguresExecuteOnce(port, all);
  }

  lemma {:induction false} RunAppends(s: State, a: Log<Step>, b: Log<Step>)
    ensures RunFrom(s, Append(a, b)) == RunFrom(RunFrom(s, a), b)
  {
    if b.Then? {
      RunAppends(s, a, b.before);
    }
  }
}
