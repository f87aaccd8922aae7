/** Peers end to end: from what the sources report, through discovery, to one connect per protocol,
    and from there to the connections the consumer is given. */
module Dialing {
  import opened Basics
  import Dht
  import Discovery
  import Links
  import Transport
  import opened Swarm
  import opened Runs

  // ---- From the sources to discovery ----

  function ToPeers(gs: seq<Discovery.Sighting>): seq<Result<PeerInfo>> {
    if gs == [] then [] else [Discovery.ToPeer(gs[0])] + ToPeers(gs[1..])
  }

  lemma {:induction false} ToPeersConcat(a: seq<Discovery.Sighting>, b: seq<Discovery.Sighting>)
    ensures ToPeers(a + b) == ToPeers(a) + ToPeers(b)
  {
    if a == [] {
      assert [] + b == b;
    } else {
      ConcatTail(a, b);
      ToPeersConcat(a[1..], b);
    }
  }

  lemma {:induction false} ReportedIsPeersOfConsumed(t: Log<Dht.Action>)
    ensures Dht.Reported(t) == Dht.PeersIn(Dht.Consumed(t))
  {
    if t.Then? {
      ReportedIsPeersOfConsumed(t.before);
      if t.last.Consume? {
        Dht.PeersInConcat(Dht.Consumed(t.before), [t.last.event]);
        assert [t.last.event][1..] == [];
        assert Dht.PeersIn([t.last.event]) == Dht.PeersOf(t.last.event) + [];
      }
    }
  }

  lemma {:induction false} HeardIsPeersOfTaken(t: Log<Discovery.MdnsAction>)
    ensures Collect(Discovery.TakeOf, t) == ToPeers(Collect(Discovery.SightingOf, t))
  {
    if t.Then? {
      HeardIsPeersOfTaken(t.before);
      if t.last.Take? {
        ToPeersConcat(Collect(Discovery.SightingOf, t.before), [t.last.sighting]);
        assert [t.last.sighting][1..] == [];
      }
    }
  }

  lemma SplitAtSources(d: Discovery.State)
    requires Discovery.Inv(d)
    ensures Collect(Discovery.DhtPeerOf, d.found) + Dht.Upcoming(d.dht)
         == Dht.PeersIn(Discovery.AccountOf(d).events)
    ensures Collect(Discovery.MdnsResultOf, d.found) + ToPeers(d.mdns.sightings)
         == ToPeers(Discovery.AccountOf(d).sightings)
  {
    ReportedIsPeersOfConsumed(d.dht.trace);
    Dht.PeersInConcat(Dht.Consumed(d.dht.trace), d.dht.ready);
    HeardIsPeersOfTaken(d.mdns.trace);
    ToPeersConcat(Discovery.Taken(d.mdns), d.mdns.sightings);
    ConcatAssoc(Dht.Emitted(d.dht.trace), d.dht.pendingEvents, Dht.PeersIn(d.dht.ready));
  }

  /** Over any run, what discovery found is an order-preserving merge of every peer of every lookup
      result the DHT gave and every result mDNS gave; what is missing still waits, in order. */
  lemma {:induction false} FoundIsMergeOfSources(port: u16, h: Log<Step>)
    ensures var d := Run(port, h).discovery;
      && Collect(Discovery.DhtPeerOf, d.found) + Dht.Upcoming(d.dht) == Dht.PeersIn(Collect(EventOf, h))
      && Collect(Discovery.MdnsResultOf, d.found) + ToPeers(d.mdns.sightings) == ToPeers(Collect(SightingOf, h))
  {
    RunKeepsInv(port, h);
    RunAccounts(port, h);
    SplitAtSources(Run(port, h).discovery);
  }

  // ---- The same, field by field ----

  function DhtAddrOf(r: Result<PeerInfo>): seq<SocketAddr> {
    if r.Ok? && r.value.discoveryMethod == ViaDht then [r.value.addr] else []
  }
  function DhtTopicOf(r: Result<PeerInfo>): seq<seq<byte>> {
    if r.Ok? && r.value.discoveryMethod == ViaDht && r.value.topic.Some? then [r.value.topic.value] else []
  }
  function MdnsAddrOf(r: Result<PeerInfo>): seq<SocketAddr> {
    if r.Ok? && r.value.discoveryMethod == ViaMdns then [r.value.addr] else []
  }
  function MdnsTopicOf(r: Result<PeerInfo>): seq<seq<byte>> {
    if r.Ok? && r.value.discoveryMethod == ViaMdns && r.value.topic.Some? then [r.value.topic.value] else []
  }

  function SightedAddrOf(g: Discovery.Sighting): seq<SocketAddr> { if |g.topic| == 32 then [g.addr] else [] }
  function SightedTopicOf(g: Discovery.Sighting): seq<seq<byte>> { if |g.topic| == 32 then [g.topic] else [] }
  function InvalidOf(g: Discovery.Sighting): seq<IoError> {
    if |g.topic| == 32 then [] else [IoError("Received invalid topic")]
  }

  /** What the DHT peers found and ahead carry, picked by `f`, or by `k` from the results found. */
  lemma {:induction false} DhtGather<B>(
    f: PeerInfo -> seq<B>, k: Result<PeerInfo> -> seq<B>, port: u16, h: Log<Step>)
    requires forall r :: Gather(f, Discovery.DhtPeerOf(r)) == k(r)
    ensures var d := Run(port, h).discovery;
      Collect(k, d.found) + Gather(f, Dht.Upcoming(d.dht)) == Gather(f, Dht.PeersIn(Collect(EventOf, h)))
  {
    FoundIsMergeOfSources(port, h);
    var d := Run(port, h).discovery;
    GatherConcat(f, Collect(Discovery.DhtPeerOf, d.found), Dht.Upcoming(d.dht));
    GatherCollect(f, Discovery.DhtPeerOf, k, d.found);
  }

  lemma DhtFields(r: Result<PeerInfo>)
    ensures Gather(Dht.AddrOf, Discovery.DhtPeerOf(r)) == DhtAddrOf(r)
    ensures Gather(Dht.TopicOf, Discovery.DhtPeerOf(r)) == DhtTopicOf(r)
  {
    if r.Ok? {
      GatherOne(Dht.AddrOf, r.value);
      GatherOne(Dht.TopicOf, r.value);
    }
  }

  /** Over any run: the addresses of the DHT peers found, then of those buffered, then the remotes of the
      lookup results still unread, are the remotes of the run's lookup results, in order; likewise their
      topics, each that of its own result. */
  lemma {:induction false} DhtPeersAreRemotes(port: u16, h: Log<Step>)
    ensures var d := Run(port, h).discovery;
      var events := Collect(EventOf, h);
      && Collect(DhtAddrOf, d.found) + Dht.AddrsAhead(d.dht) == Gather(Dht.RemotesOf, events)
      && Collect(DhtTopicOf, d.found) + Dht.TopicsAhead(d.dht) == Gather(Dht.RemoteTopicsOf, events)
  {
    forall r {
      DhtFields(r);
    }
    DhtGather(Dht.AddrOf, DhtAddrOf, port, h);
    DhtGather(Dht.TopicOf, DhtTopicOf, port, h);
    Dht.AheadIsUpcoming(Run(port, h).discovery.dht);
    Dht.PeersInFields(Collect(EventOf, h));
  }

  /** What a result of mDNS carries, picked by `f`, is what its sighting carries, picked by `k`. */
  lemma {:induction false} MdnsGather<B>(
    f: Result<PeerInfo> -> seq<B>, k: Discovery.Sighting -> seq<B>, port: u16, h: Log<Step>)
    requires forall g :: f(Discovery.ToPeer(g)) == k(g)
    requires forall r :: Gather(f, Discovery.MdnsResultOf(r)) == f(r)
    ensures var d := Run(port, h).discovery;
      Collect(f, d.found) + Gather(k, d.mdns.sightings) == Gather(k, Collect(SightingOf, h))
  {
    FoundIsMergeOfSources(port, h);
    var d := Run(port, h).discovery;
    GatherConcat(f, Collect(Discovery.MdnsResultOf, d.found), ToPeers(d.mdns.sightings));
    GatherCollect(f, Discovery.MdnsResultOf, f, d.found);
    ToPeersGather(f, k, d.mdns.sightings);
    ToPeersGather(f, k, Collect(SightingOf, h));
  }

  lemma {:induction false} ToPeersGather<B>(
    f: Result<PeerInfo> -> seq<B>, k: Discovery.Sighting -> seq<B>, gs: seq<Discovery.Sighting>)
    requires forall g :: f(Discovery.ToPeer(g)) == k(g)
    ensures Gather(f, ToPeers(gs)) == Gather(k, gs)
  {
    if gs != [] {
      var n := |gs| - 1;
      assert gs == gs[..n] + [gs[n]] && [gs[n]][1..] == [];
      ToPeersConcat(gs[..n], [gs[n]]);
      ToPeersGather(f, k, gs[..n]);
      GatherSnoc(f, ToPeers(gs[..n]), Discovery.ToPeer(gs[n]));
    }
  }

  /** Over any run: the addresses and the topics of the mDNS peers found, and then of the sightings still
      unread, are those of the run's sightings with a 32-byte topic, in order; every other sighting is
      one error. */
  lemma {:induction false} MdnsPeersAreSightings(port: u16, h: Log<Step>)
    ensures var d := Run(port, h).discovery;
      var sightings := Collect(SightingOf, h);
      && Collect(MdnsAddrOf, d.found) + Gather(SightedAddrOf, d.mdns.sightings) == Gather(SightedAddrOf, sightings)
      && Collect(MdnsTopicOf, d.found) + Gather(SightedTopicOf, d.mdns.sightings) == Gather(SightedTopicOf, sightings)
      && Collect(Discovery.ErrorOf, d.found) + Gather(InvalidOf, d.mdns.sightings) == Gather(InvalidOf, sightings)
  {
    forall r: Result<PeerInfo>
      ensures Gather(MdnsAddrOf, Discovery.MdnsResultOf(r)) == MdnsAddrOf(r)
      ensures Gather(MdnsTopicOf, Discovery.MdnsResultOf(r)) == MdnsTopicOf(r)
      ensures Gather(Discovery.ErrorOf, Discovery.MdnsResultOf(r)) == Discovery.ErrorOf(r)
    {
      GatherOne(MdnsAddrOf, r);
      GatherOne(MdnsTopicOf, r);
      GatherOne(Discovery.ErrorOf, r);
    }
    MdnsGather(MdnsAddrOf, SightedAddrOf, port, h);
    MdnsGather(MdnsTopicOf, SightedTopicOf, port, h);
    MdnsGather(Discovery.ErrorOf, InvalidOf, port, h);
  }

  // ---- From discovery to connects ----

  /** How often `addr` was found. */
  function FoundAt(l: Log<Result<PeerInfo>>, addr: SocketAddr): nat {
    match l
    case Start => 0
    case Then(past, r) => FoundAt(past, addr) + (if r.Ok? && r.value.addr == addr then 1 else 0)
  }

  lemma {:induction false} FoundAtCounts(l: Log<Result<PeerInfo>>, addr: SocketAddr)
    ensures FoundAt(l, addr) == multiset(Collect(Discovery.AddrOf, l))[addr]
  {
    if l.Then? {
      FoundAtCounts(l.before, addr);
    }
  }

  lemma {:induction false} StartedToCounts(t: Log<Links.Action>, addr: SocketAddr)
    ensures Links.StartedTo(t, addr) == multiset(Collect(Links.DialOf, t))[addr]
  {
    if t.Then? {
      StartedToCounts(t.before, addr);
    }
  }

  /** Both protocols dial exactly the addresses found, in the order they were found. */
  lemma EveryFoundPeerIsDialed(port: u16, h: Log<Step>)
    ensures var s := Run(port, h);
      && Links.Started(s.transport.tcp) == Collect(Discovery.AddrOf, s.discovery.found)
      && Links.Started(s.transport.utp) == Collect(Discovery.AddrOf, s.discovery.found)
  {
    RunKeepsInv(port, h);
  }

  lemma {:induction false} FoundMerges(l: Log<Result<PeerInfo>>)
    ensures IsMerge(Collect(Discovery.AddrOf, l), Collect(DhtAddrOf, l), Collect(MdnsAddrOf, l))
  {
    if l.Then? {
      FoundMerges(l.before);
      if l.last.Ok? {
        MergeSnoc(Collect(Discovery.AddrOf, l.before), Collect(DhtAddrOf, l.before), Collect(MdnsAddrOf, l.before),
                  l.last.value.addr);
      }
    }
  }

  /** Over any run, the addresses dialed over either protocol are an order-preserving merge of the remotes
      of the run's lookup results and the addresses sighted with a 32-byte topic, less, at the end of
      each, what is buffered or still unread. */
  lemma {:induction false} DialedAreRemotesAndSightings(port: u16, h: Log<Step>)
    ensures var s := Run(port, h);
      var d := s.discovery;
      var fromDht, fromMdns := Collect(DhtAddrOf, d.found), Collect(MdnsAddrOf, d.found);
      && Links.Started(s.transport.tcp) == Links.Started(s.transport.utp)
      && IsMerge(Links.Started(s.transport.tcp), fromDht, fromMdns)
      && fromDht + Dht.AddrsAhead(d.dht)
           == Gather(Dht.RemotesOf, Collect(EventOf, h))
      && fromMdns + Gather(SightedAddrOf, d.mdns.sightings) == Gather(SightedAddrOf, Collect(SightingOf, h))
  {
    EveryFoundPeerIsDialed(port, h);
    FoundMerges(Run(port, h).discovery.found);
    DhtPeersAreRemotes(port, h);
    MdnsPeersAreSightings(port, h);
  }

  /** Each time an address was found there is one connect to it over each protocol, and that connect
      is running, ended but untaken, yielded, skipped as a duplicate, or failed. The connects taken are
      a prefix, in order, of those that ended in the run, each with the outcome it ended with: those
      that ended in a stream were yielded or skipped, those that ended in an error failed. */
  lemma {:induction false} AttemptsConserved(port: u16, h: Log<Step>, p: Protocol, addr: SocketAddr)
    ensures var s := Run(port, h);
      var link := Transport.LinkOf(s.transport, p);
      var l := s.transport.arrivals;
      var taken := Links.EndedSoFar(link);
      && FoundAt(s.discovery.found, addr) ==
           link.connecting[addr] + Links.CompletedTo(link.completed, addr) +
           Transport.FateCount(l, p, addr, Transport.Yielded) +
           Transport.FateCount(l, p, addr, Transport.Skipped) +
           Transport.FateCount(l, p, addr, Transport.Failed)
      && taken + link.completed == EndedConnects(port, h, p)
      && Transport.CountEnds(taken, addr, true) ==
           Transport.FateCount(l, p, addr, Transport.Yielded) + Transport.FateCount(l, p, addr, Transport.Skipped)
      && Transport.CountEnds(taken, addr, false) == Transport.FateCount(l, p, addr, Transport.Failed)
  {
    RunKeepsInv(port, h);
    RunAccounts(port, h);
    var s := Run(port, h);
    FoundAtCounts(s.discovery.found, addr);
    StartedToCounts(Transport.LinkOf(s.transport, p).trace, addr);
    Transport.AttemptsConserved(s.transport, p, addr);
  }

  // ---- From connects to the consumer ----

  /** However TCP, uTP and everything else interleave, no two connections this side opened and the
      consumer was given lead to one address, and `connected` is exactly their addresses. */
  lemma OneInitiatorPerAddress(port: u16, h: Log<Step>, addr: SocketAddr)
    ensures var s := Run(port, h);
      && Transport.OneInitiatorEach(ConnectionsIn(s.surfaced))
      && (addr in s.transport.connected <==> Transport.HasInitiatorTo(ConnectionsIn(s.surfaced), addr))
  {
    RunKeepsInv(port, h);
    Transport.DeliveredOnce(Run(port, h).transport.arrivals);
    Transport.ReachedIffDelivered(Run(port, h).transport.arrivals, addr);
  }

  /** No step ever takes an address out of `connected`. */
  lemma ConnectedOnlyGrows(port: u16, h: Log<Step>, x: Step)
    ensures Run(port, h).transport.connected <= Run(port, Then(h, x)).transport.connected
  {
    RunKeepsInv(port, h);
    RunKeepsInv(port, Then(h, x));
    var s, r := Run(port, h), Run(port, Then(h, x));
    assert r == Apply(s, x);
    if x.Poll? {
      PollNextKeepsInv(s, x.now);
    }
    forall addr | addr in s.transport.connected ensures addr in r.transport.connected {
      Transport.ReachedIffDelivered(s.transport.arrivals, addr);
      Transport.ReachedIffDelivered(r.transport.arrivals, addr);
    }
  }

  /** The consumer's connections are the reference's, and its incoming ones over each protocol are
      exactly the streams accepted there, in order, with those not yet polled still waiting. */
  lemma AcceptedStreamsReachConsumer(port: u16, h: Log<Step>)
    ensures var s := Run(port, h);
      && ConnectionsIn(s.surfaced) == Transport.Delivered(s.transport.arrivals)
      && Collect(Transport.IncomingOf(Tcp), ConnectionsIn(s.surfaced))
           == Transport.OpenedStreams(Links.AcceptedSoFar(s.transport.tcp))
      && Collect(Transport.IncomingOf(Utp), ConnectionsIn(s.surfaced))
           == Transport.OpenedStreams(Links.AcceptedSoFar(s.transport.utp))
      && Links.AcceptedSoFar(s.transport.tcp) + s.transport.tcp.incoming == Collect(TcpOf, h)
      && Links.AcceptedSoFar(s.transport.utp) + s.transport.utp.incoming == Collect(UtpOf, h)
  {
    RunKeepsInv(port, h);
    RunAccounts(port, h);
    Transport.IncomingInOrder(Run(port, h).transport.arrivals, Tcp);
    Transport.IncomingInOrder(Run(port, h).transport.arrivals, Utp);
  }

  /** The connections this side opened over `p` and the consumer was given carry, in order, exactly the
      streams of the connects that ended over `p`, less those whose address an opened connection had
      already reached; the connects not yet polled still wait, each with its own outcome. */
  lemma {:induction false} OpenedStreamsReachConsumer(port: u16, h: Log<Step>, p: Protocol)
    ensures var s := Run(port, h);
      var endings := Transport.Endings(s.transport.arrivals, p);
      && Collect(Transport.OpenedOf(p), ConnectionsIn(s.surfaced)) == Collect(Transport.InTimeOf, endings)
      && Collect(Transport.EndedOf, endings) + Transport.LinkOf(s.transport, p).completed == EndedConnects(port, h, p)
  {
    RunKeepsInv(port, h);
    RunAccounts(port, h);
    Transport.OpenedInOrder(Run(port, h).transport.arrivals, p);
  }

  /** The errors the consumer sees are exactly discovery's, in order; the transports' errors, in
      order, are logged and never surface. */
  lemma ErrorsRouted(port: u16, h: Log<Step>)
    ensures var s := Run(port, h);
      && Collect(Swarm.ErrorOf, s.surfaced) == Collect(Discovery.ErrorOf, s.discovery.found)
      && s.logged == Transport.Failures(s.transport.arrivals)
  {
    RunKeepsInv(port, h);
  }

  /** From `l` to `m` at most the front of one queue was taken. */
  predicate TookFront(l: Links.State, m: Links.State) {
    && m.connecting == l.connecting
    && ((m.incoming == l.incoming && m.completed == l.completed)
        || (l.incoming != [] && m.incoming == l.incoming[1..] && m.completed == l.completed)
        || (l.completed != [] && m.incoming == l.incoming && m.completed == l.completed[1..]))
  }

  lemma PollTakesOneFront(t: Transport.State, p: Protocol)
    ensures var (r, h) := if p.Tcp? then Transport.PollTcp(t) else Transport.PollUtp(t);
      && TookFront(t.tcp, r.tcp) && TookFront(t.utp, r.utp)
      && (p.Tcp? ==> r.utp == t.utp) && (p.Utp? ==> r.tcp == t.tcp)
      && (h.None? || h.value.Err? ==> r.connected == t.connected)
  {}

  lemma PollTakesFronts(t: Transport.State)
    ensures var (r, answer) := Transport.PollNext(t);
      && TookFront(t.tcp, r.tcp) && TookFront(t.utp, r.utp)
      && (answer.Ready? && answer.item.Err? ==> r.connected == t.connected)
  {
    PollTakesOneFront(t, Tcp);
    PollTakesOneFront(Transport.PollTcp(t).0, Utp);
  }

  lemma LoggedErrorChangesNothingElse(s: State)
    ensures var (r, answer) := PollTransport(s);
      && TookFront(s.transport.tcp, r.transport.tcp) && TookFront(s.transport.utp, r.transport.utp)
      && (r.logged != s.logged ==> answer.Pending? && r.transport.connected == s.transport.connected)
      && (answer.Ready? ==> answer.item.Ok?)
  {
    PollTakesFronts(s.transport);
  }

  /** Neither kind of error changes anything else. Topics and discovery end as draining and the
      discovery poll left them. A poll that surfaces an error has not touched the transports. A poll
      that logs one leaves `connected` and every running connect as dialing left them, and has taken
      from each protocol at most the front of one queue. */
  lemma {:induction false} ErrorsChangeNothingElse(s: State, now: Transport.AtOnce)
    ensures var (r, answer) := PollNext(s, now);
      var dialed := AfterDialing(s.transport, Discovery.Front(s.discovery), now);
      && r.topics == Drain(s).topics && r.discovery == Discovery.PollNext(Drain(s).discovery).0
      && (answer.Ready? && answer.item.Err? ==> r.transport == s.transport && r.logged == s.logged)
      && (r.logged != s.logged ==>
            && answer.Pending? && r.transport.connected == s.transport.connected
            && TookFront(dialed.tcp, r.transport.tcp) && TookFront(dialed.utp, r.transport.utp))
  {
    DrainLeavesSources(s);
    DrainKeepsFront(s);
    var d := Drain(s);
    var (disc, found) := Discovery.PollNext(d.discovery);
    var e := d.(discovery := disc);
    LaterStagesLeaveDiscovery(e, found, now);
    LoggedErrorChangesNothingElse(e.(transport := AfterDialing(e.transport, found, now)));
  }

  // ---- Only discovered addresses are connected to ----

  predicate HonestEnds(cs: seq<Links.Completion>) {
    forall c :: c in cs ==> Links.Truthful(c.dialed, c.outcome)
  }

  /** Streams lead where they were dialed to. */
  predicate Honest(port: u16, h: Log<Step>) {
    HonestEnds(EndedConnects(port, h, Tcp)) && HonestEnds(EndedConnects(port, h, Utp))
  }

  predicate HonestArrivals(l: Log<Links.Arrival>) {
    l.Then? ==>
      && HonestArrivals(l.before)
      && (l.last.Dialed? ==> Links.Truthful(l.last.dialed, l.last.outcome))
  }

  lemma HonestPrefix(cs: seq<Links.Completion>, c: Links.Completion)
    requires HonestEnds(cs + [c])
    ensures HonestEnds(cs) && Links.Truthful(c.dialed, c.outcome)
  {
    assert c in cs + [c];
    assert forall x :: x in cs ==> x in cs + [c];
  }

  lemma {:induction false} HonestEndsArriveHonest(l: Log<Links.Arrival>)
    requires HonestEnds(Collect(Links.CompletionOf, Transport.Only(Tcp, l)))
    requires HonestEnds(Collect(Links.CompletionOf, Transport.Only(Utp, l)))
    ensures HonestArrivals(l)
  {
    if l.Then? {
      if l.last.Dialed? {
        HonestPrefix(Collect(Links.CompletionOf, Transport.Only(l.last.protocol, l.before)),
                     Links.Completion(l.last.dialed, l.last.outcome));
      }
      HonestEndsArriveHonest(l.before);
    }
  }

  lemma TakenEndsAreHonest(l: Links.State, ended: seq<Links.Completion>)
    requires Links.EndedSoFar(l) + l.completed == ended && HonestEnds(ended)
    ensures HonestEnds(Links.EndedSoFar(l))
  {
    assert forall c :: c in Links.EndedSoFar(l) ==> c in ended;
  }

  lemma {:induction false} ReachedMeansEnded(l: Log<Links.Arrival>, addr: SocketAddr) returns (p: Protocol)
    requires HonestArrivals(l) && Transport.ReachedBefore(l, addr)
    ensures Links.EndedTo(Transport.Only(p, l), addr) > 0
  {
    if Transport.ReachedBefore(l.before, addr) {
      p := ReachedMeansEnded(l.before, addr);
    } else {
      p := l.last.protocol;
    }
  }

  /** If streams lead where they were dialed to, every connection this side opened and the consumer
      was given leads to an address that discovery had found. */
  lemma ConnectsOnlyToFound(port: u16, h: Log<Step>, addr: SocketAddr)
    requires Honest(port, h)
    requires Transport.HasInitiatorTo(ConnectionsIn(Run(port, h).surfaced), addr)
    ensures FoundAt(Run(port, h).discovery.found, addr) > 0
  {
    RunKeepsInv(port, h);
    RunAccounts(port, h);
    var s := Run(port, h);
    TakenEndsAreHonest(s.transport.tcp, EndedConnects(port, h, Tcp));
    TakenEndsAreHonest(s.transport.utp, EndedConnects(port, h, Utp));
    HonestEndsArriveHonest(s.transport.arrivals);
    Transport.ReachedIffDelivered(s.transport.arrivals, addr);
    var p := ReachedMeansEnded(s.transport.arrivals, addr);
    assert Links.Balanced(Transport.LinkOf(s.transport, p), addr);
    FoundAtCounts(s.discovery.found, addr);
    StartedToCounts(Transport.LinkOf(s.transport, p).trace, addr);
  }

  // ---- One connection per peer: what de-duplication does not do ----

  // A peer is a node, and one node can be behind several addresses: a TCP stream it opened comes from
  // an ephemeral port, not from the address it listens on. `node` says which node is behind an address.

  predicate Reaches(node: SocketAddr -> nat, l: Log<Connection>, n: nat) {
    l.Then? && (node(l.last.peerAddr) == n || Reaches(node, l.before, n))
  }

  /** No two of the connections lead to one node. */
  predicate DistinctNodes(node: SocketAddr -> nat, l: Log<Connection>) {
    l.Then? ==> DistinctNodes(node, l.before) && !Reaches(node, l.before, node(l.last.peerAddr))
  }

  /** A stream that leads to the node behind `addr` arrived, not counting, if `dialed`, those that
      connects of ours to `addr` itself ended in. */
  predicate Doubles(node: SocketAddr -> nat, l: Log<Links.Arrival>, addr: SocketAddr, dialed: bool) {
    l.Then? &&
    (Doubles(node, l.before, addr, dialed) ||
     (l.last.outcome.Ok? && node(l.last.outcome.value.peer) == node(addr)
      && !(dialed && l.last.Dialed? && l.last.outcome.value.peer == addr)))
  }

  /** Any two streams that arrived from one node were both opened by us, and to one address. */
  predicate OneRouteEach(node: SocketAddr -> nat, l: Log<Links.Arrival>) {
    l.Then? ==>
      && OneRouteEach(node, l.before)
      && (l.last.outcome.Ok? ==> !Doubles(node, l.before, l.last.outcome.value.peer, l.last.Dialed?))
  }

  /** Every stream that arrived, delivered or skipped, leads to a node some delivered one leads to. */
  lemma {:induction false} ArrivedMeansReached(node: SocketAddr -> nat, l: Log<Links.Arrival>, addr: SocketAddr)
    ensures Reaches(node, Transport.Delivered(l), node(addr)) <==> Doubles(node, l, addr, false)
    ensures Transport.ReachedBefore(l, addr) ==> Doubles(node, l, addr, false)
  {
    if l.Then? {
      ArrivedMeansReached(node, l.before, addr);
      if l.last.outcome.Ok? && node(l.last.outcome.value.peer) == node(addr) {
        SameNodeSameDoubles(node, l.before, addr, l.last.outcome.value.peer);
        ArrivedMeansReached(node, l.before, l.last.outcome.value.peer);
      }
    }
  }

  lemma {:induction false} SameNodeSameDoubles(
    node: SocketAddr -> nat, l: Log<Links.Arrival>, addr: SocketAddr, other: SocketAddr)
    requires node(addr) == node(other)
    ensures Doubles(node, l, addr, false) <==> Doubles(node, l, other, false)
  {
    if l.Then? {
      SameNodeSameDoubles(node, l.before, addr, other);
    }
  }

  /** With no connect of ours to `addr` so far, anything from its node doubles a first one. */
  lemma {:induction false} UnreachedDoubles(node: SocketAddr -> nat, l: Log<Links.Arrival>, addr: SocketAddr)
    requires !Transport.ReachedBefore(l, addr)
    ensures Doubles(node, l, addr, true) <==> Doubles(node, l, addr, false)
  {
    if l.Then? {
      UnreachedDoubles(node, l.before, addr);
    }
  }

  /** Once a connect of ours reached `addr`, a stream from its node by another route doubles it. */
  lemma {:induction false} ReachedDoubles(
    node: SocketAddr -> nat, l: Log<Links.Arrival>, addr: SocketAddr, other: SocketAddr, dialed: bool)
    requires Transport.ReachedBefore(l, addr)
    requires node(other) == node(addr) && !(dialed && other == addr)
    ensures Doubles(node, l, other, dialed)
  {
    if Transport.ReachedBefore(l.before, addr) {
      ReachedDoubles(node, l.before, addr, other, dialed);
    }
  }

  lemma {:induction false} DoublesStay(node: SocketAddr -> nat, l: Log<Links.Arrival>, addr: SocketAddr)
    requires Transport.ReachedBefore(l, addr) && Doubles(node, l, addr, true)
    ensures !OneRouteEach(node, l)
  {
    var last := l.last;
    if Transport.ReachedBefore(l.before, addr) && Doubles(node, l.before, addr, true) {
      DoublesStay(node, l.before, addr);
    } else if Transport.ReachedBefore(l.before, addr) {
      ReachedDoubles(node, l.before, addr, last.outcome.value.peer, last.Dialed?);
    }
  }

  /** De-duplication leaves one connection per node exactly when any two streams from one node were
      both opened by us to one address: it neither looks at the connections the other side opened nor
      knows that two addresses belong together. */
  lemma {:induction false} DeliveredDistinctExactly(node: SocketAddr -> nat, l: Log<Links.Arrival>)
    ensures DistinctNodes(node, Transport.Delivered(l)) <==> OneRouteEach(node, l)
  {
    if l.Then? {
      DeliveredDistinctExactly(node, l.before);
      if l.last.outcome.Ok? {
        var peer := l.last.outcome.value.peer;
        ArrivedMeansReached(node, l.before, peer);
        if Transport.FateOf(l.before, l.last).Skipped? {
          if Doubles(node, l.before, peer, true) {
            DoublesStay(node, l.before, peer);
          }
        } else if l.last.Dialed? {
          UnreachedDoubles(node, l.before, peer);
        }
      }
    }
  }

  /** The same for the consumer of any run, whichever node is behind each address. */
  lemma {:induction false} OneConnectionPerNodeExactly(node: SocketAddr -> nat, port: u16, h: Log<Step>)
    ensures var s := Run(port, h);
      DistinctNodes(node, ConnectionsIn(s.surfaced)) <==> OneRouteEach(node, s.transport.arrivals)
  {
    RunKeepsInv(port, h);
    DeliveredDistinctExactly(node, Run(port, h).transport.arrivals);
  }

  // The same condition read off what the sources gave rather than off what the polls took.

  function ConnectionsTo(node: SocketAddr -> nat, l: Log<Connection>, n: nat): nat {
    match l case Start => 0 case Then(past, c) => ConnectionsTo(node, past, n) + (if node(c.peerAddr) == n then 1 else 0)
  }

  /** How many of the accepted streams come from node `n`. */
  function AcceptedFrom(node: SocketAddr -> nat, rs: seq<Result<Stream>>, n: nat): nat {
    if rs == [] then 0
    else
      var r := rs[|rs| - 1];
      AcceptedFrom(node, rs[..|rs| - 1], n) + (if r.Ok? && node(r.value.peer) == n then 1 else 0)
  }

  /** The addresses of node `n` that some ended connect reached. */
  function AddressesReached(node: SocketAddr -> nat, cs: seq<Links.Completion>, n: nat): set<SocketAddr> {
    set c | c in cs && c.outcome.Ok? && node(c.outcome.value.peer) == n :: c.outcome.value.peer
  }

  lemma AcceptedFromSnoc(node: SocketAddr -> nat, rs: seq<Result<Stream>>, r: Result<Stream>, n: nat)
    ensures AcceptedFrom(node, rs + [r], n) ==
      AcceptedFrom(node, rs, n) + (if r.Ok? && node(r.value.peer) == n then 1 else 0)
  {
    assert (rs + [r])[..|rs|] == rs;
  }

  lemma AddressesReachedSnoc(node: SocketAddr -> nat, cs: seq<Links.Completion>, c: Links.Completion, n: nat)
    ensures AddressesReached(node, cs + [c], n) == AddressesReached(node, cs, n) +
      (if c.outcome.Ok? && node(c.outcome.value.peer) == n then {c.outcome.value.peer} else {})
  {}

  function AcceptedOn(l: Log<Links.Arrival>, p: Protocol): seq<Result<Stream>> {
    Collect(Links.AcceptedOf, Transport.Only(p, l))
  }

  function EndedOn(l: Log<Links.Arrival>, p: Protocol): seq<Links.Completion> {
    Collect(Links.CompletionOf, Transport.Only(p, l))
  }

  /** Ways in and out of node `n`: one for each stream accepted from it, and one for each of its
      addresses that a connect of ours reached, over whichever protocols and however often. */
  function Routes(
    node: SocketAddr -> nat, n: nat,
    tcp: seq<Result<Stream>>, utp: seq<Result<Stream>>, tcpEnds: seq<Links.Completion>, utpEnds: seq<Links.Completion>)
    : nat
  {
    AcceptedFrom(node, tcp, n) + AcceptedFrom(node, utp, n)
      + |AddressesReached(node, tcpEnds, n) + AddressesReached(node, utpEnds, n)|
  }

  function ReachedIn(node: SocketAddr -> nat, l: Log<Links.Arrival>, n: nat): set<SocketAddr> {
    AddressesReached(node, EndedOn(l, Tcp), n) + AddressesReached(node, EndedOn(l, Utp), n)
  }

  function AcceptedIn(node: SocketAddr -> nat, l: Log<Links.Arrival>, n: nat): nat {
    AcceptedFrom(node, AcceptedOn(l, Tcp), n) + AcceptedFrom(node, AcceptedOn(l, Utp), n)
  }

  /** The arrival is a stream of a connect of ours, if `dialed`, or else an accepted one, from node `n`. */
  predicate ComesFrom(node: SocketAddr -> nat, a: Links.Arrival, n: nat, dialed: bool) {
    a.Dialed? == dialed && a.outcome.Ok? && node(a.outcome.value.peer) == n
  }

  lemma AcceptedOnGrows(past: Log<Links.Arrival>, a: Links.Arrival, p: Protocol)
    ensures AcceptedOn(Then(past, a), p) ==
      (if a.Accepted? && a.protocol == p then AcceptedOn(past, p) + [a.outcome] else AcceptedOn(past, p))
  {}

  lemma EndedOnGrows(past: Log<Links.Arrival>, a: Links.Arrival, p: Protocol)
    ensures EndedOn(Then(past, a), p) ==
      (if a.Dialed? && a.protocol == p then EndedOn(past, p) + [Links.Completion(a.dialed, a.outcome)]
       else EndedOn(past, p))
  {}

  lemma {:induction false} ReachedGrows(node: SocketAddr -> nat, past: Log<Links.Arrival>, a: Links.Arrival, n: nat)
    ensures ReachedIn(node, Then(past, a), n) ==
      ReachedIn(node, past, n) + (if ComesFrom(node, a, n, true) then {a.outcome.value.peer} else {})
  {
    EndedOnGrows(past, a, Tcp);
    EndedOnGrows(past, a, Utp);
    if a.Dialed? {
      AddressesReachedSnoc(node, EndedOn(past, a.protocol), Links.Completion(a.dialed, a.outcome), n);
    }
  }

  lemma {:induction false} AcceptedGrows(node: SocketAddr -> nat, past: Log<Links.Arrival>, a: Links.Arrival, n: nat)
    ensures AcceptedIn(node, Then(past, a), n) ==
      AcceptedIn(node, past, n) + (if ComesFrom(node, a, n, false) then 1 else 0)
  {
    AcceptedOnGrows(past, a, Tcp);
    AcceptedOnGrows(past, a, Utp);
    if a.Accepted? {
      AcceptedFromSnoc(node, AcceptedOn(past, a.protocol), a.outcome, n);
    }
  }

  lemma {:induction false} ReachedAddresses(node: SocketAddr -> nat, l: Log<Links.Arrival>, n: nat, addr: SocketAddr)
    ensures addr in ReachedIn(node, l, n) <==> Transport.ReachedBefore(l, addr) && node(addr) == n
  {
    if l.Then? {
      ReachedAddresses(node, l.before, n, addr);
      ReachedGrows(node, l.before, l.last, n);
    }
  }

  lemma AddToSet<A>(s: set<A>, x: A)
    ensures |s + {x}| == |s| + (if x in s then 0 else 1)
  {
    if x in s {
      assert s + {x} == s;
    }
  }

  lemma {:induction false} RoutesGrow(node: SocketAddr -> nat, past: Log<Links.Arrival>, a: Links.Arrival, n: nat)
    ensures var l := Then(past, a);
      AcceptedIn(node, l, n) + |ReachedIn(node, l, n)| == AcceptedIn(node, past, n) + |ReachedIn(node, past, n)| +
        (if Transport.FateOf(past, a).Yielded? && node(a.outcome.value.peer) == n then 1 else 0)
  {
    AcceptedGrows(node, past, a, n);
    ReachedGrows(node, past, a, n);
    if ComesFrom(node, a, n, true) {
      ReachedAddresses(node, past, n, a.outcome.value.peer);
      AddToSet(ReachedIn(node, past, n), a.outcome.value.peer);
    } else {
      assert ReachedIn(node, past, n) + {} == ReachedIn(node, past, n);
    }
  }

  /** De-duplication leaves exactly as many connections to a node as there are routes to it. */
  lemma {:induction false} ConnectionsAreRoutes(node: SocketAddr -> nat, l: Log<Links.Arrival>, n: nat)
    ensures ConnectionsTo(node, Transport.Delivered(l), n) == AcceptedIn(node, l, n) + |ReachedIn(node, l, n)|
  {
    if l.Then? {
      ConnectionsAreRoutes(node, l.before, n);
      RoutesGrow(node, l.before, l.last, n);
    }
  }

  lemma {:induction false} ReachesCounts(node: SocketAddr -> nat, l: Log<Connection>, n: nat)
    ensures Reaches(node, l, n) <==> ConnectionsTo(node, l, n) > 0
  {
    if l.Then? {
      ReachesCounts(node, l.before, n);
    }
  }

  lemma {:induction false} DistinctMeansAtMostOne(node: SocketAddr -> nat, l: Log<Connection>)
    ensures DistinctNodes(node, l) <==> forall n :: ConnectionsTo(node, l, n) <= 1
  {
    match l
    case Start =>
    case Then(past, c) =>
      DistinctMeansAtMostOne(node, past);
      ReachesCounts(node, past, node(c.peerAddr));
      assert forall n :: ConnectionsTo(node, l, n) >= ConnectionsTo(node, past, n);
      if !DistinctNodes(node, past) {
        var n :| ConnectionsTo(node, past, n) > 1;
        assert ConnectionsTo(node, l, n) > 1;
      } else if Reaches(node, past, node(c.peerAddr)) {
        assert ConnectionsTo(node, l, node(c.peerAddr)) > 1;
      } else {
        forall n ensures ConnectionsTo(node, l, n) <= 1 {
          assert ConnectionsTo(node, past, n) <= 1;
        }
      }
  }

  /** In any reachable state with nothing waiting at the links, the consumer has been given exactly as
      many connections to each node as the run offered routes to it, and so at most one to each exactly
      when the run offered at most one. */
  lemma {:induction false} ConnectionsAreRoutesOffered(node: SocketAddr -> nat, port: u16, h: Log<Step>)
    requires var t := Run(port, h).transport;
      t.tcp.incoming == [] && t.tcp.completed == [] && t.utp.incoming == [] && t.utp.completed == []
    ensures var given := ConnectionsIn(Run(port, h).surfaced);
      && (forall n :: ConnectionsTo(node, given, n) == RoutesOffered(node, port, h, n))
      && (DistinctNodes(node, given) <==> forall n :: RoutesOffered(node, port, h, n) <= 1)
  {
    RunKeepsInv(port, h);
    RunAccounts(port, h);
    var s := Run(port, h);
    var given := ConnectionsIn(s.surfaced);
    forall n ensures ConnectionsTo(node, given, n) == RoutesOffered(node, port, h, n) {
      ConnectionsAreRoutes(node, s.transport.arrivals, n);
      NothingWaits(s.transport.tcp);
      NothingWaits(s.transport.utp);
    }
    DistinctMeansAtMostOne(node, given);
  }

  lemma NothingWaits(l: Links.State)
    requires l.incoming == [] && l.completed == []
    ensures Links.AccountOf(l) == Links.Account(Links.AcceptedSoFar(l), Links.EndedSoFar(l))
  {}

  function RoutesOffered(node: SocketAddr -> nat, port: u16, h: Log<Step>, n: nat): nat {
    Routes(node, n, Collect(TcpOf, h), Collect(UtpOf, h), EndedConnects(port, h, Tcp), EndedConnects(port, h, Utp))
  }

  /** A topic is looked up. The DHT reports the address a node listens on; the node connects to us over
      TCP, from whatever address `from` its socket got, while we dial it; then our TCP connect succeeds. */
  function UntilDialed(topic: Topic, listens: SocketAddr, from: SocketAddr): Log<Step> {
    Then(Then(Then(LookedUp(topic),
      DhtEvent(Dht.LookupResult(topic, [listens]))),
      Accept(Tcp, Ok(Stream(0, from)))),
      Poll(Transport.LATER))
  }

  function BothWaysRun(topic: Topic, listens: SocketAddr, from: SocketAddr): Log<Step> {
    Then(Then(UntilDialed(topic, listens, from),
      ConnectEnds(Tcp, listens, Ok(Stream(1, listens)))),
      Poll(Transport.LATER))
  }

  predicate AwaitsConnect(s: State, addr: SocketAddr) {
    && s.channel == [] && s.transport.connected == {}
    && s.transport.tcp.incoming == [] && s.transport.tcp.completed == [] && s.transport.tcp.protocol == Tcp
    && s.transport.tcp.connecting == multiset{addr}
    && Discovery.Front(s.discovery).Pending?
  }

  lemma PollThatDials(s: State, topic: Topic, listens: SocketAddr, accepted: Stream)
    requires Idle(s)
    ensures var offered := Apply(Apply(s, DhtEvent(Dht.LookupResult(topic, [listens]))), Accept(Tcp, Ok(accepted)));
      var r := Apply(offered, Poll(Transport.LATER));
      && AwaitsConnect(r, listens)
      && r.surfaced == Then(Start, Ok(Connection(accepted, accepted.peer, false, Tcp)))
  {
    var event := Dht.LookupResult(topic, [listens]);
    var t := Apply(Apply(s, DhtEvent(event)), Accept(Tcp, Ok(accepted)));
    var dht := t.discovery.dht;
    assert dht.ready == [event] && [event][1..] == [];
    assert Dht.PeersOf(event) == [PeerInfo(listens, Some(topic), ViaDht)];
    assert Dht.PeersIn([event]) == Dht.PeersOf(event) + Dht.PeersIn([event][1..]) == Dht.PeersOf(event);
    assert Dht.Upcoming(dht) == [PeerInfo(listens, Some(topic), ViaDht)];
    Dht.PollNextAnswer(dht);
    assert Drain(t) == t;
    assert t.transport.tcp.incoming == [Ok(accepted)];
  }

  lemma PollThatYields(s: State, reply: Stream)
    requires AwaitsConnect(s, reply.peer)
    ensures Apply(Apply(s, ConnectEnds(Tcp, reply.peer, Ok(reply))), Poll(Transport.LATER)).surfaced ==
      Then(s.surfaced, Ok(Connection(reply, reply.peer, true, Tcp)))
  {
    var t := Apply(s, ConnectEnds(Tcp, reply.peer, Ok(reply)));
    assert t.transport.tcp.completed == [] + [Links.Completion(reply.peer, Ok(reply))];
    assert Drain(t) == t;
    Discovery.AnswersInPriorityOrder(t.discovery);
  }

  /** A run in which the consumer is given two connections to one node, one from an ephemeral port
      that the node opened and one to its listening address that this side opened. */
  lemma TwoConnectionsToOneNode(
    node: SocketAddr -> nat, port: u16, topic: Topic, listens: SocketAddr, from: SocketAddr)
    requires node(listens) == node(from)
    ensures var given := ConnectionsIn(Run(port, BothWaysRun(topic, listens, from)).surfaced);
      && given == Then(Then(Start, Connection(Stream(0, from), from, false, Tcp)),
                       Connection(Stream(1, listens), listens, true, Tcp))
      && !DistinctNodes(node, given)
  {
    LookedUpIsIdle(port, topic);
    var s := Run(port, LookedUp(topic));
    PollThatDials(s, topic, listens, Stream(0, from));
    var h := UntilDialed(topic, listens, from);
    LastSteps(Init(port), LookedUp(topic), h.before.before.last, h.before.last);
    var t := Run(port, h);
    assert t == Apply(Run(port, h.before), Poll(Transport.LATER));
    PollThatYields(t, Stream(1, listens));
    LastSteps(Init(port), h, ConnectEnds(Tcp, listens, Ok(Stream(1, listens))), Poll(Transport.LATER));
    assert ConnectionsIn(t.surfaced) == Then(Start, Connection(Stream(0, from), from, false, Tcp));
  }
}
