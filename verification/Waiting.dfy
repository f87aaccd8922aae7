/** When a poll of the swarm answers Pending, is every source waiting with this poll's waker? The
    stream contract wants it; the code gives it in exactly the polls described here. */
module Waiting {
  import opened Basics
  import Dht
  import Discovery
  import Links
  import Transport
  import opened Swarm
  import opened Runs

  /** Between `s` and `r` the DHT, mDNS, TCP and uTP were each polled, and each answered Pending last. */
  predicate AllWaiting(s: State, r: State) {
    && NewlyEndsWith(s.discovery.dht.trace, r.discovery.dht.trace, Dht.Wait)
    && NewlyEndsWith(s.discovery.mdns.trace, r.discovery.mdns.trace, Discovery.MdnsWait)
    && NewlyEndsWith(s.transport.tcp.trace, r.transport.tcp.trace, Links.LinkWait)
    && NewlyEndsWith(s.transport.utp.trace, r.transport.utp.trace, Links.LinkWait)
  }

  /** Nothing is on hand at any source: no peer buffered or about to be reported, no sighting, no
      accepted stream and no finished connect. */
  predicate NothingOnHand(s: State) {
    && Dht.AddrsAhead(s.discovery.dht) == []
    && s.discovery.mdns.sightings == []
    && LinkEmpty(s.transport.tcp) && LinkEmpty(s.transport.utp)
  }

  predicate LinkEmpty(l: Links.State) {
    l.incoming == [] && l.completed == []
  }

  /** Between `s` and `r` the DHT and mDNS were polled and answered Pending last. */
  predicate BothWaiting(s: Discovery.State, r: Discovery.State) {
    && NewlyEndsWith(s.dht.trace, r.dht.trace, Dht.Wait)
    && NewlyEndsWith(s.mdns.trace, r.mdns.trace, Discovery.MdnsWait)
  }

  lemma DiscoveryWaits(s: Discovery.State)
    ensures var (r, answer) := Discovery.PollNext(s);
      && (answer.Pending? <==> Dht.AddrsAhead(s.dht) == [] && s.mdns.sightings == [])
      && (answer.Pending? <==> BothWaiting(s, r))
      && r.found == (if answer.Ready? then Then(s.found, answer.item) else s.found)
  {
    Dht.PollNextAnswer(s.dht);
    Dht.PollNextTakesFirst(s.dht);
    Dht.PollNextGrows(s.dht);
    Discovery.PollMdnsAccounts(s.mdns);
  }

  lemma LinkWaits(l: Links.State)
    ensures var (r, p) := Links.PollNext(l);
      && (p.Pending? <==> LinkEmpty(l))
      && (NewlyEndsWith(l.trace, r.trace, Links.LinkWait) <==> LinkEmpty(l))
  {}

  lemma TransportWaits(t: Transport.State)
    ensures var (r, answer) := Transport.PollNext(t);
      && (NewlyEndsWith(t.tcp.trace, r.tcp.trace, Links.LinkWait) <==> LinkEmpty(t.tcp))
      && (LinkEmpty(t.tcp) ==>
            (NewlyEndsWith(t.utp.trace, r.utp.trace, Links.LinkWait) <==> LinkEmpty(t.utp)))
      && (LinkEmpty(t.tcp) && LinkEmpty(t.utp) ==> answer.Pending? && r.arrivals == t.arrivals)
  {
    LinkWaits(t.tcp);
    LinkWaits(t.utp);
  }

  /** Only commands may have been added to discovery's traces while draining. */
  lemma {:induction false} DiscoveryWaitsAfterDrain(s: State)
    ensures var (r, found) := Discovery.PollNext(Drain(s).discovery);
      && (found.Pending? <==> Dht.AddrsAhead(s.discovery.dht) == [] && s.discovery.mdns.sightings == [])
      && (found.Pending? <==> BothWaiting(s.discovery, r))
  {
    DrainLeavesSources(s);
    DiscoveryWaits(Drain(s).discovery);
  }

  /** A poll answers Pending with every source waiting if and only if nothing was on hand at any
      source when it began, whatever the connects it may start do at once. */
  lemma WaitsExactlyWhenNothingOnHand(s: State, now: Transport.AtOnce)
    ensures var (r, answer) := PollNext(s, now);
      answer.Pending? && AllWaiting(s, r) <==> NothingOnHand(s)
  {
    DrainLeavesSources(s);
    DiscoveryWaitsAfterDrain(s);
    var d := Drain(s);
    var (disc, found) := Discovery.PollNext(d.discovery);
    LaterStagesLeaveDiscovery(d.(discovery := disc), found, now);
    if found.Pending? {
      TransportWaits(s.transport);
      assert PollNext(s, now) == PollTransport(d.(discovery := disc));
    } else {
      assert !BothWaiting(s.discovery, PollNext(s, now).0.discovery);
    }
  }

  function Skips(t: Transport.State): nat {
    Transport.SkippedCount(t.arrivals)
  }

  /** Polling one protocol hands nothing up only if it was empty or a duplicate was skipped. */
  lemma QuietPoll(t: Transport.State, p: Protocol)
    requires forall addr :: addr in t.connected <==> Transport.ReachedBefore(t.arrivals, addr)
    ensures var (r, handed) := if p.Tcp? then Transport.PollTcp(t) else Transport.PollUtp(t);
      && (forall addr :: addr in r.connected <==> Transport.ReachedBefore(r.arrivals, addr))
      && Skips(t) <= Skips(r)
      && (handed.None? && Skips(r) == Skips(t) <==> LinkEmpty(Transport.LinkOf(t, p)))
  {
    var (l, answer) := Links.PollNext(Transport.LinkOf(t, p));
    if answer.Ready? {
      Transport.OnArrivalFollowsFate(Transport.WithLink(t, p, l), answer.item);
    }
  }

  lemma QuietTransportPoll(t: Transport.State)
    requires forall addr :: addr in t.connected <==> Transport.ReachedBefore(t.arrivals, addr)
    ensures var (r, answer) := Transport.PollNext(t);
      (answer.Pending? && Skips(r) == Skips(t)) <==> (LinkEmpty(t.tcp) && LinkEmpty(t.utp))
  {
    QuietPoll(t, Tcp);
    QuietPoll(Transport.PollTcp(t).0, Utp);
  }

  lemma QuietAfterDiscovery(s: State)
    requires forall addr :: addr in s.transport.connected <==> Transport.ReachedBefore(s.transport.arrivals, addr)
    ensures var (r, answer) := PollTransport(s);
      (answer.Pending? && r.logged == s.logged && Skips(r.transport) == Skips(s.transport))
      <==> (LinkEmpty(s.transport.tcp) && LinkEmpty(s.transport.utp))
  {
    QuietTransportPoll(s.transport);
    TransportWaits(s.transport);
  }

  lemma {:induction false} FindsExactly(s: State, now: Transport.AtOnce)
    ensures PollNext(s, now).0.discovery.found == s.discovery.found <==> Discovery.Front(s.discovery).Pending?
    ensures Discovery.Front(s.discovery).Pending? ==>
      PollNext(s, now) == PollTransport(Drain(s).(discovery := Discovery.PollNext(Drain(s).discovery).0))
  {
    DrainLeavesSources(s);
    DrainKeepsFront(s);
    var d := Drain(s);
    DiscoveryWaits(d.discovery);
    var (disc, found) := Discovery.PollNext(d.discovery);
    LaterStagesLeaveDiscovery(d.(discovery := disc), found, now);
  }

  lemma PendingFrom(s: State, now: Transport.AtOnce)
    requires forall addr :: addr in s.transport.connected <==> Transport.ReachedBefore(s.transport.arrivals, addr)
    ensures var (r, answer) := PollNext(s, now);
      answer.Pending? ==>
        (AllWaiting(s, r) <==>
          (r.discovery.found == s.discovery.found && r.logged == s.logged && Skips(r.transport) == Skips(s.transport)))
  {
    WaitsExactlyWhenNothingOnHand(s, now);
    FindsExactly(s, now);
    Dht.NothingAhead(s.discovery.dht);
    if Discovery.Front(s.discovery).Pending? {
      DrainLeavesSources(s);
      QuietAfterDiscovery(Drain(s).(discovery := Discovery.PollNext(Drain(s).discovery).0));
    }
  }

  /** The same seen from what the poll did, in any reachable state: among polls that answer Pending,
      those with every source waiting are those that found nothing, logged no transport error and
      skipped no duplicate. */
  lemma PendingIsHonestExactly(port: u16, h: Log<Step>, now: Transport.AtOnce)
    ensures var s := Run(port, h);
      var (r, answer) := PollNext(s, now);
      answer.Pending? ==>
        (AllWaiting(s, r) <==>
          (r.discovery.found == s.discovery.found && r.logged == s.logged && Skips(r.transport) == Skips(s.transport)))
  {
    RunKeepsInv(port, h);
    PendingFrom(Run(port, h), now);
  }

  // ---- Which polls answer Pending ----

  /** What a protocol's next poll takes, if anything: the first accepted stream, else the first ended
      connect. */
  function Front(l: Links.State): Option<Links.Arrival> {
    if l.incoming != [] then Some(Links.Accepted(l.protocol, l.incoming[0]))
    else if l.completed != [] then Some(Links.Dialed(l.protocol, l.completed[0].dialed, l.completed[0].outcome))
    else None
  }

  predicate FrontFails(l: Links.State) {
    Front(l).Some? && Front(l).value.outcome.Err?
  }

  /** Nothing is there, or a connect of ours to an address already connected. */
  predicate FrontPasses(connected: set<SocketAddr>, l: Links.State) {
    Front(l).Some? ==>
      var a := Front(l).value;
      a.Dialed? && a.outcome.Ok? && a.outcome.value.peer in connected
  }

  /** The DHT has no peer to give, and what mDNS heard first carries an invalid topic. */
  predicate DiscoveryFails(d: Discovery.State) {
    Dht.AddrsAhead(d.dht) == [] && d.mdns.sightings != [] && |d.mdns.sightings[0].topic| != TOPIC_LENGTH
  }

  /** TCP's front fails, or is passed over and then so does or is uTP's. */
  predicate TransportWillPend(t: Transport.State) {
    FrontFails(t.tcp) ||
    (FrontPasses(t.connected, t.tcp) && (FrontFails(t.utp) || FrontPasses(t.connected, t.utp)))
  }

  /** Discovery's front is no failure, and then the transports, with the peer it names dialed and what
      ends at once already there, will pend. */
  predicate WillPend(s: State, now: Transport.AtOnce) {
    && !DiscoveryFails(s.discovery)
    && TransportWillPend(AfterDialing(s.transport, Discovery.Front(s.discovery), now))
  }

  lemma TransportPends(t: Transport.State)
    ensures var answer := Transport.PollNext(t).1;
      (answer.Pending? || answer.item.Err?) <==> TransportWillPend(t)
  {}

  lemma {:induction false} PendsAfterDiscovery(s: State, found: Poll<Result<PeerInfo>>, now: Transport.AtOnce)
    ensures AfterDiscovery(s, found, now).1.Pending? <==>
      !(found.Ready? && found.item.Err?) && TransportWillPend(AfterDialing(s.transport, found, now))
  {
    TransportPends(AfterDialing(s.transport, found, now));
  }

  /** A poll answers Pending if and only if, as it began, the fronts of the sources and the connects it
      was to start said so; and it does with some source not waiting if and only if, besides, something
      was on hand. */
  lemma {:induction false} PendsExactly(s: State, now: Transport.AtOnce)
    ensures var (r, answer) := PollNext(s, now);
      && (answer.Pending? <==> WillPend(s, now))
      && (answer.Pending? && !AllWaiting(s, r) <==> WillPend(s, now) && !NothingOnHand(s))
  {
    DrainLeavesSources(s);
    DrainKeepsFront(s);
    Dht.NothingAhead(s.discovery.dht);
    var d := Drain(s);
    var (disc, found) := Discovery.PollNext(d.discovery);
    PendsAfterDiscovery(d.(discovery := disc), found, now);
    WaitsExactlyWhenNothingOnHand(s, now);
  }

  /** A run whose next poll answers Pending while the DHT, not polled to Pending, holds a further peer. */
  lemma PendingWithPeerReady(port: u16, topic: Topic, first: SocketAddr, second: SocketAddr)
    ensures var later := Dht.LookupResult(topic, [second]);
      var h := Then(Then(LookedUp(topic), DhtEvent(Dht.LookupResult(topic, [first]))), DhtEvent(later));
      var s := Run(port, h);
      var (r, answer) := PollNext(s, Transport.LATER);
      && answer.Pending?
      && r.discovery.dht.ready == [later]
      && !NewlyEndsWith(s.discovery.dht.trace, r.discovery.dht.trace, Dht.Wait)
  {
    var result, later := Dht.LookupResult(topic, [first]), Dht.LookupResult(topic, [second]);
    LookedUpIsIdle(port, topic);
    LastSteps(Init(port), LookedUp(topic), DhtEvent(result), DhtEvent(later));
    var s := Run(port, Then(Then(LookedUp(topic), DhtEvent(result)), DhtEvent(later)));
    var dht := s.discovery.dht;
    assert dht.ready == [result, later] && dht.pendingEvents == [];
    var taken := Dht.TakeEvent(Dht.Flush(dht));
    assert taken.ready == [later];
    assert taken.pendingEvents == [] + Dht.PeersOf(result) == [PeerInfo(first, Some(topic), ViaDht)];
    assert Dht.PollNext(dht) == Dht.PollNext(taken) == (Dht.EmitFirst(taken), Ready(taken.pendingEvents[0]));
    assert Drain(s) == s;
    TransportWaits(Transport.Connect(s.transport, first, Transport.LATER));
  }

  /** A run whose next poll dials over TCP, has that connect fail at once, and so answers Pending with an
      accepted uTP stream ready that no one has looked at. */
  lemma PendingWithStreamReady(port: u16, topic: Topic, addr: SocketAddr, ready: Stream, e: IoError)
    ensures var h := Then(Then(LookedUp(topic), DhtEvent(Dht.LookupResult(topic, [addr]))), Accept(Utp, Ok(ready)));
      var s := Run(port, h);
      var (r, answer) := PollNext(s, Transport.AtOnce(Some(Err(e)), None));
      && answer.Pending?
      && r.transport.utp.incoming == [Ok(ready)] && r.transport.utp.trace == Then(s.transport.utp.trace, Links.Dial(addr))
      && PollNext(s, Transport.LATER).1 == Ready(Ok(Connection(ready, ready.peer, false, Utp)))
  {
    var result := Dht.LookupResult(topic, [addr]);
    LookedUpIsIdle(port, topic);
    LastSteps(Init(port), LookedUp(topic), DhtEvent(result), Accept(Utp, Ok(ready)));
    var s := Run(port, Then(Then(LookedUp(topic), DhtEvent(result)), Accept(Utp, Ok(ready))));
    var dht := s.discovery.dht;
    assert dht.ready == [] + [result] && [result][1..] == [];
    assert Dht.PeersOf(result) == [PeerInfo(addr, Some(topic), ViaDht)];
    assert Dht.PeersIn([result]) == Dht.PeersOf(result) + Dht.PeersIn([result][1..]) == Dht.PeersOf(result);
    assert Discovery.Front(s.discovery) == Ready(Ok(PeerInfo(addr, Some(topic), ViaDht)));
    DrainKeepsFront(s);
    assert Drain(s) == s;
    assert s.transport.utp.incoming == [] + [Ok(ready)];
  }

  // ---- Bounded progress ----

  /** How much is on hand. A peer or sighting weighs three, for it may be dialed over two protocols and
      both connects end at once. */
  function Work(s: State): nat {
    3 * ToFind(s.discovery) + LinkWork(s.transport.tcp) + LinkWork(s.transport.utp)
  }

  function ToFind(d: Discovery.State): nat { |Dht.AddrsAhead(d.dht)| + |d.mdns.sightings| }
  function LinkWork(l: Links.State): nat { |l.incoming| + |l.completed| }

  /** What a step brings in. */
  function Weight(x: Step): nat {
    match x
    case DhtEvent(e) => 3 * |Dht.RemotesOf(e)|
    case Heard(_) => 3
    case Accept(_, _) => 1
    case ConnectEnds(_, _, _) => 1
    case _ => 0
  }

  function TotalWeight(h: Log<Step>): nat {
    match h case Start => 0 case Then(past, x) => TotalWeight(past) + Weight(x)
  }

  /** The polls of a run that began with something on hand. */
  function BusyPolls(s: State, h: Log<Step>): nat {
    match h
    case Start => 0
    case Then(past, x) => BusyPolls(s, past) + (if x.Poll? && !NothingOnHand(RunFrom(s, past)) then 1 else 0)
  }

  lemma TransportPollWorks(t: Transport.State)
    ensures var r := Transport.PollNext(t).0;
      && LinkWork(r.tcp) == LinkWork(t.tcp) - (if LinkEmpty(t.tcp) then 0 else 1)
      && LinkWork(r.utp) <= LinkWork(t.utp)
      && (LinkEmpty(t.tcp) && !LinkEmpty(t.utp) ==> LinkWork(r.utp) < LinkWork(t.utp))
  {}

  lemma DiscoveryPollWorks(d: Discovery.State)
    ensures var (r, answer) := Discovery.PollNext(d);
      ToFind(r) == (if answer.Ready? then ToFind(d) - 1 else 0) && (answer.Pending? ==> ToFind(d) == 0)
  {
    Dht.PollNextTakesFirst(d.dht);
    var (dht, fromDht) := Dht.PollNext(d.dht);
    if fromDht.Ready? {
      assert |Dht.AddrsAhead(d.dht)| == 1 + |Dht.AddrsAhead(dht)|;
    } else {
      assert Dht.AddrsAhead(dht) == [] && Dht.AddrsAhead(d.dht) == [];
    }
    assert Discovery.DiscardOne(d.mdns).sightings == d.mdns.sightings;
  }

  lemma AfterDiscoveryWorks(s: State, found: Poll<Result<PeerInfo>>, now: Transport.AtOnce)
    ensures var t, r := s.transport, AfterDiscovery(s, found, now).0.transport;
      LinkWork(r.tcp) + LinkWork(r.utp) <= LinkWork(t.tcp) + LinkWork(t.utp) +
        (if found.Ready? then 2 else if LinkEmpty(t.tcp) && LinkEmpty(t.utp) then 0 else -1)
  {
    var t, dialed := s.transport, AfterDialing(s.transport, found, now);
    TransportPollWorks(dialed);
    if found.Ready? && found.item.Ok? {
      assert LinkWork(dialed.tcp) <= LinkWork(t.tcp) + 1 && LinkWork(dialed.utp) <= LinkWork(t.utp) + 1;
    }
  }

  /** A poll that began with something on hand leaves less of it, whatever its new connects do at once. */
  lemma PollLessensWork(s: State, now: Transport.AtOnce)
    ensures Work(PollNext(s, now).0) <= Work(s) - (if NothingOnHand(s) then 0 else 1)
  {
    DrainLeavesSources(s);
    var d := Drain(s);
    DiscoveryPollWorks(d.discovery);
    var (disc, found) := Discovery.PollNext(d.discovery);
    var e := d.(discovery := disc);
    LaterStagesLeaveDiscovery(e, found, now);
    AfterDiscoveryWorks(e, found, now);
    assert ToFind(d.discovery) == ToFind(s.discovery);
    assert NothingOnHand(s) <==> ToFind(s.discovery) == 0 && LinkEmpty(s.transport.tcp) && LinkEmpty(s.transport.utp);
  }

  lemma AheadGrows(d: Dht.State, e: Dht.HyperDhtEvent)
    ensures |Dht.AddrsAhead(d.(ready := d.ready + [e]))| == |Dht.AddrsAhead(d)| + |Dht.RemotesOf(e)|
  {
    GatherSnoc(Dht.RemotesOf, d.ready, e);
  }

  lemma StepWeighs(s: State, x: Step)
    ensures Work(Apply(s, x)) + (if x.Poll? && !NothingOnHand(s) then 1 else 0) <= Work(s) + Weight(x)
  {
    match x
    case Poll(now) => PollLessensWork(s, now);
    case DhtEvent(e) => AheadGrows(s.discovery.dht, e);
    case _ =>
  }

  /** From any state, over any steps: the polls that begin with something on hand are at most as many as
      what was there and what came in weigh, less what is left. */
  lemma {:induction false} BusyPollsBounded(s: State, h: Log<Step>)
    ensures Work(RunFrom(s, h)) + BusyPolls(s, h) <= Work(s) + TotalWeight(h)
  {
    if h.Then? {
      BusyPollsBounded(s, h.before);
      StepWeighs(RunFrom(s, h.before), h.last);
    }
  }

  /** If nothing more comes in, that many polls leave nothing on hand; configures may go on. */
  lemma {:induction false} SettlesInTime(s: State, h: Log<Step>)
    requires TotalWeight(h) == 0
    ensures NothingOnHand(RunFrom(s, h)) || Work(RunFrom(s, h)) + Polls(h) <= Work(s)
    ensures Polls(h) >= Work(s) ==> NothingOnHand(RunFrom(s, h))
  {
    if h.Then? {
      SettlesInTime(s, h.before);
      StepWeighs(RunFrom(s, h.before), h.last);
    }
  }

  /** Then the next poll answers Pending with every source waiting. */
  lemma {:induction false} QuietInTime(s: State, h: Log<Step>, now: Transport.AtOnce)
    requires TotalWeight(h) == 0 && Polls(h) >= Work(s)
    ensures var (r, answer) := PollNext(RunFrom(s, h), now);
      answer.Pending? && AllWaiting(RunFrom(s, h), r)
  {
    SettlesInTime(s, h);
    WaitsExactlyWhenNothingOnHand(RunFrom(s, h), now);
  }
}
