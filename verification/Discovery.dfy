/** Discovery over mDNS and the DHT: commands fan out to both, results merge with the DHT first. */
module Discovery {
  import opened Basics
  import Dht

  // ---- mDNS, one atomic source ----

  /** What the mDNS locator hears; the topic bytes come unchecked from the network. */
  datatype Sighting = Sighting(topic: seq<byte>, addr: SocketAddr)

  datatype MdnsAction = Discard(command: Dht.TopicCommand) | Take(sighting: Sighting) | MdnsWait

  datatype Mdns = Mdns(commands: seq<Dht.TopicCommand>, sightings: seq<Sighting>, trace: Log<MdnsAction>)

  function ToPeer(g: Sighting): Result<PeerInfo> {
    if |g.topic| == TOPIC_LENGTH then Ok(PeerInfo(g.addr, Some(g.topic), ViaMdns))
    else Err(IoError("Received invalid topic"))
  }

  /** At most one queued command is received, and thrown away, per poll. */
  function DiscardOne(m: Mdns): Mdns {
    if m.commands == [] then m
    else m.(commands := m.commands[1..], trace := Then(m.trace, Discard(m.commands[0])))
  }

  function PollMdns(m: Mdns): (Mdns, Poll<Result<PeerInfo>>) {
    var d := DiscardOne(m);
    if d.sightings == [] then (d.(trace := Then(d.trace, MdnsWait)), Pending)
    else (d.(sightings := d.sightings[1..], trace := Then(d.trace, Take(d.sightings[0]))),
          Ready(ToPeer(d.sightings[0])))
  }

  function DiscardOf(a: MdnsAction): seq<Dht.TopicCommand> { if a.Discard? then [a.command] else [] }
  function TakeOf(a: MdnsAction): seq<Result<PeerInfo>> { if a.Take? then [ToPeer(a.sighting)] else [] }
  function SightingOf(a: MdnsAction): seq<Sighting> { if a.Take? then [a.sighting] else [] }

  /** Every command ever sent to mDNS: those thrown away, then those still queued. */
  function Received(m: Mdns): seq<Dht.TopicCommand> { Collect(DiscardOf, m.trace) + m.commands }
  function Heard(m: Mdns): seq<Result<PeerInfo>> { Collect(TakeOf, m.trace) }
  function Taken(m: Mdns): seq<Sighting> { Collect(SightingOf, m.trace) }

  lemma DiscardOneAccounts(m: Mdns)
    ensures var d := DiscardOne(m);
      Received(d) == Received(m) && Heard(d) == Heard(m) && Taken(d) == Taken(m) && Length(m.trace) <= Length(d.trace)
  {
    if m.commands != [] {
      assert m.commands == [m.commands[0]] + m.commands[1..];
    }
  }

  lemma TakeSightingAccounts(d: Mdns)
    requires d.sightings != []
    ensures var g := d.sightings[0];
      var r := d.(sightings := d.sightings[1..], trace := Then(d.trace, Take(g)));
      && Received(r) == Received(d) && Heard(r) == Heard(d) + [ToPeer(g)]
      && Taken(r) + r.sightings == Taken(d) + d.sightings
  {
    HeadTail(d.sightings);
    ConcatAssoc(Taken(d), [d.sightings[0]], d.sightings[1..]);
  }

  /** A sighting with a 32-byte topic is a peer at its address with that topic; any other is an error. */
  predicate Reads(r: Result<PeerInfo>, g: Sighting) {
    match r
    case Ok(p) => |g.topic| == 32 && p.addr == g.addr && p.topic == Some(g.topic) && p.discoveryMethod == ViaMdns
    case Err(e) => |g.topic| != 32 && e == IoError("Received invalid topic")
  }

  /** One poll of mDNS takes the first sighting and the first command, if any, and loses nothing. */
  lemma PollMdnsAccounts(m: Mdns)
    ensures var (r, answer) := PollMdns(m);
      && Received(r) == Received(m)
      && Heard(r) == Heard(m) + (if answer.Ready? then [answer.item] else [])
      && Taken(r) + r.sightings == Taken(m) + m.sightings
      && Length(m.trace) < Length(r.trace)
      && (answer.Pending? <==> m.sightings == [])
      && (answer.Pending? <==> r.trace.last == MdnsWait)
      && (answer.Ready? ==> Reads(answer.item, m.sightings[0]))
      && r.commands == (if m.commands == [] then [] else m.commands[1..])
  {
    DiscardOneAccounts(m);
    if m.sightings != [] {
      TakeSightingAccounts(DiscardOne(m));
    }
  }

  // ---- The two sources combined ----

  /** `found` is the history of everything discovery answered. */
  datatype State = State(dht: Dht.State, mdns: Mdns, found: Log<Result<PeerInfo>>)

  function Init(port: u16): State {
    State(Dht.Init(port), Mdns([], [], Start), Start)
  }

  function Send(s: State, c: Dht.TopicCommand): State {
    s.(mdns := s.mdns.(commands := s.mdns.commands + [c]),
       dht := Dht.Enqueue(s.dht, Dht.OnDht(s.dht.announcePort, c)))
  }

  function PollNext(s: State): (State, Poll<Result<PeerInfo>>) {
    var (d, fromDht) := Dht.PollNext(s.dht);
    if fromDht.Ready? then
      (s.(dht := d, found := Then(s.found, Ok(fromDht.item))), Ready(Ok(fromDht.item)))
    else
      var (m, fromMdns) := PollMdns(s.mdns);
      if fromMdns.Ready? then
        (State(d, m, Then(s.found, fromMdns.item)), Ready(fromMdns.item))
      else
        (State(d, m, s.found), Pending)
  }

  // ---- The environment ----

  function OfferEvent(s: State, e: Dht.HyperDhtEvent): State {
    s.(dht := s.dht.(ready := s.dht.ready + [e]))
  }

  function OfferSighting(s: State, g: Sighting): State {
    s.(mdns := s.mdns.(sightings := s.mdns.sightings + [g]))
  }

  // ---- Invariant and accounts ----

  function DhtPeerOf(r: Result<PeerInfo>): seq<PeerInfo> {
    if r.Ok? && r.value.discoveryMethod == ViaDht then [r.value] else []
  }
  function MdnsResultOf(r: Result<PeerInfo>): seq<Result<PeerInfo>> {
    if r.Ok? && r.value.discoveryMethod == ViaDht then [] else [r]
  }
  function AddrOf(r: Result<PeerInfo>): seq<SocketAddr> { if r.Ok? then [r.value.addr] else [] }
  function ErrorOf(r: Result<PeerInfo>): seq<IoError> { if r.Err? then [r.error] else [] }

  /** Both sources were asked for the same commands, and `found` is an order-preserving merge of
      what each of them gave. */
  predicate Inv(s: State) {
    && Dht.Inv(s.dht)
    && Dht.Asked(s.dht.trace) == Received(s.mdns)
    && Collect(DhtPeerOf, s.found) == Dht.Emitted(s.dht.trace)
    && Collect(MdnsResultOf, s.found) == Heard(s.mdns)
  }

  /** What was taken from each source followed by what it still holds. */
  datatype Account = Account(events: seq<Dht.HyperDhtEvent>, sightings: seq<Sighting>)

  function AccountOf(s: State): Account {
    Account(Dht.Consumed(s.dht.trace) + s.dht.ready, Taken(s.mdns) + s.mdns.sightings)
  }

  lemma SendKeepsInv(s: State, c: Dht.TopicCommand)
    requires Inv(s)
    ensures var r := Send(s, c);
      && Inv(r) && Received(r.mdns) == Received(s.mdns) + [c]
      && AccountOf(r) == AccountOf(s) && r.found == s.found
      && r.dht.announcePort == s.dht.announcePort
  {
    Dht.EnqueueKeepsInv(s.dht, c);
    assert Received(Send(s, c).mdns) == Received(s.mdns) + [c];
  }

  lemma OffersKeepInv(s: State, e: Dht.HyperDhtEvent, g: Sighting)
    requires Inv(s)
    ensures Inv(OfferEvent(s, e)) && Inv(OfferSighting(s, g))
    ensures AccountOf(OfferEvent(s, e)) == AccountOf(s).(events := AccountOf(s).events + [e])
    ensures AccountOf(OfferSighting(s, g)) == AccountOf(s).(sightings := AccountOf(s).sightings + [g])
  {}

  /** A poll keeps the merge in order, sends no command and loses nothing a source held. */
  lemma PollNextKeepsInv(s: State)
    requires Inv(s)
    ensures var (r, answer) := PollNext(s);
      && Inv(r)
      && Received(r.mdns) == Received(s.mdns)
      && AccountOf(r) == AccountOf(s)
      && r.found == (if answer.Ready? then Then(s.found, answer.item) else s.found)
      && r.dht.announcePort == s.dht.announcePort
  {
    Dht.PollNextKeepsInv(s.dht);
    PollMdnsAccounts(s.mdns);
    var (r, answer) := PollNext(s);
    assert r.found == (if answer.Ready? then Then(s.found, answer.item) else s.found);
  }

  /** The DHT's next peer if it has one, buffered or about to be reported; else what mDNS heard first. */
  function Front(s: State): Poll<Result<PeerInfo>> {
    if Dht.Upcoming(s.dht) != [] then Ready(Ok(Dht.Upcoming(s.dht)[0]))
    else if s.mdns.sightings != [] then Ready(ToPeer(s.mdns.sightings[0]))
    else Pending
  }

  lemma AnswersInPriorityOrder(s: State)
    ensures PollNext(s).1 == Front(s)
  {
    Dht.PollNextAnswer(s.dht);
    assert DiscardOne(s.mdns).sightings == s.mdns.sightings;
    var (_, fromDht) := Dht.PollNext(s.dht);
    if fromDht.Pending? {
      assert PollNext(s).1 == PollMdns(s.mdns).1;
    }
  }

  class MdnsDiscovery {
    var commands: seq<Dht.TopicCommand>
    /** What the locator answers before its next Pending. */
    var sightings: seq<Sighting>
    ghost var trace: Log<MdnsAction>

    ghost function View(): Mdns
      reads this
    {
      Mdns(commands, sightings, trace)
    }

    constructor ()
      ensures View() == Mdns([], [], Start)
    {
      commands, sightings, trace := [], [], Start;
    }

    method Send(c: Dht.TopicCommand)
      modifies this
      ensures View() == old(View()).(commands := old(commands) + [c])
    {
      commands := commands + [c];
    }

    method Poll() returns (answer: Poll<Result<PeerInfo>>)
      modifies this
      ensures (View(), answer) == PollMdns(old(View()))
      ensures answer.Pending? <==> old(sightings) == []
      ensures answer.Ready? ==> Reads(answer.item, old(sightings)[0]) && sightings == old(sightings)[1..]
    {
      if commands != [] {
        trace := Then(trace, Discard(commands[0]));
        commands := commands[1..];
      }
      if sightings == [] {
        trace := Then(trace, MdnsWait);
        return Pending;
      }
      var sighting := sightings[0];
      sightings := sightings[1..];
      trace := Then(trace, Take(sighting));
      if |sighting.topic| == TOPIC_LENGTH {
        answer := Ready(Ok(PeerInfo(sighting.addr, Some(sighting.topic), ViaMdns)));
      } else {
        answer := Ready(Err(IoError("Received invalid topic")));
      }
    }
  }

  class CombinedDiscovery {
    const dht: Dht.DhtDiscovery
    const mdns: MdnsDiscovery
    ghost var found: Log<Result<PeerInfo>>

    ghost const Repr: set<object> := {this, dht, mdns}

    ghost function View(): State
      reads Repr
    {
      State(dht.View(), mdns.View(), found)
    }

    constructor (port: u16)
      ensures fresh(Repr) && View() == Init(port)
    {
      mdns := new MdnsDiscovery();
      dht := new Dht.DhtDiscovery(port);
      found := Start;
    }

    method Lookup(topic: Topic)
      modifies Repr
      ensures View() == Send(old(View()), Dht.LookupTopic(topic))
    {
      mdns.Send(Dht.LookupTopic(topic));
      dht.LookUp(topic);
    }

    method Announce(topic: Topic)
      modifies Repr
      ensures View() == Send(old(View()), Dht.AnnounceTopic(topic))
    {
      mdns.Send(Dht.AnnounceTopic(topic));
      dht.AnnounceOn(topic);
    }

    method Poll() returns (answer: Poll<Result<PeerInfo>>)
      modifies Repr
      ensures (View(), answer) == PollNext(old(View()))
    {
      var fromDht := dht.Poll();
      if fromDht.Ready? {
        found := Then(found, Ok(fromDht.item));
        return Ready(Ok(fromDht.item));
      }
      var fromMdns := mdns.Poll();
      if fromMdns.Ready? {
        found := Then(found, fromMdns.item);
        return fromMdns;
      }
      return Pending;
    }
  }
}
