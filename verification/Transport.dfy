/** Both protocols' transports as one stream of connections: every address is dialed over both, and
    a second connection this side opened to the same address is dropped. */
module Transport {
  import opened Basics
  import Links

  /** `arrivals` is the history of what the two protocols answered, in the order it was handled. */
  datatype State = State(tcp: Links.State, utp: Links.State, connected: set<SocketAddr>, arrivals: Log<Links.Arrival>)

  function Init(): State {
    State(Links.Init(Tcp), Links.Init(Utp), {}, Start)
  }

  /** What the two connects to an address end with, if they end the first time they are polled. */
  datatype AtOnce = AtOnce(tcp: Option<Result<Stream>>, utp: Option<Result<Stream>>)

  const LATER := AtOnce(None, None)

  function Connect(s: State, addr: SocketAddr, now: AtOnce): State {
    s.(tcp := Links.Connect(s.tcp, addr, now.tcp), utp := Links.Connect(s.utp, addr, now.utp))
  }

  function OnArrival(s: State, a: Links.Arrival): (State, Option<Result<Connection>>) {
    var t := s.(arrivals := Then(s.arrivals, a));
    match Links.IntoConnection(a)
    case Err(e) => (t, Some(Err(e)))
    case Ok(conn) =>
      if !conn.isInitiator then (t, Some(Ok(conn)))
      else if conn.peerAddr !in s.connected then
        (t.(connected := s.connected + {conn.peerAddr}), Some(Ok(conn)))
      else (t, None)
  }

  function OnPoll(s: State, p: Poll<Links.Arrival>): (State, Option<Result<Connection>>) {
    if p.Pending? then (s, None) else OnArrival(s, p.item)
  }

  function PollTcp(s: State): (State, Option<Result<Connection>>) {
    var (l, p) := Links.PollNext(s.tcp);
    OnPoll(s.(tcp := l), p)
  }

  function PollUtp(s: State): (State, Option<Result<Connection>>) {
    var (l, p) := Links.PollNext(s.utp);
    OnPoll(s.(utp := l), p)
  }

  function PollNext(s: State): (State, Poll<Result<Connection>>) {
    var (t, r) := PollTcp(s);
    if r.Some? then (t, Ready(r.value))
    else
      var (u, q) := PollUtp(t);
      if q.Some? then (u, Ready(q.value)) else (u, Pending)
  }

  // ---- The environment ----

  function LinkOf(s: State, p: Protocol): Links.State {
    match p case Tcp => s.tcp case Utp => s.utp
  }

  function WithLink(s: State, p: Protocol, l: Links.State): State {
    match p case Tcp => s.(tcp := l) case Utp => s.(utp := l)
  }

  function Accept(s: State, p: Protocol, outcome: Result<Stream>): State {
    WithLink(s, p, Links.Accept(LinkOf(s, p), outcome))
  }

  function ConnectEnds(s: State, p: Protocol, addr: SocketAddr, outcome: Result<Stream>): State {
    WithLink(s, p, Links.Resolve(LinkOf(s, p), addr, outcome))
  }

  // ---- Reference: the fate of an arrival, decided by the arrivals before it alone ----

  datatype Fate = Yielded | Skipped | Failed

  /** An earlier connect, over either protocol, ended in a stream to `addr`. */
  predicate ReachedBefore(past: Log<Links.Arrival>, addr: SocketAddr) {
    past.Then? &&
    (ReachedBefore(past.before, addr) ||
     (past.last.Dialed? && past.last.outcome.Ok? && past.last.outcome.value.peer == addr))
  }

  function FateOf(past: Log<Links.Arrival>, a: Links.Arrival): Fate {
    if a.outcome.Err? then Failed
    else if a.Dialed? && ReachedBefore(past, a.outcome.value.peer) then Skipped
    else Yielded
  }

  function Delivered(l: Log<Links.Arrival>): Log<Connection> {
    match l
    case Start => Start
    case Then(past, a) =>
      if FateOf(past, a).Yielded? then Then(Delivered(past), Links.IntoConnection(a).value)
      else Delivered(past)
  }

  function ErrorOf(a: Links.Arrival): seq<IoError> { if a.outcome.Err? then [a.outcome.error] else [] }

  function Failures(l: Log<Links.Arrival>): seq<IoError> { Collect(ErrorOf, l) }

  function SkippedCount(l: Log<Links.Arrival>): nat {
    match l case Start => 0 case Then(past, a) => SkippedCount(past) + (if FateOf(past, a).Skipped? then 1 else 0)
  }

  function Only(p: Protocol, l: Log<Links.Arrival>): Log<Links.Arrival> {
    match l
    case Start => Start
    case Then(past, a) => if a.protocol == p then Then(Only(p, past), a) else Only(p, past)
  }

  ghost predicate Inv(s: State) {
    && s.tcp.protocol == Tcp && s.utp.protocol == Utp
    && Links.Inv(s.tcp) && Links.Inv(s.utp)
    && Links.Started(s.tcp) == Links.Started(s.utp)
    && Only(Tcp, s.arrivals) == Links.Arrivals(s.tcp)
    && Only(Utp, s.arrivals) == Links.Arrivals(s.utp)
    && (forall addr :: addr in s.connected <==> ReachedBefore(s.arrivals, addr))
  }

  datatype Account = Account(tcp: Links.Account, utp: Links.Account)

  function AccountOf(s: State): Account {
    Account(Links.AccountOf(s.tcp), Links.AccountOf(s.utp))
  }

  function AddAccepted(a: Account, p: Protocol, outcome: Result<Stream>): Account {
    match p
    case Tcp => a.(tcp := a.tcp.(accepted := a.tcp.accepted + [outcome]))
    case Utp => a.(utp := a.utp.(accepted := a.utp.accepted + [outcome]))
  }

  /** Connects that ended, over TCP and over uTP. */
  datatype Ends = Ends(tcp: seq<Links.Completion>, utp: seq<Links.Completion>)

  const NO_ENDS := Ends([], [])

  function AddEnds(a: Account, e: Ends): Account {
    Account(Links.AddEnded(a.tcp, e.tcp), Links.AddEnded(a.utp, e.utp))
  }

  function EndsOn(p: Protocol, c: Links.Completion): Ends {
    match p case Tcp => Ends([c], []) case Utp => Ends([], [c])
  }

  function EndsAtOnce(addr: SocketAddr, now: AtOnce): Ends {
    Ends(Links.EndAtOnce(addr, now.tcp), Links.EndAtOnce(addr, now.utp))
  }

  lemma ConnectKeepsInv(s: State, addr: SocketAddr, now: AtOnce)
    requires Inv(s)
    ensures var r := Connect(s, addr, now);
      && Inv(r) && AccountOf(r) == AddEnds(AccountOf(s), EndsAtOnce(addr, now))
      && Links.Started(r.tcp) == Links.Started(s.tcp) + [addr]
      && r.arrivals == s.arrivals
  {
    Links.ConnectKeepsInv(s.tcp, addr, now.tcp);
    Links.ConnectKeepsInv(s.utp, addr, now.utp);
  }

  lemma AcceptKeepsInv(s: State, p: Protocol, outcome: Result<Stream>)
    requires Inv(s)
    ensures var r := Accept(s, p, outcome);
      && Inv(r) && r.arrivals == s.arrivals && Links.Started(r.tcp) == Links.Started(s.tcp)
      && AccountOf(r) == AddAccepted(AccountOf(s), p, outcome)
  {
    Links.AcceptKeepsInv(LinkOf(s, p), outcome);
  }

  lemma ConnectEndsKeepsInv(s: State, p: Protocol, addr: SocketAddr, outcome: Result<Stream>)
    requires Inv(s)
    ensures var r := ConnectEnds(s, p, addr, outcome);
      && Inv(r) && r.arrivals == s.arrivals && Links.Started(r.tcp) == Links.Started(s.tcp)
      && AccountOf(r) ==
           (if addr in LinkOf(s, p).connecting then AddEnds(AccountOf(s), EndsOn(p, Links.Completion(addr, outcome)))
            else AccountOf(s))
  {
    Links.ResolveKeepsInv(LinkOf(s, p), addr, outcome);
  }

  /** How the history moved from `past` to `now` while `r` was handed up. */
  predicate Handed(past: Log<Links.Arrival>, now: Log<Links.Arrival>, r: Option<Result<Connection>>) {
    && Delivered(now) == (if r.Some? && r.value.Ok? then Then(Delivered(past), r.value.value) else Delivered(past))
    && Failures(now) == (if r.Some? && r.value.Err? then Failures(past) + [r.value.error] else Failures(past))
  }

  lemma OnArrivalFollowsFate(s: State, a: Links.Arrival)
    requires forall addr :: addr in s.connected <==> ReachedBefore(s.arrivals, addr)
    ensures var (r, h) := OnArrival(s, a);
      && (forall addr :: addr in r.connected <==> ReachedBefore(r.arrivals, addr))
      && r.arrivals == Then(s.arrivals, a)
      && Handed(s.arrivals, r.arrivals, h)
      && (h.None? <==> FateOf(s.arrivals, a).Skipped?)
  {}

  lemma PollOneKeepsInv(s: State, p: Protocol)
    requires Inv(s)
    ensures var (r, h) := if p.Tcp? then PollTcp(s) else PollUtp(s);
      && Inv(r)
      && Handed(s.arrivals, r.arrivals, h)
      && Links.Started(r.tcp) == Links.Started(s.tcp)
      && AccountOf(r) == AccountOf(s)
  {
    var link := LinkOf(s, p);
    Links.PollNextKeepsInv(link);
    var (l, answer) := Links.PollNext(link);
    if answer.Ready? {
      OnArrivalFollowsFate(if p.Tcp? then s.(tcp := l) else s.(utp := l), answer.item);
    }
  }

  /** A poll keeps the invariant, and what it hands up is what the reference delivers or fails. */
  lemma PollNextKeepsInv(s: State)
    requires Inv(s)
    ensures var (r, answer) := PollNext(s);
      && Inv(r)
      && Handed(s.arrivals, r.arrivals, if answer.Ready? then Some(answer.item) else None)
      && Links.Started(r.tcp) == Links.Started(s.tcp)
      && AccountOf(r) == AccountOf(s)
  {
    PollOneKeepsInv(s, Tcp);
    PollOneKeepsInv(PollTcp(s).0, Utp);
  }

  /** A connection this side opened is handed up only when nothing accepted waits at its protocol, and
      one over uTP only when TCP had nothing but, at most, a duplicate to drop. */
  lemma PriorityOrder(s: State)
    requires s.tcp.protocol == Tcp && s.utp.protocol == Utp
    requires PollNext(s).1.Ready? && PollNext(s).1.item.Ok?
    ensures var conn := PollNext(s).1.item.value;
      && (conn.isInitiator ==> LinkOf(s, conn.protocol).incoming == [])
      && (conn.protocol.Utp? ==>
            && s.tcp.incoming == []
            && (s.tcp.completed == [] ||
                (s.tcp.completed[0].outcome.Ok? && s.tcp.completed[0].outcome.value.peer in s.connected)))
  {}

  // ---- What the reference guarantees ----

  predicate HasInitiatorTo(l: Log<Connection>, addr: SocketAddr) {
    l.Then? && (HasInitiatorTo(l.before, addr) || (l.last.isInitiator && l.last.peerAddr == addr))
  }

  /** No address occurs on two connections this side opened. */
  predicate OneInitiatorEach(l: Log<Connection>) {
    l.Then? ==>
      && OneInitiatorEach(l.before)
      && (l.last.isInitiator ==> !HasInitiatorTo(l.before, l.last.peerAddr))
  }

  lemma {:induction false} ReachedIffDelivered(l: Log<Links.Arrival>, addr: SocketAddr)
    ensures ReachedBefore(l, addr) <==> HasInitiatorTo(Delivered(l), addr)
  {
    if l.Then? {
      ReachedIffDelivered(l.before, addr);
    }
  }

  /** However the two protocols interleave, an address is delivered at most once as initiator. */
  lemma {:induction false} DeliveredOnce(l: Log<Links.Arrival>)
    ensures OneInitiatorEach(Delivered(l))
  {
    if l.Then? {
      DeliveredOnce(l.before);
      if l.last.outcome.Ok? {
        ReachedIffDelivered(l.before, l.last.outcome.value.peer);
      }
    }
  }

  /** Connects to `addr` over `p` that ended with the given fate. */
  function FateCount(l: Log<Links.Arrival>, p: Protocol, addr: SocketAddr, f: Fate): nat {
    match l
    case Start => 0
    case Then(past, a) =>
      FateCount(past, p, addr, f) +
      (if a.protocol == p && Links.Ends(a, addr) && FateOf(past, a) == f then 1 else 0)
  }

  /** How many of the ended connects in `cs` went to `addr` and succeeded, or failed. */
  function CountEnds(cs: seq<Links.Completion>, addr: SocketAddr, succeeded: bool): nat {
    if cs == [] then 0
    else
      var c := cs[|cs| - 1];
      CountEnds(cs[..|cs| - 1], addr, succeeded) + (if c.dialed == addr && c.outcome.Ok? == succeeded then 1 else 0)
  }

  lemma CountEndsSnoc(cs: seq<Links.Completion>, c: Links.Completion, addr: SocketAddr, succeeded: bool)
    ensures CountEnds(cs + [c], addr, succeeded) ==
      CountEnds(cs, addr, succeeded) + (if c.dialed == addr && c.outcome.Ok? == succeeded then 1 else 0)
  {
    assert (cs + [c])[..|cs|] == cs;
  }

  /** Connects to `addr` over `p` that were taken with a stream and so yielded or skipped, or failed. */
  function Fated(l: Log<Links.Arrival>, p: Protocol, addr: SocketAddr, succeeded: bool): nat {
    if succeeded then FateCount(l, p, addr, Yielded) + FateCount(l, p, addr, Skipped)
    else FateCount(l, p, addr, Failed)
  }

  lemma {:induction false} FatesPartition(l: Log<Links.Arrival>, p: Protocol, addr: SocketAddr)
    ensures Links.EndedTo(Only(p, l), addr) == Fated(l, p, addr, true) + Fated(l, p, addr, false)
  {
    if l.Then? {
      FatesPartition(l.before, p, addr);
    }
  }

  lemma FatedGrows(past: Log<Links.Arrival>, a: Links.Arrival, p: Protocol, addr: SocketAddr, succeeded: bool)
    ensures Fated(Then(past, a), p, addr, succeeded) == Fated(past, p, addr, succeeded) +
      (if a.protocol == p && Links.Ends(a, addr) && a.outcome.Ok? == succeeded then 1 else 0)
  {}

  /** Fates follow outcomes: the connects that ended in an error failed, and those that ended in a
      stream were yielded or skipped. */
  lemma {:induction false} FatesFollowOutcomes(l: Log<Links.Arrival>, p: Protocol, addr: SocketAddr, succeeded: bool)
    ensures CountEnds(Collect(Links.CompletionOf, Only(p, l)), addr, succeeded) == Fated(l, p, addr, succeeded)
  {
    if l.Then? {
      var past, a := l.before, l.last;
      FatesFollowOutcomes(past, p, addr, succeeded);
      FatedGrows(past, a, p, addr, succeeded);
      if a.protocol == p && a.Dialed? {
        CountEndsSnoc(Collect(Links.CompletionOf, Only(p, past)), Links.Completion(a.dialed, a.outcome), addr, succeeded);
      }
    }
  }

  /** Every connect started to `addr` over `p` is running, ended but untaken, or taken; those taken
      with a stream were yielded or skipped, those taken with an error failed. */
  lemma AttemptsConserved(s: State, p: Protocol, addr: SocketAddr)
    requires Inv(s)
    ensures var link := LinkOf(s, p);
      var taken := Links.EndedSoFar(link);
      && Links.StartedTo(link.trace, addr) ==
           link.connecting[addr] + Links.CompletedTo(link.completed, addr) +
           FateCount(s.arrivals, p, addr, Yielded) + FateCount(s.arrivals, p, addr, Skipped) +
           FateCount(s.arrivals, p, addr, Failed)
      && CountEnds(taken, addr, true)
           == FateCount(s.arrivals, p, addr, Yielded) + FateCount(s.arrivals, p, addr, Skipped)
      && CountEnds(taken, addr, false) == FateCount(s.arrivals, p, addr, Failed)
  {
    assert Links.Balanced(LinkOf(s, p), addr);
    FatesPartition(s.arrivals, p, addr);
    FatesFollowOutcomes(s.arrivals, p, addr, true);
    FatesFollowOutcomes(s.arrivals, p, addr, false);
  }

  function IncomingOf(p: Protocol): Connection -> seq<Stream> {
    (c: Connection) => if !c.isInitiator && c.protocol == p then [c.stream] else []
  }

  function OpenedStreams(rs: seq<Result<Stream>>): seq<Stream> {
    if rs == [] then []
    else OpenedStreams(rs[..|rs| - 1]) + (if rs[|rs| - 1].Ok? then [rs[|rs| - 1].value] else [])
  }

  lemma OpenedSnoc(rs: seq<Result<Stream>>, r: Result<Stream>)
    ensures OpenedStreams(rs + [r]) == OpenedStreams(rs) + (if r.Ok? then [r.value] else [])
  {
    assert (rs + [r])[..|rs|] == rs;
  }

  /** The incoming connections delivered over `p` are exactly the streams it accepted, in order. */
  lemma {:induction false} IncomingInOrder(l: Log<Links.Arrival>, p: Protocol)
    ensures Collect(IncomingOf(p), Delivered(l)) == OpenedStreams(Collect(Links.AcceptedOf, Only(p, l)))
  {
    if l.Then? {
      IncomingInOrder(l.before, p);
      OpenedSnoc(Collect(Links.AcceptedOf, Only(p, l.before)), l.last.outcome);
    }
  }

  /** One ended connect of a protocol, and whether it came too late: a connection this side opened to
      the address its stream leads to had been delivered before, over either protocol. */
  datatype Ending = Ending(completion: Links.Completion, late: bool)

  function Endings(l: Log<Links.Arrival>, p: Protocol): Log<Ending> {
    match l
    case Start => Start
    case Then(past, a) =>
      if a.Dialed? && a.protocol == p then
        Then(Endings(past, p),
             Ending(Links.Completion(a.dialed, a.outcome),
                    a.outcome.Ok? && HasInitiatorTo(Delivered(past), a.outcome.value.peer)))
      else Endings(past, p)
  }

  function EndedOf(e: Ending): seq<Links.Completion> { [e.completion] }

  /** The stream of a connect that succeeded and did not come too late. */
  function InTimeOf(e: Ending): seq<Stream> {
    if e.completion.outcome.Ok? && !e.late then [e.completion.outcome.value] else []
  }

  function OpenedOf(p: Protocol): Connection -> seq<Stream> {
    (c: Connection) => if c.isInitiator && c.protocol == p then [c.stream] else []
  }

  /** The connections this side opened and delivered over `p` carry exactly the streams of the connects
      that ended over `p`, in the order they ended, less the errors and the late ones. */
  lemma {:induction false} OpenedInOrder(l: Log<Links.Arrival>, p: Protocol)
    ensures Collect(OpenedOf(p), Delivered(l)) == Collect(InTimeOf, Endings(l, p))
    ensures Collect(EndedOf, Endings(l, p)) == Collect(Links.CompletionOf, Only(p, l))
  {
    if l.Then? {
      OpenedInOrder(l.before, p);
      if l.last.outcome.Ok? {
        ReachedIffDelivered(l.before, l.last.outcome.value.peer);
      }
    }
  }

  class CombinedTransport {
    const tcp: Links.PeerTransport
    const utp: Links.PeerTransport
    var connected: set<SocketAddr>
    ghost var arrivals: Log<Links.Arrival>

    ghost const Repr: set<object> := {this, tcp, utp}

    ghost function View(): State
      reads Repr
    {
      State(tcp.View(), utp.View(), connected, arrivals)
    }

    /** The two protocols' transports are two objects. */
    ghost predicate Valid() {
      tcp != utp
    }

    constructor ()
      ensures Valid() && fresh(Repr) && View() == Init()
    {
      tcp := new Links.PeerTransport(Tcp);
      utp := new Links.PeerTransport(Utp);
      connected, arrivals := {}, Start;
    }

    method Dial(addr: SocketAddr, now: AtOnce)
      requires Valid()
      modifies Repr
      ensures View() == Connect(old(View()), addr, now)
    {
      tcp.Dial(addr, now.tcp);
      utp.Dial(addr, now.utp);
    }

    method OnConnection(conn: Connection) returns (handed: Option<Result<Connection>>)
      modifies this`connected
      ensures handed == (if conn.isInitiator && conn.peerAddr in old(connected) then None else Some(Ok(conn)))
      ensures connected ==
        (if conn.isInitiator && handed.Some? then old(connected) + {conn.peerAddr} else old(connected))
    {
      var takeConnection := true;
      if conn.isInitiator {
        if conn.peerAddr !in connected {
          connected := connected + {conn.peerAddr};
        } else {
          takeConnection := false;
        }
      }
      handed := if takeConnection then Some(Ok(conn)) else None;
    }

    method OnPollConnection(ghost raw: Poll<Links.Arrival>, poll: Poll<Result<Connection>>)
      returns (handed: Option<Result<Connection>>)
      requires poll == Links.Answer(raw)
      modifies this
      ensures (View(), handed) == OnPoll(old(View()), raw)
    {
      if poll.Pending? {
        return None;
      }
      arrivals := Then(arrivals, raw.item);
      match poll.item {
        case Err(e) => handed := Some(Err(e));
        case Ok(conn) => handed := OnConnection(conn);
      }
    }

    method Poll() returns (answer: Poll<Result<Connection>>)
      requires Valid()
      modifies Repr
      ensures (View(), answer) == PollNext(old(View()))
    {
      ghost var fromTcp := Links.PollNext(tcp.View()).1;
      var tcpNext := tcp.Poll();
      var handed := OnPollConnection(fromTcp, tcpNext);
      if handed.Some? {
        return Ready(handed.value);
      }
      ghost var fromUtp := Links.PollNext(utp.View()).1;
      var utpNext := utp.Poll();
      handed := OnPollConnection(fromUtp, utpNext);
      if handed.Some? {
        return Ready(handed.value);
      }
      return Pending;
    }
  }
}
