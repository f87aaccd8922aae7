/** One protocol's transport, as TCP and uTP both have it: accepted connections first, then the
    connects this side started, which complete in any order. */
module Links {
  import opened Basics

  /** A started connect that has come to an end. */
  datatype Completion = Completion(dialed: SocketAddr, outcome: Result<Stream>)

  /** One item taken from one of the two sources of a protocol. */
  datatype Arrival =
    | Accepted(protocol: Protocol, outcome: Result<Stream>)
    | Dialed(protocol: Protocol, dialed: SocketAddr, outcome: Result<Stream>)

  datatype Action = Dial(addr: SocketAddr) | Arrive(arrival: Arrival) | LinkWait

  /** `connecting` is the bag of connects still running and `completed` those that have ended, in
      the order the environment ended them. */
  datatype State = State(
    protocol: Protocol,
    incoming: seq<Result<Stream>>,
    connecting: multiset<SocketAddr>,
    completed: seq<Completion>,
    trace: Log<Action>)

  function Init(p: Protocol): State {
    State(p, [], multiset{}, [], Start)
  }

  /** A new connect joins the bag. `atOnce` is what it ends with, if it ends the first time it is polled:
      it then runs for no time at all and comes after every connect that has ended before. */
  function Connect(s: State, addr: SocketAddr, atOnce: Option<Result<Stream>>): State {
    var t := s.(trace := Then(s.trace, Dial(addr)));
    match atOnce
    case None => t.(connecting := s.connecting + multiset{addr})
    case Some(outcome) => t.(completed := s.completed + [Completion(addr, outcome)])
  }

  function Take(s: State, a: Arrival): State {
    s.(trace := Then(s.trace, Arrive(a)))
  }

  function PollNext(s: State): (State, Poll<Arrival>) {
    if s.incoming != [] then
      var a := Accepted(s.protocol, s.incoming[0]);
      (Take(s.(incoming := s.incoming[1..]), a), Ready(a))
    else if s.completed != [] then
      var a := Dialed(s.protocol, s.completed[0].dialed, s.completed[0].outcome);
      (Take(s.(completed := s.completed[1..]), a), Ready(a))
    else
      (s.(trace := Then(s.trace, LinkWait)), Pending)
  }

  /** The resulting stream, if any, leads to the address that was dialed. */
  predicate Truthful(dialed: SocketAddr, outcome: Result<Stream>) {
    outcome.Ok? ==> outcome.value.peer == dialed
  }

  function IntoConnection(a: Arrival): Result<Connection> {
    match a.outcome
    case Err(e) => Err(e)
    case Ok(stream) => Ok(Connection(stream, stream.peer, a.Dialed?, a.protocol))
  }

  function Answer(p: Poll<Arrival>): Poll<Result<Connection>> {
    if p.Pending? then Pending else Ready(IntoConnection(p.item))
  }

  // ---- The environment ----

  function Accept(s: State, outcome: Result<Stream>): State {
    s.(incoming := s.incoming + [outcome])
  }

  /** A running connect to `addr` ends; without one there is nothing to end. */
  function Resolve(s: State, addr: SocketAddr, outcome: Result<Stream>): State {
    if addr !in s.connecting then s
    else s.(connecting := s.connecting - multiset{addr},
            completed := s.completed + [Completion(addr, outcome)])
  }

  // ---- Accounting ----

  function DialOf(a: Action): seq<SocketAddr> { if a.Dial? then [a.addr] else [] }
  function AcceptedOf(a: Arrival): seq<Result<Stream>> { if a.Accepted? then [a.outcome] else [] }

  function CompletionOf(a: Arrival): seq<Completion> { if a.Dialed? then [Completion(a.dialed, a.outcome)] else [] }

  function ArrivalsIn(t: Log<Action>): Log<Arrival> {
    match t
    case Start => Start
    case Then(before, a) => if a.Arrive? then Then(ArrivalsIn(before), a.arrival) else ArrivalsIn(before)
  }

  function Started(s: State): seq<SocketAddr> { Collect(DialOf, s.trace) }
  function Arrivals(s: State): Log<Arrival> { ArrivalsIn(s.trace) }
  function AcceptedSoFar(s: State): seq<Result<Stream>> { Collect(AcceptedOf, Arrivals(s)) }
  function EndedSoFar(s: State): seq<Completion> { Collect(CompletionOf, Arrivals(s)) }

  /** What each of a protocol's two sources gave: the items taken, followed by those still waiting. */
  datatype Account = Account(accepted: seq<Result<Stream>>, ended: seq<Completion>)

  function AccountOf(s: State): Account {
    Account(AcceptedSoFar(s) + s.incoming, EndedSoFar(s) + s.completed)
  }

  function AddEnded(a: Account, cs: seq<Completion>): Account {
    if cs == [] then a else a.(ended := a.ended + cs)
  }

  /** The end, if it has come, of a connect just started. */
  function EndAtOnce(addr: SocketAddr, atOnce: Option<Result<Stream>>): seq<Completion> {
    if atOnce.Some? then [Completion(addr, atOnce.value)] else []
  }

  // How many connects to `addr` were started, have ended and been taken, and have ended untaken.

  function StartedTo(t: Log<Action>, addr: SocketAddr): nat {
    match t case Start => 0 case Then(before, a) => StartedTo(before, addr) + (if a == Dial(addr) then 1 else 0)
  }

  predicate Ends(a: Arrival, addr: SocketAddr) {
    a.Dialed? && a.dialed == addr
  }

  function EndedTo(l: Log<Arrival>, addr: SocketAddr): nat {
    match l case Start => 0 case Then(before, a) => EndedTo(before, addr) + (if Ends(a, addr) then 1 else 0)
  }

  function CompletedTo(cs: seq<Completion>, addr: SocketAddr): nat {
    if cs == [] then 0 else (if cs[0].dialed == addr then 1 else 0) + CompletedTo(cs[1..], addr)
  }

  predicate Balanced(s: State, addr: SocketAddr) {
    StartedTo(s.trace, addr) == s.connecting[addr] + CompletedTo(s.completed, addr) + EndedTo(Arrivals(s), addr)
  }

  /** To every address, every connect started is running, completed or taken, exactly once. */
  ghost predicate Inv(s: State) {
    forall addr :: Balanced(s, addr)
  }

  /** A connect is started once: it either runs or has ended at once, with the outcome it ended with. */
  lemma ConnectKeepsInv(s: State, addr: SocketAddr, atOnce: Option<Result<Stream>>)
    requires Inv(s)
    ensures var r := Connect(s, addr, atOnce);
      && Inv(r) && Started(r) == Started(s) + [addr] && Arrivals(r) == Arrivals(s)
      && AccountOf(r) == AddEnded(AccountOf(s), EndAtOnce(addr, atOnce))
      && (forall other :: r.connecting[other] ==
            s.connecting[other] + (if other == addr && atOnce.None? then 1 else 0))
  {
    forall other ensures Balanced(Connect(s, addr, atOnce), other) {
      assert Balanced(s, other);
      if atOnce.Some? {
        CompletedToSnoc(s.completed, Completion(addr, atOnce.value), other);
      }
    }
  }

  lemma AcceptKeepsInv(s: State, outcome: Result<Stream>)
    requires Inv(s)
    ensures Inv(Accept(s, outcome))
    ensures AccountOf(Accept(s, outcome)) == AccountOf(s).(accepted := AccountOf(s).accepted + [outcome])
  {
    forall addr ensures Balanced(Accept(s, outcome), addr) {
      assert Balanced(s, addr);
    }
  }

  lemma {:induction false} CompletedToSnoc(cs: seq<Completion>, c: Completion, addr: SocketAddr)
    ensures CompletedTo(cs + [c], addr) == CompletedTo(cs, addr) + (if c.dialed == addr then 1 else 0)
  {
    if cs == [] {
      assert [] + [c] == [c];
    } else {
      ConcatTail(cs, [c]);
      CompletedToSnoc(cs[1..], c, addr);
    }
  }

  /** A running connect that ends joins the account with its own outcome; otherwise nothing changes. */
  lemma ResolveKeepsInv(s: State, addr: SocketAddr, outcome: Result<Stream>)
    requires Inv(s)
    ensures Inv(Resolve(s, addr, outcome))
    ensures AccountOf(Resolve(s, addr, outcome)) ==
      (if addr in s.connecting then AccountOf(s).(ended := AccountOf(s).ended + [Completion(addr, outcome)])
       else AccountOf(s))
  {
    forall other ensures Balanced(Resolve(s, addr, outcome), other) {
      assert Balanced(s, other);
      CompletedToSnoc(s.completed, Completion(addr, outcome), other);
    }
  }

  lemma TakeAddsOne(s: State, a: Arrival)
    ensures AcceptedSoFar(Take(s, a)) == AcceptedSoFar(s) + AcceptedOf(a)
    ensures EndedSoFar(Take(s, a)) == EndedSoFar(s) + CompletionOf(a)
  {}

  lemma PollNextAccounts(s: State)
    ensures AccountOf(PollNext(s).0) == AccountOf(s)
  {
    var (r, p) := PollNext(s);
    if s.incoming != [] {
      TakeAddsOne(s.(incoming := s.incoming[1..]), p.item);
      HeadTail(s.incoming);
      ConcatAssoc(AcceptedSoFar(s), [s.incoming[0]], s.incoming[1..]);
    } else if s.completed != [] {
      TakeAddsOne(s.(completed := s.completed[1..]), p.item);
      HeadTail(s.completed);
      ConcatAssoc(EndedSoFar(s), [s.completed[0]], s.completed[1..]);
    }
  }

  /** A poll loses nothing: it takes the first accepted stream, else the first ended connect with the
      outcome it ended with, else both queues are empty and it waits. */
  lemma PollNextKeepsInv(s: State)
    requires Inv(s)
    ensures var (r, p) := PollNext(s);
      && Inv(r)
      && Started(r) == Started(s)
      && Arrivals(r) == (if p.Ready? then Then(Arrivals(s), p.item) else Arrivals(s))
      && AccountOf(r) == AccountOf(s)
      && Length(s.trace) < Length(r.trace)
      && (p.Pending? <==> s.incoming == [] && s.completed == [])
      && (p.Pending? <==> r.trace.last == LinkWait)
      && r.protocol == s.protocol && (p.Ready? ==> p.item.protocol == s.protocol)
  {
    var (r, p) := PollNext(s);
    forall addr ensures Balanced(r, addr) {
      assert Balanced(s, addr);
    }
    PollNextAccounts(s);
  }

  class PeerTransport {
    const protocol: Protocol
    var incoming: seq<Result<Stream>>
    var connecting: multiset<SocketAddr>
    var completed: seq<Completion>
    ghost var trace: Log<Action>

    ghost function View(): State
      reads this
    {
      State(protocol, incoming, connecting, completed, trace)
    }

    constructor (p: Protocol)
      ensures View() == Init(p)
    {
      protocol := p;
      incoming, connecting, completed, trace := [], multiset{}, [], Start;
    }

    method Dial(addr: SocketAddr, atOnce: Option<Result<Stream>>)
      modifies this
      ensures View() == Connect(old(View()), addr, atOnce)
    {
      match atOnce {
        case None => connecting := connecting + multiset{addr};
        case Some(outcome) => completed := completed + [Completion(addr, outcome)];
      }
      trace := Then(trace, Action.Dial(addr));
    }

    method Poll() returns (answer: Poll<Result<Connection>>)
      modifies this
      ensures View() == PollNext(old(View())).0
      ensures answer == Answer(PollNext(old(View())).1)
    {
      if incoming != [] {
        var a := Accepted(protocol, incoming[0]);
        incoming := incoming[1..];
        trace := Then(trace, Arrive(a));
        return Ready(IntoConnection(a));
      }
      if completed != [] {
        var a := Dialed(protocol, completed[0].dialed, completed[0].outcome);
        completed := completed[1..];
        trace := Then(trace, Arrive(a));
        return Ready(IntoConnection(a));
      }
      trace := Then(trace, LinkWait);
      return Pending;
    }
  }
}
