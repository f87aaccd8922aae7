/** The chat broadcaster: a list of peers behind a lock, and one outbound queue per connection. */
module Broadcast {
  import opened Basics
  import opened Framing

  type PeerId = string

  /** One connection: `placed` is everything ever put on its outbound queue, and `pushed` tells
      whether the accept loop has come to the point of listing it. */
  datatype Conn = Conn(id: PeerId, placed: seq<Message>, alive: bool, pushed: bool)

  /** A listed peer, naming its connection by number. */
  datatype Peer = Peer(id: PeerId, conn: nat)

  /** Connections are numbered in the order they come up; a mutex makes each step atomic. */
  datatype Step = DoOpen(id: PeerId) | DoList(c: nat) | DoCast(m: Message) | DoFinish(c: nat) | DoRemove(c: nat)

  /** `history` is history: the steps so far. */
  datatype State = State(initial: Message, peers: seq<Peer>, conns: seq<Conn>, history: Log<Step>)

  function Init(initial: Message): State { State(initial, [], [], Start) }

  // ---- Steps ----

  /** A connection comes up: its queue starts with the initial message and its loop is spawned. */
  function Open(s: State, id: PeerId): State {
    s.(conns := s.conns + [Conn(id, [s.initial], true, false)])
  }

  /** The connection is put on the list, later and once. */
  function List(s: State, c: nat): State {
    if c < |s.conns| && !s.conns[c].pushed
    then s.(peers := s.peers + [Peer(s.conns[c].id, c)], conns := s.conns[c := s.conns[c].(pushed := true)])
    else s
  }

  /** Sending fails, and is logged, if the connection's loop has ended. */
  function Send(conns: seq<Conn>, c: nat, m: Message): (r: seq<Conn>)
    ensures |r| == |conns|
  {
    if c < |conns| && conns[c].alive then conns[c := conns[c].(placed := conns[c].placed + [m])] else conns
  }

  function SendAll(conns: seq<Conn>, peers: seq<Peer>, m: Message): (r: seq<Conn>)
    ensures |r| == |conns|
    decreases |peers|
  {
    if peers == [] then conns else SendAll(Send(conns, peers[0].conn, m), peers[1..], m)
  }

  function Cast(s: State, m: Message): State {
    s.(conns := SendAll(s.conns, s.peers, m))
  }

  /** A connection loop returns with an error; its queue's receiver is gone. */
  function Finish(s: State, c: nat): State {
    if c < |s.conns| then s.(conns := s.conns[c := s.conns[c].(alive := false)]) else s
  }

  function Without(peers: seq<Peer>, id: PeerId): seq<Peer> {
    if peers == [] then []
    else (if peers[0].id == id then [] else [peers[0]]) + Without(peers[1..], id)
  }

  predicate Listed(peers: seq<Peer>, c: nat) {
    exists p :: p in peers && p.conn == c
  }

  /** After its error, a loop takes every peer with its connection's id off the list. */
  function Remove(s: State, c: nat): State {
    if c < |s.conns| && !s.conns[c].alive then s.(peers := Without(s.peers, s.conns[c].id)) else s
  }

  function Act(s: State, x: Step): State {
    match x
    case DoOpen(id) => Open(s, id)
    case DoList(c) => List(s, c)
    case DoCast(m) => Cast(s, m)
    case DoFinish(c) => Finish(s, c)
    case DoRemove(c) => Remove(s, c)
  }

  function Apply(s: State, x: Step): State {
    Act(s, x).(history := Then(s.history, x))
  }

  function Run(initial: Message, h: Log<Step>): State {
    match h case Start => Init(initial) case Then(past, x) => Apply(Run(initial, past), x)
  }

  // ---- Reference: what a history of steps means for one connection ----

  function IdOf(x: Step): seq<PeerId> { if x.DoOpen? then [x.id] else [] }
  function CastOf(x: Step): seq<Message> { if x.DoCast? then [x.m] else [] }

  /** The ids the connections were opened with, by number. */
  function Ids(h: Log<Step>): seq<PeerId> { Collect(IdOf, h) }
  function Casts(h: Log<Step>): seq<Message> { Collect(CastOf, h) }

  predicate EverListed(h: Log<Step>, c: nat) {
    h.Then? && (EverListed(h.before, c) || (h.last == DoList(c) && c < |Ids(h.before)|))
  }

  predicate Ended(h: Log<Step>, c: nat) {
    h.Then? && (Ended(h.before, c) || (h.last == DoFinish(c) && c < |Ids(h.before)|))
  }

  /** The step removes, after some connection has ended, the id that `c` shares with it. */
  predicate TakesOff(h: Log<Step>, x: Step, c: nat) {
    x.DoRemove? && x.c < |Ids(h)| && c < |Ids(h)| && Ended(h, x.c) && Ids(h)[x.c] == Ids(h)[c]
  }

  /** Once listed, `c` was taken off the list. */
  predicate TakenOff(h: Log<Step>, c: nat) {
    h.Then? && (TakenOff(h.before, c) || (EverListed(h.before, c) && TakesOff(h.before, h.last, c)))
  }

  predicate OnAir(h: Log<Step>, c: nat) {
    EverListed(h, c) && !TakenOff(h, c) && !Ended(h, c)
  }

  /** The broadcasts made while `c` was listed, not taken off and its loop alive. */
  function Heard(h: Log<Step>, c: nat): seq<Message> {
    match h
    case Start => []
    case Then(past, x) => if x.DoCast? && OnAir(past, c) then Heard(past, c) + [x.m] else Heard(past, c)
  }

  /** Everything the queue of connection `c` should have been given. */
  function Due(initial: Message, h: Log<Step>, c: nat): seq<Message> {
    [initial] + Heard(h, c)
  }

  /** How many broadcasts came before `c` was first listed, and before it ended or was taken off. */
  function JoinsAt(h: Log<Step>, c: nat): nat {
    match h case Start => 0 case Then(past, _) => if EverListed(past, c) then JoinsAt(past, c) else |Casts(h)|
  }

  function LeavesAt(h: Log<Step>, c: nat): nat {
    match h
    case Start => 0
    case Then(past, _) => if TakenOff(past, c) || Ended(past, c) then LeavesAt(past, c) else |Casts(h)|
  }

  lemma {:induction false} PointsInRange(h: Log<Step>, c: nat)
    ensures JoinsAt(h, c) <= |Casts(h)| && LeavesAt(h, c) <= |Casts(h)|
    ensures !EverListed(h, c) ==> JoinsAt(h, c) == |Casts(h)|
    ensures !TakenOff(h, c) && !Ended(h, c) ==> LeavesAt(h, c) == |Casts(h)|
  {
    if h.Then? {
      PointsInRange(h.before, c);
    }
  }

  /** What is heard is one contiguous run of all broadcasts, from joining to leaving. */
  lemma {:induction false} HeardIsSpan(h: Log<Step>, c: nat)
    ensures JoinsAt(h, c) <= |Casts(h)| && LeavesAt(h, c) <= |Casts(h)|
    ensures Heard(h, c) == (if JoinsAt(h, c) <= LeavesAt(h, c) then Casts(h)[JoinsAt(h, c)..LeavesAt(h, c)] else [])
  {
    PointsInRange(h, c);
    if h.Then? {
      HeardIsSpan(h.before, c);
      PointsInRange(h.before, c);
    }
  }

  /** When `c` was first listed. */
  function ListedAt(h: Log<Step>, c: nat): nat {
    match h case Start => 0 case Then(past, _) => if EverListed(past, c) then ListedAt(past, c) else Length(h)
  }

  lemma {:induction false} ListedInThePast(h: Log<Step>, c: nat)
    ensures ListedAt(h, c) <= Length(h)
  {
    if h.Then? {
      ListedInThePast(h.before, c);
    }
  }

  // ---- The fields are what the history says ----

  predicate ConnInv(s: State, c: nat)
    requires c < |s.conns| == |Ids(s.history)|
  {
    var k, h := s.conns[c], s.history;
    && k.id == Ids(h)[c]
    && k.placed == Due(s.initial, h, c)
    && k.alive == !Ended(h, c)
    && k.pushed == EverListed(h, c)
    && (Listed(s.peers, c) <==> EverListed(h, c) && !TakenOff(h, c))
  }

  /** The list is in the order of listing, so no connection is on it twice. */
  predicate Ordered(peers: seq<Peer>, h: Log<Step>) {
    forall i, j :: 0 <= i < j < |peers| ==> ListedAt(h, peers[i].conn) < ListedAt(h, peers[j].conn)
  }

  predicate DistinctConns(peers: seq<Peer>) {
    forall i, j :: 0 <= i < j < |peers| ==> peers[i].conn != peers[j].conn
  }

  ghost predicate Inv(s: State) {
    && |s.conns| == |Ids(s.history)|
    && Ordered(s.peers, s.history)
    && (forall p :: p in s.peers ==> p.conn < |s.conns| && p.id == s.conns[p.conn].id)
    && (forall c :: 0 <= c < |s.conns| ==> ConnInv(s, c))
  }

  /** One broadcast reaches each listed peer whose loop is alive, once, and nobody else. */
  lemma {:induction false} SendAllReaches(conns: seq<Conn>, peers: seq<Peer>, m: Message, c: nat)
    requires c < |conns| && DistinctConns(peers)
    ensures SendAll(conns, peers, m)[c] ==
      (if Listed(peers, c) && conns[c].alive then conns[c].(placed := conns[c].placed + [m]) else conns[c])
    decreases |peers|
  {
    if peers != [] {
      HeadTail(peers);
      SendAllReaches(Send(conns, peers[0].conn, m), peers[1..], m, c);
      assert Listed(peers, c) <==> peers[0].conn == c || Listed(peers[1..], c);
      if peers[0].conn == c {
        assert !Listed(peers[1..], c);
      }
    }
  }

  lemma {:induction false} WithoutHolds(peers: seq<Peer>, id: PeerId, p: Peer)
    ensures p in Without(peers, id) <==> p in peers && p.id != id
  {
    if peers != [] {
      WithoutHolds(peers[1..], id, p);
    }
  }

  lemma {:induction false} WithoutStaysOrdered(peers: seq<Peer>, id: PeerId, h: Log<Step>)
    requires Ordered(peers, h)
    ensures Ordered(Without(peers, id), h)
  {
    if peers != [] {
      var rest := Without(peers[1..], id);
      WithoutStaysOrdered(peers[1..], id, h);
      forall p | p in rest ensures ListedAt(h, peers[0].conn) < ListedAt(h, p.conn) {
        WithoutHolds(peers[1..], id, p);
      }
    }
  }

  /** Those on the list keep their place in its order, whatever comes next. */
  lemma StaysOrdered(s: State, x: Step)
    requires Inv(s)
    ensures Ordered(s.peers, Then(s.history, x))
  {
    var peers, h := s.peers, Then(s.history, x);
    forall i | 0 <= i < |peers| ensures ListedAt(h, peers[i].conn) == ListedAt(s.history, peers[i].conn) {
      var p := peers[i];
      assert p in peers && Listed(peers, p.conn) && ConnInv(s, p.conn);
    }
  }

  lemma ListedAfterRemoval(s: State, id: PeerId, k: nat)
    requires Inv(s) && k < |s.conns|
    ensures Listed(Without(s.peers, id), k) <==> Listed(s.peers, k) && s.conns[k].id != id
  {
    forall p: Peer | p.conn == k ensures p in Without(s.peers, id) <==> p in s.peers && p.id != id {
      WithoutHolds(s.peers, id, p);
    }
  }

  lemma OpenKeepsInv(s: State, id: PeerId)
    requires Inv(s)
    ensures Inv(Apply(s, DoOpen(id)))
  {
    var r := Apply(s, DoOpen(id));
    StaysOrdered(s, DoOpen(id));
    Unopened(s.history, |s.conns|);
    forall k | 0 <= k < |r.conns| ensures ConnInv(r, k) {
      assert k < |s.conns| ==> ConnInv(s, k);
      assert [s.initial] + [] == [s.initial];
    }
  }

  lemma {:induction false} Unopened(h: Log<Step>, c: nat)
    requires c >= |Ids(h)|
    ensures !EverListed(h, c) && !Ended(h, c) && !TakenOff(h, c) && Heard(h, c) == []
  {
    if h.Then? {
      Unopened(h.before, c);
    }
  }

  lemma ListKeepsInv(s: State, c: nat)
    requires Inv(s)
    ensures Inv(Apply(s, DoList(c)))
  {
    var r := Apply(s, DoList(c));
    StaysOrdered(s, DoList(c));
    forall k | 0 <= k < |r.conns| ensures ConnInv(r, k) {
      assert ConnInv(s, k);
      if c < |s.conns| && !s.conns[c].pushed {
        assert Peer(s.conns[c].id, c) in r.peers;
        assert Listed(r.peers, k) <==> Listed(s.peers, k) || k == c;
        assert ConnInv(s, c);
        NeverListedNorTakenOff(s.history, c);
      }
    }
    if c < |s.conns| && !s.conns[c].pushed {
      assert ConnInv(s, c);
      forall i | 0 <= i < |s.peers| ensures ListedAt(r.history, s.peers[i].conn) < ListedAt(r.history, c) {
        var p := s.peers[i];
        assert p in s.peers && Listed(s.peers, p.conn) && ConnInv(s, p.conn);
        ListedInThePast(s.history, p.conn);
      }
    }
  }

  lemma {:induction false} NeverListedNorTakenOff(h: Log<Step>, c: nat)
    requires !EverListed(h, c)
    ensures !TakenOff(h, c)
  {
    if h.Then? {
      NeverListedNorTakenOff(h.before, c);
    }
  }

  lemma OrderedIsDistinct(peers: seq<Peer>, h: Log<Step>)
    requires Ordered(peers, h)
    ensures DistinctConns(peers)
  {
    forall i, j | 0 <= i < j < |peers| ensures peers[i].conn != peers[j].conn {
      assert ListedAt(h, peers[i].conn) < ListedAt(h, peers[j].conn);
    }
  }

  lemma CastKeepsInv(s: State, m: Message)
    requires Inv(s)
    ensures Inv(Apply(s, DoCast(m)))
  {
    var r := Apply(s, DoCast(m));
    StaysOrdered(s, DoCast(m));
    OrderedIsDistinct(s.peers, s.history);
    forall k | 0 <= k < |r.conns| ensures ConnInv(r, k) && r.conns[k].id == s.conns[k].id {
      assert ConnInv(s, k);
      SendAllReaches(s.conns, s.peers, m, k);
      ConcatAssoc([s.initial], Heard(s.history, k), [m]);
    }
  }

  lemma FinishKeepsInv(s: State, c: nat)
    requires Inv(s)
    ensures Inv(Apply(s, DoFinish(c)))
  {
    var r := Apply(s, DoFinish(c));
    StaysOrdered(s, DoFinish(c));
    forall k | 0 <= k < |r.conns| ensures ConnInv(r, k) {
      assert ConnInv(s, k);
    }
  }

  lemma RemoveKeepsInv(s: State, c: nat)
    requires Inv(s)
    ensures Inv(Apply(s, DoRemove(c)))
  {
    var r := Apply(s, DoRemove(c));
    StaysOrdered(s, DoRemove(c));
    assert c < |s.conns| ==> ConnInv(s, c);
    if c < |s.conns| && !s.conns[c].alive {
      var id := s.conns[c].id;
      WithoutStaysOrdered(s.peers, id, r.history);
      forall p | p in r.peers ensures p in s.peers {
        WithoutHolds(s.peers, id, p);
      }
      forall k | 0 <= k < |r.conns| ensures ConnInv(r, k) {
        assert ConnInv(s, k);
        ListedAfterRemoval(s, id, k);
      }
    } else {
      forall k | 0 <= k < |r.conns| ensures ConnInv(r, k) {
        assert ConnInv(s, k);
      }
    }
  }

  lemma ApplyKeepsInv(s: State, x: Step)
    requires Inv(s)
    ensures Inv(Apply(s, x))
  {
    match x
    case DoOpen(id) => OpenKeepsInv(s, id);
    case DoList(c) => ListKeepsInv(s, c);
    case DoCast(m) => CastKeepsInv(s, m);
    case DoFinish(c) => FinishKeepsInv(s, c);
    case DoRemove(c) => RemoveKeepsInv(s, c);
  }

  lemma {:induction false} RunKeepsInv(initial: Message, h: Log<Step>)
    ensures var s := Run(initial, h);
      Inv(s) && s.initial == initial && s.history == h
  {
    if h.Then? {
      RunKeepsInv(initial, h.before);
      ApplyKeepsInv(Run(initial, h.before), h.last);
    }
  }

  /** However connections come, end and are listed and removed: each connection's queue was given the
      initial message and then exactly the broadcasts made from its first listing until it ended or its
      id was taken off, one contiguous run of all broadcasts. */
  lemma {:induction false} QueueHoldsBroadcasts(initial: Message, h: Log<Step>, c: nat)
    requires c < |Ids(h)|
    ensures var s := Run(initial, h);
      var from, to := JoinsAt(h, c), LeavesAt(h, c);
      && |s.conns| == |Ids(h)| && to <= |Casts(h)|
      && s.conns[c].placed == [initial] + (if from <= to then Casts(h)[from..to] else [])
  {
    RunKeepsInv(initial, h);
    HeardIsSpan(h, c);
    assert ConnInv(Run(initial, h), c);
  }

  /** The list holds exactly the connections listed and not taken off since, in the order of listing,
      each with the id it was opened with. */
  lemma {:induction false} ListHoldsListed(initial: Message, h: Log<Step>, c: nat)
    requires c < |Ids(h)|
    ensures var peers := Run(initial, h).peers;
      && (Peer(Ids(h)[c], c) in peers <==> EverListed(h, c) && !TakenOff(h, c))
      && (forall p :: p in peers ==> p.conn < |Ids(h)| && p.id == Ids(h)[p.conn])
      && Ordered(peers, h)
  {
    RunKeepsInv(initial, h);
    var s := Run(initial, h);
    forall k | 0 <= k < |s.conns| ensures s.conns[k].id == Ids(h)[k] {
      assert ConnInv(s, k);
    }
    assert ConnInv(s, c);
  }

  /** Listing an opened connection for the first time puts it at the end and leaves the others alone. */
  lemma {:induction false} ListingAppends(initial: Message, h: Log<Step>, c: nat)
    requires c < |Ids(h)| && !EverListed(h, c)
    ensures Run(initial, Then(h, DoList(c))).peers == Run(initial, h).peers + [Peer(Ids(h)[c], c)]
  {
    RunKeepsInv(initial, h);
    assert ConnInv(Run(initial, h), c);
  }

  // ---- The broadcaster as an object ----

  class HyperBroadcast {
    const initialMessage: Message
    var peers: seq<Peer>
    var conns: seq<Conn>
    ghost var history: Log<Step>

    ghost function View(): State
      reads this
    {
      State(initialMessage, peers, conns, history)
    }

    ghost predicate Valid()
      reads this
    {
      Inv(View())
    }

    constructor (initial: Message)
      ensures Valid() && View() == Init(initial)
    {
      initialMessage := initial;
      peers, conns, history := [], [], Start;
    }

    method Broadcast(m: Message)
      requires Valid()
      modifies this
      ensures Valid() && View() == Apply(old(View()), DoCast(m))
    {
      CastKeepsInv(View(), m);
      history := Then(history, DoCast(m));
      var i := 0;
      while i < |peers|
        invariant i <= |peers| && peers == old(peers) && history == Then(old(history), DoCast(m))
        invariant SendAll(conns, peers[i..], m) == SendAll(old(conns), old(peers), m)
      {
        assert peers[i..][1..] == peers[i + 1..];
        var c := peers[i].conn;
        if c < |conns| && conns[c].alive {
          conns := conns[c := conns[c].(placed := conns[c].placed + [m])];
        }
        i := i + 1;
      }
    }

    /** A new stream from the swarm: queue the initial message; the loop is spawned on `c`. */
    method OpenConnection(id: PeerId) returns (c: nat)
      requires Valid()
      modifies this
      ensures Valid() && View() == Apply(old(View()), DoOpen(id)) && c == |old(conns)|
    {
      OpenKeepsInv(View(), id);
      c := |conns|;
      conns := conns + [Conn(id, [initialMessage], true, false)];
      history := Then(history, DoOpen(id));
    }

    method ListPeer(c: nat)
      requires Valid() && c < |conns| && !conns[c].pushed
      modifies this
      ensures Valid() && View() == Apply(old(View()), DoList(c))
      ensures peers == old(peers) + [Peer(old(conns)[c].id, c)]
    {
      ListKeepsInv(View(), c);
      peers := peers + [Peer(conns[c].id, c)];
      conns := conns[c := conns[c].(pushed := true)];
      history := Then(history, DoList(c));
    }

    /** The loop serving `c` has returned an error and dropped its end of the queue. */
    method ConnectionEnded(c: nat)
      requires Valid() && c < |conns|
      modifies this
      ensures Valid() && View() == Apply(old(View()), DoFinish(c))
    {
      FinishKeepsInv(View(), c);
      conns := conns[c := conns[c].(alive := false)];
      history := Then(history, DoFinish(c));
    }

    static method KeepOthers(peers: seq<Peer>, id: PeerId) returns (kept: seq<Peer>)
      ensures kept == Without(peers, id)
    {
      kept := [];
      for i := 0 to |peers|
        invariant kept + Without(peers[i..], id) == Without(peers, id)
      {
        assert peers[i..][1..] == peers[i + 1..];
        if peers[i].id != id {
          kept := kept + [peers[i]];
        }
      }
      assert kept + [] == kept;
    }

    /** Keep the peers whose id is not the ended connection's. */
    method Retain(c: nat)
      requires Valid() && c < |conns| && !conns[c].alive
      modifies this
      ensures Valid() && View() == Apply(old(View()), DoRemove(c))
    {
      ghost var after := Apply(View(), DoRemove(c));
      RemoveKeepsInv(View(), c);
      peers := KeepOthers(peers, conns[c].id);
      history := Then(history, DoRemove(c));
      assert View() == after;
    }
  }
}
