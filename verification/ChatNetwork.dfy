/** The broadcaster together with every connection's link: end `a` of link `c` is the loop that serves
    connection `c`'s outbound queue, end `b` the remote. */
module ChatNetwork {
  import opened Basics
  import opened Framing
  import Broadcast
  import ChatLink

  /** A link is given by its history of steps. */
  type Link = Log<ChatLink.Step>

  datatype State = State(broadcaster: Broadcast.State, links: seq<Link>)

  datatype Step =
    | OnBroadcaster(move: Broadcast.Step)
    | OnLink(c: nat, step: ChatLink.Step)

  function Queue(l: Link, m: Message): Link { Then(l, ChatLink.Step(ChatLink.A, ChatLink.Queue(m))) }

  /** A broadcast goes to the loop of each listed peer. */
  function QueueListed(links: seq<Link>, peers: seq<Broadcast.Peer>, m: Message): (r: seq<Link>)
    ensures |r| == |links|
  {
    seq(|links|, c requires 0 <= c < |links| => if Broadcast.Listed(peers, c) then Queue(links[c], m) else links[c])
  }

  /** The broadcaster alone queues for the near ends and, when a loop returns, ends them. */
  predicate Driven(x: ChatLink.Step) {
    x.side.A? && (x.act.Queue? || x.act.Stop?)
  }

  function LinksAfter(s: State, x: Broadcast.Step): seq<Link> {
    match x
    case DoOpen(_) => s.links + [Queue(Start, s.broadcaster.initial)]
    case DoCast(m) => QueueListed(s.links, s.broadcaster.peers, m)
    case DoFinish(c) =>
      if c < |s.links| then s.links[c := Then(s.links[c], ChatLink.Step(ChatLink.A, ChatLink.Stop))] else s.links
    case _ => s.links
  }

  function Apply(s: State, x: Step): State {
    match x
    case OnBroadcaster(y) => State(Broadcast.Apply(s.broadcaster, y), LinksAfter(s, y))
    case OnLink(c, y) => if c < |s.links| && !Driven(y) then s.(links := s.links[c := Then(s.links[c], y)]) else s
  }

  function Run(initial: Message, h: Log<Step>): State {
    match h case Start => State(Broadcast.Init(initial), []) case Then(past, x) => Apply(Run(initial, past), x)
  }

  function Near(l: Link): ChatLink.Endpoint { ChatLink.Run(l).a }

  /** The near end was queued exactly what was placed, and lives as long as the connection. */
  predicate Serves(l: Link, k: Broadcast.Conn) {
    Near(l).queued == k.placed && Near(l).alive == k.alive
  }

  ghost predicate Inv(s: State) {
    && Broadcast.Inv(s.broadcaster)
    && |s.links| == |s.broadcaster.conns|
    && (forall c :: 0 <= c < |s.links| ==> Serves(s.links[c], s.broadcaster.conns[c]))
  }

  lemma QueueServes(l: Link, m: Message)
    ensures Near(Queue(l, m)).alive == Near(l).alive
    ensures Near(Queue(l, m)).queued == (if Near(l).alive then Near(l).queued + [m] else Near(l).queued)
  {}

  lemma StopServes(l: Link)
    ensures var r := Near(Then(l, ChatLink.Step(ChatLink.A, ChatLink.Stop)));
      !r.alive && r.queued == Near(l).queued
  {}

  /** Reading, writing, taking from the queue and everything the remote does leave it as it is. */
  lemma OtherStepsServe(l: Link, x: ChatLink.Step)
    requires !Driven(x)
    ensures Near(Then(l, x)).alive == Near(l).alive && Near(Then(l, x)).queued == Near(l).queued
  {}

  lemma CastServes(s: State, m: Message)
    requires Inv(s)
    ensures var r := Apply(s, OnBroadcaster(Broadcast.DoCast(m)));
      forall c :: 0 <= c < |r.links| ==> Serves(r.links[c], r.broadcaster.conns[c])
  {
    var b, r := s.broadcaster, Apply(s, OnBroadcaster(Broadcast.DoCast(m)));
    forall c | 0 <= c < |r.links| ensures Serves(r.links[c], r.broadcaster.conns[c]) {
      assert Serves(s.links[c], b.conns[c]);
      Broadcast.SendAllReaches(b.conns, b.peers, m, c);
      QueueServes(s.links[c], m);
    }
  }

  lemma OpenServes(s: State, id: Broadcast.PeerId)
    requires Inv(s)
    ensures var r := Apply(s, OnBroadcaster(Broadcast.DoOpen(id)));
      forall c :: 0 <= c < |r.links| ==> Serves(r.links[c], r.broadcaster.conns[c])
  {
    var b, r := s.broadcaster, Apply(s, OnBroadcaster(Broadcast.DoOpen(id)));
    forall c | 0 <= c < |r.links| ensures Serves(r.links[c], r.broadcaster.conns[c]) {
      if c < |s.links| {
        assert Serves(s.links[c], b.conns[c]);
      } else {
        assert Near(Start) == ChatLink.FRESH;
        QueueServes(Start, b.initial);
        assert [] + [b.initial] == [b.initial];
      }
    }
  }

  lemma FinishServes(s: State, ended: nat)
    requires Inv(s)
    ensures var r := Apply(s, OnBroadcaster(Broadcast.DoFinish(ended)));
      forall c :: 0 <= c < |r.links| ==> Serves(r.links[c], r.broadcaster.conns[c])
  {
    var r := Apply(s, OnBroadcaster(Broadcast.DoFinish(ended)));
    forall c | 0 <= c < |r.links| ensures Serves(r.links[c], r.broadcaster.conns[c]) {
      assert Serves(s.links[c], s.broadcaster.conns[c]);
      StopServes(s.links[c]);
    }
  }

  /** Listing and removing touch no queue and no loop. */
  lemma ListingServes(s: State, x: Broadcast.Step)
    requires Inv(s) && (x.DoList? || x.DoRemove?)
    ensures var r := Apply(s, OnBroadcaster(x));
      forall c :: 0 <= c < |r.links| ==> Serves(r.links[c], r.broadcaster.conns[c])
  {
    var r := Apply(s, OnBroadcaster(x));
    forall c | 0 <= c < |r.links| ensures Serves(r.links[c], r.broadcaster.conns[c]) {
      assert Serves(s.links[c], s.broadcaster.conns[c]);
    }
  }

  lemma BroadcasterStepServes(s: State, x: Broadcast.Step)
    requires Inv(s)
    ensures Inv(Apply(s, OnBroadcaster(x)))
  {
    Broadcast.ApplyKeepsInv(s.broadcaster, x);
    match x
    case DoOpen(id) => OpenServes(s, id);
    case DoCast(m) => CastServes(s, m);
    case DoFinish(c) => FinishServes(s, c);
    case _ => ListingServes(s, x);
  }

  lemma LinkStepServes(s: State, c: nat, x: ChatLink.Step)
    requires Inv(s) && c < |s.links| && !Driven(x)
    ensures Inv(Apply(s, OnLink(c, x)))
  {
    var r := Apply(s, OnLink(c, x));
    forall k | 0 <= k < |r.links| ensures Serves(r.links[k], r.broadcaster.conns[k]) {
      assert Serves(s.links[k], s.broadcaster.conns[k]);
      OtherStepsServe(s.links[c], x);
    }
  }

  lemma {:induction false} RunKeepsInv(initial: Message, h: Log<Step>)
    ensures Inv(Run(initial, h)) && Run(initial, h).broadcaster.initial == initial
  {
    if h.Then? {
      var s, x := Run(initial, h.before), h.last;
      RunKeepsInv(initial, h.before);
      if x.OnBroadcaster? {
        BroadcasterStepServes(s, x.move);
      } else if x.c < |s.links| && !Driven(x.step) {
        LinkStepServes(s, x.c, x.step);
      }
    }
  }

  /** The near end has nothing left to take and nothing on its way. */
  predicate Flown(l: Link) {
    Near(l).outbound == [] && ChatLink.InFlight(Near(l), ChatLink.Run(l).ab) == []
  }

  /** The remote never interrupted a header, and no message the near end took is oversized. */
  predicate LosesNothing(l: Link) {
    ChatLink.NeverInterrupts(l, ChatLink.B) && AllShort(Near(l).taken)
  }

  /** The remote has received a prefix of `due`, and all of it once nothing is left on this side. */
  predicate Receives(l: Link, due: seq<Message>) {
    && ChatLink.Run(l).b.inbound <= due
    && (Flown(l) ==> ChatLink.Run(l).b.inbound == due)
  }

  /** The steps of the broadcaster among those of the network. */
  function BroadcasterSteps(h: Log<Step>): Log<Broadcast.Step> {
    match h
    case Start => Start
    case Then(past, x) =>
      if x.OnBroadcaster? then Then(BroadcasterSteps(past), x.move) else BroadcasterSteps(past)
  }

  lemma {:induction false} BroadcasterRunsAlone(initial: Message, h: Log<Step>)
    ensures Run(initial, h).broadcaster == Broadcast.Run(initial, BroadcasterSteps(h))
  {
    if h.Then? {
      BroadcasterRunsAlone(initial, h.before);
    }
  }

  /** However the broadcaster and all links interleave: if the remote of connection `c` never interrupts
      a header and no message taken so far is oversized, what it has received is a prefix of the initial
      message followed by the broadcasts made from its listing until it ended or was taken off, and all of
      that once the near end's queue is empty and no byte is on its way. */
  lemma {:induction false} RemoteReceivesBroadcasts(initial: Message, h: Log<Step>, c: nat)
    ensures var s := Run(initial, h);
      && |s.links| == |Broadcast.Ids(BroadcasterSteps(h))|
      && (c < |s.links| && LosesNothing(s.links[c]) ==>
            Receives(s.links[c], Broadcast.Due(initial, BroadcasterSteps(h), c)))
  {
    RunKeepsInv(initial, h);
    BroadcasterRunsAlone(initial, h);
    Broadcast.RunKeepsInv(initial, BroadcasterSteps(h));
    var s := Run(initial, h);
    if c < |s.links| {
      assert Serves(s.links[c], s.broadcaster.conns[c]) && Broadcast.ConnInv(s.broadcaster, c);
      if LosesNothing(s.links[c]) {
        ChatLink.DeliversInOrder(s.links[c]);
      }
    }
  }

  function LinkSteps(c: nat, l: Link): Log<Step> {
    match l case Start => Start case Then(past, x) => Then(LinkSteps(c, past), OnLink(c, x))
  }

  lemma {:induction false} LinkRunsAlone(initial: Message, h: Log<Step>, c: nat, more: Link)
    requires c < |Run(initial, h).links| && ChatLink.Forwards(more)
    ensures var s, r := Run(initial, h), Run(initial, Append(h, LinkSteps(c, more)));
      && r.broadcaster == s.broadcaster
      && r.links == s.links[c := Append(s.links[c], more)]
  {
    if more.Then? {
      LinkRunsAlone(initial, h, c, more.before);
    }
  }

  /** Going on with `more` on link `c` alone, the remote receives everything due to it. */
  predicate CatchesUp(initial: Message, h: Log<Step>, c: nat, more: Link) {
    var links := Run(initial, Append(h, LinkSteps(c, more))).links;
    && ChatLink.Forwards(more) && c < |links|
    && ChatLink.Run(links[c]).b.inbound == Broadcast.Due(initial, BroadcasterSteps(h), c)
  }

  /** Delivery is within reach in every run: while both ends of a connection live and nothing has spoilt
      its link, reading, taking and writing there bring the remote everything due to it. */
  lemma {:induction false} RemoteCanCatchUp(initial: Message, h: Log<Step>, c: nat)
    ensures var links := Run(initial, h).links;
      c < |links| && ChatLink.BothLive(ChatLink.Run(links[c])) && ChatLink.Unspoilt(links[c])
      ==> exists more :: CatchesUp(initial, h, c, more)
  {
    var s := Run(initial, h);
    if c < |s.links| && ChatLink.BothLive(ChatLink.Run(s.links[c])) && ChatLink.Unspoilt(s.links[c]) {
      RunKeepsInv(initial, h);
      BroadcasterRunsAlone(initial, h);
      Broadcast.RunKeepsInv(initial, BroadcasterSteps(h));
      assert Serves(s.links[c], s.broadcaster.conns[c]) && Broadcast.ConnInv(s.broadcaster, c);
      var more := ChatLink.WorkOff(s.links[c]);
      LinkRunsAlone(initial, h, c, more);
      assert CatchesUp(initial, h, c, more);
    }
  }
}
