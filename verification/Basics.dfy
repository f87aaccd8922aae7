/** Value types shared by every component: results and polls, addresses, topics, peers and
    connections, and the sequence functions the histories are read with. */
module Basics {

  datatype Option<+T> = None | Some(value: T)

  datatype IoError = IoError(message: string)

  datatype Result<+T> = Ok(value: T) | Err(error: IoError)

  /** What one poll of a source answers. No source modelled here ever ends. */
  datatype Poll<+T> = Pending | Ready(item: T)

  newtype byte = x: int | 0 <= x < 0x100

  type u16 = x: int | 0 <= x < 0x1_0000

  const TOPIC_LENGTH: nat := 32

  type Topic = t: seq<byte> | |t| == TOPIC_LENGTH witness seq(TOPIC_LENGTH, _ => 0)

  datatype SocketAddr = SocketAddr(ip: nat, port: u16)

  datatype TopicConfig = TopicConfig(announce: bool, lookup: bool)

  const DEFAULT_CONFIG := TopicConfig(false, false)

  datatype DiscoveryMethod = ViaMdns | ViaDht

  datatype PeerInfo = PeerInfo(addr: SocketAddr, topic: Option<Topic>, discoveryMethod: DiscoveryMethod)

  datatype Protocol = Tcp | Utp

  /** An open byte stream; `id` tells apart streams to one peer. */
  datatype Stream = Stream(id: nat, peer: SocketAddr)

  datatype Connection =
    Connection(stream: Stream, peerAddr: SocketAddr, isInitiator: bool, protocol: Protocol)

  /** A history: entries are only ever added at its end. */
  datatype Log<+A> = Start | Then(before: Log<A>, last: A)

  function Length<A>(l: Log<A>): nat {
    match l case Start => 0 case Then(before, _) => Length(before) + 1
  }

  predicate Contains<A(==)>(l: Log<A>, x: A) {
    l.Then? && (l.last == x || Contains(l.before, x))
  }

  /** First `a` happened, then `b`. */
  function Append<A>(a: Log<A>, b: Log<A>): Log<A> {
    match b case Start => a case Then(past, x) => Then(Append(a, past), x)
  }

  /** `l` ends with an entry `x` that was not yet there when its history was `past`. */
  predicate NewlyEndsWith<A(==)>(past: Log<A>, l: Log<A>, x: A) {
    Length(past) < Length(l) && l.last == x
  }

  /** The concatenation of `f(x)` over the entries `x` of `l`, oldest first. */
  function Collect<A, B>(f: A -> seq<B>, l: Log<A>): seq<B> {
    match l
    case Start => []
    case Then(before, last) =>
      if f(last) == [] then Collect(f, before) else Collect(f, before) + f(last)
  }

  /** The concatenation of `f(x)` over the elements `x` of `s`. */
  function Gather<A, B>(f: A -> seq<B>, s: seq<A>): seq<B> {
    if s == [] then [] else Gather(f, s[..|s| - 1]) + f(s[|s| - 1])
  }

  lemma GatherSnoc<A, B>(f: A -> seq<B>, s: seq<A>, x: A)
    ensures Gather(f, s + [x]) == Gather(f, s) + f(x)
  {
    assert (s + [x])[..|s|] == s;
  }

  lemma {:induction false} GatherConcat<A, B>(f: A -> seq<B>, a: seq<A>, b: seq<A>)
    ensures Gather(f, a + b) == Gather(f, a) + Gather(f, b)
  {
    if b == [] {
      assert a + b == a;
    } else {
      var n := |b| - 1;
      assert a + b == (a + b[..n]) + [b[n]];
      GatherSnoc(f, a + b[..n], b[n]);
      GatherConcat(f, a, b[..n]);
    }
  }

  lemma GatherOne<A, B>(f: A -> seq<B>, x: A)
    ensures Gather(f, [x]) == f(x)
  {
    assert [x][..0] == [] && [] + f(x) == f(x);
  }

  lemma {:induction false} OneFromEach<A, B>(f: A -> seq<B>, s: seq<A>, r: seq<B>)
    requires |s| == |r| && forall i :: 0 <= i < |s| ==> f(s[i]) == [r[i]]
    ensures Gather(f, s) == r
  {
    if s != [] {
      var n := |s| - 1;
      OneFromEach(f, s[..n], r[..n]);
      assert r == r[..n] + [r[n]];
    }
  }

  /** Gathering from what was collected is collecting what would be gathered. */
  lemma {:induction false} GatherCollect<A, B, C>(f: B -> seq<C>, g: A -> seq<B>, k: A -> seq<C>, l: Log<A>)
    requires forall x :: Gather(f, g(x)) == k(x)
    ensures Gather(f, Collect(g, l)) == Collect(k, l)
  {
    if l.Then? {
      GatherCollect(f, g, k, l.before);
      assert Gather(f, g(l.last)) == k(l.last);
      GatherConcat(f, Collect(g, l.before), g(l.last));
    }
  }

  /** `m` is the elements of `a` and `b`, each in its own order. */
  predicate IsMerge<A(==)>(m: seq<A>, a: seq<A>, b: seq<A>) {
    if m == [] then a == [] && b == []
    else
      var n := |m| - 1;
      || (a != [] && a[|a| - 1] == m[n] && IsMerge(m[..n], a[..|a| - 1], b))
      || (b != [] && b[|b| - 1] == m[n] && IsMerge(m[..n], a, b[..|b| - 1]))
  }

  lemma MergeSnoc<A>(m: seq<A>, a: seq<A>, b: seq<A>, x: A)
    requires IsMerge(m, a, b)
    ensures IsMerge(m + [x], a + [x], b) && IsMerge(m + [x], a, b + [x])
  {
    assert (m + [x])[..|m|] == m && (a + [x])[..|a|] == a && (b + [x])[..|b|] == b;
  }

  lemma HeadTail<A>(s: seq<A>)
    requires s != []
    ensures s == [s[0]] + s[1..]
  {}

  lemma ConcatAssoc<A>(a: seq<A>, b: seq<A>, c: seq<A>)
    ensures (a + b) + c == a + (b + c)
  {}

  lemma ConcatTail<A>(s: seq<A>, t: seq<A>)
    requires s != []
    ensures (s + t)[0] == s[0] && (s + t)[1..] == s[1..] + t
  {}
}
