/** The chat's wire format: each message follows its length as four big-endian bytes. */
module Framing {
  import opened Basics

  type Message = seq<byte>

  const HEADER_LENGTH: nat := 4
  const TWO_TO_THE_32: nat := 0x1_0000_0000

  // ---- Big-endian u32 ----

  function ToBe(n: nat): (b: seq<byte>)
    requires n < TWO_TO_THE_32
    ensures |b| == HEADER_LENGTH
  {
    [(n / 0x100_0000) as byte, (n / 0x1_0000 % 0x100) as byte, (n / 0x100 % 0x100) as byte, (n % 0x100) as byte]
  }

  function FromBe(b: seq<byte>): (n: nat)
    requires |b| == HEADER_LENGTH
    ensures n < TWO_TO_THE_32
  {
    b[0] as int * 0x100_0000 + b[1] as int * 0x1_0000 + b[2] as int * 0x100 + b[3] as int
  }

  lemma BeRoundTrip(n: nat)
    requires n < TWO_TO_THE_32
    ensures FromBe(ToBe(n)) == n
  {
    assert n == n / 0x100 * 0x100 + n % 0x100;
    assert n / 0x100 == n / 0x1_0000 * 0x100 + n / 0x100 % 0x100;
    assert n / 0x1_0000 == n / 0x100_0000 * 0x100 + n / 0x1_0000 % 0x100;
  }

  lemma BeRoundTripBack(b: seq<byte>)
    requires |b| == HEADER_LENGTH
    ensures ToBe(FromBe(b)) == b
  {
    var n := FromBe(b);
    assert n / 0x100 == b[0] as int * 0x1_0000 + b[1] as int * 0x100 + b[2] as int;
    assert n / 0x1_0000 == b[0] as int * 0x100 + b[1] as int;
    assert n / 0x100_0000 == b[0] as int;
  }

  /** The bytes differ first at `i`, and there `a` is the smaller. */
  predicate SmallerAt(a: seq<byte>, b: seq<byte>, i: nat) {
    i < |a| && i < |b| && a[..i] == b[..i] && a[i] < b[i]
  }

  /** The most significant byte comes first: numbers are ordered as their bytes are, read from the left. */
  lemma BeOrder(m: nat, n: nat)
    requires m < TWO_TO_THE_32 && n < TWO_TO_THE_32
    ensures m < n <==> exists i: nat :: SmallerAt(ToBe(m), ToBe(n), i)
  {
    if m < n {
      var i := SmallerSomewhere(m, n);
    } else if n < m {
      var j := SmallerSomewhere(n, m);
      forall i: nat ensures !SmallerAt(ToBe(m), ToBe(n), i) {
        SmallerOneWay(ToBe(n), ToBe(m), j, i);
      }
    }
  }

  lemma SmallerOneWay(a: seq<byte>, b: seq<byte>, i: nat, j: nat)
    requires |a| == |b| && SmallerAt(a, b, i)
    ensures !SmallerAt(b, a, j)
  {
    if i < j < |a| {
      assert a[..j][i] == a[i] && b[..j][i] == b[i];
    } else if j < i {
      assert a[..i][j] == a[j] && b[..i][j] == b[j];
    }
  }

  lemma SmallerSomewhere(m: nat, n: nat) returns (i: nat)
    requires m < n < TWO_TO_THE_32
    ensures SmallerAt(ToBe(m), ToBe(n), i)
  {
    BeRoundTrip(m);
    BeRoundTrip(n);
    var a, b := ToBe(m), ToBe(n);
    i := if a[0] != b[0] then 0 else if a[1] != b[1] then 1 else if a[2] != b[2] then 2 else 3;
    assert forall k :: 0 <= k < i ==> a[k] == b[k];
  }

  // ---- Frames ----

  /** The length is cast to 32 bits, so a longer message gets a wrong header. */
  function Frame(m: Message): seq<byte> {
    ToBe(|m| % TWO_TO_THE_32) + m
  }

  function Frames(ms: seq<Message>): seq<byte> {
    if ms == [] then [] else Frame(ms[0]) + Frames(ms[1..])
  }

  predicate AllShort(ms: seq<Message>) {
    forall m :: m in ms ==> |m| < TWO_TO_THE_32
  }

  function Size(ms: seq<Message>): nat {
    if ms == [] then 0 else HEADER_LENGTH + |ms[0]| + Size(ms[1..])
  }

  // ---- Reading, one byte at a time ----

  datatype Reader = Header(got: seq<byte>) | Body(need: nat, got: seq<byte>)

  predicate Valid(r: Reader) {
    match r
    case Header(got) => |got| < HEADER_LENGTH
    case Body(need, got) => |got| < need < TWO_TO_THE_32
  }

  /** How many bytes the read now running still wants. */
  function Wants(r: Reader): nat
    requires Valid(r)
  {
    match r case Header(got) => HEADER_LENGTH - |got| case Body(need, got) => need - |got|
  }

  /** A header is complete: an empty message is delivered at once, any other waits for its body. */
  function HeaderDone(header: seq<byte>): (Reader, seq<Message>)
    requires |header| == HEADER_LENGTH
  {
    if FromBe(header) == 0 then (Header([]), [[]]) else (Body(FromBe(header), []), [])
  }

  /** `more` arrives, no more than the running read wants. */
  function ReadSome(r: Reader, more: seq<byte>): (Reader, seq<Message>)
    requires Valid(r) && |more| <= Wants(r)
  {
    if |more| < Wants(r) then (r.(got := r.got + more), [])
    else if r.Header? then HeaderDone(r.got + more)
    else (Header([]), [r.got + more])
  }

  lemma ReadSomeStaysValid(r: Reader, more: seq<byte>)
    requires Valid(r) && |more| <= Wants(r)
    ensures Valid(ReadSome(r, more).0) && AllShort(ReadSome(r, more).1)
  {}

  /** All of `bs` arrives, a byte at a time. */
  function Feed(r: Reader, bs: seq<byte>): (Reader, seq<Message>)
    requires Valid(r)
    decreases |bs|
  {
    if bs == [] then (r, [])
    else
      ReadSomeStaysValid(r, bs[..1]);
      var (r1, m1) := ReadSome(r, bs[..1]);
      var (r2, m2) := Feed(r1, bs[1..]);
      (r2, m1 + m2)
  }

  lemma {:induction false} FeedStaysValid(r: Reader, bs: seq<byte>)
    requires Valid(r)
    ensures Valid(Feed(r, bs).0) && AllShort(Feed(r, bs).1)
    decreases |bs|
  {
    if bs != [] {
      ReadSomeStaysValid(r, bs[..1]);
      FeedStaysValid(ReadSome(r, bs[..1]).0, bs[1..]);
    }
  }

  /** Where the bytes are cut makes no difference. */
  lemma {:induction false} FeedConcat(r: Reader, a: seq<byte>, b: seq<byte>)
    requires Valid(r)
    ensures Valid(Feed(r, a).0)
    ensures Feed(r, a + b) == (Feed(Feed(r, a).0, b).0, Feed(r, a).1 + Feed(Feed(r, a).0, b).1)
    decreases |a|
  {
    FeedStaysValid(r, a);
    if a == [] {
      assert a + b == b;
      assert [] + Feed(r, b).1 == Feed(r, b).1;
    } else {
      ReadSomeStaysValid(r, a[..1]);
      assert (a + b)[..1] == a[..1];
      ConcatTail(a, b);
      var (r1, m1) := ReadSome(r, a[..1]);
      FeedConcat(r1, a[1..], b);
      ConcatAssoc(m1, Feed(r1, a[1..]).1, Feed(Feed(r, a).0, b).1);
    }
  }

  /** Reading a whole piece at once is reading it byte by byte. */
  lemma {:induction false} FeedPiece(r: Reader, more: seq<byte>)
    requires Valid(r) && |more| <= Wants(r)
    ensures Feed(r, more) == ReadSome(r, more)
    decreases |more|
  {
    if more == [] {
      assert r.got + more == r.got;
    } else {
      var first, rest := more[..1], more[1..];
      assert more == first + rest;
      ConcatAssoc(r.got, first, rest);
      ReadSomeStaysValid(r, first);
      var (r1, m1) := ReadSome(r, first);
      if rest == [] {
        assert first == more && m1 + [] == m1;
      } else {
        FeedPiece(r1, rest);
        assert m1 + Feed(r1, rest).1 == Feed(r1, rest).1;
      }
    }
  }

  lemma FeedHeaderThenBody(header: seq<byte>, m: Message)
    requires |header| == HEADER_LENGTH && FromBe(header) == |m|
    ensures Feed(Header([]), header + m) == (Header([]), [m])
  {
    FeedConcat(Header([]), header, m);
    FeedPiece(Header([]), header);
    assert [] + header == header;
    if m == [] {
      assert [[]] + [] == [m];
    } else {
      FeedPiece(Body(|m|, []), m);
      assert [] + m == m && [] + [m] == [m];
    }
  }

  /** A frame that fits its header is read back as its message. */
  lemma FeedFrame(m: Message)
    requires |m| < TWO_TO_THE_32
    ensures Feed(Header([]), Frame(m)) == (Header([]), [m])
  {
    assert |m| % TWO_TO_THE_32 == |m| && Frame(m) == ToBe(|m|) + m;
    BeRoundTrip(|m|);
    FeedHeaderThenBody(ToBe(|m|), m);
  }

  lemma {:induction false} FeedFrames(ms: seq<Message>)
    requires AllShort(ms)
    ensures Feed(Header([]), Frames(ms)) == (Header([]), ms)
  {
    if ms != [] {
      FeedFrame(ms[0]);
      FeedFrames(ms[1..]);
      FeedConcat(Header([]), Frame(ms[0]), Frames(ms[1..]));
      HeadTail(ms);
    }
  }

  /** The round trip holds for a list of messages if and only if each is shorter than 2^32 bytes. */
  lemma RoundTripExactly(ms: seq<Message>)
    ensures Feed(Header([]), Frames(ms)) == (Header([]), ms) <==> AllShort(ms)
  {
    if AllShort(ms) {
      FeedFrames(ms);
    } else {
      FeedStaysValid(Header([]), Frames(ms));
    }
  }

  function FeedAll(r: Reader, chunks: seq<seq<byte>>): (Reader, seq<Message>)
    requires Valid(r)
    decreases |chunks|
  {
    if chunks == [] then (r, [])
    else
      FeedStaysValid(r, chunks[0]);
      var (r1, m1) := Feed(r, chunks[0]);
      var (r2, m2) := FeedAll(r1, chunks[1..]);
      (r2, m1 + m2)
  }

  function Flatten(chunks: seq<seq<byte>>): seq<byte> {
    if chunks == [] then [] else chunks[0] + Flatten(chunks[1..])
  }

  lemma {:induction false} ChunksDoNotMatter(r: Reader, chunks: seq<seq<byte>>)
    requires Valid(r)
    ensures FeedAll(r, chunks) == Feed(r, Flatten(chunks))
    decreases |chunks|
  {
    if chunks != [] {
      FeedStaysValid(r, chunks[0]);
      ChunksDoNotMatter(Feed(r, chunks[0]).0, chunks[1..]);
      FeedConcat(r, chunks[0], Flatten(chunks[1..]));
    }
  }

  /** However the stream of frames is cut, and wherever it stops, what comes out is a prefix of the
      messages that went in; all of them once all bytes are there. */
  lemma ChunkedStreamDecodes(ms: seq<Message>, chunks: seq<seq<byte>>)
    requires AllShort(ms) && Flatten(chunks) <= Frames(ms)
    ensures FeedAll(Header([]), chunks).1 <= ms
    ensures Flatten(chunks) == Frames(ms) ==> FeedAll(Header([]), chunks) == (Header([]), ms)
  {
    var seen := Flatten(chunks);
    var rest := Frames(ms)[|seen|..];
    ChunksDoNotMatter(Header([]), chunks);
    assert Frames(ms) == seen + rest;
    FeedConcat(Header([]), seen, rest);
    FeedFrames(ms);
  }

  // ---- Counting bytes ----

  /** Bytes of the message being read that are already here. */
  function Held(r: Reader): nat {
    match r case Header(got) => |got| case Body(_, got) => HEADER_LENGTH + |got|
  }

  lemma {:induction false} SizeConcat(a: seq<Message>, b: seq<Message>)
    ensures Size(a + b) == Size(a) + Size(b)
  {
    if a == [] {
      assert a + b == b;
    } else {
      ConcatTail(a, b);
      SizeConcat(a[1..], b);
    }
  }

  lemma SizeOne(m: Message)
    ensures Size([m]) == HEADER_LENGTH + |m|
  {
    assert [m][1..] == [];
  }

  lemma ReadSomeCounts(r: Reader, more: seq<byte>)
    requires Valid(r) && |more| <= Wants(r)
    ensures Held(r) + |more| == Size(ReadSome(r, more).1) + Held(ReadSome(r, more).0)
  {
    SizeOne([]);
    SizeOne(r.got + more);
  }

  /** Every byte is accounted for by a delivered message or the one being read. */
  lemma {:induction false} FeedCounts(r: Reader, bs: seq<byte>)
    requires Valid(r)
    ensures Held(r) + |bs| == Size(Feed(r, bs).1) + Held(Feed(r, bs).0)
    decreases |bs|
  {
    if bs != [] {
      ReadSomeStaysValid(r, bs[..1]);
      ReadSomeCounts(r, bs[..1]);
      var (r1, m1) := ReadSome(r, bs[..1]);
      FeedCounts(r1, bs[1..]);
      SizeConcat(m1, Feed(r1, bs[1..]).1);
    }
  }

  // ---- Reading back what was read ----

  /** The bytes of the message being read that are already here. */
  function HeldBytes(r: Reader): seq<byte>
    requires Valid(r)
  {
    match r case Header(got) => got case Body(need, got) => ToBe(need) + got
  }

  lemma {:induction false} FramesConcat(a: seq<Message>, b: seq<Message>)
    ensures Frames(a + b) == Frames(a) + Frames(b)
  {
    if a == [] {
      assert a + b == b;
    } else {
      ConcatTail(a, b);
      FramesConcat(a[1..], b);
      ConcatAssoc(Frame(a[0]), Frames(a[1..]), Frames(b));
    }
  }

  lemma FramesOne(m: Message)
    ensures Frames([m]) == Frame(m)
  {
    assert [m][1..] == [];
    assert Frame(m) + [] == Frame(m);
  }

  lemma HeaderReencodes(got: seq<byte>, more: seq<byte>)
    requires Valid(Header(got)) && |more| <= Wants(Header(got))
    ensures var (next, ms) := ReadSome(Header(got), more);
      got + more == Frames(ms) + HeldBytes(next)
  {
    if |more| == Wants(Header(got)) {
      BeRoundTripBack(got + more);
      FramesOne([]);
    }
  }

  lemma BodyReencodes(need: nat, got: seq<byte>, more: seq<byte>)
    requires Valid(Body(need, got)) && |more| <= Wants(Body(need, got))
    ensures var (next, ms) := ReadSome(Body(need, got), more);
      ToBe(need) + got + more == Frames(ms) + HeldBytes(next)
  {
    var all := got + more;
    ConcatAssoc(ToBe(need), got, more);
    if |more| == Wants(Body(need, got)) {
      assert |all| == need && need % TWO_TO_THE_32 == need;
      assert ReadSome(Body(need, got), more) == (Header([]), [all]);
      FramesOne(all);
      assert Frame(all) == ToBe(need) + all;
      assert Frames([all]) + [] == Frames([all]);
    } else {
      assert ReadSome(Body(need, got), more) == (Body(need, all), []);
      assert [] + HeldBytes(Body(need, all)) == HeldBytes(Body(need, all));
    }
  }

  lemma ReadSomeReencodes(r: Reader, more: seq<byte>)
    requires Valid(r) && |more| <= Wants(r)
    ensures Valid(ReadSome(r, more).0)
    ensures HeldBytes(r) + more == Frames(ReadSome(r, more).1) + HeldBytes(ReadSome(r, more).0)
  {
    ReadSomeStaysValid(r, more);
    match r
    case Header(got) => HeaderReencodes(got, more);
    case Body(need, got) => BodyReencodes(need, got, more);
  }

  /** Whatever bytes arrive, honest or not: the frames of the messages read from them, followed by the
      bytes of the one being read, are exactly those bytes. */
  lemma {:induction false} ReadingReencodes(r: Reader, bs: seq<byte>)
    requires Valid(r)
    ensures Valid(Feed(r, bs).0)
    ensures HeldBytes(r) + bs == Frames(Feed(r, bs).1) + HeldBytes(Feed(r, bs).0)
    decreases |bs|
  {
    FeedStaysValid(r, bs);
    if bs == [] {
      assert HeldBytes(r) + [] == HeldBytes(r) && [] + HeldBytes(r) == HeldBytes(r);
    } else {
      ReadSomeReencodes(r, bs[..1]);
      var (r1, m1) := ReadSome(r, bs[..1]);
      ReadingReencodes(r1, bs[1..]);
      var (r2, m2) := Feed(r1, bs[1..]);
      FramesConcat(m1, m2);
      assert bs == bs[..1] + bs[1..];
      ConcatAssoc(HeldBytes(r), bs[..1], bs[1..]);
      ConcatAssoc(Frames(m1), HeldBytes(r1), bs[1..]);
      ConcatAssoc(Frames(m1), Frames(m2), HeldBytes(r2));
    }
  }
}
