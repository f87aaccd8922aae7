/** The chat connection loop as the resumable object an async function compiles to: one reused
    header buffer, one body buffer per message, and a method for each way it can be resumed. */
module ConnectionLoop {
  import opened Basics
  import opened Framing
  import opened ChatLink

  datatype Suspension = InSelect | InBody | InWrite

  class ConnectionLoop {
    const lenBuf: array<byte>
    var lenRead: nat
    var buf: array<byte>
    var bufRead: nat
    var suspension: Suspension
    var unwritten: seq<byte>
    var outboundRx: seq<Message>
    var inboundTx: seq<Message>
    var alive: bool
    ghost var queued: seq<Message>
    ghost var taken: seq<Message>
    ghost var lost: nat

    ghost predicate Fits()
      reads this
    {
      && lenBuf.Length == HEADER_LENGTH && lenRead < HEADER_LENGTH && buf != lenBuf
      && (suspension.InBody? ==> bufRead < buf.Length < TWO_TO_THE_32)
    }

    ghost function CurrentPhase(): Phase
      requires Fits()
      reads this, lenBuf, buf
    {
      match suspension
      case InSelect => Selecting(lenBuf[..lenRead])
      case InBody => ReadingBody(buf.Length, buf[..bufRead])
      case InWrite => Writing(unwritten)
    }

    ghost function View(): Endpoint
      requires Fits()
      reads this, lenBuf, buf
    {
      Endpoint(CurrentPhase(), outboundRx, inboundTx, alive, queued, taken, lost)
    }

    ghost predicate Valid()
      reads this, lenBuf, buf
    {
      Fits() && ValidEndpoint(View())
    }

    constructor ()
      ensures Valid() && View() == FRESH
    {
      lenBuf := new byte[HEADER_LENGTH];
      buf := new byte[0];
      lenRead, bufRead, suspension, unwritten := 0, 0, InSelect, [];
      outboundRx, inboundTx, alive := [], [], true;
      queued, taken, lost := [], [], 0;
    }

    static method Fill(dst: array<byte>, at: nat, piece: seq<byte>)
      requires at + |piece| <= dst.Length
      modifies dst
      ensures dst[..at + |piece|] == old(dst[..at]) + piece
    {
      for i := 0 to |piece|
        invariant dst[..at + i] == old(dst[..at]) + piece[..i]
      {
        dst[at + i] := piece[i];
      }
    }

    /** The broadcaster's end of the outbound channel: sending to a loop that has ended fails. */
    method Enqueue(m: Message)
      requires Valid()
      modifies this`outboundRx, this`queued
      ensures Valid() && View() == Move(old(View()), [], [], Queue(m)).e
    {
      MoveStaysValid(View(), [], [], Queue(m));
      if alive {
        outboundRx, queued := outboundRx + [m], queued + [m];
      }
    }

    /** The loop returns: end of stream, an error, or a closed queue. */
    method End()
      requires Valid()
      modifies this`alive
      ensures Valid() && View() == Move(old(View()), [], [], Stop).e
    {
      MoveStaysValid(View(), [], [], Stop);
      alive := false;
    }

    /** Bytes arrive for the read in progress. */
    method OnBytes(piece: seq<byte>)
      requires Valid() && CanRead(View(), piece)
      modifies this, lenBuf, buf
      ensures Valid() && View() == Read(old(View()), piece)
    {
      ReadSomeStaysValid(ReaderOf(View().phase), piece);
      if suspension.InSelect? {
        OnHeaderBytes(piece);
      } else {
        OnBodyBytes(piece);
      }
    }

    method OnHeaderBytes(piece: seq<byte>)
      requires Fits() && suspension.InSelect? && lenRead + |piece| <= HEADER_LENGTH
      modifies this, lenBuf
      ensures Fits()
      ensures var (r, ms) := ReadSome(Header(old(lenBuf[..lenRead])), piece);
        View() == old(View()).(phase := PhaseOf(r), inbound := old(inboundTx) + ms)
    {
      Fill(lenBuf, lenRead, piece);
      if lenRead + |piece| < HEADER_LENGTH {
        lenRead := lenRead + |piece|;
        return;
      }
      lenRead := 0;
      var len := FromBe(lenBuf[..]);
      assert lenBuf[..HEADER_LENGTH] == lenBuf[..];
      buf := new byte[len];
      bufRead := 0;
      if len == 0 {
        inboundTx := inboundTx + [[]];
      } else {
        suspension := InBody;
      }
    }

    method OnBodyBytes(piece: seq<byte>)
      requires Fits() && suspension.InBody? && bufRead + |piece| <= buf.Length
      modifies this, buf
      ensures Fits()
      ensures var (r, ms) := ReadSome(Body(old(buf.Length), old(buf[..bufRead])), piece);
        View() == old(View()).(phase := PhaseOf(r), inbound := old(inboundTx) + ms)
    {
      Fill(buf, bufRead, piece);
      bufRead := bufRead + |piece|;
      if bufRead == buf.Length {
        inboundTx := inboundTx + [buf[..]];
        suspension, lenRead := InSelect, 0;
        assert buf[..buf.Length] == buf[..];
      }
    }

    /** The outgoing branch of the select wins: the header read is dropped, and the frame built. */
    method OnOutgoing()
      requires Valid() && CanTake(View())
      modifies this
      ensures Valid() && View() == TakeOutgoing(old(View()))
    {
      MoveStaysValid(View(), [], [], Take);
      var message := outboundRx[0];
      outboundRx := outboundRx[1..];
      taken := taken + [message];
      lost := lost + lenRead;
      var frame := ToBe(|message| % TWO_TO_THE_32);
      frame := frame + message;
      unwritten, suspension, lenRead := frame, InWrite, 0;
    }

    /** The stream takes the next `n` bytes of the frame being written. */
    method OnWritable(n: nat) returns (written: seq<byte>)
      requires Valid() && CanWrite(View(), n)
      modifies this
      ensures Valid() && View() == Write(old(View()), n)
      ensures written == old(unwritten)[..n]
    {
      written := unwritten[..n];
      unwritten := unwritten[n..];
      if unwritten == [] {
        suspension, lenRead := InSelect, 0;
      }
    }
  }
}
