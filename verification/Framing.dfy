/** Message framing: MessageEncode and MessageDecode of ms_framework/msf_simple_rpc.go and the
    receive buffer of the read loops (ms_framework/msf_tcp_server.go). */
module Framing {
  import opened Options
  import opened Codec

  const MAX_PACKET_SIZE := 16 * 1024
  const MESSAGE_SIZE_LEN := 2
  const RECV_BUF_MAX_LEN := 10 * 1024 * 1024

  type Bytes = seq<byte>

  // ---- The format ----

  /** A whole frame on the wire; the length field keeps 16 bits. */
  function Frame(p: Bytes): (f: Bytes)
    ensures |f| == MESSAGE_SIZE_LEN + |p|
  {
    [|p| / 0x100 % 0x100, |p| % 0x100] + p
  }

  /** Payloads whose length fits the length field. */
  ghost predicate Fit(frames: seq<Bytes>) {
    forall p :: p in frames ==> |p| < 0x1_0000
  }

  function Wire(frames: seq<Bytes>): Bytes {
    if frames == [] then [] else Wire(frames[..|frames| - 1]) + Frame(frames[|frames| - 1])
  }

  /** The payloads that are dispatched: a longer one is logged and skipped. */
  function Accepted(frames: seq<Bytes>): seq<Bytes> {
    if frames == [] then []
    else Accepted(frames[..|frames| - 1]) + Accept(frames[|frames| - 1])
  }

  function Accept(p: Bytes): seq<Bytes> {
    if |p| <= MAX_PACKET_SIZE then [p] else []
  }

  /** No whole frame at the front. */
  predicate Unfinished(buf: Bytes) {
    |buf| < MESSAGE_SIZE_LEN || |buf| < MESSAGE_SIZE_LEN + ReadUint16(buf)
  }

  /** The bytes are these whole frames and then the beginning of another. */
  ghost predicate Parses(buf: Bytes, frames: seq<Bytes>, rest: Bytes) {
    buf == Wire(frames) + rest && Fit(frames) && Unfinished(rest)
  }

  // ---- Facts about the format ----

  lemma Glue<T>(a: seq<T>, f: seq<T>, r: seq<T>, b: seq<T>, g: seq<T>, q: seq<T>)
    requires a == f + r && r + b == g + q
    ensures a + b == f + g + q
  {
    assert a + b == f + (r + b);
    assert f + (g + q) == f + g + q;
  }

  lemma {:induction false} WireConcat(a: seq<Bytes>, b: seq<Bytes>)
    ensures Wire(a + b) == Wire(a) + Wire(b)
    decreases |b|
  {
    if b == [] {
      assert a + b == a;
    } else {
      var n, ab := |b| - 1, a + b;
      WireConcat(a, b[..n]);
      assert ab[..|ab| - 1] == a + b[..n] && ab[|ab| - 1] == b[n];
      Glue(Wire(a + b[..n]), Wire(a), Wire(b[..n]), Frame(b[n]), Wire(b), []);
    }
  }

  lemma {:induction false} AcceptedConcat(a: seq<Bytes>, b: seq<Bytes>)
    ensures Accepted(a + b) == Accepted(a) + Accepted(b)
    decreases |b|
  {
    if b == [] {
      assert a + b == a;
    } else {
      var n, ab := |b| - 1, a + b;
      AcceptedConcat(a, b[..n]);
      assert ab[..|ab| - 1] == a + b[..n] && ab[|ab| - 1] == b[n];
      Glue(Accepted(a + b[..n]), Accepted(a), Accepted(b[..n]), Accept(b[n]), Accepted(b), []);
    }
  }

  lemma WireOne(p: Bytes)
    ensures Wire([p]) == Frame(p) && Accepted([p]) == Accept(p)
  {
    assert [p][..0] == [];
    assert Wire([]) + Frame(p) == Frame(p);
  }

  lemma FrontFrame(p: Bytes, tail: Bytes)
    requires |p| < 0x1_0000
    ensures var buf := Frame(p) + tail;
      && !Unfinished(buf) && ReadUint16(buf) == |p|
      && buf[MESSAGE_SIZE_LEN..MESSAGE_SIZE_LEN + |p|] == p
      && buf[MESSAGE_SIZE_LEN + |p|..] == tail
  {
    var buf := Frame(p) + tail;
    assert buf[0] == |p| / 0x100 % 0x100 && buf[1] == |p| % 0x100;
  }

  /** A buffer that is not unfinished begins with a frame. */
  lemma TakeFrame(buf: Bytes)
    requires !Unfinished(buf)
    ensures var n := MESSAGE_SIZE_LEN + ReadUint16(buf);
      n < MESSAGE_SIZE_LEN + 0x1_0000 && buf[..n] == Frame(buf[MESSAGE_SIZE_LEN..n])
  {
    var n := MESSAGE_SIZE_LEN + ReadUint16(buf);
    assert (n - 2) / 0x100 == buf[0] && (n - 2) % 0x100 == buf[1];
  }

  /** Bytes have at most one reading as frames and a tail. */
  lemma {:induction false} ParseUnique(buf: Bytes, f: seq<Bytes>, r: Bytes, g: seq<Bytes>, q: Bytes)
    requires Parses(buf, f, r) && Parses(buf, g, q)
    ensures f == g && r == q
    decreases |f|
  {
    if f == [] || g == [] {
      ParseNothing(buf, f, r);
      ParseNothing(buf, g, q);
    } else {
      ParseFirst(buf, f, r);
      ParseFirst(buf, g, q);
      ParseUnique(buf[MESSAGE_SIZE_LEN + |f[0]|..], f[1..], r, g[1..], q);
      assert f == [f[0]] + f[1..] && g == [g[0]] + g[1..];
    }
  }

  lemma ParseFirst(buf: Bytes, f: seq<Bytes>, r: Bytes)
    requires Parses(buf, f, r) && f != []
    ensures !Unfinished(buf)
    ensures f[0] == buf[MESSAGE_SIZE_LEN..MESSAGE_SIZE_LEN + ReadUint16(buf)]
    ensures Parses(buf[MESSAGE_SIZE_LEN + |f[0]|..], f[1..], r)
  {
    assert f == [f[0]] + f[1..];
    WireConcat([f[0]], f[1..]);
    WireOne(f[0]);
    assert buf == Frame(f[0]) + (Wire(f[1..]) + r);
    FrontFrame(f[0], Wire(f[1..]) + r);
  }

  lemma ParseNothing(buf: Bytes, f: seq<Bytes>, r: Bytes)
    requires Parses(buf, f, r)
    ensures f == [] <==> Unfinished(buf)
    ensures f == [] ==> r == buf
  {
    if f == [] {
      assert [] + r == r;
    } else {
      ParseFirst(buf, f, r);
    }
  }

  /** Parsing first what is there and then what was left with what comes is parsing it all. */
  lemma ParseAppend(a: Bytes, f: seq<Bytes>, r: Bytes, b: Bytes, g: seq<Bytes>, q: Bytes)
    requires Parses(a, f, r) && Parses(r + b, g, q)
    ensures Parses(a + b, f + g, q) && Accepted(f + g) == Accepted(f) + Accepted(g)
  {
    WireConcat(f, g);
    AcceptedConcat(f, g);
    Glue(a, Wire(f), r, b, Wire(g), q);
  }

  /** What is kept between reads is short, whatever came. */
  lemma UnfinishedIsShort(buf: Bytes)
    requires Unfinished(buf)
    ensures |buf| <= 0x1_0000
  {
    assert |buf| >= 2 ==> ReadUint16(buf) < 0x1_0000;
  }

  lemma {:induction false} AllAccepted(frames: seq<Bytes>)
    requires forall i :: 0 <= i < |frames| ==> |frames[i]| <= MAX_PACKET_SIZE
    ensures Accepted(frames) == frames
  {
    if frames == [] {
    } else {
      var n := |frames| - 1;
      AllAccepted(frames[..n]);
      assert frames == frames[..n] + [frames[n]];
    }
  }

  // ---- The encoder and the decoder ----

  method MessageEncode(buf: Bytes) returns (r: Option<Bytes>)
    ensures r == if |buf| > MAX_PACKET_SIZE then None else Some(Frame(buf))
  {
    if |buf| > MAX_PACKET_SIZE {
      return None;  // panic
    }
    var msg := new byte[MESSAGE_SIZE_LEN + |buf|];
    WriteUint16(msg, 0, |buf|);
    DigitsOf2(|buf|);
    assert msg[0] == |buf| / 0x100 && msg[1] == |buf| % 0x100;
    forall i | 0 <= i < |buf| {
      msg[MESSAGE_SIZE_LEN + i] := buf[i];
    }
    assert msg[..] == Frame(buf);
    return Some(msg[..]);
  }

  /** The decode loop over any bytes (a slice of the receive buffer, which it only reads): it
      consumes exactly the whole frames at the front and hands out those that are not too long, in
      order. */
  method MessageDecode(msg: Bytes) returns (payloads: seq<Bytes>, offset: nat, ghost frames: seq<Bytes>)
    ensures offset <= |msg|
    ensures Parses(msg, frames, msg[offset..])
    ensures payloads == Accepted(frames)
  {
    offset, payloads, frames := 0, [], [];
    var bufLen := |msg|;
    while offset < bufLen && !(bufLen - offset < MESSAGE_SIZE_LEN)
      invariant offset <= bufLen
      invariant Consumed(msg, offset, frames, payloads)
    {
      var pkgLen := ReadUint16(msg[offset..]);
      if bufLen - offset < MESSAGE_SIZE_LEN + pkgLen {
        break;
      }
      Turn(msg, offset, pkgLen, frames, payloads);
      offset := offset + MESSAGE_SIZE_LEN;
      var buf := msg[offset..offset + pkgLen];
      if pkgLen <= MAX_PACKET_SIZE {
        payloads := payloads + [buf];
      }
      frames := frames + [buf];
      offset := offset + pkgLen;
      assert Consumed(msg, offset, frames, payloads);
    }
    Done(msg, offset, frames, payloads);
  }

  /** The first offset bytes are these frames, and these of them were handed out. */
  ghost predicate Consumed(whole: Bytes, offset: nat, frames: seq<Bytes>, payloads: seq<Bytes>)
    requires offset <= |whole|
  {
    Wire(frames) == whole[..offset] && Fit(frames) && payloads == Accepted(frames)
  }

  lemma Done(whole: Bytes, offset: nat, frames: seq<Bytes>, payloads: seq<Bytes>)
    requires offset <= |whole| && Consumed(whole, offset, frames, payloads) && Unfinished(whole[offset..])
    ensures Parses(whole, frames, whole[offset..])
  {
    assert whole == whole[..offset] + whole[offset..];
  }

  /** The frame at some offset of a buffer. */
  lemma NextFrame(buf: Bytes, offset: nat, pkgLen: nat)
    requires offset + MESSAGE_SIZE_LEN <= |buf| && pkgLen == ReadUint16(buf[offset..])
    requires offset + MESSAGE_SIZE_LEN + pkgLen <= |buf|
    ensures var at := offset + MESSAGE_SIZE_LEN;
      pkgLen < 0x1_0000 && buf[..at + pkgLen] == buf[..offset] + Frame(buf[at..at + pkgLen])
  {
    var here, n := buf[offset..], MESSAGE_SIZE_LEN + pkgLen;
    TakeFrame(here);
    assert here[MESSAGE_SIZE_LEN..n] == buf[offset + MESSAGE_SIZE_LEN..offset + n];
    assert here[..n] == buf[offset..offset + n];
    assert buf[..offset + n] == buf[..offset] + buf[offset..offset + n];
  }

  lemma Turn(buf: Bytes, offset: nat, pkgLen: nat, frames: seq<Bytes>, payloads: seq<Bytes>)
    requires offset + MESSAGE_SIZE_LEN <= |buf| && pkgLen == ReadUint16(buf[offset..])
    requires offset + MESSAGE_SIZE_LEN + pkgLen <= |buf|
    requires Consumed(buf, offset, frames, payloads)
    ensures var at := offset + MESSAGE_SIZE_LEN;
      var p := buf[at..at + pkgLen];
      && (pkgLen <= MAX_PACKET_SIZE ==> Consumed(buf, at + pkgLen, frames + [p], payloads + [p]))
      && (pkgLen > MAX_PACKET_SIZE ==> Consumed(buf, at + pkgLen, frames + [p], payloads))
  {
    NextFrame(buf, offset, pkgLen);
    OneMore(frames, buf[offset + MESSAGE_SIZE_LEN..offset + MESSAGE_SIZE_LEN + pkgLen]);
  }

  lemma OneMore(frames: seq<Bytes>, p: Bytes)
    ensures Wire(frames + [p]) == Wire(frames) + Frame(p)
    ensures Accepted(frames + [p]) == if |p| <= MAX_PACKET_SIZE then Accepted(frames) + [p] else Accepted(frames)
  {
    assert (frames + [p])[..|frames|] == frames;
  }

  // ---- A connection ----

  /** Round trip under any fragmentation. Payloads that MessageEncode accepts are sent one after
      another, then the beginning of a further message. Then the frames and the kept bytes that
      HandleRead ends with, however it read that stream, are these payloads, all of them
      dispatched in order, and exactly that beginning. */
  lemma FragmentationRoundTrip(payloads: seq<Bytes>, tail: Bytes, frames: seq<Bytes>, rest: Bytes)
    requires forall i :: 0 <= i < |payloads| ==> |payloads[i]| <= MAX_PACKET_SIZE
    requires Unfinished(tail)
    requires Parses(Wire(payloads) + tail, frames, rest)
    ensures Accepted(frames) == payloads && rest == tail
  {
    ParseUnique(Wire(payloads) + tail, frames, rest, payloads, tail);
    AllAccepted(payloads);
  }

  /** The receiving end of a connection. */
  class TcpClient {
    const recvBuf: array<byte>
    var remainLen: nat

    /** Between reads only an unfinished frame is kept, so most of the buffer is free. */
    ghost predicate Valid()
      reads this, recvBuf
    {
      && recvBuf.Length == RECV_BUF_MAX_LEN
      && remainLen <= 0x1_0000
      && Unfinished(Pending())
    }

    ghost function Pending(): Bytes
      reads this, recvBuf
      requires remainLen <= recvBuf.Length
    {
      recvBuf[..remainLen]
    }

    constructor ()
      ensures Valid() && fresh(recvBuf) && Pending() == []
    {
      recvBuf := new byte[RECV_BUF_MAX_LEN];
      remainLen := 0;
    }

    /** One turn of the read loop on a non-empty read, of at most the free space. The connection
        is never given up for overflow, and subtracting what was consumed never wraps. */
    method OnRead(chunk: Bytes) returns (payloads: seq<Bytes>, overflow: bool, ghost frames: seq<Bytes>)
      requires Valid() && |chunk| <= RECV_BUF_MAX_LEN - remainLen
      modifies this, recvBuf
      ensures Valid() && !overflow
      ensures Parses(old(Pending()) + chunk, frames, Pending()) && payloads == Accepted(frames)
    {
      Fill(chunk);
      remainLen := remainLen + |chunk|;
      overflow := remainLen > RECV_BUF_MAX_LEN;
      if overflow {
        return [], true, [];
      }
      var procLen;
      payloads, procLen, frames := MessageDecode(recvBuf[..remainLen]);
      remainLen := remainLen - procLen;
      Shift(procLen);
      UnfinishedIsShort(Pending());
    }

    /** The socket's part of a read: the bytes land behind what was kept. */
    method Fill(chunk: Bytes)
      requires remainLen + |chunk| <= recvBuf.Length
      modifies recvBuf
      ensures recvBuf[..remainLen + |chunk|] == old(Pending()) + chunk
    {
      forall i | 0 <= i < |chunk| {
        recvBuf[remainLen + i] := chunk[i];
      }
    }

    /** What was not consumed moves to the front. */
    method Shift(procLen: nat)
      requires procLen + remainLen <= recvBuf.Length
      modifies recvBuf
      ensures Pending() == old(recvBuf[procLen..procLen + remainLen])
    {
      forall i | 0 <= i < remainLen {
        recvBuf[i] := recvBuf[procLen + i];
      }
    }

    /** The read loop of a connection that stays open while the stream arrives: turn i reads what
        the i-th cut allows, as far as the buffer has room and the stream goes on, and a read of
        nothing ends the loop. There is always room, so enough non-empty cuts read it all; and the
        reads together parse as one stream. */
    method HandleRead(stream: Bytes, cuts: seq<nat>)
      returns (payloads: seq<Bytes>, used: nat, ghost frames: seq<Bytes>)
      requires Valid()
      modifies this, recvBuf
      ensures Valid() && used <= |stream|
      ensures |cuts| >= |stream| && (forall c :: c in cuts ==> c > 0) ==> used == |stream|
      ensures Parses(old(Pending()) + stream[..used], frames, Pending()) && payloads == Accepted(frames)
    {
      payloads, used, frames := [], 0, [];
      ghost var start, seen := Pending(), Pending();
      assert Wire([]) + start == start && start + stream[..0] == start;
      for i := 0 to |cuts|
        invariant Valid() && used <= |stream|
        invariant (forall c :: c in cuts ==> c > 0) ==> used >= i
        invariant seen == start + stream[..used]
        invariant Parses(seen, frames, Pending()) && payloads == Accepted(frames)
      {
        var rLen := Min(cuts[i], Min(RECV_BUF_MAX_LEN - remainLen, |stream| - used));
        assert cuts[i] in cuts;
        if rLen == 0 {
          break;
        }
        ghost var kept := Pending();
        var chunk := stream[used..used + rLen];
        assert seen + chunk == start + stream[..used + rLen] by {
          StreamNext(start, stream, used, used + rLen);
        }
        var more, overflow, some := OnRead(chunk);
        ParseAppend(seen, frames, kept, chunk, some, Pending());
        payloads := payloads + more;
        used := used + rLen;
        frames, seen := frames + some, seen + chunk;
      }
    }

    /** The round trip as the connection makes it: from an empty buffer, and for every cut of the
        encodings of these payloads and an unfinished tail into non-empty reads that reach the end,
        what is dispatched is the payloads in order and what is kept is the tail. */
    method ReceiveAll(stream: Bytes, cuts: seq<nat>, ghost sent: seq<Bytes>, ghost tail: Bytes)
      returns (payloads: seq<Bytes>)
      requires Valid() && Pending() == []
      requires stream == Wire(sent) + tail && Unfinished(tail)
      requires forall i :: 0 <= i < |sent| ==> |sent[i]| <= MAX_PACKET_SIZE
      requires |cuts| >= |stream| && forall c :: c in cuts ==> c > 0
      modifies this, recvBuf
      ensures Valid() && payloads == sent && Pending() == tail
    {
      var used;
      ghost var frames;
      payloads, used, frames := HandleRead(stream, cuts);
      assert [] + stream[..used] == stream;
      FragmentationRoundTrip(sent, tail, frames, Pending());
    }
  }

  lemma StreamNext(start: Bytes, stream: Bytes, used: nat, next: nat)
    requires used <= next <= |stream|
    ensures start + stream[..next] == start + stream[..used] + stream[used..next]
  {
    assert stream[..next] == stream[..used] + stream[used..next];
  }

  function Min(a: int, b: int): int { if a < b then a else b }
}
