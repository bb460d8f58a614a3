/**
 Length-prefixed frames over a byte stream that may be cut short
 (crates/wt-core/src/framing.rs and the receive loop of services/msg.rs).

 The QUIC stream itself is a foreign library. A send stream accepts some number of
 bytes and then breaks; a receive stream holds the bytes that arrived and how it ended.
 */
module Framing {
  import opened Basics

  const MAX_FRAME_BYTES: nat := 16 * 1024 * 1024
  const TWO_32: nat := 0x1_0000_0000

  /** Bytes in the length prefix. */
  const PREFIX: nat := 4

  // ----- The big-endian length prefix -----

  function BigEndian(n: nat, width: nat): (r: Bytes)
    ensures |r| == width
    decreases width
  {
    if width == 0 then [] else BigEndian(n / 0x100, width - 1) + [(n % 0x100) as byte]
  }

  function FromBigEndian(b: Bytes): nat
    decreases |b|
  {
    if b == [] then 0 else FromBigEndian(b[..|b| - 1]) * 0x100 + b[|b| - 1] as nat
  }

  function Pow256(k: nat): nat {
    if k == 0 then 1 else 0x100 * Pow256(k - 1)
  }

  lemma {:induction false} BigEndianRoundTrip(n: nat, width: nat)
    requires n < Pow256(width)
    ensures FromBigEndian(BigEndian(n, width)) == n
    decreases width
  {
    if width > 0 {
      BigEndianRoundTrip(n / 0x100, width - 1);
      var b := BigEndian(n, width);
      assert b[..|b| - 1] == BigEndian(n / 0x100, width - 1);
    }
  }

  /** Four bytes are enough for every accepted length, and for nothing from 2^32 on. */
  lemma PrefixRange()
    ensures Pow256(PREFIX) == TWO_32
  {
    assert Pow256(1) == 0x100;
    assert Pow256(2) == 0x1_0000;
    assert Pow256(3) == 0x100_0000;
  }

  // ----- What the bytes mean -----

  /** The wire image of one body that the writer accepts. */
  function FrameBytes(body: Bytes): (r: Bytes)
    requires |body| <= MAX_FRAME_BYTES
    ensures |r| == PREFIX + |body|
  {
    BigEndian(|body|, PREFIX) + body
  }

  predicate Writable(bodies: seq<Bytes>) {
    forall i :: 0 <= i < |bodies| ==> |bodies[i]| <= MAX_FRAME_BYTES
  }

  /** The wire image of several frames, in order. */
  function Encode(bodies: seq<Bytes>): Bytes
    requires Writable(bodies)
  {
    if bodies == [] then [] else FrameBytes(bodies[0]) + Encode(bodies[1..])
  }

  /** Why a read of exactly n bytes failed. */
  datatype ReadError = FinishedEarly(got: nat) | Lost

  datatype FrameResult = Body(body: Bytes) | CleanEof | TooLarge(len: nat) | Read(error: ReadError)

  function Shortfall(data: Bytes, finished: bool): ReadError {
    if finished then FinishedEarly(|data|) else Lost
  }

  /** One call of the frame reader on the bytes that are left, and the bytes left after it. */
  function NextFrame(data: Bytes, finished: bool): (r: (FrameResult, Bytes)) {
    if |data| < PREFIX then
      (if finished && data == [] then CleanEof else Read(Shortfall(data, finished)), [])
    else
      var len := FromBigEndian(data[..PREFIX]);
      var rest := data[PREFIX..];
      if len > MAX_FRAME_BYTES then (TooLarge(len), rest)
      else if |rest| < len then (Read(Shortfall(rest, finished)), [])
      else (Body(rest[..len]), rest[len..])
  }

  /** The length that the first four bytes announce, the most significant byte first. */
  function Announced(data: Bytes): nat
    requires |data| >= 4
  {
    data[0] as nat * 0x100_0000 + data[1] as nat * 0x1_0000 + data[2] as nat * 0x100 + data[3] as nat
  }

  lemma AnnouncedIs(data: Bytes)
    requires |data| >= 4
    ensures FromBigEndian(data[..4]) == Announced(data)
  {
    var b := data[..4];
    assert b[..3][..2] == b[..2] && b[..3][..2][..1] == b[..1] && b[..3][..2][..1][..0] == [];
    assert FromBigEndian(b[..1]) == b[0] as nat;
    assert FromBigEndian(b[..2]) == b[0] as nat * 0x100 + b[1] as nat;
    assert FromBigEndian(b[..3]) == (b[0] as nat * 0x100 + b[1] as nat) * 0x100 + b[2] as nat;
  }

  /** What one read of a frame makes of the bytes that are left, in terms of these bytes alone. */
  ghost predicate ReadsAs(data: Bytes, finished: bool, r: FrameResult, rest: Bytes) {
    && (r.CleanEof? <==> finished && data == [])
    && (r.TooLarge? <==> |data| >= 4 && Announced(data) > 16 * 1024 * 1024)
    && (r.Body? <==> |data| >= 4 && Announced(data) <= 16 * 1024 * 1024 && 4 + Announced(data) <= |data|)
    && (r.Body? ==> data[4..] == r.body + rest && |r.body| == Announced(data))
    && (r.Read? ==> r.error.Lost? == !finished)
  }

  lemma FrameRead(data: Bytes, finished: bool)
    ensures ReadsAs(data, finished, NextFrame(data, finished).0, NextFrame(data, finished).1)
  {
    if |data| >= 4 {
      AnnouncedIs(data);
      hide FromBigEndian, Announced;
      var n := FromBigEndian(data[..4]);
      if 4 + n <= |data| {
        assert data[4..] == data[4..][..n] + data[4..][n..];
      }
    }
  }

  /** Every frame a receive loop gets out of the bytes that arrived, and the result that ends it. */
  function ReadAll(data: Bytes, finished: bool): (r: (seq<Bytes>, FrameResult))
    ensures !r.1.Body?
    decreases |data|
  {
    var (f, rest) := NextFrame(data, finished);
    if f.Body? then
      var (more, end) := ReadAll(rest, finished);
      ([f.body] + more, end)
    else ([], f)
  }

  // ----- Properties of the codec -----

  lemma PrefixOfFrame(body: Bytes, rest: Bytes)
    requires |body| <= MAX_FRAME_BYTES
    ensures FromBigEndian((FrameBytes(body) + rest)[..PREFIX]) == |body|
  {
    PrefixRange();
    BigEndianRoundTrip(|body|, PREFIX);
    hide BigEndian, FromBigEndian, Pow256;
    assert (FrameBytes(body) + rest)[..PREFIX] == BigEndian(|body|, PREFIX);
  }

  lemma FrameAnnounces(body: Bytes)
    requires |body| <= MAX_FRAME_BYTES
    ensures Announced(FrameBytes(body)) == |body| && FrameBytes(body)[4..] == body
  {
    PrefixOfFrame(body, []);
    BodyOfFrame(body, []);
    assert FrameBytes(body) + [] == FrameBytes(body) && body + [] == body;
    AnnouncedIs(FrameBytes(body));
  }

  lemma BodyOfFrame(body: Bytes, rest: Bytes)
    requires |body| <= MAX_FRAME_BYTES
    ensures (FrameBytes(body) + rest)[PREFIX..] == body + rest
  {
    hide BigEndian;
  }

  lemma NextFrameOfFrame(body: Bytes, rest: Bytes, finished: bool)
    requires |body| <= MAX_FRAME_BYTES
    ensures NextFrame(FrameBytes(body) + rest, finished) == (Body(body), rest)
  {
    hide FromBigEndian, FrameBytes;
    PrefixOfFrame(body, rest);
    BodyOfFrame(body, rest);
    assert (body + rest)[..|body|] == body && (body + rest)[|body|..] == rest;
  }

  /** A strict prefix of one frame never yields a body, and only the empty one can end cleanly. */
  lemma NextFrameOfCutFrame(body: Bytes, cut: nat, finished: bool)
    requires |body| <= MAX_FRAME_BYTES && cut < |FrameBytes(body)|
    ensures var r := NextFrame(FrameBytes(body)[..cut], finished).0;
            if cut == 0 && finished then r == CleanEof else r.Read?
  {
    var data := FrameBytes(body)[..cut];
    if cut >= PREFIX {
      PrefixRange();
      BigEndianRoundTrip(|body|, PREFIX);
      assert data[..PREFIX] == BigEndian(|body|, PREFIX);
    }
  }

  lemma ReadAllStep(body: Bytes, rest: Bytes, finished: bool)
    requires |body| <= MAX_FRAME_BYTES
    ensures ReadAll(FrameBytes(body) + rest, finished).0 == [body] + ReadAll(rest, finished).0
    ensures ReadAll(FrameBytes(body) + rest, finished).1 == ReadAll(rest, finished).1
  {
    NextFrameOfFrame(body, rest, finished);
  }

  /** How many bytes the first `k` frames take. */
  function Offset(bodies: seq<Bytes>, k: nat): nat
    requires k <= |bodies|
  {
    if k == 0 then 0 else PREFIX + |bodies[0]| + Offset(bodies[1..], k - 1)
  }

  lemma {:induction false} OffsetIsLength(bodies: seq<Bytes>)
    requires Writable(bodies)
    ensures |Encode(bodies)| == Offset(bodies, |bodies|)
  {
    if bodies != [] {
      OffsetIsLength(bodies[1..]);
    }
  }

  lemma {:induction false} OffsetMonotone(bodies: seq<Bytes>, j: nat, k: nat)
    requires j < k <= |bodies|
    ensures Offset(bodies, j) + PREFIX <= Offset(bodies, k)
  {
    if j > 0 {
      OffsetMonotone(bodies[1..], j - 1, k - 1);
    }
  }

  /** Reading the first `cut` bytes of `wire` yields the first `k` bodies, and ends as it should. */
  ghost predicate Yields(bodies: seq<Bytes>, wire: Bytes, cut: nat, finished: bool, k: nat)
    requires cut <= |wire|
  {
    && k <= |bodies| && Offset(bodies, k) <= cut
    && (k < |bodies| ==> cut < Offset(bodies, k + 1))
    && ReadAll(wire[..cut], finished).0 == bodies[..k]
    && (if finished && cut == Offset(bodies, k)
        then ReadAll(wire[..cut], finished).1 == CleanEof
        else ReadAll(wire[..cut], finished).1.Read?)
  }

  lemma PrefixInsideFirst(bodies: seq<Bytes>, cut: nat, finished: bool)
    requires Writable(bodies) && bodies != [] && cut < |FrameBytes(bodies[0])| <= |Encode(bodies)|
    ensures Yields(bodies, Encode(bodies), cut, finished, 0)
  {
    assert Encode(bodies)[..cut] == FrameBytes(bodies[0])[..cut];
    NextFrameOfCutFrame(bodies[0], cut, finished);
  }

  lemma PrefixOfNone(finished: bool)
    ensures Yields([], Encode([]), 0, finished, 0)
  {
  }

  lemma PrefixPastFirst(bodies: seq<Bytes>, tail: Bytes, cut: nat, finished: bool, j: nat)
    requires bodies != [] && |bodies[0]| <= MAX_FRAME_BYTES && cut <= |tail|
    requires Yields(bodies[1..], tail, cut, finished, j)
    ensures Yields(bodies, FrameBytes(bodies[0]) + tail, |FrameBytes(bodies[0])| + cut, finished, j + 1)
  {
    hide ReadAll, FrameBytes;
    var first := FrameBytes(bodies[0]);
    assert (first + tail)[..|first| + cut] == first + tail[..cut];
    ReadAllStep(bodies[0], tail[..cut], finished);
    assert Offset(bodies, j + 1) == |first| + Offset(bodies[1..], j);
    assert j < |bodies[1..]| ==> Offset(bodies, j + 2) == |first| + Offset(bodies[1..], j + 1);
    assert [bodies[0]] + bodies[1..][..j] == bodies[..j + 1];
  }

  /**
   Reading any byte prefix of a run of written frames yields exactly the frames that lie
   wholly inside the prefix. It ends cleanly iff the stream was finished and cut at a frame
   boundary; every other cut is reported as a read error, and never as an oversized frame.
   */
  lemma {:induction false} PrefixYieldsWholeFrames(bodies: seq<Bytes>, cut: nat, finished: bool) returns (k: nat)
    requires Writable(bodies) && cut <= |Encode(bodies)|
    ensures Yields(bodies, Encode(bodies), cut, finished, k)
    decreases |bodies|
  {
    hide ReadAll, FrameBytes, Yields;
    if bodies == [] {
      k := 0;
      PrefixOfNone(finished);
    } else if cut < |FrameBytes(bodies[0])| {
      k := 0;
      PrefixInsideFirst(bodies, cut, finished);
    } else {
      var c := cut - |FrameBytes(bodies[0])|;
      var j := PrefixYieldsWholeFrames(bodies[1..], c, finished);
      k := j + 1;
      PrefixPastFirst(bodies, Encode(bodies[1..]), c, finished, j);
    }
  }

  /** The whole of a finished stream reads back as exactly what was written. */
  lemma {:induction false} RoundTrip(bodies: seq<Bytes>)
    requires Writable(bodies)
    ensures ReadAll(Encode(bodies), true) == (bodies, CleanEof)
  {
    if bodies != [] {
      RoundTrip(bodies[1..]);
      ReadAllStep(bodies[0], Encode(bodies[1..]), true);
      assert [bodies[0]] + bodies[1..] == bodies;
    }
  }

  /** `len as u32`: the length prefix the writer would send for a body of `n` bytes. */
  function LengthPrefix(n: nat): nat {
    n % TWO_32
  }

  lemma LengthSurvives(n: nat)
    requires n < TWO_32
    ensures FromBigEndian(BigEndian(n, PREFIX)) == n
  {
    PrefixRange();
    BigEndianRoundTrip(n, PREFIX);
  }

  /**
   Writer and reader agree on every body whose length fits in 32 bits. Beyond that the
   wrapped prefix can look acceptable (a body of 2^32 bytes would announce 0), which is why
   the writer's own test on the unwrapped length is needed.
   */
  lemma WriterAndReaderAgree(n: nat)
    ensures n < TWO_32 ==> (n <= MAX_FRAME_BYTES <==> LengthPrefix(n) <= MAX_FRAME_BYTES)
    ensures LengthPrefix(TWO_32) <= MAX_FRAME_BYTES < TWO_32
    ensures n <= MAX_FRAME_BYTES ==> FromBigEndian(BigEndian(LengthPrefix(n), PREFIX)) == n
  {
    hide BigEndian, FromBigEndian;
    if n <= MAX_FRAME_BYTES {
      LengthSurvives(n);
    }
  }

  // ----- The code -----

  datatype WriteResult = Written | FrameTooLarge(len: nat) | Broken

  /** The sending end. `room` is how many more bytes the transport will take before it breaks. */
  class SendStream {
    var wire: Bytes
    var room: nat

    constructor (room: nat)
      ensures wire == [] && this.room == room
    {
      wire := [];
      this.room := room;
    }

    method WriteAll(data: Bytes) returns (ok: bool)
      modifies this
      ensures ok <==> |data| <= old(room)
      ensures wire == old(wire) + data[..Min(|data|, old(room))]
      ensures room == old(room) - Min(|data|, old(room))
    {
      ok := |data| <= room;
      var n := Min(|data|, room);
      wire := wire + data[..n];
      room := room - n;
    }
  }

  method WriteFrame(send: SendStream, body: Bytes) returns (r: WriteResult)
    modifies send
    ensures r.FrameTooLarge? <==> |body| > 16 * 1024 * 1024
    ensures r.FrameTooLarge? ==> r.len == |body| && send.wire == old(send.wire) && send.room == old(send.room)
    ensures r.Written? <==> |body| <= MAX_FRAME_BYTES && PREFIX + |body| <= old(send.room)
    ensures r.Written? ==> send.wire == old(send.wire) + FrameBytes(body)
    ensures r.Written? ==> Announced(FrameBytes(body)) == |body| && FrameBytes(body)[4..] == body
    ensures r.Broken? ==> send.room == 0 && send.wire == old(send.wire) + FrameBytes(body)[..old(send.room)]
  {
    hide BigEndian, Announced;
    if |body| > MAX_FRAME_BYTES {
      return FrameTooLarge(|body|);
    }
    FrameAnnounces(body);
    var len := BigEndian(LengthPrefix(|body|), PREFIX);
    var ok := send.WriteAll(len);
    if !ok {
      return Broken;
    }
    ok := send.WriteAll(body);
    if !ok {
      assert FrameBytes(body)[..old(send.room)] == len + body[..old(send.room) - PREFIX];
      return Broken;
    }
    return Written;
  }

  /** The receiving end: the bytes that arrived, whether the peer finished, how far we have read. */
  class RecvStream {
    const data: Bytes
    const finished: bool
    var pos: nat

    ghost predicate Valid()
      reads this
    {
      pos <= |data|
    }

    ghost function Left(): Bytes
      requires Valid()
      reads this
    {
      data[pos..]
    }

    constructor (data: Bytes, finished: bool)
      ensures Valid() && Left() == data && this.data == data && this.finished == finished
    {
      this.data := data;
      this.finished := finished;
      pos := 0;
    }

    /** Fills the whole buffer, or consumes what is left and says why it could not. */
    method ReadExact(buf: array<byte>) returns (r: Option<ReadError>)
      requires Valid()
      modifies this, buf
      ensures Valid()
      ensures r.None? <==> buf.Length <= |old(Left())|
      ensures r.None? ==> buf[..] == old(Left())[..buf.Length] && Left() == old(Left())[buf.Length..]
      ensures r.Some? ==> r.value == Shortfall(old(Left()), finished) && Left() == []
    {
      var left := |data| - pos;
      if left < buf.Length {
        pos := |data|;
        return Some(if finished then FinishedEarly(left) else Lost);
      }
      for i := 0 to buf.Length
        invariant pos == old(pos)
        invariant buf[..i] == data[pos..][..i]
      {
        buf[i] := data[pos + i];
      }
      assert buf[..] == buf[..buf.Length];
      pos := pos + buf.Length;
      return None;
    }
  }

  method ReadFrame(recv: RecvStream) returns (r: FrameResult)
    requires recv.Valid()
    modifies recv
    ensures recv.Valid()
    ensures (r, recv.Left()) == NextFrame(old(recv.Left()), recv.finished)
    ensures ReadsAs(old(recv.Left()), recv.finished, r, recv.Left())
  {
    FrameRead(recv.Left(), recv.finished);
    hide ReadsAs;
    var lenBuf := new byte[PREFIX];
    var e := recv.ReadExact(lenBuf);
    match e {
      case None =>
      case Some(FinishedEarly(0)) => return CleanEof;
      case Some(err) => return Read(err);
    }
    var len := FromBigEndian(lenBuf[..]);
    if len > MAX_FRAME_BYTES {
      return TooLarge(len);
    }
    var buf := new byte[len];
    e := recv.ReadExact(buf);
    if e.Some? {
      return Read(e.value);
    }
    return Body(buf[..]);
  }

  /** An encoding of `M` values as frame bodies, and the partial decoder that undoes it. */
  datatype Codec<!M> = Codec(enc: M -> Bytes, dec: Bytes -> Option<M>)

  ghost predicate Lossless<M(!new)>(c: Codec<M>) {
    forall m :: c.dec(c.enc(m)) == Some(m)
  }

  /** What the receive loop hands on: bodies decoded in order, up to the first that does not decode. */
  function DecodeAll<M>(c: Codec<M>, bodies: seq<Bytes>): seq<M> {
    if bodies == [] || c.dec(bodies[0]).None? then [] else [c.dec(bodies[0]).value] + DecodeAll(c, bodies[1..])
  }

  datatype LoopEnd = CleanEnd | ReadFailed(error: FrameResult) | DecodeFailed | ConsumerGone

  /** The receive loop on the bytes that are left, with a consumer that stays: the messages handed on, and how it ends. */
  function Received<M>(c: Codec<M>, data: Bytes, finished: bool): (seq<M>, LoopEnd)
    decreases |data|
  {
    var (f, rest) := NextFrame(data, finished);
    if !f.Body? then ([], if f.CleanEof? then CleanEnd else ReadFailed(f))
    else if c.dec(f.body).None? then ([], DecodeFailed)
    else
      var (more, end) := Received(c, rest, finished);
      ([c.dec(f.body).value] + more, end)
  }

  /** What a consumer gets that goes away after `patience` messages; the one it does not take is lost. */
  function UpTo<M>(r: (seq<M>, LoopEnd), patience: nat): (seq<M>, LoopEnd) {
    if |r.0| <= patience then r else (r.0[..patience], ConsumerGone)
  }

  lemma ReceivedOn<M>(c: Codec<M>, data: Bytes, finished: bool, out: seq<M>)
    requires NextFrame(data, finished).0.Body? && c.dec(NextFrame(data, finished).0.body).Some?
    ensures var (f, rest) := NextFrame(data, finished);
            && out + Received(c, data, finished).0 == (out + [c.dec(f.body).value]) + Received(c, rest, finished).0
            && Received(c, data, finished).1 == Received(c, rest, finished).1
  {
    hide NextFrame;
    var (f, rest) := NextFrame(data, finished);
    var more := Received(c, rest, finished).0;
    assert out + ([c.dec(f.body).value] + more) == (out + [c.dec(f.body).value]) + more;
  }

  lemma ReceivedEnds<M>(c: Codec<M>, data: Bytes, finished: bool, out: seq<M>)
    requires NextFrame(data, finished).0.Body? ==> c.dec(NextFrame(data, finished).0.body).None?
    ensures var f := NextFrame(data, finished).0;
            && out + Received(c, data, finished).0 == out
            && Received(c, data, finished).1 == (if f.Body? then DecodeFailed else if f.CleanEof? then CleanEnd else ReadFailed(f))
  {
    hide NextFrame;
  }

  method RunRecvLoop<M>(recv: RecvStream, c: Codec<M>, patience: nat) returns (out: seq<M>, end: LoopEnd)
    requires recv.Valid()
    modifies recv
    ensures recv.Valid()
    ensures (out, end) == UpTo(Received(c, old(recv.Left()), recv.finished), patience)
  {
    hide Received, NextFrame;
    ghost var (all, last) := Received(c, recv.Left(), recv.finished);
    out := [];
    while true
      invariant recv.Valid() && |out| <= patience
      invariant all == out + Received(c, recv.Left(), recv.finished).0
      invariant last == Received(c, recv.Left(), recv.finished).1
      decreases |recv.Left()|
    {
      ghost var data := recv.Left();
      var f := ReadFrame(recv);
      if !f.Body? {
        ReceivedEnds(c, data, recv.finished, out);
        return out, if f.CleanEof? then CleanEnd else ReadFailed(f);
      }
      var m := c.dec(f.body);
      if m.None? {
        ReceivedEnds(c, data, recv.finished, out);
        return out, DecodeFailed;
      }
      ReceivedOn(c, data, recv.finished, out);
      FrameShortens(data, recv.finished);
      if |out| == patience {
        assert all[..patience] == out;
        return out, ConsumerGone;
      }
      out := out + [m.value];
    }
  }

  lemma FrameShortens(data: Bytes, finished: bool)
    requires NextFrame(data, finished).0.Body?
    ensures |NextFrame(data, finished).1| < |data|
  {
  }

  /** The loop hands on the decoded bodies of the frames in the stream, up to the first bad one. */
  lemma {:induction false} ReceivedIsDecodedFrames<M>(c: Codec<M>, data: Bytes, finished: bool)
    ensures Received(c, data, finished).0 == DecodeAll(c, ReadAll(data, finished).0)
    decreases |data|
  {
    var (f, rest) := NextFrame(data, finished);
    if f.Body? {
      ReceivedIsDecodedFrames(c, rest, finished);
      assert ReadAll(data, finished).0 == [f.body] + ReadAll(rest, finished).0;
    }
  }

  function EncodedBodies<M>(c: Codec<M>, msgs: seq<M>): (r: seq<Bytes>)
    ensures |r| == |msgs|
  {
    seq(|msgs|, i requires 0 <= i < |msgs| => c.enc(msgs[i]))
  }

  lemma {:induction false} DecodeEncoded<M(!new)>(c: Codec<M>, msgs: seq<M>)
    requires Lossless(c)
    ensures DecodeAll(c, EncodedBodies(c, msgs)) == msgs
    decreases |msgs|
  {
    if msgs != [] {
      DecodeEncoded(c, msgs[1..]);
      assert EncodedBodies(c, msgs)[1..] == EncodedBodies(c, msgs[1..]);
    }
  }

  /**
   A stream of messages that is cut anywhere delivers a prefix of those messages, in order,
   and nothing else: a broken stream costs a suffix, never a hole, a change or an invention.
   */
  lemma BrokenStreamDeliversPrefix<M(!new)>(c: Codec<M>, msgs: seq<M>, cut: nat, finished: bool) returns (k: nat)
    requires Lossless(c) && Writable(EncodedBodies(c, msgs))
    requires cut <= |Encode(EncodedBodies(c, msgs))|
    ensures k <= |msgs|
    ensures Received(c, Encode(EncodedBodies(c, msgs))[..cut], finished).0 == msgs[..k]
    ensures cut == |Encode(EncodedBodies(c, msgs))| ==> k == |msgs|
  {
    var bodies := EncodedBodies(c, msgs);
    k := PrefixYieldsWholeFrames(bodies, cut, finished);
    ReceivedIsDecodedFrames(c, Encode(bodies)[..cut], finished);
    assert bodies[..k] == EncodedBodies(c, msgs[..k]);
    DecodeEncoded(c, msgs[..k]);
    OffsetIsLength(bodies);
    if k + 1 < |msgs| {
      OffsetMonotone(bodies, k + 1, |bodies|);
    }
  }
}
