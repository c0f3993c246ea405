/** Packets and frames, their layout on a connection, and the receiver's read loop. */
module Wire {
  import opened Bytes
  import opened Streams

  datatype Opcode = FeedMore | EndOfMillipede

  /** `struct millipacket_s` without its constant preamble. */
  datatype Packet = Packet(legId: nat, size: nat, checksum: nat, opcode: Opcode)

  /** A header together with the payload that follows it. */
  datatype Frame = Frame(pkt: Packet, payload: seq<byte>)

  const PREAMBLE := 0xa5a5_a5a5_5a5a_5a5a
  const FEED_MORE := 0xcafe
  const END_OF_MILLIPEDE := 0xdead

  /** Five machine words. */
  const HEADER_SIZE := 40

  function OpcodeWord(op: Opcode): nat {
    match op
    case FeedMore => FEED_MORE
    case EndOfMillipede => END_OF_MILLIPEDE
  }

  /** What the sender guarantees of every frame it writes. */
  ghost predicate Sendable(f: Frame, foot: nat) {
    && f.pkt.legId < U64
    && f.pkt.checksum < U64
    && f.pkt.size == |f.payload| <= foot < U64
  }

  /** The bytes of a header as `writev` takes them from memory. */
  function EncodeHeader(pkt: Packet): (bytes: seq<byte>)
    ensures |bytes| == HEADER_SIZE
  {
    ToLittleEndian(PREAMBLE, 8) + ToLittleEndian(pkt.legId, 8) + ToLittleEndian(pkt.size, 8) +
    ToLittleEndian(pkt.checksum, 8) + ToLittleEndian(OpcodeWord(pkt.opcode), 8)
  }

  function Encode(f: Frame): seq<byte> {
    EncodeHeader(f.pkt) + f.payload
  }

  /** Everything one sender writes to its connection. */
  function EncodeAll(frames: seq<Frame>): seq<byte> {
    if frames == [] then [] else Encode(frames[0]) + EncodeAll(frames[1..])
  }

  /** Machine word number i of a header. */
  function Field(bytes: seq<byte>, i: nat): nat
    requires |bytes| == HEADER_SIZE && i < 5
  {
    LittleEndian(bytes[8 * i..8 * i + 8])
  }

  datatype Header = Header(pkt: Packet) | BogusOpcode(legId: nat) | Oversized(size: nat)

  /** The receiver's view of forty header bytes. A wrong preamble is only reported, so it
      does not change the outcome. */
  function DecodeHeader(bytes: seq<byte>, foot: nat): Header
    requires |bytes| == HEADER_SIZE
  {
    if Field(bytes, 2) > foot then Oversized(Field(bytes, 2))
    else if Field(bytes, 4) == FEED_MORE then
      Header(Packet(Field(bytes, 1), Field(bytes, 2), Field(bytes, 3), FeedMore))
    else if Field(bytes, 4) == END_OF_MILLIPEDE then
      Header(Packet(Field(bytes, 1), Field(bytes, 2), Field(bytes, 3), EndOfMillipede))
    else BogusOpcode(Field(bytes, 1))
  }

  lemma {:induction false} FieldOfHeader(pkt: Packet, i: nat)
    requires i < 5
    ensures EncodeHeader(pkt)[8 * i..8 * i + 8] ==
            ToLittleEndian([PREAMBLE, pkt.legId, pkt.size, pkt.checksum, OpcodeWord(pkt.opcode)][i], 8)
  {
    FiveWords(ToLittleEndian(PREAMBLE, 8), ToLittleEndian(pkt.legId, 8), ToLittleEndian(pkt.size, 8),
              ToLittleEndian(pkt.checksum, 8), ToLittleEndian(OpcodeWord(pkt.opcode), 8), i);
  }

  lemma {:induction false} FiveWords(a: seq<byte>, b: seq<byte>, c: seq<byte>, d: seq<byte>, e: seq<byte>, i: nat)
    requires |a| == |b| == |c| == |d| == |e| == 8 && i < 5
    ensures (a + b + c + d + e)[8 * i..8 * i + 8] == [a, b, c, d, e][i]
  {
  }

  lemma {:induction false} HeaderRoundTrip(f: Frame, foot: nat)
    requires Sendable(f, foot)
    ensures DecodeHeader(EncodeHeader(f.pkt), foot) == Header(f.pkt)
    ensures Field(EncodeHeader(f.pkt), 0) == PREAMBLE
  {
    var words := [PREAMBLE, f.pkt.legId, f.pkt.size, f.pkt.checksum, OpcodeWord(f.pkt.opcode)];
    Pow256Of8();
    forall i | 0 <= i < 5
      ensures Field(EncodeHeader(f.pkt), i) == words[i]
    {
      FieldOfHeader(f.pkt, i);
      LittleEndianRoundTrip(words[i], 8);
    }
    assert Field(EncodeHeader(f.pkt), 0) == PREAMBLE;
    assert Field(EncodeHeader(f.pkt), 1) == f.pkt.legId;
    assert Field(EncodeHeader(f.pkt), 2) == f.pkt.size;
    assert Field(EncodeHeader(f.pkt), 3) == f.pkt.checksum;
    assert Field(EncodeHeader(f.pkt), 4) == OpcodeWord(f.pkt.opcode);
  }

  /** The opcode words as they lie on a connection. */
  const FEED_MORE_BYTES: seq<byte> := [0xfe, 0xca, 0, 0, 0, 0, 0, 0]
  const END_BYTES: seq<byte> := [0xad, 0xde, 0, 0, 0, 0, 0, 0]

  /** Every byte of a header on the wire. */
  lemma {:induction false} HeaderBytes(pkt: Packet)
    ensures
      var bytes := EncodeHeader(pkt);
      && bytes[..8] == [0x5a, 0x5a, 0x5a, 0x5a, 0xa5, 0xa5, 0xa5, 0xa5]
      && (forall i :: 0 <= i < 8 ==> bytes[8 + i] == pkt.legId / Pow256(i) % 256)
      && (forall i :: 0 <= i < 8 ==> bytes[16 + i] == pkt.size / Pow256(i) % 256)
      && (forall i :: 0 <= i < 8 ==> bytes[24 + i] == pkt.checksum / Pow256(i) % 256)
      && bytes[32..] == match pkt.opcode
                        case FeedMore => [0xfe, 0xca, 0, 0, 0, 0, 0, 0]
                        case EndOfMillipede => [0xad, 0xde, 0, 0, 0, 0, 0, 0]
  {
    var bytes := EncodeHeader(pkt);
    PreambleBytes();
    OpcodeWords();
    FieldOfHeader(pkt, 0);
    FieldOfHeader(pkt, 4);
    assert bytes[32..] == bytes[8 * 4..8 * 4 + 8];
    DigitsOfField(pkt, 1, pkt.legId);
    DigitsOfField(pkt, 2, pkt.size);
    DigitsOfField(pkt, 3, pkt.checksum);
  }

  lemma {:induction false} PreambleBytes()
    ensures ToLittleEndian(PREAMBLE, 8) == [0x5a, 0x5a, 0x5a, 0x5a, 0xa5, 0xa5, 0xa5, 0xa5]
  {
    assert ToLittleEndian(0xa5a5, 2) == [0xa5, 0xa5];
    assert ToLittleEndian(0xa5a5_a5a5, 4) == [0xa5, 0xa5, 0xa5, 0xa5];
    assert ToLittleEndian(0xa5a5_a5a5_5a5a, 6) == [0x5a, 0x5a, 0xa5, 0xa5, 0xa5, 0xa5];
  }

  lemma {:induction false} OpcodeWords()
    ensures ToLittleEndian(FEED_MORE, 8) == FEED_MORE_BYTES
    ensures ToLittleEndian(END_OF_MILLIPEDE, 8) == END_BYTES
  {
    assert ToLittleEndian(0, 2) == [0, 0];
    assert ToLittleEndian(0, 4) == [0, 0, 0, 0];
    assert ToLittleEndian(0, 6) == [0, 0, 0, 0, 0, 0];
  }

  lemma {:induction false} DigitsOfField(pkt: Packet, field: nat, word: nat)
    requires 1 <= field < 4 && word == [0, pkt.legId, pkt.size, pkt.checksum][field]
    ensures forall i :: 0 <= i < 8 ==> EncodeHeader(pkt)[8 * field + i] == word / Pow256(i) % 256
  {
    FieldOfHeader(pkt, field);
    forall i | 0 <= i < 8
      ensures EncodeHeader(pkt)[8 * field + i] == word / Pow256(i) % 256
    {
      ToLittleEndianDigit(word, 8, i);
      assert EncodeHeader(pkt)[8 * field..8 * field + 8][i] == EncodeHeader(pkt)[8 * field + i];
    }
  }

  /** Which forty bytes the receiver takes for a header, and what it reads from them: the
      announced size must fit, and then the opcode must be one of the two words. */
  lemma {:induction false} DecodeMeans(bytes: seq<byte>, foot: nat)
    requires |bytes| == HEADER_SIZE
    ensures
      var legId, size, checksum := LittleEndian(bytes[8..16]), LittleEndian(bytes[16..24]), LittleEndian(bytes[24..32]);
      DecodeHeader(bytes, foot) ==
        if size > foot then Oversized(size)
        else if bytes[32..] == [0xfe, 0xca, 0, 0, 0, 0, 0, 0] then Header(Packet(legId, size, checksum, FeedMore))
        else if bytes[32..] == [0xad, 0xde, 0, 0, 0, 0, 0, 0] then Header(Packet(legId, size, checksum, EndOfMillipede))
        else BogusOpcode(legId)
  {
    assert bytes[32..] == bytes[8 * 4..8 * 4 + 8];
    OpcodeBytes(bytes[32..]);
  }

  lemma {:induction false} OpcodeBytes(word: seq<byte>)
    requires |word| == 8
    ensures LittleEndian(word) == FEED_MORE <==> word == FEED_MORE_BYTES
    ensures LittleEndian(word) == END_OF_MILLIPEDE <==> word == END_BYTES
  {
    OpcodeWords();
    LittleEndianInverse(word);
    Pow256Of8();
    LittleEndianRoundTrip(FEED_MORE, 8);
    LittleEndianRoundTrip(END_OF_MILLIPEDE, 8);
  }

  /** The part of a frame that arrived when a connection died after its header. */
  ghost predicate BrokenFrame(tail: seq<byte>, f: Frame) {
    HEADER_SIZE <= |tail| < |Encode(f)| && tail == Encode(f)[..|tail|]
  }

  /** `rxworker`'s inner read loop: fills the buffer with the payload of one leg.
      Returns true if the connection ended first. */
  method ReadPayload(fd: ByteSource, buffer: array<byte>, size: nat) returns (restartme: bool)
    requires size <= buffer.Length
    modifies fd, buffer
    ensures restartme <==> |old(fd.pending)| < size
    ensures !restartme ==> buffer[..size] == old(fd.pending)[..size]
    ensures !restartme ==> fd.pending == old(fd.pending)[size..]
    ensures restartme ==> fd.pending == []
    ensures buffer[size..] == old(buffer[size..])
  {
    var cursor: nat, remainder: nat := 0, size;
    restartme := false;
    while remainder > 0 && !restartme
      invariant cursor + remainder == size
      invariant cursor <= |old(fd.pending)|
      invariant buffer[..cursor] == old(fd.pending)[..cursor]
      invariant fd.pending == old(fd.pending)[cursor..]
      invariant restartme ==> fd.pending == [] && remainder > 0
      invariant buffer[size..] == old(buffer[size..])
      decreases remainder, !restartme
    {
      ghost var before := buffer[..];
      var readsize := fd.Read(buffer, cursor, Min(remainder, MAXBSIZE));
      if readsize == 0 {
        restartme := true;
      }
      assert buffer[..] == before[..cursor] + old(fd.pending)[cursor..cursor + readsize] + before[cursor + readsize..];
      assert buffer[..cursor + readsize] == buffer[..][..cursor + readsize];
      assert buffer[size..] == buffer[..][size..];
      cursor := cursor + readsize;
      remainder := remainder - readsize;
    }
  }

  /** One turn of the receive loop, with the header of frame f in front. */
  method ReceiveFrame(fd: ByteSource, buffer: array<byte>, ghost f: Frame)
    returns (pkt: Packet, restartme: bool)
    requires Sendable(f, buffer.Length)
    requires |fd.pending| >= HEADER_SIZE && fd.pending[..HEADER_SIZE] == EncodeHeader(f.pkt)
    modifies fd, buffer
    ensures pkt == f.pkt
    ensures restartme <==> |old(fd.pending)| < HEADER_SIZE + pkt.size
    ensures !restartme ==> buffer[..pkt.size] == old(fd.pending)[HEADER_SIZE..HEADER_SIZE + pkt.size]
    ensures !restartme ==> fd.pending == old(fd.pending)[HEADER_SIZE + pkt.size..]
  {
    var header := fd.ReadWhole(HEADER_SIZE);
    HeaderRoundTrip(f, buffer.Length);
    pkt := DecodeHeader(header, buffer.Length).pkt;
    restartme := ReadPayload(fd, buffer, pkt.size);
  }

  /** The receive loop of one connection. Whatever way the reads are cut, it recovers
      every frame the sender wrote, and a leg cut short by a dying connection is not
      among them. A connection that ends between two frames ends the loop. */
  method Receive(fd: ByteSource, buffer: array<byte>, ghost sent: seq<Frame>, ghost tail: seq<byte>)
    returns (got: seq<Frame>, restartme: bool)
    requires forall f :: f in sent ==> Sendable(f, buffer.Length)
    requires tail == [] || exists f :: Sendable(f, buffer.Length) && BrokenFrame(tail, f)
    requires fd.pending == EncodeAll(sent) + tail
    modifies fd, buffer
    ensures got == sent
    ensures restartme <==> tail != []
  {
    got := [];
    restartme := false;
    while fd.pending != [] && !restartme
      invariant |got| <= |sent| && got == sent[..|got|]
      invariant restartme ==> |got| == |sent| && tail != []
      invariant !restartme ==> fd.pending == EncodeAll(sent[|got|..]) + tail
      decreases !restartme, |sent| - |got|
    {
      ghost var f := FrameInFront(sent[|got|..], tail, buffer.Length);
      var pkt;
      pkt, restartme := ReceiveFrame(fd, buffer, f);
      if !restartme {
        assert sent[|got|..][1..] == sent[|got| + 1..];
        got := got + [Frame(pkt, buffer[..pkt.size])];
      }
    }
  }

  /** The frame at the front of a stream, whole or broken. */
  ghost function FrameInFront(frames: seq<Frame>, tail: seq<byte>, foot: nat): (f: Frame)
    requires frames != [] || tail != []
    requires forall g :: g in frames ==> Sendable(g, foot)
    requires tail == [] || exists g :: Sendable(g, foot) && BrokenFrame(tail, g)
    ensures Sendable(f, foot)
    ensures
      var stream := EncodeAll(frames) + tail;
      && |stream| >= HEADER_SIZE && stream[..HEADER_SIZE] == EncodeHeader(f.pkt)
      && (frames == [] ==> |stream| < HEADER_SIZE + f.pkt.size)
      && (frames != [] ==>
            && f == frames[0]
            && |stream| >= HEADER_SIZE + f.pkt.size
            && stream[HEADER_SIZE..HEADER_SIZE + f.pkt.size] == f.payload
            && stream[HEADER_SIZE + f.pkt.size..] == EncodeAll(frames[1..]) + tail)
  {
    if frames != [] then
      WholeFrameInFront(frames, tail);
      frames[0]
    else
      var f :| Sendable(f, foot) && BrokenFrame(tail, f);
      BrokenFrameInFront(tail, f);
      f
  }

  lemma {:induction false} WholeFrameInFront(frames: seq<Frame>, tail: seq<byte>)
    requires frames != []
    ensures
      var stream := EncodeAll(frames) + tail;
      var n := HEADER_SIZE + |frames[0].payload|;
      && |stream| >= n
      && stream[..HEADER_SIZE] == EncodeHeader(frames[0].pkt)
      && stream[HEADER_SIZE..n] == frames[0].payload
      && stream[n..] == EncodeAll(frames[1..]) + tail
  {
    var header, rest := EncodeHeader(frames[0].pkt), EncodeAll(frames[1..]) + tail;
    assert EncodeAll(frames) + tail == header + frames[0].payload + rest;
    Split3(header, frames[0].payload, rest);
  }

  lemma {:induction false} Split3(a: seq<byte>, b: seq<byte>, c: seq<byte>)
    ensures
      var s := a + b + c;
      s[..|a|] == a && s[|a|..|a| + |b|] == b && s[|a| + |b|..] == c
  {
  }

  lemma {:induction false} BrokenFrameInFront(tail: seq<byte>, f: Frame)
    requires BrokenFrame(tail, f)
    ensures tail[..HEADER_SIZE] == EncodeHeader(f.pkt)
    ensures |tail[HEADER_SIZE..]| < |f.payload|
  {
  }

  /** Different runs of frames never look alike on the wire. */
  lemma {:induction false} EncodeAllInjective(a: seq<Frame>, b: seq<Frame>, foot: nat)
    requires forall f :: f in a ==> Sendable(f, foot)
    requires forall f :: f in b ==> Sendable(f, foot)
    requires EncodeAll(a) == EncodeAll(b)
    ensures a == b
  {
    if a == [] || b == [] {
      assert |a| > 0 ==> |EncodeAll(a)| >= HEADER_SIZE;
      assert |b| > 0 ==> |EncodeAll(b)| >= HEADER_SIZE;
    } else {
      var bytes := EncodeAll(a);
      assert bytes[..HEADER_SIZE] == EncodeHeader(a[0].pkt);
      assert bytes[..HEADER_SIZE] == EncodeHeader(b[0].pkt);
      HeaderRoundTrip(a[0], foot);
      HeaderRoundTrip(b[0], foot);
      var n := HEADER_SIZE + a[0].pkt.size;
      assert bytes[HEADER_SIZE..n] == a[0].payload == b[0].payload;
      assert bytes[n..] == EncodeAll(a[1..]) == EncodeAll(b[1..]);
      EncodeAllInjective(a[1..], b[1..], foot);
      assert a == [a[0]] + a[1..] && b == [b[0]] + b[1..];
    }
  }
}
