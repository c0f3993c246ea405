/** Cutting the input into legs: `bufferfill` and the loop of `txingest`. */
module Ingest {
  import opened Bytes
  import opened Streams
  import opened Checksum
  import opened Wire

  /** How many bytes `bufferfill` delivers: a full buffer or all there is; in charmode, what
      one read of at most MAXBSIZE bytes returns. */
  function FillCount(foot: nat, schedule: seq<nat>, charmode: bool, available: nat): (n: nat)
    ensures n <= foot && n <= available
  {
    if charmode then Granted(schedule, Min(MAXBSIZE, foot), available) else Min(foot, available)
  }

  /** Reads until the buffer is full or the input ends; in charmode, a single read. */
  method BufferFill(fd: ByteSource, dest: array<byte>, charmode: bool) returns (accumulator: nat)
    requires dest.Length > 0
    modifies fd, dest
    ensures accumulator == FillCount(dest.Length, old(fd.schedule), charmode, |old(fd.pending)|)
    ensures charmode ==> fd.schedule == Later(old(fd.schedule))
    ensures dest[..] == old(fd.pending)[..accumulator] + old(dest[..])[accumulator..]
    ensures fd.pending == old(fd.pending)[accumulator..]
    ensures accumulator == 0 <==> old(fd.pending) == []
  {
    accumulator := 0;
    var remainder: nat := dest.Length;
    var reading := true;
    while reading
      invariant accumulator + remainder == dest.Length
      invariant accumulator <= |old(fd.pending)|
      invariant dest[..] == old(fd.pending)[..accumulator] + old(dest[..])[accumulator..]
      invariant fd.pending == old(fd.pending)[accumulator..]
      invariant reading ==> remainder > 0
      invariant reading && accumulator > 0 ==> !charmode
      invariant reading && charmode ==> accumulator == 0 && fd.schedule == old(fd.schedule)
      invariant !reading && charmode ==> accumulator == Granted(old(fd.schedule), Min(MAXBSIZE, dest.Length), |old(fd.pending)|)
      invariant !reading && charmode ==> fd.schedule == Later(old(fd.schedule))
      invariant !reading ==> (accumulator == 0 <==> old(fd.pending) == [])
      invariant !reading && !charmode ==> remainder == 0 || fd.pending == []
      decreases remainder, reading
    {
      var readsize := fd.Read(dest, accumulator, Min(MAXBSIZE, remainder));
      FillStep(old(fd.pending), old(dest[..]), accumulator, readsize);
      remainder := remainder - readsize;
      accumulator := accumulator + readsize;
      reading := !(readsize < 1 || charmode) && remainder > 0;
    }
  }

  /** A read of n bytes behind the first `at` of the input. */
  lemma {:induction false} FillStep(input: seq<byte>, dest: seq<byte>, at: nat, n: nat)
    requires at + n <= |input| && at + n <= |dest|
    ensures
      var filled := input[..at] + dest[at..];
      && filled[..at] + input[at..][..n] + filled[at + n..] == input[..at + n] + dest[at + n..]
      && input[at..][n..] == input[at + n..]
  {
  }

  lemma {:induction false} FilledOver(input: seq<byte>, stale: seq<byte>, filled: seq<byte>, n: nat)
    requires n <= |input| && n <= |stale| && filled == input[..n] + stale[n..]
    ensures |filled| == |stale| && filled[..n] == input[..n] && filled == filled[..n] + stale[n..]
  {
  }

  /** The input cut into pieces of `foot` bytes, the last one possibly shorter. */
  function Chunks(input: seq<byte>, foot: nat): seq<seq<byte>>
    requires foot > 0
    decreases |input|
  {
    if input == [] then []
    else [input[..Min(foot, |input|)]] + Chunks(input[Min(foot, |input|)..], foot)
  }

  /** The pieces join up to the input. */
  lemma {:induction false} ChunksJoin(input: seq<byte>, foot: nat)
    requires foot > 0
    ensures Flatten(Chunks(input, foot)) == input
    decreases |input|
  {
    if input != [] {
      var n := Min(foot, |input|);
      ChunksJoin(input[n..], foot);
      FlattenCons(input[..n], Chunks(input[n..], foot));
    }
  }

  /** There are ceil(length / foot) pieces, and all but the last are exactly `foot` long. */
  lemma {:induction false} ChunksShape(input: seq<byte>, foot: nat)
    requires foot > 0
    ensures |Chunks(input, foot)| == Ceiling(|input|, foot)
    ensures forall k :: 0 <= k < |Chunks(input, foot)| ==> 1 <= |Chunks(input, foot)[k]| <= foot
    ensures forall k :: 0 <= k < |Chunks(input, foot)| - 1 ==> |Chunks(input, foot)[k]| == foot
    decreases |input|
  {
    CeilingSteps(|input|, foot);
    if input == [] {
    } else if |input| <= foot {
      assert Chunks(input[|input|..], foot) == [];
    } else {
      ChunksShape(input[foot..], foot);
      assert Chunks(input, foot) == [input[..foot]] + Chunks(input[foot..], foot);
    }
  }

  function Ceiling(n: nat, foot: nat): nat
    requires foot > 0
  {
    (n + foot - 1) / foot
  }

  lemma {:induction false} CeilingSteps(n: nat, foot: nat)
    requires foot > 0
    ensures n == 0 ==> Ceiling(n, foot) == 0
    ensures 0 < n <= foot ==> Ceiling(n, foot) == 1
    ensures n > foot ==> Ceiling(n, foot) == 1 + Ceiling(n - foot, foot)
  {
    if n == 0 {
      Quotient(foot - 1, foot, 0, foot - 1);
    } else if n <= foot {
      Quotient(n + foot - 1, foot, 1, n - 1);
    } else {
      var q, r := (n - 1) / foot, (n - 1) % foot;
      assert foot * (q + 1) == foot * q + foot;
      Quotient(n + foot - 1, foot, q + 1, r);
    }
  }

  /** In charmode, one piece for every read, as long as the schedule lets it be. */
  function CharChunks(input: seq<byte>, foot: nat, schedule: seq<nat>): seq<seq<byte>>
    requires foot > 0
    decreases |input|
  {
    if input == [] then []
    else
      var n := Granted(schedule, Min(MAXBSIZE, foot), |input|);
      [input[..n]] + CharChunks(input[n..], foot, Later(schedule))
  }

  /** These pieces join up to the input too, and none is empty or longer than one read. */
  lemma {:induction false} CharChunksJoin(input: seq<byte>, foot: nat, schedule: seq<nat>)
    requires foot > 0
    ensures Flatten(CharChunks(input, foot, schedule)) == input
    ensures forall k :: 0 <= k < |CharChunks(input, foot, schedule)| ==>
              1 <= |CharChunks(input, foot, schedule)[k]| <= Min(MAXBSIZE, foot)
    decreases |input|
  {
    if input != [] {
      var n := Granted(schedule, Min(MAXBSIZE, foot), |input|);
      CharChunksJoin(input[n..], foot, Later(schedule));
      FlattenCons(input[..n], CharChunks(input[n..], foot, Later(schedule)));
    }
  }

  /** Where the legs of an input begin and end. */
  function Cut(input: seq<byte>, foot: nat, schedule: seq<nat>, charmode: bool): seq<seq<byte>>
    requires foot > 0
  {
    if charmode then CharChunks(input, foot, schedule) else Chunks(input, foot)
  }

  /** The payloads of some frames, in order. */
  function Payloads(frames: seq<Frame>): (p: seq<seq<byte>>)
    ensures |p| == |frames|
    ensures forall k :: 0 <= k < |frames| ==> p[k] == frames[k].payload
  {
    seq(|frames|, k requires 0 <= k < |frames| => frames[k].payload)
  }

  /** All legs go through one buffer. */
  function Alone(n: nat): (owner: seq<nat>)
    ensures |owner| == n && forall k :: 0 <= k < n ==> owner[k] == 0
  {
    seq(n, _ => 0)
  }

  /** Header number k as ingest fills it in, for a buffer that began with `base`. */
  ghost predicate DataHeader(frames: seq<Frame>, base: seq<byte>, k: nat, checksums: bool)
    requires |base| == 4 && k < |frames|
  {
    var f := frames[k];
    && f.pkt.legId == k
    && f.pkt.size == |f.payload|
    && f.pkt.opcode == FeedMore
    && f.pkt.checksum == if checksums then TxSum(Payloads(frames), Alone(|frames|), base, k) else 0
  }

  /** All headers so far are right, the saved checksum is the last of the chain, and the
      buffer starts with what the legs so far have left there. */
  ghost predicate Headers(data: seq<Frame>, base: seq<byte>, buffer: seq<byte>, checksums: bool, saved: nat)
    requires |base| == 4
  {
    var legs, owner := Payloads(data), Alone(|data|);
    && (forall k :: 0 <= k < |data| ==> DataHeader(data, base, k, checksums))
    && (forall k :: 0 <= k < |data| ==> 1 <= |data[k].payload| <= |buffer|)
    && (checksums ==> saved == TxSaved(legs, owner, base, |data|))
    && |buffer| >= 8 && buffer[..4] == Head(legs, owner, base, 0, |data|)
  }

  /** Appending a leg whose checksum continues the chain keeps all headers right. */
  lemma {:induction false} AppendHeader(
      data: seq<Frame>, f: Frame, base: seq<byte>, buffer: seq<byte>, filled: seq<byte>, checksums: bool, saved: nat)
    requires |base| == 4 && Headers(data, base, buffer, checksums, saved)
    requires 0 < |f.payload| <= |buffer| && filled == f.payload + buffer[|f.payload|..]
    requires f.pkt == Packet(|data|, |f.payload|, f.pkt.checksum, FeedMore)
    requires f.pkt.checksum ==
             if checksums then MixOf((saved + |data|) % U32, FirstWord(filled), |f.payload|) else 0
    ensures Headers(data + [f], base, filled, checksums, f.pkt.checksum)
  {
    HeadAppended(data, f, base, buffer, filled);
    if checksums {
      SumAppended(data, f, base, filled, saved);
    }
    HeadersKept(data, f, base, checksums);
    AllHeaders(data, f, base, checksums);
  }

  lemma {:induction false} AllHeaders(data: seq<Frame>, f: Frame, base: seq<byte>, checksums: bool)
    requires |base| == 4 && forall k :: 0 <= k < |data| ==> DataHeader(data + [f], base, k, checksums)
    requires f.pkt == Packet(|data|, |f.payload|, f.pkt.checksum, FeedMore)
    requires f.pkt.checksum == if checksums then TxSum(Payloads(data + [f]), Alone(|data + [f]|), base, |data|) else 0
    ensures forall k :: 0 <= k < |data + [f]| ==> DataHeader(data + [f], base, k, checksums)
  {
    assert (data + [f])[|data|] == f;
    assert DataHeader(data + [f], base, |data|, checksums);
  }

  /** `mix` over the filled buffer gives the checksum of the leg appended. */
  lemma {:induction false} SumAppended(data: seq<Frame>, f: Frame, base: seq<byte>, filled: seq<byte>, saved: nat)
    requires |base| == 4 && |filled| >= 8
    requires saved == TxSaved(Payloads(data), Alone(|data|), base, |data|)
    requires filled[..4] == Head(Payloads(data + [f]), Alone(|data| + 1), base, 0, |data| + 1)
    ensures TxSum(Payloads(data + [f]), Alone(|data + [f]|), base, |data|) ==
            MixOf((saved + |data|) % U32, FirstWord(filled), |f.payload|)
  {
    AppendedLegs(data, f);
    ChainExtends(Payloads(data), Alone(|data|), Payloads(data + [f]), Alone(|data| + 1), base, saved, filled, f.payload);
  }

  lemma {:induction false} AppendedLegs(data: seq<Frame>, f: Frame)
    ensures SameStart(Payloads(data), Alone(|data|), Payloads(data + [f]), Alone(|data| + 1), |data|)
    ensures LegAt(Payloads(data + [f]), |data|) == f.payload
  {
    var legs, legs' := Payloads(data), Payloads(data + [f]);
    assert forall j :: 0 <= j < |data| ==> LegAt(legs', j) == LegAt(legs, j);
  }

  lemma {:induction false} HeadAppended(data: seq<Frame>, f: Frame, base: seq<byte>, buffer: seq<byte>, filled: seq<byte>)
    requires |base| == 4 && |buffer| >= 8 && buffer[..4] == Head(Payloads(data), Alone(|data|), base, 0, |data|)
    requires |f.payload| <= |buffer| && filled == f.payload + buffer[|f.payload|..]
    ensures filled[..4] == Head(Payloads(data + [f]), Alone(|data| + 1), base, 0, |data| + 1)
  {
    AppendedLegs(data, f);
    CoverOverwrites(buffer, f.payload);
    HeadStable(Payloads(data), Alone(|data|), Payloads(data + [f]), Alone(|data| + 1), base, 0, |data|);
  }

  lemma {:induction false} NoHeaders(base: seq<byte>, buffer: seq<byte>, checksums: bool)
    requires |buffer| >= 8 && base == buffer[..4]
    ensures Headers([], base, buffer, checksums, 0xff)
  {
  }

  lemma {:induction false} HeadersKept(data: seq<Frame>, f: Frame, base: seq<byte>, checksums: bool)
    requires |base| == 4 && forall k :: 0 <= k < |data| ==> DataHeader(data, base, k, checksums)
    ensures forall k :: 0 <= k < |data| ==> DataHeader(data + [f], base, k, checksums)
  {
    forall k | 0 <= k < |data|
      ensures DataHeader(data + [f], base, k, checksums)
    {
      assert DataHeader(data, base, k, checksums);
      assert (data + [f])[k] == data[k];
      TxSumStable(Payloads(data), Alone(|data|), Payloads(data + [f]), Alone(|data| + 1), base, k);
    }
  }

  /** `mix` over the filled buffer continues the chain. */
  lemma {:induction false} ChainExtends(
      legs: seq<seq<byte>>, owner: seq<nat>, legs': seq<seq<byte>>, owner': seq<nat>,
      base: seq<byte>, saved: nat, filled: seq<byte>, leg: seq<byte>)
    requires |base| == 4 && SameStart(legs, owner, legs', owner', |owner|)
    requires |owner'| == |owner| + 1 && owner'[|owner|] == 0 && LegAt(legs', |owner|) == leg
    requires saved == TxSaved(legs, owner, base, |owner|)
    requires |filled| >= 8 && filled[..4] == Head(legs', owner', base, 0, |owner'|)
    ensures TxSum(legs', owner', base, |owner|) == MixOf((saved + |owner|) % U32, FirstWord(filled), |leg|)
  {
    TxSavedStable(legs, owner, legs', owner', base, |owner|);
    TruncateSeed(saved + |owner|, FirstWord(filled), |leg|);
    MixReadsFour(saved + |owner|, filled, |leg|);
  }

  lemma {:induction false} TruncateSeed(seed: nat, word: nat, size: nat)
    ensures MixOf(seed % U32, word, size) == MixOf(seed, word, size)
  {
    MixSeed(seed % U32, seed, word, size);
  }

  /** The legs so far and the unread input make up the input, leg boundaries included. */
  ghost predicate CutSoFar(data: seq<Frame>, pending: seq<byte>, later: seq<seq<byte>>, input: seq<byte>, all: seq<seq<byte>>) {
    && Flatten(Payloads(data)) + pending == input
    && Payloads(data) + later == all
  }

  lemma {:induction false} CutStep(
      data: seq<Frame>, f: Frame, pending: seq<byte>, later: seq<seq<byte>>, later': seq<seq<byte>>,
      input: seq<byte>, all: seq<seq<byte>>)
    requires CutSoFar(data, pending, later, input, all)
    requires |f.payload| <= |pending| && f.payload == pending[..|f.payload|]
    requires later == [f.payload] + later'
    ensures CutSoFar(data + [f], pending[|f.payload|..], later', input, all)
    ensures |Flatten(Payloads(data + [f]))| == |Flatten(Payloads(data))| + |f.payload|
  {
    var legs, leg, n := Payloads(data), f.payload, |f.payload|;
    assert Payloads(data + [f]) == legs + [leg];
    FlattenSnoc(legs, leg);
    assert Flatten(legs) + leg + pending[n..] == Flatten(legs) + pending;
    assert legs + [leg] + later' == legs + ([leg] + later');
  }

  /** One fill takes the first leg of what is left. */
  lemma {:induction false} CutFirst(pending: seq<byte>, foot: nat, schedule: seq<nat>, schedule': seq<nat>, charmode: bool, n: nat)
    requires foot > 0 && pending != [] && n == FillCount(foot, schedule, charmode, |pending|)
    requires charmode ==> schedule' == Later(schedule)
    ensures Cut(pending, foot, schedule, charmode) == [pending[..n]] + Cut(pending[n..], foot, schedule', charmode)
  {
  }

  /** Everything ingest has established when it has sent `data`: right headers, the legs cut
      where they should be, and the running total. */
  ghost predicate SentSoFar(
      data: seq<Frame>, base: seq<byte>, buffer: seq<byte>, checksums: bool, saved: nat, total: nat,
      pending: seq<byte>, later: seq<seq<byte>>, input: seq<byte>, all: seq<seq<byte>>)
    requires |base| == 4
  {
    && Headers(data, base, buffer, checksums, saved)
    && CutSoFar(data, pending, later, input, all)
    && total == |Flatten(Payloads(data))|
  }

  /** The header ingest writes for a buffer just filled over its old contents `stale`: the
      leg continues the legs before it. */
  method PackLeg(buffer: array<byte>, readsize: nat, checksums: bool, saved: nat, data: seq<Frame>,
                 ghost base: seq<byte>, ghost stale: seq<byte>, ghost total: nat, ghost pending: seq<byte>,
                 ghost later: seq<seq<byte>>, ghost input: seq<byte>, ghost all: seq<seq<byte>>)
    returns (f: Frame)
    requires 0 < readsize <= buffer.Length == |stale| && |base| == 4 && readsize <= |pending|
    requires SentSoFar(data, base, stale, checksums, saved, total, pending, [pending[..readsize]] + later, input, all)
    requires buffer[..] == pending[..readsize] + stale[readsize..]
    ensures f.payload == buffer[..readsize]
    ensures SentSoFar(data + [f], base, buffer[..], checksums, f.pkt.checksum, total + readsize,
                      pending[readsize..], later, input, all)
  {
    var sum: nat := 0;
    if checksums {
      sum := Mix((saved + |data|) % U32, buffer, readsize);
    }
    FilledOver(pending, stale, buffer[..], readsize);
    f := Frame(Packet(|data|, readsize, sum, FeedMore), buffer[..readsize]);
    AppendHeader(data, f, base, stale, buffer[..], checksums, saved);
    CutStep(data, f, pending, [pending[..readsize]] + later, later, input, all);
  }

  /** Ingest's loop: fill a buffer, send it as the next leg, and finish with an empty
      end leg when the input is exhausted or the leg limit (0 for none) is reached. */
  method TxIngest(fd: ByteSource, buffer: array<byte>, charmode: bool, checksums: bool, legLimit: nat)
    returns (data: seq<Frame>, last: Packet, streamTotalBytes: nat)
    requires buffer.Length >= 8
    modifies fd, buffer
    ensures forall k :: 0 <= k < |data| ==> DataHeader(data, old(buffer[..4]), k, checksums)
    ensures forall k :: 0 <= k < |data| ==> 1 <= |data[k].payload| <= buffer.Length
    ensures last == Packet(|data|, 0, LastChecksum(data), EndOfMillipede)
    ensures streamTotalBytes == |Flatten(Payloads(data))|
    ensures Flatten(Payloads(data)) <= old(fd.pending)
    ensures Flatten(Payloads(data)) == old(fd.pending) || (legLimit > 0 && |data| == legLimit)
    ensures legLimit > 0 ==> |data| <= legLimit
    ensures Payloads(data) == FirstLegs(Cut(old(fd.pending), buffer.Length, old(fd.schedule), charmode), legLimit)
    ensures !charmode ==> fd.pending == AfterFill(old(fd.pending), streamTotalBytes, buffer.Length)
  {
    var saved: nat, staleSum: nat := 0xff, 0;
    ghost var input, base := fd.pending, buffer[..4];
    ghost var all := Cut(input, buffer.Length, fd.schedule, charmode);
    data, streamTotalBytes := [], 0;
    NothingSent(base, buffer[..], checksums, input, all);
    while true
      invariant legLimit > 0 ==> |data| <= legLimit
      invariant staleSum == LastChecksum(data)
      invariant SentSoFar(data, base, buffer[..], checksums, saved, streamTotalBytes, fd.pending,
                          Cut(fd.pending, buffer.Length, fd.schedule, charmode), input, all)
      decreases |fd.pending|
    {
      ghost var before, schedule, stale := fd.pending, fd.schedule, buffer[..];
      ghost var later := Cut(before, buffer.Length, schedule, charmode);
      var readsize := BufferFill(fd, buffer, charmode);
      if (legLimit > 0 && legLimit == |data|) || readsize == 0 {
        SendingEnds(data, base, stale, checksums, saved, streamTotalBytes, before, later, input, all, legLimit);
        break;
      }
      CutFirst(before, buffer.Length, schedule, fd.schedule, charmode, readsize);
      later := Cut(fd.pending, buffer.Length, fd.schedule, charmode);
      var f := PackLeg(buffer, readsize, checksums, saved, data, base, stale, streamTotalBytes, before, later, input, all);
      data := data + [f];
      streamTotalBytes := streamTotalBytes + readsize;
      if checksums {
        saved := f.pkt.checksum;
      }
      staleSum := f.pkt.checksum;
    }
    last := Packet(|data|, 0, staleSum, EndOfMillipede);
  }

  /** The checksum left in the packet by the last leg. */
  function LastChecksum(data: seq<Frame>): nat {
    if data == [] then 0 else data[|data| - 1].pkt.checksum
  }

  /** All legs, or the first `limit` of them if there is a limit. */
  function FirstLegs(legs: seq<seq<byte>>, limit: nat): seq<seq<byte>> {
    if limit > 0 then legs[..Min(limit, |legs|)] else legs
  }

  /** What is left of the input when the legs hold its first n bytes: a last fill has taken
      its share, for nothing if the leg limit was reached. */
  function AfterFill(input: seq<byte>, n: nat, foot: nat): seq<byte> {
    if n <= |input| then input[n..][Min(foot, |input| - n)..] else []
  }

  lemma {:induction false} NothingSent(base: seq<byte>, buffer: seq<byte>, checksums: bool, input: seq<byte>, all: seq<seq<byte>>)
    requires |buffer| >= 8 && base == buffer[..4]
    ensures SentSoFar([], base, buffer, checksums, 0xff, 0, input, all, input, all)
  {
    NoHeaders(base, buffer, checksums);
  }

  lemma {:induction false} SendingEnds(
      data: seq<Frame>, base: seq<byte>, buffer: seq<byte>, checksums: bool, saved: nat, total: nat,
      pending: seq<byte>, later: seq<seq<byte>>, input: seq<byte>, all: seq<seq<byte>>, limit: nat)
    requires |base| == 4
    requires SentSoFar(data, base, buffer, checksums, saved, total, pending, later, input, all)
    requires limit > 0 ==> |data| <= limit
    requires (limit > 0 && |data| == limit) || (pending == [] && later == [])
    ensures forall k :: 0 <= k < |data| ==> DataHeader(data, base, k, checksums)
    ensures forall k :: 0 <= k < |data| ==> 1 <= |data[k].payload| <= |buffer|
    ensures total == |Flatten(Payloads(data))|
    ensures Flatten(Payloads(data)) <= input && input[total..] == pending
    ensures pending == [] ==> Flatten(Payloads(data)) == input
    ensures Payloads(data) == FirstLegs(all, limit)
  {
  }

  /** The checksum in the header of a data leg of at least four bytes, in terms of the header
      before it and the bytes of the leg. */
  lemma {:induction false} HeaderChecksum(frames: seq<Frame>, base: seq<byte>, k: nat)
    requires |base| == 4 && k < |frames| && |frames[k].payload| >= 4
    requires forall j :: 0 <= j < |frames| ==> DataHeader(frames, base, j, true)
    ensures
      var leg := frames[k].payload;
      var saved := if k == 0 then 0xff else frames[k - 1].pkt.checksum;
      var n := |leg| / 8 + 1;
      var word := leg[0] as int + 0x100 * (leg[1] as int) + 0x1_0000 * (leg[2] as int) + 0x100_0000 * (leg[3] as int);
      frames[k].pkt.checksum == (saved + k + n * word + 4 * n * (n - 1)) % U32
  {
    var legs, owner, leg := Payloads(frames), Alone(|frames|), frames[k].payload;
    assert DataHeader(frames, base, k, true);
    assert k > 0 ==> DataHeader(frames, base, k - 1, true);
    assert LegAt(legs, k) == leg;
    LongLegHides(legs, owner, base, k);
    HeadSumOfBytes(TxSaved(legs, owner, base, k), k, leg[..4], leg);
  }
}
