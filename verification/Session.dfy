/** Whole sessions: from the bytes ingest reads to the bytes the receiver writes. */
module Session {
  import opened Bytes
  import opened Wire
  import opened Ingest
  import opened Prbs
  import opened Protocol
  import opened Invariants
  import opened Safety
  import opened Progress
  import opened Delivery

  /** A session over an input read in full-size legs, with an optional leg limit. */
  ghost predicate Carries(cfg: Config, input: seq<byte>, limit: nat) {
    cfg.foot > 0 && cfg.legs == FirstLegs(Chunks(input, cfg.foot), limit)
  }

  /** The bytes such a session is to carry: the first `limit` legs' worth of the input. */
  function Carried(input: seq<byte>, foot: nat, limit: nat): seq<byte> {
    if limit > 0 then input[..Min(limit * foot, |input|)] else input
  }

  lemma {:induction false} FirstChunks(input: seq<byte>, foot: nat, n: nat)
    requires foot > 0
    ensures Flatten(Chunks(input, foot)[..Min(n, |Chunks(input, foot)|)]) == input[..Min(n * foot, |input|)]
    decreases n
  {
    if n == 0 || input == [] {
      assert n * foot >= 0;
      assert Chunks(input, foot)[..Min(n, |Chunks(input, foot)|)] == [];
    } else {
      var k := Min(foot, |input|);
      FirstChunks(input[k..], foot, n - 1);
      FirstBytes(input, k, foot, n);
      PrependLeg(input[..k], Chunks(input[k..], foot), n);
    }
  }

  lemma {:induction false} PrependLeg(leg: seq<byte>, rest: seq<seq<byte>>, n: nat)
    requires n > 0
    ensures Flatten(([leg] + rest)[..Min(n, |rest| + 1)]) == leg + Flatten(rest[..Min(n - 1, |rest|)])
  {
    var some := rest[..Min(n - 1, |rest|)];
    assert ([leg] + rest)[..Min(n, |rest| + 1)] == [leg] + some;
    FlattenCons(leg, some);
  }

  lemma {:induction false} FirstBytes(input: seq<byte>, k: nat, foot: nat, n: nat)
    requires n > 0 && k == Min(foot, |input|)
    ensures (n - 1) * foot >= 0
    ensures n * foot == (n - 1) * foot + foot
    ensures input[..k] + input[k..][..Min((n - 1) * foot, |input| - k)] == input[..Min(n * foot, |input|)]
  {
    var more := (n - 1) * foot;
    assert n * foot == more + foot;
    assert more >= 0;
    assert Min(more + foot, |input|) == k + Min(more, |input| - k);
  }

  /** The legs of a session hold exactly the bytes it is to carry. */
  lemma {:induction false} LegsHoldInput(cfg: Config, input: seq<byte>, limit: nat)
    requires Carries(cfg, input, limit)
    ensures Flatten(cfg.legs) == Carried(input, cfg.foot, limit)
    ensures forall k :: 0 <= k < |cfg.legs| ==> 1 <= |cfg.legs[k]| <= cfg.foot
  {
    ChunksShape(input, cfg.foot);
    if limit > 0 {
      FirstChunks(input, cfg.foot, limit);
    } else {
      ChunksJoin(input, cfg.foot);
    }
  }

  /** Transparency end to end: at every moment the output is a prefix of what is to be
      carried, and a run at rest has written exactly that if and only if no comparison
      failed, there was a connection, none was lost and the shutdown race did not happen. */
  lemma {:induction false} Transparent(cfg: Config, run: Run, input: seq<byte>, limit: nat)
    requires ValidRun(cfg, run) && Carries(cfg, input, limit)
    ensures forall i :: 0 <= i < |run.states| ==> run.states[i].output <= Carried(input, cfg.foot, limit)
    ensures
      var s := run.states[|run.steps|];
      AtRest(cfg, s) ==>
        (s.doneMbox && s.output == Carried(input, cfg.foot, limit)
         <==> !s.crashed && SomeConnection(s) && LossFree(s) && RaceFree(run))
  {
    LegsHoldInput(cfg, input, limit);
    forall i | 0 <= i < |run.states|
      ensures run.states[i].output <= Carried(input, cfg.foot, limit)
    {
      OutputIsPrefix(cfg, run, i);
    }
    if AtRest(cfg, run.states[|run.steps|]) {
      DeliveredIff(cfg, run);
    }
  }

  /** What travels on a connection can be framed: every frame in flight carries the leg it
      names and fits the header, so the receive loop recovers the channel contents. */
  lemma {:induction false} ChannelsAreSendable(cfg: Config, run: Run, i: nat, w: nat, j: nat)
    requires ValidRun(cfg, run) && |cfg.legs| < U64 && cfg.foot < U64
    requires i < |run.states| && w < |run.states[i].chan| && j < |run.states[i].chan[w]|
    ensures
      var f := run.states[i].chan[w][j];
      Sendable(f, cfg.foot) && f.payload == Payload(cfg, f.pkt.legId)
  {
    RunInv(cfg, run, i);
    var s := run.states[i];
    assert ConnOk(cfg, s.done, s.tx[w], s.chan[w], s.rx[w]);
    assert FrameOk(cfg, s.chan[w][j]);
  }

  // ---------------------------------------------------------------- pseudorandom sessions

  /** Every data leg is the generated stream of its own permutation. */
  ghost predicate IsPrbs(cfg: Config, seed: nat) {
    && cfg.foot % 8 == 0
    && forall k :: 0 <= k < |cfg.legs| ==> cfg.legs[k] == PrbsBytes(Permutation(seed, k), cfg.foot / 8)
  }

  /** A pseudorandom leg begins with the seed plus its id, least significant byte first. */
  lemma {:induction false} PrbsLegStarts(cfg: Config, seed: nat, k: nat)
    requires IsPrbs(cfg, seed) && k < |cfg.legs| && cfg.foot >= 8
    ensures |cfg.legs[k]| >= 8
    ensures forall i :: 0 <= i < 8 ==> cfg.legs[k][i] == (seed + k) % U64 / Pow256(i) % 256
  {
    PrbsBytesStart(Permutation(seed, k), cfg.foot / 8);
  }

  /** In every pseudorandom run, the buffer of a receive worker that has read a data leg
      verifies for that leg, and for no leg whose id differs modulo 2^64. */
  lemma {:induction false} PrbsLegsVerify(cfg: Config, run: Run, i: nat, w: nat, seed: nat, leg: nat)
    requires ValidRun(cfg, run) && IsPrbs(cfg, seed) && i < |run.states|
    requires w < |run.states[i].rx|
    requires Waiting(run.states[i].rx[w]) || Critical(run.states[i].rx[w])
    requires run.states[i].rx[w].pkt.legId < |cfg.legs|
    ensures
      var r := run.states[i].rx[w];
      && |r.buffer| == cfg.foot
      && (VerifiesBytes(r.buffer, Permutation(seed, leg), cfg.foot / 8) <==> leg % U64 == r.pkt.legId % U64)
  {
    RunInv(cfg, run, i);
    var s := run.states[i];
    var r := s.rx[w];
    assert ConnOk(cfg, s.done, s.tx[w], s.chan[w], s.rx[w]);
    assert r.buffer == PrbsBytes(Permutation(seed, r.pkt.legId), cfg.foot / 8) by {
      assert r.buffer[..r.pkt.size] == r.buffer;
    }
    GeneratedVerifies(Permutation(seed, r.pkt.legId), Permutation(seed, leg), cfg.foot / 8);
    PermutationsAgree(seed, r.pkt.legId, leg);
  }

  lemma {:induction false} GeneratedVerifies(p: nat, q: nat, n: nat)
    requires p < U64 && n >= 1
    ensures VerifiesBytes(PrbsBytes(p, n), q, n) <==> p == q
  {
    PrbsBytesVerify(p, n);
    var bytes := PrbsBytes(p, n);
    if VerifiesBytes(bytes, q, n) {
      assert LittleEndian(bytes[8 * 0..8 * 0 + 8]) == Word(p, 0);
      assert LittleEndian(bytes[8 * 0..8 * 0 + 8]) == Word(q, 0);
      XorCancels(p, q, (SALT * 0) % U64);
    }
  }
}
