/** Checksums in a running session: exactly when the receiver's assertion fires. */
module Sums {
  import opened Bytes
  import opened Checksum
  import opened Wire
  import opened Protocol
  import opened Lines
  import opened Invariants
  import opened Preservation
  import opened Safety
  import opened Ownership
  import opened Progress
  import opened Delivery
  import opened Heads

  /** The checksum in the header of leg k, when leg j is carried by owner[j]. */
  ghost function SentSum(cfg: Config, owner: seq<nat>, k: nat): nat
    requires k < |owner|
  {
    if cfg.checksums then TxSum(cfg.legs, owner, Zeros(4), k) else 0
  }

  ghost function TxChain(cfg: Config, owner: seq<nat>, k: nat): nat
    requires k <= |owner|
  {
    if cfg.checksums then TxSaved(cfg.legs, owner, Zeros(4), k) else 0xff
  }

  ghost function RxChain(cfg: Config, owner: seq<nat>, k: nat): nat
    requires k <= |owner|
  {
    if cfg.checksums then RxSaved(cfg.legs, owner, Zeros(4), k) else 0xff
  }

  /** What the receiver compares with the header of leg k. */
  ghost function Compared(cfg: Config, owner: seq<nat>, k: nat): nat
    requires |cfg.phrase| == 4 && k < |owner|
  {
    Recomputed(cfg.legs, owner, Zeros(4), cfg.phrase, k)
  }

  ghost predicate LegPasses(cfg: Config, owner: seq<nat>, k: nat)
    requires |cfg.phrase| == 4 && k < |owner|
  {
    cfg.checksums ==> Passes(cfg.legs, owner, Zeros(4), cfg.phrase, k)
  }

  lemma {:induction false} TxChainStep(cfg: Config, owner: seq<nat>, k: nat, buffer: seq<byte>)
    requires k < |owner| && cfg.checksums && |buffer| >= 8
    requires buffer[..4] == SentHead(cfg, owner, owner[k], k + 1)
    ensures SentSum(cfg, owner, k) == MixOf(TxChain(cfg, owner, k) + k, FirstWord(buffer), |LegAt(cfg.legs, k)|)
    ensures TxChain(cfg, owner, k + 1) == SentSum(cfg, owner, k)
  {
    MixReadsFour(TxChain(cfg, owner, k) + k, buffer, |LegAt(cfg.legs, k)|);
  }

  lemma {:induction false} RxChainStep(cfg: Config, owner: seq<nat>, k: nat)
    requires |cfg.phrase| == 4 && k < |owner|
    ensures RxChain(cfg, owner, k + 1) ==
            if SentSum(cfg, owner, k) == 0 then RxChain(cfg, owner, k) else SentSum(cfg, owner, k)
    ensures SentSum(cfg, owner, k) == 0 ==> LegPasses(cfg, owner, k)
  {
  }

  lemma {:induction false} ComparedMeans(cfg: Config, owner: seq<nat>, k: nat, buffer: seq<byte>)
    requires |cfg.phrase| == 4 && k < |owner| && SentSum(cfg, owner, k) != 0 && |buffer| >= 8
    requires buffer[..4] == SeenHead(cfg, owner, owner[k], k + 1)
    ensures Compared(cfg, owner, k) == MixOf(RxChain(cfg, owner, k) + k, FirstWord(buffer), |LegAt(cfg.legs, k)|)
  {
    MixReadsFour(RxChain(cfg, owner, k) + k, buffer, |LegAt(cfg.legs, k)|);
  }

  lemma {:induction false} ComparisonDecides(cfg: Config, owner: seq<nat>, k: nat)
    requires |cfg.phrase| == 4 && k < |owner| && SentSum(cfg, owner, k) != 0
    ensures LegPasses(cfg, owner, k) <==> Compared(cfg, owner, k) == SentSum(cfg, owner, k)
  {
  }

  /** Starting another leg changes nothing about the legs before it. */
  lemma {:induction false} SumsStable(cfg: Config, owner: seq<nat>, x: nat, k: nat)
    requires |cfg.phrase| == 4 && k <= |owner|
    ensures TxChain(cfg, owner + [x], k) == TxChain(cfg, owner, k)
    ensures RxChain(cfg, owner + [x], k) == RxChain(cfg, owner, k)
    ensures k < |owner| ==>
      && SentSum(cfg, owner + [x], k) == SentSum(cfg, owner, k)
      && Compared(cfg, owner + [x], k) == Compared(cfg, owner, k)
      && (LegPasses(cfg, owner + [x], k) <==> LegPasses(cfg, owner, k))
  {
    var more := owner + [x];
    TxSavedStable(cfg.legs, owner, cfg.legs, more, Zeros(4), k);
    RxSavedStable(cfg.legs, owner, cfg.legs, more, Zeros(4), k);
    if k < |owner| {
      TxSumStable(cfg.legs, owner, cfg.legs, more, Zeros(4), k);
      RecomputedStable(cfg.legs, owner, cfg.legs, more, Zeros(4), cfg.phrase, k);
      PassesStable(cfg.legs, owner, cfg.legs, more, Zeros(4), cfg.phrase, k);
    }
  }

  // ---------------------------------------------------------------- invariant

  ghost predicate SumOk(cfg: Config, owner: seq<nat>, pkt: Packet) {
    pkt.legId < |cfg.legs| ==> pkt.legId < |owner| && pkt.checksum == SentSum(cfg, owner, pkt.legId)
  }

  ghost predicate ConnSums(cfg: Config, owner: seq<nat>, t: TxWorker, c: seq<Frame>, r: RxWorker) {
    && (TxHolds(t) ==> SumOk(cfg, owner, t.pkt))
    && (forall i :: 0 <= i < |c| ==> SumOk(cfg, owner, c[i].pkt))
    && (RxHolds(r) ==> SumOk(cfg, owner, r.pkt))
  }

  ghost predicate AllSums(cfg: Config, s: State) {
    Shape(cfg, s) && forall w :: 0 <= w < cfg.workers ==> ConnSums(cfg, s.owner, s.tx[w], s.chan[w], s.rx[w])
  }

  ghost predicate IngestSums(cfg: Config, s: State) {
    if s.ingest.InPacked? then
      var owner := s.owner + [s.ingest.w];
      && s.saved == TxChain(cfg, owner, |owner|)
      && s.ingest.w < |s.tx| && SumOk(cfg, owner, s.tx[s.ingest.w].pkt)
    else |s.owner| <= |cfg.legs| ==> s.saved == TxChain(cfg, s.owner, |s.owner|)
  }

  /** A data leg whose checksum has been dealt with but whose increment is still to come. */
  ghost predicate Settled(cfg: Config, r: RxWorker) {
    r.pc.RxBumping? && r.pkt.legId < |cfg.legs|
  }

  /** Leg k was started, is a data leg and fails the comparison. */
  ghost predicate Mismatch(cfg: Config, owner: seq<nat>, k: nat)
    requires |cfg.phrase| == 4
  {
    k < |owner| && k < |cfg.legs| && !LegPasses(cfg, owner, k)
  }

  ghost predicate RxSums(cfg: Config, s: State)
    requires |cfg.phrase| == 4
  {
    && s.nextLeg <= |s.owner|
    && (forall w :: 0 <= w < |s.rx| && Settled(cfg, s.rx[w]) ==>
          && s.nextLeg < |cfg.legs| && s.nextLeg < |s.owner|
          && s.rxSaved == RxChain(cfg, s.owner, s.nextLeg + 1) && LegPasses(cfg, s.owner, s.nextLeg))
    && (s.nextLeg <= |cfg.legs| && (forall w :: 0 <= w < |s.rx| ==> !Settled(cfg, s.rx[w])) ==>
          s.rxSaved == RxChain(cfg, s.owner, s.nextLeg))
    && (forall w :: 0 <= w < |s.rx| && s.rx[w].pc.RxSummed? ==>
          && s.nextLeg < |cfg.legs| && s.nextLeg < |s.owner| && s.rx[w].pkt.checksum != 0
          && s.rx[w].sum == Compared(cfg, s.owner, s.nextLeg))
    && (forall k :: 0 <= k < s.nextLeg ==> !Mismatch(cfg, s.owner, k))
    && (s.crashed ==> exists k :: Mismatch(cfg, s.owner, k))
  }

  ghost predicate SumInv(cfg: Config, s: State)
    requires |cfg.phrase| == 4
  {
    AllSums(cfg, s) && IngestSums(cfg, s) && RxSums(cfg, s)
  }

  lemma {:induction false} InitSums(cfg: Config)
    requires |cfg.phrase| == 4
    ensures SumInv(cfg, Init(cfg))
  {
  }

  // ---------------------------------------------------------------- headers

  lemma {:induction false} ConnSumsGrow(cfg: Config, owner: seq<nat>, x: nat, t: TxWorker, c: seq<Frame>, r: RxWorker)
    requires |cfg.phrase| == 4 && ConnSums(cfg, owner, t, c, r)
    ensures ConnSums(cfg, owner + [x], t, c, r)
  {
    forall pkt | SumOk(cfg, owner, pkt)
      ensures SumOk(cfg, owner + [x], pkt)
    {
      if pkt.legId < |owner| {
        SumsStable(cfg, owner, x, pkt.legId);
      }
    }
  }

  lemma {:induction false} AllSumsAfterIngest(cfg: Config, s: State, step: IngestStep)
    requires |cfg.phrase| == 4 && AllSums(cfg, s) && IngestSums(cfg, s) && IngestOk(cfg, s)
    requires IngestEnabled(cfg, s, step)
    ensures AllSums(cfg, IngestApply(cfg, s, step))
  {
    var s' := IngestApply(cfg, s, step);
    forall v | 0 <= v < cfg.workers
      ensures ConnSums(cfg, s'.owner, s'.tx[v], s'.chan[v], s'.rx[v])
    {
      assert ConnSums(cfg, s.owner, s.tx[v], s.chan[v], s.rx[v]);
      if step.IngestStart? || step.IngestShutStart? {
        ConnSumsGrow(cfg, s.owner, s.ingest.w, s.tx[v], s.chan[v], s.rx[v]);
      }
    }
  }

  lemma {:induction false} AllSumsAfterTx(cfg: Config, s: State, step: TxStep)
    requires ValidConfig(cfg) && AllSums(cfg, s) && Conns(cfg, s) && TxEnabled(cfg, s, step)
    ensures AllSums(cfg, TxApply(cfg, s, step))
  {
    var s' := TxApply(cfg, s, step);
    forall v | 0 <= v < cfg.workers
      ensures ConnSums(cfg, s'.owner, s'.tx[v], s'.chan[v], s'.rx[v])
    {
      assert ConnSums(cfg, s.owner, s.tx[v], s.chan[v], s.rx[v]);
      assert ConnOk(cfg, s.done, s.tx[v], s.chan[v], s.rx[v]);
    }
  }

  lemma {:induction false} AllSumsAfterRx(cfg: Config, s: State, step: RxStep)
    requires AllSums(cfg, s) && RxEnabled(cfg, s, step)
    ensures AllSums(cfg, RxApply(cfg, s, step))
  {
    var s' := RxApply(cfg, s, step);
    forall v | 0 <= v < cfg.workers
      ensures ConnSums(cfg, s'.owner, s'.tx[v], s'.chan[v], s'.rx[v])
    {
      assert ConnSums(cfg, s.owner, s.tx[v], s.chan[v], s.rx[v]);
    }
  }

  lemma {:induction false} IngestSumsAfterIngest(cfg: Config, s: State, step: IngestStep)
    requires |cfg.phrase| == 4 && IngestSums(cfg, s) && IngestOk(cfg, s) && IngestEnabled(cfg, s, step)
    requires step.IngestPack? ==> TxHeadOk(cfg, s, s.ingest.w)
    ensures IngestSums(cfg, IngestApply(cfg, s, step))
  {
    if step.IngestPack? {
      PackSum(cfg, s);
    }
  }

  /** The checksum ingest computes is the next of its chain. */
  lemma {:induction false} PackSum(cfg: Config, s: State)
    requires |cfg.phrase| == 4 && IngestSums(cfg, s) && IngestEnabled(cfg, s, IngestPack) && !s.done
    requires TxHeadOk(cfg, s, s.ingest.w)
    ensures
      var owner, k := s.owner + [s.ingest.w], |s.owner|;
      && LegSum(cfg, s) == SentSum(cfg, owner, k)
      && TxChain(cfg, owner, k + 1) == if cfg.checksums then LegSum(cfg, s) else s.saved
  {
    var owner, k, w := s.owner + [s.ingest.w], |s.owner|, s.ingest.w;
    SumsStable(cfg, s.owner, w, k);
    if cfg.checksums {
      HeadGrows(cfg, s.owner, Zeros(4), w, w, 0);
      TxChainStep(cfg, owner, k, s.tx[w].buffer);
    }
  }

  lemma {:induction false} IngestSumsAfterTx(cfg: Config, s: State, step: TxStep)
    requires ValidConfig(cfg) && IngestSums(cfg, s) && IngestOk(cfg, s) && TxEnabled(cfg, s, step)
    ensures IngestSums(cfg, TxApply(cfg, s, step))
  {
    if s.ingest.InPacked? && step.w == s.ingest.w {
      assert step.TxLook?;
    }
  }

  // ---------------------------------------------------------------- the receiver's chain

  lemma {:induction false} RxSumsUntouched(cfg: Config, s: State, s': State)
    requires |cfg.phrase| == 4 && RxSums(cfg, s) && |s'.rx| == |s.rx| && s'.owner == s.owner
    requires s'.nextLeg == s.nextLeg && s'.rxSaved == s.rxSaved && s'.crashed == s.crashed
    requires forall w :: 0 <= w < |s.rx| ==>
               s'.rx[w] == s.rx[w] || (!Critical(s'.rx[w]) && !Critical(s.rx[w])) ||
               (s.rx[w].pc.RxWriting? && (s'.rx[w].pc.RxWriting? || s'.rx[w].pc.RxWritten?)) ||
               (!Critical(s.rx[w]) && s'.rx[w].pc.RxWriting?) ||
               (s'.rx[w].pc.RxBumping? && s'.rx[w].pkt.legId >= |cfg.legs| && s.rx[w].pc.RxWritten?)
    ensures RxSums(cfg, s')
  {
    assert forall w :: 0 <= w < |s.rx| ==> (Settled(cfg, s'.rx[w]) <==> Settled(cfg, s.rx[w]));
    assert forall w :: 0 <= w < |s.rx| && s'.rx[w].pc.RxSummed? ==> s'.rx[w] == s.rx[w];
  }

  lemma {:induction false} RxSumsGrow(cfg: Config, s: State, s': State, x: nat)
    requires |cfg.phrase| == 4 && RxSums(cfg, s) && s'.rx == s.rx && s'.owner == s.owner + [x]
    requires s'.nextLeg == s.nextLeg && s'.rxSaved == s.rxSaved && !s.crashed && !s'.crashed
    ensures RxSums(cfg, s')
  {
    SumsStable(cfg, s.owner, x, s.nextLeg);
    if s.nextLeg < |s.owner| {
      SumsStable(cfg, s.owner, x, s.nextLeg + 1);
    }
    forall k | 0 <= k < s.nextLeg
      ensures !Mismatch(cfg, s'.owner, k)
    {
      assert !Mismatch(cfg, s.owner, k);
      SumsStable(cfg, s.owner, x, k);
    }
  }

  /** The checksum of the admitted data leg is recomputed, or skipped when it is zero. */
  lemma {:induction false} RxSumsAfterSum(cfg: Config, s: State, step: RxStep)
    requires |cfg.phrase| == 4 && RxSums(cfg, s) && RxEnabled(cfg, s, step) && step.RxSum?
    requires s.rx[step.w].pkt.legId == s.nextLeg < |cfg.legs| && s.nextLeg < |s.owner|
    requires s.rx[step.w].pkt.checksum == SentSum(cfg, s.owner, s.nextLeg)
    requires s.rx[step.w].pkt.size == |cfg.legs[s.nextLeg]| && s.owner[s.nextLeg] == step.w
    requires s.rx[step.w].buffer[..4] == SeenHead(cfg, s.owner, step.w, s.nextLeg + 1)
    requires forall v :: 0 <= v < |s.rx| && Critical(s.rx[v]) ==> v == step.w
    ensures RxSums(cfg, RxApply(cfg, s, step))
  {
    var s', w, k := RxApply(cfg, s, step), step.w, s.nextLeg;
    RxChainStep(cfg, s.owner, k);
    assert forall v :: 0 <= v < |s.rx| && v != w ==> !Critical(s'.rx[v]);
    assert forall v :: 0 <= v < |s.rx| ==> !Settled(cfg, s.rx[v]);
    if s.rx[w].pkt.checksum != 0 {
      ComparedMeans(cfg, s.owner, k, s.rx[w].buffer);
      assert s'.rx[w].sum == Compared(cfg, s.owner, k);
      assert forall v :: 0 <= v < |s'.rx| ==> !Settled(cfg, s'.rx[v]);
    } else {
      assert Settled(cfg, s'.rx[w]);
    }
  }

  lemma {:induction false} RxSumsAfterSave(cfg: Config, s: State, step: RxStep)
    requires |cfg.phrase| == 4 && RxSums(cfg, s) && RxEnabled(cfg, s, step) && step.RxSave?
    requires s.rx[step.w].pkt.legId == s.nextLeg < |cfg.legs| && s.nextLeg < |s.owner|
    requires s.rx[step.w].pkt.checksum == SentSum(cfg, s.owner, s.nextLeg)
    requires forall v :: 0 <= v < |s.rx| && Critical(s.rx[v]) ==> v == step.w
    ensures RxSums(cfg, RxApply(cfg, s, step))
  {
    var s', w, k := RxApply(cfg, s, step), step.w, s.nextLeg;
    ComparisonDecides(cfg, s.owner, k);
    RxChainStep(cfg, s.owner, k);
    assert forall v :: 0 <= v < |s.rx| && v != w ==> !Critical(s'.rx[v]);
    if s.rx[w].sum == s.rx[w].pkt.checksum {
      assert Settled(cfg, s'.rx[w]);
    } else {
      assert Mismatch(cfg, s.owner, k);
      assert s'.rx == s.rx;
    }
  }

  lemma {:induction false} RxSumsAfterBump(cfg: Config, s: State, step: RxStep)
    requires |cfg.phrase| == 4 && RxSums(cfg, s) && RxEnabled(cfg, s, step) && step.RxBump? && !s.crashed
    requires s.rx[step.w].pkt.legId == s.nextLeg < |s.owner|
    requires forall v :: 0 <= v < |s.rx| && Critical(s.rx[v]) ==> v == step.w
    ensures RxSums(cfg, RxApply(cfg, s, step))
  {
    BumpSettles(cfg, s, step.w);
    BumpLeaves(cfg, s, step);
    NobodyCritical(cfg, RxApply(cfg, s, step));
  }

  lemma {:induction false} BumpLeaves(cfg: Config, s: State, step: RxStep)
    requires RxEnabled(cfg, s, step) && step.RxBump? && !s.crashed
    requires forall v :: 0 <= v < |s.rx| && Critical(s.rx[v]) ==> v == step.w
    ensures
      var s' := RxApply(cfg, s, step);
      && s'.nextLeg == s.nextLeg + 1 && s'.owner == s.owner && s'.rxSaved == s.rxSaved && !s'.crashed
      && forall v :: 0 <= v < |s'.rx| ==> !Critical(s'.rx[v])
  {
  }

  /** The leg about to be passed on has been dealt with. */
  lemma {:induction false} BumpSettles(cfg: Config, s: State, w: nat)
    requires |cfg.phrase| == 4 && RxSums(cfg, s) && w < |s.rx| && s.rx[w].pc.RxBumping?
    requires s.rx[w].pkt.legId == s.nextLeg < |s.owner|
    ensures s.nextLeg < |cfg.legs| ==> s.rxSaved == RxChain(cfg, s.owner, s.nextLeg + 1)
    ensures forall k :: 0 <= k < s.nextLeg + 1 ==> !Mismatch(cfg, s.owner, k)
  {
    if s.nextLeg < |cfg.legs| {
      assert Settled(cfg, s.rx[w]);
    }
  }

  lemma {:induction false} NobodyCritical(cfg: Config, s: State)
    requires |cfg.phrase| == 4 && s.nextLeg <= |s.owner| && !s.crashed
    requires forall v :: 0 <= v < |s.rx| ==> !Critical(s.rx[v])
    requires s.nextLeg <= |cfg.legs| ==> s.rxSaved == RxChain(cfg, s.owner, s.nextLeg)
    requires forall k :: 0 <= k < s.nextLeg ==> !Mismatch(cfg, s.owner, k)
    ensures RxSums(cfg, s)
  {
  }

  lemma {:induction false} RxSumsAfterRx(cfg: Config, s: State, step: RxStep)
    requires ValidConfig(cfg) && Inv(cfg, s) && HeadInv(cfg, s) && AllSums(cfg, s) && RxSums(cfg, s)
    requires !s.crashed && RxEnabled(cfg, s, step)
    ensures RxSums(cfg, RxApply(cfg, s, step))
  {
    var w := step.w;
    assert ConnOk(cfg, s.done, s.tx[w], s.chan[w], s.rx[w]);
    assert ConnSums(cfg, s.owner, s.tx[w], s.chan[w], s.rx[w]);
    if step.RxSum? || step.RxSave? || step.RxBump? {
      SoleCritical(cfg, s, w);
      HolderOwns(cfg, s, w);
    }
    if step.RxSum? {
      assert RxHeadOk(cfg, s.owner, s.tx[w], s.chan[w], s.rx[w], w);
      HeldHead(cfg, s.owner, s.rx[w], w);
      RxSumsAfterSum(cfg, s, step);
    } else if step.RxSave? {
      RxSumsAfterSave(cfg, s, step);
    } else if step.RxBump? {
      RxSumsAfterBump(cfg, s, step);
    } else {
      RxSumsAfterOther(cfg, s, step);
    }
  }

  lemma {:induction false} RxSumsAfterOther(cfg: Config, s: State, step: RxStep)
    requires |cfg.phrase| == 4 && RxSums(cfg, s) && !s.crashed && RxEnabled(cfg, s, step)
    requires !step.RxSum? && !step.RxSave? && !step.RxBump?
    requires RxOk(cfg, s.rx[step.w])
    ensures RxSums(cfg, RxApply(cfg, s, step))
  {
    RxSumsUntouched(cfg, s, RxApply(cfg, s, step));
  }

  // ---------------------------------------------------------------- runs

  /** Every step of every thread keeps headers and saved checksums on their chains. */
  lemma {:induction false} StepSums(cfg: Config, s: State, step: Step, s': State)
    requires Inv(cfg, s) && Moves(cfg, s, step, s') && HeadInv(cfg, s) && SumInv(cfg, s)
    ensures SumInv(cfg, s')
  {
    match step
    case Ingest(i) => IngestStepSums(cfg, s, i);
    case Tx(t) => TxStepSums(cfg, s, t);
    case Rx(r) =>
      AllSumsAfterRx(cfg, s, r);
      RxSumsAfterRx(cfg, s, r);
  }

  lemma {:induction false} IngestStepSums(cfg: Config, s: State, step: IngestStep)
    requires |cfg.phrase| == 4 && IngestOk(cfg, s) && HeadInv(cfg, s) && SumInv(cfg, s)
    requires !s.crashed && IngestEnabled(cfg, s, step)
    ensures SumInv(cfg, IngestApply(cfg, s, step))
  {
    var s' := IngestApply(cfg, s, step);
    AllSumsAfterIngest(cfg, s, step);
    IngestSumsAfterIngest(cfg, s, step);
    if step.IngestStart? || step.IngestShutStart? {
      RxSumsGrow(cfg, s, s', s.ingest.w);
    } else {
      RxSumsUntouched(cfg, s, s');
    }
  }

  lemma {:induction false} TxStepSums(cfg: Config, s: State, step: TxStep)
    requires ValidConfig(cfg) && Conns(cfg, s) && IngestOk(cfg, s)
    requires SumInv(cfg, s) && TxEnabled(cfg, s, step)
    ensures SumInv(cfg, TxApply(cfg, s, step))
  {
    assert ConnOk(cfg, s.done, s.tx[step.w], s.chan[step.w], s.rx[step.w]);
    AllSumsAfterTx(cfg, s, step);
    IngestSumsAfterTx(cfg, s, step);
    RxSumsUntouched(cfg, s, TxApply(cfg, s, step));
  }

  lemma {:induction false} RunSums(cfg: Config, run: Run, i: nat)
    requires ValidRun(cfg, run) && i < |run.states|
    ensures SumInv(cfg, run.states[i])
  {
    if i == 0 {
      InitSums(cfg);
    } else {
      RunSums(cfg, run, i - 1);
      SumsInRun(cfg, run, i - 1);
    }
  }

  lemma {:induction false} SumsInRun(cfg: Config, run: Run, i: nat)
    requires ValidRun(cfg, run) && i < |run.steps| && SumInv(cfg, run.states[i])
    ensures SumInv(cfg, run.states[i + 1])
  {
    RunInv(cfg, run, i);
    RunHeads(cfg, run, i);
    RunStep(cfg, run, i);
    StepSums(cfg, run.states[i], run.steps[i], run.states[i + 1]);
  }

  // ---------------------------------------------------------------- the end leg

  /** The checksum left in the packet of worker w by the legs before k: that of its last data
      leg, or 0. */
  ghost function LastSum(cfg: Config, owner: seq<nat>, w: nat, k: nat): nat
    requires k <= |owner|
  {
    if k == 0 then 0
    else if owner[k - 1] == w && k - 1 < |cfg.legs| then SentSum(cfg, owner, k - 1)
    else LastSum(cfg, owner, w, k - 1)
  }

  lemma {:induction false} LastSumStable(cfg: Config, owner: seq<nat>, x: nat, w: nat, k: nat)
    requires |cfg.phrase| == 4 && k <= |owner|
    ensures LastSum(cfg, owner + [x], w, k) == LastSum(cfg, owner, w, k)
  {
    if k > 0 {
      SumsStable(cfg, owner, x, k - 1);
      LastSumStable(cfg, owner, x, w, k - 1);
    }
  }

  /** A header of the end leg carries what its worker had left in its packet. */
  ghost predicate EndSumOk(cfg: Config, owner: seq<nat>, w: nat, pkt: Packet) {
    pkt.legId == |cfg.legs| ==> |owner| > |cfg.legs| && pkt.checksum == LastSum(cfg, owner, w, |cfg.legs|)
  }

  ghost predicate EndSums(cfg: Config, s: State) {
    && Shape(cfg, s)
    && (forall w :: 0 <= w < cfg.workers && s.ingest != InPacked(w) ==>
          s.tx[w].pkt.checksum == LastSum(cfg, s.owner, w, |s.owner|))
    && (forall w :: 0 <= w < cfg.workers ==> ChanEndSums(cfg, s.owner, w, s.chan[w]))
  }

  ghost predicate ChanEndSums(cfg: Config, owner: seq<nat>, w: nat, c: seq<Frame>) {
    forall i :: 0 <= i < |c| ==> EndSumOk(cfg, owner, w, c[i].pkt)
  }

  lemma {:induction false} EndSumsAfterIngest(cfg: Config, s: State, step: IngestStep)
    requires |cfg.phrase| == 4 && EndSums(cfg, s) && IngestOk(cfg, s) && IngestSums(cfg, s) && IngestEnabled(cfg, s, step)
    ensures EndSums(cfg, IngestApply(cfg, s, step))
  {
    var s' := IngestApply(cfg, s, step);
    if step.IngestStart? || step.IngestShutStart? {
      forall w | 0 <= w < cfg.workers
        ensures s'.tx[w].pkt.checksum == LastSum(cfg, s'.owner, w, |s'.owner|)
      {
        LastSumStable(cfg, s.owner, s.ingest.w, w, |s.owner|);
      }
      forall w | 0 <= w < cfg.workers
        ensures ChanEndSums(cfg, s'.owner, w, s'.chan[w])
      {
        assert ChanEndSums(cfg, s.owner, w, s.chan[w]);
      }
    }
  }

  lemma {:induction false} EndSumsAfterTx(cfg: Config, s: State, step: TxStep)
    requires ValidConfig(cfg) && EndSums(cfg, s) && Conns(cfg, s) && Placed(cfg, s) && IngestOk(cfg, s)
    requires TxEnabled(cfg, s, step)
    ensures EndSums(cfg, TxApply(cfg, s, step))
  {
    var s', w := TxApply(cfg, s, step), step.w;
    assert ConnOk(cfg, s.done, s.tx[w], s.chan[w], s.rx[w]);
    if step.TxWrite? {
      HeldEndSum(cfg, s, w);
    }
    assert ChanEndSums(cfg, s.owner, w, s.chan[w]);
    TxChanEndSums(cfg, s, step);
    TxKeepsChecksums(cfg, s, step);
    assert forall v :: 0 <= v < cfg.workers && v != w ==> s'.chan[v] == s.chan[v];
  }

  lemma {:induction false} TxChanEndSums(cfg: Config, s: State, step: TxStep)
    requires ValidConfig(cfg) && TxEnabled(cfg, s, step) && step.w < |s.chan|
    requires ChanEndSums(cfg, s.owner, step.w, s.chan[step.w])
    requires step.TxWrite? ==> EndSumOk(cfg, s.owner, step.w, s.tx[step.w].pkt)
    ensures ChanEndSums(cfg, s.owner, step.w, TxApply(cfg, s, step).chan[step.w])
  {
  }

  lemma {:induction false} TxKeepsChecksums(cfg: Config, s: State, step: TxStep)
    requires ValidConfig(cfg) && TxEnabled(cfg, s, step)
    ensures
      var s' := TxApply(cfg, s, step);
      && s'.ingest == s.ingest && s'.owner == s.owner && |s'.tx| == |s.tx|
      && forall v :: 0 <= v < |s.tx| ==> s'.tx[v].pkt.checksum == s.tx[v].pkt.checksum
  {
  }

  lemma {:induction false} HeldEndSum(cfg: Config, s: State, w: nat)
    requires Placed(cfg, s) && EndSums(cfg, s) && IngestOk(cfg, s)
    requires w < cfg.workers && TxHolds(s.tx[w])
    ensures EndSumOk(cfg, s.owner, w, s.tx[w].pkt)
  {
    HeldOutstanding(cfg, s, w);
    if s.tx[w].pkt.legId == |cfg.legs| {
      assert LastSum(cfg, s.owner, w, |s.owner|) == LastSum(cfg, s.owner, w, |cfg.legs|);
    }
  }

  lemma {:induction false} RunEndSums(cfg: Config, run: Run, i: nat)
    requires ValidRun(cfg, run) && i < |run.states|
    ensures EndSums(cfg, run.states[i])
  {
    if i > 0 {
      RunEndSums(cfg, run, i - 1);
      EndSumsInRun(cfg, run, i - 1);
    }
  }

  lemma {:induction false} EndSumsInRun(cfg: Config, run: Run, i: nat)
    requires ValidRun(cfg, run) && i < |run.steps| && EndSums(cfg, run.states[i])
    ensures EndSums(cfg, run.states[i + 1])
  {
    RunInv(cfg, run, i);
    RunSums(cfg, run, i);
    RunStep(cfg, run, i);
    match run.steps[i]
    case Ingest(step) => EndSumsAfterIngest(cfg, run.states[i], step);
    case Tx(step) => EndSumsAfterTx(cfg, run.states[i], step);
    case Rx(step) => EndSumsAfterRx(cfg, run.states[i], step);
  }

  lemma {:induction false} EndSumsAfterRx(cfg: Config, s: State, step: RxStep)
    requires EndSums(cfg, s) && RxEnabled(cfg, s, step)
    ensures EndSums(cfg, RxApply(cfg, s, step))
  {
    var s' := RxApply(cfg, s, step);
    forall v | 0 <= v < cfg.workers
      ensures ChanEndSums(cfg, s'.owner, v, s'.chan[v])
    {
      assert ChanEndSums(cfg, s.owner, v, s.chan[v]);
      assert s'.chan[v] == s.chan[v] || s'.chan[v] == s.chan[v][1..];
    }
  }

  /** The header of the end leg repeats the checksum of the last data leg its worker carried,
      or 0 if there was none. */
  lemma {:induction false} EndLegRepeats(cfg: Config, run: Run, i: nat, w: nat, j: nat)
    requires ValidRun(cfg, run) && i < |run.states|
    requires w < |run.states[i].chan| && j < |run.states[i].chan[w]|
    requires run.states[i].chan[w][j].pkt.legId == |cfg.legs|
    ensures |run.states[i].owner| > |cfg.legs|
    ensures run.states[i].chan[w][j].pkt.checksum == LastSum(cfg, run.states[i].owner, w, |cfg.legs|)
  {
    RunEndSums(cfg, run, i);
    assert ChanEndSums(cfg, run.states[i].owner, w, run.states[i].chan[w]);
  }

  // ---------------------------------------------------------------- when the assertion fires

  /** The run came to rest without a lost connection and without the shutdown race. */
  ghost predicate Settles(cfg: Config, run: Run)
    requires ValidRun(cfg, run)
  {
    var s := run.states[|run.steps|];
    AtRest(cfg, s) && LossFree(s) && SomeConnection(s) && RaceFree(run)
  }

  /** Such a run either delivered everything or died on the assertion, and it died if and
      only if a data leg that was started fails the comparison. */
  lemma {:induction false} CrashIffMismatch(cfg: Config, run: Run)
    requires ValidRun(cfg, run) && Settles(cfg, run)
    ensures
      var s := run.states[|run.steps|];
      && (s.crashed <==> exists k :: Mismatch(cfg, s.owner, k))
      && (s.crashed <==> !s.doneMbox)
      && (!s.crashed ==> s.output == Flatten(cfg.legs))
  {
    var n := |run.steps|;
    RunSums(cfg, run, n);
    DeliveredIff(cfg, run);
    if run.states[n].doneMbox {
      DonePastData(cfg, run, n);
    }
  }

  lemma {:induction false} DonePastData(cfg: Config, run: Run, i: nat)
    requires ValidRun(cfg, run) && i < |run.states| && run.states[i].doneMbox
    ensures run.states[i].nextLeg >= |cfg.legs| && |run.states[i].owner| == |cfg.legs| + 1
  {
    RunInv(cfg, run, i);
  }

  /** Byte i of the check phrase is not zero, and no leg up to k on the connection of leg k
      is long enough to hide it: the sender sees a zero there, the receiver the phrase. */
  ghost predicate Exposed(cfg: Config, owner: seq<nat>, k: nat, i: nat)
    requires |cfg.phrase| == 4
  {
    && k < |owner| && k < |cfg.legs| && i < 4
    && cfg.phrase[i] != 0 && !Covered(cfg.legs, owner, owner[k], k + 1, i)
  }

  /** No header of a started data leg carries the checksum 0. */
  ghost predicate NoZeroSums(cfg: Config, owner: seq<nat>) {
    forall k :: 0 <= k < |owner| && k < |cfg.legs| ==> SentSum(cfg, owner, k) != 0
  }

  lemma {:induction false} MismatchIffExposed(cfg: Config, owner: seq<nat>, k: nat)
    requires |cfg.phrase| == 4 && cfg.checksums && NoZeroSums(cfg, owner)
    ensures Mismatch(cfg, owner, k) <==> exists i :: Exposed(cfg, owner, k, i)
  {
    if k < |owner| && k < |cfg.legs| {
      assert SentSum(cfg, owner, k) != 0;
      assert k > 0 ==> SentSum(cfg, owner, k - 1) != 0;
      PassesIffCovered(cfg.legs, owner, Zeros(4), cfg.phrase, k);
      assert forall i :: 0 <= i < 4 ==>
        (Exposed(cfg, owner, k, i) <==> !(cfg.phrase[i] == 0 || Covered(cfg.legs, owner, owner[k], k + 1, i)));
    }
  }

  /** Legs of any length, as long as no header carries a zero: the run died if and only if
      some leg left a byte of the check phrase exposed. */
  lemma {:induction false} CrashIffExposed(cfg: Config, run: Run)
    requires ValidRun(cfg, run) && Settles(cfg, run) && cfg.checksums
    requires NoZeroSums(cfg, run.states[|run.steps|].owner)
    ensures
      var s := run.states[|run.steps|];
      s.crashed <==> exists k, i :: Exposed(cfg, s.owner, k, i)
  {
    var owner := run.states[|run.steps|].owner;
    CrashIffMismatch(cfg, run);
    if k :| Mismatch(cfg, owner, k) {
      MismatchIffExposed(cfg, owner, k);
    }
    if k, i :| Exposed(cfg, owner, k, i) {
      MismatchIffExposed(cfg, owner, k);
    }
  }

  /** A first leg shorter than four bytes that leaves a non-zero byte of the check phrase
      exposed is fatal in every interleaving: nothing is ever delivered, and a run without
      loss or race that came to rest has died. */
  lemma {:induction false} ShortInputDies(cfg: Config, run: Run, i: nat)
    requires ValidRun(cfg, run) && cfg.checksums && cfg.legs != [] && |cfg.legs[0]| <= i < 4
    requires cfg.phrase[i] != 0
    ensures forall n :: 0 <= n < |run.states| ==> run.states[n].nextLeg == 0 && !run.states[n].doneMbox
    ensures Settles(cfg, run) ==> run.states[|run.steps|].crashed
  {
    forall n | 0 <= n < |run.states|
      ensures run.states[n].nextLeg == 0 && !run.states[n].doneMbox
    {
      RunSums(cfg, run, n);
      var owner := run.states[n].owner;
      if owner != [] {
        FirstShortLeg(cfg.legs, owner, cfg.phrase);
        assert Mismatch(cfg, owner, 0);
      }
      if run.states[n].doneMbox {
        DonePastData(cfg, run, n);
      }
    }
    if Settles(cfg, run) {
      CrashIffMismatch(cfg, run);
    }
  }

  // ---------------------------------------------------------------- sessions that cannot die

  /** Legs are given to existing workers. */
  ghost predicate Assigns(cfg: Config, owner: seq<nat>) {
    forall j :: 0 <= j < |owner| ==> owner[j] < cfg.workers
  }

  /** However the legs are shared out among the workers, every leg passes. */
  ghost predicate CrashProof(cfg: Config)
    requires |cfg.phrase| == 4
  {
    forall owner, k: nat :: Assigns(cfg, owner) ==> !Mismatch(cfg, owner, k)
  }

  /** Then no assertion ever fires, in any interleaving. */
  lemma {:induction false} NeverCrashes(cfg: Config, run: Run, i: nat)
    requires ValidRun(cfg, run) && CrashProof(cfg) && i < |run.states|
    ensures !run.states[i].crashed
  {
    RunSums(cfg, run, i);
    OwnersAssigned(cfg, run, i);
  }

  lemma {:induction false} OwnersAssigned(cfg: Config, run: Run, i: nat)
    requires ValidRun(cfg, run) && i < |run.states|
    ensures Assigns(cfg, run.states[i].owner)
  {
    RunInv(cfg, run, i);
  }

  /** With checksums on and legs of at least four bytes, a session is crash proof exactly
      when zero checksums come only at the end; with checksums off it always is. */
  lemma {:induction false} CrashProofLong(cfg: Config)
    requires |cfg.phrase| == 4 && cfg.workers >= 1 && (cfg.checksums ==> LongLegs(cfg.legs))
    ensures CrashProof(cfg) <==> (cfg.checksums ==> ZerosOnlyAtEnd(cfg.legs))
  {
    if cfg.checksums {
      if ZerosOnlyAtEnd(cfg.legs) {
        forall owner, k: nat | Assigns(cfg, owner)
          ensures !Mismatch(cfg, owner, k)
        {
          LongMismatch(cfg, owner, k);
        }
      }
      if CrashProof(cfg) {
        var owner := seq(|cfg.legs|, _ => 0);
        assert Assigns(cfg, owner);
        AllPass(cfg, owner);
      }
    }
  }

  /** A checksummed input of fewer than four bytes is crash proof exactly when the rest of
      the check phrase is zero. */
  lemma {:induction false} CrashProofShort(cfg: Config)
    requires |cfg.phrase| == 4 && cfg.workers >= 1 && cfg.checksums && |cfg.legs| == 1 && |cfg.legs[0]| < 4
    ensures CrashProof(cfg) <==> forall i :: |cfg.legs[0]| <= i < 4 ==> cfg.phrase[i] == 0
  {
    forall owner, k: nat
      ensures Mismatch(cfg, owner, k) ==> k == 0 && owner != []
      ensures owner != [] ==> (Mismatch(cfg, owner, 0) <==> exists i :: |cfg.legs[0]| <= i < 4 && cfg.phrase[i] != 0)
    {
      if owner != [] {
        FirstShortLeg(cfg.legs, owner, cfg.phrase);
      }
    }
    assert Assigns(cfg, [0]);
    assert CrashProof(cfg) ==> !Mismatch(cfg, [0], 0);
  }

  lemma {:induction false} LongMismatch(cfg: Config, owner: seq<nat>, k: nat)
    requires |cfg.phrase| == 4 && LongLegs(cfg.legs)
    ensures Mismatch(cfg, owner, k) ==> !ZerosOnlyAtEnd(cfg.legs)
  {
    if Mismatch(cfg, owner, k) {
      LongPasses(cfg.legs, owner, Zeros(4), cfg.phrase, k);
      assert PlainSum(cfg.legs, k - 1) == 0 && PlainSum(cfg.legs, k - 1 + 1) != 0;
    }
  }

  lemma {:induction false} AllPass(cfg: Config, owner: seq<nat>)
    requires |cfg.phrase| == 4 && cfg.checksums && LongLegs(cfg.legs) && |owner| >= |cfg.legs|
    requires forall k :: !Mismatch(cfg, owner, k)
    ensures ZerosOnlyAtEnd(cfg.legs)
  {
    forall k | 0 <= k < |cfg.legs|
      ensures Passes(cfg.legs, owner, Zeros(4), cfg.phrase, k)
    {
      assert !Mismatch(cfg, owner, k);
    }
    ChainAgreement(cfg.legs, owner, Zeros(4), cfg.phrase);
  }

  /** With checksums on and legs of at least four bytes, a run that settles has died if and
      only if a zero checksum was followed by a non-zero one. */
  lemma {:induction false} CrashIffZeroInside(cfg: Config, run: Run)
    requires ValidRun(cfg, run) && Settles(cfg, run) && cfg.checksums && LongLegs(cfg.legs)
    ensures run.states[|run.steps|].crashed <==> !ZerosOnlyAtEnd(cfg.legs)
  {
    var n := |run.steps|;
    CrashIffMismatch(cfg, run);
    if run.states[n].crashed {
      var k :| Mismatch(cfg, run.states[n].owner, k);
      LongMismatch(cfg, run.states[n].owner, k);
    } else {
      DonePastData(cfg, run, n);
      AllPass(cfg, run.states[n].owner);
    }
  }
}
