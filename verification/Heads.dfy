/** What the buffers start with: both ends of a connection hold the same legs one after the
    other, so what a leg leaves uncovered goes back to earlier legs or to the very beginning,
    zeros at the sender and the check phrase at the receiver. */
module Heads {
  import opened Bytes
  import opened Checksum
  import opened Wire
  import opened Protocol
  import opened Lines
  import opened Invariants
  import opened Preservation
  import opened Safety

  /** How the transmit buffer of w starts after the legs before k. */
  ghost function SentHead(cfg: Config, owner: seq<nat>, w: nat, k: nat): (h: seq<byte>)
    requires k <= |owner|
    ensures |h| == 4
  {
    Head(cfg.legs, owner, Zeros(4), w, k)
  }

  /** How the receive buffer of w starts after the legs before k. */
  ghost function SeenHead(cfg: Config, owner: seq<nat>, w: nat, k: nat): (h: seq<byte>)
    requires |cfg.phrase| == 4 && k <= |owner|
    ensures |h| == 4
  {
    Head(cfg.legs, owner, cfg.phrase, w, k)
  }

  /** The next leg the receive worker will catch on a connection. */
  ghost function Mark(t: TxWorker, c: seq<Frame>, owner: seq<nat>): nat {
    if c != [] then c[0].pkt.legId else if TxHolds(t) then t.pkt.legId else |owner|
  }

  ghost predicate AgreesFrom(buffer: seq<byte>, head: seq<byte>, at: nat)
    requires |buffer| >= 4 && |head| == 4
  {
    forall i :: at <= i < 4 ==> buffer[i] == head[i]
  }

  /** Ingest has put the next leg into the buffer of w but not yet started it. */
  ghost predicate FilledFor(s: State, w: nat) {
    s.ingest == InFilled(w) || s.ingest == InPacked(w)
  }

  ghost predicate TxHeadOk(cfg: Config, s: State, w: nat)
    requires w < |s.tx|
  {
    var t, head := s.tx[w], SentHead(cfg, s.owner, w, |s.owner|);
    && |t.buffer| >= 4
    && (!s.done ==> t.buffer[..4] == if FilledFor(s, w) then Cover(head, LegAt(cfg.legs, |s.owner|)) else head)
  }

  ghost predicate RxHeadOk(cfg: Config, owner: seq<nat>, t: TxWorker, c: seq<Frame>, r: RxWorker, w: nat)
    requires |cfg.phrase| == 4
  {
    && |r.buffer| >= 4
    && (r.pc.RxOff? || r.pc.RxDropped? ||
        if RxHolds(r) then
          && r.pkt.legId < |owner|
          && AgreesFrom(r.buffer, SeenHead(cfg, owner, w, r.pkt.legId), if r.pc.RxReading? then r.cursor else r.pkt.size)
        else
          && Mark(t, c, owner) <= |owner|
          && r.buffer[..4] == SeenHead(cfg, owner, w, Mark(t, c, owner)))
  }

  ghost predicate HeadInv(cfg: Config, s: State)
    requires |cfg.phrase| == 4
  {
    && Shape(cfg, s)
    && (forall w :: 0 <= w < cfg.workers ==> TxHeadOk(cfg, s, w))
    && (forall w :: 0 <= w < cfg.workers ==> RxHeadOk(cfg, s.owner, s.tx[w], s.chan[w], s.rx[w], w))
  }

  lemma {:induction false} InitHeads(cfg: Config)
    requires ValidConfig(cfg)
    ensures HeadInv(cfg, Init(cfg))
  {
    assert Zeros(cfg.foot)[..4] == Zeros(4);
  }

  // ---------------------------------------------------------------- ingest

  /** Another leg started. */
  lemma {:induction false} HeadGrows(cfg: Config, owner: seq<nat>, base: seq<byte>, x: nat, w: nat, k: nat)
    requires |base| == 4 && k <= |owner|
    ensures Head(cfg.legs, owner + [x], base, w, k) == Head(cfg.legs, owner, base, w, k)
    ensures
      var before := Head(cfg.legs, owner, base, w, |owner|);
      Head(cfg.legs, owner + [x], base, w, |owner| + 1) ==
      if x == w then Cover(before, LegAt(cfg.legs, |owner|)) else before
  {
    HeadStable(cfg.legs, owner, cfg.legs, owner + [x], base, w, k);
    HeadStable(cfg.legs, owner, cfg.legs, owner + [x], base, w, |owner|);
  }

  lemma {:induction false} TxHeadAfterIngest(cfg: Config, s: State, step: IngestStep, v: nat)
    requires IngestOk(cfg, s) && IngestEnabled(cfg, s, step) && v < |s.tx| && TxHeadOk(cfg, s, v)
    ensures v < |IngestApply(cfg, s, step).tx| && TxHeadOk(cfg, IngestApply(cfg, s, step), v)
  {
    if step.IngestStart? {
      HeadGrows(cfg, s.owner, Zeros(4), s.ingest.w, v, 0);
    } else if step.IngestFill? && s.ingest.w == v {
      var buffer, leg := s.tx[v].buffer, cfg.legs[|s.owner|];
      assert Overwrite(buffer, 0, leg) == leg + buffer[|leg|..];
      CoverOverwrites(buffer, leg);
    }
  }

  lemma {:induction false} RxHeadGrows(
      cfg: Config, owner: seq<nat>, x: nat, t: TxWorker, t': TxWorker, c: seq<Frame>, r: RxWorker, w: nat)
    requires |cfg.phrase| == 4 && RxHeadOk(cfg, owner, t, c, r, w)
    requires if x == w then !TxHolds(t) && TxHolds(t') && t'.pkt.legId == |owner| else t' == t
    ensures RxHeadOk(cfg, owner + [x], t', c, r, w)
  {
    var k := if RxHolds(r) then r.pkt.legId else Mark(t, c, owner);
    if k <= |owner| {
      HeadGrows(cfg, owner, cfg.phrase, x, w, k);
    }
  }

  lemma {:induction false} RxHeadAfterIngest(cfg: Config, s: State, step: IngestStep, v: nat)
    requires ValidConfig(cfg) && Shape(cfg, s) && IngestOk(cfg, s) && IngestEnabled(cfg, s, step) && v < cfg.workers
    requires RxHeadOk(cfg, s.owner, s.tx[v], s.chan[v], s.rx[v], v)
    ensures
      var s' := IngestApply(cfg, s, step);
      Shape(cfg, s') && RxHeadOk(cfg, s'.owner, s'.tx[v], s'.chan[v], s'.rx[v], v)
  {
    var s' := IngestApply(cfg, s, step);
    if step.IngestStart? || step.IngestShutStart? {
      RxHeadGrows(cfg, s.owner, s.ingest.w, s.tx[v], s'.tx[v], s.chan[v], s.rx[v], v);
    } else {
      assert Mark(s'.tx[v], s'.chan[v], s'.owner) == Mark(s.tx[v], s.chan[v], s.owner);
    }
  }

  // ---------------------------------------------------------------- transmit workers

  lemma {:induction false} TxHeadAfterTx(cfg: Config, s: State, step: TxStep, v: nat)
    requires ValidConfig(cfg) && TxEnabled(cfg, s, step) && v < |s.tx| && TxHeadOk(cfg, s, v)
    ensures v < |TxApply(cfg, s, step).tx| && TxHeadOk(cfg, TxApply(cfg, s, step), v)
  {
    assert TxApply(cfg, s, step).tx[v].buffer == s.tx[v].buffer;
  }

  lemma {:induction false} RxHeadAfterTx(cfg: Config, s: State, step: TxStep)
    requires ValidConfig(cfg) && Shape(cfg, s) && Served(s) && TxEnabled(cfg, s, step)
    requires ConnOk(cfg, s.done, s.tx[step.w], s.chan[step.w], s.rx[step.w])
    requires RxHeadOk(cfg, s.owner, s.tx[step.w], s.chan[step.w], s.rx[step.w], step.w)
    ensures
      var s', w := TxApply(cfg, s, step), step.w;
      RxHeadOk(cfg, s'.owner, s'.tx[w], s'.chan[w], s'.rx[w], w)
  {
    var s', w := TxApply(cfg, s, step), step.w;
    if step.TxConnect? {
      HeadGap(cfg.legs, s.owner, cfg.phrase, w, 0, |s.owner|);
      assert s'.rx[w].buffer[..4] == cfg.phrase;
    } else {
      assert Mark(s'.tx[w], s'.chan[w], s'.owner) == Mark(s.tx[w], s.chan[w], s.owner);
    }
  }

  // ---------------------------------------------------------------- receive workers

  /** A leg that has been read lies over what was there before. */
  lemma {:induction false} HeldHead(cfg: Config, owner: seq<nat>, r: RxWorker, w: nat)
    requires |cfg.phrase| == 4 && |r.buffer| >= 4 && r.pkt.legId < |owner| && owner[r.pkt.legId] == w
    requires r.pkt.size <= |r.buffer| && r.buffer[..r.pkt.size] == LegAt(cfg.legs, r.pkt.legId)
    requires AgreesFrom(r.buffer, SeenHead(cfg, owner, w, r.pkt.legId), r.pkt.size)
    ensures r.buffer[..4] == SeenHead(cfg, owner, w, r.pkt.legId + 1)
  {
    var before, leg := SeenHead(cfg, owner, w, r.pkt.legId), LegAt(cfg.legs, r.pkt.legId);
    assert forall i :: 0 <= i < 4 ==> r.buffer[i] == Cover(before, leg)[i];
  }

  /** After the increment the buffer is as the next leg of this connection will find it. */
  lemma {:induction false} HeadAfterBump(cfg: Config, s: State, w: nat)
    requires ValidConfig(cfg) && Placed(cfg, s) && w < cfg.workers && RxOk(cfg, s.rx[w])
    requires s.rx[w].pc.RxBumping? && s.rx[w].pkt.legId == s.nextLeg
    requires RxHeadOk(cfg, s.owner, s.tx[w], s.chan[w], s.rx[w], w)
    ensures
      var mark := Mark(s.tx[w], s.chan[w], s.owner);
      mark <= |s.owner| && s.rx[w].buffer[..4] == SeenHead(cfg, s.owner, w, mark)
  {
    var k, mark, line := s.nextLeg, Mark(s.tx[w], s.chan[w], s.owner), AllLines(cfg, s)[w];
    HolderOwns(cfg, s, w);
    HeldHead(cfg, s.owner, s.rx[w], w);
    NextOnLine(cfg, s, w);
    assert line[0] == k;
    FirstGap(AllLines(cfg, s), k, s.owner, w);
    HeadGap(cfg.legs, s.owner, cfg.phrase, w, k + 1, mark);
  }

  lemma {:induction false} NextOnLine(cfg: Config, s: State, w: nat)
    requires Shape(cfg, s) && w < cfg.workers
    ensures
      var line, held := AllLines(cfg, s)[w], |RxIds(s.rx[w])|;
      Mark(s.tx[w], s.chan[w], s.owner) == if |line| > held then line[held] else |s.owner|
  {
  }

  lemma {:induction false} RxHeadAfterRx(cfg: Config, s: State, step: RxStep)
    requires ValidConfig(cfg) && Placed(cfg, s) && RxEnabled(cfg, s, step) && RxOk(cfg, s.rx[step.w])
    requires step.RxBump? ==> s.rx[step.w].pkt.legId == s.nextLeg
    requires RxHeadOk(cfg, s.owner, s.tx[step.w], s.chan[step.w], s.rx[step.w], step.w)
    ensures RxHeadOk(cfg, s.owner, s.tx[step.w], RxApply(cfg, s, step).chan[step.w], RxMove(cfg, s, step), step.w)
  {
    var w := step.w;
    var r, r' := s.rx[w], RxMove(cfg, s, step);
    if step.RxCatch? {
      HeadAfterCatch(cfg, s, w, r');
    } else if step.RxBump? {
      HeadAfterBump(cfg, s, w);
    } else if step.RxRead? {
      ReadKeepsHead(cfg, s.owner, s.tx[w], s.chan[w], r, step.n, r', w);
    } else {
      PhaseKeepsHead(cfg, s.owner, s.tx[w], s.chan[w], r, r', w);
    }
  }

  lemma {:induction false} HeadAfterCatch(cfg: Config, s: State, w: nat, r': RxWorker)
    requires ValidConfig(cfg) && Placed(cfg, s) && w < cfg.workers && s.chan[w] != [] && s.rx[w].pc.RxHeader?
    requires RxHeadOk(cfg, s.owner, s.tx[w], s.chan[w], s.rx[w], w)
    requires
      var f := s.chan[w][0];
      r' == s.rx[w].(pc := if f.pkt.size == 0 then RxLocking else RxReading,
                     pkt := f.pkt, unread := f.payload, cursor := 0, wrote := 0)
    ensures RxHeadOk(cfg, s.owner, s.tx[w], s.chan[w][1..], r', w)
  {
    var line := AllLines(cfg, s)[w];
    assert LineOk(line, w, s.nextLeg, s.owner);
    assert line[0] == s.chan[w][0].pkt.legId;
  }

  lemma {:induction false} ReadKeepsHead(
      cfg: Config, owner: seq<nat>, t: TxWorker, c: seq<Frame>, r: RxWorker, n: nat, r': RxWorker, w: nat)
    requires |cfg.phrase| == 4 && RxHeadOk(cfg, owner, t, c, r, w) && RxOk(cfg, r)
    requires r.pc.RxReading? && 1 <= n <= |r.unread|
    requires r' == r.(pc := if n == |r.unread| then RxLocking else RxReading,
                      unread := r.unread[n..],
                      cursor := r.cursor + n,
                      buffer := Overwrite(r.buffer, r.cursor, r.unread[..n]))
    ensures RxHeadOk(cfg, owner, t, c, r', w)
  {
    assert forall i :: r'.cursor <= i < 4 ==> r'.buffer[i] == r.buffer[i];
  }

  lemma {:induction false} PhaseKeepsHead(
      cfg: Config, owner: seq<nat>, t: TxWorker, c: seq<Frame>, r: RxWorker, r': RxWorker, w: nat)
    requires |cfg.phrase| == 4 && RxHeadOk(cfg, owner, t, c, r, w)
    requires r'.buffer == r.buffer && r'.pkt == r.pkt && !r.pc.RxOff?
    requires r'.pc.RxDropped? || (RxHolds(r) <==> RxHolds(r'))
    requires r'.pc.RxDropped? || (!r.pc.RxReading? && !r'.pc.RxReading? && !r.pc.RxDropped?)
    ensures RxHeadOk(cfg, owner, t, c, r', w)
  {
  }

  lemma {:induction false} WakeKeepsHead(
      cfg: Config, owner: seq<nat>, t: TxWorker, c: seq<Frame>, r: RxWorker, w: nat)
    requires |cfg.phrase| == 4 && RxHeadOk(cfg, owner, t, c, r, w)
    ensures RxHeadOk(cfg, owner, t, c, Wake(r), w)
  {
  }

  // ---------------------------------------------------------------- all together

  /** Every step of every thread keeps what the buffers start with. */
  lemma {:induction false} StepHeads(cfg: Config, s: State, step: Step, s': State)
    requires Inv(cfg, s) && Moves(cfg, s, step, s') && HeadInv(cfg, s)
    ensures HeadInv(cfg, s')
  {
    match step
    case Ingest(i) => IngestStepHeads(cfg, s, i);
    case Tx(t) => TxStepHeads(cfg, s, t);
    case Rx(r) => RxStepHeads(cfg, s, r);
  }

  lemma {:induction false} IngestStepHeads(cfg: Config, s: State, step: IngestStep)
    requires ValidConfig(cfg) && HeadInv(cfg, s) && IngestOk(cfg, s) && IngestEnabled(cfg, s, step)
    ensures HeadInv(cfg, IngestApply(cfg, s, step))
  {
    var s' := IngestApply(cfg, s, step);
    forall v | 0 <= v < cfg.workers
      ensures TxHeadOk(cfg, s', v) && RxHeadOk(cfg, s'.owner, s'.tx[v], s'.chan[v], s'.rx[v], v)
    {
      TxHeadAfterIngest(cfg, s, step, v);
      RxHeadAfterIngest(cfg, s, step, v);
    }
  }

  lemma {:induction false} TxStepHeads(cfg: Config, s: State, step: TxStep)
    requires ValidConfig(cfg) && HeadInv(cfg, s) && Conns(cfg, s) && Served(s) && TxEnabled(cfg, s, step)
    ensures HeadInv(cfg, TxApply(cfg, s, step))
  {
    var s' := TxApply(cfg, s, step);
    assert ConnOk(cfg, s.done, s.tx[step.w], s.chan[step.w], s.rx[step.w]);
    RxHeadAfterTx(cfg, s, step);
    forall v | 0 <= v < cfg.workers
      ensures TxHeadOk(cfg, s', v)
      ensures v != step.w ==> s'.tx[v] == s.tx[v] && s'.chan[v] == s.chan[v] && s'.rx[v] == s.rx[v]
    {
      TxHeadAfterTx(cfg, s, step, v);
    }
  }

  lemma {:induction false} RxStepHeads(cfg: Config, s: State, step: RxStep)
    requires ValidConfig(cfg) && HeadInv(cfg, s) && Conns(cfg, s) && Placed(cfg, s) && OutputOk(cfg, s)
    requires RxEnabled(cfg, s, step)
    ensures HeadInv(cfg, RxApply(cfg, s, step))
  {
    var s' := RxApply(cfg, s, step);
    assert ConnOk(cfg, s.done, s.tx[step.w], s.chan[step.w], s.rx[step.w]);
    RxHeadAfterRx(cfg, s, step);
    forall v | 0 <= v < cfg.workers
      ensures TxHeadOk(cfg, s', v)
      ensures RxHeadOk(cfg, s'.owner, s'.tx[v], s'.chan[v], s'.rx[v], v)
    {
      assert TxHeadOk(cfg, s, v);
      if v != step.w {
        OtherKeepsHead(cfg, s, step, v);
      }
    }
  }

  lemma {:induction false} OtherKeepsHead(cfg: Config, s: State, step: RxStep, v: nat)
    requires |cfg.phrase| == 4 && Shape(cfg, s) && RxEnabled(cfg, s, step) && v < cfg.workers && v != step.w
    requires RxHeadOk(cfg, s.owner, s.tx[v], s.chan[v], s.rx[v], v)
    ensures
      var s' := RxApply(cfg, s, step);
      Shape(cfg, s') && RxHeadOk(cfg, s'.owner, s'.tx[v], s'.chan[v], s'.rx[v], v)
  {
    WakeKeepsHead(cfg, s.owner, s.tx[v], s.chan[v], s.rx[v], v);
  }

  lemma {:induction false} RunHeads(cfg: Config, run: Run, i: nat)
    requires ValidRun(cfg, run) && i < |run.states|
    ensures HeadInv(cfg, run.states[i])
  {
    if i == 0 {
      InitHeads(cfg);
    } else {
      RunHeads(cfg, run, i - 1);
      HeadsInRun(cfg, run, i - 1);
    }
  }

  lemma {:induction false} HeadsInRun(cfg: Config, run: Run, i: nat)
    requires ValidRun(cfg, run) && i < |run.steps| && HeadInv(cfg, run.states[i])
    ensures HeadInv(cfg, run.states[i + 1])
  {
    RunInv(cfg, run, i);
    RunStep(cfg, run, i);
    StepHeads(cfg, run.states[i], run.steps[i], run.states[i + 1]);
  }
}
