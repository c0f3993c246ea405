/** Who may touch a transmit buffer, what a finished worker leaves behind, and what a
    lost connection can and cannot do. */
module Ownership {
  import opened Bytes
  import opened Wire
  import opened Protocol
  import opened Lines
  import opened Invariants
  import opened Preservation
  import opened Safety

  // ---------------------------------------------------------------- buffers

  /** While ingest works on a worker's buffer and packet, that worker is still idle and
      its thread is at the top of its loop; only during shutdown may the thread have left. */
  lemma {:induction false} ChosenWorkerStaysIdle(cfg: Config, run: Run, i: nat)
    requires ValidRun(cfg, run) && i < |run.states|
    ensures
      var s := run.states[i];
      match s.ingest
      case InTop => true
      case InFinished => true
      case InShutting(w) => w < |s.tx| && s.tx[w].state.StIdle? && (s.tx[w].pc.TxTop? || s.tx[w].pc.TxExited?)
      case InShutPacked(w) => w < |s.tx| && s.tx[w].state.StIdle? && (s.tx[w].pc.TxTop? || s.tx[w].pc.TxExited?)
      case _ => s.ingest.w < |s.tx| && Ready(s.tx[s.ingest.w])
  {
    RunInv(cfg, run, i);
  }

  /** A dispatched leg survives one step of any thread, or that step writes it. */
  lemma {:induction false} HeldLegUntouched(cfg: Config, s: State, step: Step, s': State, w: nat)
    requires Moves(cfg, s, step, s') && Conns(cfg, s) && IngestOk(cfg, s)
    requires w < cfg.workers && TxHolds(s.tx[w])
    ensures
      && Shape(cfg, s')
      && s'.tx[w].pkt == s.tx[w].pkt && s'.tx[w].buffer == s.tx[w].buffer
      && (TxHolds(s'.tx[w]) ||
          s'.chan[w] == s.chan[w] + [Frame(s.tx[w].pkt, Payload(cfg, s.tx[w].pkt.legId))])
  {
    assert ConnOk(cfg, s.done, s.tx[w], s.chan[w], s.rx[w]);
    match step
    case Ingest(i) => IngestSparesHeld(cfg, s, i, w);
    case Tx(t) => TxSparesHeld(cfg, s, t, w);
    case Rx(r) => RxSparesHeld(cfg, s, r);
  }

  /** No leg is overwritten before it is pushed: over any stretch of any run, a leg held by
      a worker is still there untouched, or a writev in between put exactly that leg on the
      connection. */
  lemma {:induction false} HeldUntilPushed(cfg: Config, run: Run, i: nat, j: nat, w: nat)
    requires ValidRun(cfg, run) && i <= j < |run.states|
    requires w < |run.states[i].tx| && TxHolds(run.states[i].tx[w])
    ensures w < |run.states[j].tx|
    ensures
      var t := run.states[i].tx[w];
      || (TxHolds(run.states[j].tx[w]) && SameLeg(run.states[j].tx[w], t))
      || exists m :: i <= m < j && PushedAt(cfg, run, m, w, t)
    decreases j
  {
    SameShape(cfg, run, i, j);
    if i < j {
      var t := run.states[i].tx[w];
      HeldUntilPushed(cfg, run, i, j - 1, w);
      if m :| i <= m < j - 1 && PushedAt(cfg, run, m, w, t) {
        assert PushedAt(cfg, run, m, w, t);
      } else {
        HeldOneStep(cfg, run, j - 1, w);
        assert TxHolds(run.states[j].tx[w]) || PushedAt(cfg, run, j - 1, w, t);
      }
    }
  }

  lemma {:induction false} SameShape(cfg: Config, run: Run, i: nat, j: nat)
    requires ValidRun(cfg, run) && i < |run.states| && j < |run.states|
    ensures |run.states[i].tx| == |run.states[j].tx|
  {
    RunInv(cfg, run, i);
    RunInv(cfg, run, j);
  }

  ghost predicate SameLeg(t: TxWorker, t': TxWorker) {
    t.pkt == t'.pkt && t.buffer == t'.buffer
  }

  /** Step m of the run puts the leg of t on connection w. */
  ghost predicate PushedAt(cfg: Config, run: Run, m: nat, w: nat, t: TxWorker) {
    && m + 1 < |run.states| && w < |run.states[m].chan| && w < |run.states[m + 1].chan|
    && run.states[m + 1].chan[w] == run.states[m].chan[w] + [Frame(t.pkt, Payload(cfg, t.pkt.legId))]
  }

  lemma {:induction false} HeldOneStep(cfg: Config, run: Run, m: nat, w: nat)
    requires ValidRun(cfg, run) && m < |run.steps|
    requires w < |run.states[m].tx| && TxHolds(run.states[m].tx[w])
    ensures w < |run.states[m + 1].tx|
    ensures
      var t := run.states[m].tx[w];
      && SameLeg(run.states[m + 1].tx[w], t)
      && (TxHolds(run.states[m + 1].tx[w]) || PushedAt(cfg, run, m, w, t))
  {
    RunInv(cfg, run, m);
    RunStep(cfg, run, m);
    HeldLegUntouched(cfg, run.states[m], run.steps[m], run.states[m + 1], w);
  }

  lemma {:induction false} RxSparesHeld(cfg: Config, s: State, step: RxStep)
    requires Shape(cfg, s) && RxEnabled(cfg, s, step)
    ensures Shape(cfg, RxApply(cfg, s, step)) && RxApply(cfg, s, step).tx == s.tx
  {
  }

  lemma {:induction false} IngestSparesHeld(cfg: Config, s: State, step: IngestStep, w: nat)
    requires Shape(cfg, s) && IngestOk(cfg, s) && IngestEnabled(cfg, s, step)
    requires w < cfg.workers && TxHolds(s.tx[w])
    ensures Shape(cfg, IngestApply(cfg, s, step)) && IngestApply(cfg, s, step).tx[w] == s.tx[w]
  {
  }

  lemma {:induction false} TxSparesHeld(cfg: Config, s: State, step: TxStep, w: nat)
    requires ValidConfig(cfg) && Shape(cfg, s) && TxEnabled(cfg, s, step)
    requires w < cfg.workers && TxHolds(s.tx[w]) && TxOk(cfg, s.tx[w], s.done)
    ensures
      var s' := TxApply(cfg, s, step);
      && Shape(cfg, s')
      && s'.tx[w].pkt == s.tx[w].pkt && s'.tx[w].buffer == s.tx[w].buffer
      && (TxHolds(s'.tx[w]) ||
          s'.chan[w] == s.chan[w] + [Frame(s.tx[w].pkt, Payload(cfg, s.tx[w].pkt.legId))])
  {
  }

  /** At the top of its loop a worker is always idle or dispatched, so the recovery case
      and the default case of its switch are never taken. */
  lemma {:induction false} SwitchIsTotal(cfg: Config, run: Run, i: nat, w: nat)
    requires ValidRun(cfg, run) && i < |run.states| && w < |run.states[i].tx|
    requires run.states[i].tx[w].pc.TxTop?
    ensures run.states[i].tx[w].state.StIdle? || run.states[i].tx[w].state.StDispatched?
  {
    RunInv(cfg, run, i);
    var s := run.states[i];
    assert ConnOk(cfg, s.done, s.tx[w], s.chan[w], s.rx[w]);
  }

  // ---------------------------------------------------------------- drain

  /** A worker that has left its loop holds no data leg. */
  lemma {:induction false} ExitLeavesNoData(cfg: Config, run: Run, i: nat, w: nat)
    requires ValidRun(cfg, run) && i < |run.states| && w < |run.states[i].tx|
    requires run.states[i].tx[w].pc.TxExited? && TxHolds(run.states[i].tx[w])
    ensures run.states[i].tx[w].pkt.legId == |cfg.legs|
  {
    RunInv(cfg, run, i);
    var s := run.states[i];
    assert ConnOk(cfg, s.done, s.tx[w], s.chan[w], s.rx[w]);
  }

  /** A worker that takes the end leg has seen `done` with it, so it leaves its loop as soon
      as the leg is pushed. */
  lemma {:induction false} EndLegLeaves(cfg: Config, run: Run, i: nat, w: nat)
    requires ValidRun(cfg, run) && i < |run.steps| && run.steps[i] == Tx(TxFinish(w))
    requires w < |run.states[i].tx| && run.states[i].tx[w].pkt.legId == |cfg.legs|
    ensures w < |run.states[i + 1].tx| && run.states[i + 1].tx[w].pc.TxExited?
  {
    RunInv(cfg, run, i);
    RunStep(cfg, run, i);
    var s := run.states[i];
    assert ConnOk(cfg, s.done, s.tx[w], s.chan[w], s.rx[w]);
  }

  /** What `tx_poll` accepts of one worker. */
  ghost predicate Quiet(t: TxWorker) {
    t.state.StIdle? || t.state.StFaulted?
  }

  lemma {:induction false} QuietMove(cfg: Config, s: State, step: TxStep, w: nat)
    requires ValidConfig(cfg) && TxEnabled(cfg, s, step)
    requires w < |s.tx| && TxPhase(cfg, s.tx[w]) && Quiet(s.tx[w])
    ensures |TxApply(cfg, s, step).tx| == |s.tx| && Quiet(TxApply(cfg, s, step).tx[w])
  {
    if step.w == w {
      assert step.TxLook?;
    }
  }

  lemma {:induction false} QuietStays(cfg: Config, s: State, step: Step, s': State, w: nat)
    requires Moves(cfg, s, step, s') && IngestOk(cfg, s) && AllStarted(cfg, s)
    requires w < |s.tx| && TxPhase(cfg, s.tx[w]) && Quiet(s.tx[w])
    ensures w < |s'.tx| && Quiet(s'.tx[w])
  {
    if step.Tx? {
      QuietMove(cfg, s, step.t, w);
    } else {
      assert s'.tx == s.tx;
    }
  }

  /** The last `start_worker`, the one for the end leg, has happened. */
  ghost predicate AllStarted(cfg: Config, s: State) {
    |s.owner| == |cfg.legs| + 1
  }

  lemma {:induction false} PhaseInRun(cfg: Config, run: Run, i: nat, w: nat)
    requires ValidRun(cfg, run) && i < |run.states| && w < |run.states[i].tx|
    ensures TxPhase(cfg, run.states[i].tx[w])
  {
    RunInv(cfg, run, i);
    var s := run.states[i];
    assert ConnOk(cfg, s.done, s.tx[w], s.chan[w], s.rx[w]);
  }

  lemma {:induction false} QuietToTheEnd(cfg: Config, run: Run, from: nat, seen: nat, upto: nat, w: nat)
    requires ValidRun(cfg, run) && from <= seen <= upto < |run.states|
    requires AllStarted(cfg, run.states[from])
    requires w < |run.states[seen].tx| && Quiet(run.states[seen].tx[w])
    ensures w < |run.states[upto].tx| && Quiet(run.states[upto].tx[w])
    decreases upto
  {
    if upto > seen {
      QuietToTheEnd(cfg, run, from, seen, upto - 1, w);
      StartedStays(cfg, run, from, upto - 1);
      QuietInRun(cfg, run, upto - 1, w);
    }
  }

  lemma {:induction false} QuietInRun(cfg: Config, run: Run, i: nat, w: nat)
    requires ValidRun(cfg, run) && i < |run.steps| && AllStarted(cfg, run.states[i])
    requires w < |run.states[i].tx| && Quiet(run.states[i].tx[w])
    ensures w < |run.states[i + 1].tx| && Quiet(run.states[i + 1].tx[w])
  {
    PhaseInRun(cfg, run, i, w);
    RunInv(cfg, run, i);
    RunStep(cfg, run, i);
    QuietStays(cfg, run.states[i], run.steps[i], run.states[i + 1], w);
  }

  lemma {:induction false} StartedStays(cfg: Config, run: Run, from: nat, upto: nat)
    requires ValidRun(cfg, run) && from <= upto < |run.states|
    requires AllStarted(cfg, run.states[from])
    ensures AllStarted(cfg, run.states[upto])
    decreases upto
  {
    if from < upto {
      StartedStays(cfg, run, from, upto - 1);
      RunInv(cfg, run, upto - 1);
      RunStep(cfg, run, upto - 1);
      StartedKept(cfg, run.states[upto - 1], run.steps[upto - 1], run.states[upto]);
    }
  }

  lemma {:induction false} StartedKept(cfg: Config, s: State, step: Step, s': State)
    requires Moves(cfg, s, step, s') && IngestOk(cfg, s) && AllStarted(cfg, s)
    ensures AllStarted(cfg, s')
  {
    assert s'.owner == s.owner;
  }

  /** A scan of `tx_poll`, one worker at a time while everything else goes on: if it began
      after the last `start_worker` and found every worker idle or faulted, then at its end
      every leg has been pushed. */
  lemma {:induction false} PollImpliesPushed(cfg: Config, run: Run, from: nat, seen: seq<nat>, k: nat)
    requires ValidRun(cfg, run) && from < |run.states| && AllStarted(cfg, run.states[from])
    requires |seen| == cfg.workers
    requires forall w :: 0 <= w < cfg.workers ==>
               && from <= seen[w] < |run.states|
               && w < |run.states[seen[w]].tx| && Quiet(run.states[seen[w]].tx[w])
    ensures
      var s := run.states[|run.states| - 1];
      && Shape(cfg, s)
      && s.done && |s.owner| == |cfg.legs| + 1
      && (forall w :: 0 <= w < cfg.workers ==> !TxHolds(s.tx[w]))
      && (s.nextLeg <= k <= |cfg.legs| ==>
            s.owner[k] < cfg.workers &&
            k in RxIds(s.rx[s.owner[k]]) + ChanIds(s.chan[s.owner[k]]))
  {
    var upto := |run.states| - 1;
    var s := run.states[upto];
    RunInv(cfg, run, upto);
    StartedStays(cfg, run, from, upto);
    forall w | 0 <= w < cfg.workers
      ensures !TxHolds(s.tx[w])
    {
      QuietToTheEnd(cfg, run, from, seen[w], upto, w);
      assert ConnOk(cfg, s.done, s.tx[w], s.chan[w], s.rx[w]);
    }
    if s.nextLeg <= k <= |cfg.legs| {
      var lines := AllLines(cfg, s);
      assert k in lines[s.owner[k]];
      assert TxIds(s.tx[s.owner[k]]) == [];
    }
  }

  // ---------------------------------------------------------------- loss

  lemma {:induction false} CompleteAt(cfg: Config, s: State)
    requires Inv(cfg, s) && s.doneMbox
    ensures s.output == Flatten(cfg.legs)
    ensures |s.owner| == |cfg.legs| + 1
    ensures forall w :: 0 <= w < cfg.workers ==> !s.rx[w].pc.RxDropped? && !s.rx[w].pc.RxReading? && !Waiting(s.rx[w])
  {
    var m := OutputShapeAt(cfg, s);
    assert cfg.legs[..|cfg.legs|] == cfg.legs;
    forall w | 0 <= w < cfg.workers
      ensures RxHolds(s.rx[w]) ==> s.rx[w].pc.RxBumping?
    {
      if RxHolds(s.rx[w]) {
        HolderOwns(cfg, s, w);
      }
    }
  }

  /** done_mbox means nothing is missing: the output is the whole input, no connection was
      lost in mid-leg, and no worker is reading a leg or waiting in the sequencer. */
  lemma {:induction false} DoneMeansComplete(cfg: Config, run: Run, i: nat)
    requires ValidRun(cfg, run) && i < |run.states| && run.states[i].doneMbox
    ensures
      var s := run.states[i];
      && s.output == Flatten(cfg.legs)
      && |s.owner| == |cfg.legs| + 1
      && (forall w :: 0 <= w < |s.rx| ==> !s.rx[w].pc.RxDropped? && !s.rx[w].pc.RxReading? && !Waiting(s.rx[w]))
  {
    RunInv(cfg, run, i);
    CompleteAt(cfg, run.states[i]);
  }

  lemma {:induction false} DroppedStays(cfg: Config, run: Run, i: nat, j: nat, w: nat)
    requires ValidRun(cfg, run) && i <= j < |run.states|
    requires w < |run.states[i].rx| && run.states[i].rx[w].pc.RxDropped?
    ensures w < |run.states[j].rx| && run.states[j].rx[w] == run.states[i].rx[w]
    decreases j
  {
    if i < j {
      DroppedStays(cfg, run, i, j - 1, w);
      RunStep(cfg, run, j - 1);
      DroppedKept(cfg, run.states[j - 1], run.steps[j - 1], run.states[j], w);
    }
  }

  lemma {:induction false} DroppedKept(cfg: Config, s: State, step: Step, s': State, w: nat)
    requires Moves(cfg, s, step, s') && w < |s.rx| && s.rx[w].pc.RxDropped?
    ensures w < |s'.rx| && s'.rx[w] == s.rx[w]
  {
    match step
    case Ingest(i) => assert s'.rx == s.rx;
    case Tx(t) => TxSparesDropped(cfg, s, t, w);
    case Rx(r) => RxSparesDropped(cfg, s, r, w);
  }

  lemma {:induction false} TxSparesDropped(cfg: Config, s: State, step: TxStep, w: nat)
    requires ValidConfig(cfg) && TxEnabled(cfg, s, step) && w < |s.rx| && s.rx[w].pc.RxDropped?
    ensures w < |TxApply(cfg, s, step).rx| && TxApply(cfg, s, step).rx[w] == s.rx[w]
  {
  }

  lemma {:induction false} RxSparesDropped(cfg: Config, s: State, step: RxStep, w: nat)
    requires RxEnabled(cfg, s, step) && w < |s.rx| && s.rx[w].pc.RxDropped?
    ensures w < |RxApply(cfg, s, step).rx| && RxApply(cfg, s, step).rx[w] == s.rx[w]
  {
    assert step.w != w;
    assert Wake(s.rx[w]) == s.rx[w];
  }

  /** Loss safety: once a connection is lost in the middle of leg k, next_leg never passes
      k, the output never goes beyond the legs before k, and done_mbox is never raised. */
  lemma {:induction false} LostLegStopsDelivery(cfg: Config, run: Run, i: nat, j: nat, w: nat)
    requires ValidRun(cfg, run) && i <= j < |run.states|
    requires w < |run.states[i].rx| && run.states[i].rx[w].pc.RxDropped?
    ensures
      var k := run.states[i].rx[w].pkt.legId;
      && run.states[j].nextLeg <= k < |cfg.legs|
      && run.states[j].output <= Flatten(cfg.legs[..k])
      && !run.states[j].doneMbox
  {
    DroppedStays(cfg, run, i, j, w);
    RunInv(cfg, run, i);
    RunInv(cfg, run, j);
    LostAt(cfg, run.states[j], w);
  }

  lemma {:induction false} LostAt(cfg: Config, s: State, w: nat)
    requires Inv(cfg, s) && w < cfg.workers && s.rx[w].pc.RxDropped?
    ensures s.nextLeg <= s.rx[w].pkt.legId < |cfg.legs|
    ensures s.output <= Flatten(cfg.legs[..s.rx[w].pkt.legId])
    ensures !s.doneMbox
  {
    var k := s.rx[w].pkt.legId;
    assert ConnOk(cfg, s.done, s.tx[w], s.chan[w], s.rx[w]);
    HolderOwns(cfg, s, w);
    var m := OutputShapeAt(cfg, s);
    if s.nextLeg == k {
      SoleCritical(cfg, s, w);
      assert s.output == Delivered(cfg, k);
    } else {
      DeliveredWithin(cfg, s.nextLeg, m, k);
    }
    if s.doneMbox {
      CompleteAt(cfg, s);
    }
  }
}
