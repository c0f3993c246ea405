/** Full delivery: exactly when a run that has come to rest has handed over everything. */
module Delivery {
  import opened Bytes
  import opened Wire
  import opened Protocol
  import opened Lines
  import opened Invariants
  import opened Preservation
  import opened Safety
  import opened Ownership
  import opened Progress

  /** No thread has productive work left. */
  ghost predicate AtRest(cfg: Config, s: State) {
    forall step :: Enabled(cfg, s, step) ==> !Productive(s, step)
  }

  /** An abandoned end leg is never sequenced. */
  lemma {:induction false} AbandonedNeverDone(cfg: Config, s: State)
    requires Inv(cfg, s) && Abandoned(s)
    ensures !s.doneMbox
  {
    var w :| 0 <= w < |s.tx| && s.tx[w].pc.TxExited? && s.tx[w].state.StDispatched?;
    assert ConnOk(cfg, s.done, s.tx[w], s.chan[w], s.rx[w]);
    HeldOutstanding(cfg, s, w);
    var v := s.owner[s.nextLeg];
    if v < cfg.workers && RxHolds(s.rx[v]) {
      HeldOnOneSide(cfg, s, w, v);
    }
  }

  /** A leg in a transmit buffer is in no receive buffer. */
  lemma {:induction false} HeldOnOneSide(cfg: Config, s: State, w: nat, v: nat)
    requires Placed(cfg, s) && w < cfg.workers && v < cfg.workers
    requires TxHolds(s.tx[w]) && RxHolds(s.rx[v])
    ensures s.tx[w].pkt.legId != s.rx[v].pkt.legId
  {
    var lines := AllLines(cfg, s);
    var last := |lines[w]| - 1;
    assert lines[w][last] == s.tx[w].pkt.legId;
    assert lines[v][0] == s.rx[v].pkt.legId;
    DistinctPlaces(lines, s.nextLeg, s.owner, w, last, v, 0);
  }

  lemma {:induction false} RestAt(cfg: Config, s: State)
    requires ValidConfig(cfg) && Inv(cfg, s) && AtRest(cfg, s)
    requires !s.crashed && LossFree(s) && SomeConnection(s)
    ensures s.doneMbox <==> !Abandoned(s)
    ensures s.doneMbox ==> s.output == Flatten(cfg.legs)
  {
    if Abandoned(s) {
      AbandonedNeverDone(cfg, s);
    }
    if !s.doneMbox && !Abandoned(s) {
      var step := CanMove(cfg, s);
    }
    if s.doneMbox {
      CompleteAt(cfg, s);
    }
  }

  /** At rest and without loss, everything was delivered exactly when the end leg was not
      abandoned. */
  lemma {:induction false} RestMeansDelivered(cfg: Config, run: Run, i: nat)
    requires ValidRun(cfg, run) && i < |run.states|
    requires
      var s := run.states[i];
      AtRest(cfg, s) && !s.crashed && LossFree(s) && SomeConnection(s)
    ensures
      var s := run.states[i];
      (s.doneMbox <==> !Abandoned(s)) && (s.doneMbox ==> s.output == Flatten(cfg.legs))
  {
    RunInv(cfg, run, i);
    RestAt(cfg, run.states[i]);
  }

  // ---------------------------------------------------------------- the shutdown race

  /** Ingest is inside txshutdown: done is up, but the end leg is not yet dispatched. */
  ghost predicate ShutdownWindow(s: State, w: nat) {
    s.ingest == InShutting(w) || s.ingest == InShutPacked(w)
  }

  /** The chosen worker polls inside the window: it sees done and an idle state, and leaves. */
  ghost predicate RaceStep(s: State, step: Step) {
    step.Tx? && step.t.TxLook? && ShutdownWindow(s, step.t.w)
  }

  /** Some worker has left although the end leg is or will be given to it. */
  ghost predicate Orphaned(s: State) {
    exists w :: 0 <= w < |s.tx| && OrphanedBy(s, w)
  }

  ghost predicate OrphanedBy(s: State, w: nat)
    requires w < |s.tx|
  {
    s.tx[w].pc.TxExited? && (s.tx[w].state.StDispatched? || ShutdownWindow(s, w))
  }

  lemma {:induction false} OrphanByIngest(cfg: Config, s: State, step: IngestStep, w: nat)
    requires IngestOk(cfg, s) && IngestEnabled(cfg, s, step) && w < |s.tx|
    ensures w < |IngestApply(cfg, s, step).tx|
    ensures OrphanedBy(IngestApply(cfg, s, step), w) <==> OrphanedBy(s, w)
  {
  }

  lemma {:induction false} OrphanByTx(cfg: Config, s: State, step: TxStep, w: nat)
    requires ValidConfig(cfg) && IngestOk(cfg, s) && TxEnabled(cfg, s, step)
    requires w < |s.tx| && TxOk(cfg, s.tx[w], s.done)
    ensures w < |TxApply(cfg, s, step).tx|
    ensures OrphanedBy(TxApply(cfg, s, step), w) <==> OrphanedBy(s, w) || (RaceStep(s, Tx(step)) && step.w == w)
  {
  }

  lemma {:induction false} OrphanByRx(cfg: Config, s: State, step: RxStep, w: nat)
    requires RxEnabled(cfg, s, step) && w < |s.tx|
    ensures |RxApply(cfg, s, step).tx| == |s.tx|
    ensures OrphanedBy(RxApply(cfg, s, step), w) <==> OrphanedBy(s, w)
  {
  }

  /** The race, and nothing else, orphans the end leg; and it cannot be undone. */
  lemma {:induction false} OrphanStep(cfg: Config, s: State, step: Step, s': State)
    requires Moves(cfg, s, step, s') && Conns(cfg, s) && IngestOk(cfg, s)
    ensures Orphaned(s') <==> Orphaned(s) || RaceStep(s, step)
  {
    SameWorkers(cfg, s, step, s');
    forall w | 0 <= w < |s.tx|
      ensures OrphanedBy(s', w) <==> OrphanedBy(s, w) || (RaceStep(s, step) && step.t.w == w)
    {
      assert ConnOk(cfg, s.done, s.tx[w], s.chan[w], s.rx[w]);
      OrphanAt(cfg, s, step, s', w);
    }
    GatherOrphans(s, s', RaceStep(s, step), if RaceStep(s, step) then step.t.w else 0);
  }

  lemma {:induction false} SameWorkers(cfg: Config, s: State, step: Step, s': State)
    requires Moves(cfg, s, step, s')
    ensures |s'.tx| == |s.tx|
    ensures RaceStep(s, step) ==> step.t.w < |s.tx|
  {
  }

  lemma {:induction false} GatherOrphans(s: State, s': State, raced: bool, racer: nat)
    requires |s'.tx| == |s.tx| && (raced ==> racer < |s.tx|)
    requires forall w :: 0 <= w < |s.tx| ==> (OrphanedBy(s', w) <==> OrphanedBy(s, w) || (raced && w == racer))
    ensures Orphaned(s') <==> Orphaned(s) || raced
  {
    if raced {
      assert OrphanedBy(s', racer);
    }
  }

  lemma {:induction false} OrphanAt(cfg: Config, s: State, step: Step, s': State, w: nat)
    requires Moves(cfg, s, step, s') && IngestOk(cfg, s)
    requires w < |s.tx| && TxOk(cfg, s.tx[w], s.done)
    ensures |s'.tx| == |s.tx|
    ensures OrphanedBy(s', w) <==> OrphanedBy(s, w) || (RaceStep(s, step) && step.t.w == w)
  {
    match step
    case Ingest(i) => OrphanByIngest(cfg, s, i, w);
    case Tx(t) => OrphanByTx(cfg, s, t, w);
    case Rx(r) => OrphanByRx(cfg, s, r, w);
  }

  /** Over a whole run. */
  lemma {:induction false} OrphanedIffRaced(cfg: Config, run: Run, n: nat)
    requires ValidRun(cfg, run) && n < |run.states|
    ensures Orphaned(run.states[n]) <==> exists i :: 0 <= i < n && RaceStep(run.states[i], run.steps[i])
  {
    if n == 0 {
      assert forall w :: 0 <= w < |Init(cfg).tx| ==> !OrphanedBy(Init(cfg), w);
    } else {
      OrphanedIffRaced(cfg, run, n - 1);
      OrphanInRun(cfg, run, n - 1);
    }
  }

  lemma {:induction false} OrphanInRun(cfg: Config, run: Run, i: nat)
    requires ValidRun(cfg, run) && i < |run.steps|
    ensures Orphaned(run.states[i + 1]) <==> Orphaned(run.states[i]) || RaceStep(run.states[i], run.steps[i])
  {
    RunInv(cfg, run, i);
    RunStep(cfg, run, i);
    OrphanStep(cfg, run.states[i], run.steps[i], run.states[i + 1]);
  }

  /** The race is fatal: after it, done_mbox is never raised, however long the run goes on. */
  lemma {:induction false} RaceIsFatal(cfg: Config, run: Run, i: nat, n: nat)
    requires ValidRun(cfg, run) && i < n < |run.states| && RaceStep(run.states[i], run.steps[i])
    ensures !run.states[n].doneMbox
  {
    OrphanedIffRaced(cfg, run, n);
    RunInv(cfg, run, n);
    var s := run.states[n];
    var w :| 0 <= w < |s.tx| && OrphanedBy(s, w);
    if s.tx[w].state.StDispatched? {
      assert Abandoned(s);
      AbandonedNeverDone(cfg, s);
    }
  }

  ghost predicate RaceFree(run: Run)
    requires |run.steps| <= |run.states|
  {
    forall i :: 0 <= i < |run.steps| ==> !RaceStep(run.states[i], run.steps[i])
  }

  /** Full delivery, exactly: a run that came to rest delivered the whole input and raised
      done_mbox if and only if no checksum comparison failed, some worker could connect, no
      connection was lost in mid-leg, and the worker chosen for the end leg never polled
      between `done = 1` and its dispatch. */
  lemma {:induction false} DeliveredIff(cfg: Config, run: Run)
    requires ValidRun(cfg, run) && AtRest(cfg, run.states[|run.steps|])
    ensures
      var s := run.states[|run.steps|];
      s.doneMbox && s.output == Flatten(cfg.legs)
      <==> !s.crashed && SomeConnection(s) && LossFree(s) && RaceFree(run)
  {
    var s := run.states[|run.steps|];
    RunInv(cfg, run, |run.steps|);
    if s.doneMbox {
      DoneNeeds(cfg, s);
    }
    if !s.crashed {
      AbandonedIffRaced(cfg, run);
    }
    if !s.crashed && SomeConnection(s) && LossFree(s) {
      RestAt(cfg, s);
    }
  }

  /** What done_mbox takes for granted. */
  lemma {:induction false} DoneNeeds(cfg: Config, s: State)
    requires Inv(cfg, s) && s.doneMbox
    ensures !s.crashed && SomeConnection(s) && LossFree(s) && !Abandoned(s)
  {
    CompleteAt(cfg, s);
    if Abandoned(s) {
      AbandonedNeverDone(cfg, s);
    }
    var w := s.owner[0];
    assert ConnOk(cfg, s.done, s.tx[w], s.chan[w], s.rx[w]);
    assert !s.tx[w].pc.TxFaulted?;
    forall v | 0 <= v < cfg.workers
      ensures !s.rx[v].pc.RxSummed?
    {
      assert ConnOk(cfg, s.done, s.tx[v], s.chan[v], s.rx[v]);
    }
  }

  lemma {:induction false} AbandonedIffRaced(cfg: Config, run: Run)
    requires ValidRun(cfg, run)
    requires AtRest(cfg, run.states[|run.steps|]) && !run.states[|run.steps|].crashed
    ensures Abandoned(run.states[|run.steps|]) <==> !RaceFree(run)
  {
    var n := |run.steps|;
    var s := run.states[n];
    RunInv(cfg, run, n);
    OrphanedIffRaced(cfg, run, n);
    RestHasNoWindow(cfg, s);
    if w :| 0 <= w < |s.tx| && OrphanedBy(s, w) {
      assert s.tx[w].pc.TxExited? && s.tx[w].state.StDispatched?;
    }
    if w :| 0 <= w < |s.tx| && s.tx[w].pc.TxExited? && s.tx[w].state.StDispatched? {
      assert OrphanedBy(s, w);
    }
  }

  lemma {:induction false} RestHasNoWindow(cfg: Config, s: State)
    requires IngestOk(cfg, s) && AtRest(cfg, s) && !s.crashed
    ensures forall w :: 0 <= w < |s.tx| ==> !ShutdownWindow(s, w)
  {
    assert IngestEnabled(cfg, s, IngestShutPack) ==> Enabled(cfg, s, Ingest(IngestShutPack));
    assert IngestEnabled(cfg, s, IngestShutStart) ==> Enabled(cfg, s, Ingest(IngestShutStart));
  }

  // ---------------------------------------------------------------- how it ends

  /** Nothing is left of a session: ingest and the transmit workers are through, the
      connections are empty, and receive workers have left or wait for what never comes. */
  ghost predicate WoundUp(cfg: Config, s: State) {
    && Shape(cfg, s) && s.ingest.InFinished? && s.mutex.Nobody?
    && forall w :: 0 <= w < cfg.workers ==>
         && (s.tx[w].pc.TxExited? || s.tx[w].pc.TxFaulted?)
         && s.chan[w] == []
         && (s.rx[w].pc.RxOff? || s.rx[w].pc.RxHeader? || s.rx[w].pc.RxExited?)
  }

  /** A delivered run at rest is wound up, and the receive worker that carried the end leg
      has left its loop. */
  lemma {:induction false} DeliveredRest(cfg: Config, run: Run)
    requires ValidRun(cfg, run) && AtRest(cfg, run.states[|run.steps|]) && run.states[|run.steps|].doneMbox
    ensures
      var s := run.states[|run.steps|];
      && WoundUp(cfg, s) && s.nextLeg == |s.owner| == |cfg.legs| + 1
      && s.owner[|cfg.legs|] < |s.rx| && s.rx[s.owner[|cfg.legs|]].pc.RxExited?
  {
    var s := run.states[|run.steps|];
    RunInv(cfg, run, |run.steps|);
    DoneNeeds(cfg, s);
    EndWorkerExits(cfg, s);
    assert IngestEnabled(cfg, s, IngestExit) ==> Enabled(cfg, s, Ingest(IngestExit));
    forall w | 0 <= w < cfg.workers
      ensures s.tx[w].pc.TxExited? || s.tx[w].pc.TxFaulted?
      ensures s.chan[w] == []
      ensures s.rx[w].pc.RxOff? || s.rx[w].pc.RxHeader? || s.rx[w].pc.RxExited?
    {
      assert ConnOk(cfg, s.done, s.tx[w], s.chan[w], s.rx[w]);
      EmptyLine(cfg, s, w);
      RestingTx(cfg, s, w);
      RestingRx(cfg, s, w);
    }
  }

  lemma {:induction false} EndWorkerExits(cfg: Config, s: State)
    requires MutexOk(s) && DoneOk(cfg, s) && Placed(cfg, s) && AtRest(cfg, s) && s.doneMbox && !s.crashed
    requires |s.owner| <= |cfg.legs| + 1
    ensures s.mutex.Nobody? && s.nextLeg == |s.owner| == |cfg.legs| + 1
    ensures s.owner[|cfg.legs|] < |s.rx| && s.rx[s.owner[|cfg.legs|]].pc.RxExited?
  {
    if s.mutex.Held? {
      var step := MutexMoves(cfg, s);
    }
    var w := s.owner[|cfg.legs|];
    assert RxEnabled(cfg, s, RxBump(w)) ==> Enabled(cfg, s, Rx(RxBump(w)));
    RestingRx(cfg, s, w);
  }

  lemma {:induction false} RestingRx(cfg: Config, s: State, w: nat)
    requires AtRest(cfg, s) && !s.crashed && w < |s.rx|
    ensures !s.rx[w].pc.RxCasting? && !s.rx[w].pc.RxTop?
  {
    assert RxEnabled(cfg, s, RxCast(w)) ==> Enabled(cfg, s, Rx(RxCast(w)));
    assert RxEnabled(cfg, s, RxCheckDone(w)) ==> Enabled(cfg, s, Rx(RxCheckDone(w)));
  }

  lemma {:induction false} RestingTx(cfg: Config, s: State, w: nat)
    requires AtRest(cfg, s) && !s.crashed && s.done && Shape(cfg, s) && w < cfg.workers
    requires ConnOk(cfg, s.done, s.tx[w], s.chan[w], s.rx[w]) && ValidConfig(cfg) && !TxHolds(s.tx[w])
    ensures s.tx[w].pc.TxExited? || s.tx[w].pc.TxFaulted?
  {
    assert TxEnabled(cfg, s, TxConnect(w)) ==> Enabled(cfg, s, Tx(TxConnect(w)));
    assert TxEnabled(cfg, s, TxLook(w)) ==> Enabled(cfg, s, Tx(TxLook(w)));
    assert TxEnabled(cfg, s, TxFinish(w)) ==> Enabled(cfg, s, Tx(TxFinish(w)));
  }

  /** With nothing outstanding, a connection holds nothing anywhere. */
  lemma {:induction false} EmptyLine(cfg: Config, s: State, w: nat)
    requires Placed(cfg, s) && s.nextLeg == |s.owner| && w < cfg.workers
    ensures s.chan[w] == [] && !TxHolds(s.tx[w]) && !RxHolds(s.rx[w])
  {
    var line := AllLines(cfg, s)[w];
    assert LineOk(line, w, s.nextLeg, s.owner);
    Outstanding(line, w, s.nextLeg, s.owner);
    assert |line| == |RxIds(s.rx[w])| + |s.chan[w]| + |TxIds(s.tx[w])|;
  }
}
