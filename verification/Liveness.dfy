/** Delivery stays within reach, and the shutdown race is reachable too. */
module Liveness {
  import opened Bytes
  import opened Checksum
  import opened Wire
  import opened Protocol
  import opened Invariants
  import opened Preservation
  import opened Safety
  import opened Progress
  import opened Delivery
  import opened Termination
  import opened Sums

  ghost function Last(run: Run): State
    requires run.states != []
  {
    run.states[|run.states| - 1]
  }

  /** The run one step longer. */
  lemma {:induction false} Extend(cfg: Config, run: Run, step: Step) returns (longer: Run)
    requires ValidRun(cfg, run) && Enabled(cfg, Last(run), step)
    ensures ValidRun(cfg, longer) && run.steps <= longer.steps && run.states <= longer.states
    ensures longer.steps == run.steps + [step]
    ensures Moves(cfg, Last(run), step, Last(longer))
    ensures RaceFree(run) && !RaceStep(Last(run), step) ==> RaceFree(longer)
  {
    longer := Run(run.states + [Apply(cfg, Last(run), step)], run.steps + [step]);
    forall i | 0 <= i < |longer.steps|
      ensures Moves(cfg, longer.states[i], longer.steps[i], longer.states[i + 1])
      ensures RaceStep(longer.states[i], longer.steps[i]) ==>
                if i < |run.steps| then RaceStep(run.states[i], run.steps[i]) else RaceStep(Last(run), step)
    {
      if i < |run.steps| {
        RunStep(cfg, run, i);
      }
    }
  }

  /** No connection was given up or lost between s and s'. */
  ghost predicate KeepsConnections(s: State, s': State) {
    && |s'.tx| == |s.tx| && (LossFree(s) ==> LossFree(s'))
    && forall w :: 0 <= w < |s.tx| && !s.tx[w].pc.TxFaulted? ==> !s'.tx[w].pc.TxFaulted?
  }

  /** Productive steps do not lose connections. */
  lemma {:induction false} ProductiveKeeps(cfg: Config, s: State, step: Step, s': State)
    requires Moves(cfg, s, step, s') && Productive(s, step)
    ensures KeepsConnections(s, s')
    ensures SomeConnection(s) ==> SomeConnection(s')
  {
    match step
    case Ingest(i) => IngestKeeps(cfg, s, i);
    case Tx(t) => TxKeeps(cfg, s, t);
    case Rx(r) => RxKeeps(cfg, s, r);
    if SomeConnection(s) {
      var w :| 0 <= w < |s.tx| && !s.tx[w].pc.TxFaulted?;
      assert !s'.tx[w].pc.TxFaulted?;
    }
  }

  lemma {:induction false} IngestKeeps(cfg: Config, s: State, step: IngestStep)
    requires IngestEnabled(cfg, s, step)
    ensures KeepsConnections(s, IngestApply(cfg, s, step))
  {
  }

  lemma {:induction false} TxKeeps(cfg: Config, s: State, step: TxStep)
    requires ValidConfig(cfg) && TxEnabled(cfg, s, step) && !step.TxFault?
    ensures KeepsConnections(s, TxApply(cfg, s, step))
  {
  }

  lemma {:induction false} RxKeeps(cfg: Config, s: State, step: RxStep)
    requires RxEnabled(cfg, s, step) && !step.RxDrop?
    ensures KeepsConnections(s, RxApply(cfg, s, step))
  {
  }

  /** The environment is held to nothing: waits end without a broadcast, connections are given
      up or lost in mid-leg, pushes are delayed, and reads and writes are cut at will. */
  lemma {:induction false} EnvironmentIsFree(cfg: Config, s: State, w: nat, n: nat)
    requires Shape(cfg, s) && Conns(cfg, s) && !s.crashed && w < cfg.workers
    ensures s.rx[w].pc.RxAsleep? ==> Enabled(cfg, s, Rx(RxSpurious(w)))
    ensures s.rx[w].pc.RxReading? ==> Enabled(cfg, s, Rx(RxDrop(w)))
    ensures s.rx[w].pc.RxReading? && 1 <= n <= MAXBSIZE && n <= |s.rx[w].unread| ==> Enabled(cfg, s, Rx(RxRead(w, n)))
    ensures s.rx[w].pc.RxWriting? && 1 <= n <= s.rx[w].pkt.size - s.rx[w].wrote ==> Enabled(cfg, s, Rx(RxAppend(w, n)))
    ensures s.tx[w].pc.TxConnecting? ==> Enabled(cfg, s, Tx(TxFault(w)))
    ensures s.tx[w].pc.TxAmble? ==> Enabled(cfg, s, Tx(TxDelay(w)))
    ensures s.tx[w].pc.TxPushing? && |s.chan[w]| < cfg.capacity ==> Enabled(cfg, s, Tx(TxWrite(w)))
  {
    assert ConnOk(cfg, s.done, s.tx[w], s.chan[w], s.rx[w]);
  }

  /** If anything productive can be done, something productive can be done that is not the
      shutdown race: inside the window, ingest goes first. */
  lemma {:induction false} SafeStep(cfg: Config, s: State) returns (step: Step)
    requires IngestOk(cfg, s) && !AtRest(cfg, s)
    ensures Enabled(cfg, s, step) && Productive(s, step) && !RaceStep(s, step)
  {
    step :| Enabled(cfg, s, step) && Productive(s, step);
    if s.ingest.InShutting? {
      step := Ingest(IngestShutPack);
    } else if s.ingest.InShutPacked? {
      step := Ingest(IngestShutStart);
    }
  }

  /** Every run without loss and without the race, over any interleaving so far, can be
      continued until nothing is left to do, still without loss and without the race. */
  lemma {:induction false} CanAlwaysSettle(cfg: Config, run: Run) returns (full: Run)
    requires ValidRun(cfg, run) && RaceFree(run)
    requires LossFree(Last(run)) && SomeConnection(Last(run))
    ensures ValidRun(cfg, full) && run.steps <= full.steps && run.states <= full.states
    ensures Settles(cfg, full)
    decreases BudgetLeft(cfg, run)
  {
    RunInv(cfg, run, |run.steps|);
    if AtRest(cfg, Last(run)) {
      full := run;
    } else {
      var step := SafeStep(cfg, Last(run));
      var longer := Extend(cfg, run, step);
      ProductiveKeeps(cfg, Last(run), step, Last(longer));
      ProductiveSpends(cfg, run, longer, step);
      full := CanAlwaysSettle(cfg, longer);
    }
  }

  /** Delivery stays within reach: in a crash-proof session, every run without loss and
      without the race can be continued until the whole input has been delivered. */
  lemma {:induction false} CanAlwaysFinish(cfg: Config, run: Run) returns (full: Run)
    requires ValidRun(cfg, run) && RaceFree(run) && CrashProof(cfg)
    requires LossFree(Last(run)) && SomeConnection(Last(run))
    ensures ValidRun(cfg, full) && run.steps <= full.steps && run.states <= full.states
    ensures Last(full).doneMbox && Last(full).output == Flatten(cfg.legs)
  {
    full := CanAlwaysSettle(cfg, run);
    NeverCrashes(cfg, full, |full.steps|);
    DeliveredIff(cfg, full);
  }

  /** A session that starts with a leg of fewer than four bytes and leaves a non-zero byte of
      the check phrase exposed does die on the assertion. */
  lemma {:induction false} ShortInputCrashes(cfg: Config, i: nat) returns (run: Run)
    requires ValidConfig(cfg) && cfg.workers >= 1 && cfg.checksums
    requires cfg.legs != [] && |cfg.legs[0]| <= i < 4 && cfg.phrase[i] != 0
    ensures ValidRun(cfg, run) && Settles(cfg, run)
    ensures Last(run).crashed && Last(run).output <= cfg.legs[0]
  {
    var start := Run([Init(cfg)], []);
    assert !Last(start).tx[0].pc.TxFaulted?;
    run := CanAlwaysSettle(cfg, start);
    ShortInputDies(cfg, run, i);
    var m := OutputShape(cfg, run, |run.steps|);
    assert Delivered(cfg, 0) == [];
  }

  /** The three bytes "hi\n" under the default phrase "yoes", for any number of workers. */
  lemma {:induction false} HiDies(workers: nat, capacity: nat) returns (cfg: Config, run: Run)
    requires workers >= 1 && capacity >= 1
    ensures cfg == Config(workers, capacity, KFOOTSIZE, [[104, 105, 10]], true, [121, 111, 101, 115])
    ensures ValidRun(cfg, run) && Settles(cfg, run) && Last(run).crashed && !Last(run).doneMbox
  {
    cfg := Config(workers, capacity, KFOOTSIZE, [[104, 105, 10]], true, [121, 111, 101, 115]);
    run := ShortInputCrashes(cfg, 3);
    CrashIffMismatch(cfg, run);
  }

  ghost function BudgetLeft(cfg: Config, run: Run): nat
    requires ValidRun(cfg, run)
  {
    RunInv(cfg, run, |run.steps|);
    IngestCostNonNegative(cfg, Last(run));
    Budget(cfg, Last(run))
  }

  lemma {:induction false} ProductiveSpends(cfg: Config, run: Run, longer: Run, step: Step)
    requires ValidRun(cfg, run) && ValidRun(cfg, longer)
    requires Moves(cfg, Last(run), step, Last(longer)) && Productive(Last(run), step)
    ensures BudgetLeft(cfg, longer) < BudgetLeft(cfg, run)
  {
    RunInv(cfg, run, |run.steps|);
    StepSpends(cfg, Last(run), step, Last(longer));
  }

  /** The shutdown race does happen: one worker, empty input, four steps. */
  lemma {:induction false} RaceHappens() returns (cfg: Config, run: Run)
    ensures ValidRun(cfg, run) && |run.steps| == 4 && RaceStep(run.states[3], run.steps[3])
    ensures LossFree(Last(run)) && SomeConnection(Last(run))
  {
    cfg := Config(1, 1, 8, [], false, [121, 111, 101, 115]);
    var before := OpenWindow(cfg);
    run := Extend(cfg, before, Tx(TxLook(0)));
    assert run.states[3] == Last(before) && run.steps[3] == Tx(TxLook(0));
    assert !Last(run).tx[0].pc.TxFaulted?;
  }

  /** Ingest of an empty input has raised done and not yet dispatched the end leg. */
  lemma {:induction false} OpenWindow(cfg: Config) returns (run: Run)
    requires ValidConfig(cfg) && cfg.workers >= 1 && cfg.legs == []
    ensures ValidRun(cfg, run) && |run.steps| == 3 && Last(run).ingest == InShutting(0) && !Last(run).crashed
    ensures |Last(run).tx| == cfg.workers && Last(run).tx[0].pc.TxTop? && Last(run).tx[0].state.StIdle?
    ensures LossFree(Last(run))
  {
    run := Run([Init(cfg)], []);
    run := Extend(cfg, run, Tx(TxConnect(0)));
    assert Last(run).tx[0].state.StIdle? && LossFree(Last(run));
    run := Extend(cfg, run, Ingest(IngestPick(0)));
    assert Last(run).ingest == InPicked(0);
    run := Extend(cfg, run, Ingest(IngestShut([])));
  }
}
