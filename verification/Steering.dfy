/** Runs steered on purpose: the workers are drained while ingest is held where it is. With
    that, the exact sessions in which the checksum assertion can fire, and the exact moment
    from which a scan of `tx_poll` can be relied on. */
module Steering {
  import opened Bytes
  import opened Checksum
  import opened Wire
  import opened Protocol
  import opened Invariants
  import opened Preservation
  import opened Safety
  import opened Ownership
  import opened Progress
  import opened Delivery
  import opened Termination
  import opened Heads
  import opened Sums
  import opened Liveness

  // ---------------------------------------------------------------- draining

  /** The end leg has not been started yet. */
  ghost predicate EndAhead(cfg: Config, s: State) {
    |s.owner| <= |cfg.legs|
  }

  /** Until the end leg is started nothing has finished and nothing is abandoned. */
  lemma {:induction false} StillGoing(cfg: Config, s: State)
    requires Inv(cfg, s) && EndAhead(cfg, s)
    ensures !s.doneMbox && !Abandoned(s)
  {
    if w :| 0 <= w < |s.tx| && s.tx[w].pc.TxExited? && s.tx[w].state.StDispatched? {
      assert ConnOk(cfg, s.done, s.tx[w], s.chan[w], s.rx[w]);
      HeldOutstanding(cfg, s, w);
    }
  }

  ghost predicate AllQuiet(s: State) {
    forall w :: 0 <= w < |s.tx| ==> Quiet(s.tx[w])
  }

  /** While some worker is busy, a step other than ingest's gets work done. */
  lemma {:induction false} BusyMoves(cfg: Config, s: State) returns (step: Step)
    requires ValidConfig(cfg) && Inv(cfg, s) && !s.crashed && LossFree(s) && EndAhead(cfg, s) && !AllQuiet(s)
    ensures Enabled(cfg, s, step) && Productive(s, step) && !step.Ingest?
  {
    if s.nextLeg < |s.owner| {
      StillGoing(cfg, s);
      step := OutstandingMoves(cfg, s);
    } else {
      var w :| 0 <= w < |s.tx| && !Quiet(s.tx[w]);
      NothingHeld(cfg, s, w);
      assert ConnOk(cfg, s.done, s.tx[w], s.chan[w], s.rx[w]);
      step := Tx(if s.tx[w].pc.TxConnecting? then TxConnect(w) else TxFinish(w));
    }
  }

  /** The run goes on from where it was, without giving up or losing a connection. */
  ghost predicate GoesOn(cfg: Config, run: Run, longer: Run) {
    && ValidRun(cfg, run) && ValidRun(cfg, longer)
    && run.states <= longer.states && run.steps <= longer.steps
    && KeepsConnections(Last(run), Last(longer))
    && (SomeConnection(Last(run)) ==> SomeConnection(Last(longer)))
  }

  lemma {:induction false} Onward(cfg: Config, run: Run, step: Step) returns (longer: Run)
    requires ValidRun(cfg, run) && Enabled(cfg, Last(run), step) && Productive(Last(run), step)
    ensures GoesOn(cfg, run, longer) && BudgetLeft(cfg, longer) < BudgetLeft(cfg, run)
    ensures Moves(cfg, Last(run), step, Last(longer))
    ensures RaceFree(run) && !RaceStep(Last(run), step) ==> RaceFree(longer)
  {
    longer := Extend(cfg, run, step);
    ProductiveKeeps(cfg, Last(run), step, Last(longer));
    ProductiveSpends(cfg, run, longer, step);
  }

  lemma {:induction false} GoesOnTwice(cfg: Config, a: Run, b: Run, c: Run)
    requires GoesOn(cfg, a, b) && GoesOn(cfg, b, c)
    ensures GoesOn(cfg, a, c)
  {
    assert KeepsConnections(Last(a), Last(c));
  }

  /** With ingest held where it is, the workers can be driven until every one of them looks
      idle or faulted, unless the assertion fires on the way. */
  lemma {:induction false} Drain(cfg: Config, run: Run) returns (longer: Run)
    requires ValidRun(cfg, run) && LossFree(Last(run)) && EndAhead(cfg, Last(run))
    ensures GoesOn(cfg, run, longer) && (Last(longer).crashed || AllQuiet(Last(longer)))
    ensures Last(longer).ingest == Last(run).ingest && Last(longer).owner == Last(run).owner
    ensures RaceFree(run) && Last(run).ingest.InTop? ==> RaceFree(longer)
    decreases BudgetLeft(cfg, run)
  {
    if Last(run).crashed || AllQuiet(Last(run)) {
      longer := run;
    } else {
      RunInv(cfg, run, |run.steps|);
      var step := BusyMoves(cfg, Last(run));
      var next := Onward(cfg, run, step);
      IngestHeld(cfg, Last(run), step, Last(next));
      longer := Drain(cfg, next);
      GoesOnTwice(cfg, run, next, longer);
    }
  }

  lemma {:induction false} IngestHeld(cfg: Config, s: State, step: Step, s': State)
    requires Moves(cfg, s, step, s') && !step.Ingest?
    ensures s'.ingest == s.ingest && s'.owner == s.owner
    ensures s.ingest.InTop? ==> !RaceStep(s, step)
  {
  }

  // ---------------------------------------------------------------- which sessions can die

  /** Ingest gives the next leg to an idle worker. */
  lemma {:induction false} GiveTo(cfg: Config, run: Run, w: nat) returns (longer: Run)
    requires ValidRun(cfg, run) && RaceFree(run) && Last(run).ingest.InTop? && !Last(run).crashed
    requires |Last(run).owner| < |cfg.legs| && w < |Last(run).tx| && Last(run).tx[w].state.StIdle?
    ensures GoesOn(cfg, run, longer) && RaceFree(longer)
    ensures Last(longer).ingest.InTop? && Last(longer).owner == Last(run).owner + [w]
  {
    RunInv(cfg, run, |run.steps|);
    BufferSize(cfg, Last(run), w);
    var filled := FillFor(cfg, run, w);
    longer := StartFor(cfg, filled);
    GoesOnTwice(cfg, run, filled, longer);
  }

  lemma {:induction false} FillFor(cfg: Config, run: Run, w: nat) returns (longer: Run)
    requires ValidRun(cfg, run) && RaceFree(run) && IngestEnabled(cfg, Last(run), IngestPick(w)) && !Last(run).crashed
    requires |Last(run).owner| < |cfg.legs| && |Last(run).tx[w].buffer| == cfg.foot
    ensures GoesOn(cfg, run, longer) && RaceFree(longer) && !Last(longer).crashed
    ensures Last(longer).ingest == InFilled(w) && Last(longer).owner == Last(run).owner
    ensures |Last(longer).tx| == |Last(run).tx| && |Last(longer).tx[w].buffer| == cfg.foot
  {
    var picked := Onward(cfg, run, Ingest(IngestPick(w)));
    longer := Onward(cfg, picked, Ingest(IngestFill));
    GoesOnTwice(cfg, run, picked, longer);
  }

  lemma {:induction false} StartFor(cfg: Config, run: Run) returns (longer: Run)
    requires ValidRun(cfg, run) && RaceFree(run) && IngestEnabled(cfg, Last(run), IngestPack) && !Last(run).crashed
    ensures GoesOn(cfg, run, longer) && RaceFree(longer)
    ensures Last(longer).ingest.InTop? && Last(longer).owner == Last(run).owner + [Last(run).ingest.w]
  {
    var packed := Onward(cfg, run, Ingest(IngestPack));
    longer := Onward(cfg, packed, Ingest(IngestStart));
    GoesOnTwice(cfg, run, packed, longer);
  }

  lemma {:induction false} BufferSize(cfg: Config, s: State, w: nat)
    requires Conns(cfg, s) && w < cfg.workers
    ensures |s.tx[w].buffer| == cfg.foot
  {
    assert ConnOk(cfg, s.done, s.tx[w], s.chan[w], s.rx[w]);
  }

  ghost predicate NoFaults(s: State) {
    forall w :: 0 <= w < |s.tx| ==> !s.tx[w].pc.TxFaulted?
  }

  /** Any sharing out of the legs among the workers can happen, unless the assertion fires
      before. */
  lemma {:induction false} ShareOut(cfg: Config, owner: seq<nat>) returns (run: Run)
    requires ValidConfig(cfg) && Assigns(cfg, owner) && |owner| <= |cfg.legs|
    ensures ValidRun(cfg, run) && RaceFree(run) && LossFree(Last(run)) && NoFaults(Last(run))
    ensures Last(run).crashed || (Last(run).owner == owner && Last(run).ingest.InTop?)
  {
    if owner == [] {
      run := Run([Init(cfg)], []);
    } else {
      var n := |owner| - 1;
      var before := ShareOut(cfg, owner[..n]);
      if Last(before).crashed {
        run := before;
      } else {
        run := Drain(cfg, before);
        if !Last(run).crashed {
          QuietIsIdle(cfg, run, owner[n]);
          var drained := run;
          run := GiveTo(cfg, drained, owner[n]);
          assert owner == owner[..n] + [owner[n]];
        }
      }
    }
  }

  lemma {:induction false} QuietIsIdle(cfg: Config, run: Run, w: nat)
    requires ValidRun(cfg, run) && AllQuiet(Last(run)) && NoFaults(Last(run)) && w < cfg.workers
    ensures w < |Last(run).tx| && Last(run).tx[w].state.StIdle?
  {
    RunInv(cfg, run, |run.steps|);
    PhaseInRun(cfg, run, |run.steps|, w);
  }

  /** The owners of started legs never change. */
  lemma {:induction false} OwnersStay(cfg: Config, run: Run, longer: Run, i: nat)
    requires ValidRun(cfg, run) && ValidRun(cfg, longer) && run.states <= longer.states
    requires |run.states| - 1 <= i < |longer.states|
    ensures Last(run).owner <= longer.states[i].owner
    decreases i
  {
    if i > |run.states| - 1 {
      OwnersStay(cfg, run, longer, i - 1);
      RunStep(cfg, longer, i - 1);
    }
  }

  lemma {:induction false} MismatchStays(cfg: Config, owner: seq<nat>, more: seq<nat>, k: nat)
    requires |cfg.phrase| == 4 && owner <= more && k < |owner|
    ensures Mismatch(cfg, more, k) <==> Mismatch(cfg, owner, k)
  {
    PassesStable(cfg.legs, owner, cfg.legs, more, Zeros(4), cfg.phrase, k);
  }

  /** If some sharing out of the legs has a leg that fails, some run dies. */
  lemma {:induction false} CrashHappens(cfg: Config, owner: seq<nat>, k: nat) returns (run: Run)
    requires ValidConfig(cfg) && Assigns(cfg, owner) && Mismatch(cfg, owner, k)
    ensures ValidRun(cfg, run) && Settles(cfg, run) && Last(run).crashed
  {
    var part := ShareOut(cfg, owner[..k + 1]);
    Connected(cfg, part);
    run := CanAlwaysSettle(cfg, part);
    if Last(part).crashed {
      DeadEnd(cfg, part, run);
    } else {
      MismatchStays(cfg, owner[..k + 1], owner, k);
      Doomed(cfg, part, run, k);
    }
  }

  /** A failing leg once started kills every continuation that settles. */
  lemma {:induction false} Doomed(cfg: Config, run: Run, longer: Run, k: nat)
    requires ValidRun(cfg, run) && ValidRun(cfg, longer) && run.states <= longer.states
    requires Mismatch(cfg, Last(run).owner, k) && Settles(cfg, longer)
    ensures Last(longer).crashed
  {
    OwnersStay(cfg, run, longer, |longer.steps|);
    MismatchStays(cfg, Last(run).owner, Last(longer).owner, k);
    CrashIffMismatch(cfg, longer);
  }

  lemma {:induction false} Connected(cfg: Config, run: Run)
    requires ValidRun(cfg, run) && NoFaults(Last(run)) && cfg.workers >= 1
    ensures SomeConnection(Last(run))
  {
    RunInv(cfg, run, |run.steps|);
    assert !Last(run).tx[0].pc.TxFaulted?;
  }

  /** Nothing follows a crash. */
  lemma {:induction false} DeadEnd(cfg: Config, run: Run, longer: Run)
    requires ValidRun(cfg, run) && ValidRun(cfg, longer) && run.states <= longer.states && Last(run).crashed
    ensures longer.states == run.states
  {
    var i := |run.states| - 1;
    if i < |longer.steps| {
      RunStep(cfg, longer, i);
    }
  }

  /** The assertion fires in some run of a session exactly when some sharing out of its legs
      among the workers has a leg that fails. */
  lemma {:induction false} CrashProofIff(cfg: Config)
    requires ValidConfig(cfg)
    ensures CrashProof(cfg) <==> forall run :: ValidRun(cfg, run) ==> !Last(run).crashed
  {
    if CrashProof(cfg) {
      forall run | ValidRun(cfg, run)
        ensures !Last(run).crashed
      {
        NeverCrashes(cfg, run, |run.steps|);
      }
    } else {
      var owner, k: nat :| Assigns(cfg, owner) && Mismatch(cfg, owner, k);
      var run := CrashHappens(cfg, owner, k);
    }
  }

  // ---------------------------------------------------------------- polling

  /** A scan of `tx_poll` begun at state `from`: each worker in turn is seen idle or faulted. */
  ghost predicate Scan(cfg: Config, run: Run, from: nat, seen: seq<nat>) {
    && |seen| == cfg.workers
    && (forall w :: 0 <= w < |seen| ==>
          && from <= seen[w] < |run.states|
          && w < |run.states[seen[w]].tx| && Quiet(run.states[seen[w]].tx[w]))
    && (forall v, w :: 0 <= v < w < |seen| ==> seen[v] <= seen[w])
  }

  /** Some leg has not been pushed. */
  ghost predicate Unsent(s: State) {
    exists w :: 0 <= w < |s.tx| && TxHolds(s.tx[w])
  }

  /** A `tx_poll` that begins where the run ends returns 1 at the end of a longer run. */
  ghost predicate PollReturns(cfg: Config, run: Run, longer: Run, seen: seq<nat>)
    requires run.states != []
  {
    && ValidRun(cfg, longer) && run.states <= longer.states
    && Scan(cfg, longer, |run.states| - 1, seen) && Last(longer).done
  }

  /** Whenever `tx_poll` returns 1, ingest has read and started every data leg. */
  lemma {:induction false} PollMeansAllRead(cfg: Config, run: Run, longer: Run, seen: seq<nat>)
    requires run.states != [] && PollReturns(cfg, run, longer, seen)
    ensures |Last(longer).owner| >= |cfg.legs|
  {
    RunInv(cfg, longer, |longer.steps|);
  }

  /** Every `tx_poll` that begins where the run ends and returns 1 is right. */
  ghost predicate PollSound(cfg: Config, run: Run)
    requires run.states != []
  {
    forall longer, seen :: PollReturns(cfg, run, longer, seen) ==> !Unsent(Last(longer))
  }

  /** Ingest is about to start leg n. */
  ghost predicate AboutToStart(s: State, n: nat) {
    (s.ingest.InPacked? || s.ingest.InShutPacked?) && |s.owner| == n
  }

  /** Ingest can be brought right before the start of any leg still to come. */
  lemma {:induction false} ReachStart(cfg: Config, run: Run, n: nat) returns (longer: Run)
    requires ValidRun(cfg, run) && CrashProof(cfg) && |Last(run).owner| <= n <= |cfg.legs|
    requires LossFree(Last(run)) && SomeConnection(Last(run))
    ensures GoesOn(cfg, run, longer) && AboutToStart(Last(longer), n)
    decreases BudgetLeft(cfg, run)
  {
    if AboutToStart(Last(run), n) {
      longer := run;
    } else {
      var s := Last(run);
      RunInv(cfg, run, |run.steps|);
      NeverCrashes(cfg, run, |run.steps|);
      StillGoing(cfg, s);
      var step := CanMove(cfg, s);
      var next := Onward(cfg, run, step);
      StartsOneByOne(cfg, s, step, Last(next));
      longer := ReachStart(cfg, next, n);
      GoesOnTwice(cfg, run, next, longer);
    }
  }

  lemma {:induction false} StartsOneByOne(cfg: Config, s: State, step: Step, s': State)
    requires Moves(cfg, s, step, s')
    ensures |s.owner| <= |s'.owner| <= |s.owner| + 1
    ensures |s'.owner| == |s.owner| || AboutToStart(s, |s.owner|)
  {
  }

  /** Before the last `start_worker`, whatever has happened so far, a scan can still see
      every worker idle or faulted and `tx_poll` return 1 although a leg is not pushed. */
  lemma {:induction false} PollMisled(cfg: Config, run: Run) returns (longer: Run, seen: seq<nat>)
    requires ValidRun(cfg, run) && CrashProof(cfg)
    requires LossFree(Last(run)) && SomeConnection(Last(run)) && EndAhead(cfg, Last(run))
    ensures PollReturns(cfg, run, longer, seen) && Unsent(Last(longer))
  {
    var quiet := QuietBefore(cfg, run, |cfg.legs|);
    longer := StartEnd(cfg, quiet);
    seen := LateScan(cfg, run, quiet, longer);
  }

  /** All workers look idle or faulted while ingest is about to start leg n. */
  lemma {:induction false} QuietBefore(cfg: Config, run: Run, n: nat) returns (quiet: Run)
    requires ValidRun(cfg, run) && CrashProof(cfg) && |Last(run).owner| <= n <= |cfg.legs|
    requires LossFree(Last(run)) && SomeConnection(Last(run))
    ensures GoesOn(cfg, run, quiet) && AboutToStart(Last(quiet), n)
    ensures AllQuiet(Last(quiet)) && !Last(quiet).crashed && IngestOk(cfg, Last(quiet))
  {
    var ready := ReachStart(cfg, run, n);
    quiet := Drain(cfg, ready);
    GoesOnTwice(cfg, run, ready, quiet);
    NeverCrashes(cfg, quiet, |quiet.steps|);
    RunInv(cfg, quiet, |quiet.steps|);
  }

  /** The scan looks at all workers in that moment. */
  lemma {:induction false} LateScan(cfg: Config, run: Run, quiet: Run, longer: Run) returns (seen: seq<nat>)
    requires GoesOn(cfg, run, quiet) && AllQuiet(Last(quiet)) && ValidRun(cfg, longer) && quiet.states <= longer.states
    requires Last(longer).done
    ensures PollReturns(cfg, run, longer, seen)
  {
    RunInv(cfg, quiet, |quiet.steps|);
    seen := seq(cfg.workers, _ => |quiet.states| - 1);
    assert longer.states[|quiet.states| - 1] == Last(quiet);
    assert longer.states[..|run.states|] == run.states;
  }

  lemma {:induction false} StartEnd(cfg: Config, run: Run) returns (longer: Run)
    requires ValidRun(cfg, run) && IngestOk(cfg, Last(run)) && AboutToStart(Last(run), |cfg.legs|) && !Last(run).crashed
    ensures ValidRun(cfg, longer) && run.states <= longer.states
    ensures Last(longer).done && Unsent(Last(longer))
  {
    longer := Extend(cfg, run, Ingest(IngestShutStart));
    assert TxHolds(Last(longer).tx[Last(run).ingest.w]);
  }

  /** From the last `start_worker` on, and at no moment before it, `tx_poll` can be relied on. */
  lemma {:induction false} PollSoundIff(cfg: Config, run: Run)
    requires ValidRun(cfg, run) && CrashProof(cfg) && LossFree(Last(run)) && SomeConnection(Last(run))
    ensures PollSound(cfg, run) <==> AllStarted(cfg, Last(run))
  {
    if AllStarted(cfg, Last(run)) {
      forall longer, seen | PollReturns(cfg, run, longer, seen)
        ensures !Unsent(Last(longer))
      {
        PollIsRight(cfg, run, longer, seen);
      }
    } else {
      EndAheadOrStarted(cfg, run);
      var longer, seen := PollMisled(cfg, run);
    }
  }

  lemma {:induction false} PollIsRight(cfg: Config, run: Run, longer: Run, seen: seq<nat>)
    requires ValidRun(cfg, run) && AllStarted(cfg, Last(run)) && PollReturns(cfg, run, longer, seen)
    ensures !Unsent(Last(longer))
  {
    PollImpliesPushed(cfg, longer, |run.states| - 1, seen, 0);
  }

  lemma {:induction false} EndAheadOrStarted(cfg: Config, run: Run)
    requires ValidRun(cfg, run)
    ensures EndAhead(cfg, Last(run)) || AllStarted(cfg, Last(run))
  {
    RunInv(cfg, run, |run.steps|);
  }

  // ---------------------------------------------------------------- polling for data

  /** Some data leg has not been pushed. */
  ghost predicate UnsentData(cfg: Config, s: State) {
    exists w :: 0 <= w < |s.tx| && !DataFree(cfg, s.tx[w])
  }

  ghost predicate DataFree(cfg: Config, t: TxWorker) {
    TxHolds(t) ==> t.pkt.legId >= |cfg.legs|
  }

  /** Every `tx_poll` that begins where the run ends and returns 1 leaves no data behind. */
  ghost predicate DataPollSound(cfg: Config, run: Run)
    requires run.states != []
  {
    forall longer, seen :: PollReturns(cfg, run, longer, seen) ==> !UnsentData(cfg, Last(longer))
  }

  /** Two workers have not given up connecting. */
  ghost predicate TwoConnections(s: State) {
    exists v, w :: 0 <= v < w < |s.tx| && !s.tx[v].pc.TxFaulted? && !s.tx[w].pc.TxFaulted?
  }

  lemma {:induction false} DataFreeStays(cfg: Config, s: State, step: Step, s': State, w: nat)
    requires Moves(cfg, s, step, s') && IngestOk(cfg, s) && |s.owner| >= |cfg.legs|
    requires w < |s.tx| && TxPhase(cfg, s.tx[w]) && DataFree(cfg, s.tx[w])
    ensures |s'.owner| >= |cfg.legs| && w < |s'.tx| && DataFree(cfg, s'.tx[w])
  {
    match step
    case Ingest(i) => DataFreeIngest(cfg, s, i, w);
    case Tx(t) => DataFreeTx(cfg, s, t, w);
    case Rx(r) => assert s'.tx == s.tx && s'.owner == s.owner;
  }

  lemma {:induction false} DataFreeIngest(cfg: Config, s: State, step: IngestStep, w: nat)
    requires IngestEnabled(cfg, s, step) && IngestOk(cfg, s) && |s.owner| >= |cfg.legs|
    requires w < |s.tx| && DataFree(cfg, s.tx[w])
    ensures
      var s' := IngestApply(cfg, s, step);
      |s'.owner| >= |cfg.legs| && w < |s'.tx| && DataFree(cfg, s'.tx[w])
  {
  }

  lemma {:induction false} DataFreeTx(cfg: Config, s: State, step: TxStep, w: nat)
    requires ValidConfig(cfg) && TxEnabled(cfg, s, step) && w < |s.tx|
    requires TxPhase(cfg, s.tx[w]) && DataFree(cfg, s.tx[w])
    ensures
      var s' := TxApply(cfg, s, step);
      s'.owner == s.owner && w < |s'.tx| && DataFree(cfg, s'.tx[w])
  {
  }

  lemma {:induction false} DataFreeToTheEnd(cfg: Config, run: Run, seen: nat, upto: nat, w: nat)
    requires ValidRun(cfg, run) && seen <= upto < |run.states| && |run.states[seen].owner| >= |cfg.legs|
    requires w < |run.states[seen].tx| && Quiet(run.states[seen].tx[w])
    ensures w < |run.states[upto].tx| && DataFree(cfg, run.states[upto].tx[w])
    ensures |run.states[upto].owner| >= |cfg.legs|
    decreases upto
  {
    if upto == seen {
      PhaseInRun(cfg, run, seen, w);
    } else {
      DataFreeToTheEnd(cfg, run, seen, upto - 1, w);
      DataFreeInRun(cfg, run, upto - 1, w);
    }
  }

  lemma {:induction false} DataFreeInRun(cfg: Config, run: Run, i: nat, w: nat)
    requires ValidRun(cfg, run) && i < |run.steps| && |run.states[i].owner| >= |cfg.legs|
    requires w < |run.states[i].tx| && DataFree(cfg, run.states[i].tx[w])
    ensures w < |run.states[i + 1].tx| && DataFree(cfg, run.states[i + 1].tx[w])
    ensures |run.states[i + 1].owner| >= |cfg.legs|
  {
    PhaseInRun(cfg, run, i, w);
    RunInv(cfg, run, i);
    RunStep(cfg, run, i);
    DataFreeStays(cfg, run.states[i], run.steps[i], run.states[i + 1], w);
  }

  lemma {:induction false} DataPollIsRight(cfg: Config, run: Run, longer: Run, seen: seq<nat>)
    requires ValidRun(cfg, run) && |Last(run).owner| >= |cfg.legs| && PollReturns(cfg, run, longer, seen)
    ensures !UnsentData(cfg, Last(longer))
  {
    RunInv(cfg, longer, |longer.steps|);
    forall w | 0 <= w < cfg.workers
      ensures DataFree(cfg, Last(longer).tx[w])
    {
      OwnersStay(cfg, run, longer, seen[w]);
      DataFreeToTheEnd(cfg, longer, seen[w], |longer.steps|, w);
    }
  }

  /** The last data leg is started right after the scan, and another worker is chosen for
      the end leg, which raises `done`. */
  lemma {:induction false} StartLastData(cfg: Config, run: Run, b: nat) returns (longer: Run)
    requires ValidRun(cfg, run) && IngestOk(cfg, Last(run)) && !Last(run).crashed
    requires |cfg.legs| > 0 && AboutToStart(Last(run), |cfg.legs| - 1)
    requires b < |Last(run).tx| && b != Last(run).ingest.w && Last(run).tx[b].state.StIdle?
    ensures ValidRun(cfg, longer) && run.states <= longer.states
    ensures Last(longer).done && UnsentData(cfg, Last(longer))
  {
    var w := Last(run).ingest.w;
    var started := Extend(cfg, run, Ingest(IngestStart));
    longer := ShutWith(cfg, started, b);
    assert !DataFree(cfg, Last(longer).tx[w]);
  }

  lemma {:induction false} ShutWith(cfg: Config, run: Run, b: nat) returns (longer: Run)
    requires ValidRun(cfg, run) && !Last(run).crashed && !Last(run).done && Last(run).ingest.InTop?
    requires |Last(run).owner| == |cfg.legs| && b < |Last(run).tx| && Last(run).tx[b].state.StIdle?
    ensures ValidRun(cfg, longer) && run.states <= longer.states && Last(longer).done
    ensures |Last(longer).tx| == |Last(run).tx|
    ensures forall w :: 0 <= w < |Last(run).tx| && w != b ==> Last(longer).tx[w] == Last(run).tx[w]
  {
    longer := Extend(cfg, run, Ingest(IngestPick(b)));
    longer := Extend(cfg, longer, Ingest(IngestShut([])));
  }

  /** With two connections and a data leg still to be started, a scan can even miss data. */
  lemma {:induction false} PollMissesData(cfg: Config, run: Run) returns (longer: Run, seen: seq<nat>)
    requires ValidRun(cfg, run) && CrashProof(cfg) && |Last(run).owner| < |cfg.legs|
    requires LossFree(Last(run)) && TwoConnections(Last(run))
    ensures PollReturns(cfg, run, longer, seen) && UnsentData(cfg, Last(longer))
  {
    var v, w :| 0 <= v < w < |Last(run).tx| && !Last(run).tx[v].pc.TxFaulted? && !Last(run).tx[w].pc.TxFaulted?;
    assert SomeConnection(Last(run));
    var quiet := QuietBefore(cfg, run, |cfg.legs| - 1);
    var b := if Last(quiet).ingest.w == v then w else v;
    PhaseInRun(cfg, quiet, |quiet.steps|, b);
    longer := StartLastData(cfg, quiet, b);
    seen := LateScan(cfg, run, quiet, longer);
  }

  /** With two connections, what `tx_poll` says about data can be relied on from the start of
      the last data leg on, and at no moment before it. */
  lemma {:induction false} DataPollSoundIff(cfg: Config, run: Run)
    requires ValidRun(cfg, run) && CrashProof(cfg) && LossFree(Last(run)) && TwoConnections(Last(run))
    ensures DataPollSound(cfg, run) <==> |Last(run).owner| >= |cfg.legs|
  {
    if |Last(run).owner| >= |cfg.legs| {
      forall longer, seen | PollReturns(cfg, run, longer, seen)
        ensures !UnsentData(cfg, Last(longer))
      {
        DataPollIsRight(cfg, run, longer, seen);
      }
    } else {
      var longer, seen := PollMissesData(cfg, run);
    }
  }
}
