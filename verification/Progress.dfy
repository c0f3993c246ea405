/** Deadlock freedom with bounded connections, and what a run that has come to rest
    has delivered. */
module Progress {
  import opened Bytes
  import opened Wire
  import opened Protocol
  import opened Lines
  import opened Invariants
  import opened Preservation
  import opened Safety
  import opened Ownership

  /** Steps that get work done. The others are an idle worker polling, a wakeup without a
      broadcast, and failures of the environment. */
  ghost predicate Productive(s: State, step: Step) {
    match step
    case Ingest(_) => true
    case Tx(t) => !t.TxFault? && !(t.TxLook? && t.w < |s.tx| && s.tx[t.w].state.StIdle? && !s.done)
    case Rx(r) => !r.RxSpurious? && !r.RxDrop?
  }

  /** The end leg was handed to a worker whose thread had already left its loop. */
  ghost predicate Abandoned(s: State) {
    exists w :: 0 <= w < |s.tx| && s.tx[w].pc.TxExited? && s.tx[w].state.StDispatched?
  }

  ghost predicate LossFree(s: State) {
    forall w :: 0 <= w < |s.rx| ==> !s.rx[w].pc.RxDropped?
  }

  /** At least one worker has not given up connecting. */
  ghost predicate SomeConnection(s: State) {
    exists w :: 0 <= w < |s.tx| && !s.tx[w].pc.TxFaulted?
  }

  /** Whoever holds the mutex can let go of it. */
  lemma {:induction false} MutexMoves(cfg: Config, s: State) returns (step: Step)
    requires MutexOk(s) && s.mutex.Held? && !s.crashed
    ensures Enabled(cfg, s, step) && Productive(s, step)
    ensures !step.Ingest?
  {
    var w := s.mutex.w;
    step := Rx(if s.rx[w].pc.RxHolding? then RxCompare(w) else RxWait(w));
  }

  /** A receive worker with the next leg can move, or someone it waits for can. */
  lemma {:induction false} NextHolderMoves(cfg: Config, s: State, w: nat) returns (step: Step)
    requires MutexOk(s) && WakeOk(s) && !s.crashed && w < |s.rx|
    requires ValidConfig(cfg) && RxOk(cfg, s.rx[w])
    requires RxHolds(s.rx[w]) && !s.rx[w].pc.RxDropped? && s.rx[w].pkt.legId == s.nextLeg
    ensures Enabled(cfg, s, step) && Productive(s, step)
    ensures !step.Ingest?
  {
    var r := s.rx[w];
    if r.pc.RxAsleep? {
      var v :| 0 <= v < |s.rx| && s.rx[v].pc.RxCasting?;
      step := Rx(RxCast(v));
    } else if r.pc.RxReading? || r.pc.RxHolding? || r.pc.RxWriting? || r.pc.RxSummed? {
      step := Rx(if r.pc.RxReading? then RxRead(w, 1)
                 else if r.pc.RxHolding? then RxCompare(w)
                 else if r.pc.RxSummed? then RxSave(w)
                 else if r.wrote < r.pkt.size then RxAppend(w, 1)
                 else RxWriteDone(w));
    } else if r.pc.RxWritten? && r.pkt.opcode.FeedMore? {
      step := Rx(RxSum(w));
    } else if s.mutex.Held? {
      step := MutexMoves(cfg, s);
    } else {
      step := LockerMoves(cfg, s, w);
    }
  }

  /** With the mutex free, a worker that wants it gets it. */
  lemma {:induction false} LockerMoves(cfg: Config, s: State, w: nat) returns (step: Step)
    requires s.mutex.Nobody? && !s.crashed && w < |s.rx|
    requires
      var r := s.rx[w];
      || r.pc.RxLocking? || r.pc.RxWoken? || r.pc.RxBumping?
      || (r.pc.RxWritten? && r.pkt.opcode.EndOfMillipede?)
    ensures Enabled(cfg, s, step) && Productive(s, step)
    ensures !step.Ingest?
  {
    var pc := s.rx[w].pc;
    step := Rx(if pc.RxWritten? then RxMark(w) else if pc.RxBumping? then RxBump(w) else RxLock(w));
  }

  /** A connection whose next leg is still in flight can move. */
  lemma {:induction false} ChannelMoves(cfg: Config, s: State, w: nat) returns (step: Step)
    requires Shape(cfg, s) && w < cfg.workers && !s.crashed
    requires s.chan[w] != [] && !RxHolds(s.rx[w]) && !s.rx[w].pc.RxOff? && !s.rx[w].pc.RxExited?
    ensures Enabled(cfg, s, step) && Productive(s, step)
    ensures !step.Ingest?
  {
    var r := s.rx[w];
    step := Rx(if r.pc.RxCasting? then RxCast(w) else if r.pc.RxTop? then RxCheckDone(w) else RxCatch(w));
  }

  /** A transmit worker with a leg and room on its connection can move. */
  lemma {:induction false} TransmitMoves(cfg: Config, s: State, w: nat) returns (step: Step)
    requires ValidConfig(cfg) && Shape(cfg, s) && w < cfg.workers && !s.crashed
    requires TxOk(cfg, s.tx[w], s.done) && TxHolds(s.tx[w]) && s.chan[w] == []
    requires !s.tx[w].pc.TxExited?
    ensures Enabled(cfg, s, step) && Productive(s, step)
    ensures !step.Ingest?
  {
    var t := s.tx[w];
    step := Tx(match t.pc
               case TxTop => TxLook(w)
               case TxGo => TxPreamble(w)
               case TxPushing => TxWrite(w)
               case _ => TxArm(w));
  }

  /** The smallest outstanding leg is at the front of its connection and can move. */
  lemma {:induction false} OutstandingMoves(cfg: Config, s: State) returns (step: Step)
    requires ValidConfig(cfg) && Inv(cfg, s) && !s.crashed && !s.doneMbox
    requires LossFree(s) && !Abandoned(s) && s.nextLeg < |s.owner|
    ensures Enabled(cfg, s, step) && Productive(s, step)
    ensures !step.Ingest?
  {
    var lines := AllLines(cfg, s);
    NextIsFirst(lines, s.nextLeg, s.owner);
    var w := s.owner[s.nextLeg];
    assert lines[w] == LineOf(s.tx[w], s.chan[w], s.rx[w]);
    assert ConnOk(cfg, s.done, s.tx[w], s.chan[w], s.rx[w]);
    if RxHolds(s.rx[w]) {
      assert lines[w][0] == s.rx[w].pkt.legId;
      step := NextHolderMoves(cfg, s, w);
    } else if s.chan[w] != [] {
      step := ChannelMoves(cfg, s, w);
    } else {
      assert TxHolds(s.tx[w]);
      step := TransmitMoves(cfg, s, w);
    }
  }

  /** With nothing outstanding, ingest or a worker it can use moves. */
  lemma {:induction false} IngestMoves(cfg: Config, s: State) returns (step: Step)
    requires ValidConfig(cfg) && Inv(cfg, s) && !s.crashed && !s.doneMbox
    requires SomeConnection(s) && s.nextLeg == |s.owner|
    ensures Enabled(cfg, s, step) && Productive(s, step)
  {
    if s.ingest.InTop? {
      var w :| 0 <= w < |s.tx| && !s.tx[w].pc.TxFaulted?;
      assert ConnOk(cfg, s.done, s.tx[w], s.chan[w], s.rx[w]);
      NothingHeld(cfg, s, w);
      step := FreeWorkerMoves(cfg, s, w);
    } else {
      assert !s.ingest.InFinished?;
      var w := s.ingest.w;
      assert ConnOk(cfg, s.done, s.tx[w], s.chan[w], s.rx[w]);
      step := BusyIngestMoves(cfg, s);
    }
  }

  lemma {:induction false} FreeWorkerMoves(cfg: Config, s: State, w: nat) returns (step: Step)
    requires ValidConfig(cfg) && Shape(cfg, s) && w < cfg.workers && !s.crashed
    requires s.ingest.InTop? && !s.done
    requires ConnOk(cfg, s.done, s.tx[w], s.chan[w], s.rx[w])
    requires !TxHolds(s.tx[w]) && !s.tx[w].pc.TxFaulted?
    ensures Enabled(cfg, s, step) && Productive(s, step)
  {
    var t := s.tx[w];
    step := if t.pc.TxConnecting? then Tx(TxConnect(w))
            else if t.pc.TxPushed? then Tx(TxFinish(w))
            else Ingest(IngestPick(w));
  }

  lemma {:induction false} BusyIngestMoves(cfg: Config, s: State) returns (step: Step)
    requires ValidConfig(cfg) && IngestOk(cfg, s) && !s.crashed
    requires !s.ingest.InTop? && !s.ingest.InFinished? && s.ingest.w < |s.tx|
    requires |s.tx[s.ingest.w].buffer| == cfg.foot
    ensures Enabled(cfg, s, step) && Productive(s, step)
  {
    step := Ingest(match s.ingest
                   case InPicked(_) => if |s.owner| < |cfg.legs| then IngestFill else IngestShut([])
                   case InFilled(_) => IngestPack
                   case InPacked(_) => IngestStart
                   case InShutting(_) => IngestShutPack
                   case _ => IngestShutStart);
  }

  lemma {:induction false} NothingHeld(cfg: Config, s: State, w: nat)
    requires Placed(cfg, s) && w < cfg.workers && s.nextLeg == |s.owner|
    ensures !TxHolds(s.tx[w])
  {
    if TxHolds(s.tx[w]) {
      HeldOutstanding(cfg, s, w);
    }
  }

  /** Deadlock freedom: before done_mbox, whatever the capacity of the connections, some
      thread can do productive work, unless a connection was lost, none was ever made, or
      the end leg was abandoned by its worker. */
  lemma {:induction false} DeadlockFree(cfg: Config, run: Run, i: nat) returns (step: Step)
    requires ValidRun(cfg, run) && i < |run.states|
    requires
      var s := run.states[i];
      !s.crashed && !s.doneMbox && LossFree(s) && SomeConnection(s) && !Abandoned(s)
    ensures Enabled(cfg, run.states[i], step) && Productive(run.states[i], step)
  {
    RunInv(cfg, run, i);
    step := CanMove(cfg, run.states[i]);
  }

  lemma {:induction false} CanMove(cfg: Config, s: State) returns (step: Step)
    requires ValidConfig(cfg) && Inv(cfg, s) && !s.crashed && !s.doneMbox
    requires LossFree(s) && SomeConnection(s) && !Abandoned(s)
    ensures Enabled(cfg, s, step) && Productive(s, step)
  {
    if s.nextLeg < |s.owner| {
      step := OutstandingMoves(cfg, s);
    } else {
      step := IngestMoves(cfg, s);
    }
  }
}
