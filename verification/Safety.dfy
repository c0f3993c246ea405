/** Runs, and what is true at every point of every run. */
module Safety {
  import opened Bytes
  import opened Wire
  import opened Protocol
  import opened Lines
  import opened Invariants
  import opened Preservation

  /** A finite execution: any interleaving of the threads from the initial state. */
  datatype Run = Run(states: seq<State>, steps: seq<Step>)

  ghost predicate ValidRun(cfg: Config, run: Run) {
    && ValidConfig(cfg)
    && |run.states| == |run.steps| + 1
    && run.states[0] == Init(cfg)
    && forall i :: 0 <= i < |run.steps| ==> Moves(cfg, run.states[i], run.steps[i], run.states[i + 1])
  }

  lemma {:induction false} RunStep(cfg: Config, run: Run, i: nat)
    requires ValidRun(cfg, run) && i < |run.steps|
    ensures Moves(cfg, run.states[i], run.steps[i], run.states[i + 1])
  {
  }

  lemma {:induction false} RunInv(cfg: Config, run: Run, i: nat)
    requires ValidRun(cfg, run) && i < |run.states|
    ensures Inv(cfg, run.states[i])
  {
    if i == 0 {
      InitInv(cfg);
    } else {
      RunInv(cfg, run, i - 1);
      NextInv(cfg, run, i - 1);
    }
  }

  lemma {:induction false} NextInv(cfg: Config, run: Run, i: nat)
    requires ValidRun(cfg, run) && i < |run.steps| && Inv(cfg, run.states[i])
    ensures Inv(cfg, run.states[i + 1])
  {
    RunStep(cfg, run, i);
    StepInv(cfg, run.states[i], run.steps[i], run.states[i + 1]);
  }

  // ---------------------------------------------------------------- ordered delivery

  lemma {:induction false} OutputShapeAt(cfg: Config, s: State) returns (m: nat)
    requires Inv(cfg, s)
    ensures m <= |Payload(cfg, s.nextLeg)|
    ensures s.output == Delivered(cfg, s.nextLeg) + Payload(cfg, s.nextLeg)[..m]
    ensures m > 0 ==> s.nextLeg < |s.owner|
  {
    if w :| 0 <= w < |s.rx| && Critical(s.rx[w]) {
      m := s.rx[w].wrote;
      HolderOwns(cfg, s, w);
    } else {
      m := 0;
    }
  }

  /** In every state of every run the output is the first next_leg legs and a prefix of the
      following one, and of that one nothing is written before it was started. */
  lemma {:induction false} OutputShape(cfg: Config, run: Run, i: nat) returns (m: nat)
    requires ValidRun(cfg, run) && i < |run.states|
    ensures
      var s := run.states[i];
      && m <= |Payload(cfg, s.nextLeg)|
      && s.output == Delivered(cfg, s.nextLeg) + Payload(cfg, s.nextLeg)[..m]
      && (m > 0 ==> s.nextLeg < |s.owner|)
  {
    RunInv(cfg, run, i);
    m := OutputShapeAt(cfg, run.states[i]);
  }

  /** Order is guaranteed and the pipe is transparent: in every reachable state of every
      run the output is a prefix of the input. */
  lemma {:induction false} OutputIsPrefix(cfg: Config, run: Run, i: nat)
    requires ValidRun(cfg, run) && i < |run.states|
    ensures run.states[i].output <= Flatten(cfg.legs)
  {
    var m := OutputShape(cfg, run, i);
    PrefixOfInput(cfg, run.states[i].nextLeg, m);
  }

  lemma {:induction false} PrefixOfInput(cfg: Config, k: nat, m: nat)
    requires m <= |Payload(cfg, k)|
    ensures Delivered(cfg, k) + Payload(cfg, k)[..m] <= Flatten(cfg.legs)
  {
    DeliveredStep(cfg, k);
    FlattenPrefix(cfg.legs, Min(k + 1, |cfg.legs|));
    assert Delivered(cfg, k) + Payload(cfg, k)[..m] <= Delivered(cfg, k + 1);
  }

  // ---------------------------------------------------------------- refinement of one FIFO pipe

  /** A plain pipe: input not yet read, bytes inside, bytes written. */
  datatype Pipe = Pipe(rest: seq<byte>, queue: seq<byte>, out: seq<byte>)

  ghost predicate Enqueue(a: Pipe, b: Pipe, n: nat) {
    n <= |a.rest| && b == Pipe(a.rest[n..], a.queue + a.rest[..n], a.out)
  }

  ghost predicate Dequeue(a: Pipe, b: Pipe, n: nat) {
    n <= |a.queue| && b == Pipe(a.rest, a.queue[n..], a.out + a.queue[..n])
  }

  /** How many legs ingest has read. */
  ghost function Taken(cfg: Config, s: State): nat {
    Min(|s.owner| + (if s.ingest.InFilled? || s.ingest.InPacked? then 1 else 0), |cfg.legs|)
  }

  /** The pipe a state of the system stands for. */
  ghost function AsPipe(cfg: Config, s: State): Pipe {
    var taken := Flatten(cfg.legs[..Taken(cfg, s)]);
    Pipe(Flatten(cfg.legs[Taken(cfg, s)..]),
         if |s.output| <= |taken| then taken[|s.output|..] else [],
         s.output)
  }

  /** Nothing is written that has not been read. */
  lemma {:induction false} OutputWithinTaken(cfg: Config, s: State)
    requires Inv(cfg, s)
    ensures s.output <= Flatten(cfg.legs[..Taken(cfg, s)])
  {
    var m := OutputShapeAt(cfg, s);
    DeliveredWithin(cfg, s.nextLeg, m, Taken(cfg, s));
  }

  lemma {:induction false} DeliveredWithin(cfg: Config, k: nat, m: nat, taken: nat)
    requires m <= |Payload(cfg, k)| && taken <= |cfg.legs|
    requires Min(k + (if m > 0 then 1 else 0), |cfg.legs|) <= taken
    ensures Delivered(cfg, k) + Payload(cfg, k)[..m] <= Flatten(cfg.legs[..taken])
  {
    var n := Min(k + (if m > 0 then 1 else 0), |cfg.legs|);
    DeliveredStep(cfg, k);
    FlattenPrefix(cfg.legs[..taken], n);
    assert cfg.legs[..taken][..n] == cfg.legs[..n];
    assert Payload(cfg, k)[..m] <= Payload(cfg, k);
  }

  lemma {:induction false} PipeStarts(cfg: Config)
    ensures AsPipe(cfg, Init(cfg)) == Pipe(Flatten(cfg.legs), [], [])
  {
    assert cfg.legs[0..] == cfg.legs;
  }

  /** Every step of the many-connection system is a step of one FIFO byte pipe: reading a
      leg enqueues it, copying to the output dequeues, and everything else changes nothing. */
  lemma {:induction false} RefinesPipe(cfg: Config, run: Run, i: nat)
    requires ValidRun(cfg, run) && i < |run.steps|
    ensures
      var a, b := AsPipe(cfg, run.states[i]), AsPipe(cfg, run.states[i + 1]);
      match run.steps[i]
      case Ingest(IngestFill) =>
        |run.states[i].owner| < |cfg.legs| && Enqueue(a, b, |cfg.legs[|run.states[i].owner|]|)
      case Rx(RxAppend(_, n)) => Dequeue(a, b, n)
      case _ => a == b
  {
    RunInv(cfg, run, i);
    RunInv(cfg, run, i + 1);
    RunStep(cfg, run, i);
    var s, step, s' := run.states[i], run.steps[i], run.states[i + 1];
    OutputWithinTaken(cfg, s);
    OutputWithinTaken(cfg, s');
    StepOfPipe(cfg, s, step, s');
  }

  lemma {:induction false} StepOfPipe(cfg: Config, s: State, step: Step, s': State)
    requires IngestOk(cfg, s) && Moves(cfg, s, step, s')
    requires s.output <= Flatten(cfg.legs[..Taken(cfg, s)]) && s'.output <= Flatten(cfg.legs[..Taken(cfg, s')])
    ensures
      var a, b := AsPipe(cfg, s), AsPipe(cfg, s');
      match step
      case Ingest(IngestFill) => |s.owner| < |cfg.legs| && Enqueue(a, b, |cfg.legs[|s.owner|]|)
      case Rx(RxAppend(_, n)) => Dequeue(a, b, n)
      case _ => a == b
  {
    match step
    case Ingest(i) =>
      if i.IngestFill? {
        FillEnqueues(cfg, s, s');
      } else {
        IngestMovesNothing(cfg, s, i);
      }
    case Tx(t) => SamePipe(cfg, s, s');
    case Rx(r) => RxOfPipe(cfg, s, r);
  }

  lemma {:induction false} IngestMovesNothing(cfg: Config, s: State, step: IngestStep)
    requires IngestOk(cfg, s) && IngestEnabled(cfg, s, step) && !step.IngestFill?
    ensures AsPipe(cfg, IngestApply(cfg, s, step)) == AsPipe(cfg, s)
  {
    var s' := IngestApply(cfg, s, step);
    assert Taken(cfg, s') == Taken(cfg, s);
    assert s'.output == s.output;
  }

  lemma {:induction false} SamePipe(cfg: Config, s: State, s': State)
    requires s'.ingest == s.ingest && s'.owner == s.owner && s'.output == s.output
    ensures AsPipe(cfg, s') == AsPipe(cfg, s)
  {
  }

  lemma {:induction false} FillEnqueues(cfg: Config, s: State, s': State)
    requires s.ingest.InPicked? && s'.ingest.InFilled?
    requires s'.owner == s.owner && |s.owner| < |cfg.legs| && s'.output == s.output
    requires s.output <= Flatten(cfg.legs[..|s.owner|])
    ensures Enqueue(AsPipe(cfg, s), AsPipe(cfg, s'), |cfg.legs[|s.owner|]|)
  {
    var k := |s.owner|;
    FlattenTake(cfg.legs, k);
    FlattenDrop(cfg.legs, k);
    assert Taken(cfg, s) == k && Taken(cfg, s') == k + 1;
    LegMoves(Flatten(cfg.legs[..k]), cfg.legs[k], Flatten(cfg.legs[k + 1..]), s.output);
  }

  lemma {:induction false} LegMoves(taken: seq<byte>, leg: seq<byte>, rest: seq<byte>, out: seq<byte>)
    requires out <= taken
    ensures (leg + rest)[..|leg|] == leg && (leg + rest)[|leg|..] == rest
    ensures |out| <= |taken + leg| && (taken + leg)[|out|..] == taken[|out|..] + leg
  {
  }

  lemma {:induction false} RxOfPipe(cfg: Config, s: State, step: RxStep)
    requires RxEnabled(cfg, s, step)
    requires
      var s' := RxApply(cfg, s, step);
      s.output <= Flatten(cfg.legs[..Taken(cfg, s)]) && s'.output <= Flatten(cfg.legs[..Taken(cfg, s')])
    ensures
      var a, b := AsPipe(cfg, s), AsPipe(cfg, RxApply(cfg, s, step));
      if step.RxAppend? then Dequeue(a, b, step.n) else a == b
  {
    var s' := RxApply(cfg, s, step);
    assert Taken(cfg, s') == Taken(cfg, s);
    if step.RxAppend? {
      TakenSplits(Flatten(cfg.legs[..Taken(cfg, s)]), s.output, s'.output, step.n);
    }
  }

  lemma {:induction false} TakenSplits(taken: seq<byte>, out: seq<byte>, out': seq<byte>, n: nat)
    requires out <= out' <= taken && |out'| == |out| + n
    ensures out' == out + taken[|out|..][..n]
    ensures taken[|out'|..] == taken[|out|..][n..]
  {
  }

  // ---------------------------------------------------------------- the sequencer

  /** Mutual exclusion without the lock: at most one worker is ever between its admission
      and its increment of next_leg, so output bytes never interleave. */
  lemma {:induction false} MutualExclusion(cfg: Config, run: Run, i: nat, v: nat, w: nat)
    requires ValidRun(cfg, run) && i < |run.states|
    requires v < |run.states[i].rx| && w < |run.states[i].rx|
    requires Critical(run.states[i].rx[v]) && Critical(run.states[i].rx[w])
    ensures v == w
  {
    RunInv(cfg, run, i);
    SoleHolder(cfg, run.states[i], v, w);
  }

  /** No lost wakeup: if a worker sleeps although its leg is next, another worker is
      between its increment and its broadcast. */
  lemma {:induction false} NoLostWakeup(cfg: Config, run: Run, i: nat, w: nat) returns (v: nat)
    requires ValidRun(cfg, run) && i < |run.states|
    requires w < |run.states[i].rx| && run.states[i].rx[w].pc.RxAsleep?
    requires run.states[i].rx[w].pkt.legId == run.states[i].nextLeg
    ensures v < |run.states[i].rx| && v != w && run.states[i].rx[v].pc.RxCasting?
  {
    RunInv(cfg, run, i);
    var s := run.states[i];
    v :| 0 <= v < |s.rx| && s.rx[v].pc.RxCasting?;
  }

  /** A broadcast leaves nobody asleep. */
  lemma {:induction false} BroadcastWakesAll(cfg: Config, run: Run, i: nat, w: nat)
    requires ValidRun(cfg, run) && i < |run.steps| && run.steps[i].Rx? && run.steps[i].r.RxCast?
    requires w < |run.states[i].rx|
    ensures w < |run.states[i + 1].rx| && !run.states[i + 1].rx[w].pc.RxAsleep?
    ensures run.states[i].rx[w].pc.RxAsleep? ==> run.states[i + 1].rx[w].pc.RxWoken?
  {
    RunStep(cfg, run, i);
    var s, s' := run.states[i], run.states[i + 1];
    if w != run.steps[i].r.w {
      assert s'.rx[w] == Wake(s.rx[w]);
    }
  }

  /** The lock protects next_leg and done_mbox: while a worker has the mutex, between its
      test and its wait included, no step of any thread changes either. */
  lemma {:induction false} LockProtects(cfg: Config, run: Run, i: nat, w: nat)
    requires ValidRun(cfg, run) && i < |run.steps|
    requires w < |run.states[i].rx| && HasMutex(run.states[i].rx[w])
    ensures run.states[i + 1].nextLeg == run.states[i].nextLeg
    ensures run.states[i + 1].doneMbox == run.states[i].doneMbox
    ensures
      var s' := run.states[i + 1];
      w < |s'.rx| && (HasMutex(s'.rx[w]) || s'.mutex.Nobody?)
  {
    RunInv(cfg, run, i);
    RunInv(cfg, run, i + 1);
    RunStep(cfg, run, i);
    LockedStep(cfg, run.states[i], run.steps[i], run.states[i + 1], w);
  }

  lemma {:induction false} LockedStep(cfg: Config, s: State, step: Step, s': State, w: nat)
    requires Moves(cfg, s, step, s') && s.mutex == Held(w)
    ensures s'.nextLeg == s.nextLeg && s'.doneMbox == s.doneMbox
    ensures s'.mutex == Held(w) || s'.mutex.Nobody?
  {
  }

  // ---------------------------------------------------------------- placement

  /** Exactly-once placement: every started leg from next_leg on is at exactly one place
      of one connection, delivered legs are at none, and ids increase along each
      connection from the receive buffer back to the transmit buffer. */
  lemma {:induction false} ExactlyOnePlace(cfg: Config, run: Run, i: nat, k: nat)
    requires ValidRun(cfg, run) && i < |run.states|
    ensures Shape(cfg, run.states[i])
    ensures
      var s := run.states[i];
      var lines := AllLines(cfg, s);
      && (s.nextLeg <= k < |s.owner| ==>
            exists w, j :: 0 <= w < |lines| && 0 <= j < |lines[w]| && lines[w][j] == k &&
              forall v, l :: 0 <= v < |lines| && 0 <= l < |lines[v]| && lines[v][l] == k ==> v == w && l == j)
      && (!(s.nextLeg <= k < |s.owner|) ==> forall w :: 0 <= w < |lines| ==> k !in lines[w])
      && forall w, j, l :: 0 <= w < |lines| && 0 <= j < l < |lines[w]| ==> lines[w][j] < lines[w][l]
  {
    RunInv(cfg, run, i);
    var s := run.states[i];
    var lines := AllLines(cfg, s);
    assert forall w :: 0 <= w < |lines| ==> LineOk(lines[w], w, s.nextLeg, s.owner);
    if s.nextLeg <= k < |s.owner| {
      var w := s.owner[k];
      var j :| 0 <= j < |lines[w]| && lines[w][j] == k;
      forall v, l | 0 <= v < |lines| && 0 <= l < |lines[v]| && lines[v][l] == k
        ensures v == w && l == j
      {
        OnePlace(lines, s.nextLeg, s.owner, v, l, w, j);
      }
    }
  }

  lemma {:induction false} LineRoom(cfg: Config, s: State, w: nat)
    requires Conns(cfg, s) && w < cfg.workers
    ensures |AllLines(cfg, s)[w]| <= cfg.capacity + 2
  {
    assert ConnOk(cfg, s.done, s.tx[w], s.chan[w], s.rx[w]);
  }

  /** Reordering window: a caught leg runs ahead of the sequencer by at most
      (workers - 1) * (capacity + 2), so the number of workers alone is not the bound. */
  lemma {:induction false} ReorderingWindow(cfg: Config, run: Run, i: nat, w: nat)
    requires ValidRun(cfg, run) && i < |run.states|
    requires w < |run.states[i].rx| && RxHolds(run.states[i].rx[w])
    ensures
      var s := run.states[i];
      0 <= s.rx[w].pkt.legId - s.nextLeg <= (cfg.workers - 1) * (cfg.capacity + 2)
  {
    RunInv(cfg, run, i);
    WindowAt(cfg, run.states[i], w);
  }

  lemma {:induction false} WindowAt(cfg: Config, s: State, w: nat)
    requires Conns(cfg, s) && Placed(cfg, s) && w < cfg.workers && RxHolds(s.rx[w])
    ensures 0 <= s.rx[w].pkt.legId - s.nextLeg <= (cfg.workers - 1) * (cfg.capacity + 2)
  {
    var lines := AllLines(cfg, s);
    forall v | 0 <= v < |lines|
      ensures |lines[v]| <= cfg.capacity + 2
    {
      LineRoom(cfg, s, v);
    }
    assert lines[w][0] == s.rx[w].pkt.legId;
    Window(lines, s.nextLeg, s.owner, cfg.capacity + 2, w);
  }
}
