/** Termination: a budget that every step spends, except that an idle worker may poll for
    free and a wakeup without a broadcast costs three. */
module Termination {
  import opened Bytes
  import opened Wire
  import opened Protocol
  import opened Lines
  import opened Invariants
  import opened Preservation
  import opened Safety
  import opened Ownership
  import opened Progress

  /** What a frame on a connection still has to cost, with n workers. */
  function FrameCost(n: nat, size: nat): nat {
    3 * n + 11 + 2 * size
  }

  function RxCost(n: nat, r: RxWorker): nat {
    match r.pc
    case RxOff => 2
    case RxTop => 1
    case RxHeader => 0
    case RxReading => 3 * n + 10 + r.pkt.size + |r.unread|
    case RxLocking => 3 * n + 10 + r.pkt.size
    case RxHolding => 3 * n + 9 + r.pkt.size
    case RxParking => 3 * n + 8 + r.pkt.size
    case RxAsleep => 3 * n + 7 + r.pkt.size
    case RxWoken => 3 * n + 10 + r.pkt.size
    case RxWriting => 3 * n + 6 + (if r.wrote <= r.pkt.size then r.pkt.size - r.wrote else 0)
    case RxWritten => 3 * n + 5
    case RxSummed => 3 * n + 4
    case RxBumping => 3 * n + 3
    case RxCasting => 3 * n + 2
    case RxExited => 0
    case RxDropped => 0
  }

  function TxCost(n: nat, t: TxWorker): nat {
    match t.pc
    case TxConnecting => 2
    case TxTop => if t.state.StDispatched? then FrameCost(n, t.pkt.size) + 7 else 1
    case TxGo => FrameCost(n, t.pkt.size) + 6
    case TxAmble => FrameCost(n, t.pkt.size) + 5
    case TxWaiting => FrameCost(n, t.pkt.size) + 4
    case TxPushing => FrameCost(n, t.pkt.size) + 3
    case TxPushed => 2
    case TxExited => 0
    case TxFaulted => 0
  }

  function ChanCost(n: nat, c: seq<Frame>): nat {
    if c == [] then 0 else FrameCost(n, c[0].pkt.size) + ChanCost(n, c[1..])
  }

  lemma {:induction false} ChanCostSnoc(n: nat, c: seq<Frame>, f: Frame)
    ensures ChanCost(n, c + [f]) == ChanCost(n, c) + FrameCost(n, f.pkt.size)
  {
    if c == [] {
      assert c + [f] == [f];
    } else {
      ChanCostSnoc(n, c[1..], f);
      assert (c + [f])[1..] == c[1..] + [f];
    }
  }

  /** What ingest still has to spend on the legs from k on, the end leg included. */
  function LegsCost(cfg: Config, k: nat): nat
    decreases |cfg.legs| + 1 - k
  {
    if k > |cfg.legs| then 1
    else if k == |cfg.legs| then FrameCost(cfg.workers, 0) + 11
    else FrameCost(cfg.workers, |cfg.legs[k]|) + 10 + LegsCost(cfg, k + 1)
  }

  function IngestCost(cfg: Config, s: State): int {
    match s.ingest
    case InTop => LegsCost(cfg, |s.owner|)
    case InPicked(_) => LegsCost(cfg, |s.owner|) - 1
    case InFilled(_) => LegsCost(cfg, |s.owner|) - 2
    case InPacked(_) => LegsCost(cfg, |s.owner|) - 3
    case InShutting(_) => LegsCost(cfg, |s.owner|) - 2
    case InShutPacked(_) => LegsCost(cfg, |s.owner|) - 3
    case InFinished => 0
  }

  function ConnCost(n: nat, t: TxWorker, c: seq<Frame>, r: RxWorker): nat {
    TxCost(n, t) + ChanCost(n, c) + RxCost(n, r)
  }

  ghost function ConnCosts(cfg: Config, s: State): (costs: seq<nat>)
    requires Shape(cfg, s)
    ensures |costs| == cfg.workers
    ensures forall w :: 0 <= w < cfg.workers ==> costs[w] == ConnCost(cfg.workers, s.tx[w], s.chan[w], s.rx[w])
  {
    seq(cfg.workers, w requires 0 <= w < cfg.workers => ConnCost(cfg.workers, s.tx[w], s.chan[w], s.rx[w]))
  }

  function Total(costs: seq<nat>): nat {
    if costs == [] then 0 else costs[0] + Total(costs[1..])
  }

  /** The budget left in a state; a crashed process has none. */
  ghost function Budget(cfg: Config, s: State): int
    requires Shape(cfg, s)
  {
    if s.crashed then 0 else IngestCost(cfg, s) + Total(ConnCosts(cfg, s))
  }

  lemma {:induction false} TotalUpdate(costs: seq<nat>, w: nat, c: nat)
    requires w < |costs|
    ensures Total(costs[w := c]) == Total(costs) - costs[w] + c
  {
    if w > 0 {
      TotalUpdate(costs[1..], w - 1, c);
      assert costs[w := c][1..] == costs[1..][w - 1 := c];
    } else {
      assert costs[w := c][1..] == costs[1..];
    }
  }

  /** If no entry grows by more than three, the total grows by at most three per entry. */
  lemma {:induction false} TotalGrows(a: seq<nat>, b: seq<nat>)
    requires |a| == |b| && forall i :: 0 <= i < |a| ==> b[i] <= a[i] + 3
    ensures Total(b) <= Total(a) + 3 * |a|
  {
    if a != [] {
      TotalGrows(a[1..], b[1..]);
    }
  }

  lemma {:induction false} IngestCostNonNegative(cfg: Config, s: State)
    requires IngestOk(cfg, s)
    ensures IngestCost(cfg, s) >= 0
  {
  }

  // ---------------------------------------------------------------- each step

  /** A wakeup that no broadcast asked for. */
  ghost predicate IsSpurious(step: Step) {
    step.Rx? && step.r.RxSpurious?
  }

  /** An idle worker finds nothing to do. */
  ghost predicate IsIdlePoll(s: State, step: Step) {
    step.Tx? && step.t.TxLook? && step.t.w < |s.tx| && s.tx[step.t.w].state.StIdle? && !s.done
  }

  lemma {:induction false} IngestSpends(cfg: Config, s: State, step: IngestStep)
    requires ValidConfig(cfg) && Shape(cfg, s) && IngestOk(cfg, s) && IngestEnabled(cfg, s, step)
    ensures
      var s' := IngestApply(cfg, s, step);
      && Shape(cfg, s')
      && IngestCost(cfg, s') + Total(ConnCosts(cfg, s')) < IngestCost(cfg, s) + Total(ConnCosts(cfg, s))
  {
    var s' := IngestApply(cfg, s, step);
    var costs, costs' := ConnCosts(cfg, s), ConnCosts(cfg, s');
    if step.IngestPick? || step.IngestExit? {
      assert costs' == costs;
    } else {
      var w, n := s.ingest.w, cfg.workers;
      assert costs' == costs[w := costs'[w]];
      TotalUpdate(costs, w, costs'[w]);
      IngestSpendsHere(cfg, s, step);
    }
  }

  lemma {:induction false} IngestSpendsHere(cfg: Config, s: State, step: IngestStep)
    requires ValidConfig(cfg) && IngestOk(cfg, s) && IngestEnabled(cfg, s, step)
    requires !step.IngestPick? && !step.IngestExit?
    ensures
      var s', n := IngestApply(cfg, s, step), cfg.workers;
      IngestCost(cfg, s') + TxCost(n, IngestMove(cfg, s, step)) < IngestCost(cfg, s) + TxCost(n, s.tx[s.ingest.w])
  {
  }

  /** A transmit step costs its connection something, unless it is an idle poll. */
  lemma {:induction false} TxSpendsHere(cfg: Config, s: State, step: TxStep)
    requires ValidConfig(cfg) && Shape(cfg, s) && TxEnabled(cfg, s, step)
    requires TxPhase(cfg, s.tx[step.w]) && !IsIdlePoll(s, Tx(step))
    ensures
      var s', n, w := TxApply(cfg, s, step), cfg.workers, step.w;
      ConnCost(n, s'.tx[w], s'.chan[w], s'.rx[w]) < ConnCost(n, s.tx[w], s.chan[w], s.rx[w])
  {
    if step.TxWrite? {
      var t := s.tx[step.w];
      ChanCostSnoc(cfg.workers, s.chan[step.w], Frame(t.pkt, t.buffer[..t.pkt.size]));
    }
  }

  lemma {:induction false} TxSpends(cfg: Config, s: State, step: TxStep)
    requires ValidConfig(cfg) && Conns(cfg, s) && TxEnabled(cfg, s, step)
    ensures
      var s' := TxApply(cfg, s, step);
      && Shape(cfg, s') && IngestCost(cfg, s') == IngestCost(cfg, s)
      && (if IsIdlePoll(s, Tx(step)) then s'.tx == s.tx && s'.chan == s.chan && s'.rx == s.rx
          else Total(ConnCosts(cfg, s')) < Total(ConnCosts(cfg, s)))
  {
    var s', w := TxApply(cfg, s, step), step.w;
    assert ConnOk(cfg, s.done, s.tx[w], s.chan[w], s.rx[w]);
    if IsIdlePoll(s, Tx(step)) {
      assert s'.tx == s.tx;
    } else {
      var costs, costs' := ConnCosts(cfg, s), ConnCosts(cfg, s');
      TxSpendsHere(cfg, s, step);
      assert costs' == costs[w := costs'[w]];
      TotalUpdate(costs, w, costs'[w]);
    }
  }

  /** A receive step other than a broadcast costs its connection something, except that a
      spurious wakeup gives three back. */
  lemma {:induction false} RxSpendsHere(cfg: Config, s: State, step: RxStep)
    requires ValidConfig(cfg) && Shape(cfg, s) && RxEnabled(cfg, s, step) && !step.RxCast?
    requires RxOk(cfg, s.rx[step.w]) && (step.RxCatch? ==> ChanOk(cfg, s.chan[step.w]))
    requires step.RxSave? ==> s.rx[step.w].sum == s.rx[step.w].pkt.checksum
    ensures
      var s', n, w := RxApply(cfg, s, step), cfg.workers, step.w;
      var before := ChanCost(n, s.chan[w]) + RxCost(n, s.rx[w]);
      var after := ChanCost(n, s'.chan[w]) + RxCost(n, s'.rx[w]);
      if step.RxSpurious? then after == before + 3 else after < before
  {
    if step.RxCatch? {
      assert FrameOk(cfg, s.chan[step.w][0]);
    } else {
      RxMoveSpends(cfg, s, step);
    }
  }

  lemma {:induction false} RxMoveSpends(cfg: Config, s: State, step: RxStep)
    requires RxEnabled(cfg, s, step) && RxOk(cfg, s.rx[step.w]) && !step.RxCast? && !step.RxCatch?
    requires step.RxSave? ==> s.rx[step.w].sum == s.rx[step.w].pkt.checksum
    ensures
      var before, after := RxCost(cfg.workers, s.rx[step.w]), RxCost(cfg.workers, RxMove(cfg, s, step));
      if step.RxSpurious? then after == before + 3 else after < before
  {
  }

  lemma {:induction false} RxSpends(cfg: Config, s: State, step: RxStep)
    requires ValidConfig(cfg) && Conns(cfg, s) && RxEnabled(cfg, s, step)
    requires step.RxSave? ==> s.rx[step.w].sum == s.rx[step.w].pkt.checksum
    ensures
      var s' := RxApply(cfg, s, step);
      && Shape(cfg, s') && IngestCost(cfg, s') == IngestCost(cfg, s)
      && (if step.RxSpurious? then Total(ConnCosts(cfg, s')) == Total(ConnCosts(cfg, s)) + 3
          else Total(ConnCosts(cfg, s')) < Total(ConnCosts(cfg, s)))
  {
    var s', w := RxApply(cfg, s, step), step.w;
    var costs, costs' := ConnCosts(cfg, s), ConnCosts(cfg, s');
    assert ConnOk(cfg, s.done, s.tx[w], s.chan[w], s.rx[w]);
    if step.RxCast? {
      CastSpends(cfg, s, step);
    } else {
      RxSpendsHere(cfg, s, step);
      assert costs' == costs[w := costs'[w]];
      TotalUpdate(costs, w, costs'[w]);
    }
  }

  /** The broadcast pays for the sleepers it wakes. */
  lemma {:induction false} CastSpends(cfg: Config, s: State, step: RxStep)
    requires ValidConfig(cfg) && Shape(cfg, s) && RxEnabled(cfg, s, step) && step.RxCast?
    ensures
      var s' := RxApply(cfg, s, step);
      Shape(cfg, s') && Total(ConnCosts(cfg, s')) < Total(ConnCosts(cfg, s))
  {
    var s', w, n := RxApply(cfg, s, step), step.w, cfg.workers;
    var costs, costs' := ConnCosts(cfg, s), ConnCosts(cfg, s');
    assert costs'[w] + 3 * n + 1 == costs[w];
    var mid := costs[w := costs'[w]];
    TotalUpdate(costs, w, costs'[w]);
    forall v | 0 <= v < n
      ensures costs'[v] <= mid[v] + 3
    {
      if v != w {
        WokenCost(n, s.rx[v]);
      }
    }
    TotalGrows(mid, costs');
  }

  lemma {:induction false} WokenCost(n: nat, r: RxWorker)
    ensures RxCost(n, Wake(r)) <= RxCost(n, r) + 3
  {
  }

  /** Every step spends budget, except idle polls, which change nothing, and spurious
      wakeups, which give three back. */
  lemma {:induction false} StepSpends(cfg: Config, s: State, step: Step, s': State)
    requires Inv(cfg, s) && Moves(cfg, s, step, s')
    ensures Shape(cfg, s')
    ensures IsIdlePoll(s, step) ==> s' == s
    ensures IsSpurious(step) ==> Budget(cfg, s') == Budget(cfg, s) + 3
    ensures !IsIdlePoll(s, step) && !IsSpurious(step) ==> Budget(cfg, s') < Budget(cfg, s)
  {
    IngestCostNonNegative(cfg, s);
    match step
    case Ingest(i) => IngestSpends(cfg, s, i);
    case Tx(t) =>
      assert ConnOk(cfg, s.done, s.tx[t.w], s.chan[t.w], s.rx[t.w]);
      TxSpends(cfg, s, t);
    case Rx(r) =>
      if r.RxSave? && s.rx[r.w].sum != s.rx[r.w].pkt.checksum {
        CrashSpends(cfg, s, r.w);
      } else {
        RxSpends(cfg, s, r);
      }
  }

  lemma {:induction false} CrashSpends(cfg: Config, s: State, w: nat)
    requires Shape(cfg, s) && w < cfg.workers && s.rx[w].pc.RxSummed?
    ensures Total(ConnCosts(cfg, s)) > 0
  {
    TotalUpdate(ConnCosts(cfg, s), w, 0);
  }

  // ---------------------------------------------------------------- whole runs

  /** Steps among the first n that are neither idle polls nor spurious wakeups. */
  ghost function Work(run: Run, n: nat): nat
    requires n <= |run.steps| < |run.states|
  {
    if n == 0 then 0
    else Work(run, n - 1) +
         if IsIdlePoll(run.states[n - 1], run.steps[n - 1]) || IsSpurious(run.steps[n - 1]) then 0 else 1
  }

  ghost function SpuriousWakeups(run: Run, n: nat): nat
    requires n <= |run.steps|
  {
    if n == 0 then 0 else SpuriousWakeups(run, n - 1) + if IsSpurious(run.steps[n - 1]) then 1 else 0
  }

  lemma {:induction false} RunSpends(cfg: Config, run: Run, n: nat)
    requires ValidRun(cfg, run) && n <= |run.steps|
    ensures Shape(cfg, run.states[n]) && Shape(cfg, Init(cfg))
    ensures Work(run, n) + Budget(cfg, run.states[n]) <= Budget(cfg, Init(cfg)) + 3 * SpuriousWakeups(run, n)
  {
    if n > 0 {
      RunSpends(cfg, run, n - 1);
      StepSpendsInRun(cfg, run, n - 1);
    }
  }

  lemma {:induction false} StepSpendsInRun(cfg: Config, run: Run, i: nat)
    requires ValidRun(cfg, run) && i < |run.steps|
    ensures Shape(cfg, run.states[i]) && Shape(cfg, run.states[i + 1])
    ensures
      var before, after := Budget(cfg, run.states[i]), Budget(cfg, run.states[i + 1]);
      if IsSpurious(run.steps[i]) then after == before + 3
      else if IsIdlePoll(run.states[i], run.steps[i]) then after == before
      else after < before
  {
    RunInv(cfg, run, i);
    RunStep(cfg, run, i);
    StepSpends(cfg, run.states[i], run.steps[i], run.states[i + 1]);
  }

  lemma {:induction false} LegsCostClosedForm(cfg: Config, k: nat)
    requires k <= |cfg.legs|
    ensures LegsCost(cfg, k) ==
            (|cfg.legs| - k + 1) * (3 * cfg.workers + 21) + 1 + 2 * |Flatten(cfg.legs[k..])|
    decreases |cfg.legs| - k
  {
    if k == |cfg.legs| {
      assert cfg.legs[k..] == [];
    } else {
      LegsCostClosedForm(cfg, k + 1);
      FlattenDrop(cfg.legs, k);
      var per := 3 * cfg.workers + 21;
      assert (|cfg.legs| - k + 1) * per == (|cfg.legs| - (k + 1) + 1) * per + per;
    }
  }

  lemma {:induction false} TotalOfFours(costs: seq<nat>)
    requires forall i :: 0 <= i < |costs| ==> costs[i] == 4
    ensures Total(costs) == 4 * |costs|
  {
    if costs != [] {
      TotalOfFours(costs[1..]);
    }
  }

  lemma {:induction false} InitialBudget(cfg: Config)
    ensures Shape(cfg, Init(cfg))
    ensures Budget(cfg, Init(cfg)) ==
            4 * cfg.workers + (|cfg.legs| + 1) * (3 * cfg.workers + 21) + 1 + 2 * |Flatten(cfg.legs)|
  {
    TotalOfFours(ConnCosts(cfg, Init(cfg)));
    LegsCostClosedForm(cfg, 0);
    assert cfg.legs[0..] == cfg.legs;
  }

  /** Termination: whatever the interleaving, a run contains at most this many steps that
      are not idle polls or spurious wakeups. */
  lemma {:induction false} WorkIsBounded(cfg: Config, run: Run)
    requires ValidRun(cfg, run)
    ensures Work(run, |run.steps|) <=
            4 * cfg.workers + (|cfg.legs| + 1) * (3 * cfg.workers + 21) + 1 + 2 * |Flatten(cfg.legs)|
            + 3 * SpuriousWakeups(run, |run.steps|)
  {
    var n := |run.steps|;
    RunSpends(cfg, run, n);
    InitialBudget(cfg);
    RunInv(cfg, run, n);
    IngestCostNonNegative(cfg, run.states[n]);
  }
}
