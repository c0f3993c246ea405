/** A run built step by step: the reordering window is attained for every number of workers
    and every capacity. */
module Witnesses {
  import opened Bytes
  import opened Wire
  import opened Protocol
  import opened Lines
  import opened Invariants
  import opened Preservation
  import opened Safety
  import opened Ownership
  import opened Liveness

  /** Ingest is between legs and nothing has been delivered. */
  ghost predicate Calm(s: State) {
    s.ingest.InTop? && !s.done && !s.doneMbox && !s.crashed && s.nextLeg == 0
  }

  /** Connection v: whether its worker has a leg, how many are in flight, whether one is caught. */
  ghost predicate Row(s: State, v: nat, busy: bool, queued: nat, caught: bool) {
    && v < |s.tx| && v < |s.chan| && v < |s.rx|
    && s.tx[v].pc.TxTop? && s.tx[v].state == (if busy then StDispatched else StIdle)
    && |s.chan[v]| == queued
    && (if caught then s.rx[v].pc.RxReading? else s.rx[v].pc.RxHeader?)
  }

  ghost predicate OthersSame(s: State, s': State, w: nat) {
    && |s'.tx| == |s.tx| && |s'.chan| == |s.chan| && |s'.rx| == |s.rx|
    && (forall v :: 0 <= v < |s.tx| && v != w ==> s'.tx[v] == s.tx[v])
    && (forall v :: 0 <= v < |s.chan| && v != w ==> s'.chan[v] == s.chan[v])
    && (forall v :: 0 <= v < |s.rx| && v != w ==> s'.rx[v] == s.rx[v])
  }

  lemma {:induction false} SizesInRun(cfg: Config, run: Run, w: nat)
    requires ValidRun(cfg, run) && w < cfg.workers
    ensures
      var s := Last(run);
      && Shape(cfg, s) && |s.tx[w].buffer| == cfg.foot && |s.rx[w].buffer| == cfg.foot
      && (TxHolds(s.tx[w]) ==> s.tx[w].pkt.size <= cfg.foot)
  {
    RunInv(cfg, run, |run.steps|);
    var s := Last(run);
    assert ConnOk(cfg, s.done, s.tx[w], s.chan[w], s.rx[w]);
  }

  /** Ingest gives the next leg to worker w. */
  lemma {:induction false} Dispatch(cfg: Config, run: Run, w: nat, queued: nat, caught: bool) returns (longer: Run)
    requires ValidRun(cfg, run) && w < cfg.workers && Calm(Last(run)) && Row(Last(run), w, false, queued, caught)
    requires |Last(run).owner| < |cfg.legs|
    ensures ValidRun(cfg, longer) && Calm(Last(longer)) && Row(Last(longer), w, true, queued, caught)
    ensures Last(longer).owner == Last(run).owner + [w] && OthersSame(Last(run), Last(longer), w)
    ensures run.states <= longer.states
  {
    SizesInRun(cfg, run, w);
    longer := Fill(cfg, run, w);
    longer := Start(cfg, longer);
  }

  lemma {:induction false} Fill(cfg: Config, run: Run, w: nat) returns (longer: Run)
    requires ValidRun(cfg, run) && Calm(Last(run)) && w < |Last(run).tx| && Last(run).tx[w].state.StIdle?
    requires |Last(run).owner| < |cfg.legs| && |Last(run).tx[w].buffer| == cfg.foot
    ensures ValidRun(cfg, longer) && run.states <= longer.states && OthersSame(Last(run), Last(longer), w)
    ensures Last(longer) == Last(run).(ingest := InFilled(w), tx := Last(longer).tx)
    ensures Last(longer).tx[w] == Last(run).tx[w].(buffer := Last(longer).tx[w].buffer)
    ensures |Last(longer).tx[w].buffer| == cfg.foot
  {
    longer := Extend(cfg, run, Ingest(IngestPick(w)));
    longer := Extend(cfg, longer, Ingest(IngestFill));
  }

  lemma {:induction false} Start(cfg: Config, run: Run) returns (longer: Run)
    requires ValidRun(cfg, run) && !Last(run).crashed && IngestEnabled(cfg, Last(run), IngestPack)
    ensures ValidRun(cfg, longer) && run.states <= longer.states && OthersSame(Last(run), Last(longer), Last(run).ingest.w)
    ensures
      var s, s', w := Last(run), Last(longer), Last(run).ingest.w;
      && s' == s.(ingest := InTop, saved := s'.saved, owner := s.owner + [w], tx := s'.tx)
      && s'.tx[w] == s.tx[w].(state := StDispatched, pkt := s'.tx[w].pkt)
  {
    longer := Extend(cfg, run, Ingest(IngestPack));
    longer := Extend(cfg, longer, Ingest(IngestStart));
  }

  /** Worker w pushes its leg. */
  lemma {:induction false} Push(cfg: Config, run: Run, w: nat, queued: nat, caught: bool) returns (longer: Run)
    requires ValidRun(cfg, run) && w < cfg.workers && Calm(Last(run)) && Row(Last(run), w, true, queued, caught)
    requires queued < cfg.capacity
    ensures ValidRun(cfg, longer) && Calm(Last(longer)) && Row(Last(longer), w, false, queued + 1, caught)
    ensures Last(longer).owner == Last(run).owner && OthersSame(Last(run), Last(longer), w)
  {
    longer := Prepare(cfg, run, w);
    SizesInRun(cfg, longer, w);
    longer := Extend(cfg, longer, Tx(TxWrite(w)));
    longer := Extend(cfg, longer, Tx(TxFinish(w)));
  }

  lemma {:induction false} Prepare(cfg: Config, run: Run, w: nat) returns (longer: Run)
    requires ValidRun(cfg, run) && w < |Last(run).tx| && Calm(Last(run))
    requires Last(run).tx[w].pc.TxTop? && Last(run).tx[w].state.StDispatched?
    ensures ValidRun(cfg, longer) && OthersSame(Last(run), Last(longer), w)
    ensures Last(longer) == Last(run).(tx := Last(longer).tx)
    ensures Last(longer).tx[w].pc.TxPushing? && !Last(longer).tx[w].localDone
  {
    longer := Extend(cfg, run, Tx(TxLook(w)));
    longer := Extend(cfg, longer, Tx(TxPreamble(w)));
    longer := Extend(cfg, longer, Tx(TxArm(w)));
  }

  /** The receive worker of connection w catches the leg in front. */
  lemma {:induction false} Catch(cfg: Config, run: Run, w: nat, queued: nat) returns (longer: Run)
    requires ValidRun(cfg, run) && w < cfg.workers && Calm(Last(run)) && Row(Last(run), w, false, queued + 1, false)
    requires |Last(run).owner| <= |cfg.legs|
    ensures ValidRun(cfg, longer) && Calm(Last(longer)) && Row(Last(longer), w, false, queued, true)
    ensures Last(longer).owner == Last(run).owner && OthersSame(Last(run), Last(longer), w)
  {
    FrontHasPayload(cfg, run, w);
    longer := Extend(cfg, run, Rx(RxCatch(w)));
  }

  lemma {:induction false} FrontHasPayload(cfg: Config, run: Run, w: nat)
    requires ValidRun(cfg, run) && w < cfg.workers && |Last(run).owner| <= |cfg.legs|
    requires w < |Last(run).chan| && Last(run).chan[w] != []
    requires w < |Last(run).rx| && Last(run).rx[w].pc.RxHeader?
    ensures Last(run).chan[w][0].pkt.size > 0
  {
    RunInv(cfg, run, |run.steps|);
    var s := Last(run);
    assert ConnOk(cfg, s.done, s.tx[w], s.chan[w], s.rx[w]);
    assert FrameOk(cfg, s.chan[w][0]);
    var lines := AllLines(cfg, s);
    assert LineOk(lines[w], w, s.nextLeg, s.owner);
    assert lines[w][0] == s.chan[w][0].pkt.legId;
  }

  /** All connections are made and nothing has been sent. */
  lemma {:induction false} ConnectUpTo(cfg: Config, n: nat) returns (run: Run)
    requires ValidConfig(cfg) && n <= cfg.workers
    ensures ValidRun(cfg, run) && Calm(Last(run)) && Last(run).owner == [] && Shape(cfg, Last(run))
    ensures forall v :: 0 <= v < n ==> Row(Last(run), v, false, 0, false)
    ensures forall v :: n <= v < cfg.workers ==> Last(run).tx[v].pc.TxConnecting? && Last(run).rx[v].pc.RxOff? && Last(run).chan[v] == []
  {
    if n == 0 {
      run := Run([Init(cfg)], []);
    } else {
      run := ConnectUpTo(cfg, n - 1);
      var before := Last(run);
      run := ConnectOne(cfg, run, n - 1);
      IdleRowsKept(before, Last(run), n - 1, 0, n - 1);
    }
  }

  /** The untouched rows of other connections stay as they were. */
  lemma {:induction false} IdleRowsKept(s: State, s': State, w: nat, from: nat, below: nat)
    requires OthersSame(s, s', w) && !(from <= w < below)
    requires forall v :: from <= v < below ==> Row(s, v, false, 0, false)
    ensures forall v :: from <= v < below ==> Row(s', v, false, 0, false)
  {
    forall v | from <= v < below
      ensures Row(s', v, false, 0, false)
    {
      assert Row(s, v, false, 0, false);
    }
  }

  lemma {:induction false} ConnectOne(cfg: Config, run: Run, w: nat) returns (longer: Run)
    requires ValidRun(cfg, run) && Calm(Last(run)) && Shape(cfg, Last(run)) && w < cfg.workers
    requires Last(run).tx[w].pc.TxConnecting? && Last(run).rx[w].pc.RxOff? && Last(run).chan[w] == []
    ensures ValidRun(cfg, longer) && Calm(Last(longer)) && Row(Last(longer), w, false, 0, false)
    ensures Last(longer).owner == Last(run).owner && OthersSame(Last(run), Last(longer), w)
  {
    SizesInRun(cfg, run, w);
    longer := Extend(cfg, run, Tx(TxConnect(w)));
    longer := Extend(cfg, longer, Rx(RxCheckDone(w)));
  }

  /** Worker w's connection takes a leg into the receive buffer and then q more in flight. */
  lemma {:induction false} Queue(cfg: Config, run: Run, w: nat, q: nat) returns (longer: Run)
    requires ValidRun(cfg, run) && w < cfg.workers && Calm(Last(run)) && Row(Last(run), w, false, 0, false)
    requires q <= cfg.capacity && |Last(run).owner| + q + 1 <= |cfg.legs|
    ensures ValidRun(cfg, longer) && Calm(Last(longer)) && Row(Last(longer), w, false, q, true)
    ensures OthersSame(Last(run), Last(longer), w)
    ensures Last(longer).owner == Last(run).owner + seq(q + 1, _ => w)
    decreases q
  {
    if q == 0 {
      longer := Dispatch(cfg, run, w, 0, false);
      longer := Push(cfg, longer, w, 0, false);
      longer := Catch(cfg, longer, w, 0);
    } else {
      longer := Queue(cfg, run, w, q - 1);
      longer := Dispatch(cfg, longer, w, q - 1, true);
      longer := Push(cfg, longer, w, q - 1, true);
    }
  }

  /** The first n connections are full: caught, in flight and in the transmit buffer. */
  lemma {:induction false} FillUpTo(cfg: Config, n: nat) returns (run: Run)
    requires ValidConfig(cfg) && n <= cfg.workers && n * (cfg.capacity + 2) <= |cfg.legs|
    ensures ValidRun(cfg, run) && Calm(Last(run)) && Shape(cfg, Last(run))
    ensures |Last(run).owner| == n * (cfg.capacity + 2)
    ensures forall k :: 0 <= k < |Last(run).owner| ==> Last(run).owner[k] < n
    ensures forall v :: n <= v < cfg.workers ==> Row(Last(run), v, false, 0, false)
  {
    if n == 0 {
      run := ConnectUpTo(cfg, cfg.workers);
    } else {
      FullRooms(n, cfg.capacity + 2);
      run := FillUpTo(cfg, n - 1);
      run := FillOne(cfg, run, n - 1);
    }
  }

  lemma {:induction false} FullRooms(n: nat, room: nat)
    requires n > 0
    ensures n * room == (n - 1) * room + room
  {
  }

  lemma {:induction false} FillOne(cfg: Config, run: Run, w: nat) returns (longer: Run)
    requires ValidRun(cfg, run) && Calm(Last(run)) && Shape(cfg, Last(run)) && w < cfg.workers
    requires |Last(run).owner| + cfg.capacity + 2 <= |cfg.legs|
    requires forall v :: w <= v < cfg.workers ==> Row(Last(run), v, false, 0, false)
    ensures ValidRun(cfg, longer) && Calm(Last(longer)) && Shape(cfg, Last(longer))
    ensures Last(longer).owner == Last(run).owner + seq(cfg.capacity + 2, _ => w)
    ensures forall v :: w + 1 <= v < cfg.workers ==> Row(Last(longer), v, false, 0, false)
  {
    longer := Queue(cfg, run, w, cfg.capacity);
    IdleRowsKept(Last(run), Last(longer), w, w + 1, cfg.workers);
    var before := Last(longer);
    longer := Dispatch(cfg, longer, w, cfg.capacity, true);
    IdleRowsKept(before, Last(longer), w, w + 1, cfg.workers);
    assert seq(cfg.capacity + 1, _ => w) + [w] == seq(cfg.capacity + 2, _ => w);
  }

  /** The bound on the reordering window is attained, for every number of workers and
      every capacity, by a caught leg in a reachable state. */
  lemma {:induction false} WindowAttained(cfg: Config) returns (run: Run, w: nat)
    requires ValidConfig(cfg) && cfg.workers >= 1
    requires |cfg.legs| > (cfg.workers - 1) * (cfg.capacity + 2)
    ensures ValidRun(cfg, run) && w < |Last(run).rx| && Last(run).rx[w].pc.RxReading?
    ensures Last(run).rx[w].pkt.legId - Last(run).nextLeg == (cfg.workers - 1) * (cfg.capacity + 2)
  {
    w := cfg.workers - 1;
    run := FillUpTo(cfg, w);
    var k := |Last(run).owner|;
    run := Queue(cfg, run, w, 0);
    RunInv(cfg, run, |run.steps|);
    HolderOwns(cfg, Last(run), w);
    assert Last(run).rx[w].pkt.legId == k;
  }
}
