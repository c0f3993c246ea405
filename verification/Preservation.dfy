/** Every step keeps the invariant. */
module Preservation {
  import opened Bytes
  import opened Wire
  import opened Protocol
  import opened Lines
  import opened Invariants

  // ---------------------------------------------------------------- connections

  lemma {:induction false} ConnsAfterIngest(cfg: Config, s: State, step: IngestStep)
    requires ValidConfig(cfg) && Conns(cfg, s) && IngestOk(cfg, s) && IngestEnabled(cfg, s, step)
    ensures Conns(cfg, IngestApply(cfg, s, step))
  {
    var s' := IngestApply(cfg, s, step);
    forall v | 0 <= v < cfg.workers
      ensures ConnOk(cfg, s'.done, s'.tx[v], s'.chan[v], s'.rx[v])
    {
      assert ConnOk(cfg, s.done, s.tx[v], s.chan[v], s.rx[v]);
    }
  }

  lemma {:induction false} ConnsAfterTx(cfg: Config, s: State, step: TxStep)
    requires ValidConfig(cfg) && Conns(cfg, s) && TxEnabled(cfg, s, step)
    ensures Conns(cfg, TxApply(cfg, s, step))
  {
    var s' := TxApply(cfg, s, step);
    assert Shape(cfg, s');
    forall v | 0 <= v < cfg.workers
      ensures ConnOk(cfg, s'.done, s'.tx[v], s'.chan[v], s'.rx[v])
    {
      assert ConnOk(cfg, s.done, s.tx[v], s.chan[v], s.rx[v]);
      if v == step.w {
        TxMoveOk(cfg, s.tx[v], s.done, step);
      }
    }
  }

  lemma {:induction false} TxMoveOk(cfg: Config, t: TxWorker, done: bool, step: TxStep)
    requires TxOk(cfg, t, done)
    requires
      match step
      case TxConnect(_) => t.pc.TxConnecting?
      case TxFault(_) => t.pc.TxConnecting?
      case TxLook(_) => t.pc.TxTop?
      case TxPreamble(_) => t.pc.TxGo?
      case TxDelay(_) => t.pc.TxAmble?
      case TxArm(_) => t.pc.TxAmble? || t.pc.TxWaiting?
      case TxWrite(_) => t.pc.TxPushing?
      case TxFinish(_) => t.pc.TxPushed?
    ensures TxOk(cfg, TxMove(t, done, step), done)
  {
  }

  lemma {:induction false} ConnsAfterRx(cfg: Config, s: State, step: RxStep)
    requires ValidConfig(cfg) && Conns(cfg, s) && RxEnabled(cfg, s, step)
    ensures Conns(cfg, RxApply(cfg, s, step))
  {
    var s' := RxApply(cfg, s, step);
    assert Shape(cfg, s');
    forall v | 0 <= v < cfg.workers
      ensures ConnOk(cfg, s'.done, s'.tx[v], s'.chan[v], s'.rx[v])
    {
      assert ConnOk(cfg, s.done, s.tx[v], s.chan[v], s.rx[v]);
      if v == step.w {
        RxMoveOk(cfg, s, step);
        RxSideChanges(cfg, s.done, s.tx[v], s.chan[v], s.rx[v], s'.chan[v], s'.rx[v]);
      }
    }
  }

  lemma {:induction false} RxSideChanges(
      cfg: Config, done: bool, t: TxWorker, c: seq<Frame>, r: RxWorker, c': seq<Frame>, r': RxWorker)
    requires ConnOk(cfg, done, t, c, r) && RxOk(cfg, r')
    requires !r.pc.RxOff? && !r'.pc.RxOff?
    requires c' == c || (c != [] && c' == c[1..])
    ensures ConnOk(cfg, done, t, c', r')
  {
  }

  lemma {:induction false} RxMoveOk(cfg: Config, s: State, step: RxStep)
    requires ValidConfig(cfg) && RxEnabled(cfg, s, step) && RxOk(cfg, s.rx[step.w])
    requires step.RxCatch? ==> ChanOk(cfg, s.chan[step.w])
    ensures RxOk(cfg, RxMove(cfg, s, step))
    ensures !s.rx[step.w].pc.RxOff? && !RxMove(cfg, s, step).pc.RxOff?
  {
    var r, r' := s.rx[step.w], RxMove(cfg, s, step);
    if step.RxCatch? {
      assert FrameOk(cfg, s.chan[step.w][0]);
      CatchKeepsRxOk(cfg, r, s.chan[step.w][0], r');
    } else if step.RxRead? {
      ReadKeepsRxOk(cfg, r, step.n, r');
    } else {
      PhaseKeepsRxOk(cfg, r, r');
    }
  }

  lemma {:induction false} CatchKeepsRxOk(cfg: Config, r: RxWorker, f: Frame, r': RxWorker)
    requires ValidConfig(cfg) && RxOk(cfg, r) && FrameOk(cfg, f)
    requires r' == r.(pc := if f.pkt.size == 0 then RxLocking else RxReading,
                      pkt := f.pkt, unread := f.payload, cursor := 0, wrote := 0)
    ensures RxOk(cfg, r')
  {
    assert r'.buffer[..0] + r'.unread == r'.unread;
  }

  lemma {:induction false} ReadKeepsRxOk(cfg: Config, r: RxWorker, n: nat, r': RxWorker)
    requires RxOk(cfg, r) && r.pc.RxReading? && 1 <= n <= |r.unread|
    requires r' == r.(pc := if n == |r.unread| then RxLocking else RxReading,
                      unread := r.unread[n..],
                      cursor := r.cursor + n,
                      buffer := Overwrite(r.buffer, r.cursor, r.unread[..n]))
    ensures RxOk(cfg, r')
  {
    ReadKeepsPayload(cfg, r, n);
  }

  /** The other steps of a receive worker leave its leg alone. */
  lemma {:induction false} PhaseKeepsRxOk(cfg: Config, r: RxWorker, r': RxWorker)
    requires RxOk(cfg, r) && r'.buffer == r.buffer && r'.pkt == r.pkt
    requires Waiting(r') ==> Waiting(r) && r'.wrote == r.wrote
    requires Critical(r') ==> Waiting(r) || Critical(r)
    requires Critical(r') ==> r'.wrote <= r.pkt.size
    requires Critical(r') && !r'.pc.RxWriting? ==> r'.wrote == r.pkt.size
    requires r'.pc.RxReading? ==> false
    requires r'.pc.RxSummed? ==> r.pkt.opcode.FeedMore?
    requires r'.pc.RxDropped? ==> r.pc.RxReading? || r.pc.RxDropped?
    ensures RxOk(cfg, r')
  {
  }

  /** A read moves bytes from the connection to the buffer without changing the leg. */
  lemma {:induction false} ReadKeepsPayload(cfg: Config, r: RxWorker, n: nat)
    requires RxOk(cfg, r) && r.pc.RxReading? && 1 <= n <= |r.unread|
    ensures
      var buffer := Overwrite(r.buffer, r.cursor, r.unread[..n]);
      && |buffer| == cfg.foot
      && buffer[..r.cursor + n] + r.unread[n..] == Payload(cfg, r.pkt.legId)
  {
    var buffer := Overwrite(r.buffer, r.cursor, r.unread[..n]);
    assert buffer[..r.cursor + n] == r.buffer[..r.cursor] + r.unread[..n];
  }

  // ---------------------------------------------------------------- lines

  lemma {:induction false} PlacedAfterIngest(cfg: Config, s: State, step: IngestStep)
    requires ValidConfig(cfg) && Conns(cfg, s) && Placed(cfg, s) && IngestOk(cfg, s)
    requires IngestEnabled(cfg, s, step)
    ensures Placed(cfg, IngestApply(cfg, s, step))
  {
    var s' := IngestApply(cfg, s, step);
    var lines, lines' := AllLines(cfg, s), AllLines(cfg, s');
    if step.IngestStart? || step.IngestShutStart? {
      var w := s.ingest.w;
      assert TxIds(s.tx[w]) == [] && TxIds(s'.tx[w]) == [|s.owner|];
      assert lines'[w] == lines[w] + [|s.owner|];
      assert lines' == lines[w := lines[w] + [|s.owner|]];
      Join(lines, s.nextLeg, s.owner, w);
    } else {
      forall v | 0 <= v < cfg.workers
        ensures lines'[v] == lines[v]
      {
        assert TxIds(s'.tx[v]) == TxIds(s.tx[v]);
      }
      assert lines' == lines;
    }
  }

  lemma {:induction false} PlacedAfterTx(cfg: Config, s: State, step: TxStep)
    requires ValidConfig(cfg) && Conns(cfg, s) && Placed(cfg, s) && TxEnabled(cfg, s, step)
    ensures Placed(cfg, TxApply(cfg, s, step))
  {
    var s' := TxApply(cfg, s, step);
    var lines, lines' := AllLines(cfg, s), AllLines(cfg, s');
    forall v | 0 <= v < cfg.workers
      ensures lines'[v] == lines[v]
    {
      assert ConnOk(cfg, s.done, s.tx[v], s.chan[v], s.rx[v]);
      if v == step.w {
        LineAfterTx(cfg, s, step);
      }
    }
    assert lines' == lines;
  }

  /** A write moves a leg from the transmit buffer to the connection; nothing else moves. */
  lemma {:induction false} LineAfterTx(cfg: Config, s: State, step: TxStep)
    requires ValidConfig(cfg) && Shape(cfg, s) && TxEnabled(cfg, s, step)
    requires TxPhase(cfg, s.tx[step.w])
    ensures
      var w, s' := step.w, TxApply(cfg, s, step);
      LineOf(s'.tx[w], s'.chan[w], s'.rx[w]) == LineOf(s.tx[w], s.chan[w], s.rx[w])
  {
    var w, s' := step.w, TxApply(cfg, s, step);
    assert RxIds(s'.rx[w]) == RxIds(s.rx[w]);
    if step.TxWrite? {
      assert ChanIds(s'.chan[w]) + TxIds(s'.tx[w]) == ChanIds(s.chan[w]) + TxIds(s.tx[w]);
    } else {
      assert TxIds(s'.tx[w]) == TxIds(s.tx[w]);
    }
  }

  lemma {:induction false} PlacedAfterRx(cfg: Config, s: State, step: RxStep)
    requires ValidConfig(cfg) && Placed(cfg, s) && RxEnabled(cfg, s, step)
    requires step.RxBump? ==> s.rx[step.w].pkt.legId == s.nextLeg
    ensures Placed(cfg, RxApply(cfg, s, step))
  {
    LinesAfterRx(cfg, s, step);
    if step.RxBump? {
      Leave(AllLines(cfg, s), s.nextLeg, s.owner, step.w);
    }
  }

  lemma {:induction false} LinesAfterRx(cfg: Config, s: State, step: RxStep)
    requires ValidConfig(cfg) && Shape(cfg, s) && RxEnabled(cfg, s, step)
    ensures
      var w, s' := step.w, RxApply(cfg, s, step);
      var lines := AllLines(cfg, s);
      Shape(cfg, s') &&
      if step.RxBump? then
        && lines[w] != [] && lines[w][0] == s.rx[w].pkt.legId
        && AllLines(cfg, s') == lines[w := lines[w][1..]]
      else AllLines(cfg, s') == lines
  {
    var s' := RxApply(cfg, s, step);
    var w := step.w;
    var lines, lines' := AllLines(cfg, s), AllLines(cfg, s');
    forall v | 0 <= v < cfg.workers && v != w
      ensures lines'[v] == lines[v]
    {
      assert RxIds(s'.rx[v]) == RxIds(s.rx[v]);
    }
    if step.RxBump? {
      assert RxIds(s.rx[w]) == [s.rx[w].pkt.legId] && RxIds(s'.rx[w]) == [];
      assert lines'[w] == lines[w][1..];
    } else {
      LineAfterRx(cfg, s, step);
    }
  }

  /** Catching a header moves a leg from the connection to the receive buffer; only the
      increment of next_leg lets go of it. */
  lemma {:induction false} LineAfterRx(cfg: Config, s: State, step: RxStep)
    requires ValidConfig(cfg) && Shape(cfg, s) && RxEnabled(cfg, s, step) && !step.RxBump?
    ensures
      var w, s' := step.w, RxApply(cfg, s, step);
      LineOf(s'.tx[w], s'.chan[w], s'.rx[w]) == LineOf(s.tx[w], s.chan[w], s.rx[w])
  {
    var w, s' := step.w, RxApply(cfg, s, step);
    if step.RxCatch? {
      assert RxIds(s'.rx[w]) + ChanIds(s'.chan[w]) == RxIds(s.rx[w]) + ChanIds(s.chan[w]);
    } else {
      assert RxIds(s'.rx[w]) == RxIds(s.rx[w]);
    }
  }

  /** Two receive workers never hold the same leg. */
  lemma {:induction false} SoleHolder(cfg: Config, s: State, v: nat, w: nat)
    requires Placed(cfg, s) && v < cfg.workers && w < cfg.workers
    requires RxHolds(s.rx[v]) && RxHolds(s.rx[w]) && s.rx[v].pkt.legId == s.rx[w].pkt.legId
    ensures v == w
  {
    var lines := AllLines(cfg, s);
    assert lines[v][0] == s.rx[v].pkt.legId;
    assert lines[w][0] == s.rx[w].pkt.legId;
    OnePlace(lines, s.nextLeg, s.owner, v, 0, w, 0);
  }

  // ---------------------------------------------------------------- ingest

  lemma {:induction false} IngestOkAfterIngest(cfg: Config, s: State, step: IngestStep)
    requires ValidConfig(cfg) && Conns(cfg, s) && IngestOk(cfg, s) && IngestEnabled(cfg, s, step)
    ensures IngestOk(cfg, IngestApply(cfg, s, step))
  {
    if !step.IngestExit? {
      var w := if step.IngestPick? then step.w else s.ingest.w;
      assert ConnOk(cfg, s.done, s.tx[w], s.chan[w], s.rx[w]);
    }
  }

  lemma {:induction false} IngestOkAfterTx(cfg: Config, s: State, step: TxStep)
    requires ValidConfig(cfg) && Conns(cfg, s) && IngestOk(cfg, s) && TxEnabled(cfg, s, step)
    ensures IngestOk(cfg, TxApply(cfg, s, step))
  {
    if !s.ingest.InTop? && !s.ingest.InFinished? {
      var w := s.ingest.w;
      if step.w == w {
        assert step.TxLook?;
      } else {
        assert TxApply(cfg, s, step).tx[w] == s.tx[w];
      }
    }
  }

  // ---------------------------------------------------------------- sequencer

  /** Steps that leave every receive worker where the sequencer can see no difference. */
  lemma {:induction false} SequencerUntouched(cfg: Config, s: State, s': State)
    requires Shape(cfg, s) && Shape(cfg, s')
    requires MutexOk(s) && OutputOk(cfg, s) && WakeOk(s) && DoneOk(cfg, s)
    requires s'.mutex == s.mutex && s'.nextLeg == s.nextLeg && s'.output == s.output && s'.doneMbox == s.doneMbox
    requires s'.owner == s.owner || (!s.doneMbox && s.owner <= s'.owner)
    requires forall v :: 0 <= v < cfg.workers ==>
               s'.rx[v] == s.rx[v] || (s.rx[v].pc.RxOff? && s'.rx[v].pc.RxTop?)
    ensures MutexOk(s') && OutputOk(cfg, s') && WakeOk(s') && DoneOk(cfg, s')
  {
    assert forall v :: 0 <= v < cfg.workers ==> (Critical(s'.rx[v]) <==> Critical(s.rx[v]));
    forall w | 0 <= w < |s'.rx| && s'.rx[w].pc.RxAsleep? && s'.rx[w].pkt.legId == s'.nextLeg
      ensures exists v :: 0 <= v < |s'.rx| && s'.rx[v].pc.RxCasting?
    {
      assert s.rx[w] == s'.rx[w];
      var v :| 0 <= v < |s.rx| && s.rx[v].pc.RxCasting?;
      assert s'.rx[v].pc.RxCasting?;
    }
  }

  lemma {:induction false} MutexAfterRx(cfg: Config, s: State, step: RxStep)
    requires Shape(cfg, s) && MutexOk(s) && RxEnabled(cfg, s, step)
    ensures MutexOk(RxApply(cfg, s, step))
  {
    var s' := RxApply(cfg, s, step);
    forall v | 0 <= v < |s'.rx|
      ensures HasMutex(s'.rx[v]) <==> s'.mutex == Held(v)
    {
      assert HasMutex(s.rx[v]) <==> s.mutex == Held(v);
    }
  }

  lemma {:induction false} WakeAfterRx(cfg: Config, s: State, step: RxStep)
    requires Shape(cfg, s) && MutexOk(s) && WakeOk(s) && RxEnabled(cfg, s, step)
    ensures WakeOk(RxApply(cfg, s, step))
  {
    var s', w := RxApply(cfg, s, step), step.w;
    if step.RxCast? {
      assert forall v :: 0 <= v < |s'.rx| ==> !s'.rx[v].pc.RxAsleep?;
    } else if step.RxBump? {
      assert s'.rx[w].pc.RxCasting?;
      assert forall v :: 0 <= v < |s'.rx| ==> !HasMutex(s.rx[v]);
    } else {
      forall v | 0 <= v < |s'.rx| && s'.rx[v].pc.RxAsleep? && s'.rx[v].pkt.legId == s'.nextLeg
        ensures exists u :: 0 <= u < |s'.rx| && s'.rx[u].pc.RxCasting?
      {
        assert v != w;
        var u :| 0 <= u < |s.rx| && s.rx[u].pc.RxCasting?;
        assert u != w && s'.rx[u].pc.RxCasting?;
      }
    }
  }

  /** While a worker holds the next leg, nobody else is admitted. */
  lemma {:induction false} SoleCritical(cfg: Config, s: State, w: nat)
    requires Placed(cfg, s) && OutputOk(cfg, s) && w < cfg.workers
    requires RxHolds(s.rx[w]) && s.rx[w].pkt.legId == s.nextLeg
    ensures forall v :: 0 <= v < cfg.workers && Critical(s.rx[v]) ==> v == w
  {
    forall v | 0 <= v < cfg.workers && Critical(s.rx[v])
      ensures v == w
    {
      SoleHolder(cfg, s, v, w);
    }
  }

  lemma {:induction false} DeliveredStep(cfg: Config, k: nat)
    ensures Delivered(cfg, k + 1) == Delivered(cfg, k) + Payload(cfg, k)
  {
    if k < |cfg.legs| {
      FlattenTake(cfg.legs, k);
    }
  }

  lemma {:induction false} OutputAfterRx(cfg: Config, s: State, step: RxStep)
    requires Conns(cfg, s) && Placed(cfg, s) && OutputOk(cfg, s) && RxEnabled(cfg, s, step)
    ensures OutputOk(cfg, RxApply(cfg, s, step))
  {
    var s', w := RxApply(cfg, s, step), step.w;
    assert ConnOk(cfg, s.done, s.tx[w], s.chan[w], s.rx[w]);
    if step.RxCompare? && s.rx[w].pkt.legId == s.nextLeg {
      SoleCritical(cfg, s, w);
      OutputAdmits(cfg, s, s', w);
    } else if step.RxAppend? {
      SoleCritical(cfg, s, w);
      OutputGrows(cfg, s, s', w, step.n);
    } else if step.RxBump? {
      SoleCritical(cfg, s, w);
      OutputAdvances(cfg, s, s', w);
    } else {
      OutputSame(cfg, s, step);
    }
  }

  lemma {:induction false} OutputSame(cfg: Config, s: State, step: RxStep)
    requires OutputOk(cfg, s) && RxEnabled(cfg, s, step) && !step.RxAppend? && !step.RxBump?
    requires step.RxCompare? ==> s.rx[step.w].pkt.legId != s.nextLeg
    ensures OutputOk(cfg, RxApply(cfg, s, step))
  {
    var s' := RxApply(cfg, s, step);
    forall v | 0 <= v < |s.rx|
      ensures Critical(s'.rx[v]) <==> Critical(s.rx[v])
      ensures Critical(s.rx[v]) ==> s'.rx[v].pkt == s.rx[v].pkt && s'.rx[v].wrote == s.rx[v].wrote
    {
    }
  }

  lemma {:induction false} OutputAdmits(cfg: Config, s: State, s': State, w: nat)
    requires OutputOk(cfg, s) && w < |s.rx| && RxOk(cfg, s.rx[w]) && s.rx[w].pc.RxHolding?
    requires forall v :: 0 <= v < |s.rx| && Critical(s.rx[v]) ==> v == w
    requires s.rx[w].pkt.legId == s.nextLeg
    requires s'.rx == s.rx[w := s.rx[w].(pc := RxWriting)] && s'.output == s.output && s'.nextLeg == s.nextLeg
    ensures OutputOk(cfg, s')
  {
  }

  lemma {:induction false} OutputGrows(cfg: Config, s: State, s': State, w: nat, n: nat)
    requires OutputOk(cfg, s) && w < |s.rx| && RxOk(cfg, s.rx[w]) && s.rx[w].pc.RxWriting?
    requires forall v :: 0 <= v < |s.rx| && Critical(s.rx[v]) ==> v == w
    requires s.rx[w].wrote + n <= s.rx[w].pkt.size
    requires s'.rx == s.rx[w := s.rx[w].(wrote := s.rx[w].wrote + n)] && s'.nextLeg == s.nextLeg
    requires s'.output == s.output + s.rx[w].buffer[s.rx[w].wrote..s.rx[w].wrote + n]
    ensures OutputOk(cfg, s')
  {
    var r, leg := s.rx[w], Payload(cfg, s.nextLeg);
    assert r.buffer[r.wrote..r.wrote + n] == leg[r.wrote..r.wrote + n] by {
      assert r.buffer[..r.pkt.size][r.wrote..r.wrote + n] == r.buffer[r.wrote..r.wrote + n];
    }
    assert leg[..r.wrote] + leg[r.wrote..r.wrote + n] == leg[..r.wrote + n];
    assert Critical(s'.rx[w]);
  }

  lemma {:induction false} OutputAdvances(cfg: Config, s: State, s': State, w: nat)
    requires OutputOk(cfg, s) && w < |s.rx| && RxOk(cfg, s.rx[w]) && s.rx[w].pc.RxBumping?
    requires forall v :: 0 <= v < |s.rx| && Critical(s.rx[v]) ==> v == w
    requires s'.rx == s.rx[w := s.rx[w].(pc := RxCasting)] && s'.output == s.output && s'.nextLeg == s.nextLeg + 1
    ensures OutputOk(cfg, s')
  {
    DeliveredStep(cfg, s.nextLeg);
    var leg := Payload(cfg, s.nextLeg);
    assert leg[..|leg|] == leg;
  }

  lemma {:induction false} DoneAfterRx(cfg: Config, s: State, step: RxStep)
    requires Conns(cfg, s) && Placed(cfg, s) && OutputOk(cfg, s) && DoneOk(cfg, s) && IngestOk(cfg, s)
    requires RxEnabled(cfg, s, step)
    ensures DoneOk(cfg, RxApply(cfg, s, step))
  {
    var w := step.w;
    assert ConnOk(cfg, s.done, s.tx[w], s.chan[w], s.rx[w]);
    if RxHolds(s.rx[w]) {
      HolderOwns(cfg, s, w);
    }
    DoneAfterMove(cfg, s, step);
  }

  lemma {:induction false} DoneAfterMove(cfg: Config, s: State, step: RxStep)
    requires DoneOk(cfg, s) && RxEnabled(cfg, s, step) && RxOk(cfg, s.rx[step.w])
    requires s.nextLeg <= |s.owner| <= |cfg.legs| + 1
    requires Critical(s.rx[step.w]) ==>
               s.rx[step.w].pkt.legId == s.nextLeg < |s.owner| && s.owner[s.nextLeg] == step.w
    ensures DoneOk(cfg, RxApply(cfg, s, step))
  {
    var s', w := RxApply(cfg, s, step), step.w;
    forall v | 0 <= v < |s.rx|
      ensures v != w ==> (s'.rx[v].pc.RxBumping? <==> s.rx[v].pc.RxBumping?) && s'.rx[v].pkt == s.rx[v].pkt
      ensures v != w ==> (s'.rx[v].pc.RxExited? <==> s.rx[v].pc.RxExited?)
      ensures v != w && Leaving(s.rx[v]) ==> Leaving(s'.rx[v])
    {
    }
    assert s'.rx[w].pc.RxBumping? && s'.rx[w].pkt.legId == |cfg.legs| ==> s'.doneMbox;
    assert s'.rx[w].pc.RxExited? ==> s'.doneMbox;
    assert s.rx[w].pc.RxBumping? ==> step.RxBump?;
    assert Leaving(s.rx[w]) && s.doneMbox ==> Leaving(s'.rx[w]);
  }

  /** A leg in a transmit buffer is outstanding. */
  lemma {:induction false} HeldOutstanding(cfg: Config, s: State, w: nat)
    requires Placed(cfg, s) && w < cfg.workers && TxHolds(s.tx[w])
    ensures s.nextLeg <= s.tx[w].pkt.legId < |s.owner|
  {
    var line := AllLines(cfg, s)[w];
    assert LineOk(line, w, s.nextLeg, s.owner);
    assert line[|line| - 1] == s.tx[w].pkt.legId;
  }

  lemma {:induction false} HolderOwns(cfg: Config, s: State, w: nat)
    requires Placed(cfg, s) && w < cfg.workers && RxHolds(s.rx[w])
    ensures s.nextLeg <= s.rx[w].pkt.legId < |s.owner| && s.owner[s.rx[w].pkt.legId] == w
  {
    var lines := AllLines(cfg, s);
    assert LineOk(lines[w], w, s.nextLeg, s.owner);
    assert lines[w][0] == s.rx[w].pkt.legId;
  }

  // ---------------------------------------------------------------- service and crashes

  lemma {:induction false} ServedAfterIngest(cfg: Config, s: State, step: IngestStep)
    requires Conns(cfg, s) && IngestOk(cfg, s) && Served(s) && IngestEnabled(cfg, s, step)
    ensures Served(IngestApply(cfg, s, step))
  {
    if step.IngestStart? || step.IngestShutStart? {
      var w := s.ingest.w;
      assert ConnOk(cfg, s.done, s.tx[w], s.chan[w], s.rx[w]);
    }
  }

  /** A connection once made is never unmade. */
  lemma {:induction false} ServedKept(s: State, s': State)
    requires Served(s) && s'.owner == s.owner && |s'.rx| == |s.rx|
    requires forall v :: 0 <= v < |s.rx| && !s.rx[v].pc.RxOff? ==> !s'.rx[v].pc.RxOff?
    ensures Served(s')
  {
  }

  lemma {:induction false} RxStaysOn(cfg: Config, s: State, step: RxStep)
    requires RxEnabled(cfg, s, step)
    ensures forall v :: 0 <= v < |s.rx| && !s.rx[v].pc.RxOff? ==> !RxApply(cfg, s, step).rx[v].pc.RxOff?
    ensures CrashOk(s) && !s.crashed ==> CrashOk(RxApply(cfg, s, step))
  {
    var s' := RxApply(cfg, s, step);
    if s'.crashed && !s.crashed {
      assert s'.rx[step.w].pc.RxSummed?;
    }
  }

  // ---------------------------------------------------------------- all together

  lemma {:induction false} StepInv(cfg: Config, s: State, step: Step, s': State)
    requires Inv(cfg, s) && Moves(cfg, s, step, s')
    ensures Inv(cfg, s')
  {
    match step
    case Ingest(i) => IngestStepInv(cfg, s, i);
    case Tx(t) => TxStepInv(cfg, s, t);
    case Rx(r) => RxStepInv(cfg, s, r);
  }

  lemma {:induction false} IngestStepInv(cfg: Config, s: State, step: IngestStep)
    requires ValidConfig(cfg) && Inv(cfg, s) && !s.crashed && IngestEnabled(cfg, s, step)
    ensures Inv(cfg, IngestApply(cfg, s, step))
  {
    ConnsAfterIngest(cfg, s, step);
    PlacedAfterIngest(cfg, s, step);
    IngestOkAfterIngest(cfg, s, step);
    SequencerUntouched(cfg, s, IngestApply(cfg, s, step));
    ServedAfterIngest(cfg, s, step);
  }

  lemma {:induction false} TxStepInv(cfg: Config, s: State, step: TxStep)
    requires ValidConfig(cfg) && Inv(cfg, s) && !s.crashed && TxEnabled(cfg, s, step)
    ensures Inv(cfg, TxApply(cfg, s, step))
  {
    ConnsAfterTx(cfg, s, step);
    PlacedAfterTx(cfg, s, step);
    IngestOkAfterTx(cfg, s, step);
    TxSparesSequencer(cfg, s, step);
    assert ConnOk(cfg, s.done, s.tx[step.w], s.chan[step.w], s.rx[step.w]);
    TxServes(cfg, s, step);
  }

  lemma {:induction false} TxSparesSequencer(cfg: Config, s: State, step: TxStep)
    requires ValidConfig(cfg) && Shape(cfg, s) && TxEnabled(cfg, s, step)
    requires MutexOk(s) && OutputOk(cfg, s) && WakeOk(s) && DoneOk(cfg, s)
    ensures
      var s' := TxApply(cfg, s, step);
      MutexOk(s') && OutputOk(cfg, s') && WakeOk(s') && DoneOk(cfg, s')
  {
    SequencerUntouched(cfg, s, TxApply(cfg, s, step));
  }

  lemma {:induction false} TxServes(cfg: Config, s: State, step: TxStep)
    requires ValidConfig(cfg) && TxEnabled(cfg, s, step) && TxPhase(cfg, s.tx[step.w])
    requires Served(s) && !s.crashed
    ensures Served(TxApply(cfg, s, step)) && !TxApply(cfg, s, step).crashed
  {
    ServedKept(s, TxApply(cfg, s, step));
  }

  lemma {:induction false} RxStepInv(cfg: Config, s: State, step: RxStep)
    requires ValidConfig(cfg) && Inv(cfg, s) && !s.crashed && RxEnabled(cfg, s, step)
    ensures Inv(cfg, RxApply(cfg, s, step))
  {
    ConnsAfterRx(cfg, s, step);
    PlacedAfterRx(cfg, s, step);
    MutexAfterRx(cfg, s, step);
    OutputAfterRx(cfg, s, step);
    WakeAfterRx(cfg, s, step);
    DoneAfterRx(cfg, s, step);
    RxStaysOn(cfg, s, step);
    ServedKept(s, RxApply(cfg, s, step));
  }
}
