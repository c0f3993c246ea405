/** What holds in every state of every run. */
module Invariants {
  import opened Bytes
  import opened Wire
  import opened Protocol
  import opened Lines

  // ---------------------------------------------------------------- one connection

  /** A header that describes the leg it names. */
  ghost predicate HeaderOk(cfg: Config, pkt: Packet) {
    && pkt.legId <= |cfg.legs|
    && pkt.size == |Payload(cfg, pkt.legId)|
    && pkt.opcode == OpcodeOf(cfg, pkt.legId)
    && pkt.checksum < U32
  }

  ghost predicate FrameOk(cfg: Config, f: Frame) {
    HeaderOk(cfg, f.pkt) && f.payload == Payload(cfg, f.pkt.legId)
  }

  /** The transmit worker has a leg that is not yet on the connection. */
  ghost predicate TxHolds(t: TxWorker) {
    t.state.StDispatched? || t.pc.TxGo? || t.pc.TxAmble? || t.pc.TxWaiting? || t.pc.TxPushing?
  }

  /** The transmit worker has left the top of its loop with a leg. */
  ghost predicate Sending(t: TxWorker) {
    t.pc.TxGo? || t.pc.TxAmble? || t.pc.TxWaiting? || t.pc.TxPushing? || t.pc.TxPushed?
  }

  /** The buffer of a transmit worker starts with the payload its header announces. */
  ghost predicate Loaded(cfg: Config, t: TxWorker) {
    && HeaderOk(cfg, t.pkt)
    && t.pkt.size <= |t.buffer|
    && t.buffer[..t.pkt.size] == Payload(cfg, t.pkt.legId)
  }

  /** The published state of a worker tells where its thread is. */
  ghost predicate TxPhase(cfg: Config, t: TxWorker) {
    match t.pc
    case TxConnecting => t.state.StConnecting? && !t.localDone
    case TxTop => (t.state.StIdle? || t.state.StDispatched?) && !t.localDone
    case TxGo => t.state.StDispatched?
    case TxAmble => t.state.StPreamble?
    case TxWaiting => t.state.StWaiting?
    case TxPushing => t.state.StPushing?
    case TxPushed => t.state.StPushing?
    case TxExited => (t.state.StIdle? || (t.state.StDispatched? && t.pkt.legId == |cfg.legs|)) && t.localDone
    case TxFaulted => t.state.StFaulted? && !t.localDone
  }

  ghost predicate TxOk(cfg: Config, t: TxWorker, done: bool) {
    && |t.buffer| == cfg.foot
    && t.pkt.checksum < U32
    && TxPhase(cfg, t)
    && (t.localDone ==> done)
    && (TxHolds(t) ==> Loaded(cfg, t))
    && (t.state.StDispatched? && t.pkt.legId == |cfg.legs| ==> done)
    && (Sending(t) && t.pkt.legId == |cfg.legs| ==> t.localDone)
  }

  /** The receive worker has taken a leg off its connection and not yet passed it on. */
  ghost predicate RxHolds(r: RxWorker) {
    r.pc.RxReading? || Waiting(r) || Critical(r) || r.pc.RxDropped?
  }

  /** Between taking the sequencer mutex and letting go of it. */
  ghost predicate HasMutex(r: RxWorker) {
    r.pc.RxHolding? || r.pc.RxParking?
  }

  /** In the sequencer, not yet admitted. */
  ghost predicate Waiting(r: RxWorker) {
    r.pc.RxLocking? || HasMutex(r) || r.pc.RxAsleep? || r.pc.RxWoken?
  }

  /** Between its admission by the sequencer and the increment of next_leg. */
  ghost predicate Critical(r: RxWorker) {
    r.pc.RxWriting? || r.pc.RxWritten? || r.pc.RxSummed? || r.pc.RxBumping?
  }

  ghost predicate RxOk(cfg: Config, r: RxWorker) {
    && |r.buffer| == cfg.foot
    && (RxHolds(r) ==> HeaderOk(cfg, r.pkt))
    && (r.pc.RxReading? ==>
          && r.unread != []
          && r.cursor + |r.unread| == r.pkt.size <= cfg.foot
          && r.buffer[..r.cursor] + r.unread == Payload(cfg, r.pkt.legId)
          && r.wrote == 0)
    && (Waiting(r) || Critical(r) ==>
          && r.wrote <= r.pkt.size <= cfg.foot
          && r.buffer[..r.pkt.size] == Payload(cfg, r.pkt.legId))
    && (Waiting(r) ==> r.wrote == 0)
    && (Critical(r) && !r.pc.RxWriting? ==> r.wrote == r.pkt.size)
    && (r.pc.RxSummed? || r.pc.RxDropped? ==> r.pkt.legId < |cfg.legs|)
  }

  ghost predicate ChanOk(cfg: Config, c: seq<Frame>) {
    && |c| <= cfg.capacity
    && forall i :: 0 <= i < |c| ==> FrameOk(cfg, c[i])
  }

  ghost predicate ConnOk(cfg: Config, done: bool, t: TxWorker, c: seq<Frame>, r: RxWorker) {
    && TxOk(cfg, t, done)
    && ChanOk(cfg, c)
    && RxOk(cfg, r)
    && (r.pc.RxOff? <==> t.pc.TxConnecting? || t.pc.TxFaulted?)
    && (r.pc.RxOff? ==> c == [])
  }

  ghost predicate Shape(cfg: Config, s: State) {
    |s.tx| == |s.chan| == |s.rx| == cfg.workers
  }

  ghost predicate Conns(cfg: Config, s: State) {
    && Shape(cfg, s)
    && forall w :: 0 <= w < cfg.workers ==> ConnOk(cfg, s.done, s.tx[w], s.chan[w], s.rx[w])
  }

  // ---------------------------------------------------------------- legs along the connections

  ghost function TxIds(t: TxWorker): seq<nat> {
    if TxHolds(t) then [t.pkt.legId] else []
  }

  ghost function ChanIds(c: seq<Frame>): (ids: seq<nat>)
    ensures |ids| == |c|
  {
    seq(|c|, i requires 0 <= i < |c| => c[i].pkt.legId)
  }

  ghost function RxIds(r: RxWorker): seq<nat> {
    if RxHolds(r) then [r.pkt.legId] else []
  }

  /** The legs of one connection, from the receive buffer back to the transmit buffer. */
  ghost function LineOf(t: TxWorker, c: seq<Frame>, r: RxWorker): seq<nat> {
    RxIds(r) + ChanIds(c) + TxIds(t)
  }

  ghost function AllLines(cfg: Config, s: State): (lines: seq<seq<nat>>)
    requires Shape(cfg, s)
    ensures |lines| == cfg.workers
    ensures forall w :: 0 <= w < cfg.workers ==> lines[w] == LineOf(s.tx[w], s.chan[w], s.rx[w])
  {
    seq(cfg.workers, w requires 0 <= w < cfg.workers => LineOf(s.tx[w], s.chan[w], s.rx[w]))
  }

  ghost predicate Placed(cfg: Config, s: State) {
    Shape(cfg, s) && LinesOk(AllLines(cfg, s), s.nextLeg, s.owner)
  }

  // ---------------------------------------------------------------- ingest

  /** A worker whose buffer ingest may fill: idle, and its thread at the top of its loop. */
  ghost predicate Ready(t: TxWorker) {
    t.state.StIdle? && t.pc.TxTop?
  }

  ghost predicate IngestOk(cfg: Config, s: State) {
    && |s.owner| <= |cfg.legs| + 1
    && (s.done <==> s.ingest.InShutting? || s.ingest.InShutPacked? || |s.owner| == |cfg.legs| + 1)
    && match s.ingest
       case InTop => true
       case InFinished => |s.owner| == |cfg.legs| + 1
       case InPicked(w) => w < |s.tx| && Ready(s.tx[w]) && |s.owner| <= |cfg.legs|
       case InFilled(w) =>
         && w < |s.tx| && Ready(s.tx[w]) && |s.owner| < |cfg.legs|
         && cfg.legs[|s.owner|] <= s.tx[w].buffer
       case InPacked(w) =>
         && w < |s.tx| && Ready(s.tx[w]) && |s.owner| < |cfg.legs|
         && s.tx[w].pkt.legId == |s.owner| && Loaded(cfg, s.tx[w])
       case InShutting(w) =>
         && w < |s.tx| && s.tx[w].state.StIdle? && (s.tx[w].pc.TxTop? || s.tx[w].pc.TxExited?)
         && |s.owner| == |cfg.legs|
       case InShutPacked(w) =>
         && w < |s.tx| && s.tx[w].state.StIdle? && (s.tx[w].pc.TxTop? || s.tx[w].pc.TxExited?)
         && |s.owner| == |cfg.legs| && s.tx[w].pkt.legId == |s.owner| && Loaded(cfg, s.tx[w])
  }

  // ---------------------------------------------------------------- sequencer

  ghost predicate MutexOk(s: State) {
    && (s.mutex.Held? ==> s.mutex.w < |s.rx|)
    && forall w :: 0 <= w < |s.rx| ==> (HasMutex(s.rx[w]) <==> s.mutex == Held(w))
  }

  /** Everything in the legs before k. */
  ghost function Delivered(cfg: Config, k: nat): seq<byte> {
    Flatten(cfg.legs[..Min(k, |cfg.legs|)])
  }

  /** The output is the legs before next_leg plus what the admitted worker has copied. */
  ghost predicate OutputOk(cfg: Config, s: State) {
    && (forall w :: 0 <= w < |s.rx| && Critical(s.rx[w]) ==>
          && s.rx[w].pkt.legId == s.nextLeg
          && s.rx[w].wrote <= |Payload(cfg, s.nextLeg)|
          && s.output == Delivered(cfg, s.nextLeg) + Payload(cfg, s.nextLeg)[..s.rx[w].wrote])
    && ((forall w :: 0 <= w < |s.rx| ==> !Critical(s.rx[w])) ==> s.output == Delivered(cfg, s.nextLeg))
  }

  /** No wakeup is lost: a worker about to wait has another leg ahead of it, and a sleeper
      whose turn it is has a broadcast coming. */
  ghost predicate WakeOk(s: State) {
    && (forall w :: 0 <= w < |s.rx| && s.rx[w].pc.RxParking? ==> s.rx[w].pkt.legId != s.nextLeg)
    && forall w :: 0 <= w < |s.rx| && s.rx[w].pc.RxAsleep? && s.rx[w].pkt.legId == s.nextLeg ==>
      exists v :: 0 <= v < |s.rx| && s.rx[v].pc.RxCasting?
  }

  /** On the way from the increment to the end of the receive loop. */
  ghost predicate Leaving(r: RxWorker) {
    r.pc.RxCasting? || r.pc.RxTop? || r.pc.RxExited?
  }

  /** done_mbox is raised by the end leg, after its admission and before its increment; the
      worker that carried it then leaves. */
  ghost predicate DoneOk(cfg: Config, s: State) {
    && (s.doneMbox ==> |s.owner| == |cfg.legs| + 1 && s.nextLeg >= |cfg.legs|)
    && (s.doneMbox && s.nextLeg == |cfg.legs| ==>
          s.owner[s.nextLeg] < |s.rx| && s.rx[s.owner[s.nextLeg]].pc.RxBumping?)
    && (s.nextLeg == |cfg.legs| + 1 ==> s.doneMbox)
    && (s.nextLeg == |cfg.legs| + 1 ==>
          |s.owner| == s.nextLeg && s.owner[|cfg.legs|] < |s.rx| && Leaving(s.rx[s.owner[|cfg.legs|]]))
    && (forall w :: 0 <= w < |s.rx| && s.rx[w].pc.RxBumping? && s.rx[w].pkt.legId == |cfg.legs| ==> s.doneMbox)
    && (forall w :: 0 <= w < |s.rx| && s.rx[w].pc.RxExited? ==> s.doneMbox)
  }

  /** Legs are only ever given to workers that have connected. */
  ghost predicate Served(s: State) {
    forall k :: 0 <= k < |s.owner| ==> s.owner[k] < |s.rx| && !s.rx[s.owner[k]].pc.RxOff?
  }

  /** Only a checksum comparison ends the process. */
  ghost predicate CrashOk(s: State) {
    s.crashed ==> exists w :: 0 <= w < |s.rx| && s.rx[w].pc.RxSummed?
  }

  ghost predicate Inv(cfg: Config, s: State) {
    && Conns(cfg, s)
    && Placed(cfg, s)
    && IngestOk(cfg, s)
    && MutexOk(s)
    && OutputOk(cfg, s)
    && WakeOk(s)
    && DoneOk(cfg, s)
    && Served(s)
    && CrashOk(s)
  }

  // ---------------------------------------------------------------- initially

  lemma {:induction false} InitInv(cfg: Config)
    requires ValidConfig(cfg)
    ensures Inv(cfg, Init(cfg))
  {
    var s := Init(cfg);
    var lines := AllLines(cfg, s);
    forall w | 0 <= w < cfg.workers
      ensures lines[w] == []
    {
      assert LineOf(s.tx[w], s.chan[w], s.rx[w]) == [];
    }
    assert Delivered(cfg, 0) == [];
  }
}
