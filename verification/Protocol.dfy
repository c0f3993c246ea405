/** The whole transport as a state machine: one ingest thread, the transmit workers, one
    bounded FIFO per connection, and the receive workers around the sequencer. Every step
    is one action between two points where another thread can interfere. */
module Protocol {
  import opened Bytes
  import opened Checksum
  import opened Wire

  /** A session. `legs` are the data legs ingest will cut the input into; each connection
      holds at most `capacity` frames in flight; buffers hold `foot` bytes. */
  datatype Config = Config(
    workers: nat,
    capacity: nat,
    foot: nat,
    legs: seq<seq<byte>>,
    checksums: bool,
    phrase: seq<byte>)

  ghost predicate ValidConfig(cfg: Config) {
    && cfg.capacity >= 1
    && cfg.foot >= 8
    && |cfg.phrase| == 4
    && forall k :: 0 <= k < |cfg.legs| ==> 1 <= |cfg.legs[k]| <= cfg.foot
  }

  /** Payload of leg k; the end leg, number |legs|, is empty. */
  function Payload(cfg: Config, k: nat): seq<byte> {
    if k < |cfg.legs| then cfg.legs[k] else []
  }

  function OpcodeOf(cfg: Config, k: nat): Opcode {
    if k < |cfg.legs| then FeedMore else EndOfMillipede
  }

  // ---------------------------------------------------------------- state

  /** Where ingest stands, with the worker it has chosen. */
  datatype IngestPc =
    | InTop
    | InPicked(w: nat)
    | InFilled(w: nat)
    | InPacked(w: nat)
    | InShutting(w: nat)
    | InShutPacked(w: nat)
    | InFinished

  /** The letters of `txworker_s.state`: c, i, d, a, W, P, f, and x for a push to be retried. */
  datatype TxState =
    | StConnecting | StIdle | StDispatched | StPreamble | StWaiting | StPushing | StFaulted | StRetry

  datatype TxPc = TxConnecting | TxTop | TxGo | TxAmble | TxWaiting | TxPushing | TxPushed | TxExited | TxFaulted

  datatype TxWorker = TxWorker(
    pc: TxPc,
    state: TxState,
    localDone: bool,
    pkt: Packet,
    buffer: seq<byte>)

  datatype RxPc =
    | RxOff        // waiting in accept
    | RxTop        // about to test done_mbox
    | RxHeader     // blocked on the header of the next leg
    | RxReading    // in the payload loop
    | RxLocking    // wants the sequencer mutex
    | RxHolding    // has it, about to compare leg_id with next_leg
    | RxParking    // found another leg next, about to wait, still has the mutex
    | RxAsleep     // in pthread_cond_wait
    | RxWoken      // out of the wait, wants the mutex back
    | RxWriting    // mutex released, copying the leg to the output
    | RxWritten    // leg copied
    | RxSummed     // checksum recomputed, not yet compared and saved
    | RxBumping    // about to advance next_leg
    | RxCasting    // next_leg advanced, broadcast still to come
    | RxExited
    | RxDropped    // connection ended in mid-leg

  datatype RxWorker = RxWorker(
    pc: RxPc,
    pkt: Packet,
    unread: seq<byte>,  // the rest of the payload, still on the connection
    cursor: nat,
    wrote: nat,
    sum: nat,
    buffer: seq<byte>)

  datatype Owner = Nobody | Held(w: nat)

  datatype State = State(
    ingest: IngestPc,
    saved: nat,
    done: bool,
    tx: seq<TxWorker>,
    chan: seq<seq<Frame>>,
    rx: seq<RxWorker>,
    mutex: Owner,
    nextLeg: nat,
    doneMbox: bool,
    rxSaved: nat,
    output: seq<byte>,
    crashed: bool,
    owner: seq<nat>)   // history: the worker each started leg was given to

  const BLANK := Packet(0, 0, 0, FeedMore)

  function Init(cfg: Config): State {
    State(InTop, 0xff, false,
          seq(cfg.workers, _ => TxWorker(TxConnecting, StConnecting, false, BLANK, Zeros(cfg.foot))),
          seq(cfg.workers, _ => []),
          seq(cfg.workers, _ => RxWorker(RxOff, BLANK, [], 0, 0, 0, Zeros(cfg.foot))),
          Nobody, 0, false, 0xff, [], false, [])
  }

  // ---------------------------------------------------------------- steps

  datatype IngestStep =
    | IngestPick(w: nat)             // the idle scan finds worker w
    | IngestFill                     // bufferfill into its buffer
    | IngestPack                     // its packet header
    | IngestStart                    // start_worker
    | IngestShut(junk: seq<byte>)    // txshutdown raises done; the buffer may hold a leg cut off by the limit
    | IngestShutPack                 // the header of the end leg
    | IngestShutStart                // start_worker for the end leg
    | IngestExit

  datatype TxStep =
    | TxConnect(w: nat)              // handshake done, worker idle
    | TxFault(w: nat)                // the connection is given up
    | TxLook(w: nat)                 // top of the worker loop: reads done and its own state
    | TxPreamble(w: nat)
    | TxDelay(w: nat)
    | TxArm(w: nat)
    | TxWrite(w: nat)                // writev
    | TxFinish(w: nat)

  datatype RxStep =
    | RxCheckDone(w: nat)                // tests done_mbox
    | RxCatch(w: nat)                // reads a header
    | RxRead(w: nat, n: nat)         // one read of n payload bytes
    | RxDrop(w: nat)                 // end of file in mid-leg
    | RxLock(w: nat)
    | RxCompare(w: nat)              // compares leg_id with next_leg: lets go of the mutex and proceeds, or keeps it
    | RxWait(w: nat)                 // pthread_cond_wait: lets go of the mutex and sleeps
    | RxSpurious(w: nat)             // a wakeup without a broadcast
    | RxAppend(w: nat, n: nat)       // n more bytes reach the output
    | RxWriteDone(w: nat)
    | RxMark(w: nat)                 // end leg: done_mbox = 1
    | RxSum(w: nat)                  // data leg: recompute the checksum unless the header says 0
    | RxSave(w: nat)                 // assert it and save it
    | RxBump(w: nat)                 // next_leg++
    | RxCast(w: nat)                 // pthread_cond_broadcast

  datatype Step = Ingest(i: IngestStep) | Tx(t: TxStep) | Rx(r: RxStep)

  /** Overwrites the front of a buffer. */
  function Overwrite(buffer: seq<byte>, at: nat, bytes: seq<byte>): (b: seq<byte>)
    requires at + |bytes| <= |buffer|
    ensures |b| == |buffer|
  {
    buffer[..at] + bytes + buffer[at + |bytes|..]
  }

  ghost predicate IngestEnabled(cfg: Config, s: State, step: IngestStep) {
    match step
    case IngestPick(w) => s.ingest.InTop? && !s.done && w < |s.tx| && s.tx[w].state.StIdle?
    case IngestFill =>
      && s.ingest.InPicked? && |s.owner| < |cfg.legs| && s.ingest.w < |s.tx|
      && |cfg.legs[|s.owner|]| <= |s.tx[s.ingest.w].buffer|
    case IngestPack =>
      && s.ingest.InFilled? && s.ingest.w < |s.tx|
      && |s.owner| < |cfg.legs| && |s.tx[s.ingest.w].buffer| >= 8
    case IngestStart => s.ingest.InPacked? && s.ingest.w < |s.tx|
    case IngestShut(junk) =>
      && s.ingest.InPicked? && |s.owner| >= |cfg.legs| && s.ingest.w < |s.tx|
      && |junk| <= |s.tx[s.ingest.w].buffer|
    case IngestShutPack => s.ingest.InShutting? && s.ingest.w < |s.tx|
    case IngestShutStart => s.ingest.InShutPacked? && s.ingest.w < |s.tx|
    case IngestExit => s.ingest.InTop? && s.done
  }

  /** What an ingest step does to the worker it has chosen. */
  ghost function IngestMove(cfg: Config, s: State, step: IngestStep): TxWorker
    requires IngestEnabled(cfg, s, step) && !step.IngestPick? && !step.IngestExit?
  {
    var t, k := s.tx[s.ingest.w], |s.owner|;
    match step
    case IngestFill => t.(buffer := Overwrite(t.buffer, 0, cfg.legs[k]))
    case IngestPack => t.(pkt := Packet(k, |cfg.legs[k]|, LegSum(cfg, s), FeedMore))
    case IngestShut(junk) => t.(buffer := Overwrite(t.buffer, 0, junk))
    case IngestShutPack => t.(pkt := t.pkt.(legId := k, size := 0, opcode := EndOfMillipede))
    case _ => t.(state := StDispatched)
  }

  /** The checksum of the leg just filled in. */
  ghost function LegSum(cfg: Config, s: State): nat
    requires IngestEnabled(cfg, s, IngestPack)
  {
    var k := |s.owner|;
    if cfg.checksums then MixOf(s.saved + k, FirstWord(s.tx[s.ingest.w].buffer), |cfg.legs[k]|) else 0
  }

  /** What it does to ingest itself and to `done`. */
  ghost function IngestApply(cfg: Config, s: State, step: IngestStep): State
    requires IngestEnabled(cfg, s, step)
  {
    if step.IngestPick? then s.(ingest := InPicked(step.w))
    else if step.IngestExit? then s.(ingest := InFinished)
    else
      var w := s.ingest.w;
      var started := step.IngestStart? || step.IngestShutStart?;
      s.(ingest := match step
                   case IngestFill => InFilled(w)
                   case IngestPack => InPacked(w)
                   case IngestShut(_) => InShutting(w)
                   case IngestShutPack => InShutPacked(w)
                   case _ => InTop,
         saved := if step.IngestPack? && cfg.checksums then LegSum(cfg, s) else s.saved,
         done := s.done || step.IngestShut?,
         tx := s.tx[w := IngestMove(cfg, s, step)],
         owner := if started then s.owner + [w] else s.owner)
  }

  ghost predicate TxEnabled(cfg: Config, s: State, step: TxStep) {
    match step
    case TxConnect(w) => w < |s.tx| && w < |s.rx| && s.tx[w].pc.TxConnecting? && s.rx[w].pc.RxOff? && |s.rx[w].buffer| >= 4
    case TxFault(w) => w < |s.tx| && s.tx[w].pc.TxConnecting?
    case TxLook(w) => w < |s.tx| && s.tx[w].pc.TxTop?
    case TxPreamble(w) => w < |s.tx| && s.tx[w].pc.TxGo?
    case TxDelay(w) => w < |s.tx| && s.tx[w].pc.TxAmble?
    case TxArm(w) => w < |s.tx| && (s.tx[w].pc.TxAmble? || s.tx[w].pc.TxWaiting?)
    case TxWrite(w) =>
      && w < |s.tx| && w < |s.chan| && s.tx[w].pc.TxPushing?
      && |s.chan[w]| < cfg.capacity && s.tx[w].pkt.size <= |s.tx[w].buffer|
    case TxFinish(w) => w < |s.tx| && s.tx[w].pc.TxPushed?
  }

  /** What a transmit step does to its worker. */
  function TxMove(t: TxWorker, done: bool, step: TxStep): TxWorker {
    match step
    case TxConnect(_) => t.(pc := TxTop, state := StIdle, pkt := t.pkt.(size := 0, legId := 0))
    case TxFault(_) => t.(pc := TxFaulted, state := StFaulted)
    case TxLook(_) => Look(t, done)
    case TxPreamble(_) => t.(pc := TxAmble, state := StPreamble)
    case TxDelay(_) => t.(pc := TxWaiting, state := StWaiting)
    case TxArm(_) => t.(pc := TxPushing, state := StPushing)
    case TxWrite(_) => t.(pc := TxPushed)
    case TxFinish(_) => t.(pc := if t.localDone then TxExited else TxTop, state := StIdle, pkt := t.pkt.(size := 0))
  }

  /** What it does to the rest: the handshake leaves the check phrase in the receiver's
      buffer, and a write puts a frame on the connection. */
  ghost function TxApply(cfg: Config, s: State, step: TxStep): State
    requires |cfg.phrase| == 4
    requires TxEnabled(cfg, s, step)
  {
    var w := step.w;
    var t := s.tx[w];
    s.(tx := s.tx[w := TxMove(t, s.done, step)],
       chan := if step.TxWrite? then s.chan[w := s.chan[w] + [Frame(t.pkt, t.buffer[..t.pkt.size])]] else s.chan,
       rx := if step.TxConnect?
             then s.rx[w := s.rx[w].(pc := RxTop, buffer := Overwrite(s.rx[w].buffer, 0, cfg.phrase))]
             else s.rx,
       crashed := s.crashed || (step.TxLook? && !t.state.StIdle? && !t.state.StDispatched?))
  }

  /** One turn of the worker loop up to its switch. */
  function Look(t: TxWorker, done: bool): TxWorker {
    if t.state.StDispatched? then t.(pc := TxGo, localDone := done)
    else if done then t.(pc := TxExited, localDone := true)
    else t
  }

  ghost predicate RxEnabled(cfg: Config, s: State, step: RxStep) {
    && step.w < |s.rx|
    && var r := s.rx[step.w];
       match step
       case RxCheckDone(_) => r.pc.RxTop?
       case RxCatch(w) => r.pc.RxHeader? && w < |s.chan| && s.chan[w] != []
       case RxRead(_, n) =>
         && r.pc.RxReading?
         && 1 <= n <= Min(|r.unread|, MAXBSIZE)
         && r.cursor + n <= |r.buffer|
       case RxDrop(_) => r.pc.RxReading?
       case RxLock(_) => (r.pc.RxLocking? || r.pc.RxWoken?) && s.mutex.Nobody?
       case RxCompare(_) => r.pc.RxHolding?
       case RxWait(_) => r.pc.RxParking?
       case RxSpurious(_) => r.pc.RxAsleep?
       case RxAppend(_, n) => r.pc.RxWriting? && 1 <= n && r.wrote + n <= r.pkt.size <= |r.buffer|
       case RxWriteDone(_) => r.pc.RxWriting? && r.wrote == r.pkt.size
       case RxMark(_) => r.pc.RxWritten? && r.pkt.opcode.EndOfMillipede? && s.mutex.Nobody?
       case RxSum(_) => r.pc.RxWritten? && r.pkt.opcode.FeedMore? && |r.buffer| >= 8
       case RxSave(_) => r.pc.RxSummed?
       case RxBump(_) => r.pc.RxBumping? && s.mutex.Nobody?
       case RxCast(_) => r.pc.RxCasting?
  }

  /** A broadcast moves every sleeper out of its wait. */
  function Wake(r: RxWorker): RxWorker {
    if r.pc.RxAsleep? then r.(pc := RxWoken) else r
  }

  function WakeAll(rx: seq<RxWorker>): (woken: seq<RxWorker>)
    ensures |woken| == |rx|
    ensures forall i :: 0 <= i < |rx| ==> woken[i] == Wake(rx[i])
  {
    seq(|rx|, i requires 0 <= i < |rx| => Wake(rx[i]))
  }

  /** What a receive step does to its worker. */
  ghost function RxMove(cfg: Config, s: State, step: RxStep): RxWorker
    requires RxEnabled(cfg, s, step)
  {
    var r := s.rx[step.w];
    match step
    case RxCheckDone(_) => r.(pc := if s.doneMbox then RxExited else RxHeader)
    case RxCatch(w) =>
      var f := s.chan[w][0];
      r.(pc := if f.pkt.size == 0 then RxLocking else RxReading,
         pkt := f.pkt, unread := f.payload, cursor := 0, wrote := 0)
    case RxRead(_, n) =>
      r.(pc := if n == |r.unread| then RxLocking else RxReading,
         unread := r.unread[n..],
         cursor := r.cursor + n,
         buffer := Overwrite(r.buffer, r.cursor, r.unread[..n]))
    case RxDrop(_) => r.(pc := RxDropped)
    case RxLock(_) => r.(pc := RxHolding)
    case RxCompare(_) => r.(pc := if r.pkt.legId == s.nextLeg then RxWriting else RxParking)
    case RxWait(_) => r.(pc := RxAsleep)
    case RxSpurious(_) => r.(pc := RxWoken)
    case RxAppend(_, n) => r.(wrote := r.wrote + n)
    case RxWriteDone(_) => r.(pc := RxWritten)
    case RxMark(_) => r.(pc := RxBumping)
    case RxSum(_) =>
      if r.pkt.checksum == 0 then r.(pc := RxBumping)
      else r.(pc := RxSummed, sum := MixOf(s.rxSaved + r.pkt.legId, FirstWord(r.buffer), r.pkt.size))
    case RxSave(_) => if r.sum == r.pkt.checksum then r.(pc := RxBumping) else r
    case RxBump(_) => r.(pc := RxCasting)
    case RxCast(_) => r.(pc := RxTop)
  }

  /** What it does to the connection, the sequencer and the output. */
  ghost function RxApply(cfg: Config, s: State, step: RxStep): State
    requires RxEnabled(cfg, s, step)
  {
    var w := step.w;
    var r := s.rx[w];
    s.(rx := (if step.RxCast? then WakeAll(s.rx) else s.rx)[w := RxMove(cfg, s, step)],
       chan := if step.RxCatch? then s.chan[w := s.chan[w][1..]] else s.chan,
       mutex := if step.RxLock? then Held(w)
                else if step.RxWait? || (step.RxCompare? && r.pkt.legId == s.nextLeg) then Nobody
                else s.mutex,
       nextLeg := if step.RxBump? then s.nextLeg + 1 else s.nextLeg,
       doneMbox := s.doneMbox || step.RxMark?,
       rxSaved := if step.RxSave? && r.sum == r.pkt.checksum then r.sum else s.rxSaved,
       output := if step.RxAppend? then s.output + r.buffer[r.wrote..r.wrote + step.n] else s.output,
       crashed := s.crashed || (step.RxSave? && r.sum != r.pkt.checksum))
  }

  /** A failed assertion ends the process, so nothing follows a crash. */
  ghost predicate Enabled(cfg: Config, s: State, step: Step) {
    !s.crashed &&
    match step
    case Ingest(i) => IngestEnabled(cfg, s, i)
    case Tx(t) => TxEnabled(cfg, s, t)
    case Rx(r) => RxEnabled(cfg, s, r)
  }

  ghost function Apply(cfg: Config, s: State, step: Step): State
    requires ValidConfig(cfg) && Enabled(cfg, s, step)
  {
    match step
    case Ingest(i) => IngestApply(cfg, s, i)
    case Tx(t) => TxApply(cfg, s, t)
    case Rx(r) => RxApply(cfg, s, r)
  }

  /** The step can be taken in s and leads to s'. */
  ghost predicate Moves(cfg: Config, s: State, step: Step, s': State) {
    ValidConfig(cfg) && Enabled(cfg, s, step) && s' == Apply(cfg, s, step)
  }
}
