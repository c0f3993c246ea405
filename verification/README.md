# viamillipede: a verified model of the ordered-delivery transport

viamillipede cuts one input into numbered legs, pushes the legs over several TCP connections
in parallel, and puts them back in order on one output. Its promise is that "order is
guaranteed and the pipe is transparent". This project models the program in Dafny and proves
that promise over every interleaving of its threads, every number of workers, every capacity
of the connections, every input and every way reads can be cut short. It also proves exactly
where the promise ends.

Verify with `dafny verify dfyconfig.toml`.

## Layers

- `Protocol.dfy` is the whole transport as a state machine: ingest, the transmit workers with
  their published state letters, one bounded FIFO per connection, and the receive workers
  around `next_leg`, `done_mbox`, the mutex and the condition variable. A step is one action
  between two points where another thread can interfere. A worker that finds another leg next
  keeps the mutex until its wait takes it over, so that test and wait are two steps. The mutex is released before the
  output is written, the output grows in several appends, broadcasts come after the mutex is
  released, and wakeups without a broadcast are allowed. A failed assertion ends the process.
- `Lines.dfy`, `Invariants.dfy` and `Preservation.dfy` hold the inductive invariant and its
  proof. The central idea is that a connection is a queue of leg ids (receive buffer, then
  frames in flight, then transmit buffer) which stays sorted, and that the queues together
  hold every outstanding leg exactly once.
- `Safety.dfy`, `Ownership.dfy`, `Progress.dfy`, `Termination.dfy`, `Delivery.dfy`,
  `Liveness.dfy` and `Witnesses.dfy` draw the conclusions over whole runs.
- `Heads.dfy` and `Sums.dfy` follow the checksums through every run. Both ends of a connection
  hold the same legs one after the other, so what a short leg leaves uncovered in a buffer goes
  back to earlier legs or to the very beginning: zeros at the sender, the check phrase at the
  receiver.
- `Steering.dfy` builds runs on purpose, by draining the workers while ingest is held where it
  is, and so shows that the conditions found are sharp.
- `Streams.dfy`, `Ingest.dfy`, `Wire.dfy`, `Checksum.dfy`, `Prbs.dfy` and `Targets.dfy` model the
  sequential code: loops over buffers, with file descriptors whose reads may be of any length.
- `Session.dfy` joins the layers: from the bytes ingest reads to the bytes the receiver writes.

## Where the code falls short of its promise

- **Shutdown race.** `txshutdown` raises `done` (tx.c:127-129) before it dispatches the end leg
  (tx.c:130-133). If the chosen worker polls in between, it sees `done` together with an idle state and
  leaves, so the end leg is never sent. The model keeps the code as it is. `RaceHappens` shows a
  run of four steps that gets there, `RaceIsFatal` shows that no continuation ever raises
  `done_mbox`, and `DeliveredIff` shows that a run at rest is undelivered only for this reason, a
  connection lost in mid-leg, no connection at all, or a failed checksum comparison.
- **Zero checksums.** A header checksum of 0 makes the receiver skip its update while the sender
  saves the 0 (rx.c:185-195, tx.c:102-105). With legs of at least four bytes, the receiver's assertion
  fires exactly when a leg with checksum 0 is followed by one with a non-zero checksum
  (`ChainAgreement`, `CrashIffZeroInside`; `ZeroInside` gives such inputs).
- **Short legs with checksums.** `mix` reads a whole machine word in every round, of which the low
  four bytes survive in its 32-bit sum (`MixReadsFour`). A leg shorter than that pulls stale bytes into
  its checksum, and the receiver's buffer began with the check phrase (rx.c:36-37) where the sender's
  began with zeros. If no header carries a zero, the assertion fires exactly when some leg and
  all earlier ones on its connection are too short to cover a non-zero byte of the phrase (`CrashIffExposed`).
  The three bytes "hi\n" are enough (`HiDies`). In general it fires exactly when a started
  leg fails the comparison (`CrashIffMismatch`), and a session can die at all exactly when some sharing out of
  its legs among the workers has such a leg (`CrashProofIff`).
- **The checksum sees one word.** `mix` adds the first word of the data in every round
  (plumbing.c:295), so it depends on the size and the first word only (`MixClosedForm`), and of that
  word only on the first four bytes. The header of the end leg repeats an old checksum (`EndLegRepeats`).
- **Polling too early.** `tx_poll` is documented to run after ingest is complete, but main calls it at once
  (viamillipede.c:224-226). A scan that succeeds means everything is pushed if it began after
  the last `start_worker` (`PollImpliesPushed`). From every earlier moment of a loss-free run with a connection
  that cannot die on a checksum, some continuation makes it return 1 over an unsent leg (`PollSoundIff`).
  With two connections the leg can be a data leg, up to the start of the last of them and not after
  (`DataPollSoundIff`).
- **Comments that the code does not follow.** tx.c:185 says the lowest targets are favoured; the
  rotation is even (`Attempts`). rx.c:78 wonders how the skew can exceed 15; the exact bound is
  (workers - 1) * (capacity + 2) (`ReorderingWindow`, `WindowAttained`). The documentation promises
  recovery from dropped connections; `retcode` in `txpush` never changes from 1 (tx.c:139), so legs are never
  resent, and what remains is `LostLegStopsDelivery`.

## Assumptions

- Start-up of a transmit worker is one step: the code publishes the idle state (tx.c:287) just before it
  resets the packet (tx.c:288-290).
- Headers are read whole, as the unlooped `readv` expects (rx.c:61-65). A wrong preamble is only
  reported (rx.c:66-70) and does not change the outcome.
- A connection that ends between two frames ends the modelled receive loop. In the source a `readv` of 0 bytes is
  only reported (rx.c:61-65), and the loop goes on with whatever `pkt` holds, which is uninitialised if
  the connection never carried a leg (rx.c:54, rx.c:72). In the state machine connections do not end between frames.
- A connection is a FIFO made by a successful handshake between one transmit and one receive
  worker, and holds at most `capacity` frames. Progress needs at least one worker that has not given up connecting.
- `seq_cv` is initialised once, there is one ingest thread, both ends have the same byte order,
  and leg ids do not wrap around.
- `txconf->mutex` is not used to exclude anything, and the idle scan may find any idle worker, so the model has
  more interleavings than the program. Failed scans and back-off sleeps change nothing and are not steps.
- A worker reads `done` and its own state in one step: both reads are under `txconf->mutex` (tx.c:293-304), which
  keeps `done` from changing in between.
- In pseudorandom mode the program generates a leg when it is pushed (tx.c:148-151). The model fills it in at ingest,
  which is the same because nothing touches a leg in between (`HeldUntilPushed`).
- `legs` in a configuration stands for whatever ingest will cut the input into. `TxIngest` says what that is.

## Model

| member | source | states |
|---|---|---|
| `Preservation.StepInv` | rx.c:53-209 | every step of every thread keeps the invariant: connection contents, sorted placement of legs, mutex, output, wakeups, done_mbox and ingest's hold on its worker |
| `Safety.OutputIsPrefix` | rx.c:142-208 | in every state of every run the output is a prefix of the input |
| `Safety.OutputShape` | rx.c:160-204 | the output is the legs before next_leg plus a prefix of leg next_leg |
| `Safety.RefinesPipe` | tx.c:77-117 | every step of the many-connection system is an enqueue, a dequeue or a stutter of one FIFO byte pipe |
| `Safety.PipeStarts` | tx.c:67-76 | the initial state stands for the pipe that has read and written nothing |
| `Safety.MutualExclusion` | rx.c:159-204 | at most one receive worker is between its admission and the increment of next_leg, although the mutex is not held there |
| `Safety.NoLostWakeup` | rx.c:149-207 | a worker asleep although its leg is next has another worker between increment and broadcast, with test and wait as two steps under the mutex |
| `Safety.LockProtects` | rx.c:149-204 | while a worker has the mutex, between test and wait included, no step changes next_leg or done_mbox and nobody else gets the mutex |
| `Safety.BroadcastWakesAll` | rx.c:205-207 | a broadcast wakes every sleeper |
| `Safety.ExactlyOnePlace` | tx.c:97-115 | each started, undelivered leg is at exactly one place, other ids at none, and ids increase along each connection |
| `Safety.ReorderingWindow` | rx.c:75-82 | a caught leg is at most (workers - 1) * (capacity + 2) ahead of next_leg |
| `Witnesses.WindowAttained` | rx.c:75-82 | for all workers and capacities some run reaches that bound |
| `Ownership.ChosenWorkerStaysIdle` | tx.c:79-109 | the worker ingest has chosen is still idle while its buffer and packet are filled |
| `Ownership.HeldUntilPushed` | tx.c:135-182 | over any stretch of any run a dispatched leg is still in its worker's buffer untouched, or a writev put exactly that leg on the connection |
| `Ownership.SwitchIsTotal` | tx.c:292-341 | at the top of its loop a worker is idle or dispatched, so recovery and default cases are never taken |
| `Ownership.EndLegLeaves` | tx.c:292-347 | a worker that pushed the end leg leaves its loop at once |
| `Ownership.ExitLeavesNoData` | tx.c:292-347 | a worker that has left its loop holds no data leg |
| `Ownership.PollImpliesPushed` | tx.c:410-433 | a non-atomic scan begun after the last start_worker that finds every worker idle or faulted implies every leg is pushed |
| `Steering.PollSoundIff` | tx.c:410-433 | in a loss-free, crash-proof run with a connection, every tx_poll begun now that returns 1 is right if and only if the last start_worker has happened |
| `Steering.PollMeansAllRead` | tx.c:428-431 | a tx_poll that returns 1 implies every data leg has been started |
| `Steering.PollMisled` | tx.c:410-433 | from any earlier state some continuation has every worker seen idle or faulted in scan order, done up and a leg unsent |
| `Steering.DataPollSoundIff` | tx.c:410-433 | with two connections, tx_poll is right about data legs if and only if the last data leg has been started |
| `Ownership.DoneMeansComplete` | rx.c:177-182 | done_mbox implies complete output, no lost connection and nobody reading or waiting in the sequencer |
| `Ownership.LostLegStopsDelivery` | rx.c:86-114 | after a connection dies in mid-leg, next_leg never passes that leg, the output stays before it and done_mbox stays down |
| `Progress.DeadlockFree` | rx.c:149-159 | before done_mbox some productive step is enabled, for any capacity, unless a connection was lost, none exists, or the end leg was abandoned |
| `Termination.StepSpends` | rx.c:53-209 | every step spends budget except idle polls, which change nothing, and spurious wakeups, which give three back |
| `Termination.WorkIsBounded` | tx.c:77-134 | an explicit bound on the number of productive steps of any run |
| `Delivery.RestMeansDelivered` | rx.c:160-208 | a loss-free state at rest has done_mbox exactly when the end leg was not abandoned, and then the output is the input |
| `Delivery.OrphanedIffRaced` | tx.c:292-320 | the end leg loses its worker exactly when that worker polls inside the shutdown window |
| `Delivery.DeliveredIff` | tx.c:125-134 | a run at rest delivered everything if and only if no comparison failed, there was a connection, none was lost in mid-leg and the chosen worker never polled between done and dispatch |
| `Delivery.DeliveredRest` | rx.c:53-212 | in a delivered run at rest the receive worker of the end leg has left, ingest and all transmit workers are through, the connections are empty and no receive worker is anywhere but accepting, waiting for a header or gone |
| `Delivery.RaceIsFatal` | tx.c:125-134 | after the race done_mbox is never raised |
| `Liveness.RaceHappens` | tx.c:125-134 | a concrete run of four steps that takes the race |
| `Liveness.EnvironmentIsFree` | rx.c:83-114 | in every state waits may end without a broadcast, connections fail or be lost in mid-leg, and reads and writes be cut at will |
| `Liveness.CanAlwaysSettle` | tx.c:77-134 | every loss-free, race-free run can be continued to rest without loss or race |
| `Liveness.CanAlwaysFinish` | tx.c:77-134 | in a crash-proof session every loss-free, race-free run can be continued until the whole input is delivered |
| `Heads.StepHeads` | rx.c:83-114 | every step keeps what the first four bytes of every transmit and receive buffer go back to: the legs of that connection in order, then zeros or the check phrase |
| `Sums.StepSums` | rx.c:183-204 | every step keeps every header checksum and both saved checksums on the chains of the legs and their owners |
| `Sums.CrashIffMismatch` | rx.c:183-196 | a run at rest without loss or race died on the assertion if and only if a started data leg fails the comparison, and delivered everything otherwise |
| `Sums.CrashIffExposed` | rx.c:36-37 | with no zero in a header, such a run died if and only if some leg and all earlier ones of its owner leave a non-zero byte of the phrase uncovered |
| `Sums.CrashIffZeroInside` | rx.c:183-196 | with legs of at least four bytes, such a run died if and only if a zero checksum was followed by a non-zero one |
| `Sums.ShortInputDies` | rx.c:183-196 | with a first leg that leaves a non-zero byte of the phrase uncovered no run delivers a leg, and one at rest without loss or race has died |
| `Liveness.ShortInputCrashes` | rx.c:183-196 | such a session does have a run that dies |
| `Liveness.HiDies` | rx.c:183-196 | the input "hi\n" under the default phrase has a run that dies, for all workers and capacities |
| `Sums.NeverCrashes` | rx.c:183-196 | in no interleaving does the assertion fire if every leg passes however legs are shared out |
| `Steering.CrashProofIff` | rx.c:183-196 | that condition is exact: without it some run dies |
| `Sums.CrashProofLong` | tx.c:100-108 | with checksums off, or legs of at least four bytes, the condition is that zero checksums come only at the end |
| `Sums.CrashProofShort` | rx.c:36-37 | for an input of fewer than four bytes it is that the uncovered rest of the phrase is zero |
| `Bytes.LittleEndianDigit` | cfg.h:37-48 | byte i of a word in memory is its digit of weight 256^i |
| `Bytes.ToLittleEndianDigit` | cfg.h:37-48 | and the same for a word laid out in memory |
| `Checksum.Mix` | plumbing.c:289-298 | the loop computes (seed + k*(b0 + 256*b1 + 65536*b2 + 16777216*b3) + 4*k*(k-1)) mod 2^32 of the bytes b, with k = size/8 + 1 |
| `Checksum.MixOfBytes` | plumbing.c:289-298 | the same as a law about MixOf |
| `Checksum.MixClosedForm` | plumbing.c:289-298 | (seed + k*w + 4*k*(k-1)) mod 2^32 with k = size/8 + 1 |
| `Checksum.MixReadsFour` | plumbing.c:289-298 | for every size the 32-bit sum depends on the first four bytes of the data only |
| `Checksum.MixSeed` | plumbing.c:289-298 | for fixed data the checksum is injective in the 32-bit seed |
| `Checksum.MixDiscriminatesFullLegs` | cfg.h:22-23 | for full legs and equal seeds two checksums agree exactly when the low 32 bits of the first words agree |
| `Sums.EndLegRepeats` | tx.c:130-133 | the end leg's header repeats the checksum of the last data leg its worker carried, or 0 |
| `Checksum.HeadsAgree` | rx.c:86-104 | two buffers that held the same legs agree on a byte exactly when a leg covered it or they agreed from the start |
| `Checksum.PassesIffCovered` | rx.c:185-195 | after a non-zero checksum, a leg with a non-zero checksum passes exactly when every differing byte of the phrase is covered by a leg on its connection |
| `Checksum.LongLegPasses` | rx.c:185-195 | a leg of at least four bytes with a non-zero checksum passes exactly when the checksum before it was not 0 |
| `Checksum.ShortLegPasses` | rx.c:185-195 | a shorter leg passes exactly when the saved checksums differ by as much as the buffers |
| `Checksum.ChainAgreement` | tx.c:100-108 | with legs of at least four bytes the chains agree on every leg exactly when no zero checksum precedes a non-zero one |
| `Checksum.FirstShortLeg` | rx.c:36-37 | a first leg of fewer than four bytes passes exactly when the rest of the phrase is zero |
| `Checksum.ZeroInside` | rx.c:185-195 | inputs whose zero checksum is followed by a non-zero one |
| `Prbs.PrbsGen` | prbs.c:5-12 | word 0 is the permutation, each word XOR the permutation is the one before plus 0x42F0E1EBA9EA3693 mod 2^64, and nothing else is written |
| `Prbs.PrbsVerify` | prbs.c:13-21 | accepts exactly such words |
| `Prbs.VerifiesIffStream` | prbs.c:3-4 | the words of the macro are exactly the stream with that beginning and that step |
| `Prbs.XorBit` | prbs.c:4 | bit n of the exclusive or is the sum modulo 2 of the bits n |
| `Prbs.BitIsDigit` | prbs.c:4 | bit n of a number is its binary digit of weight 2^n |
| `Prbs.GenerateThenVerify` | prbs.c:3-21 | verifying leg A's words for leg B succeeds exactly when A = B mod 2^64, and word 0 is seed + A mod 2^64 |
| `Session.PrbsLegStarts` | tx.c:148-151 | a pseudorandom leg starts with the bytes of seed plus leg id mod 2^64 |
| `Prbs.WordsDistinct` | prbs.c:3-4 | the words of a leg are pairwise distinct because the salt is odd |
| `Session.PrbsLegsVerify` | rx.c:125-136 | in every pseudorandom run every data leg read verifies for its own id and for no other modulo 2^64 |
| `Wire.HeaderRoundTrip` | cfg.h:37-48 | a header written is read back field by field, preamble included |
| `Wire.HeaderBytes` | cfg.h:33-48 | all forty bytes: preamble 5a 5a 5a 5a a5 a5 a5 a5, the digits of leg_id, size and checksum, and fe ca or ad de with six zeros |
| `Wire.DecodeMeans` | rx.c:72-73 | which forty bytes are a data or end header, oversized or of unknown opcode, and what is read from them |
| `Wire.ReadPayload` | rx.c:83-120 | for any cutting of the reads the buffer holds exactly the payload, or the connection ended short |
| `Wire.Receive` | rx.c:53-120 | the receive loop recovers exactly the frames written to a connection; a frame cut short is reported and not among them |
| `Wire.EncodeAllInjective` | tx.c:143-160 | different frame sequences never look alike on the wire |
| `Ingest.BufferFill` | plumbing.c:25-74 | for any schedule of short reads: contents, what is left, end of file, and the count: a full buffer or all there is, and in charmode exactly what one read of min(MAXBSIZE, size) bytes returns |
| `Ingest.ChunksJoin` | tx.c:77-117 | the legs join up to the input |
| `Ingest.ChunksShape` | tx.c:84-86 | ceil(length/foot) legs, all but the last exactly foot bytes |
| `Ingest.CharChunksJoin` | plumbing.c:66-70 | the legs of charmode join up to the input, none empty or longer than one read |
| `Ingest.HeaderChecksum` | tx.c:100-108 | the checksum of a leg of at least four bytes from the header before it and its own bytes |
| `Ingest.TxIngest` | tx.c:67-123 | headers, checksum chain for legs of any length, leg boundaries with and without charmode, leg limit, what is left unread, end leg and stream_total_bytes for any input and read schedule |
| `Session.LegsHoldInput` | tx.c:91-96 | with leg limit L exactly the first L legs' worth of the input is carried |
| `Session.ChannelsAreSendable` | tx.c:143-165 | every frame in flight fits the wire format and carries the leg it names |
| `Session.Transparent` | README.md:5 | output always a prefix of what is to be carried, and equal to it at rest exactly without crash, loss or race and with a connection |
| `Targets.TargetList.ConnectNext` | tx.c:183-201 | the chosen index is in range and the cursor moves on, wrapping |
| `Targets.Attempts` | tx.c:183-201 | over any number of attempts the use counts of two targets differ by at most one, with the exact distribution |

## Left out

- Sockets, options, accept, connect and TCP info dumps (plumbing.c:108-287): system calls, replaced by the FIFO of a connection.
- The reconnect loop, its fuse and sleep shift (tx.c:210-246) and the recovery case (tx.c:330-337): timing, and recovery that this version cannot reach.
- Reuse of a receive thread for a new connection after a loss: it would need a transmit worker to reconnect, which does not happen.
- Argument parsing, signals and main's poll loop (viamillipede.c:61-237): user interface.
- `terminate`, `initiate` and `initiate_relay`: file-descriptor wiring; one input and one output are assumed.
- `stopwatch_*`, rate and status reports, `whisper` and probes: reporting only.
- `chaos_fail` (plumbing.c:9-23): not called.
- `errno` exits: the run ends there; the safety results hold up to that point.
- Wire.Receive: ends the loop when the connection ends between frames, where the source goes on with the old packet (see the assumptions).
- Checksums together with the pseudorandom mode: the sender computes the checksum before it generates the leg, so the chain is not meaningful there.
- Wrap-around of leg ids after 2^64 legs in the sequencer.
- Partial writes of a frame into a connection: a frame enters a FIFO whole once there is room.
