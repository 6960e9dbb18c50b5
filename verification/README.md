# SUNIX serial and parallel driver: a verified model

A Dafny model of the hard state in the SUNIX Linux driver, with proofs. It follows
the branches for modern kernels. Each region under a spinlock or semaphore is one
step, except where the interleaving of such regions is the point.

`dafny verify dfyconfig.toml` checks everything.

**The parallel port as a shared resource**

- `ControlRegister.dfy`: the arithmetic of the control register's shadow.
- `Arbiter.dfy`, `ArbiterTheorems.dfy`: one owner, a first-come-first-served queue
  and a saved control byte per device, as a machine; fairness, round robin and
  context isolation over all its runs.
- `Parport.dfy`: the driver's own structures (two intrusive doubly linked lists,
  waiting bits, owner pointer, shadow register, reference count) as a class. Every
  method's effect is the corresponding function of `Arbiter`.
- `WaitLinks.dfy`, `InterleavedArbiter.dfy`: the same machine cut into the steps
  between which other threads run (the unlocked owner test, the locked region, the
  waiting word, the walk of a release over the links), with the links as state.
- `InterleavedInvariant.dfy`, `InterleavedTheorems.dfy`: exactly which step breaks it,
  no lost wake-up until then, who ends up with the port, and exactly when arrival
  order and contexts survive. `InterleavedRuns.dfy`, `InterleavedTraces.dfy`:
  undisturbed calls, and runs in which properties are lost.
- `PortSharing.dfy`, `PpFile.dfy`: open files and printer devices as clients of one
  port: who has claimed it, and whose IEEE 1284 mode is in it. `ModeLeaks.dfy`: what
  follows every yield that leaves a mode behind.
- `PortRegistry.dfy`: numbering of ports, and the attaching of port drivers.
- `Timeouts.dfy`: the timeout ioctls.

**Printing**

- `Wire.dfy`: the cable, and what a printer receives in Compatibility Mode (IEEE Std
  1284): a byte whenever the strobe is raised.
- `CompatPort.dfy`, `PrintClients.dfy`: the strobe loop with its waits, and the two
  writers above it, in chunks.

**The serial port**

- `SerialModel.dfy`: transmitter, flow control and interrupt enable as a machine.
- `XmitRing.dfy`: the 4096-byte ring; `Uart.dfy`: the register file with its divisor
  latch; `Baud.dfy`: rate and divisor.
- `SerialPort.dfy`: the port as a class over ring and registers, refining the machine.
- `StartRace.dfy`: the machine with start, which takes no lock, cut into its steps;
  `LineRace.dfy`: set_termios, write by write, beside such a start.
- `UartType.dfy`: line types and slew rate in configuration registers shared by four
  ports each.

**Boards**

- `BoardProbe.dfy`: the five passes over the PCI devices.
- `PortTables.dfy`: the boards' slices of the port tables.

`Arithmetic.dfy`, `Options.dfy` and `Errno.dfy` are helpers.

## What the code does that its names and comments do not say

- A release saves the control byte after it has dropped the owner
  (driver/snx_share.c:945-948). A claim in between makes it save the wrong byte:
  `InterleavedTraces.ContextLost`; exactly when, `InterleavedTheorems.SavesOwnContext`.
- A claim tests the owner before it takes the lock (driver/snx_share.c:803) and not
  again inside, where an owner, the device itself included, makes it wait (:810,
  :858-879). A hand-off and the waiter's own next claim can both pass the test, and
  then the second locked region puts the owner on the wait queue. If it is the
  device's own, it sleeps as the owner and the port is lost for good:
  `InterleavedTraces.DoomedOwner`, `InterleavedTheorems.DoomedStays`. If it is the
  hand-off's, the waiting word is cleared after it (:925) with the device still linked
  in; the next time it waits, the links are cut, and another thread sleeps for good
  beside an idle port: `InterleavedTraces.WaiterLost`,
  `InterleavedTheorems.LostForGood`. Until such a step, and exactly until then, all is
  consistent and no wake-up is lost: `InterleavedInvariant.InvRunIff`,
  `InterleavedInvariant.NoLostWakeup`.
- Between choosing a waiter and claiming for it a release holds no lock
  (driver/snx_share.c:951-969). A waiter that has been served by somebody else, and
  has finished, is then made owner without knowing it, and the port stays with it
  until it happens to claim again: `InterleavedTraces.StrandedOwner`,
  `InterleavedTheorems.StrandedStays`; which hand-offs are of use,
  `InterleavedTheorems.HandOffWantedIff`. One that waits again by then overtakes
  others: `InterleavedTraces.ServedOutOfTurn`.
- The lock in start is commented out (driver/snx_serial.c:547-549). A start that finds
  the transmit interrupt on, or turns it on, while the lock's holder is about to write
  it off leaves bytes behind with nothing to send them: `StartRace.StoppedAfterStart`,
  `StartRace.WrittenBack`; exactly when, `StartRace.NeverStallsIff`. Beside set_termios
  its writes can land in the divisor latch and undo what set_termios asks for:
  `LineRace.LatchSpoilt`, `LineRace.ModemStatusLost`; exactly when,
  `LineRace.LatchKeptIff`, `LineRace.ThriKeptIff`, `LineRace.RestKeptIff`.
- A wait cut short by a signal leaves its device queued (driver/snx_share.c:907-909),
  and the next call overwrites the queued bit: `Parports.Parport.BlockWhileQueued`.
- PPYIELD leaves the file's mode in the port: `PortSharing.YieldsLeakModes`,
  `ModeLeaks.LeakMisleads`.
- The printer driver does not check its first wait for the printer
  (driver/snx_lp.c:247) and counts bytes from its result, so after an error a
  positive result is too small: `PrintClients.ReportsTooFew`.
- The fifth pass of the probe looks for the same devices as the fourth, and the
  first row of the table skips the check for devices already taken:
  `BoardProbe.SlotsAreUnique`.
- Parallel ports are matched to boards by bus and device only, so two boards on one
  device number (two PCI functions) with the same type are mixed up:
  `PortTables.EveryPortIsFound`.
- SET_TYPE with a type the card lacks clears the port's type bits and reports
  success: `UartTypes.SupportedTypeRoundTrip`, `UartTypes.CopiesFollow`.
- Startup writes the line control register without its shadow; they agree only after
  the first set_termios, which the driver does before the port is used.
- A rate can be missing when the base rate is low, and is then divided by:
  `Baud.RateCanBeMissing`.

## Model

| member | source | states |
|---|---|---|
| ControlRegister.WriteControlReadsBack | driver/snx_common.h:1220-1239 | a control byte written reads back as its low nibble, whatever direction and interrupt bits are in force |
| ControlRegister.FrobControlIsMasked | driver/snx_common.h:1241-1257 | frobbing changes only lines inside the mask, and toggles nothing outside it |
| ControlRegister.FrobBits | driver/snx_common.h:1195-1206 | the primitive, bit by bit: bits in the mask become those of the value, the others are toggled by it, the interrupt enable stays off |
| ControlRegister.WritableBits | driver/snx_parallel.c:295-297 | what can be written is every bit but the interrupt enable; a new port holds 0x0C, of which the low four bits are read back |
| Arbiter.InvStep | driver/snx_share.c:594-973 | every operation keeps the queue free of duplicates and of the owner, leaves nobody waiting on an idle port, and keeps the register inside its mask |
| Arbiter.Run | driver/snx_share.c:594-973 | the same for every run from any sound state |
| Arbiter.ReleasedInv | driver/snx_share.c:932-973 | after its release a device neither owns the port nor has joined the queue, and nobody is unregistered by it |
| Arbiter.WithoutRemoves | driver/snx_share.c:703-733 | unregistering a waiter takes out exactly its place and keeps the order of the rest |
| Arbiter.RegisteredByte | driver/snx_parallel.c:66-74 | a new device starts with 0x0C, or 0x1C with an interrupt |
| Arbiter.ControlWrites | driver/snx_common.h:1195-1206 | only the owner writes the register, and a write changes nothing else |
| ArbiterTheorems.WaiterStep | driver/snx_share.c:860-973 | what one operation does to a waiter at place k: served if at the head of a hand-off, else moved up by one or left alone |
| ArbiterTheorems.WaiterMovesUp | driver/snx_share.c:860-973 | over any run a waiter with k ahead of it keeps its place less one for each hand-off and does not own the port before the k+1st |
| ArbiterTheorems.WaiterIsServed | driver/snx_share.c:951-969 | it owns the port at exactly the k+1st hand-off |
| ArbiterTheorems.GrantsFollowArrival | driver/snx_share.c:860-973 | over any run, waiters plus arrivals are, in order, those served plus those still waiting: first come, first served, nobody lost or duplicated |
| ArbiterTheorems.YieldRotates | driver/snx_common.h:1278-1287 | an effective yield turns the ring of owner and waiters by one place and leaves every device the control byte it works with |
| ArbiterTheorems.RoundRobin | driver/snx_common.h:1278-1287 | n yields turn the ring by n places |
| ArbiterTheorems.FullRound | driver/snx_common.h:1278-1287 | a full round of yields leaves owner, queue and register as they were |
| ArbiterTheorems.ContextIsRestored | driver/snx_share.c:852-948 | a device that gave the port up finds the control register as it left it, whatever any run of the others did meanwhile |
| ArbiterTheorems.FirstContextIsInitial | driver/snx_parallel.c:66-74 | the first grant after registration finds the initial byte 0x0C |
| ArbiterTheorems.SavedIsStable | driver/snx_share.c:932-973 | while a device neither owns the port nor is unregistered its saved byte does not change |
| ArbiterTheorems.RegainLoadsSaved | driver/snx_share.c:852-856 | every way of getting the port loads the new owner's saved byte |
| ArbiterTheorems.OnlyTheOwnerGivesUp | driver/snx_share.c:797-973 | ownership leaves a device only through that device's own release, effective yield or unregistration |
| ArbiterTheorems.BlockingTwiceBreaksQueue | driver/snx_share.c:882-909 | claim_or_block after an interrupted wait keeps the arbiter sound, and is what it should be, exactly when the device is not queued |
| Parports.ProbePort | driver/snx_parallel.c:270-369 | a port is returned, with one reference, exactly when the chip echoes two control bytes or two data bytes; any other is put and so freed |
| Parports.Parport.constructor | driver/snx_parallel.c:286-345 | whatever the chip answers, the shadow is the byte in the control register, and the port has one reference |
| Parports.Parport.AbsInv | driver/snx_share.c:797-973 | the linked lists of a valid port always describe a sound state of the abstract arbiter |
| Parports.Parport.RawFrob | driver/snx_common.h:1195-1206 | shadow and hardware register stay equal and inside ctr_writable |
| Parports.Parport.WriteControlByte | driver/snx_common.h:1220-1229 | the same, for a whole control write |
| Parports.Parport.FrobControlByte | driver/snx_common.h:1241-1257 | the same, for a frob with the direction bit split off |
| Parports.Parport.Enqueue | driver/snx_share.c:866-875 | appending keeps forward and backward links one list from head to tail |
| Parports.Parport.Dequeue | driver/snx_share.c:831-849 | splicing a device out anywhere keeps the links one list, of the rest in order |
| Parports.Parport.SplicedLinks | driver/snx_share.c:831-849 | the link equations of the spliced list at every place |
| Parports.Parport.Join | driver/snx_share.c:866-875 | a waiter is on the list exactly when bit 0 of its waiting word is set |
| Parports.Parport.Leave | driver/snx_share.c:831-849 | leaving clears both waiting bits and both links, the invariant of bits and lists holding again |
| Parports.Parport.Claim | driver/snx_share.c:797-880 | claim: 0 with the saved byte restored, or -EAGAIN, queued if prepared to sleep, the preempt callback told |
| Parports.Parport.ClaimOrBlock | driver/snx_share.c:882-929 | claim_or_block refines the abstract claim, and returns non-zero only with its device in the queue |
| Parports.Parport.AfterSleep | driver/snx_share.c:899-928 | its end after a sleep: result 1, waiting word cleared |
| Parports.Parport.Drop | driver/snx_share.c:932-949 | the first half of a release: no owner, control byte saved |
| Parports.Parport.HandOff | driver/snx_share.c:951-969 | the second half: the head of the queue is granted the port |
| Parports.Parport.Release | driver/snx_share.c:932-973 | release refines the abstract release |
| Parports.Parport.YieldBlocking | driver/snx_common.h:1278-1287 | k ticks after the grant, whether or not the clock has wrapped: before the time slice is over, or with nobody waiting, owner and queue stay; after it the head of the queue owns the port and the caller is last in the queue |
| Parports.Parport.GiveWay | driver/snx_common.h:1285-1287 | the owner's release followed by its own claim, which queues it |
| Parports.ElapsedTicks | driver/snx_common.h:1280 | the unsigned difference of two clock readings is the number of ticks between them, across a wrap |
| Parports.Parport.GetPort | driver/snx_share.c:298-302 | references: one more hold |
| Parports.Parport.PutPort | driver/snx_share.c:305-311 | references: the port is freed exactly by the last put, with no device registered |
| Parports.Parport.RegisterDevice | driver/snx_share.c:594-683 | a device is refused for exclusiveness or lack of memory without a trace, else put first in the list; references are conserved |
| Parports.Parport.UnregisterDevice | driver/snx_share.c:686-740 | an owner releases first; then the device leaves both lists and its reference is given back |
| Parports.Parport.Unlink | driver/snx_share.c:711-723 | the device list stays one doubly linked list |
| Parports.Parport.WalkBack | driver/snx_share.c:866-875 | walking back from the tail of a proper queue retraces the old links |
| Parports.Parport.BlockWhileQueued | driver/snx_share.c:882-909 | after an interrupted wait, the device's next claim_or_block leaves it linked to itself, links that describe no list at all |
| WaitLinks.AppendDescribes | driver/snx_share.c:866-875 | linking a device in at the tail turns the links of a list into those of the list with it at the end |
| WaitLinks.SpliceDescribes | driver/snx_share.c:831-849 | splicing one out anywhere turns them into those of the list without it |
| InterleavedInvariant.InvStepIff | driver/snx_share.c:797-973 | with claims and releases cut into the steps between which others run, a step keeps links, waiting words, owner, holders and pending hand-offs consistent exactly when it is not a locked region run for a device that already owns the port and whose waiting word is set |
| InterleavedInvariant.InvRunIff | driver/snx_share.c:797-973 | over a run they stay consistent throughout exactly when it contains no such locked region |
| InterleavedInvariant.NoLostWakeup | driver/snx_share.c:882-973 | after any run without one, a port without owner and without a release under way has an empty queue and no sleeping thread |
| InterleavedInvariant.FailedHandOffKeepsPlace | driver/snx_share.c:951-969 | a hand-off that finds the port taken changes nothing for the waiter |
| InterleavedTheorems.OneHolder | driver/snx_share.c:797-929 | over every run, consistent or not, at most one thread has been told that the port is its own |
| InterleavedTheorems.OneOfThree | driver/snx_share.c:797-973 | an owner wants the port, does not know of it, or is asleep or about to sleep as its owner: exactly one of the three |
| InterleavedTheorems.WantedStays | driver/snx_share.c:882-929 | an owner that wants the port keeps it over every run of the others, and its own steps alone take it to where it can let go |
| InterleavedTheorems.StrandedStays | driver/snx_share.c:797-973 | a port whose owner does not know it owns it keeps that owner over every run in which that device does not claim, and every other claimer goes to sleep |
| InterleavedTheorems.StrandedRecovers | driver/snx_share.c:803-806 | the owner's own next claim finds that it owns the port |
| InterleavedTheorems.DoomedStays | driver/snx_share.c:810-879 | a port whose owner is put to sleep by its own locked region keeps that sleeping owner over every run whatsoever, and every other claimer goes to sleep |
| InterleavedTheorems.HandOffWantedIff | driver/snx_share.c:951-969 | a hand-off gives the port to a thread that wants it exactly when the waiter is still queued or has just begun a claim; one past its owner test and not queued is put to sleep for good, any other does not know |
| InterleavedTheorems.OwnerWantedStep | driver/snx_share.c:797-973 | no other step leaves the port with an owner that does not want it |
| InterleavedTheorems.LostForGood | driver/snx_share.c:797-973 | a queued thread that no pointer leads to sleeps for good, whatever anybody does |
| InterleavedTheorems.ServedInOrderIff | driver/snx_share.c:951-969 | over any run that blocks no owner, waiters are served in the order of arrival exactly when each is at the head of the queue when it is given the port |
| InterleavedTheorems.SavesOwnContext | driver/snx_share.c:945-948 | the byte a two-step release saves is what the last owner in between left, so its own exactly when there was none or that is the same byte |
| InterleavedTheorems.SavesOwnContextIff | driver/snx_share.c:945-948 | when nobody writes the register in between: exactly when no claim succeeds in between or the last loads the same byte |
| InterleavedRuns.Takes | driver/snx_share.c:882-929 | a claim of a free port that nobody disturbs takes it, with the saved byte in the register and the waiting word zero again |
| InterleavedRuns.Blocks | driver/snx_share.c:858-879 | one of an owned port ends asleep at the end of the queue |
| InterleavedRuns.Hands | driver/snx_share.c:951-958 | an undisturbed hand-off gives the port to the queued waiter and takes it off the list |
| InterleavedRuns.EndsAtOwner | driver/snx_share.c:803-806 | one that has picked the present owner ends there, with owner, links, queue and waiting words unchanged |
| InterleavedRuns.ZeroesWord | driver/snx_share.c:925 | the store at the end of a claim zeroes the waiting word, whatever was in it, and leaves links and owner as they are |
| InterleavedTraces.StrandedOwner | driver/snx_share.c:951-969 | a reachable interleaving after which the port is stranded with an idle owner |
| InterleavedTraces.DoomedOwner | driver/snx_share.c:803-879 | a reachable interleaving after which a device finds itself the owner in its own locked region and sleeps on its own queue |
| InterleavedTraces.WaiterLost | driver/snx_share.c:803-925 | a reachable interleaving after which the port is idle, nobody is releasing, and a queued thread can no longer be reached |
| InterleavedTraces.ServedOutOfTurn | driver/snx_share.c:951-969 | a reachable interleaving, blocking no owner, in which a stale hand-off serves a waiter before one that came first |
| InterleavedTraces.ContextLost | driver/snx_share.c:945-948 | a reachable interleaving in which another device's byte is saved for the one that released |
| PortSharing.InvStep | driver/snx_ppdev.c:380-420 | the step behind the next row, for opening, claiming, releasing, yielding, closing and printers |
| PortSharing.ClaimedIsOwner | driver/snx_lp.c:42-55 | after any run, yields included, a client between calls has its claim flag set exactly when its device owns the port; at most one has |
| PortSharing.ModesStep | driver/snx_common.h:1278-1287 | a step keeps the files' modes apart exactly when it is not a yield that gives the port away out of compatibility mode |
| PortSharing.ModesRun | driver/snx_ppdev.c:660-673 | so they stay apart over any run without such yields |
| PortSharing.PrivateMode | driver/snx_ppdev.c:437-481 | PPGETMODE tells a file the mode it asked for last, compatibility mode at first, whatever other clients did |
| PortSharing.IdlePortIsCompatible | driver/snx_ppdev.c:660-673 | while no client has claimed the port it is in compatibility mode |
| PortSharing.OwnModeStep | driver/snx_ppdev.c:410-414 | a file's remembered mode changes only by its own open, PPSETMODE and close |
| PortSharing.ClaimThenRelease | driver/snx_ppdev.c:406-420 | a claim puts a file's mode and phase in the port; what they have come to at the release is the file's, and the port's are those from before |
| PortSharing.SetThenGet | driver/snx_ppdev.c:437-502 | a mode and a phase that are set are what is told, claimed or not, and the port sees them only when claimed |
| PortSharing.InitPhaseOf | driver/snx_ppdev.c:310-321 | reverse idle for nibble and byte mode, with or without the device-id and address flags, forward idle otherwise |
| PortSharing.TransferKeeps | driver/snx_ieee1284_ops.c:94 | a transfer moves the port to another phase and changes nothing else |
| PortSharing.YieldsLeakModes | driver/snx_ppdev.c:654-658 | a run of two files in which PPGETMODE tells one of them a mode it never asked for |
| ModeLeaks.LeakMisleads | driver/snx_ppdev.c:406-420 | after every yield that leaves the port in a file's mode some run, which begins with one more file being opened, ends with a file being told another mode than it asked for last |
| ModeLeaks.PrivacyLost | driver/snx_ppdev.c:406-420 | so over runs from the start PPGETMODE stops being private as soon as one such yield is allowed |
| PpFiles.PpFile.Claim | driver/snx_ppdev.c:380-404 | PPCLAIM up to the sleep: refused when claimed, registers on first use, else the arbiter's claim |
| PpFiles.PpFile.Granted | driver/snx_ppdev.c:406-420 | its end: the port's mode put aside and the file's put in |
| PpFiles.PpFile.Release | driver/snx_ppdev.c:660-673 | PPRELEASE: modes swapped back, port released; refused without a claim |
| PpFiles.PpFile.Yield | driver/snx_ppdev.c:654-658 | PPYIELD leaves the mode in the port |
| PpFiles.PpFile.SetMode | driver/snx_ppdev.c:437-459 | PPSETMODE, claimed or not |
| PpFiles.PpFile.GetMode | driver/snx_ppdev.c:461-481 | PPGETMODE |
| PpFiles.PpFile.SetPhase | driver/snx_ppdev.c:484-502 | PPSETPHASE |
| PpFiles.PpFile.CloseClaims | driver/snx_ppdev.c:920-931 | closing without a claim but in another mode claims first |
| PpFiles.PpFile.Close | driver/snx_ppdev.c:932-967 | closing gives a claim up as PPRELEASE does and unregisters the device |
| PpFiles.PpFile.RegisterDevice | driver/snx_ppdev.c:274-307 | the look-up's reference is put back on success and failure alike |
| Wire.Snoc | driver/snx_ieee1284_ops.c:4-97 | one bus access: when a byte is received, and when the access was allowed |
| Wire.OthersAreNotMine | driver/snx_ieee1284_ops.c:4-97 | whatever other clients do on the bus, nothing of it is received from this one |
| Wire.StrobesAreAllowed | driver/snx_ieee1284_ops.c:25-66 | in a polite log every strobe this client raises follows, with nobody else on the bus in between, a status it read with bits 0x80 and 0x08 set |
| CompatPorts.CompatPort.WriteCompat | driver/snx_ieee1284_ops.c:4-97 | the bytes counted are exactly those the printer received, in order, one strobe each, each after a ready status with nobody else on the bus in between; none if no status read has bits 0x80 and 0x08 both set, all if every one has; and the port drives forward |
| CompatPorts.CompatPort.OneByte | driver/snx_ieee1284_ops.c:25-96 | one byte goes out exactly when the wait before it ends with a ready status: at once if the first status is, never if none is |
| CompatPorts.CompatPort.SendByte | driver/snx_ieee1284_ops.c:68-80 | one byte: data, strobe up, strobe down |
| CompatPorts.CompatPort.AwaitReady | driver/snx_ieee1284_ops.c:28-66 | the wait before each byte: true only straight after a ready status |
| CompatPorts.CompatPort.AwaitRound | driver/snx_ieee1284_ops.c:30-65 | one round of it; a printer in trouble, by bits 0x20, 0x10 and 0x08, ends the wait |
| CompatPorts.CompatPort.PollPeripheral | driver/snx_ieee1284.c:77-109 | 0 only straight after a matching status read |
| CompatPorts.CompatPort.WaitPeripheral | driver/snx_ieee1284.c:112-166 | 0 only straight after a matching status read |
| PrintClients.LpDevice.Write | driver/snx_lp.c:193-332 | the bytes received are a prefix of the caller's, and the result is their number plus what the first, unchecked, wait came to; so a positive result is their number exactly when that was 0; nothing is sent to a printer that is never ready, and at most 4096 times k bytes if the k-th copy fails |
| PrintClients.LpDevice.Begin | driver/snx_lp.c:236-249 | its beginning: the claim, the timeout, and the first wait, of which the result is kept |
| PrintClients.WaitSucceedsIff | driver/snx_lp.c:167-189 | a wait comes to 0 exactly when a status read finds the printer all right before a signal arrives, the first one for those who do not wait |
| PrintClients.ReportsTooFew | driver/snx_lp.c:247-258 | a printer out of paper at first and ready from then on receives everything, and 28 bytes fewer are reported |
| PrintClients.LpDevice.WriteChunks | driver/snx_lp.c:251-312 | the same for the chunk loop, across partial writes and yields |
| PrintClients.LpDevice.Turn | driver/snx_lp.c:251-312 | one turn of it: what is sent, whether to go on, and the next chunk |
| PrintClients.LpDevice.Between | driver/snx_lp.c:260-290 | when the loop goes on and what it returns otherwise |
| PrintClients.LpDevice.CheckStatus | driver/snx_lp.c:128-164 | one status read decides the result, and is the first access; nothing is sent |
| PrintClients.LpDevice.WaitReady | driver/snx_lp.c:167-189 | the result is that of the status reads and of when a signal comes; 0 only straight after a status that is all right; waiting sends nothing |
| PrintClients.PpWrite | driver/snx_ppdev.c:151-254 | a result that is not negative is the number of bytes received; -EINVAL sends nothing, nor does a write to a printer that is never ready |
| PrintClients.PpChunk | driver/snx_ppdev.c:190-247 | one turn of its loop, at most 1024 bytes: what is sent, the result so far, and whether to go on |
| SerialModel.NeverStalls | driver/snx_serial.c:455-551 | over any run from a live state, bytes pending and no flow control stop mean the transmit interrupt is enabled, once every writer has called start |
| SerialModel.StoppedSendsNothing | driver/snx_serial.c:4164-4167 | over any run from a stopped state, until a START is received or the tty is started, no byte of the ring is sent |
| SerialModel.HeldSendsNothing | driver/snx_serial.c:4164-4167 | over any run from a hardware stop, until CTS goes up or CRTSCTS is turned off, no byte of the ring is sent |
| SerialModel.StopsAndReleases | driver/snx_serial.c:455-551 | a STOP, a tty stop and CTS down establish those states, and what lifts them |
| SerialModel.NotHeldWithoutCtsFlow | driver/snx_serial.c:466-477 | without CTS flow control the modem's lines never hold the transmitter |
| SerialModel.InvStep | driver/snx_serial.c:455-551 | the step behind it, for all twelve operations |
| SerialModel.PutCharAloneStalls | driver/snx_serial.c:719-742 | put_char without its flush_chars does stall |
| SerialModel.BytesAreConserved | driver/snx_serial.c:4135-4184 | between flushes, bytes sent followed by bytes pending are exactly the bytes accepted, in order |
| SerialModel.StepConserves | driver/snx_serial.c:4135-4184 | the step behind it |
| SerialModel.InterruptsDrain | driver/snx_serial.c:4152-4180 | left alone, enough transmit interrupts send everything in order |
| XmitRings.CountAndSpace | driver/snx_common.h:621-626 | pending + free is 4095 for every pair of indices |
| XmitRings.XmitRing.Write | driver/snx_serial.c:1120-1149 | the copying loop ends and appends exactly min(count, free) bytes, across the wrap |
| XmitRings.XmitRing.Copy | driver/snx_serial.c:1131-1148 | one memcpy and its advance |
| XmitRings.XmitRing.PutChar | driver/snx_serial.c:700-715 | one byte appended, or dropped when full |
| XmitRings.XmitRing.Pop | driver/snx_serial.c:4171-4173 | the oldest byte |
| XmitRings.XmitRing.Pending | driver/snx_serial.c:757-769 | the number of bytes pending |
| XmitRings.XmitRing.Room | driver/snx_serial.c:1076-1092 | the number of bytes that fit |
| SerialPorts.SerialPort.Write | driver/snx_serial.c:1095-1155 | write refines filling the queue and starting; nothing without a page |
| SerialPorts.SerialPort.PutChar | driver/snx_serial.c:719-742 | put_char refines filling the queue |
| SerialPorts.SerialPort.FlushChars | driver/snx_serial.c:745-754 | flush_chars refines the start that is owed |
| SerialPorts.SerialPort.TtyStop | driver/snx_serial.c:508-525 | stop clears the transmit interrupt in shadow and hardware |
| SerialPorts.SerialPort.TtyStart | driver/snx_serial.c:528-551 | start enables it when bytes are pending and nothing stops them |
| SerialPorts.SerialPort.HandleCtsChange | driver/snx_serial.c:455-477 | CTS down stops the transmitter and disables its interrupt, CTS up undoes both, and without CTS flow control neither does anything |
| SerialPorts.SerialPort.SendXCharacter | driver/snx_serial.c:815-835 | a flow-control character and its interrupt |
| SerialPorts.SerialPort.Throttle | driver/snx_serial.c:838-871 | throttling |
| SerialPorts.SerialPort.Unthrottle | driver/snx_serial.c:874-906 | unthrottling withdraws a pending STOP or sends START |
| SerialPorts.SerialPort.TransmitChars | driver/snx_serial.c:4135-4191 | the transmit interrupt, in registers and flags: a flow-control character goes first; stopped or with nothing pending, no byte is written and the interrupt goes off; else at least one byte goes out, in order |
| SerialPorts.SerialPort.DrainFifo | driver/snx_serial.c:4168-4180 | its loop: at least one byte, at most the fifo size, from the head of the ring |
| SerialPorts.SerialPort.ReceiveChars | driver/snx_serial.c:4038-4132 | at most 257 characters; START and STOP act on the transmitter, the rest reach the tty |
| SerialPorts.SerialPort.NextChar | driver/snx_serial.c:4056-4110 | one character of it |
| SerialPorts.SerialPort.HandlePort | driver/snx_serial.c:4224-4279 | an interrupt as a whole refines the abstract operations it contains; with the transmitter neither empty nor allowed no byte goes out |
| SerialPorts.SerialPort.Serve | driver/snx_serial.c:4224-4241 | its first half: characters are read in exactly on receive interrupts, bytes go out exactly on a transmit interrupt with the transmitter empty |
| SerialPorts.SerialPort.CheckModemStatus | driver/snx_serial.c:4193-4221 | the modem lines: CTS is looked at when it changed and the status interrupt is on |
| SerialPorts.LastFlowCharWins | driver/snx_serial.c:4100-4108 | the last flow-control character received decides whether the transmitter is stopped, and is all that does |
| SerialPorts.OrdinaryBoth | driver/snx_serial.c:4056-4110 | what reaches the tty of two batches is what reaches it of each, in order |
| SerialPorts.InterruptKeeps | driver/snx_serial.c:4224-4279 | an interrupt keeps the transmitter live |
| SerialPorts.SerialPort.SetTermios | driver/snx_serial.c:3049-3101 | set_termios keeps the register protocol, leaves line control, bit by bit, and latch as the settings and the rate found ask, sends no divisor byte, and lifts a hardware stop when CRTSCTS goes off |
| SerialPorts.LineControlAsks | driver/snx_serial.c:3855-3885 | the byte for line control, bit by bit: word length, stop bits, parity, even parity exactly without PARODD, stick parity |
| SerialPorts.SerialPort.ApplyLine | driver/snx_serial.c:3847-4002 | line control and divisor from termios |
| SerialPorts.SerialPort.ProgramLine | driver/snx_serial.c:3987-4002 | after it LCR equals its shadow and the latch holds the divisor (16 bits), DLAB clear |
| SerialPorts.SerialPort.BreakCtl | driver/snx_serial.c:3755-3770 | break changes one line control bit |
| SerialPorts.SerialPort.Startup | driver/snx_serial.c:3773-3812 | after startup DLAB is clear, the interrupt enable register equals its shadow, and the empty transmitter is live |
| SerialPorts.SerialPort.Shutdown | driver/snx_serial.c:3815-3828 | shutdown disables all interrupts and ends a break, touching neither latch nor transmitter |
| Uart.LatchBytes | driver/snx_serial.c:402-414 | the two bytes of a divisor make its low 16 bits in the latch |
| Uart.RegisterMap | driver/snx_serial.c:3987-3994 | which register an access to each offset reaches, with the latch in the place of the first two while DLAB is set |
| LineRace.LatchKeptIff | driver/snx_serial.c:3987-3994 | with a start, which takes no lock, at any point: the latch holds the divisor exactly when the start writes nothing after the high byte and before DLAB is closed, or last that very byte |
| LineRace.RegistersAtEnd | driver/snx_serial.c:3982-4000 | whatever a start does: DLAB closed, line control as asked, no divisor byte sent, and the interrupt enable register equal to its shadow once the start is over |
| LineRace.ThriKeptIff | driver/snx_serial.c:3982-3985 | a transmit interrupt that a start enables meanwhile survives exactly when the start writes the shadow outside set_termios's own read and write of it |
| LineRace.RestKeptIff | driver/snx_serial.c:3982-3985 | the interrupts that set_termios asks for, the modem status interrupt among them, are in the shadow at the end exactly when no start writes back after set_termios's write what it read before, or nothing was to change |
| LineRace.ModemStatusLost | driver/snx_serial.c:3982-3985 | an interleaving after which the modem status interrupt asked for is not enabled |
| LineRace.LatchSpoilt | driver/snx_serial.c:539-550 | an interleaving that leaves divisor 1888 in place of 96 |
| LineRace.InterruptLost | driver/snx_serial.c:539-550 | an interleaving in which a start is over and the interrupt is not enabled |
| StartRace.InvStepIff | driver/snx_serial.c:528-550 | with start cut into its test, its read and its write of the shadow, beside all locked operations and the gaps in them, a step stalls the transmitter exactly when it wastes the last start under way: the start finds the interrupt on, or turns it on, while the lock holder will write it off |
| StartRace.NeverStallsIff | driver/snx_serial.c:3713-3733 | over a run the transmitter stays live throughout exactly when no start is wasted, and then bytes pending on a quiet port have the interrupt on |
| StartRace.StartUncut | driver/snx_serial.c:528-550 | undisturbed, the three steps are the start of the uncut machine |
| StartRace.LockedUncut | driver/snx_serial.c:3713-3722 | undisturbed, the steps of a locked operation are that operation of the uncut machine |
| StartRace.StoppedAfterStart | driver/snx_serial.c:4100-4108 | a run in which a STOP is received, tty start finds the interrupt still on, and bytes stay behind with nothing to send them |
| StartRace.WrittenBack | driver/snx_serial.c:3982-3985 | a run in which set_termios writes the interrupt off that a start has just turned on |
| Baud.GetBaudRate | driver/snx_serial.c:2871-3007 | the rate found: requested, else previous or 9600, else 0; and exactly when it is 0 |
| Baud.EveryRateIsGranted | driver/snx_serial.c:2871-3007 | with a base rate of at least 921600 the requested rate is granted |
| Baud.RateNumbers | driver/snx_serial.c:2871-3007 | the rates in bits per second |
| Baud.SetserialNumbers | driver/snx_serial.c:2877-2896 | the rates that setserial puts in the place of 38400, and when a divisor is the custom or a magic one |
| Baud.DivisorBrackets | driver/snx_serial.c:2857-2868 | then quot >= 1 and quot*baud <= base < (quot+1)*baud, and no magic multiplier applies |
| Baud.RateCanBeMissing | driver/snx_serial.c:3831-3844 | a lower base rate can leave no rate at all, and the division by it follows |
| BoardProbe.Prober.Probe | driver/snx_main.c:490-997 | success means all boards there are, one to four, in order; a failure has its reason |
| BoardProbe.Prober.Scan | driver/snx_main.c:531-612 | one pass ends and takes exactly the devices it should; the five passes differ in what a device must look like |
| BoardProbe.Prober.GetDevice | driver/snx_main.c:541-549 | the next device of a pass |
| BoardProbe.SlotsAreUnique | driver/snx_main.c:551-556 | each device has at most one slot, with the first pass and row that accept it, exactly when the first table row is a dummy |
| BoardProbe.NoneLeftOut | driver/snx_main.c:531-968 | every device some row accepts has a slot |
| BoardProbe.OneOutcome | driver/snx_main.c:531-968 | devices and table determine the boards found |
| BoardProbe.FirstAcceptance | driver/snx_main.c:531-968 | a device that is accepted at all has a first acceptance |
| BoardProbe.IdsInNumbers | driver/snx_main.c:531-905 | vendor and device number of each pass |
| BoardProbe.FitsInBits | driver/snx_main.c:828-865 | which row of the table fits a device, in the bits of its configuration registers |
| PortTables.Tables.GetBoardConf | driver/snx_main.c:1000-1050 | succeeds exactly when at most 32 serial and 2 parallel ports are found and every board has an interrupt |
| PortTables.Tables.AssignResource | driver/snx_main.c:1053-1146 | every board gets its own slice of both tables, contiguous, in board order, with its own ports in order, at the addresses of the next four rows |
| PortTables.SerAddresses | driver/snx_main.c:1084-1102 | a serial port at offset 0 has its range's address, two of one range are as far apart as their offsets; the vector register is found in the same way and is 0 where the board remaps it |
| PortTables.ParAddresses | driver/snx_main.c:1114-1143 | the same for both register blocks of the parallel ports |
| PortTables.SerRegistersApart | driver/snx_main.c:1089 | so ports whose ranges or offsets are apart share no register, on one board or two |
| PortTables.ParRegistersApart | driver/snx_main.c:1118-1124 | the same for the parallel ports' blocks |
| PortTables.BeyondIsZero | driver/snx_main.c:1053-1073 | past the last slice both tables are zero |
| PortTables.Tables.AssignSerial | driver/snx_main.c:1075-1102 | one board's serial slice |
| PortTables.Tables.AssignParallel | driver/snx_main.c:1105-1143 | the first free entries are the board's slice |
| PortTables.SerSliceOf | driver/snx_main.c:1084-1102 | every number below the total lies in exactly one board's slice |
| PortTables.MineIsMySlice | driver/snx_main.c:1286-1305 | boards that are not alike recognise exactly their own entries |
| PortTables.EveryPortIsFound | driver/snx_main.c:1286-1340 | table initialisation reaches every parallel port assigned exactly when no two boards with parallel ports share bus, device and type |
| PortTables.AlikeIsMissed | driver/snx_main.c:1286-1340 | otherwise the second board's first entry is missed |
| PortTables.Tables.ParPortTableInit | driver/snx_main.c:1269-1340 | which entries are initialised, and to what |
| PortTables.InitedNumbers | driver/snx_main.c:1310-1330 | what initialisation adds to an entry |
| PortTables.Tables.InitBoard | driver/snx_main.c:1287-1340 | one board's turn |
| PortRegistry.Registry.AttachedOnce | driver/snx_share.c:85-157 | attaches minus detaches of a driver and port is 1 if both are present and 0 otherwise, and was 0 or 1 at every moment before |
| PortRegistry.Registry.RegisterDriver | driver/snx_share.c:145-157 | a new driver is attached to every port present |
| PortRegistry.Registry.UnregisterDriver | driver/snx_share.c:205-215 | a leaving driver is detached from every port present |
| PortRegistry.Registry.AnnouncePort | driver/snx_share.c:489-520 | a new port is attached to every driver present |
| PortRegistry.Registry.RemovePort | driver/snx_share.c:527-548 | a leaving port is detached from every driver present |
| PortRegistry.Registry.RegisterPort | driver/snx_share.c:380-394 | a new port gets the least unused number from 2 on, at its place in the ordered list |
| PortRegistry.Registry.FreePort | driver/snx_share.c:252-259 | freeing keeps the list strictly increasing |
| PortRegistry.Registry.PutPort | driver/snx_share.c:305-311 | one reference less; the last one frees the port |
| PortRegistry.Registry.FindNumber | driver/snx_share.c:743-767 | the look-up finds the one announced port with a number and takes a reference, or finds nothing |
| PortRegistry.OneCall | driver/snx_share.c:85-131 | one callback keeps the balance |
| PortRegistry.Gap | driver/snx_share.c:382-394 | where the loop stops is the least unused number, and inserting there keeps the order |
| UartTypes.Card.SetType | driver/snx_serial.c:2504-2668 | SET_TYPE changes the bits, copies and modem control of its own port as its type asks, and nothing of another port |
| UartTypes.Card.GetType | driver/snx_serial.c:2413-2502 | GET_TYPE decodes the port's own bits; numbers above 16 leave the caller's value |
| UartTypes.Card.SetAcs | driver/snx_serial.c:2713-2752 | SET_ACS changes its own port's bit only |
| UartTypes.Card.GetAcs | driver/snx_serial.c:2672-2710 | GET_ACS |
| UartTypes.TypeBytes | driver/snx_serial.c:2545-2657 | the branches of SET_TYPE on the four shared registers, bit by bit |
| UartTypes.LowBits | driver/snx_serial.c:2545-2549 | one port's bit operations leave the other ports' bits alone |
| UartTypes.BitsInNumbers | driver/snx_serial.c:2427-2447 | which bit of which register is whose |
| UartTypes.TypesInNumbers | driver/snx_serial.c:2545-2657 | what each line type sets and clears, on each kind of card |
| UartTypes.Card.BlocksInNumbers | driver/snx_serial.c:2413-2432 | which registers the four blocks of ports have, and where a card's kind is read |
| UartTypes.Isolation | driver/snx_serial.c:2530-2752 | over any run of settings of other ports, nothing of a port changes |
| UartTypes.LastSetWins | driver/snx_serial.c:2434-2666 | over any run, GET_TYPE gives what the port's last SET_TYPE makes of it |
| UartTypes.SupportedTypeRoundTrip | driver/snx_serial.c:2434-2666 | GET_TYPE gives the last supported type exactly when no unsupported one followed, or an unsupported one reads as it: RS-232 on the kinds that have it |
| UartTypes.AcsRoundTrip | driver/snx_serial.c:2672-2752 | over any run the ACS bit is the one last set, except that changing to RS-232 or RS-422 clears it |
| UartTypes.CopiesFollow | driver/snx_serial.c:2566-2653 | the driver's copies of the type bits go wrong exactly when an unsupported type clears bits they hold set |
| Timeouts.GetThenSet | driver/snx_ppdev.c:818-858 | for every HZ up to a million, reading the timeout and setting it back reproduces every positive count |
| Timeouts.SetThenGet | driver/snx_ppdev.c:818-858 | setting and reading back adds less than one tick, for every time, exactly when HZ divides a million |
| Timeouts.NeverShorter | driver/snx_ppdev.c:818-858 | and never shortens the time, whatever HZ is |
| Timeouts.AddedIs | driver/snx_common.h:874 | how much is added, exactly |
| Timeouts.FewestTicks | driver/snx_ppdev.c:833-834 | a time set is HZ ticks for each second and the fewest ticks not shorter than its microseconds |
| Timeouts.ReadInTicks | driver/snx_ppdev.c:848-849 | a time read is the whole seconds in the count and the ticks left, in microseconds |
| Timeouts.Refused | driver/snx_ppdev.c:818-843 | exactly negative numbers and a zero time are refused |

## Left out

- Parports.Parport.Claim: the preempt callback can only refuse, as the printer driver's does and as the absent one of user-space files comes to; saving the state of a preempted owner (driver/snx_share.c:817) is unreachable with these clients.
- Parports.Parport.HandOff: the loop over waiters stops at the first, because every queued device's thread sleeps; wakeup callbacks are NULL for all clients and are not modelled, nor is waking devices from the device list.
- Parports.Parport.ClaimOrBlock: waits are not interrupted, except in BlockWhileQueued and BlockingTwiceBreaksQueue, which say what an interruption leads to.
- Parports.Parport.UnregisterDevice: the device leaves the wait queue before the device list, as one step under both locks.
- Parports.Parport.RegisterDevice: two overlapping exclusive registrations; the check at driver/snx_share.c:606 is outside the lock.
- Parports.Parport.constructor: what the chip answers when it is probed is an input; the ECR's contents, the modes they lead to, the data register and the reservation of I/O regions are left out.
- PortSharing.PrivateMode: one thread per file; values of the 1284 mode constants are those of the kernel's header, which is not part of this model.
- PpFiles.PpFile.Claim: the interrupt that is enabled after a claim and the inactivity timeout read back are left out.
- CompatPorts.CompatPort.WaitPeripheral: clocks and timers are arbitrary; what the status will read as, and after how many checks a signal is pending, are inputs, and that number is finite, so that every wait ends.
- CompatPorts.CompatPort.ReleaseAndReclaim: what others do while the port is away is an arbitrary sequence of bus accesses, followed by the write that restores the control byte.
- PrintClients.LpDevice.Write: an interrupted wait for the device's mutex, and modes other than Compatibility Mode.
- PrintClients.PpWrite: EPP, and running out of memory for its buffer.
- SerialModel.NeverStalls: takes start as one step, although it holds no lock; `StartRace` cuts it. It says nothing of a pending flow-control character, which the source may leave without an interrupt.
- StartRace.NeverStallsIff: follows the shadow of the interrupt enable register; when the register itself is written is the business of `LineRace`.
- LineRace.RestKeptIff: the two updates of the shadow in set_termios (driver/snx_serial.c:3982-3985) count as one read and one write.
- InterleavedInvariant.NoLostWakeup: one thread per device, which is the only one to claim and release for it; waits are not interrupted.
- InterleavedInvariant.InvStepIff: what the locked region of a claim writes is seen by the others at once; a walk or a sleeping thread that reads a waiting word or a link halfway through it is left out, and preempt callbacks refuse.
- ModeLeaks.LeakMisleads: takes for granted that one more file can be opened.
- SerialPorts.SerialPort.TtyStart: one step; so are the starts that end write and flush_chars. `StartRace.StartUncut` ties the step to its parts.
- SerialPorts.SerialPort.HandlePort: the interrupt is one step under the port lock; bits of the modem control register other than those named, receive error flags and counters are left out.
- SerialPorts.SerialPort.SetTermios: undisturbed by a start (see `LineRace` and `StartRace`); the termios bits that only choose which errors are reported.
- SerialPorts.SerialPort.Startup: FIFO reset sequences read from the chip are arbitrary.
- Baud.DivisorBrackets: without a custom divisor; with it the divisor is whatever the user set.
- BoardProbe.Prober.Probe: whether a device can be enabled is a property of the device, the same each time it is asked.
- PortTables.Tables.AssignResource: addresses do not wrap; vector_mask and the printing of what was found.
- UartTypes.Card.SetType: port numbers from 1 to 16; a larger one would write to I/O address 2 and upward. The copies in EEPROM and what the GPIO bits mean to the hardware.
- Timeouts.SetTime: the product of seconds and HZ does not overflow a long.
- PortRegistry.Registry.AnnouncePort: ports have no slaves; nothing in the driver sets them.
- PortRegistry.Registry.FreePort: when a port is freed is the reference count's business, in `Parports`.
- PPGETMODES keeps the reference of its look-up (driver/snx_ppdev.c:531-545) and is not modelled.
- Serial port open, close, hangup, set_info, suspend and resume: they depend on the tty core.
- The tools, the sysctl tables, the device tables' contents, kernel plumbing and branches for kernels before 2.6.
