# Verified models of the Madsim device simulation and the baseball predictors

This project models the parts of the repository whose state changes step by step, and
proves what those parts keep over whole runs. `dafny verify dfyconfig.toml` checks all of it.

| file | subject |
|---|---|
| `DmaChain.dfy` | the driver's list of hardware DMA descriptors in a reused array, and the controller that walks it: a chain means one contiguous transfer |
| `Registers.dfy` | the register bits of one request: program, poll, classify |
| `RequestProtocol.dfy` | driver and simulated device as a state machine over submit, poll, alert, register reset, interrupt delivery and work items; its invariant and what follows from it |
| `RequestOutcomes.dfy` | what a request's caller gets back for every alert, fault and refusal |
| `DeviceDriver.dfy` | the same code in place: registers, slot array, handlers, DPC, work items, each proved to make its step of the protocol and to keep its invariant |
| `Accounting.dfy` | the shared byte counter behind kilobytes and power |
| `PollHandshake.dfy` | polling thread and dialog thread over three events and a message queue, all interleavings; the dialog's handlers over the device |
| `TeamHistory.dfy` | one team's counters after each game, against what they are of the list of results |
| `Season.dfy` | a season of games over 30 teams and its collation |
| `Predictors.dfy` | five predictors, their agreement matrix, divergences and totals |
| `CombinedPredictor.dfy` | the combined predictor over real rates |
| `Options.dfy` | the optional value the others share |

Objects that the repository updates in place are classes whose methods update the same
fields; each method equates the new state with a function of the old one, the lemmas are about
those functions, and a `Valid` predicate ties the object to what they prove. Pure functions of
the repository are functions.

## Where the code does not do what one would expect

Each of these is kept as the code has it. The lemmas named give a run, an input or a
construction that shows it, and the exact condition under which the code does what is expected.

- A read into overlapping host segments cannot deliver all data (`OverlapLoses`,
  `ReadDeliversIffDisjoint`).
- A cached transfer polled twice before its interrupt is delivered is classified as a
  buffered one (`SecondPollKeepsTypeIff`).
- An interrupt delivered while a work item is queued can complete a request twice
  (`DoubleCompletionHappens`, `DoubleCompletionIff`); a fatal error attributed to a request
  leaves it in its slot after completing it (`FatalKeepsSlotHappens`, `FatalFreesSlotIff`).
- Two errors at once, drawn by the poll or raised by the transfer, reach the asserting default
  of the status switch (`InjectedErrorsKnownIff`, `TimeoutKnownIff`).
- The bus thread's assertion on the interrupt id fires for any request announced with an alert,
  and its assertion on the host address for every align and every chained request
  (`BusAssertionsIff`).
- Starting auto mode resets the registers under a pending request. Unless its work item is
  queued it then stays pending until the next alert (`ResetStrandsHappens`, `ResetStrandsIff`,
  `AlertFreesStranded`).
- In automatic mode a buffered request reports 16 bytes whatever its length, because the polls
  never write the count field of the status register; the report is right for exactly the
  16-byte requests (`RequestRoundTrip`).
- An align request for a sector the device does not have is aligned to another one instead of
  failing, because the offset field wraps before the extent is checked (`AlignedSectorIff`); a
  buffered request longer than 256 bytes, or not of whole units, is programmed with another
  length (`CountFieldIff`).
- A timeout is a success code, so that a DMA request cut off by it reports its full count
  (`AlertReachesCaller`).
- A manual handler can let the polling thread pass its wait with the POLL still unhandled
  (`ManualLeavesPoll`, `StopAfterPollHandled`).
- A successful wait for Stop does not mean that the polling thread has stopped
  (`StopMissesThread`, `StopCatchesThreadUnless`); starting auto mode over an outstanding
  manual request leads to a manual flag in automatic mode (`HastyAutoDisagrees`,
  `ModesAgreeIff`, `FlagsAgreeIff`).
- One device can be credited a kilobyte that another device moved (`SharedCounterMiscredits`,
  `FairIff`), and a completion of several units would be credited one kilobyte only (`WholeKilobytesIff`).
- Opposite momentum counts a right prediction twice, and two unknown (zero) payrolls count as
  different (`ExactlyOneOutcomeConfirms`, `AgreementsIgnoreWinnerIff`); the comments in the
  code describe neither. Because of the first the combined predictor can be counted as right
  whoever wins (`MajorityBothWaysIff`), because of the second the two programs disagree on how
  many games they sampled (`SeasonCountersAgree`).
- The one's-complement assertion fires when two predictors never predicted the same game
  (`Divergence`).

One result is about inputs the program does not produce: with repeated rates the combined
predictor could pick an inactive predictor as the best (`BoundHoldsIff`). Its only caller passes
the constant rates of Baseball_Constants.py, which are distinct (`SourceRatesQualify`).

## Assumptions

- The steps of the request protocol are atomic at the grain of a handler, an interrupt
  delivery with its DPC, and a work item. One request is outstanding at a time, as the
  sequential queue and the repository's caveats say. The simulator polls only when the last
  message has been taken, and an interrupt with an id bit is delivered only when no work item
  is queued; what happens otherwise is the subject of `SecondPollKeepsTypeIff` and
  `DoubleCompletionIff`. After a fatal error only its work item runs.
- Physical addresses of descriptor slots are distinct and never 1, and the device is smaller
  than 4 GB.
- Scores, counts and totals are unbounded integers; rates are reals. The registers are 32-bit
  vectors, device offsets wrap at 64 bits and byte totals at 32.

## Model

| member | source | states |
|---|---|---|
| DmaChain.FdoData.BuildChain | MadsimVs2019/MadDevice/MadDevIoFunxns.cpp:1340-1399 | For any earlier contents of the reused array, slots 0..n-1 hold the chain for the scatter list (running 64-bit device offset, direction bit, forward links, end marker last) and every later slot keeps what it held |
| DmaChain.FdoData.ProgramDma | MadsimVs2019/MadDevice/MadDevIoFunxns.cpp:1260-1311 | One element is programmed as one block, more as a chain headed by slot 0 with the chained bit; then Go is set; interrupt id and status are untouched |
| DmaChain.ChainVisitsExactlyItsSlots | Mad_Hardware_Device/run_sg_descriptor_walk.py:49-111 | Following CDPP from the head meets exactly slots 0..n-1, each once, in order, and no stale slot; it adds up to the length of the whole list and stops at the end marker, not at an unknown address or for want of fuel |
| DmaChain.FollowFrom | Mad_Hardware_Device/run_sg_descriptor_walk.py:67-106 | The same from any slot j of the chain: slots j..n-1, the bytes of elements j..n-1, then the end marker |
| DmaChain.NoWrap | MadsimVs2019/MadDevice/MadDevIoFunxns.cpp:1370-1371 | Within a device smaller than 4 GB neither the 64-bit offset nor the ULONG byte total wraps |
| DmaChain.WriteIsContiguous | MadsimVs2019/MadDevice/MadDevIoFunxns.cpp:1361-1386 | Writing block by block equals one contiguous copy of the concatenated host segments to the device range, and changes no other byte of either memory |
| DmaChain.ReadDelivers | MadsimVs2019/MadDevice/MadDevIoFunxns.cpp:1361-1386 | A read into pairwise disjoint segments leaves the device range, in order, in the segments |
| DmaChain.ReadKeepsTheRest | MadsimVs2019/Madbus/MadBusPdoIntThread.cpp:724-732 | A read changes no host byte outside the segments |
| DmaChain.WriteThenRead | MadsimVs2019/MadDevice/MadDevIoFunxns.cpp:1340-1399 | Write with one list, read the same range back with any other list of the same total and disjoint segments: the original bytes arrive in order, however the two lists split them |
| DmaChain.ReadDeliversIffDisjoint | MadsimVs2019/MadDevice/MadDevIoFunxns.cpp:1361-1386 | A list delivers every device content in order if and only if its segments are pairwise disjoint |
| DmaChain.OverlapLoses | MadsimVs2019/MadDevice/MadDevIoFunxns.cpp:1361-1386 | For any two overlapping segments there is device content that the read cannot deliver |
| DmaChain.PdoDeviceData.WalkChain | MadsimVs2019/Madbus/MadBusPdoIntThread.cpp:692-741 | The walk stops at the end marker or at the first failed mapping, after exactly the blocks before it, with their byte total |
| DmaChain.PdoDeviceData.ProcessDevSgDma | MadsimVs2019/Madbus/MadBusPdoIntThread.cpp:671-750 | The walk is one contiguous transfer of the blocks before the first failed mapping, DTBC ends as their total, and alert and resource error are raised exactly if a mapping failed |
| DmaChain.PdoDeviceData.ProcessDevDma | MadsimVs2019/Madbus/MadBusPdoIntThread.cpp:581-628 | The one-block transfer; or, if the mapping fails, unchanged memories and the alert with the resource error |
| DmaChain.PdoDeviceData.ServeDmaRequest | MadsimVs2019/MadDevice/MadDevIoFunxns.cpp:1196-1319 | Driver and device together, for every list of 1 to 16 elements and any failing mapping: the blocks before the first failure are one contiguous transfer; a read into disjoint segments leaves the device range in order; all mapped, the length is reported and nothing raised, otherwise the alert with the resource error |
| DmaChain.PdoDeviceData.StoreAndFetch | MadsimVs2019/MadDevice/MadDevIoFunxns.cpp:1196-1319 | Two requests in place: what one list wrote, any other list of disjoint segments reads back |
| DmaChain.FetchPacket | MadsimVs2019/Madbus/MadBusPdoIntThread.cpp:695-698 | Mapping a physical descriptor address reaches the slot that has it |
| DmaChain.Mapped | MadsimVs2019/Madbus/MadBusPdoIntThread.cpp:698-718 | Where the first failed mapping is |
| Registers.ProgramArms | MadsimVs2019/MadDevice/MadDevIoFunxns.cpp:1626-1682 | Programming a request of any type, length and cache index sets exactly the enable, Go, cache and chained bits of that type |
| Registers.PollAnnounces | MadsimVs2019/MadDevSimUsrInt/Automatic.cpp:298-427 | One poll of a started device in a covering direction announces exactly its type, whatever errors are drawn |
| Registers.PollMisses | MadsimVs2019/MadDevSimUsrInt/Automatic.cpp:302-308 | A poll that does not look at the request direction, and any poll of a device without control bits, changes nothing |
| Registers.FireAttributes | MadsimVs2019/MadDevSimUsrInt/ErrorFunxns.CPP:106-127 | Whatever errors are drawn, a fired branch adds just its id bit beside the alert bit |
| Registers.TypeOfBits | MadsimVs2019/MadUtilFunxns.cpp:221-302 | Interrupt id, cache bit and chained bit determine the request type |
| Registers.ValidTypeIff | MadsimVs2019/MadUtilFunxns.cpp:221-302 | No other interrupt id is taken for a request of a type, and an id without a request bit, and only that, for none |
| Registers.ClassifiesIssuedType | MadsimVs2019/MadUtilFunxns.cpp:221-302 | Program a device with no interrupt pending, poll it once, classify the snapshot: the issued type comes back, for all ten types, every length, offset and injected error |
| Registers.AlertKeepsAnnouncement | MadsimVs2019/MadDevSimUsrInt/MANUAL.CPP:60-65 | A timeout alert raised over an announced request, with any status, keeps its type |
| Registers.SecondPollKeepsTypeIff | MadsimVs2019/MadDevSimUsrInt/Automatic.cpp:322-341 | Polled twice before delivery, a request keeps its type if and only if it is not a cached transfer, which is then taken for a buffered one; a second poll changes nothing for any other type |
| Registers.CountFieldIff | MadsimVs2019/MadDevice/MadDevIoFunxns.cpp:853-857 | The control register of a buffered request holds its length if and only if that is one to sixteen whole units |
| Registers.AlignedSectorIff | MadsimVs2019/Madbus/MadBusPdoIntThread.cpp:534-545 | What the transfer aligns the cache to after the poll is the requested sector, rounded down, if and only if the device has that sector; it is always below the extent |
| RequestProtocol.InvInitially | MadsimVs2019/MadDevice/MadDevice.cpp:534-543 | A freshly initialised device satisfies the invariant |
| RequestProtocol.InvStep | MadsimVs2019/MadDevice/MadDevIoFunxns.cpp:249-475 | Every step (submit, poll, alert, register reset, delivery with DPC, work item) keeps: one slot, transaction, work item and register image for one request in one phase; host address as its type has it; completions balance; refusals bounded |
| RequestProtocol.FatalCompletesAll | MadsimVs2019/MadDevice/MadDevIoFunxns.cpp:591-628 | The fatal-error work item hands back the pending request, with the status of the fatal error and no bytes, and nothing else, so that every submitted request has been handed back exactly once |
| RequestProtocol.InvRun | MadsimVs2019/MadDevice/MadDevIoFunxns.cpp:55-106 | The invariant holds after every run of steps, and its last form after a fatal error |
| RequestProtocol.ExactlyOnce | MadsimVs2019/MadDevice/MadDevIoFunxns.cpp:491-573 | In a reachable state an accepted request is in exactly one slot and not completed, or completed exactly once and in no slot |
| RequestProtocol.NothingElseCompleted | MadsimVs2019/MadDevice/MadDevIoFunxns.cpp:690-710 | No request that was not submitted is ever pending or completed |
| RequestProtocol.ReachableIsClean | MadsimVs2019/MadDevice/MadDevIoFunxns.cpp:453-475 | In a reachable state the non-null request assertion, the undefined-completion case, the slot and transaction assertions have not fired; an idle device has no Go or cache bit and at most a bare alert in its id; without a message there is neither id nor status |
| RequestProtocol.RunIsSafe | MadsimVs2019/MadDevice/MadDevIoFunxns.cpp:249-475 | For every run from an initial state: those assertions hold, refusals are at most unattributed errors, a submitted request is in one slot or completed once, after a fatal error completed once, no other request is pending or completed, and the idle registers are as above |
| RequestProtocol.ExtraneousInterrupt | MadsimVs2019/MadDevice/MadDevIoFunxns.cpp:94-100 | An interrupt without an id bit changes nothing but the message id: no slot, no completion, no other register |
| RequestProtocol.DeliverPhase | MadsimVs2019/MadDevice/MadDevIoFunxns.cpp:249-450 | Delivering an interrupt takes a request on to its work item, completes it, or leaves it where it was |
| RequestProtocol.TransferKeepsType | MadsimVs2019/Madbus/MadBusPdoIntThread.cpp:374-386 | The bus transfer at most raises the alert of an announced request; its type stays |
| RequestProtocol.CompleteAnyHandsBackAll | MadsimVs2019/MadDevice/MadDevIoFunxns.cpp:690-710 | Completing whatever is pending hands back exactly the requests in the slots, once each, with one status, and empties every slot, for any set of slots |
| RequestProtocol.CompleteOne | MadsimVs2019/MadDevice/MadDevIoFunxns.cpp:502-504 | Completing a request and freeing its slot moves exactly that request |
| RequestProtocol.DeliverConserves | MadsimVs2019/MadDevice/MadDevIoFunxns.cpp:249-450 | A delivery neither loses nor duplicates a request |
| RequestProtocol.WorkConserves | MadsimVs2019/MadDevice/MadDevIoFunxns.cpp:524-573 | Nor does a work item |
| RequestProtocol.DeliverRecords | MadsimVs2019/MadDevice/MadDevIoFunxns.cpp:356-366 | A device error is recorded exactly when it belongs to no request, is not fatal and has a nonzero status |
| RequestProtocol.UnattributedFailsAll | MadsimVs2019/MadDevice/MadDevIoFunxns.cpp:356-367 | An alert with no announced request, unless fatal, fails every pending request with one status, empties the slots and is recorded |
| RequestProtocol.RefusedThenAccepted | MadsimVs2019/MadDevice/MadDevIoFunxns.cpp:1152-1174 | A recorded error refuses exactly one read or write, with its status and no effect on slots or registers; the next one is accepted |
| RequestProtocol.InjectedErrorsKnownIff | MadsimVs2019/MadDevice/MadDevIoFunxns.cpp:282-344 | For a started request polled from a clear status: the status switch has a case for what the interrupt handler finds if and only if at most one of general error, busy and bus fault is there; otherwise its default assertion fires |
| RequestProtocol.TimeoutKnownIff | MadsimVs2019/MadDevSimUsrInt/MANUAL.CPP:60-65 | A timeout alert over an announced request has a case if and only if the transfer adds no fault bit |
| RequestProtocol.BusAssertionsIff | MadsimVs2019/Madbus/MadBusPdoIntThread.cpp:374-639 | In a reachable state with an announced request and no device failure: the bus thread's assertion on the host address holds if and only if the request is neither an align nor a chained one, its assertion on the interrupt id if and only if no alert came with it |
| RequestProtocol.ResetStrandsIff | MadsimVs2019/MadDevSimUsrInt/MgmtFunxns.cpp:603-618 | After the registers were reset under a pending request, some run without an alert finishes it if and only if its work item was already queued |
| RequestProtocol.StrandedStays | MadsimVs2019/MadDevSimUsrInt/Automatic.cpp:185-207 | No run of polls, extraneous interrupts and further resets completes a stranded request or frees its slot |
| RequestProtocol.AlertFreesStranded | MadsimVs2019/MadDevSimUsrInt/MANUAL.CPP:54-83 | The next alert, unless fatal, does: it fails the stranded request, once, and frees its slot |
| RequestProtocol.ResetStrandsHappens | MadsimVs2019/MadDevSimUsrInt/Automatic.cpp:170-207 | A fresh device gets there: any request, then the reset of an auto start |
| RequestProtocol.DoubleCompletionIff | MadsimVs2019/MadDevice/MadDevIoFunxns.cpp:502-504 | A work item completes its request a second time if and only if an interrupt that was neither extraneous nor fatal was delivered while it was queued |
| RequestProtocol.DoubleCompletionHappens | MadsimVs2019/MadDevice/MadDevIoFunxns.cpp:502-504 | A run of a fresh device that completes any buffered, cached or DMA request twice: submit, poll, deliver, timeout alert, deliver, work item |
| RequestProtocol.FatalFreesSlotIff | MadsimVs2019/MadDevice/MadDevIoFunxns.cpp:606-618 | A fatal error completes the pending request exactly once and frees its slot if and only if the error work item carries no request; the transaction and the work item are gone in both cases |
| RequestProtocol.FatalKeepsSlotHappens | MadsimVs2019/MadDevice/MadDevIoFunxns.cpp:606-618 | A run of a fresh device after which any request is completed and still in its slot: submit, poll, device failure, deliver, error work item |
| RequestProtocol.RequestRoundTrip | MadsimVs2019/MadDevice/MadDevIoFunxns.cpp:384-429 | Submit, one error-free poll, delivery, work item, each allowed: every request to an idle device comes back once with success and its count (a DMA request its length, unless the framework reports another), and the device is idle again |
| RequestProtocol.MishapReachesCaller | MadsimVs2019/MadDevice/MadDevIoFunxns.cpp:282-378 | A request hit by one injected error, resource failure or extent error comes back once, with that error's own status and zero bytes, and frees its slot |
| RequestProtocol.ReadCountDecodes | MadsimVs2019/MadDevice/MadDevIoFunxns.cpp:386-391 | The read count field k, beside any other status bits, means (k + 1) * 16 bytes |
| RequestProtocol.WriteCountDecodes | MadsimVs2019/MadDevice/MadDevIoFunxns.cpp:396-401 | The same for the write count field |
| RequestOutcomes.FatalAlertReachesCaller | MadsimVs2019/MadDevice/MadDevIoFunxns.cpp:282-367 | Over delivery and error work item, for any fault of the transfer: a device failure hands the pending request back with the adapter hardware error, a dead device with the device power failure, each with no bytes and nothing else, whether the alert came with the request's interrupt or before it |
| RequestOutcomes.FatalRunHandsBack | MadsimVs2019/MadDevice/MadDevIoFunxns.cpp:591-628 | Every run that ends with the error work item hands back exactly the pending request, with one of those two statuses and no bytes |
| RequestOutcomes.AlertReachesCaller | MadsimVs2019/MadDevice/MadDevIoFunxns.cpp:282-378 | A timeout, invalid-i/o or empty alert reaches the caller once with its own meaning: beside the request's interrupt through its work item, before it at once and recorded; a timed-out DMA request reports its full count, any other none |
| RequestOutcomes.UnknownReachesCaller | MadsimVs2019/MadDevice/MadDevIoFunxns.cpp:339-344 | Error bits that have no case of their own, two errors at once for instance, come back with their request as an invalid device state and no bytes |
| RequestOutcomes.FaultIff | MadsimVs2019/Madbus/MadBusPdoIntThread.cpp:374-386 | The transfer raises an error if and only if the fault can strike the type or a needed host address is missing, and then the bit of that error |
| RequestOutcomes.SubmitAcceptsIff | MadsimVs2019/MadDevice/MadDevIoFunxns.cpp:1152-1174 | A request is accepted if and only if it need not be ready or the device is, and its setup succeeds; otherwise it comes back at once with the reason, and slots, registers and transaction stay |
| RequestOutcomes.DeliveryRearms | MadsimVs2019/MadDevice/MadDevIoFunxns.cpp:437-450 | Every delivery of an interrupt with an id bit leaves message, control, status, id and host address clear and all interrupts enabled |
| RequestOutcomes.DeliverCountsErrors | MadsimVs2019/MadDevice/MadDevIoFunxns.cpp:378-381 | The error count grows by one for each alert that is not fatal, and for nothing else in a reachable state |
| RequestOutcomes.BufrdReports | MadsimVs2019/MadDevice/MadDevIoFunxns.cpp:384-401 | With any two count fields in the status register a buffered read reports the one and a buffered write the other |
| DeviceDriver.MadDevice.constructor | MadsimVs2019/MadDevice/MadDevice.cpp:534-543 | All slots empty, registers zero: an initial state of the protocol, and valid |
| DeviceDriver.MadDevice.AcceptedOnce | MadsimVs2019/MadDevice/MadDevIoFunxns.cpp:491-573 | Of any valid device object: an accepted request is in exactly one slot of the array or completed exactly once; after a fatal error all are completed exactly once |
| DeviceDriver.MadDevice.InjectAnyErrs | MadsimVs2019/MadDevSimUsrInt/ErrorFunxns.CPP:106-127 | Registers change as the drawn errors say |
| DeviceDriver.MadDevice.PollInput | MadsimVs2019/MadDevSimUsrInt/Automatic.cpp:298-357 | The three input branches, updating control, id, status and message in place, make the poll step of the protocol |
| DeviceDriver.MadDevice.PollOutput | MadsimVs2019/MadDevSimUsrInt/Automatic.cpp:368-427 | The same for output |
| DeviceDriver.MadDevice.HandlePoll | MadsimVs2019/MadDevSimUsrInt/Automatic.cpp:255-274 | An extraneous interrupt or the polls of the run mode: the poll step, keeping the invariant wherever the protocol allows it |
| DeviceDriver.MadDevice.RaiseTimeout | MadsimVs2019/MadDevSimUsrInt/MANUAL.CPP:61-65 | Leaving automatic mode raises the alert with timeout status: the alert step, keeping the invariant |
| DeviceDriver.MadDevice.ResetDevice | MadsimVs2019/MadDevSimUsrInt/MgmtFunxns.cpp:603-618 | Clears the register block: the reset step, keeping the invariant |
| DeviceDriver.MadDevice.VerifyIoReady | MadsimVs2019/MadDevice/MadDevIoFunxns.cpp:1152-1174 | Refuses with the recorded error and clears it, refuses when powered down, else changes nothing |
| DeviceDriver.MadDevice.ProgramBufrdIo | MadsimVs2019/MadDevice/MadDevIoFunxns.cpp:1735-1754 | Address, enable and control registers with Go |
| DeviceDriver.MadDevice.BufrdRequest | MadsimVs2019/MadDevice/MadDevIoFunxns.cpp:804-862 | The buffered handlers make the submit step and keep the invariant where it is allowed |
| DeviceDriver.MadDevice.CacheRequest | MadsimVs2019/MadDevice/MadDevIoFunxns.cpp:1626-1682 | The cache and align controls make the submit step without asking for readiness; an align request gets no host address |
| DeviceDriver.MadDevice.DmaRequest | MadsimVs2019/MadDevice/MadDevIoFunxns.cpp:962-1036 | The DMA handlers make the submit step; a chained request gets no host address and no byte count of its own |
| DeviceDriver.MadDevice.ProcessDevIo | MadsimVs2019/Madbus/MadBusPdoIntThread.cpp:349-656 | The fault bits, the alert and the byte count of a walked chain change as the transfer says |
| DeviceDriver.MadDevice.WdmIsr | MadsimVs2019/MadDevice/MadDevIoFunxns.cpp:127-232 | Weeds out an empty id, counts unexpected bits, clears the registers |
| DeviceDriver.MadDevice.InterruptHandler | MadsimVs2019/MadDevice/MadDevIoFunxns.cpp:55-106 | Snapshot before the reset, message cleared either way |
| DeviceDriver.MadDevice.CompleteAnyPendingIOs | MadsimVs2019/MadDevice/MadDevIoFunxns.cpp:690-710 | The loop over the slot array completes every pending request in slot order and clears it and the transaction |
| DeviceDriver.MadDevice.DpcForIsr | MadsimVs2019/MadDevice/MadDevIoFunxns.cpp:249-450 | Classification, error or normal branch, and re-enabling make the DPC step |
| DeviceDriver.MadDevice.ServiceMessage | MadsimVs2019/Madbus/MadBusPdoIntThread.cpp:97-122 | One round of the bus thread is the delivery step, keeping the invariant where it is allowed |
| DeviceDriver.MadDevice.BufrdIoWorkItem | MadsimVs2019/MadDevice/MadDevIoFunxns.cpp:491-507 | Completes with the count and clears the slot |
| DeviceDriver.MadDevice.DmaWorkItem | MadsimVs2019/MadDevice/MadDevIoFunxns.cpp:524-573 | Completes with the framework's or the device's count, or none on failure, and clears transaction and slot |
| DeviceDriver.MadDevice.ErrorWorkItem | MadsimVs2019/MadDevice/MadDevIoFunxns.cpp:591-628 | Hands back the request the error belongs to, or all pending ones, with the status of the fatal error and no bytes, and fails the device; every request has then been completed exactly once |
| DeviceDriver.ServeOneRequest | MadsimVs2019/MadDevice/MadDevIoFunxns.cpp:384-429 | One request through the object's own methods: an idle device hands it back once with success and its count, and is idle and valid again |
| Accounting.Conservation | MadsimVs2019/MadDevice/MadDevIoFunxns.cpp:645-673 | Over any run and any number of devices: 1024 times the buffered kilobytes plus the counter is the bytes passed with success; power is 250 per such kilobyte plus 500 per DMA work item |
| Accounting.BelowUnitIff | MadsimVs2019/MadDevice/MadDevIoFunxns.cpp:653-664 | A completion leaves the counter below one unit if and only if it brings it to less than two |
| Accounting.CounterStaysBelowUnit | MadsimVs2019/MadDevice/MadDevIoFunxns.cpp:658-664 | With counts of at most 1024 the counter stays below 1024 over every run |
| Accounting.WholeKilobytesIff | MadsimVs2019/MadDevice/MadDevIoFunxns.cpp:645-673 | From an empty counter the kilobytes credited are the whole kilobytes passed, and otherwise fewer, if and only if no stretch up to the end of the run completes more units than buffered requests; requests of at most one unit always do |
| Accounting.CounterBelowUnitIff | MadsimVs2019/MadDevice/MadDevIoFunxns.cpp:658-664 | On the same condition the counter ends below one unit |
| Accounting.FairIff | MadsimVs2019/MadDevice/MadDevIoFunxns.cpp:645-673 | Every device is credited its own whole kilobytes at every point of a run if and only if at every point the rests of all devices together are below one unit |
| Accounting.PowerOf | MadsimVs2019/MadDevice/MadDevIoFunxns.cpp:566-568 | Every device is charged 250 for each buffered kilobyte credited to it and 500 for each DMA work item of its own |
| Accounting.SharedCounterMiscredits | MadsimVs2019/MadDevice/MadDevIoFunxns.cpp:648 | The least run that is not fair: one device is credited a kilobyte and its power for bytes the other moved |
| Accounting.Accounts.CompleteXferReq | MadsimVs2019/MadDevice/MadDevIoFunxns.cpp:645-673 | The accounting of a buffered completion in place; the books stay those of the events so far |
| Accounting.Accounts.FinishDma | MadsimVs2019/MadDevice/MadDevIoFunxns.cpp:566-568 | The same for a DMA work item |
| Accounting.Accounts.Balances | MadsimVs2019/MadDevice/MadDevIoFunxns.cpp:645-673 | Of any valid books: 1024 times the buffered kilobytes plus the counter is the bytes passed with success |
| Accounting.Accounts.DeviceBalances | MadsimVs2019/MadDevice/MadDevIoFunxns.cpp:645-673 | The same of any valid books, device by device |
| PollHandshake.InvRun | MadsimVs2019/MadDevSimUsrInt/POLL.cpp:109-129 | In every interleaving with any clicks and timeouts: a poll thread waiting on a reset Pause has a POLL queued or being handled, Stop is set exactly while the thread is outside its reset-to-set section, and FreeRun is reset while a manual request waits for Stop |
| PollHandshake.StopAfterPollHandled | MadsimVs2019/MadDevSimUsrInt/POLL.cpp:112-129 | Over any run: with no manual handler having set Pause there is at most one unhandled POLL, only while the thread waits for it, so that Stop is set only after it was handled; with k such handlers there are at most k more |
| PollHandshake.ManualLeavesPoll | MadsimVs2019/MadDevSimUsrInt/MANUAL.CPP:114 | A manual handler between reset and wait lets the thread pass: a run in which Stop is about to be set with the POLL still queued |
| PollHandshake.NoDeadlock | MadsimVs2019/MadDevSimUsrInt/MANUAL.CPP:97-149 | Unless parked, one of the two threads can go on, or both wait in the one stalemate that the timeout resolves, with a POLL still queued |
| PollHandshake.QuiescentIffParked | MadsimVs2019/MadDevSimUsrInt/MANUAL.CPP:114-139 | Nothing but a click can happen if and only if the simulator is parked |
| PollHandshake.StopCatchesThreadUnless | MadsimVs2019/MadDevSimUsrInt/MANUAL.CPP:122-139 | After a successful wait for Stop every run to a parked state without another auto start posts one more POLL if the thread had just been released, and none otherwise |
| PollHandshake.StopMissesThread | MadsimVs2019/MadDevSimUsrInt/MANUAL.CPP:122-139 | The released thread is reachable: auto, release, manual, and the three calls of its handler |
| PollHandshake.RunToPark | MadsimVs2019/MadDevSimUsrInt/MANUAL.CPP:114-139 | From every reachable state with FreeRun reset some click-free run parks the simulator |
| PollHandshake.AtMostOneMorePoll | MadsimVs2019/MadDevSimUsrInt/POLL.cpp:112-127 | Once FreeRun is reset with no new auto start the thread posts at most one more POLL, exactly as many as its position says |
| PollHandshake.MeasureFalls | MadsimVs2019/MadDevSimUsrInt/POLL.cpp:109-129 | A measure over thread position, handler position and queue falls on every step but a timeout, which raises it by 3 |
| PollHandshake.RunsAreBounded | MadsimVs2019/MadDevSimUsrInt/MANUAL.CPP:114-139 | So every click-free run with k timeouts has at most measure + 4 k steps |
| PollHandshake.MaximalRunParks | MadsimVs2019/MadDevSimUsrInt/MANUAL.CPP:114-139 | Every click-free run that cannot be continued has parked the simulator, after at most measure + 4 k steps with k timeouts |
| PollHandshake.AtMostOneForcedTimeout | MadsimVs2019/MadDevSimUsrInt/MANUAL.CPP:122-136 | Stopping needs at most one timeout that nothing else could have avoided |
| PollHandshake.ModeStepIff | MadsimVs2019/MadDevSimUsrInt/Automatic.cpp:614-658 | A step keeps flags and run mode in agreement and manual requests outstanding only in manual mode if and only if it does not start auto mode over an outstanding request; such a click itself leaves the flags in agreement |
| PollHandshake.ModesAgreeIff | MadsimVs2019/MadDevSimUsrInt/MANUAL.CPP:54-83 | That holds at every point of a run if and only if the run starts auto mode only with no manual request outstanding |
| PollHandshake.FlagsAgreeIff | MadsimVs2019/MadDevSimUsrInt/MANUAL.CPP:160-163 | Flags and run mode agree at every point of a run if and only if no manual request was handled after auto mode had been clicked again |
| PollHandshake.ReleasedInAutoMode | MadsimVs2019/MadDevSimUsrInt/MANUAL.CPP:54-83 | In manual mode the thread is released only while a request that resets FreeRun is on its way; if auto mode is started only with no manual request outstanding, auto mode means that it is released |
| PollHandshake.ManualHandlerAgreesIff | MadsimVs2019/MadDevSimUsrInt/MANUAL.CPP:160-163 | The end of the manual handler leaves them agreeing if and only if the run mode is manual |
| PollHandshake.HastyAutoDisagrees | MadsimVs2019/MadDevSimUsrInt/Automatic.cpp:180-207 | Auto, manual, auto again: a reachable state with the manual flag set and the run mode automatic |
| PollHandshake.SimulatorDlg.constructor | MadsimVs2019/MadDevSimUsrInt/MgmtFunxns.cpp:127-141 | Initial events and flags |
| PollHandshake.SimulatorDlg.NeverStuck | MadsimVs2019/MadDevSimUsrInt/MANUAL.CPP:97-149 | Of any valid dialog object: unless parked it can go on, or is in the stalemate that times out |
| PollHandshake.SimulatorDlg.StopsAfterItsPoll | MadsimVs2019/MadDevSimUsrInt/POLL.cpp:124-129 | Of any valid dialog object on which no manual handler has set Pause: unless the thread is waiting, no POLL is queued or being handled |
| PollHandshake.SimulatorDlg.PollThread | MadsimVs2019/MadDevSimUsrInt/POLL.cpp:103-153 | The next call of the polling thread, keeping no lost wake-up and the bound on unhandled POLLs |
| PollHandshake.SimulatorDlg.Dispatch | MadsimVs2019/MadDevSimUsrInt/POLL.cpp:109-129 | The next message goes to its handler |
| PollHandshake.SimulatorDlg.OnPoll | MadsimVs2019/MadDevSimUsrInt/Automatic.cpp:227-286 | The polls of the run mode or an extraneous interrupt on the device, then Pause |
| PollHandshake.SimulatorDlg.OnSetManualMode | MadsimVs2019/MadDevSimUsrInt/MANUAL.CPP:97-166 | The next of the handler's three calls, in order |
| PollHandshake.SimulatorDlg.StopTimesOut | MadsimVs2019/MadDevSimUsrInt/MANUAL.CPP:125-136 | The manual request is posted again |
| PollHandshake.SimulatorDlg.SetMode | MadsimVs2019/MadDevSimUsrInt/Automatic.cpp:614-658 | Run mode and flags in place |
| PollHandshake.SimulatorDlg.OnManual | MadsimVs2019/MadDevSimUsrInt/MANUAL.CPP:54-83 | Unless manual already, the timeout alert on the device, manual mode and the posted request; device and dialog keep their invariants |
| PollHandshake.SimulatorDlg.OnAutoDuplex | MadsimVs2019/MadDevSimUsrInt/Automatic.cpp:170-210 | Unless auto already, auto mode, the register reset of the device and the released thread; device and dialog keep their invariants |
| TeamHistory.HistoryIsLastTwelve | Python_baseball/Baseball_Function_Defs.py:170-172 | After j games the history is the last 12 entries of twelve zeros followed by the results; its oldest entry is nonzero if and only if j is at least 12 |
| TeamHistory.PlainCounters | Python_baseball/Baseball_Function_Defs.py:126-143 | After any games each plain counter is the number of games it is kept for: wins, home games and wins, extra innings, at home, won at home, shutouts |
| TeamHistory.MomentumOfResults | Python_baseball/Baseball_Function_Defs.py:145-162 | After any results: momentum is the last maximal run less one, Cnfrmd the sum of max(0, length - 3) over all maximal runs, the streak counters the completed runs of length 4 or more, SmplSz the sum of the three |
| TeamHistory.LastRunAppend | Python_baseball/Baseball_Function_Defs.py:150 | One more game prolongs the last run or starts a run of one |
| TeamHistory.ExcessAppend | Python_baseball/Baseball_Function_Defs.py:153-156 | How one more game changes the sum over maximal runs |
| TeamHistory.LongRunsAppend | Python_baseball/Baseball_Function_Defs.py:158-162 | How one more game changes the number of completed long runs |
| TeamHistory.HistoryOfResults | Python_baseball/Baseball_Function_Defs.py:164-168 | The history counters are the number of games whose preceding 12-game window has wins outside 5..7, and of those that follow the window |
| TeamHistory.HistoryValueIsTrend | Python_baseball/Baseball_Function_Defs.py:424-430 | The history value is the trend of the last 12 results, nothing before game 12 |
| TeamHistory.SwapNegatesValue | Python_baseball/Baseball_Function_Defs.py:424-430 | Swapping wins and losses negates the history value |
| TeamHistory.HistoryHasShape | Python_baseball/Baseball_Function_Defs.py:424-425 | Reached histories hold wins, losses and empty entries, and no empty one once the oldest is filled |
| TeamHistory.MirrorSeason | Python_baseball/Baseball_Function_Defs.py:123-173 | The season with wins and losses swapped has the same momentum and history counters, swapped streaks and complementary wins |
| TeamHistory.TeamData.constructor | Python_baseball/Baseball_Class_Defs.py:50-74 | A fresh team |
| TeamHistory.TeamData.HistoryTrend | Python_baseball/Baseball_Function_Defs.py:424-430 | Counting wins in the history gives the history value |
| TeamHistory.TeamData.ProcessGame | Python_baseball/Baseball_Function_Defs.py:123-173 | The update in place is the step of the specification |
| Season.TeamIndexFinds | Python_baseball/Baseball_Function_Defs.py:398-421 | A current code yields its own team, a former one the team that descends from it, each the first with that code, and only a code with neither yields -1 |
| Season.PayrollsDifferIff | Python_baseball/Baseball_Function_Defs.py:76-78 | Payrolls differ if and only if 1000 times the larger is at least 1333 times the smaller |
| Season.RecordsDifferIff | Python_baseball/Baseball_Function_Defs.py:93-106 | Records differ if and only if both teams played ten games and ten times the cross difference of wins is at least the product of the games; the ratios compare as the cross products do |
| Season.TeamsAreIndependent | Python_baseball/Baseball_Function_Defs.py:109-116 | However the log interleaves the teams, each ends as its own games alone would leave it |
| Season.OwnStolenBases | Python_baseball/Baseball_Function_Defs.py:65-71 | Each team ends with the stolen bases recorded for it, at home and away |
| Season.SeasonConserves | Python_baseball/Baseball_Function_Defs.py:551-561 | After any log and one collation: wins sum to accepted games, games to twice that, home samples to accepted games and home confirmations to home victories, history and momentum samples at most twice, payroll and record at most once per game, and Cnfrmd at most SmplSz in all five columns |
| Season.SeasonExtras | Python_baseball/Baseball_Function_Defs.py:551-561 | After any log and one collation: extra-inning games are the accepted games with more than 54 outs, each once, and home victories in them those the home team won, so that one is at most the other and that at most all games; stolen bases are the recorded ones of both sides; winning and losing runs add up the better and the worse scores |
| Season.SeasonBooks | Python_baseball/Baseball_Function_Defs.py:48-119 | The same balance before collation, after every prefix of the log |
| Season.GameTotals | Python_baseball/Baseball_Function_Defs.py:110-116 | Both shares of a game add up in the totals, also when both codes name one team |
| Season.StepTallies | Python_baseball/Baseball_Function_Defs.py:123-173 | What one game adds to each of one team's counters |
| Season.CollateAdds | Python_baseball/Baseball_Function_Defs.py:554-559 | Collation adds each column over all teams |
| Season.SeasonData.ExtractGameData | Python_baseball/Baseball_Function_Defs.py:48-119 | Season and both team records updated in place make the step of the specification; rejected entries change nothing |
| Season.SeasonData.CollateSeasonData | Python_baseball/Baseball_Function_Defs.py:551-561 | The loop over the teams is the collation, with the home team's extra-inning games |
| Predictors.ExactlyOneOutcomeConfirms | Python_baseball/Baseball_Function_Defs.py:222-309 | Who wins does not change which predictors are active; exactly one outcome confirms each, except two zero payrolls (none) and opposite momentum (2 for one, 0 for the other) |
| Predictors.EmptyPayrollsIff | Python_baseball/Baseball_Function_Defs.py:227-229 | Equal payrolls count as different if and only if both are zero |
| Predictors.SideDecides | Python_baseball/Baseball_Function_Defs.py:213-309 | Unless both payrolls are zero, a predictor is active if and only if it favours a team before the game, and confirmed if and only if that team wins |
| Predictors.AgreeIffSameSide | Python_baseball/Baseball_Function_Defs.py:349-354 | Empty payrolls and opposite momentum apart, two predictors agree in a game if and only if both favour the same team |
| Predictors.AgreementsIgnoreWinnerIff | Python_baseball/Baseball_Function_Defs.py:336-355 | The agreement update is independent of the winner if and only if payrolls are not both zero and no other predictor favours the same team as an opposite momentum; both are known before the game |
| Predictors.SeasonTeamsPlausible | Python_baseball/Derive_Predictor_Correlations.py:33-38 | The premise of no look-ahead holds for every team before every game of a season |
| Predictors.TotalsAddUp | Python_baseball/Baseball_Function_Defs.py:210-330 | Over any games: total = home samples = history samples + weeded = momentum samples + weeded; combined correct <= combined samples <= total; the mean combined rate is between one half and one |
| Predictors.RatiosAreSums | Python_baseball/Baseball_Function_Defs.py:311 | The ratios are the sums of samples and confirmations of the games |
| Predictors.CombinedUsedIff | Python_baseball/Baseball_Function_Defs.py:315-321 | A game is combined if and only if at least three predictors are active, with a rate above the best one by the increase |
| Predictors.CombinedTotals | Python_baseball/Baseball_Function_Defs.py:315-330 | Over any games: combined samples are the games with three active predictors, combined successes those with a majority confirmed, and the rates reported exceed the best single rates by the increases reported |
| Predictors.MajorityBothWaysIff | Python_baseball/Baseball_Function_Defs.py:324-326 | The majority is confirmed whoever wins if and only if the teams carry opposite momentum and two more of the other predictors speak against it than with it |
| Predictors.MatrixShape | Python_baseball/Baseball_Function_Defs.py:336-355 | The matrices are symmetric and agreements <= shared games <= either diagonal |
| Predictors.MatrixDiagonal | Python_baseball/Baseball_Function_Defs.py:349-354 | On the diagonal agreements = shared games = the predictor's sample count |
| Predictors.Divergence | Python_baseball/Baseball_Function_Defs.py:762-812 | Reciprocal pass is the identity; the complement's assertion holds for a pair if and only if it shared a game; the divergence is the share of those games in which the two disagreed, symmetric, in [0, 1], and zero if and only if they always agreed |
| Predictors.Reciprocal | Python_baseball/Baseball_Function_Defs.py:810-812 | The limited ratio is at most one and changes only a ratio above one, into its reciprocal |
| Predictors.SeasonOfPredictions | Python_baseball/Derive_Predictor_Correlations.py:33-38 | The totals of a season's predictions add up to its accepted games |
| Predictors.PredictionsFromLog | Python_baseball/Derive_Predictor_Correlations.py:33-38 | Each accepted game of a season: a predictor is active if and only if the start payrolls and the two teams' earlier games in the log have it favour a team, and confirmed if and only if that team wins |
| Predictors.NoLookAhead | Python_baseball/Derive_Predictor_Correlations.py:33-38 | Two logs that agree before entry j and name the same teams there make the same predictions for every game up to that one, whatever its scores and what follows; with the same winner the same confirmations, with different ones as ExactlyOneOutcomeConfirms says |
| Predictors.SeasonCountersAgree | Python_baseball/Baseball_Function_Defs.py:73-106 | Over a season the season program and the correlation program count the same payroll and record samples and confirmations, except games between two teams without a payroll, which only the latter samples |
| Predictors.PredictGame | Python_baseball/Baseball_Function_Defs.py:213-309 | The five predictions of a game computed from the two team records |
| Predictors.PredictorData.UpdateCorrelationValues | Python_baseball/Baseball_Function_Defs.py:336-355 | The nested loops add one to exactly the cells of jointly active pairs, and of agreeing ones |
| Predictors.PredictorData.CollateGame | Python_baseball/Baseball_Function_Defs.py:311-330 | The running totals of one game, the combined predictor's among them |
| Predictors.PredictorData.ExtractPredictorData | Python_baseball/Baseball_Function_Defs.py:202-332 | Keeps totals and matrices equal to those of the list of games predicted so far |
| Predictors.PredictorData.EvaluateCorrelations | Python_baseball/Baseball_Function_Defs.py:762-767 | Each cell is agreements over shared games, not a number if none is shared |
| Predictors.InvertMatrixRatios | Python_baseball/Baseball_Function_Defs.py:783-789 | Each cell is replaced by its limited ratio |
| Predictors.ConvertCor2Ind | Python_baseball/Baseball_Function_Defs.py:793-807 | Fails if and only if some cell is above one or not a number; else each cell is its one's complement |
| Predictors.DeriveDivergences | Python_baseball/Derive_Predictor_Correlations.py:52-63 | The three passes fire the assertion if and only if some pair never shared a game, and otherwise yield a symmetric matrix in [0, 1] with zero diagonal, each cell the share of shared games in which the pair disagreed |
| Predictors.RunSeason | Python_baseball/Derive_Predictor_Correlations.py:33-38 | The season loop predicts each accepted game from the state before it, then plays it: its games are those of PredictionsFromLog and NoLookAhead |
| CombinedPredictor.ComputeCombinedPredictor | Python_baseball/Baseball_Function_Defs.py:359-394 | The accumulating loop computes the pair that CombinedRate, OneHelper, IncreaseAdds and IncreaseScales are about |
| CombinedPredictor.CombinedRate | Python_baseball/Baseball_Function_Defs.py:359-394 | Distinct positive rates, weights in [0, 1], any active set: two zeros if and only if no other active predictor helps the best; otherwise strictly above the best rate, at most even odds plus the active margins, increase the positive difference; below 1 if the margins sum below one half |
| CombinedPredictor.OneHelper | Python_baseball/Baseball_Function_Defs.py:377-382 | With one other active predictor the increase is its rate times its weight against the best |
| CombinedPredictor.IncreaseAdds | Python_baseball/Baseball_Function_Defs.py:377-382 | The increase is additive over disjoint sets of helpers of the same best predictor |
| CombinedPredictor.IncreaseScales | Python_baseball/Baseball_Function_Defs.py:377-382 | Weights c times as large make the increase c times as large |
| CombinedPredictor.BoundHoldsIff | Python_baseball/Baseball_Function_Defs.py:374-382 | For rates that may repeat: the upper bound holds for all weights if and only if the first predictor with the best active rate is itself active |
| CombinedPredictor.CombinedBound | Python_baseball/Baseball_Function_Defs.py:377-382 | The upper bound from the index being active |
| CombinedPredictor.OthersPositiveIff | Python_baseball/Baseball_Function_Defs.py:377-382 | The others add something if and only if one of them is active and not fully dependent |
| CombinedPredictor.BestIsARate | Python_baseball/Baseball_Function_Defs.py:363-374 | The best margin is zero if and only if nothing is active, and otherwise the rate of an active predictor |
| CombinedPredictor.SourceRatesQualify | Python_baseball/Baseball_Constants.py:42-44 | The five margins used are positive, distinct and sum to less than one half |

## Left out

- RequestProtocol.RunIsSafe: a work item completes its request and clears its slot in one step; in the code a new request of the same type could arrive between the two statements.
- RequestProtocol.RunIsSafe: does not interleave the interrupt handler between the two statements of the cache and align controls that program the device and then record the request.
- RequestProtocol.BusAssertionsIff: the bus thread's assertions on the cache lengths, the cache index and the chain pointer are about registers that are not part of this model, and so is the check that a dead device shows all bits set.
- RequestProtocol.RequestRoundTrip: request setup is one flag; buffer retrieval, key check and DMA transaction creation are framework calls that either succeed or complete the request with an error.
- DmaChain.PdoDeviceData.ServeDmaRequest: for a single element the failing mapping is the one of its buffer; the request protocol carries the alert on to the caller.
- DmaChain.ChainVisitsExactlyItsSlots: the clocked hardware walker is taken by its observable contract (order, byte total, end marker), not by its states per clock.
- Accounting.Conservation: kilobyte and power counters are unbounded; the 32-bit wrap of the published counters and the idle power are not modelled.
- PollHandshake.InvRun: excludes shutdown, where the polling thread can reset Pause after the shutdown has set it.
- PollHandshake.SimulatorDlg.PollThread: the mode switch posts at most two further messages or none; its pulse counters are not kept.
- Season.SeasonConserves: shutouts are not stated; the code compares the score's text with the number 0, so none is counted.
- Predictors.TotalsAddUp: sums are exact reals, floating-point rounding is not modelled; the same holds for the rates of CombinedPredictor and the 0.1 and 1.333 thresholds.
- Predictors.PredictorData.UpdateCorrelationValues: the shape assertion on its two matrices is a precondition.
- Season.SeasonData.ExtractGameData: numeric fields arrive as integers; the conversion from the text of the log is left out.
- The two-dimensional counter arrays of teams and seasons are kept as two sequences of five numbers that methods reassign, without aliasing between them.
- Control codes that read or write registers directly, power management, plug and play, WMI, registry, event log, address-space mapping and locking: framework plumbing without an effect on slots, registers and completions here.
- Dialog controls, tracing, number entry and the buzz-phrase counter: user interface.
- Cache and device contents of buffered and cached transfers: one byte copy each, easier than the descriptor chain.
- The hardware description and its PCIe and memory tests: the design itself is not part of this model.
- CSV reading, payroll files, plotting, printing, period summaries and the text-book scripts: straight-line input and output.
- The unused functions that adjust season counters and load histories.
