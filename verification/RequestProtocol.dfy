/** The request protocol of driver plus simulated device, one step at a time:
    a request is submitted and programs the device, the simulator polls, the bus
    thread delivers the interrupt (data transfer, interrupt handler, DPC), and a
    queued work item completes the request and frees its slot. Alerts, register resets and
    device errors can come between any two of these. */
module RequestProtocol {
  import opened Options
  import opened Registers

  // ----- state -------------------------------------------------------------------

  datatype NtStatus =
    | Success | DeviceNotReady | IoDeviceError | NonexistentSector | NoDataDetected | DataOverrun
    | DeviceBusy | InvalidParameter | HardwareMemoryError | Timeout | AdapterHardwareError
    | DevicePowerFailure | InvalidDeviceState | PowerStateInvalid | SetupFailed

  /** A request handed back to the framework: which one, its status and its count. */
  datatype Completion = Completion(req: nat, status: NtStatus, info: nat)

  const SLOTS := 11          // hPendingReqs[eMltplIO]; slot 0 (eNoIO) is never used
  const NULL: nat := 0
  const MAD_CACHE_SIZE_BYTES := 512

  type Slots = s: seq<nat> | |s| == SLOTS witness [0, 0, 0, 0, 0, 0, 0, 0, 0, 0, 0]

  type SlotType = t: IoType | t < SLOTS

  datatype WorkKind = BufrdWI | DmaWI

  /** A queued transfer work item with the context the DPC gave it; `info` is the byte
      count of a buffered request or the device's own count of a DMA request. */
  datatype Work = Work(kind: WorkKind, ioType: SlotType, req: nat, status: NtStatus, info: nat)

  /** The queued device-error work item. */
  datatype ErrWork = ErrWork(ioType: IoType, req: nat, status: NtStatus)

  /** Driver and device. `ok` stays true as long as none of the driver's assertions
      about requests, slots and transactions has fired. */
  datatype Device = Device(
    regs: Regs, pending: Slots, devStatus: bv32, devNtStatus: NtStatus, dmaXaxn: bool,
    work: Option<Work>, errWork: Option<ErrWork>, done: seq<Completion>, errorCount: nat, ok: bool, failed: bool)

  // ----- completing ------------------------------------------------------------------

  function Complete(s: Device, req: nat, status: NtStatus, info: nat): Device {
    s.(done := s.done + [Completion(req, status, info)])
  }

  /** The completions MadCompleteAnyPendingIOs issues for slots j, j+1, .. in order. */
  function PendingFrom(pending: seq<nat>, j: nat, status: NtStatus): seq<Completion>
    decreases |pending| - j
  {
    if j >= |pending| then []
    else (if pending[j] == NULL then [] else [Completion(pending[j], status, 0)]) + PendingFrom(pending, j + 1, status)
  }

  predicate AnyDmaPending(pending: Slots) {
    pending[DMA_READ] != NULL || pending[DMA_WRITE] != NULL || pending[SG_DMA_READ] != NULL || pending[SG_DMA_WRITE] != NULL
  }

  /** MadCompleteAnyPendingIOs. */
  function CompleteAny(s: Device, status: NtStatus): Device {
    s.(done := s.done + PendingFrom(s.pending, 1, status),
       pending := [s.pending[0], NULL, NULL, NULL, NULL, NULL, NULL, NULL, NULL, NULL, NULL],
       dmaXaxn := s.dmaXaxn && !AnyDmaPending(s.pending))
  }

  // ----- submit ------------------------------------------------------------------------

  /** The buffered and DMA read/write handlers ask MadDevVerifyIoReady first; the
      cache and align controls do not. */
  predicate ChecksReady(t: IoType) {
    t == BUFRD_READ || t == BUFRD_WRITE || t >= DMA_READ
  }

  function Submit(s: Device, id: nat, r: Request, powered: bool, setupFails: bool): Device
    requires NO_IO < r.ioType < MLTPL_IO
  {
    if ChecksReady(r.ioType) && s.devStatus != 0 then
      Complete(s, id, s.devNtStatus, 0).(devStatus := 0, devNtStatus := Success)
    else if ChecksReady(r.ioType) && !powered then Complete(s, id, PowerStateInvalid, 0)
    else if setupFails then Complete(s, id, SetupFailed, 0)
    else s.(pending := s.pending[r.ioType := id],
            regs := Program(s.regs, r),
            dmaXaxn := s.dmaXaxn || r.ioType >= DMA_READ,
            ok := s.ok && if r.ioType >= DMA_READ then !s.dmaXaxn else s.pending[r.ioType] == NULL)
  }

  // ----- simulator -----------------------------------------------------------------------

  /** One handled POLL message: an extraneous interrupt or a poll in the directions
      of the run mode. */
  function OnPoll(regs: Regs, spurious: bool, input: bool, output: bool, x: Draws, y: Draws): Regs {
    if spurious then regs.(mesgID := 1) else Poll(regs, input, output, x, y)
  }

  // ----- bus thread: transfer, interrupt handler, DPC ----------------------------------------

  /** `walked` is the byte total of the blocks before the one whose mapping failed. */
  datatype BusFault = NoFault | NoResource(walked: nat) | ExtentExceeded

  /** A transfer that needs a host address and finds none is not started. */
  predicate LacksAddress(hostAddr: nat, t: IoType) {
    t < SG_DMA_READ && t != READ_ALIGN && t != WRITE_ALIGN && hostAddr == 0
  }

  /** The error bit the bus driver's data transfer raises; 0 if it succeeds. */
  function FaultStatus(hostAddr: nat, t: IoType, fault: BusFault): bv32 {
    if LacksAddress(hostAddr, t) then STATUS_INVALID_IO
    else if fault.NoResource? && t !in {READ_ALIGN, WRITE_ALIGN, MLTPL_IO} then STATUS_RESOURCE_ERR
    else if fault == ExtentExceeded && t in {BUFRD_READ, BUFRD_WRITE, READ_ALIGN, WRITE_ALIGN} then STATUS_OVER_UNDER_ERR
    else 0
  }

  /** The byte count register after the transfer: the walk of a chain leaves its total. */
  function Walked(regs: Regs, t: IoType, fault: BusFault): nat {
    if t != SG_DMA_READ && t != SG_DMA_WRITE then regs.dtbc else if fault.NoResource? then fault.walked else regs.chain
  }

  function Transfer(regs: Regs, t: IoType, fault: BusFault): Regs {
    var r, bit := regs.(dtbc := Walked(regs, t, fault)), FaultStatus(regs.hostAddr, t, fault);
    if bit == 0 then r else Alerted(r, SetBits(r.status, bit)).(mesgID := r.mesgID)
  }

  /** The registers the interrupt handler finds. */
  function BeforeIsr(regs: Regs, fault: BusFault): Regs {
    var t := AnalyzeReqType(regs);
    if t > NO_IO && !AnyBit(regs.status, STATUS_DEVICE_FAILURE) then Transfer(regs, t, fault) else regs
  }

  /** What the DPC makes of an error: the error bits of the status register, the
      completion status, whether the error is fatal or the device dead; `known` is
      false in the default case of the DPC's switch, which asserts. */
  datatype Verdict = Verdict(bits: bv32, status: NtStatus, fatal: bool, dead: bool, known: bool)

  function ErrorVerdict(bits: bv32, input: bool, t: IoType): Verdict {
    if bits == 0 then Verdict(bits, DeviceNotReady, false, false, true)
    else if bits == STATUS_GENERAL_ERR then Verdict(bits, IoDeviceError, false, false, true)
    else if bits == STATUS_OVER_UNDER_ERR then
      Verdict(bits, if t >= READ_ALIGN then NonexistentSector else if input then NoDataDetected else DataOverrun, false, false, true)
    else if bits == STATUS_DEVICE_BUSY then Verdict(bits, DeviceBusy, false, false, true)
    else if bits == STATUS_INVALID_IO then Verdict(bits, InvalidParameter, false, false, true)
    else if bits == STATUS_RESOURCE_ERR then Verdict(bits, HardwareMemoryError, false, false, true)
    else if bits == STATUS_TIMEOUT_ERR then Verdict(bits, Timeout, false, false, true)
    else if bits == STATUS_DEVICE_FAILURE then Verdict(bits, AdapterHardwareError, true, false, true)
    else if bits == STATUS_DEAD_DEVICE_MASK then Verdict(bits, DevicePowerFailure, true, true, true)
    else Verdict(bits, InvalidDeviceState, false, false, false)
  }

  function VerdictOf(snap: Regs): Verdict {
    ErrorVerdict(ClearBits(snap.status, STATUS_RW_COUNT_MASK), AnyBit(snap.intID, INT_INPUT_MASK), AnalyzeReqType(snap))
  }

  predicate UnexpectedBits(regs: Regs) {
    AnyBit(regs.intID, INT_ALL_INVALID_MASK)
  }

  function ReadCount(status: bv32): (n: nat)
    ensures 16 <= n <= 256
  {
    (((status & STATUS_READ_COUNT_MASK) >> 4) as nat + 1) * 16
  }

  function WriteCount(status: bv32): (n: nat)
    ensures 16 <= n <= 256
  {
    (((status & STATUS_WRITE_COUNT_MASK) >> 12) as nat + 1) * 16
  }

  /** MadDevDetermineRequest. */
  function RequestOf(s: Device, t: IoType): nat {
    if t == NO_IO || t == MLTPL_IO then NULL else s.pending[t]
  }

  function ErrorDpc(s: Device, t: IoType, v: Verdict, dtbc: nat): Device {
    var req := RequestOf(s, t);
    if v.fatal then
      s.(errWork := Some(ErrWork(if v.dead then NO_IO else t, if v.dead then NULL else req, v.status)))
    else if req == NULL then
      CompleteAny(s, v.status).(devStatus := v.bits, devNtStatus := v.status, errorCount := s.errorCount + 1)
    else
      s.(work := Some(Work(if t < DMA_READ then BufrdWI else DmaWI, t, req, v.status, if t < DMA_READ then 0 else dtbc)),
         errorCount := s.errorCount + 1)
  }

  /** The byte count a buffered work item reports: at most one cache. */
  function BufrdCount(t: IoType, status: bv32): (n: nat)
    ensures n <= MAD_CACHE_SIZE_BYTES
  {
    if t == BUFRD_READ then ReadCount(status) else if t == BUFRD_WRITE then WriteCount(status) else MAD_CACHE_SIZE_BYTES
  }

  function NormalDpc(s: Device, t: IoType, count: nat, dtbc: nat): Device {
    var req := RequestOf(s, t);
    if t == NO_IO || t == MLTPL_IO then s.(ok := false)
    else if t == READ_ALIGN || t == WRITE_ALIGN then Complete(s, req, Success, 0).(pending := s.pending[t := NULL])
    else if t >= DMA_READ then s.(work := Some(Work(DmaWI, t, req, Success, dtbc)))
    else s.(work := Some(Work(BufrdWI, t, req, Success, count)))
  }

  /** MadEvtDPC on the interrupt handler's snapshot. */
  function Dpc(s: Device, snap: Regs): Device {
    var t := AnalyzeReqType(snap);
    var s1 := s.(ok := s.ok && (t == NO_IO || t == MLTPL_IO || RequestOf(s, t) != NULL));
    var s2 := if Alerts(snap) then ErrorDpc(s1, t, VerdictOf(snap), snap.dtbc)
              else NormalDpc(s1, t, BufrdCount(t, snap.status), snap.dtbc);
    s2.(regs := s2.regs.(intEnable := ALL_INTS_ENABLED, hostAddr := 0))
  }

  /** MadEvtISR on the current registers. */
  function Isr(s: Device): Device {
    if s.regs.intID == 0 then s.(regs := s.regs.(mesgID := 0))
    else s.(regs := s.regs.(mesgID := 0, control := 0, status := 0, intEnable := 0, intID := 0),
            errorCount := s.errorCount + if UnexpectedBits(s.regs) then 1 else 0)
  }

  /** One iteration of the bus thread that finds a message, with the DPC it causes. */
  function Deliver(s: Device, fault: BusFault): Device {
    var snap := BeforeIsr(s.regs, fault);
    var s1 := s.(regs := snap);
    if snap.intID == 0 then Isr(s1) else Dpc(Isr(s1), snap)
  }

  // ----- work items ------------------------------------------------------------------------------

  /** NT_SUCCESS; STATUS_TIMEOUT is one of the success codes. */
  predicate NtSuccess(status: NtStatus) {
    status == Success || status == Timeout
  }

  function RunWork(s: Device, xaxnCount: nat): Device
    requires s.work.Some?
  {
    var w := s.work.value;
    var slots := s.pending[w.ioType := NULL];
    if w.kind == BufrdWI then Complete(s, w.req, w.status, w.info).(pending := slots, work := None)
    else
      var count := if !NtSuccess(w.status) then 0 else if xaxnCount > 0 then xaxnCount else w.info;
      Complete(s, w.req, w.status, count).(pending := slots, work := None, dmaXaxn := false)
  }

  function RunErrWork(s: Device): Device
    requires s.errWork.Some?
  {
    var w := s.errWork.value;
    var s1 :=
      if w.req == NULL then CompleteAny(s, w.status)
      else if w.ioType >= DMA_READ then Complete(s, w.req, w.status, 0).(dmaXaxn := false, ok := s.ok && s.dmaXaxn)
      else Complete(s, w.req, w.status, 0);
    s1.(errWork := None, failed := true)
  }

  // ----- runs --------------------------------------------------------------------------------------

  datatype Step =
    | DoSubmit(id: nat, r: Request, powered: bool, setupFails: bool)
    | DoPoll(spurious: bool, input: bool, output: bool, x: Draws, y: Draws)
    | DoAlert(status: bv32)
    | DoDeliver(fault: BusFault)
    | DoWork(xaxnCount: nat)
    | DoErrWork
    | DoReset

  /** ResetDevice clears the whole register block. */
  const RESET_REGS := Regs(0, 0, 0, 0, 0, 0, 0, 0)

  /** A device with its history: the requests handed to the driver so far, how many
      of them were refused with a recorded device error, and how many device errors
      with a nonzero status could not be attributed to a request. */
  datatype System = System(dev: Device, submitted: set<nat>, refused: nat, unattributed: nat)

  predicate Refuses(s: Device, t: IoType) {
    ChecksReady(t) && s.devStatus != 0
  }

  /** This delivery takes the branch for errors without a request, with a nonzero status. */
  predicate RecordsError(s: Device, fault: BusFault) {
    var snap := BeforeIsr(s.regs, fault);
    && Alerts(snap) && RequestOf(s, AnalyzeReqType(snap)) == NULL
    && VerdictOf(snap).bits != 0 && !VerdictOf(snap).fatal
  }

  predicate NothingOutstanding(s: Device) {
    (forall j :: 0 <= j < SLOTS ==> s.pending[j] == NULL) && s.work.None? && s.errWork.None?
  }

  /** The framework's side: requests have fresh handles and come one at a time; and
      the simulator waits for a message to be taken before it polls again, a message
      with an interrupt for a queued work item to have run. After a fatal error only
      its work item runs. */
  ghost predicate Allowed(y: System, step: Step) {
    var s := y.dev;
    && !s.failed
    && (s.errWork.Some? ==> step.DoErrWork?)
    && match step
       case DoSubmit(id, r, _, _) => id != NULL && id !in y.submitted && NothingOutstanding(s) && Programmable(r)
       case DoPoll(_, _, _, _, _) => s.regs.mesgID == 0
       case DoAlert(_) => true
       case DoDeliver(_) => s.regs.mesgID != 0 && (s.work.None? || s.regs.intID == 0)
       case DoWork(_) => s.work.Some?
       case DoErrWork => s.errWork.Some?
       case DoReset => true
  }

  function Next(y: System, step: Step): System {
    var s := y.dev;
    match step
    case DoSubmit(id, r, powered, setupFails) =>
      if NO_IO < r.ioType < MLTPL_IO then
        System(Submit(s, id, r, powered, setupFails), y.submitted + {id},
               y.refused + if Refuses(s, r.ioType) then 1 else 0, y.unattributed)
      else y
    case DoPoll(spurious, input, output, x, z) => y.(dev := s.(regs := OnPoll(s.regs, spurious, input, output, x, z)))
    case DoAlert(status) => y.(dev := s.(regs := Alerted(s.regs, status)))
    case DoDeliver(fault) => y.(dev := Deliver(s, fault), unattributed := y.unattributed + if RecordsError(s, fault) then 1 else 0)
    case DoWork(count) => if s.work.Some? then y.(dev := RunWork(s, count)) else y
    case DoErrWork => if s.errWork.Some? then y.(dev := RunErrWork(s)) else y
    case DoReset => y.(dev := s.(regs := RESET_REGS))
  }

  ghost predicate AllowedRun(y: System, run: seq<Step>)
    decreases |run|
  {
    run == [] || (Allowed(y, run[0]) && AllowedRun(Next(y, run[0]), run[1..]))
  }

  function After(y: System, run: seq<Step>): System
    decreases |run|
  {
    if run == [] then y else After(Next(y, run[0]), run[1..])
  }

  ghost predicate Initial(y: System) {
    && y.submitted == {} && y.refused == 0 && y.unattributed == 0
    && y.dev.regs.mesgID == 0 && y.dev.regs.control == 0 && y.dev.regs.status == 0 && y.dev.regs.intID == 0
    && NothingOutstanding(y.dev) && !y.dev.dmaXaxn && y.dev.devStatus == 0 && y.dev.done == [] && y.dev.ok && !y.dev.failed
  }

  // ----- the invariant ---------------------------------------------------------------------------------

  /** Slot t is the only one taken; none is if t is NO_IO. */
  ghost predicate Only(pending: Slots, t: IoType) {
    t < MLTPL_IO && forall j :: 0 <= j < SLOTS ==> (pending[j] != NULL <==> j == t && t != NO_IO)
  }

  /** Where a request of type t (NO_IO: none) is in its life. */
  ghost predicate Quiet(s: Device) {
    s.regs.control == 0 && Unattributed(s.regs)
  }

  ghost predicate Started(s: Device, t: IoType) {
    s.work.None? && Armed(s.regs, t) && Unattributed(s.regs) && AddressFits(s.regs, t)
  }

  ghost predicate Announced(s: Device, t: IoType) {
    s.work.None? && Announces(s.regs, t) && AddressFits(s.regs, t)
  }

  /** Nothing started, announced or queued: an idle device, or one whose registers
      were reset under its request. */
  ghost predicate Resting(s: Device) {
    s.work.None? && Quiet(s)
  }

  ghost predicate Queued(s: Device, t: IoType) {
    && NO_IO < t < MLTPL_IO && Quiet(s) && s.work.Some?
    && s.work.value.ioType == t && s.work.value.req == s.pending[t]
    && s.work.value.kind == (if t < DMA_READ then BufrdWI else DmaWI)
  }

  /** The two statuses a request is failed with for good. */
  predicate FatalStatus(status: NtStatus) {
    status == AdapterHardwareError || status == DevicePowerFailure
  }

  ghost predicate ErrorQueued(s: Device, t: IoType) {
    && s.work.None? && s.errWork.Some? && FatalStatus(s.errWork.value.status)
    && (s.errWork.value.req == NULL || (NO_IO < t < MLTPL_IO && s.errWork.value.ioType == t && s.errWork.value.req == s.pending[t]))
  }

  ghost predicate Phase(s: Device, t: IoType) {
    && Only(s.pending, t)
    && s.regs.mesgID <= 1 && (if s.regs.intID != 0 then s.regs.mesgID == 1 else s.regs.status == 0)
    && (s.dmaXaxn <==> t >= DMA_READ)
    && s.ok && !s.failed
    && if s.errWork.Some? then ErrorQueued(s, t)
       else if t == NO_IO then Resting(s)
       else Started(s, t) || Announced(s, t) || Queued(s, t) || Resting(s)
  }

  // ----- who has been completed ----------------------------------------------------------------------------

  /** How often request id has been handed back. */
  ghost function Times(done: seq<Completion>, id: nat): nat {
    if done == [] then 0
    else Times(done[..|done| - 1], id) + if done[|done| - 1].req == id then 1 else 0
  }

  /** In how many of the slots j, j+1, .. request id is pending. */
  ghost function SlotsWith(pending: seq<nat>, j: nat, id: nat): nat
    decreases |pending| - j
  {
    if j >= |pending| then 0 else (if pending[j] == id then 1 else 0) + SlotsWith(pending, j + 1, id)
  }

  /** Every submitted request is in exactly one slot or completed exactly once, and
      no other request is in a slot or completed. */
  ghost predicate Balanced(y: System) {
    forall id :: id != NULL ==>
      Times(y.dev.done, id) + SlotsWith(y.dev.pending, 1, id) == if id in y.submitted then 1 else 0
  }

  ghost predicate Inv(y: System) {
    && (exists t :: Phase(y.dev, t))
    && Balanced(y)
    && y.refused + (if y.dev.devStatus != 0 then 1 else 0) <= y.unattributed
  }

  // ----- counting completions ------------------------------------------------------------------------------

  lemma {:induction false} TimesAppend(a: seq<Completion>, b: seq<Completion>, id: nat)
    ensures Times(a + b, id) == Times(a, id) + Times(b, id)
  {
    if b == [] {
      assert a + b == a;
    } else {
      var c := b[..|b| - 1];
      TimesAppend(a, c, id);
      assert (a + b)[..|a + b| - 1] == a + c;
    }
  }

  lemma TimesOne(a: seq<Completion>, c: Completion, id: nat)
    ensures Times(a + [c], id) == Times(a, id) + if c.req == id then 1 else 0
  {
    assert (a + [c])[..|a|] == a;
  }

  /** Completing whatever is pending hands back exactly the requests in the slots. */
  lemma {:induction false} PendingFromHandsBack(pending: seq<nat>, j: nat, status: NtStatus, id: nat)
    requires id != NULL
    ensures Times(PendingFrom(pending, j, status), id) == SlotsWith(pending, j, id)
    decreases |pending| - j
  {
    if j < |pending| {
      PendingFromHandsBack(pending, j + 1, status, id);
      var rest := PendingFrom(pending, j + 1, status);
      if pending[j] == NULL {
        assert [] + rest == rest;
      } else {
        var c := Completion(pending[j], status, 0);
        TimesAppend([c], rest, id);
        TimesOne([], c, id);
        assert [] + [c] == [c];
      }
    }
  }

  lemma {:induction false} EmptySlots(pending: seq<nat>, j: nat, id: nat)
    requires id != NULL && forall i :: j <= i < |pending| ==> pending[i] == NULL
    ensures SlotsWith(pending, j, id) == 0
    decreases |pending| - j
  {
    if j < |pending| {
      EmptySlots(pending, j + 1, id);
    }
  }

  lemma {:induction false} SlotUpdate(pending: seq<nat>, j: nat, t: nat, x: nat, id: nat)
    requires j <= t < |pending|
    ensures SlotsWith(pending[t := x], j, id)
         == SlotsWith(pending, j, id) - (if pending[t] == id then 1 else 0) + (if x == id then 1 else 0)
    decreases t - j
  {
    if j < t {
      SlotUpdate(pending, j + 1, t, x, id);
    } else {
      SlotsBeyond(pending, t + 1, t, x, id);
    }
  }

  lemma {:induction false} SlotsBeyond(pending: seq<nat>, j: nat, t: nat, x: nat, id: nat)
    requires t < |pending| && t < j
    ensures SlotsWith(pending[t := x], j, id) == SlotsWith(pending, j, id)
    decreases |pending| - j
  {
    if j < |pending| {
      SlotsBeyond(pending, j + 1, t, x, id);
    }
  }

  /** An error without a request fails every pending request, once each, with the
      same status, and leaves no slot taken. */
  lemma CompleteAnyHandsBackAll(s: Device, status: NtStatus)
    requires s.pending[NO_IO] == NULL
    ensures var s' := CompleteAny(s, status);
      && (forall j :: 0 <= j < SLOTS ==> s'.pending[j] == NULL)
      && s.done <= s'.done && (forall k :: |s.done| <= k < |s'.done| ==> s'.done[k].status == status)
      && (forall id :: id != NULL ==>
            Times(s'.done, id) == Times(s.done, id) + SlotsWith(s.pending, 1, id) && SlotsWith(s'.pending, 1, id) == 0)
  {
    var s' := CompleteAny(s, status);
    forall id | id != NULL
      ensures Times(s'.done, id) == Times(s.done, id) + SlotsWith(s.pending, 1, id) && SlotsWith(s'.pending, 1, id) == 0
    {
      PendingFromHandsBack(s.pending, 1, status, id);
      TimesAppend(s.done, PendingFrom(s.pending, 1, status), id);
      EmptySlots(s'.pending, 1, id);
    }
    PendingFromStatus(s.pending, 1, status);
  }

  lemma {:induction false} PendingFromStatus(pending: seq<nat>, j: nat, status: NtStatus)
    ensures forall k :: 0 <= k < |PendingFrom(pending, j, status)| ==> PendingFrom(pending, j, status)[k].status == status
    decreases |pending| - j
  {
    if j < |pending| {
      PendingFromStatus(pending, j + 1, status);
    }
  }

  /** Completing a pending request and freeing its slot moves exactly that request. */
  lemma CompleteOne(s: Device, t: IoType, status: NtStatus, info: nat, id: nat)
    requires NO_IO < t < MLTPL_IO && id != NULL
    ensures Times(Complete(s, s.pending[t], status, info).done, id) + SlotsWith(s.pending[t := NULL], 1, id)
         == Times(s.done, id) + SlotsWith(s.pending, 1, id)
  {
    TimesOne(s.done, Completion(s.pending[t], status, info), id);
    SlotUpdate(s.pending, 1, t, NULL, id);
  }

  // ----- every step keeps the invariant ------------------------------------------------------------------------

  lemma UnattributedBits(regs: Regs)
    requires Unattributed(regs)
    ensures AnalyzeReqType(regs) == NO_IO
    ensures regs.intID != 0 <==> Alerts(regs)
  {
    hide AnyBit, ClearBits;
    BareIds();
  }

  lemma BareIds()
    ensures !AnyBit(0, INT_INPUT_MASK) && !AnyBit(0, INT_OUTPUT_MASK) && !AnyBit(0, INT_STATUS_ALERT)
    ensures !AnyBit(INT_STATUS_ALERT, INT_INPUT_MASK) && !AnyBit(INT_STATUS_ALERT, INT_OUTPUT_MASK)
    ensures AnyBit(INT_STATUS_ALERT, INT_STATUS_ALERT) && 0 | INT_STATUS_ALERT == INT_STATUS_ALERT
  {
  }

  lemma AnnouncedBits(regs: Regs, t: IoType)
    requires Announces(regs, t)
    ensures regs.intID != 0
  {
    hide AnalyzeReqType, IntBit;
    AlertBits(t);
  }

  lemma ProgramKeepsInterrupt(regs: Regs, r: Request)
    ensures Program(regs, r).intID == regs.intID && Program(regs, r).mesgID == regs.mesgID
    ensures Unattributed(regs) ==> Unattributed(Program(regs, r))
  {
  }

  lemma SubmitPhase(s: Device, id: nat, r: Request, powered: bool, setupFails: bool)
    requires Phase(s, NO_IO) && s.errWork.None? && Programmable(r) && id != NULL
    ensures var s' := Submit(s, id, r, powered, setupFails);
      Phase(s', if s'.pending[r.ioType] == id then r.ioType else NO_IO)
  {
    ProgramArms(s.regs, r);
    ProgramKeepsInterrupt(s.regs, r);
    hide Program, Armed, Unattributed, ChecksReady;
  }

  lemma SpuriousPoll(regs: Regs, t: IoType)
    ensures var raised := regs.(mesgID := 1);
      && (Armed(regs, t) ==> Armed(raised, t)) && (Unattributed(regs) ==> Unattributed(raised))
  {
  }

  lemma PollOfStarted(regs: Regs, t: IoType, input: bool, output: bool, x: Draws, y: Draws)
    requires Armed(regs, t) && regs.intID == 0
    ensures var polled := Poll(regs, input, output, x, y);
      polled == regs || (Announces(polled, t) && polled.intID != 0 && polled.mesgID == 1 && polled.hostAddr == regs.hostAddr)
  {
    if Covers(t, input, output) {
      PollConsumes(regs, t, input, output, x, y);
      PollAnnounces(regs, t, input, output, x, y);
      AnnouncedBits(Poll(regs, input, output, x, y), t);
    } else {
      PollMisses(regs, t, input, output, x, y);
    }
    hide Poll, Armed;
  }

  lemma NoMessage(regs: Regs, t: IoType)
    requires regs.mesgID == 0
    ensures !Announces(regs, t)
  {
    hide AnalyzeReqType, IntBit;
  }

  lemma PollPhase(s: Device, t: IoType, spurious: bool, input: bool, output: bool, x: Draws, y: Draws)
    requires Phase(s, t) && s.regs.mesgID == 0 && s.errWork.None?
    ensures Phase(s.(regs := OnPoll(s.regs, spurious, input, output, x, y)), t)
  {
    hide Armed, Unattributed, Announces, Poll;
    NoMessage(s.regs, t);
    SpuriousPoll(s.regs, t);
    if !spurious && Started(s, t) {
      PollOfStarted(s.regs, t, input, output, x, y);
    } else if !spurious {
      PollMisses(s.regs, t, input, output, x, y);
    }
  }

  lemma AlertedStillArmed(regs: Regs, status: bv32, t: IoType)
    requires Armed(regs, t)
    ensures Armed(Alerted(regs, status), t)
  {
    hide AnyBit, IntBit, SetBits;
  }

  lemma AlertPhase(s: Device, t: IoType, status: bv32)
    requires Phase(s, t) && s.errWork.None?
    ensures Phase(s.(regs := Alerted(s.regs, status)), t)
  {
    hide Armed, Unattributed, Announces, SetBits;
    if Announces(s.regs, t) {
      AlertKeepsAnnouncement(s.regs, status, t);
    }
    if Unattributed(s.regs) {
      AlertAttributesNothing(s.regs, status);
    }
    if Armed(s.regs, t) {
      AlertedStillArmed(s.regs, status, t);
    }
  }

  lemma AlertedAnnouncement(regs: Regs, status: bv32, t: IoType)
    requires Announces(regs, t)
    ensures Announces(Alerted(regs, status), t) && Alerted(regs, status).intID != 0
    ensures Alerted(regs, status).(mesgID := regs.mesgID) == Alerted(regs, status)
  {
    AlertKeepsAnnouncement(regs, status, t);
    AnnouncedBits(Alerted(regs, status), t);
  }

  /** The data transfer keeps what the registers announce: it leaves an unattributed
      interrupt alone and at most raises the alert of an attributed one. */
  lemma TransferSkipsUnattributed(regs: Regs, fault: BusFault)
    requires Unattributed(regs)
    ensures BeforeIsr(regs, fault) == regs
  {
    UnattributedBits(regs);
    hide AnalyzeReqType, Transfer, Unattributed;
  }

  lemma TransferKeepsType(regs: Regs, t: IoType, fault: BusFault)
    requires Announces(regs, t)
    ensures Announces(BeforeIsr(regs, fault), t) && BeforeIsr(regs, fault).intID != 0
  {
    AnnouncedBits(regs, t);
    AlertedAnnouncement(regs, SetBits(regs.status, FaultStatus(regs.hostAddr, AnalyzeReqType(regs), fault)), t);
    hide AnalyzeReqType, Announces, Alerted, FaultStatus;
  }

  /** An interrupt with no id bit is not the device's: taking it back changes no slot,
      completes nothing and leaves every other register as it was. */
  lemma ExtraneousInterrupt(s: Device, fault: BusFault)
    requires s.regs.intID == 0
    ensures Deliver(s, fault) == s.(regs := s.regs.(mesgID := 0))
  {
    TransferSkipsUnattributed(s.regs, fault);
    hide AnalyzeReqType, BeforeIsr, Dpc;
  }

  lemma DroppedMessage(regs: Regs, t: IoType)
    requires regs.intID == 0
    ensures !Announces(regs, t)
    ensures var dropped := regs.(mesgID := 0);
      && (Armed(regs, t) ==> Armed(dropped, t)) && (Unattributed(regs) ==> Unattributed(dropped))
  {
  }

  /** An alert that belongs to no request: fatal, it leaves everything to the error
      work item; otherwise it fails whatever is pending and is recorded. */
  lemma DeliverUnattributed(s: Device, fault: BusFault)
    requires Unattributed(s.regs) && s.regs.intID != 0
    ensures Alerts(s.regs) && AnalyzeReqType(s.regs) == NO_IO && BeforeIsr(s.regs, fault) == s.regs
    ensures Deliver(s, fault) == Dpc(Isr(s), s.regs)
  {
    UnattributedBits(s.regs);
    TransferSkipsUnattributed(s.regs, fault);
    hide AnalyzeReqType, BeforeIsr, Dpc, Unattributed;
  }

  lemma DeliverAnnounced(s: Device, t: IoType, fault: BusFault)
    requires Announces(s.regs, t)
    ensures var snap := BeforeIsr(s.regs, fault);
      && AnalyzeReqType(snap) == t != NO_IO
      && Deliver(s, fault) == Dpc(Isr(s.(regs := snap)), snap)
  {
    TransferKeepsType(s.regs, t, fault);
    assert AnalyzeReqType(BeforeIsr(s.regs, fault)) == t;
    hide AnalyzeReqType, BeforeIsr, Dpc, Announces;
  }

  /** A slot, a transaction and a work item for t or for nothing: what Phase says
      beside the registers. */
  ghost predicate Settled(s: Device, t: IoType) {
    Only(s.pending, t) && (s.dmaXaxn <==> t >= DMA_READ) && s.ok && !s.failed && s.work.None? && s.errWork.None?
  }

  lemma FatalVerdict(snap: Regs)
    ensures VerdictOf(snap).fatal ==> FatalStatus(VerdictOf(snap).status)
  {
    hide ClearBits, AnyBit, AnalyzeReqType;
  }

  lemma ErrorDpcPhase(s: Device, t: IoType, v: Verdict, dtbc: nat, attributed: bool)
    requires Settled(s, t) && s.regs.control == 0 && s.regs.status == 0 && s.regs.intID == 0 && s.regs.mesgID == 0 && Unattributed(s.regs)
    requires (attributed ==> t != NO_IO) && (v.fatal ==> FatalStatus(v.status))
    ensures var s' := ErrorDpc(s, if attributed then t else NO_IO, v, dtbc);
      s'.regs == s.regs && (Phase(s', t) || Phase(s', NO_IO))
  {
    hide Unattributed, Announces, Armed, PendingFrom;
  }

  lemma NormalDpcPhase(s: Device, t: IoType, count: nat, dtbc: nat)
    requires Settled(s, t) && s.regs.control == 0 && s.regs.status == 0 && s.regs.intID == 0 && s.regs.mesgID == 0 && Unattributed(s.regs)
    requires t != NO_IO
    ensures var s' := NormalDpc(s, t, count, dtbc);
      s'.regs == s.regs && (Phase(s', t) || Phase(s', NO_IO))
  {
    hide Unattributed, Announces, Armed;
  }

  lemma RegsFinished(regs: Regs, t: IoType)
    requires regs.control == 0 && regs.intID == 0 && regs.mesgID == 0
    ensures var finished := regs.(intEnable := ALL_INTS_ENABLED, hostAddr := 0);
      && Unattributed(regs) && Unattributed(finished) && !Armed(regs, t) && !Announces(regs, t)
  {
  }

  lemma DpcPhase(s: Device, t: IoType, snap: Regs)
    requires Settled(s, t) && s.regs == snap && snap.intID != 0
    requires if AnalyzeReqType(snap) == NO_IO then Alerts(snap) else AnalyzeReqType(snap) == t
    ensures Phase(Dpc(Isr(s), snap), t) || Phase(Dpc(Isr(s), snap), NO_IO)
  {
    var s1 := Isr(s);
    RegsFinished(s1.regs, t);
    FatalVerdict(snap);
    hide AnalyzeReqType, Alerts, Unattributed, Announces, Armed, VerdictOf, BufrdCount, UnexpectedBits, ErrorDpc, NormalDpc;
    if Alerts(snap) {
      ErrorDpcPhase(s1, t, VerdictOf(snap), snap.dtbc, AnalyzeReqType(snap) != NO_IO);
    } else {
      NormalDpcPhase(s1, t, BufrdCount(t, snap.status), snap.dtbc);
    }
  }

  lemma PhaseOf(s: Device, t: IoType)
    requires Phase(s, t) && s.errWork.None? && s.regs.intID != 0 && s.work.None?
    ensures Settled(s, t)
    ensures Unattributed(s.regs) || Announces(s.regs, t)
  {
    hide Armed, Unattributed, Announces;
  }

  lemma DroppedPhase(s: Device, t: IoType)
    requires Phase(s, t) && s.errWork.None? && s.regs.intID == 0
    ensures Phase(s.(regs := s.regs.(mesgID := 0)), t)
  {
    DroppedMessage(s.regs, t);
    hide Armed, Unattributed, Announces;
  }

  lemma DeliverPhase(s: Device, t: IoType, fault: BusFault)
    requires Phase(s, t) && s.errWork.None? && (s.work.None? || s.regs.intID == 0)
    ensures Phase(Deliver(s, fault), t) || Phase(Deliver(s, fault), NO_IO)
  {
    hide *;
    if s.regs.intID == 0 {
      ExtraneousInterrupt(s, fault);
      DroppedPhase(s, t);
    } else {
      PhaseOf(s, t);
      if Unattributed(s.regs) {
        DeliverUnattributed(s, fault);
        DpcPhase(s, t, s.regs);
      } else {
        var snap := BeforeIsr(s.regs, fault);
        DeliverAnnounced(s, t, fault);
        TransferKeepsType(s.regs, t, fault);
        SettledKeepsRegs(s, snap, t);
        DpcPhase(s.(regs := snap), t, snap);
      }
    }
  }

  lemma SettledKeepsRegs(s: Device, regs: Regs, t: IoType)
    requires Settled(s, t)
    ensures Settled(s.(regs := regs), t)
  {
  }

  /** Resetting the registers leaves slots, transaction and queued work as they are. */
  lemma ResetPhase(s: Device, t: IoType)
    requires Phase(s, t) && s.errWork.None?
    ensures Phase(s.(regs := RESET_REGS), t)
    ensures s.work.None? ==> Resting(s.(regs := RESET_REGS))
  {
    assert Unattributed(RESET_REGS);
    hide Armed, Unattributed, Announces;
  }

  lemma WorkPhase(s: Device, t: IoType, xaxnCount: nat)
    requires Phase(s, t) && s.errWork.None? && s.work.Some?
    ensures t != NO_IO && s.work.value.ioType == t && s.work.value.req == s.pending[t]
    ensures Phase(RunWork(s, xaxnCount), NO_IO)
  {
    hide Armed, Unattributed, Announces;
  }

  // ----- every step keeps the balance of completions ---------------------------------------------------------------

  /** Requests are neither lost nor handed back twice between s and s'. */
  ghost predicate Conserves(s: Device, s': Device) {
    forall id :: id != NULL ==>
      Times(s'.done, id) + SlotsWith(s'.pending, 1, id) == Times(s.done, id) + SlotsWith(s.pending, 1, id)
  }

  lemma CompleteAnyConserves(s: Device, status: NtStatus)
    requires s.pending[NO_IO] == NULL
    ensures Conserves(s, CompleteAny(s, status))
  {
    CompleteAnyHandsBackAll(s, status);
  }

  lemma CompleteOneConserves(s: Device, t: IoType, status: NtStatus, info: nat)
    requires NO_IO < t < MLTPL_IO
    ensures Conserves(s, Complete(s, s.pending[t], status, info).(pending := s.pending[t := NULL]))
  {
    forall id | id != NULL
      ensures Times(Complete(s, s.pending[t], status, info).done, id) + SlotsWith(s.pending[t := NULL], 1, id)
           == Times(s.done, id) + SlotsWith(s.pending, 1, id)
    {
      CompleteOne(s, t, status, info, id);
    }
  }

  lemma DpcConserves(s: Device, snap: Regs)
    requires s.pending[NO_IO] == NULL
    ensures Conserves(s, Dpc(s, snap))
  {
    var t := AnalyzeReqType(snap);
    var s1 := s.(ok := s.ok && (t == NO_IO || t == MLTPL_IO || RequestOf(s, t) != NULL));
    hide AnalyzeReqType, Alerts, VerdictOf, BufrdCount, Times, SlotsWith, PendingFrom;
    if Alerts(snap) {
      CompleteAnyConserves(s1, VerdictOf(snap).status);
    } else if t in {READ_ALIGN, WRITE_ALIGN} {
      CompleteOneConserves(s1, t, Success, 0);
    }
  }

  lemma ServiceConserves(s: Device, snap: Regs)
    requires s.pending[NO_IO] == NULL
    ensures Conserves(s, Dpc(Isr(s.(regs := snap)), snap))
  {
    DpcConserves(Isr(s.(regs := snap)), snap);
    hide Dpc, UnexpectedBits, Times, SlotsWith;
  }

  lemma DeliverConserves(s: Device, t: IoType, fault: BusFault)
    requires Phase(s, t) && s.errWork.None? && (s.work.None? || s.regs.intID == 0)
    ensures Conserves(s, Deliver(s, fault))
  {
    assert s.pending[NO_IO] == NULL;
    if s.regs.intID == 0 {
      ExtraneousInterrupt(s, fault);
      hide Deliver, Times, SlotsWith, Phase;
    } else {
      PhaseOf(s, t);
      hide *;
      ServiceConserves(s, s.regs);
      ServiceConserves(s, BeforeIsr(s.regs, fault));
      if Unattributed(s.regs) {
        DeliverUnattributed(s, fault);
        assert s.(regs := s.regs) == s;
      } else {
        DeliverAnnounced(s, t, fault);
      }
    }
  }

  lemma WorkConserves(s: Device, t: IoType, xaxnCount: nat)
    requires Phase(s, t) && s.errWork.None? && s.work.Some?
    ensures Conserves(s, RunWork(s, xaxnCount))
  {
    WorkPhase(s, t, xaxnCount);
    var w := s.work.value;
    var count := if w.kind == BufrdWI then w.info
                 else if !NtSuccess(w.status) then 0 else if xaxnCount > 0 then xaxnCount else w.info;
    CompleteOneConserves(s, t, w.status, count);
    hide Phase, Times, SlotsWith, Only;
  }

  lemma SubmitBalances(s: Device, id: nat, r: Request, powered: bool, setupFails: bool, other: nat)
    requires (forall j :: 0 <= j < SLOTS ==> s.pending[j] == NULL) && NO_IO < r.ioType < MLTPL_IO && id != NULL && other != NULL
    ensures var s' := Submit(s, id, r, powered, setupFails);
      Times(s'.done, other) + SlotsWith(s'.pending, 1, other)
      == Times(s.done, other) + SlotsWith(s.pending, 1, other) + if other == id then 1 else 0
  {
    hide Times, SlotsWith, Program;
    if s.devStatus != 0 && ChecksReady(r.ioType) {
      TimesOne(s.done, Completion(id, s.devNtStatus, 0), other);
    } else if !powered && ChecksReady(r.ioType) {
      TimesOne(s.done, Completion(id, PowerStateInvalid, 0), other);
    } else if setupFails {
      TimesOne(s.done, Completion(id, SetupFailed, 0), other);
    } else {
      SlotUpdate(s.pending, 1, r.ioType, id, other);
    }
  }

  // ----- refusals --------------------------------------------------------------------------------------------------

  lemma NoAlert(regs: Regs)
    requires regs.intID == 0
    ensures !Alerts(regs) && Unattributed(regs)
  {
  }

  lemma DpcRecords(s: Device, snap: Regs)
    ensures var v := VerdictOf(snap);
      Dpc(s, snap).devStatus
      == if Alerts(snap) && RequestOf(s, AnalyzeReqType(snap)) == NULL && !v.fatal then v.bits else s.devStatus
  {
    hide AnalyzeReqType, Alerts, VerdictOf, BufrdCount, PendingFrom, AnyDmaPending;
  }

  lemma ServiceRecords(s: Device, snap: Regs)
    ensures var v := VerdictOf(snap);
      Dpc(Isr(s.(regs := snap)), snap).devStatus
      == if Alerts(snap) && RequestOf(s, AnalyzeReqType(snap)) == NULL && !v.fatal then v.bits else s.devStatus
  {
    var s1 := Isr(s.(regs := snap));
    assert s1.pending == s.pending && s1.devStatus == s.devStatus;
    hide AnalyzeReqType, Alerts, VerdictOf, Dpc, Isr;
    DpcRecords(s1, snap);
  }

  /** Only an unattributed error is recorded, and only one with a nonzero status counts. */
  lemma DeliverRecords(s: Device, t: IoType, fault: BusFault)
    requires Phase(s, t) && s.errWork.None? && (s.work.None? || s.regs.intID == 0)
    ensures var s' := Deliver(s, fault);
      if RecordsError(s, fault) then s'.devStatus != 0 else s'.devStatus == 0 || s'.devStatus == s.devStatus
  {
    if s.regs.intID == 0 {
      ExtraneousInterrupt(s, fault);
      TransferSkipsUnattributed(s.regs, fault);
      NoAlert(s.regs);
      hide Deliver, Phase;
    } else {
      PhaseOf(s, t);
      var snap := BeforeIsr(s.regs, fault);
      assert Deliver(s, fault) == Dpc(Isr(s.(regs := snap)), snap) by {
        hide Phase, Dpc, Deliver, Isr;
        if Unattributed(s.regs) {
          DeliverUnattributed(s, fault);
          assert s.(regs := s.regs) == s;
        } else {
          DeliverAnnounced(s, t, fault);
        }
      }
      hide Deliver, Phase, Alerts, VerdictOf, AnalyzeReqType, BeforeIsr, Unattributed, Dpc, Isr;
      ServiceRecords(s, snap);
    }
  }

  // ----- the invariant over runs ------------------------------------------------------------------------------------------

  lemma InvInitially(y: System)
    requires Initial(y)
    ensures Inv(y)
  {
    assert Phase(y.dev, NO_IO) by {
      NoAlert(y.dev.regs);
      hide Unattributed;
    }
    forall id | id != NULL
      ensures Times(y.dev.done, id) + SlotsWith(y.dev.pending, 1, id) == if id in y.submitted then 1 else 0
    {
      EmptySlots(y.dev.pending, 1, id);
    }
  }

  lemma NothingOutstandingIsIdle(s: Device, t: IoType)
    requires Phase(s, t) && NothingOutstanding(s)
    ensures t == NO_IO
  {
    assert s.pending[t] == NULL;
  }

  lemma BalancedSubmit(y: System, id: nat, r: Request, powered: bool, setupFails: bool)
    requires Balanced(y) && NothingOutstanding(y.dev) && NO_IO < r.ioType < MLTPL_IO && id != NULL && id !in y.submitted
    ensures Balanced(Next(y, DoSubmit(id, r, powered, setupFails)))
  {
    var y' := Next(y, DoSubmit(id, r, powered, setupFails));
    assert y'.dev == Submit(y.dev, id, r, powered, setupFails) && y'.submitted == y.submitted + {id};
    hide Times, SlotsWith, Submit, Next, Phase;
    forall other | other != NULL
      ensures Times(y'.dev.done, other) + SlotsWith(y'.dev.pending, 1, other) == if other in y'.submitted then 1 else 0
    {
      SubmitBalances(y.dev, id, r, powered, setupFails, other);
    }
  }

  lemma SubmitRefuses(s: Device, id: nat, r: Request, powered: bool, setupFails: bool)
    requires NO_IO < r.ioType < MLTPL_IO
    ensures Submit(s, id, r, powered, setupFails).devStatus == if Refuses(s, r.ioType) then 0 else s.devStatus
  {
    hide Program;
  }

  lemma InvSubmit(y: System, id: nat, r: Request, powered: bool, setupFails: bool)
    requires Inv(y) && Allowed(y, DoSubmit(id, r, powered, setupFails))
    ensures Inv(Next(y, DoSubmit(id, r, powered, setupFails)))
  {
    var t: IoType :| Phase(y.dev, t);
    NothingOutstandingIsIdle(y.dev, t);
    SubmitPhase(y.dev, id, r, powered, setupFails);
    BalancedSubmit(y, id, r, powered, setupFails);
    SubmitRefuses(y.dev, id, r, powered, setupFails);
    hide Phase, Balanced, Submit;
  }

  lemma InvDeliver(y: System, fault: BusFault)
    requires Inv(y) && Allowed(y, DoDeliver(fault))
    ensures Inv(Next(y, DoDeliver(fault)))
  {
    var t: IoType :| Phase(y.dev, t);
    DeliverPhase(y.dev, t, fault);
    DeliverConserves(y.dev, t, fault);
    DeliverRecords(y.dev, t, fault);
    hide Phase, Deliver, Times, SlotsWith, RecordsError;
  }

  lemma InvWork(y: System, xaxnCount: nat)
    requires Inv(y) && Allowed(y, DoWork(xaxnCount))
    ensures Inv(Next(y, DoWork(xaxnCount)))
  {
    var t: IoType :| Phase(y.dev, t);
    WorkPhase(y.dev, t, xaxnCount);
    WorkConserves(y.dev, t, xaxnCount);
    hide Phase, Times, SlotsWith;
  }

  lemma InvPoll(y: System, spurious: bool, input: bool, output: bool, x: Draws, z: Draws)
    requires Inv(y) && Allowed(y, DoPoll(spurious, input, output, x, z))
    ensures Inv(Next(y, DoPoll(spurious, input, output, x, z)))
  {
    var t: IoType :| Phase(y.dev, t);
    PollPhase(y.dev, t, spurious, input, output, x, z);
    hide Phase, OnPoll, Times, SlotsWith;
  }

  lemma InvAlert(y: System, status: bv32)
    requires Inv(y) && Allowed(y, DoAlert(status))
    ensures Inv(Next(y, DoAlert(status)))
  {
    var t: IoType :| Phase(y.dev, t);
    AlertPhase(y.dev, t, status);
    hide Phase, Alerted, Times, SlotsWith;
  }

  lemma InvReset(y: System)
    requires Inv(y) && Allowed(y, DoReset)
    ensures Inv(Next(y, DoReset))
  {
    var t: IoType :| Phase(y.dev, t);
    ResetPhase(y.dev, t);
    hide Phase, Times, SlotsWith;
  }

  /** Every step but the fatal-error work item keeps the invariant. */
  lemma InvStep(y: System, step: Step)
    requires Inv(y) && Allowed(y, step) && !step.DoErrWork?
    ensures Inv(Next(y, step))
  {
    hide *;
    match step
    case DoSubmit(id, r, powered, setupFails) => InvSubmit(y, id, r, powered, setupFails);
    case DoPoll(spurious, input, output, x, z) => InvPoll(y, spurious, input, output, x, z);
    case DoAlert(status) => InvAlert(y, status);
    case DoDeliver(fault) => InvDeliver(y, fault);
    case DoWork(count) => InvWork(y, count);
    case DoReset => InvReset(y);
  }

  /** After the fatal-error work item: every request has been handed back exactly once. */
  ghost predicate AllDone(y: System) {
    && y.dev.ok && y.refused <= y.unattributed
    && (forall id :: id != NULL ==> Times(y.dev.done, id) == if id in y.submitted then 1 else 0)
  }

  /** What holds in every reachable state. */
  ghost predicate Safe(y: System) {
    if y.dev.failed then AllDone(y) else Inv(y)
  }

  lemma SlotsOfOnly(pending: Slots, t: IoType, id: nat)
    requires Only(pending, t) && t != NO_IO && id != NULL
    ensures SlotsWith(pending, 1, id) == if pending[t] == id then 1 else 0
  {
    SlotUpdate(pending, 1, t, NULL, id);
    EmptySlots(pending[t := NULL], 1, id);
  }

  lemma FatalWorkTimes(s: Device, t: IoType, id: nat)
    requires Phase(s, t) && s.errWork.Some? && id != NULL
    ensures Times(RunErrWork(s).done, id) == Times(s.done, id) + SlotsWith(s.pending, 1, id)
    ensures RunErrWork(s).ok && RunErrWork(s).failed
  {
    var w := s.errWork.value;
    if w.req == NULL {
      CompleteAnyHandsBackAll(s, w.status);
    } else {
      SlotsOfOnly(s.pending, t, id);
      TimesOne(s.done, Completion(w.req, w.status, 0), id);
    }
    hide Times, SlotsWith, PendingFrom, Armed, Unattributed, Announces;
  }

  /** Between s and s' the pending request, if there is one, was handed back with this
      status and no bytes, and nothing else was. */
  ghost predicate HandsBack(s: Device, s': Device, status: NtStatus) {
    exists t: IoType :: Only(s.pending, t)
      && s'.done == s.done + if t == NO_IO then [] else [Completion(s.pending[t], status, 0)]
  }

  lemma {:induction false} NothingPendingFrom(pending: seq<nat>, j: nat, status: NtStatus)
    requires forall i :: j <= i < |pending| ==> pending[i] == NULL
    ensures PendingFrom(pending, j, status) == []
    decreases |pending| - j
  {
    if j < |pending| {
      NothingPendingFrom(pending, j + 1, status);
    }
  }

  lemma {:induction false} OnePendingFrom(pending: Slots, t: IoType, j: nat, status: NtStatus)
    requires Only(pending, t) && j <= t && t != NO_IO
    ensures PendingFrom(pending, j, status) == [Completion(pending[t], status, 0)]
    decreases t - j
  {
    if j < t {
      OnePendingFrom(pending, t, j + 1, status);
    } else {
      NothingPendingFrom(pending, t + 1, status);
    }
  }

  lemma PendingOfOnly(pending: Slots, t: IoType, status: NtStatus)
    requires Only(pending, t)
    ensures PendingFrom(pending, 1, status) == if t == NO_IO then [] else [Completion(pending[t], status, 0)]
  {
    if t == NO_IO {
      NothingPendingFrom(pending, 1, status);
    } else {
      OnePendingFrom(pending, t, 1, status);
    }
  }

  lemma ErrWorkHandsBack(s: Device, t: IoType)
    requires Phase(s, t) && s.errWork.Some?
    ensures HandsBack(s, RunErrWork(s), s.errWork.value.status) && FatalStatus(s.errWork.value.status)
  {
    var w := s.errWork.value;
    PendingOfOnly(s.pending, t, w.status);
    assert Only(s.pending, t) && (w.req != NULL ==> t != NO_IO && w.req == s.pending[t]);
    assert RunErrWork(s).done == s.done + if w.req == NULL then PendingFrom(s.pending, 1, w.status) else [Completion(w.req, w.status, 0)];
    hide PendingFrom, Armed, Unattributed, Announces, RunErrWork, Phase, Only;
  }

  /** The fatal-error work item completes what is left, once, with the status of the
      fatal error and no bytes, and is the last step. */
  lemma FatalCompletesAll(y: System)
    requires Inv(y) && Allowed(y, DoErrWork)
    ensures Next(y, DoErrWork).dev.failed && AllDone(Next(y, DoErrWork))
    ensures FatalStatus(y.dev.errWork.value.status)
    ensures HandsBack(y.dev, Next(y, DoErrWork).dev, y.dev.errWork.value.status)
  {
    var t: IoType :| Phase(y.dev, t);
    var y' := Next(y, DoErrWork);
    assert y' == y.(dev := RunErrWork(y.dev));
    ErrWorkHandsBack(y.dev, t);
    hide Phase, Times, SlotsWith, RunErrWork, Next, HandsBack;
    FatalWorkTimes(y.dev, t, 1);
    forall id | id != NULL
      ensures Times(y'.dev.done, id) == if id in y'.submitted then 1 else 0
    {
      FatalWorkTimes(y.dev, t, id);
    }
  }

  lemma NotFailed(y: System)
    requires Inv(y)
    ensures !y.dev.failed
  {
    hide Started, Announced, Queued, Resting, ErrorQueued, Balanced;
  }

  lemma SafeStep(y: System, step: Step)
    requires Safe(y) && Allowed(y, step)
    ensures Safe(Next(y, step))
  {
    assert Inv(y) by {
      hide Inv, AllDone;
    }
    hide Inv, AllDone, Allowed, Next;
    if step.DoErrWork? {
      FatalCompletesAll(y);
    } else {
      InvStep(y, step);
      NotFailed(Next(y, step));
    }
  }

  /** In every state a run reaches. */
  lemma {:induction false} InvRun(y: System, run: seq<Step>)
    requires Safe(y) && AllowedRun(y, run)
    ensures Safe(After(y, run))
    decreases |run|
  {
    hide Safe, Allowed, Next;
    if run != [] {
      SafeStep(y, run[0]);
      InvRun(Next(y, run[0]), run[1..]);
    }
  }

  // ----- what the invariant means --------------------------------------------------------------------------------------------

  lemma {:induction false} SlotsPositive(pending: seq<nat>, j: nat, k: nat, id: nat)
    requires j <= k < |pending| && pending[k] == id
    ensures SlotsWith(pending, j, id) >= 1
    decreases k - j
  {
    if j < k {
      SlotsPositive(pending, j + 1, k, id);
    }
  }

  lemma {:induction false} SlotsZero(pending: seq<nat>, j: nat, id: nat)
    requires forall k :: j <= k < |pending| ==> pending[k] != id
    ensures SlotsWith(pending, j, id) == 0
    decreases |pending| - j
  {
    if j < |pending| {
      SlotsZero(pending, j + 1, id);
    }
  }

  /** Request id is in slot k and in no other. */
  ghost predicate PendingOnlyIn(pending: Slots, k: int, id: nat) {
    0 < k < SLOTS && forall j :: 0 <= j < SLOTS ==> (pending[j] == id <==> j == k)
  }

  /** In a reachable state an accepted request is either in exactly one pending slot
      and not yet completed, or completed exactly once and in no slot. */
  lemma ExactlyOnce(y: System, id: nat)
    requires Inv(y) && id in y.submitted && id != NULL
    ensures (Times(y.dev.done, id) == 0 && exists k :: PendingOnlyIn(y.dev.pending, k, id))
         || (Times(y.dev.done, id) == 1 && id !in y.dev.pending)
  {
    var t: IoType :| Phase(y.dev, t);
    assert Only(y.dev.pending, t);
    hide Phase, Times, SlotsWith;
    if t != NO_IO && y.dev.pending[t] == id {
      SlotsPositive(y.dev.pending, 1, t, id);
      assert PendingOnlyIn(y.dev.pending, t, id);
    } else {
      SlotsZero(y.dev.pending, 1, id);
    }
  }

  /** Nothing but submitted requests is ever handed back. */
  lemma NothingElseCompleted(y: System, id: nat)
    requires Inv(y) && id !in y.submitted && id != NULL
    ensures Times(y.dev.done, id) == 0 && id !in y.dev.pending
  {
    forall k | 1 <= k < SLOTS ensures y.dev.pending[k] != id {
      if y.dev.pending[k] == id {
        SlotsPositive(y.dev.pending, 1, k, id);
      }
    }
    assert y.dev.pending[0] == NULL;
    hide Times, SlotsWith;
  }

  /** In a reachable state no assertion of the driver about requests, slots or DMA
      transactions has fired; an idle device has neither a Go nor a cache bit and at
      most a bare alert in its interrupt id, and none at all when it has no message. */
  lemma ReachableIsClean(y: System)
    requires Inv(y)
    ensures y.dev.ok
    ensures NothingOutstanding(y.dev) ==> y.dev.regs.control == 0 && Unattributed(y.dev.regs) && !y.dev.dmaXaxn
    ensures y.dev.regs.mesgID == 0 ==> y.dev.regs.intID == 0 && y.dev.regs.status == 0
  {
    var t: IoType :| Phase(y.dev, t);
    if NothingOutstanding(y.dev) {
      NothingOutstandingIsIdle(y.dev, t);
    }
    hide Unattributed, Armed, Announces;
  }

  /** The statements above for every run from an initial state, and the last one after
      a fatal error, too. */
  lemma RunIsSafe(y: System, run: seq<Step>, id: nat)
    requires Initial(y) && AllowedRun(y, run) && id != NULL
    ensures var z := After(y, run);
      && z.dev.ok && z.refused <= z.unattributed
      && (if id !in z.submitted then Times(z.dev.done, id) == 0
          else if z.dev.failed then Times(z.dev.done, id) == 1
          else (Times(z.dev.done, id) == 0 && exists k :: PendingOnlyIn(z.dev.pending, k, id))
               || (Times(z.dev.done, id) == 1 && id !in z.dev.pending))
      && (!z.dev.failed ==>
            && (id !in z.submitted ==> id !in z.dev.pending)
            && (NothingOutstanding(z.dev) ==> z.dev.regs.control == 0 && Unattributed(z.dev.regs) && !z.dev.dmaXaxn)
            && (z.dev.regs.mesgID == 0 ==> z.dev.regs.intID == 0 && z.dev.regs.status == 0))
  {
    InvInitially(y);
    NotFailed(y);
    assert Safe(y) by {
      hide Inv, AllDone, Initial;
    }
    var z := After(y, run);
    hide Inv, Times, AllowedRun, After, Initial, Unattributed, PendingOnlyIn, NothingOutstanding;
    InvRun(y, run);
    if !z.dev.failed {
      ReachableIsClean(z);
      if id in z.submitted {
        ExactlyOnce(z, id);
      } else {
        NothingElseCompleted(z, id);
      }
      InvBounds(z);
    }
  }

  lemma InvBounds(y: System)
    requires Inv(y)
    ensures y.refused <= y.unattributed
  {
    hide Phase, Balanced;
  }

  // ----- device errors ---------------------------------------------------------------------------------------------------------

  /** An alert raised while no interrupt is announced: unless it is fatal, delivering
      it fails every pending request with the same status, empties every slot, and
      records the error for the next request. */
  lemma UnattributedFailsAll(s: Device, status: bv32, fault: BusFault)
    requires Unattributed(s.regs) && s.pending[NO_IO] == NULL
    requires !VerdictOf(Alerted(s.regs, status)).fatal
    ensures var v := VerdictOf(Alerted(s.regs, status));
      var s' := Deliver(s.(regs := Alerted(s.regs, status)), fault);
      && (forall j :: 0 <= j < SLOTS ==> s'.pending[j] == NULL)
      && (forall id :: id != NULL ==> Times(s'.done, id) == Times(s.done, id) + SlotsWith(s.pending, 1, id))
      && s.done <= s'.done && (forall k :: |s.done| <= k < |s'.done| ==> s'.done[k].status == v.status)
      && s'.devStatus == ClearBits(status, STATUS_RW_COUNT_MASK) && s'.devNtStatus == v.status
  {
    var snap := Alerted(s.regs, status);
    AlertAttributesNothing(s.regs, status);
    AlertedBits(s.regs, status);
    assert VerdictOf(snap).bits == ClearBits(status, STATUS_RW_COUNT_MASK);
    hide *;
    DeliverUnattributed(s.(regs := snap), fault);
    DpcFailsAll(Isr(s.(regs := snap)), snap);
    IsrKeepsSlots(s.(regs := snap));
  }

  lemma IsrKeepsSlots(s: Device)
    ensures Isr(s).pending == s.pending && Isr(s).done == s.done
  {
    hide UnexpectedBits, Unattributed;
  }

  lemma DpcFailsAll(s: Device, snap: Regs)
    requires s.pending[NO_IO] == NULL && Alerts(snap) && AnalyzeReqType(snap) == NO_IO && !VerdictOf(snap).fatal
    ensures var v, s' := VerdictOf(snap), Dpc(s, snap);
      && (forall j :: 0 <= j < SLOTS ==> s'.pending[j] == NULL)
      && (forall id :: id != NULL ==> Times(s'.done, id) == Times(s.done, id) + SlotsWith(s.pending, 1, id))
      && s.done <= s'.done && (forall k :: |s.done| <= k < |s'.done| ==> s'.done[k].status == v.status)
      && s'.devStatus == v.bits && s'.devNtStatus == v.status
  {
    hide AnalyzeReqType, Alerts, VerdictOf, BufrdCount, PendingFrom, Times, SlotsWith;
    var s1 := s.(ok := s.ok);
    CompleteAnyHandsBackAll(s1, VerdictOf(snap).status);
  }

  lemma AlertedBits(regs: Regs, status: bv32)
    requires Unattributed(regs)
    ensures Alerted(regs, status).intID != 0 && Alerted(regs, status).status == status
  {
    AlertAttributesNothing(regs, status);
    hide SetBits, AnyBit;
    UnattributedBits(Alerted(regs, status));
  }

  /** A recorded error refuses exactly one read or write, with the recorded status;
      the next one that is powered and set up is accepted. */
  lemma RefusedThenAccepted(s: Device, id: nat, r: Request, id': nat, r': Request, powered: bool, setupFails: bool)
    requires Programmable(r) && Programmable(r') && Refuses(s, r.ioType)
    ensures var s1 := Submit(s, id, r, powered, setupFails);
      var s2 := Submit(s1, id', r', true, false);
      && s1.done == s.done + [Completion(id, s.devNtStatus, 0)] && s1.pending == s.pending && s1.regs == s.regs
      && !Refuses(s1, r'.ioType)
      && s2.done == s1.done && s2.pending == s.pending[r'.ioType := id'] && Armed(s2.regs, r'.ioType)
  {
    ProgramArms(s.regs, r');
    hide Program, Armed;
  }

  // ----- the status switch --------------------------------------------------------------------------------------------------------

  /** The DPC's switch has a case for the error bits of this status register. */
  predicate KnownStatus(status: bv32) {
    ErrorVerdict(ClearBits(status, STATUS_RW_COUNT_MASK), true, NO_IO).known
  }

  lemma KnownOf(snap: Regs)
    ensures VerdictOf(snap).known <==> KnownStatus(snap.status)
  {
    hide ClearBits, AnyBit, AnalyzeReqType;
  }

  /** The status register after one draw over a clear one. */
  function DrawnBits(i: Injection): bv32 {
    SetBits(if i.genl then STATUS_GENERAL_ERR else 0, if i.busy then STATUS_DEVICE_BUSY else 0)
  }

  lemma InjectDraws(regs: Regs, i: Injection)
    requires AnyBit(regs.intEnable, INT_STATUS_ALERT) && regs.status == 0
    ensures Inject(regs, i).status == DrawnBits(i)
  {
    assert SetBits(0, STATUS_GENERAL_ERR) == SetBits(STATUS_GENERAL_ERR, 0) && SetBits(0, 0) == 0;
    hide AnyBit, SetBits;
  }

  lemma KnownUnlessTwo(i: Injection, bit: bv32)
    requires bit in {0, STATUS_INVALID_IO, STATUS_RESOURCE_ERR, STATUS_OVER_UNDER_ERR}
    ensures !AnyBit(DrawnBits(i), STATUS_DEVICE_FAILURE)
    ensures SetBits(DrawnBits(i), 0) == DrawnBits(i)
    ensures KnownStatus(SetBits(DrawnBits(i), bit)) <==> AtMostOne(i.genl, i.busy, bit != 0)
  {
  }

  lemma AlertsEnabled(t: IoType)
    ensures AnyBit(EnableBits(t), INT_STATUS_ALERT)
  {
  }

  predicate AtMostOne(a: bool, b: bool, c: bool) {
    !(a && b) && !(a && c) && !(b && c)
  }

  lemma PolledStatus(regs: Regs, t: IoType, input: bool, output: bool, x: Draws, y: Draws)
    requires Armed(regs, t) && regs.intID == 0 && regs.status == 0 && Covers(t, input, output)
    ensures Poll(regs, input, output, x, y).status == DrawnBits(DrawOf(t, if IsInput(t) then x else y))
    ensures Poll(regs, input, output, x, y).hostAddr == regs.hostAddr
  {
    AlertsEnabled(t);
    hide PollDirection, Poll, Fire, Inject, Consumed, DrawOf, IntBit, AnyBit, SetBits, ClearBits, Carries, DrawnBits;
    var z := if DirectionOf(t) == INPUT then x else y;
    PollIsDirection(regs, t, input, output, x, y);
    SingleFire(regs, t, z);
    FireFrame(regs, IntBit(t), Consumed(t), DrawOf(t, z));
    InjectDraws(regs, DrawOf(t, z));
  }

  lemma TransferStatus(regs: Regs, t: IoType, fault: BusFault)
    requires Announces(regs, t) && !AnyBit(regs.status, STATUS_DEVICE_FAILURE)
    ensures var bit := FaultStatus(regs.hostAddr, t, fault);
      BeforeIsr(regs, fault).status == if bit == 0 then regs.status else SetBits(regs.status, bit)
  {
    assert AnalyzeReqType(regs) == t;
    hide AnalyzeReqType, Announces, FaultStatus, SetBits, AnyBit, Walked;
  }

  /** An error drawn by the poll and a fault of the transfer add up in the status
      register before the DPC looks at it. Its switch has a case for the result, and
      does not assert, exactly if at most one of the two drawn errors and the bus
      fault is there. */
  lemma InjectedErrorsKnownIff(regs: Regs, t: IoType, input: bool, output: bool, x: Draws, y: Draws, fault: BusFault)
    requires Armed(regs, t) && regs.intID == 0 && regs.status == 0 && Covers(t, input, output)
    ensures var i := DrawOf(t, if IsInput(t) then x else y);
      VerdictOf(BeforeIsr(Poll(regs, input, output, x, y), fault)).known
      <==> AtMostOne(i.genl, i.busy, FaultStatus(regs.hostAddr, t, fault) != 0)
  {
    var i, polled := DrawOf(t, if IsInput(t) then x else y), Poll(regs, input, output, x, y);
    assert FaultStatus(regs.hostAddr, t, fault) in {0, STATUS_INVALID_IO, STATUS_RESOURCE_ERR, STATUS_OVER_UNDER_ERR};
    hide *;
    PollAnnounces(regs, t, input, output, x, y);
    PolledStatus(regs, t, input, output, x, y);
    KnownUnlessTwo(i, FaultStatus(regs.hostAddr, t, fault));
    TransferStatus(polled, t, fault);
    KnownOf(BeforeIsr(polled, fault));
  }

  lemma TimeoutStatus(bit: bv32)
    requires bit in {0, STATUS_INVALID_IO, STATUS_RESOURCE_ERR, STATUS_OVER_UNDER_ERR}
    ensures !AnyBit(STATUS_TIMEOUT_ERR, STATUS_DEVICE_FAILURE) && SetBits(STATUS_TIMEOUT_ERR, 0) == STATUS_TIMEOUT_ERR
    ensures KnownStatus(SetBits(STATUS_TIMEOUT_ERR, bit)) <==> bit == 0
  {
  }

  /** The same for the timeout alert of a manual request over an announced request. */
  lemma TimeoutKnownIff(regs: Regs, t: IoType, fault: BusFault)
    requires Announces(regs, t)
    ensures VerdictOf(BeforeIsr(Alerted(regs, STATUS_TIMEOUT_ERR), fault)).known <==> FaultStatus(regs.hostAddr, t, fault) == 0
  {
    var alerted := Alerted(regs, STATUS_TIMEOUT_ERR);
    assert FaultStatus(regs.hostAddr, t, fault) in {0, STATUS_INVALID_IO, STATUS_RESOURCE_ERR, STATUS_OVER_UNDER_ERR};
    assert alerted.hostAddr == regs.hostAddr && alerted.status == STATUS_TIMEOUT_ERR by {
      hide SetBits, FaultStatus;
    }
    hide *;
    AlertKeepsAnnouncement(regs, STATUS_TIMEOUT_ERR, t);
    TimeoutStatus(FaultStatus(regs.hostAddr, t, fault));
    TransferStatus(alerted, t, fault);
    KnownOf(BeforeIsr(alerted, fault));
  }

  // ----- the bus thread's assertions ----------------------------------------------------------------------------------------------

  /** The transfer gets past its check of the host address. */
  predicate InTransfer(regs: Regs) {
    var t := AnalyzeReqType(regs);
    t > NO_IO && !AnyBit(regs.status, STATUS_DEVICE_FAILURE) && !LacksAddress(regs.hostAddr, t)
  }

  /** The transfer's assertion on the host address does not fire. */
  predicate AddressAsserted(regs: Regs) {
    InTransfer(regs) ==> regs.hostAddr > 0
  }

  /** The transfer's assertion on the interrupt id does not fire. */
  predicate IdAsserted(regs: Regs) {
    InTransfer(regs) ==> regs.intID == IntBit(AnalyzeReqType(regs))
  }

  /** In a reachable state with an announced request the transfer, unless the device
      indicates a failure, starts; its assertion on the host address then holds exactly
      for the types that have a buffer, and the one on the interrupt id exactly if no
      alert was raised with it. */
  lemma BusAssertionsIff(y: System, t: IoType)
    requires Inv(y) && y.dev.errWork.None? && Announces(y.dev.regs, t)
    ensures var regs := y.dev.regs;
      && (InTransfer(regs) <==> !AnyBit(regs.status, STATUS_DEVICE_FAILURE))
      && (AddressAsserted(regs) <==> AnyBit(regs.status, STATUS_DEVICE_FAILURE) || !Bufferless(t))
      && (IdAsserted(regs) <==> AnyBit(regs.status, STATUS_DEVICE_FAILURE) || !Alerts(regs))
  {
    var regs := y.dev.regs;
    var u: IoType :| Phase(y.dev, u);
    AnnouncedFits(y.dev, t, u);
    AnnouncedAlerts(regs, t);
    assert AnalyzeReqType(regs) == t > NO_IO;
    hide AnalyzeReqType, AnyBit, IntBit, Alerts, Announces, Phase, Inv;
  }

  lemma AnnouncedAlerts(regs: Regs, t: IoType)
    requires Announces(regs, t)
    ensures Alerts(regs) <==> regs.intID != IntBit(t)
  {
    hide AnalyzeReqType, AnyBit, IntBit;
    AlertBits(t);
  }

  lemma AnnouncedFits(s: Device, t: IoType, u: IoType)
    requires Phase(s, u) && s.errWork.None? && Announces(s.regs, t)
    ensures AddressFits(s.regs, t)
  {
    assert AnalyzeReqType(s.regs) == t;
    if Unattributed(s.regs) {
      UnattributedBits(s.regs);
      assert false;
    }
    assert Announces(s.regs, u) ==> AnalyzeReqType(s.regs) == u;
    hide AnalyzeReqType, Announces, Unattributed, Armed, AddressFits;
  }

  // ----- a register reset under a request -------------------------------------------------------------------------------------------

  /** A run in which no alert is raised. */
  ghost predicate AlertFree(run: seq<Step>) {
    forall i :: 0 <= i < |run| ==> !run[i].DoAlert?
  }

  /** The registers say nothing about the request in slot t and nothing is queued. */
  ghost predicate Stranded(s: Device, t: IoType) {
    NO_IO < t < MLTPL_IO && s.pending[t] != NULL && Resting(s) && s.errWork.None? && s.regs.intID == 0
  }

  lemma StrandedStep(y: System, t: IoType, step: Step)
    requires Stranded(y.dev, t) && Allowed(y, step) && !step.DoAlert?
    ensures var y' := Next(y, step);
      Stranded(y'.dev, t) && y'.dev.pending == y.dev.pending && y'.dev.done == y.dev.done && y'.submitted == y.submitted
  {
    match step
    case DoSubmit(_, _, _, _) => assert false;
    case DoPoll(spurious, input, output, x, z) =>
      PollMisses(y.dev.regs, t, input, output, x, z);
      hide Poll, Unattributed, Armed;
    case DoDeliver(fault) =>
      ExtraneousInterrupt(y.dev, fault);
      hide Deliver, RecordsError, Unattributed;
    case DoReset => assert Unattributed(RESET_REGS);
    case DoWork(_) =>
    case DoErrWork =>
  }

  /** Polls, extraneous interrupts and further resets never complete a stranded
      request or free its slot. */
  lemma {:induction false} StrandedStays(y: System, t: IoType, run: seq<Step>)
    requires Stranded(y.dev, t) && AllowedRun(y, run) && AlertFree(run)
    ensures var z := After(y, run);
      Stranded(z.dev, t) && z.dev.pending == y.dev.pending && z.dev.done == y.dev.done
    decreases |run|
  {
    hide Stranded, Allowed, Next;
    if run != [] {
      StrandedStep(y, t, run[0]);
      assert forall i :: 0 <= i < |run[1..]| ==> run[1..][i] == run[i + 1];
      StrandedStays(Next(y, run[0]), t, run[1..]);
    }
  }

  /** Some run without an alert takes request id from slot t. */
  ghost predicate CanFinish(y: System, t: SlotType) {
    exists run :: AllowedRun(y, run) && AlertFree(run) && After(y, run).dev.pending[t] == NULL
  }

  /** The simulator resets the registers while a request is pending: without an alert
      the request can still finish exactly if its work item was already queued. */
  lemma ResetStrandsIff(y: System, t: IoType)
    requires Inv(y) && !y.dev.failed && y.dev.errWork.None? && NO_IO < t < MLTPL_IO && y.dev.pending[t] != NULL
    ensures CanFinish(Next(y, DoReset), t) <==> y.dev.work.Some?
  {
    var z := Next(y, DoReset);
    var u: IoType :| Phase(y.dev, u);
    assert u == t;
    ResetPhase(y.dev, t);
    if y.dev.work.Some? {
      var run := [DoWork(0)];
      assert run[1..] == [];
      WorkPhase(y.dev, t, 0);
      assert After(z, run) == Next(z, run[0]);
    } else {
      forall run | AllowedRun(z, run) && AlertFree(run)
        ensures After(z, run).dev.pending[t] != NULL
      {
        hide Phase, Allowed, Next, Resting;
        assert Stranded(z.dev, t);
        StrandedStays(z, t, run);
      }
    }
  }

  /** The next alert does finish it: unless fatal, it fails the stranded request, once,
      and frees its slot, however many polls and extraneous interrupts came between. */
  lemma AlertFreesStranded(y: System, t: IoType, run: seq<Step>, status: bv32, fault: BusFault)
    requires Inv(y) && !y.dev.failed && y.dev.errWork.None? && y.dev.work.None? && NO_IO < t < MLTPL_IO && y.dev.pending[t] != NULL
    requires AllowedRun(Next(y, DoReset), run) && AlertFree(run)
    requires !ErrorVerdict(ClearBits(status, STATUS_RW_COUNT_MASK), false, NO_IO).fatal
    ensures var z, id := After(Next(y, DoReset), run), y.dev.pending[t];
      var s' := Deliver(z.dev.(regs := Alerted(z.dev.regs, status)), fault);
      && Times(z.dev.done, id) == 0 && z.dev.pending[t] == id
      && Times(s'.done, id) == 1 && s'.pending[t] == NULL
  {
    var u: IoType :| Phase(y.dev, u);
    assert u == t && Only(y.dev.pending, t);
    ResetPhase(y.dev, t);
    var z0, id := Next(y, DoReset), y.dev.pending[t];
    assert z0.dev.pending == y.dev.pending && z0.dev.done == y.dev.done;
    hide Phase, Allowed, Next, Resting, Times, SlotsWith, Unattributed, Only;
    assert Stranded(z0.dev, t);
    StrandedStays(z0, t, run);
    OneSlot(y.dev.pending, t);
    StrandedVerdict(After(z0, run).dev, t, status);
    UnattributedFailsAll(After(z0, run).dev, status, fault);
  }

  lemma StrandedVerdict(s: Device, t: IoType, status: bv32)
    requires Stranded(s, t)
    ensures Unattributed(s.regs) && VerdictOf(Alerted(s.regs, status)).fatal
            == ErrorVerdict(ClearBits(status, STATUS_RW_COUNT_MASK), false, NO_IO).fatal
  {
    AlertedBits(s.regs, status);
    hide ClearBits, AnyBit, AnalyzeReqType, Unattributed, Alerted;
  }

  /** A work item that runs when an interrupt with an id bit was delivered behind its
      back completes its request a second time: exactly when the interrupt was not
      extraneous and not fatal. */
  lemma DoubleCompletionIff(s: Device, t: IoType, fault: BusFault, xaxnCount: nat)
    requires Phase(s, t) && s.errWork.None? && s.work.Some? && s.regs.mesgID != 0
    ensures Deliver(s, fault).work == s.work
    ensures var id := s.pending[t];
      var s' := RunWork(Deliver(s, fault), xaxnCount);
      && Times(s'.done, id) == Times(s.done, id) + if s.regs.intID != 0 && !VerdictOf(s.regs).fatal then 2 else 1
  {
    WorkPhase(s, t, xaxnCount);
    var id, s1 := s.pending[t], Deliver(s, fault);
    assert Unattributed(s.regs) && Only(s.pending, t) && id != NULL by {
      hide Unattributed, Armed, Announces;
    }
    if s.regs.intID == 0 {
      ExtraneousInterrupt(s, fault);
    } else {
      DeliverUnattributed(s, fault);
      CompleteAnyHandsBackAll(Isr(s), VerdictOf(s.regs).status);
      OneSlot(s.pending, t);
    }
    assert s1.work == s.work && Times(s1.done, id) == Times(s.done, id) + if s.regs.intID != 0 && !VerdictOf(s.regs).fatal then 1 else 0 by {
      hide Phase, Times, SlotsWith, Alerts, AnalyzeReqType, VerdictOf, Unattributed, PendingFrom, Deliver, UnexpectedBits, BufrdCount;
    }
    hide Deliver, Phase, Times;
    var w := s.work.value;
    TimesOne(s1.done, Completion(w.req, w.status, w.info), id);
    TimesOne(s1.done, Completion(w.req, w.status, if !NtSuccess(w.status) then 0 else if xaxnCount > 0 then xaxnCount else w.info), id);
  }

  lemma OneSlot(pending: Slots, t: IoType)
    requires Only(pending, t) && t != NO_IO
    ensures SlotsWith(pending, 1, pending[t]) == 1
  {
    SlotUpdate(pending, 1, t, NULL, pending[t]);
    EmptySlots(pending[t := NULL], 1, pending[t]);
  }

  /** After a fatal error every request has been completed exactly once, but the one
      the error was attributed to is still in its slot: the error work item frees the
      slot exactly when it carries no request. */
  lemma FatalFreesSlotIff(s: Device, t: IoType)
    requires Phase(s, t) && s.errWork.Some?
    ensures var s' := RunErrWork(s);
      && s'.failed && !s'.dmaXaxn && s'.errWork.None?
      && (t != NO_IO ==> Times(s'.done, s.pending[t]) == Times(s.done, s.pending[t]) + 1)
      && (t != NO_IO ==> (s'.pending[t] == NULL <==> s.errWork.value.req == NULL))
  {
    var w := s.errWork.value;
    if t != NO_IO {
      OneSlot(s.pending, t);
      CompleteAnyHandsBackAll(s, w.status);
      TimesOne(s.done, Completion(w.req, w.status, 0), s.pending[t]);
    }
    hide Times, SlotsWith, PendingFrom, Armed, Unattributed, Announces;
  }

  // ----- one request from start to end ---------------------------------------------------------------------------------------------

  const CALM := Injection(false, false)
  const NO_ERRORS := Draws(CALM, CALM, CALM)

  /** What a request completes with if nothing goes wrong. The simulator leaves the
      count bits of the status register alone, so that a buffered request reports one
      unit whatever its length. */
  ghost predicate GoodCount(t: IoType, info: nat, xaxnCount: nat, length: nat) {
    if t == READ_ALIGN || t == WRITE_ALIGN then info == 0
    else if t >= DMA_READ then info == if xaxnCount > 0 then xaxnCount else length % ULONG_RANGE
    else if t == CACHED_READ || t == CACHED_WRITE then info == MAD_CACHE_SIZE_BYTES
    else info == UNITIO_SIZE_BYTES
  }

  lemma CalmDirection(regs: Regs, t: IoType)
    requires Armed(regs, t) && regs.intID == 0
    ensures var polled := PollDirection(regs, DirectionOf(t), NO_ERRORS);
      && polled == regs.(mesgID := 1, intID := polled.intID, control := polled.control)
      && !Alerts(polled)
  {
    hide PollDirection, Fire, IntBit, DirectionOf, Consumed, AnyBit, SetBits, ClearBits;
    SingleFire(regs, t, NO_ERRORS);
    FireFrame(regs, IntBit(t), Consumed(t), CALM);
    FireId(regs, IntBit(t), Consumed(t), CALM);
    SettingIdBits(t);
    AlertBits(t);
  }

  lemma ProgramFrame(regs: Regs, r: Request)
    ensures var p := Program(regs, r);
      && p.intEnable == EnableBits(r.ioType) && p.intID == regs.intID && p.mesgID == regs.mesgID
      && p.hostAddr == BufferAddr(r) && p.status == regs.status
      && p.dtbc == BlockCount(r, regs.dtbc) && p.chain == ChainCount(r, regs.chain)
  {
    hide ControlBits, GoBit, IntBit, SetBits;
  }

  lemma CalmPoll(regs: Regs, r: Request, input: bool, output: bool)
    requires Programmable(r) && regs.intID == 0 && regs.status == 0 && Covers(r.ioType, input, output)
    ensures var programmed := Program(regs, r);
      var polled := Poll(programmed, input, output, NO_ERRORS, NO_ERRORS);
      && Announces(polled, r.ioType) && polled.status == 0 && !Alerts(polled) && polled.hostAddr == BufferAddr(r)
      && (r.ioType >= DMA_READ ==> Walked(polled, r.ioType, NoFault) == r.length % ULONG_RANGE)
  {
    var programmed := Program(regs, r);
    hide PollDirection, Poll, Program, Announces, Armed, Covers, IntBit, Alerts;
    ClassifiesIssuedType(regs, r, input, output, NO_ERRORS, NO_ERRORS);
    ProgramArms(regs, r);
    ProgramFrame(regs, r);
    CalmDirection(programmed, r.ioType);
    PollIsDirection(programmed, r.ioType, input, output, NO_ERRORS, NO_ERRORS);
  }

  /** No error has been recorded or queued between s and s'. */
  predicate SameErrors(s: Device, s': Device) {
    s'.devStatus == s.devStatus && s'.errWork == s.errWork && s'.failed == s.failed
  }

  /** Nothing is outstanding, no error is recorded and no message is waiting. */
  ghost predicate Idle(s: Device) {
    NothingOutstanding(s) && !s.failed && s.devStatus == 0 && s.regs.mesgID == 0
  }

  /** With no errors drawn and no fault on the bus the transfer leaves the registers
      as the poll left them, and the interrupt ends in the normal branch of the DPC. */
  lemma CalmDeliver(s: Device, r: Request)
    requires Programmable(r) && Announces(s.regs, r.ioType) && s.regs.status == 0 && !Alerts(s.regs)
    requires s.regs.hostAddr == BufferAddr(r) && s.pending[r.ioType] != NULL
    requires r.ioType >= DMA_READ ==> Walked(s.regs, r.ioType, NoFault) == r.length % ULONG_RANGE
    ensures var t := r.ioType;
      var s' := Deliver(s, NoFault);
      && s'.regs.control == 0 && s'.regs.intID == 0 && s'.regs.mesgID == 0 && s'.dmaXaxn == s.dmaXaxn
      && SameErrors(s, s')
      && if t in {READ_ALIGN, WRITE_ALIGN} then
           s'.work == s.work && s'.pending == s.pending[t := NULL]
           && s'.done == s.done + [Completion(s.pending[t], Success, 0)]
         else
           && s'.pending == s.pending && s'.done == s.done && s'.work.Some?
           && s'.work.value.ioType == t && s'.work.value.req == s.pending[t] && s'.work.value.status == Success
           && s'.work.value.kind == (if t < DMA_READ then BufrdWI else DmaWI)
           && GoodCount(t, s'.work.value.info, 0, r.length)
  {
    var t := r.ioType;
    assert FaultStatus(s.regs.hostAddr, t, NoFault) == 0;
    var snap := s.regs.(dtbc := Walked(s.regs, t, NoFault));
    TransferIdle(s.regs, t);
    DeliverAnnounced(s, t, NoFault);
    assert BufrdCount(t, 0) == if t == BUFRD_READ || t == BUFRD_WRITE then UNITIO_SIZE_BYTES else MAD_CACHE_SIZE_BYTES;
    AnnouncedBits(s.regs, t);
    assert !Alerts(snap);
    hide Deliver, BeforeIsr, AnalyzeReqType, Announces, Alerts, ErrorDpc, NormalDpc, VerdictOf, BufrdCount, UnexpectedBits, Walked;
    NormalOutcome(Isr(s.(regs := snap)), t, BufrdCount(t, s.regs.status), snap.dtbc, r.length);
  }

  lemma NormalOutcome(s: Device, t: IoType, count: nat, dtbc: nat, length: nat)
    requires NO_IO < t < MLTPL_IO && (t <= CACHED_WRITE ==> GoodCount(t, count, 0, length))
    requires t >= DMA_READ ==> dtbc == length % ULONG_RANGE
    ensures var s' := NormalDpc(s, t, count, dtbc);
      && s'.regs == s.regs && s'.dmaXaxn == s.dmaXaxn && SameErrors(s, s')
      && if t in {READ_ALIGN, WRITE_ALIGN} then
           s'.work == s.work && s'.pending == s.pending[t := NULL]
           && s'.done == s.done + [Completion(s.pending[t], Success, 0)]
         else
           && s'.pending == s.pending && s'.done == s.done && s'.work.Some?
           && s'.work.value.ioType == t && s'.work.value.req == s.pending[t] && s'.work.value.status == Success
           && s'.work.value.kind == (if t < DMA_READ then BufrdWI else DmaWI)
           && GoodCount(t, s'.work.value.info, 0, length)
  {
    if t == READ_ALIGN || t == WRITE_ALIGN {
    } else if t >= DMA_READ {
    } else {
    }
  }

  lemma TransferIdle(regs: Regs, t: IoType)
    requires Announces(regs, t) && FaultStatus(regs.hostAddr, t, NoFault) == 0
    requires !AnyBit(regs.status, STATUS_DEVICE_FAILURE)
    ensures BeforeIsr(regs, NoFault) == regs.(dtbc := Walked(regs, t, NoFault))
  {
    assert AnalyzeReqType(regs) == t;
    hide AnalyzeReqType, Announces, Alerted, FaultStatus;
  }

  /** A request to an idle device comes back with success: submit it, poll once without
      errors, deliver the interrupt and run the work item if there is one. Each step is
      one the protocol allows, and the device is idle again. */
  lemma RequestRoundTrip(y: System, id: nat, r: Request, input: bool, output: bool, xaxnCount: nat)
    requires Inv(y) && Idle(y.dev) && Programmable(r) && id != NULL && id !in y.submitted && Covers(r.ioType, input, output)
    ensures var y1 := Next(y, DoSubmit(id, r, true, false));
      var y2 := Next(y1, DoPoll(false, input, output, NO_ERRORS, NO_ERRORS));
      var y3 := Next(y2, DoDeliver(NoFault));
      var y4 := if y3.dev.work.Some? then Next(y3, DoWork(xaxnCount)) else y3;
      && Allowed(y, DoSubmit(id, r, true, false)) && Allowed(y1, DoPoll(false, input, output, NO_ERRORS, NO_ERRORS))
      && Allowed(y2, DoDeliver(NoFault)) && (y3.dev.work.Some? ==> Allowed(y3, DoWork(xaxnCount)))
      && Inv(y4) && Idle(y4.dev) && y4.submitted == y.submitted + {id}
      && |y4.dev.done| == |y.dev.done| + 1 && y4.dev.done[..|y.dev.done|] == y.dev.done
      && y4.dev.done[|y.dev.done|].req == id && y4.dev.done[|y.dev.done|].status == Success
      && GoodCount(r.ioType, y4.dev.done[|y.dev.done|].info, xaxnCount, r.length)
  {
    var t := r.ioType;
    var y1 := Next(y, DoSubmit(id, r, true, false));
    var y2 := Next(y1, DoPoll(false, input, output, NO_ERRORS, NO_ERRORS));
    var y3 := Next(y2, DoDeliver(NoFault));
    CalmStart(y, id, r, input, output);
    hide *;
    CalmService(y2, id, r);
    if y3.dev.work.Some? {
      CalmWork(y3, t, xaxnCount, r.length);
    } else {
    }
  }

  /** Slot t is taken by request id of a device that is otherwise idle. */
  ghost predicate Serving(y: System, id: nat, t: IoType) {
    && NO_IO < t < MLTPL_IO && id != NULL && y.dev.pending[t] == id
    && (forall j :: 0 <= j < SLOTS && j != t ==> y.dev.pending[j] == NULL)
    && y.dev.errWork.None? && !y.dev.failed && y.dev.devStatus == 0
  }

  lemma SubmitStep(y: System, id: nat, r: Request)
    requires NothingOutstanding(y.dev) && !y.dev.failed && y.dev.devStatus == 0 && !y.dev.dmaXaxn
    requires Programmable(r) && id != NULL && id !in y.submitted
    ensures Allowed(y, DoSubmit(id, r, true, false))
    ensures var s1 := Submit(y.dev, id, r, true, false);
      && Next(y, DoSubmit(id, r, true, false)) == System(s1, y.submitted + {id}, y.refused, y.unattributed)
      && s1 == y.dev.(pending := y.dev.pending[r.ioType := id], regs := Program(y.dev.regs, r), dmaXaxn := r.ioType >= DMA_READ, ok := s1.ok)
  {
    hide Program;
  }

  lemma CalmStart(y: System, id: nat, r: Request, input: bool, output: bool)
    requires Inv(y) && Idle(y.dev) && Programmable(r) && id != NULL && id !in y.submitted && Covers(r.ioType, input, output)
    ensures var y1 := Next(y, DoSubmit(id, r, true, false));
      var y2 := Next(y1, DoPoll(false, input, output, NO_ERRORS, NO_ERRORS));
      && Allowed(y, DoSubmit(id, r, true, false)) && Allowed(y1, DoPoll(false, input, output, NO_ERRORS, NO_ERRORS))
      && Inv(y2) && Served(y2, id, r) && y2.dev.done == y.dev.done && y2.submitted == y.submitted + {id}
  {
    var y1 := Next(y, DoSubmit(id, r, true, false));
    var y2 := Next(y1, DoPoll(false, input, output, NO_ERRORS, NO_ERRORS));
    ReachableIsClean(y);
    SubmitStep(y, id, r);
    CalmPoll(y.dev.regs, r, input, output);
    hide Program, Poll, Announces, Alerts, Walked, Inv, Programmable, Unattributed, Covers;
    InvStep(y, DoSubmit(id, r, true, false));
    InvStep(y1, DoPoll(false, input, output, NO_ERRORS, NO_ERRORS));
  }

  /** A request announced on a device without errors. */
  ghost predicate Served(y: System, id: nat, r: Request) {
    && Programmable(r) && Serving(y, id, r.ioType) && y.dev.work.None? && y.dev.regs.mesgID == 1
    && Announces(y.dev.regs, r.ioType) && y.dev.regs.status == 0 && !Alerts(y.dev.regs) && y.dev.regs.hostAddr == BufferAddr(r)
    && (r.ioType >= DMA_READ ==> Walked(y.dev.regs, r.ioType, NoFault) == r.length % ULONG_RANGE)
  }

  lemma CalmService(y: System, id: nat, r: Request)
    requires Inv(y) && Served(y, id, r)
    ensures var y', t := Next(y, DoDeliver(NoFault)), r.ioType;
      && Allowed(y, DoDeliver(NoFault)) && Inv(y') && y'.submitted == y.submitted
      && if t in {READ_ALIGN, WRITE_ALIGN} then
           Idle(y'.dev) && y'.dev.done == y.dev.done + [Completion(id, Success, 0)]
         else
           && Serving(y', id, t) && y'.dev.regs.mesgID == 0 && y'.dev.done == y.dev.done && y'.dev.work.Some?
           && GoodItem(y'.dev.work.value, id, t, r.length)
  {
    hide Programmable, Inv, Announces, Alerts, Deliver, Walked, GoodCount;
    CalmDeliver(y.dev, r);
    InvStep(y, DoDeliver(NoFault));
  }

  ghost predicate GoodItem(w: Work, id: nat, t: IoType, length: nat) {
    && w.ioType == t && w.req == id && w.status == Success && w.kind == (if t < DMA_READ then BufrdWI else DmaWI)
    && t != READ_ALIGN && t != WRITE_ALIGN && GoodCount(t, w.info, 0, length)
  }

  lemma CalmWork(y: System, t: IoType, xaxnCount: nat, length: nat)
    requires Inv(y) && y.dev.work.Some?
    requires Serving(y, y.dev.work.value.req, t) && y.dev.regs.mesgID == 0 && GoodItem(y.dev.work.value, y.dev.work.value.req, t, length)
    ensures var y', k := Next(y, DoWork(xaxnCount)), |y.dev.done|;
      && Allowed(y, DoWork(xaxnCount)) && Inv(y') && Idle(y'.dev) && y'.submitted == y.submitted
      && |y'.dev.done| == k + 1 && y'.dev.done[..k] == y.dev.done
      && y'.dev.done[k].req == y.dev.work.value.req && y'.dev.done[k].status == Success
      && GoodCount(t, y'.dev.done[k].info, xaxnCount, length)
  {
    hide Inv, GoodCount, RunWork;
    InvStep(y, DoWork(xaxnCount));
    GoodWork(y.dev, t, xaxnCount, length);
  }

  lemma GoodWork(s: Device, t: IoType, xaxnCount: nat, length: nat)
    requires NO_IO < t < MLTPL_IO && t != READ_ALIGN && t != WRITE_ALIGN
    requires s.work.Some? && s.work.value.ioType == t && s.work.value.status == Success
    requires s.work.value.kind == (if t < DMA_READ then BufrdWI else DmaWI) && GoodCount(t, s.work.value.info, 0, length)
    ensures var s', w := RunWork(s, xaxnCount), s.work.value;
      && |s'.done| == |s.done| + 1 && s'.done[..|s.done|] == s.done
      && s'.done[|s.done|].req == w.req && s'.done[|s.done|].status == Success
      && GoodCount(t, s'.done[|s.done|].info, xaxnCount, length)
      && s'.pending == s.pending[t := NULL] && s'.work.None? && s'.regs == s.regs && s'.dmaXaxn == (s.dmaXaxn && t < DMA_READ)
      && SameErrors(s, s')
  {
    if t < DMA_READ {
    } else {
    }
  }

  // ----- the failures are reachable ---------------------------------------------------------------------------------------------------

  lemma RunCons(y: System, step: Step, rest: seq<Step>)
    ensures AllowedRun(y, [step] + rest) <==> Allowed(y, step) && AllowedRun(Next(y, step), rest)
    ensures After(y, [step] + rest) == After(Next(y, step), rest)
  {
    hide Allowed, Next;
    assert ([step] + rest)[1..] == rest;
  }

  const CALM_POLL := DoPoll(false, true, true, NO_ERRORS, NO_ERRORS)

  lemma ServedAfterTwo(y: System, id: nat, r: Request)
    requires Initial(y) && Programmable(r) && id != NULL
    ensures var y1 := Next(y, DoSubmit(id, r, true, false));
      var y2 := Next(y1, CALM_POLL);
      Allowed(y, DoSubmit(id, r, true, false)) && Allowed(y1, CALM_POLL) && Inv(y2) && Served(y2, id, r) && y2.dev.done == []
  {
    InvInitially(y);
    hide Inv, Programmable, Served, Next, Allowed;
    CalmStart(y, id, r, true, true);
  }

  /** The phase of a state whose slot t is taken. */
  lemma PhaseOfSlot(y: System, t: IoType)
    requires Inv(y) && NO_IO < t < MLTPL_IO && y.dev.pending[t] != NULL
    ensures Phase(y.dev, t)
  {
    var u: IoType :| Phase(y.dev, u);
    assert Only(y.dev.pending, u);
    hide Phase, Balanced;
  }

  lemma WorkAndNoError(s: Device, t: IoType)
    requires Phase(s, t) && s.work.Some?
    ensures s.errWork.None? && !s.failed
  {
    hide Started, Announced, Queued, Resting;
  }

  lemma TimeoutNotFatal(s: Device, t: IoType)
    requires Phase(s, t) && s.errWork.None? && s.work.Some?
    ensures var regs := Alerted(s.regs, STATUS_TIMEOUT_ERR);
      regs.intID != 0 && regs.mesgID == 1 && !VerdictOf(regs).fatal
  {
    assert Unattributed(s.regs) by {
      hide Unattributed, Armed, Announces;
    }
    hide Phase, Unattributed, AnyBit, SetBits, ClearBits, AnalyzeReqType;
    AlertedBits(s.regs, STATUS_TIMEOUT_ERR);
    TimeoutBits();
  }

  lemma TimeoutBits()
    ensures ClearBits(STATUS_TIMEOUT_ERR, STATUS_RW_COUNT_MASK) == STATUS_TIMEOUT_ERR
    ensures ClearBits(STATUS_DEVICE_FAILURE, STATUS_RW_COUNT_MASK) == STATUS_DEVICE_FAILURE
    ensures AnyBit(STATUS_DEVICE_FAILURE, STATUS_DEVICE_FAILURE)
  {
  }

  /** A fresh device completes any buffered, cached or DMA request twice if the timeout
      alert of a manual request comes between its interrupt and its work item. */
  lemma DoubleCompletionHappens(y: System, id: nat, r: Request, fault: BusFault, xaxnCount: nat)
    requires Initial(y) && Programmable(r) && id != NULL && r.ioType !in {READ_ALIGN, WRITE_ALIGN}
    ensures var run := [DoSubmit(id, r, true, false), CALM_POLL, DoDeliver(NoFault), DoAlert(STATUS_TIMEOUT_ERR)];
      && AllowedRun(y, run)
      && var s := After(y, run).dev;
        && s.work.Some? && s.work.value.req == id && Deliver(s, fault).work == s.work
        && Times(RunWork(Deliver(s, fault), xaxnCount).done, id) == 2
  {
    var y1 := Next(y, DoSubmit(id, r, true, false));
    var y2, y3 := Next(y1, CALM_POLL), Next(Next(y1, CALM_POLL), DoDeliver(NoFault));
    ServedAfterTwo(y, id, r);
    CalmService(y2, id, r);
    var y4 := Next(y3, DoAlert(STATUS_TIMEOUT_ERR));
    assert NO_IO < r.ioType < MLTPL_IO;
    hide *;
    AlertOverWork(y3, r.ioType);
    DoubleCompletionIff(y4.dev, r.ioType, fault, xaxnCount);
    WorkPhase(y4.dev, r.ioType, xaxnCount);
    NoneDone(id);
    FourSteps(y, DoSubmit(id, r, true, false), CALM_POLL, DoDeliver(NoFault), DoAlert(STATUS_TIMEOUT_ERR));
  }

  /** A timeout alert over queued work. */
  lemma AlertOverWork(y: System, t: IoType)
    requires Inv(y) && NO_IO < t < MLTPL_IO && y.dev.pending[t] != NULL && y.dev.work.Some? && !y.dev.failed
    ensures var y' := Next(y, DoAlert(STATUS_TIMEOUT_ERR));
      && Allowed(y, DoAlert(STATUS_TIMEOUT_ERR)) && Phase(y'.dev, t) && y'.dev.errWork.None?
      && y'.dev.work == y.dev.work && y'.dev.done == y.dev.done && y'.dev.pending == y.dev.pending
      && y'.dev.regs.mesgID != 0 && y'.dev.regs.intID != 0 && !VerdictOf(y'.dev.regs).fatal
  {
    PhaseOfSlot(y, t);
    WorkAndNoError(y.dev, t);
    TimeoutNotFatal(y.dev, t);
    AlertPhase(y.dev, t, STATUS_TIMEOUT_ERR);
    hide Phase, Inv, Alerted, VerdictOf;
  }

  lemma NoneDone(id: nat)
    ensures Times([], id) == 0
  {
  }

  lemma FourSteps(y: System, a: Step, b: Step, c: Step, d: Step)
    ensures var y1 := Next(y, a);
      var y2, y3 := Next(y1, b), Next(Next(y1, b), c);
      && (Allowed(y, a) && Allowed(y1, b) && Allowed(y2, c) && Allowed(y3, d) ==> AllowedRun(y, [a, b, c, d]))
      && After(y, [a, b, c, d]) == Next(y3, d)
  {
    hide Next, Allowed;
    var y1 := Next(y, a);
    var y2 := Next(y1, b);
    var y3 := Next(y2, c);
    assert [a, b, c, d] == [a] + [b, c, d] && [b, c, d] == [b] + [c, d] && [c, d] == [c] + [d] && [d] == [d] + [];
    RunCons(y, a, [b, c, d]);
    RunCons(y1, b, [c, d]);
    RunCons(y2, c, [d]);
    RunCons(y3, d, []);
  }

  lemma FatalDeliver(s: Device, t: IoType)
    requires Announces(s.regs, t) && s.pending[t] != NULL
    ensures var s' := Deliver(s.(regs := Alerted(s.regs, STATUS_DEVICE_FAILURE)), NoFault);
      && s'.errWork == Some(ErrWork(t, s.pending[t], AdapterHardwareError))
      && s'.pending == s.pending && s'.done == s.done && s'.work == s.work
  {
    var regs := Alerted(s.regs, STATUS_DEVICE_FAILURE);
    AlertKeepsAnnouncement(s.regs, STATUS_DEVICE_FAILURE, t);
    TimeoutBits();
    assert regs.status == STATUS_DEVICE_FAILURE && BeforeIsr(regs, NoFault) == regs by {
      hide SetBits, AnyBit, AnalyzeReqType, Transfer;
    }
    DeliverAnnounced(s.(regs := regs), t, NoFault);
    AnnouncedBits(regs, t);
    assert VerdictOf(regs).fatal && !VerdictOf(regs).dead && VerdictOf(regs).status == AdapterHardwareError by {
      hide ClearBits, AnyBit, AnalyzeReqType, Alerted;
    }
    hide Deliver, BeforeIsr, AnalyzeReqType, Announces, Alerts, VerdictOf, NormalDpc, UnexpectedBits, Alerted, PendingFrom;
  }

  /** A device failure over any announced request is attributed to it: the error work
      item completes the request and leaves it in its slot. */
  lemma FatalKeepsSlotHappens(y: System, id: nat, r: Request)
    requires Initial(y) && Programmable(r) && id != NULL
    ensures var run := [DoSubmit(id, r, true, false), CALM_POLL, DoAlert(STATUS_DEVICE_FAILURE), DoDeliver(NoFault)];
      && AllowedRun(y, run)
      && var s := After(y, run).dev;
        && s.errWork.Some?
        && Times(RunErrWork(s).done, id) == 1 && RunErrWork(s).pending[r.ioType] == id
  {
    var t, y1 := r.ioType, Next(y, DoSubmit(id, r, true, false));
    var y2 := Next(y1, CALM_POLL);
    var y3 := Next(y2, DoAlert(STATUS_DEVICE_FAILURE));
    var y4 := Next(y3, DoDeliver(NoFault));
    assert NO_IO < t < MLTPL_IO;
    hide *;
    ServedAfterTwo(y, id, r);
    FatalTwoSteps(y2, id, r);
    InvStep(y2, DoAlert(STATUS_DEVICE_FAILURE));
    InvStep(y3, DoDeliver(NoFault));
    PhaseOfSlot(y4, t);
    FatalFreesSlotIff(y4.dev, t);
    NoneDone(id);
    AttributedStays(y4.dev, t, id);
    FourSteps(y, DoSubmit(id, r, true, false), CALM_POLL, DoAlert(STATUS_DEVICE_FAILURE), DoDeliver(NoFault));
  }

  /** A device failure raised over an announced request and delivered. */
  lemma FatalTwoSteps(y: System, id: nat, r: Request)
    requires Inv(y) && Served(y, id, r) && y.dev.done == []
    ensures var y' := Next(y, DoAlert(STATUS_DEVICE_FAILURE));
      var z := Next(y', DoDeliver(NoFault)).dev;
      && Allowed(y, DoAlert(STATUS_DEVICE_FAILURE)) && Allowed(y', DoDeliver(NoFault)) && id != NULL
      && z.pending[r.ioType] == id && z.done == [] && z.errWork == Some(ErrWork(r.ioType, id, AdapterHardwareError))
  {
    var y' := Next(y, DoAlert(STATUS_DEVICE_FAILURE));
    var regs := Alerted(y.dev.regs, STATUS_DEVICE_FAILURE);
    assert regs.mesgID == 1 by {
      hide SetBits;
    }
    hide Inv, Announces, Alerts, Programmable, Walked, Alerted, Deliver;
    FatalDeliver(y.dev, r.ioType);
    assert y' == y.(dev := y.dev.(regs := regs));
    assert Next(y', DoDeliver(NoFault)).dev == Deliver(y'.dev, NoFault);
  }

  /** A reset between programming and poll strands any request. */
  lemma ResetStrandsHappens(y: System, id: nat, r: Request)
    requires Initial(y) && Programmable(r) && id != NULL
    ensures var run := [DoSubmit(id, r, true, false), DoReset];
      AllowedRun(y, run) && After(y, run).dev.pending[r.ioType] == id && Stranded(After(y, run).dev, r.ioType)
  {
    var y1 := Next(y, DoSubmit(id, r, true, false));
    SubmitStep(y, id, r);
    InvInitially(y);
    assert y1.dev.pending[r.ioType] == id;
    assert Unattributed(RESET_REGS);
    hide Inv, Submit, Program, Unattributed;
    assert [DoSubmit(id, r, true, false), DoReset] == [DoSubmit(id, r, true, false)] + [DoReset] && [DoReset] == [DoReset] + [];
    RunCons(y, DoSubmit(id, r, true, false), [DoReset]);
    RunCons(y1, DoReset, []);
  }

  lemma AttributedStays(s: Device, t: IoType, id: nat)
    requires s.errWork == Some(ErrWork(t, id, AdapterHardwareError)) && id != NULL
    ensures RunErrWork(s).pending == s.pending
  {
  }

  /** The count field of the status register holds the number of 16-byte units less one,
      whatever the other bits are. */
  lemma ReadCountDecodes(units: bv32, rest: bv32)
    requires units < 16 && rest & STATUS_READ_COUNT_MASK == 0
    ensures ReadCount((units << 4) | rest) == (units as nat + 1) * UNITIO_SIZE_BYTES
  {
    assert (((units << 4) | rest) & STATUS_READ_COUNT_MASK) >> 4 == units;
  }

  lemma WriteCountDecodes(units: bv32, rest: bv32)
    requires units < 16 && rest & STATUS_WRITE_COUNT_MASK == 0
    ensures WriteCount((units << 12) | rest) == (units as nat + 1) * UNITIO_SIZE_BYTES
  {
    assert (((units << 12) | rest) & STATUS_WRITE_COUNT_MASK) >> 12 == units;
  }

  // ----- one request that fails --------------------------------------------------------------------------------------------------------

  /** What can go wrong with one request on its way through simulator and bus. */
  datatype Mishap = GeneralError | Busy | OutOfResources(walked: nat) | BeyondExtent

  predicate CanHit(m: Mishap, t: IoType) {
    match m
    case GeneralError => true
    case Busy => true
    case OutOfResources(_) => t != READ_ALIGN && t != WRITE_ALIGN
    case BeyondExtent => t in {BUFRD_READ, BUFRD_WRITE, READ_ALIGN, WRITE_ALIGN}
  }

  /** The status a caller gets for each mishap. */
  function StatusFor(m: Mishap, t: IoType): NtStatus {
    match m
    case GeneralError => IoDeviceError
    case Busy => DeviceBusy
    case OutOfResources(_) => HardwareMemoryError
    case BeyondExtent => if t in {READ_ALIGN, WRITE_ALIGN} then NonexistentSector else if IsInput(t) then NoDataDetected else DataOverrun
  }

  function DrawsOf(m: Mishap): Draws {
    var i := Injection(m.GeneralError?, m.Busy?);
    Draws(i, i, i)
  }

  function FaultOf(m: Mishap): BusFault {
    match m
    case OutOfResources(walked) => NoResource(walked)
    case BeyondExtent => ExtentExceeded
    case _ => NoFault
  }

  function BitOf(m: Mishap): bv32 {
    match m
    case GeneralError => STATUS_GENERAL_ERR
    case Busy => STATUS_DEVICE_BUSY
    case OutOfResources(_) => STATUS_RESOURCE_ERR
    case BeyondExtent => STATUS_OVER_UNDER_ERR
  }

  lemma MishapBits(m: Mishap, t: IoType)
    requires NO_IO < t < MLTPL_IO
    ensures SetBits(0, BitOf(m)) == BitOf(m) != 0 && ClearBits(BitOf(m), STATUS_RW_COUNT_MASK) == BitOf(m)
    ensures !AnyBit(BitOf(m), STATUS_DEVICE_FAILURE) && !AnyBit(0, STATUS_DEVICE_FAILURE)
    ensures AnyBit(EnableBits(t), INT_STATUS_ALERT)
  {
  }

  /** After the poll the status register holds the injected error, if the mishap is one. */
  lemma MishapPoll(regs: Regs, r: Request, m: Mishap, input: bool, output: bool)
    requires Programmable(r) && regs.intID == 0 && regs.status == 0 && Covers(r.ioType, input, output)
    ensures var programmed := Program(regs, r);
      var polled := Poll(programmed, input, output, DrawsOf(m), DrawsOf(m));
      && Announces(polled, r.ioType) && polled.hostAddr == BufferAddr(r)
      && polled.status == (if m.GeneralError? || m.Busy? then BitOf(m) else 0)
      && (m.GeneralError? || m.Busy? ==> Alerts(polled))
  {
    var programmed := Program(regs, r);
    MishapBits(m, r.ioType);
    hide PollDirection, Poll, Program, Announces, Armed, Covers, IntBit, EnableBits, AnyBit, SetBits, ClearBits, Fire, DirectionOf,
         Consumed, BitOf;
    var draws := DrawsOf(m);
    ClassifiesIssuedType(regs, r, input, output, draws, draws);
    ProgramArms(regs, r);
    ProgramStart(regs, r);
    PollIsDirection(programmed, r.ioType, input, output, draws, draws);
    SingleFire(programmed, r.ioType, draws);
    FireFrame(programmed, IntBit(r.ioType), Consumed(r.ioType), DrawOf(r.ioType, draws));
    InjectedStatus(programmed, m);
    if m.GeneralError? || m.Busy? {
      FireAlerts(programmed, r.ioType, Consumed(r.ioType), DrawOf(r.ioType, draws));
    }
  }

  lemma ProgramStart(regs: Regs, r: Request)
    ensures var p := Program(regs, r);
      && p.intEnable == EnableBits(r.ioType) && p.intID == regs.intID && p.hostAddr == BufferAddr(r) && p.status == regs.status
  {
    ProgramFrame(regs, r);
    hide Program, IntBit;
  }

  lemma InjectedStatus(regs: Regs, m: Mishap)
    requires AnyBit(regs.intEnable, INT_STATUS_ALERT) && regs.status == 0 && SetBits(0, BitOf(m)) == BitOf(m)
    ensures Inject(regs, Injection(m.GeneralError?, m.Busy?)).status == if m.GeneralError? || m.Busy? then BitOf(m) else 0
  {
    hide AnyBit, SetBits;
  }

  lemma FireAlerts(regs: Regs, t: IoType, consumed: bv32, i: Injection)
    requires NO_IO < t < MLTPL_IO && regs.intID == 0 && AnyBit(regs.intEnable, INT_STATUS_ALERT) && (i.genl || i.busy)
    ensures AnyBit(Fire(regs, IntBit(t), consumed, i).intID, INT_STATUS_ALERT)
  {
    SettingIdBits(t);
    AlertBits(t);
    hide AnyBit, SetBits, ClearBits, IntBit;
  }

  /** What the interrupt handler finds: the announced request, the alert, one error bit. */
  ghost predicate Hit(snap: Regs, t: IoType, m: Mishap) {
    Announces(snap, t) && Alerts(snap) && snap.status == BitOf(m)
  }

  lemma MishapSnap(polled: Regs, r: Request, m: Mishap)
    requires Programmable(r) && CanHit(m, r.ioType) && Announces(polled, r.ioType) && polled.hostAddr == BufferAddr(r)
    requires polled.status == (if m.GeneralError? || m.Busy? then BitOf(m) else 0)
    requires m.GeneralError? || m.Busy? ==> Alerts(polled)
    ensures Hit(BeforeIsr(polled, FaultOf(m)), r.ioType, m)
  {
    var t := r.ioType;
    assert NO_IO < t < MLTPL_IO;
    hide *;
    MishapBits(m, t);
    MishapFault(r, m);
    StatusHasNoFailure(m, polled.status);
    TransferKeepsType(polled, t, FaultOf(m));
    TransferStatus(polled, t, FaultOf(m));
    TransferAlerts(polled, t, FaultOf(m));
    HitOf(BeforeIsr(polled, FaultOf(m)), t, m);
  }

  lemma StatusHasNoFailure(m: Mishap, status: bv32)
    requires status == BitOf(m) || status == 0
    ensures !AnyBit(status, STATUS_DEVICE_FAILURE)
  {
    MishapBits(m, BUFRD_READ);
    hide AnyBit, BitOf, SetBits, ClearBits;
  }

  lemma MishapFault(r: Request, m: Mishap)
    requires Programmable(r) && CanHit(m, r.ioType)
    ensures FaultStatus(BufferAddr(r), r.ioType, FaultOf(m)) == if m.GeneralError? || m.Busy? then 0 else BitOf(m)
  {
  }

  lemma HitOf(snap: Regs, t: IoType, m: Mishap)
    requires Announces(snap, t) && Alerts(snap) && snap.status == BitOf(m)
    ensures Hit(snap, t, m)
  {
    hide Announces, Alerts, BitOf;
  }

  /** An alert stays, and a fault of the transfer raises one. */
  lemma TransferAlerts(regs: Regs, t: IoType, fault: BusFault)
    requires Announces(regs, t) && !AnyBit(regs.status, STATUS_DEVICE_FAILURE)
    ensures FaultStatus(regs.hostAddr, t, fault) != 0 || Alerts(regs) ==> Alerts(BeforeIsr(regs, fault))
  {
    assert AnalyzeReqType(regs) == t;
    AlertKeepsAnnouncement(regs, SetBits(regs.status, FaultStatus(regs.hostAddr, t, fault)), t);
    hide AnalyzeReqType, Announces, FaultStatus, SetBits, AnyBit, Walked;
  }

  lemma MishapVerdict(snap: Regs, t: IoType, m: Mishap)
    requires Hit(snap, t, m) && CanHit(m, t)
    ensures VerdictOf(snap) == Verdict(BitOf(m), StatusFor(m, t), false, false, true)
  {
    MishapBits(m, t);
    InputIds(t);
    hide AnyBit, SetBits, ClearBits, IntBit, TypeOf;
  }

  lemma MishapDeliver(s: Device, t: IoType, m: Mishap, fault: BusFault)
    requires Announces(s.regs, t) && Hit(BeforeIsr(s.regs, fault), t, m) && CanHit(m, t) && s.pending[t] != NULL
    ensures var s' := Deliver(s, fault);
      && s'.regs.control == 0 && s'.regs.intID == 0 && s'.pending == s.pending && s'.done == s.done && s'.dmaXaxn == s.dmaXaxn
      && s'.work.Some? && s'.work.value.ioType == t && s'.work.value.req == s.pending[t]
      && s'.work.value.kind == (if t < DMA_READ then BufrdWI else DmaWI)
      && s'.work.value.status == StatusFor(m, t) && (t < DMA_READ ==> s'.work.value.info == 0)
  {
    var snap := BeforeIsr(s.regs, fault);
    MishapVerdict(snap, t, m);
    DeliverAnnounced(s, t, fault);
    TransferKeepsType(s.regs, t, fault);
    assert Alerts(snap) && AnalyzeReqType(snap) == t;
    hide Deliver, BeforeIsr, AnalyzeReqType, Announces, Alerts, VerdictOf, NormalDpc, UnexpectedBits, StatusFor, BitOf, PendingFrom;
  }

  /** A request that one mishap hits on its way through an idle, error-free device comes
      back once, with that mishap's status and no bytes, and frees its slot: the status
      does not depend on how the error travels through the registers. */
  lemma MishapReachesCaller(s: Device, id: nat, r: Request, m: Mishap, input: bool, output: bool, xaxnCount: nat)
    requires Phase(s, NO_IO) && s.errWork.None? && s.devStatus == 0 && s.regs.intID == 0
    requires Programmable(r) && id != NULL && Covers(r.ioType, input, output) && CanHit(m, r.ioType)
    ensures var s1 := Submit(s, id, r, true, false);
      var s2 := s1.(regs := OnPoll(s1.regs, false, input, output, DrawsOf(m), DrawsOf(m)));
      var s3 := Deliver(s2, FaultOf(m));
      && s3.work.Some?
      && var s4 := RunWork(s3, xaxnCount);
        && s4.done == s.done + [Completion(id, StatusFor(m, r.ioType), 0)]
        && s4.pending == s.pending && s4.work.None? && !s4.dmaXaxn && s4.regs.control == 0 && s4.regs.intID == 0
  {
    var t, s1 := r.ioType, Submit(s, id, r, true, false);
    assert s.pending[t] == NULL && !s.dmaXaxn && s.work.None?;
    assert s1.pending == s.pending[t := id] && s1.done == s.done && s1.work == s.work && s1.regs == Program(s.regs, r)
        && s1.dmaXaxn == (t >= DMA_READ) by {
      hide Phase, Program;
    }
    MishapPoll(s.regs, r, m, input, output);
    var s2 := s1.(regs := OnPoll(s1.regs, false, input, output, DrawsOf(m), DrawsOf(m)));
    hide Phase, Submit, Program, Poll, Announces, Alerts, Covers, Programmable, Hit, DrawsOf, BitOf;
    MishapSnap(s2.regs, r, m);
    MishapDeliver(s2, t, m, FaultOf(m));
    FailedWork(Deliver(s2, FaultOf(m)), t, m, xaxnCount);
    hide Deliver, RunWork;
    assert s2.pending[t := NULL] == s.pending;
  }

  lemma FailedWork(s: Device, t: IoType, m: Mishap, xaxnCount: nat)
    requires s.work.Some? && s.work.value.ioType == t && s.work.value.status == StatusFor(m, t)
    requires s.work.value.kind == (if t < DMA_READ then BufrdWI else DmaWI) && (t < DMA_READ ==> s.work.value.info == 0)
    ensures var s' := RunWork(s, xaxnCount);
      && s'.done == s.done + [Completion(s.work.value.req, StatusFor(m, t), 0)] && s'.pending == s.pending[t := NULL]
      && s'.work.None? && s'.regs == s.regs && s'.dmaXaxn == (s.dmaXaxn && t < DMA_READ)
  {
  }
}
