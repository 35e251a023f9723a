/** Driver and simulated device as they are in memory: registers, pending-request
    slots and recorded error updated in place. Every handler is proved to make the
    step that RequestProtocol describes and to keep its invariant, so that what the
    invariant means holds of the object. */
module DeviceDriver {
  import opened Options
  import opened Registers
  import opened RequestProtocol

  class MadDevice {
    // device registers
    var mesgID: nat
    var control: bv32
    var status: bv32
    var intEnable: bv32
    var intID: bv32
    var hostAddr: nat
    var dtbc: nat
    var chain: nat   // total of the descriptor chain at CDPP

    // device extension
    const hPendingReqs: array<nat>
    var devStatus: bv32
    var devNtStatus: NtStatus
    var hDmaXaxn: bool
    var work: Option<Work>
    var errWork: Option<ErrWork>
    var done: seq<Completion>
    var errorCount: nat
    var failed: bool
    ghost var ok: bool

    // history
    ghost var submitted: set<nat>
    ghost var refused: nat
    ghost var unattributed: nat

    ghost predicate Shape() {
      hPendingReqs.Length == SLOTS
    }

    ghost function CurrentRegs(): Regs
      reads this
    {
      Regs(mesgID, control, status, intEnable, intID, hostAddr, dtbc, chain)
    }

    ghost function State(): Device
      requires Shape()
      reads this, hPendingReqs
    {
      Device(CurrentRegs(), hPendingReqs[..], devStatus, devNtStatus, hDmaXaxn, work, errWork, done, errorCount, ok, failed)
    }

    ghost function Sys(): System
      requires Shape()
      reads this, hPendingReqs
    {
      System(State(), submitted, refused, unattributed)
    }

    /** The object is in a state of the protocol. */
    ghost predicate Valid()
      reads this, hPendingReqs
    {
      Shape() && Safe(Sys())
    }

    constructor ()
      ensures Valid() && fresh(hPendingReqs)
      ensures Initial(Sys()) && !failed
    {
      mesgID, control, status, intEnable, intID, hostAddr, dtbc, chain := 0, 0, 0, 0, 0, 0, 0, 0;
      submitted, refused, unattributed := {}, 0, 0;
      hPendingReqs := new nat[SLOTS](_ => NULL);
      devStatus, devNtStatus, hDmaXaxn, work, errWork := 0, Success, false, None, None;
      done, errorCount, failed, ok := [], 0, false, true;
      new;
      InvInitially(Sys());
    }

    /** An accepted request is in exactly one slot, or has been completed exactly once;
        after a fatal error every one has been completed exactly once. */
    lemma AcceptedOnce(id: nat)
      requires Valid() && id in submitted && id != NULL
      ensures failed ==> Times(done, id) == 1
      ensures !failed ==>
        || (Times(done, id) == 0 && exists k :: PendingOnlyIn(hPendingReqs[..], k, id))
        || (Times(done, id) == 1 && id !in hPendingReqs[..])
    {
      if !failed {
        ExactlyOnce(Sys(), id);
      }
      hide Inv, Times;
    }

    // ----- simulator --------------------------------------------------------------

    method InjectAnyErrs(i: Injection)
      modifies `status, `intID
      ensures CurrentRegs() == Inject(old(CurrentRegs()), i)
    {
      AlertOnce(intID);
      hide SetBits, AnyBit;
      if AnyBit(intEnable, INT_STATUS_ALERT) {
        if i.genl {
          status := SetBits(status, STATUS_GENERAL_ERR);
          intID := SetBits(intID, INT_STATUS_ALERT);
        }
        if i.busy {
          status := SetBits(status, STATUS_DEVICE_BUSY);
          intID := SetBits(intID, INT_STATUS_ALERT);
        }
      }
    }

    /** What every branch of a poll does once it fires. */
    method RaiseInterrupt(idBit: bv32, consumed: bv32, i: Injection)
      modifies `mesgID, `control, `status, `intID
      ensures CurrentRegs() == Fire(old(CurrentRegs()), idBit, consumed, i)
    {
      hide SetBits, ClearBits, AnyBit, Inject;
      InjectAnyErrs(i);
      intID := SetBits(intID, idBit);
      control := ClearBits(control, consumed);
      mesgID := 1;
    }

    method PollInput(x: Draws)
      modifies `mesgID, `control, `status, `intID
      ensures CurrentRegs() == PollDirection(old(CurrentRegs()), INPUT, x)
    {
      InputBits(intEnable);
      hide Fire, SetBits, ClearBits, AnyBit;
      var controlReg := control;
      if !AnyBit(intEnable, INT_INPUT_MASK) {
        return;
      }
      if AnyBit(intEnable, INT_DMA_INPUT) {
        if AnyBit(controlReg, CONTROL_DMA_GO) {
          RaiseInterrupt(INT_DMA_INPUT, CONTROL_DMA_GO, x.dma);
        }
      }
      if AnyBit(intEnable, INT_BUFRD_INPUT) {
        if AnyBit(controlReg, CONTROL_BUFRD_GO) || AnyBit(controlReg, CONTROL_CACHE_XFER) {
          RaiseInterrupt(INT_BUFRD_INPUT, if AnyBit(controlReg, CONTROL_BUFRD_GO) then CONTROL_BUFRD_GO else CONTROL_CACHE_XFER, x.bufrd);
        }
      }
      if AnyBit(intEnable, INT_ALIGN_INPUT) {
        if AnyBit(controlReg, CONTROL_CACHE_XFER) {
          RaiseInterrupt(INT_ALIGN_INPUT, CONTROL_CACHE_XFER, x.align);
        }
      }
    }

    method PollOutput(x: Draws)
      modifies `mesgID, `control, `status, `intID
      ensures CurrentRegs() == PollDirection(old(CurrentRegs()), OUTPUT, x)
    {
      OutputBits(intEnable);
      hide Fire, SetBits, ClearBits, AnyBit;
      var controlReg := control;
      if !AnyBit(intEnable, INT_OUTPUT_MASK) {
        return;
      }
      if AnyBit(intEnable, INT_DMA_OUTPUT) {
        if AnyBit(controlReg, CONTROL_DMA_GO) {
          RaiseInterrupt(INT_DMA_OUTPUT, CONTROL_DMA_GO, x.dma);
        }
      }
      if AnyBit(intEnable, INT_BUFRD_OUTPUT) {
        if AnyBit(controlReg, CONTROL_BUFRD_GO) || AnyBit(controlReg, CONTROL_CACHE_XFER) {
          RaiseInterrupt(INT_BUFRD_OUTPUT, if AnyBit(controlReg, CONTROL_BUFRD_GO) then CONTROL_BUFRD_GO else CONTROL_CACHE_XFER, x.bufrd);
        }
      }
      if AnyBit(intEnable, INT_ALIGN_OUTPUT) {
        if AnyBit(controlReg, CONTROL_CACHE_XFER) {
          RaiseInterrupt(INT_ALIGN_OUTPUT, CONTROL_CACHE_XFER, x.align);
        }
      }
    }

    method HandlePoll(spurious: bool, input: bool, output: bool, x: Draws, y: Draws)
      requires Shape()
      modifies `mesgID, `control, `status, `intID
      ensures Shape()
      ensures Sys() == Next(old(Sys()), DoPoll(spurious, input, output, x, y))
      ensures old(Valid() && Allowed(Sys(), DoPoll(spurious, input, output, x, y))) ==> Valid()
    {
      hide PollDirection, Safe, Allowed, Next;
      StepKeeps(Sys(), DoPoll(spurious, input, output, x, y));
      NextPoll(Sys(), spurious, input, output, x, y);
      if spurious {
        mesgID := 1;
      } else {
        if input {
          PollInput(x);
        }
        if output {
          PollOutput(y);
        }
      }
    }

    /** OnManual: a timeout alert beside whatever the registers announce. */
    method RaiseTimeout()
      requires Shape()
      modifies `mesgID, `status, `intID
      ensures Shape()
      ensures Sys() == Next(old(Sys()), DoAlert(STATUS_TIMEOUT_ERR))
      ensures old(Valid() && Allowed(Sys(), DoAlert(STATUS_TIMEOUT_ERR))) ==> Valid()
    {
      hide SetBits, Safe, Allowed, Next;
      StepKeeps(Sys(), DoAlert(STATUS_TIMEOUT_ERR));
      NextAlert(Sys(), STATUS_TIMEOUT_ERR);
      intID := SetBits(intID, INT_STATUS_ALERT);
      status := STATUS_TIMEOUT_ERR;
      mesgID := 1;
    }

    method ClearRegisters()
      modifies `mesgID, `control, `status, `intEnable, `intID, `hostAddr, `dtbc, `chain
      ensures CurrentRegs() == RESET_REGS
    {
      mesgID, control, status, intEnable, intID, hostAddr, dtbc, chain := 0, 0, 0, 0, 0, 0, 0, 0;
    }

    /** ResetDevice: the whole register block is cleared, whatever it announces. */
    method ResetDevice()
      requires Shape()
      modifies `mesgID, `control, `status, `intEnable, `intID, `hostAddr, `dtbc, `chain
      ensures Shape()
      ensures Sys() == Next(old(Sys()), DoReset)
      ensures old(Valid() && Allowed(Sys(), DoReset)) ==> Valid()
    {
      hide Safe, Allowed, Next;
      StepKeeps(Sys(), DoReset);
      NextReset(Sys());
      ClearRegisters();
    }

    // ----- driver: start requests --------------------------------------------------------

    method VerifyIoReady(id: nat, powered: bool) returns (ready: bool)
      requires Shape()
      modifies `devStatus, `devNtStatus, `done
      ensures Shape()
      ensures ready <==> old(devStatus) == 0 && powered
      ensures State() == if old(devStatus) != 0 then Complete(old(State()), id, old(devNtStatus), 0).(devStatus := 0, devNtStatus := Success)
                         else if !powered then Complete(old(State()), id, PowerStateInvalid, 0)
                         else old(State())
    {
      if devStatus != 0 {
        done := done + [Completion(id, devNtStatus, 0)];
        devStatus, devNtStatus := 0, Success;
        return false;
      }
      if !powered {
        done := done + [Completion(id, PowerStateInvalid, 0)];
        return false;
      }
      return true;
    }

    /** MadProgramBufrdIo. */
    method ProgramBufrdIo(controlReg: bv32, intEnableReg: bv32, ioAddr: nat)
      modifies `hostAddr, `intEnable, `control
      ensures CurrentRegs() == old(CurrentRegs()).(hostAddr := ioAddr, intEnable := intEnableReg, control := SetBits(controlReg, CONTROL_BUFRD_GO))
    {
      hostAddr := ioAddr;
      intEnable := intEnableReg;
      control := controlReg;
      control := SetBits(controlReg, CONTROL_BUFRD_GO);
    }

    /** The registers of a request that is not a DMA transfer; an align request has no buffer. */
    method ProgramRequest(r: Request)
      requires NO_IO < r.ioType <= WRITE_ALIGN
      modifies `hostAddr, `intEnable, `control
      ensures CurrentRegs() == Program(old(CurrentRegs()), r)
    {
      GoBits(r);
      hide ControlBits, EnableBits, GoBit, SetBits;
      ProgramBufrdIo(ControlBits(r), EnableBits(r.ioType), if r.ioType <= CACHED_WRITE then r.hostAddr else 0);
    }

    method BufrdRequest(id: nat, r: Request, powered: bool, setupFails: bool)
      requires Shape() && r.ioType in {BUFRD_READ, BUFRD_WRITE}
      modifies this, hPendingReqs
      ensures Shape()
      ensures Sys() == Next(old(Sys()), DoSubmit(id, r, powered, setupFails))
      ensures old(Valid() && Allowed(Sys(), DoSubmit(id, r, powered, setupFails))) ==> Valid()
    {
      hide Program, Safe, Allowed, Next;
      StepKeeps(Sys(), DoSubmit(id, r, powered, setupFails));
      NextSubmit(Sys(), id, r, powered, setupFails);
      submitted, refused := submitted + {id}, refused + if Refuses(State(), r.ioType) then 1 else 0;
      var ready := VerifyIoReady(id, powered);
      if !ready {
        return;
      }
      if setupFails {
        done := done + [Completion(id, SetupFailed, 0)];
        return;
      }
      StartBufrd(id, r);
    }

    method StartBufrd(id: nat, r: Request)
      requires Shape() && r.ioType in {BUFRD_READ, BUFRD_WRITE}
      modifies `control, `intEnable, `hostAddr, `ok, hPendingReqs
      ensures Shape()
      ensures var s := old(State());
        State() == s.(pending := s.pending[r.ioType := id], regs := Program(s.regs, r), ok := s.ok && s.pending[r.ioType] == NULL)
    {
      hide Program;
      ok := ok && hPendingReqs[r.ioType] == NULL;
      hPendingReqs[r.ioType] := id;
      ProgramRequest(r);
    }

    method CacheRequest(id: nat, r: Request, setupFails: bool)
      requires Shape() && CACHED_READ <= r.ioType <= WRITE_ALIGN
      modifies this, hPendingReqs
      ensures Shape()
      ensures Sys() == Next(old(Sys()), DoSubmit(id, r, true, setupFails))
      ensures old(Valid() && Allowed(Sys(), DoSubmit(id, r, true, setupFails))) ==> Valid()
    {
      hide Program, Safe, Allowed, Next;
      StepKeeps(Sys(), DoSubmit(id, r, true, setupFails));
      NextSubmit(Sys(), id, r, true, setupFails);
      submitted := submitted + {id};
      if setupFails {
        done := done + [Completion(id, SetupFailed, 0)];
        return;
      }
      StartCached(id, r);
    }

    /** Programs first and records the request afterwards. */
    method StartCached(id: nat, r: Request)
      requires Shape() && CACHED_READ <= r.ioType <= WRITE_ALIGN
      modifies `control, `intEnable, `hostAddr, `ok, hPendingReqs
      ensures Shape()
      ensures var s := old(State());
        State() == s.(pending := s.pending[r.ioType := id], regs := Program(s.regs, r), ok := s.ok && s.pending[r.ioType] == NULL)
    {
      hide Program;
      ProgramRequest(r);
      ok := ok && hPendingReqs[r.ioType] == NULL;
      hPendingReqs[r.ioType] := id;
    }

    method DmaRequest(id: nat, r: Request, powered: bool, setupFails: bool)
      requires Shape() && DMA_READ <= r.ioType < MLTPL_IO
      modifies this, hPendingReqs
      ensures Shape()
      ensures Sys() == Next(old(Sys()), DoSubmit(id, r, powered, setupFails))
      ensures old(Valid() && Allowed(Sys(), DoSubmit(id, r, powered, setupFails))) ==> Valid()
    {
      hide Program, Safe, Allowed, Next;
      StepKeeps(Sys(), DoSubmit(id, r, powered, setupFails));
      NextSubmit(Sys(), id, r, powered, setupFails);
      submitted, refused := submitted + {id}, refused + if Refuses(State(), r.ioType) then 1 else 0;
      var ready := VerifyIoReady(id, powered);
      if !ready {
        return;
      }
      if setupFails {
        done := done + [Completion(id, SetupFailed, 0)];
        return;
      }
      ProgramDma(id, r);
    }

    /** MadEvtProgramDma, as far as slots, transaction and start registers go: a chained
        transfer has no host address and no byte count of its own. */
    method ProgramDma(id: nat, r: Request)
      requires Shape() && DMA_READ <= r.ioType < MLTPL_IO
      modifies `control, `intEnable, `hostAddr, `dtbc, `chain, `ok, `hDmaXaxn, hPendingReqs
      ensures Shape()
      ensures var s := old(State());
        State() == s.(pending := s.pending[r.ioType := id], regs := Program(s.regs, r), dmaXaxn := true, ok := s.ok && !s.dmaXaxn)
    {
      hide Program;
      hPendingReqs[r.ioType] := id;
      ProgramDmaRegisters(r);
      ok := ok && !hDmaXaxn;
      hDmaXaxn := true;
    }

    method ProgramDmaRegisters(r: Request)
      requires DMA_READ <= r.ioType < MLTPL_IO
      modifies `control, `intEnable, `hostAddr, `dtbc, `chain
      ensures CurrentRegs() == Program(old(CurrentRegs()), r)
    {
      GoBits(r);
      hide ControlBits, EnableBits, GoBit, SetBits;
      if r.ioType == DMA_READ || r.ioType == DMA_WRITE {
        hostAddr, dtbc, chain := r.hostAddr, r.length % ULONG_RANGE, 0;
      } else {
        hostAddr, dtbc, chain := 0, 0, r.length % ULONG_RANGE;
      }
      intEnable := EnableBits(r.ioType);
      control := ControlBits(r);
      control := SetBits(ControlBits(r), CONTROL_DMA_GO);
    }

    // ----- bus thread, interrupt handler, DPC ------------------------------------------------

    method RaiseAlert(bit: bv32)
      modifies `status, `intID
      ensures CurrentRegs() == old(CurrentRegs()).(intID := SetBits(old(intID), INT_STATUS_ALERT), status := SetBits(old(status), bit))
    {
      intID := SetBits(intID, INT_STATUS_ALERT);
      status := SetBits(status, bit);
    }

    /** MadBusPdoProcessDevIo, as far as the registers go. */
    method ProcessDevIo(t: IoType, fault: BusFault)
      modifies `status, `intID, `dtbc
      ensures CurrentRegs() == Transfer(old(CurrentRegs()), t, fault)
    {
      hide SetBits;
      if LacksAddress(hostAddr, t) {
        RaiseAlert(STATUS_INVALID_IO);
        return;
      }
      if t == BUFRD_READ || t == BUFRD_WRITE || t == READ_ALIGN || t == WRITE_ALIGN {
        if fault.ExtentExceeded? {
          RaiseAlert(STATUS_OVER_UNDER_ERR);
        }
      }
      if t != READ_ALIGN && t != WRITE_ALIGN && t != MLTPL_IO {
        if fault.NoResource? {
          RaiseAlert(STATUS_RESOURCE_ERR);
        }
      }
      if t == SG_DMA_READ || t == SG_DMA_WRITE {
        dtbc := if fault.NoResource? then fault.walked else chain;
      }
    }

    /** MadDevWdmISR. */
    method WdmIsr() returns (ours: bool)
      modifies `control, `status, `intEnable, `intID, `errorCount
      ensures ours <==> old(intID) != 0
      ensures CurrentRegs() == if ours then old(CurrentRegs()).(control := 0, status := 0, intEnable := 0, intID := 0) else old(CurrentRegs())
      ensures errorCount == old(errorCount) + if ours && UnexpectedBits(old(CurrentRegs())) then 1 else 0
    {
      hide AnyBit, ClearBits;
      if intID == 0 {
        return false;
      }
      if AnyBit(intID, INT_ALL_INVALID_MASK) {
        intID := ClearBits(intID, INT_ALL_INVALID_MASK);
        errorCount := errorCount + 1;
      }
      intEnable := 0;
      status := 0;
      intID := 0;
      control := 0;
      return true;
    }

    /** MadEvtISR: snapshot, reset, and whether a DPC is queued. */
    method InterruptHandler() returns (queued: bool, snap: Regs)
      requires Shape()
      modifies `mesgID, `control, `status, `intEnable, `intID, `errorCount
      ensures Shape()
      ensures snap == old(CurrentRegs()) && (queued <==> old(intID) != 0)
      ensures State() == Isr(old(State()))
    {
      hide UnexpectedBits;
      snap := Regs(mesgID, control, status, intEnable, intID, hostAddr, dtbc, chain);
      queued := WdmIsr();
      mesgID := 0;
    }

    method CompleteAnyPendingIOs(status: NtStatus)
      requires Shape()
      modifies `done, `hDmaXaxn, hPendingReqs
      ensures Shape()
      ensures State() == CompleteAny(old(State()), status)
    {
      ghost var slots := hPendingReqs[..];
      var j := BUFRD_READ as int;
      while j < SLOTS
        invariant 1 <= j <= SLOTS
        invariant hPendingReqs[0] == slots[0]
        invariant forall k :: 1 <= k < j ==> hPendingReqs[k] == NULL
        invariant forall k :: j <= k < SLOTS ==> hPendingReqs[k] == slots[k]
        invariant done + PendingFrom(slots, j, status) == old(done) + PendingFrom(slots, 1, status)
        invariant hDmaXaxn == (old(hDmaXaxn) && forall k :: DMA_READ <= k < j ==> slots[k] == NULL)
      {
        hide AnyDmaPending, PendingFrom;
        PendingStep(done, slots, j, status);
        if hPendingReqs[j] != NULL {
          if j >= DMA_READ && hDmaXaxn {
            hDmaXaxn := false;
          }
          done := done + [Completion(hPendingReqs[j], status, 0)];
          hPendingReqs[j] := NULL;
        }
        j := j + 1;
      }
    }

    method RecordError(v: Verdict)
      requires Shape()
      modifies `devStatus, `devNtStatus, `done, `hDmaXaxn, `errorCount, hPendingReqs
      ensures Shape()
      ensures State() == CompleteAny(old(State()), v.status).(devStatus := v.bits, devNtStatus := v.status, errorCount := old(errorCount) + 1)
    {
      hide PendingFrom, AnyDmaPending;
      devStatus, devNtStatus := v.bits, v.status;
      CompleteAnyPendingIOs(v.status);
      errorCount := errorCount + 1;
    }

    /** The DPC's branch for a set alert bit. */
    method ReportError(t: IoType, hRequest: nat, v: Verdict, count: nat)
      requires Shape() && hRequest == RequestOf(State(), t)
      modifies `devStatus, `devNtStatus, `done, `hDmaXaxn, `errorCount, `work, `errWork, hPendingReqs
      ensures Shape()
      ensures State() == ErrorDpc(old(State()), t, v, count)
    {
      hide CompleteAny;
      if v.fatal {
        errWork := Some(ErrWork(if v.dead then NO_IO else t, if v.dead then NULL else hRequest, v.status));
      } else if hRequest == NULL {
        RecordError(v);
      } else {
        if t < DMA_READ {
          work := Some(Work(BufrdWI, t, hRequest, v.status, 0));
        } else {
          work := Some(Work(DmaWI, t, hRequest, v.status, count));
        }
        errorCount := errorCount + 1;
      }
    }

    /** The DPC's branch for a normal completion. */
    method CompleteNormally(t: IoType, hRequest: nat, status: bv32, count: nat)
      requires Shape() && hRequest == RequestOf(State(), t)
      modifies `done, `work, `ok, hPendingReqs
      ensures Shape()
      ensures State() == NormalDpc(old(State()), t, BufrdCount(t, status), count)
    {
      hide ReadCount, WriteCount;
      if t == BUFRD_READ {
        work := Some(Work(BufrdWI, t, hRequest, Success, ReadCount(status)));
      } else if t == BUFRD_WRITE {
        work := Some(Work(BufrdWI, t, hRequest, Success, WriteCount(status)));
      } else if t == CACHED_READ || t == CACHED_WRITE {
        work := Some(Work(BufrdWI, t, hRequest, Success, MAD_CACHE_SIZE_BYTES));
      } else if t == READ_ALIGN || t == WRITE_ALIGN {
        done := done + [Completion(hRequest, Success, 0)];
        hPendingReqs[t] := NULL;
      } else if t == NO_IO || t == MLTPL_IO {
        ok := false;
      } else {
        work := Some(Work(DmaWI, t, hRequest, Success, count));
      }
    }

    method DetermineRequest(t: IoType) returns (hRequest: nat)
      requires Shape()
      modifies `ok
      ensures hRequest == RequestOf(old(State()), t)
      ensures ok == (old(ok) && (t == NO_IO || t == MLTPL_IO || hRequest != NULL))
    {
      if t == NO_IO || t == MLTPL_IO {
        hRequest := NULL;
      } else {
        hRequest := hPendingReqs[t];
        ok := ok && hRequest != NULL;
      }
    }

    /** The end of the DPC: all interrupts enabled, no host address. */
    method FinishDpc()
      requires Shape()
      modifies `intEnable, `hostAddr
      ensures State() == old(State()).(regs := old(CurrentRegs()).(intEnable := ALL_INTS_ENABLED, hostAddr := 0))
    {
      intEnable := ALL_INTS_ENABLED;
      hostAddr := 0;
    }

    method DpcForIsr(snap: Regs)
      requires Shape()
      modifies `devStatus, `devNtStatus, `done, `hDmaXaxn, `errorCount, `work, `errWork, `ok, `intEnable, `hostAddr, hPendingReqs
      ensures Shape()
      ensures State() == Dpc(old(State()), snap)
    {
      hide AnalyzeReqType, VerdictOf, BufrdCount, Alerts, ErrorDpc, NormalDpc;
      var t := AnalyzeReqType(snap);
      var hRequest := DetermineRequest(t);
      if Alerts(snap) {
        ReportError(t, hRequest, VerdictOf(snap), snap.dtbc);
      } else {
        CompleteNormally(t, hRequest, snap.status, snap.dtbc);
      }
      FinishDpc();
    }

    /** The bus thread's transfer for a message that announces a request. */
    method TransferData(fault: BusFault)
      modifies `status, `intID, `dtbc
      ensures CurrentRegs() == BeforeIsr(old(CurrentRegs()), fault)
    {
      hide AnalyzeReqType, AnyBit, Transfer;
      var t := AnalyzeReqType(Regs(mesgID, control, status, intEnable, intID, hostAddr, dtbc, chain));
      if t > NO_IO {
        if !AnyBit(status, STATUS_DEVICE_FAILURE) {
          ProcessDevIo(t, fault);
        }
      }
    }

    /** Transfer, interrupt handler and DPC for one message. */
    method AnswerMessage(fault: BusFault)
      requires Shape()
      modifies this, hPendingReqs
      ensures Shape()
      ensures State() == Deliver(old(State()), fault)
      ensures submitted == old(submitted) && refused == old(refused) && unattributed == old(unattributed)
    {
      hide BeforeIsr, Isr, Dpc;
      TransferData(fault);
      var queued, snap := InterruptHandler();
      if queued {
        DpcForIsr(snap);
      }
    }

    /** One round of the bus thread that finds a message. */
    method ServiceMessage(fault: BusFault)
      requires Shape()
      modifies this, hPendingReqs
      ensures Shape()
      ensures Sys() == Next(old(Sys()), DoDeliver(fault))
      ensures old(Valid() && Allowed(Sys(), DoDeliver(fault))) ==> Valid()
    {
      hide Deliver, RecordsError, Safe, Allowed, Next;
      StepKeeps(Sys(), DoDeliver(fault));
      NextDeliver(Sys(), fault);
      ghost var records := RecordsError(State(), fault);
      AnswerMessage(fault);
      unattributed := unattributed + if records then 1 else 0;
    }

    // ----- work items ----------------------------------------------------------------------------

    /** A buffered request reports its own count, whatever a DMA transaction would say. */
    method BufrdIoWorkItem(ghost xaxnCount: nat)
      requires Shape() && work.Some? && work.value.kind == BufrdWI
      modifies this, hPendingReqs
      ensures Shape()
      ensures Sys() == Next(old(Sys()), DoWork(xaxnCount))
      ensures old(Valid() && Allowed(Sys(), DoWork(xaxnCount))) ==> Valid()
    {
      hide Safe, Allowed, Next;
      StepKeeps(Sys(), DoWork(xaxnCount));
      NextWork(Sys(), xaxnCount);
      var w := work.value;
      work := None;
      done := done + [Completion(w.req, w.status, w.info)];
      hPendingReqs[w.ioType] := NULL;
    }

    method DmaWorkItem(xaxnCount: nat)
      requires Shape() && work.Some? && work.value.kind == DmaWI
      modifies this, hPendingReqs
      ensures Shape()
      ensures Sys() == Next(old(Sys()), DoWork(xaxnCount))
      ensures old(Valid() && Allowed(Sys(), DoWork(xaxnCount))) ==> Valid()
    {
      hide Safe, Allowed, Next;
      StepKeeps(Sys(), DoWork(xaxnCount));
      NextWork(Sys(), xaxnCount);
      var w := work.value;
      work := None;
      var xferCount := 0;
      if NtSuccess(w.status) {
        xferCount := if xaxnCount > 0 then xaxnCount else w.info;
      }
      hDmaXaxn := false;
      done := done + [Completion(w.req, w.status, xferCount)];
      hPendingReqs[w.ioType] := NULL;
    }

    method ErrorWorkItem()
      requires Shape() && errWork.Some?
      modifies this, hPendingReqs
      ensures Shape()
      ensures Sys() == Next(old(Sys()), DoErrWork)
      ensures old(Valid() && Allowed(Sys(), DoErrWork)) ==>
        Valid() && FatalStatus(old(errWork).value.status) && HandsBack(old(State()), State(), old(errWork).value.status)
    {
      hide PendingFrom, AnyDmaPending, Safe, Allowed, Next, HandsBack, FatalStatus;
      FatalKeeps(Sys());
      NextErrWork(Sys());
      var w := errWork.value;
      errWork := None;
      if w.req == NULL {
        CompleteAnyPendingIOs(w.status);
      } else {
        if w.ioType >= DMA_READ {
          ok := ok && hDmaXaxn;
          hDmaXaxn := false;
        }
        done := done + [Completion(w.req, w.status, 0)];
      }
      failed := true;
    }
  }

  /** One request in place, from its handler to its work item: an idle device hands it
      back once, with success and its count, and is idle again. */
  method ServeOneRequest(d: MadDevice, id: nat, r: Request, input: bool, output: bool, xaxnCount: nat)
    requires d.Valid() && Idle(d.State()) && Programmable(r) && id != NULL && id !in d.submitted && Covers(r.ioType, input, output)
    modifies d, d.hPendingReqs
    ensures d.Valid() && Idle(d.State()) && d.submitted == old(d.submitted) + {id}
    ensures |d.done| == |old(d.done)| + 1 && d.done[..|old(d.done)|] == old(d.done)
    ensures var c := d.done[|old(d.done)|];
      c.req == id && c.status == Success && GoodCount(r.ioType, c.info, xaxnCount, r.length)
  {
    assert Inv(d.Sys());
    RequestRoundTrip(d.Sys(), id, r, input, output, xaxnCount);
    hide Inv, Safe, Allowed, Next, GoodCount, Covers;
    if r.ioType == BUFRD_READ || r.ioType == BUFRD_WRITE {
      d.BufrdRequest(id, r, true, false);
    } else if r.ioType < DMA_READ {
      d.CacheRequest(id, r, false);
    } else {
      d.DmaRequest(id, r, true, false);
    }
    d.HandlePoll(false, input, output, NO_ERRORS, NO_ERRORS);
    d.ServiceMessage(NoFault);
    if d.work.Some? {
      if d.work.value.kind == BufrdWI {
        d.BufrdIoWorkItem(xaxnCount);
      } else {
        d.DmaWorkItem(xaxnCount);
      }
    }
  }

  lemma StepKeeps(y: System, step: Step)
    ensures Safe(y) && Allowed(y, step) ==> Safe(Next(y, step))
  {
    hide Safe, Allowed, Next;
    if Safe(y) && Allowed(y, step) {
      SafeStep(y, step);
    }
  }

  lemma FatalKeeps(y: System)
    ensures Safe(y) && Allowed(y, DoErrWork) ==>
      && Safe(Next(y, DoErrWork))
      && FatalStatus(y.dev.errWork.value.status) && HandsBack(y.dev, Next(y, DoErrWork).dev, y.dev.errWork.value.status)
  {
    StepKeeps(y, DoErrWork);
    if Safe(y) && Allowed(y, DoErrWork) {
      assert Inv(y) by {
        hide Inv, AllDone;
      }
      hide *;
      FatalCompletesAll(y);
    }
  }

  lemma NextSubmit(y: System, id: nat, r: Request, powered: bool, setupFails: bool)
    requires NO_IO < r.ioType < MLTPL_IO
    ensures Next(y, DoSubmit(id, r, powered, setupFails))
         == System(Submit(y.dev, id, r, powered, setupFails), y.submitted + {id},
                   y.refused + if Refuses(y.dev, r.ioType) then 1 else 0, y.unattributed)
  {
    hide Submit;
  }

  lemma NextPoll(y: System, spurious: bool, input: bool, output: bool, x: Draws, z: Draws)
    ensures Next(y, DoPoll(spurious, input, output, x, z)) == y.(dev := y.dev.(regs := OnPoll(y.dev.regs, spurious, input, output, x, z)))
  {
    hide OnPoll;
  }

  lemma NextAlert(y: System, status: bv32)
    ensures Next(y, DoAlert(status)) == y.(dev := y.dev.(regs := Alerted(y.dev.regs, status)))
  {
    hide Alerted;
  }

  lemma NextDeliver(y: System, fault: BusFault)
    ensures Next(y, DoDeliver(fault))
         == y.(dev := Deliver(y.dev, fault), unattributed := y.unattributed + if RecordsError(y.dev, fault) then 1 else 0)
  {
    hide Deliver, RecordsError;
  }

  lemma NextWork(y: System, xaxnCount: nat)
    ensures y.dev.work.Some? ==> Next(y, DoWork(xaxnCount)) == y.(dev := RunWork(y.dev, xaxnCount))
  {
    hide RunWork;
  }

  lemma NextErrWork(y: System)
    ensures y.dev.errWork.Some? ==> Next(y, DoErrWork) == y.(dev := RunErrWork(y.dev))
  {
    hide RunErrWork;
  }

  lemma NextReset(y: System)
    ensures Next(y, DoReset) == y.(dev := y.dev.(regs := RESET_REGS))
  {
  }

  lemma PendingStep(done: seq<Completion>, slots: seq<nat>, j: nat, status: NtStatus)
    requires j < |slots|
    ensures done + PendingFrom(slots, j, status)
         == (if slots[j] == NULL then done else done + [Completion(slots[j], status, 0)]) + PendingFrom(slots, j + 1, status)
  {
  }

  lemma GoBits(r: Request)
    ensures GoBit(r.ioType) == if r.ioType >= DMA_READ then CONTROL_DMA_GO else CONTROL_BUFRD_GO
  {
  }

  lemma AlertOnce(id: bv32)
    ensures SetBits(SetBits(id, INT_STATUS_ALERT), INT_STATUS_ALERT) == SetBits(id, INT_STATUS_ALERT)
  {
  }

  lemma InputBits(enable: bv32)
    ensures !AnyBit(enable, INT_INPUT_MASK) ==>
      !AnyBit(enable, INT_DMA_INPUT) && !AnyBit(enable, INT_BUFRD_INPUT) && !AnyBit(enable, INT_ALIGN_INPUT)
  {
  }

  lemma OutputBits(enable: bv32)
    ensures !AnyBit(enable, INT_OUTPUT_MASK) ==>
      !AnyBit(enable, INT_DMA_OUTPUT) && !AnyBit(enable, INT_BUFRD_OUTPUT) && !AnyBit(enable, INT_ALIGN_OUTPUT)
  {
  }
}
