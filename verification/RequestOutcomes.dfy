/** What a request's caller gets: the status and count of every completion that an alert
    brings about, fatal or not, the outcome of a submit, and what a delivery leaves in the
    registers and counters. */
module RequestOutcomes {
  import opened Options
  import opened Registers
  import opened RequestProtocol

  // ----- what an alert hands back ----------------------------------------------------------------------------------------------------------

  /** The status a request comes back with when the device fails or is dead. */
  function FatalMeaning(status: bv32): NtStatus {
    if ClearBits(status, STATUS_RW_COUNT_MASK) == STATUS_DEVICE_FAILURE then AdapterHardwareError else DevicePowerFailure
  }

  ghost predicate IndicatesFatal(status: bv32) {
    ClearBits(status, STATUS_RW_COUNT_MASK) in {STATUS_DEVICE_FAILURE, STATUS_DEAD_DEVICE_MASK}
  }

  lemma FatalBits(status: bv32)
    requires IndicatesFatal(status)
    ensures AnyBit(status, STATUS_DEVICE_FAILURE)
  {
  }

  lemma FatalSnap(regs: Regs, status: bv32, fault: BusFault)
    requires IndicatesFatal(status)
    ensures var snap := Alerted(regs, status);
      && BeforeIsr(snap, fault) == snap && Alerts(snap) && snap.intID != 0
      && VerdictOf(snap).fatal && VerdictOf(snap).status == FatalMeaning(status)
  {
    FatalBits(status);
    AlertedId(regs.intID);
    hide ClearBits, AnyBit, SetBits, AnalyzeReqType, Transfer;
  }

  lemma AlertedId(id: bv32)
    ensures SetBits(id, INT_STATUS_ALERT) != 0 && AnyBit(SetBits(id, INT_STATUS_ALERT), INT_STATUS_ALERT)
  {
  }

  lemma FatalDpc(s: Device, snap: Regs)
    requires Alerts(snap) && VerdictOf(snap).fatal
    ensures var s' := Dpc(s, snap);
      s'.errWork.Some? && s'.errWork.value.status == VerdictOf(snap).status && s'.done == s.done && s'.pending == s.pending
  {
    hide AnalyzeReqType, Alerts, VerdictOf, NormalDpc;
  }

  /** A device failure, or a dead device, reaches the caller: after its delivery, whatever
      the bus makes of it, the error work item hands back the pending request with the
      status of that failure and no bytes, and nothing else; it makes no difference
      whether the alert came with the request's interrupt or before it. */
  lemma FatalAlertReachesCaller(s: Device, t: IoType, status: bv32, fault: BusFault)
    requires Phase(s, t) && s.errWork.None? && s.work.None? && IndicatesFatal(status)
    ensures var s' := Deliver(s.(regs := Alerted(s.regs, status)), fault);
      && s'.errWork.Some? && s'.done == s.done
      && RunErrWork(s').done
         == s.done + if t == NO_IO then [] else [Completion(s.pending[t], FatalMeaning(status), 0)]
  {
    var s1 := s.(regs := Alerted(s.regs, status));
    var s' := Deliver(s1, fault);
    FatalSnap(s.regs, status, fault);
    AlertPhase(s, t, status);
    assert s1.regs == Alerted(s.regs, status) && s1.pending == s.pending && s1.done == s.done && s1.errWork.None? && s1.work.None?;
    assert Deliver(s1, fault) == Dpc(Isr(s1), s1.regs) by {
      hide Dpc, Isr, Phase, Alerted;
      assert s1.(regs := s1.regs) == s1;
    }
    hide *;
    FatalDpc(Isr(s1), s1.regs);
    IsrKeepsSlots(s1);
    DeliverPhase(s1, t, fault);
    OnlyOf(s, t);
    if Phase(s', t) {
      ErrWorkHandsBack(s', t);
    } else {
      ErrWorkHandsBack(s', NO_IO);
    }
    SameHandBack(s', RunErrWork(s'), t, FatalMeaning(status));
  }

  lemma OnlyOf(s: Device, t: IoType)
    requires Phase(s, t)
    ensures Only(s.pending, t)
  {
    hide Started, Announced, Queued, Resting, ErrorQueued;
  }

  lemma SameHandBack(s: Device, s': Device, t: IoType, status: NtStatus)
    requires Only(s.pending, t) && HandsBack(s, s', status)
    ensures s'.done == s.done + if t == NO_IO then [] else [Completion(s.pending[t], status, 0)]
  {
    var u: IoType :| Only(s.pending, u) && s'.done == s.done + if u == NO_IO then [] else [Completion(s.pending[u], status, 0)];
    if t != NO_IO {
      assert s.pending[t] != NULL;
    }
    if u != NO_IO {
      assert s.pending[u] != NULL;
    }
  }

  lemma {:induction false} RunAppend(y: System, run: seq<Step>, step: Step)
    requires AllowedRun(y, run + [step])
    ensures AllowedRun(y, run) && Allowed(After(y, run), step)
    ensures After(y, run + [step]) == Next(After(y, run), step)
    decreases |run|
  {
    hide Allowed, Next;
    if run == [] {
      assert [] + [step] == [step] + [];
      RunCons(y, step, []);
    } else {
      assert run + [step] == [run[0]] + (run[1..] + [step]) && run == [run[0]] + run[1..];
      RunCons(y, run[0], run[1..] + [step]);
      RunCons(y, run[0], run[1..]);
      RunAppend(Next(y, run[0]), run[1..], step);
    }
  }

  /** Every run that ends with the fatal-error work item hands back the request that was
      pending, with the status of a fatal error and no bytes, and nothing else. */
  lemma FatalRunHandsBack(y: System, run: seq<Step>)
    requires Initial(y) && AllowedRun(y, run + [DoErrWork])
    ensures var z, z' := After(y, run).dev, After(y, run + [DoErrWork]).dev;
      z.errWork.Some? && FatalStatus(z.errWork.value.status) && HandsBack(z, z', z.errWork.value.status)
  {
    RunAppend(y, run, DoErrWork);
    InvInitially(y);
    NotFailed(y);
    assert Safe(y) && Allowed(After(y, run), DoErrWork) by {
      hide Inv, AllDone, Initial, AllowedRun, After;
    }
    hide AllowedRun, After, Initial, Inv, AllDone, Next, HandsBack, FatalStatus;
    InvRun(y, run);
    FatalCompletesAll(After(y, run));
  }

  // Faults of the transfer

  /** The fault can strike a transfer of this type: an align request maps nothing, and only
      buffered and align requests check the extent. */
  predicate Strikes(fault: BusFault, t: IoType) {
    match fault
    case NoFault => false
    case NoResource(_) => t != READ_ALIGN && t != WRITE_ALIGN
    case ExtentExceeded => t in {BUFRD_READ, BUFRD_WRITE, READ_ALIGN, WRITE_ALIGN}
  }

  /** A transfer raises an error exactly if the fault can strike it or it lacks the address
      it needs, and then with the fault's own bit. */
  lemma FaultIff(regs: Regs, t: IoType, fault: BusFault)
    requires NO_IO < t < MLTPL_IO
    ensures var bit := FaultStatus(regs.hostAddr, t, fault);
      && (bit != 0 <==> Strikes(fault, t) || (regs.hostAddr == 0 && !Bufferless(t)))
      && (AddressFits(regs, t) && bit != 0 ==> bit == if fault.NoResource? then STATUS_RESOURCE_ERR else STATUS_OVER_UNDER_ERR)
      && (regs.hostAddr == 0 && !Bufferless(t) ==> bit == STATUS_INVALID_IO)
  {
  }

  // Alerts that are not fatal

  /** Alerts with a status that only the dialog raises, or an empty one. */
  predicate PlainAlert(status: bv32) {
    status == 0 || status == STATUS_INVALID_IO || status == STATUS_TIMEOUT_ERR
  }

  function AlertMeaning(status: bv32): NtStatus {
    if status == STATUS_TIMEOUT_ERR then Timeout else if status == STATUS_INVALID_IO then InvalidParameter else DeviceNotReady
  }

  lemma PlainBits(status: bv32)
    requires PlainAlert(status)
    ensures ClearBits(status, STATUS_RW_COUNT_MASK) == status && !AnyBit(status, STATUS_DEVICE_FAILURE)
  {
  }

  lemma PlainVerdict(snap: Regs)
    requires PlainAlert(snap.status)
    ensures VerdictOf(snap) == Verdict(snap.status, AlertMeaning(snap.status), false, false, true)
  {
    PlainBits(snap.status);
    hide ClearBits, AnyBit, AnalyzeReqType;
  }

  /** An alert before any request is announced fails the one that is pending and is
      recorded for the next. */
  lemma PlainUnattributed(s: Device, t: IoType, status: bv32, fault: BusFault)
    requires Only(s.pending, t) && Unattributed(s.regs) && PlainAlert(status)
    ensures var s' := Deliver(s.(regs := Alerted(s.regs, status)), fault);
      && s'.done == s.done + (if t == NO_IO then [] else [Completion(s.pending[t], AlertMeaning(status), 0)])
      && s'.devStatus == status && s'.devNtStatus == AlertMeaning(status) && s'.work == s.work
      && (forall j :: 0 <= j < SLOTS ==> s'.pending[j] == NULL)
  {
    var snap := Alerted(s.regs, status);
    var s1 := s.(regs := snap);
    AlertAttributesNothing(s.regs, status);
    AlertedBits(s.regs, status);
    PlainVerdict(snap);
    PendingOfOnly(s.pending, t, AlertMeaning(status));
    assert s.pending[NO_IO] == NULL;
    hide SetBits, AnyBit, Only, PlainAlert, AlertMeaning, Unattributed, VerdictOf, PendingFrom, Deliver, Alerted;
    DeliverUnattributed(s1, fault);
    PlainFailsAll(Isr(s1), snap);
    IsrKeepsSlots(s1);
    IsrKeepsWork(s1);
  }

  lemma IsrKeepsWork(s: Device)
    ensures Isr(s).work == s.work && Isr(s).dmaXaxn == s.dmaXaxn && Isr(s).errorCount >= s.errorCount
  {
    hide UnexpectedBits;
  }

  lemma PlainFailsAll(s: Device, snap: Regs)
    requires s.pending[NO_IO] == NULL && Alerts(snap) && AnalyzeReqType(snap) == NO_IO && !VerdictOf(snap).fatal
    ensures var v, s' := VerdictOf(snap), Dpc(s, snap);
      && s'.done == s.done + PendingFrom(s.pending, 1, v.status) && s'.work == s.work
      && s'.devStatus == v.bits && s'.devNtStatus == v.status
      && (forall j :: 0 <= j < SLOTS ==> s'.pending[j] == NULL)
  {
    hide AnalyzeReqType, Alerts, VerdictOf, BufrdCount, PendingFrom, AnyDmaPending;
  }

  lemma PlainTransfer(regs: Regs, t: IoType, status: bv32, fault: BusFault)
    requires Announces(regs, t) && PlainAlert(status) && FaultStatus(regs.hostAddr, t, fault) == 0
    ensures var alerted := Alerted(regs, status);
      BeforeIsr(alerted, fault) == alerted.(dtbc := Walked(regs, t, fault))
  {
    PlainBits(status);
    AlertKeepsAnnouncement(regs, status, t);
    assert AnalyzeReqType(Alerted(regs, status)) == t;
    assert Alerted(regs, status).hostAddr == regs.hostAddr && Alerted(regs, status).status == status;
    hide AnalyzeReqType, Announces, FaultStatus, SetBits, AnyBit, PlainAlert;
  }

  lemma PlainDpc(s: Device, snap: Regs, t: IoType)
    requires NO_IO < t < MLTPL_IO && AnalyzeReqType(snap) == t && Alerts(snap) && !VerdictOf(snap).fatal && s.pending[t] != NULL
    ensures var s', v := Dpc(s, snap), VerdictOf(snap);
      && s'.done == s.done && s'.pending == s.pending && s'.devStatus == s.devStatus
      && s'.work == Some(Work(if t < DMA_READ then BufrdWI else DmaWI, t, s.pending[t], v.status, if t < DMA_READ then 0 else snap.dtbc))
  {
    hide AnalyzeReqType, Alerts, VerdictOf, NormalDpc, CompleteAny;
  }

  /** The count of a request that comes back after an alert: a timeout is a success code,
      so that a DMA request still reports its bytes. */
  function AlertCount(t: IoType, status: bv32, xaxnCount: nat, walked: nat): nat {
    if t < DMA_READ || status != STATUS_TIMEOUT_ERR then 0 else if xaxnCount > 0 then xaxnCount else walked
  }

  /** An alert beside a request's own interrupt comes back with that request. */
  lemma PlainAttributed(s: Device, t: IoType, status: bv32, fault: BusFault, xaxnCount: nat)
    requires Announces(s.regs, t) && s.pending[t] != NULL && PlainAlert(status) && FaultStatus(s.regs.hostAddr, t, fault) == 0
    ensures var s' := Deliver(s.(regs := Alerted(s.regs, status)), fault);
      && s'.work.Some? && s'.devStatus == s.devStatus
      && RunWork(s', xaxnCount).done
         == s.done + [Completion(s.pending[t], AlertMeaning(status), AlertCount(t, status, xaxnCount, Walked(s.regs, t, fault)))]
      && RunWork(s', xaxnCount).pending == s.pending[t := NULL]
  {
    var alerted := Alerted(s.regs, status);
    var s1, snap := s.(regs := alerted), alerted.(dtbc := Walked(s.regs, t, fault));
    PlainTransfer(s.regs, t, status, fault);
    AlertKeepsAnnouncement(s.regs, status, t);
    assert snap.status == status && Alerts(snap) && s1.pending == s.pending && s1.done == s.done && s1.devStatus == s.devStatus;
    PlainVerdict(snap);
    DeliverAnnounced(s1, t, fault);
    assert NO_IO < t < MLTPL_IO && AnalyzeReqType(snap) == t;
    hide Deliver, Alerted, AnalyzeReqType, Announces, Alerts, BeforeIsr, VerdictOf, Walked, FaultStatus, SetBits, AnyBit;
    var s2 := s1.(regs := snap);
    IsrKeepsSlots(s2);
    IsrKeepsError(s2);
    PlainDpc(Isr(s2), snap, t);
    hide Isr, Dpc;
  }

  lemma IsrKeepsError(s: Device)
    ensures Isr(s).devStatus == s.devStatus
  {
    hide UnexpectedBits;
  }

  /** The timeout alert of a manual request, and any alert with an empty or invalid-i/o
      status, reaches the caller of the pending request once, with its own meaning: beside
      the request's interrupt through its work item, before it at once, and then it is
      recorded as well. */
  lemma AlertReachesCaller(s: Device, t: IoType, status: bv32, fault: BusFault, xaxnCount: nat)
    requires Phase(s, t) && s.errWork.None? && s.work.None? && PlainAlert(status)
    requires Announces(s.regs, t) ==> FaultStatus(s.regs.hostAddr, t, fault) == 0
    ensures var s1 := Deliver(s.(regs := Alerted(s.regs, status)), fault);
      var s2 := if s1.work.Some? then RunWork(s1, xaxnCount) else s1;
      && (forall j :: 0 <= j < SLOTS ==> s2.pending[j] == NULL)
      && if Announces(s.regs, t) then
           s2.done == s.done + [Completion(s.pending[t], AlertMeaning(status), AlertCount(t, status, xaxnCount, Walked(s.regs, t, fault)))]
         else
           && s2.done == s.done + (if t == NO_IO then [] else [Completion(s.pending[t], AlertMeaning(status), 0)])
           && s2.devStatus == status && s2.devNtStatus == AlertMeaning(status)
  {
    OnlyOf(s, t);
    assert Unattributed(s.regs) || Announces(s.regs, t) by {
      hide Armed, Unattributed, Announces;
    }
    if Announces(s.regs, t) {
      OnlySlot(s.pending, t);
      hide *;
      PlainAttributed(s, t, status, fault, xaxnCount);
    } else {
      hide *;
      PlainUnattributed(s, t, status, fault);
    }
  }

  lemma OnlySlot(pending: Slots, t: IoType)
    requires Only(pending, t) && t != NO_IO
    ensures var rest := pending[t := NULL];
      pending[t] != NULL && forall j :: 0 <= j < SLOTS ==> rest[j] == NULL
  {
  }

  /** Error bits that the DPC's switch has no case for, two of them at once for instance,
      come back with their request as an invalid device state and no bytes. */
  lemma UnknownReachesCaller(s: Device, t: IoType, fault: BusFault, xaxnCount: nat)
    requires Announces(s.regs, t) && s.pending[t] != NULL
    requires var snap := BeforeIsr(s.regs, fault); Alerts(snap) && !VerdictOf(snap).known
    ensures var s' := Deliver(s, fault);
      s'.work.Some? && RunWork(s', xaxnCount).done == s.done + [Completion(s.pending[t], InvalidDeviceState, 0)]
  {
    var snap := BeforeIsr(s.regs, fault);
    var s2 := s.(regs := snap);
    UnknownVerdict(snap);
    DeliverAnnounced(s, t, fault);
    assert NO_IO < t < MLTPL_IO && AnalyzeReqType(snap) == t;
    hide Deliver, AnalyzeReqType, Announces, Alerts, BeforeIsr, VerdictOf;
    IsrKeepsSlots(s2);
    PlainDpc(Isr(s2), snap, t);
    hide Isr, Dpc;
  }

  lemma UnknownVerdict(snap: Regs)
    ensures var v := VerdictOf(snap); !v.known ==> v.status == InvalidDeviceState && !v.fatal
  {
    hide ClearBits, AnyBit, AnalyzeReqType;
  }

  // ----- what a submit, an interrupt and a delivery leave ---------------------------------------------------------------------------------

  /** A request is accepted exactly if it need not be ready or the device is, and its setup
      succeeds; a refused one comes back at once with its own reason and changes nothing
      else but the recorded error it reports. */
  lemma SubmitAcceptsIff(s: Device, id: nat, r: Request, powered: bool, setupFails: bool)
    requires Programmable(r) && id != NULL && s.pending[r.ioType] == NULL
    ensures var s', t := Submit(s, id, r, powered, setupFails), r.ioType;
      && (s'.pending[t] == id <==> !setupFails && (ChecksReady(t) ==> s.devStatus == 0 && powered))
      && (s'.pending[t] == id ==>
            s'.done == s.done && s'.pending == s.pending[t := id] && Armed(s'.regs, t) && s'.devStatus == s.devStatus)
      && (s'.pending[t] != id ==>
            && s'.pending == s.pending && s'.regs == s.regs && s'.dmaXaxn == s.dmaXaxn && s'.ok == s.ok
            && (s.devStatus == 0 || !ChecksReady(t) ==> s'.devStatus == s.devStatus)
            && |s'.done| == |s.done| + 1 && s'.done[..|s.done|] == s.done
            && s'.done[|s.done|].req == id && s'.done[|s.done|].info == 0
            && s'.done[|s.done|].status == (if ChecksReady(t) && s.devStatus != 0 then s.devNtStatus
                                            else if ChecksReady(t) && !powered then PowerStateInvalid else SetupFailed))
  {
    assert NO_IO < r.ioType < MLTPL_IO;
    hide Program, Armed, Programmable, ChecksReady;
    ProgramArms(s.regs, r);
    if ChecksReady(r.ioType) && s.devStatus != 0 {
    } else if ChecksReady(r.ioType) && !powered {
    } else if setupFails {
    } else {
    }
  }

  /** Every delivery of an interrupt with an id bit leaves the device quiet, all its
      interrupts enabled and no host address. */
  lemma DeliveryRearms(s: Device, fault: BusFault)
    requires BeforeIsr(s.regs, fault).intID != 0
    ensures var regs := Deliver(s, fault).regs;
      && regs.mesgID == 0 && regs.control == 0 && regs.status == 0 && regs.intID == 0 && regs.hostAddr == 0
      && regs.intEnable == ALL_INTS_ENABLED
  {
    hide BeforeIsr, Isr, Dpc, AnalyzeReqType;
    var s1 := s.(regs := BeforeIsr(s.regs, fault));
    DpcRearms(Isr(s1), s1.regs);
    IsrClears(s1);
  }

  lemma DpcRearms(s: Device, snap: Regs)
    ensures Dpc(s, snap).regs == s.regs.(intEnable := ALL_INTS_ENABLED, hostAddr := 0)
  {
    hide AnalyzeReqType, Alerts, VerdictOf, PendingFrom, BufrdCount;
  }

  lemma IsrClears(s: Device)
    requires s.regs.intID != 0
    ensures Isr(s).regs == s.regs.(mesgID := 0, control := 0, status := 0, intEnable := 0, intID := 0)
  {
    hide UnexpectedBits;
  }

  lemma KnownIds(t: IoType)
    requires t < MLTPL_IO
    ensures !AnyBit(IntBit(t), INT_ALL_INVALID_MASK) && !AnyBit(IntBit(t) | INT_STATUS_ALERT, INT_ALL_INVALID_MASK)
    ensures IntBit(NO_IO) == 0
  {
  }

  lemma ExpectedBits(regs: Regs, t: IoType)
    requires t < MLTPL_IO && Carries(regs.intID, IntBit(t))
    ensures !UnexpectedBits(regs)
  {
    hide AnyBit, IntBit;
    KnownIds(t);
  }

  lemma DpcCounts(s: Device, snap: Regs)
    requires s.regs.intID == snap.intID && snap.intID != 0 && !UnexpectedBits(s.regs)
    ensures Dpc(Isr(s), snap).errorCount == s.errorCount + if Alerts(snap) && !VerdictOf(snap).fatal then 1 else 0
  {
    hide AnalyzeReqType, Alerts, VerdictOf, UnexpectedBits, PendingFrom, BufrdCount;
  }

  /** The error count grows by one for each interrupt with an alert that is not fatal; no
      reachable interrupt shows unexpected bits. */
  lemma DeliverCountsErrors(s: Device, t: IoType, fault: BusFault)
    requires Phase(s, t) && s.errWork.None? && (s.work.None? || s.regs.intID == 0)
    ensures var snap := BeforeIsr(s.regs, fault);
      Deliver(s, fault).errorCount == s.errorCount + if Alerts(snap) && !VerdictOf(snap).fatal then 1 else 0
  {
    if s.regs.intID == 0 {
      ExtraneousInterrupt(s, fault);
      TransferSkipsUnattributed(s.regs, fault);
      NoAlert(s.regs);
      hide Deliver, Phase;
    } else {
      PhaseOf(s, t);
      var snap := BeforeIsr(s.regs, fault);
      if Unattributed(s.regs) {
        KnownIds(NO_IO);
        hide *;
        DeliverUnattributed(s, fault);
        ExpectedBits(snap, NO_IO);
        DpcCounts(s, snap);
      } else {
        hide *;
        DeliverAnnounced(s, t, fault);
        TransferKeepsType(s.regs, t, fault);
        AnnouncedCarries(snap, t);
        ExpectedBits(snap, t);
        DpcCounts(s.(regs := snap), snap);
      }
    }
  }

  lemma AnnouncedCarries(regs: Regs, t: IoType)
    requires Announces(regs, t)
    ensures NO_IO < t < MLTPL_IO && Carries(regs.intID, IntBit(t))
  {
    hide AnalyzeReqType, IntBit;
  }

  lemma CountFields(kr: bv32, kw: bv32)
    requires kr < 16 && kw < 16
    ensures var status := (kr << 4) | (kw << 12);
      && ReadCount(status) == (kr as nat + 1) * UNITIO_SIZE_BYTES && WriteCount(status) == (kw as nat + 1) * UNITIO_SIZE_BYTES
      && !AnyBit(status, STATUS_DEVICE_FAILURE)
  {
    assert (kw << 12) & STATUS_READ_COUNT_MASK == 0 && (kr << 4) & STATUS_WRITE_COUNT_MASK == 0;
    assert (kr << 4) | (kw << 12) == (kw << 12) | (kr << 4);
    ReadCountDecodes(kr, kw << 12);
    WriteCountDecodes(kw, kr << 4);
    assert ((kr << 4) | (kw << 12)) & STATUS_DEVICE_FAILURE == 0;
  }

  /** A device that fills both count fields has a buffered read report the one and a
      buffered write the other. */
  lemma BufrdReports(s: Device, t: IoType, kr: bv32, kw: bv32)
    requires t in {BUFRD_READ, BUFRD_WRITE} && Announces(s.regs, t) && !Alerts(s.regs) && s.regs.hostAddr != 0
    requires kr < 16 && kw < 16 && s.regs.status == (kr << 4) | (kw << 12)
    ensures var s' := Deliver(s, NoFault);
      && s'.work.Some? && s'.work.value.status == Success && s'.work.value.req == s.pending[t]
      && s'.work.value.info == ((if t == BUFRD_READ then kr else kw) as nat + 1) * UNITIO_SIZE_BYTES
  {
    CountFields(kr, kw);
    assert FaultStatus(s.regs.hostAddr, t, NoFault) == 0;
    TransferIdle(s.regs, t);
    DeliverAnnounced(s, t, NoFault);
    assert s.regs.(dtbc := Walked(s.regs, t, NoFault)) == s.regs;
    assert s.(regs := s.regs) == s;
    ReportedCount(s, t);
    hide Deliver, Announces, ReadCount, WriteCount, AnyBit, BeforeIsr, Dpc, Isr, Alerts;
  }

  lemma ReportedCount(s: Device, t: IoType)
    requires t in {BUFRD_READ, BUFRD_WRITE} && AnalyzeReqType(s.regs) == t && !Alerts(s.regs)
    ensures var s' := Dpc(Isr(s), s.regs);
      && s'.work.Some? && s'.work.value.status == Success && s'.work.value.req == s.pending[t]
      && s'.work.value.info == if t == BUFRD_READ then ReadCount(s.regs.status) else WriteCount(s.regs.status)
  {
    hide AnalyzeReqType, Alerts, ReadCount, WriteCount, UnexpectedBits;
  }
}
