/** The device registers and what one request does to them: the driver programs
    them, the simulator's poll turns a Go bit into an interrupt id, and the driver
    reads the type of the finished request back from the interrupt snapshot. */
module Registers {

  // Interrupt enable / interrupt id bits
  const INT_BUFRD_INPUT: bv32 := 0x0000_0001
  const INT_DMA_INPUT: bv32 := 0x0000_0002
  const INT_ALIGN_INPUT: bv32 := 0x0000_0008
  const INT_INPUT_MASK: bv32 := INT_BUFRD_INPUT | INT_DMA_INPUT | INT_ALIGN_INPUT
  const INT_BUFRD_OUTPUT: bv32 := 0x0000_0100
  const INT_DMA_OUTPUT: bv32 := 0x0000_0200
  const INT_ALIGN_OUTPUT: bv32 := 0x0000_0800
  const INT_OUTPUT_MASK: bv32 := INT_BUFRD_OUTPUT | INT_DMA_OUTPUT | INT_ALIGN_OUTPUT
  const INT_STATUS_ALERT: bv32 := 0x0000_8000
  const ALL_INTS_ENABLED: bv32 := INT_INPUT_MASK | INT_OUTPUT_MASK | INT_STATUS_ALERT
  const INT_ALL_INVALID_MASK: bv32 := !ALL_INTS_ENABLED

  // Status bits
  const STATUS_GENERAL_ERR: bv32 := 0x0000_0001
  const STATUS_OVER_UNDER_ERR: bv32 := 0x0000_0002
  const STATUS_DEVICE_BUSY: bv32 := 0x0000_0004
  const STATUS_DEVICE_FAILURE: bv32 := 0x0000_0008
  const STATUS_INVALID_IO: bv32 := 0x0000_0100
  const STATUS_RESOURCE_ERR: bv32 := 0x0000_0200
  const STATUS_TIMEOUT_ERR: bv32 := 0x0001_0000
  const STATUS_READ_COUNT_MASK: bv32 := 0x0000_00F0
  const STATUS_WRITE_COUNT_MASK: bv32 := 0x0000_F000
  const STATUS_RW_COUNT_MASK: bv32 := STATUS_READ_COUNT_MASK | STATUS_WRITE_COUNT_MASK
  const STATUS_DEAD_DEVICE_MASK: bv32 := !STATUS_RW_COUNT_MASK

  // Control bits
  const CONTROL_CACHE_XFER: bv32 := 0x0000_0001
  const CONTROL_IOSIZE_BYTES: bv32 := 0x0000_0002
  const CONTROL_BUFRD_GO: bv32 := 0x0000_0008
  const CONTROL_CHAINED_DMA: bv32 := 0x0000_0040
  const CONTROL_DMA_GO: bv32 := 0x0000_0080
  const CONTROL_IO_COUNT_MASK: bv32 := 0x0000_F000
  const CONTROL_IO_OFFSET_MASK: bv32 := 0x0000_0F00

  const UNITIO_SIZE_BYTES := 16         // also MAD_BYTE_COUNT_MULT
  const CACHE_ALIGN_MULTIPLE := 256     // 4096 sectors over 16 positions
  const DEVICE_MAX_SECTORS := 4096
  const ULONG_RANGE := 0x1_0000_0000

  // MADDEV_IO_TYPE
  type IoType = t: int | 0 <= t <= 11
  const NO_IO: IoType := 0
  const BUFRD_READ: IoType := 1
  const BUFRD_WRITE: IoType := 2
  const CACHED_READ: IoType := 3
  const CACHED_WRITE: IoType := 4
  const READ_ALIGN: IoType := 5
  const WRITE_ALIGN: IoType := 6
  const DMA_READ: IoType := 7
  const DMA_WRITE: IoType := 8
  const SG_DMA_READ: IoType := 9
  const SG_DMA_WRITE: IoType := 10
  const MLTPL_IO: IoType := 11           // also eInvalidIO

  /** `chain` is what the byte counts of the descriptor chain at CDPP add up to. */
  datatype Regs = Regs(
    mesgID: nat, control: bv32, status: bv32, intEnable: bv32, intID: bv32, hostAddr: nat, dtbc: nat, chain: nat)

  /** A request as its handler sees it: the type, the buffer length, the cache
      index of an align request and the physical address of the buffer. */
  datatype Request = Request(ioType: IoType, length: nat, cacheIndx: nat, hostAddr: nat)

  /** An align request has no buffer, and a chained one has its buffers in the chain. */
  predicate Bufferless(t: IoType) {
    t in {READ_ALIGN, WRITE_ALIGN, SG_DMA_READ, SG_DMA_WRITE}
  }

  ghost predicate Programmable(r: Request) {
    && NO_IO < r.ioType < MLTPL_IO
    && r.cacheIndx < ULONG_RANGE
    && (!Bufferless(r.ioType) ==> r.hostAddr != 0)
  }

  function SetBits(reg: bv32, bits: bv32): bv32 {
    reg | bits
  }

  function ClearBits(reg: bv32, bits: bv32): bv32 {
    reg & !bits
  }

  predicate AnyBit(reg: bv32, bits: bv32) {
    reg & bits != 0
  }

  // ----- driver: program the device ------------------------------------------------

  /** The interrupt bit that announces a request of this type. */
  function IntBit(t: IoType): bv32 {
    if t == BUFRD_READ || t == CACHED_READ then INT_BUFRD_INPUT
    else if t == BUFRD_WRITE || t == CACHED_WRITE then INT_BUFRD_OUTPUT
    else if t == READ_ALIGN then INT_ALIGN_INPUT
    else if t == WRITE_ALIGN then INT_ALIGN_OUTPUT
    else if t == DMA_READ || t == SG_DMA_READ then INT_DMA_INPUT
    else if t == DMA_WRITE || t == SG_DMA_WRITE then INT_DMA_OUTPUT
    else 0
  }

  /** What the driver enables for a request: its own interrupt and alerts. */
  function EnableBits(t: IoType): bv32 {
    INT_STATUS_ALERT | IntBit(t)
  }

  /** (ULONG)((length / 16 - 1) << 12) & count mask, with the wrap of a length
      below 16. */
  function CountBits(length: nat): bv32 {
    (((length / UNITIO_SIZE_BYTES - 1) % ULONG_RANGE) as bv32 << 12) & CONTROL_IO_COUNT_MASK
  }

  /** Control register of a request before the Go bit. */
  function ControlBits(r: Request): bv32 {
    if r.ioType == BUFRD_READ || r.ioType == BUFRD_WRITE then CountBits(r.length) | CONTROL_IOSIZE_BYTES
    else if r.ioType == CACHED_READ || r.ioType == CACHED_WRITE then CONTROL_CACHE_XFER
    else if r.ioType == READ_ALIGN || r.ioType == WRITE_ALIGN then
      (((r.cacheIndx / CACHE_ALIGN_MULTIPLE) % ULONG_RANGE) as bv32 << 8) | CONTROL_CACHE_XFER
    else if r.ioType == SG_DMA_READ || r.ioType == SG_DMA_WRITE then CONTROL_CHAINED_DMA
    else 0
  }

  function GoBit(t: IoType): bv32 {
    if t >= DMA_READ then CONTROL_DMA_GO else CONTROL_BUFRD_GO
  }

  /** The host address the driver writes. */
  function BufferAddr(r: Request): nat {
    if Bufferless(r.ioType) then 0 else r.hostAddr
  }

  /** The byte count register: a one-block transfer writes its length, a chained one
      leaves zero for the walk to replace, and the rest leave it alone. */
  function BlockCount(r: Request, dtbc: nat): nat {
    if r.ioType in {DMA_READ, DMA_WRITE} then r.length % ULONG_RANGE else if r.ioType >= SG_DMA_READ then 0 else dtbc
  }

  function ChainCount(r: Request, chain: nat): nat {
    if r.ioType in {DMA_READ, DMA_WRITE} then 0 else if r.ioType >= SG_DMA_READ then r.length % ULONG_RANGE else chain
  }

  /** The registers after the driver has programmed request r. */
  function Program(regs: Regs, r: Request): Regs {
    regs.(hostAddr := BufferAddr(r), intEnable := EnableBits(r.ioType), control := SetBits(ControlBits(r), GoBit(r.ioType)),
          dtbc := BlockCount(r, regs.dtbc), chain := ChainCount(r, regs.chain))
  }

  // ----- simulator: poll the registers -----------------------------------------------

  /** The errors one call of InjectAnyErrs draws. */
  datatype Injection = Injection(genl: bool, busy: bool)

  /** InjectAnyErrs: an error drawn while alerts are enabled sets its status bit and
      the alert bit. */
  function Inject(regs: Regs, i: Injection): Regs {
    if !AnyBit(regs.intEnable, INT_STATUS_ALERT) || (!i.genl && !i.busy) then regs
    else
      var status := if i.genl then SetBits(regs.status, STATUS_GENERAL_ERR) else regs.status;
      regs.(status := if i.busy then SetBits(status, STATUS_DEVICE_BUSY) else status,
            intID := SetBits(regs.intID, INT_STATUS_ALERT))
  }

  /** One injection for each of the three branches of a poll. */
  datatype Draws = Draws(dma: Injection, bufrd: Injection, align: Injection)

  datatype Direction = Direction(dma: bv32, bufrd: bv32, align: bv32)
  const INPUT := Direction(INT_DMA_INPUT, INT_BUFRD_INPUT, INT_ALIGN_INPUT)
  const OUTPUT := Direction(INT_DMA_OUTPUT, INT_BUFRD_OUTPUT, INT_ALIGN_OUTPUT)

  predicate DmaFires(regs: Regs, d: Direction) {
    AnyBit(regs.intEnable, d.dma) && AnyBit(regs.control, CONTROL_DMA_GO)
  }

  predicate BufrdFires(regs: Regs, d: Direction) {
    AnyBit(regs.intEnable, d.bufrd) && (AnyBit(regs.control, CONTROL_BUFRD_GO) || AnyBit(regs.control, CONTROL_CACHE_XFER))
  }

  predicate AlignFires(regs: Regs, d: Direction) {
    AnyBit(regs.intEnable, d.align) && AnyBit(regs.control, CONTROL_CACHE_XFER)
  }

  /** Raise one interrupt: draw errors if alerts are enabled, set the id bit, consume
      the control bit and leave a message. */
  function Fire(regs: Regs, idBit: bv32, consumed: bv32, i: Injection): Regs {
    var r := Inject(regs, i);
    r.(intID := SetBits(r.intID, idBit), control := ClearBits(r.control, consumed), mesgID := 1)
  }

  function DmaBranch(regs: Regs, fires: bool, d: Direction, i: Injection): Regs {
    if fires then Fire(regs, d.dma, CONTROL_DMA_GO, i) else regs
  }

  /** The buffered branch consumes the Go bit if it was set and the cache bit otherwise. */
  function BufrdBranch(regs: Regs, fires: bool, go: bool, d: Direction, i: Injection): Regs {
    if fires then Fire(regs, d.bufrd, if go then CONTROL_BUFRD_GO else CONTROL_CACHE_XFER, i) else regs
  }

  function AlignBranch(regs: Regs, fires: bool, d: Direction, i: Injection): Regs {
    if fires then Fire(regs, d.align, CONTROL_CACHE_XFER, i) else regs
  }

  /** One poll of one direction: the DMA, buffered and align branches in turn, each
      looking at the enable and control bits as they were before the poll. */
  function PollDirection(regs: Regs, d: Direction, x: Draws): Regs {
    var r1 := DmaBranch(regs, DmaFires(regs, d), d, x.dma);
    var r2 := BufrdBranch(r1, BufrdFires(regs, d), AnyBit(regs.control, CONTROL_BUFRD_GO), d, x.bufrd);
    AlignBranch(r2, AlignFires(regs, d), d, x.align)
  }

  // ----- driver: classify the snapshot -------------------------------------------------

  /** The request type of an interrupt id (without its alert bit): the input switch
      runs first, the output switch can override it. */
  function TypeOf(id: bv32, input: bool, output: bool, cache: bool, chained: bool): IoType {
    var t :=
      if !input then NO_IO
      else if id == INT_BUFRD_INPUT then if cache then CACHED_READ else BUFRD_READ
      else if id == INT_DMA_INPUT then if chained then SG_DMA_READ else DMA_READ
      else if id == INT_ALIGN_INPUT then READ_ALIGN
      else MLTPL_IO;
    if !output then t
    else if id == INT_BUFRD_OUTPUT then if cache then CACHED_WRITE else BUFRD_WRITE
    else if id == INT_DMA_OUTPUT then if chained then SG_DMA_WRITE else DMA_WRITE
    else if id == INT_ALIGN_OUTPUT then WRITE_ALIGN
    else MLTPL_IO
  }

  /** MadDevAnalyzeReqType. */
  function AnalyzeReqType(regs: Regs): IoType {
    TypeOf(ClearBits(regs.intID, INT_STATUS_ALERT), AnyBit(regs.intID, INT_INPUT_MASK), AnyBit(regs.intID, INT_OUTPUT_MASK),
           AnyBit(regs.control, CONTROL_CACHE_XFER), AnyBit(regs.control, CONTROL_CHAINED_DMA))
  }

  // ----- the round trip type -> registers -> type ----------------------------------------

  /** One poll in the run mode's directions: input, output or both, input first. */
  function Poll(regs: Regs, input: bool, output: bool, x: Draws, y: Draws): Regs {
    var r := if input then PollDirection(regs, INPUT, x) else regs;
    if output then PollDirection(r, OUTPUT, y) else r
  }

  predicate IsInput(t: IoType) {
    t in {BUFRD_READ, CACHED_READ, READ_ALIGN, DMA_READ, SG_DMA_READ}
  }

  /** Whether a poll in these directions looks at requests of type t. */
  predicate Covers(t: IoType, input: bool, output: bool) {
    if IsInput(t) then input else output
  }

  /** The device has been started on a request of type t and not been polled since. */
  ghost predicate Armed(regs: Regs, t: IoType) {
    && NO_IO < t < MLTPL_IO
    && regs.intEnable == EnableBits(t)
    && (AnyBit(regs.control, CONTROL_CACHE_XFER) <==> t in {CACHED_READ, CACHED_WRITE, READ_ALIGN, WRITE_ALIGN})
    && (AnyBit(regs.control, CONTROL_CHAINED_DMA) <==> t in {SG_DMA_READ, SG_DMA_WRITE})
    && (AnyBit(regs.control, CONTROL_BUFRD_GO) <==> t < DMA_READ)
    && (AnyBit(regs.control, CONTROL_DMA_GO) <==> t >= DMA_READ)
  }

  /** The interrupt id holds this bit, alone or beside the alert bit. */
  predicate Carries(id: bv32, bit: bv32) {
    id == bit || id == bit | INT_STATUS_ALERT
  }

  /** The registers announce exactly a finished request of type t. */
  ghost predicate Announces(regs: Regs, t: IoType) {
    && NO_IO < t < MLTPL_IO
    && regs.mesgID == 1
    && Carries(regs.intID, IntBit(t))
    && AnalyzeReqType(regs) == t
  }

  /** A host address is programmed for exactly the types that have a buffer. */
  predicate AddressFits(regs: Regs, t: IoType) {
    regs.hostAddr == 0 <==> Bufferless(t)
  }

  /** No request bit in the interrupt id: nothing, or a bare alert. */
  predicate Unattributed(regs: Regs) {
    Carries(regs.intID, 0)
  }

  lemma ControlShape(r: Request)
    requires Programmable(r)
    ensures var c := SetBits(ControlBits(r), GoBit(r.ioType));
      && (AnyBit(c, CONTROL_CACHE_XFER) <==> r.ioType in {CACHED_READ, CACHED_WRITE, READ_ALIGN, WRITE_ALIGN})
      && (AnyBit(c, CONTROL_CHAINED_DMA) <==> r.ioType in {SG_DMA_READ, SG_DMA_WRITE})
      && (AnyBit(c, CONTROL_BUFRD_GO) <==> r.ioType < DMA_READ)
      && (AnyBit(c, CONTROL_DMA_GO) <==> r.ioType >= DMA_READ)
  {
  }

  lemma ProgramArms(regs: Regs, r: Request)
    requires Programmable(r)
    ensures Armed(Program(regs, r), r.ioType)
  {
    ControlShape(r);
    hide AnyBit, SetBits, ControlBits, GoBit, IntBit;
  }

  // What one poll does to a started device

  /** The control bits a poll consumes from a device started on type t. */
  function Consumed(t: IoType): bv32 {
    if t >= DMA_READ then CONTROL_DMA_GO
    else if t == READ_ALIGN || t == WRITE_ALIGN then CONTROL_CACHE_XFER
    else CONTROL_BUFRD_GO
  }

  function DirectionOf(t: IoType): Direction {
    if IsInput(t) then INPUT else OUTPUT
  }

  function Opposite(t: IoType): Direction {
    if IsInput(t) then OUTPUT else INPUT
  }

  function DrawOf(t: IoType, x: Draws): Injection {
    if t >= DMA_READ then x.dma else if t <= CACHED_WRITE then x.bufrd else x.align
  }

  lemma EnabledBits(t: IoType)
    requires NO_IO < t < MLTPL_IO
    ensures var e, d := EnableBits(t), DirectionOf(t);
      && (AnyBit(e, d.dma) <==> t >= DMA_READ)
      && (AnyBit(e, d.bufrd) <==> t <= CACHED_WRITE)
      && (AnyBit(e, d.align) <==> t in {READ_ALIGN, WRITE_ALIGN})
      && IntBit(t) == if t >= DMA_READ then d.dma else if t <= CACHED_WRITE then d.bufrd else d.align
    ensures var e, d := EnableBits(t), Opposite(t);
      !AnyBit(e, d.dma) && !AnyBit(e, d.bufrd) && !AnyBit(e, d.align)
  {
  }

  lemma DirectionMisses(regs: Regs, t: IoType, x: Draws)
    requires NO_IO < t < MLTPL_IO && regs.intEnable == EnableBits(t)
    ensures PollDirection(regs, Opposite(t), x) == regs
  {
    hide AnyBit, IntBit, DirectionOf, Opposite;
    EnabledBits(t);
  }

  /** Exactly one branch of a poll fires for a started request. */
  lemma SingleFire(regs: Regs, t: IoType, x: Draws)
    requires Armed(regs, t)
    ensures PollDirection(regs, DirectionOf(t), x) == Fire(regs, IntBit(t), Consumed(t), DrawOf(t, x))
  {
    hide AnyBit, IntBit, DirectionOf, Opposite, Fire;
    EnabledBits(t);
  }

  lemma FireFrame(regs: Regs, idBit: bv32, consumed: bv32, i: Injection)
    ensures var r := Fire(regs, idBit, consumed, i);
      r == regs.(status := Inject(regs, i).status, intID := r.intID, control := ClearBits(regs.control, consumed), mesgID := 1)
  {
    hide SetBits, ClearBits, AnyBit;
  }

  lemma FireId(regs: Regs, idBit: bv32, consumed: bv32, i: Injection)
    ensures var id := Fire(regs, idBit, consumed, i).intID;
      id == SetBits(regs.intID, idBit)
      || ((i.genl || i.busy) && id == SetBits(SetBits(regs.intID, INT_STATUS_ALERT), idBit))
  {
    hide SetBits, ClearBits, AnyBit;
  }

  lemma SettingIdBits(t: IoType)
    requires NO_IO < t < MLTPL_IO
    ensures var b := IntBit(t);
      && SetBits(0, b) == b && SetBits(SetBits(0, INT_STATUS_ALERT), b) == b | INT_STATUS_ALERT
      && SetBits(b, b) == b && SetBits(SetBits(b, INT_STATUS_ALERT), b) == b | INT_STATUS_ALERT
      && SetBits(b | INT_STATUS_ALERT, b) == b | INT_STATUS_ALERT
      && SetBits(SetBits(b | INT_STATUS_ALERT, INT_STATUS_ALERT), b) == b | INT_STATUS_ALERT
      && SetBits(b, INT_STATUS_ALERT) == b | INT_STATUS_ALERT
      && SetBits(b | INT_STATUS_ALERT, INT_STATUS_ALERT) == b | INT_STATUS_ALERT
  {
  }

  /** Whatever errors are drawn, firing adds just its id bit beside the alert. */
  lemma FireAttributes(regs: Regs, t: IoType, consumed: bv32, i: Injection)
    requires NO_IO < t < MLTPL_IO && (regs.intID == 0 || Carries(regs.intID, IntBit(t)))
    ensures Carries(Fire(regs, IntBit(t), consumed, i).intID, IntBit(t))
  {
    hide SetBits, ClearBits, AnyBit, IntBit, Fire, Inject;
    FireId(regs, IntBit(t), consumed, i);
    SettingIdBits(t);
  }

  lemma PollDirectionKeepsEnable(regs: Regs, d: Direction, x: Draws)
    ensures PollDirection(regs, d, x).intEnable == regs.intEnable
  {
    hide DmaFires, BufrdFires, AlignFires, Fire, AnyBit;
    var r1 := DmaBranch(regs, DmaFires(regs, d), d, x.dma);
    var r2 := BufrdBranch(r1, BufrdFires(regs, d), AnyBit(regs.control, CONTROL_BUFRD_GO), d, x.bufrd);
    FireFrame(regs, d.dma, CONTROL_DMA_GO, x.dma);
    FireFrame(r1, d.bufrd, if AnyBit(regs.control, CONTROL_BUFRD_GO) then CONTROL_BUFRD_GO else CONTROL_CACHE_XFER, x.bufrd);
    FireFrame(r2, d.align, CONTROL_CACHE_XFER, x.align);
  }

  lemma PollIsDirection(regs: Regs, t: IoType, input: bool, output: bool, x: Draws, y: Draws)
    requires NO_IO < t < MLTPL_IO && regs.intEnable == EnableBits(t) && Covers(t, input, output)
    ensures Poll(regs, input, output, x, y) == PollDirection(regs, DirectionOf(t), if DirectionOf(t) == INPUT then x else y)
  {
    hide PollDirection, IntBit;
    var once := PollDirection(regs, DirectionOf(t), if DirectionOf(t) == INPUT then x else y);
    PollDirectionKeepsEnable(regs, DirectionOf(t), if DirectionOf(t) == INPUT then x else y);
    DirectionMisses(regs, t, x);
    DirectionMisses(once, t, y);
  }

  lemma PollConsumes(regs: Regs, t: IoType, input: bool, output: bool, x: Draws, y: Draws)
    requires Armed(regs, t) && regs.intID == 0 && Covers(t, input, output)
    ensures var once := Poll(regs, input, output, x, y);
      && once == regs.(mesgID := 1, control := ClearBits(regs.control, Consumed(t)), status := once.status, intID := once.intID)
      && Carries(once.intID, IntBit(t))
  {
    hide PollDirection, Poll, Fire, Consumed, IntBit, DirectionOf, Covers, ClearBits, SetBits, AnyBit, Inject, Carries;
    var z := if DirectionOf(t) == INPUT then x else y;
    PollIsDirection(regs, t, input, output, x, y);
    SingleFire(regs, t, z);
    FireFrame(regs, IntBit(t), Consumed(t), DrawOf(t, z));
    FireAttributes(regs, t, Consumed(t), DrawOf(t, z));
  }

  lemma TypeOfBits(regs: Regs, t: IoType)
    requires NO_IO < t < MLTPL_IO && Carries(regs.intID, IntBit(t))
    requires t <= CACHED_WRITE ==> (AnyBit(regs.control, CONTROL_CACHE_XFER) <==> t in {CACHED_READ, CACHED_WRITE})
    requires t >= DMA_READ ==> (AnyBit(regs.control, CONTROL_CHAINED_DMA) <==> t >= SG_DMA_READ)
    ensures AnalyzeReqType(regs) == t
  {
  }

  lemma ConsumedBits(control: bv32, t: IoType)
    requires NO_IO < t < MLTPL_IO
    ensures var left := ClearBits(control, Consumed(t));
      && !AnyBit(left, Consumed(t))
      && (t !in {READ_ALIGN, WRITE_ALIGN} ==> AnyBit(left, CONTROL_CACHE_XFER) == AnyBit(control, CONTROL_CACHE_XFER))
      && AnyBit(left, CONTROL_CHAINED_DMA) == AnyBit(control, CONTROL_CHAINED_DMA)
  {
  }

  lemma PollAnnounces(regs: Regs, t: IoType, input: bool, output: bool, x: Draws, y: Draws)
    requires Armed(regs, t) && regs.intID == 0 && Covers(t, input, output)
    ensures Announces(Poll(regs, input, output, x, y), t)
  {
    hide Poll, AnalyzeReqType, AnyBit, ClearBits, Consumed, IntBit, Covers, Carries;
    PollConsumes(regs, t, input, output, x, y);
    ConsumedBits(regs.control, t);
    TypeOfBits(Poll(regs, input, output, x, y), t);
  }

  /** Program a device with no interrupt pending, poll it once, classify what the
      interrupt handler sees: the issued type comes back, for every type, length,
      offset and injected error. */
  lemma ClassifiesIssuedType(regs: Regs, r: Request, input: bool, output: bool, x: Draws, y: Draws)
    requires Programmable(r) && regs.intID == 0 && Covers(r.ioType, input, output)
    ensures Announces(Poll(Program(regs, r), input, output, x, y), r.ioType)
  {
    ProgramArms(regs, r);
    hide Armed, Poll, Announces, Covers, ControlBits, GoBit, IntBit;
    PollAnnounces(Program(regs, r), r.ioType, input, output, x, y);
  }

  /** A poll that does not look at the started request's direction, and any poll of a
      device without control bits, changes nothing. */
  lemma PollMisses(regs: Regs, t: IoType, input: bool, output: bool, x: Draws, y: Draws)
    requires (Armed(regs, t) && !Covers(t, input, output)) || regs.control == 0
    ensures Poll(regs, input, output, x, y) == regs
  {
    hide PollDirection, AnyBit, IntBit;
    if regs.control == 0 {
      NoControlBits(regs, INPUT, x);
      NoControlBits(regs, OUTPUT, y);
    } else {
      DirectionMisses(regs, t, x);
      DirectionMisses(regs, t, y);
    }
  }

  lemma NoControlBits(regs: Regs, d: Direction, x: Draws)
    requires regs.control == 0
    ensures PollDirection(regs, d, x) == regs
  {
    assert !AnyBit(0, CONTROL_DMA_GO) && !AnyBit(0, CONTROL_BUFRD_GO) && !AnyBit(0, CONTROL_CACHE_XFER);
    hide AnyBit, Fire;
  }

  // Alerts

  /** The alert bit raised with a given status. */
  function Alerted(regs: Regs, status: bv32): Regs {
    regs.(intID := SetBits(regs.intID, INT_STATUS_ALERT), status := status, mesgID := 1)
  }

  predicate Alerts(regs: Regs) {
    AnyBit(regs.intID, INT_STATUS_ALERT)
  }

  lemma AlertBits(t: IoType)
    requires t < MLTPL_IO
    ensures var b := IntBit(t);
      && AnyBit(b | INT_STATUS_ALERT, INT_STATUS_ALERT) && !AnyBit(b, INT_STATUS_ALERT)
      && SetBits(b, INT_STATUS_ALERT) == b | INT_STATUS_ALERT
      && SetBits(b | INT_STATUS_ALERT, INT_STATUS_ALERT) == b | INT_STATUS_ALERT
      && b | INT_STATUS_ALERT != 0 && (t != NO_IO ==> b != 0) && IntBit(NO_IO) == 0
  {
  }

  /** Raising the alert bit, whatever the status, keeps the announced type. */
  lemma AlertKeepsAnnouncement(regs: Regs, status: bv32, t: IoType)
    requires Announces(regs, t)
    ensures Announces(Alerted(regs, status), t) && Alerts(Alerted(regs, status))
  {
    hide AnalyzeReqType, SetBits, AnyBit, IntBit;
    AlertBits(t);
    SameType(regs, Alerted(regs, status), t);
  }

  lemma SameType(regs: Regs, regs': Regs, t: IoType)
    requires NO_IO < t < MLTPL_IO && Carries(regs.intID, IntBit(t)) && Carries(regs'.intID, IntBit(t))
    requires regs.control == regs'.control
    ensures AnalyzeReqType(regs) == AnalyzeReqType(regs')
  {
    AnalyzedId(regs, t);
    AnalyzedId(regs', t);
    hide AnalyzeReqType, AnyBit, Carries, IntBit;
  }

  lemma ClearedIds(t: IoType)
    requires NO_IO < t < MLTPL_IO
    ensures ClearBits(IntBit(t), INT_STATUS_ALERT) == IntBit(t)
    ensures ClearBits(IntBit(t) | INT_STATUS_ALERT, INT_STATUS_ALERT) == IntBit(t)
  {
  }

  lemma InputIds(t: IoType)
    requires NO_IO < t < MLTPL_IO
    ensures AnyBit(IntBit(t), INT_INPUT_MASK) <==> IsInput(t)
    ensures AnyBit(IntBit(t) | INT_STATUS_ALERT, INT_INPUT_MASK) <==> IsInput(t)
  {
  }

  lemma OutputIds(t: IoType)
    requires NO_IO < t < MLTPL_IO
    ensures AnyBit(IntBit(t), INT_OUTPUT_MASK) <==> !IsInput(t)
    ensures AnyBit(IntBit(t) | INT_STATUS_ALERT, INT_OUTPUT_MASK) <==> !IsInput(t)
  {
  }

  lemma AnalyzedId(regs: Regs, t: IoType)
    requires NO_IO < t < MLTPL_IO && Carries(regs.intID, IntBit(t))
    ensures AnalyzeReqType(regs) == TypeOf(IntBit(t), IsInput(t), !IsInput(t),
                                           AnyBit(regs.control, CONTROL_CACHE_XFER), AnyBit(regs.control, CONTROL_CHAINED_DMA))
  {
    hide AnyBit, ClearBits, TypeOf, IntBit;
    ClearedIds(t);
    InputIds(t);
    OutputIds(t);
  }

  lemma AlertAttributesNothing(regs: Regs, status: bv32)
    requires Unattributed(regs)
    ensures Unattributed(Alerted(regs, status)) && Alerts(Alerted(regs, status))
  {
    hide SetBits, AnyBit, IntBit;
    AlertBits(NO_IO);
  }

  // A second poll before the interrupt is delivered

  /** A device that is polled a second time before its interrupt is delivered still
      announces the issued type and has not changed at all, except that a cached transfer
      fires once more, loses the cache bit and is taken for a buffered one. */
  lemma SecondPollKeepsTypeIff(regs: Regs, t: IoType, input: bool, output: bool, x: Draws, y: Draws, x': Draws, y': Draws)
    requires Armed(regs, t) && regs.intID == 0 && Covers(t, input, output)
    ensures var twice := Poll(Poll(regs, input, output, x, y), input, output, x', y');
      && (Announces(twice, t) <==> t !in {CACHED_READ, CACHED_WRITE})
      && (t == CACHED_READ ==> AnalyzeReqType(twice) == BUFRD_READ)
      && (t == CACHED_WRITE ==> AnalyzeReqType(twice) == BUFRD_WRITE)
      && (t !in {CACHED_READ, CACHED_WRITE} ==> twice == Poll(regs, input, output, x, y))
  {
    hide Poll, AnalyzeReqType, IntBit, Consumed, Covers, AnyBit, ClearBits, Carries;
    var once := Poll(regs, input, output, x, y);
    PollAnnounces(regs, t, input, output, x, y);
    PollConsumes(regs, t, input, output, x, y);
    ConsumedBits(regs.control, t);
    if t in {CACHED_READ, CACHED_WRITE} {
      SecondPollOfCached(once, t, input, output, x', y');
    } else {
      SecondPollOfOther(once, t, input, output, x', y');
    }
  }

  lemma SecondPollOfCached(once: Regs, t: IoType, input: bool, output: bool, x: Draws, y: Draws)
    requires t in {CACHED_READ, CACHED_WRITE} && Carries(once.intID, IntBit(t)) && Covers(t, input, output)
    requires once.intEnable == EnableBits(t)
    requires !AnyBit(once.control, Consumed(t)) && AnyBit(once.control, CONTROL_CACHE_XFER)
    ensures AnalyzeReqType(Poll(once, input, output, x, y)) == t - 2
  {
    var z := if DirectionOf(t) == INPUT then x else y;
    assert !AnyBit(once.control, CONTROL_BUFRD_GO) by {
      hide AnyBit;
    }
    assert IntBit(t) == IntBit(t - 2);
    hide PollDirection, Poll, AnalyzeReqType, Covers, AnyBit, SetBits, ClearBits, DirectionOf, IntBit, Consumed, Fire, Carries;
    PollIsDirection(once, t, input, output, x, y);
    BufrdFiresAlone(once, t, z);
    FireFrame(once, IntBit(t), CONTROL_CACHE_XFER, z.bufrd);
    FireAttributes(once, t, CONTROL_CACHE_XFER, z.bufrd);
    CacheCleared(once.control);
    TypeOfBits(Fire(once, IntBit(t), CONTROL_CACHE_XFER, z.bufrd), t - 2);
  }

  lemma BufrdFiresAlone(once: Regs, t: IoType, x: Draws)
    requires t in {CACHED_READ, CACHED_WRITE} && once.intEnable == EnableBits(t)
    requires !AnyBit(once.control, CONTROL_BUFRD_GO) && AnyBit(once.control, CONTROL_CACHE_XFER)
    ensures PollDirection(once, DirectionOf(t), x) == Fire(once, IntBit(t), CONTROL_CACHE_XFER, x.bufrd)
  {
    hide AnyBit, IntBit, DirectionOf, Opposite, Fire;
    EnabledBits(t);
  }

  lemma CacheCleared(control: bv32)
    ensures !AnyBit(ClearBits(control, CONTROL_CACHE_XFER), CONTROL_CACHE_XFER)
  {
  }

  lemma SecondPollOfOther(once: Regs, t: IoType, input: bool, output: bool, x: Draws, y: Draws)
    requires NO_IO < t < MLTPL_IO && t !in {CACHED_READ, CACHED_WRITE} && Covers(t, input, output)
    requires once.intEnable == EnableBits(t)
    requires !AnyBit(once.control, Consumed(t)) && (t <= BUFRD_WRITE ==> !AnyBit(once.control, CONTROL_CACHE_XFER))
    ensures Poll(once, input, output, x, y) == once
  {
    hide PollDirection, Poll, Covers, AnyBit, DirectionOf, IntBit, Consumed;
    PollIsDirection(once, t, input, output, x, y);
    NothingFires(once, t, if DirectionOf(t) == INPUT then x else y);
  }

  lemma NothingFires(once: Regs, t: IoType, x: Draws)
    requires NO_IO < t < MLTPL_IO && t !in {CACHED_READ, CACHED_WRITE} && once.intEnable == EnableBits(t)
    requires !AnyBit(once.control, Consumed(t)) && (t <= BUFRD_WRITE ==> !AnyBit(once.control, CONTROL_CACHE_XFER))
    ensures PollDirection(once, DirectionOf(t), x) == once
  {
    hide AnyBit, IntBit, DirectionOf, Opposite, Fire;
    EnabledBits(t);
  }

  /** No other interrupt id is taken for a request of type t, and none without a request bit
      for any. */
  lemma ValidTypeIff(regs: Regs, t: IoType)
    requires NO_IO < t < MLTPL_IO
    ensures AnalyzeReqType(regs) == t ==> ClearBits(regs.intID, INT_STATUS_ALERT) == IntBit(t)
    ensures AnalyzeReqType(regs) == NO_IO <==> !AnyBit(regs.intID, INT_INPUT_MASK) && !AnyBit(regs.intID, INT_OUTPUT_MASK)
  {
    hide AnyBit, ClearBits;
  }

  // ----- the fields beside the Go bit ------------------------------------------------------

  /** The byte count the control register asks for. */
  function RequestedCount(control: bv32): (n: nat)
    ensures 16 <= n <= 256
  {
    FieldRange(control);
    (((control & CONTROL_IO_COUNT_MASK) >> 12) as nat + 1) * UNITIO_SIZE_BYTES
  }

  /** The sector to which the transfer aligns the cache. */
  function AlignedSector(control: bv32): (n: nat)
    ensures n < DEVICE_MAX_SECTORS
  {
    FieldRange(control);
    ((control & CONTROL_IO_OFFSET_MASK) >> 8) as nat * CACHE_ALIGN_MULTIPLE
  }

  lemma FieldRange(control: bv32)
    ensures (control & CONTROL_IO_COUNT_MASK) >> 12 < 16 && (control & CONTROL_IO_OFFSET_MASK) >> 8 < 16
  {
  }

  lemma CountField(b: bv32)
    requires b < 16
    ensures ((((((b << 12) & CONTROL_IO_COUNT_MASK) | CONTROL_IOSIZE_BYTES) | CONTROL_BUFRD_GO) & CONTROL_IO_COUNT_MASK) >> 12) == b
  {
  }

  lemma CountIsUnits(control: bv32)
    ensures RequestedCount(control) % UNITIO_SIZE_BYTES == 0
  {
  }

  /** The control register of a buffered request holds its length exactly if that is one to
      sixteen whole units. */
  lemma CountFieldIff(regs: Regs, r: Request)
    requires Programmable(r) && r.ioType in {BUFRD_READ, BUFRD_WRITE}
    ensures RequestedCount(Program(regs, r).control) == r.length <==> r.length % UNITIO_SIZE_BYTES == 0 && 16 <= r.length <= 256
  {
    CountIsUnits(Program(regs, r).control);
    if r.length % UNITIO_SIZE_BYTES == 0 && 16 <= r.length <= 256 {
      var k := r.length / UNITIO_SIZE_BYTES - 1;
      SmallField(k);
      CountField(k as bv32);
      assert k % ULONG_RANGE == k;
    }
  }

  lemma OffsetField(b: bv32)
    requires b < 16
    ensures ((((b << 8) | CONTROL_CACHE_XFER) | CONTROL_BUFRD_GO) & !CONTROL_CACHE_XFER & CONTROL_IO_OFFSET_MASK) >> 8 == b
  {
  }

  lemma SmallField(k: nat)
    requires k < 16
    ensures (k as bv32) < 16 && (k as bv32) as nat == k
  {
  }

  /** After the poll has consumed the cache bit the transfer aligns the cache to the
      requested sector, rounded down, exactly if the device has that sector; further
      sectors wrap around, so that its own check of the extent never fires. */
  lemma AlignedSectorIff(regs: Regs, r: Request)
    requires Programmable(r) && r.ioType in {READ_ALIGN, WRITE_ALIGN}
    ensures AlignedSector(ClearBits(Program(regs, r).control, Consumed(r.ioType))) == r.cacheIndx / CACHE_ALIGN_MULTIPLE * CACHE_ALIGN_MULTIPLE
       <==> r.cacheIndx < DEVICE_MAX_SECTORS
  {
    var k := r.cacheIndx / CACHE_ALIGN_MULTIPLE;
    if r.cacheIndx < DEVICE_MAX_SECTORS {
      SmallField(k);
      OffsetField(k as bv32);
      assert k % ULONG_RANGE == k;
    }
  }
}
