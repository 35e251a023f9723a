/** Chained (scatter-gather) DMA: the driver builds a linked list of hardware
    descriptors in a reused array, and the simulated controller walks it.

    The driver side is `MadEvtProgramDma` and
    `Mad_BuildDeviceChainedDmaListFromWinSgList`; the device side is
    `MadBusPdoProcessDevSgDma`.  Both update their arrays in place; the values
    they produce are described by the functions of this module. */
module DmaChain {
  import Registers

  const ULONG64_RANGE := 0x1_0000_0000_0000_0000
  const MAD_DMA_MAX_SECTORS := 16
  const MAD_DMA_CDPP_END: ULONG64 := 1
  const MAD_DMA_CNTL_INIT: bv32 := 0x0044_0044
  const MAD_DMA_CNTL_H2D: bv32 := 0x8000_0000

  type Byte = int   // memory contents are only moved
  type ULONG = x: int | 0 <= x < Registers.ULONG_RANGE
  type ULONG64 = x: int | 0 <= x < ULONG64_RANGE

  /** One 32-byte hardware descriptor (MAD_DMA_CHAIN_ELEMENT). */
  datatype ChainElement = ChainElement(hostAddr: ULONG64, devLoclAddr: ULONG64, dmaCntl: bv32, dtbc: ULONG, cdpp: ULONG64)

  /** One element of the operating system's scatter-gather list. */
  datatype SgElement = SgElement(address: ULONG64, length: ULONG)

  // ----- what a scatter-gather list means --------------------------------------

  /** Number of bytes described by the first j elements. */
  function Total(sg: seq<SgElement>, j: nat): nat
    requires j <= |sg|
  {
    if j == 0 then 0 else Total(sg, j - 1) + sg[j - 1].length
  }

  lemma {:induction false} TotalMonotonic(sg: seq<SgElement>, i: nat, j: nat)
    requires i <= j <= |sg|
    ensures Total(sg, i) <= Total(sg, j)
    decreases j
  {
    if i < j {
      TotalMonotonic(sg, i, j - 1);
    }
  }

  ghost predicate InHost(sg: seq<SgElement>, hostSize: nat) {
    forall j :: 0 <= j < |sg| ==> sg[j].address + sg[j].length <= hostSize
  }

  /** Overwrite `data` into `mem` at offset `at`; everything else stays. */
  ghost function Splice(mem: seq<Byte>, at: nat, data: seq<Byte>): (r: seq<Byte>)
    requires at + |data| <= |mem|
    ensures |r| == |mem|
  {
    mem[..at] + data + mem[at + |data|..]
  }

  ghost function Segment(host: seq<Byte>, e: SgElement): (r: seq<Byte>)
    requires e.address + e.length <= |host|
    ensures |r| == e.length
  {
    host[e.address..e.address + e.length]
  }

  /** The host bytes of the first j elements, concatenated in list order. */
  ghost function Gather(host: seq<Byte>, sg: seq<SgElement>, j: nat): (r: seq<Byte>)
    requires j <= |sg| && InHost(sg, |host|)
    ensures |r| == Total(sg, j)
  {
    if j == 0 then [] else Gather(host, sg, j - 1) + Segment(host, sg[j - 1])
  }

  /** The two memories a transfer touches. */
  datatype Memory = Memory(dev: seq<Byte>, host: seq<Byte>)

  ghost predicate BlockFits(m: Memory, e: SgElement, at: nat) {
    e.address + e.length <= |m.host| && at + e.length <= |m.dev|
  }

  /** What the controller does for one descriptor at device address `at`. */
  ghost function MoveBlock(m: Memory, e: SgElement, at: nat, write: bool): (r: Memory)
    requires BlockFits(m, e, at)
    ensures |r.dev| == |m.dev| && |r.host| == |m.host|
    ensures if write then r.host == m.host else r.dev == m.dev
  {
    if write then m.(dev := Splice(m.dev, at, Segment(m.host, e)))
    else m.(host := Splice(m.host, e.address, m.dev[at..at + e.length]))
  }

  /** The first j elements, one after the other, at consecutive device addresses. */
  ghost function MoveBlocks(m: Memory, sg: seq<SgElement>, base: nat, write: bool, j: nat): (r: Memory)
    requires j <= |sg| && InHost(sg, |m.host|) && base + Total(sg, j) <= |m.dev|
    ensures |r.dev| == |m.dev| && |r.host| == |m.host|
    ensures if write then r.host == m.host else r.dev == m.dev
  {
    if j == 0 then m
    else MoveBlock(MoveBlocks(m, sg, base, write, j - 1), sg[j - 1], base + Total(sg, j - 1), write)
  }

  lemma {:induction false} SpliceAppend(mem: seq<Byte>, at: nat, a: seq<Byte>, mid: nat, b: seq<Byte>)
    requires mid == at + |a| && mid + |b| <= |mem|
    ensures Splice(Splice(mem, at, a), mid, b) == Splice(mem, at, a + b)
  {
  }

  /** Writing block by block is one contiguous copy of the gathered host bytes to
      device offset `base`, and changes nothing else. */
  lemma {:induction false} WriteIsContiguous(m: Memory, sg: seq<SgElement>, base: nat, j: nat)
    requires j <= |sg| && InHost(sg, |m.host|) && base + Total(sg, j) <= |m.dev|
    ensures MoveBlocks(m, sg, base, true, j) == Memory(Splice(m.dev, base, Gather(m.host, sg, j)), m.host)
  {
    if j > 0 {
      WriteIsContiguous(m, sg, base, j - 1);
      SpliceAppend(m.dev, base, Gather(m.host, sg, j - 1), base + Total(sg, j - 1), Segment(m.host, sg[j - 1]));
    }
  }

  // ----- reading back -----------------------------------------------------------------

  /** No host byte belongs to both elements. */
  ghost predicate Apart(a: SgElement, b: SgElement) {
    a.length == 0 || b.length == 0 || a.address + a.length <= b.address || b.address + b.length <= a.address
  }

  ghost predicate PairwiseDisjoint(sg: seq<SgElement>) {
    forall i, j :: 0 <= i < j < |sg| ==> Apart(sg[i], sg[j])
  }

  /** Byte t of element i sits at position Total(sg, i) + t of the gathered bytes. */
  lemma {:induction false} GatherAt(host: seq<Byte>, sg: seq<SgElement>, j: nat, i: nat, t: nat)
    requires i < j <= |sg| && InHost(sg, |host|) && t < sg[i].length
    ensures Total(sg, i) + t < Total(sg, j)
    ensures Gather(host, sg, j)[Total(sg, i) + t] == host[sg[i].address + t]
    decreases j
  {
    TotalMonotonic(sg, i + 1, j);
    var front, last := Gather(host, sg, j - 1), Segment(host, sg[j - 1]);
    if i < j - 1 {
      GatherAt(host, sg, j - 1, i, t);
      assert (front + last)[Total(sg, i) + t] == front[Total(sg, i) + t];
    } else {
      assert (front + last)[|front| + t] == last[t];
    }
  }

  /** Memories that agree on the first j segments gather to the same bytes. */
  lemma {:induction false} GatherFrame(h: seq<Byte>, h': seq<Byte>, sg: seq<SgElement>, j: nat)
    requires j <= |sg| && InHost(sg, |h|) && |h'| == |h|
    requires forall i :: 0 <= i < j ==> Segment(h, sg[i]) == Segment(h', sg[i])
    ensures Gather(h, sg, j) == Gather(h', sg, j)
  {
    if j > 0 {
      GatherFrame(h, h', sg, j - 1);
    }
  }

  lemma {:induction false} SpliceSegments(h: seq<Byte>, e: SgElement, data: seq<Byte>, f: SgElement)
    requires e.address + e.length <= |h| && f.address + f.length <= |h| && |data| == e.length
    ensures Segment(Splice(h, e.address, data), e) == data
    ensures Apart(f, e) ==> Segment(Splice(h, e.address, data), f) == Segment(h, f)
  {
    var h' := Splice(h, e.address, data);
    assert forall x :: 0 <= x < |h| ==> h'[x] == if e.address <= x < e.address + e.length then data[x - e.address] else h[x];
  }

  /** One more block: the segment just read holds the next device bytes, and the
      segments before it, disjoint from it, are untouched. */
  lemma {:induction false} ReadDeliversNext(host: seq<Byte>, host': seq<Byte>, dev: seq<Byte>, sg: seq<SgElement>, base: nat, j: nat)
    requires 0 < j <= |sg| && InHost(sg, |host|) && PairwiseDisjoint(sg) && base + Total(sg, j) <= |dev|
    requires Gather(host, sg, j - 1) == dev[base..base + Total(sg, j - 1)]
    requires host' == Splice(host, sg[j - 1].address, dev[base + Total(sg, j - 1)..base + Total(sg, j - 1) + sg[j - 1].length])
    ensures Gather(host', sg, j) == dev[base..base + Total(sg, j)]
  {
    hide Splice, Segment;
    var at, e := base + Total(sg, j - 1), sg[j - 1];
    forall i | 0 <= i < j - 1
      ensures Segment(host, sg[i]) == Segment(host', sg[i])
    {
      SpliceSegments(host, e, dev[at..at + e.length], sg[i]);
    }
    GatherFrame(host, host', sg, j - 1);
    SpliceSegments(host, e, dev[at..at + e.length], e);
    assert dev[base..at] + dev[at..at + e.length] == dev[base..at + e.length];
    assert at + e.length == base + Total(sg, j);
  }

  /** A read into pairwise disjoint segments delivers the device bytes in order. */
  lemma {:induction false} ReadDelivers(m: Memory, sg: seq<SgElement>, base: nat, j: nat)
    requires j <= |sg| && InHost(sg, |m.host|) && base + Total(sg, j) <= |m.dev| && PairwiseDisjoint(sg)
    ensures Gather(MoveBlocks(m, sg, base, false, j).host, sg, j) == m.dev[base..base + Total(sg, j)]
  {
    if j > 0 {
      ReadDelivers(m, sg, base, j - 1);
      ReadDeliversNext(MoveBlocks(m, sg, base, false, j - 1).host, MoveBlocks(m, sg, base, false, j).host, m.dev, sg, base, j);
    } else {
      assert m.dev[base..base + Total(sg, 0)] == [];
    }
  }

  /** Host bytes outside every segment of a read stay as they were. */
  lemma {:induction false} ReadKeepsTheRest(m: Memory, sg: seq<SgElement>, base: nat, j: nat, x: nat)
    requires j <= |sg| && InHost(sg, |m.host|) && base + Total(sg, j) <= |m.dev| && x < |m.host|
    requires forall i :: 0 <= i < j ==> !(sg[i].address <= x < sg[i].address + sg[i].length)
    ensures MoveBlocks(m, sg, base, false, j).host[x] == m.host[x]
  {
    if j > 0 {
      ReadKeepsTheRest(m, sg, base, j - 1, x);
    }
  }

  /** Write with one list, then read the same device range with any other list of
      the same total length and disjoint segments into any host memory: the
      original bytes arrive in order, however the two lists split them. */
  lemma {:induction false} WriteThenRead(m: Memory, out: seq<SgElement>, host': seq<Byte>, into: seq<SgElement>, base: nat)
    requires InHost(out, |m.host|) && InHost(into, |host'|) && PairwiseDisjoint(into)
    requires Total(out, |out|) == Total(into, |into|) && base + Total(out, |out|) <= |m.dev|
    ensures var written := MoveBlocks(m, out, base, true, |out|);
      Gather(MoveBlocks(Memory(written.dev, host'), into, base, false, |into|).host, into, |into|) == Gather(m.host, out, |out|)
  {
    var written := MoveBlocks(m, out, base, true, |out|);
    WriteIsContiguous(m, out, base, |out|);
    ReadDelivers(Memory(written.dev, host'), into, base, |into|);
    assert written.dev[base..base + Total(out, |out|)] == Gather(m.host, out, |out|);
  }

  /** Reading `dev` through the whole list leaves its bytes, in order, in the segments. */
  ghost predicate Delivers(host: seq<Byte>, sg: seq<SgElement>, dev: seq<Byte>)
    requires InHost(sg, |host|) && |dev| == Total(sg, |sg|)
  {
    Gather(MoveBlocks(Memory(dev, host), sg, 0, false, |sg|).host, sg, |sg|) == dev
  }

  /** Two overlapping segments: two positions of the data share one host byte, so
      data that differs there cannot be delivered. */
  lemma {:induction false} OverlapLoses(host: seq<Byte>, sg: seq<SgElement>, i: nat, j: nat) returns (dev: seq<Byte>)
    requires InHost(sg, |host|) && i < j < |sg| && !Apart(sg[i], sg[j])
    ensures |dev| == Total(sg, |sg|) && !Delivers(host, sg, dev)
  {
    var x := if sg[i].address < sg[j].address then sg[j].address else sg[i].address;
    var p, q := Total(sg, i) + (x - sg[i].address), Total(sg, j) + (x - sg[j].address);
    TotalMonotonic(sg, i + 1, j);
    TotalMonotonic(sg, j + 1, |sg|);
    dev := seq(Total(sg, |sg|), k => if k == p then 0 else 1);
    var host' := MoveBlocks(Memory(dev, host), sg, 0, false, |sg|).host;
    GatherAt(host', sg, |sg|, i, x - sg[i].address);
    GatherAt(host', sg, |sg|, j, x - sg[j].address);
    assert Gather(host', sg, |sg|)[p] == Gather(host', sg, |sg|)[q] && dev[p] != dev[q];
  }

  /** Reading into a list delivers the device bytes in order, for every device
      content, exactly when its segments are pairwise disjoint. */
  lemma {:induction false} ReadDeliversIffDisjoint(host: seq<Byte>, sg: seq<SgElement>)
    requires InHost(sg, |host|)
    ensures PairwiseDisjoint(sg) <==>
      forall dev: seq<Byte> | |dev| == Total(sg, |sg|) :: Delivers(host, sg, dev)
  {
    if PairwiseDisjoint(sg) {
      forall dev: seq<Byte> | |dev| == Total(sg, |sg|)
        ensures Delivers(host, sg, dev)
      {
        ReadDelivers(Memory(dev, host), sg, 0, |sg|);
      }
    } else {
      var i, j :| 0 <= i < j < |sg| && !Apart(sg[i], sg[j]);
      var dev := OverlapLoses(host, sg, i, j);
    }
  }

  // ----- the chain the driver keeps ------------------------------------------------

  function DmaCntl(write: bool): bv32 {
    if write then MAD_DMA_CNTL_INIT | MAD_DMA_CNTL_H2D else MAD_DMA_CNTL_INIT
  }

  /** Device address of block j: the running 64-bit offset. */
  ghost function DevOffset(sg: seq<SgElement>, base: ULONG64, j: nat): ULONG64
    requires j <= |sg|
  {
    (base + Total(sg, j)) % ULONG64_RANGE
  }

  /** Inside the device's extent neither the 64-bit offset nor the ULONG total wraps. */
  lemma {:induction false} NoWrap(sg: seq<SgElement>, base: ULONG64, j: nat)
    requires j < |sg| && base + Total(sg, |sg|) < Registers.ULONG_RANGE
    ensures DevOffset(sg, base, j) == base + Total(sg, j) && base + Total(sg, j) + sg[j].length < Registers.ULONG_RANGE
    ensures (Total(sg, j) + sg[j].length) % Registers.ULONG_RANGE == Total(sg, j + 1) <= Total(sg, |sg|)
  {
    TotalMonotonic(sg, j + 1, |sg|);
  }

  /** The descriptor the hardware must find for element j of the list. */
  ghost function Descriptor(sg: seq<SgElement>, base: ULONG64, write: bool, slotAddr: seq<ULONG64>, j: nat): ChainElement
    requires j < |sg| <= |slotAddr|
  {
    ChainElement(sg[j].address, DevOffset(sg, base, j), DmaCntl(write), sg[j].length,
                 if j + 1 < |sg| then slotAddr[j + 1] else MAD_DMA_CDPP_END)
  }

  /** The first |sg| slots hold the chain for `sg`. */
  ghost predicate Built(list: seq<ChainElement>, slotAddr: seq<ULONG64>, sg: seq<SgElement>, base: ULONG64, write: bool) {
    && |sg| <= |list| == |slotAddr|
    && forall j :: 0 <= j < |sg| ==> list[j] == Descriptor(sg, base, write, slotAddr, j)
  }

  /** Slot addresses are distinct and never the end marker (32-byte aligned). */
  ghost predicate GoodSlots(slotAddr: seq<ULONG64>) {
    && (forall i, j :: 0 <= i < j < |slotAddr| ==> slotAddr[i] != slotAddr[j])
    && (forall i :: 0 <= i < |slotAddr| ==> slotAddr[i] != MAD_DMA_CDPP_END)
  }

  /** How a walk along the CDPP links ends. */
  datatype Stop = EndMarker | UnknownAddress | OutOfFuel

  /** What a walk meets: the descriptor addresses, their byte counts added up, its end. */
  datatype Trace = Trace(path: seq<ULONG64>, bytes: nat, stop: Stop)

  /** Following CDPP from `cdpp` through at most `fuel` descriptors. */
  ghost function Follow(list: seq<ChainElement>, slotAddr: seq<ULONG64>, cdpp: ULONG64, fuel: nat): Trace
    requires |list| == |slotAddr|
    decreases fuel
  {
    if cdpp == MAD_DMA_CDPP_END then Trace([], 0, EndMarker)
    else if cdpp !in slotAddr then Trace([], 0, UnknownAddress)
    else if fuel == 0 then Trace([], 0, OutOfFuel)
    else
      var k :| 0 <= k < |slotAddr| && slotAddr[k] == cdpp;
      var rest := Follow(list, slotAddr, list[k].cdpp, fuel - 1);
      Trace([cdpp] + rest.path, list[k].dtbc + rest.bytes, rest.stop)
  }

  /** Following a built chain from slot j visits slots j..n-1, once each and in
      order, whatever the other slots hold, and then meets the end marker; it adds up
      the lengths of elements j..n-1. */
  lemma {:induction false} FollowFrom(list: seq<ChainElement>, slotAddr: seq<ULONG64>, sg: seq<SgElement>, base: ULONG64, write: bool, j: nat, fuel: nat)
    requires GoodSlots(slotAddr) && Built(list, slotAddr, sg, base, write)
    requires j < |sg| && |sg| - j <= fuel
    ensures Total(sg, j) <= Total(sg, |sg|)
    ensures Follow(list, slotAddr, slotAddr[j], fuel) == Trace(slotAddr[j..|sg|], Total(sg, |sg|) - Total(sg, j), EndMarker)
    decreases |sg| - j
  {
    assert list[j] == Descriptor(sg, base, write, slotAddr, j);
    TotalMonotonic(sg, j, |sg|);
    hide DevOffset, DmaCntl, Built, Follow;
    FollowSlot(list, slotAddr, j, fuel);
    if j + 1 < |sg| {
      FollowFrom(list, slotAddr, sg, base, write, j + 1, fuel - 1);
      assert slotAddr[j..|sg|] == [slotAddr[j]] + slotAddr[j + 1..|sg|];
    } else {
      FollowEnd(list, slotAddr, fuel - 1);
      assert slotAddr[j..|sg|] == [slotAddr[j]] + [];
    }
  }

  /** One descriptor of a walk: slot addresses are distinct, so the address finds its slot. */
  lemma FollowSlot(list: seq<ChainElement>, slotAddr: seq<ULONG64>, j: nat, fuel: nat)
    requires GoodSlots(slotAddr) && |list| == |slotAddr| && j < |slotAddr| && fuel > 0
    ensures var rest := Follow(list, slotAddr, list[j].cdpp, fuel - 1);
      Follow(list, slotAddr, slotAddr[j], fuel) == Trace([slotAddr[j]] + rest.path, list[j].dtbc + rest.bytes, rest.stop)
  {
    var k :| 0 <= k < |slotAddr| && slotAddr[k] == slotAddr[j];
    assert k == j;
  }

  lemma FollowEnd(list: seq<ChainElement>, slotAddr: seq<ULONG64>, fuel: nat)
    requires |list| == |slotAddr|
    ensures Follow(list, slotAddr, MAD_DMA_CDPP_END, fuel) == Trace([], 0, EndMarker)
  {
  }

  /** For any earlier contents of the reused array: the walk from the head meets
      exactly the first n slots in order and no stale slot, adds up to the length of
      the whole list, and ends at the end marker. */
  lemma {:induction false} ChainVisitsExactlyItsSlots(list: seq<ChainElement>, slotAddr: seq<ULONG64>, sg: seq<SgElement>, base: ULONG64, write: bool, fuel: nat)
    requires GoodSlots(slotAddr) && Built(list, slotAddr, sg, base, write)
    requires 1 <= |sg| <= fuel
    ensures var trace := Follow(list, slotAddr, slotAddr[0], fuel);
      && trace == Trace(slotAddr[..|sg|], Total(sg, |sg|), EndMarker)
      && (forall k :: |sg| <= k < |slotAddr| ==> slotAddr[k] !in trace.path)
  {
    FollowFrom(list, slotAddr, sg, base, write, 0, fuel);
    assert slotAddr[0..|sg|] == slotAddr[..|sg|];
  }

  /** Registers shared by driver and device. */
  class MadRegs {
    var control: bv32
    var status: bv32
    var intID: bv32
    var item0: ChainElement     // DmaChainItem0

    constructor ()
      ensures control == 0 && status == 0 && intID == 0 && item0 == ChainElement(0, 0, 0, 0, 0)
    {
      control, status, intID, item0 := 0, 0, 0, ChainElement(0, 0, 0, 0, 0);
    }
  }

  /** The registers (and, for more than one element, the chain) describe `sg`. */
  ghost predicate Programmed(item0: ChainElement, list: seq<ChainElement>, slotAddr: seq<ULONG64>, sg: seq<SgElement>, base: ULONG64, length: ULONG, write: bool)
  {
    if |sg| == 1 then
      item0 == ChainElement(sg[0].address, base, DmaCntl(write), length, MAD_DMA_CDPP_END)
    else
      |slotAddr| > 0 && item0.cdpp == slotAddr[0] && Built(list, slotAddr, sg, base, write)
  }

  lemma DirectionBit()
    ensures DmaCntl(true) & MAD_DMA_CNTL_H2D != 0
    ensures DmaCntl(false) & MAD_DMA_CNTL_H2D == 0
  {
  }

  class FdoData {
    const slotAddr: seq<ULONG64>      // MmGetPhysicalAddress of each array slot
    const liCDPP: ULONG64             // physical address of the array
    const hdwSgDmaList: array<ChainElement>
    const regs: MadRegs

    constructor (slotAddr: seq<ULONG64>, regs: MadRegs)
      requires |slotAddr| == MAD_DMA_MAX_SECTORS + 1 && GoodSlots(slotAddr)
      ensures Valid() && this.slotAddr == slotAddr && this.regs == regs && fresh(hdwSgDmaList)
    {
      this.slotAddr, this.liCDPP, this.regs := slotAddr, slotAddr[0], regs;
      hdwSgDmaList := new ChainElement[MAD_DMA_MAX_SECTORS + 1](_ => ChainElement(0, 0, 0, 0, 0));
    }

    ghost predicate Valid()
      reads this
    {
      && hdwSgDmaList.Length == |slotAddr| == MAD_DMA_MAX_SECTORS + 1
      && GoodSlots(slotAddr)
      && liCDPP == slotAddr[0]
    }

    /** Mad_BuildDeviceChainedDmaListFromWinSgList.  The device offset of the
        transfer is taken from slot 0, where the caller left it. */
    method BuildChain(sgList: seq<SgElement>, bWrite: bool)
      requires Valid()
      requires 1 < |sgList| <= MAD_DMA_MAX_SECTORS
      modifies hdwSgDmaList
      ensures Built(hdwSgDmaList[..], slotAddr, sgList, old(hdwSgDmaList[0].devLoclAddr), bWrite)
      ensures forall k :: |sgList| <= k < hdwSgDmaList.Length ==> hdwSgDmaList[k] == old(hdwSgDmaList[k])
    {
      ghost var base := hdwSgDmaList[0].devLoclAddr;
      var item, next := 0, 1;
      var devOffset: ULONG64 := hdwSgDmaList[0].devLoclAddr;
      var dmaCntl := MAD_DMA_CNTL_INIT;
      if bWrite {
        dmaCntl := dmaCntl | MAD_DMA_CNTL_H2D;
      }
      var j := 0;
      while true
        invariant 0 <= j < |sgList| && item == j && next == j + 1
        invariant devOffset == DevOffset(sgList, base, j) && dmaCntl == DmaCntl(bWrite)
        invariant forall k :: 0 <= k < j ==> hdwSgDmaList[k] == Descriptor(sgList, base, bWrite, slotAddr, k)
        invariant forall k :: |sgList| <= k < hdwSgDmaList.Length ==> hdwSgDmaList[k] == old(hdwSgDmaList[k])
        decreases |sgList| - j
      {
        var blockSize := sgList[j].length;
        hdwSgDmaList[item] := ChainElement(sgList[j].address, devOffset, dmaCntl, blockSize, hdwSgDmaList[item].cdpp);
        devOffset := (devOffset + blockSize) % ULONG64_RANGE;
        if j == |sgList| - 1 {
          break;
        }
        hdwSgDmaList[item] := hdwSgDmaList[item].(cdpp := slotAddr[next]);
        j, item, next := j + 1, item + 1, next + 1;
      }
      hdwSgDmaList[item] := hdwSgDmaList[item].(cdpp := MAD_DMA_CDPP_END);
    }

    /** MadEvtProgramDma: one block is programmed into the registers directly, a
        longer list through the descriptor chain. */
    method ProgramDma(sgList: seq<SgElement>, bWrite: bool, deviceOffset: ULONG64, length: ULONG)
      requires Valid()
      requires 1 <= |sgList| <= MAD_DMA_MAX_SECTORS
      modifies regs, hdwSgDmaList
      ensures Programmed(regs.item0, hdwSgDmaList[..], slotAddr, sgList, deviceOffset, length, bWrite)
      ensures regs.control == (if |sgList| > 1 then Registers.CONTROL_CHAINED_DMA else 0) | Registers.CONTROL_DMA_GO
      ensures regs.intID == old(regs.intID) && regs.status == old(regs.status)
    {
      var controlReg: bv32 := 0;
      var dmaCntl := MAD_DMA_CNTL_INIT;
      if bWrite {
        dmaCntl := dmaCntl | MAD_DMA_CNTL_H2D;
      }
      var oneBlock := ChainElement(0, 0, 0, 0, 0);
      if |sgList| == 1 {
        oneBlock := ChainElement(sgList[0].address, deviceOffset, dmaCntl, length, MAD_DMA_CDPP_END);
      } else {
        hdwSgDmaList[0] := hdwSgDmaList[0].(devLoclAddr := deviceOffset);
        oneBlock := oneBlock.(cdpp := liCDPP);
        BuildChain(sgList, bWrite);
        controlReg := controlReg | Registers.CONTROL_CHAINED_DMA;
      }
      regs.item0 := oneBlock;
      regs.control := controlReg;
      regs.control := controlReg | Registers.CONTROL_DMA_GO;
    }
  }

  /** Whether the controller's two address mappings succeed for one descriptor. */
  datatype MapResult = BothMapped | NoPacket | NoHost

  /** Number of descriptors processed before the first failed mapping. */
  function Mapped(maps: seq<MapResult>, n: nat): (k: nat)
    requires n <= |maps|
    ensures k <= n
    ensures forall i :: 0 <= i < k ==> maps[i] == BothMapped
    ensures k < n ==> maps[k] != BothMapped
  {
    if n == 0 then 0
    else
      var k := Mapped(maps, n - 1);
      if k < n - 1 || maps[n - 1] != BothMapped then k else n
  }

  lemma OneMapping(maps: seq<MapResult>)
    requires |maps| >= 1
    ensures Mapped(maps, 1) == if maps[0] == BothMapped then 1 else 0
  {
  }

  /** RtlCopyMemory between two different memories. */
  method CopyMemory(dst: array<Byte>, at: nat, src: array<Byte>, from: nat, n: nat)
    requires dst != src && at + n <= dst.Length && from + n <= src.Length
    modifies dst
    ensures dst[..] == Splice(old(dst[..]), at, src[..][from..from + n])
  {
    forall i | 0 <= i < n {
      dst[at + i] := src[from + i];
    }
  }

  /** The simulated device: its registers, its data and the host's memory. */
  class PdoDeviceData {
    const regs: MadRegs
    const deviceData: array<Byte>
    const host: array<Byte>

    constructor (regs: MadRegs, deviceData: array<Byte>, host: array<Byte>)
      ensures this.regs == regs && this.deviceData == deviceData && this.host == host
    {
      this.regs, this.deviceData, this.host := regs, deviceData, host;
    }

    method SetRegsNoResource()
      modifies regs
      ensures regs.intID == Registers.SetBits(old(regs.intID), Registers.INT_STATUS_ALERT)
      ensures regs.status == Registers.SetBits(old(regs.status), Registers.STATUS_RESOURCE_ERR)
      ensures regs.item0 == old(regs.item0) && regs.control == old(regs.control)
    {
      regs.intID := regs.intID | Registers.INT_STATUS_ALERT;
      regs.status := regs.status | Registers.STATUS_RESOURCE_ERR;
    }

    ghost function Mem(): Memory
      reads host, deviceData
    {
      Memory(deviceData[..], host[..])
    }

    /** RtlCopyMemory between a host buffer and device data. */
    method CopyBlock(e: SgElement, xferLoc: nat, write: bool)
      requires host != deviceData && BlockFits(Mem(), e, xferLoc)
      modifies host, deviceData
      ensures Mem() == MoveBlock(old(Mem()), e, xferLoc, write)
    {
      if write {
        CopyMemory(deviceData, xferLoc, host, e.address, e.length);
      } else {
        CopyMemory(host, e.address, deviceData, xferLoc, e.length);
      }
    }

    /** One pass of the walk: copy block j and extend the running total. */
    method ProcessPacket(packet: ChainElement, totl: ULONG, ghost m0: Memory, ghost sg: seq<SgElement>,
                         ghost base: ULONG64, ghost write: bool, ghost j: nat)
      returns (totl': ULONG)
      requires host != deviceData && j < |sg| && InHost(sg, |m0.host|)
      requires base + Total(sg, |sg|) <= |m0.dev| < Registers.ULONG_RANGE && totl == Total(sg, j) <= Total(sg, |sg|)
      requires packet.hostAddr == sg[j].address && packet.dtbc == sg[j].length
      requires packet.devLoclAddr == DevOffset(sg, base, j) && packet.dmaCntl == DmaCntl(write)
      requires Mem() == MoveBlocks(m0, sg, base, write, j)
      modifies host, deviceData
      ensures totl' == Total(sg, j + 1) <= Total(sg, |sg|)
      ensures Mem() == MoveBlocks(m0, sg, base, write, j + 1)
    {
      hide MoveBlock, Splice, Segment;
      NoWrap(sg, base, j);
      DirectionBit();
      assert SgElement(packet.hostAddr, packet.dtbc) == sg[j];
      var xferLoc := packet.devLoclAddr % Registers.ULONG_RANGE;   // the (ULONG) cast
      assert MoveBlocks(m0, sg, base, write, j + 1) == MoveBlock(Mem(), sg[j], xferLoc, write);
      CopyBlock(SgElement(packet.hostAddr, packet.dtbc), xferLoc, packet.dmaCntl & MAD_DMA_CNTL_H2D != 0);
      totl' := (totl + packet.dtbc) % Registers.ULONG_RANGE;
    }

    /** The walk itself: follow CDPP to the end marker, copying block by block,
        or stop at the first failed mapping. */
    method WalkChain(list: array<ChainElement>, slotAddr: seq<ULONG64>, maps: seq<MapResult>,
                     ghost sg: seq<SgElement>, ghost base: ULONG64, ghost write: bool)
      returns (chainLen: nat, totlXferLen: ULONG, ok: bool)
      requires host != deviceData && deviceData.Length < Registers.ULONG_RANGE
      requires GoodSlots(slotAddr) && Built(list[..], slotAddr, sg, base, write)
      requires 1 <= |sg| <= |maps| && regs.item0.cdpp == slotAddr[0]
      requires InHost(sg, host.Length) && base + Total(sg, |sg|) <= deviceData.Length
      modifies host, deviceData
      ensures chainLen == Mapped(maps, |sg|) && (ok <==> chainLen == |sg|)
      ensures totlXferLen == Total(sg, chainLen) <= Total(sg, |sg|)
      ensures Mem() == MoveBlocks(old(Mem()), sg, base, write, chainLen)
    {
      hide MoveBlock, Splice;
      var cdpp := regs.item0.cdpp;
      chainLen, totlXferLen, ok := 0, 0, true;
      ghost var m0, list0 := Mem(), list[..];
      TotalMonotonic(sg, 0, |sg|);
      while cdpp != MAD_DMA_CDPP_END
        invariant 0 <= chainLen <= |sg| && ok
        invariant cdpp == if chainLen < |sg| then slotAddr[chainLen] else MAD_DMA_CDPP_END
        invariant forall i :: 0 <= i < chainLen ==> maps[i] == BothMapped
        invariant totlXferLen == Total(sg, chainLen) <= Total(sg, |sg|)
        invariant Mem() == MoveBlocks(m0, sg, base, write, chainLen)
        invariant list[..] == list0
        decreases |sg| - chainLen
      {
        if maps[chainLen] == NoPacket {
          ok := false;
          break;
        }
        var packet := FetchPacket(list, slotAddr, cdpp, chainLen);
        assert packet == list0[chainLen] == Descriptor(sg, base, write, slotAddr, chainLen);
        if maps[chainLen] == NoHost {
          ok := false;
          break;
        }
        totlXferLen := ProcessPacket(packet, totlXferLen, m0, sg, base, write, chainLen);
        chainLen := chainLen + 1;
        cdpp := packet.cdpp;
      }
    }

    /** MadBusPdoProcessDevSgDma.  The result is one contiguous device transfer of
        the blocks before the first failed mapping; a failure raises the alert. */
    method ProcessDevSgDma(list: array<ChainElement>, slotAddr: seq<ULONG64>, maps: seq<MapResult>,
                           ghost sg: seq<SgElement>, ghost base: ULONG64, ghost write: bool)
      requires host != deviceData && deviceData.Length < Registers.ULONG_RANGE
      requires GoodSlots(slotAddr) && Built(list[..], slotAddr, sg, base, write)
      requires 1 <= |sg| <= |maps| && regs.item0.cdpp == slotAddr[0]
      requires InHost(sg, host.Length) && base + Total(sg, |sg|) <= deviceData.Length
      modifies regs, host, deviceData
      ensures var k := Mapped(maps, |sg|);
        && Total(sg, k) <= Total(sg, |sg|)
        && Mem() == (if write then Memory(Splice(old(Mem()).dev, base, Gather(old(Mem()).host, sg, k)), old(Mem()).host)
                     else MoveBlocks(old(Mem()), sg, base, false, k))
        && regs.item0 == old(regs.item0).(dtbc := Total(sg, k))
      ensures regs.control == old(regs.control)
      ensures Mapped(maps, |sg|) == |sg| ==> regs.intID == old(regs.intID) && regs.status == old(regs.status)
      ensures Mapped(maps, |sg|) < |sg| ==>
        && regs.intID == Registers.SetBits(old(regs.intID), Registers.INT_STATUS_ALERT)
        && regs.status == Registers.SetBits(old(regs.status), Registers.STATUS_RESOURCE_ERR)
    {
      hide Registers.SetBits, MoveBlocks, MoveBlock, Splice, Gather;
      ghost var m0 := Mem();
      var chainLen, totlXferLen, ok := WalkChain(list, slotAddr, maps, sg, base, write);
      WriteIsContiguous(m0, sg, base, chainLen);
      if !ok {
        SetRegsNoResource();
      }
      regs.item0 := regs.item0.(dtbc := totlXferLen);
    }

    /** The one-block cases of MadBusPdoProcessDevIo (eDmaRead, eDmaWrite); the
        direction is the request type's. */
    method ProcessDevDma(write: bool, mapped: bool)
      requires host != deviceData && regs.item0.devLoclAddr < Registers.ULONG_RANGE
      requires BlockFits(Mem(), SgElement(regs.item0.hostAddr, regs.item0.dtbc), regs.item0.devLoclAddr)
      modifies regs, host, deviceData
      ensures Mem() == if mapped then MoveBlock(old(Mem()), SgElement(old(regs.item0).hostAddr, old(regs.item0).dtbc), old(regs.item0).devLoclAddr, write)
                       else old(Mem())
      ensures regs.item0 == old(regs.item0) && regs.control == old(regs.control)
      ensures mapped ==> regs.intID == old(regs.intID) && regs.status == old(regs.status)
      ensures !mapped ==>
        && regs.intID == Registers.SetBits(old(regs.intID), Registers.INT_STATUS_ALERT)
        && regs.status == Registers.SetBits(old(regs.status), Registers.STATUS_RESOURCE_ERR)
    {
      hide Registers.SetBits, MoveBlocks, MoveBlock, Splice, Gather;
      if !mapped {
        SetRegsNoResource();
        return;
      }
      var xferLoc := regs.item0.devLoclAddr % Registers.ULONG_RANGE;
      CopyBlock(SgElement(regs.item0.hostAddr, regs.item0.dtbc), xferLoc, write);
    }

    /** A whole DMA request, driver and device together: for every list of 1 to 16
        elements, chained or not, the blocks before the first failed mapping are one
        contiguous transfer. A request whose mappings all succeed reports its length and
        raises nothing, any other one raises the alert with the resource error. */
    method ServeDmaRequest(fdo: FdoData, sgList: seq<SgElement>, bWrite: bool, deviceOffset: ULONG64, length: ULONG, maps: seq<MapResult>)
      requires fdo.Valid() && fdo.regs == regs && host != deviceData && deviceData.Length < Registers.ULONG_RANGE
      requires 1 <= |sgList| <= MAD_DMA_MAX_SECTORS && |sgList| <= |maps| && InHost(sgList, host.Length)
      requires length == Total(sgList, |sgList|) && deviceOffset + length <= deviceData.Length
      modifies regs, fdo.hdwSgDmaList, host, deviceData
      ensures Total(sgList, Mapped(maps, |sgList|)) <= length
      ensures bWrite ==>
        Mem() == Memory(Splice(old(Mem()).dev, deviceOffset, Gather(old(Mem()).host, sgList, Mapped(maps, |sgList|))), old(Mem()).host)
      ensures !bWrite ==> Mem() == MoveBlocks(old(Mem()), sgList, deviceOffset, false, Mapped(maps, |sgList|))
      ensures !bWrite && PairwiseDisjoint(sgList) ==> var k := Mapped(maps, |sgList|);
        Gather(Mem().host, sgList, k) == old(Mem()).dev[deviceOffset..deviceOffset + Total(sgList, k)]
      ensures if Mapped(maps, |sgList|) == |sgList| then
                regs.item0.dtbc == length && regs.intID == old(regs.intID) && regs.status == old(regs.status)
              else
                && (|sgList| > 1 ==> regs.item0.dtbc == Total(sgList, Mapped(maps, |sgList|)))
                && regs.intID == Registers.SetBits(old(regs.intID), Registers.INT_STATUS_ALERT)
                && regs.status == Registers.SetBits(old(regs.status), Registers.STATUS_RESOURCE_ERR)
    {
      hide Registers.SetBits, MoveBlock, MoveBlocks, Splice, Segment, Gather, PairwiseDisjoint, Built, Mapped;
      ghost var m0, k := Mem(), Mapped(maps, |sgList|);
      TotalMonotonic(sgList, k, |sgList|);
      if !bWrite && PairwiseDisjoint(sgList) {
        ReadDelivers(m0, sgList, deviceOffset, k);
      }
      if |sgList| == 1 {
        OneMapping(maps);
      }
      fdo.ProgramDma(sgList, bWrite, deviceOffset, length);
      assert Mem() == m0;
      if regs.item0.cdpp == MAD_DMA_CDPP_END {
        ServeOneBlock(sgList, bWrite, deviceOffset, maps[0] == BothMapped);
      } else {
        ProcessDevSgDma(fdo.hdwSgDmaList, fdo.slotAddr, maps, sgList, deviceOffset, bWrite);
      }
    }

    /** The transfer of a request with one element. */
    method ServeOneBlock(ghost sg: seq<SgElement>, bWrite: bool, ghost base: ULONG64, mapped: bool)
      requires host != deviceData && deviceData.Length < Registers.ULONG_RANGE
      requires |sg| == 1 && InHost(sg, host.Length) && base + Total(sg, 1) <= deviceData.Length
      requires regs.item0.devLoclAddr == base && SgElement(regs.item0.hostAddr, regs.item0.dtbc) == sg[0]
      modifies regs, host, deviceData
      ensures var k := if mapped then 1 else 0;
        Mem() == if bWrite then Memory(Splice(old(Mem()).dev, base, Gather(old(Mem()).host, sg, k)), old(Mem()).host)
                 else MoveBlocks(old(Mem()), sg, base, false, k)
      ensures regs.item0 == old(regs.item0)
      ensures mapped ==> regs.intID == old(regs.intID) && regs.status == old(regs.status)
      ensures !mapped ==>
        && regs.intID == Registers.SetBits(old(regs.intID), Registers.INT_STATUS_ALERT)
        && regs.status == Registers.SetBits(old(regs.status), Registers.STATUS_RESOURCE_ERR)
    {
      hide Registers.SetBits, MoveBlock, Splice, Segment, Gather;
      ghost var m0 := Mem();
      assert Total(sg, 1) == sg[0].length;
      WriteIsContiguous(m0, sg, base, if mapped then 1 else 0);
      assert MoveBlocks(m0, sg, base, bWrite, 1) == MoveBlock(m0, sg[0], base, bWrite);
      ProcessDevDma(bWrite, mapped);
    }

    /** Two requests in place, one that writes through a list and one that reads the same
        range back through any other list of disjoint segments: the bytes come back. */
    method StoreAndFetch(fdo: FdoData, out: seq<SgElement>, into: seq<SgElement>, deviceOffset: ULONG64, length: ULONG, maps: seq<MapResult>)
      requires fdo.Valid() && fdo.regs == regs && host != deviceData && deviceData.Length < Registers.ULONG_RANGE
      requires 1 <= |out| <= MAD_DMA_MAX_SECTORS && |out| <= |maps| && InHost(out, host.Length)
      requires 1 <= |into| <= MAD_DMA_MAX_SECTORS && |into| <= |maps| && InHost(into, host.Length) && PairwiseDisjoint(into)
      requires length == Total(out, |out|) == Total(into, |into|) && deviceOffset + length <= deviceData.Length
      requires Mapped(maps, |out|) == |out| && Mapped(maps, |into|) == |into|
      modifies regs, fdo.hdwSgDmaList, host, deviceData
      ensures Gather(Mem().host, into, |into|) == Gather(old(Mem()).host, out, |out|)
      ensures regs.item0.dtbc == length && regs.intID == old(regs.intID) && regs.status == old(regs.status)
    {
      hide Registers.SetBits, MoveBlocks, Gather, PairwiseDisjoint;
      ghost var data := Gather(Mem().host, out, |out|);
      ServeDmaRequest(fdo, out, true, deviceOffset, length, maps);
      assert deviceData[..][deviceOffset..deviceOffset + length] == data;
      ServeDmaRequest(fdo, into, false, deviceOffset, length, maps);
    }
  }

  /** Mapping a descriptor's physical address reaches the slot that has it. */
  method FetchPacket(list: array<ChainElement>, slotAddr: seq<ULONG64>, addr: ULONG64, ghost slot: nat) returns (packet: ChainElement)
    requires slot < |slotAddr| == list.Length && slotAddr[slot] == addr && GoodSlots(slotAddr)
    ensures packet == list[slot]
  {
    var k := 0;
    while slotAddr[k] != addr
      invariant k <= slot
      decreases slot - k
    {
      k := k + 1;
    }
    packet := list[k];
  }
}
