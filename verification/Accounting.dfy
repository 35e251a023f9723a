/** The transfer accounting of the driver: one static byte counter shared by all
    devices turns buffered completions into kilobytes and power, DMA work items are
    credited directly. */
module Accounting {

  const MAD_XFER_UNIT_SIZE := 1024
  const MAD_MILLIWATTS_PER_XFER_UNIT := 250
  const MAD_DMA_MILLIWATTS_PER_XFER_UNIT := 500

  /** The shared counter and, per device, the kilobytes and the power credited. */
  datatype Ledger = Ledger(running: nat, kb: seq<nat>, power: seq<nat>)

  datatype Event =
    | Bufrd(dev: nat, success: bool, count: nat)   // MadCompleteXferReqWithInfo
    | Dma(dev: nat, xferCount: nat)                // MadEvtDmaWorkItem

  predicate Fits(l: Ledger, e: Event) {
    e.dev < |l.kb| && |l.kb| == |l.power|
  }

  function Bump(s: seq<nat>, k: nat, n: nat): seq<nat>
    requires k < |s|
  {
    s[k := s[k] + n]
  }

  /** One credit at most per buffered completion, however many bytes it brings. */
  function Apply(l: Ledger, e: Event): (l': Ledger)
    requires Fits(l, e)
    ensures |l'.kb| == |l.kb| && |l'.power| == |l.power|
  {
    match e
    case Bufrd(dev, success, count) =>
      var running := if success then l.running + count else l.running;
      if running >= MAD_XFER_UNIT_SIZE then
        Ledger(running - MAD_XFER_UNIT_SIZE, Bump(l.kb, dev, 1), Bump(l.power, dev, MAD_MILLIWATTS_PER_XFER_UNIT))
      else l.(running := running)
    case Dma(dev, xferCount) =>
      l.(kb := Bump(l.kb, dev, xferCount / MAD_XFER_UNIT_SIZE), power := Bump(l.power, dev, MAD_DMA_MILLIWATTS_PER_XFER_UNIT))
  }

  predicate AllFit(l: Ledger, run: seq<Event>) {
    forall i :: 0 <= i < |run| ==> Fits(l, run[i])
  }

  /** The ledger after the first j events. */
  function After(l: Ledger, run: seq<Event>, j: nat): (l': Ledger)
    requires j <= |run| && AllFit(l, run)
    ensures |l'.kb| == |l.kb| && |l'.power| == |l.power|
  {
    if j == 0 then l else Apply(After(l, run, j - 1), run[j - 1])
  }

  // ----- what a run did, read off the events alone ---------------------------------------

  /** Bytes the first j events passed to the buffered accounting with success. */
  function SuccessBytes(run: seq<Event>, j: nat): nat
    requires j <= |run|
  {
    if j == 0 then 0
    else SuccessBytes(run, j - 1) + match run[j - 1]
                                    case Bufrd(_, success, count) => if success then count else 0
                                    case Dma(_, _) => 0
  }

  function DmaKb(run: seq<Event>, j: nat): nat
    requires j <= |run|
  {
    if j == 0 then 0 else DmaKb(run, j - 1) + if run[j - 1].Dma? then run[j - 1].xferCount / MAD_XFER_UNIT_SIZE else 0
  }

  function DmaRuns(run: seq<Event>, j: nat): nat
    requires j <= |run|
  {
    if j == 0 then 0 else DmaRuns(run, j - 1) + if run[j - 1].Dma? then 1 else 0
  }

  // ----- conservation ------------------------------------------------------------------------

  function Sum(s: seq<nat>, j: nat): nat
    requires j <= |s|
  {
    if j == 0 then 0 else Sum(s, j - 1) + s[j - 1]
  }

  function Total(s: seq<nat>): nat {
    Sum(s, |s|)
  }

  lemma {:induction false} SumBump(s: seq<nat>, k: nat, n: nat, j: nat)
    requires k < |s| && j <= |s|
    ensures Sum(Bump(s, k, n), j) == Sum(s, j) + if k < j then n else 0
  {
    if j > 0 {
      SumBump(s, k, n, j - 1);
    }
  }

  lemma TotalBump(s: seq<nat>, k: nat, n: nat)
    requires k < |s|
    ensures Total(Bump(s, k, n)) == Total(s) + n
  {
    SumBump(s, k, n, |s|);
  }

  /** Over any run of any number of devices: 1024 times the kilobytes that came from
      buffered completions, plus the counter, is the bytes passed with success; and
      the power is 250 per such kilobyte plus 500 per DMA work item. */
  lemma {:induction false} Conservation(l: Ledger, run: seq<Event>, j: nat)
    requires j <= |run| && AllFit(l, run)
    ensures var l', bufrdKb := After(l, run, j), Total(After(l, run, j).kb) - Total(l.kb) - DmaKb(run, j);
      && bufrdKb >= 0
      && MAD_XFER_UNIT_SIZE * bufrdKb + l'.running == l.running + SuccessBytes(run, j)
      && Total(l'.power) == Total(l.power) + MAD_MILLIWATTS_PER_XFER_UNIT * bufrdKb + MAD_DMA_MILLIWATTS_PER_XFER_UNIT * DmaRuns(run, j)
  {
    if j > 0 {
      Conservation(l, run, j - 1);
      var m, e := After(l, run, j - 1), run[j - 1];
      TotalBump(m.kb, e.dev, 1);
      TotalBump(m.power, e.dev, MAD_MILLIWATTS_PER_XFER_UNIT);
      TotalBump(m.power, e.dev, MAD_DMA_MILLIWATTS_PER_XFER_UNIT);
      if e.Dma? {
        TotalBump(m.kb, e.dev, e.xferCount / MAD_XFER_UNIT_SIZE);
      }
      hide Bump, Sum;
    }
  }

  // ----- the counter stays below one unit -----------------------------------------------------

  /** One completion leaves the counter below one unit exactly when it brings it to
      less than two. */
  lemma BelowUnitIff(l: Ledger, e: Event)
    requires Fits(l, e) && e.Bufrd? && e.success
    ensures Apply(l, e).running < MAD_XFER_UNIT_SIZE <==> l.running + e.count < 2 * MAD_XFER_UNIT_SIZE
  {
  }

  predicate SmallCounts(run: seq<Event>) {
    forall i :: 0 <= i < |run| && run[i].Bufrd? ==> run[i].count <= MAD_XFER_UNIT_SIZE
  }

  lemma {:induction false} CounterStaysBelowUnit(l: Ledger, run: seq<Event>, j: nat)
    requires j <= |run| && AllFit(l, run) && SmallCounts(run) && l.running < MAD_XFER_UNIT_SIZE
    ensures After(l, run, j).running < MAD_XFER_UNIT_SIZE
  {
    if j > 0 {
      CounterStaysBelowUnit(l, run, j - 1);
    }
  }

  // ----- one credit per completion -------------------------------------------------------------

  /** How many of the first j events are buffered completions, each of which can credit
      one kilobyte. */
  function BufrdRuns(run: seq<Event>, j: nat): nat
    requires j <= |run|
  {
    if j == 0 then 0 else BufrdRuns(run, j - 1) + if run[j - 1].Bufrd? then 1 else 0
  }

  /** Whole units the bytes of the first j events make up. */
  function Units(run: seq<Event>, j: nat): nat
    requires j <= |run|
  {
    SuccessBytes(run, j) / MAD_XFER_UNIT_SIZE
  }

  /** No stretch up to the end of the run completes more units than buffered requests. */
  ghost predicate KeepsUp(run: seq<Event>) {
    forall i :: 0 <= i <= |run| ==> Units(run, |run|) - Units(run, i) <= BufrdRuns(run, |run|) - BufrdRuns(run, i)
  }

  /** Whole units the counter is behind. */
  function Behind(l: Ledger, run: seq<Event>, j: nat): nat
    requires j <= |run| && AllFit(l, run)
  {
    After(l, run, j).running / MAD_XFER_UNIT_SIZE
  }

  lemma WholeUnits(k: nat, x: nat)
    ensures (MAD_XFER_UNIT_SIZE * k + x) / MAD_XFER_UNIT_SIZE == k + x / MAD_XFER_UNIT_SIZE
  {
  }

  /** A buffered completion adds its units to what the counter is behind and takes one off. */
  lemma BehindStep(l: Ledger, run: seq<Event>, j: nat)
    requires 0 < j <= |run| && AllFit(l, run) && l.running == 0
    ensures var grown := Behind(l, run, j - 1) + Units(run, j) - Units(run, j - 1);
      Behind(l, run, j) == if run[j - 1].Dma? || grown == 0 then grown else grown - 1
  {
    Conservation(l, run, j - 1);
    Conservation(l, run, j);
    var m, e := After(l, run, j - 1), run[j - 1];
    var k := Total(m.kb) - Total(l.kb) - DmaKb(run, j - 1);
    assert SuccessBytes(run, j - 1) == MAD_XFER_UNIT_SIZE * k + m.running;
    var n := if e.Bufrd? && e.success then e.count else 0;
    assert SuccessBytes(run, j) == MAD_XFER_UNIT_SIZE * k + (m.running + n);
    var running := After(l, run, j).running;
    assert running == if e.Bufrd? && m.running + n >= MAD_XFER_UNIT_SIZE then m.running + n - MAD_XFER_UNIT_SIZE else m.running + n;
    hide Total, SuccessBytes, DmaKb, After;
    WholeUnits(k, m.running);
    WholeUnits(k, m.running + n);
    if running != m.running + n {
      WholeUnits(1, running);
    }
  }

  lemma {:induction false} BehindAtLeast(l: Ledger, run: seq<Event>, i: nat, j: nat)
    requires i <= j <= |run| && AllFit(l, run) && l.running == 0
    ensures Behind(l, run, j) >= Units(run, j) - Units(run, i) - (BufrdRuns(run, j) - BufrdRuns(run, i))
  {
    if i < j {
      hide Behind, Units;
      BehindAtLeast(l, run, i, j - 1);
      BehindStep(l, run, j);
    }
  }

  /** What the counter is behind goes back to one stretch of the run. */
  lemma {:induction false} BehindSince(l: Ledger, run: seq<Event>, j: nat) returns (i: nat)
    requires j <= |run| && AllFit(l, run) && l.running == 0
    ensures i <= j && Behind(l, run, j) == Units(run, j) - Units(run, i) - (BufrdRuns(run, j) - BufrdRuns(run, i))
  {
    i := j;
    if j > 0 && Behind(l, run, j) != 0 {
      hide Behind, Units;
      i := BehindSince(l, run, j - 1);
      BehindStep(l, run, j);
    }
  }

  /** From an empty counter the run leaves less than one unit in it exactly if no stretch
      up to its end completed more units than buffered requests. */
  lemma CounterBelowUnitIff(l: Ledger, run: seq<Event>)
    requires AllFit(l, run) && l.running == 0
    ensures After(l, run, |run|).running < MAD_XFER_UNIT_SIZE <==> KeepsUp(run)
  {
    var n := |run|;
    if KeepsUp(run) {
      var i := BehindSince(l, run, n);
      assert Units(run, n) - Units(run, i) <= BufrdRuns(run, n) - BufrdRuns(run, i);
      assert Behind(l, run, n) == 0;
    } else {
      var i :| 0 <= i <= n && !(Units(run, n) - Units(run, i) <= BufrdRuns(run, n) - BufrdRuns(run, i));
      BehindAtLeast(l, run, i, n);
    }
  }

  /** Then, and only then, the buffered kilobytes are the whole kilobytes of the bytes
      passed; otherwise they are fewer. Completions of at most one unit always keep up. */
  lemma WholeKilobytesIff(l: Ledger, run: seq<Event>)
    requires AllFit(l, run) && l.running == 0
    ensures var n := SuccessBytes(run, |run|);
      var bufrdKb := Total(After(l, run, |run|).kb) - Total(l.kb) - DmaKb(run, |run|);
      && (bufrdKb == n / MAD_XFER_UNIT_SIZE <==> KeepsUp(run))
      && bufrdKb <= n / MAD_XFER_UNIT_SIZE
      && (SmallCounts(run) ==> KeepsUp(run))
  {
    hide Total, SuccessBytes, DmaKb, After, KeepsUp;
    Conservation(l, run, |run|);
    CounterBelowUnitIff(l, run);
    if SmallCounts(run) {
      CounterStaysBelowUnit(l, run, |run|);
    }
  }

  // ----- whose kilobytes -------------------------------------------------------------------------

  /** Bytes device d passed to the buffered accounting with success. */
  function OwnBytes(run: seq<Event>, d: nat, j: nat): nat
    requires j <= |run|
  {
    if j == 0 then 0
    else OwnBytes(run, d, j - 1) + match run[j - 1]
                                   case Bufrd(dev, success, count) => if success && dev == d then count else 0
                                   case Dma(_, _) => 0
  }

  function OwnDmaKb(run: seq<Event>, d: nat, j: nat): nat
    requires j <= |run|
  {
    if j == 0 then 0
    else OwnDmaKb(run, d, j - 1) + if run[j - 1].Dma? && run[j - 1].dev == d then run[j - 1].xferCount / MAD_XFER_UNIT_SIZE else 0
  }

  /** After j events every device has been credited its own whole kilobytes. */
  ghost predicate Fair(l: Ledger, run: seq<Event>, j: nat)
    requires j <= |run| && AllFit(l, run)
  {
    forall d :: 0 <= d < |l.kb| ==>
      After(l, run, j).kb[d] == l.kb[d] + OwnDmaKb(run, d, j) + OwnBytes(run, d, j) / MAD_XFER_UNIT_SIZE
  }

  /** What devices 0..k-1 together have beyond their own whole kilobytes. */
  function Rests(run: seq<Event>, k: nat, j: nat): nat
    requires j <= |run|
    decreases k
  {
    if k == 0 then 0 else Rests(run, k - 1, j) + OwnBytes(run, k - 1, j) % MAD_XFER_UNIT_SIZE
  }

  ghost predicate AlwaysFair(l: Ledger, run: seq<Event>, j: nat)
    requires j <= |run| && AllFit(l, run)
  {
    forall i :: 0 <= i <= j ==> Fair(l, run, i)
  }

  ghost predicate RestsFit(run: seq<Event>, devices: nat, j: nat)
    requires j <= |run|
  {
    forall i :: 0 <= i <= j ==> Rests(run, devices, i) < MAD_XFER_UNIT_SIZE
  }

  lemma {:induction false} RestsStep(run: seq<Event>, k: nat, j: nat)
    requires 0 < j <= |run|
    ensures var e := run[j - 1];
      Rests(run, k, j) == Rests(run, k, j - 1)
        + if e.dev < k then OwnBytes(run, e.dev, j) % MAD_XFER_UNIT_SIZE - OwnBytes(run, e.dev, j - 1) % MAD_XFER_UNIT_SIZE else 0
    decreases k
  {
    if k > 0 {
      RestsStep(run, k - 1, j);
    }
  }

  lemma {:induction false} RestIsPart(run: seq<Event>, k: nat, d: nat, j: nat)
    requires d < k && j <= |run|
    ensures OwnBytes(run, d, j) % MAD_XFER_UNIT_SIZE <= Rests(run, k, j)
    decreases k
  {
    if d < k - 1 {
      RestIsPart(run, k - 1, d, j);
    }
  }

  /** As long as the credits are fair the counter holds the rests of all devices. */
  lemma {:induction false} FairCounter(l: Ledger, run: seq<Event>, j: nat)
    requires j <= |run| && AllFit(l, run) && l.running == 0 && AlwaysFair(l, run, j)
    ensures After(l, run, j).running == Rests(run, |l.kb|, j)
  {
    if j == 0 {
      NoRests(run, |l.kb|);
    } else {
      FairCounter(l, run, j - 1);
      RestsStep(run, |l.kb|, j);
      var e := run[j - 1];
      assert Fits(l, e) && Fair(l, run, j - 1) && Fair(l, run, j);
      CreditOf(l, run, j);
      hide Fair, Rests;
    }
  }

  lemma {:induction false} NoRests(run: seq<Event>, k: nat)
    ensures Rests(run, k, 0) == 0
    decreases k
  {
    if k > 0 {
      NoRests(run, k - 1);
    }
  }

  /** If a step is fair, its credit is the growth of the device's own kilobytes. */
  lemma CreditOf(l: Ledger, run: seq<Event>, j: nat)
    requires 0 < j <= |run| && AllFit(l, run) && Fair(l, run, j - 1) && Fair(l, run, j)
    ensures var e := run[j - 1];
      && var own, own' := OwnBytes(run, e.dev, j - 1), OwnBytes(run, e.dev, j);
      After(l, run, j).running == After(l, run, j - 1).running
        + (own' - own) - MAD_XFER_UNIT_SIZE * (own' / MAD_XFER_UNIT_SIZE - own / MAD_XFER_UNIT_SIZE)
  {
    var e, m := run[j - 1], After(l, run, j - 1);
    assert Fits(l, e);
    assert After(l, run, j).kb[e.dev] == l.kb[e.dev] + OwnDmaKb(run, e.dev, j) + OwnBytes(run, e.dev, j) / MAD_XFER_UNIT_SIZE;
    assert m.kb[e.dev] == l.kb[e.dev] + OwnDmaKb(run, e.dev, j - 1) + OwnBytes(run, e.dev, j - 1) / MAD_XFER_UNIT_SIZE;
  }

  /** If the rests fit before and after a step, a fair ledger stays fair. */
  lemma FairStep(l: Ledger, run: seq<Event>, j: nat)
    requires 0 < j <= |run| && AllFit(l, run) && SmallCounts(run) && Fair(l, run, j - 1)
    requires After(l, run, j - 1).running == Rests(run, |l.kb|, j - 1) < MAD_XFER_UNIT_SIZE && Rests(run, |l.kb|, j) < MAD_XFER_UNIT_SIZE
    ensures Fair(l, run, j)
  {
    var e := run[j - 1];
    assert Fits(l, e);
    RestsStep(run, |l.kb|, j);
    RestIsPart(run, |l.kb|, e.dev, j - 1);
    CreditIsOwn(l, run, j);
    forall d | 0 <= d < |l.kb|
      ensures After(l, run, j).kb[d] == l.kb[d] + OwnDmaKb(run, d, j) + OwnBytes(run, d, j) / MAD_XFER_UNIT_SIZE
    {
      assert After(l, run, j - 1).kb[d] == l.kb[d] + OwnDmaKb(run, d, j - 1) + OwnBytes(run, d, j - 1) / MAD_XFER_UNIT_SIZE;
    }
  }

  /** The shared counter overflows exactly when the device's own rest does. */
  lemma CreditIsOwn(l: Ledger, run: seq<Event>, j: nat)
    requires 0 < j <= |run| && AllFit(l, run) && SmallCounts(run)
    requires var e, running := run[j - 1], After(l, run, j - 1).running;
      var rest, rest' := OwnBytes(run, e.dev, j - 1) % MAD_XFER_UNIT_SIZE, OwnBytes(run, e.dev, j) % MAD_XFER_UNIT_SIZE;
      rest <= running < MAD_XFER_UNIT_SIZE && running + rest' - rest < MAD_XFER_UNIT_SIZE
    ensures var e, own, own' := run[j - 1], OwnBytes(run, run[j - 1].dev, j - 1), OwnBytes(run, run[j - 1].dev, j);
      && Fits(l, e)
      && After(l, run, j).kb[e.dev] == After(l, run, j - 1).kb[e.dev] + OwnDmaKb(run, e.dev, j) - OwnDmaKb(run, e.dev, j - 1)
                                       + own' / MAD_XFER_UNIT_SIZE - own / MAD_XFER_UNIT_SIZE
  {
    var e := run[j - 1];
    assert Fits(l, e);
    if e.Bufrd? && e.success {
      assert e.count <= MAD_XFER_UNIT_SIZE;
    }
  }

  /** The counter is shared, so a device can be credited a kilobyte that another one
      moved. With completions of at most one unit, every device is credited its own
      whole kilobytes at every point of a run exactly if at every point the rests of
      all devices together are below one unit. */
  lemma FairIff(l: Ledger, run: seq<Event>)
    requires AllFit(l, run) && SmallCounts(run) && l.running == 0
    ensures AlwaysFair(l, run, |run|) <==> RestsFit(run, |l.kb|, |run|)
  {
    hide AllFit, SmallCounts, Fair, Rests, After;
    if AlwaysFair(l, run, |run|) {
      forall j | 0 <= j <= |run|
        ensures Rests(run, |l.kb|, j) < MAD_XFER_UNIT_SIZE
      {
        FairCounter(l, run, j);
        CounterStaysBelowUnit(l, run, j);
      }
    }
    if RestsFit(run, |l.kb|, |run|) {
      FairThroughout(l, run, |run|);
    }
  }

  lemma {:induction false} FairThroughout(l: Ledger, run: seq<Event>, j: nat)
    requires j <= |run| && AllFit(l, run) && SmallCounts(run) && l.running == 0
    requires RestsFit(run, |l.kb|, j)
    ensures AlwaysFair(l, run, j)
  {
    if j > 0 {
      FairThroughout(l, run, j - 1);
      hide Fair;
      FairCounter(l, run, j - 1);
      FairStep(l, run, j);
    }
  }

  function OwnDmaRuns(run: seq<Event>, d: nat, j: nat): nat
    requires j <= |run|
  {
    if j == 0 then 0 else OwnDmaRuns(run, d, j - 1) + if run[j - 1].Dma? && run[j - 1].dev == d then 1 else 0
  }

  /** Power goes where the kilobytes go: every device is charged 250 for each buffered
      kilobyte credited to it and 500 for each DMA work item of its own. */
  lemma {:induction false} PowerOf(l: Ledger, run: seq<Event>, d: nat, j: nat)
    requires j <= |run| && AllFit(l, run) && d < |l.kb| == |l.power|
    ensures var l' := After(l, run, j);
      && l'.kb[d] >= l.kb[d] + OwnDmaKb(run, d, j)
      && l'.power[d] == l.power[d] + MAD_MILLIWATTS_PER_XFER_UNIT * (l'.kb[d] - l.kb[d] - OwnDmaKb(run, d, j))
                                   + MAD_DMA_MILLIWATTS_PER_XFER_UNIT * OwnDmaRuns(run, d, j)
  {
    if j > 0 {
      PowerOf(l, run, d, j - 1);
      assert Fits(l, run[j - 1]);
    }
  }

  /** The least run that is not fair. */
  lemma SharedCounterMiscredits()
    ensures var l := Ledger(0, [0, 0], [0, 0]);
      var run := [Bufrd(0, true, 1023), Bufrd(1, true, 1)];
      AllFit(l, run) && SmallCounts(run) && After(l, run, 2).kb == [0, 1] && After(l, run, 2).power == [0, 250] && !Fair(l, run, 2)
  {
    var l := Ledger(0, [0, 0], [0, 0]);
    var run := [Bufrd(0, true, 1023), Bufrd(1, true, 1)];
    assert After(l, run, 0) == l;
    assert After(l, run, 1) == Ledger(1023, [0, 0], [0, 0]);
    assert OwnBytes(run, 1, 2) == 1 && OwnDmaKb(run, 1, 2) == 0 && After(l, run, 2).kb[1] == 1;
  }

  // ----- the accounting in place -----------------------------------------------------------------

  lemma {:induction false} AfterPrefix(l: Ledger, run: seq<Event>, e: Event, j: nat)
    requires j <= |run| && AllFit(l, run + [e])
    ensures AllFit(l, run) && After(l, run + [e], j) == After(l, run, j)
  {
    assert forall i :: 0 <= i < |run| ==> run[i] == (run + [e])[i];
    if j > 0 {
      AfterPrefix(l, run, e, j - 1);
    }
  }

  function NoBooks(devices: nat): Ledger {
    Ledger(0, seq(devices, _ => 0), seq(devices, _ => 0))
  }

  class Accounts {
    var runningCount: nat
    const ioCountKb: array<nat>
    const powerUsed: array<nat>
    ghost var run: seq<Event>

    /** The books are those of the events so far. */
    ghost predicate Valid()
      reads this, ioCountKb, powerUsed
    {
      && ioCountKb.Length == powerUsed.Length && ioCountKb != powerUsed
      && AllFit(NoBooks(ioCountKb.Length), run)
      && Books() == After(NoBooks(ioCountKb.Length), run, |run|)
    }

    ghost function Books(): Ledger
      reads this, ioCountKb, powerUsed
    {
      Ledger(runningCount, ioCountKb[..], powerUsed[..])
    }

    constructor (devices: nat)
      ensures Valid() && run == [] && fresh(ioCountKb) && fresh(powerUsed) && ioCountKb.Length == devices
    {
      runningCount := 0;
      ioCountKb := new nat[devices](_ => 0);
      powerUsed := new nat[devices](_ => 0);
      run := [];
      new;
      assert ioCountKb[..] == seq(devices, _ => 0) && powerUsed[..] == seq(devices, _ => 0);
    }

    /** The accounting of MadCompleteXferReqWithInfo. */
    method CompleteXferReq(dev: nat, success: bool, ioCount: nat)
      requires Valid() && dev < ioCountKb.Length
      modifies this, ioCountKb, powerUsed
      ensures Valid() && run == old(run) + [Bufrd(dev, success, ioCount)]
      ensures Books() == Apply(old(Books()), Bufrd(dev, success, ioCount))
    {
      hide AllFit, After;
      Recorded(Bufrd(dev, success, ioCount));
      run := run + [Bufrd(dev, success, ioCount)];
      if success {
        runningCount := runningCount + ioCount;
      }
      if runningCount >= MAD_XFER_UNIT_SIZE {
        ioCountKb[dev] := ioCountKb[dev] + 1;
        powerUsed[dev] := powerUsed[dev] + MAD_MILLIWATTS_PER_XFER_UNIT;
        runningCount := runningCount - MAD_XFER_UNIT_SIZE;
      }
    }

    /** The accounting of MadEvtDmaWorkItem. */
    method FinishDma(dev: nat, xferCount: nat)
      requires Valid() && dev < ioCountKb.Length
      modifies `run, ioCountKb, powerUsed
      ensures Valid() && run == old(run) + [Dma(dev, xferCount)]
      ensures Books() == Apply(old(Books()), Dma(dev, xferCount))
    {
      hide AllFit, After;
      Recorded(Dma(dev, xferCount));
      run := run + [Dma(dev, xferCount)];
      var xferCountKb := xferCount / MAD_XFER_UNIT_SIZE;
      ioCountKb[dev] := ioCountKb[dev] + xferCountKb;
      powerUsed[dev] := powerUsed[dev] + MAD_DMA_MILLIWATTS_PER_XFER_UNIT;
    }

    /** One more event makes one more step of the ledger. */
    lemma Recorded(e: Event)
      requires Valid() && e.dev < ioCountKb.Length
      ensures AllFit(NoBooks(ioCountKb.Length), run + [e]) && Fits(Books(), e)
      ensures After(NoBooks(ioCountKb.Length), run + [e], |run + [e]|) == Apply(Books(), e)
    {
      AfterPrefix(NoBooks(ioCountKb.Length), run, e, |run|);
    }

    /** The objects' books balance: 1024 times the buffered kilobytes plus the counter is
        the bytes passed with success. */
    lemma Balances()
      requires Valid()
      ensures MAD_XFER_UNIT_SIZE * (Total(ioCountKb[..]) - DmaKb(run, |run|)) + runningCount == SuccessBytes(run, |run|)
    {
      Conservation(NoBooks(ioCountKb.Length), run, |run|);
      NothingYet(ioCountKb.Length, ioCountKb.Length);
    }

    /** So is every device's power. */
    lemma DeviceBalances(d: nat)
      requires Valid() && d < ioCountKb.Length
      ensures OwnDmaKb(run, d, |run|) <= ioCountKb[d]
      ensures powerUsed[d] == MAD_MILLIWATTS_PER_XFER_UNIT * (ioCountKb[d] - OwnDmaKb(run, d, |run|))
                              + MAD_DMA_MILLIWATTS_PER_XFER_UNIT * OwnDmaRuns(run, d, |run|)
    {
      PowerOf(NoBooks(ioCountKb.Length), run, d, |run|);
    }
  }

  lemma {:induction false} NothingYet(devices: nat, j: nat)
    requires j <= devices
    ensures Sum(seq(devices, _ => 0), j) == 0
  {
    if j > 0 {
      NothingYet(devices, j - 1);
    }
  }
}
