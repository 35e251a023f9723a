/** The simulator's polling thread and its user-interface thread, synchronised by
    three manual-reset events and the window's message queue. Every call of the
    system's event and message functions is one step, and the two threads' steps
    interleave freely. */
module PollHandshake {
  import DeviceDriver
  import Registers
  import RequestProtocol

  datatype Msg = PollMsg | SetManualMsg | OtherMsg   // UWM_POLL, UWM_SET_MANUAL_MODE, UWM_PULSE and UWM_AUTO_*

  /** Where the polling thread is in its loop. */
  datatype ThreadPc =
    | WaitFreeRun | ResetStop | Sleeping | PostPulse | ResetPause | PostPoll | WaitPause | SetStop | SwitchMode

  /** What the user-interface thread is doing: nothing, OnPoll before its SetEvent, or
      one of the three calls of OnSetManualMode. */
  datatype UiPc = Idle | InPoll | ManualSetPause | ManualResetFreeRun | ManualWaitStop

  datatype RunMode = Manual | AutoDuplex

  datatype Sim = Sim(
    freeRun: bool, stop: bool, pause: bool, queue: seq<Msg>, thread: ThreadPc, ui: UiPc,
    runMode: RunMode, bManual: bool, bAutoDuplex: bool)

  /** OnInitDialog. */
  ghost predicate Initial(s: Sim) {
    s == Sim(false, true, false, [], WaitFreeRun, Idle, Manual, true, false)
  }

  datatype Step =
    | Thread(extra: nat)   // extra: how many UWM_AUTO_* messages the mode switch posts
    | Ui                   // next call of the handler, or the next message
    | Timeout              // the wait for Stop runs out
    | ClickManual
    | ClickAuto

  function Others(n: nat): (r: seq<Msg>)
    ensures |r| == n && forall i :: 0 <= i < n ==> r[i] == OtherMsg
  {
    seq(n, _ => OtherMsg)
  }

  predicate Enabled(s: Sim, step: Step) {
    match step
    case Thread(extra) =>
      && (s.thread == WaitFreeRun ==> s.freeRun)
      && (s.thread == WaitPause ==> s.pause)
      && extra <= (if s.thread == SwitchMode && s.runMode == AutoDuplex then 2 else 0)
    case Ui =>
      && (s.ui == Idle ==> s.queue != [])
      && (s.ui == ManualWaitStop ==> s.stop)
    case Timeout => s.ui == ManualWaitStop && !s.stop
    case ClickManual => s.ui == Idle
    case ClickAuto => s.ui == Idle
  }

  /** One call of the polling thread's loop. */
  function ThreadStep(s: Sim, extra: nat): Sim {
    match s.thread
    case WaitFreeRun => s.(thread := ResetStop)
    case ResetStop => s.(stop := false, thread := Sleeping)
    case Sleeping => s.(thread := PostPulse)
    case PostPulse => s.(queue := s.queue + [OtherMsg], thread := ResetPause)
    case ResetPause => s.(pause := false, thread := PostPoll)
    case PostPoll => s.(queue := s.queue + [PollMsg], thread := WaitPause)
    case WaitPause => s.(thread := SetStop)
    case SetStop => s.(stop := true, thread := SwitchMode)
    case SwitchMode => s.(queue := s.queue + Others(extra), thread := WaitFreeRun)
  }

  /** One call of a message handler, or the dispatch of the next message. */
  function UiStep(s: Sim): Sim {
    match s.ui
    case Idle =>
      if s.queue == [] then s
      else
        s.(queue := s.queue[1..],
           ui := match s.queue[0] case PollMsg => InPoll case SetManualMsg => ManualSetPause case OtherMsg => Idle)
    case InPoll => s.(pause := true, ui := Idle)
    case ManualSetPause => s.(pause := true, ui := ManualResetFreeRun)
    case ManualResetFreeRun => s.(freeRun := false, ui := ManualWaitStop)
    case ManualWaitStop => s.(bManual := true, bAutoDuplex := false, ui := Idle)
  }

  function SetRunMode(s: Sim, mode: RunMode): Sim {
    s.(runMode := mode, bManual := mode == Manual, bAutoDuplex := mode == AutoDuplex)
  }

  function Next(s: Sim, step: Step): Sim {
    match step
    case Thread(extra) => ThreadStep(s, extra)
    case Ui => UiStep(s)
    case Timeout => s.(queue := s.queue + [SetManualMsg], ui := Idle)
    case ClickManual => if s.bManual then s else SetRunMode(s, Manual).(queue := s.queue + [SetManualMsg])
    case ClickAuto => if !s.bManual then s else SetRunMode(s, AutoDuplex).(freeRun := true)
  }

  /** The state after the first j steps. */
  function After(s: Sim, run: seq<Step>, j: nat): Sim
    requires j <= |run|
  {
    if j == 0 then s else Next(After(s, run, j - 1), run[j - 1])
  }

  /** Each of the first j steps was enabled when it was taken. */
  ghost predicate IsRun(s: Sim, run: seq<Step>, j: nat)
    requires j <= |run|
  {
    j == 0 || (IsRun(s, run, j - 1) && Enabled(After(s, run, j - 1), run[j - 1]))
  }

  // ----- no lost wake-up ---------------------------------------------------------------

  /** A poll thread waiting for a reset Pause event has a POLL message waiting for the
      user interface, or being handled there. */
  ghost predicate WakeUpComing(s: Sim) {
    s.thread == WaitPause && !s.pause ==> PollMsg in s.queue || s.ui == InPoll
  }

  /** The thread is outside the section between its reset and its set of Stop. */
  predicate OutsideCycle(s: Sim) {
    s.thread in {WaitFreeRun, ResetStop, SwitchMode}
  }

  ghost predicate Inv(s: Sim) {
    WakeUpComing(s) && (s.stop <==> OutsideCycle(s)) && (s.ui == ManualWaitStop ==> !s.freeRun)
  }

  lemma InvStep(s: Sim, step: Step)
    requires Inv(s) && Enabled(s, step)
    ensures Inv(Next(s, step))
  {
    var s' := Next(s, step);
    if step.Ui? && s.ui == Idle {
      assert s.queue == [s.queue[0]] + s'.queue;
    }
  }

  lemma {:induction false} InvFrom(s: Sim, run: seq<Step>, j: nat)
    requires Inv(s) && j <= |run| && IsRun(s, run, j)
    ensures Inv(After(s, run, j))
  {
    if j > 0 {
      hide Inv, Next, Enabled;
      InvFrom(s, run, j - 1);
      InvStep(After(s, run, j - 1), run[j - 1]);
    }
  }

  /** In every reachable state, whatever the interleaving, the clicks and the timeouts. */
  lemma InvRun(s: Sim, run: seq<Step>, j: nat)
    requires Initial(s) && j <= |run| && IsRun(s, run, j)
    ensures Inv(After(s, run, j))
  {
    InvFrom(s, run, j);
  }

  /** Nothing to do until the user clicks: the thread waits to be released and the
      user interface waits for a message. */
  predicate Parked(s: Sim) {
    s.thread == WaitFreeRun && !s.freeRun && s.ui == Idle && s.queue == []
  }

  /** The only state short of a parked one in which both threads wait: the user
      interface for Stop, the poll thread for Pause; the timeout resolves it. */
  predicate Stalemate(s: Sim) {
    s.ui == ManualWaitStop && s.thread == WaitPause && !s.pause
  }

  /** No deadlock: unless the simulator is parked, a thread or the user interface can
      go on, or the wait for Stop is the one that times out. */
  lemma NoDeadlock(s: Sim)
    requires Inv(s) && !Parked(s)
    ensures Stalemate(s) <==> !Enabled(s, Thread(0)) && !Enabled(s, Ui)
    ensures Stalemate(s) ==> Enabled(s, Timeout) && PollMsg in s.queue
  {
  }

  // ----- stopping -------------------------------------------------------------------------

  predicate IsClick(step: Step) {
    step.ClickManual? || step.ClickAuto?
  }

  /** How many POLL messages the thread posts before it next waits for FreeRun. */
  function PollsToPost(s: Sim): nat {
    if s.thread in {ResetStop, Sleeping, PostPulse, ResetPause, PostPoll} then 1 else 0
  }

  predicate PostsPoll(s: Sim, step: Step) {
    step.Thread? && s.thread == PostPoll
  }

  function PollsPosted(s: Sim, run: seq<Step>, j: nat): nat
    requires j <= |run|
  {
    if j == 0 then 0 else PollsPosted(s, run, j - 1) + if PostsPoll(After(s, run, j - 1), run[j - 1]) then 1 else 0
  }

  ghost predicate NoAutoStart(run: seq<Step>) {
    forall j :: 0 <= j < |run| ==> run[j] != ClickAuto
  }

  lemma PollStep(s: Sim, step: Step)
    requires !s.freeRun && Enabled(s, step) && step != ClickAuto
    ensures var s' := Next(s, step);
      !s'.freeRun && PollsToPost(s') + (if PostsPoll(s, step) then 1 else 0) == PollsToPost(s) <= 1
  {
  }

  /** Once FreeRun is reset and auto mode is not started again, the thread posts at
      most one more POLL, and no more than its position says. */
  lemma {:induction false} AtMostOneMorePoll(s: Sim, run: seq<Step>, j: nat)
    requires !s.freeRun && j <= |run| && IsRun(s, run, j) && NoAutoStart(run)
    ensures var t := After(s, run, j);
      !t.freeRun && PollsPosted(s, run, j) + PollsToPost(t) == PollsToPost(s) <= 1
  {
    if j > 0 {
      hide Next, Enabled, PollsToPost, PostsPoll;
      AtMostOneMorePoll(s, run, j - 1);
      PollStep(After(s, run, j - 1), run[j - 1]);
    }
  }

  // ----- the measure -------------------------------------------------------------------------

  /** Steps the thread can still cause before it waits for FreeRun. */
  function ThreadWeight(pc: ThreadPc): nat {
    match pc
    case WaitFreeRun => 0
    case SwitchMode => 3
    case SetStop => 4
    case WaitPause => 5
    case PostPoll => 8
    case ResetPause => 9
    case PostPulse => 11
    case Sleeping => 12
    case ResetStop => 13
  }

  function UiWeight(ui: UiPc): nat {
    match ui
    case Idle => 0
    case InPoll => 1
    case ManualWaitStop => 1
    case ManualResetFreeRun => 2
    case ManualSetPause => 3
  }

  function MsgWeight(m: Msg): nat {
    match m
    case OtherMsg => 1
    case PollMsg => 2
    case SetManualMsg => 4
  }

  function QueueWeight(q: seq<Msg>, j: nat): nat
    requires j <= |q|
    decreases |q| - j
  {
    if j == |q| then 0 else MsgWeight(q[j]) + QueueWeight(q, j + 1)
  }

  function Measure(s: Sim): nat {
    ThreadWeight(s.thread) + UiWeight(s.ui) + QueueWeight(s.queue, 0)
  }

  lemma {:induction false} WeightAppend(q: seq<Msg>, m: seq<Msg>, j: nat)
    requires j <= |q|
    ensures QueueWeight(q + m, j) == QueueWeight(q, j) + QueueWeight(m, 0)
    decreases |q| - j
  {
    if j < |q| {
      WeightAppend(q, m, j + 1);
    } else {
      WeightShift(q, m, 0);
    }
  }

  lemma {:induction false} WeightShift(q: seq<Msg>, m: seq<Msg>, j: nat)
    requires j <= |m|
    ensures QueueWeight(q + m, |q| + j) == QueueWeight(m, j)
    decreases |m| - j
  {
    if j < |m| {
      WeightShift(q, m, j + 1);
    }
  }

  lemma {:induction false} WeightOfOthers(n: nat, j: nat)
    requires j <= n
    ensures QueueWeight(Others(n), j) == n - j
    decreases n - j
  {
    if j < n {
      WeightOfOthers(n, j + 1);
    }
  }

  lemma WeightPosted(q: seq<Msg>, m: Msg)
    ensures QueueWeight(q + [m], 0) == QueueWeight(q, 0) + MsgWeight(m)
  {
    WeightAppend(q, [m], 0);
  }

  lemma ThreadStepFalls(s: Sim, extra: nat)
    requires !s.freeRun && Enabled(s, Thread(extra))
    ensures !ThreadStep(s, extra).freeRun && Measure(ThreadStep(s, extra)) < Measure(s)
  {
    hide QueueWeight, Others;
    match s.thread {
      case PostPulse => WeightPosted(s.queue, OtherMsg);
      case PostPoll => WeightPosted(s.queue, PollMsg);
      case SwitchMode =>
        WeightAppend(s.queue, Others(extra), 0);
        WeightOfOthers(extra, 0);
      case _ =>
    }
  }

  lemma UiStepFalls(s: Sim)
    requires !s.freeRun && Enabled(s, Ui)
    ensures !UiStep(s).freeRun && Measure(UiStep(s)) < Measure(s)
  {
    if s.ui == Idle {
      WeightShift([s.queue[0]], s.queue[1..], 0);
      assert [s.queue[0]] + s.queue[1..] == s.queue;
    }
  }

  /** With FreeRun reset and no click, every step but a timeout lowers the measure; a
      timeout, which posts the manual request again, raises it by 3. */
  lemma MeasureFalls(s: Sim, step: Step)
    requires !s.freeRun && Enabled(s, step) && !IsClick(step)
    ensures !Next(s, step).freeRun
    ensures if step.Timeout? then Measure(Next(s, step)) == Measure(s) + 3 else Measure(Next(s, step)) < Measure(s)
  {
    match step
    case Thread(extra) =>
      hide Measure, ThreadStep;
      ThreadStepFalls(s, extra);
    case Ui =>
      hide Measure, UiStep;
      UiStepFalls(s);
    case Timeout =>
      WeightAppend(s.queue, [SetManualMsg], 0);
  }

  function Timeouts(run: seq<Step>, j: nat): nat
    requires j <= |run|
  {
    if j == 0 then 0 else Timeouts(run, j - 1) + if run[j - 1].Timeout? then 1 else 0
  }

  ghost predicate NoClicks(run: seq<Step>) {
    forall j :: 0 <= j < |run| ==> !IsClick(run[j])
  }

  /** So every such run with k timeouts ends after at most Measure + 4 * k steps: the
      simulator quiesces if the timeouts do. */
  lemma {:induction false} RunsAreBounded(s: Sim, run: seq<Step>, j: nat)
    requires !s.freeRun && j <= |run| && IsRun(s, run, j) && NoClicks(run)
    ensures var t := After(s, run, j);
      !t.freeRun && j + Measure(t) <= Measure(s) + 4 * Timeouts(run, j)
  {
    if j > 0 {
      hide Measure, Next, Enabled, IsClick;
      RunsAreBounded(s, run, j - 1);
      MeasureFalls(After(s, run, j - 1), run[j - 1]);
    }
  }

  /** In a reachable state nothing but a click can happen exactly when the simulator is
      parked. */
  lemma QuiescentIffParked(s: Sim)
    requires Inv(s)
    ensures Parked(s) <==> !Enabled(s, Thread(0)) && !Enabled(s, Ui) && !Enabled(s, Timeout)
  {
    if !Parked(s) {
      NoDeadlock(s);
    }
  }

  /** So every click-free run that cannot be continued, whatever its interleaving and its
      timeouts, has parked the simulator, within the bound. */
  lemma MaximalRunParks(s: Sim, run: seq<Step>)
    requires Inv(s) && !s.freeRun && IsRun(s, run, |run|) && NoClicks(run)
    requires var t := After(s, run, |run|); !Enabled(t, Thread(0)) && !Enabled(t, Ui) && !Enabled(t, Timeout)
    ensures Parked(After(s, run, |run|)) && |run| <= Measure(s) + 4 * Timeouts(run, |run|)
  {
    hide Inv, Enabled, Measure, IsClick;
    InvFrom(s, run, |run|);
    QuiescentIffParked(After(s, run, |run|));
    RunsAreBounded(s, run, |run|);
  }

  // ----- forced timeouts -----------------------------------------------------------------------

  /** Whether a stalemate can still come about before the thread parks. */
  function StalematesLeft(s: Sim): nat {
    if s.thread in {ResetStop, Sleeping, PostPulse, ResetPause} then 1
    else if s.thread in {PostPoll, WaitPause} && !s.pause && s.ui in {ManualResetFreeRun, ManualWaitStop} then 1
    else 0
  }

  function ForcedTimeouts(s: Sim, run: seq<Step>, j: nat): nat
    requires j <= |run|
  {
    if j == 0 then 0
    else ForcedTimeouts(s, run, j - 1) + if run[j - 1].Timeout? && Stalemate(After(s, run, j - 1)) then 1 else 0
  }

  lemma StalemateStep(s: Sim, step: Step)
    requires !s.freeRun && Enabled(s, step) && !IsClick(step)
    ensures var s' := Next(s, step);
      !s'.freeRun && StalematesLeft(s') + (if step.Timeout? && Stalemate(s) then 1 else 0) <= StalematesLeft(s) <= 1
  {
  }

  /** Once FreeRun is reset, at most one timeout is needed to stop the thread. */
  lemma {:induction false} AtMostOneForcedTimeout(s: Sim, run: seq<Step>, j: nat)
    requires !s.freeRun && j <= |run| && IsRun(s, run, j) && NoClicks(run)
    ensures var t := After(s, run, j);
      !t.freeRun && ForcedTimeouts(s, run, j) + StalematesLeft(t) <= StalematesLeft(s) <= 1
  {
    if j > 0 {
      hide Next, Enabled, StalematesLeft, Stalemate, IsClick;
      AtMostOneForcedTimeout(s, run, j - 1);
      StalemateStep(After(s, run, j - 1), run[j - 1]);
    }
  }

  // ----- the thread waits for its poll to be handled ------------------------------------------

  function PollsIn(q: seq<Msg>, j: nat): nat
    requires j <= |q|
    decreases |q| - j
  {
    if j == |q| then 0 else (if q[j] == PollMsg then 1 else 0) + PollsIn(q, j + 1)
  }

  /** POLL messages that are queued or being handled. */
  function Unhandled(s: Sim): nat {
    PollsIn(s.queue, 0) + if s.ui == InPoll then 1 else 0
  }

  /** How often a manual handler has set Pause among the first j steps. */
  function ManualReleases(s: Sim, run: seq<Step>, j: nat): nat
    requires j <= |run|
  {
    if j == 0 then 0
    else ManualReleases(s, run, j - 1) + if run[j - 1].Ui? && After(s, run, j - 1).ui == ManualSetPause then 1 else 0
  }

  lemma {:induction false} PollsAppend(q: seq<Msg>, m: seq<Msg>, j: nat)
    requires j <= |q|
    ensures PollsIn(q + m, j) == PollsIn(q, j) + PollsIn(m, 0)
    decreases |q| - j
  {
    if j < |q| {
      PollsAppend(q, m, j + 1);
    } else {
      PollsShift(q, m, 0);
    }
  }

  lemma {:induction false} PollsShift(q: seq<Msg>, m: seq<Msg>, j: nat)
    requires j <= |m|
    ensures PollsIn(q + m, |q| + j) == PollsIn(m, j)
    decreases |m| - j
  {
    if j < |m| {
      PollsShift(q, m, j + 1);
    }
  }

  lemma {:induction false} NoPollsIn(q: seq<Msg>, j: nat)
    requires j <= |q| && forall i :: 0 <= i < |q| ==> q[i] != PollMsg
    ensures PollsIn(q, j) == 0
    decreases |q| - j
  {
    if j < |q| {
      NoPollsIn(q, j + 1);
    }
  }

  lemma {:induction false} NoPollIsQueued(q: seq<Msg>, j: nat)
    requires j <= |q| && PollsIn(q, j) == 0
    ensures forall i :: j <= i < |q| ==> q[i] != PollMsg
    decreases |q| - j
  {
    if j < |q| {
      NoPollIsQueued(q, j + 1);
    }
  }

  /** A set Pause is used up by one unhandled POLL: the thread's own, or one that a
      manual handler lets pass. */
  ghost predicate PollsBounded(s: Sim, released: nat) {
    if s.thread == WaitPause then Unhandled(s) + (if s.pause then 1 else 0) <= released + 1
    else if s.thread == PostPoll then Unhandled(s) + (if s.pause then 1 else 0) <= released
    else Unhandled(s) <= released
  }

  lemma ThreadKeepsBound(s: Sim, extra: nat, released: nat)
    requires PollsBounded(s, released) && Enabled(s, Thread(extra))
    ensures PollsBounded(ThreadStep(s, extra), released)
  {
    hide PollsIn, Others;
    match s.thread {
      case PostPulse =>
        PollsAppend(s.queue, [OtherMsg], 0);
        NoPollsIn([OtherMsg], 0);
      case PostPoll =>
        PollsAppend(s.queue, [PollMsg], 0);
        OnePoll();
      case SwitchMode =>
        PollsAppend(s.queue, Others(extra), 0);
        NoPollsIn(Others(extra), 0);
      case _ =>
    }
  }

  lemma OnePoll()
    ensures PollsIn([PollMsg], 0) == 1
  {
    assert PollsIn([PollMsg], 1) == 0;
  }

  lemma UiKeepsBound(s: Sim, released: nat)
    requires PollsBounded(s, released) && Enabled(s, Ui)
    ensures PollsBounded(UiStep(s), released + if s.ui == ManualSetPause then 1 else 0)
  {
    if s.ui == Idle {
      PollsShift([s.queue[0]], s.queue[1..], 0);
      assert [s.queue[0]] + s.queue[1..] == s.queue;
      assert PollsIn(s.queue, 0) == (if s.queue[0] == PollMsg then 1 else 0) + PollsIn(s.queue, 1);
    }
    hide PollsIn;
  }

  lemma PostKeepsBound(s: Sim, released: nat, m: Msg)
    requires PollsBounded(s, released) && m != PollMsg && s.ui != InPoll
    ensures PollsBounded(s.(queue := s.queue + [m]), released)
  {
    PollsAppend(s.queue, [m], 0);
    NoPollsIn([m], 0);
    hide PollsIn;
  }

  lemma StepKeepsBound(s: Sim, step: Step, released: nat)
    requires PollsBounded(s, released) && Enabled(s, step)
    ensures PollsBounded(Next(s, step), released + if step.Ui? && s.ui == ManualSetPause then 1 else 0)
  {
    match step
    case Thread(extra) =>
      hide PollsBounded, ThreadStep;
      ThreadKeepsBound(s, extra, released);
    case Ui =>
      hide PollsBounded, UiStep;
      UiKeepsBound(s, released);
    case Timeout =>
      PostKeepsBound(s, released, SetManualMsg);
      hide PollsIn;
    case ClickManual =>
      PostKeepsBound(s, released, SetManualMsg);
      hide PollsIn;
    case ClickAuto =>
      hide PollsIn;
  }

  /** Every unhandled POLL but the one the thread waits for goes back to a manual handler
      that set Pause. */
  lemma {:induction false} PollsAreBounded(s: Sim, run: seq<Step>, j: nat)
    requires Initial(s) && j <= |run| && IsRun(s, run, j)
    ensures PollsBounded(After(s, run, j), ManualReleases(s, run, j))
  {
    if j > 0 {
      hide PollsBounded, Next, Enabled, Initial;
      PollsAreBounded(s, run, j - 1);
      StepKeepsBound(After(s, run, j - 1), run[j - 1], ManualReleases(s, run, j - 1));
    }
  }

  /** As long as no manual handler has set Pause there is at most one unhandled POLL, and
      only while the thread waits for it: the thread sets Stop only after the POLL of its
      cycle has been handled. With k such handlers at most k POLLs more are left. */
  lemma StopAfterPollHandled(s: Sim, run: seq<Step>, j: nat)
    requires Initial(s) && j <= |run| && IsRun(s, run, j)
    ensures var t, k := After(s, run, j), ManualReleases(s, run, j);
      && Unhandled(t) <= k + 1 && (t.thread != WaitPause ==> Unhandled(t) <= k)
      && (k == 0 && (t.thread != WaitPause || t.pause) ==> PollMsg !in t.queue && t.ui != InPoll)
  {
    hide After, ManualReleases, IsRun, Initial, PollsIn;
    PollsAreBounded(s, run, j);
    var t := After(s, run, j);
    if Unhandled(t) == 0 {
      NoPollIsQueued(t.queue, 0);
    }
  }

  /** A manual handler between the thread's reset of Pause and its wait does let it pass:
      the thread is about to set Stop with its POLL still queued. */
  lemma ManualLeavesPoll(s: Sim)
    requires Initial(s)
    ensures IsRun(s, PASSING, 11)
    ensures var t := After(s, PASSING, 11);
      t.thread == SetStop && t.queue == [OtherMsg, PollMsg] && ManualReleases(s, PASSING, 11) == 1
  {
    PassingSix(s);
    hide After, IsRun, ManualReleases, Initial;
    var s6 := After(s, PASSING, 6);
    var s7 := s6.(pause := false, thread := PostPoll);
    OneMoreStep(s, PASSING, 6, s6, s7);
    var s8 := s7.(queue := [SetManualMsg, OtherMsg, PollMsg], thread := WaitPause);
    OneMoreStep(s, PASSING, 7, s7, s8);
    PassingLast(s, s8);
  }

  const PASSING: seq<Step> :=
    [ClickAuto, Thread(0), Thread(0), Thread(0), ClickManual, Thread(0), Thread(0), Thread(0), Ui, Ui, Thread(0)]

  lemma PassingThree(s: Sim)
    requires Initial(s)
    ensures IsRun(s, PASSING, 3) && ManualReleases(s, PASSING, 3) == 0
    ensures After(s, PASSING, 3)
         == s.(runMode := AutoDuplex, bManual := false, bAutoDuplex := true, freeRun := true, thread := Sleeping, stop := false)
  {
    hide After, IsRun, ManualReleases;
    RunStarts(s, PASSING);
    var s1 := s.(runMode := AutoDuplex, bManual := false, bAutoDuplex := true, freeRun := true);
    OneMoreStep(s, PASSING, 0, s, s1);
    var s2 := s1.(thread := ResetStop);
    OneMoreStep(s, PASSING, 1, s1, s2);
    OneMoreStep(s, PASSING, 2, s2, s2.(stop := false, thread := Sleeping));
  }

  lemma PassingSix(s: Sim)
    requires Initial(s)
    ensures IsRun(s, PASSING, 6) && ManualReleases(s, PASSING, 6) == 0
    ensures var t := After(s, PASSING, 6); t.thread == ResetPause && t.queue == [SetManualMsg, OtherMsg] && t.ui == Idle
  {
    PassingThree(s);
    hide After, IsRun, ManualReleases;
    var s3 := After(s, PASSING, 3);
    var s4 := s3.(thread := PostPulse);
    OneMoreStep(s, PASSING, 3, s3, s4);
    var s5 := s4.(runMode := Manual, bManual := true, bAutoDuplex := false, queue := [SetManualMsg]);
    OneMoreStep(s, PASSING, 4, s4, s5);
    OneMoreStep(s, PASSING, 5, s5, s5.(queue := [SetManualMsg, OtherMsg], thread := ResetPause));
  }

  lemma PassingLast(s: Sim, s8: Sim)
    requires IsRun(s, PASSING, 8) && After(s, PASSING, 8) == s8 && ManualReleases(s, PASSING, 8) == 0
    requires s8.thread == WaitPause && s8.queue == [SetManualMsg, OtherMsg, PollMsg] && s8.ui == Idle
    ensures IsRun(s, PASSING, 11)
    ensures var t := After(s, PASSING, 11);
      t.thread == SetStop && t.queue == [OtherMsg, PollMsg] && ManualReleases(s, PASSING, 11) == 1
  {
    hide After, IsRun, ManualReleases;
    var s9 := s8.(queue := [OtherMsg, PollMsg], ui := ManualSetPause);
    OneMoreStep(s, PASSING, 8, s8, s9);
    var s10 := s9.(pause := true, ui := ManualResetFreeRun);
    OneMoreStep(s, PASSING, 9, s9, s10);
    OneMoreStep(s, PASSING, 10, s10, s10.(thread := SetStop));
  }

  lemma RunStarts(s: Sim, run: seq<Step>)
    ensures IsRun(s, run, 0) && After(s, run, 0) == s && ManualReleases(s, run, 0) == 0
  {
  }

  lemma OneMoreStep(s: Sim, run: seq<Step>, j: nat, t: Sim, t': Sim)
    requires j < |run| && IsRun(s, run, j) && After(s, run, j) == t && Enabled(t, run[j]) && Next(t, run[j]) == t'
    ensures IsRun(s, run, j + 1) && After(s, run, j + 1) == t'
    ensures ManualReleases(s, run, j + 1) == ManualReleases(s, run, j) + if run[j].Ui? && t.ui == ManualSetPause then 1 else 0
  {
    hide Next, Enabled;
  }

  // ----- what a successful wait for Stop means -------------------------------------------------

  lemma {:induction false} AfterCons(s: Sim, step: Step, run: seq<Step>, j: nat)
    requires j <= |run|
    ensures After(s, [step] + run, j + 1) == After(Next(s, step), run, j)
    ensures Enabled(s, step) && IsRun(Next(s, step), run, j) ==> IsRun(s, [step] + run, j + 1)
  {
    hide Next, Enabled;
    if j == 0 {
      assert After(s, [step] + run, 0) == s;
    } else {
      AfterCons(s, step, run, j - 1);
    }
  }

  /** Short of a parked state some step makes progress: one that lowers the measure, or
      the timeout that resolves a stalemate. */
  lemma Progress(s: Sim) returns (step: Step)
    requires Inv(s) && !s.freeRun && !Parked(s)
    ensures Enabled(s, step) && !IsClick(step) && Inv(Next(s, step)) && !Next(s, step).freeRun
    ensures StalematesLeft(Next(s, step)) < StalematesLeft(s)
         || (StalematesLeft(Next(s, step)) == StalematesLeft(s) && Measure(Next(s, step)) < Measure(s))
  {
    NoDeadlock(s);
    step := if Stalemate(s) then Timeout else if Enabled(s, Thread(0)) then Thread(0) else Ui;
    hide Inv, Next, Enabled, Measure, StalematesLeft, Stalemate;
    InvStep(s, step);
    StalemateStep(s, step);
    MeasureFalls(s, step);
  }

  lemma NoClicksCons(step: Step, run: seq<Step>)
    requires !IsClick(step) && NoClicks(run)
    ensures NoClicks([step] + run)
  {
    hide IsClick;
  }

  /** Some click-free run parks the simulator: there is at most one stalemate to time out. */
  lemma {:induction false} RunToPark(s: Sim) returns (run: seq<Step>)
    requires Inv(s) && !s.freeRun
    ensures IsRun(s, run, |run|) && NoClicks(run) && Parked(After(s, run, |run|))
    decreases StalematesLeft(s), Measure(s)
  {
    hide Inv, Next, Enabled, Measure, StalematesLeft, IsClick, Parked, NoClicks;
    if Parked(s) {
      NoClicksAtAll();
      return [];
    }
    var step := Progress(s);
    var rest := RunToPark(Next(s, step));
    AfterCons(s, step, rest, |rest|);
    NoClicksCons(step, rest);
    return [step] + rest;
  }

  lemma NoClicksAtAll()
    ensures NoClicks([])
  {
  }

  /** When a manual request's wait for Stop succeeds the thread need not have stopped:
      if it had just been released it goes through one more cycle. Every run from there
      to a parked state without another auto start posts one more POLL in exactly that
      case, and none otherwise. */
  lemma StopCatchesThreadUnless(s: Sim, run: seq<Step>)
    requires Inv(s) && s.ui == ManualWaitStop && Enabled(s, Ui)
    requires IsRun(Next(s, Ui), run, |run|) && NoAutoStart(run) && Parked(After(Next(s, Ui), run, |run|))
    ensures PollsPosted(Next(s, Ui), run, |run|) == if s.thread == ResetStop then 1 else 0
  {
    var s1 := Next(s, Ui);
    assert !s1.freeRun && s1.thread == s.thread && OutsideCycle(s);
    hide Inv, Next, Enabled;
    AtMostOneMorePoll(s1, run, |run|);
  }

  /** The case comes about: auto mode is started, the thread is released, and manual mode
      is asked for and handled before the thread resets Stop. */
  lemma StopMissesThread(s: Sim)
    requires Initial(s)
    ensures var run := [ClickAuto, Thread(0), ClickManual, Ui, Ui, Ui];
      && IsRun(s, run, 6)
      && var t := After(s, run, 6); t.ui == ManualWaitStop && Enabled(t, Ui) && t.thread == ResetStop
  {
    var run := [ClickAuto, Thread(0), ClickManual, Ui, Ui, Ui];
    assert After(s, run, 0) == s;
    assert After(s, run, 1).freeRun && After(s, run, 1).thread == WaitFreeRun && After(s, run, 1).queue == [] && !After(s, run, 1).bManual;
    assert After(s, run, 2).thread == ResetStop && After(s, run, 2).queue == [] && After(s, run, 2).stop;
    assert After(s, run, 3).queue == [SetManualMsg] && After(s, run, 3).thread == ResetStop;
    assert After(s, run, 4).ui == ManualSetPause && After(s, run, 4).thread == ResetStop;
    assert After(s, run, 5).ui == ManualResetFreeRun && After(s, run, 5).thread == ResetStop;
  }

  // ----- run mode and flags ----------------------------------------------------------------------

  predicate FlagsAgree(s: Sim) {
    s.bManual == (s.runMode == Manual) && s.bAutoDuplex == (s.runMode == AutoDuplex)
  }

  /** A manual request is posted or being handled. */
  predicate ManualOutstanding(s: Sim) {
    SetManualMsg in s.queue || s.ui in {ManualSetPause, ManualResetFreeRun, ManualWaitStop}
  }

  ghost predicate ModeInv(s: Sim) {
    FlagsAgree(s) && (ManualOutstanding(s) ==> s.runMode == Manual)
  }

  /** A step keeps flags and run mode in agreement, and a manual request outstanding only
      in manual mode, exactly if it does not start auto mode over an outstanding request.
      Right after such a click flags and mode still agree; it is the handler of the
      request that then sets the manual flag in automatic mode. */
  lemma ModeStepIff(s: Sim, step: Step)
    requires ModeInv(s) && Enabled(s, step)
    ensures ModeInv(Next(s, step)) <==> !(step.ClickAuto? && ManualOutstanding(s))
  {
    var s' := Next(s, step);
    if step.Ui? && s.ui == Idle {
      assert s.queue == [s.queue[0]] + s'.queue;
    }
  }

  lemma ManualHandlerAgreesIff(s: Sim)
    requires FlagsAgree(s) && s.ui == ManualWaitStop && Enabled(s, Ui)
    ensures FlagsAgree(Next(s, Ui)) <==> s.runMode == Manual
  {
  }

  /** Among the first j steps auto mode is started only with no manual request outstanding. */
  ghost predicate AutoAfterManual(s: Sim, run: seq<Step>, j: nat)
    requires j <= |run|
  {
    j == 0 || (AutoAfterManual(s, run, j - 1) && (run[j - 1].ClickAuto? ==> !ManualOutstanding(After(s, run, j - 1))))
  }

  ghost predicate AlwaysModeInv(s: Sim, run: seq<Step>, j: nat)
    requires j <= |run|
  {
    ModeInv(After(s, run, j)) && (j == 0 || AlwaysModeInv(s, run, j - 1))
  }

  /** Over a whole run, too. */
  lemma {:induction false} ModesAgreeIff(s: Sim, run: seq<Step>, j: nat)
    requires Initial(s) && j <= |run| && IsRun(s, run, j)
    ensures AlwaysModeInv(s, run, j) <==> AutoAfterManual(s, run, j)
  {
    if j > 0 {
      hide ModeInv, Next, Enabled, ManualOutstanding, Initial;
      ModesAgreeIff(s, run, j - 1);
      if AutoAfterManual(s, run, j - 1) {
        ModeStepIff(After(s, run, j - 1), run[j - 1]);
      }
    }
  }

  ghost predicate AlwaysAgree(s: Sim, run: seq<Step>, j: nat)
    requires j <= |run|
  {
    FlagsAgree(After(s, run, j)) && (j == 0 || AlwaysAgree(s, run, j - 1))
  }

  /** The last click among the first j steps was the one on auto mode. */
  predicate LastClickAuto(run: seq<Step>, j: nat)
    requires j <= |run|
  {
    j > 0 && (run[j - 1].ClickAuto? || (!run[j - 1].ClickManual? && LastClickAuto(run, j - 1)))
  }

  /** Whenever a manual request's handler finished, the last click was not on auto mode. */
  ghost predicate HandledBeforeAuto(s: Sim, run: seq<Step>, j: nat)
    requires j <= |run|
  {
    j == 0
    || (HandledBeforeAuto(s, run, j - 1)
        && (run[j - 1].Ui? && After(s, run, j - 1).ui == ManualWaitStop ==> !LastClickAuto(run, j - 1)))
  }

  lemma AgreeStepIff(s: Sim, step: Step)
    requires FlagsAgree(s) && Enabled(s, step)
    ensures FlagsAgree(Next(s, step)) <==> !(step.Ui? && s.ui == ManualWaitStop && s.runMode == AutoDuplex)
    ensures step.ClickAuto? ==> Next(s, step).runMode == AutoDuplex
    ensures step.ClickManual? ==> Next(s, step).runMode == Manual
    ensures !IsClick(step) ==> Next(s, step).runMode == s.runMode
  {
  }

  /** As long as flags and mode agree the mode is the one last clicked. */
  lemma {:induction false} ModeIsLastClick(s: Sim, run: seq<Step>, j: nat)
    requires Initial(s) && j <= |run| && IsRun(s, run, j) && (j > 0 ==> AlwaysAgree(s, run, j - 1))
    ensures After(s, run, j).runMode == AutoDuplex <==> LastClickAuto(run, j)
  {
    if j > 0 {
      ModeIsLastClick(s, run, j - 1);
      hide FlagsAgree, Next, Enabled, Initial;
      AgreeStepIff(After(s, run, j - 1), run[j - 1]);
    }
  }

  /** Flags and run mode agree at every point of a run exactly if no manual request was
      handled after auto mode had been clicked again. */
  lemma {:induction false} FlagsAgreeIff(s: Sim, run: seq<Step>, j: nat)
    requires Initial(s) && j <= |run| && IsRun(s, run, j)
    ensures AlwaysAgree(s, run, j) <==> HandledBeforeAuto(s, run, j)
  {
    if j > 0 {
      FlagsAgreeIff(s, run, j - 1);
      if AlwaysAgree(s, run, j - 1) {
        ModeIsLastClick(s, run, j - 1);
        hide FlagsAgree, Next, Enabled, Initial;
        AgreeStepIff(After(s, run, j - 1), run[j - 1]);
      }
    }
  }

  /** A manual request that will still reset FreeRun. */
  predicate ResetToCome(s: Sim) {
    SetManualMsg in s.queue || s.ui in {ManualSetPause, ManualResetFreeRun}
  }

  lemma ReleaseStep(s: Sim, step: Step)
    requires Enabled(s, step) && (s.runMode == Manual && s.freeRun ==> ResetToCome(s))
    ensures var s' := Next(s, step); s'.runMode == Manual && s'.freeRun ==> ResetToCome(s')
  {
    if step.Ui? && s.ui == Idle {
      assert s.queue == [s.queue[0]] + Next(s, step).queue;
    }
  }

  lemma AutoStep(s: Sim, step: Step)
    requires Enabled(s, step) && ModeInv(s) && (s.runMode == AutoDuplex ==> s.freeRun)
    ensures var s' := Next(s, step); s'.runMode == AutoDuplex ==> s'.freeRun
  {
  }

  /** A click on manual mode always ends the polling: in manual mode the thread is released
      only while a request that resets FreeRun is on its way. And as long as auto mode is
      started only with no manual request outstanding, auto mode means polling. */
  lemma {:induction false} ReleasedInAutoMode(s: Sim, run: seq<Step>, j: nat)
    requires Initial(s) && j <= |run| && IsRun(s, run, j)
    ensures var t := After(s, run, j);
      && (t.runMode == Manual && t.freeRun ==> ResetToCome(t))
      && (AutoAfterManual(s, run, j) && t.runMode == AutoDuplex ==> t.freeRun)
  {
    if j > 0 {
      ReleasedInAutoMode(s, run, j - 1);
      ModesAgreeIff(s, run, j - 1);
      hide Next, Enabled, Initial, ResetToCome, ModeInv;
      ReleaseStep(After(s, run, j - 1), run[j - 1]);
      if AutoAfterManual(s, run, j) {
        AutoStep(After(s, run, j - 1), run[j - 1]);
      }
    }
  }

  /** Auto, manual, auto again before the request is handled: the simulator ends with
      the manual flag set, auto polling off, and the run mode automatic. */
  lemma HastyAutoDisagrees(s: Sim)
    requires Initial(s)
    ensures var run := [ClickAuto, ClickManual, ClickAuto, Ui, Ui, Ui, Ui];
      && IsRun(s, run, 7)
      && var t := After(s, run, 7); t.bManual && !t.freeRun && t.runMode == AutoDuplex
  {
    var run := [ClickAuto, ClickManual, ClickAuto, Ui, Ui, Ui, Ui];
    assert After(s, run, 0) == s;
    assert After(s, run, 1).runMode == AutoDuplex && After(s, run, 1).queue == [] && !After(s, run, 1).bManual;
    assert After(s, run, 2).queue == [SetManualMsg] && After(s, run, 2).bManual;
    assert After(s, run, 3).queue == [SetManualMsg] && After(s, run, 3).runMode == AutoDuplex;
    assert After(s, run, 4).ui == ManualSetPause && After(s, run, 4).stop;
    assert After(s, run, 5).ui == ManualResetFreeRun;
    assert After(s, run, 6).ui == ManualWaitStop && After(s, run, 6).stop;
  }

  // ----- the dialog in place ---------------------------------------------------------------------------

  lemma StepKeeps(s: Sim, step: Step, released: nat)
    ensures Inv(s) && Enabled(s, step) ==> Inv(Next(s, step))
    ensures PollsBounded(s, released) && Enabled(s, step) ==>
      PollsBounded(Next(s, step), released + if step.Ui? && s.ui == ManualSetPause then 1 else 0)
  {
    hide Inv, Next, Enabled, PollsBounded;
    if Inv(s) && Enabled(s, step) {
      InvStep(s, step);
    }
    if PollsBounded(s, released) && Enabled(s, step) {
      StepKeepsBound(s, step, released);
    }
  }

  /** CSimulatorDlg with its events, flags and queue, over the device it simulates. The
      polling thread's loop and the message handlers are cut at their system calls: each
      method below makes the next call of one of the two threads. What a handler does to
      the device is a step of the request protocol. */
  class SimulatorDlg {
    var hFreeRun: bool
    var hStop: bool
    var hPause: bool
    var queue: seq<Msg>
    var thread: ThreadPc
    var ui: UiPc
    var eRunMode: RunMode
    var bManual: bool
    var bAutoDuplex: bool
    const device: DeviceDriver.MadDevice
    ghost var released: nat   // how often OnSetManualMode has set Pause

    ghost function State(): Sim
      reads this
    {
      Sim(hFreeRun, hStop, hPause, queue, thread, ui, eRunMode, bManual, bAutoDuplex)
    }

    ghost predicate Valid()
      reads this
    {
      Inv(State()) && PollsBounded(State(), released) && device.Shape()
    }

    constructor (d: DeviceDriver.MadDevice)
      requires d.Shape()
      ensures Valid() && Initial(State()) && released == 0 && device == d
    {
      device := d;
      released := 0;
      hFreeRun, hStop, hPause, queue := false, true, false, [];
      thread, ui, eRunMode, bManual, bAutoDuplex := WaitFreeRun, Idle, Manual, true, false;
    }

    /** Unless it is parked the dialog can go on, or waits in the one stalemate that times out. */
    lemma NeverStuck()
      requires Valid() && !Parked(State())
      ensures Stalemate(State()) <==> !Enabled(State(), Thread(0)) && !Enabled(State(), Ui)
      ensures Stalemate(State()) ==> Enabled(State(), Timeout)
    {
      NoDeadlock(State());
      hide Inv, Parked, Stalemate, Enabled;
    }

    /** Stop is about to be set only after the thread's own POLL has been handled, unless a
        manual handler has let it pass. */
    lemma StopsAfterItsPoll()
      requires Valid() && thread != WaitPause && released == 0
      ensures PollMsg !in queue && ui != InPoll
    {
      NoPollIsQueued(queue, 0);
    }

    /** The next call of Poll. */
    method PollThread(extra: nat)
      requires Valid() && Enabled(State(), Thread(extra))
      modifies this
      ensures Valid() && State() == Next(old(State()), Thread(extra)) && released == old(released)
    {
      hide Inv, PollsBounded, Others;
      StepKeeps(State(), Thread(extra), released);
      match thread
      case WaitFreeRun => thread := ResetStop;
      case ResetStop => hStop, thread := false, Sleeping;
      case Sleeping => thread := PostPulse;
      case PostPulse => queue, thread := queue + [OtherMsg], ResetPause;
      case ResetPause => hPause, thread := false, PostPoll;
      case PostPoll => queue, thread := queue + [PollMsg], WaitPause;
      case WaitPause => thread := SetStop;
      case SetStop => hStop, thread := true, SwitchMode;
      case SwitchMode =>
        PostAuto(extra);
        thread := WaitFreeRun;
    }

    /** The messages the polling loop's switch over the run mode posts. */
    method PostAuto(extra: nat)
      requires extra <= 2
      modifies `queue
      ensures queue == old(queue) + Others(extra)
    {
      assert Others(0) == [] && Others(1) == [OtherMsg] && Others(2) == [OtherMsg] + [OtherMsg];
      if extra > 0 {
        queue := queue + [OtherMsg];
      }
      if extra > 1 {
        queue := queue + [OtherMsg];
      }
    }

    /** The dispatch of the next message. */
    method Dispatch()
      requires Valid() && ui == Idle && Enabled(State(), Ui)
      modifies this
      ensures Valid() && State() == Next(old(State()), Ui) && released == old(released)
    {
      hide Inv, PollsBounded;
      StepKeeps(State(), Ui, released);
      var m := queue[0];
      queue := queue[1..];
      if m == PollMsg {
        ui := InPoll;
      } else if m == SetManualMsg {
        ui := ManualSetPause;
      }
    }

    /** OnPoll: an extraneous interrupt or the polls of the run mode, then Pause. */
    method OnPoll(spurious: bool, x: Registers.Draws, y: Registers.Draws)
      requires Valid() && ui == InPoll
      modifies this, device
      ensures Valid() && State() == Next(old(State()), Ui) && released == old(released)
      ensures var step := RequestProtocol.DoPoll(spurious, old(eRunMode) == AutoDuplex, old(eRunMode) == AutoDuplex, x, y);
        && device.Sys() == RequestProtocol.Next(old(device.Sys()), step)
        && (old(device.Valid() && RequestProtocol.Allowed(device.Sys(), step)) ==> device.Valid())
    {
      hide Inv, PollsBounded, RequestProtocol.Next, RequestProtocol.Allowed, RequestProtocol.Safe;
      StepKeeps(State(), Ui, released);
      device.HandlePoll(spurious, eRunMode == AutoDuplex, eRunMode == AutoDuplex, x, y);
      hPause := true;
      ui := Idle;
    }

    /** The next call of OnSetManualMode; the last one is its successful wait for Stop. */
    method OnSetManualMode()
      requires Valid() && ui in {ManualSetPause, ManualResetFreeRun, ManualWaitStop} && Enabled(State(), Ui)
      modifies this
      ensures Valid() && State() == Next(old(State()), Ui)
      ensures released == old(released) + if old(ui) == ManualSetPause then 1 else 0
    {
      hide Inv, PollsBounded;
      StepKeeps(State(), Ui, released);
      if ui == ManualSetPause {
        hPause := true;
        ui := ManualResetFreeRun;
        released := released + 1;
      } else if ui == ManualResetFreeRun {
        hFreeRun := false;
        ui := ManualWaitStop;
      } else {
        bManual := true;
        bAutoDuplex := false;
        ui := Idle;
      }
    }

    /** OnSetManualMode when its wait for Stop runs out. */
    method StopTimesOut()
      requires Valid() && Enabled(State(), Timeout)
      modifies this
      ensures Valid() && State() == Next(old(State()), Timeout) && released == old(released)
    {
      hide Inv, PollsBounded;
      StepKeeps(State(), Timeout, released);
      queue := queue + [SetManualMsg];
      ui := Idle;
    }

    method SetMode(mode: RunMode)
      modifies `eRunMode, `bManual, `bAutoDuplex
      ensures State() == SetRunMode(old(State()), mode)
    {
      match mode {
        case Manual =>
          bManual := true;
          bAutoDuplex := false;
        case AutoDuplex =>
          bAutoDuplex := true;
          bManual := false;
      }
      eRunMode := mode;
    }

    /** Leaving automatic mode raises a timeout alert and posts the manual request. */
    method OnManual()
      requires Valid() && Enabled(State(), ClickManual)
      modifies this, device
      ensures Valid() && State() == Next(old(State()), ClickManual) && released == old(released)
      ensures var step := RequestProtocol.DoAlert(Registers.STATUS_TIMEOUT_ERR);
        && device.Sys() == (if old(bManual) then old(device.Sys()) else RequestProtocol.Next(old(device.Sys()), step))
        && (old(device.Valid() && RequestProtocol.Allowed(device.Sys(), step)) ==> device.Valid())
    {
      hide Inv, PollsBounded, RequestProtocol.Next, RequestProtocol.Allowed, RequestProtocol.Safe;
      StepKeeps(State(), ClickManual, released);
      if bManual {
        return;
      }
      device.RaiseTimeout();
      SetMode(Manual);
      queue := queue + [SetManualMsg];
    }

    /** Starting automatic mode resets the device and releases the polling thread. */
    method OnAutoDuplex()
      requires Valid() && Enabled(State(), ClickAuto)
      modifies this, device
      ensures Valid() && State() == Next(old(State()), ClickAuto) && released == old(released)
      ensures var step := RequestProtocol.DoReset;
        && device.Sys() == (if old(bManual) then RequestProtocol.Next(old(device.Sys()), step) else old(device.Sys()))
        && (old(device.Valid() && RequestProtocol.Allowed(device.Sys(), step)) ==> device.Valid())
    {
      hide Inv, PollsBounded, RequestProtocol.Next, RequestProtocol.Allowed, RequestProtocol.Safe;
      StepKeeps(State(), ClickAuto, released);
      if !bManual {
        return;
      }
      SetMode(AutoDuplex);
      device.ResetDevice();
      hFreeRun := true;
    }
  }
}
