/** A write whose writer was past its check when close() ran, and who appends it only afterwards. */
module PumpLate {
  import opened Wrappers
  import opened WriteQueue
  import opened Pump
  import opened PumpSafety
  import opened PumpTheorems
  import opened PumpDrain

  lemma LateStep(s: Sys, l: Step, op: Op)
    requires Safe(s) && Enabled(s, l) && NoLive(s) && op in s.queue.items
    requires !s.flags.running && !Next(s, l).flags.running && l != ByController(CancelQueue)
    ensures NoLive(Next(s, l)) && op in Next(s, l).queue.items
  {
    if l.ByPump? {
      PumpMoves(s, l);
      assert false;
    }
  }

  /** With no live pump it stays queued and unanswered, whatever else happens, until a pump is started or the
      queue is cancelled again. */
  lemma {:induction false} LateWriteStaysQueued(s: Sys, run: seq<Step>, op: Op)
    requires Safe(s) && NoLive(s) && op in s.queue.items && Legal(s, run)
    requires StaysDown(s, run) && ByController(CancelQueue) !in run
    ensures var e := EndOf(s, run); NoLive(e) && op in e.queue.items && op !in e.ledger.settled
    decreases |run|
  {
    if run != [] {
      LateStep(s, run[0], op);
      StepSafe(s, run[0]);
      LateWriteStaysQueued(Next(s, run[0]), run[1..], op);
    }
  }

  // ---- from close() to such a write, and on to the next pump ----

  const LOG := CALLS + [Issued(NativeClose, false)]

  /** The writer has drawn its number. */
  function Checked(auto: bool): Sys { Opened(auto).(ledger := Ledger(1, {0}, [], [], [], false)) }

  /** The pump has left its loop. */
  function Stopped(auto: bool): Sys {
    Sys(FlagSet(false, true, false, true, auto), ThreadTable(Some(0), map[0 := Exited(Normal)], 1), Queue([], 0),
        Joining(Close), Ledger(1, {0}, [], [], [], false), 0, 0, CALLS)
  }

  function HandleGone(auto: bool): Sys {
    Sys(FlagSet(false, true, false, false, auto), ThreadTable(None, map[0 := Exited(Normal)], 1), Queue([], 0),
        Closing(true), Ledger(1, {0}, [], [], [], false), 0, 0, CALLS)
  }

  /** close() has returned and the write was appended. */
  function Late(auto: bool): Sys {
    Sys(FlagSet(false, true, false, false, auto), ThreadTable(None, map[0 := Exited(Normal)], 1), Queue([0], 1),
        Idle, Ledger(1, {}, [0], [], [], false), 0, 0, LOG)
  }

  function Reopened(auto: bool, pc: Pc, log: seq<Issued>): Sys {
    Sys(FlagSet(true, false, false, true, auto), ThreadTable(Some(1), map[0 := Exited(Normal), 1 := pc], 2),
        Queue([0], 1), Idle, Ledger(1, {}, [0], [], [], false), 0, 0, log)
  }

  const AGAIN := LOG + CALLS
  const LAST := AGAIN + [Issued(Dispatch, false)]

  function Answered(auto: bool): Sys {
    Reopened(auto, Settled(0, 0), LAST).(queue := Queue([], 1),
                                         ledger := Ledger(1, {}, [0], [Removal(0, true)], [0], false))
  }

  lemma StopRuns(auto: bool)
    ensures Two(Opened(auto), ByOther(CheckOpen), ByOther(CheckRunning), Checked(auto))
    ensures Two(Checked(auto), ByController(CallStop(Close)), ByPump(0, Statement), Stopped(auto))
  {
    assert {} + {0} == {0};
  }

  lemma CancelRuns(auto: bool)
    ensures Three(Stopped(auto), ByController(Joined), ByController(CancelQueue), ByController(DropHandle),
                  HandleGone(auto))
  {
    assert Dropped([]) == [];
  }

  lemma CloseRuns(auto: bool)
    ensures Three(HandleGone(auto), ByController(GuardClose), ByController(NativeCloses), ByOther(AppendWrite(0)),
                  Late(auto))
  {
    assert {0} - {0} == {};
  }

  /** Such a write exists: close() returns, nothing is left alive, and the write lies in the queue. */
  lemma WriteAfterClose(auto: bool) returns (run: seq<Step>)
    ensures Legal(Init(auto), run) && EndOf(Init(auto), run) == Late(auto)
    ensures var e := Late(auto); e.controller.Idle? && NoLive(e) && 0 in e.queue.items && 0 !in e.ledger.settled
  {
    StopRuns(auto);
    CancelRuns(auto);
    CloseRuns(auto);
    ThreeRun(HandleGone(auto), ByController(GuardClose), ByController(NativeCloses), ByOther(AppendWrite(0)),
             Late(auto), []);
    run := [ByController(GuardClose), ByController(NativeCloses), ByOther(AppendWrite(0))] + [];
    ThreeRun(Stopped(auto), ByController(Joined), ByController(CancelQueue), ByController(DropHandle),
             HandleGone(auto), run);
    run := [ByController(Joined), ByController(CancelQueue), ByController(DropHandle)] + run;
    TwoRun(Checked(auto), ByController(CallStop(Close)), ByPump(0, Statement), Stopped(auto), run);
    run := [ByController(CallStop(Close)), ByPump(0, Statement)] + run;
    TwoRun(Opened(auto), ByOther(CheckOpen), ByOther(CheckRunning), Checked(auto), run);
    run := OpenedThen(auto, [ByOther(CheckOpen), ByOther(CheckRunning)] + run);
  }

  function Connected(auto: bool): Sys {
    Late(auto).(flags := FlagSet(false, true, false, true, auto), log := LOG + [Issued(NativeOpen, false)])
  }

  lemma OpenRuns(auto: bool)
    ensures Three(Late(auto), ByController(CallOpen), ByController(IssueOpen), ByController(CallOpenSucceeds),
                  Connected(auto))
  {}

  lemma StartRuns(auto: bool)
    ensures Two(Connected(auto), ByController(CallStart), ByController(StartPump), Reopened(auto, LoopTop, AGAIN))
  {}

  lemma PumpDispatches(auto: bool)
    ensures Three(Reopened(auto, LoopTop, AGAIN), ByPump(1, Statement), ByPump(1, Statement), ByPump(1, Statement),
                  Reopened(auto, Calling(false, 0), AGAIN))
  {}

  lemma PumpReturns(auto: bool)
    ensures Two(Reopened(auto, Calling(false, 0), AGAIN), ByPump(1, Statement), ByPump(1, NativeReturns),
                Reopened(auto, DrainCheck, LAST))
  {}

  lemma PumpExecutes(auto: bool)
    ensures Three(Reopened(auto, DrainCheck, LAST), ByPump(1, Statement), ByPump(1, Statement), ByPump(1, Statement),
                  Answered(auto))
  {}

  lemma PumpAnswers(auto: bool) returns (run: seq<Step>)
    ensures Legal(Reopened(auto, Calling(false, 0), AGAIN), run) && forall l :: l in run ==> l.ByPump?
    ensures EndOf(Reopened(auto, Calling(false, 0), AGAIN), run) == Answered(auto)
  {
    PumpReturns(auto);
    PumpExecutes(auto);
    ThreeRun(Reopened(auto, DrainCheck, LAST), ByPump(1, Statement), ByPump(1, Statement), ByPump(1, Statement),
             Answered(auto), []);
    run := [ByPump(1, Statement), ByPump(1, Statement), ByPump(1, Statement)] + [];
    TwoRun(Reopened(auto, Calling(false, 0), AGAIN), ByPump(1, Statement), ByPump(1, NativeReturns),
           Reopened(auto, DrainCheck, LAST), run);
    run := [ByPump(1, Statement), ByPump(1, NativeReturns)] + run;
  }

  lemma PumpRuns(auto: bool) returns (run: seq<Step>)
    ensures Legal(Reopened(auto, LoopTop, AGAIN), run) && forall l :: l in run ==> l.ByPump?
    ensures EndOf(Reopened(auto, LoopTop, AGAIN), run) == Answered(auto)
  {
    PumpDispatches(auto);
    run := PumpAnswers(auto);
    ThreeRun(Reopened(auto, LoopTop, AGAIN), ByPump(1, Statement), ByPump(1, Statement), ByPump(1, Statement),
             Reopened(auto, Calling(false, 0), AGAIN), run);
    run := [ByPump(1, Statement), ByPump(1, Statement), ByPump(1, Statement)] + run;
  }

  lemma ThenReopened(auto: bool, rest: seq<Step>) returns (run: seq<Step>)
    requires Legal(Reopened(auto, LoopTop, AGAIN), rest)
    ensures Legal(Late(auto), run) && EndOf(Late(auto), run) == EndOf(Reopened(auto, LoopTop, AGAIN), rest)
    ensures forall l :: l in run ==> l.ByController? || l in rest
  {
    OpenRuns(auto);
    StartRuns(auto);
    TwoRun(Connected(auto), ByController(CallStart), ByController(StartPump), Reopened(auto, LoopTop, AGAIN), rest);
    run := [ByController(CallStart), ByController(StartPump)] + rest;
    ThreeRun(Late(auto), ByController(CallOpen), ByController(IssueOpen), ByController(CallOpenSucceeds),
             Connected(auto), run);
    run := [ByController(CallOpen), ByController(IssueOpen), ByController(CallOpenSucceeds)] + run;
  }

  /** The pump of the next session executes it, whatever that session is connected to. */
  lemma NextSessionRunsIt(auto: bool) returns (run: seq<Step>)
    ensures Legal(Late(auto), run) && 0 in EndOf(Late(auto), run).ledger.settled
    ensures EndOf(Late(auto), run).ledger.removed == [Removal(0, true)]
    ensures forall l :: l in run ==> l.ByPump? || l.ByController?
  {
    run := PumpRuns(auto);
    run := ThenReopened(auto, run);
  }
}
