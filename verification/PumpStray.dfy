/** A write that is accepted across the loss of a session. */
module PumpStray {
  import opened Wrappers
  import opened WriteQueue
  import opened Pump
  import opened PumpSafety
  import opened PumpTheorems

  /** The pump stands at `pc` while a writer is between its two tests. */
  function Between(pc: Pc, flags: FlagSet, log: seq<Issued>): Sys {
    Sys(flags, ThreadTable(Some(0), map[0 := pc], 1), Queue([], 0), Idle, Ledger(0, {}, [], [], [], false), 0, 1, log)
  }

  const RUNNING := FlagSet(true, false, false, false, true)
  const HUNG := FlagSet(true, false, true, false, false)
  const TWICE := CALLS + [Issued(NativeOpen, false)]

  /** The write lies in the queue of a client whose only pump is gone. */
  function Strayed(): Sys {
    Sys(HUNG, ThreadTable(Some(0), map[0 := Exited(OnReconnect)], 1), Queue([0], 1), Idle,
        Ledger(1, {}, [0], [], [], false), 0, 0, TWICE)
  }

  lemma LosesTheSession()
    ensures Three(Opened(true), ByOther(CheckOpen), ByOther(Quit), ByPump(0, Statement),
                  Between(LoopBody, RUNNING, CALLS))
  {}

  lemma GoesRound()
    ensures Three(Between(LoopBody, RUNNING, CALLS), ByPump(0, Statement), ByPump(0, Statement), ByPump(0, Statement),
                  Between(ReconnectCheck, RUNNING, CALLS))
  {}

  lemma ComesToReopen()
    ensures Three(Between(ReconnectCheck, RUNNING, CALLS), ByPump(0, Statement), ByPump(0, Statement),
                  ByPump(0, Statement), Between(Reopening, RUNNING, CALLS))
  {}

  lemma HangsReopening()
    ensures Three(Between(Reopening, RUNNING, CALLS), ByPump(0, Statement), ByPump(0, Statement), ByPump(0, OpenHangs),
                  Between(Exited(OnReconnect), HUNG, TWICE))
  {}

  lemma IsStillAccepted()
    ensures Two(Between(Exited(OnReconnect), HUNG, TWICE), ByOther(CheckRunning), ByOther(AppendWrite(0)), Strayed())
  {
    assert {} + {0} == {0} && {0} - {0} == {};
  }

  lemma {:induction false} NoOpenIsDisciplined(s: Sys, run: seq<Step>)
    requires Legal(s, run) && ByController(CallOpen) !in run
    ensures AllDisciplined(s, run)
    decreases |run|
  {
    if run != [] {
      NoOpenIsDisciplined(Next(s, run[0]), run[1..]);
    }
  }

  lemma FromReopening() returns (run: seq<Step>)
    ensures Legal(Between(Reopening, RUNNING, CALLS), run) && ByController(CallOpen) !in run
    ensures EndOf(Between(Reopening, RUNNING, CALLS), run) == Strayed()
  {
    HangsReopening();
    IsStillAccepted();
    TwoRun(Between(Exited(OnReconnect), HUNG, TWICE), ByOther(CheckRunning), ByOther(AppendWrite(0)), Strayed(), []);
    run := [ByOther(CheckRunning), ByOther(AppendWrite(0))] + [];
    ThreeRun(Between(Reopening, RUNNING, CALLS), ByPump(0, Statement), ByPump(0, Statement), ByPump(0, OpenHangs),
             Between(Exited(OnReconnect), HUNG, TWICE), run);
    run := [ByPump(0, Statement), ByPump(0, Statement), ByPump(0, OpenHangs)] + run;
  }

  lemma FromChecking() returns (run: seq<Step>)
    ensures Legal(Between(ReconnectCheck, RUNNING, CALLS), run) && ByController(CallOpen) !in run
    ensures EndOf(Between(ReconnectCheck, RUNNING, CALLS), run) == Strayed()
  {
    ComesToReopen();
    run := FromReopening();
    ThreeRun(Between(ReconnectCheck, RUNNING, CALLS), ByPump(0, Statement), ByPump(0, Statement), ByPump(0, Statement),
             Between(Reopening, RUNNING, CALLS), run);
    run := [ByPump(0, Statement), ByPump(0, Statement), ByPump(0, Statement)] + run;
  }

  lemma FromOpened() returns (run: seq<Step>)
    ensures Legal(Opened(true), run) && ByController(CallOpen) !in run && EndOf(Opened(true), run) == Strayed()
  {
    LosesTheSession();
    GoesRound();
    run := FromChecking();
    ThreeRun(Between(LoopBody, RUNNING, CALLS), ByPump(0, Statement), ByPump(0, Statement), ByPump(0, Statement),
             Between(ReconnectCheck, RUNNING, CALLS), run);
    run := [ByPump(0, Statement), ByPump(0, Statement), ByPump(0, Statement)] + run;
    ThreeRun(Opened(true), ByOther(CheckOpen), ByOther(Quit), ByPump(0, Statement), Between(LoopBody, RUNNING, CALLS),
             run);
    run := [ByOther(CheckOpen), ByOther(Quit), ByPump(0, Statement)] + run;
  }

  /** With proper opens only: a writer passes its first test, the simulator quits, the pump's reconnect hangs and
      the pump ends with its flag up; the writer then passes its second test and appends to a dead pump. */
  lemma WriteToAHungClient() returns (run: seq<Step>)
    ensures Legal(Init(true), run) && AllDisciplined(Init(true), run)
    ensures var e := EndOf(Init(true), run);
      e.flags.running && e.flags.hung && NoLive(e) && 0 in e.queue.items && 0 !in e.ledger.settled
  {
    var rest := FromOpened();
    run := OpenedThen(true, rest);
    NoOpenIsDisciplined(Next(Init(true), run[0]), run[1..]);
  }
}
