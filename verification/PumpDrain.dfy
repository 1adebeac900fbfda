/** Stopping the pump: the drain before its exit, and what close() leaves behind. */
module PumpDrain {
  import opened Wrappers
  import opened WriteQueue
  import opened Pump
  import opened PumpSafety
  import opened PumpOps
  import opened PumpTheorems

  // ---- leaving the loop ----

  /** A pump that leaves its loop the regular way finds the flag down and the counter at zero. Everything ever
      appended is settled then if and only if the counter is not short, and it never is unless the DLL is
      known to hang. */
  lemma RegularExitIsDrained(s: Sys, l: Step)
    requires Safe(s) && Enabled(s, l) && l.ByPump?
    requires Next(s, l).threads.pumps[l.t] == Exited(Normal)
    ensures var u := Next(s, l);
      && !u.flags.running && u.queue.pending == 0
      && ((forall op: Op :: op in u.ledger.appended ==> op in u.ledger.settled) <==> !u.ledger.short)
      && (u.ledger.short ==> u.flags.hung)
  {
    var u := Next(s, l);
    PumpMoves(s, l);
    MovedPumpCounts(s, u, l.t);
    StepSafe(s, l);
    if u.ledger.short {
      SomeUnsettled(u);
    } else {
      AllSettled(u);
    }
  }

  /** At the top of the loop a positive counter means there is something to pop. */
  lemma PositiveCounterAtTop(s: Sys, t: Tid)
    requires Threads(s) && Accounting(s) && t in s.threads.pumps && s.threads.pumps[t].LoopTop?
    ensures s.queue.pending > 0 ==> s.queue.items != []
  {
    OnlyPumpCounts(s, t);
  }

  // ---- the loop ends ----

  /** How far a pump is from the end of its loop once the flag is down, leaving queued work aside: a
      round that is about to pop counts less than a round that is over. */
  function Rank(q: Queue<Op>, pc: Pc): nat {
    var popsNext := q.pending > 0 && q.items != [];
    match pc
    case Exited(_) => 0
    case Draining(count) => if count == 0 && q.items != [] then 0 else 6
    case DrainCheck => if popsNext then 1 else 7
    case LoopBody => if popsNext then 2 else 8
    case LoopTop => 3
    case ReconnectCheck => 4
    case ExitCheck => 5
    case Settled(_, _) => 7
    case Executing(_, _) => 8
    case Failed => 9
    case InNative(opening, polls) => if opening then 15 + 4 * polls else 12
    case Calling(opening, polls) => if opening then 16 + 4 * polls else 13
    case Dispatching(opening, polls) => if opening then 17 + 4 * polls else 14
    case AwaitOpen(polls) => 14 + 4 * polls
    case InOpen => 15 + 4 * MAX_POLLS
    case CallingOpen => 16 + 4 * MAX_POLLS
    case Reopening => 17 + 4 * MAX_POLLS
    case ReconnectWait => 18 + 4 * MAX_POLLS
    case ReconnectGuard => 19 + 4 * MAX_POLLS
  }

  function Measure(s: Sys): nat {
    20 * |s.queue.items| + 40 * |s.ledger.writers|
    + if ThreadAlive(s) then Rank(s.queue, s.threads.pumps[s.threads.thread.value]) else 0
  }

  /** One unit of work: a statement of a pump, or an append by a writer already past its check. */
  predicate IsWork(l: Step) { l.ByPump? || (l.ByOther? && l.other.AppendWrite?) }

  lemma StatementRank(s: Sys, pc: Pc)
    requires !s.flags.running && Runnable(pc)
    requires pc.LoopTop? && s.queue.pending > 0 ==> s.queue.items != []
    ensures var u := Effect(s, pc);
      20 * |u.queue.items| + Rank(u.queue, NextPc(s, pc)) < 20 * |s.queue.items| + Rank(s.queue, pc)
  {}

  /** How the native calls end: always nearer to the end of the loop. */
  lemma NativeRank(s: Sys, pc: Pc, p: PumpEvent)
    requires PumpEnabled(pc, p) && !p.Statement?
    ensures Rank(s.queue, PcAfter(s, pc, p)) < Rank(s.queue, pc)
  {}

  lemma MeasureThrough(s: Sys, t: Tid)
    requires s.threads.thread == Some(t) && t in s.threads.pumps
    ensures Measure(s) == 20 * |s.queue.items| + 40 * |s.ledger.writers| + Rank(s.queue, s.threads.pumps[t])
  {}

  lemma PumpWorkDecreases(s: Sys, l: Step)
    requires Threads(s) && Accounting(s) && Enabled(s, l) && l.ByPump? && !s.flags.running
    ensures Measure(Next(s, l)) < Measure(s)
  {
    var t, u := l.t, Next(s, l);
    PumpMoves(s, l);
    MeasureThrough(s, t);
    MeasureThrough(u, t);
    if l.pump.Statement? {
      if s.threads.pumps[t].LoopTop? {
        PositiveCounterAtTop(s, t);
      }
      StatementRank(s, s.threads.pumps[t]);
    } else {
      NativeRank(s, s.threads.pumps[t], l.pump);
    }
  }

  lemma AppendDecreases(s: Sys, op: Op)
    requires op in s.ledger.writers
    ensures Measure(Next(s, ByOther(AppendWrite(op)))) < Measure(s)
  {
    assert s.ledger.writers == (s.ledger.writers - {op}) + {op};
    assert |s.ledger.writers| == |s.ledger.writers - {op}| + 1;
  }

  lemma StartKeepsMeasure(s: Sys)
    requires !s.flags.running && !Start(s).flags.running
    ensures Measure(Start(s)) == Measure(s)
  {}

  /** No step of the controller puts the end further away, unless it starts a pump: a start that raises, a
      failed restart, and the cancel of a close are among them. */
  lemma ControllerKeepsMeasure(s: Sys, c: ControllerEvent)
    requires ControllerEnabled(s, c) && !s.flags.running && !ControllerNext(s, c).flags.running
    ensures Measure(ControllerNext(s, c)) <= Measure(s)
  {
    if c.StartPump? {
      StartKeepsMeasure(s);
    }
  }

  lemma OtherKeepsMeasure(s: Sys, o: OtherEvent)
    requires OtherEnabled(s, o) && !o.AppendWrite? && !s.flags.running
    ensures Measure(OtherNext(s, o)) == Measure(s)
  {}

  lemma StepMeasure(s: Sys, l: Step)
    requires Safe(s) && Enabled(s, l) && !s.flags.running && !Next(s, l).flags.running
    ensures Measure(Next(s, l)) + One(IsWork(l)) <= Measure(s)
  {
    match l
    case ByPump(_, _) => PumpWorkDecreases(s, l);
    case ByController(c) => ControllerKeepsMeasure(s, c);
    case ByOther(o) =>
      if o.AppendWrite? {
        AppendDecreases(s, o.op);
      } else {
        OtherKeepsMeasure(s, o);
      }
  }

  function Work(run: seq<Step>): nat {
    if run == [] then 0 else One(IsWork(run[0])) + Work(run[1..])
  }

  /** No pump is started in the run: the flag that a stop took down stays down. */
  predicate StaysDown(s: Sys, run: seq<Step>)
    requires Legal(s, run)
    decreases |run|
  {
    !s.flags.running && (run == [] || StaysDown(Next(s, run[0]), run[1..]))
  }

  /** After a stop the loop ends: in any interleaving, the cancel of a close included, the statements the pump
      still executes and the appends of the writers already past their check are together fewer than a bound
      known at the stop, until a pump is started again. */
  lemma {:induction false} DrainTerminates(s: Sys, run: seq<Step>)
    requires Safe(s) && Legal(s, run) && StaysDown(s, run)
    ensures Work(run) + Measure(EndOf(s, run)) <= Measure(s)
    decreases |run|
  {
    if run != [] {
      var l := run[0];
      StepSafe(s, l);
      StepMeasure(s, l);
      DrainTerminates(Next(s, l), run[1..]);
    }
  }

  // ---- close ----

  /** The controller is inside one call from start to end of the run. */
  predicate OneCall(s: Sys, run: seq<Step>)
    requires Legal(s, run)
    decreases |run|
  {
    run == [] || (!s.controller.Idle? && OneCall(Next(s, run[0]), run[1..]))
  }

  /** Where a close stands with respect to the n operations that were appended before it. */
  ghost predicate ClosePhase(s: Sys, n: nat) {
    && n <= |s.ledger.appended|
    && match s.controller
       case Joining(after) => after.Close?
       case Cancelling => true
       case _ =>
         (s.controller.Idle? || s.controller.Dropping? || s.controller.Closing? || s.controller.PastCloseGuard?)
         && n <= |s.ledger.removed| && (s.flags.hung || forall op: Op :: !IsExecuting(s, op))
  }

  lemma HistoriesGrow(s: Sys, l: Step)
    requires Enabled(s, l)
    ensures s.ledger.appended <= Next(s, l).ledger.appended && s.ledger.removed <= Next(s, l).ledger.removed
    ensures s.flags.hung ==> Next(s, l).flags.hung
  {
    match l
    case ByPump(_, _) => PumpHistoriesGrow(s, l);
    case _ =>
  }

  lemma PumpHistoriesGrow(s: Sys, l: Step)
    requires Enabled(s, l) && l.ByPump?
    ensures s.ledger.appended == Next(s, l).ledger.appended && s.ledger.removed <= Next(s, l).ledger.removed
  {
    PumpMoves(s, l);
  }

  lemma CloseStep(s: Sys, l: Step, n: nat)
    requires Safe(s) && Enabled(s, l) && !s.controller.Idle? && ClosePhase(s, n)
    ensures ClosePhase(Next(s, l), n)
  {
    var u := Next(s, l);
    HistoriesGrow(s, l);
    match l
    case ByPump(t, _) =>
      PumpMoves(s, l);
      MovedPumpExecutes(s, u, t);
    case ByController(c) => CloseController(s, c, n);
    case ByOther(_) => SameExecuting(s, u);
  }

  lemma CloseController(s: Sys, c: ControllerEvent, n: nat)
    requires Safe(s) && ControllerEnabled(s, c) && !s.controller.Idle? && ClosePhase(s, n)
    ensures ClosePhase(ControllerNext(s, c), n)
  {
    var u := ControllerNext(s, c);
    SameExecuting(s, u);
    if c.CancelQueue? {
      PlacesKept(s, ByController(c));
      assert |u.ledger.appended| == |Ops(u.ledger.removed)|;
    }
  }

  lemma {:induction false} CloseRun(s: Sys, run: seq<Step>, n: nat)
    requires Safe(s) && Legal(s, run) && OneCall(s, run) && ClosePhase(s, n)
    ensures ClosePhase(EndOf(s, run), n)
    decreases |run|
  {
    if run != [] {
      CloseStep(s, run[0], n);
      StepSafe(s, run[0]);
      CloseRun(Next(s, run[0]), run[1..], n);
    }
  }

  /** When close() returns, every operation appended before it was called is settled, except at most one
      that a hung pump still has in flight. */
  lemma CloseSettlesWhatWasQueued(s: Sys, run: seq<Step>)
    requires Safe(s) && s.controller.Idle? && Enabled(s, ByController(CallStop(Close)))
    requires Legal(Next(s, ByController(CallStop(Close))), run) && OneCall(Next(s, ByController(CallStop(Close))), run)
    requires EndOf(Next(s, ByController(CallStop(Close))), run).controller.Idle?
    ensures var e := EndOf(Next(s, ByController(CallStop(Close))), run);
      && (forall op: Op :: op in s.ledger.appended && op !in e.ledger.settled ==> e.flags.hung && IsExecuting(e, op))
      && (forall a: Op, b: Op :: IsExecuting(e, a) && IsExecuting(e, b) ==> a == b)
  {
    var c := Next(s, ByController(CallStop(Close)));
    var e := EndOf(c, run);
    StepSafe(s, ByController(CallStop(Close)));
    CloseRun(c, run, |s.ledger.appended|);
    RunSafe(c, run);
    AppendedGrows(c, run);
    forall op: Op | op in s.ledger.appended && op !in e.ledger.settled ensures e.flags.hung && IsExecuting(e, op) {
      var i :| 0 <= i < |s.ledger.appended| && s.ledger.appended[i] == op;
      assert e.ledger.appended[i] == op;
      assert op == (Ops(e.ledger.removed) + e.queue.items)[i] == Ops(e.ledger.removed)[i];
    }
  }

  lemma {:induction false} AppendedGrows(s: Sys, run: seq<Step>)
    requires Legal(s, run)
    ensures s.ledger.appended <= EndOf(s, run).ledger.appended
    decreases |run|
  {
    if run != [] {
      HistoriesGrow(s, run[0]);
      AppendedGrows(Next(s, run[0]), run[1..]);
    }
  }
}
