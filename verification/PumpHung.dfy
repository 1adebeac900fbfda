/** What the DLL can still be asked once its hang is known. */
module PumpHung {
  import opened Wrappers
  import opened Pump
  import opened PumpSafety
  import opened PumpTheorems

  ghost predicate PumpAt(s: Sys, wanted: Call) {
    exists t :: t in s.threads.pumps && CallAt(s.threads.pumps[t]) == Some(wanted)
  }

  /** The threads that have passed the guard of dispatch() and not issued their call yet. */
  ghost function PastDispatch(s: Sys): nat { s.callers + One(PumpAt(s, Dispatch)) }

  /** The threads that have passed the guard of open() and not issued their call yet. */
  ghost function PastOpen(s: Sys): nat { One(s.controller.PastOpenGuard?) + One(PumpAt(s, NativeOpen)) }

  function Count(log: seq<Issued>, call: Call): nat {
    if log == [] then 0 else One(log[|log| - 1].call == call) + Count(log[..|log| - 1], call)
  }

  lemma MovedPumpCalls(s: Sys, u: Sys, t: Tid, wanted: Call)
    requires Threads(s) && Moves(s, u, t)
    ensures PumpAt(s, wanted) <==> CallAt(s.threads.pumps[t]) == Some(wanted)
    ensures PumpAt(u, wanted) <==> CallAt(u.threads.pumps[t]) == Some(wanted)
  {
    assert forall x :: x in s.threads.pumps && x != t ==>
      u.threads.pumps[x] == s.threads.pumps[x] && s.threads.pumps[x].Exited?;
  }

  lemma SameCalls(s: Sys, u: Sys)
    requires u.threads.pumps == s.threads.pumps
    ensures forall wanted :: PumpAt(u, wanted) <==> PumpAt(s, wanted)
  {}

  /** One step after the hang is known: it stays known, and the log grows by nothing, by the unguarded
      call_dispatch, or by the call of a thread that was past its guard and no longer is. */
  ghost predicate Drains(s: Sys, u: Sys, call: Option<Call>) {
    && u.flags.hung
    && u.log == s.log + (if call.Some? then [Issued(call.value, true)] else [])
    && (call.Some? ==> call.value in {Dispatch, NativeOpen, RawDispatch})
    && PastDispatch(u) + One(call == Some(Dispatch)) == PastDispatch(s)
    && PastOpen(u) + One(call == Some(NativeOpen)) == PastOpen(s)
  }

  function CallOfStep(s: Sys, l: Step): Option<Call> {
    match l
    case ByPump(t, p) => if p.Statement? && t in s.threads.pumps then CallAt(s.threads.pumps[t]) else None
    case ByController(c) => if c.IssueOpen? then Some(NativeOpen) else None
    case ByOther(o) => if o.UserCalls? then Some(Dispatch) else if o.UserCallDispatch? then Some(RawDispatch) else None
  }

  lemma PumpDrains(s: Sys, l: Step)
    requires Threads(s) && Enabled(s, l) && s.flags.hung && l.ByPump?
    ensures Drains(s, Next(s, l), CallOfStep(s, l))
  {
    PumpMoves(s, l);
    MovedPumpCalls(s, Next(s, l), l.t, Dispatch);
    MovedPumpCalls(s, Next(s, l), l.t, NativeOpen);
  }

  lemma ControllerDrains(s: Sys, c: ControllerEvent)
    requires Threads(s) && ControllerEnabled(s, c) && s.flags.hung
    ensures Drains(s, ControllerNext(s, c), CallOfStep(s, ByController(c)))
  {
    SameCalls(s, ControllerNext(s, c));
  }

  lemma OtherDrains(s: Sys, o: OtherEvent)
    requires OtherEnabled(s, o) && s.flags.hung
    ensures Drains(s, OtherNext(s, o), CallOfStep(s, ByOther(o)))
  {
    SameCalls(s, OtherNext(s, o));
  }

  lemma StepDrains(s: Sys, l: Step)
    requires Threads(s) && Enabled(s, l) && s.flags.hung
    ensures Drains(s, Next(s, l), CallOfStep(s, l))
  {
    match l
    case ByPump(_, _) => PumpDrains(s, l);
    case ByController(c) => ControllerDrains(s, c);
    case ByOther(o) => OtherDrains(s, o);
  }

  lemma CountSnoc(log: seq<Issued>, more: Issued, call: Call)
    ensures Count(log + [more], call) == Count(log, call) + One(more.call == call)
  {
    assert (log + [more])[..|log|] == log;
  }

  lemma DrainsCount(s: Sys, l: Step, call: Call)
    requires Threads(s) && Enabled(s, l) && s.flags.hung
    ensures Count(Next(s, l).log, call) == Count(s.log, call) + One(CallOfStep(s, l) == Some(call))
  {
    StepDrains(s, l);
    if CallOfStep(s, l).Some? {
      CountSnoc(s.log, Issued(CallOfStep(s, l).value, true), call);
    }
  }

  lemma {:induction false} HungConserves(s: Sys, run: seq<Step>)
    requires Threads(s) && s.flags.hung && Legal(s, run)
    ensures var e := EndOf(s, run);
      && Count(e.log, Dispatch) + PastDispatch(e) == Count(s.log, Dispatch) + PastDispatch(s)
      && Count(e.log, NativeOpen) + PastOpen(e) == Count(s.log, NativeOpen) + PastOpen(s)
    decreases |run|
  {
    if run != [] {
      var l := run[0];
      StepDrains(s, l);
      DrainsCount(s, l, Dispatch);
      DrainsCount(s, l, NativeOpen);
      ThreadsKept(s, l);
      HungConserves(Next(s, l), run[1..]);
    }
  }

  lemma {:induction false} HungCalls(s: Sys, run: seq<Step>)
    requires Threads(s) && s.flags.hung && Legal(s, run)
    ensures var e := EndOf(s, run);
      && e.flags.hung && s.log <= e.log
      && (forall i :: |s.log| <= i < |e.log| ==> e.log[i].hung && e.log[i].call in {Dispatch, NativeOpen, RawDispatch})
    decreases |run|
  {
    if run != [] {
      StepDrains(s, run[0]);
      ThreadsKept(s, run[0]);
      HungCalls(Next(s, run[0]), run[1..]);
    }
  }

  /** In every run, once the hang is known: it stays known; no SimConnect_Close is issued and no pump started;
      and every dispatch() or SimConnect_Open still to come is the one call of a thread that had passed its
      guard before. The threads past a guard and the calls since then add up to a constant, so nobody passes
      a guard any more: of the pump and the controller at most one call each can follow. */
  lemma HungIsContained(auto: bool, before: seq<Step>, after: seq<Step>)
    requires Legal(Init(auto), before) && EndOf(Init(auto), before).flags.hung
    requires Legal(EndOf(Init(auto), before), after)
    ensures var s := EndOf(Init(auto), before); var e := EndOf(s, after);
      && e.flags.hung && s.log <= e.log
      && (forall i :: |s.log| <= i < |e.log| ==> e.log[i].hung && e.log[i].call in {Dispatch, NativeOpen, RawDispatch})
      && Count(e.log, Dispatch) + PastDispatch(e) == Count(s.log, Dispatch) + PastDispatch(s)
      && Count(e.log, NativeOpen) + PastOpen(e) == Count(s.log, NativeOpen) + PastOpen(s)
      && PastDispatch(s) <= s.callers + 1 && PastOpen(s) <= 2
  {
    InitSafe(auto);
    RunSafe(Init(auto), before);
    HungConserves(EndOf(Init(auto), before), after);
    HungCalls(EndOf(Init(auto), before), after);
  }

  // ---- such a late call does happen ----

  function Running(auto: bool, pc: Pc): Sys { Opened(auto).(threads := ThreadTable(Some(0), map[0 := pc], 1)) }

  /** The stop timed out while the pump was past its guard. */
  function TimedOut(auto: bool): Sys {
    Running(auto, Calling(false, 0)).(flags := FlagSet(false, true, true, true, false))
  }

  function Late(auto: bool): Sys {
    At(TimedOut(auto), 0, InNative(false, 0)).(log := CALLS + [Issued(Dispatch, true)])
  }

  lemma PumpReachesItsCall(auto: bool)
    ensures Three(Opened(auto), ByPump(0, Statement), ByPump(0, Statement), ByPump(0, Statement),
                  Running(auto, Calling(false, 0)))
  {}

  lemma LateCallRuns(auto: bool)
    ensures Three(Running(auto, Calling(false, 0)), ByController(CallStop(Stop)), ByController(JoinTimesOut),
                  ByPump(0, Statement), Late(auto))
  {}

  /** The guard does not cover its call: a stop times out while the pump is between the two, and the pump then
      enters CallDispatch on a client whose hang is known. */
  lemma DispatchAfterTheHang(auto: bool) returns (run: seq<Step>)
    ensures Legal(Init(auto), run)
    ensures var e := EndOf(Init(auto), run); e.log != [] && e.log[|e.log| - 1] == Issued(Dispatch, true)
  {
    PumpReachesItsCall(auto);
    LateCallRuns(auto);
    ThreeRun(Running(auto, Calling(false, 0)), ByController(CallStop(Stop)), ByController(JoinTimesOut),
             ByPump(0, Statement), Late(auto), []);
    run := [ByController(CallStop(Stop)), ByController(JoinTimesOut), ByPump(0, Statement)] + [];
    ThreeRun(Opened(auto), ByPump(0, Statement), ByPump(0, Statement), ByPump(0, Statement),
             Running(auto, Calling(false, 0)), run);
    run := OpenedThen(auto, [ByPump(0, Statement), ByPump(0, Statement), ByPump(0, Statement)] + run);
  }
}
