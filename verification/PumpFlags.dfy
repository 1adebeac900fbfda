/** When `_dispatch_running` can be believed. */
module PumpFlags {
  import opened Pump
  import opened PumpSafety

  /** Between finding the handle gone and the end of the reconnecting SimConnect_Open. */
  predicate Reconnecting(pc: Pc) {
    pc.ReconnectGuard? || pc.ReconnectWait? || pc.Reopening? || pc.CallingOpen? || pc.InOpen?
  }

  ghost predicate NoneReconnects(s: Sys) { forall t :: t in s.threads.pumps ==> !Reconnecting(s.threads.pumps[t]) }

  /** With the flag up and no pump alive, the DLL is known to hang and the client is not open, so no
      write is accepted. */
  ghost predicate FlagAgrees(s: Sys) { s.flags.running && NoLive(s) ==> s.flags.hung && !s.flags.isOpen }

  /** The controller opens only when its call cannot cross a reconnecting pump: the pump flag is down
      or automatic reconnection is off. On a hung client open() raises and is harmless. */
  predicate ProperOpen(s: Sys) { s.flags.hung || !s.flags.running || !s.flags.autoReconnect }

  predicate Disciplined(s: Sys, l: Step) { l == ByController(CallOpen) ==> ProperOpen(s) }

  /** The controller's open() is past its guard. */
  predicate OpenUnderWay(c: Controller) { c.PastOpenGuard? || c.Opening? }

  ghost predicate Flags(s: Sys) {
    && FlagAgrees(s)
    && (s.flags.stopEvent ==> !s.flags.running)
    && (s.flags.hung ==> !s.flags.autoReconnect)
    && (s.flags.isOpen ==> NoneReconnects(s))
    && (!s.flags.autoReconnect && !s.flags.hung ==> NoneReconnects(s))
    && (OpenUnderWay(s.controller) ==> NoneReconnects(s))
    && (OpenUnderWay(s.controller) && s.flags.autoReconnect ==> NoLive(s))
    && (OpenUnderWay(s.controller) && NoLive(s) ==> !s.flags.running)
  }

  /** Which statements lead into and out of reconnecting, and which end the pump. */
  ghost predicate Progress(s: Sys, u: Sys, pc: Pc, pc': Pc) {
    && (Reconnecting(pc') && !Reconnecting(pc) ==> !s.flags.isOpen && s.flags.running && s.flags.autoReconnect)
    && (pc'.Exited? ==> !s.flags.running || (Reconnecting(pc) && u.flags.hung))
    && (u.flags.isOpen != s.flags.isOpen ==> Reconnecting(pc) && !Reconnecting(pc') && !pc'.Exited?)
    && (u.flags.hung ==> !u.flags.autoReconnect || (s.flags.hung && u.flags.autoReconnect == s.flags.autoReconnect))
    && (!u.flags.hung ==> u.flags.autoReconnect == s.flags.autoReconnect)
    && (u.flags.autoReconnect ==> s.flags.autoReconnect)
  }

  lemma StatementProgress(s: Sys, pc: Pc)
    requires s.flags.stopEvent ==> !s.flags.running
    requires !pc.Exited?
    ensures Progress(s, Effect(s, pc), pc, NextPc(s, pc))
  {}

  lemma PumpProgress(s: Sys, l: Step)
    requires Enabled(s, l) && l.ByPump? && (s.flags.stopEvent ==> !s.flags.running)
    ensures Progress(s, Next(s, l), s.threads.pumps[l.t], Next(s, l).threads.pumps[l.t])
  {
    if l.pump.Statement? {
      StatementProgress(s, s.threads.pumps[l.t]);
    }
  }

  lemma MovedPumpIsTheOne(s: Sys, u: Sys, t: Tid)
    requires Threads(s) && Moves(s, u, t)
    ensures !NoLive(s) && (NoLive(u) <==> u.threads.pumps[t].Exited?)
    ensures NoneReconnects(s) <==> !Reconnecting(s.threads.pumps[t])
    ensures NoneReconnects(u) <==> !Reconnecting(u.threads.pumps[t])
  {
    assert forall x :: x in s.threads.pumps && x != t ==>
      u.threads.pumps[x] == s.threads.pumps[x] && s.threads.pumps[x].Exited?;
  }

  lemma PumpFlagsKept(s: Sys, l: Step)
    requires Threads(s) && Flags(s) && Enabled(s, l) && l.ByPump?
    ensures Flags(Next(s, l))
  {
    PumpMoves(s, l);
    MovedPumpIsTheOne(s, Next(s, l), l.t);
    PumpProgress(s, l);
  }

  lemma StartFlags(s: Sys)
    requires Threads(s) && Flags(s) && s.controller.Starting?
    ensures Flags(Start(s).(controller := Idle))
  {
    var u := Start(s).(controller := Idle);
    assert s.threads.nextTid !in s.threads.pumps;
    assert forall t :: t in s.threads.pumps ==> t in u.threads.pumps && u.threads.pumps[t] == s.threads.pumps[t];
    if u.threads.nextTid != s.threads.nextTid {
      assert Live(u, s.threads.nextTid);
    } else {
      assert u.threads.pumps == s.threads.pumps;
    }
  }

  lemma SameReconnecting(s: Sys, u: Sys)
    requires u.threads.pumps == s.threads.pumps
    ensures NoLive(s) <==> NoLive(u)
    ensures NoneReconnects(s) <==> NoneReconnects(u)
  {}

  lemma ControllerFlags(s: Sys, c: ControllerEvent)
    requires Threads(s) && Flags(s) && ControllerEnabled(s, c)
    requires c.CallOpen? ==> ProperOpen(s)
    ensures Flags(ControllerNext(s, c))
  {
    if c.StartPump? {
      StartFlags(s);
      SameReconnecting(Start(s), ControllerNext(s, c));
    } else {
      SameReconnecting(s, ControllerNext(s, c));
    }
  }

  lemma FlagsKept(s: Sys, l: Step)
    requires Threads(s) && Flags(s) && Enabled(s, l) && Disciplined(s, l)
    ensures Flags(Next(s, l))
  {
    match l
    case ByPump(_, _) => PumpFlagsKept(s, l);
    case ByController(c) => ControllerFlags(s, c);
    case ByOther(_) => SameReconnecting(s, Next(s, l));
  }

  // ---- an improper open always can break the agreement ----

  /** How many statements at most keep a pump of a closed, reconnecting client from its SimConnect_Open. */
  function Distance(pc: Pc): nat {
    match pc
    case InOpen => 0
    case CallingOpen => 1
    case Reopening => 2
    case ReconnectWait => 3
    case ReconnectGuard => 4
    case ReconnectCheck => 5
    case ExitCheck => 6
    case Draining(count) => 7 + 3 * (if count < 256 then 256 - count else 0)
    case Executing(_, count) => 9 + 3 * (if count < 255 then 255 - count else 0)
    case Settled(_, count) => 8 + 3 * (if count < 255 then 255 - count else 0)
    case DrainCheck => 776
    case LoopBody => 777
    case LoopTop => 778
    case Failed => 779
    case AwaitOpen(_) => 779
    case Dispatching(_, _) => 780
    case InNative(_, _) => 780
    case Calling(_, _) => 781
    case Exited(_) => 0
  }

  function Toward(pc: Pc, t: Tid): Step {
    if pc.InNative? then ByPump(t, NativeReturns)
    else if pc.AwaitOpen? then ByPump(t, StopsPolling)
    else ByPump(t, Statement)
  }

  predicate Reconnectable(s: Sys, t: Tid) {
    && t in s.threads.pumps && !s.threads.pumps[t].Exited?
    && s.flags.running && !s.flags.stopEvent && !s.flags.isOpen && !s.flags.hung && s.flags.autoReconnect
    && s.controller.Opening?
  }

  lemma OneStepToward(s: Sys, t: Tid)
    requires Reconnectable(s, t) && !s.threads.pumps[t].InOpen?
    ensures var l := Toward(s.threads.pumps[t], t);
      Enabled(s, l) && Reconnectable(Next(s, l), t)
        && Distance(Next(s, l).threads.pumps[t]) < Distance(s.threads.pumps[t])
  {}

  lemma {:induction false} ReachInOpen(s: Sys, t: Tid) returns (run: seq<Step>)
    requires Reconnectable(s, t)
    ensures Legal(s, run) && Reconnectable(EndOf(s, run), t) && EndOf(s, run).threads.pumps[t].InOpen?
    ensures forall l :: l in run ==> l != ByController(CallOpen)
    decreases Distance(s.threads.pumps[t])
  {
    if s.threads.pumps[t].InOpen? {
      run := [];
    } else {
      OneStepToward(s, t);
      var l := Toward(s.threads.pumps[t], t);
      var rest := ReachInOpen(Next(s, l), t);
      run := [l] + rest;
      assert run[1..] == rest;
    }
  }

  /** From any state in which open() is not proper, that one call can end with a dead pump whose flag is
      up on an open client: the pump's own reconnect hangs just after the controller's open succeeded. */
  lemma ImproperOpenBreaksAgreement(s: Sys) returns (run: seq<Step>)
    requires Threads(s) && Flags(s) && s.controller.Idle? && !ProperOpen(s)
    ensures Legal(s, run) && run != [] && run[0] == ByController(CallOpen)
    ensures forall i :: 1 <= i < |run| ==> run[i] != ByController(CallOpen)
    ensures var e := EndOf(s, run); e.flags.running && NoLive(e) && e.flags.isOpen
  {
    var called := Next(s, ByController(CallOpen));
    ThreadsKept(s, ByController(CallOpen));
    var opening := Next(called, ByController(IssueOpen));
    ThreadsKept(called, ByController(IssueOpen));
    var rest := OpeningBreaksAgreement(opening);
    StepThenRun(called, ByController(IssueOpen), rest);
    rest := [ByController(IssueOpen)] + rest;
    StepThenRun(s, ByController(CallOpen), rest);
    run := [ByController(CallOpen)] + rest;
    forall i | 1 <= i < |run| ensures run[i] != ByController(CallOpen) {
      assert run[i] in rest;
    }
  }

  lemma OpeningBreaksAgreement(s: Sys) returns (run: seq<Step>)
    requires Threads(s) && s.controller.Opening? && !NoLive(s)
    requires s.flags.running && !s.flags.stopEvent && !s.flags.hung && s.flags.autoReconnect
    ensures Legal(s, run) && forall l :: l in run ==> l != ByController(CallOpen)
    ensures var e := EndOf(s, run); e.flags.running && NoLive(e) && e.flags.isOpen
  {
    var t :| t in s.threads.pumps && !s.threads.pumps[t].Exited?;
    if s.flags.isOpen {
      ThreadsKept(s, ByOther(Quit));
      run := DriveToHang(Next(s, ByOther(Quit)), t);
      StepThenRun(s, ByOther(Quit), run);
      run := [ByOther(Quit)] + run;
    } else {
      run := DriveToHang(s, t);
    }
  }

  lemma DriveToHang(s: Sys, t: Tid) returns (run: seq<Step>)
    requires Threads(s) && Reconnectable(s, t)
    ensures Legal(s, run) && forall l :: l in run ==> l != ByController(CallOpen)
    ensures var e := EndOf(s, run); e.flags.running && NoLive(e) && e.flags.isOpen
  {
    run := ReachInOpen(s, t);
    RunThreads(s, run);
    HangAfterOpen(EndOf(s, run), t);
    var finish := [ByController(CallOpenSucceeds), ByPump(t, OpenHangs)];
    RunsCompose(s, run, finish);
    run := run + finish;
  }

  lemma HangAfterOpen(s: Sys, t: Tid)
    requires Threads(s) && Reconnectable(s, t) && s.threads.pumps[t].InOpen?
    ensures var run := [ByController(CallOpenSucceeds), ByPump(t, OpenHangs)];
      Legal(s, run) && var e := EndOf(s, run); e.flags.running && e.flags.isOpen && NoLive(e)
  {
    var during := Next(s, ByController(CallOpenSucceeds));
    var hung := Next(during, ByPump(t, OpenHangs));
    StepThenRun(during, ByPump(t, OpenHangs), []);
    StepThenRun(s, ByController(CallOpenSucceeds), [ByPump(t, OpenHangs)]);
    assert [ByController(CallOpenSucceeds)] + [ByPump(t, OpenHangs)] ==
      [ByController(CallOpenSucceeds), ByPump(t, OpenHangs)];
    assert [ByPump(t, OpenHangs)] + [] == [ByPump(t, OpenHangs)];
    PumpMoves(during, ByPump(t, OpenHangs));
  }

  lemma {:induction false} RunThreads(s: Sys, run: seq<Step>)
    requires Threads(s) && Legal(s, run)
    ensures Threads(EndOf(s, run))
    decreases |run|
  {
    if run != [] {
      ThreadsKept(s, run[0]);
      RunThreads(Next(s, run[0]), run[1..]);
    }
  }
}
