/** The promises of the write queue and the pump, over every run. */
module PumpTheorems {
  import opened Wrappers
  import opened WriteQueue
  import opened Pump
  import opened PumpSafety
  import opened PumpOps
  import opened PumpFlags

  ghost predicate Safe(s: Sys) { Threads(s) && Accounting(s) && Places(s) }

  lemma InitSafe(auto: bool)
    ensures Safe(Init(auto)) && Flags(Init(auto))
  {
    var s := Init(auto);
    assert Ops(s.ledger.removed) == [] && s.ledger.appended == Ops(s.ledger.removed) + s.queue.items;
    assert Places(s);
  }

  lemma StepSafe(s: Sys, l: Step)
    requires Safe(s) && Enabled(s, l)
    ensures Safe(Next(s, l))
  {
    ThreadsKept(s, l);
    AccountingKept(s, l);
    PlacesKept(s, l);
  }

  lemma {:induction false} RunSafe(s: Sys, run: seq<Step>)
    requires Safe(s) && Legal(s, run)
    ensures Safe(EndOf(s, run))
    decreases |run|
  {
    if run != [] {
      StepSafe(s, run[0]);
      RunSafe(Next(s, run[0]), run[1..]);
    }
  }

  /** At most one dispatch loop is ever alive. */
  lemma SinglePump(auto: bool, run: seq<Step>, t1: Tid, t2: Tid)
    requires Legal(Init(auto), run)
    requires Live(EndOf(Init(auto), run), t1) && Live(EndOf(Init(auto), run), t2)
    ensures t1 == t2
  {
    InitSafe(auto);
    RunSafe(Init(auto), run);
  }

  /** In every run, a controller that is past the guard of a start and finds the flag down starts a pump: it finds
      neither a live thread nor a known hang, so the branch that would report one is never taken. */
  lemma StartAlwaysStarts(auto: bool, run: seq<Step>)
    requires Legal(Init(auto), run)
    requires var s := EndOf(Init(auto), run); s.controller.Starting? && !s.flags.running
    ensures var s := EndOf(Init(auto), run); var e := Next(s, ByController(StartPump));
      && NoLive(s) && !s.flags.hung && ThreadAlive(e) && e.flags.running && !e.flags.stopEvent && !e.flags.hung
      && e.log == s.log + [Issued(PumpStart, false)] && e.queue == s.queue && e.controller.Idle?
  {
    InitSafe(auto);
    RunSafe(Init(auto), run);
  }

  /** The counter plus its one possible missing unit is exactly what is queued or in flight; a unit is
      missing only on a client whose DLL is known to hang. */
  lemma QueueAccounting(auto: bool, run: seq<Step>)
    requires Legal(Init(auto), run)
    ensures var e := EndOf(Init(auto), run);
      && e.queue.pending + One(e.ledger.short) == |e.queue.items| + |InFlight(e)|
      && (e.ledger.short ==> e.flags.hung)
  {
    InitSafe(auto);
    RunSafe(Init(auto), run);
    InFlightSet(EndOf(Init(auto), run));
  }

  /** No cancel of the run meets an operation between its pop and its decrement. */
  predicate CancelsAtRest(s: Sys, run: seq<Step>)
    requires Legal(s, run)
    decreases |run|
  {
    run == [] ||
    ((run[0] == ByController(CancelQueue) ==> InFlight(s) == {}) && CancelsAtRest(Next(s, run[0]), run[1..]))
  }

  lemma {:induction false} NeverShort(s: Sys, run: seq<Step>)
    requires Legal(s, run) && CancelsAtRest(s, run) && !s.ledger.short
    ensures !EndOf(s, run).ledger.short
    decreases |run|
  {
    if run != [] {
      NotShortStep(s, run[0]);
      NeverShort(Next(s, run[0]), run[1..]);
    }
  }

  lemma NotShortStep(s: Sys, l: Step)
    requires Enabled(s, l) && !s.ledger.short && (l == ByController(CancelQueue) ==> InFlight(s) == {})
    ensures !Next(s, l).ledger.short
  {}

  /** In such runs the unit is never missing: the counter is what is queued or in flight. */
  lemma CounterIsExact(auto: bool, run: seq<Step>)
    requires Legal(Init(auto), run) && CancelsAtRest(Init(auto), run)
    ensures var e := EndOf(Init(auto), run); e.queue.pending == |e.queue.items| + |InFlight(e)|
  {
    QueueAccounting(auto, run);
    NeverShort(Init(auto), run);
  }

  /** Every write drawn so far is with its writer, queued, executing or settled, in exactly one of the
      four, and no future is set twice. */
  lemma ExactlyOnce(auto: bool, run: seq<Step>, op: Op)
    requires Legal(Init(auto), run) && op < EndOf(Init(auto), run).ledger.nextOp
    ensures var e := EndOf(Init(auto), run);
      && One(op in e.ledger.writers) + One(op in e.queue.items) + One(IsExecuting(e, op))
        + One(op in e.ledger.settled) == 1
      && multiset(e.ledger.settled)[op] <= 1
  {
    InitSafe(auto);
    RunSafe(Init(auto), run);
    var e := EndOf(Init(auto), run);
    assert op in e.ledger.appended <==> op in Ops(e.ledger.removed) || op in e.queue.items;
    if op in Ops(e.ledger.removed) {
      InTwoHalves(Ops(e.ledger.removed), e.queue.items, op);
    }
    NoDupCounts(e.ledger.settled, op);
  }

  lemma {:induction false} NoDupCounts(xs: seq<Op>, op: Op)
    requires NoDup(xs)
    ensures multiset(xs)[op] <= 1
    decreases |xs|
  {
    if xs != [] {
      var n := |xs| - 1;
      NoDupCounts(xs[..n], op);
      assert xs == xs[..n] + [xs[n]];
      assert multiset(xs) == multiset(xs[..n]) + multiset{xs[n]};
      if xs[n] == op {
        assert op !in xs[..n];
        assert op !in multiset(xs[..n]);
      }
    }
  }

  /** First in, first out: the k-th operation to leave the queue is the k-th that was appended. */
  lemma FirstInFirstOut(auto: bool, run: seq<Step>, k: nat)
    requires Legal(Init(auto), run) && k < |EndOf(Init(auto), run).ledger.removed|
    ensures var e := EndOf(Init(auto), run);
      k < |e.ledger.appended| && e.ledger.removed[k].op == e.ledger.appended[k]
  {
    InitSafe(auto);
    RunSafe(Init(auto), run);
    var e := EndOf(Init(auto), run);
    assert e.ledger.appended[k] == (Ops(e.ledger.removed) + e.queue.items)[k];
  }

  // ---- flush ----

  /** flush_write_queue returns True when it finds the counter at zero. That means nothing is queued or in
      flight if and only if the counter is not short, and it never is while `native_hung` is False. When it
      is short, a write has no answer yet unless the pump is between that answer and its decrement. */
  lemma FlushIsExact(auto: bool, run: seq<Step>)
    requires Legal(Init(auto), run) && EndOf(Init(auto), run).queue.pending == 0
    ensures var e := EndOf(Init(auto), run);
      && (e.queue.items == [] && InFlight(e) == {} <==> !e.ledger.short)
      && (e.ledger.short ==> e.flags.hung)
      && ((forall op: Op :: op in e.ledger.appended ==> op in e.ledger.settled) <==>
          !e.ledger.short || exists t :: t in e.threads.pumps && e.threads.pumps[t].Settled?)
  {
    InitSafe(auto);
    RunSafe(Init(auto), run);
    var e := EndOf(Init(auto), run);
    InFlightSet(e);
    if t :| t in e.threads.pumps && e.threads.pumps[t].Settled? {
      NotExecuting(e, t);
      AllSettled(e);
    } else if !e.ledger.short {
      AllSettled(e);
    } else {
      SomeUnsettled(e);
    }
  }

  lemma NotExecuting(s: Sys, t: Tid)
    requires Safe(s) && s.queue.pending == 0 && t in s.threads.pumps && s.threads.pumps[t].Settled?
    ensures s.queue.items == [] && forall op: Op :: !IsExecuting(s, op)
  {
    OnlyPumpCounts(s, t);
  }

  lemma SomeUnsettled(s: Sys)
    requires Safe(s) && s.queue.pending == 0 && s.ledger.short
    requires forall t :: t in s.threads.pumps ==> !s.threads.pumps[t].Settled?
    ensures exists op: Op :: op in s.ledger.appended && op !in s.ledger.settled
  {
    if s.queue.items != [] {
      var op := s.queue.items[0];
      assert (Ops(s.ledger.removed) + s.queue.items)[|s.ledger.removed|] == op;
      assert op in s.ledger.appended && op !in s.ledger.settled;
    } else {
      var t :| t in s.threads.pumps && InFlightAt(s.threads.pumps[t]);
      var op := s.threads.pumps[t].op;
      assert IsExecuting(s, op);
      assert op in s.ledger.appended && op !in s.ledger.settled;
    }
  }

  lemma AllSettled(s: Sys)
    requires Safe(s) && s.queue.items == [] && (!AnyInFlight(s) || forall op: Op :: !IsExecuting(s, op))
    ensures forall op: Op :: op in s.ledger.appended ==> op in s.ledger.settled
  {
    assert forall op: Op :: !IsExecuting(s, op) by {
      forall op: Op ensures !IsExecuting(s, op) {
        if t :| t in s.threads.pumps && s.threads.pumps[t].Executing? && s.threads.pumps[t].op == op {
          assert InFlightAt(s.threads.pumps[t]);
        }
      }
    }
    assert s.ledger.appended == Ops(s.ledger.removed);
  }

  /** A client with one pump at `pc` and one write, queued or not. */
  function OneWrite(auto: bool, pc: Pc, items: seq<Op>, calls: seq<Issued>): Sys {
    Sys(FlagSet(true, false, false, true, auto), ThreadTable(Some(0), map[0 := pc], 1), Queue(items, 1), Idle,
        Ledger(1, {}, [0], if items == [] then [Removal(0, true)] else [], [], false), 0, 0, calls)
  }

  /** After a successful open, before a pump is started. */
  function Connected(auto: bool): Sys {
    Sys(FlagSet(false, false, false, true, auto), ThreadTable(None, map[], 0), Queue([], 0), Idle,
        Ledger(0, {}, [], [], [], false), 0, 0, [Issued(NativeOpen, false)])
  }

  function Opened(auto: bool): Sys {
    Sys(FlagSet(true, false, false, true, auto), ThreadTable(Some(0), map[0 := LoopTop], 1), Queue([], 0), Idle,
        Ledger(0, {}, [], [], [], false), 0, 0, CALLS)
  }

  lemma OpenAndStart(auto: bool)
    ensures Three(Init(auto), ByController(CallOpen), ByController(IssueOpen), ByController(CallOpenSucceeds),
                  Connected(auto))
    ensures Two(Connected(auto), ByController(CallStart), ByController(StartPump), Opened(auto))
  {}

  const CALLS := [Issued(NativeOpen, false), Issued(PumpStart, false)]
  const MORE := CALLS + [Issued(Dispatch, false)]

  lemma OneIsWritten(auto: bool)
    ensures Three(Opened(auto), ByOther(CheckOpen), ByOther(CheckRunning), ByOther(AppendWrite(0)),
                  OneWrite(auto, LoopTop, [0], CALLS))
  {}

  lemma GoesToDispatch(auto: bool)
    ensures Two(OneWrite(auto, LoopTop, [0], CALLS), ByPump(0, Statement), ByPump(0, Statement),
                OneWrite(auto, Dispatching(false, 0), [0], CALLS))
  {}

  lemma CallsDispatch(auto: bool)
    ensures Two(OneWrite(auto, Dispatching(false, 0), [0], CALLS), ByPump(0, Statement), ByPump(0, Statement),
                OneWrite(auto, InNative(false, 0), [0], MORE))
  {}

  lemma PopTheWrite(auto: bool)
    ensures Three(OneWrite(auto, InNative(false, 0), [0], MORE),
                  ByPump(0, NativeReturns), ByPump(0, Statement), ByPump(0, Statement),
                  OneWrite(auto, Executing(0, 0), [], MORE))
  {}

  /** What a close leaves behind whose join timed out on the running write. */
  function ClosedInFlight(auto: bool): Sys {
    Sys(FlagSet(false, true, true, true, false), ThreadTable(Some(0), map[0 := Executing(0, 0)], 1), Queue([], 0),
        Dropping, Ledger(1, {}, [0], [Removal(0, true)], [], true), 0, 0, MORE)
  }

  lemma CloseOnIt(auto: bool)
    ensures Three(OneWrite(auto, Executing(0, 0), [], MORE),
                  ByController(CallStop(Close)), ByController(JoinTimesOut), ByController(CancelQueue),
                  ClosedInFlight(auto))
  {
    var s := OneWrite(auto, Executing(0, 0), [], MORE);
    var joining := Next(s, ByController(CallStop(Close)));
    var cancelling := Next(joining, ByController(JoinTimesOut));
    assert 0 in InFlight(cancelling);
    assert s.ledger.removed + Dropped([]) == s.ledger.removed;
  }

  /** The counter does come out short: a close whose join times out on a running write leaves it at zero, so
      flush returns True while that write has not finished. */
  lemma FlushWhenShort(auto: bool) returns (run: seq<Step>)
    ensures Legal(Init(auto), run)
    ensures var e := EndOf(Init(auto), run);
      e.queue.pending == 0 && e.ledger.short && 0 in e.ledger.appended && 0 !in e.ledger.settled
  {
    OneIsWritten(auto);
    GoesToDispatch(auto);
    CallsDispatch(auto);
    PopTheWrite(auto);
    CloseOnIt(auto);
    run := [];
    ThreeRun(OneWrite(auto, Executing(0, 0), [], MORE),
             ByController(CallStop(Close)), ByController(JoinTimesOut), ByController(CancelQueue),
             ClosedInFlight(auto), run);
    run := [ByController(CallStop(Close)), ByController(JoinTimesOut), ByController(CancelQueue)] + run;
    ThreeRun(OneWrite(auto, InNative(false, 0), [0], MORE),
             ByPump(0, NativeReturns), ByPump(0, Statement), ByPump(0, Statement),
             OneWrite(auto, Executing(0, 0), [], MORE), run);
    run := [ByPump(0, NativeReturns), ByPump(0, Statement), ByPump(0, Statement)] + run;
    TwoRun(OneWrite(auto, Dispatching(false, 0), [0], CALLS), ByPump(0, Statement), ByPump(0, Statement),
           OneWrite(auto, InNative(false, 0), [0], MORE), run);
    run := [ByPump(0, Statement), ByPump(0, Statement)] + run;
    TwoRun(OneWrite(auto, LoopTop, [0], CALLS), ByPump(0, Statement), ByPump(0, Statement),
           OneWrite(auto, Dispatching(false, 0), [0], CALLS), run);
    run := [ByPump(0, Statement), ByPump(0, Statement)] + run;
    ThreeRun(Opened(auto), ByOther(CheckOpen), ByOther(CheckRunning), ByOther(AppendWrite(0)),
             OneWrite(auto, LoopTop, [0], CALLS), run);
    run := [ByOther(CheckOpen), ByOther(CheckRunning), ByOther(AppendWrite(0))] + run;
    run := OpenedThen(auto, run);
  }

  /** What can follow once the client is open and its pump runs can follow in a run of its own. */
  lemma OpenedThen(auto: bool, rest: seq<Step>) returns (run: seq<Step>)
    requires Legal(Opened(auto), rest)
    ensures Legal(Init(auto), run) && EndOf(Init(auto), run) == EndOf(Opened(auto), rest)
    ensures run != [] && run[0] == ByController(CallOpen)
    ensures forall l :: l in run[1..] ==> l in rest || l != ByController(CallOpen)
  {
    OpenAndStart(auto);
    TwoRun(Connected(auto), ByController(CallStart), ByController(StartPump), Opened(auto), rest);
    run := [ByController(CallStart), ByController(StartPump)] + rest;
    ThreeRun(Init(auto), ByController(CallOpen), ByController(IssueOpen), ByController(CallOpenSucceeds),
             Connected(auto), run);
    var tail := [ByController(IssueOpen), ByController(CallOpenSucceeds)] + run;
    run := [ByController(CallOpen), ByController(IssueOpen), ByController(CallOpenSucceeds)] + run;
    assert run[1..] == tail;
  }

  predicate Two(s: Sys, l1: Step, l2: Step, e: Sys) {
    Enabled(s, l1) && Enabled(Next(s, l1), l2) && e == Next(Next(s, l1), l2)
  }

  predicate Three(s: Sys, l1: Step, l2: Step, l3: Step, e: Sys) {
    Enabled(s, l1) && Two(Next(s, l1), l2, l3, e)
  }

  lemma TwoRun(s: Sys, l1: Step, l2: Step, e: Sys, rest: seq<Step>)
    requires Two(s, l1, l2, e) && Legal(e, rest)
    ensures Legal(s, [l1, l2] + rest) && EndOf(s, [l1, l2] + rest) == EndOf(e, rest)
  {
    StepThenRun(Next(s, l1), l2, rest);
    StepThenRun(s, l1, [l2] + rest);
    assert [l1] + ([l2] + rest) == [l1, l2] + rest;
  }

  lemma ThreeRun(s: Sys, l1: Step, l2: Step, l3: Step, e: Sys, rest: seq<Step>)
    requires Three(s, l1, l2, l3, e) && Legal(e, rest)
    ensures Legal(s, [l1, l2, l3] + rest) && EndOf(s, [l1, l2, l3] + rest) == EndOf(e, rest)
  {
    TwoRun(Next(s, l1), l2, l3, e, rest);
    StepThenRun(s, l1, [l2, l3] + rest);
    assert [l1] + ([l2, l3] + rest) == [l1, l2, l3] + rest;
  }

  // ---- the flag and the thread ----

  predicate AllDisciplined(s: Sys, run: seq<Step>)
    requires Legal(s, run)
    decreases |run|
  {
    run == [] || (Disciplined(s, run[0]) && AllDisciplined(Next(s, run[0]), run[1..]))
  }

  lemma {:induction false} RunFlags(s: Sys, run: seq<Step>)
    requires Threads(s) && Flags(s) && Legal(s, run) && AllDisciplined(s, run)
    ensures Threads(EndOf(s, run)) && Flags(EndOf(s, run))
    decreases |run|
  {
    if run != [] {
      ThreadsKept(s, run[0]);
      FlagsKept(s, run[0]);
      RunFlags(Next(s, run[0]), run[1..]);
    }
  }

  /** A raised flag was raised by the start of the thread recorded last, and that thread has not left its loop
      except through the reconnect break of a client known to hang. */
  ghost predicate RaisedFlag(s: Sys) {
    s.flags.running ==>
      && !s.flags.stopEvent && s.threads.thread.Some? && s.threads.thread.value in s.threads.pumps
      && var pc := s.threads.pumps[s.threads.thread.value]; pc.Exited? ==> pc.how == OnReconnect && s.flags.hung
  }

  lemma PumpKeepsRaisedFlag(s: Sys, l: Step)
    requires Threads(s) && RaisedFlag(s) && Enabled(s, l) && l.ByPump?
    ensures RaisedFlag(Next(s, l))
  {
    PumpMoves(s, l);
    if s.flags.running {
      StatementExits(s, s.threads.pumps[l.t], l.pump);
    }
  }

  lemma StatementExits(s: Sys, pc: Pc, p: PumpEvent)
    requires PumpEnabled(pc, p) && s.flags.running && !s.flags.stopEvent
    ensures PcAfter(s, pc, p).Exited? ==> PcAfter(s, pc, p).how == OnReconnect && SharedAfter(s, pc, p).flags.hung
  {}

  lemma StepKeepsRaisedFlag(s: Sys, l: Step)
    requires Threads(s) && RaisedFlag(s) && Enabled(s, l)
    ensures RaisedFlag(Next(s, l))
  {
    match l
    case ByPump(_, _) => PumpKeepsRaisedFlag(s, l);
    case _ =>
  }

  lemma {:induction false} RunKeepsRaisedFlag(s: Sys, run: seq<Step>)
    requires Threads(s) && RaisedFlag(s) && Legal(s, run)
    ensures Threads(EndOf(s, run)) && RaisedFlag(EndOf(s, run))
    decreases |run|
  {
    if run != [] {
      ThreadsKept(s, run[0]);
      StepKeepsRaisedFlag(s, run[0]);
      RunKeepsRaisedFlag(Next(s, run[0]), run[1..]);
    }
  }

  /** In every run, proper opens or not: behind a raised flag there is a live pump if and only if the thread
      started last did not leave its loop through the reconnect break, and it leaves that way only once the
      hang is known. */
  lemma RaisedFlagHasAPump(auto: bool, run: seq<Step>)
    requires Legal(Init(auto), run) && EndOf(Init(auto), run).flags.running
    ensures var e := EndOf(Init(auto), run);
      && e.threads.thread.Some? && e.threads.thread.value in e.threads.pumps
      && (ThreadAlive(e) <==> e.threads.pumps[e.threads.thread.value] != Exited(OnReconnect))
      && (!ThreadAlive(e) ==> NoLive(e) && e.flags.hung)
  {
    InitSafe(auto);
    RunKeepsRaisedFlag(Init(auto), run);
  }

  /** When every open() was proper: a raised flag with no live pump means a known hang on a closed client. So a
      writer that passes the second test of _enqueue_write finds a live pump whenever native_hung is False. */
  lemma NoWriteToADeadPump(auto: bool, run: seq<Step>)
    requires Legal(Init(auto), run) && AllDisciplined(Init(auto), run)
    ensures var e := EndOf(Init(auto), run);
      && (e.flags.running && NoLive(e) ==> e.flags.hung && !e.flags.isOpen)
      && (Enabled(e, ByOther(CheckRunning)) && (!e.flags.hung || e.flags.isOpen) ==> ThreadAlive(e))
  {
    InitSafe(auto);
    RunFlags(Init(auto), run);
    var e := EndOf(Init(auto), run);
    if !NoLive(e) {
      var t :| t in e.threads.pumps && !e.threads.pumps[t].Exited?;
      assert e.threads.thread == Some(t);
    }
  }

  /** Proper is the exact guard: an open() called when it does not hold can always end, in a run that is
      proper from then on, with a dead pump behind a raised flag on an open client. */
  lemma ProperOpenIsExact(auto: bool, run: seq<Step>) returns (rest: seq<Step>)
    requires Legal(Init(auto), run) && AllDisciplined(Init(auto), run)
    requires EndOf(Init(auto), run).controller.Idle? && !ProperOpen(EndOf(Init(auto), run))
    ensures Legal(EndOf(Init(auto), run), rest) && rest != [] && rest[0] == ByController(CallOpen)
    ensures forall i :: 1 <= i < |rest| ==> rest[i] != ByController(CallOpen)
    ensures !FlagAgrees(EndOf(EndOf(Init(auto), run), rest))
  {
    InitSafe(auto);
    RunFlags(Init(auto), run);
    rest := ImproperOpenBreaksAgreement(EndOf(Init(auto), run));
  }
}
