/**
 The write queue and the background pump as a step system: any number of writers, the pump threads, one
 serialised controller (start, stop, restart, close, open) and a DLL that may never return.

 One step is one atomic action of one thread: a block under the queue lock, a test of the flags, or the
 issue of a native call. The test of `_native_hung` that guards a call is a step of its own: between the
 two the thread may wait for the I/O lock. An operation is named by the number its writer drew.
 */
module Pump {
  import opened Wrappers
  import opened WriteQueue

  type Op = nat
  type Tid = nat

  /** Where a pump thread stands in `_dispatch_loop` and the functions it calls. `polls` bounds the
      dispatches of `_pump_until_open` before its deadline; outside it there are none. */
  datatype Pc =
    | LoopTop
    | LoopBody
    | Dispatching(opening: bool, polls: nat)
    | Calling(opening: bool, polls: nat)
    | InNative(opening: bool, polls: nat)
    | Failed
    | DrainCheck
    | Draining(count: nat)
    | Executing(op: Op, count: nat)
    | Settled(op: Op, count: nat)
    | ExitCheck
    | ReconnectCheck
    | ReconnectGuard
    | ReconnectWait
    | Reopening
    | CallingOpen
    | InOpen
    | AwaitOpen(polls: nat)
    | Exited(how: Exit)

  /** _pump_until_open polls for five seconds and sleeps five milliseconds after each dispatch. */
  const MAX_POLLS := 1001

  datatype Exit = Normal | OnException | OnReconnect

  /** What the controller does once the stop it is in has ended. */
  datatype After = Stop | Restart | Close

  /** Where the controller stands: in a stop, at or past the guard of a start, a close or an open. */
  datatype Controller =
    | Idle
    | Joining(after: After)
    | StartGuard
    | Starting
    | Cancelling
    | Dropping
    | Closing(hadHandle: bool)
    | PastCloseGuard
    | PastOpenGuard
    | Opening

  datatype Call = NativeOpen | NativeClose | Dispatch | RawDispatch | PumpStart

  /** A call issued to the DLL or a pump started, and whether `_native_hung` was set by then. */
  datatype Issued = Issued(call: Call, hung: bool)

  /** How an operation left the queue: popped by a pump or dropped by a cancel. */
  datatype Removal = Removal(op: Op, ran: bool)

  /** The client's fields and the stop event. */
  datatype FlagSet = FlagSet(running: bool, stopEvent: bool, hung: bool, isOpen: bool, autoReconnect: bool)

  /** `_dispatch_thread` and every pump ever started. */
  datatype ThreadTable = ThreadTable(thread: Option<Tid>, pumps: map<Tid, Pc>, nextTid: Tid)

  /** The writers past their check, and the histories of the operations: the order of the appends, of the
      removals and of the futures being set, and whether the counter is one short because a cancel has met
      an operation in flight. */
  datatype Ledger = Ledger(
    nextOp: Op,
    writers: set<Op>,
    appended: seq<Op>,
    removed: seq<Removal>,
    settled: seq<Op>,
    short: bool
  )

  /** The whole client. `callers` is how many other threads are past the guard of a dispatch() of their own, and
      `checking` how many writers are between the two tests of _enqueue_write. */
  datatype Sys = Sys(
    flags: FlagSet,
    threads: ThreadTable,
    queue: Queue<Op>,
    controller: Controller,
    ledger: Ledger,
    callers: nat,
    checking: nat,
    log: seq<Issued>
  )

  function Init(autoReconnect: bool): Sys {
    Sys(FlagSet(false, false, false, false, autoReconnect), ThreadTable(None, map[], 0), Queue([], 0), Idle,
        Ledger(0, {}, [], [], [], false), 0, 0, [])
  }

  predicate Live(s: Sys, t: Tid) { t in s.threads.pumps && !s.threads.pumps[t].Exited? }

  predicate ThreadAlive(s: Sys) { s.threads.thread.Some? && Live(s, s.threads.thread.value) }

  /** Operations popped and not yet settled, over all pumps. */
  predicate InFlightAt(pc: Pc) { pc.Executing? || pc.Settled? }

  function InFlight(s: Sys): set<Tid> { set t | t in s.threads.pumps && InFlightAt(s.threads.pumps[t]) }

  function Issue(s: Sys, c: Call): Sys { s.(log := s.log + [Issued(c, s.flags.hung)]) }

  function MarkHung(s: Sys): Sys { s.(flags := s.flags.(hung := true, autoReconnect := false)) }

  function At(s: Sys, t: Tid, pc: Pc): Sys { s.(threads := s.threads.(pumps := s.threads.pumps[t := pc])) }

  /** What a pump thread does next: its next statement, or how the native call it is in ends. */
  datatype PumpEvent =
    | Statement
    | StopsPolling
    | NativeReturns
    | NativeRaises
    | OpenSucceeds(polls: nat)
    | OpenFails
    | OpenHangs

  datatype ControllerEvent =
    | CallStart
    | CallStop(after: After)
    | Joined
    | JoinTimesOut
    | GuardStart
    | StartPump
    | CancelQueue
    | DropHandle
    | GuardClose
    | NativeCloses
    | CallOpen
    | IssueOpen
    | CallOpenSucceeds
    | CallOpenFails
    | CallOpenHangs

  /** What everyone else does: the simulator quits; a writer passes the two tests of _enqueue_write, runs its
      operation itself after the first or appends it after the second; and any thread may pump by hand:
      dispatch() tests its guard and then calls, call_dispatch() has no guard on `_native_hung`. */
  datatype OtherEvent =
    | Quit
    | CheckOpen
    | CheckRunning
    | WriteDirectly
    | AppendWrite(op: Op)
    | UserDispatch
    | UserCalls
    | UserCallDispatch

  datatype Step =
    | ByPump(t: Tid, pump: PumpEvent)
    | ByController(controller: ControllerEvent)
    | ByOther(other: OtherEvent)

  // ---- the pump loop, statement by statement ----

  /** Where the next statement of a pump at `pc` leaves it. */
  function NextPc(s: Sys, pc: Pc): Pc {
    match pc
    case LoopTop => if s.flags.running || s.queue.pending > 0 then LoopBody else Exited(Normal)
    case LoopBody => if s.flags.isOpen && s.flags.running then Dispatching(false, 0) else DrainCheck
    case Dispatching(opening, polls) =>
      if !s.flags.hung && s.flags.isOpen then Calling(opening, polls)
      else if opening then AwaitOpen(polls)
      else DrainCheck
    case Calling(opening, polls) => InNative(opening, polls)
    case Failed => if s.flags.stopEvent then Exited(OnException) else LoopTop
    case DrainCheck => if s.queue.pending > 0 then Draining(0) else ExitCheck
    case Draining(count) =>
      if count < MAX_DRAIN && s.queue.items != [] then Executing(s.queue.items[0], count) else ExitCheck
    case Executing(op, count) => Settled(op, count)
    case Settled(op, count) => Draining(count + 1)
    case ExitCheck => if !s.flags.running && s.queue.pending == 0 then Exited(Normal) else ReconnectCheck
    case ReconnectCheck =>
      if !s.flags.isOpen && s.flags.running && s.flags.autoReconnect then ReconnectGuard else LoopTop
    case ReconnectGuard => if s.flags.hung then Exited(OnReconnect) else ReconnectWait
    case ReconnectWait => if s.flags.stopEvent then Exited(OnReconnect) else Reopening
    case Reopening => if s.flags.hung then Exited(OnReconnect) else CallingOpen
    case CallingOpen => InOpen
    case AwaitOpen(polls) => if polls > 0 then Dispatching(true, polls - 1) else LoopTop
    case InNative(_, _) => pc
    case InOpen => pc
    case Exited(_) => pc
  }

  /** The calls of a pump; each of them was let through by a guard one statement earlier. */
  function CallAt(pc: Pc): Option<Call> {
    match pc
    case Calling(_, _) => Some(Dispatch)
    case CallingOpen => Some(NativeOpen)
    case _ => None
  }

  predicate PopsAt(s: Sys, pc: Pc) { pc.Draining? && pc.count < MAX_DRAIN && s.queue.items != [] }

  /** What that statement does to the shared state. */
  function Effect(s: Sys, pc: Pc): Sys {
    s.(queue := if PopsAt(s, pc) then s.queue.Pop() else if pc.Settled? then s.queue.Finish() else s.queue,
       ledger := s.ledger.(
         removed := if PopsAt(s, pc) then s.ledger.removed + [Removal(s.queue.items[0], true)] else s.ledger.removed,
         settled := if pc.Executing? then s.ledger.settled + [pc.op] else s.ledger.settled,
         short := s.ledger.short && !(pc.Settled? && s.queue.pending == 0)),
       log := if CallAt(pc).Some? then s.log + [Issued(CallAt(pc).value, s.flags.hung)] else s.log)
  }

  /** The statements after which PumpStep may follow: everything but waiting for the DLL. */
  predicate Runnable(pc: Pc) { !pc.InNative? && !pc.InOpen? && !pc.Exited? }

  // ---- the controller ----

  /** start_background_dispatch after its test of `_native_hung`. */
  function Start(s: Sys): Sys {
    if s.flags.running then s
    else if ThreadAlive(s) then MarkHung(s)
    else
      var t := s.threads.nextTid;
      Issue(s, PumpStart).(
        flags := s.flags.(stopEvent := false, running := true),
        threads := ThreadTable(Some(t), s.threads.pumps[t := LoopTop], t + 1))
  }

  function Dropped(items: seq<Op>): (r: seq<Removal>)
    ensures |r| == |items|
    ensures forall i :: 0 <= i < |items| ==> r[i] == Removal(items[i], false)
  {
    seq(|items|, i requires 0 <= i < |items| => Removal(items[i], false))
  }

  function Cancel(s: Sys): Sys {
    s.(queue := s.queue.Cancel(),
       ledger := s.ledger.(removed := s.ledger.removed + Dropped(s.queue.items),
                           settled := s.ledger.settled + s.queue.items,
                           short := InFlight(s) != {}))
  }

  predicate PumpEnabled(pc: Pc, p: PumpEvent) {
    match p
    case Statement => Runnable(pc)
    case StopsPolling => pc.AwaitOpen?
    case NativeReturns => pc.InNative?
    case NativeRaises => pc.InNative?
    case OpenSucceeds(polls) => pc.InOpen? && polls <= MAX_POLLS
    case OpenFails => pc.InOpen?
    case OpenHangs => pc.InOpen?
  }

  predicate ControllerEnabled(s: Sys, c: ControllerEvent) {
    match c
    case CallStart => s.controller.Idle?
    case CallStop(_) => s.controller.Idle?
    case Joined => s.controller.Joining? && !ThreadAlive(s)
    case JoinTimesOut => s.controller.Joining? && ThreadAlive(s)
    case GuardStart => s.controller.StartGuard?
    case StartPump => s.controller.Starting?
    case CancelQueue => s.controller.Cancelling?
    case DropHandle => s.controller.Dropping?
    case GuardClose => s.controller.Closing?
    case NativeCloses => s.controller.PastCloseGuard?
    case CallOpen => s.controller.Idle?
    case IssueOpen => s.controller.PastOpenGuard?
    case CallOpenSucceeds => s.controller.Opening?
    case CallOpenFails => s.controller.Opening?
    case CallOpenHangs => s.controller.Opening?
  }

  predicate OtherEnabled(s: Sys, o: OtherEvent) {
    match o
    case Quit => s.flags.isOpen
    case CheckOpen => s.flags.isOpen
    case CheckRunning => s.checking > 0 && s.flags.running
    case WriteDirectly => s.checking > 0
    case AppendWrite(op) => op in s.ledger.writers
    case UserDispatch => true
    case UserCalls => s.callers > 0
    case UserCallDispatch => s.flags.isOpen
  }

  predicate Enabled(s: Sys, l: Step) {
    match l
    case ByPump(t, p) => t in s.threads.pumps && PumpEnabled(s.threads.pumps[t], p)
    case ByController(c) => ControllerEnabled(s, c)
    case ByOther(o) => OtherEnabled(s, o)
  }

  function PcAfter(s: Sys, pc: Pc, p: PumpEvent): Pc
    requires PumpEnabled(pc, p)
  {
    match p
    case Statement => NextPc(s, pc)
    case StopsPolling => LoopTop
    case NativeReturns => if pc.opening then AwaitOpen(pc.polls) else DrainCheck
    case NativeRaises => if pc.opening then LoopTop else Failed
    case OpenSucceeds(polls) => AwaitOpen(polls)
    case OpenFails => LoopTop
    case OpenHangs => Exited(OnReconnect)
  }

  function SharedAfter(s: Sys, pc: Pc, p: PumpEvent): Sys {
    match p
    case Statement => Effect(s, pc)
    case OpenSucceeds(_) => s.(flags := s.flags.(isOpen := true))
    case OpenHangs => MarkHung(s)
    case _ => s
  }

  function ControllerNext(s: Sys, c: ControllerEvent): Sys
    requires ControllerEnabled(s, c)
  {
    match c
    case CallStart => if s.flags.hung then s else s.(controller := Starting)
    case CallStop(after) =>
      s.(flags := s.flags.(running := false, stopEvent := true), controller := Joining(after))
    case Joined =>
      s.(threads := s.threads.(thread := None),
         controller := match s.controller.after case Stop => Idle case Restart => StartGuard case Close => Cancelling)
    case JoinTimesOut =>
      MarkHung(s).(controller := if s.controller.after.Close? then Cancelling else Idle)
    case GuardStart => s.(controller := if s.flags.hung then Idle else Starting)
    case StartPump => Start(s).(controller := Idle)
    case CancelQueue => Cancel(s).(controller := Dropping)
    case DropHandle => s.(flags := s.flags.(isOpen := false), controller := Closing(s.flags.isOpen))
    case GuardClose => s.(controller := if s.flags.hung || !s.controller.hadHandle then Idle else PastCloseGuard)
    case NativeCloses => Issue(s, NativeClose).(controller := Idle)
    case CallOpen => if s.flags.hung then s else s.(controller := PastOpenGuard)
    case IssueOpen => Issue(s, NativeOpen).(controller := Opening)
    case CallOpenSucceeds => s.(flags := s.flags.(isOpen := true), controller := Idle)
    case CallOpenFails => s.(controller := Idle)
    case CallOpenHangs => MarkHung(s).(controller := Idle)
  }

  function OtherNext(s: Sys, o: OtherEvent): Sys {
    match o
    case Quit => s.(flags := s.flags.(isOpen := false))
    case CheckOpen => s.(checking := s.checking + 1)
    case CheckRunning =>
      s.(ledger := s.ledger.(nextOp := s.ledger.nextOp + 1, writers := s.ledger.writers + {s.ledger.nextOp}),
         checking := if s.checking > 0 then s.checking - 1 else 0)
    case WriteDirectly =>
      s.(ledger := s.ledger.(nextOp := s.ledger.nextOp + 1, settled := s.ledger.settled + [s.ledger.nextOp]),
         checking := if s.checking > 0 then s.checking - 1 else 0)
    case AppendWrite(op) =>
      s.(queue := s.queue.Append(op),
         ledger := s.ledger.(appended := s.ledger.appended + [op], writers := s.ledger.writers - {op}))
    case UserDispatch => if s.flags.hung || !s.flags.isOpen then s else s.(callers := s.callers + 1)
    case UserCalls => Issue(s, Dispatch).(callers := if s.callers > 0 then s.callers - 1 else 0)
    case UserCallDispatch => Issue(s, RawDispatch)
  }

  function Next(s: Sys, l: Step): Sys
    requires Enabled(s, l)
  {
    match l
    case ByPump(t, p) => At(SharedAfter(s, s.threads.pumps[t], p), t, PcAfter(s, s.threads.pumps[t], p))
    case ByController(c) => ControllerNext(s, c)
    case ByOther(o) => OtherNext(s, o)
  }

  // ---- runs ----

  predicate Legal(s: Sys, run: seq<Step>)
    decreases |run|
  {
    run == [] || (Enabled(s, run[0]) && Legal(Next(s, run[0]), run[1..]))
  }

  function EndOf(s: Sys, run: seq<Step>): Sys
    requires Legal(s, run)
    decreases |run|
  {
    if run == [] then s else EndOf(Next(s, run[0]), run[1..])
  }

  lemma {:induction false} RunsCompose(s: Sys, first: seq<Step>, second: seq<Step>)
    requires Legal(s, first) && Legal(EndOf(s, first), second)
    ensures Legal(s, first + second) && EndOf(s, first + second) == EndOf(EndOf(s, first), second)
    decreases |first|
  {
    if first == [] {
      assert first + second == second;
    } else {
      assert (first + second)[1..] == first[1..] + second;
      RunsCompose(Next(s, first[0]), first[1..], second);
    }
  }

  lemma StepThenRun(s: Sys, l: Step, run: seq<Step>)
    requires Enabled(s, l) && Legal(Next(s, l), run)
    ensures Legal(s, [l] + run) && EndOf(s, [l] + run) == EndOf(Next(s, l), run)
  {
    assert ([l] + run)[1..] == run;
  }
}
