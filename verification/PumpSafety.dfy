/** What every run of the pump step system keeps. */
module PumpSafety {
  import opened Wrappers
  import opened Pump

  /** A pump step moves one live pump and leaves the other pumps, the thread record, the stop flags,
      the writers and the controller alone. */
  ghost predicate Moves(s: Sys, u: Sys, t: Tid) {
    && t in s.threads.pumps && !s.threads.pumps[t].Exited? && t in u.threads.pumps
    && u.threads == s.threads.(pumps := s.threads.pumps[t := u.threads.pumps[t]])
    && Keeps(s, u)
  }

  predicate Keeps(s: Sys, u: Sys) {
    && u.controller == s.controller && u.callers == s.callers && u.checking == s.checking
    && u.flags.running == s.flags.running && u.flags.stopEvent == s.flags.stopEvent && (s.flags.hung ==> u.flags.hung)
    && u.ledger == s.ledger.(removed := u.ledger.removed, settled := u.ledger.settled, short := u.ledger.short)
  }

  lemma SharedFrame(s: Sys, pc: Pc, p: PumpEvent)
    ensures SharedAfter(s, pc, p).threads == s.threads && Keeps(s, SharedAfter(s, pc, p))
  {}

  lemma PumpMoves(s: Sys, l: Step)
    requires Enabled(s, l) && l.ByPump?
    ensures Moves(s, Next(s, l), l.t)
  {
    SharedFrame(s, s.threads.pumps[l.t], l.pump);
  }

  // ---- one pump ----

  ghost predicate NoLive(s: Sys) { forall t :: t in s.threads.pumps ==> s.threads.pumps[t].Exited? }

  ghost predicate Threads(s: Sys) {
    && (forall t :: t in s.threads.pumps ==> t < s.threads.nextTid)
    && (forall t :: t in s.threads.pumps && !s.threads.pumps[t].Exited? ==> s.threads.thread == Some(t))
    && (s.threads.thread.Some? ==> s.threads.thread.value in s.threads.pumps)
    && (Stopping(s.controller) ==> !s.flags.running)
    && (!s.flags.running && !s.controller.Joining? ==> s.flags.hung || NoLive(s))
    && (s.controller.StartGuard? ==> NoLive(s))
    && ((s.controller.Starting? && !s.flags.running) || s.controller.PastCloseGuard? ==> NoLive(s) && !s.flags.hung)
  }

  /** The controller is in a stop, in what a restart or a close does after it, or past the guard of a close. */
  predicate Stopping(c: Controller) {
    c.Joining? || c.StartGuard? || c.Cancelling? || c.Dropping? || c.Closing? || c.PastCloseGuard?
  }

  lemma ThreadsMove(s: Sys, u: Sys, t: Tid)
    requires Threads(s) && Moves(s, u, t)
    ensures Threads(u)
  {}

  lemma ThreadsStart(s: Sys)
    requires Threads(s) && s.controller.Starting?
    ensures Threads(Start(s).(controller := Idle))
  {}

  lemma SamePumps(s: Sys, u: Sys)
    requires u.threads.pumps == s.threads.pumps
    ensures NoLive(s) <==> NoLive(u)
  {}

  lemma ControllerThreads(s: Sys, c: ControllerEvent)
    requires Threads(s) && ControllerEnabled(s, c)
    ensures Threads(ControllerNext(s, c))
  {
    if c.StartPump? {
      ThreadsStart(s);
    } else {
      SamePumps(s, ControllerNext(s, c));
    }
  }

  lemma PumpThreads(s: Sys, l: Step)
    requires Threads(s) && Enabled(s, l) && l.ByPump?
    ensures Threads(Next(s, l))
  {
    PumpMoves(s, l);
    ThreadsMove(s, Next(s, l), l.t);
  }

  lemma OtherThreads(s: Sys, o: OtherEvent)
    requires Threads(s)
    ensures Threads(OtherNext(s, o))
  {
    SamePumps(s, OtherNext(s, o));
  }

  lemma ThreadsKept(s: Sys, l: Step)
    requires Threads(s) && Enabled(s, l)
    ensures Threads(Next(s, l))
  {
    match l
    case ByPump(_, _) => PumpThreads(s, l);
    case ByController(c) => ControllerThreads(s, c);
    case ByOther(o) => OtherThreads(s, o);
  }

  // ---- the counter ----

  ghost predicate AnyInFlight(s: Sys) { exists t :: t in s.threads.pumps && InFlightAt(s.threads.pumps[t]) }

  function One(b: bool): nat { if b then 1 else 0 }

  /** The counter and its one possible missing unit are the operations queued or in flight; it is short
      only after a stop that timed out. */
  ghost predicate Accounting(s: Sys) {
    && s.queue.pending + One(s.ledger.short) == |s.queue.items| + One(AnyInFlight(s))
    && (s.ledger.short ==> s.flags.hung)
  }

  lemma OnlyPumpCounts(s: Sys, t: Tid)
    requires Threads(s) && t in s.threads.pumps && !s.threads.pumps[t].Exited?
    ensures AnyInFlight(s) <==> InFlightAt(s.threads.pumps[t])
  {}

  lemma InFlightSet(s: Sys)
    requires Threads(s)
    ensures |InFlight(s)| == One(AnyInFlight(s))
  {
    if t :| t in s.threads.pumps && InFlightAt(s.threads.pumps[t]) {
      assert InFlight(s) == {t};
    } else {
      assert InFlight(s) == {};
    }
  }

  lemma MovedPumpCounts(s: Sys, u: Sys, t: Tid)
    requires Threads(s) && Moves(s, u, t)
    ensures AnyInFlight(s) <==> InFlightAt(s.threads.pumps[t])
    ensures AnyInFlight(u) <==> InFlightAt(u.threads.pumps[t])
  {
    assert forall x :: x in s.threads.pumps && x != t ==>
      u.threads.pumps[x] == s.threads.pumps[x] && s.threads.pumps[x].Exited?;
  }

  lemma PumpAccounting(s: Sys, l: Step)
    requires Threads(s) && Accounting(s) && Enabled(s, l) && l.ByPump?
    ensures Accounting(Next(s, l))
  {
    PumpMoves(s, l);
    MovedPumpCounts(s, Next(s, l), l.t);
    PumpQueueEffect(s, l);
  }

  /** The only pump statements that touch the queue: popleft and the decrement after it. */
  ghost predicate QueueEffect(s: Sys, u: Sys, pc: Pc, pc': Pc) {
    if InFlightAt(pc) == InFlightAt(pc') then u.queue == s.queue && u.ledger.short == s.ledger.short
    else if InFlightAt(pc') then s.queue.items != [] && u.queue == s.queue.Pop() && u.ledger.short == s.ledger.short
    else u.queue == s.queue.Finish() && u.ledger.short == (s.ledger.short && s.queue.pending > 0)
  }

  lemma StatementQueueEffect(s: Sys, pc: Pc)
    ensures QueueEffect(s, Effect(s, pc), pc, NextPc(s, pc))
  {}

  lemma PumpQueueEffect(s: Sys, l: Step)
    requires Enabled(s, l) && l.ByPump?
    ensures QueueEffect(s, Next(s, l), s.threads.pumps[l.t], Next(s, l).threads.pumps[l.t])
  {
    StatementQueueEffect(s, s.threads.pumps[l.t]);
  }

  lemma SameInFlight(s: Sys, u: Sys)
    requires u.threads.pumps == s.threads.pumps
    ensures AnyInFlight(s) <==> AnyInFlight(u)
  {}

  lemma ControllerAccounting(s: Sys, c: ControllerEvent)
    requires Threads(s) && Accounting(s) && ControllerEnabled(s, c)
    ensures Accounting(ControllerNext(s, c))
  {
    if c.StartPump? {
      StartCounts(s);
      SameInFlight(Start(s), ControllerNext(s, c));
    } else {
      InFlightSet(s);
      SameInFlight(s, ControllerNext(s, c));
    }
  }

  lemma AccountingKept(s: Sys, l: Step)
    requires Threads(s) && Accounting(s) && Enabled(s, l)
    ensures Accounting(Next(s, l))
  {
    match l
    case ByPump(_, _) => PumpAccounting(s, l);
    case ByController(c) => ControllerAccounting(s, c);
    case ByOther(_) => SameInFlight(s, Next(s, l));
  }

  lemma StartCounts(s: Sys)
    requires Threads(s)
    ensures AnyInFlight(Start(s)) <==> AnyInFlight(s)
    ensures Start(s).queue == s.queue && Start(s).ledger.short == s.ledger.short
      && (s.flags.hung ==> Start(s).flags.hung)
  {
    var u := Start(s);
    assert s.threads.nextTid !in s.threads.pumps;
    assert forall t :: t in s.threads.pumps ==> t in u.threads.pumps && u.threads.pumps[t] == s.threads.pumps[t];
    assert forall t :: t in u.threads.pumps ==> t in s.threads.pumps || u.threads.pumps[t] == LoopTop;
  }
}
