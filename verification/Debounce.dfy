/** The restore timer that merges a burst of triggers, over a logical clock in milliseconds. */
module Debounce {
  import opened Wrappers

  const DEBOUNCE := 2000
  const OPEN_COVERS := 8000

  /** `_restore_timer` as its deadline, `_open_restored_at` (0 until the first OPEN), `is_open` and
      `_open_received`. */
  datatype Timing = Timing(timer: Option<int>, openRestoredAt: int, isOpen: bool, openReceived: bool)

  function Schedule(t: Timing, now: int): Timing { t.(timer := Some(now + DEBOUNCE)) }

  /** Whether a full restore ran when OPEN arrived less than 8 s ago. */
  predicate CoveredByOpen(t: Timing, now: int) { t.openRestoredAt > 0 && now - t.openRestoredAt < OPEN_COVERS }

  /** Whether the timer, when it fires, runs a full restore itself. */
  predicate FiresARestore(t: Timing, now: int) { t.isOpen && !CoveredByOpen(t, now) }

  class RestoreTimer {
    var timer: Option<int>
    var openRestoredAt: int
    var isOpen: bool
    var openReceived: bool

    ghost function View(): Timing
      reads this
    {
      Timing(timer, openRestoredAt, isOpen, openReceived)
    }

    constructor ()
      ensures View() == Timing(None, 0, false, false)
    {
      timer, openRestoredAt, isOpen, openReceived := None, 0, false, false;
    }

    method CancelRestoreTimer()
      modifies `timer
      ensures View() == old(View()).(timer := None)
    {
      if timer.Some? {
        timer := None;
      }
    }

    method ScheduleRestoreSubscriptions(now: int)
      modifies `timer
      ensures View() == Schedule(old(View()), now)
    {
      CancelRestoreTimer();
      timer := Some(now + DEBOUNCE);
    }

    method RunScheduledRestore(now: int) returns (restores: bool)
      modifies `timer
      ensures View() == old(View()).(timer := None) && restores == FiresARestore(old(View()), now)
    {
      timer := None;
      if !isOpen {
        return false;
      }
      if openRestoredAt > 0 && now - openRestoredAt < OPEN_COVERS {
        return false;
      }
      restores := true;
    }
  }

  // ---- runs ----

  /** What happened, and when. */
  datatype Event =
    | Trigger(at: int)
    | Fire(at: int, onOpen: bool)
    | Restored(at: int)
    | Cancel(at: int)
    | NewSession(at: int)

  datatype Sys = Sys(now: int, timing: Timing, log: seq<Event>)

  /** close() cancels the timer, waits for the pump, which may still handle triggers, and drops the handle. */
  datatype Step =
    | Tick(delay: nat)
    | TriggerArrives
    | TimerFires
    | OpenMessage
    | RestartDispatch
    | Quit
    | Open
    | CloseCancels
    | CloseDrops

  function Init(start: int): Sys { Sys(start, Timing(None, 0, false, false), []) }

  /** A timer never fires early; how late it fires is left open. restart_dispatch() restores only on a session
      whose OPEN has arrived. */
  predicate Enabled(s: Sys, l: Step) {
    match l
    case TimerFires => s.timing.timer.Some? && s.now >= s.timing.timer.value
    case TriggerArrives => s.timing.isOpen
    case OpenMessage => s.timing.isOpen
    case Quit => s.timing.isOpen
    case RestartDispatch => s.timing.isOpen && s.timing.openReceived
    case _ => true
  }

  function Next(s: Sys, l: Step): Sys {
    match l
    case Tick(delay) => s.(now := s.now + delay)
    case TriggerArrives => s.(timing := Schedule(s.timing, s.now), log := s.log + [Trigger(s.now)])
    case TimerFires =>
      s.(timing := s.timing.(timer := None),
         log := s.log + [Fire(s.now, s.timing.isOpen)]
                + if FiresARestore(s.timing, s.now) then [Restored(s.now)] else [])
    case OpenMessage =>
      s.(timing := s.timing.(openRestoredAt := s.now, openReceived := true), log := s.log + [Restored(s.now)])
    case RestartDispatch => s.(log := s.log + [Restored(s.now)])
    case Quit => s.(timing := s.timing.(isOpen := false, openReceived := false))
    case Open => s.(timing := s.timing.(isOpen := true, openReceived := false), log := s.log + [NewSession(s.now)])
    case CloseCancels => s.(timing := s.timing.(timer := None), log := s.log + [Cancel(s.now)])
    case CloseDrops => s.(timing := s.timing.(isOpen := false, openReceived := false))
  }

  ghost predicate Legal(s: Sys, run: seq<Step>)
    decreases |run|
  {
    run == [] || (Enabled(s, run[0]) && Legal(Next(s, run[0]), run[1..]))
  }

  function EndOf(s: Sys, run: seq<Step>): Sys
    decreases |run|
  {
    if run == [] then s else EndOf(Next(s, run[0]), run[1..])
  }

  // ---- what holds in every run ----

  predicate Concerns(e: Event) { e.Trigger? || e.Fire? || e.Cancel? }

  /** Nothing concerned the timer between the two places in the log. */
  ghost predicate Quiet(log: seq<Event>, i: int, j: int) {
    forall k :: i < k < j && 0 <= k < |log| ==> !Concerns(log[k])
  }

  ghost predicate Ordered(s: Sys) {
    && 0 < s.now
    && (forall i :: 0 <= i < |s.log| ==> 0 < s.log[i].at <= s.now)
    && (forall i, j :: 0 <= i < j < |s.log| ==> s.log[i].at <= s.log[j].at)
  }

  /** The i-th event is the trigger the timer waits for. */
  ghost predicate Waits(log: seq<Event>, i: int) { 0 <= i < |log| && log[i].Trigger? && Quiet(log, i, |log|) }

  /** The timer is pending exactly for the last trigger, if nothing has answered it yet. */
  ghost predicate OneTimer(s: Sys) {
    && (s.timing.timer.Some? ==> exists i :: Waits(s.log, i))
    && (forall i :: Waits(s.log, i) ==> s.timing.timer == Some(s.log[i].at + DEBOUNCE))
  }

  /** The j-th event is the timer firing for the trigger at i, not early, and nothing came between. */
  ghost predicate Answers(log: seq<Event>, i: int, j: int) {
    && 0 <= i < j < |log| && log[i].Trigger? && log[j].Fire? && log[j].at >= log[i].at + DEBOUNCE && Quiet(log, i, j)
  }

  ghost predicate FiresAnswer(s: Sys) {
    forall j :: 0 <= j < |s.log| && s.log[j].Fire? ==> exists i :: Answers(s.log, i, j)
  }

  /** A full restore ran within the 8 s before the j-th event, or as part of it. */
  ghost predicate Covers(log: seq<Event>, k: int, j: int) {
    0 <= j < |log| && 0 <= k <= j + 1 && k < |log| && log[k].Restored? && 0 <= log[j].at - log[k].at < 8000
  }

  ghost predicate FiresCovered(s: Sys) {
    && (forall j :: 0 <= j < |s.log| && s.log[j].Fire? && s.log[j].onOpen ==> exists k :: Covers(s.log, k, j))
    && (s.timing.openRestoredAt > 0 ==> Restored(s.timing.openRestoredAt) in s.log)
  }

  ghost predicate Inv(s: Sys) { Ordered(s) && OneTimer(s) && FiresAnswer(s) && FiresCovered(s) }

  // ---- how the log grows ----

  lemma OrderedKept(s: Sys, l: Step)
    requires Ordered(s)
    ensures Ordered(Next(s, l))
  {}

  lemma OneTimerKept(s: Sys, l: Step)
    requires OneTimer(s) && Enabled(s, l)
    ensures OneTimer(Next(s, l))
  {
    var d := Next(s, l);
    var n := |s.log|;
    assert forall i :: 0 <= i < n ==> d.log[i] == s.log[i];
    if l.TriggerArrives? {
      assert Waits(d.log, n);
    } else if !l.TimerFires? && !l.CloseCancels? {
      forall i ensures Waits(s.log, i) <==> Waits(d.log, i) {
        assert forall k :: n <= k < |d.log| ==> !Concerns(d.log[k]);
      }
    } else {
      assert Concerns(d.log[n]);
    }
  }

  lemma FiresAnswerKept(s: Sys, l: Step)
    requires OneTimer(s) && FiresAnswer(s) && Ordered(s) && Enabled(s, l)
    ensures FiresAnswer(Next(s, l))
  {
    var d := Next(s, l);
    var n := |s.log|;
    assert forall i :: 0 <= i < n ==> d.log[i] == s.log[i];
    forall j | 0 <= j < |d.log| && d.log[j].Fire? ensures exists i :: Answers(d.log, i, j) {
      if j < n {
        var i :| Answers(s.log, i, j);
        assert Answers(d.log, i, j);
      } else {
        var i :| Waits(s.log, i);
        assert Answers(d.log, i, j);
      }
    }
  }

  lemma FiresCoveredKept(s: Sys, l: Step)
    requires FiresCovered(s) && Ordered(s) && Enabled(s, l)
    ensures FiresCovered(Next(s, l))
  {
    var d := Next(s, l);
    var n := |s.log|;
    assert forall i :: 0 <= i < n ==> d.log[i] == s.log[i];
    forall j | 0 <= j < |d.log| && d.log[j].Fire? && d.log[j].onOpen ensures exists k :: Covers(d.log, k, j) {
      if j < n {
        var k :| Covers(s.log, k, j);
        assert Covers(d.log, k, j);
      } else if FiresARestore(s.timing, s.now) {
        assert Covers(d.log, n + 1, j);
      } else {
        var k :| 0 <= k < n && s.log[k] == Restored(s.timing.openRestoredAt);
        assert Covers(d.log, k, j);
      }
    }
    if d.timing.openRestoredAt > 0 {
      if l.OpenMessage? {
        assert d.log[n] == Restored(s.now);
      } else {
        var k :| 0 <= k < n && s.log[k] == Restored(s.timing.openRestoredAt);
        assert d.log[k] == Restored(s.timing.openRestoredAt);
      }
    }
  }

  lemma {:induction false} InvOverRuns(s: Sys, run: seq<Step>)
    requires Inv(s) && Legal(s, run)
    ensures Inv(EndOf(s, run))
    decreases |run|
  {
    if run != [] {
      OrderedKept(s, run[0]);
      OneTimerKept(s, run[0]);
      FiresAnswerKept(s, run[0]);
      FiresCoveredKept(s, run[0]);
      InvOverRuns(Next(s, run[0]), run[1..]);
    }
  }

  // ---- theorems ----

  /** In every run at most one timer is pending. It is pending exactly when the last trigger has been
      answered by no firing and cancelled by no close(), and its deadline is two seconds after that trigger. */
  lemma DeadlineFollowsTheLastTrigger(start: int, run: seq<Step>)
    requires start > 0 && Legal(Init(start), run)
    ensures var s := EndOf(Init(start), run);
      && (s.timing.timer.Some? <==> exists i :: Waits(s.log, i))
      && (forall i, j :: Waits(s.log, i) && Waits(s.log, j) ==> i == j)
      && (forall i :: Waits(s.log, i) ==> s.timing.timer == Some(s.log[i].at + 2000))
  {
    InvOverRuns(Init(start), run);
    var s := EndOf(Init(start), run);
    forall i, j | Waits(s.log, i) && Waits(s.log, j) ensures i == j {
      assert Concerns(s.log[i]) && Concerns(s.log[j]);
    }
  }

  /** Consecutive triggers p and q of the log. */
  ghost predicate Consecutive(log: seq<Event>, p: int, q: int) {
    && 0 <= p < q < |log| && log[p].Trigger? && log[q].Trigger?
    && forall k :: p < k < q ==> !log[k].Trigger?
  }

  lemma FirstTriggerAfter(log: seq<Event>, i: int, j: int) returns (q: int)
    requires 0 <= i < j < |log| && log[j].Trigger?
    ensures i < q <= j && log[q].Trigger? && forall k :: i < k < q ==> !log[k].Trigger?
  {
    q := i + 1;
    while !log[q].Trigger?
      invariant i < q <= j && forall k :: i < k < q ==> !log[k].Trigger?
      decreases j - q
    {
      q := q + 1;
    }
  }

  lemma GapBetween(s: Sys, p: int, i: int, r: int, j: int) returns (q: int)
    requires Ordered(s) && Answers(s.log, p, i) && Answers(s.log, r, j) && i < j
    ensures p < i < q < j && Consecutive(s.log, p, q) && s.log[q].at - s.log[p].at >= 2000
  {
    assert Concerns(s.log[i]);
    q := FirstTriggerAfter(s.log, i, r);
    forall k | p < k < q ensures !s.log[k].Trigger? {
      if k < i {
        assert !Concerns(s.log[k]);
      }
    }
  }

  /** Two firings are separated by consecutive triggers at least two seconds apart: a burst of triggers
      with shorter gaps leads to one firing at most. */
  lemma TwoFiringsNeedAGap(start: int, run: seq<Step>, i: int, j: int)
    requires start > 0 && Legal(Init(start), run)
    requires var log := EndOf(Init(start), run).log; 0 <= i < j < |log| && log[i].Fire? && log[j].Fire?
    ensures var log := EndOf(Init(start), run).log;
      exists p, q :: p < i < q < j && Consecutive(log, p, q) && log[q].at - log[p].at >= 2000
  {
    InvOverRuns(Init(start), run);
    var s := EndOf(Init(start), run);
    var p :| Answers(s.log, p, i);
    var r :| Answers(s.log, r, j);
    var q := GapBetween(s, p, i, r, j);
  }

  /** The handle and its OPEN message, by the last step that concerned them. */
  datatype Phase = Closed | Opening | Serving

  function PhaseOf(run: seq<Step>): Phase {
    if run == [] then Closed
    else
      var n := |run| - 1;
      match run[n]
      case Open => Opening
      case OpenMessage => Serving
      case Quit => Closed
      case CloseDrops => Closed
      case _ => PhaseOf(run[..n])
  }

  lemma {:induction false} Without(s: Sys, run: seq<Step>)
    requires run != [] && Legal(s, run)
    ensures var n := |run| - 1;
      && Legal(s, run[..n]) && Enabled(EndOf(s, run[..n]), run[n]) && EndOf(s, run) == Next(EndOf(s, run[..n]), run[n])
    decreases |run|
  {
    if |run| == 1 {
      assert run == [run[0]] && run[1..] == [];
    } else {
      var n := |run| - 1;
      Without(Next(s, run[0]), run[1..]);
      assert run[1..][..n - 1] == run[..n][1..];
    }
  }

  /** The timer works on what the session is: open from an open to the next quit or close, restored by OPEN at the
      time of the last OPEN message. */
  lemma {:induction false} TimingFollowsTheSession(start: int, run: seq<Step>)
    requires Legal(Init(start), run)
    ensures var t := EndOf(Init(start), run).timing;
      (t.isOpen <==> PhaseOf(run) != Closed) && (t.openReceived <==> PhaseOf(run) == Serving)
    decreases |run|
  {
    if run != [] {
      Without(Init(start), run);
      TimingFollowsTheSession(start, run[..|run| - 1]);
    }
  }

  /** Full restores happen when the OPEN message arrives, when a restart_dispatch asks for one, and when the timer
      fires on an open handle that no OPEN has restored in the last 8 s, and at no other step. */
  lemma RestoresHappenExactly(s: Sys, l: Step)
    ensures var t := s.timing;
      var restores := l.OpenMessage? || l.RestartDispatch?
        || (l.TimerFires? && t.isOpen && !(t.openRestoredAt > 0 && s.now - t.openRestoredAt < 8000));
      var n := Next(s, l).log;
      && s.log <= n && |n| <= |s.log| + 2
      && (restores <==> |n| > |s.log| && n[|n| - 1] == Restored(s.now))
  {}

  /** Whenever the timer fires on an open handle, a full restore runs then or ran less than 8 s before. */
  lemma FiringsAreCovered(start: int, run: seq<Step>, j: int)
    requires start > 0 && Legal(Init(start), run)
    requires var log := EndOf(Init(start), run).log; 0 <= j < |log| && log[j].Fire? && log[j].onOpen
    ensures var log := EndOf(Init(start), run).log; exists k :: Covers(log, k, j)
  {
    InvOverRuns(Init(start), run);
  }

  // ---- the 8 s window does not know about sessions ----

  /** A full restore ran since the last handle was opened. */
  predicate RestoredSince(log: seq<Event>) {
    if log == [] then false
    else
      var n := |log| - 1;
      log[n].Restored? || (!log[n].NewSession? && RestoredSince(log[..n]))
  }

  lemma SinceSnoc(log: seq<Event>, e: Event)
    ensures RestoredSince(log + [e]) <==> e.Restored? || (!e.NewSession? && RestoredSince(log))
  {
    assert (log + [e])[..|log|] == log;
  }

  /** After its OPEN message a session is restored; a session restored without one was restored by the timer,
      and that only after the window of the last OPEN was over. */
  ghost predicate Sessions(s: Sys) {
    && (s.timing.openReceived ==> s.timing.isOpen && RestoredSince(s.log))
    && (s.timing.isOpen && !s.timing.openReceived && RestoredSince(s.log) ==> !CoveredByOpen(s.timing, s.now))
  }

  lemma SessionsKept(s: Sys, l: Step)
    requires Sessions(s) && Enabled(s, l)
    ensures Sessions(Next(s, l))
  {
    match l
    case TriggerArrives => SinceSnoc(s.log, Trigger(s.now));
    case TimerFires => FiringSince(s);
    case OpenMessage => SinceSnoc(s.log, Restored(s.now));
    case RestartDispatch => SinceSnoc(s.log, Restored(s.now));
    case Open => SinceSnoc(s.log, NewSession(s.now));
    case _ =>
  }

  lemma FiringSince(s: Sys)
    ensures RestoredSince(Next(s, TimerFires).log) <==> FiresARestore(s.timing, s.now) || RestoredSince(s.log)
  {
    var fired := s.log + [Fire(s.now, s.timing.isOpen)];
    SinceSnoc(s.log, Fire(s.now, s.timing.isOpen));
    SinceSnoc(fired, Restored(s.now));
    assert fired + [] == fired;
  }

  lemma {:induction false} SessionsOverRuns(s: Sys, run: seq<Step>)
    requires Sessions(s) && Legal(s, run)
    ensures Sessions(EndOf(s, run))
    decreases |run|
  {
    if run != [] {
      SessionsKept(s, run[0]);
      SessionsOverRuns(Next(s, run[0]), run[1..]);
    }
  }

  /** In every run: a firing on an open handle leaves the session without any full restore since it was opened
      if and only if its OPEN message has not arrived and the OPEN of an earlier session is less than 8 s old. */
  lemma FiringSkipsExactly(start: int, run: seq<Step>)
    requires Legal(Init(start), run)
    requires Enabled(EndOf(Init(start), run), TimerFires) && EndOf(Init(start), run).timing.isOpen
    ensures var s := EndOf(Init(start), run);
      !RestoredSince(Next(s, TimerFires).log) <==>
        !s.timing.openReceived && s.timing.openRestoredAt > 0 && s.now - s.timing.openRestoredAt < 8000
  {
    SessionsOverRuns(Init(start), run);
    FiringSince(EndOf(Init(start), run));
  }

  lemma OneStep(s: Sys, run: seq<Step>)
    requires run != [] && Enabled(s, run[0])
    ensures Legal(s, run) == Legal(Next(s, run[0]), run[1..])
    ensures EndOf(s, run) == EndOf(Next(s, run[0]), run[1..])
  {}

  lemma ThreeSteps(s: Sys, run: seq<Step>)
    requires |run| >= 3
    requires Enabled(s, run[0]) && Enabled(Next(s, run[0]), run[1]) && Enabled(Next(Next(s, run[0]), run[1]), run[2])
    ensures var t := Next(Next(Next(s, run[0]), run[1]), run[2]);
      Legal(s, run) == Legal(t, run[3..]) && EndOf(s, run) == EndOf(t, run[3..])
  {
    OneStep(s, run);
    OneStep(Next(s, run[0]), run[1..]);
    assert run[1..][1..] == run[2..];
    OneStep(Next(Next(s, run[0]), run[1]), run[2..]);
    assert run[2..][1..] == run[3..];
  }

  lemma NothingSince(log: seq<Event>)
    ensures !RestoredSince(log + [NewSession(1)] + [Fire(2001, true)])
  {
    SinceSnoc(log, NewSession(1));
    SinceSnoc(log + [NewSession(1)], Fire(2001, true));
  }

  const HEARD := [NewSession(1), Restored(1), Trigger(1)]

  lemma FirstSession(rest: seq<Step>)
    ensures var s := Sys(1, Timing(Some(2001), 1, true, true), HEARD);
      var run := [Open, OpenMessage, TriggerArrives] + rest;
      (Legal(Init(1), run) <==> Legal(s, rest)) && EndOf(Init(1), run) == EndOf(s, rest)
  {
    var run := [Open, OpenMessage, TriggerArrives] + rest;
    assert Next(Init(1), Open) == Sys(1, Timing(None, 0, true, false), [NewSession(1)]);
    assert Next(Next(Next(Init(1), Open), OpenMessage), TriggerArrives) ==
      Sys(1, Timing(Some(2001), 1, true, true), HEARD);
    ThreeSteps(Init(1), run);
    assert run[3..] == rest;
  }

  lemma SecondSession(rest: seq<Step>)
    ensures var s := Sys(1, Timing(Some(2001), 1, true, true), HEARD);
      var t := Sys(2001, Timing(Some(2001), 1, true, false), HEARD + [NewSession(1)]);
      var run := [Quit, Open, Tick(2000)] + rest;
      (Legal(s, run) <==> Legal(t, rest)) && EndOf(s, run) == EndOf(t, rest)
  {
    var run := [Quit, Open, Tick(2000)] + rest;
    ThreeSteps(Sys(1, Timing(Some(2001), 1, true, true), HEARD), run);
    assert run[3..] == rest;
  }

  lemma LateFiring()
    ensures var t := Sys(2001, Timing(Some(2001), 1, true, false), HEARD + [NewSession(1)]);
      Legal(t, [TimerFires]) && EndOf(t, [TimerFires]).log == HEARD + [NewSession(1)] + [Fire(2001, true)]
  {
    OneStep(Sys(2001, Timing(Some(2001), 1, true, false), HEARD + [NewSession(1)]), [TimerFires]);
    assert [TimerFires][1..] == [];
  }

  /** The restore that lets the timer skip can belong to a session that is gone: `_open_restored_at` is
      not reset when a handle is dropped. Here the timer fires on the handle of a new session, which
      nothing has restored yet, and still skips. */
  lemma CoverMayBeOfAnOlderSession()
    ensures var run := [Open, OpenMessage, TriggerArrives] + ([Quit, Open, Tick(2000)] + [TimerFires]);
      && Legal(Init(1), run)
      && EndOf(Init(1), run).log == [NewSession(1), Restored(1), Trigger(1), NewSession(1), Fire(2001, true)]
      && !RestoredSince(EndOf(Init(1), run).log)
  {
    FirstSession([Quit, Open, Tick(2000)] + [TimerFires]);
    SecondSession([TimerFires]);
    LateFiring();
    NothingSince(HEARD);
  }

  /** A timer can outlive close(): a trigger handled while close() waits arms it again, and then only the
      handle goes. */
  lemma TimerOutlivesClose()
    ensures var run := [Open, CloseCancels, TriggerArrives] + [CloseDrops]; var s := EndOf(Init(1), run);
      Legal(Init(1), run) && s.timing.timer == Some(2001) && !s.timing.isOpen
  {
    var run := [Open, CloseCancels, TriggerArrives] + [CloseDrops];
    ThreeSteps(Init(1), run);
    assert run[3..] == [CloseDrops] && [CloseDrops][1..] == [];
    var t := Next(Next(Next(Init(1), Open), CloseCancels), TriggerArrives);
    OneStep(t, [CloseDrops]);
  }
}
