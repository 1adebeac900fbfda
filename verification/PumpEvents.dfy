/** What the flags of the client say about the events so far, and what a stop, a restart, a raised exception and a batch
    of writes come to. */
module PumpEvents {
  import opened Pump
  import opened PumpSafety
  import opened PumpTheorems

  /** The events that reveal a hang: a stop that times out, and an open that does not return. */
  predicate Reveals(l: Step) {
    l == ByController(JoinTimesOut) || l == ByController(CallOpenHangs) || (l.ByPump? && l.pump.OpenHangs?)
  }

  predicate Revealed(run: seq<Step>) { exists i :: 0 <= i < |run| && Reveals(run[i]) }

  predicate Connects(l: Step) { l == ByController(CallOpenSucceeds) || (l.ByPump? && l.pump.OpenSucceeds?) }

  predicate Disconnects(l: Step) { l == ByOther(Quit) || l == ByController(DropHandle) }

  /** The last event that concerned the handle was an open that succeeded. */
  predicate Connected(run: seq<Step>) {
    if run == [] then false
    else
      var n := |run| - 1;
      Connects(run[n]) || (!Disconnects(run[n]) && Connected(run[..n]))
  }

  predicate Starts(l: Step) { l == ByController(StartPump) }

  predicate Stops(l: Step) { l.ByController? && l.controller.CallStop? }

  /** The last start of a pump came after the last stop. */
  predicate Started(run: seq<Step>) {
    if run == [] then false
    else
      var n := |run| - 1;
      Starts(run[n]) || (!Stops(run[n]) && Started(run[..n]))
  }

  predicate Stopped(run: seq<Step>) {
    if run == [] then false
    else
      var n := |run| - 1;
      Stops(run[n]) || (!Starts(run[n]) && Stopped(run[..n]))
  }

  // ---- the flags ----

  lemma {:induction false} Without(s: Sys, run: seq<Step>)
    requires run != [] && Legal(s, run)
    ensures var n := |run| - 1;
      && Legal(s, run[..n]) && Enabled(EndOf(s, run[..n]), run[n]) && EndOf(s, run) == Next(EndOf(s, run[..n]), run[n])
    decreases |run|
  {
    if |run| == 1 {
      assert run == [run[0]] && run[1..] == [];
    } else {
      var n := |run| - 1;
      Without(Next(s, run[0]), run[1..]);
      assert run[1..][..n - 1] == run[..n][1..];
    }
  }

  lemma PumpStepFlags(s: Sys, l: Step)
    requires Enabled(s, l) && l.ByPump?
    ensures var u := Next(s, l);
      && u.flags.hung == (s.flags.hung || Reveals(l)) && u.flags.isOpen == (s.flags.isOpen || Connects(l))
      && u.flags.running == s.flags.running && u.flags.stopEvent == s.flags.stopEvent
  {}

  lemma ControllerStepFlags(s: Sys, c: ControllerEvent)
    requires Threads(s) && ControllerEnabled(s, c)
    ensures var u, l := ControllerNext(s, c), ByController(c);
      && u.flags.hung == (s.flags.hung || Reveals(l))
      && u.flags.isOpen == (Connects(l) || (s.flags.isOpen && !Disconnects(l)))
      && u.flags.running == (Starts(l) || (s.flags.running && !Stops(l)))
      && (!(s.flags.running && s.flags.stopEvent) ==>
            u.flags.stopEvent == (Stops(l) || (s.flags.stopEvent && !Starts(l))))
  {
    if c.StartPump? && !s.flags.running {
      assert NoLive(s);
    }
  }

  lemma OtherStepFlags(s: Sys, o: OtherEvent)
    ensures var u, l := OtherNext(s, o), ByOther(o);
      && u.flags == s.flags.(isOpen := u.flags.isOpen) && u.flags.isOpen == (s.flags.isOpen && !Disconnects(l))
  {}

  /** What the flags say of the run. */
  ghost predicate Tells(s: Sys, run: seq<Step>) {
    && (s.flags.hung <==> Revealed(run)) && (s.flags.isOpen <==> Connected(run))
    && (s.flags.running <==> Started(run)) && (s.flags.stopEvent <==> Stopped(run))
  }

  lemma {:induction false} NotBoth(run: seq<Step>)
    ensures !(Started(run) && Stopped(run))
  {
    if run != [] {
      NotBoth(run[..|run| - 1]);
    }
  }

  lemma RevealedSnoc(run: seq<Step>)
    requires run != []
    ensures Revealed(run) <==> Revealed(run[..|run| - 1]) || Reveals(run[|run| - 1])
  {
    var n := |run| - 1;
    if Revealed(run[..n]) {
      var i :| 0 <= i < n && Reveals(run[..n][i]);
      assert Reveals(run[i]);
    }
    if Revealed(run) {
      var i :| 0 <= i < |run| && Reveals(run[i]);
      assert i < n ==> Reveals(run[..n][i]);
    }
  }

  /** The flags move with the event. */
  predicate Follows(s: Sys, u: Sys, l: Step) {
    && u.flags.hung == (s.flags.hung || Reveals(l))
    && u.flags.isOpen == (Connects(l) || (s.flags.isOpen && !Disconnects(l)))
    && u.flags.running == (Starts(l) || (s.flags.running && !Stops(l)))
    && u.flags.stopEvent == (Stops(l) || (s.flags.stopEvent && !Starts(l)))
  }

  lemma StepFollows(s: Sys, l: Step)
    requires Threads(s) && Enabled(s, l) && !(s.flags.running && s.flags.stopEvent)
    ensures Follows(s, Next(s, l), l)
  {
    match l
    case ByPump(_, _) => PumpStepFlags(s, l);
    case ByController(c) => ControllerStepFlags(s, c);
    case ByOther(o) => OtherStepFlags(s, o);
  }

  lemma FollowsTells(s: Sys, u: Sys, run: seq<Step>, l: Step)
    requires Tells(s, run) && Follows(s, u, l)
    ensures Tells(u, run + [l])
  {
    assert (run + [l])[..|run|] == run;
    RevealedSnoc(run + [l]);
  }

  /** In every run: native_hung is set exactly by a stop that timed out or an open that did not return, and never
      again lowered; the client is open exactly from an open that succeeded, whoever made it, to the next quit or
      close; the pump flag is up, and the stop event down, exactly from a start to the next stop. */
  lemma {:induction false} FlagsFollowEvents(auto: bool, run: seq<Step>)
    requires Legal(Init(auto), run)
    ensures Tells(EndOf(Init(auto), run), run)
    decreases |run|
  {
    if run != [] {
      var n := |run| - 1;
      Without(Init(auto), run);
      FlagsFollowEvents(auto, run[..n]);
      InitSafe(auto);
      RunSafe(Init(auto), run[..n]);
      var s := EndOf(Init(auto), run[..n]);
      NotBoth(run[..n]);
      StepFollows(s, run[n]);
      FollowsTells(s, Next(s, run[n]), run[..n], run[n]);
      assert run[..n] + [run[n]] == run;
    }
  }

  // ---- a restart ----

  /** In every run: a restart whose stop has ended the old pump, on a client that is not known to hang, starts a new
      one, if nobody else moves meanwhile. */
  lemma RestartStarts(auto: bool, run: seq<Step>)
    requires Legal(Init(auto), run)
    requires var s := EndOf(Init(auto), run); s.controller == Joining(Restart) && !ThreadAlive(s) && !s.flags.hung
    ensures var s := EndOf(Init(auto), run);
      var rest := [ByController(Joined), ByController(GuardStart), ByController(StartPump)];
      && Legal(s, rest)
      && EndOf(s, rest).flags.running && ThreadAlive(EndOf(s, rest)) && EndOf(s, rest).controller.Idle?
  {
    InitSafe(auto);
    RunSafe(Init(auto), run);
    var s := EndOf(Init(auto), run);
    var joined := Next(s, ByController(Joined));
    StepSafe(s, ByController(Joined));
    var guarded := Next(joined, ByController(GuardStart));
    StepSafe(joined, ByController(GuardStart));
    assert guarded.controller.Starting? && !guarded.flags.running && NoLive(guarded);
    var started := Next(guarded, ByController(StartPump));
    assert Legal(started, []) && EndOf(started, []) == started;
    var last := [ByController(StartPump)];
    StepThenRun(guarded, ByController(StartPump), []);
    StepThenRun(joined, ByController(GuardStart), [ByController(StartPump)] + []);
    StepThenRun(s, ByController(Joined), [ByController(GuardStart)] + ([ByController(StartPump)] + []));
    assert [ByController(Joined)] + ([ByController(GuardStart)] + ([ByController(StartPump)] + []))
        == [ByController(Joined), ByController(GuardStart), ByController(StartPump)];
  }

  // ---- after a stop ----

  /** Past the wait of a reconnect: only such a pump comes to SimConnect_Open. */
  predicate PastWait(pc: Pc) { pc.Reopening? || pc.CallingOpen? }

  ghost predicate NonePastWait(s: Sys) { forall t :: t in s.threads.pumps ==> !PastWait(s.threads.pumps[t]) }

  lemma StepStaysBack(s: Sys, l: Step)
    requires s.flags.stopEvent && NonePastWait(s) && Enabled(s, l) && !Starts(l)
    ensures Next(s, l).flags.stopEvent && NonePastWait(Next(s, l))
  {
    match l
    case ByPump(_, _) => PumpStaysBack(s, l);
    case ByController(c) => ControllerStaysBack(s, c);
    case ByOther(_) =>
  }

  lemma PumpStaysBack(s: Sys, l: Step)
    requires s.flags.stopEvent && NonePastWait(s) && Enabled(s, l) && l.ByPump?
    ensures Next(s, l).flags.stopEvent && NonePastWait(Next(s, l))
  {
    SharedFrame(s, s.threads.pumps[l.t], l.pump);
  }

  lemma ControllerStaysBack(s: Sys, c: ControllerEvent)
    requires s.flags.stopEvent && NonePastWait(s) && ControllerEnabled(s, c) && !c.StartPump?
    ensures ControllerNext(s, c).flags.stopEvent && ControllerNext(s, c).threads.pumps == s.threads.pumps
  {}

  /** From a stop on and until the next start, no pump comes to reconnect any more, unless it was past the wait before
      its try already. */
  lemma {:induction false} StopEndsReconnecting(s: Sys, run: seq<Step>)
    requires s.flags.stopEvent && NonePastWait(s) && Legal(s, run)
    requires forall i :: 0 <= i < |run| ==> !Starts(run[i])
    ensures NonePastWait(EndOf(s, run)) && EndOf(s, run).flags.stopEvent
    decreases |run|
  {
    if run != [] {
      StepStaysBack(s, run[0]);
      StopEndsReconnecting(Next(s, run[0]), run[1..]);
    }
  }

  /** A pump whose CallDispatch raises ends at its next statement if a stop was called, and otherwise begins a new
      round of its loop. */
  lemma RaiseEndsAStoppedPump(s: Sys, t: Tid)
    requires t in s.threads.pumps && s.threads.pumps[t].InNative? && !s.threads.pumps[t].opening
    ensures var raised := Next(s, ByPump(t, NativeRaises)); var u := Next(raised, ByPump(t, Statement));
      && u.threads.pumps[t] == (if s.flags.stopEvent then Exited(OnException) else LoopTop)
      && u.queue == s.queue && u.flags == s.flags
  {}

  /** A statement ends a pump exactly where the loop is left: with the flag down and the counter at zero at either end
      of a round, on a known hang before either try to reconnect, and after a stop in the wait of a reconnect or
      behind a raised exception. */
  lemma StatementEndsExactly(s: Sys, t: Tid)
    requires Enabled(s, ByPump(t, Statement))
    ensures var pc, u := s.threads.pumps[t], Next(s, ByPump(t, Statement));
      u.threads.pumps[t].Exited? <==>
        || ((pc.LoopTop? || pc.ExitCheck?) && !s.flags.running && s.queue.pending == 0)
        || ((pc.ReconnectGuard? || pc.Reopening?) && s.flags.hung)
        || ((pc.ReconnectWait? || pc.Failed?) && s.flags.stopEvent)
  {}

  /** A pump that polls for the OPEN message of the session it has just opened: with polls left it comes to CallDispatch
      again on an open client that is not known to hang, and to its next poll on any other; without, it is back in its
      loop. */
  lemma PollingGoesOn(s: Sys, t: Tid)
    requires t in s.threads.pumps && s.threads.pumps[t].AwaitOpen?
    ensures var polls, once := s.threads.pumps[t].polls, Next(s, ByPump(t, Statement));
      && once.flags == s.flags && once.queue == s.queue && once.log == s.log
      && (polls == 0 ==> once.threads.pumps[t] == LoopTop)
      && (polls > 0 ==> Enabled(once, ByPump(t, Statement)))
      && (polls > 0 ==>
            Next(once, ByPump(t, Statement)).threads.pumps[t] ==
            if s.flags.isOpen && !s.flags.hung then Calling(true, polls - 1) else AwaitOpen(polls - 1))
  {}

  // ---- one batch ----

  /** At most 256 operations between two dispatches. */
  predicate InBatch(pc: Pc) {
    && (pc.Draining? ==> pc.count <= 256) && (pc.Executing? ==> pc.count < 256) && (pc.Settled? ==> pc.count < 256)
  }

  ghost predicate Batches(s: Sys) { forall t :: t in s.threads.pumps ==> InBatch(s.threads.pumps[t]) }

  lemma StepBatches(s: Sys, l: Step)
    requires Batches(s) && Enabled(s, l)
    ensures Batches(Next(s, l))
  {}

  lemma {:induction false} RunBatches(s: Sys, run: seq<Step>)
    requires Batches(s) && Legal(s, run)
    ensures Batches(EndOf(s, run))
    decreases |run|
  {
    if run != [] {
      StepBatches(s, run[0]);
      RunBatches(Next(s, run[0]), run[1..]);
    }
  }

  /** In every run a pump never has more than 256 operations behind it in one batch, and it ends a batch exactly when
      it has run 256 or the queue is empty. */
  lemma BatchIsExact(auto: bool, run: seq<Step>, t: Tid)
    requires Legal(Init(auto), run)
    requires t in EndOf(Init(auto), run).threads.pumps && EndOf(Init(auto), run).threads.pumps[t].Draining?
    ensures var s := EndOf(Init(auto), run); var count := s.threads.pumps[t].count;
      var u := Next(s, ByPump(t, Statement));
      && count <= 256
      && (count == 256 || s.queue.items == [] <==> u.threads.pumps[t].ExitCheck?)
      && (count == 256 || s.queue.items == [] ==> u.queue == s.queue)
      && (count < 256 && s.queue.items != [] ==>
            u.threads.pumps[t] == Executing(s.queue.items[0], count) && u.queue.items == s.queue.items[1..])
  {
    RunBatches(Init(auto), run);
  }
}
