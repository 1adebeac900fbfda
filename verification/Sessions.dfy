/** What opening and closing achieve: which phase a session is in after any run, and that a closed client leaves the
    DLL alone. */
module Sessions {
  import opened RegistryState
  import opened Remote
  import opened Fields
  import opened Client
  import opened Tables
  import opened TablesKept
  import opened Session
  import opened Actions
  import opened Meaning

  datatype Phase = Closed | Opening | Serving

  /** Where a step leaves the session. */
  function PhaseAfter(l: Step, p: Phase): Phase {
    match l
    case CallOpen => Opening
    case OpenMessage(_) => Serving
    case QuitMessage => Closed
    case CallClose(_) => Closed
    case _ => p
  }

  /** The last event of the session decides. */
  function PhaseOf(run: seq<Step>): Phase {
    if run == [] then Closed
    else
      var n := |run| - 1;
      PhaseAfter(run[n], PhaseOf(run[..n]))
  }

  predicate Switches(l: Step) { l.CallOpen? || l.OpenMessage? || l.QuitMessage? || l.CallClose? }

  /** The session is what it was, and the DLL untouched if there is none. */
  predicate SessionKept(c: Client, d: Client) {
    && d.core.remote.open == c.core.remote.open && d.openReceived == c.openReceived
    && (!c.core.remote.open ==> d.core.remote == c.core.remote)
  }

  /** The actions on definitions and requests. */
  predicate Calls(a: Action) { Stops(a) || a.Define? || a.AskType? || a.Clear? || a.OtherCalls? }

  predicate Stops(a: Action) { a.Halt? || a.Drop? }

  lemma StopKeepsSession(c: Client, a: Action)
    requires Stops(a)
    ensures SessionKept(c, Do(c, a))
  {}

  lemma DefineKeepsSession(c: Client, ref: SlotRef)
    ensures SessionKept(c, Do(c, Define(ref)))
  {}

  lemma CallKeepsSession(c: Client, a: Action)
    requires Calls(a)
    ensures SessionKept(c, Do(c, a))
  {
    if Stops(a) {
      StopKeepsSession(c, a);
    } else if a.Define? {
      DefineKeepsSession(c, a.ref);
    }
  }

  lemma TableKeepsSession(c: Client, a: Action)
    requires !Calls(a) && !a.ApplyTo? && !a.DefineFields? && !a.NewHandle? && !a.LoseHandle? && !a.OpenArrives?
    ensures SessionKept(c, Do(c, a))
  {}

  lemma DoKeepsSession(c: Client, a: Action)
    requires TablesOk(c) && !a.NewHandle? && !a.LoseHandle? && !a.OpenArrives?
    ensures SessionKept(c, Do(c, a))
  {
    if a.ApplyTo? {
      if a.sid in c.subs {
        AppliedSession(c, a.sid);
      }
    } else if a.DefineFields? {
      DefinedSession(c.core, a.fields);
    } else if Calls(a) {
      CallKeepsSession(c, a);
    } else {
      TableKeepsSession(c, a);
    }
  }

  lemma DefinedSession(k: Core, fields: seq<ParsedField>)
    ensures DefineMany(k, fields).0.remote.open == k.remote.open
    ensures !k.remote.open ==> DefineMany(k, fields).0.remote == k.remote
  {
    DefineManyTouches(k, fields);
    if !k.remote.open {
      ClosedAddsNothing(k.remote, k.reg.counters.nextGetManyId, RemoteFields(fields));
    }
  }

  lemma AppliedSession(c: Client, s: int)
    requires TablesOk(c) && s in c.subs
    ensures SessionKept(c, ApplyAt(c, s).0)
  {
    assert SubOk(c.core.reg, s, c.subs[s]);
    ApplyAtSame(c, s);
    if c.subs[s].Multi? && !c.core.remote.open {
      ClosedAddsNothing(c.core.remote, s, RemoteFields(c.subs[s].fields));
    }
  }

  predicate Sessionless(actions: seq<Action>) {
    forall i :: 0 <= i < |actions| ==> !actions[i].NewHandle? && !actions[i].LoseHandle? && !actions[i].OpenArrives?
  }

  lemma {:induction false} AfterKeepsSession(c: Client, actions: seq<Action>)
    requires TablesOk(c) && AllProper(c, actions) && InBounds(After(c, actions).core.reg) && Sessionless(actions)
    ensures SessionKept(c, After(c, actions))
    decreases |actions|
  {
    if actions != [] {
      var d := Do(c, actions[0]);
      AfterLeq(d, actions[1..]);
      BoundsBelow(d.core.reg, After(c, actions).core.reg);
      DoKeeps(c, actions[0]);
      DoKeepsSession(c, actions[0]);
      AfterKeepsSession(d, actions[1..]);
    }
  }

  // ---- the steps without session actions ----

  lemma WalkSessionless(c: Client, l: Step)
    requires l.CallSubscribeMany? || l.Recover? || l.RestoreAll? || l.CallUnsubscribe?
    ensures Sessionless(ActionsOf(c, l))
  {
    match l
    case CallSubscribeMany(fields, period) => SubscribingManyIsPlain(c, fields, period);
    case CallUnsubscribe(sid) => if sid in c.composites { DroppingOnlyDrops(c.composites[sid]); }
    case Recover(sid) => RecoveringIsPlain(if sid in c.composites then c.composites[sid] else [sid]);
    case RestoreAll(items) => RestoringIsPlain(items);
  }

  lemma GetSessionless(c: Client, name: string, unit: string, dtype: int)
    ensures Sessionless(Getting(c, name, unit, dtype)) && Sessionless(Setting(c, name, unit, dtype))
  {}

  lemma GetManySessionless(c: Client, fields: seq<ParsedField>)
    ensures Sessionless(GettingMany(c, fields))
  {}

  lemma StepSessionless(c: Client, l: Step)
    requires !Switches(l)
    ensures Sessionless(ActionsOf(c, l))
  {
    if l.CallSubscribeMany? || l.Recover? || l.RestoreAll? || l.CallUnsubscribe? {
      WalkSessionless(c, l);
    } else if l.CallGetMany? {
      GetManySessionless(c, l.fields);
    } else if l.CallGet? || l.CallSet? {
      GetSessionless(c, l.name, l.unit, l.dtype);
    }
  }

  lemma OtherStepKeepsSession(c: Client, l: Step)
    requires TablesOk(c) && Enabled(c, l) && InBounds(Next(c, l).core.reg) && !Switches(l)
    ensures SessionKept(c, Next(c, l))
  {
    StepIsItsActions(c, l);
    StepSessionless(c, l);
    AfterKeepsSession(c, ActionsOf(c, l));
  }

  lemma OpenMessageServes(c: Client, items: seq<int>)
    requires TablesOk(c) && c.core.remote.open && InBounds(OnOpen(c, items).core.reg)
    ensures Ready(OnOpen(c, items))
  {
    var d, rest := Do(c, OpenArrives), [LowerFlags] + Restoring(items);
    RestoreLeads(d, items);
    SessionKeeps(c, d);
    RestoringIsPlain(items);
    AfterKeepsSession(d, rest);
  }

  // ---- runs ----

  predicate In(c: Client, p: Phase) { (c.core.remote.open <==> p != Closed) && (Ready(c) <==> p == Serving) }

  lemma SwitchSwitches(c: Client, l: Step, p: Phase)
    requires TablesOk(c) && Switches(l) && Enabled(c, l) && InBounds(Next(c, l).core.reg)
    ensures In(Next(c, l), PhaseAfter(l, p))
  {
    if l.OpenMessage? {
      OpenMessageServes(c, l.items);
    }
  }

  lemma StepSwitches(c: Client, l: Step, p: Phase)
    requires TablesOk(c) && In(c, p) && Enabled(c, l) && InBounds(Next(c, l).core.reg)
    ensures In(Next(c, l), PhaseAfter(l, p))
  {
    if Switches(l) {
      SwitchSwitches(c, l, p);
    } else {
      OtherStepKeepsSession(c, l);
    }
  }

  lemma {:induction false} Without(c: Client, run: seq<Step>)
    requires run != [] && Legal(c, run)
    ensures var n := |run| - 1;
      && Legal(c, run[..n]) && Enabled(EndOf(c, run[..n]), run[n])
      && EndOf(c, run) == Next(EndOf(c, run[..n]), run[n]) && InBounds(EndOf(c, run).core.reg)
    decreases |run|
  {
    if |run| == 1 {
      assert run == [run[0]] && run[1..] == [];
    } else {
      var n := |run| - 1;
      Without(Next(c, run[0]), run[1..]);
      assert run[1..][..n - 1] == run[..n][1..];
    }
  }

  /** In every run, whatever the DLL answers: a session exists exactly from an open to the next quit or close, and is
      ready for requests exactly once its OPEN message has arrived. */
  lemma {:induction false} SessionFollowsItsEvents(script: seq<int>, run: seq<Step>)
    requires Legal(Init(script), run)
    ensures var c := EndOf(Init(script), run);
      && (c.core.remote.open <==> PhaseOf(run) != Closed) && (Ready(c) <==> PhaseOf(run) == Serving)
    decreases |run|
  {
    if run != [] {
      var n := |run| - 1;
      Without(Init(script), run);
      SessionFollowsItsEvents(script, run[..n]);
      TablesOverRuns(Init(script), run[..n]);
      StepSwitches(EndOf(Init(script), run[..n]), run[n], PhaseOf(run[..n]));
    }
  }

  lemma {:induction false} ClosedCallsNothing(c: Client, run: seq<Step>)
    requires TablesOk(c) && Legal(c, run) && c.core.remote == NoSession(c.core.remote)
    requires forall i :: 0 <= i < |run| ==> !run[i].CallOpen?
    ensures EndOf(c, run).core.remote == c.core.remote
    decreases |run|
  {
    if run != [] {
      if !Switches(run[0]) {
        OtherStepKeepsSession(c, run[0]);
      }
      StepKeeps(c, run[0]);
      ClosedCallsNothing(Next(c, run[0]), run[1..]);
    }
  }

  /** What the client itself knows and the DLL does not is still there. */
  ghost predicate OnlySession(c: Client, d: Client) {
    && d.subs == c.subs && d.composites == c.composites && d.pending == c.pending
    && SameShape(c.core.reg, d.core.reg)
  }

  /** The keys of the registered variables that are marked as defined. */
  function MarkedKeys(r: Reg): set<VarKey> { set k | k in r.vars.Keys && SlotAt(r, r.vars[k]).defined }

  /** The HRESULTs left after so many calls. */
  function Behind(script: seq<int>, calls: nat): seq<int> { if calls <= |script| then script[calls..] else [] }

  lemma ClosedByHand(c: Client, hung: bool)
    requires TablesOk(c)
    ensures var d := Close(c, hung);
      && OnlySession(c, d) && d.core.remote == NoSession(d.core.remote) && !d.openReceived
      && (c.core.remote.open && !hung ==>
            forall k :: k in d.core.reg.vars ==> !SlotAt(d.core.reg, d.core.reg.vars[k]).defined)
      && (c.core.remote.open && !hung ==>
            d.core.remote.script == Behind(c.core.remote.script, |MarkedKeys(c.core.reg)|))
      && (!c.core.remote.open || hung ==> d.core.reg == c.core.reg && d.core.remote.script == c.core.remote.script)
  {
    assert MarkedKeys(c.core.reg) == DefinedKeys(c.core.reg);
    ResetSame(c);
    if c.core.remote.open && !hung {
      LoweredAll(c);
    }
  }

  /** At the end of any run: a close leaves no session, no definition and no request, and every subscription as it
      was. A regular close of an open session makes one clear call for each registered variable that is marked as
      defined, and none is marked any more; a close on a hung DLL makes no such call. Until the next open no DLL
      function is called at all. */
  lemma CloseEndsTheSession(script: seq<int>, run: seq<Step>, hung: bool, later: seq<Step>)
    requires Legal(Init(script), run) && Legal(Next(EndOf(Init(script), run), CallClose(hung)), later)
    requires forall i :: 0 <= i < |later| ==> !later[i].CallOpen?
    ensures var c := EndOf(Init(script), run); var d := Next(c, CallClose(hung)); var e := EndOf(d, later);
      && OnlySession(c, d) && !d.core.remote.open && !d.openReceived
      && d.core.remote.defs == map[] && d.core.remote.requests == map[]
      && (c.core.remote.open && !hung ==>
            forall k :: k in d.core.reg.vars ==> !SlotAt(d.core.reg, d.core.reg.vars[k]).defined)
      && (c.core.remote.open && !hung ==>
            d.core.remote.script == Behind(c.core.remote.script, |MarkedKeys(c.core.reg)|))
      && (!c.core.remote.open || hung ==> d.core.reg == c.core.reg && d.core.remote.script == c.core.remote.script)
      && e.core.remote == d.core.remote && !Ready(e)
  {
    InitTables(script);
    TablesOverRuns(Init(script), run);
    var c := EndOf(Init(script), run);
    CloseKeeps(c, hung);
    ClosedByHand(c, hung);
    ClosedCallsNothing(Close(c, hung), later);
  }

  lemma LoweredAll(c: Client)
    requires TablesOk(c)
    ensures var r := ResetDefinedFlags(c.core.reg); forall k :: k in r.vars ==> !SlotAt(r, r.vars[k]).defined
  {
    forall k | k in c.core.reg.vars ensures !SlotAt(ResetDefinedFlags(c.core.reg), c.core.reg.vars[k]).defined {
      assert SoundEntry(c.core.reg, k) && c.core.reg.vars[k] in c.core.reg.vars.Values;
    }
  }

  /** A quit of the simulator does the same, but leaves every flag as it is; and an open begins a session without
      definitions and requests, to which every subscription is known. */
  lemma QuitAndOpenEndTheSession(c: Client)
    ensures var d, e := Next(c, QuitMessage), Next(c, CallOpen);
      && OnlySession(c, d) && d.core.reg == c.core.reg && !d.core.remote.open && !d.openReceived
      && OnlySession(c, e) && e.core.reg == c.core.reg && e.core.remote.open && !e.openReceived
      && d.core.remote.defs == map[] && d.core.remote.requests == map[]
      && e.core.remote.defs == map[] && e.core.remote.requests == map[]
  {}
}
