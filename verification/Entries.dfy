/** What becomes of a subscription's entry: it says what its caller asked for, and stays as it is until it is
    unsubscribed. */
module Entries {
  import opened RegistryState
  import opened Client
  import opened Tables
  import opened TablesKept
  import opened Session
  import opened Actions
  import opened Mirror
  import opened Meaning
  import opened Mail
  import opened InFlight

  predicate SameEntry(i: Info, j: Info) { j == i.(typeRequested := j.typeRequested) }

  /** The actions that change an entry, and no more than its mark. */
  predicate Marks(a: Action) { a.ApplyTo? || a.Halt? || a.SetMark? }

  lemma MarkingKeepsEntry(c: Client, a: Action, s: int)
    requires s in c.subs && Marks(a)
    ensures s in Do(c, a).subs && SameEntry(c.subs[s], Do(c, a).subs[s])
  {}

  lemma EnteringKeepsEntry(c: Client, a: Action, s: int)
    requires s in c.subs && s < c.core.reg.counters.nextSubId && (a.Enter? || a.EnterMany?)
    ensures s in Do(c, a).subs && Do(c, a).subs[s] == c.subs[s]
  {}

  lemma DroppingKeepsEntry(c: Client, t: int, s: int)
    requires s in c.subs && s != t
    ensures s in Do(c, Drop(t)).subs && Do(c, Drop(t)).subs[s] == c.subs[s]
  {}

  lemma OthersKeepEntries(c: Client, a: Action)
    requires !Marks(a) && !a.Enter? && !a.EnterMany? && !a.Drop?
    ensures Do(c, a).subs == c.subs
  {}

  lemma DoKeepsEntry(c: Client, a: Action, s: int)
    requires TablesOk(c) && s in c.subs && a != Drop(s)
    ensures s in Do(c, a).subs && SameEntry(c.subs[s], Do(c, a).subs[s])
  {
    assert SubOk(c.core.reg, s, c.subs[s]);
    if Marks(a) {
      MarkingKeepsEntry(c, a, s);
    } else if a.Enter? || a.EnterMany? {
      EnteringKeepsEntry(c, a, s);
    } else if a.Drop? {
      DroppingKeepsEntry(c, a.sid, s);
    } else {
      OthersKeepEntries(c, a);
    }
  }

  lemma DropIsFinal(c: Client, actions: seq<Action>, s: int)
    requires TablesOk(c) && AllProper(c, [Drop(s)] + actions) && InBounds(After(c, [Drop(s)] + actions).core.reg)
    requires s in c.subs
    ensures s !in After(c, [Drop(s)] + actions).subs
  {
    var d, all := Do(c, Drop(s)), [Drop(s)] + actions;
    assert all[1..] == actions;
    assert SubOk(c.core.reg, s, c.subs[s]);
    DoLeq(c, Drop(s));
    AfterLeq(d, actions);
    BoundsBelow(d.core.reg, After(c, all).core.reg);
    DoKeeps(c, Drop(s));
    if s in After(d, actions).subs {
      SubsGrow(d, actions, s);
    }
  }

  lemma {:induction false} AfterKeepsEntry(c: Client, actions: seq<Action>, s: int)
    requires TablesOk(c) && AllProper(c, actions) && InBounds(After(c, actions).core.reg)
    requires s in c.subs && (s in After(c, actions).subs || Drop(s) !in actions)
    ensures s in After(c, actions).subs && SameEntry(c.subs[s], After(c, actions).subs[s])
    decreases |actions|
  {
    if actions != [] {
      var d := Do(c, actions[0]);
      if actions[0] == Drop(s) {
        assert actions == [Drop(s)] + actions[1..];
        DropIsFinal(c, actions[1..], s);
      } else {
        AfterLeq(d, actions[1..]);
        BoundsBelow(d.core.reg, After(c, actions).core.reg);
        DoKeeps(c, actions[0]);
        DoKeepsEntry(c, actions[0], s);
        AfterKeepsEntry(d, actions[1..], s);
      }
    }
  }

  // ---- which steps drop an entry ----

  /** The step is an unsubscribe of s itself or of a composite it belongs to. */
  predicate Ends(c: Client, l: Step, s: int) {
    l.CallUnsubscribe? && (l.sid == s || (l.sid in c.composites && s in c.composites[l.sid]))
  }

  predicate NoDrops(actions: seq<Action>) { forall i :: 0 <= i < |actions| ==> !actions[i].Drop? }

  /** The steps that walk through a list. */
  predicate Walks(l: Step) { l.CallSubscribeMany? || l.Recover? || l.OpenMessage? || l.RestoreAll? }

  lemma WalkDropsNothing(c: Client, l: Step)
    requires Walks(l)
    ensures NoDrops(ActionsOf(c, l))
  {
    match l
    case CallSubscribeMany(fields, period) => SubscribingManyIsPlain(c, fields, period);
    case Recover(sid) => RecoveringIsPlain(if sid in c.composites then c.composites[sid] else [sid]);
    case OpenMessage(items) => RestoringIsPlain(items);
    case RestoreAll(items) => RestoringIsPlain(items);
  }

  lemma GetsDropNothing(c: Client, l: Step)
    requires l.CallGet? || l.CallGetMany? || l.FinishGet? || l.CallSet?
    ensures NoDrops(ActionsOf(c, l))
  {}

  lemma StepDropsNothing(c: Client, l: Step)
    requires !l.CallUnsubscribe?
    ensures NoDrops(ActionsOf(c, l))
  {
    if Walks(l) {
      WalkDropsNothing(c, l);
    } else if l.CallGet? || l.CallGetMany? || l.FinishGet? || l.CallSet? {
      GetsDropNothing(c, l);
    }
  }

  lemma StepDropsOnly(c: Client, l: Step, s: int)
    requires TablesOk(c) && s in c.subs
    ensures Drop(s) in ActionsOf(c, l) <==> Ends(c, l, s)
  {
    if l.CallUnsubscribe? {
      assert l.sid in c.composites ==> CompositeOk(c, l.sid);
      if l.sid in c.composites {
        DroppingOnlyDrops(c.composites[l.sid]);
      }
    } else {
      StepDropsNothing(c, l);
    }
  }

  lemma {:induction false} DroppedIsGone(c: Client, actions: seq<Action>, s: int)
    requires TablesOk(c) && AllProper(c, actions) && InBounds(After(c, actions).core.reg)
    requires s in c.subs && Drop(s) in actions
    ensures s !in After(c, actions).subs
    decreases |actions|
  {
    var d := Do(c, actions[0]);
    if actions[0] == Drop(s) {
      assert actions == [Drop(s)] + actions[1..];
      DropIsFinal(c, actions[1..], s);
    } else {
      AfterLeq(d, actions[1..]);
      BoundsBelow(d.core.reg, After(c, actions).core.reg);
      DoKeeps(c, actions[0]);
      DoKeepsEntry(c, actions[0], s);
      DroppedIsGone(d, actions[1..], s);
    }
  }

  /** A step ends exactly the entries it unsubscribes, and leaves every other as it is. */
  lemma StepEndsExactly(c: Client, l: Step, s: int)
    requires TablesOk(c) && Enabled(c, l) && InBounds(Next(c, l).core.reg) && s in c.subs
    ensures s in Next(c, l).subs <==> !Ends(c, l, s)
    ensures s in Next(c, l).subs ==> SameEntry(c.subs[s], Next(c, l).subs[s])
  {
    StepIsItsActions(c, l);
    StepDropsOnly(c, l, s);
    if Ends(c, l, s) {
      DroppedIsGone(c, ActionsOf(c, l), s);
    } else {
      AfterKeepsEntry(c, ActionsOf(c, l), s);
    }
  }

  /** No step of the run ends s. */
  predicate NeverEnded(c: Client, run: seq<Step>, s: int)
    decreases |run|
  {
    run == [] || (!Ends(c, run[0], s) && NeverEnded(Next(c, run[0]), run[1..], s))
  }

  lemma GoneStaysGone(c: Client, l: Step, s: int)
    requires TablesOk(c) && Enabled(c, l) && InBounds(Next(c, l).core.reg)
    requires 0 < s < c.core.reg.counters.nextSubId && s !in c.subs
    ensures s !in Next(c, l).subs && s < Next(c, l).core.reg.counters.nextSubId
  {
    StepIsItsActions(c, l);
    AfterLeq(c, ActionsOf(c, l));
    if s in Next(c, l).subs {
      SubsGrow(c, ActionsOf(c, l), s);
    }
  }

  lemma {:induction false} GoneForGood(c: Client, run: seq<Step>, s: int)
    requires TablesOk(c) && Legal(c, run) && 0 < s < c.core.reg.counters.nextSubId && s !in c.subs
    ensures s !in EndOf(c, run).subs
    decreases |run|
  {
    if run != [] {
      StepKeeps(c, run[0]);
      GoneStaysGone(c, run[0], s);
      GoneForGood(Next(c, run[0]), run[1..], s);
    }
  }

  /** In every run an entry lives exactly until it is unsubscribed, and all the while says the same. */
  lemma {:induction false} EntryLasts(c: Client, run: seq<Step>, s: int)
    requires TablesOk(c) && Legal(c, run) && s in c.subs
    ensures s in EndOf(c, run).subs <==> NeverEnded(c, run, s)
    ensures s in EndOf(c, run).subs ==> SameEntry(c.subs[s], EndOf(c, run).subs[s])
    decreases |run|
  {
    if run != [] {
      var d := Next(c, run[0]);
      StepKeeps(c, run[0]);
      StepEndsExactly(c, run[0], s);
      if s in d.subs {
        EntryLasts(d, run[1..], s);
      } else {
        assert SubOk(c.core.reg, s, c.subs[s]);
        StepIsItsActions(c, run[0]);
        AfterLeq(c, ActionsOf(c, run[0]));
        GoneForGood(d, run[1..], s);
      }
    }
  }

  // ---- what it stands for all the while ----

  function RunLearned(c: Client, w: Meanings, run: seq<Step>): Meanings
    decreases |run|
  {
    if run == [] then w else RunLearned(Next(c, run[0]), LearnAll(c, w, ActionsOf(c, run[0])), run[1..])
  }

  lemma {:induction false} RunLearns(c: Client, w: Meanings, run: seq<Step>)
    requires Means(c, w) && Legal(c, run)
    ensures Means(EndOf(c, run), RunLearned(c, w, run)) && Extends(w, RunLearned(c, w, run))
    decreases |run|
  {
    if run != [] {
      StepLearns(c, w, run[0]);
      RunLearns(Next(c, run[0]), LearnAll(c, w, ActionsOf(c, run[0])), run[1..]);
    }
  }

  lemma FieldsLast(c: Client, w: Meanings, run: seq<Step>, s: int)
    requires Means(c, w) && Legal(c, run) && s in c.subs && s in EndOf(c, run).subs
    ensures FieldsOf(EndOf(c, run), s) == FieldsOf(c, s)
  {
    RunLearns(c, w, run);
  }
}
