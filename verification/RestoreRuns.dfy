/** A restore walks the table in the order in which its entries were made. In that order no entry's slot is
    claimed before it, in every run, whichever keys are in use. */
module RestoreRuns {
  import opened Wrappers
  import opened Fields
  import opened RegistryState
  import opened Remote
  import opened Client
  import opened Tables
  import opened TablesKept
  import opened Session
  import opened Actions
  import opened Mirror
  import opened Applied
  import opened RestoreExact
  import opened MirrorLimits

  /** The key of a live single subscription is registered under its id or a later one, if at all. */
  ghost predicate LatestAt(c: Client, s: int)
    requires s in c.subs
  {
    var r := c.core.reg;
    s in r.idToKey && r.idToKey[s] in r.vars ==> SlotAt(r, r.vars[r.idToKey[s]]).defineId >= s
  }

  ghost predicate Latest(c: Client) { forall s :: s in c.subs ==> LatestAt(c, s) }

  lemma ShapeLatest(c: Client, d: Client)
    requires TablesOk(c) && Latest(c) && SameShape(c.core.reg, d.core.reg) && d.subs.Keys == c.subs.Keys
    ensures Latest(d)
  {
    forall s | s in d.subs ensures LatestAt(d, s) {
      assert LatestAt(c, s);
      var r := c.core.reg;
      if s in r.idToKey && r.idToKey[s] in r.vars {
        assert SoundEntry(r, r.idToKey[s]);
      }
    }
  }

  /** Binding a key to the next subscription id makes it later than all others. */
  lemma EnterLatest(c: Client, name: string, unit: string, dtype: int, period: int)
    requires TablesOk(c) && Latest(c)
    ensures Latest(AddSingle(c, name, unit, dtype, period))
  {
    var d, r := AddSingle(c, name, unit, dtype, period), c.core.reg;
    forall s | s in d.subs ensures LatestAt(d, s) {
      if s in c.subs {
        assert SubOk(r, s, c.subs[s]) && LatestAt(c, s);
        if s in r.idToKey && r.idToKey[s] in r.vars {
          assert SoundEntry(r, r.idToKey[s]);
        }
      }
    }
  }

  lemma EnterManyLatest(c: Client, fields: seq<ParsedField>, period: int)
    requires TablesOk(c) && Latest(c) && InBounds(AddMulti(c, fields, period).core.reg)
    ensures Latest(AddMulti(c, fields, period))
  {
    var d, r := AddMulti(c, fields, period), c.core.reg;
    forall s | s in d.subs ensures LatestAt(d, s) {
      if s in c.subs {
        assert LatestAt(c, s);
      } else {
        assert s == r.counters.nextSubId && s !in r.idToKey;
      }
      if s in r.idToKey && r.idToKey[s] in r.vars {
        assert SoundEntry(r, r.idToKey[s]);
      }
    }
  }

  lemma LookUpLatest(c: Client, name: string, unit: string, dtype: int)
    requires TablesOk(c) && Latest(c)
    ensures Latest(Do(c, LookUp(name, unit, dtype)))
  {
    var d, r := Do(c, LookUp(name, unit, dtype)), c.core.reg;
    forall s | s in d.subs ensures LatestAt(d, s) {
      assert SubOk(r, s, c.subs[s]) && LatestAt(c, s);
      if s in r.idToKey && r.idToKey[s] in r.vars {
        assert SoundEntry(r, r.idToKey[s]);
      }
    }
  }

  lemma DropLatest(c: Client, sid: int)
    requires TablesOk(c) && Latest(c)
    ensures Latest(UnsubscribeOne(c, sid))
  {
    var d := UnsubscribeOne(c, sid);
    forall s | s in d.subs ensures LatestAt(d, s) {
      assert LatestAt(c, s);
    }
  }

  lemma TouchLatest(c: Client, a: Action)
    requires TablesOk(c) && Latest(c) && Proper(c, a)
    requires a.ApplyTo? || a.Halt? || a.Define? || a.SetMark? || a.LowerFlags? || a.DefineFields?
    ensures Latest(Do(c, a))
  {
    match a
    case ApplyTo(sid) =>
      if sid in c.subs {
        assert SubOk(c.core.reg, sid, c.subs[sid]);
        ApplyAtSame(c, sid);
        ShapeLatest(c, Do(c, a));
      }
    case Halt(sid) => if sid in c.subs { ShapeLatest(c, Do(c, a)); }
    case Define(ref) =>
      DefineSame(c, ref);
      ShapeLatest(c, Do(c, a));
    case SetMark(sid, _) => ShapeLatest(c, Do(c, a));
    case LowerFlags =>
      ResetSame(c);
      ShapeLatest(c, Do(c, a));
    case DefineFields(fields) => FieldsLatest(c, fields);
  }

  lemma FieldsLatest(c: Client, fields: seq<ParsedField>)
    requires TablesOk(c) && Latest(c)
    ensures Latest(Do(c, DefineFields(fields)))
  {
    var d, r := Do(c, DefineFields(fields)), c.core.reg;
    DefineManyTouches(c.core, fields);
    forall s | s in d.subs ensures LatestAt(d, s) {
      assert LatestAt(c, s);
      if s in r.idToKey && r.idToKey[s] in r.vars {
        assert SoundEntry(r, r.idToKey[s]);
      }
    }
  }

  lemma SameTablesLatest(c: Client, d: Client)
    requires Latest(c) && d.subs == c.subs && d.core.reg.(counters := c.core.reg.counters) == c.core.reg
    ensures Latest(d)
  {
    assert forall s :: s in c.subs ==> LatestAt(c, s) ==> LatestAt(d, s);
  }

  lemma DoLatest(c: Client, a: Action)
    requires TablesOk(c) && Latest(c) && Proper(c, a) && InBounds(Do(c, a).core.reg)
    ensures Latest(Do(c, a))
  {
    match a
    case Enter(name, unit, dtype, period) => EnterLatest(c, name, unit, dtype, period);
    case EnterMany(fields, period) => EnterManyLatest(c, fields, period);
    case LookUp(name, unit, dtype) => LookUpLatest(c, name, unit, dtype);
    case Drop(sid) => DropLatest(c, sid);
    case ApplyTo(_) => TouchLatest(c, a);
    case Halt(_) => TouchLatest(c, a);
    case Define(_) => TouchLatest(c, a);
    case SetMark(_, _) => TouchLatest(c, a);
    case LowerFlags => TouchLatest(c, a);
    case DefineFields(_) => TouchLatest(c, a);
    case _ => SameTablesLatest(c, Do(c, a));
  }

  lemma {:induction false} AfterLatest(c: Client, actions: seq<Action>)
    requires TablesOk(c) && Latest(c) && AllProper(c, actions) && InBounds(After(c, actions).core.reg)
    ensures Latest(After(c, actions))
    decreases |actions|
  {
    if actions != [] {
      var d := Do(c, actions[0]);
      AfterLeq(d, actions[1..]);
      BoundsBelow(d.core.reg, After(c, actions).core.reg);
      DoKeeps(c, actions[0]);
      DoLatest(c, actions[0]);
      AfterLatest(d, actions[1..]);
    }
  }

  /** The order of a dictionary whose keys were drawn one after the other. */
  predicate Ascending(items: seq<int>) { forall i, j :: 0 <= i < j < |items| ==> items[i] < items[j] }

  lemma AscendingIsUnclaimed(c: Client, items: seq<int>, k: nat)
    requires TablesOk(c) && Latest(c) && Snapshot(c, items) && Ascending(items) && k < |items|
    ensures Unclaimed(c, items, k)
  {
    var r := c.core.reg;
    assert items[k] in items;
    assert LatestAt(c, items[k]);
    forall i | 0 <= i < k && items[i] in c.subs ensures GetVarByDefineId(r, items[k]) != Some(c.subs[items[i]].slot) {
      assert SubOk(r, items[i], c.subs[items[i]]);
    }
  }

  /** At the end of any run, with any HRESULTs and any keys, a restore that walks the table in its own order
      makes no clear call: an entry whose own calls succeed gets one copy of its fields more, or nothing more
      if it is stranded. Without failing calls every entry's do. */
  lemma RestoresInOrderAdd(script: seq<int>, run: seq<Step>, items: seq<int>, k: nat)
    requires Legal(Init(script), run) && EndOf(Init(script), run).core.remote.open
    requires Snapshot(EndOf(Init(script), run), items) && Ascending(items) && k < |items|
    ensures var c := EndOf(Init(script), run); var e := Reaches(c, items, k);
      && items[k] in c.subs && items[k] in e.subs
      && (ApplyAt(e, items[k]).1 ==> DefOf(Restore(c, items), items[k]) == DefOf(c, items[k]) + Gained(c, items[k]))
      && (Clean(c.core.remote) ==> ApplyAt(e, items[k]).1)
  {
    var c := EndOf(Init(script), run);
    RunIsItsActions(Init(script), run);
    AfterLatest(Init(script), RunActions(Init(script), run));
    AscendingIsUnclaimed(c, items, k);
    RestoreIsolatesEntries(c, items, k);
  }

  lemma StrandedGainsNothing(e: Client)
    requires TablesOk(e) && e.core.remote.open && e.core.remote.script == []
    requires Snapshot(e, [1, 2]) && 1 in e.subs && Stranded(e, 1)
    ensures DefOf(Restore(e, [1, 2]), 1) == DefOf(e, 1)
  {
    RestoreAddsOneCopy(e, [1, 2], 0);
    assert DefOf(e, 1) + [] == DefOf(e, 1);
  }

  /** Of two subscriptions to one variable on a ready session, a restore on the same session adds nothing to the
      first. */
  lemma RestoreAddsNothingToTheFirst(name: string, unit: string, dtype: int, period: int)
    requires period >= 0 && dtype >= 0
    ensures var one := CallSubscribe(name, unit, dtype, period); var e := EndOf(Opened([]), [one, one]);
      && Legal(Opened([]), [one, one]) && Enabled(e, RestoreAll([1, 2])) && 1 in e.subs && FieldsOf(e, 1) != []
      && DefOf(Next(e, RestoreAll([1, 2])), 1) == DefOf(e, 1)
  {
    var one := CallSubscribe(name, unit, dtype, period);
    var e := EndOf(Opened([]), [one, one]);
    SecondSubscriptionStrandsTheFirst(name, unit, dtype, period);
    assert Snapshot(e, [1, 2]) by {
      assert forall s :: s in e.subs <==> s in e.subs.Keys;
    }
    StrandedGainsNothing(e);
  }
}
