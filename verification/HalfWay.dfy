/** When the definition of a packed subscription is whole copies of its fields, and what a callback gets
    when it is not. */
module HalfWay {
  import opened Wrappers
  import opened Bytes
  import opened Parsing
  import opened Fields
  import opened RegistryState
  import opened Remote
  import opened Client
  import opened Tables
  import opened TablesKept
  import opened Session
  import opened Actions
  import opened Mirror
  import opened Meaning
  import opened Delivery
  import opened RestoreExact
  import opened MirrorLimits

  // ---- one application ----

  lemma {:induction false} RepeatLength<T>(xs: seq<T>, n: nat)
    ensures |Repeat(xs, n)| == n * |xs|
  {
    if n > 0 {
      RepeatLength(xs, n - 1);
    }
  }

  lemma MultipleBetween(n: nat, m: nat, size: nat, k: nat)
    requires m * size == n * size + k && k <= size
    ensures k == 0 || k == size
  {
    if m > n {
      MulMonotone(n + 1, m, size);
    } else {
      MulMonotone(m, n, size);
    }
  }

  lemma MulMonotone(a: nat, b: nat, size: nat)
    requires a <= b
    ensures a * size <= b * size
  {}

  /** Whole copies followed by the first k fields are whole copies exactly if that is none of them or all. */
  lemma PrefixOfCopies(def: seq<Field>, fields: seq<Field>, k: nat)
    requires k <= |fields| && exists n: nat :: Copies(def, fields, n)
    ensures (exists m: nat :: Copies(def + fields[..k], fields, m)) <==> k == 0 || k == |fields|
  {
    var n: nat :| Copies(def, fields, n);
    if k == 0 {
      assert def + fields[..0] == def;
      assert Copies(def + fields[..k], fields, n);
    } else if k == |fields| {
      assert Copies(def + fields[..k], fields, n + 1);
    } else if m: nat :| Copies(def + fields[..k], fields, m) {
      RepeatLength(fields, n);
      RepeatLength(fields, m);
      MultipleBetween(n, m, |fields|, k);
    }
  }

  /** An application leaves whole copies whole if and only if it adds none or all of the fields: the number
      of leading zeros among the HRESULTs of its AddToDataDefinition calls is nothing in between. */
  lemma ApplicationKeepsWholeExactly(c: Client, s: int)
    requires TablesOk(c) && s in c.subs && c.subs[s].Multi? && Holds(c, s, 0)
    ensures Holds(ApplyAt(c, s).0, s, 0) <==> Added(c, s) == 0 || Added(c, s) == |c.subs[s].fields|
  {
    var d := ApplyAt(c, s).0;
    assert SubOk(c.core.reg, s, c.subs[s]);
    ApplyAtSame(c, s);
    SameFields(c, d, s, s);
    ApplyManyMakes(c, s);
    var n: nat :| Copies(DefOf(c, s), FieldsOf(c, s), n);
    var after := DefOf(c, s) + FieldsOf(c, s)[..Added(c, s)];
    PrefixOfCopies(DefOf(c, s), FieldsOf(c, s), Added(c, s));
    assert DefOf(d, s) == after && FieldsOf(d, s) == FieldsOf(c, s);
    if Holds(d, s, 0) {
      var m: nat :| Copies(DefOf(d, s), FieldsOf(d, s), m);
      assert Copies(after, FieldsOf(c, s), m);
    } else if m: nat :| Copies(after, FieldsOf(c, s), m) {
      assert Copies(DefOf(d, s), FieldsOf(d, s), m);
    }
  }

  // ---- every moment of a run ----

  /** The definition of every live packed subscription is whole copies of its fields. */
  ghost predicate AllWhole(c: Client) { forall s :: s in c.subs && c.subs[s].Multi? ==> Holds(c, s, 0) }

  /** An application of a packed subscription that adds some of its fields and not all. */
  predicate StopsHalfWay(c: Client, a: Action) {
    && a.ApplyTo? && a.sid in c.subs && c.subs[a.sid].Multi?
    && 0 < Added(c, a.sid) < |c.subs[a.sid].fields|
  }

  /** A packed subscription after an action on something else: it is new and undefined, or as it was, or its
      definition is gone. */
  ghost predicate Beside(c: Client, d: Client, s: int) {
    s in d.subs && d.subs[s].Multi? ==>
      DefOf(d, s) == [] || (s in c.subs && c.subs[s].Multi? && FieldsOf(d, s) == FieldsOf(c, s)
                            && DefOf(d, s) == DefOf(c, s))
  }

  lemma SameBeside(c: Client, d: Client, id: int, s: int)
    requires TablesOk(c) && Same(c, d, id) && (s != id || DefOf(d, s) == DefOf(c, s) || DefOf(d, s) == [])
    ensures Beside(c, d, s)
  {
    if s in c.subs {
      SameFields(c, d, id, s);
    }
  }

  lemma DrawnBeside(c: Client, a: Action, s: int)
    requires TablesOk(c) && Undrawn(c) && (a.Enter? || a.EnterMany? || a.LookUp? || a.Reserve?)
    requires InBounds(Do(c, a).core.reg)
    ensures Beside(c, Do(c, a), s)
  {
    if s in c.subs {
      assert SubOk(c.core.reg, s, c.subs[s]);
    } else if s == c.core.reg.counters.nextSubId {
      assert s < VAR_ID_START ==> NotDrawn(c.core.reg.counters, s);
    }
  }

  lemma FieldsBeside(c: Client, fields: seq<ParsedField>, s: int)
    requires TablesOk(c)
    ensures Beside(c, Do(c, DefineFields(fields)), s)
  {
    DefineManyTouches(c.core, fields);
    if s in c.subs {
      assert SubOk(c.core.reg, s, c.subs[s]);
    }
  }

  lemma DefineBeside(c: Client, ref: SlotRef, s: int)
    requires TablesOk(c) && Proper(c, Define(ref))
    ensures Beside(c, Do(c, Define(ref)), s)
  {
    DefineSame(c, ref);
    if s in c.subs && c.subs[s].Multi? {
      assert SubOk(c.core.reg, s, c.subs[s]);
      SameBeside(c, Do(c, Define(ref)), c.core.reg.slots[ref].defineId, s);
    }
  }

  lemma HaltBeside(c: Client, id: int, s: int)
    requires TablesOk(c) && id in c.subs
    ensures Beside(c, Stopped(c, id), s)
  {
    StoppedSame(c, id);
    CalledKeeps(c.core.remote);
    CalledKeeps(RequestData(c.core.remote, id, id, PERIOD_NEVER));
    SameBeside(c, Stopped(c, id), id, s);
  }

  lemma CallBeside(c: Client, a: Action, s: int)
    requires TablesOk(c) && (a.AskType? || a.Clear?)
    ensures Beside(c, Do(c, a), s)
  {
    CalledKeeps(c.core.remote);
  }

  lemma OtherActionBeside(c: Client, a: Action, s: int)
    requires TablesOk(c) && Undrawn(c) && Proper(c, a) && InBounds(Do(c, a).core.reg) && !a.ApplyTo?
    ensures Beside(c, Do(c, a), s)
  {
    match a
    case Enter(_, _, _, _) => DrawnBeside(c, a, s);
    case EnterMany(_, _) => DrawnBeside(c, a, s);
    case LookUp(_, _, _) => DrawnBeside(c, a, s);
    case Reserve => DrawnBeside(c, a, s);
    case DefineFields(fields) => FieldsBeside(c, fields, s);
    case Define(ref) => DefineBeside(c, ref, s);
    case Halt(id) => if id in c.subs { HaltBeside(c, id, s); }
    case Drop(id) => if id in c.subs { DropFrame(c, id); }
    case AskType(_) => CallBeside(c, a, s);
    case Clear(_) => CallBeside(c, a, s);
    case OtherCalls(_) => QuietSame(c, a); SameBeside(c, Do(c, a), 0, s);
    case SetMark(_, _) => QuietSame(c, a); SameBeside(c, Do(c, a), 0, s);
    case LowerFlags => QuietSame(c, a); SameBeside(c, Do(c, a), 0, s);
    case _ =>
  }

  lemma BesideHolds(c: Client, d: Client, s: int)
    requires s in d.subs && d.subs[s].Multi? && Beside(c, d, s)
    requires s in c.subs && c.subs[s].Multi? ==> Holds(c, s, 0)
    ensures Holds(d, s, 0)
  {
    if DefOf(d, s) == [] {
      assert Copies(DefOf(d, s), FieldsOf(d, s), 0);
    } else {
      var n: nat :| Copies(DefOf(c, s), FieldsOf(c, s), n);
      assert Copies(DefOf(d, s), FieldsOf(d, s), n);
    }
  }

  lemma ApplyToOthers(c: Client, id: int, s: int)
    requires TablesOk(c) && id in c.subs && s != id
    ensures Beside(c, ApplyAt(c, id).0, s)
  {
    assert SubOk(c.core.reg, id, c.subs[id]);
    ApplyAtSame(c, id);
    SameBeside(c, ApplyAt(c, id).0, id, s);
  }

  /** One action keeps everything whole if and only if it does not stop half-way. */
  lemma DoKeepsWholeExactly(c: Client, a: Action)
    requires TablesOk(c) && Undrawn(c) && Proper(c, a) && InBounds(Do(c, a).core.reg) && AllWhole(c)
    ensures AllWhole(Do(c, a)) <==> !StopsHalfWay(c, a)
  {
    var d := Do(c, a);
    forall s | s in d.subs && d.subs[s].Multi? && !(a.ApplyTo? && a.sid == s) ensures Holds(d, s, 0) {
      if a.ApplyTo? {
        if a.sid in c.subs {
          ApplyToOthers(c, a.sid, s);
        }
      } else {
        OtherActionBeside(c, a, s);
      }
      BesideHolds(c, d, s);
    }
    if a.ApplyTo? && a.sid in c.subs {
      assert SubOk(c.core.reg, a.sid, c.subs[a.sid]);
      ApplyAtSame(c, a.sid);
      if c.subs[a.sid].Multi? {
        ApplicationKeepsWholeExactly(c, a.sid);
      }
    }
  }

  ghost predicate WholeThroughout(c: Client, actions: seq<Action>)
    decreases |actions|
  {
    AllWhole(c) && (actions == [] || WholeThroughout(Do(c, actions[0]), actions[1..]))
  }

  predicate SomeStopsHalfWay(c: Client, actions: seq<Action>)
    decreases |actions|
  {
    actions != [] && (StopsHalfWay(c, actions[0]) || SomeStopsHalfWay(Do(c, actions[0]), actions[1..]))
  }

  lemma {:induction false} ThroughoutExactly(c: Client, w: Meanings, actions: seq<Action>)
    requires Means(c, w) && AllProper(c, actions) && InBounds(After(c, actions).core.reg) && AllWhole(c)
    ensures WholeThroughout(c, actions) <==> !SomeStopsHalfWay(c, actions)
    decreases |actions|
  {
    if actions != [] {
      var d := Do(c, actions[0]);
      AfterLeq(d, actions[1..]);
      BoundsBelow(d.core.reg, After(c, actions).core.reg);
      DoKeepsWholeExactly(c, actions[0]);
      if AllWhole(d) {
        DoMeans(c, w, actions[0]);
        ThroughoutExactly(d, Learn(c, w, actions[0]), actions[1..]);
      } else {
        assert !WholeThroughout(d, actions[1..]);
      }
    }
  }

  /** In every run, whatever the DLL answers and whichever keys are used: the definition of every live packed
      subscription is whole copies of its fields at every moment, between the calls of one step too, if and
      only if no application stops half-way. */
  lemma DefinitionsAreWholeExactly(script: seq<int>, run: seq<Step>)
    requires Legal(Init(script), run)
    ensures WholeThroughout(Init(script), RunActions(Init(script), run)) <==>
      !SomeStopsHalfWay(Init(script), RunActions(Init(script), run))
  {
    InitMeans(script);
    RunIsItsActions(Init(script), run);
    ThroughoutExactly(Init(script), map[], RunActions(Init(script), run));
  }

  // ---- a run that stops half-way, and what the callback gets ----

  lemma NumericPair(f: ParsedField, g: ParsedField)
    requires SizeOf(f.dtype).Some? && SizeOf(g.dtype).Some?
    ensures Numeric([f, g]) == [f, g] && Strings([f, g]) == [] && AllNumeric([f, g])
    ensures forall x :: x in [f, g] ==> Supported(x)
  {
    assert [f, g][..1] == [f] && [f][..0] == [];
    assert Numeric([]) == [] && Strings([]) == [];
    assert Numeric([f]) == [f] && Strings([f]) == [];
  }

  lemma AddPair(r: Remote, id: int, f: Field, g: Field)
    requires r.open && (r.script == [] || r.script == [0, 1])
    ensures var (q, ok) := AddAll(r, id, [f, g]);
      && ok == (r.script == []) && q == r.(defs := q.defs, script := [])
      && q.defs == r.defs[id := Def(r, id) + if ok then [f, g] else [f]]
  {
    assert [f, g][1..] == [g] && [g][1..] == [];
    var once := AddToDefinition(r, id, f);
    assert AddAll(r, id, [f, g]) == AddAll(once, id, [g]);
    if r.script == [] {
      assert AddAll(once, id, [g]) == AddAll(AddToDefinition(once, id, g), id, []);
      assert Def(r, id) + [f] + [g] == Def(r, id) + [f, g];
    } else {
      assert once.script == [1];
    }
  }

  lemma FailedSubscribeMany(f: ParsedField, g: ParsedField, period: int)
    requires SizeOf(f.dtype).Some? && SizeOf(g.dtype).Some? && period >= 0
    ensures var (d, ok) := SubscribeMany(Opened([0, 1]), [f, g], period);
      && !ok && d.core.remote == Remote(true, map[], map[], []).(defs := map[1 := [RemoteField(f)]])
      && d.subs == map[1 := Multi(0, period, false, [f, g], Layout([f, g]))]
      && d.openReceived && d.core.reg.idToKey == map[] && InBounds(d.core.reg)
  {
    NumericPair(f, g);
    var a := AddMulti(Opened([0, 1]), [f, g], period);
    assert PrepareDefinition(a.core, 1) == a.core;
    assert RemoteFields([f, g]) == [RemoteField(f), RemoteField(g)];
    AddPair(a.core.remote, 1, RemoteField(f), RemoteField(g));
    assert [] + [RemoteField(f)] == [RemoteField(f)];
  }

  lemma RestoredPair(d: Client, f: ParsedField, g: ParsedField, period: int)
    requires d.core.remote == Remote(true, map[], map[], []).(defs := map[1 := [RemoteField(f)]])
    requires d.subs == map[1 := Multi(0, period, false, [f, g], Layout([f, g]))] && d.core.reg.idToKey == map[]
    ensures DefOf(Restore(d, [1]), 1) == [RemoteField(f), RemoteField(f), RemoteField(g)]
    ensures 1 in Restore(d, [1]).subs && Restore(d, [1]).subs[1] == Multi(0, period, true, [f, g], Layout([f, g]))
    ensures FieldsOf(Restore(d, [1]), 1) == [RemoteField(f), RemoteField(g)] && Snapshot(d, [1])
  {
    var r := ResetFlags(d);
    assert PrepareDefinition(r.core, 1) == r.core;
    assert RemoteFields([f, g]) == [RemoteField(f), RemoteField(g)];
    AddPair(r.core.remote, 1, RemoteField(f), RemoteField(g));
    assert [1][1..] == [];
    assert ApplyAll(r, [1]) == ApplyAll(ApplyAt(r, 1).0, []);
  }

  /** HRESULT 0 matters: when the second AddToDataDefinition of a subscribe_many fails, the entry stays
      with half a definition, and a restore on the same session appends the whole list behind it. The
      definition then is no number of copies of the field list. */
  lemma FailedAddMisalignsTheDefinition(f: ParsedField, g: ParsedField, period: int)
    requires SizeOf(f.dtype).Some? && SizeOf(g.dtype).Some? && period >= 0
    ensures Legal(Init([0, 1]), [CallOpen, OpenMessage([])])
      && EndOf(Init([0, 1]), [CallOpen, OpenMessage([])]) == Opened([0, 1])
    ensures var run := [CallSubscribeMany([f, g], period), RestoreAll([1])]; var e := EndOf(Opened([0, 1]), run);
      && Enabled(Opened([0, 1]), run[0]) && Enabled(Next(Opened([0, 1]), run[0]), run[1])
      && 1 in e.subs && FieldsOf(e, 1) == [RemoteField(f), RemoteField(g)]
      && DefOf(e, 1) == [RemoteField(f), RemoteField(f), RemoteField(g)] && !Holds(e, 1, 0)
      && e.subs[1] == Multi(0, period, true, [f, g], Layout([f, g]))
  {
    OpeningRun([0, 1]);
    FailedSubscribeMany(f, g, period);
    var d := SubscribeMany(Opened([0, 1]), [f, g], period).0;
    RestoredPair(d, f, g, period);
    TwoSteps(Opened([0, 1]), CallSubscribeMany([f, g], period), RestoreAll([1]));
    NoCopiesAreOdd(Restore(d, [1]), 1);
  }

  lemma NoCopiesAreOdd(c: Client, s: int)
    requires s in c.subs && |FieldsOf(c, s)| == 2 && |DefOf(c, s)| == 3
    ensures !Holds(c, s, 0)
  {
    forall n: nat ensures |Repeat(FieldsOf(c, s), n)| == 2 * n {
      RepeatLength(FieldsOf(c, s), n);
    }
  }

  lemma PairDict(f: ParsedField, g: ParsedField, values: seq<Value>, m: map<string, Value>)
    requires f.key != g.key && |values| == 2 && DictOf(m, Layout([f, g]), values)
    ensures m == map[f.key := values[0], g.key := values[1]]
  {
    var layout := Layout([f, g]);
    assert layout[0].key == f.key && layout[1].key == g.key;
    assert LastOfItsKey(layout, 0) && LastOfItsKey(layout, 1);
    assert Keys(layout) == {f.key, g.key};
    assert m.Keys == {f.key, g.key};
  }

  lemma PairCallback(c: Client, f: ParsedField, g: ParsedField, period: int, values: seq<Value>, tail: Memory,
                     plausible: Value -> bool)
    requires SizeOf(f.dtype).Some? && g.dtype == f.dtype && g.key != f.key
    requires 1 in c.subs && c.subs[1] == Multi(0, period, true, [f, g], Layout([f, g]))
    requires Fills(values, [RemoteField(f), RemoteField(f), RemoteField(g)])
    requires plausible(values[0]) && plausible(values[1])
    ensures Deliver(c, Message(1, values, tail), plausible) ==
      Some((1, Many(map[f.key := values[0], g.key := values[1]])))
  {
    FirstValuesHold([RemoteField(f), RemoteField(f), RemoteField(g)], [f, g], values, tail);
    assert AllAccepted(values[..2], plausible);
    ReadSlicesReads(Pack(values) + tail, Layout([f, g]), values[..2], plausible);
    PairDict(f, g, values[..2], ReadSlices(Pack(values) + tail, Layout([f, g]), plausible).value);
  }

  /** What that costs: when both fields have one datatype, the callback gets the first variable's second
      value under the second key. */
  lemma MisalignedCallback(f: ParsedField, g: ParsedField, period: int, values: seq<Value>, tail: Memory,
                           plausible: Value -> bool)
    requires SizeOf(f.dtype).Some? && g.dtype == f.dtype && g.key != f.key && period >= 0
    requires Fills(values, [RemoteField(f), RemoteField(f), RemoteField(g)])
    requires plausible(values[0]) && plausible(values[1])
    ensures var c := EndOf(Opened([0, 1]), [CallSubscribeMany([f, g], period), RestoreAll([1])]);
      && DefOf(c, 1) == [RemoteField(f), RemoteField(f), RemoteField(g)]
      && Deliver(c, Message(1, values, tail), plausible) == Some((1, Many(map[f.key := values[0], g.key := values[1]])))
  {
    FailedAddMisalignsTheDefinition(f, g, period);
    var c := EndOf(Opened([0, 1]), [CallSubscribeMany([f, g], period), RestoreAll([1])]);
    PairCallback(c, f, g, period, values, tail, plausible);
  }
}
