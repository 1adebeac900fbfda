/** What an id stands for: the fields its definition is made of. It never changes once the id is drawn, and
    in every run, whatever the DLL answers and whichever keys are used, the definition of an id that stands
    for one variable is whole copies of it. */
module Meaning {
  import opened Wrappers
  import opened Fields
  import opened RegistryState
  import opened Remote
  import opened Client
  import opened Tables
  import opened TablesKept
  import opened Session
  import opened Actions
  import opened Mirror

  type Meanings = map<int, seq<Field>>

  function NewSlotField(name: string, unit: string, dtype: int): Field {
    Field(name, UnitForDefinition(unit, dtype), dtype)
  }

  /** The id an action draws, with what it stands for. */
  function Learn(c: Client, w: Meanings, a: Action): Meanings {
    var n := c.core.reg.counters;
    match a
    case Enter(name, unit, dtype, _) => w[n.nextSubId := [NewSlotField(name, unit, dtype)]]
    case EnterMany(fields, _) => w[n.nextSubId := RemoteFields(fields)]
    case LookUp(name, unit, dtype) =>
      if KeyOf(name, unit, dtype) in c.core.reg.vars then w else w[n.nextVarId := [NewSlotField(name, unit, dtype)]]
    case DefineFields(fields) => w[n.nextGetManyId := RemoteFields(fields)]
    case _ => w
  }

  function LearnAll(c: Client, w: Meanings, actions: seq<Action>): Meanings
    decreases |actions|
  {
    if actions == [] then w else LearnAll(Do(c, actions[0]), Learn(c, w, actions[0]), actions[1..])
  }

  ghost predicate MadeOf(r: Remote, id: int, fields: seq<Field>) { exists n: nat :: Copies(Def(r, id), fields, n) }

  /** The id of the slot stands for the slot's variable. */
  ghost predicate Named(r: Reg, w: Meanings, ref: SlotRef) {
    var slot := SlotAt(r, ref);
    slot.defineId in w && w[slot.defineId] == [SlotField(slot)]
  }

  ghost predicate Means(c: Client, w: Meanings) {
    && TablesOk(c) && Undrawn(c)
    && (forall id :: NotDrawn(c.core.reg.counters, id) ==> id !in w)
    && (forall k :: k in c.core.reg.vars ==> Named(c.core.reg, w, c.core.reg.vars[k]))
    && (forall s :: s in c.subs ==> s in w && w[s] == FieldsOf(c, s))
    && (forall id :: id in w && |w[id]| == 1 ==> MadeOf(c.core.remote, id, w[id]))
  }

  // ---- one definition changes ----

  lemma MadeOfNothing(r: Remote, id: int, fields: seq<Field>)
    requires Def(r, id) == []
    ensures MadeOf(r, id, fields)
  {
    assert Copies(Def(r, id), fields, 0);
  }

  lemma MadeOfSame(r: Remote, q: Remote, id: int, fields: seq<Field>)
    requires MadeOf(r, id, fields) && (Def(q, id) == Def(r, id) || Def(q, id) == Def(r, id) + fields)
    ensures MadeOf(q, id, fields)
  {
    var n: nat :| Copies(Def(r, id), fields, n);
    if Def(q, id) == Def(r, id) {
      assert Copies(Def(q, id), fields, n);
    } else {
      assert Copies(Def(q, id), fields, n + 1);
    }
  }

  lemma NamedShape(r: Reg, q: Reg, w: Meanings, ref: SlotRef)
    requires SameShape(r, q) && ref < |r.slots| && Named(r, w, ref)
    ensures Named(q, w, ref)
  {}

  /** A step on the definition of one id. */
  lemma MeansSame(c: Client, d: Client, w: Meanings, id: int)
    requires Means(c, w) && TablesOk(d) && Same(c, d, id)
    requires Issued(c.core.reg.counters, id) || Def(d.core.remote, id) == Def(c.core.remote, id)
    requires id in w && |w[id]| == 1 ==> MadeOf(d.core.remote, id, w[id])
    ensures Means(d, w)
  {
    forall k | k in d.core.reg.vars ensures Named(d.core.reg, w, d.core.reg.vars[k]) {
      assert SoundEntry(c.core.reg, k);
      NamedShape(c.core.reg, d.core.reg, w, c.core.reg.vars[k]);
    }
    forall s | s in d.subs ensures w[s] == FieldsOf(d, s) {
      SameFields(c, d, id, s);
    }
    forall x | x in w && |w[x]| == 1 ensures MadeOf(d.core.remote, x, w[x]) {
      if x != id {
        MadeOfSame(c.core.remote, d.core.remote, x, w[x]);
      }
    }
  }

  /** A step that leaves every definition alone. */
  lemma MeansFrame(c: Client, d: Client, w: Meanings)
    requires Means(c, w) && TablesOk(d) && Same(c, d, 0) && Def(d.core.remote, 0) == Def(c.core.remote, 0)
    ensures Means(d, w)
  {
    if 0 in w && |w[0]| == 1 {
      MadeOfSame(c.core.remote, d.core.remote, 0, w[0]);
    }
    MeansSame(c, d, w, 0);
  }

  // ---- defining ----

  /** Undefining and defining a slot changes its definition to nothing or not at all, then adds one field or
      none; it adds one if it succeeds and the slot is the one its id looks up. */
  lemma DefineSlotMakes(k: Core, ref: SlotRef)
    requires ref < |k.reg.slots|
    ensures var slot := k.reg.slots[ref]; var (q, ok) := DefineSlot(k, ref);
      var before, after := Def(k.remote, slot.defineId), Def(q.remote, slot.defineId); var field := [SlotField(slot)];
      && (after == before || after == [] || after == before + field || after == field)
      && (ok && GetVarByDefineId(k.reg, slot.defineId) == Some(ref) ==> after == before + field || after == field)
  {
    CalledKeeps(k.remote);
    CalledKeeps(PrepareDefinition(k, k.reg.slots[ref].defineId).remote);
    var field := [SlotField(k.reg.slots[ref])];
    assert [] + field == field;
  }

  lemma BothKeepDefs(k: Core, sid: int, id: int, info: Info)
    ensures RequestBoth(k, sid, id, info).core.remote.defs == k.remote.defs
  {
    CalledKeeps(k.remote);
    CalledKeeps(RequestData(k.remote, sid, id, info.period));
  }

  lemma MadeOfStep(r: Remote, q: Remote, id: int, fields: seq<Field>)
    requires MadeOf(r, id, fields)
    requires Def(q, id) == Def(r, id) || Def(q, id) == [] || Def(q, id) == Def(r, id) + fields || Def(q, id) == fields
    ensures MadeOf(q, id, fields)
  {
    if Def(q, id) == [] {
      MadeOfNothing(q, id, fields);
    } else if Def(q, id) == fields {
      assert Repeat(fields, 0) + fields == fields;
      assert Copies(Def(q, id), fields, 1);
    } else {
      MadeOfSame(r, q, id, fields);
    }
  }

  lemma ApplySingleMakes(k: Core, sid: int, info: Info)
    requires info.slot < |k.reg.slots| && k.reg.slots[info.slot].defineId == sid
    ensures var q, field := ApplySingle(k, sid, info).core.remote, [SlotField(k.reg.slots[info.slot])];
      || Def(q, sid) == Def(k.remote, sid) || Def(q, sid) == []
      || Def(q, sid) == Def(k.remote, sid) + field || Def(q, sid) == field
  {
    DefineSlotMakes(k, info.slot);
    BothKeepDefs(DefineSlot(k, info.slot).0, sid, sid, info);
  }

  /** Adding fields until a call fails adds the first of them. */
  lemma {:induction false} AddAllAddsPrefix(r: Remote, id: int, fields: seq<Field>)
    requires r.open
    ensures var k := LeadingZeros(r.script, |fields|); var (q, ok) := AddAll(r, id, fields);
      k <= |fields| && Def(q, id) == Def(r, id) + fields[..k] && ok == (k == |fields|)
    decreases |fields|
  {
    if fields == [] {
      assert Def(r, id) + fields == Def(r, id);
    } else if Accepts(r) {
      var next := AddToDefinition(r, id, fields[0]);
      AddAllAddsPrefix(next, id, fields[1..]);
      var k := LeadingZeros(next.script, |fields[1..]|);
      assert Def(r, id) + [fields[0]] + fields[1..][..k] == Def(r, id) + fields[..k + 1];
    } else {
      assert Def(r, id) + fields[..0] == Def(r, id);
    }
  }

  /** How many of the next n calls on an open session succeed before one fails. */
  function LeadingZeros(script: seq<int>, n: nat): (k: nat)
    ensures k <= n
  {
    if n == 0 then 0
    else if script == [] then n
    else if script[0] != 0 then 0
    else 1 + LeadingZeros(script[1..], n - 1)
  }

  lemma ClosedAddsNothing(r: Remote, id: int, fields: seq<Field>)
    requires !r.open
    ensures AddAll(r, id, fields).0 == r && AddAll(r, id, fields).1 == (fields == [])
  {}

  /** How many fields of a packed subscription its next application adds. */
  function Added(c: Client, s: int): nat
    requires s in c.subs && c.subs[s].Multi?
  {
    if c.core.remote.open then LeadingZeros(c.core.remote.script, |c.subs[s].fields|) else 0
  }

  lemma ApplyManyMakes(c: Client, s: int)
    requires TablesOk(c) && s in c.subs && c.subs[s].Multi?
    ensures Def(ApplyAt(c, s).0.core.remote, s) == Def(c.core.remote, s) + FieldsOf(c, s)[..Added(c, s)]
  {
    var info := c.subs[s];
    var fields := RemoteFields(info.fields);
    assert SubOk(c.core.reg, s, info);
    assert PrepareDefinition(c.core, s) == c.core;
    var (added, ok) := AddAll(c.core.remote, s, fields);
    if c.core.remote.open {
      AddAllAddsPrefix(c.core.remote, s, fields);
    } else {
      ClosedAddsNothing(c.core.remote, s, fields);
      assert Def(c.core.remote, s) + fields[..0] == Def(c.core.remote, s);
    }
    BothKeepDefs(Core(SetDefined(c.core.reg, info.slot, true), added), s, s, info);
  }

  // ---- the actions ----

  lemma ApplyMeans(c: Client, w: Meanings, s: int)
    requires Means(c, w) && s in c.subs
    ensures Means(ApplyAt(c, s).0, w)
  {
    var d := ApplyAt(c, s).0;
    assert SubOk(c.core.reg, s, c.subs[s]);
    ApplyAtSame(c, s);
    ApplyAtKeeps(c, s);
    if |w[s]| == 1 {
      if c.subs[s].Single? {
        ApplySingleMakes(c.core, s, c.subs[s]);
        MadeOfStep(c.core.remote, d.core.remote, s, w[s]);
      } else {
        ApplyManyMakes(c, s);
        OneFieldOrNone(w[s], Added(c, s));
        assert Def(c.core.remote, s) + [] == Def(c.core.remote, s);
        MadeOfSame(c.core.remote, d.core.remote, s, w[s]);
      }
    }
    MeansSame(c, d, w, s);
  }

  lemma OneFieldOrNone(fields: seq<Field>, k: nat)
    requires |fields| == 1 && k <= 1
    ensures fields[..k] == [] || fields[..k] == fields
  {}

  lemma HaltMeans(c: Client, w: Meanings, s: int)
    requires Means(c, w) && s in c.subs
    ensures Means(Stopped(c, s), w)
  {
    var d := Stopped(c, s);
    assert SubOk(c.core.reg, s, c.subs[s]);
    StoppedSame(c, s);
    SameKeeps(c, d, s);
    CalledKeeps(c.core.remote);
    CalledKeeps(RequestData(c.core.remote, s, s, PERIOD_NEVER));
    if |w[s]| == 1 {
      MadeOfStep(c.core.remote, d.core.remote, s, w[s]);
    }
    MeansSame(c, d, w, s);
  }

  lemma DropFrame(c: Client, s: int)
    requires s in c.subs
    ensures var d := UnsubscribeOne(c, s);
      && d.core.reg.slots == c.core.reg.slots && d.core.reg.counters == c.core.reg.counters && d.subs == c.subs - {s}
      && (forall k :: k in d.core.reg.vars ==> k in c.core.reg.vars && d.core.reg.vars[k] == c.core.reg.vars[k])
      && (forall id :: Def(d.core.remote, id) == Def(c.core.remote, id) || Def(d.core.remote, id) == [])
  {
    CalledKeeps(c.core.remote);
    CalledKeeps(RequestData(c.core.remote, s, s, PERIOD_NEVER));
  }

  lemma DropMeans(c: Client, w: Meanings, s: int)
    requires Means(c, w) && s in c.subs
    ensures Means(UnsubscribeOne(c, s), w)
  {
    var d := UnsubscribeOne(c, s);
    UnsubscribeOneKeeps(c, s);
    DropFrame(c, s);
    forall k | k in d.core.reg.vars ensures Named(d.core.reg, w, d.core.reg.vars[k]) {
      assert Named(c.core.reg, w, c.core.reg.vars[k]);
    }
    forall x | x in w && |w[x]| == 1 ensures MadeOf(d.core.remote, x, w[x]) {
      MadeOfStep(c.core.remote, d.core.remote, x, w[x]);
    }
  }

  lemma DefineMeans(c: Client, w: Meanings, ref: SlotRef)
    requires Means(c, w) && Proper(c, Define(ref))
    ensures Means(Do(c, Define(ref)), w)
  {
    var d, id := Do(c, Define(ref)), c.core.reg.slots[ref].defineId;
    DefineSame(c, ref);
    DefineKeeps(c, ref);
    assert Named(c.core.reg, w, c.core.reg.vars[c.core.reg.idToKey[id]]);
    DefineSlotMakes(c.core, ref);
    MadeOfStep(c.core.remote, d.core.remote, id, w[id]);
    MeansSame(c, d, w, id);
  }

  /** Neither the entries nor the registry's slots and ids change. */
  lemma ClearMeans(c: Client, w: Meanings, id: int)
    requires Means(c, w) && Proper(c, Clear(id))
    ensures Means(Do(c, Clear(id)), w)
  {
    var d := Do(c, Clear(id));
    ClearTouches(c.core, id);
    ClearKeeps(c, id);
    CalledKeeps(c.core.remote);
    if id in w && |w[id]| == 1 {
      MadeOfStep(c.core.remote, d.core.remote, id, w[id]);
    }
    MeansSame(c, d, w, id);
  }

  lemma AskMeans(c: Client, w: Meanings, id: int)
    requires Means(c, w) && Proper(c, AskType(id))
    ensures Means(Do(c, AskType(id)), w)
  {
    var d := Do(c, AskType(id));
    AskedKeeps(c, id);
    AskTouches(c.core, id);
    CalledKeeps(c.core.remote);
    if id in w && |w[id]| == 1 {
      MadeOfSame(c.core.remote, d.core.remote, id, w[id]);
    }
    MeansSame(c, d, w, id);
  }

  predicate Quiet(a: Action) { a.OtherCalls? || a.SetMark? || a.LowerFlags? }

  lemma QuietSame(c: Client, a: Action)
    requires Quiet(a)
    ensures Same(c, Do(c, a), 0) && Do(c, a).core.remote == c.core.remote.(script := Do(c, a).core.remote.script)
    ensures Do(c, a).pending == c.pending
  {
    match a
    case OtherCalls(calls) => SpentSame(c, calls);
    case SetMark(sid, typeRequested) => MarkSame(c, sid, typeRequested);
    case LowerFlags => ResetSame(c);
  }

  lemma SpentSame(c: Client, calls: nat)
    ensures Same(c, Do(c, OtherCalls(calls)), 0)
    ensures var r := Do(c, OtherCalls(calls)).core.remote; r == c.core.remote.(script := r.script)
  {
    SpentKeeps(c.core.remote, calls);
  }

  lemma MarkSame(c: Client, sid: int, typeRequested: bool)
    ensures Same(c, Do(c, SetMark(sid, typeRequested)), 0)
  {}

  lemma QuietMeans(c: Client, w: Meanings, a: Action)
    requires Means(c, w) && Quiet(a)
    ensures Means(Do(c, a), w)
  {
    QuietSame(c, a);
    SameKeeps(c, Do(c, a), 0);
    MeansFrame(c, Do(c, a), w);
  }

  /** Steps that change neither registry nor entries nor definitions, unless they empty all of these last. */
  lemma OutsideMeans(c: Client, d: Client, w: Meanings)
    requires Means(c, w) && TablesOk(d) && d.core.reg == c.core.reg && d.subs == c.subs
    requires d.core.remote.defs == c.core.remote.defs || d.core.remote.defs == map[]
    ensures Means(d, w)
  {
    assert forall k :: k in c.core.reg.vars ==> Named(c.core.reg, w, c.core.reg.vars[k]);
    forall x | x in w && |w[x]| == 1 ensures MadeOf(d.core.remote, x, w[x]) {
      MadeOfStep(c.core.remote, d.core.remote, x, w[x]);
    }
    forall id | NotDrawn(d.core.reg.counters, id) ensures Def(d.core.remote, id) == [] {
      assert Def(c.core.remote, id) == [];
    }
  }

  // ---- new ids ----

  /** A registry that drew one id, and an entry or a slot for it perhaps. */
  lemma DrawnMeans(c: Client, d: Client, w: Meanings, id: int, fields: seq<Field>)
    requires Means(c, w) && TablesOk(d) && d.core.remote == c.core.remote && NotDrawn(c.core.reg.counters, id)
    requires Leq(c.core.reg.counters, d.core.reg.counters) && !NotDrawn(d.core.reg.counters, id)
    requires forall k :: k in d.core.reg.vars ==> Named(d.core.reg, w[id := fields], d.core.reg.vars[k])
    requires forall s :: s in d.subs ==> s in w[id := fields] && w[id := fields][s] == FieldsOf(d, s)
    ensures Means(d, w[id := fields])
  {
    var v := w[id := fields];
    forall x | x in v && |v[x]| == 1 ensures MadeOf(d.core.remote, x, v[x]) {
      if x == id {
        MadeOfNothing(d.core.remote, x, v[x]);
      }
    }
  }

  lemma EnterMeans(c: Client, w: Meanings, name: string, unit: string, dtype: int, period: int)
    requires Means(c, w) && InBounds(AddSingle(c, name, unit, dtype, period).core.reg)
    ensures Means(AddSingle(c, name, unit, dtype, period),
                  w[c.core.reg.counters.nextSubId := [NewSlotField(name, unit, dtype)]])
  {
    var d, id := AddSingle(c, name, unit, dtype, period), c.core.reg.counters.nextSubId;
    var v := w[id := [NewSlotField(name, unit, dtype)]];
    AddSingleKeeps(c, name, unit, dtype, period);
    NextIsFresh(c);
    assert NotDrawn(c.core.reg.counters, id) && id !in w;
    forall k | k in d.core.reg.vars ensures Named(d.core.reg, v, d.core.reg.vars[k]) {
      if k != KeyOf(name, unit, dtype) {
        assert SoundEntry(c.core.reg, k);
        assert Named(c.core.reg, w, c.core.reg.vars[k]);
      }
    }
    forall s | s in d.subs ensures s in v && v[s] == FieldsOf(d, s) {
      if s != id {
        assert SubOk(c.core.reg, s, c.subs[s]);
      }
    }
    DrawnMeans(c, d, w, id, [NewSlotField(name, unit, dtype)]);
  }

  lemma EnterManyMeans(c: Client, w: Meanings, fields: seq<ParsedField>, period: int)
    requires Means(c, w) && AllNumeric(fields) && InBounds(AddMulti(c, fields, period).core.reg)
    ensures Means(AddMulti(c, fields, period), w[c.core.reg.counters.nextSubId := RemoteFields(fields)])
  {
    var d, id := AddMulti(c, fields, period), c.core.reg.counters.nextSubId;
    var v := w[id := RemoteFields(fields)];
    AddMultiKeeps(c, fields, period);
    NextIsFresh(c);
    assert NotDrawn(c.core.reg.counters, id) && id !in w;
    forall k | k in d.core.reg.vars ensures Named(d.core.reg, v, d.core.reg.vars[k]) {
      assert SoundEntry(c.core.reg, k);
      assert Named(c.core.reg, w, c.core.reg.vars[k]);
    }
    forall s | s in d.subs ensures s in v && v[s] == FieldsOf(d, s) {
      if s != id {
        assert SubOk(c.core.reg, s, c.subs[s]);
      }
    }
    DrawnMeans(c, d, w, id, RemoteFields(fields));
  }

  lemma CreatedMeans(c: Client, w: Meanings, name: string, unit: string, dtype: int)
    requires Means(c, w) && KeyOf(name, unit, dtype) !in c.core.reg.vars
    requires InBounds(CreateVar(c.core.reg, name, unit, dtype))
    ensures Means(WithReg(c, CreateVar(c.core.reg, name, unit, dtype)),
                  w[c.core.reg.counters.nextVarId := [NewSlotField(name, unit, dtype)]])
  {
    var d, id := WithReg(c, CreateVar(c.core.reg, name, unit, dtype)), c.core.reg.counters.nextVarId;
    var v := w[id := [NewSlotField(name, unit, dtype)]];
    WithVarKeeps(c, name, unit, dtype);
    assert NotDrawn(c.core.reg.counters, id) && id !in w;
    forall k | k in d.core.reg.vars ensures Named(d.core.reg, v, d.core.reg.vars[k]) {
      if k != KeyOf(name, unit, dtype) {
        assert SoundEntry(c.core.reg, k);
        assert Named(c.core.reg, w, c.core.reg.vars[k]);
      }
    }
    forall s | s in d.subs ensures s in v && v[s] == FieldsOf(d, s) {
      assert SubOk(c.core.reg, s, c.subs[s]);
    }
    DrawnMeans(c, d, w, id, [NewSlotField(name, unit, dtype)]);
  }

  lemma LookUpMeans(c: Client, w: Meanings, name: string, unit: string, dtype: int)
    requires Means(c, w) && InBounds(WithVar(c, name, unit, dtype).core.reg)
    ensures Means(WithVar(c, name, unit, dtype), Learn(c, w, LookUp(name, unit, dtype)))
  {
    if KeyOf(name, unit, dtype) !in c.core.reg.vars {
      CreatedMeans(c, w, name, unit, dtype);
    }
  }

  lemma ReserveMeans(c: Client, w: Meanings)
    requires Means(c, w) && InBounds(Do(c, Reserve).core.reg)
    ensures Means(Do(c, Reserve), w)
  {
    var d := Do(c, Reserve);
    ReserveKeeps(c);
    forall k | k in d.core.reg.vars ensures Named(d.core.reg, w, d.core.reg.vars[k]) {
      assert Named(c.core.reg, w, c.core.reg.vars[k]);
    }
    forall id | NotDrawn(d.core.reg.counters, id) ensures Def(d.core.remote, id) == [] && id !in w {
      assert NotDrawn(c.core.reg.counters, id);
    }
    assert forall s :: s in c.subs ==> FieldsOf(d, s) == FieldsOf(c, s);
  }

  lemma DrawGetManyMeans(c: Client, w: Meanings, fields: seq<ParsedField>)
    requires Means(c, w) && c.core.reg.counters.nextGetManyId < TYPE_REQ_OFFSET
    ensures var id := c.core.reg.counters.nextGetManyId;
      Means(WithReg(c, AllocGetManyId(c.core.reg)), w[id := RemoteFields(fields)]) && Def(c.core.remote, id) == []
  {
    var d, id := WithReg(c, AllocGetManyId(c.core.reg)), c.core.reg.counters.nextGetManyId;
    var v := w[id := RemoteFields(fields)];
    DrawGetManyKeeps(c);
    assert NotDrawn(c.core.reg.counters, id) && id !in w;
    forall k | k in d.core.reg.vars ensures Named(d.core.reg, v, d.core.reg.vars[k]) {
      assert SoundEntry(c.core.reg, k);
      assert Named(c.core.reg, w, c.core.reg.vars[k]);
    }
    forall s | s in d.subs ensures s in v && v[s] == FieldsOf(d, s) {
      assert SubOk(c.core.reg, s, c.subs[s]);
    }
    DrawnMeans(c, d, w, id, RemoteFields(fields));
  }

  /** Adding the fields of a get_many under a new id. */
  lemma DefineManyMakes(k: Core, fields: seq<ParsedField>)
    requires GetVarByDefineId(k.reg, k.reg.counters.nextGetManyId) == None
    ensures var (q, ok) := DefineMany(k, fields); var id := k.reg.counters.nextGetManyId;
      var n := if k.remote.open then LeadingZeros(k.remote.script, |fields|) else 0;
      && Def(q.remote, id) == Def(k.remote, id) + RemoteFields(fields)[..n]
      && (ok ==> Def(q.remote, id) == Def(k.remote, id) + RemoteFields(fields))
  {
    var drawn, id := k.(reg := AllocGetManyId(k.reg)), k.reg.counters.nextGetManyId;
    assert PrepareDefinition(drawn, id) == drawn;
    if k.remote.open {
      AddAllAddsPrefix(k.remote, id, RemoteFields(fields));
      assert RemoteFields(fields)[..|fields|] == RemoteFields(fields);
    } else {
      ClosedAddsNothing(k.remote, id, RemoteFields(fields));
      assert Def(k.remote, id) + [] == Def(k.remote, id);
      assert RemoteFields(fields)[..0] == [];
    }
  }

  lemma DefineFieldsMeans(c: Client, w: Meanings, fields: seq<ParsedField>)
    requires Means(c, w) && c.core.reg.counters.nextGetManyId < TYPE_REQ_OFFSET
    ensures Means(Do(c, DefineFields(fields)), w[c.core.reg.counters.nextGetManyId := RemoteFields(fields)])
  {
    var id := c.core.reg.counters.nextGetManyId;
    var drawn, d, v := WithReg(c, AllocGetManyId(c.core.reg)), Do(c, DefineFields(fields)),
      w[id := RemoteFields(fields)];
    DrawGetManyMeans(c, w, fields);
    DefineManyTouches(c.core, fields);
    DefineManyKeeps(c, fields);
    assert GetVarByDefineId(c.core.reg, id) == None;
    DefineManyMakes(c.core, fields);
    if |v[id]| == 1 {
      var n := if c.core.remote.open then LeadingZeros(c.core.remote.script, |fields|) else 0;
      OneFieldOrNone(v[id], n);
      assert [] + v[id][..n] == v[id][..n];
      MadeOfStep(drawn.core.remote, d.core.remote, id, v[id]);
    }
    MeansSame(drawn, d, v, id);
  }

  /** Every action keeps what the ids stand for. */
  lemma DoMeans(c: Client, w: Meanings, a: Action)
    requires Means(c, w) && Proper(c, a) && InBounds(Do(c, a).core.reg)
    ensures Means(Do(c, a), Learn(c, w, a))
  {
    DoKeeps(c, a);
    match a
    case Enter(name, unit, dtype, period) => EnterMeans(c, w, name, unit, dtype, period);
    case EnterMany(fields, period) => EnterManyMeans(c, w, fields, period);
    case Reserve => ReserveMeans(c, w);
    case ApplyTo(sid) => if sid in c.subs { ApplyMeans(c, w, sid); }
    case Halt(sid) => if sid in c.subs { HaltMeans(c, w, sid); }
    case Drop(sid) => if sid in c.subs { DropMeans(c, w, sid); }
    case SetMark(_, _) => QuietMeans(c, w, a);
    case LowerFlags => QuietMeans(c, w, a);
    case LookUp(name, unit, dtype) => LookUpMeans(c, w, name, unit, dtype);
    case Define(ref) => DefineMeans(c, w, ref);
    case DefineFields(fields) => DefineManyCounts(c.core, fields); DefineFieldsMeans(c, w, fields);
    case AskType(id) => AskMeans(c, w, id);
    case Clear(id) => ClearMeans(c, w, id);
    case OtherCalls(_) => QuietMeans(c, w, a);
    case _ => OutsideMeans(c, Do(c, a), w);
  }

  // ---- whole runs ----

  /** w never forgets and never changes. */
  ghost predicate Extends(w: Meanings, v: Meanings) { forall id :: id in w ==> id in v && v[id] == w[id] }

  lemma LearnExtends(c: Client, w: Meanings, a: Action)
    requires Means(c, w) && InBounds(Do(c, a).core.reg)
    ensures Extends(w, Learn(c, w, a))
    ensures forall id :: id in Learn(c, w, a) && id !in w ==> NotDrawn(c.core.reg.counters, id)
  {
    match a
    case Enter(name, unit, dtype, period) =>
    case EnterMany(fields, period) =>
    case LookUp(name, unit, dtype) =>
    case DefineFields(fields) => DefineManyCounts(c.core, fields);
    case _ =>
  }

  lemma {:induction false} AfterMeans(c: Client, w: Meanings, actions: seq<Action>)
    requires Means(c, w) && AllProper(c, actions) && InBounds(After(c, actions).core.reg)
    ensures Means(After(c, actions), LearnAll(c, w, actions))
    decreases |actions|
  {
    if actions != [] {
      var d := Do(c, actions[0]);
      AfterLeq(d, actions[1..]);
      BoundsBelow(d.core.reg, After(c, actions).core.reg);
      DoMeans(c, w, actions[0]);
      AfterMeans(d, Learn(c, w, actions[0]), actions[1..]);
    }
  }

  lemma {:induction false} AfterExtends(c: Client, w: Meanings, actions: seq<Action>)
    requires Means(c, w) && AllProper(c, actions) && InBounds(After(c, actions).core.reg)
    ensures Extends(w, LearnAll(c, w, actions))
    ensures forall id :: id in LearnAll(c, w, actions) && id !in w ==> NotDrawn(c.core.reg.counters, id)
    decreases |actions|
  {
    if actions != [] {
      var d := Do(c, actions[0]);
      AfterLeq(d, actions[1..]);
      BoundsBelow(d.core.reg, After(c, actions).core.reg);
      DoLeq(c, actions[0]);
      DoMeans(c, w, actions[0]);
      LearnExtends(c, w, actions[0]);
      AfterExtends(d, Learn(c, w, actions[0]), actions[1..]);
    }
  }

  lemma InitMeans(script: seq<int>)
    ensures Means(Init(script), map[])
  {}

  /** What the ids stand for at the end of a run. */
  function RunMeanings(script: seq<int>, run: seq<Step>): Meanings {
    LearnAll(Init(script), map[], RunActions(Init(script), run))
  }

  lemma MeansOverRuns(script: seq<int>, run: seq<Step>)
    requires Legal(Init(script), run)
    ensures Means(EndOf(Init(script), run), RunMeanings(script, run))
  {
    InitMeans(script);
    RunIsItsActions(Init(script), run);
    AfterMeans(Init(script), map[], RunActions(Init(script), run));
  }

  /** In every run, whatever the DLL answers and whichever keys are used, the remote's definition of every
      registered variable is whole copies of the variable. */
  lemma VariablesAreDefinedWhole(script: seq<int>, run: seq<Step>, k: VarKey)
    requires Legal(Init(script), run) && k in EndOf(Init(script), run).core.reg.vars
    ensures var c := EndOf(Init(script), run); var slot := SlotAt(c.core.reg, c.core.reg.vars[k]);
      exists n: nat :: Def(c.core.remote, slot.defineId) == Repeat([SlotField(slot)], n)
  {
    MeansOverRuns(script, run);
    var c := EndOf(Init(script), run);
    var slot := SlotAt(c.core.reg, c.core.reg.vars[k]);
    assert Named(c.core.reg, RunMeanings(script, run), c.core.reg.vars[k]);
    assert MadeOf(c.core.remote, slot.defineId, [SlotField(slot)]);
    var n: nat :| Copies(Def(c.core.remote, slot.defineId), [SlotField(slot)], n);
    assert Def(c.core.remote, slot.defineId) == Repeat([SlotField(slot)], n);
  }

  /** So is the definition of every live single subscription, also of one whose slot was displaced. */
  lemma SinglesAreDefinedWhole(script: seq<int>, run: seq<Step>, s: int)
    requires Legal(Init(script), run)
    requires s in EndOf(Init(script), run).subs && EndOf(Init(script), run).subs[s].Single?
    ensures var c := EndOf(Init(script), run); exists n: nat :: DefOf(c, s) == Repeat(FieldsOf(c, s), n)
  {
    MeansOverRuns(script, run);
    var c := EndOf(Init(script), run);
    assert MadeOf(c.core.remote, s, FieldsOf(c, s));
    var n: nat :| Copies(DefOf(c, s), FieldsOf(c, s), n);
    assert DefOf(c, s) == Repeat(FieldsOf(c, s), n);
  }
}
