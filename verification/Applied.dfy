/** What one application of a subscription leaves of its definition, whatever the DLL answers and whichever
    keys are in use. */
module Applied {
  import opened RegistryState
  import opened Remote
  import opened Client
  import opened Tables
  import opened Mirror
  import opened Meaning

  predicate Registered(c: Client, s: int)
    requires s in c.subs
  {
    c.subs[s].slot in c.core.reg.vars.Values
  }

  predicate Flag(c: Client, s: int)
    requires s in c.subs
  {
    SlotAt(c.core.reg, c.subs[s].slot).defined
  }

  /** Registering the same variable again displaced the slot of s, and it is still marked as defined. */
  predicate Stranded(c: Client, s: int)
    requires s in c.subs
  {
    c.subs[s].Single? && !Registered(c, s) && Flag(c, s)
  }

  /** What an application without a failed call leaves of the old definition: the HRESULT of the clear call,
      which is made when the slot the id looks up is marked as defined, is ignored. */
  function Remaining(c: Client, s: int): seq<Field> {
    if Undefines(c.core.reg, s) && Accepts(c.core.remote) then [] else DefOf(c, s)
  }

  /** What it adds. */
  function Gained(c: Client, s: int): seq<Field>
    requires s in c.subs
  {
    if Stranded(c, s) then [] else FieldsOf(c, s)
  }

  lemma PreparedRemains(c: Client, s: int)
    requires c.core.remote.open
    ensures Def(PrepareDefinition(c.core, s).remote, s) == Remaining(c, s)
  {
    CalledKeeps(c.core.remote);
  }

  /** After the clear call the own slot of a single subscription is marked exactly if it is stranded. */
  lemma PreparedFlag(c: Client, s: int)
    requires TablesOk(c) && s in c.subs && c.subs[s].Single?
    ensures SlotAt(PrepareDefinition(c.core, s).reg, c.subs[s].slot).defined == Stranded(c, s)
  {
    assert SubOk(c.core.reg, s, c.subs[s]);
  }

  lemma PreparedSlot(k: Core, id: int, ref: SlotRef)
    ensures var slot, q := SlotAt(k.reg, ref), SlotAt(PrepareDefinition(k, id).reg, ref);
      q == slot.(defined := q.defined)
  {}

  lemma EnsuredAdds(k: Core, ref: SlotRef)
    requires EnsureVarDefined(k, ref).1
    ensures var slot := SlotAt(k.reg, ref);
      Def(EnsureVarDefined(k, ref).0.remote, slot.defineId)
        == Def(k.remote, slot.defineId) + if slot.defined then [] else [SlotField(slot)]
  {
    var before := Def(k.remote, SlotAt(k.reg, ref).defineId);
    assert before + [] == before;
  }

  /** A single application without a failed call is its definition, with two requests behind it. */
  lemma SingleDefines(k: Core, s: int, info: Info)
    requires ApplySingle(k, s, info).ok
    ensures DefineSlot(k, info.slot).1
    ensures Def(ApplySingle(k, s, info).core.remote, s) == Def(DefineSlot(k, info.slot).0.remote, s)
  {
    BothKeepDefs(DefineSlot(k, info.slot).0, s, SlotAt(k.reg, info.slot).defineId, info);
  }

  lemma AppliedSingle(c: Client, s: int)
    requires TablesOk(c) && s in c.subs && c.subs[s].Single? && c.core.remote.open && ApplyAt(c, s).1
    ensures DefOf(ApplyAt(c, s).0, s) == Remaining(c, s) + Gained(c, s)
  {
    var ref := c.subs[s].slot;
    assert SubOk(c.core.reg, s, c.subs[s]);
    PreparedRemains(c, s);
    PreparedFlag(c, s);
    PreparedSlot(c.core, s, ref);
    SingleDefines(c.core, s, c.subs[s]);
    EnsuredAdds(PrepareDefinition(c.core, s), ref);
  }

  lemma {:induction false} AddAllWhole(r: Remote, id: int, fields: seq<Field>)
    requires AddAll(r, id, fields).1
    ensures Def(AddAll(r, id, fields).0, id) == Def(r, id) + fields
    decreases |fields|
  {
    if fields == [] {
      assert Def(r, id) + fields == Def(r, id);
    } else {
      AddAllWhole(AddToDefinition(r, id, fields[0]), id, fields[1..]);
      assert Def(r, id) + [fields[0]] + fields[1..] == Def(r, id) + fields;
    }
  }

  lemma AppliedMany(c: Client, s: int)
    requires TablesOk(c) && s in c.subs && c.subs[s].Multi? && ApplyAt(c, s).1
    ensures DefOf(ApplyAt(c, s).0, s) == Remaining(c, s) + Gained(c, s)
  {
    var fields := RemoteFields(c.subs[s].fields);
    assert SubOk(c.core.reg, s, c.subs[s]);
    assert PrepareDefinition(c.core, s) == c.core;
    var (added, ok) := AddAll(c.core.remote, s, fields);
    AddAllWhole(c.core.remote, s, fields);
    BothKeepDefs(Core(SetDefined(c.core.reg, c.subs[s].slot, true), added), s, s, c.subs[s]);
  }

  /** On an open session, with any HRESULTs and any keys: an application none of whose checked calls failed
      has kept what its clear call left and added the field list once, or nothing to a stranded slot. */
  lemma ApplicationAddsExactly(c: Client, s: int)
    requires TablesOk(c) && s in c.subs && c.core.remote.open && ApplyAt(c, s).1
    ensures DefOf(ApplyAt(c, s).0, s) == Remaining(c, s) + Gained(c, s)
  {
    if c.subs[s].Single? {
      AppliedSingle(c, s);
    } else {
      AppliedMany(c, s);
    }
  }

  /** What an application does to the marks of slot and entry. */
  predicate MarksBy(a: Applied, info: Info) {
    && (a.ok ==> SlotAt(a.core.reg, info.slot).defined && a.typeRequested)
    && (!a.ok && a.typeRequested ==> info.typeRequested)
  }

  lemma RequestsMark(k: Core, sid: int, id: int, info: Info)
    ensures var a := RequestBoth(k, sid, id, info);
      a.core.reg == k.reg && (a.ok ==> a.typeRequested) && (!a.ok && a.typeRequested ==> info.typeRequested)
  {}

  lemma EnsureMarks(k: Core, ref: SlotRef)
    requires ref < |k.reg.slots| && EnsureVarDefined(k, ref).1
    ensures SlotAt(EnsureVarDefined(k, ref).0.reg, ref).defined
  {}

  lemma SingleMarks(k: Core, sid: int, info: Info)
    requires info.slot < |k.reg.slots|
    ensures MarksBy(ApplySingle(k, sid, info), info)
  {
    var id := SlotAt(k.reg, info.slot).defineId;
    var prepared := PrepareDefinition(k, id);
    if DefineSlot(k, info.slot).1 {
      EnsureMarks(prepared, info.slot);
      RequestsMark(DefineSlot(k, info.slot).0, sid, id, info);
    }
  }

  lemma ManyMarks(k: Core, sid: int, info: Info)
    requires info.Multi? && info.slot < |k.reg.slots|
    ensures MarksBy(ApplyMany(k, sid, info), info)
  {
    var prepared := PrepareDefinition(k, sid);
    var (added, ok) := AddAll(prepared.remote, sid, RemoteFields(info.fields));
    if ok {
      RequestsMark(Core(SetDefined(prepared.reg, info.slot, true), added), sid, sid, info);
    }
  }

  /** And it has left the slot marked as defined, so that its TYPE request can be repeated. The TYPE mark is set if it
      succeeded; otherwise it is lowered or what it was. */
  lemma ApplicationMarks(c: Client, s: int)
    requires TablesOk(c) && s in c.subs
    ensures var (d, ok) := ApplyAt(c, s);
      && s in d.subs && (ok ==> Flag(d, s) && d.subs[s].typeRequested)
      && (!ok && d.subs[s].typeRequested ==> c.subs[s].typeRequested)
  {
    assert SubOk(c.core.reg, s, c.subs[s]);
    if c.subs[s].Multi? {
      ManyMarks(c.core, s, c.subs[s]);
    } else {
      SingleMarks(c.core, s, c.subs[s]);
    }
  }

  // ---- when every call succeeds ----

  lemma PreparedIsClean(k: Core, id: int)
    requires Clean(k.remote) && k.remote.open
    ensures Clean(PrepareDefinition(k, id).remote) && PrepareDefinition(k, id).remote.open
  {
    CalledKeeps(k.remote);
  }

  lemma SingleSucceeds(k: Core, s: int, info: Info)
    requires Clean(k.remote) && k.remote.open && SlotAt(k.reg, info.slot).defineId == s
    ensures ApplySingle(k, s, info).ok
  {
    var p := PrepareDefinition(k, s);
    PreparedIsClean(k, s);
    CalledKeeps(p.remote);
    RequestBothKeepsDefs(EnsureVarDefined(p, info.slot).0, s, info);
  }

  lemma ManySucceeds(k: Core, s: int, info: Info)
    requires Clean(k.remote) && k.remote.open && info.Multi?
    ensures ApplyMany(k, s, info).ok
  {
    var p, fields := PrepareDefinition(k, s), RemoteFields(info.fields);
    PreparedIsClean(k, s);
    AddAllAppends(p.remote, s, fields);
    AddAllFrame(p.remote, s, fields);
    RequestBothKeepsDefs(Core(SetDefined(p.reg, info.slot, true), AddAll(p.remote, s, fields).0), s, info);
  }

  lemma ApplicationSucceeds(c: Client, s: int)
    requires TablesOk(c) && Clean(c.core.remote) && c.core.remote.open && s in c.subs
    ensures ApplyAt(c, s).1
  {
    assert SubOk(c.core.reg, s, c.subs[s]);
    if c.subs[s].Single? {
      SingleSucceeds(c.core, s, c.subs[s]);
    } else {
      ManySucceeds(c.core, s, c.subs[s]);
    }
  }
}
