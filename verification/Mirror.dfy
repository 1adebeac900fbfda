/** The client's table and the remote's definitions agree. */
module Mirror {
  import opened Wrappers
  import opened RegistryState
  import opened Remote
  import opened Client
  import opened Tables

  // ---- what agreement means ----

  function SubFields(r: Reg, i: Info): seq<Field> {
    if i.Multi? then RemoteFields(i.fields) else [SlotField(SlotAt(r, i.slot))]
  }

  function FieldsOf(c: Client, s: int): seq<Field>
    requires s in c.subs
  {
    SubFields(c.core.reg, c.subs[s])
  }

  function DefOf(c: Client, s: int): seq<Field> { Def(c.core.remote, s) }

  function Repeat<T>(xs: seq<T>, n: nat): seq<T> {
    if n == 0 then [] else Repeat(xs, n - 1) + xs
  }

  ghost predicate Copies(def: seq<Field>, fields: seq<Field>, n: nat) { def == Repeat(fields, n) }

  /** The remote's definition of s is its field list, repeated at least `least` times. */
  ghost predicate Holds(c: Client, s: int, least: nat)
    requires s in c.subs
  {
    exists n: nat :: n >= least && Copies(DefOf(c, s), FieldsOf(c, s), n)
  }

  ghost predicate AllHold(c: Client, least: nat) { forall s :: s in c.subs ==> Holds(c, s, least) }

  /** Every live single subscription owns the registry entry of its key. */
  ghost predicate Owns(r: Reg, i: Info) {
    i.Single? ==> var key := SlotAt(r, i.slot).Key(); key in r.vars && r.vars[key] == i.slot
  }

  ghost predicate Wired(c: Client) { forall s :: s in c.subs ==> Owns(c.core.reg, c.subs[s]) }

  ghost predicate Mirrored(c: Client) { AllHold(c, Least(c)) }

  predicate NotDrawn(n: Counters, id: int) {
    || n.nextSubId <= id < VAR_ID_START
    || n.nextVarId <= id < GET_MANY_ID_START
    || n.nextGetManyId <= id < TYPE_REQ_OFFSET
  }

  /** Ids not drawn yet name no definition. */
  ghost predicate Undrawn(c: Client) {
    forall id :: NotDrawn(c.core.reg.counters, id) ==> Def(c.core.remote, id) == []
  }

  ghost predicate Agrees(c: Client) {
    TablesOk(c) && Wired(c) && Clean(c.core.remote) && Undrawn(c) && Mirrored(c)
  }

  function Least(c: Client): nat { if Ready(c) then 1 else 0 }

  // ---- one definition changes, the others hold ----

  lemma OwnsShape(r: Reg, q: Reg, i: Info, j: Info)
    requires SameShape(r, q) && j == i.(typeRequested := j.typeRequested) && i.slot < |r.slots|
    ensures Owns(r, i) ==> Owns(q, j)
    ensures SubFields(q, j) == SubFields(r, i)
  {}

  lemma SameHolds(c: Client, d: Client, id: int, s: int, least: nat)
    requires TablesOk(c) && Same(c, d, id) && s in c.subs && s != id && Holds(c, s, least)
    ensures Holds(d, s, least)
  {
    assert SubOk(c.core.reg, s, c.subs[s]);
    OwnsShape(c.core.reg, d.core.reg, c.subs[s], d.subs[s]);
    var n: nat :| n >= least && Copies(DefOf(c, s), FieldsOf(c, s), n);
    assert Copies(DefOf(d, s), FieldsOf(d, s), n);
  }

  lemma SameWired(c: Client, d: Client, id: int)
    requires TablesOk(c) && Same(c, d, id) && Wired(c)
    ensures Wired(d)
  {
    forall s | s in d.subs ensures Owns(d.core.reg, d.subs[s]) {
      assert SubOk(c.core.reg, s, c.subs[s]);
      OwnsShape(c.core.reg, d.core.reg, c.subs[s], d.subs[s]);
    }
  }

  lemma SameFields(c: Client, d: Client, id: int, s: int)
    requires TablesOk(c) && Same(c, d, id) && s in c.subs
    ensures FieldsOf(d, s) == FieldsOf(c, s)
  {
    assert SubOk(c.core.reg, s, c.subs[s]);
    OwnsShape(c.core.reg, d.core.reg, c.subs[s], d.subs[s]);
  }

  /** Appending the fields, to what was there or to nothing, leaves one copy or one more. */
  lemma AppendedHolds(c: Client, d: Client, id: int, s: int)
    requires TablesOk(c) && Same(c, d, id) && s in c.subs && Holds(c, s, 0)
    requires DefOf(d, s) == DefOf(c, s) + FieldsOf(c, s) || DefOf(d, s) == FieldsOf(c, s)
    ensures Holds(d, s, 1)
  {
    SameFields(c, d, id, s);
    var f := FieldsOf(d, s);
    if DefOf(d, s) == f {
      assert Repeat(f, 0) + f == f;
      assert Copies(DefOf(d, s), f, 1);
    } else {
      var n: nat :| Copies(DefOf(c, s), FieldsOf(c, s), n);
      assert Copies(DefOf(d, s), f, n + 1);
    }
  }

  // ---- applying ----

  /** Defining a registered slot leaves exactly one more copy, or one copy if it was marked as defined. */
  lemma DefineSlotDefines(k: Core, ref: SlotRef)
    requires Clean(k.remote) && k.remote.open && ref < |k.reg.slots|
    requires GetVarByDefineId(k.reg, k.reg.slots[ref].defineId) == Some(ref)
    ensures var slot := k.reg.slots[ref]; var (q, ok) := DefineSlot(k, ref);
      ok && Clean(q.remote) && q.remote.open
      && Def(q.remote, slot.defineId) == (if slot.defined then [] else Def(k.remote, slot.defineId)) + [SlotField(slot)]
  {
    CalledKeeps(k.remote);
    CalledKeeps(PrepareDefinition(k, k.reg.slots[ref].defineId).remote);
  }

  lemma RequestBothKeepsDefs(k: Core, sid: int, info: Info)
    requires Clean(k.remote) && k.remote.open
    ensures var a := RequestBoth(k, sid, sid, info);
      a.ok && a.core.reg == k.reg && a.core.remote.defs == k.remote.defs
  {
    CalledKeeps(k.remote);
    CalledKeeps(RequestData(k.remote, sid, sid, info.period));
  }

  lemma OwnSlotIsFound(c: Client, s: int)
    requires TablesOk(c) && s in c.subs && Owns(c.core.reg, c.subs[s])
    ensures c.subs[s].slot < |c.core.reg.slots| && c.core.reg.slots[c.subs[s].slot].defineId == s
    ensures GetVarByDefineId(c.core.reg, s) == if c.subs[s].Single? then Some(c.subs[s].slot) else None
  {
    assert SubOk(c.core.reg, s, c.subs[s]);
  }

  /** Whether applying s starts its definition over. */
  predicate StartsOver(c: Client, s: int)
    requires s in c.subs
  {
    c.subs[s].Single? && SlotAt(c.core.reg, c.subs[s].slot).defined
  }

  lemma ApplySingleDefines(c: Client, s: int)
    requires Clean(c.core.remote) && c.core.remote.open && s in c.subs && c.subs[s].Single?
    requires c.subs[s].slot < |c.core.reg.slots| && c.core.reg.slots[c.subs[s].slot].defineId == s
    requires GetVarByDefineId(c.core.reg, s) == Some(c.subs[s].slot)
    ensures var (d, ok) := ApplyAt(c, s);
      ok && DefOf(d, s) == (if StartsOver(c, s) then [] else DefOf(c, s)) + FieldsOf(c, s)
  {
    var info := c.subs[s];
    DefineSlotDefines(c.core, info.slot);
    RequestBothKeepsDefs(DefineSlot(c.core, info.slot).0, s, info);
  }

  lemma ApplyManyDefines(c: Client, s: int)
    requires Clean(c.core.remote) && c.core.remote.open && s in c.subs && c.subs[s].Multi?
    requires GetVarByDefineId(c.core.reg, s) == None
    ensures var (d, ok) := ApplyAt(c, s);
      ok && DefOf(d, s) == DefOf(c, s) + FieldsOf(c, s)
  {
    var info := c.subs[s];
    AddAllAppends(c.core.remote, s, RemoteFields(info.fields));
    AddAllFrame(c.core.remote, s, RemoteFields(info.fields));
    var added := AddAll(c.core.remote, s, RemoteFields(info.fields)).0;
    RequestBothKeepsDefs(Core(SetDefined(c.core.reg, info.slot, true), added), s, info);
  }

  /** Applying a subscription on an open session appends its fields once. */
  lemma ApplyAtDefines(c: Client, s: int)
    requires TablesOk(c) && Clean(c.core.remote) && c.core.remote.open && s in c.subs && Owns(c.core.reg, c.subs[s])
    ensures var (d, ok) := ApplyAt(c, s);
      ok && DefOf(d, s) == (if StartsOver(c, s) then [] else DefOf(c, s)) + FieldsOf(c, s)
  {
    OwnSlotIsFound(c, s);
    if c.subs[s].Single? {
      ApplySingleDefines(c, s);
    } else {
      ApplyManyDefines(c, s);
    }
  }

  /** What a restore works on and keeps throughout. */
  ghost predicate Restorable(c: Client) {
    TablesOk(c) && Wired(c) && Clean(c.core.remote) && Undrawn(c) && c.core.remote.open && AllHold(c, 0)
  }

  /** The same subscriptions, none of which lost its copies. */
  ghost predicate Advances(c: Client, d: Client) {
    && d.subs.Keys == c.subs.Keys && d.openReceived == c.openReceived
    && forall t :: t in c.subs && Holds(c, t, 1) ==> Holds(d, t, 1)
  }

  lemma ApplyAtHolds(c: Client, s: int)
    requires Restorable(c) && s in c.subs
    ensures var d := ApplyAt(c, s).0; Restorable(d) && Advances(c, d) && Holds(d, s, 1)
  {
    var d := ApplyAt(c, s).0;
    assert SubOk(c.core.reg, s, c.subs[s]);
    ApplyAtSame(c, s);
    ApplyAtKeeps(c, s);
    SameWired(c, d, s);
    ApplyAtDefines(c, s);
    AppendedHolds(c, d, s, s);
    forall t | t in c.subs ensures Holds(d, t, 0) && (Holds(c, t, 1) ==> Holds(d, t, 1)) {
      if t != s {
        SameHolds(c, d, s, t, 0);
        if Holds(c, t, 1) {
          SameHolds(c, d, s, t, 1);
        }
      }
    }
  }

  lemma {:induction false} ApplyAllHolds(c: Client, items: seq<int>)
    requires Restorable(c)
    ensures Restorable(ApplyAll(c, items)) && Advances(c, ApplyAll(c, items))
    ensures forall t :: t in items && t in c.subs ==> Holds(ApplyAll(c, items), t, 1)
    decreases |items|
  {
    if items != [] {
      if items[0] in c.subs {
        var e := ApplyAt(c, items[0]).0;
        ApplyAtHolds(c, items[0]);
        ApplyAllHolds(e, items[1..]);
      } else {
        ApplyAllHolds(c, items[1..]);
      }
    }
  }

  lemma ResetWired(c: Client)
    requires TablesOk(c) && Wired(c)
    ensures var d := c.(core := c.core.(reg := ResetDefinedFlags(c.core.reg)));
      TablesOk(d) && Wired(d) && (AllHold(c, 0) ==> AllHold(d, 0))
  {
    var d := c.(core := c.core.(reg := ResetDefinedFlags(c.core.reg)));
    ResetSame(c);
    SameKeeps(c, d, 0);
    SameWired(c, d, 0);
    if AllHold(c, 0) {
      forall s | s in d.subs ensures Holds(d, s, 0) {
        assert SubOk(c.core.reg, s, c.subs[s]);
        SameHolds(c, d, 0, s, 0);
      }
    }
  }

  /** A restore on an open session leaves at least one copy of every live subscription. */
  lemma RestoreHolds(c: Client, items: seq<int>)
    requires Restorable(c) && Snapshot(c, items)
    ensures var d := Restore(c, items);
      Restorable(d) && d.openReceived == c.openReceived && AllHold(d, 1)
  {
    ResetWired(c);
    ApplyAllHolds(c.(core := c.core.(reg := ResetDefinedFlags(c.core.reg))), items);
  }
}
