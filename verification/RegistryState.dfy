/** Variable slots and the id allocators, as a value: what each registry operation does and keeps. */
module RegistryState {
  import opened Wrappers

  const VAR_ID_START := 1000
  const GET_MANY_ID_START := 20000
  const TYPE_REQ_OFFSET := 50000

  // ---- keys ----

  predicate IsSpace(ch: char) { '\t' <= ch <= '\r' || '\U{1c}' <= ch <= ' ' }

  function StripLeft(s: string): string {
    if s != [] && IsSpace(s[0]) then StripLeft(s[1..]) else s
  }

  function StripRight(s: string): string {
    if s != [] && IsSpace(s[|s| - 1]) then StripRight(s[..|s| - 1]) else s
  }

  function Strip(s: string): string { StripRight(StripLeft(s)) }

  function Upper(s: string): string {
    seq(|s|, i requires 0 <= i < |s| => if 'a' <= s[i] <= 'z' then s[i] - 'a' + 'A' else s[i])
  }

  datatype VarKey = VarKey(name: string, unit: string, dtype: int)

  function KeyOf(name: string, unit: string, dtype: int): VarKey { VarKey(Upper(Strip(name)), Strip(unit), dtype) }

  // ---- state ----

  datatype VarSlot = VarSlot(defineId: int, varName: string, unit: string, dtype: int, defined: bool) {
    function Key(): VarKey { KeyOf(varName, unit, dtype) }
  }

  /** A slot object is named by its place among all slots ever made: two names, two objects. */
  type SlotRef = nat

  datatype Counters = Counters(nextVarId: int, nextSubId: int, nextGetManyId: int)

  datatype Reg = Reg(vars: map<VarKey, SlotRef>, idToKey: map<int, VarKey>, counters: Counters, slots: seq<VarSlot>)

  function EmptyRegistry(): Reg { Reg(map[], map[], Counters(VAR_ID_START, 1, GET_MANY_ID_START), []) }

  function AllocSubscriptionId(r: Reg): Reg {
    r.(counters := r.counters.(nextSubId := r.counters.nextSubId + 1))
  }

  function AllocGetManyId(r: Reg): Reg {
    r.(counters := r.counters.(nextGetManyId := r.counters.nextGetManyId + 1))
  }

  /** The reference of the slot object made next. */
  function Fresh(r: Reg): SlotRef { |r.slots| }

  function NewSlot(r: Reg, slot: VarSlot): Reg { r.(slots := r.slots + [slot]) }

  function BindSubscriptionVar(r: Reg, defineId: int, name: string, unit: string, dtype: int): Reg {
    var key := KeyOf(name, unit, dtype);
    NewSlot(r, VarSlot(defineId, name, unit, dtype, false)).(
      vars := r.vars[key := Fresh(r)],
      idToKey := r.idToKey[defineId := key],
      counters := if defineId >= r.counters.nextVarId then r.counters.(nextVarId := defineId + 1) else r.counters)
  }

  function CreateVar(r: Reg, name: string, unit: string, dtype: int): Reg {
    var key, id := KeyOf(name, unit, dtype), r.counters.nextVarId;
    NewSlot(r, VarSlot(id, name, unit, dtype, false)).(
      vars := r.vars[key := Fresh(r)],
      idToKey := r.idToKey[id := key],
      counters := r.counters.(nextVarId := id + 1))
  }

  function GetOrCreateVar(r: Reg, name: string, unit: string, dtype: int): (Reg, SlotRef) {
    var key := KeyOf(name, unit, dtype);
    if key in r.vars then (r, r.vars[key]) else (CreateVar(r, name, unit, dtype), Fresh(r))
  }

  function GetVarByDefineId(r: Reg, defineId: int): Option<SlotRef> {
    if defineId !in r.idToKey then None
    else if r.idToKey[defineId] in r.vars then Some(r.vars[r.idToKey[defineId]])
    else None
  }

  function ReleaseDefineId(r: Reg, defineId: int): Reg {
    if defineId in r.idToKey then
      r.(vars := r.vars - {r.idToKey[defineId]}, idToKey := r.idToKey - {defineId})
    else r
  }

  function SetDefined(r: Reg, ref: SlotRef, defined: bool): Reg {
    if ref < |r.slots| then r.(slots := r.slots[ref := r.slots[ref].(defined := defined)]) else r
  }

  function SlotAt(r: Reg, ref: SlotRef): VarSlot {
    if ref < |r.slots| then r.slots[ref] else VarSlot(0, "", "", 0, false)
  }

  /** Only the slots reachable through `_vars` are reset. */
  function ResetDefinedFlags(r: Reg): Reg {
    r.(slots := seq(|r.slots|, i requires 0 <= i < |r.slots| =>
      if i in r.vars.Values then r.slots[i].(defined := false) else r.slots[i]))
  }

  /** The keys whose slots are marked as defined. */
  function DefinedKeys(r: Reg): set<VarKey> { set k | k in r.vars && SlotAt(r, r.vars[k]).defined }

  /** The ids of the slots of some registered keys, one for each key. */
  ghost predicate Lists(r: Reg, ids: seq<int>, keys: set<VarKey>) {
    && keys <= r.vars.Keys && |ids| == |keys|
    && (forall k :: k in keys ==> SlotAt(r, r.vars[k]).defineId in ids)
    && (forall id :: id in ids ==> exists k :: k in keys && SlotAt(r, r.vars[k]).defineId == id)
  }

  lemma ListsOneMore(r: Reg, ids: seq<int>, keys: set<VarKey>, key: VarKey)
    requires Lists(r, ids, keys) && key in r.vars && key !in keys
    ensures Lists(r, ids + [SlotAt(r, r.vars[key]).defineId], keys + {key})
  {
    var more := ids + [SlotAt(r, r.vars[key]).defineId];
    forall id | id in more ensures exists k :: k in keys + {key} && SlotAt(r, r.vars[k]).defineId == id {
      if id in ids {
        var k :| k in keys && SlotAt(r, r.vars[k]).defineId == id;
        assert k in keys + {key};
      } else {
        assert key in keys + {key};
      }
    }
  }

  /** A walk over all keys lists the defined ones; `todo` is what it has not seen yet. */
  lemma ListsNext(r: Reg, ids: seq<int>, todo: set<VarKey>, key: VarKey)
    requires Lists(r, ids, DefinedKeys(r) - todo) && key in todo && todo <= r.vars.Keys
    ensures var slot := SlotAt(r, r.vars[key]);
      Lists(r, if slot.defined then ids + [slot.defineId] else ids, DefinedKeys(r) - (todo - {key}))
  {
    if SlotAt(r, r.vars[key]).defined {
      ListsOneMore(r, ids, DefinedKeys(r) - todo, key);
      assert DefinedKeys(r) - (todo - {key}) == (DefinedKeys(r) - todo) + {key};
    } else {
      assert DefinedKeys(r) - (todo - {key}) == DefinedKeys(r) - todo;
    }
  }

  // ---- invariants ----

  /** Every registered slot is registered under its own key, and its id leads back to that key. Ids are
      those of subscriptions or of variables. */
  ghost predicate Sound(r: Reg) {
    && 0 < r.counters.nextSubId && VAR_ID_START <= r.counters.nextVarId && GET_MANY_ID_START <= r.counters.nextGetManyId
    && (forall k :: k in r.vars ==> SoundEntry(r, k))
    && (forall id :: id in r.idToKey ==> 0 < id < r.counters.nextSubId || VAR_ID_START <= id < r.counters.nextVarId)
  }

  ghost predicate SoundEntry(r: Reg, k: VarKey)
    requires k in r.vars
  {
    && r.vars[k] < |r.slots|
    && r.slots[r.vars[k]].Key() == k
    && r.slots[r.vars[k]].defineId in r.idToKey
    && r.idToKey[r.slots[r.vars[k]].defineId] == k
  }

  /** The three id ranges do not meet. */
  predicate InBounds(r: Reg) {
    && r.counters.nextSubId <= VAR_ID_START
    && r.counters.nextVarId <= GET_MANY_ID_START
    && r.counters.nextGetManyId <= TYPE_REQ_OFFSET
  }

  /** Two registries that differ in `defined` flags only. */
  ghost predicate SameShape(r: Reg, q: Reg) {
    && q == r.(slots := q.slots) && |q.slots| == |r.slots|
    && forall i :: 0 <= i < |r.slots| ==> q.slots[i] == r.slots[i].(defined := q.slots[i].defined)
  }

  lemma SoundShape(r: Reg, q: Reg)
    requires Sound(r) && SameShape(r, q)
    ensures Sound(q)
  {
    forall k | k in q.vars ensures SoundEntry(q, k) {
      assert SoundEntry(r, k);
    }
  }

  /** Binding a fresh id under any key, used or not, keeps the registry sound. */
  lemma BindSound(r: Reg, id: int, name: string, unit: string, dtype: int)
    requires Sound(r) && id !in r.idToKey && 0 < id < r.counters.nextSubId
    ensures Sound(BindSubscriptionVar(r, id, name, unit, dtype))
  {
    var q := BindSubscriptionVar(r, id, name, unit, dtype);
    forall k | k in q.vars ensures SoundEntry(q, k) {
      if k != KeyOf(name, unit, dtype) {
        assert SoundEntry(r, k);
      }
    }
  }

  lemma CreateSound(r: Reg, name: string, unit: string, dtype: int)
    requires Sound(r) && r.counters.nextVarId !in r.idToKey && KeyOf(name, unit, dtype) !in r.vars
    ensures Sound(CreateVar(r, name, unit, dtype))
  {
    var q := CreateVar(r, name, unit, dtype);
    forall k | k in q.vars ensures SoundEntry(q, k) {
      if k != KeyOf(name, unit, dtype) {
        assert SoundEntry(r, k);
      }
    }
  }

  lemma NewSlotSound(r: Reg, slot: VarSlot)
    requires Sound(r)
    ensures Sound(NewSlot(r, slot))
  {
    var q := NewSlot(r, slot);
    forall k | k in q.vars ensures SoundEntry(q, k) {
      assert SoundEntry(r, k);
    }
  }

  lemma ReleaseSound(r: Reg, id: int)
    requires Sound(r)
    ensures Sound(ReleaseDefineId(r, id))
  {
    var q := ReleaseDefineId(r, id);
    forall k | k in q.vars ensures SoundEntry(q, k) {
      assert SoundEntry(r, k);
    }
  }
}
