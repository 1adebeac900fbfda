/** The registry object. */
module Registry {
  import opened Wrappers
  import opened RegistryState
  import State = RegistryState

  class Registry {
    var vars: map<VarKey, SlotRef>
    var idToKey: map<int, VarKey>
    var nextVarId: int
    var nextSubId: int
    var nextGetManyId: int
    var slots: seq<VarSlot>

    ghost function View(): Reg
      reads this
    {
      Reg(vars, idToKey, Counters(nextVarId, nextSubId, nextGetManyId), slots)
    }

    /** Every registered reference is a slot that exists. */
    ghost predicate Valid()
      reads this
    {
      forall k :: k in vars ==> vars[k] < |slots|
    }

    constructor ()
      ensures Valid() && View() == EmptyRegistry()
      ensures vars == map[] && idToKey == map[] && nextSubId == 1 && nextVarId == 1000 && nextGetManyId == 20000
    {
      vars, idToKey, slots := map[], map[], [];
      nextVarId, nextSubId, nextGetManyId := VAR_ID_START, 1, GET_MANY_ID_START;
    }

    method AllocSubscriptionId() returns (id: int)
      requires Valid()
      modifies this
      ensures Valid()
      ensures id == old(View()).counters.nextSubId && View() == State.AllocSubscriptionId(old(View()))
    {
      id := nextSubId;
      nextSubId := nextSubId + 1;
    }

    method AllocGetManyId() returns (id: int)
      requires Valid()
      modifies this
      ensures Valid()
      ensures id == old(View()).counters.nextGetManyId && View() == State.AllocGetManyId(old(View()))
    {
      id := nextGetManyId;
      nextGetManyId := nextGetManyId + 1;
    }

    method NewSlot(slot: VarSlot) returns (ref: SlotRef)
      requires Valid()
      modifies this
      ensures Valid()
      ensures ref == Fresh(old(View())) && View() == State.NewSlot(old(View()), slot)
    {
      ref := |slots|;
      slots := slots + [slot];
    }

    method BindSubscriptionVar(defineId: int, name: string, unit: string, dtype: int) returns (ref: SlotRef)
      requires Valid()
      modifies this
      ensures Valid()
      ensures ref == Fresh(old(View()))
      ensures View() == State.BindSubscriptionVar(old(View()), defineId, name, unit, dtype)
      ensures slots == old(slots) + [VarSlot(defineId, name, unit, dtype, false)]
      ensures nextVarId > defineId && (nextVarId == old(nextVarId) || nextVarId == defineId + 1)
      ensures State.GetVarByDefineId(View(), defineId) == Some(ref)
    {
      var key := KeyOf(name, unit, dtype);
      ref := NewSlot(VarSlot(defineId, name, unit, dtype, false));
      vars := vars[key := ref];
      idToKey := idToKey[defineId := key];
      if defineId >= nextVarId {
        nextVarId := defineId + 1;
      }
    }

    method GetOrCreateVar(name: string, unit: string, dtype: int) returns (ref: SlotRef)
      requires Valid()
      modifies this
      ensures Valid()
      ensures (View(), ref) == State.GetOrCreateVar(old(View()), name, unit, dtype)
      ensures slots == old(slots) || slots == old(slots) + [VarSlot(old(nextVarId), name, unit, dtype, false)]
      ensures slots == old(slots) ==> nextVarId == old(nextVarId)
      ensures slots != old(slots) ==> nextVarId == old(nextVarId) + 1 && ref == |old(slots)|
    {
      var key := KeyOf(name, unit, dtype);
      if key in vars {
        return vars[key];
      }
      var defineId := nextVarId;
      nextVarId := nextVarId + 1;
      ref := NewSlot(VarSlot(defineId, name, unit, dtype, false));
      vars := vars[key := ref];
      idToKey := idToKey[defineId := key];
    }

    method GetVarByDefineId(defineId: int) returns (slot: Option<SlotRef>)
      ensures slot == State.GetVarByDefineId(View(), defineId)
    {
      if defineId !in idToKey {
        return None;
      }
      var key := idToKey[defineId];
      slot := if key in vars then Some(vars[key]) else None;
    }

    method ReleaseDefineId(defineId: int)
      requires Valid()
      modifies this
      ensures Valid()
      ensures View() == State.ReleaseDefineId(old(View()), defineId)
      ensures idToKey == old(idToKey) - {defineId} && slots == old(slots)
      ensures vars == if defineId in old(idToKey) then old(vars) - {old(idToKey)[defineId]} else old(vars)
    {
      if defineId in idToKey {
        var key := idToKey[defineId];
        idToKey := idToKey - {defineId};
        vars := vars - {key};
      }
    }

    method SetDefined(ref: SlotRef, defined: bool)
      requires Valid()
      modifies this
      ensures Valid()
      ensures View() == State.SetDefined(old(View()), ref, defined)
    {
      if ref < |slots| {
        slots := slots[ref := slots[ref].(defined := defined)];
      }
    }

    /** The ids of the registered slots that are marked as defined, one for each of their keys. */
    method DefinedDefineIds() returns (ids: seq<int>)
      requires Valid()
      ensures Lists(View(), ids, DefinedKeys(View()))
      ensures forall k :: k in vars && slots[vars[k]].defined ==> slots[vars[k]].defineId in ids
      ensures forall id :: id in ids ==>
        exists k :: k in vars && slots[vars[k]].defined && slots[vars[k]].defineId == id
    {
      var todo := vars.Keys;
      ids := [];
      while todo != {}
        invariant todo <= vars.Keys && Lists(View(), ids, DefinedKeys(View()) - todo)
        decreases todo
      {
        var key :| key in todo;
        ListsNext(View(), ids, todo, key);
        if slots[vars[key]].defined {
          ids := ids + [slots[vars[key]].defineId];
        }
        todo := todo - {key};
      }
      assert DefinedKeys(View()) - {} == DefinedKeys(View());
    }

    method ResetDefinedFlags()
      requires Valid()
      modifies this
      ensures Valid()
      ensures View() == State.ResetDefinedFlags(old(View()))
    {
      var todo := vars.Values;
      ghost var was := slots;
      while todo != {}
        invariant todo <= vars.Values && |slots| == |was|
        invariant vars == old(vars) && idToKey == old(idToKey)
        invariant Counters(nextVarId, nextSubId, nextGetManyId) == old(View()).counters
        invariant forall i :: 0 <= i < |was| ==>
          slots[i] == if i in vars.Values - todo then was[i].(defined := false) else was[i]
        decreases todo
      {
        var ref :| ref in todo;
        slots := slots[ref := slots[ref].(defined := false)];
        todo := todo - {ref};
      }
      assert slots == State.ResetDefinedFlags(old(View())).slots;
    }
  }
}
