/** The client object: its methods update the tables in place and do what the functions of Client say. */
module SimConnect {
  import opened Wrappers
  import opened Bytes
  import opened Parsing
  import opened Fields
  import opened RegistryState
  import opened Remote
  import opened Registry
  import opened Client
  import opened TablesKept
  import Spec = Client

  const BATCH_SIZE := 10

  class SimConnect {
    const registry: Registry
    var subs: map<int, Info>
    var composites: map<int, seq<int>>
    var pending: map<int, Pending>
    var openReceived: bool
    var remote: Remote

    ghost function Core(): Spec.Core
      reads this, registry
    {
      Spec.Core(registry.View(), remote)
    }

    ghost function View(): Spec.Client
      reads this, registry
    {
      Spec.Client(Core(), subs, composites, pending, openReceived)
    }

    /** Every entry refers to a slot that exists and carries the entry's own id. */
    ghost predicate Valid()
      reads this, registry
    {
      registry.Valid() && forall s :: s in subs ==> HasSlot(s, subs[s])
    }

    ghost predicate HasSlot(sid: int, info: Info)
      reads registry
    {
      info.slot < |registry.slots| && registry.slots[info.slot].defineId == sid
    }

    constructor (script: seq<int>)
      ensures Valid() && fresh(registry) && View() == Spec.Init(script)
    {
      registry := new Registry();
      subs, composites, pending, openReceived := map[], map[], map[], false;
      remote := Spec.Init(script).core.remote;
    }

    // ---- calls into the DLL ----

    method AddToDataDefinition(id: int, field: Field) returns (ok: bool)
      modifies `remote
      ensures remote == AddToDefinition(old(remote), id, field) && ok == Accepts(old(remote))
    {
      ok := Accepts(remote);
      remote := AddToDefinition(remote, id, field);
    }

    method ClearDataDefinition(id: int)
      modifies `remote
      ensures remote == ClearDefinition(old(remote), id)
    {
      remote := ClearDefinition(remote, id);
    }

    method RequestDataOnSimObject(request: int, id: int, period: int) returns (ok: bool)
      modifies `remote
      ensures remote == RequestData(old(remote), request, id, period) && ok == Accepts(old(remote))
    {
      ok := Accepts(remote);
      remote := RequestData(remote, request, id, period);
    }

    method RequestDataOnSimObjectType(request: int, id: int) returns (ok: bool)
      modifies `remote
      ensures remote == RequestDataOnType(old(remote), request, id) && ok == Accepts(old(remote))
    {
      ok := Accepts(remote);
      remote := RequestDataOnType(remote, request, id);
    }

    // ---- definitions ----

    method PrepareDefinition(defineId: int)
      requires Valid()
      modifies `remote, registry
      ensures Valid() && Core() == Spec.PrepareDefinition(old(Core()), defineId)
    {
      var slot := registry.GetVarByDefineId(defineId);
      if slot.None? || !registry.slots[slot.value].defined {
        return;
      }
      if remote.open {
        ClearDataDefinition(defineId);
      }
      registry.SetDefined(slot.value, false);
    }

    method EnsureVarDefined(ref: SlotRef) returns (ok: bool)
      requires Valid() && ref < |registry.slots|
      modifies `remote, registry
      ensures Valid() && (Core(), ok) == Spec.EnsureVarDefined(old(Core()), ref)
      ensures ok ==> ref < |registry.slots| && registry.slots[ref].defined
    {
      var slot := registry.slots[ref];
      if slot.defined {
        return true;
      }
      ok := AddToDataDefinition(slot.defineId, SlotField(slot));
      if !ok {
        return false;
      }
      registry.SetDefined(ref, true);
    }

    method SetTypeRequested(sid: int, typeRequested: bool)
      requires sid in subs
      modifies `subs
      ensures subs == old(subs)[sid := old(subs)[sid].(typeRequested := typeRequested)]
    {
      subs := subs[sid := subs[sid].(typeRequested := typeRequested)];
    }

    method RequestTypeForSubscription(sid: int) returns (ok: bool)
      requires Valid() && sid in subs
      modifies `remote, `subs
      ensures Valid()
      ensures var info := old(subs)[sid]; var slot := registry.slots[info.slot];
        if info.typeRequested || !slot.defined then ok && remote == old(remote) && subs == old(subs)
        else
          && ok == Accepts(old(remote))
          && remote == RequestDataOnType(old(remote), sid + TYPE_REQ_OFFSET, slot.defineId)
          && subs == if ok then old(subs)[sid := info.(typeRequested := true)] else old(subs)
    {
      var info := subs[sid];
      var slot := registry.slots[info.slot];
      if info.typeRequested || !slot.defined {
        return true;
      }
      ok := RequestDataOnSimObjectType(sid + TYPE_REQ_OFFSET, slot.defineId);
      if ok {
        SetTypeRequested(sid, true);
      }
    }

    /** Both requests of a subscription whose definition is complete. */
    method RequestBoth(sid: int, id: int) returns (ok: bool)
      requires Valid() && sid in subs
      requires HasSlot(sid, subs[sid]) && registry.slots[subs[sid].slot].defined && id == sid
      modifies `remote, `subs
      ensures Valid()
      ensures var a := Spec.RequestBoth(old(Core()), sid, id, old(subs)[sid]);
        && Core() == a.core && ok == a.ok
        && subs == old(subs)[sid := old(subs)[sid].(typeRequested := a.typeRequested)]
    {
      ok := RequestDataOnSimObject(sid, id, subs[sid].period);
      if ok {
        SetTypeRequested(sid, false);
        ok := RequestTypeForSubscription(sid);
      }
    }

    method ApplySubscription(sid: int) returns (ok: bool)
      requires Valid() && sid in subs && subs[sid].Single?
      modifies `remote, `subs, registry
      ensures Valid() && (View(), ok) == Spec.ApplyAt(old(View()), sid)
    {
      var info := subs[sid];
      var id := registry.slots[info.slot].defineId;
      PrepareDefinition(id);
      ok := EnsureVarDefined(info.slot);
      if ok {
        ok := RequestBoth(sid, id);
      }
      assert subs == old(subs)[sid := subs[sid]];
    }

    /** Adds the fields one by one until a call fails. */
    method AddFields(id: int, fields: seq<ParsedField>) returns (ok: bool)
      modifies `remote
      ensures (remote, ok) == AddAll(old(remote), id, RemoteFields(fields))
    {
      var all := RemoteFields(fields);
      for i := 0 to |fields|
        invariant AddAll(remote, id, all[i..]) == AddAll(old(remote), id, all)
      {
        assert all[i..][1..] == all[i + 1..];
        ok := AddToDataDefinition(id, RemoteField(fields[i]));
        if !ok {
          return;
        }
      }
      ok := true;
    }

    method ApplySubscriptionMany(sid: int) returns (ok: bool)
      requires Valid() && sid in subs && subs[sid].Multi?
      modifies `remote, `subs, registry
      ensures Valid() && (View(), ok) == Spec.ApplyAt(old(View()), sid)
    {
      var info := subs[sid];
      PrepareDefinition(sid);
      ok := AddFields(sid, info.fields);
      if ok {
        registry.SetDefined(info.slot, true);
        ok := RequestBoth(sid, sid);
      }
      assert subs == old(subs)[sid := subs[sid]];
    }

    /** One entry of a restore. An exception is logged and the next entry follows. */
    method Apply(sid: int) returns (ok: bool)
      requires Valid() && sid in subs
      modifies `remote, `subs, registry
      ensures Valid() && (View(), ok) == Spec.ApplyAt(old(View()), sid)
    {
      if subs[sid].Multi? {
        ok := ApplySubscriptionMany(sid);
      } else {
        ok := ApplySubscription(sid);
      }
    }

    /** One batch of a restore. */
    method RestoreBatch(batch: seq<int>)
      requires Valid() && AllIn(batch, subs.Keys)
      modifies `remote, `subs, registry
      ensures Valid() && View() == ApplyAll(old(View()), batch) && subs.Keys == old(subs).Keys
    {
      for i := 0 to |batch|
        invariant Valid() && subs.Keys == old(subs).Keys
        invariant ApplyAll(View(), batch[i..]) == ApplyAll(old(View()), batch)
      {
        assert batch[i] in subs.Keys;
        assert batch[i..][1..] == batch[i + 1..];
        var _ := Apply(batch[i]);
      }
    }

    /** The batches, with a pause between two of them. */
    method RestoreInBatches(items: seq<int>) returns (pauses: nat)
      requires Valid() && AllIn(items, subs.Keys)
      modifies `remote, `subs, registry
      ensures Valid() && View() == ApplyAll(old(View()), items)
      ensures pauses == if |items| == 0 then 0 else (|items| + 9) / 10 - 1
    {
      pauses := 0;
      var idx := 0;
      while idx < |items|
        invariant Paced(idx, pauses, |items|)
        invariant Valid() && subs.Keys == old(subs).Keys
        invariant View() == ApplyAll(old(View()), items[..Upto(idx, |items|)])
        decreases |items| - idx
      {
        var end := Upto(idx + BATCH_SIZE, |items|);
        NextBatch(old(View()), items, idx, end);
        SliceIn(items, idx, end, subs.Keys);
        PacedOn(idx, pauses, |items|);
        RestoreBatch(items[idx..end]);
        if idx + BATCH_SIZE < |items| {
          pauses := pauses + 1;
        }
        idx := idx + BATCH_SIZE;
      }
      PacedDone(idx, pauses, |items|);
      assert items[..|items|] == items;
    }

    /** The batched restore is the plain walk through the snapshot: every entry once, in order. */
    method RestoreSubscriptions(items: seq<int>) returns (pauses: nat)
      requires Valid() && Snapshot(View(), items)
      modifies `remote, `subs, registry
      ensures Valid() && View() == Spec.Restore(old(View()), items)
      ensures pauses == if |items| == 0 then 0 else (|items| + 9) / 10 - 1
    {
      assert AllIn(items, subs.Keys) by {
        assert forall i :: 0 <= i < |items| ==> items[i] in items;
      }
      registry.ResetDefinedFlags();
      pauses := RestoreInBatches(items);
    }

    // ---- subscribe ----

    method ApplyIfReady(sid: int) returns (ok: bool)
      requires Valid() && sid in subs
      modifies `remote, `subs, registry
      ensures Valid() && (View(), ok) == Spec.ApplyIfReady(old(View()), sid)
    {
      ok := true;
      if remote.open && openReceived {
        ok := Apply(sid);
      }
    }

    /** The entry stays in the table when applying it raises. */
    method Subscribe(name: string, unit: string, dtype: int, period: int) returns (r: Result<int, string>)
      requires Valid()
      modifies `remote, `subs, registry
      ensures Valid() && (View(), r.Ok?) == Spec.Subscribe(old(View()), name, unit, dtype, period)
      ensures r.Ok? ==> r.value == old(registry.nextSubId)
    {
      if period < 0 || dtype < 0 {
        return Err("ValueError");
      }
      var sid := registry.AllocSubscriptionId();
      var slot := registry.BindSubscriptionVar(sid, name, unit, dtype);
      subs := subs[sid := Single(slot, period, false)];
      var ok := ApplyIfReady(sid);
      r := if ok then Ok(sid) else Err("SimConnectError");
    }

    method SubscribeManyNumeric(parsed: seq<ParsedField>, period: int) returns (r: Result<int, string>)
      requires Valid() && AllNumeric(parsed)
      modifies `remote, `subs, registry
      ensures Valid() && (View(), r.Ok?) == Spec.SubscribeNumeric(old(View()), parsed, period)
      ensures r.Ok? ==> r.value == old(registry.nextSubId)
    {
      var built := BuildFieldLayout(parsed);
      assert built.value == Layout(parsed);
      var sid := registry.AllocSubscriptionId();
      var slot := registry.NewSlot(VarSlot(sid, "", "", FLOAT64, false));
      subs := subs[sid := Multi(slot, period, false, parsed, built.value)];
      var ok := ApplyIfReady(sid);
      r := if ok then Ok(sid) else Err("SimConnectError");
    }

    /** The string children of a composite; an exception leaves the children made so far subscribed. */
    method SubscribeStringFields(fields: seq<ParsedField>, period: int) returns (children: seq<int>, ok: bool)
      requires Valid() && period >= 0
      modifies `remote, `subs, registry
      ensures Valid() && (View(), ok) == Spec.SubscribeStrings(old(View()), fields, period)
      ensures ok ==> children == Ids(old(registry.nextSubId), |fields|)
      ensures registry.nextSubId >= old(registry.nextSubId)
    {
      children := [];
      for i := 0 to |fields|
        invariant Valid() && registry.nextSubId == old(registry.nextSubId) + i
        invariant children == Ids(old(registry.nextSubId), i)
        invariant SubscribeStrings(View(), fields[i..], period) == SubscribeStrings(old(View()), fields, period)
      {
        StringsStep(View(), fields, i, period);
        SubscribeCounts(View(), fields[i].name, "", STRINGV, period);
        var child := Subscribe(fields[i].name, "", STRINGV, period);
        if child.Err? {
          return children, false;
        }
        children := children + [child.value];
      }
      ok := true;
    }

    /** The numeric child of a composite, if there are numeric fields. */
    method SubscribeNumericFields(fields: seq<ParsedField>, period: int) returns (children: seq<int>, ok: bool)
      requires Valid() && AllNumeric(fields)
      modifies `remote, `subs, registry
      ensures Valid()
      ensures (View(), ok) ==
        if fields == [] then (old(View()), true) else Spec.SubscribeNumeric(old(View()), fields, period)
      ensures ok ==> children == Ids(old(registry.nextSubId), if fields == [] then 0 else 1)
      ensures ok ==> registry.nextSubId == old(registry.nextSubId) + |children|
    {
      children, ok := [], true;
      if fields != [] {
        SubscribeNumericCounts(View(), fields, period);
        var child := SubscribeManyNumeric(fields, period);
        if child.Err? {
          return children, false;
        }
        children := [child.value];
      }
    }

    /** The string children join the numeric one, and the composite is entered if none raised. */
    method FinishComposite(cid: int, first: seq<int>, strings: seq<ParsedField>, period: int) returns (ok: bool)
      requires Valid() && period >= 0
      modifies this, registry
      ensures Valid()
      ensures var (all, done) := SubscribeStrings(old(View()), strings, period);
        && ok == done
        && View() ==
          if done then all.(composites := all.composites[cid := first + Ids(old(registry.nextSubId), |strings|)])
          else all
    {
      var others;
      others, ok := SubscribeStringFields(strings, period);
      if ok {
        composites := composites[cid := first + others];
      }
    }

    method SubscribeComposite(numeric: seq<ParsedField>, strings: seq<ParsedField>, period: int)
      returns (r: Result<int, string>)
      requires Valid() && AllNumeric(numeric) && period >= 0
      modifies this, registry
      ensures Valid() && (View(), r.Ok?) == Spec.SubscribeComposite(old(View()), numeric, strings, period)
      ensures r.Ok? ==> r.value == old(registry.nextSubId)
    {
      var cid := registry.AllocSubscriptionId();
      ghost var reserved := View();
      var children, ok := SubscribeNumericFields(numeric, period);
      CompositeSteps(old(View()), numeric, strings, period, reserved, View(), ok);
      if !ok {
        return Err("SimConnectError");
      }
      IdsJoin(cid + 1, |children|, |strings|);
      ok := FinishComposite(cid, children, strings, period);
      r := if ok then Ok(cid) else Err("SimConnectError");
    }

    method SubscribeMany(parsed: seq<ParsedField>, period: int) returns (r: Result<int, string>)
      requires Valid()
      modifies this, registry
      ensures Valid() && (View(), r.Ok?) == Spec.SubscribeMany(old(View()), parsed, period)
      ensures r.Ok? ==> r.value == old(registry.nextSubId)
    {
      if period < 0 {
        return Err("ValueError");
      }
      var split := SplitNumericStringFields(parsed);
      if split.Err? {
        return Err(split.error);
      }
      var (numeric, strings) := split.value;
      NumericHalfHasLayout(parsed);
      if strings == [] {
        r := SubscribeManyNumeric(numeric, period);
      } else {
        r := SubscribeComposite(numeric, strings, period);
      }
    }

    // ---- unsubscribe, resubscribe ----

    method UnsubscribeOne(sid: int) returns (found: bool)
      requires Valid()
      modifies `remote, `subs, registry
      ensures Valid() && View() == Spec.UnsubscribeOne(old(View()), sid) && found == (sid in old(subs))
    {
      if sid !in subs {
        return false;
      }
      var info := subs[sid];
      subs := subs - {sid};
      if remote.open {
        var _ := RequestDataOnSimObject(sid, sid, PERIOD_NEVER);
        ClearDataDefinition(sid);
        var slot := registry.GetVarByDefineId(sid);
        if info.Multi? || slot.Some? {
          registry.ReleaseDefineId(sid);
        }
      }
      found := true;
    }

    method Unsubscribe(sid: int) returns (found: bool)
      requires Valid()
      modifies this, registry
      ensures Valid() && View() == Spec.Unsubscribe(old(View()), sid)
      ensures found == (sid in old(composites) || sid in old(subs))
    {
      if sid in composites {
        var children := composites[sid];
        composites := composites - {sid};
        ghost var start := View();
        for i := 0 to |children|
          invariant Valid() && UnsubscribeAll(View(), children[i..]) == UnsubscribeAll(start, children)
        {
          assert children[i..][1..] == children[i + 1..];
          var _ := UnsubscribeOne(children[i]);
        }
        return true;
      }
      found := UnsubscribeOne(sid);
    }

    method ResubscribeOne(sid: int) returns (ok: bool)
      requires Valid()
      modifies `remote, `subs, registry
      ensures Valid() && (View(), ok) == Spec.ResubscribeOne(old(View()), sid)
    {
      if sid !in subs {
        return false;
      }
      if remote.open {
        var _ := RequestDataOnSimObject(sid, sid, PERIOD_NEVER);
        ClearDataDefinition(sid);
      }
      SetTypeRequested(sid, false);
      ok := Apply(sid);
    }

    method Resubscribe(sid: int) returns (ok: bool)
      requires Valid()
      modifies `remote, `subs, registry
      ensures Valid() && View() == Spec.Resubscribe(old(View()), sid)
      ensures ok == AllRecover(old(View()), if sid in old(composites) then old(composites)[sid] else [sid])
    {
      var children := if sid in composites then composites[sid] else [sid];
      ok := true;
      for i := 0 to |children|
        invariant Valid() && ResubscribeAll(View(), children[i..]) == ResubscribeAll(old(View()), children)
        invariant (ok && AllRecover(View(), children[i..])) == AllRecover(old(View()), children)
      {
        assert children[i..][1..] == children[i + 1..];
        var recovered := ResubscribeOne(children[i]);
        ok := ok && recovered;
      }
    }

    /** Repeats the TYPE request of one subscription. */
    method RepollTypeSubscription(sid: int)
      requires Valid()
      modifies `remote, `subs
      ensures Valid() && View() == Spec.Repoll(old(View()), sid)
    {
      if !remote.open || !openReceived || sid !in subs {
        return;
      }
      SetTypeRequested(sid, false);
      var _ := RequestTypeForSubscription(sid);
    }

    // ---- get, get_many, set ----

    method DefineVar(name: string, unit: string, dtype: int) returns (ref: SlotRef, ok: bool)
      requires Valid()
      modifies `remote, registry
      ensures Valid() && (Core(), ref, ok) == Spec.DefineVar(old(Core()), name, unit, dtype)
      ensures ref < |registry.slots|
    {
      ref := registry.GetOrCreateVar(name, unit, dtype);
      PrepareDefinition(registry.slots[ref].defineId);
      ok := EnsureVarDefined(ref);
    }

    /** The entry waits before the request is made and goes again when the request fails. */
    method Ask(id: int, entry: Pending) returns (ok: bool)
      modifies `remote, `pending
      ensures (View(), ok) == Spec.Ask(old(View()), id, entry)
    {
      pending := pending[id := entry];
      ok := RequestDataOnSimObjectType(id + TYPE_REQ_OFFSET, id);
      if !ok {
        pending := pending - {id};
        assert pending == old(pending) - {id};
      }
    }

    method BeginGet(name: string, unit: string, dtype: int) returns (ok: bool)
      requires Valid()
      modifies `remote, `pending, registry
      ensures Valid() && (View(), ok) == Spec.BeginGet(old(View()), name, unit, dtype)
    {
      if dtype < 0 || !remote.open || !openReceived {
        return false;
      }
      var ref: SlotRef;
      ref, ok := DefineVar(name, unit, dtype);
      if ok {
        ok := Ask(registry.slots[ref].defineId, GetOne(KeyOf(name, unit, dtype), dtype, None));
      }
    }

    method BeginGetMany(fields: seq<ParsedField>) returns (ok: bool)
      requires Valid()
      modifies `remote, `pending, registry
      ensures Valid() && (View(), ok) == Spec.BeginGetMany(old(View()), fields)
    {
      var built := BuildFieldLayout(fields);
      if built.Err? || !remote.open || !openReceived {
        return false;
      }
      assert built.value == Layout(fields);
      var id := registry.AllocGetManyId();
      PrepareDefinition(id);
      ok := AddFields(id, fields);
      if ok {
        ok := Ask(id, GetMany(built.value, None));
        if !ok {
          ClearDataDefinition(id);
        }
      }
    }

    /** Hands out what the entry holds by then, which is what the call returns or its timeout. */
    method EndGet(id: int) returns (entry: Option<Pending>)
      modifies `remote, `pending
      ensures View() == Spec.EndGet(old(View()), id)
      ensures entry == if id in old(pending) then Some(old(pending)[id]) else None
    {
      if id !in pending {
        return None;
      }
      entry := Some(pending[id]);
      pending := pending - {id};
      if entry.value.GetMany? && remote.open {
        ClearDataDefinition(id);
      }
    }

    method SetVarDirect(name: string, unit: string, dtype: int, data: seq<Byte>) returns (written: Option<Write>)
      requires Valid()
      modifies `remote, registry
      ensures Valid() && View() == Spec.SetVarDirect(old(View()), name, unit, dtype)
      ensures written == WriteOf(old(View()), name, unit, dtype, data)
    {
      var ref, ok := DefineVar(name, unit, dtype);
      if !ok {
        return None;
      }
      written := Some(Write(registry.slots[ref].defineId, data));
      remote := Called(remote);
    }

    /** Only a set that is not queued comes here; the pump calls SetVarDirect with what was packed before. */
    method Set(name: string, value: Number, unit: string, dtype: int, asFloat: (int, nat) -> seq<Byte>)
      returns (written: Option<Write>)
      requires Valid()
      modifies `remote, registry
      ensures Valid() && (View(), written) == Spec.Set(old(View()), name, value, unit, dtype, asFloat)
    {
      if dtype < 0 || !remote.open {
        return None;
      }
      var packed := PackSetValue(value, dtype, asFloat);
      if packed.Err? {
        return None;
      }
      written := SetVarDirect(name, unit, dtype, packed.value);
    }

    method SetString(name: string, text: seq<Byte>) returns (written: Option<Write>)
      requires Valid()
      modifies `remote, registry
      ensures Valid() && (View(), written) == Spec.SetString(old(View()), name, text)
    {
      if !remote.open {
        return None;
      }
      var packed := PackSetStringValue(text);
      if packed.Err? {
        return None;
      }
      written := SetVarDirect(name, "", STRINGV, packed.value);
    }

    // ---- the session ----

    /** What SimConnect_Open returned: a failure, or a null handle, changes nothing. */
    method Open(err: int, handle: nat) returns (ok: bool)
      modifies `remote, `openReceived
      ensures ok == (err == 0 && handle != 0)
      ensures View() == if ok then Spec.Open(old(View())) else old(View())
    {
      if err != 0 || handle == 0 {
        return false;
      }
      remote, openReceived := NewSession(remote), false;
      ok := true;
    }

    method OnOpen(items: seq<int>)
      requires Valid() && Snapshot(View(), items)
      modifies `remote, `subs, `openReceived, registry
      ensures Valid() && View() == Spec.OnOpen(old(View()), items)
    {
      openReceived := true;
      registry.ResetDefinedFlags();
      ghost var once := View();
      ResetTwice(once.core.reg, old(registry.View()));
      var _ := RestoreSubscriptions(items);
    }

    method OnQuit()
      modifies `remote, `openReceived
      ensures View() == Spec.OnQuit(old(View()))
    {
      remote, openReceived := NoSession(remote), false;
    }

    /** The DLL is called with the handle the client no longer has; what a clear answers is ignored. */
    method Close(hung: bool)
      requires Valid()
      modifies `remote, `openReceived, registry
      ensures Valid() && View() == Spec.Close(old(View()), hung)
    {
      var session := remote;
      var ids := registry.DefinedDefineIds();
      remote, openReceived := NoSession(remote), false;
      if hung || !session.open {
        return;
      }
      for i := 0 to |ids|
        invariant session.open && session.script == Spent(old(remote), i).script
      {
        session := ClearDefinition(session, ids[i]);
      }
      remote := NoSession(session);
      registry.ResetDefinedFlags();
    }

    // ---- data ----

    method LookupSubscription(request: int) returns (sid: Option<int>)
      ensures sid == Lookup(View(), request)
    {
      if request in subs {
        return Some(request);
      }
      if request >= TYPE_REQ_OFFSET {
        var base := request - TYPE_REQ_OFFSET;
        if base in subs {
          return Some(base);
        }
      }
      sid := None;
    }

    method DispatchSubscriptions(p: Packet, plausible: Value -> bool) returns (call: Option<(int, Handed)>)
      requires Valid()
      ensures call == Spec.Deliver(View(), p, plausible)
    {
      var sid := LookupSubscription(p.requestId);
      if sid.None? {
        return None;
      }
      var info := subs[sid.value];
      if info.Multi? {
        var values := ReadFields(p.payload, info.layout, plausible);
        call := if values.Some? then Some((sid.value, Many(values.value))) else None;
      } else {
        var v := ReadData(p, registry.slots[info.slot].dtype);
        call := if v.Some? && plausible(v.value) then Some((sid.value, One(v.value))) else None;
      }
    }

    method LookupWaiting(request: int) returns (id: Option<int>)
      ensures id == LookupPending(View(), request)
    {
      if request in pending {
        return Some(request);
      }
      if request >= TYPE_REQ_OFFSET && request - TYPE_REQ_OFFSET in pending {
        return Some(request - TYPE_REQ_OFFSET);
      }
      id := None;
    }

    method DispatchSyncResponses(p: Packet)
      modifies `pending
      ensures View() == Spec.Answer(old(View()), p)
    {
      var id := LookupWaiting(p.requestId);
      if id.None? {
        return;
      }
      var entry := pending[id.value];
      match entry {
        case GetMany(layout, _) =>
          var values := ReadFields(p.payload, layout, AnyValue);
          if values.Some? {
            pending := pending[id.value := entry.(many := values)];
          }
        case GetOne(_, dtype, _) =>
          var v := ReadData(p, dtype);
          if v.Some? {
            pending := pending[id.value := entry.(one := v)];
          }
      }
      assert pending == old(pending)[id.value := pending[id.value]];
    }
  }

  lemma IdsJoin(first: int, m: nat, n: nat)
    ensures Ids(first, m) + Ids(first + m, n) == Ids(first, m + n)
  {}

  lemma StringsStep(c: Spec.Client, fields: seq<ParsedField>, i: nat, period: int)
    requires i < |fields|
    ensures var (next, ok) := Spec.Subscribe(c, fields[i].name, "", STRINGV, period);
      SubscribeStrings(c, fields[i..], period) ==
        if ok then SubscribeStrings(next, fields[i + 1..], period) else (next, false)
  {
    assert fields[i..][1..] == fields[i + 1..];
  }

  lemma CompositeSteps(c: Spec.Client, numeric: seq<ParsedField>, strings: seq<ParsedField>, period: int,
                       reserved: Spec.Client, first: Spec.Client, ok: bool)
    requires reserved == c.(core := c.core.(reg := AllocSubscriptionId(c.core.reg)))
    requires (first, ok) == if numeric == [] then (reserved, true) else Spec.SubscribeNumeric(reserved, numeric, period)
    ensures var cid := c.core.reg.counters.nextSubId; var (all, done) := SubscribeStrings(first, strings, period);
      Spec.SubscribeComposite(c, numeric, strings, period) ==
        if !ok then (first, false)
        else if !done then (all, false)
        else (all.(composites := all.composites[cid := Ids(cid + 1, |strings| + if numeric == [] then 0 else 1)]), true)
  {}

  /** Reads the fields of a packet one by one, and gives up at the first that cannot be read or is refused. */
  method ReadFields(mem: Memory, layout: seq<Slice>, accept: Value -> bool) returns (values: Option<map<string, Value>>)
    ensures values == ReadSlices(mem, layout, accept)
  {
    var read: map<string, Value> := map[];
    for i := 0 to |layout|
      invariant ReadSlices(mem, layout[..i], accept) == Some(read)
    {
      var v := ReadDataAt(From(mem, layout[i].offset), layout[i].dtype);
      assert layout[..i + 1][..i] == layout[..i];
      if v.None? || !accept(v.value) {
        StoppedReading(mem, layout, i + 1, accept);
        return None;
      }
      read := read[layout[i].key := v.value];
    }
    assert layout[..|layout|] == layout;
    values := Some(read);
  }

  lemma {:induction false} StoppedReading(mem: Memory, layout: seq<Slice>, i: nat, accept: Value -> bool)
    requires i <= |layout| && ReadSlices(mem, layout[..i], accept) == None
    ensures ReadSlices(mem, layout, accept) == None
    decreases |layout|
  {
    if i == |layout| {
      assert layout[..i] == layout;
    } else {
      assert layout[..|layout| - 1][..i] == layout[..i];
      StoppedReading(mem, layout[..|layout| - 1], i, accept);
    }
  }

  /** The OPEN handler resets the flags and the restore it calls resets them again. */
  lemma ResetTwice(once: Reg, r: Reg)
    requires once == ResetDefinedFlags(r)
    ensures ResetDefinedFlags(once) == once
  {
    assert ResetDefinedFlags(once).slots == once.slots;
  }

  // ---- the pace of a restore ----

  predicate AllIn(items: seq<int>, keys: set<int>) { forall i :: 0 <= i < |items| ==> items[i] in keys }

  lemma SliceIn(items: seq<int>, lo: nat, hi: nat, keys: set<int>)
    requires lo <= hi <= |items| && AllIn(items, keys)
    ensures AllIn(items[lo..hi], keys)
  {
    assert forall i :: 0 <= i < hi - lo ==> items[lo..hi][i] == items[lo + i];
  }

  /** One pause fewer than batches, of which there are total / 10 rounded up. */
  function Pauses(total: nat): nat { if total == 0 then 0 else (total + BATCH_SIZE - 1) / BATCH_SIZE - 1 }

  function Upto(idx: nat, total: nat): nat { if idx < total then idx else total }

  /** Before a batch there have been as many pauses as batches; after the last, one fewer. */
  predicate Paced(idx: nat, pauses: nat, total: nat) {
    idx < total + BATCH_SIZE && idx == BATCH_SIZE * if idx < total || total == 0 then pauses else pauses + 1
  }

  lemma PacedOn(idx: nat, pauses: nat, total: nat)
    requires Paced(idx, pauses, total) && idx < total
    ensures Paced(idx + BATCH_SIZE, if idx + BATCH_SIZE < total then pauses + 1 else pauses, total)
  {}

  lemma PacedDone(idx: nat, pauses: nat, total: nat)
    requires Paced(idx, pauses, total) && idx >= total
    ensures pauses == Pauses(total)
  {}

  lemma {:induction false} ApplyAllConcat(c: Spec.Client, a: seq<int>, b: seq<int>)
    ensures ApplyAll(c, a + b) == ApplyAll(ApplyAll(c, a), b)
    decreases |a|
  {
    if a == [] {
      assert a + b == b;
    } else {
      assert (a + b)[1..] == a[1..] + b;
      ApplyAllConcat(if a[0] in c.subs then ApplyAt(c, a[0]).0 else c, a[1..], b);
    }
  }

  lemma NextBatch(c: Spec.Client, items: seq<int>, idx: nat, end: nat)
    requires idx <= end <= |items|
    ensures ApplyAll(c, items[..end]) == ApplyAll(ApplyAll(c, items[..idx]), items[idx..end])
  {
    ApplyAllConcat(c, items[..idx], items[idx..end]);
    assert items[..idx] + items[idx..end] == items[..end];
  }
}
