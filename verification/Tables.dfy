/** What every client operation keeps about the tables, whatever the DLL answers and whichever keys are
    used: ids, slots, requests and waiting gets stay consistent. */
module Tables {
  import opened Parsing
  import opened Fields
  import opened RegistryState
  import opened Remote
  import opened Client

  /** The id a request id was derived from. */
  function Base(request: int): int { if request >= TYPE_REQ_OFFSET then request - TYPE_REQ_OFFSET else request }

  predicate Issued(n: Counters, id: int) {
    || 0 < id < n.nextSubId
    || VAR_ID_START <= id < n.nextVarId
    || GET_MANY_ID_START <= id < n.nextGetManyId
  }

  ghost predicate SubOk(r: Reg, s: int, i: Info) {
    && 0 < s < r.counters.nextSubId
    && i.slot < |r.slots| && r.slots[i.slot].defineId == s
    && (i.Single? ==> s in r.idToKey && r.idToKey[s] == r.slots[i.slot].Key())
    && (i.Multi? ==> s !in r.idToKey && AllNumeric(i.fields) && i.layout == Layout(i.fields))
  }

  ghost predicate PendingOk(r: Reg, subs: map<int, Info>, b: int, p: Pending) {
    match p
    case GetOne(key, dtype, _) =>
      && (0 < b < r.counters.nextSubId || VAR_ID_START <= b < r.counters.nextVarId)
      && dtype == key.dtype
      && (b in subs ==> subs[b].Single? && SlotAt(r, subs[b].slot).Key() == key)
    case GetMany(_, _) => GET_MANY_ID_START <= b < r.counters.nextGetManyId
  }

  ghost predicate RequestsOk(n: Counters, requests: map<int, int>) {
    forall q :: q in requests ==> requests[q] == Base(q) && Issued(n, requests[q])
  }

  ghost predicate CompositeOk(c: Client, id: int)
    requires id in c.composites
  {
    && 0 < id < c.core.reg.counters.nextSubId && id !in c.subs
    && forall child :: child in c.composites[id] ==> 0 < child < c.core.reg.counters.nextSubId && child !in c.composites
  }

  ghost predicate TablesOk(c: Client) {
    && Sound(c.core.reg) && InBounds(c.core.reg)
    && (forall s :: s in c.subs ==> SubOk(c.core.reg, s, c.subs[s]))
    && (forall b :: b in c.pending ==> PendingOk(c.core.reg, c.subs, b, c.pending[b]))
    && (forall id :: id in c.composites ==> CompositeOk(c, id))
    && RequestsOk(c.core.reg.counters, c.core.remote.requests)
    && (c.openReceived ==> c.core.remote.open)
  }

  // ---- steps that touch one definition ----

  /** Only flags, one definition and requests for it may have changed. */
  ghost predicate Touches(k: Core, q: Core, id: int) {
    && SameShape(k.reg, q.reg)
    && q.remote.open == k.remote.open && (Clean(k.remote) ==> Clean(q.remote))
    && (forall i :: i != id ==> Def(q.remote, i) == Def(k.remote, i))
    && (forall r :: r in q.remote.requests ==>
          (r in k.remote.requests && q.remote.requests[r] == k.remote.requests[r])
            || (Base(r) == id && q.remote.requests[r] == id))
  }

  lemma TouchesTrans(k: Core, l: Core, m: Core, id: int)
    requires Touches(k, l, id) && Touches(l, m, id)
    ensures Touches(k, m, id)
  {}

  lemma CalledKeeps(r: Remote)
    ensures Called(r) == r.(script := Called(r).script)
    ensures Clean(r) ==> Clean(Called(r)) && (r.open ==> Accepts(r))
  {}

  lemma SpentKeeps(r: Remote, calls: nat)
    ensures Spent(r, calls) == r.(script := Spent(r, calls).script)
    ensures Clean(r) ==> Clean(Spent(r, calls))
    ensures Spent(r, 1) == Called(r)
  {}

  lemma PrepareTouches(k: Core, id: int)
    ensures Touches(k, PrepareDefinition(k, id), id)
  {
    CalledKeeps(k.remote);
  }

  lemma EnsureTouches(k: Core, ref: SlotRef)
    ensures Touches(k, EnsureVarDefined(k, ref).0, SlotAt(k.reg, ref).defineId)
  {
    CalledKeeps(k.remote);
  }

  lemma RequestBothTouches(k: Core, sid: int, info: Info)
    requires 0 < sid < TYPE_REQ_OFFSET
    ensures Touches(k, RequestBoth(k, sid, sid, info).core, sid)
  {
    CalledKeeps(k.remote);
    CalledKeeps(RequestData(k.remote, sid, sid, info.period));
  }

  lemma ApplySingleTouches(k: Core, sid: int, info: Info)
    requires 0 < sid < TYPE_REQ_OFFSET && SlotAt(k.reg, info.slot).defineId == sid
    ensures Touches(k, ApplySingle(k, sid, info).core, sid)
  {
    var prepared := PrepareDefinition(k, sid);
    PrepareTouches(k, sid);
    EnsureTouches(prepared, info.slot);
    var (defined, ok) := EnsureVarDefined(prepared, info.slot);
    TouchesTrans(k, prepared, defined, sid);
    if ok {
      RequestBothTouches(defined, sid, info);
      TouchesTrans(k, defined, RequestBoth(defined, sid, sid, info).core, sid);
    }
  }

  lemma ApplyManyTouches(k: Core, sid: int, info: Info)
    requires 0 < sid < TYPE_REQ_OFFSET && info.Multi?
    ensures Touches(k, ApplyMany(k, sid, info).core, sid)
  {
    var prepared := PrepareDefinition(k, sid);
    PrepareTouches(k, sid);
    var fields := RemoteFields(info.fields);
    AddAllFrame(prepared.remote, sid, fields);
    var (added, ok) := AddAll(prepared.remote, sid, fields);
    var defined := Core(SetDefined(prepared.reg, info.slot, true), added);
    TouchesTrans(k, prepared, defined, sid);
    if ok {
      RequestBothTouches(defined, sid, info);
      TouchesTrans(k, defined, RequestBoth(defined, sid, sid, info).core, sid);
    } else {
      TouchesTrans(k, prepared, prepared.(remote := added), sid);
    }
  }

  lemma ApplyTouches(k: Core, sid: int, info: Info)
    requires 0 < sid < TYPE_REQ_OFFSET && SlotAt(k.reg, info.slot).defineId == sid
    ensures Touches(k, Apply(k, sid, info).core, sid)
  {
    if info.Multi? {
      ApplyManyTouches(k, sid, info);
    } else {
      ApplySingleTouches(k, sid, info);
    }
  }

  lemma StopTouches(k: Core, sid: int)
    ensures Touches(k, k.(remote := ClearDefinition(RequestData(k.remote, sid, sid, PERIOD_NEVER), sid)), sid)
  {
    CalledKeeps(k.remote);
    CalledKeeps(RequestData(k.remote, sid, sid, PERIOD_NEVER));
  }

  // ---- steps of the client ----

  /** The tables of c and d agree but for flags, one definition and its requests. */
  ghost predicate Same(c: Client, d: Client, id: int) {
    && Touches(c.core, d.core, id)
    && d.subs.Keys == c.subs.Keys
    && (forall s :: s in c.subs ==> d.subs[s] == c.subs[s].(typeRequested := d.subs[s].typeRequested))
    && d.composites == c.composites && d.openReceived == c.openReceived
  }

  lemma SubShape(r: Reg, q: Reg, s: int, i: Info, j: Info)
    requires SameShape(r, q) && SubOk(r, s, i) && j == i.(typeRequested := j.typeRequested)
    ensures SubOk(q, s, j)
  {}

  lemma SameKeeps(c: Client, d: Client, id: int)
    requires TablesOk(c) && Same(c, d, id) && d.pending == c.pending
    requires Issued(c.core.reg.counters, id) || d.core.remote.requests == c.core.remote.requests
    ensures TablesOk(d)
  {
    SoundShape(c.core.reg, d.core.reg);
    forall s | s in d.subs ensures SubOk(d.core.reg, s, d.subs[s]) {
      SubShape(c.core.reg, d.core.reg, s, c.subs[s], d.subs[s]);
    }
    forall b | b in d.pending ensures PendingOk(d.core.reg, d.subs, b, d.pending[b]) {
      assert PendingOk(c.core.reg, c.subs, b, c.pending[b]);
      if b in c.subs {
        assert SubOk(c.core.reg, b, c.subs[b]);
      }
    }
    forall x | x in d.composites ensures CompositeOk(d, x) {
      assert CompositeOk(c, x);
    }
  }

  lemma ApplyAtSame(c: Client, sid: int)
    requires sid in c.subs && SubOk(c.core.reg, sid, c.subs[sid]) && InBounds(c.core.reg)
    ensures Same(c, ApplyAt(c, sid).0, sid) && ApplyAt(c, sid).0.pending == c.pending
  {
    ApplyTouches(c.core, sid, c.subs[sid]);
  }

  lemma ApplyAtKeeps(c: Client, sid: int)
    requires TablesOk(c) && sid in c.subs
    ensures TablesOk(ApplyAt(c, sid).0)
  {
    assert SubOk(c.core.reg, sid, c.subs[sid]);
    ApplyAtSame(c, sid);
    SameKeeps(c, ApplyAt(c, sid).0, sid);
  }

  lemma {:induction false} ApplyAllKeeps(c: Client, items: seq<int>)
    requires TablesOk(c)
    ensures TablesOk(ApplyAll(c, items))
    decreases |items|
  {
    if items != [] {
      if items[0] in c.subs {
        ApplyAtKeeps(c, items[0]);
      }
      ApplyAllKeeps(if items[0] in c.subs then ApplyAt(c, items[0]).0 else c, items[1..]);
    }
  }

  lemma ResetSame(c: Client)
    ensures Same(c, c.(core := c.core.(reg := ResetDefinedFlags(c.core.reg))), 0)
  {}

  lemma RestoreKeeps(c: Client, items: seq<int>)
    requires TablesOk(c)
    ensures TablesOk(Restore(c, items))
  {
    var reset := c.(core := c.core.(reg := ResetDefinedFlags(c.core.reg)));
    ResetSame(c);
    SameKeeps(c, reset, 0);
    ApplyAllKeeps(reset, items);
  }

  // ---- growing the registry ----

  /** The registry may have grown: new slots, new ids, but no id and no slot of the tables changed. */
  ghost predicate Grows(r: Reg, q: Reg) {
    && r.slots <= q.slots
    && r.counters.nextSubId <= q.counters.nextSubId && r.counters.nextVarId <= q.counters.nextVarId
    && r.counters.nextGetManyId <= q.counters.nextGetManyId
    && (forall id :: 0 < id < r.counters.nextSubId ==>
          (id in r.idToKey <==> id in q.idToKey) && (id in r.idToKey ==> q.idToKey[id] == r.idToKey[id]))
  }

  lemma SubGrows(r: Reg, q: Reg, s: int, i: Info)
    requires SubOk(r, s, i) && Grows(r, q)
    ensures SubOk(q, s, i)
  {
    assert q.slots[i.slot] == r.slots[i.slot];
  }

  lemma GrowKeeps(c: Client, d: Client)
    requires TablesOk(c) && Grows(c.core.reg, d.core.reg) && Sound(d.core.reg) && InBounds(d.core.reg)
    requires d == c.(core := c.core.(reg := d.core.reg))
    ensures TablesOk(d)
  {
    forall s | s in d.subs ensures SubOk(d.core.reg, s, d.subs[s]) {
      SubGrows(c.core.reg, d.core.reg, s, c.subs[s]);
    }
    forall b | b in d.pending ensures PendingOk(d.core.reg, d.subs, b, d.pending[b]) {
      assert PendingOk(c.core.reg, c.subs, b, c.pending[b]);
      if b in c.subs {
        assert SubOk(c.core.reg, b, c.subs[b]);
      }
    }
    forall x | x in d.composites ensures CompositeOk(d, x) {
      assert CompositeOk(c, x);
    }
  }

  /** Entering a new subscription under the id just drawn. */
  lemma EnterKeeps(c: Client, d: Client, sid: int, info: Info)
    requires TablesOk(c) && sid !in c.composites && sid !in c.pending && sid < c.core.reg.counters.nextSubId
    requires d == c.(subs := c.subs[sid := info]) && SubOk(c.core.reg, sid, info)
    ensures TablesOk(d)
  {
    forall b | b in d.pending ensures PendingOk(d.core.reg, d.subs, b, d.pending[b]) {
      assert PendingOk(c.core.reg, c.subs, b, c.pending[b]);
    }
    forall x | x in d.composites ensures CompositeOk(d, x) {
      assert CompositeOk(c, x);
    }
  }

  /** An id not drawn yet occurs nowhere. */
  lemma NextIsFresh(c: Client)
    requires TablesOk(c) && c.core.reg.counters.nextSubId < VAR_ID_START
    ensures var s := c.core.reg.counters.nextSubId;
      s !in c.subs && s !in c.composites && s !in c.pending && s !in c.core.reg.idToKey
  {}

  lemma AddSingleKeeps(c: Client, name: string, unit: string, dtype: int, period: int)
    requires TablesOk(c) && InBounds(AddSingle(c, name, unit, dtype, period).core.reg)
    ensures TablesOk(AddSingle(c, name, unit, dtype, period))
  {
    NextIsFresh(c);
    var sid, r := c.core.reg.counters.nextSubId, AllocSubscriptionId(c.core.reg);
    var d := AddSingle(c, name, unit, dtype, period);
    assert Sound(r) by { assert forall k :: k in r.vars ==> SoundEntry(c.core.reg, k) ==> SoundEntry(r, k); }
    BindSound(r, sid, name, unit, dtype);
    var grown := c.(core := d.core);
    GrowKeeps(c, grown);
    EnterKeeps(grown, d, sid, d.subs[sid]);
  }

  lemma AddMultiKeeps(c: Client, fields: seq<ParsedField>, period: int)
    requires TablesOk(c) && InBounds(AddMulti(c, fields, period).core.reg) && AllNumeric(fields)
    ensures TablesOk(AddMulti(c, fields, period))
  {
    NextIsFresh(c);
    var sid, r := c.core.reg.counters.nextSubId, AllocSubscriptionId(c.core.reg);
    var d := AddMulti(c, fields, period);
    assert Sound(r) by { assert forall k :: k in r.vars ==> SoundEntry(c.core.reg, k) ==> SoundEntry(r, k); }
    NewSlotSound(r, VarSlot(sid, "", "", FLOAT64, false));
    var grown := c.(core := d.core);
    GrowKeeps(c, grown);
    EnterKeeps(grown, d, sid, d.subs[sid]);
  }

  lemma ApplyIfReadyKeeps(c: Client, sid: int)
    requires TablesOk(c) && sid in c.subs
    ensures TablesOk(ApplyIfReady(c, sid).0)
    ensures ApplyIfReady(c, sid).0.core.reg.counters == c.core.reg.counters
    ensures ApplyIfReady(c, sid).0.composites == c.composites && ApplyIfReady(c, sid).0.subs.Keys == c.subs.Keys
  {
    if Ready(c) {
      assert SubOk(c.core.reg, sid, c.subs[sid]);
      ApplyAtSame(c, sid);
      ApplyAtKeeps(c, sid);
    }
  }

  lemma SubscribeKeeps(c: Client, name: string, unit: string, dtype: int, period: int)
    requires TablesOk(c) && InBounds(Subscribe(c, name, unit, dtype, period).0.core.reg)
    ensures TablesOk(Subscribe(c, name, unit, dtype, period).0)
  {
    if period >= 0 && dtype >= 0 {
      var added, sid := AddSingle(c, name, unit, dtype, period), c.core.reg.counters.nextSubId;
      assert InBounds(added.core.reg) by { ApplyIfReadyCounters(added, sid); }
      AddSingleKeeps(c, name, unit, dtype, period);
      ApplyIfReadyKeeps(added, sid);
    }
  }

  /** Applying changes nothing in a registry but slots. */
  lemma ApplyOnlySlots(k: Core, sid: int, info: Info)
    ensures var q := Apply(k, sid, info).core.reg; q == k.reg.(slots := q.slots)
  {
    var id := if info.Multi? then sid else SlotAt(k.reg, info.slot).defineId;
    var prepared := PrepareDefinition(k, id);
    assert prepared.reg == k.reg.(slots := prepared.reg.slots);
    var defined := EnsureVarDefined(prepared, info.slot).0;
    assert defined.reg == k.reg.(slots := defined.reg.slots);
  }

  lemma ApplyIfReadyCounters(c: Client, sid: int)
    requires sid in c.subs
    ensures ApplyIfReady(c, sid).0.core.reg.counters == c.core.reg.counters
  {
    ApplyOnlySlots(c.core, sid, c.subs[sid]);
  }
}
