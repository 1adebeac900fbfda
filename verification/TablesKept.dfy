/** The table invariant through the remaining operations of the client. */
module TablesKept {
  import opened Wrappers
  import opened Parsing
  import opened Fields
  import opened RegistryState
  import opened Remote
  import opened Client
  import opened Tables

  predicate Leq(n: Counters, m: Counters) {
    n.nextVarId <= m.nextVarId && n.nextSubId <= m.nextSubId && n.nextGetManyId <= m.nextGetManyId
  }

  lemma BoundsBelow(r: Reg, q: Reg)
    requires InBounds(q) && Leq(r.counters, q.counters)
    ensures InBounds(r)
  {}

  // ---- subscribe_many ----

  lemma SubscribeCounts(c: Client, name: string, unit: string, dtype: int, period: int)
    ensures Leq(c.core.reg.counters, Subscribe(c, name, unit, dtype, period).0.core.reg.counters)
    ensures period >= 0 && dtype >= 0 ==>
      Subscribe(c, name, unit, dtype, period).0.core.reg.counters.nextSubId == c.core.reg.counters.nextSubId + 1
  {
    if period >= 0 && dtype >= 0 {
      ApplyIfReadyCounters(AddSingle(c, name, unit, dtype, period), c.core.reg.counters.nextSubId);
    }
  }

  lemma SubscribeNumericCounts(c: Client, fields: seq<ParsedField>, period: int)
    ensures SubscribeNumeric(c, fields, period).0.core.reg.counters == AllocSubscriptionId(c.core.reg).counters
  {
    ApplyIfReadyCounters(AddMulti(c, fields, period), c.core.reg.counters.nextSubId);
  }

  lemma SubscribeNumericKeeps(c: Client, fields: seq<ParsedField>, period: int)
    requires TablesOk(c) && AllNumeric(fields) && InBounds(SubscribeNumeric(c, fields, period).0.core.reg)
    ensures TablesOk(SubscribeNumeric(c, fields, period).0)
  {
    SubscribeNumericCounts(c, fields, period);
    AddMultiKeeps(c, fields, period);
    ApplyIfReadyKeeps(AddMulti(c, fields, period), c.core.reg.counters.nextSubId);
  }

  lemma {:induction false} SubscribeStringsCounts(c: Client, fields: seq<ParsedField>, period: int)
    requires period >= 0
    ensures var (d, ok) := SubscribeStrings(c, fields, period);
      && Leq(c.core.reg.counters, d.core.reg.counters)
      && (ok ==> d.core.reg.counters.nextSubId == c.core.reg.counters.nextSubId + |fields|)
    decreases |fields|
  {
    if fields != [] {
      SubscribeCounts(c, fields[0].name, "", STRINGV, period);
      SubscribeStringsCounts(Subscribe(c, fields[0].name, "", STRINGV, period).0, fields[1..], period);
    }
  }

  /** The text subscriptions of a subscribe_many keep the tables, also when one of them raises half-way. */
  lemma {:induction false} SubscribeStringsKeeps(c: Client, fields: seq<ParsedField>, period: int)
    requires TablesOk(c) && period >= 0 && InBounds(SubscribeStrings(c, fields, period).0.core.reg)
    ensures TablesOk(SubscribeStrings(c, fields, period).0)
    decreases |fields|
  {
    if fields != [] {
      var (d, ok) := Subscribe(c, fields[0].name, "", STRINGV, period);
      if ok {
        SubscribeStringsCounts(d, fields[1..], period);
        BoundsBelow(d.core.reg, SubscribeStrings(c, fields, period).0.core.reg);
      }
      SubscribeKeeps(c, fields[0].name, "", STRINGV, period);
      if ok {
        SubscribeStringsKeeps(d, fields[1..], period);
      }
    }
  }

  // ---- the composite id stays unused until it is entered ----

  ghost predicate Unused(c: Client, id: int) {
    && 0 < id < c.core.reg.counters.nextSubId && id !in c.subs && id !in c.composites
    && forall x :: x in c.composites ==> id !in c.composites[x]
  }

  lemma SubscribeUnused(c: Client, name: string, unit: string, dtype: int, period: int, id: int)
    requires TablesOk(c) && Unused(c, id)
    ensures Unused(Subscribe(c, name, unit, dtype, period).0, id)
    ensures Subscribe(c, name, unit, dtype, period).0.composites == c.composites
  {
    SubscribeCounts(c, name, unit, dtype, period);
    var d := Subscribe(c, name, unit, dtype, period).0;
    assert forall s :: s in d.subs ==> s in c.subs || s == c.core.reg.counters.nextSubId;
  }

  lemma {:induction false} SubscribeStringsUnused(c: Client, fields: seq<ParsedField>, period: int, id: int)
    requires TablesOk(c) && Unused(c, id) && period >= 0
    requires InBounds(SubscribeStrings(c, fields, period).0.core.reg)
    ensures Unused(SubscribeStrings(c, fields, period).0, id)
    ensures SubscribeStrings(c, fields, period).0.composites == c.composites
    decreases |fields|
  {
    if fields != [] {
      var (d, ok) := Subscribe(c, fields[0].name, "", STRINGV, period);
      SubscribeUnused(c, fields[0].name, "", STRINGV, period, id);
      if ok {
        SubscribeStringsCounts(d, fields[1..], period);
        BoundsBelow(d.core.reg, SubscribeStrings(c, fields, period).0.core.reg);
        SubscribeKeeps(c, fields[0].name, "", STRINGV, period);
        SubscribeStringsUnused(d, fields[1..], period, id);
      }
    }
  }

  lemma ReserveKeeps(c: Client)
    requires TablesOk(c) && c.core.reg.counters.nextSubId < VAR_ID_START
    ensures var d := c.(core := c.core.(reg := AllocSubscriptionId(c.core.reg)));
      TablesOk(d) && Unused(d, c.core.reg.counters.nextSubId)
  {
    var d := c.(core := c.core.(reg := AllocSubscriptionId(c.core.reg)));
    NextIsFresh(c);
    assert Sound(d.core.reg) by {
      assert forall k :: k in c.core.reg.vars ==> SoundEntry(c.core.reg, k) ==> SoundEntry(d.core.reg, k);
    }
    GrowKeeps(c, d);
    assert forall x :: x in c.composites ==> CompositeOk(c, x);
  }

  lemma NumericUnused(c: Client, fields: seq<ParsedField>, period: int, id: int)
    requires TablesOk(c) && Unused(c, id)
    ensures Unused(SubscribeNumeric(c, fields, period).0, id)
    ensures SubscribeNumeric(c, fields, period).0.composites == c.composites
  {
    SubscribeNumericCounts(c, fields, period);
    var d := SubscribeNumeric(c, fields, period).0;
    assert forall s :: s in d.subs ==> s in c.subs || s == c.core.reg.counters.nextSubId;
  }

  lemma EnterCompositeKeeps(c: Client, id: int, children: seq<int>)
    requires TablesOk(c) && Unused(c, id)
    requires forall child :: child in children ==>
      id < child < c.core.reg.counters.nextSubId && child !in c.composites
    ensures TablesOk(c.(composites := c.composites[id := children]))
  {
    var d := c.(composites := c.composites[id := children]);
    forall x | x in d.composites ensures CompositeOk(d, x) {
      if x != id {
        assert CompositeOk(c, x);
        forall child | child in d.composites[x] ensures child !in d.composites {
          assert child in c.composites[x];
        }
      }
    }
  }

  /** The children: an id is a composite only below the id being made. */
  ghost predicate CompositesBelow(c: Client, id: int) { forall x :: x in c.composites ==> x < id }

  lemma CompositesAreBelow(c: Client)
    requires TablesOk(c)
    ensures CompositesBelow(c, c.core.reg.counters.nextSubId)
  {
    assert forall x :: x in c.composites ==> CompositeOk(c, x);
  }

  lemma SubscribeCompositeKeeps(c: Client, numeric: seq<ParsedField>, strings: seq<ParsedField>, period: int)
    requires TablesOk(c) && AllNumeric(numeric) && period >= 0
    requires InBounds(SubscribeComposite(c, numeric, strings, period).0.core.reg)
    ensures TablesOk(SubscribeComposite(c, numeric, strings, period).0)
  {
    var cid := c.core.reg.counters.nextSubId;
    var d := SubscribeComposite(c, numeric, strings, period).0;
    var reserved := c.(core := c.core.(reg := AllocSubscriptionId(c.core.reg)));
    var (first, ok1) := if numeric == [] then (reserved, true) else SubscribeNumeric(reserved, numeric, period);
    SubscribeNumericCounts(reserved, numeric, period);
    var (all, ok) := SubscribeStrings(first, strings, period);
    SubscribeStringsCounts(first, strings, period);
    BoundsBelow(first.core.reg, d.core.reg);
    CompositesAreBelow(c);
    ReserveKeeps(c);
    if numeric != [] {
      NumericUnused(reserved, numeric, period, cid);
      SubscribeNumericKeeps(reserved, numeric, period);
    }
    if ok1 {
      SubscribeStringsKeeps(first, strings, period);
      SubscribeStringsUnused(first, strings, period, cid);
      if ok {
        EnterCompositeKeeps(all, cid, Ids(cid + 1, |strings| + if numeric == [] then 0 else 1));
      }
    }
  }

  lemma SubscribeManyKeeps(c: Client, parsed: seq<ParsedField>, period: int)
    requires TablesOk(c) && InBounds(SubscribeMany(c, parsed, period).0.core.reg)
    ensures TablesOk(SubscribeMany(c, parsed, period).0)
  {
    if period >= 0 && forall f :: f in parsed ==> Supported(f) {
      NumericHalfHasLayout(parsed);
      if Strings(parsed) == [] {
        SubscribeNumericKeeps(c, Numeric(parsed), period);
      } else {
        SubscribeCompositeKeeps(c, Numeric(parsed), Strings(parsed), period);
      }
    }
  }

  // ---- unsubscribe, resubscribe ----

  lemma UnsubscribeOneKeeps(c: Client, sid: int)
    requires TablesOk(c)
    ensures TablesOk(UnsubscribeOne(c, sid))
  {
    if sid in c.subs {
      var d := UnsubscribeOne(c, sid);
      ReleaseSound(c.core.reg, sid);
      StopTouches(c.core, sid);
      forall s | s in d.subs ensures SubOk(d.core.reg, s, d.subs[s]) {
        assert SubOk(c.core.reg, s, c.subs[s]);
      }
      forall b | b in d.pending ensures PendingOk(d.core.reg, d.subs, b, d.pending[b]) {
        assert PendingOk(c.core.reg, c.subs, b, c.pending[b]);
      }
      forall x | x in d.composites ensures CompositeOk(d, x) {
        assert CompositeOk(c, x);
      }
    }
  }

  lemma {:induction false} UnsubscribeAllKeeps(c: Client, sids: seq<int>)
    requires TablesOk(c)
    ensures TablesOk(UnsubscribeAll(c, sids))
    decreases |sids|
  {
    if sids != [] {
      UnsubscribeOneKeeps(c, sids[0]);
      UnsubscribeAllKeeps(UnsubscribeOne(c, sids[0]), sids[1..]);
    }
  }

  lemma UnsubscribeKeeps(c: Client, sid: int)
    requires TablesOk(c)
    ensures TablesOk(Unsubscribe(c, sid))
  {
    if sid in c.composites {
      var d := c.(composites := c.composites - {sid});
      forall x | x in d.composites ensures CompositeOk(d, x) {
        assert CompositeOk(c, x);
      }
      UnsubscribeAllKeeps(d, c.composites[sid]);
    } else {
      UnsubscribeOneKeeps(c, sid);
    }
  }

  /** The subscription once its request and its definition are gone. */
  function Stopped(c: Client, sid: int): Client
    requires sid in c.subs
  {
    var stopped := if c.core.remote.open then ClearDefinition(RequestData(c.core.remote, sid, sid, PERIOD_NEVER), sid)
                   else c.core.remote;
    c.(core := c.core.(remote := stopped), subs := c.subs[sid := c.subs[sid].(typeRequested := false)])
  }

  lemma StoppedSame(c: Client, sid: int)
    requires sid in c.subs
    ensures Same(c, Stopped(c, sid), sid) && Stopped(c, sid).pending == c.pending
  {
    StopTouches(c.core, sid);
  }

  lemma ResubscribeOneKeeps(c: Client, sid: int)
    requires TablesOk(c)
    ensures TablesOk(ResubscribeOne(c, sid).0)
  {
    if sid in c.subs {
      assert SubOk(c.core.reg, sid, c.subs[sid]);
      StoppedSame(c, sid);
      SameKeeps(c, Stopped(c, sid), sid);
      ApplyAtKeeps(Stopped(c, sid), sid);
    }
  }

  lemma {:induction false} ResubscribeAllKeeps(c: Client, sids: seq<int>)
    requires TablesOk(c)
    ensures TablesOk(ResubscribeAll(c, sids))
    decreases |sids|
  {
    if sids != [] {
      ResubscribeOneKeeps(c, sids[0]);
      ResubscribeAllKeeps(ResubscribeOne(c, sids[0]).0, sids[1..]);
    }
  }

  lemma MarkKeeps(c: Client, sid: int, typeRequested: bool)
    requires TablesOk(c) && sid in c.subs
    ensures TablesOk(Mark(c, sid, typeRequested))
  {
    SameKeeps(c, Mark(c, sid, typeRequested), 0);
  }

  lemma AskedKeeps(c: Client, id: int)
    requires TablesOk(c) && 0 < id < TYPE_REQ_OFFSET && Issued(c.core.reg.counters, id)
    ensures TablesOk(c.(core := c.core.(remote := RequestDataOnType(c.core.remote, id + TYPE_REQ_OFFSET, id))))
  {
    AskTouches(c.core, id);
    SameKeeps(c, c.(core := c.core.(remote := RequestDataOnType(c.core.remote, id + TYPE_REQ_OFFSET, id))), id);
  }

  lemma RepollKeeps(c: Client, sid: int)
    requires TablesOk(c)
    ensures TablesOk(Repoll(c, sid))
  {
    if Ready(c) && sid in c.subs {
      assert SubOk(c.core.reg, sid, c.subs[sid]);
      MarkKeeps(c, sid, false);
      AskedKeeps(c, sid);
      MarkKeeps(c.(core := c.core.(remote := RequestDataOnType(c.core.remote, sid + TYPE_REQ_OFFSET, sid))), sid,
                Accepts(c.core.remote));
    }
  }

  // ---- get and set ----

  /** The variable is looked up or made, then its definition is refreshed. */
  function WithVar(c: Client, name: string, unit: string, dtype: int): Client {
    c.(core := c.core.(reg := GetOrCreateVar(c.core.reg, name, unit, dtype).0))
  }

  function VarId(c: Client, name: string, unit: string, dtype: int): int {
    var (reg, ref) := GetOrCreateVar(c.core.reg, name, unit, dtype);
    SlotAt(reg, ref).defineId
  }

  lemma WithVarKeeps(c: Client, name: string, unit: string, dtype: int)
    requires TablesOk(c) && InBounds(WithVar(c, name, unit, dtype).core.reg)
    ensures var d := WithVar(c, name, unit, dtype); var id := VarId(c, name, unit, dtype);
      TablesOk(d) && Grows(c.core.reg, d.core.reg) && id in d.core.reg.idToKey
      && d.core.reg.idToKey[id] == KeyOf(name, unit, dtype)
  {
    var key := KeyOf(name, unit, dtype);
    if key in c.core.reg.vars {
      assert SoundEntry(c.core.reg, key);
    } else {
      CreateSound(c.core.reg, name, unit, dtype);
      GrowKeeps(c, WithVar(c, name, unit, dtype));
    }
  }

  lemma DefineVarTouches(c: Client, name: string, unit: string, dtype: int)
    ensures var (k, ref, ok) := DefineVar(c.core, name, unit, dtype);
      Touches(WithVar(c, name, unit, dtype).core, k, VarId(c, name, unit, dtype))
      && SlotAt(k.reg, ref).defineId == VarId(c, name, unit, dtype)
  {
    var (reg, ref) := GetOrCreateVar(c.core.reg, name, unit, dtype);
    var k, id := c.core.(reg := reg), SlotAt(reg, ref).defineId;
    PrepareTouches(k, id);
    var prepared := PrepareDefinition(k, id);
    EnsureTouches(prepared, ref);
    TouchesTrans(k, prepared, EnsureVarDefined(prepared, ref).0, id);
  }

  lemma BeginGetRegistry(c: Client, name: string, unit: string, dtype: int)
    requires dtype >= 0 && Ready(c)
    ensures var e := BeginGet(c, name, unit, dtype).0;
      e.subs == c.subs && e.core.reg == DefineVar(c.core, name, unit, dtype).0.reg
  {}

  /** A get finds its key registered under the id it asks with. */
  lemma DefinedIsRegistered(c: Client, name: string, unit: string, dtype: int)
    requires TablesOk(c) && InBounds(WithVar(c, name, unit, dtype).core.reg)
    ensures var r, key := DefineVar(c.core, name, unit, dtype).0.reg, KeyOf(name, unit, dtype);
      key in r.vars && SlotAt(r, r.vars[key]).defineId == VarId(c, name, unit, dtype)
  {
    var k, key := WithVar(c, name, unit, dtype), KeyOf(name, unit, dtype);
    WithVarKeeps(c, name, unit, dtype);
    DefineVarTouches(c, name, unit, dtype);
    assert key in k.core.reg.vars && SoundEntry(k.core.reg, key);
  }

  lemma DefinedKeeps(c: Client, name: string, unit: string, dtype: int)
    requires TablesOk(c) && InBounds(DefineVar(c.core, name, unit, dtype).0.reg)
    ensures var k := DefineVar(c.core, name, unit, dtype).0; var id := VarId(c, name, unit, dtype);
      TablesOk(c.(core := k)) && id in k.reg.idToKey && k.reg.idToKey[id] == KeyOf(name, unit, dtype)
      && (0 < id < k.reg.counters.nextSubId || VAR_ID_START <= id < k.reg.counters.nextVarId)
  {
    DefineVarTouches(c, name, unit, dtype);
    WithVarKeeps(c, name, unit, dtype);
    var d := c.(core := DefineVar(c.core, name, unit, dtype).0);
    SameKeeps(WithVar(c, name, unit, dtype), d, VarId(c, name, unit, dtype));
  }

  lemma AskTouches(k: Core, id: int)
    requires 0 < id < TYPE_REQ_OFFSET
    ensures Touches(k, k.(remote := RequestDataOnType(k.remote, id + TYPE_REQ_OFFSET, id)), id)
  {
    CalledKeeps(k.remote);
  }

  lemma PendingKeeps(c: Client, b: int, p: Pending)
    requires TablesOk(c) && PendingOk(c.core.reg, c.subs, b, p)
    ensures TablesOk(c.(pending := c.pending[b := p]))
  {
    forall x | x in c.composites ensures CompositeOk(c.(pending := c.pending[b := p]), x) {
      assert CompositeOk(c, x);
    }
  }

  lemma NotPendingKeeps(c: Client, b: int)
    requires TablesOk(c)
    ensures TablesOk(c.(pending := c.pending - {b}))
  {
    forall x | x in c.composites ensures CompositeOk(c.(pending := c.pending - {b}), x) {
      assert CompositeOk(c, x);
    }
  }

  lemma AskKeeps(c: Client, id: int, p: Pending)
    requires TablesOk(c) && 0 < id < TYPE_REQ_OFFSET && Issued(c.core.reg.counters, id)
    requires PendingOk(c.core.reg, c.subs, id, p)
    ensures TablesOk(Ask(c, id, p).0)
  {
    var asked := c.(core := c.core.(remote := RequestDataOnType(c.core.remote, id + TYPE_REQ_OFFSET, id)));
    AskedKeeps(c, id);
    PendingKeeps(asked, id, p);
    NotPendingKeeps(asked, id);
  }

  lemma BeginGetKeeps(c: Client, name: string, unit: string, dtype: int)
    requires TablesOk(c) && InBounds(BeginGet(c, name, unit, dtype).0.core.reg)
    ensures TablesOk(BeginGet(c, name, unit, dtype).0)
  {
    if dtype >= 0 && Ready(c) {
      DefineVarTouches(c, name, unit, dtype);
      DefinedKeeps(c, name, unit, dtype);
      var (k, ref, ok) := DefineVar(c.core, name, unit, dtype);
      if ok {
        GetFits(c.(core := k), VarId(c, name, unit, dtype), KeyOf(name, unit, dtype));
        AskKeeps(c.(core := k), VarId(c, name, unit, dtype), GetOne(KeyOf(name, unit, dtype), dtype, None));
      }
    }
  }

  /** A get on the id of a live subscription asks for that subscription's key. */
  lemma GetFits(c: Client, id: int, key: VarKey)
    requires TablesOk(c) && id in c.core.reg.idToKey && c.core.reg.idToKey[id] == key
    ensures PendingOk(c.core.reg, c.subs, id, GetOne(key, key.dtype, None))
  {
    if id in c.subs {
      assert SubOk(c.core.reg, id, c.subs[id]);
    }
  }

  lemma SpentClientKeeps(c: Client, calls: nat)
    requires TablesOk(c)
    ensures TablesOk(c.(core := c.core.(remote := Spent(c.core.remote, calls))))
  {
    SpentKeeps(c.core.remote, calls);
    SameKeeps(c, c.(core := c.core.(remote := Spent(c.core.remote, calls))), 0);
  }

  lemma SetVarDirectKeeps(c: Client, name: string, unit: string, dtype: int)
    requires TablesOk(c) && InBounds(SetVarDirect(c, name, unit, dtype).core.reg)
    ensures TablesOk(SetVarDirect(c, name, unit, dtype))
  {
    DefinedKeeps(c, name, unit, dtype);
    var d := c.(core := DefineVar(c.core, name, unit, dtype).0);
    SpentKeeps(d.core.remote, 1);
    SpentClientKeeps(d, 1);
  }

  lemma DrawGetManyKeeps(c: Client)
    requires TablesOk(c) && c.core.reg.counters.nextGetManyId < TYPE_REQ_OFFSET
    ensures var d := c.(core := c.core.(reg := AllocGetManyId(c.core.reg)));
      TablesOk(d) && c.core.reg.counters.nextGetManyId !in d.subs
  {
    var d := c.(core := c.core.(reg := AllocGetManyId(c.core.reg)));
    assert Sound(d.core.reg) by {
      assert forall k :: k in c.core.reg.vars ==> SoundEntry(c.core.reg, k) ==> SoundEntry(d.core.reg, k);
    }
    GrowKeeps(c, d);
  }

  lemma ClearTouches(k: Core, id: int)
    ensures Touches(k, k.(remote := ClearDefinition(k.remote, id)), id)
  {
    CalledKeeps(k.remote);
  }

  lemma DefineManyTouches(k: Core, fields: seq<ParsedField>)
    ensures Touches(k.(reg := AllocGetManyId(k.reg)), DefineMany(k, fields).0, k.reg.counters.nextGetManyId)
  {
    var id, drawn := k.reg.counters.nextGetManyId, k.(reg := AllocGetManyId(k.reg));
    PrepareTouches(drawn, id);
    AddAllFrame(PrepareDefinition(drawn, id).remote, id, RemoteFields(fields));
    TouchesTrans(drawn, PrepareDefinition(drawn, id), DefineMany(k, fields).0, id);
  }

  lemma DefineManyKeeps(c: Client, fields: seq<ParsedField>)
    requires TablesOk(c) && c.core.reg.counters.nextGetManyId < TYPE_REQ_OFFSET
    ensures TablesOk(c.(core := DefineMany(c.core, fields).0))
  {
    DefineManyTouches(c.core, fields);
    DrawGetManyKeeps(c);
    SameKeeps(c.(core := c.core.(reg := AllocGetManyId(c.core.reg))), c.(core := DefineMany(c.core, fields).0),
              c.core.reg.counters.nextGetManyId);
  }

  lemma ClearKeeps(c: Client, id: int)
    requires TablesOk(c) && Issued(c.core.reg.counters, id)
    ensures TablesOk(c.(core := c.core.(remote := ClearDefinition(c.core.remote, id))))
  {
    ClearTouches(c.core, id);
    SameKeeps(c, c.(core := c.core.(remote := ClearDefinition(c.core.remote, id))), id);
  }

  lemma GetManyAskKeeps(c: Client, k: Core, id: int, layout: seq<Slice>)
    requires TablesOk(c.(core := k)) && GET_MANY_ID_START <= id < k.reg.counters.nextGetManyId
    ensures var (asked, _) := Ask(c.(core := k), id, GetMany(layout, None));
      TablesOk(asked) && TablesOk(asked.(core := asked.core.(remote := ClearDefinition(asked.core.remote, id))))
  {
    AskKeeps(c.(core := k), id, GetMany(layout, None));
    ClearKeeps(Ask(c.(core := k), id, GetMany(layout, None)).0, id);
  }

  lemma BeginGetManyKeeps(c: Client, fields: seq<ParsedField>)
    requires TablesOk(c) && c.core.reg.counters.nextGetManyId < TYPE_REQ_OFFSET
    ensures TablesOk(BeginGetMany(c, fields).0)
  {
    if Ready(c) && AllNumeric(fields) {
      var (k, ok) := DefineMany(c.core, fields);
      DefineManyTouches(c.core, fields);
      DefineManyKeeps(c, fields);
      GetManyAskKeeps(c, k, c.core.reg.counters.nextGetManyId, Layout(fields));
    }
  }

  lemma EndGetKeeps(c: Client, id: int)
    requires TablesOk(c)
    ensures TablesOk(EndGet(c, id))
  {
    if id in c.pending {
      assert PendingOk(c.core.reg, c.subs, id, c.pending[id]);
      ClearKeeps(c, id);
      var cleared := c.(core := c.core.(remote := ClearDefinition(c.core.remote, id)));
      NotPendingKeeps(c, id);
      NotPendingKeeps(cleared, id);
    }
  }

  lemma AnswerKeeps(c: Client, p: Packet)
    requires TablesOk(c)
    ensures TablesOk(Answer(c, p))
  {
    var id := LookupPending(c, p.requestId);
    if id.Some? {
      assert PendingOk(c.core.reg, c.subs, id.value, c.pending[id.value]);
      PendingKeeps(c, id.value, Answer(c, p).pending[id.value]);
    }
  }

  // ---- the session ----

  lemma SessionKeeps(c: Client, d: Client)
    requires TablesOk(c) && d == c.(core := c.core.(remote := d.core.remote), openReceived := d.openReceived)
    requires d.core.remote.requests == map[] || d.core.remote == c.core.remote
    requires d.openReceived ==> d.core.remote.open
    ensures TablesOk(d)
  {
    forall x | x in c.composites ensures CompositeOk(d, x) {
      assert CompositeOk(c, x);
    }
  }

  lemma OpenKeeps(c: Client)
    requires TablesOk(c)
    ensures TablesOk(Open(c)) && TablesOk(OnQuit(c))
  {
    SessionKeeps(c, Open(c));
    SessionKeeps(c, OnQuit(c));
  }

  lemma OnOpenKeeps(c: Client, items: seq<int>)
    requires TablesOk(c) && c.core.remote.open
    ensures TablesOk(OnOpen(c, items))
  {
    SessionKeeps(c, c.(openReceived := true));
    RestoreKeeps(c.(openReceived := true), items);
  }

  lemma CloseKeeps(c: Client, hung: bool)
    requires TablesOk(c)
    ensures TablesOk(Close(c, hung))
  {
    var reset := c.(core := c.core.(reg := Close(c, hung).core.reg));
    ResetSame(c);
    SameKeeps(c, reset, 0);
    SessionKeeps(reset, Close(c, hung));
  }
}
