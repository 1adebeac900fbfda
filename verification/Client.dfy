/** The client's tables as a value, and what each API call and each message handler does to them. */
module Client {
  import opened Wrappers
  import opened Bytes
  import opened Parsing
  import opened Fields
  import opened RegistryState
  import opened Remote

  /** The entry of one live subscription. */
  datatype Info =
    | Single(slot: SlotRef, period: int, typeRequested: bool)
    | Multi(slot: SlotRef, period: int, typeRequested: bool, fields: seq<ParsedField>, layout: seq<Slice>)

  /** The entry of a waiting get or get_many; `key` records what a get asked for. */
  datatype Pending =
    | GetOne(key: VarKey, dtype: int, one: Option<Value>)
    | GetMany(layout: seq<Slice>, many: Option<map<string, Value>>)

  datatype Core = Core(reg: Reg, remote: Remote)

  datatype Client = Client(
    core: Core,
    subs: map<int, Info>,
    composites: map<int, seq<int>>,
    pending: map<int, Pending>,
    openReceived: bool
  )

  function Init(script: seq<int>): Client {
    Client(Core(EmptyRegistry(), Remote(false, map[], map[], script)), map[], map[], map[], false)
  }

  predicate Ready(c: Client) { c.core.remote.open && c.openReceived }

  // ---- definitions ----

  function SlotField(s: VarSlot): Field { Field(s.varName, UnitForDefinition(s.unit, s.dtype), s.dtype) }

  function RemoteField(f: ParsedField): Field { Field(f.name, UnitForDefinition(f.unit, f.dtype), f.dtype) }

  function RemoteFields(fields: seq<ParsedField>): (r: seq<Field>)
    ensures |r| == |fields| && forall i :: 0 <= i < |fields| ==> r[i] == RemoteField(fields[i])
  {
    seq(|fields|, i requires 0 <= i < |fields| => RemoteField(fields[i]))
  }

  /** Whether `_prepare_definition` finds a slot to undefine. */
  predicate Undefines(r: Reg, id: int) {
    var ref := GetVarByDefineId(r, id);
    ref.Some? && SlotAt(r, ref.value).defined
  }

  function PrepareDefinition(k: Core, id: int): Core {
    if !Undefines(k.reg, id) then k
    else Core(SetDefined(k.reg, GetVarByDefineId(k.reg, id).value, false),
              if k.remote.open then ClearDefinition(k.remote, id) else k.remote)
  }

  function EnsureVarDefined(k: Core, ref: SlotRef): (Core, bool)
  {
    var slot := SlotAt(k.reg, ref);
    var added := AddToDefinition(k.remote, slot.defineId, SlotField(slot));
    if slot.defined then (k, true)
    else if !Accepts(k.remote) then (k.(remote := added), false)
    else (Core(SetDefined(k.reg, ref, true), added), true)
  }

  /** The core after an attempt to apply a subscription, its `type_requested`, and whether no call failed. */
  datatype Applied = Applied(core: Core, typeRequested: bool, ok: bool)

  /** The requests that follow a complete definition. */
  function RequestBoth(k: Core, sid: int, id: int, info: Info): Applied {
    var asked := RequestData(k.remote, sid, id, info.period);
    var typed := RequestDataOnType(asked, sid + TYPE_REQ_OFFSET, id);
    if !Accepts(k.remote) then Applied(k.(remote := asked), info.typeRequested, false)
    else if !Accepts(asked) then Applied(k.(remote := typed), false, false)
    else Applied(k.(remote := typed), true, true)
  }

  /** Undefine, then define: what applying a single subscription, a get and a set have in common. */
  function DefineSlot(k: Core, ref: SlotRef): (Core, bool) {
    EnsureVarDefined(PrepareDefinition(k, SlotAt(k.reg, ref).defineId), ref)
  }

  function ApplySingle(k: Core, sid: int, info: Info): Applied {
    var id := SlotAt(k.reg, info.slot).defineId;
    var (defined, ok) := DefineSlot(k, info.slot);
    if ok then RequestBoth(defined, sid, id, info) else Applied(defined, info.typeRequested, false)
  }

  function ApplyMany(k: Core, sid: int, info: Info): Applied
    requires info.Multi?
  {
    var prepared := PrepareDefinition(k, sid);
    var (added, ok) := AddAll(prepared.remote, sid, RemoteFields(info.fields));
    if ok then RequestBoth(Core(SetDefined(prepared.reg, info.slot, true), added), sid, sid, info)
    else Applied(prepared.(remote := added), info.typeRequested, false)
  }

  function Apply(k: Core, sid: int, info: Info): Applied
  {
    if info.Multi? then ApplyMany(k, sid, info) else ApplySingle(k, sid, info)
  }

  // ---- applying to the tables ----

  function ApplyAt(c: Client, sid: int): (Client, bool)
    requires sid in c.subs
  {
    var a := Apply(c.core, sid, c.subs[sid]);
    (c.(core := a.core, subs := c.subs[sid := c.subs[sid].(typeRequested := a.typeRequested)]), a.ok)
  }

  /** `items` is the snapshot of the table that the restore walks through. */
  function ApplyAll(c: Client, items: seq<int>): Client
    decreases |items|
  {
    if items == [] then c
    else ApplyAll(if items[0] in c.subs then ApplyAt(c, items[0]).0 else c, items[1..])
  }

  function Restore(c: Client, items: seq<int>): Client {
    ApplyAll(c.(core := c.core.(reg := ResetDefinedFlags(c.core.reg))), items)
  }

  /** A snapshot lists every live subscription once. */
  ghost predicate Snapshot(c: Client, items: seq<int>) {
    && (forall s :: s in c.subs <==> s in items)
    && (forall i, j :: 0 <= i < j < |items| ==> items[i] != items[j])
  }

  // ---- subscribe ----

  function AddSingle(c: Client, name: string, unit: string, dtype: int, period: int): Client {
    var r := AllocSubscriptionId(c.core.reg);
    var sid := c.core.reg.counters.nextSubId;
    c.(core := c.core.(reg := BindSubscriptionVar(r, sid, name, unit, dtype)),
       subs := c.subs[sid := Single(Fresh(r), period, false)])
  }

  function AddMulti(c: Client, fields: seq<ParsedField>, period: int): Client {
    var r := AllocSubscriptionId(c.core.reg);
    var sid := c.core.reg.counters.nextSubId;
    c.(core := c.core.(reg := NewSlot(r, VarSlot(sid, "", "", FLOAT64, false))),
       subs := c.subs[sid := Multi(Fresh(r), period, false, fields, Layout(fields))])
  }

  /** Applied at once on a ready session, later otherwise; a failed application leaves the entry in. */
  function ApplyIfReady(c: Client, sid: int): (Client, bool)
    requires sid in c.subs
  {
    if Ready(c) then ApplyAt(c, sid) else (c, true)
  }

  /** The flag is false when the call raises. */
  function Subscribe(c: Client, name: string, unit: string, dtype: int, period: int): (Client, bool) {
    if period < 0 || dtype < 0 then (c, false)
    else ApplyIfReady(AddSingle(c, name, unit, dtype, period), c.core.reg.counters.nextSubId)
  }

  function SubscribeNumeric(c: Client, fields: seq<ParsedField>, period: int): (Client, bool) {
    ApplyIfReady(AddMulti(c, fields, period), c.core.reg.counters.nextSubId)
  }

  /** The string children of a composite, until one raises. */
  function SubscribeStrings(c: Client, fields: seq<ParsedField>, period: int): (Client, bool)
    decreases |fields|
  {
    if fields == [] then (c, true)
    else
      var (next, ok) := Subscribe(c, fields[0].name, "", STRINGV, period);
      if ok then SubscribeStrings(next, fields[1..], period) else (next, false)
  }

  function Ids(from_: int, count: nat): (r: seq<int>)
    ensures |r| == count && forall i :: 0 <= i < count ==> r[i] == from_ + i
  {
    seq(count, i => from_ + i)
  }

  function SubscribeComposite(c: Client, numeric: seq<ParsedField>, strings: seq<ParsedField>,
                              period: int): (Client, bool)
  {
    var cid := c.core.reg.counters.nextSubId;
    var reserved := c.(core := c.core.(reg := AllocSubscriptionId(c.core.reg)));
    var (first, ok) := if numeric == [] then (reserved, true) else SubscribeNumeric(reserved, numeric, period);
    if !ok then (first, false)
    else
      var (all, ok) := SubscribeStrings(first, strings, period);
      if !ok then (all, false)
      else (all.(composites := all.composites[cid := Ids(cid + 1, |strings| + if numeric == [] then 0 else 1)]), true)
  }

  function SubscribeMany(c: Client, parsed: seq<ParsedField>, period: int): (Client, bool) {
    if period < 0 || exists f :: f in parsed && !Supported(f) then (c, false)
    else if Strings(parsed) == [] then SubscribeNumeric(c, Numeric(parsed), period)
    else SubscribeComposite(c, Numeric(parsed), Strings(parsed), period)
  }

  // ---- unsubscribe, resubscribe ----

  function UnsubscribeOne(c: Client, sid: int): Client {
    if sid !in c.subs then c
    else
      var rest := c.(subs := c.subs - {sid});
      if !c.core.remote.open then rest
      else
        var cleared := ClearDefinition(RequestData(c.core.remote, sid, sid, PERIOD_NEVER), sid);
        var releases := c.subs[sid].Multi? || GetVarByDefineId(c.core.reg, sid).Some?;
        rest.(core := Core(if releases then ReleaseDefineId(c.core.reg, sid) else c.core.reg, cleared))
  }

  function UnsubscribeAll(c: Client, sids: seq<int>): Client
    decreases |sids|
  {
    if sids == [] then c else UnsubscribeAll(UnsubscribeOne(c, sids[0]), sids[1..])
  }

  /** The children of a composite are never composites themselves. */
  function Unsubscribe(c: Client, sid: int): Client {
    if sid in c.composites then UnsubscribeAll(c.(composites := c.composites - {sid}), c.composites[sid])
    else UnsubscribeOne(c, sid)
  }

  function ResubscribeOne(c: Client, sid: int): (Client, bool)
  {
    if sid !in c.subs then (c, false)
    else
      var stopped := if c.core.remote.open then ClearDefinition(RequestData(c.core.remote, sid, sid, PERIOD_NEVER), sid)
                     else c.core.remote;
      ApplyAt(c.(core := c.core.(remote := stopped), subs := c.subs[sid := c.subs[sid].(typeRequested := false)]), sid)
  }

  function ResubscribeAll(c: Client, sids: seq<int>): Client
    decreases |sids|
  {
    if sids == [] then c else ResubscribeAll(ResubscribeOne(c, sids[0]).0, sids[1..])
  }

  /** Whether every recovery of the list succeeds; the rest is tried after a failure all the same. */
  predicate AllRecover(c: Client, sids: seq<int>)
    decreases |sids|
  {
    sids == [] || (AllRecover(ResubscribeOne(c, sids[0]).0, sids[1..]) && ResubscribeOne(c, sids[0]).1)
  }

  function Resubscribe(c: Client, sid: int): Client {
    ResubscribeAll(c, if sid in c.composites then c.composites[sid] else [sid])
  }

  function Mark(c: Client, sid: int, typeRequested: bool): Client
    requires sid in c.subs
  {
    c.(subs := c.subs[sid := c.subs[sid].(typeRequested := typeRequested)])
  }

  /** TYPE requests are repeated for a subscription whose slot is defined. */
  function Repoll(c: Client, sid: int): Client {
    if !Ready(c) || sid !in c.subs then c
    else
      var slot := SlotAt(c.core.reg, c.subs[sid].slot);
      if !slot.defined then Mark(c, sid, false)
      else
        var asked := RequestDataOnType(c.core.remote, sid + TYPE_REQ_OFFSET, slot.defineId);
        Mark(c.(core := c.core.(remote := asked)), sid, Accepts(c.core.remote))
  }

  // ---- get, get_many, set ----

  /** Defines the variable of a get or a set. */
  function DefineVar(k: Core, name: string, unit: string, dtype: int): (Core, SlotRef, bool) {
    var (reg, ref) := GetOrCreateVar(k.reg, name, unit, dtype);
    var (defined, ok) := DefineSlot(k.(reg := reg), ref);
    (defined, ref, ok)
  }

  /** The TYPE request of a get, with its entry waiting if the request was accepted. */
  function Ask(c: Client, id: int, p: Pending): (Client, bool) {
    var asked := c.(core := c.core.(remote := RequestDataOnType(c.core.remote, id + TYPE_REQ_OFFSET, id)));
    if Accepts(c.core.remote) then (asked.(pending := c.pending[id := p]), true)
    else (asked.(pending := c.pending - {id}), false)
  }

  /** The flag is false when the call raises before it waits; then nothing is pending. */
  function BeginGet(c: Client, name: string, unit: string, dtype: int): (Client, bool) {
    if dtype < 0 || !Ready(c) then (c, false)
    else
      var (core, ref, ok) := DefineVar(c.core, name, unit, dtype);
      if !ok then (c.(core := core), false)
      else Ask(c.(core := core), SlotAt(core.reg, ref).defineId, GetOne(KeyOf(name, unit, dtype), dtype, None))
  }

  /** The core of a get_many once its fields are added under a new id, and whether they all were. */
  function DefineMany(k: Core, fields: seq<ParsedField>): (Core, bool) {
    var id := k.reg.counters.nextGetManyId;
    var prepared := PrepareDefinition(k.(reg := AllocGetManyId(k.reg)), id);
    var (added, ok) := AddAll(prepared.remote, id, RemoteFields(fields));
    (prepared.(remote := added), ok)
  }

  function BeginGetMany(c: Client, fields: seq<ParsedField>): (Client, bool) {
    if !Ready(c) || !AllNumeric(fields) then (c, false)
    else
      var id := c.core.reg.counters.nextGetManyId;
      var (core, ok) := DefineMany(c.core, fields);
      if !ok then (c.(core := core), false)
      else
        var (asked, ok) := Ask(c.(core := core), id, GetMany(Layout(fields), None));
        if ok then (asked, true)
        else (asked.(core := asked.core.(remote := ClearDefinition(asked.core.remote, id))), false)
  }

  /** The answer or the timeout: either way the entry goes, and a get_many clears its definition. */
  function EndGet(c: Client, id: int): Client {
    if id !in c.pending then c
    else if c.pending[id].GetOne? || !c.core.remote.open then c.(pending := c.pending - {id})
    else c.(core := c.core.(remote := ClearDefinition(c.core.remote, id)), pending := c.pending - {id})
  }

  /** `_set_var_direct`, run by the caller or by the pump; SetDataOnSimObject changes no table. */
  function SetVarDirect(c: Client, name: string, unit: string, dtype: int): Client
  {
    var (core, _, ok) := DefineVar(c.core, name, unit, dtype);
    if ok then c.(core := core.(remote := Called(core.remote))) else c.(core := core)
  }

  /** The call of SetDataOnSimObject: the definition it writes through, and the bytes. */
  datatype Write = Write(id: int, data: seq<Byte>)

  /** The write of a set, which is made when its variable could be defined. */
  function WriteOf(c: Client, name: string, unit: string, dtype: int, data: seq<Byte>): Option<Write> {
    var (core, ref, ok) := DefineVar(c.core, name, unit, dtype);
    if ok then Some(Write(SlotAt(core.reg, ref).defineId, data)) else None
  }

  /** set() without the queue: nothing happens on a closed session or when the value cannot be packed. */
  function Set(c: Client, name: string, value: Number, unit: string, dtype: int,
               asFloat: (int, nat) -> seq<Byte>): (Client, Option<Write>)
  {
    var packed := PackSetValue(value, dtype, asFloat);
    if dtype < 0 || !c.core.remote.open || packed.Err? then (c, None)
    else (SetVarDirect(c, name, unit, dtype), WriteOf(c, name, unit, dtype, packed.value))
  }

  /** set_string(): text is written without a unit. */
  function SetString(c: Client, name: string, text: seq<Byte>): (Client, Option<Write>) {
    var packed := PackSetStringValue(text);
    if !c.core.remote.open || packed.Err? then (c, None)
    else (SetVarDirect(c, name, "", STRINGV), WriteOf(c, name, "", STRINGV, packed.value))
  }

  // ---- the session ----

  function Open(c: Client): Client { c.(core := c.core.(remote := NewSession(c.core.remote)), openReceived := false) }

  /** The OPEN message: the flags are reset and every subscription is applied. */
  function OnOpen(c: Client, items: seq<int>): Client { Restore(c.(openReceived := true), items) }

  /** QUIT drops the handle without closing it and leaves every flag as it is. */
  function OnQuit(c: Client): Client { c.(core := c.core.(remote := NoSession(c.core.remote)), openReceived := false) }

  /** close(): only if there was a handle and the DLL is not hung, every defined id is cleared and the flags
      are reset. */
  function Close(c: Client, hung: bool): Client {
    if c.core.remote.open && !hung then
      var r := Spent(c.core.remote, |DefinedKeys(c.core.reg)|);
      c.(core := Core(ResetDefinedFlags(c.core.reg), NoSession(r)), openReceived := false)
    else OnQuit(c)
  }

  // ---- data ----

  /** What a subscription's callback is called with. */
  datatype Handed = One(value: Value) | Many(values: map<string, Value>)

  function Lookup(c: Client, requestId: int): Option<int> {
    if requestId in c.subs then Some(requestId)
    else if requestId >= TYPE_REQ_OFFSET && requestId - TYPE_REQ_OFFSET in c.subs then Some(requestId - TYPE_REQ_OFFSET)
    else None
  }

  function LookupPending(c: Client, requestId: int): Option<int> {
    if requestId in c.pending then Some(requestId)
    else if requestId >= TYPE_REQ_OFFSET && requestId - TYPE_REQ_OFFSET in c.pending then
      Some(requestId - TYPE_REQ_OFFSET)
    else None
  }

  /** Reads every slice, or fails at the first that cannot be read or is refused. */
  function ReadSlices(mem: Memory, layout: seq<Slice>, accept: Value -> bool): Option<map<string, Value>> {
    if layout == [] then Some(map[])
    else
      var n := |layout| - 1;
      var rest := ReadSlices(mem, layout[..n], accept);
      var v := ReadDataAt(From(mem, layout[n].offset), layout[n].dtype);
      if rest.None? || v.None? || !accept(v.value) then None
      else Some(rest.value[layout[n].key := v.value])
  }

  /** The call of a subscription callback a data message leads to, if any. */
  function Deliver(c: Client, p: Packet, plausible: Value -> bool): Option<(int, Handed)>
  {
    var sid := Lookup(c, p.requestId);
    if sid.None? then None
    else
      var info := c.subs[sid.value];
      if info.Multi? then
        var values := ReadSlices(p.payload, info.layout, plausible);
        if values.Some? then Some((sid.value, Many(values.value))) else None
      else
        var v := ReadData(p, SlotAt(c.core.reg, info.slot).dtype);
        if v.Some? && plausible(v.value) then Some((sid.value, One(v.value))) else None
  }

  /** get and get_many take any value. */
  predicate AnyValue(v: Value) { true }

  /** The answer a data message puts into a waiting get. */
  function Answer(c: Client, p: Packet): Client {
    var id := LookupPending(c, p.requestId);
    if id.None? then c
    else
      var answered := match c.pending[id.value]
        case GetOne(key, dtype, old_) =>
          var v := ReadData(p, dtype);
          GetOne(key, dtype, if v.Some? then v else old_)
        case GetMany(layout, old_) =>
          var values := ReadSlices(p.payload, layout, AnyValue);
          GetMany(layout, if values.Some? then values else old_);
      c.(pending := c.pending[id.value := answered])
  }
}
