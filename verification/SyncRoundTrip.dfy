/** What get and get_many have done when they come to wait, and what set writes where. */
module SyncRoundTrip {
  import opened Wrappers
  import opened Bytes
  import opened Parsing
  import opened Fields
  import opened RegistryState
  import opened Remote
  import opened Client
  import opened Tables
  import opened TablesKept
  import opened Session
  import opened Actions
  import opened Mirror
  import opened Meaning
  import opened Asked

  /** The entry waits under the id, a request for the id is open, and its reply finds the entry. */
  ghost predicate WaitsFor(d: Client, id: int, entry: Pending) {
    && id in d.pending && d.pending[id] == entry
    && LookupPending(d, id + TYPE_REQ_OFFSET) == Some(id)
    && id + TYPE_REQ_OFFSET in d.core.remote.requests && d.core.remote.requests[id + TYPE_REQ_OFFSET] == id
  }

  lemma AskWaits(c: Client, id: int, entry: Pending)
    requires c.pending == map[] && id >= 0 && Ask(c, id, entry).1
    ensures var d := Ask(c, id, entry).0; WaitsFor(d, id, entry) && Def(d.core.remote, id) == Def(c.core.remote, id)
  {
    CalledKeeps(c.core.remote);
  }

  lemma {:induction false} LastStep(c: Client, run: seq<Step>, l: Step)
    requires Legal(c, run + [l])
    ensures Legal(c, run) && Enabled(EndOf(c, run), l) && InBounds(Next(EndOf(c, run), l).core.reg)
    decreases |run|
  {
    if run == [] {
      assert run + [l] == [l];
    } else {
      assert (run + [l])[1..] == run[1..] + [l];
      LastStep(Next(c, run[0]), run[1..], l);
    }
  }

  // ---- get_many ----

  lemma BeginGetManyWaits(c: Client, fields: seq<ParsedField>)
    requires TablesOk(c) && Undrawn(c) && c.core.reg.counters.nextGetManyId < TYPE_REQ_OFFSET && c.pending == map[]
    requires BeginGetMany(c, fields).1
    ensures var d, id := BeginGetMany(c, fields).0, c.core.reg.counters.nextGetManyId;
      WaitsFor(d, id, GetMany(Layout(fields), None)) && Def(d.core.remote, id) == RemoteFields(fields)
  {
    var id := c.core.reg.counters.nextGetManyId;
    assert NotDrawn(c.core.reg.counters, id);
    assert GetVarByDefineId(c.core.reg, id) == None;
    DefineManyMakes(c.core, fields);
    AskWaits(c.(core := DefineMany(c.core, fields).0), id, GetMany(Layout(fields), None));
    assert [] + RemoteFields(fields) == RemoteFields(fields);
  }

  /** At the end of any run, whatever the DLL answered and whichever keys were used: a get_many that does not
      raise before it waits has defined exactly the fields the caller wrote, in their order, under a new id, and
      its request is open. */
  lemma GetManyDefinesAndWaits(script: seq<int>, run: seq<Step>, fields: seq<ParsedField>)
    requires Legal(Init(script), run + [CallGetMany(fields)]) && BeginGetMany(EndOf(Init(script), run), fields).1
    ensures var c := EndOf(Init(script), run); var id := c.core.reg.counters.nextGetManyId;
      var d := Next(c, CallGetMany(fields));
      WaitsFor(d, id, GetMany(Layout(fields), None)) && ListsVerbatim(Def(d.core.remote, id), fields)
  {
    RemoteFieldsAreVerbatim(fields);
    LastStep(Init(script), run, CallGetMany(fields));
    MeansOverRuns(script, run);
    GetManyCounts(EndOf(Init(script), run), fields);
    BeginGetManyWaits(EndOf(Init(script), run), fields);
  }

  // ---- get ----

  lemma CopiesThenOneMore(before: seq<Field>, field: seq<Field>, n: nat) returns (m: nat)
    requires before == Repeat(field, n)
    ensures m >= 1 && before + field == Repeat(field, m)
  {
    m := n + 1;
  }

  lemma DefinedForGet(c: Client, w: Meanings, name: string, unit: string, dtype: int)
    requires Means(c, w) && InBounds(DefineVar(c.core, name, unit, dtype).0.reg)
      && DefineVar(c.core, name, unit, dtype).2
    ensures var k := DefineVar(c.core, name, unit, dtype).0; var slot := VarSlotOf(c, name, unit, dtype);
      exists m: nat :: m >= 1 && Def(k.remote, slot.defineId) == Repeat([SlotField(slot)], m)
  {
    var e, ref := WithVar(c, name, unit, dtype), GetOrCreateVar(c.core.reg, name, unit, dtype).1;
    var slot, field := VarSlotOf(c, name, unit, dtype), [SlotField(VarSlotOf(c, name, unit, dtype))];
    DefineVarTouches(c, name, unit, dtype);
    LookUpMeans(c, w, name, unit, dtype);
    LookedUpIsFound(c, name, unit, dtype);
    var v := Learn(c, w, LookUp(name, unit, dtype));
    assert Named(e.core.reg, v, e.core.reg.vars[KeyOf(name, unit, dtype)]);
    assert MadeOf(e.core.remote, slot.defineId, v[slot.defineId]);
    var n: nat :| Copies(Def(e.core.remote, slot.defineId), field, n);
    DefineSlotMakes(e.core, ref);
    var after := Def(DefineVar(c.core, name, unit, dtype).0.remote, slot.defineId);
    if after == field {
      var m := CopiesThenOneMore([], field, 0);
      assert [] + field == field;
    } else {
      var m := CopiesThenOneMore(Def(e.core.remote, slot.defineId), field, n);
    }
  }

  function VarSlotOf(c: Client, name: string, unit: string, dtype: int): VarSlot {
    var (reg, ref) := GetOrCreateVar(c.core.reg, name, unit, dtype);
    SlotAt(reg, ref)
  }

  lemma BeginGetIsAsk(c: Client, name: string, unit: string, dtype: int)
    requires BeginGet(c, name, unit, dtype).1
    ensures DefineVar(c.core, name, unit, dtype).2
    ensures BeginGet(c, name, unit, dtype) ==
      Ask(c.(core := DefineVar(c.core, name, unit, dtype).0), VarId(c, name, unit, dtype),
          GetOne(KeyOf(name, unit, dtype), dtype, None))
  {
    DefineVarTouches(c, name, unit, dtype);
  }

  lemma BeginGetWaits(c: Client, w: Meanings, name: string, unit: string, dtype: int)
    requires Means(c, w) && c.pending == map[] && InBounds(BeginGet(c, name, unit, dtype).0.core.reg)
    requires BeginGet(c, name, unit, dtype).1
    ensures var d, slot := BeginGet(c, name, unit, dtype).0, VarSlotOf(c, name, unit, dtype);
      && WaitsFor(d, slot.defineId, GetOne(KeyOf(name, unit, dtype), dtype, None))
      && exists m: nat :: m >= 1 && Def(d.core.remote, slot.defineId) == Repeat([SlotField(slot)], m)
  {
    var k := DefineVar(c.core, name, unit, dtype).0;
    BeginGetIsAsk(c, name, unit, dtype);
    assert InBounds(k.reg);
    DefineVarTouches(c, name, unit, dtype);
    DefinedKeeps(c, name, unit, dtype);
    DefinedForGet(c, w, name, unit, dtype);
    AskWaits(c.(core := k), VarId(c, name, unit, dtype), GetOne(KeyOf(name, unit, dtype), dtype, None));
  }

  /** The definition is one or more copies of one field, which is the variable the caller asked for. */
  ghost predicate DefinedFor(r: Remote, id: int, name: string, unit: string, dtype: int) {
    exists f, m: nat :: m >= 1 && Denotes(f, name, unit, dtype) && Def(r, id) == Repeat([f], m)
  }

  lemma VarSlotDenotes(c: Client, name: string, unit: string, dtype: int)
    requires TablesOk(c)
    ensures Denotes(SlotField(VarSlotOf(c, name, unit, dtype)), name, unit, dtype)
  {
    var key := KeyOf(name, unit, dtype);
    assert key in c.core.reg.vars ==> SoundEntry(c.core.reg, key);
    SlotDenotes(VarSlotOf(c, name, unit, dtype), name, unit, dtype);
  }

  /** At the end of any run, whatever the DLL answered and whichever keys were used: a get that does not raise
      before it waits has left one or more copies of the variable the caller asked for in the definition, and
      its request is open. */
  lemma GetDefinesAndWaits(script: seq<int>, run: seq<Step>, name: string, unit: string, dtype: int)
    requires Legal(Init(script), run + [CallGet(name, unit, dtype)])
    requires BeginGet(EndOf(Init(script), run), name, unit, dtype).1
    ensures var c := EndOf(Init(script), run);
      var d, id := Next(c, CallGet(name, unit, dtype)), VarId(c, name, unit, dtype);
      && WaitsFor(d, id, GetOne(KeyOf(name, unit, dtype), dtype, None))
      && DefinedFor(d.core.remote, id, name, unit, dtype)
  {
    var c := EndOf(Init(script), run);
    LastStep(Init(script), run, CallGet(name, unit, dtype));
    MeansOverRuns(script, run);
    BeginGetWaits(c, RunMeanings(script, run), name, unit, dtype);
    VarSlotDenotes(c, name, unit, dtype);
    var slot := VarSlotOf(c, name, unit, dtype);
    var r := BeginGet(c, name, unit, dtype).0.core.remote;
    var m: nat :| m >= 1 && Def(r, slot.defineId) == Repeat([SlotField(slot)], m);
  }

  // ---- when they come to wait ----

  lemma CleanDefineVar(c: Client, name: string, unit: string, dtype: int)
    requires TablesOk(c) && Clean(c.core.remote) && c.core.remote.open
    requires InBounds(WithVar(c, name, unit, dtype).core.reg)
    ensures var (k, ref, ok) := DefineVar(c.core, name, unit, dtype); ok && Clean(k.remote) && k.remote.open
  {
    var e, ref := WithVar(c, name, unit, dtype), GetOrCreateVar(c.core.reg, name, unit, dtype).1;
    WithVarKeeps(c, name, unit, dtype);
    LookedUpIsFound(c, name, unit, dtype);
    DefineSlotDefines(e.core, ref);
  }

  lemma CleanAsk(c: Client, id: int, entry: Pending)
    requires Clean(c.core.remote) && c.core.remote.open
    ensures Ask(c, id, entry).1
  {
    CalledKeeps(c.core.remote);
  }

  lemma BoundsOfVar(c: Client, name: string, unit: string, dtype: int)
    requires InBounds(DefineVar(c.core, name, unit, dtype).0.reg)
    ensures InBounds(WithVar(c, name, unit, dtype).core.reg)
  {
    DefineVarTouches(c, name, unit, dtype);
  }

  lemma CleanGet(c: Client, name: string, unit: string, dtype: int)
    requires TablesOk(c) && Clean(c.core.remote) && Ready(c) && dtype >= 0
    requires InBounds(BeginGet(c, name, unit, dtype).0.core.reg)
    ensures BeginGet(c, name, unit, dtype).1
  {
    var k := DefineVar(c.core, name, unit, dtype).0;
    BeginGetRegistry(c, name, unit, dtype);
    BoundsOfVar(c, name, unit, dtype);
    CleanDefineVar(c, name, unit, dtype);
    CleanAsk(c.(core := k), VarId(c, name, unit, dtype), GetOne(KeyOf(name, unit, dtype), dtype, None));
    DefineVarTouches(c, name, unit, dtype);
  }

  lemma CleanGetMany(c: Client, fields: seq<ParsedField>)
    requires TablesOk(c) && Clean(c.core.remote) && Ready(c) && AllNumeric(fields)
    requires GetVarByDefineId(c.core.reg, c.core.reg.counters.nextGetManyId) == None
    ensures BeginGetMany(c, fields).1
  {
    var drawn, id := c.core.(reg := AllocGetManyId(c.core.reg)), c.core.reg.counters.nextGetManyId;
    assert PrepareDefinition(drawn, id) == drawn;
    AddAllAppends(c.core.remote, id, RemoteFields(fields));
    AddAllFrame(c.core.remote, id, RemoteFields(fields));
    CleanAsk(c.(core := DefineMany(c.core, fields).0), id, GetMany(Layout(fields), None));
  }

  lemma GetWaitsOrNothingDoes(c: Client, name: string, unit: string, dtype: int)
    requires c.pending == map[]
    ensures var (d, ok) := BeginGet(c, name, unit, dtype);
      (ok ==> Ready(c) && dtype >= 0) && (!ok ==> d.pending == map[])
  {
    assert c.pending - {VarId(c, name, unit, dtype)} == c.pending;
    DefineVarTouches(c, name, unit, dtype);
  }

  lemma GetManyWaitsOrNothingDoes(c: Client, fields: seq<ParsedField>)
    requires c.pending == map[]
    ensures var (d, ok) := BeginGetMany(c, fields);
      (ok ==> Ready(c) && AllNumeric(fields)) && (!ok ==> d.pending == map[])
  {
    assert c.pending - {c.core.reg.counters.nextGetManyId} == c.pending;
  }

  /** A get comes to wait only on a ready session, and with HRESULT 0 always does. A refused one changes nothing,
      and one that fails leaves nothing waiting. */
  lemma GetWaitsExactly(script: seq<int>, run: seq<Step>, name: string, unit: string, dtype: int)
    requires Legal(Init(script), run + [CallGet(name, unit, dtype)])
    ensures var c := EndOf(Init(script), run); var (d, ok) := BeginGet(c, name, unit, dtype);
      && (ok ==> c.core.remote.open && c.openReceived && dtype >= 0)
      && (!c.core.remote.open || !c.openReceived || dtype < 0 ==> d == c) && (!ok ==> d.pending == map[])
      && (Clean(c.core.remote) && c.core.remote.open && c.openReceived && dtype >= 0 ==> ok)
  {
    var c := EndOf(Init(script), run);
    LastStep(Init(script), run, CallGet(name, unit, dtype));
    MeansOverRuns(script, run);
    GetWaitsOrNothingDoes(c, name, unit, dtype);
    if Clean(c.core.remote) && Ready(c) && dtype >= 0 {
      CleanGet(c, name, unit, dtype);
    }
  }

  /** And so does a get_many, unless a field is not numeric. */
  lemma GetManyWaitsExactly(script: seq<int>, run: seq<Step>, fields: seq<ParsedField>)
    requires Legal(Init(script), run + [CallGetMany(fields)])
    ensures var c := EndOf(Init(script), run); var (d, ok) := BeginGetMany(c, fields);
      var numeric := forall f :: f in fields ==> 1 <= f.dtype <= 4;
      && (ok ==> c.core.remote.open && c.openReceived && numeric)
      && (!c.core.remote.open || !c.openReceived || !numeric ==> d == c) && (!ok ==> d.pending == map[])
      && (Clean(c.core.remote) && c.core.remote.open && c.openReceived && numeric ==> ok)
  {
    var c := EndOf(Init(script), run);
    LastStep(Init(script), run, CallGetMany(fields));
    MeansOverRuns(script, run);
    AllNumericIs(fields);
    GetManyWaitsOrNothingDoes(c, fields);
    if Ready(c) && AllNumeric(fields) {
      GetManyCounts(c, fields);
      assert GetVarByDefineId(c.core.reg, c.core.reg.counters.nextGetManyId) == None;
      if Clean(c.core.remote) {
        CleanGetMany(c, fields);
      }
    }
  }

  lemma AllNumericIs(fields: seq<ParsedField>)
    ensures AllNumeric(fields) <==> forall f :: f in fields ==> 1 <= f.dtype <= 4
  {
    if AllNumeric(fields) {
      forall f | f in fields ensures 1 <= f.dtype <= 4 {
        var i :| 0 <= i < |fields| && fields[i] == f;
        assert SizeOf(fields[i].dtype).Some?;
      }
    }
  }

  // ---- set ----

  lemma VariableIsDefined(c: Client, w: Meanings, name: string, unit: string, dtype: int)
    requires Means(c, w) && InBounds(DefineVar(c.core, name, unit, dtype).0.reg)
      && DefineVar(c.core, name, unit, dtype).2
    ensures DefinedFor(DefineVar(c.core, name, unit, dtype).0.remote, VarId(c, name, unit, dtype), name, unit, dtype)
  {
    var k, slot := DefineVar(c.core, name, unit, dtype).0, VarSlotOf(c, name, unit, dtype);
    DefinedForGet(c, w, name, unit, dtype);
    VarSlotDenotes(c, name, unit, dtype);
    var m: nat :| m >= 1 && Def(k.remote, slot.defineId) == Repeat([SlotField(slot)], m);
  }

  lemma WriteIsDefine(c: Client, name: string, unit: string, dtype: int, data: seq<Byte>)
    ensures var (k, ref, ok) := DefineVar(c.core, name, unit, dtype);
      && WriteOf(c, name, unit, dtype, data) == (if ok then Some(Write(VarId(c, name, unit, dtype), data)) else None)
      && Next(c, CallSet(name, unit, dtype)).core.remote.defs == k.remote.defs
  {
    DefineVarTouches(c, name, unit, dtype);
    CalledKeeps(DefineVar(c.core, name, unit, dtype).0.remote);
  }

  lemma SameDefinedFor(r: Remote, q: Remote, id: int, name: string, unit: string, dtype: int)
    requires DefinedFor(r, id, name, unit, dtype) && q.defs == r.defs
    ensures DefinedFor(q, id, name, unit, dtype)
  {
    var f, m: nat :| m >= 1 && Denotes(f, name, unit, dtype) && Def(r, id) == Repeat([f], m);
    assert Def(q, id) == Repeat([f], m);
  }

  lemma WriteIsDefined(script: seq<int>, run: seq<Step>, name: string, unit: string, dtype: int, data: seq<Byte>)
    requires Legal(Init(script), run + [CallSet(name, unit, dtype)])
    ensures var c := EndOf(Init(script), run);
      var w, d := WriteOf(c, name, unit, dtype, data), Next(c, CallSet(name, unit, dtype));
      && (w.Some? ==> w.value.data == data && DefinedFor(d.core.remote, w.value.id, name, unit, dtype))
      && (Clean(c.core.remote) && c.core.remote.open ==> w.Some?)
  {
    var c := EndOf(Init(script), run);
    LastStep(Init(script), run, CallSet(name, unit, dtype));
    MeansOverRuns(script, run);
    var (k, ref, ok) := DefineVar(c.core, name, unit, dtype);
    assert InBounds(k.reg);
    WriteIsDefine(c, name, unit, dtype, data);
    if ok {
      VariableIsDefined(c, RunMeanings(script, run), name, unit, dtype);
      SameDefinedFor(k.remote, Next(c, CallSet(name, unit, dtype)).core.remote, VarId(c, name, unit, dtype), name, unit,
                     dtype);
    }
    if Clean(c.core.remote) && c.core.remote.open {
      BoundsOfVar(c, name, unit, dtype);
      CleanDefineVar(c, name, unit, dtype);
    }
  }

  /** What a set packs is four or eight bytes that read back as the value. */
  ghost predicate ReadsAsNumber(data: seq<Byte>, value: Number, dtype: int, asFloat: (int, nat) -> seq<Byte>,
                                tail: Memory)
  {
    && |data| == (if dtype % 2 == 1 then 4 else 8)
    && Written(value, dtype, asFloat, ReadDataAt(data + tail, dtype))
  }

  lemma NumberReadsBack(value: Number, dtype: int, asFloat: (int, nat) -> seq<Byte>, tail: Memory)
    requires Convertible(value, asFloat)
    ensures var r := PackSetValue(value, dtype, asFloat);
      (r.Ok? <==> 1 <= dtype <= 4) && (r.Ok? ==> ReadsAsNumber(r.value, value, dtype, asFloat, tail))
  {
    SetValueRoundTrip(value, dtype, asFloat, tail);
  }

  lemma SetIsSet(c: Client, name: string, value: Number, unit: string, dtype: int, asFloat: (int, nat) -> seq<Byte>,
                 packed: Result<seq<Byte>, string>)
    requires packed == PackSetValue(value, dtype, asFloat) && (packed.Ok? ==> dtype >= 0)
    ensures Set(c, name, value, unit, dtype, asFloat) ==
      if !c.core.remote.open || packed.Err? then (c, None)
      else (Next(c, CallSet(name, unit, dtype)), WriteOf(c, name, unit, dtype, packed.value))
  {}

  /** At the end of any run, whatever the DLL answered and whichever keys were used: a set writes through a
      definition that is copies of the variable the caller named, and the bytes it writes read back as the
      value, whatever memory follows. It writes only on an open session a value of a numeric datatype; with
      HRESULT 0 it then always does, and otherwise it changes nothing. */
  lemma SetWritesItsValue(script: seq<int>, run: seq<Step>, name: string, value: Number, unit: string, dtype: int,
                          asFloat: (int, nat) -> seq<Byte>, tail: Memory)
    requires Legal(Init(script), run + [CallSet(name, unit, dtype)]) && Convertible(value, asFloat)
    ensures var c := EndOf(Init(script), run); var (d, w) := Set(c, name, value, unit, dtype, asFloat);
      && (w.Some? ==>
            && c.core.remote.open && 1 <= dtype <= 4 && d == Next(c, CallSet(name, unit, dtype))
            && DefinedFor(d.core.remote, w.value.id, name, unit, dtype)
            && ReadsAsNumber(w.value.data, value, dtype, asFloat, tail))
      && (!c.core.remote.open || !(1 <= dtype <= 4) ==> d == c)
      && (Clean(c.core.remote) && c.core.remote.open && 1 <= dtype <= 4 ==> w.Some?)
  {
    var packed := PackSetValue(value, dtype, asFloat);
    NumberReadsBack(value, dtype, asFloat, tail);
    SetIsSet(EndOf(Init(script), run), name, value, unit, dtype, asFloat, packed);
    if packed.Ok? {
      WriteIsDefined(script, run, name, unit, dtype, packed.value);
    }
  }

  /** The bytes read back as the text unless it is too long or holds a NUL. */
  predicate ReadsAsText(data: seq<Byte>, text: seq<Byte>, tail: Memory) {
    ReadDataAt(data + tail, 11) == Some(Text(text)) <==> |text| <= 4095 && 0 !in text
  }

  lemma TextReadsBack(text: seq<Byte>, tail: Memory)
    ensures var r := PackSetStringValue(text);
      (r.Ok? <==> |text| < 0x7FFF_FFFF) && (r.Ok? ==> ReadsAsText(r.value, text, tail))
  {
    StringRoundTrip(text, tail);
  }

  lemma SetStringIsSet(c: Client, name: string, text: seq<Byte>, packed: Result<seq<Byte>, string>)
    requires packed == PackSetStringValue(text)
    ensures SetString(c, name, text) ==
      if !c.core.remote.open || packed.Err? then (c, None)
      else (Next(c, CallSet(name, "", 11)), WriteOf(c, name, "", 11, packed.value))
  {}

  /** And so does set_string: the bytes read back as the text unless it is too long or holds a NUL. */
  lemma SetStringWritesItsText(script: seq<int>, run: seq<Step>, name: string, text: seq<Byte>, tail: Memory)
    requires Legal(Init(script), run + [CallSet(name, "", 11)])
    ensures var c := EndOf(Init(script), run); var (d, w) := SetString(c, name, text);
      && (w.Some? ==>
            && c.core.remote.open && d == Next(c, CallSet(name, "", 11))
            && DefinedFor(d.core.remote, w.value.id, name, "", 11) && ReadsAsText(w.value.data, text, tail))
      && (!c.core.remote.open ==> d == c)
      && (Clean(c.core.remote) && c.core.remote.open && |text| < 0x7FFF_FFFF ==> w.Some?)
  {
    var packed := PackSetStringValue(text);
    TextReadsBack(text, tail);
    SetStringIsSet(EndOf(Init(script), run), name, text, packed);
    if packed.Ok? {
      WriteIsDefined(script, run, name, "", 11, packed.value);
    }
  }
}
