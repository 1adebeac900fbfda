/** The open data requests are exactly those of the live subscriptions, over whole runs. */
module RequestsOpen {
  import opened Parsing
  import opened Fields
  import opened RegistryState
  import opened Remote
  import opened Client
  import opened Tables
  import opened TablesKept
  import opened Session
  import opened Actions
  import opened MirrorKept

  /** The TYPE request of s is open, and its data request unless its period is NEVER. */
  ghost predicate AsksFor(r: Remote, s: int, period: int) {
    s + TYPE_REQ_OFFSET in r.requests && (period != PERIOD_NEVER ==> s in r.requests)
  }

  ghost predicate Asking(c: Client) { forall s :: s in c.subs ==> AsksFor(c.core.remote, s, c.subs[s].period) }

  ghost predicate Asked(c: Client) { TablesOk(c) && Clean(c.core.remote) && (Ready(c) ==> Asking(c)) }

  // ---- calls end no request but the one they name ----

  ghost predicate Adds(r: Remote, q: Remote, id: int) {
    && q.open == r.open && (Clean(r) ==> Clean(q))
    && forall x :: x in r.requests && x != id ==> x in q.requests
  }

  lemma AddsTrans(r: Remote, q: Remote, t: Remote, id: int)
    requires Adds(r, q, id) && Adds(q, t, id)
    ensures Adds(r, t, id)
  {}

  lemma PrepareAdds(k: Core, id: int, x: int)
    ensures Adds(k.remote, PrepareDefinition(k, id).remote, x)
  {
    CalledKeeps(k.remote);
  }

  lemma EnsureAdds(k: Core, ref: SlotRef, x: int)
    ensures Adds(k.remote, EnsureVarDefined(k, ref).0.remote, x)
    ensures Clean(k.remote) && k.remote.open ==> EnsureVarDefined(k, ref).1
  {
    CalledKeeps(k.remote);
  }

  lemma DefineAdds(k: Core, ref: SlotRef, x: int)
    ensures Adds(k.remote, DefineSlot(k, ref).0.remote, x)
    ensures Clean(k.remote) && k.remote.open ==> DefineSlot(k, ref).1
  {
    var prepared := PrepareDefinition(k, SlotAt(k.reg, ref).defineId);
    PrepareAdds(k, SlotAt(k.reg, ref).defineId, x);
    EnsureAdds(prepared, ref, x);
    AddsTrans(k.remote, prepared.remote, DefineSlot(k, ref).0.remote, x);
  }

  lemma FieldsAdd(r: Remote, id: int, fields: seq<Field>, x: int)
    ensures Adds(r, AddAll(r, id, fields).0, x)
    ensures Clean(r) && r.open ==> AddAll(r, id, fields).1
  {
    AddAllFrame(r, id, fields);
    if Clean(r) && r.open {
      AddAllAppends(r, id, fields);
    }
  }

  lemma BothAsked(k: Core, sid: int, id: int, info: Info)
    ensures var a := RequestBoth(k, sid, id, info);
      Adds(k.remote, a.core.remote, sid)
        && (Clean(k.remote) && k.remote.open ==> AsksFor(a.core.remote, sid, info.period))
  {
    CalledKeeps(k.remote);
    CalledKeeps(RequestData(k.remote, sid, id, info.period));
  }

  lemma ApplySingleAsks(k: Core, sid: int, info: Info)
    ensures var a := ApplySingle(k, sid, info);
      Adds(k.remote, a.core.remote, sid)
        && (Clean(k.remote) && k.remote.open ==> AsksFor(a.core.remote, sid, info.period))
  {
    var (defined, ok) := DefineSlot(k, info.slot);
    DefineAdds(k, info.slot, sid);
    BothAsked(defined, sid, SlotAt(k.reg, info.slot).defineId, info);
    AddsTrans(k.remote, defined.remote, ApplySingle(k, sid, info).core.remote, sid);
  }

  lemma ApplyManyAsks(k: Core, sid: int, info: Info)
    requires info.Multi?
    ensures var a := ApplyMany(k, sid, info);
      Adds(k.remote, a.core.remote, sid)
        && (Clean(k.remote) && k.remote.open ==> AsksFor(a.core.remote, sid, info.period))
  {
    var prepared := PrepareDefinition(k, sid);
    var (added, ok) := AddAll(prepared.remote, sid, RemoteFields(info.fields));
    PrepareAdds(k, sid, sid);
    FieldsAdd(prepared.remote, sid, RemoteFields(info.fields), sid);
    AddsTrans(k.remote, prepared.remote, added, sid);
    var defined := Core(SetDefined(prepared.reg, info.slot, true), added);
    BothAsked(defined, sid, sid, info);
    AddsTrans(k.remote, added, RequestBoth(defined, sid, sid, info).core.remote, sid);
  }

  /** Applying a subscription on an open session leaves its requests open and ends nobody else's. */
  lemma ApplyAtAsks(c: Client, s: int)
    requires s in c.subs
    ensures var d := ApplyAt(c, s).0;
      && Adds(c.core.remote, d.core.remote, s) && d.subs.Keys == c.subs.Keys && d.openReceived == c.openReceived
      && (forall t :: t in c.subs ==> d.subs[t] == c.subs[t].(typeRequested := d.subs[t].typeRequested))
      && (Clean(c.core.remote) && c.core.remote.open ==> AsksFor(d.core.remote, s, c.subs[s].period))
  {
    if c.subs[s].Multi? {
      ApplyManyAsks(c.core, s, c.subs[s]);
    } else {
      ApplySingleAsks(c.core, s, c.subs[s]);
    }
  }

  lemma OthersStillAsk(c: Client, d: Client, id: int, t: int)
    requires TablesOk(c) && Adds(c.core.remote, d.core.remote, id) && t in c.subs && t != id && id < TYPE_REQ_OFFSET
    requires AsksFor(c.core.remote, t, c.subs[t].period)
    ensures AsksFor(d.core.remote, t, c.subs[t].period)
  {
    assert SubOk(c.core.reg, t, c.subs[t]);
  }

  /** Two clients with the same subscriptions, of which only `id` may have lost its data request. */
  lemma StillAsked(c: Client, d: Client, id: int)
    requires Asked(c) && TablesOk(d) && Adds(c.core.remote, d.core.remote, id) && id < TYPE_REQ_OFFSET
    requires d.openReceived == c.openReceived
    requires forall t :: t in d.subs ==> t in c.subs && d.subs[t].period == c.subs[t].period
    requires id in d.subs && Ready(d) ==> AsksFor(d.core.remote, id, d.subs[id].period)
    ensures Asked(d)
  {
    if Ready(d) {
      forall t | t in d.subs ensures AsksFor(d.core.remote, t, d.subs[t].period) {
        if t != id {
          OthersStillAsk(c, d, id, t);
        }
      }
    }
  }

  // ---- every step ----

  lemma EnteredAsks(c: Client, d: Client, sid: int)
    requires Asked(c) && Enters(c, d, sid) && TablesOk(d) && sid < TYPE_REQ_OFFSET
    ensures Asked(ApplyIfReady(d, sid).0)
  {
    var e := ApplyIfReady(d, sid).0;
    ApplyIfReadyKeeps(d, sid);
    if Ready(d) {
      ApplyAtAsks(d, sid);
      forall t | t in e.subs ensures AsksFor(e.core.remote, t, e.subs[t].period) {
        if t != sid {
          OthersStillAsk(d, e, sid, t);
        }
      }
    }
  }

  lemma SubscribeAsks(c: Client, name: string, unit: string, dtype: int, period: int)
    requires Asked(c) && InBounds(Subscribe(c, name, unit, dtype, period).0.core.reg)
    ensures Asked(Subscribe(c, name, unit, dtype, period).0)
  {
    if period >= 0 && dtype >= 0 {
      var d, sid := AddSingle(c, name, unit, dtype, period), c.core.reg.counters.nextSubId;
      SubscribeCounts(c, name, unit, dtype, period);
      ApplyIfReadyCounters(d, sid);
      AddSingleKeeps(c, name, unit, dtype, period);
      AddSingleEnters(c, name, unit, dtype, period);
      EnteredAsks(c, d, sid);
    }
  }

  lemma SubscribeNumericAsks(c: Client, fields: seq<ParsedField>, period: int)
    requires Asked(c) && AllNumeric(fields) && InBounds(SubscribeNumeric(c, fields, period).0.core.reg)
    ensures Asked(SubscribeNumeric(c, fields, period).0)
  {
    SubscribeNumericCounts(c, fields, period);
    AddMultiKeeps(c, fields, period);
    AddMultiEnters(c, fields, period);
    EnteredAsks(c, AddMulti(c, fields, period), c.core.reg.counters.nextSubId);
  }

  lemma {:induction false} SubscribeStringsAsk(c: Client, fields: seq<ParsedField>, period: int)
    requires Asked(c) && period >= 0 && InBounds(SubscribeStrings(c, fields, period).0.core.reg)
    ensures Asked(SubscribeStrings(c, fields, period).0)
    decreases |fields|
  {
    if fields != [] {
      var (d, ok) := Subscribe(c, fields[0].name, "", STRINGV, period);
      if ok {
        SubscribeStringsCounts(d, fields[1..], period);
        BoundsBelow(d.core.reg, SubscribeStrings(c, fields, period).0.core.reg);
      }
      SubscribeAsks(c, fields[0].name, "", STRINGV, period);
      if ok {
        SubscribeStringsAsk(d, fields[1..], period);
      }
    }
  }

  lemma SubscribeCompositeAsks(c: Client, numeric: seq<ParsedField>, strings: seq<ParsedField>, period: int)
    requires Asked(c) && AllNumeric(numeric) && period >= 0
    requires InBounds(SubscribeComposite(c, numeric, strings, period).0.core.reg)
    ensures Asked(SubscribeComposite(c, numeric, strings, period).0)
  {
    var reserved := c.(core := c.core.(reg := AllocSubscriptionId(c.core.reg)));
    var (first, ok) := if numeric == [] then (reserved, true) else SubscribeNumeric(reserved, numeric, period);
    var d := SubscribeComposite(c, numeric, strings, period).0;
    SubscribeNumericCounts(reserved, numeric, period);
    SubscribeStringsCounts(first, strings, period);
    BoundsBelow(first.core.reg, d.core.reg);
    SubscribeCompositeKeeps(c, numeric, strings, period);
    ReserveKeeps(c);
    StillAsked(c, reserved, 0);
    if numeric != [] {
      SubscribeNumericAsks(reserved, numeric, period);
    }
    if ok {
      var all := SubscribeStrings(first, strings, period).0;
      SubscribeStringsAsk(first, strings, period);
      StillAsked(all, d, 0);
    }
  }

  lemma SubscribeManyAsks(c: Client, parsed: seq<ParsedField>, period: int)
    requires Asked(c) && InBounds(SubscribeMany(c, parsed, period).0.core.reg)
    ensures Asked(SubscribeMany(c, parsed, period).0)
  {
    if period >= 0 && forall f :: f in parsed ==> Supported(f) {
      NumericHalfHasLayout(parsed);
      if Strings(parsed) == [] {
        SubscribeNumericAsks(c, Numeric(parsed), period);
      } else {
        SubscribeCompositeAsks(c, Numeric(parsed), Strings(parsed), period);
      }
    }
  }

  /** Ending the request and the definition of one subscription. */
  lemma StopAdds(r: Remote, sid: int)
    ensures Adds(r, ClearDefinition(RequestData(r, sid, sid, PERIOD_NEVER), sid), sid)
    ensures Clean(r) && r.open ==> sid !in ClearDefinition(RequestData(r, sid, sid, PERIOD_NEVER), sid).requests
  {
    CalledKeeps(r);
    CalledKeeps(RequestData(r, sid, sid, PERIOD_NEVER));
  }

  lemma UnsubscribeOneAsks(c: Client, sid: int)
    requires Asked(c)
    ensures Asked(UnsubscribeOne(c, sid))
  {
    if sid in c.subs {
      assert SubOk(c.core.reg, sid, c.subs[sid]);
      UnsubscribeOneKeeps(c, sid);
      StopAdds(c.core.remote, sid);
      StillAsked(c, UnsubscribeOne(c, sid), sid);
    }
  }

  lemma {:induction false} UnsubscribeAllAsk(c: Client, sids: seq<int>)
    requires Asked(c)
    ensures Asked(UnsubscribeAll(c, sids))
    decreases |sids|
  {
    if sids != [] {
      UnsubscribeOneAsks(c, sids[0]);
      UnsubscribeAllAsk(UnsubscribeOne(c, sids[0]), sids[1..]);
    }
  }

  lemma UnsubscribeAsks(c: Client, sid: int)
    requires Asked(c)
    ensures Asked(Unsubscribe(c, sid))
  {
    if sid in c.composites {
      var d := c.(composites := c.composites - {sid});
      forall x | x in d.composites ensures CompositeOk(d, x) {
        assert CompositeOk(c, x);
      }
      StillAsked(c, d, 0);
      UnsubscribeAllAsk(d, c.composites[sid]);
    } else {
      UnsubscribeOneAsks(c, sid);
    }
  }

  lemma ResubscribeOneAsks(c: Client, sid: int)
    requires Asked(c)
    ensures Asked(ResubscribeOne(c, sid).0)
  {
    if sid in c.subs {
      var e := Stopped(c, sid);
      assert SubOk(c.core.reg, sid, c.subs[sid]);
      ResubscribeOneKeeps(c, sid);
      StopAdds(c.core.remote, sid);
      ApplyAtAsks(e, sid);
      AddsTrans(c.core.remote, e.core.remote, ApplyAt(e, sid).0.core.remote, sid);
      StillAsked(c, ResubscribeOne(c, sid).0, sid);
    }
  }

  lemma {:induction false} ResubscribeAllAsk(c: Client, sids: seq<int>)
    requires Asked(c)
    ensures Asked(ResubscribeAll(c, sids))
    decreases |sids|
  {
    if sids != [] {
      ResubscribeOneAsks(c, sids[0]);
      ResubscribeAllAsk(ResubscribeOne(c, sids[0]).0, sids[1..]);
    }
  }

  /** A restore on an open session asks for every entry and lets the others keep their requests. */
  lemma {:induction false} ApplyAllAsks(c: Client, items: seq<int>)
    requires TablesOk(c) && Clean(c.core.remote) && c.core.remote.open
    ensures var d := ApplyAll(c, items);
      && TablesOk(d) && Clean(d.core.remote) && d.core.remote.open
      && d.subs.Keys == c.subs.Keys && d.openReceived == c.openReceived
      && forall t :: t in c.subs ==> d.subs[t].period == c.subs[t].period
    ensures forall t :: t in c.subs && (t in items || AsksFor(c.core.remote, t, c.subs[t].period)) ==>
      AsksFor(ApplyAll(c, items).core.remote, t, c.subs[t].period)
    decreases |items|
  {
    if items != [] {
      var e := if items[0] in c.subs then ApplyAt(c, items[0]).0 else c;
      if items[0] in c.subs {
        OneApplyAsks(c, items[0]);
      }
      ApplyAllAsks(e, items[1..]);
    }
  }

  lemma OneApplyAsks(c: Client, s: int)
    requires TablesOk(c) && Clean(c.core.remote) && c.core.remote.open && s in c.subs
    ensures var d := ApplyAt(c, s).0;
      && TablesOk(d) && Clean(d.core.remote) && d.core.remote.open
      && d.subs.Keys == c.subs.Keys && d.openReceived == c.openReceived
      && (forall t :: t in c.subs ==> d.subs[t].period == c.subs[t].period)
      && AsksFor(d.core.remote, s, c.subs[s].period)
      && forall t :: t in c.subs && AsksFor(c.core.remote, t, c.subs[t].period) ==>
           AsksFor(d.core.remote, t, c.subs[t].period)
  {
    var d := ApplyAt(c, s).0;
    assert SubOk(c.core.reg, s, c.subs[s]);
    ApplyAtKeeps(c, s);
    ApplyAtAsks(c, s);
    forall t | t in c.subs && t != s && AsksFor(c.core.remote, t, c.subs[t].period)
      ensures AsksFor(d.core.remote, t, c.subs[t].period)
    {
      OthersStillAsk(c, d, s, t);
    }
  }

  lemma RestoreAsks(c: Client, items: seq<int>)
    requires TablesOk(c) && Clean(c.core.remote) && c.core.remote.open && Snapshot(c, items)
    ensures Asked(Restore(c, items))
  {
    var reset := c.(core := c.core.(reg := ResetDefinedFlags(c.core.reg)));
    ResetSame(c);
    SameKeeps(c, reset, 0);
    ApplyAllAsks(reset, items);
  }

  lemma OnOpenAsks(c: Client, items: seq<int>)
    requires TablesOk(c) && Clean(c.core.remote) && c.core.remote.open && Snapshot(c, items)
    ensures Asked(OnOpen(c, items))
  {
    var d := c.(openReceived := true);
    SessionKeeps(c, d);
    RestoreAsks(d, items);
  }

  lemma DefineVarAsks(c: Client, name: string, unit: string, dtype: int)
    ensures Adds(c.core.remote, DefineVar(c.core, name, unit, dtype).0.remote, 0)
  {
    var (reg, ref) := GetOrCreateVar(c.core.reg, name, unit, dtype);
    DefineAdds(c.core.(reg := reg), ref, 0);
  }

  lemma TypeAdds(r: Remote, request: int, id: int)
    ensures Adds(r, RequestDataOnType(r, request, id), 0) && Adds(r, ClearDefinition(r, id), 0) && Adds(r, Called(r), 0)
  {
    CalledKeeps(r);
  }

  lemma BeginGetAsks(c: Client, name: string, unit: string, dtype: int)
    requires Asked(c) && InBounds(BeginGet(c, name, unit, dtype).0.core.reg)
    ensures Asked(BeginGet(c, name, unit, dtype).0)
  {
    BeginGetKeeps(c, name, unit, dtype);
    if dtype >= 0 && Ready(c) {
      var (k, ref, ok) := DefineVar(c.core, name, unit, dtype);
      var d, id := BeginGet(c, name, unit, dtype).0, SlotAt(k.reg, ref).defineId;
      DefineVarAsks(c, name, unit, dtype);
      TypeAdds(k.remote, id + TYPE_REQ_OFFSET, id);
      AddsTrans(c.core.remote, k.remote, RequestDataOnType(k.remote, id + TYPE_REQ_OFFSET, id), 0);
      StillAsked(c, d, 0);
    }
  }

  lemma SetVarDirectAsks(c: Client, name: string, unit: string, dtype: int)
    requires Asked(c) && InBounds(SetVarDirect(c, name, unit, dtype).core.reg)
    ensures Asked(SetVarDirect(c, name, unit, dtype))
  {
    var k := DefineVar(c.core, name, unit, dtype).0;
    SetVarDirectKeeps(c, name, unit, dtype);
    DefineVarAsks(c, name, unit, dtype);
    TypeAdds(k.remote, 0, 0);
    AddsTrans(c.core.remote, k.remote, Called(k.remote), 0);
    StillAsked(c, SetVarDirect(c, name, unit, dtype), 0);
  }

  lemma DefineManyAdds(k: Core, fields: seq<ParsedField>)
    ensures Adds(k.remote, DefineMany(k, fields).0.remote, 0)
  {
    var id, drawn := k.reg.counters.nextGetManyId, k.(reg := AllocGetManyId(k.reg));
    PrepareAdds(drawn, id, 0);
    FieldsAdd(PrepareDefinition(drawn, id).remote, id, RemoteFields(fields), 0);
    AddsTrans(k.remote, PrepareDefinition(drawn, id).remote, DefineMany(k, fields).0.remote, 0);
  }

  lemma GetManyAdds(k: Core, fields: seq<ParsedField>)
    ensures var q, id := DefineMany(k, fields).0.remote, k.reg.counters.nextGetManyId;
      var asked := RequestDataOnType(q, id + TYPE_REQ_OFFSET, id);
      Adds(k.remote, q, 0) && Adds(k.remote, asked, 0) && Adds(k.remote, ClearDefinition(asked, id), 0)
  {
    var q, id := DefineMany(k, fields).0.remote, k.reg.counters.nextGetManyId;
    var asked := RequestDataOnType(q, id + TYPE_REQ_OFFSET, id);
    DefineManyAdds(k, fields);
    TypeAdds(q, id + TYPE_REQ_OFFSET, id);
    AddsTrans(k.remote, q, asked, 0);
    TypeAdds(asked, 0, id);
    AddsTrans(k.remote, asked, ClearDefinition(asked, id), 0);
  }

  lemma GetManyFrame(c: Client, fields: seq<ParsedField>)
    requires Ready(c) && AllNumeric(fields)
    ensures var d, id := BeginGetMany(c, fields).0, c.core.reg.counters.nextGetManyId;
      var q := DefineMany(c.core, fields).0.remote;
      var asked := RequestDataOnType(q, id + TYPE_REQ_OFFSET, id);
      && d.subs == c.subs && d.openReceived == c.openReceived
      && d.core.remote in {q, asked, ClearDefinition(asked, id)}
  {}

  lemma BeginGetManyAsks(c: Client, fields: seq<ParsedField>)
    requires Asked(c) && InBounds(BeginGetMany(c, fields).0.core.reg)
    ensures Asked(BeginGetMany(c, fields).0)
  {
    GetManyKeeps(c, fields);
    if Ready(c) && AllNumeric(fields) {
      GetManyAdds(c.core, fields);
      GetManyFrame(c, fields);
      StillAsked(c, BeginGetMany(c, fields).0, 0);
    }
  }

  lemma EndGetAsks(c: Client, id: int)
    requires Asked(c)
    ensures Asked(EndGet(c, id))
  {
    EndGetKeeps(c, id);
    TypeAdds(c.core.remote, 0, id);
    StillAsked(c, EndGet(c, id), 0);
  }

  lemma RepollFrame(c: Client, sid: int)
    ensures var d := Repoll(c, sid);
      && Adds(c.core.remote, d.core.remote, 0) && d.openReceived == c.openReceived
      && (forall t :: t in d.subs ==> t in c.subs && d.subs[t].period == c.subs[t].period)
  {
    CalledKeeps(c.core.remote);
  }

  lemma RepollAsks(c: Client, sid: int)
    requires Asked(c)
    ensures Asked(Repoll(c, sid))
  {
    RepollKeeps(c, sid);
    RepollFrame(c, sid);
    StillAsked(c, Repoll(c, sid), 0);
  }

  lemma CloseAsks(c: Client, hung: bool)
    requires Asked(c)
    ensures Asked(Close(c, hung))
  {
    CloseKeeps(c, hung);
    SpentKeeps(c.core.remote, |DefinedKeys(c.core.reg)|);
  }

  lemma HandlerAsks(c: Client, l: Step)
    requires Asked(c) && Enabled(c, l) && OfTheSession(l)
    ensures Asked(Next(c, l))
  {
    match l
    case CallOpen => OpenKeeps(c);
    case CallClose(hung) => CloseAsks(c, hung);
    case OpenMessage(items) => OnOpenAsks(c, items);
    case QuitMessage => OpenKeeps(c);
    case RestoreAll(items) => RestoreAsks(c, items);
    case RepollType(sid) => RepollAsks(c, sid);
    case DataMessage(packet) =>
      AnswerKeeps(c, packet);
      StillAsked(c, Answer(c, packet), 0);
  }

  lemma StepAsks(c: Client, l: Step)
    requires Asked(c) && Enabled(c, l) && InBounds(Next(c, l).core.reg)
    ensures Asked(Next(c, l))
  {
    match l
    case CallSubscribe(name, unit, dtype, period) => SubscribeAsks(c, name, unit, dtype, period);
    case CallSubscribeMany(fields, period) => SubscribeManyAsks(c, fields, period);
    case CallUnsubscribe(sid) => UnsubscribeAsks(c, sid);
    case Recover(sid) => ResubscribeAllAsk(c, if sid in c.composites then c.composites[sid] else [sid]);
    case CallGet(name, unit, dtype) => BeginGetAsks(c, name, unit, dtype);
    case CallGetMany(fields) => BeginGetManyAsks(c, fields);
    case FinishGet(id) => EndGetAsks(c, id);
    case CallSet(name, unit, dtype) => SetVarDirectAsks(c, name, unit, dtype);
    case _ => HandlerAsks(c, l);
  }

  lemma {:induction false} AskedOverRuns(c: Client, run: seq<Step>)
    requires Asked(c) && Legal(c, run)
    ensures Asked(EndOf(c, run))
    decreases |run|
  {
    if run != [] {
      StepAsks(c, run[0]);
      AskedOverRuns(Next(c, run[0]), run[1..]);
    }
  }

  // ---- no request without its subscription ----

  /** Every open data request belongs to a live subscription that wants one; without a session none is open. */
  ghost predicate NoStrays(c: Client) {
    && (forall q :: q in c.core.remote.requests && q < TYPE_REQ_OFFSET ==>
        q in c.subs && c.subs[q].period != PERIOD_NEVER)
    && (!c.core.remote.open ==> c.core.remote.requests == map[])
  }

  /** Of the data requests, q has at most those of r and s. */
  ghost predicate OnlyFor(r: Remote, q: Remote, s: int) {
    q.open == r.open && forall x :: x in q.requests && x < TYPE_REQ_OFFSET ==> x in r.requests || x == s
  }

  lemma NoStraysSame(c: Client, d: Client, s: int)
    requires NoStrays(c) && OnlyFor(c.core.remote, d.core.remote, s)
    requires !d.core.remote.open ==> d.core.remote.requests == c.core.remote.requests
    requires s in d.core.remote.requests && s !in c.core.remote.requests ==>
      s in d.subs && d.subs[s].period != PERIOD_NEVER
    requires forall x :: x in c.subs ==> x in d.subs && d.subs[x].period == c.subs[x].period
    ensures NoStrays(d)
  {}

  lemma BothData(k: Core, sid: int, id: int, info: Info)
    requires sid >= 0
    ensures AsksForItself(k.remote, RequestBoth(k, sid, id, info).core.remote, sid, info.period)
  {
    CalledKeeps(k.remote);
    CalledKeeps(RequestData(k.remote, sid, id, info.period));
  }

  lemma PrepareData(k: Core, id: int)
    ensures PrepareDefinition(k, id).remote.requests == k.remote.requests
      && PrepareDefinition(k, id).remote.open == k.remote.open
  {
    CalledKeeps(k.remote);
  }

  lemma EnsureData(k: Core, ref: SlotRef)
    ensures var q := EnsureVarDefined(k, ref).0.remote; q.requests == k.remote.requests && q.open == k.remote.open
  {
    CalledKeeps(k.remote);
  }

  lemma DefineData(k: Core, ref: SlotRef)
    ensures var q := DefineSlot(k, ref).0.remote; q.requests == k.remote.requests && q.open == k.remote.open
  {
    var id := SlotAt(k.reg, ref).defineId;
    PrepareData(k, id);
    EnsureData(PrepareDefinition(k, id), ref);
  }

  /** What an application does to the requests: it adds its own at most, and no data request for NEVER. */
  ghost predicate AsksForItself(r: Remote, q: Remote, sid: int, period: int) {
    && OnlyFor(r, q, sid) && (!r.open ==> q.requests == r.requests)
    && (period == PERIOD_NEVER && sid in q.requests ==> sid in r.requests)
  }

  lemma DefinedThenBoth(r: Remote, defined: Core, sid: int, id: int, info: Info)
    requires sid >= 0 && defined.remote.requests == r.requests && defined.remote.open == r.open
    ensures AsksForItself(r, defined.remote, sid, info.period)
    ensures AsksForItself(r, RequestBoth(defined, sid, id, info).core.remote, sid, info.period)
  {
    BothData(defined, sid, id, info);
  }

  lemma SingleData(k: Core, sid: int, info: Info)
    requires sid >= 0
    ensures AsksForItself(k.remote, ApplySingle(k, sid, info).core.remote, sid, info.period)
  {
    DefineData(k, info.slot);
    DefinedThenBoth(k.remote, DefineSlot(k, info.slot).0, sid, SlotAt(k.reg, info.slot).defineId, info);
  }

  lemma ManyData(k: Core, sid: int, info: Info)
    requires sid >= 0 && info.Multi?
    ensures AsksForItself(k.remote, ApplyMany(k, sid, info).core.remote, sid, info.period)
  {
    var prepared := PrepareDefinition(k, sid);
    var (added, ok) := AddAll(prepared.remote, sid, RemoteFields(info.fields));
    PrepareData(k, sid);
    AddAllFrame(prepared.remote, sid, RemoteFields(info.fields));
    if ok {
      BothData(Core(SetDefined(prepared.reg, info.slot, true), added), sid, sid, info);
    }
  }

  lemma ApplyNoStrays(c: Client, sid: int)
    requires TablesOk(c) && NoStrays(c) && sid in c.subs
    ensures NoStrays(ApplyAt(c, sid).0)
  {
    assert SubOk(c.core.reg, sid, c.subs[sid]);
    if c.subs[sid].Multi? {
      ManyData(c.core, sid, c.subs[sid]);
    } else {
      SingleData(c.core, sid, c.subs[sid]);
    }
    NoStraysSame(c, ApplyAt(c, sid).0, sid);
  }

  lemma StopData(r: Remote, sid: int)
    ensures var q := ClearDefinition(RequestData(r, sid, sid, PERIOD_NEVER), sid);
      && OnlyFor(r, q, sid) && (sid in q.requests ==> sid in r.requests)
      && (!r.open ==> q.requests == r.requests) && (Clean(r) && r.open ==> sid !in q.requests)
  {
    CalledKeeps(r);
    CalledKeeps(RequestData(r, sid, sid, PERIOD_NEVER));
  }

  lemma HaltNoStrays(c: Client, sid: int)
    requires NoStrays(c) && sid in c.subs
    ensures NoStrays(Stopped(c, sid))
  {
    StopData(c.core.remote, sid);
    NoStraysSame(c, Stopped(c, sid), sid);
  }

  /** The only action that needs the DLL's cooperation: an unsubscribe whose request ends. */
  lemma DropNoStrays(c: Client, sid: int)
    requires NoStrays(c) && Clean(c.core.remote)
    ensures NoStrays(UnsubscribeOne(c, sid))
  {
    StopData(c.core.remote, sid);
  }

  lemma DefineNoStrays(c: Client, ref: SlotRef)
    requires NoStrays(c) && ref < |c.core.reg.slots|
    ensures NoStrays(Do(c, Define(ref)))
  {
    DefineData(c.core, ref);
    NoStraysSame(c, Do(c, Define(ref)), TYPE_REQ_OFFSET);
  }

  lemma FieldsNoStrays(c: Client, fields: seq<ParsedField>)
    requires NoStrays(c)
    ensures NoStrays(Do(c, DefineFields(fields)))
  {
    var id, drawn := c.core.reg.counters.nextGetManyId, c.core.(reg := AllocGetManyId(c.core.reg));
    PrepareData(drawn, id);
    AddAllFrame(PrepareDefinition(drawn, id).remote, id, RemoteFields(fields));
    NoStraysSame(c, Do(c, DefineFields(fields)), TYPE_REQ_OFFSET);
  }

  lemma CallNoStrays(c: Client, a: Action)
    requires NoStrays(c) && (a.AskType? || a.Clear? || a.OtherCalls?) && (a.AskType? ==> a.id > 0)
    ensures NoStrays(Do(c, a))
  {
    CalledKeeps(c.core.remote);
    NoStraysSame(c, Do(c, a), TYPE_REQ_OFFSET);
  }

  lemma EnterNoStrays(c: Client, a: Action)
    requires TablesOk(c) && NoStrays(c) && (a.Enter? || a.EnterMany?)
    ensures NoStrays(Do(c, a))
  {
    forall x | x in c.subs ensures x != c.core.reg.counters.nextSubId {
      assert SubOk(c.core.reg, x, c.subs[x]);
    }
    NoStraysSame(c, Do(c, a), TYPE_REQ_OFFSET);
  }

  lemma DoNoStrays(c: Client, a: Action)
    requires TablesOk(c) && Clean(c.core.remote) && Proper(c, a) && NoStrays(c)
    ensures NoStrays(Do(c, a))
  {
    match a
    case Enter(_, _, _, _) => EnterNoStrays(c, a);
    case EnterMany(_, _) => EnterNoStrays(c, a);
    case ApplyTo(sid) => if sid in c.subs { ApplyNoStrays(c, sid); }
    case Halt(sid) => if sid in c.subs { HaltNoStrays(c, sid); }
    case Drop(sid) => DropNoStrays(c, sid);
    case Define(ref) => DefineNoStrays(c, ref);
    case DefineFields(fields) => FieldsNoStrays(c, fields);
    case AskType(_) => CallNoStrays(c, a);
    case Clear(_) => CallNoStrays(c, a);
    case OtherCalls(_) => CallNoStrays(c, a);
    case _ =>
  }

  /** No action spoils a clean script. */
  lemma DoClean(c: Client, a: Action)
    requires TablesOk(c) && Clean(c.core.remote) && Proper(c, a) && InBounds(Do(c, a).core.reg)
    ensures Clean(Do(c, a).core.remote)
  {
    match a
    case ApplyTo(sid) => if sid in c.subs { ApplyClean(c, sid); }
    case Halt(sid) => if sid in c.subs { StoppedSame(c, sid); }
    case Drop(sid) => DropClean(c, sid);
    case Define(ref) => DefineSame(c, ref);
    case DefineFields(fields) => DefineManyTouches(c.core, fields);
    case OtherCalls(calls) => SpentKeeps(c.core.remote, calls);
    case _ => CalledKeeps(c.core.remote);
  }

  lemma ApplyClean(c: Client, sid: int)
    requires TablesOk(c) && Clean(c.core.remote) && sid in c.subs
    ensures Clean(ApplyAt(c, sid).0.core.remote)
  {
    assert SubOk(c.core.reg, sid, c.subs[sid]);
    ApplyAtSame(c, sid);
  }

  lemma DropClean(c: Client, sid: int)
    requires Clean(c.core.remote)
    ensures Clean(UnsubscribeOne(c, sid).core.remote)
  {
    CalledKeeps(c.core.remote);
    CalledKeeps(RequestData(c.core.remote, sid, sid, PERIOD_NEVER));
  }

  lemma {:induction false} AfterNoStrays(c: Client, actions: seq<Action>)
    requires TablesOk(c) && Clean(c.core.remote) && NoStrays(c)
    requires AllProper(c, actions) && InBounds(After(c, actions).core.reg)
    ensures NoStrays(After(c, actions))
    decreases |actions|
  {
    if actions != [] {
      var d := Do(c, actions[0]);
      AfterLeq(d, actions[1..]);
      BoundsBelow(d.core.reg, After(c, actions).core.reg);
      DoKeeps(c, actions[0]);
      DoClean(c, actions[0]);
      DoNoStrays(c, actions[0]);
      AfterNoStrays(d, actions[1..]);
    }
  }

  /** In every run whose calls return HRESULT 0, with any keys: the open data requests are those of live
      subscriptions only, and on a ready session exactly those of the live subscriptions whose period is not
      NEVER; each of these also has its TYPE request open. All are for the subscription's own definition. */
  lemma LiveSubscriptionsAreRequested(script: seq<int>, run: seq<Step>, s: int)
    requires forall i :: 0 <= i < |script| ==> script[i] == 0
    requires Legal(Init(script), run) && s < 50000
    ensures var c := EndOf(Init(script), run); var requests := c.core.remote.requests;
      && (s in requests ==> requests[s] == s && s in c.subs && c.subs[s].period != 0)
      && (Ready(c) && s in c.subs ==>
            && s + 50000 in requests && requests[s + 50000] == s
            && (c.subs[s].period != 0 ==> s in requests))
  {
    AskedOverRuns(Init(script), run);
    RunIsItsActions(Init(script), run);
    AfterNoStrays(Init(script), RunActions(Init(script), run));
    var c := EndOf(Init(script), run);
    if s in c.subs {
      assert SubOk(c.core.reg, s, c.subs[s]);
      assert Base(s + TYPE_REQ_OFFSET) == s;
      assert Ready(c) ==> AsksFor(c.core.remote, s, c.subs[s].period);
    }
  }
}
