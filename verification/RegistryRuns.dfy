/** The registry over whole runs, with any HRESULTs: live single subscriptions own their entries. */
module RegistryRuns {
  import opened Parsing
  import opened Fields
  import opened RegistryState
  import opened Client
  import opened Tables
  import opened TablesKept
  import opened Session
  import opened Mirror
  import opened MirrorKept
  import opened MirrorRuns

  lemma ApplyIfReadyWired(c: Client, sid: int)
    requires TablesOk(c) && Wired(c) && sid in c.subs
    ensures Wired(ApplyIfReady(c, sid).0)
  {
    ApplyIfReadyShape(c, sid);
    SameWired(c, ApplyIfReady(c, sid).0, sid);
  }

  lemma SubscribeWired(c: Client, name: string, unit: string, dtype: int, period: int)
    requires TablesOk(c) && Wired(c) && InBounds(Subscribe(c, name, unit, dtype, period).0.core.reg)
    requires period >= 0 && dtype >= 0 ==> KeyFree(c, KeyOf(name, unit, dtype))
    ensures Wired(Subscribe(c, name, unit, dtype, period).0)
  {
    if period >= 0 && dtype >= 0 {
      var a, sid := AddSingle(c, name, unit, dtype, period), c.core.reg.counters.nextSubId;
      SubscribeCounts(c, name, unit, dtype, period);
      ApplyIfReadyCounters(a, sid);
      AddSingleKeeps(c, name, unit, dtype, period);
      WiringSurvivesExactlyFreshKeys(c, name, unit, dtype, period);
      ApplyIfReadyWired(a, sid);
    }
  }

  lemma SubscribeNumericWired(c: Client, fields: seq<ParsedField>, period: int)
    requires TablesOk(c) && Wired(c) && AllNumeric(fields) && InBounds(SubscribeNumeric(c, fields, period).0.core.reg)
    ensures Wired(SubscribeNumeric(c, fields, period).0)
  {
    SubscribeNumericCounts(c, fields, period);
    AddMultiKeeps(c, fields, period);
    AddMultiWired(c, fields, period);
    ApplyIfReadyWired(AddMulti(c, fields, period), c.core.reg.counters.nextSubId);
  }

  lemma {:induction false} SubscribeStringsWired(c: Client, fields: seq<ParsedField>, period: int)
    requires TablesOk(c) && Wired(c) && period >= 0 && StringKeysFree(c, fields)
    requires InBounds(SubscribeStrings(c, fields, period).0.core.reg)
    ensures Wired(SubscribeStrings(c, fields, period).0)
    decreases |fields|
  {
    if fields != [] {
      var (d, ok) := Subscribe(c, fields[0].name, "", STRINGV, period);
      if ok {
        SubscribeStringsCounts(d, fields[1..], period);
        BoundsBelow(d.core.reg, SubscribeStrings(c, fields, period).0.core.reg);
      }
      SubscribeWired(c, fields[0].name, "", STRINGV, period);
      if ok {
        SubscribeKeeps(c, fields[0].name, "", STRINGV, period);
        forall i | 0 <= i < |fields[1..]| ensures KeyFree(d, StringKey(fields[1..][i])) {
          SubscribeKeepsOtherKeysFree(c, fields[0].name, "", STRINGV, period, StringKey(fields[1..][i]));
        }
        SubscribeStringsWired(d, fields[1..], period);
      }
    }
  }

  lemma ReserveWired(c: Client)
    requires TablesOk(c) && Wired(c)
    ensures var d := c.(core := c.core.(reg := AllocSubscriptionId(c.core.reg)));
      Wired(d) && forall key :: KeyFree(c, key) ==> KeyFree(d, key)
  {
    var d := c.(core := c.core.(reg := AllocSubscriptionId(c.core.reg)));
    assert forall s :: s in c.subs ==> Owns(c.core.reg, c.subs[s]) ==> Owns(d.core.reg, d.subs[s]);
  }

  lemma SubscribeCompositeWired(c: Client, numeric: seq<ParsedField>, strings: seq<ParsedField>, period: int)
    requires TablesOk(c) && Wired(c) && AllNumeric(numeric) && period >= 0 && StringKeysFree(c, strings)
    requires InBounds(SubscribeComposite(c, numeric, strings, period).0.core.reg)
    ensures Wired(SubscribeComposite(c, numeric, strings, period).0)
  {
    var reserved := c.(core := c.core.(reg := AllocSubscriptionId(c.core.reg)));
    var (first, ok) := if numeric == [] then (reserved, true) else SubscribeNumeric(reserved, numeric, period);
    var d := SubscribeComposite(c, numeric, strings, period).0;
    SubscribeNumericCounts(reserved, numeric, period);
    SubscribeStringsCounts(first, strings, period);
    BoundsBelow(first.core.reg, d.core.reg);
    ReserveKeeps(c);
    ReserveWired(c);
    if numeric != [] {
      SubscribeNumericKeeps(reserved, numeric, period);
      SubscribeNumericWired(reserved, numeric, period);
      forall i | 0 <= i < |strings| ensures KeyFree(first, StringKey(strings[i])) {
        NumericKeepsKeysFree(reserved, numeric, period, StringKey(strings[i]));
      }
    }
    if ok {
      SubscribeStringsWired(first, strings, period);
      CompositesKeepWired(SubscribeStrings(first, strings, period).0, d.composites);
    }
  }

  lemma CompositesKeepWired(c: Client, composites: map<int, seq<int>>)
    requires Wired(c)
    ensures Wired(c.(composites := composites))
  {
    assert forall s :: s in c.subs ==> Owns(c.core.reg, c.subs[s]);
  }

  lemma SubscribeManyWired(c: Client, parsed: seq<ParsedField>, period: int)
    requires TablesOk(c) && Wired(c) && StringKeysFree(c, Strings(parsed))
    requires InBounds(SubscribeMany(c, parsed, period).0.core.reg)
    ensures Wired(SubscribeMany(c, parsed, period).0)
  {
    if period >= 0 && forall f :: f in parsed ==> Supported(f) {
      NumericHalfHasLayout(parsed);
      if Strings(parsed) == [] {
        SubscribeNumericWired(c, Numeric(parsed), period);
      } else {
        SubscribeCompositeWired(c, Numeric(parsed), Strings(parsed), period);
      }
    }
  }

  lemma UnsubscribeOneWired(c: Client, sid: int)
    requires TablesOk(c) && Wired(c)
    ensures Wired(UnsubscribeOne(c, sid))
  {
    if sid in c.subs {
      var d := UnsubscribeOne(c, sid);
      forall s | s in d.subs ensures Owns(d.core.reg, d.subs[s]) {
        UnsubscribeOneOwns(c, sid, s);
      }
    }
  }

  lemma {:induction false} UnsubscribeAllWired(c: Client, sids: seq<int>)
    requires TablesOk(c) && Wired(c)
    ensures Wired(UnsubscribeAll(c, sids))
    decreases |sids|
  {
    if sids != [] {
      UnsubscribeOneKeeps(c, sids[0]);
      UnsubscribeOneWired(c, sids[0]);
      UnsubscribeAllWired(UnsubscribeOne(c, sids[0]), sids[1..]);
    }
  }

  lemma UnsubscribeWired(c: Client, sid: int)
    requires TablesOk(c) && Wired(c)
    ensures Wired(Unsubscribe(c, sid))
  {
    if sid in c.composites {
      var d := c.(composites := c.composites - {sid});
      forall x | x in d.composites ensures CompositeOk(d, x) {
        assert CompositeOk(c, x);
      }
      CompositesKeepWired(c, d.composites);
      UnsubscribeAllWired(d, c.composites[sid]);
    } else {
      UnsubscribeOneWired(c, sid);
    }
  }

  lemma ResubscribeOneWired(c: Client, sid: int)
    requires TablesOk(c) && Wired(c)
    ensures Wired(ResubscribeOne(c, sid).0)
  {
    if sid in c.subs {
      var e := Stopped(c, sid);
      assert SubOk(c.core.reg, sid, c.subs[sid]);
      StoppedSame(c, sid);
      SameKeeps(c, e, sid);
      SameWired(c, e, sid);
      assert SubOk(e.core.reg, sid, e.subs[sid]);
      ApplyAtSame(e, sid);
      SameWired(e, ApplyAt(e, sid).0, sid);
    }
  }

  lemma {:induction false} ResubscribeAllWired(c: Client, sids: seq<int>)
    requires TablesOk(c) && Wired(c)
    ensures Wired(ResubscribeAll(c, sids))
    decreases |sids|
  {
    if sids != [] {
      ResubscribeOneKeeps(c, sids[0]);
      ResubscribeOneWired(c, sids[0]);
      ResubscribeAllWired(ResubscribeOne(c, sids[0]).0, sids[1..]);
    }
  }

  lemma {:induction false} ApplyAllWired(c: Client, items: seq<int>)
    requires TablesOk(c) && Wired(c)
    ensures Wired(ApplyAll(c, items))
    decreases |items|
  {
    if items != [] {
      var d := if items[0] in c.subs then ApplyAt(c, items[0]).0 else c;
      if items[0] in c.subs {
        assert SubOk(c.core.reg, items[0], c.subs[items[0]]);
        ApplyAtSame(c, items[0]);
        ApplyAtKeeps(c, items[0]);
        SameWired(c, d, items[0]);
      }
      ApplyAllWired(d, items[1..]);
    }
  }

  lemma RestoreWired(c: Client, items: seq<int>)
    requires TablesOk(c) && Wired(c)
    ensures Wired(Restore(c, items))
  {
    ResetWired(c);
    ApplyAllWired(c.(core := c.core.(reg := ResetDefinedFlags(c.core.reg))), items);
  }

  /** A step that leaves the registry and the entries alone, but for flags. */
  lemma ShapeWired(c: Client, d: Client)
    requires TablesOk(c) && Wired(c) && SameShape(c.core.reg, d.core.reg) && d.subs == c.subs
    ensures Wired(d)
  {
    forall s | s in d.subs ensures Owns(d.core.reg, d.subs[s]) {
      assert SubOk(c.core.reg, s, c.subs[s]);
      OwnsShape(c.core.reg, d.core.reg, c.subs[s], d.subs[s]);
    }
  }

  lemma WithVarWired(c: Client, name: string, unit: string, dtype: int)
    requires TablesOk(c) && Wired(c)
    ensures Wired(WithVar(c, name, unit, dtype))
  {
    var d := WithVar(c, name, unit, dtype);
    forall s | s in d.subs ensures Owns(d.core.reg, d.subs[s]) {
      assert SubOk(c.core.reg, s, c.subs[s]);
      assert Owns(c.core.reg, c.subs[s]);
    }
  }

  lemma DefineVarWired(c: Client, name: string, unit: string, dtype: int)
    requires TablesOk(c) && Wired(c) && InBounds(DefineVar(c.core, name, unit, dtype).0.reg)
    ensures Wired(c.(core := DefineVar(c.core, name, unit, dtype).0))
  {
    WithVarWired(c, name, unit, dtype);
    DefineVarTouches(c, name, unit, dtype);
    WithVarKeeps(c, name, unit, dtype);
    ShapeWired(WithVar(c, name, unit, dtype), c.(core := DefineVar(c.core, name, unit, dtype).0));
  }

  lemma RegistryOnly(c: Client, d: Client)
    requires Wired(c) && d.core.reg.vars == c.core.reg.vars && d.core.reg.slots == c.core.reg.slots && d.subs == c.subs
    ensures Wired(d)
  {
    assert forall s :: s in c.subs ==> Owns(c.core.reg, c.subs[s]) ==> Owns(d.core.reg, d.subs[s]);
  }

  lemma BeginGetWired(c: Client, name: string, unit: string, dtype: int)
    requires TablesOk(c) && Wired(c) && InBounds(BeginGet(c, name, unit, dtype).0.core.reg)
    ensures Wired(BeginGet(c, name, unit, dtype).0)
  {
    if dtype >= 0 && Ready(c) {
      BeginGetRegistry(c, name, unit, dtype);
      DefineVarWired(c, name, unit, dtype);
      RegistryOnly(c.(core := DefineVar(c.core, name, unit, dtype).0), BeginGet(c, name, unit, dtype).0);
    }
  }

  lemma SetVarDirectWired(c: Client, name: string, unit: string, dtype: int)
    requires TablesOk(c) && Wired(c) && InBounds(SetVarDirect(c, name, unit, dtype).core.reg)
    ensures Wired(SetVarDirect(c, name, unit, dtype))
  {
    DefineVarWired(c, name, unit, dtype);
    RegistryOnly(c.(core := DefineVar(c.core, name, unit, dtype).0), SetVarDirect(c, name, unit, dtype));
  }

  lemma DefineManyRegistry(k: Core, fields: seq<ParsedField>)
    ensures SameShape(AllocGetManyId(k.reg), DefineMany(k, fields).0.reg)
  {
    DefineManyTouches(k, fields);
  }

  lemma BeginGetManyRegistry(c: Client, fields: seq<ParsedField>)
    ensures var e := BeginGetMany(c, fields).0;
      e.subs == c.subs
      && e.core.reg == if Ready(c) && AllNumeric(fields) then DefineMany(c.core, fields).0.reg else c.core.reg
  {}

  lemma BeginGetManyWired(c: Client, fields: seq<ParsedField>)
    requires TablesOk(c) && Wired(c)
    ensures Wired(BeginGetMany(c, fields).0)
  {
    var e := BeginGetMany(c, fields).0;
    BeginGetManyRegistry(c, fields);
    if Ready(c) && AllNumeric(fields) {
      DefineManyRegistry(c.core, fields);
      DrawnWired(c, e);
    } else {
      RegistryOnly(c, e);
    }
  }

  lemma DrawnWired(c: Client, e: Client)
    requires TablesOk(c) && Wired(c) && SameShape(AllocGetManyId(c.core.reg), e.core.reg) && e.subs == c.subs
    ensures Wired(e)
  {
    forall s | s in e.subs ensures Owns(e.core.reg, e.subs[s]) {
      assert SubOk(c.core.reg, s, c.subs[s]);
      assert Owns(c.core.reg, c.subs[s]);
      OwnsShape(AllocGetManyId(c.core.reg), e.core.reg, c.subs[s], e.subs[s]);
    }
  }

  lemma RepollTables(c: Client, sid: int)
    ensures var d := Repoll(c, sid);
      d.core.reg == c.core.reg && d.subs.Keys == c.subs.Keys
      && forall s :: s in c.subs ==> d.subs[s] == c.subs[s].(typeRequested := d.subs[s].typeRequested)
  {}

  lemma RepollWired(c: Client, sid: int)
    requires TablesOk(c) && Wired(c)
    ensures Wired(Repoll(c, sid))
  {
    var d := Repoll(c, sid);
    RepollTables(c, sid);
    forall s | s in d.subs ensures Owns(d.core.reg, d.subs[s]) {
      assert Owns(c.core.reg, c.subs[s]);
    }
  }

  lemma CloseWired(c: Client, hung: bool)
    requires TablesOk(c) && Wired(c)
    ensures Wired(Close(c, hung))
  {
    ResetSame(c);
    ShapeWired(c, Close(c, hung));
  }

  lemma OnOpenWired(c: Client, items: seq<int>)
    requires TablesOk(c) && Wired(c) && c.core.remote.open
    ensures Wired(OnOpen(c, items))
  {
    var d := c.(openReceived := true);
    SessionKeeps(c, d);
    RegistryOnly(c, d);
    RestoreWired(d, items);
  }

  lemma GetStepWired(c: Client, l: Step)
    requires TablesOk(c) && Wired(c) && (l.CallGet? || l.CallGetMany? || l.FinishGet?) && InBounds(Next(c, l).core.reg)
    ensures Wired(Next(c, l))
  {
    match l
    case CallGet(name, unit, dtype) => BeginGetWired(c, name, unit, dtype);
    case CallGetMany(fields) => BeginGetManyWired(c, fields);
    case FinishGet(id) => RegistryOnly(c, EndGet(c, id));
  }

  lemma HandlerWired(c: Client, l: Step)
    requires TablesOk(c) && Wired(c) && Enabled(c, l) && OfTheSession(l)
    ensures Wired(Next(c, l))
  {
    match l
    case CallOpen => RegistryOnly(c, Open(c));
    case CallClose(hung) => CloseWired(c, hung);
    case OpenMessage(items) => OnOpenWired(c, items);
    case QuitMessage => RegistryOnly(c, OnQuit(c));
    case RestoreAll(items) => RestoreWired(c, items);
    case RepollType(sid) => RepollWired(c, sid);
    case DataMessage(packet) => RegistryOnly(c, Answer(c, packet));
  }

  lemma StepWired(c: Client, l: Step)
    requires TablesOk(c) && Wired(c) && Enabled(c, l) && Admissible(c, l) && InBounds(Next(c, l).core.reg)
    ensures Wired(Next(c, l))
  {
    match l
    case CallSubscribe(name, unit, dtype, period) => SubscribeWired(c, name, unit, dtype, period);
    case CallSubscribeMany(fields, period) => SubscribeManyWired(c, fields, period);
    case CallUnsubscribe(sid) => UnsubscribeWired(c, sid);
    case Recover(sid) => ResubscribeAllWired(c, if sid in c.composites then c.composites[sid] else [sid]);
    case CallGet(_, _, _) => GetStepWired(c, l);
    case CallGetMany(_) => GetStepWired(c, l);
    case FinishGet(_) => GetStepWired(c, l);
    case CallSet(name, unit, dtype) => SetVarDirectWired(c, name, unit, dtype);
    case _ => HandlerWired(c, l);
  }

  lemma {:induction false} WiredOverRuns(c: Client, run: seq<Step>)
    requires TablesOk(c) && Wired(c) && Legal(c, run) && DistinctKeys(c, run)
    ensures TablesOk(EndOf(c, run)) && Wired(EndOf(c, run))
    decreases |run|
  {
    if run != [] {
      StepKeeps(c, run[0]);
      StepWired(c, run[0]);
      WiredOverRuns(Next(c, run[0]), run[1..]);
    }
  }

  /** In every run whose live single subscriptions have distinct keys, whatever the DLL answers: the id of
      a live single subscription leads to a registered key, the key to the subscription's own slot, and
      the slot back to the id. */
  lemma IdsLeadToTheirOwnSlots(script: seq<int>, run: seq<Step>, s: int)
    requires Legal(Init(script), run) && DistinctKeys(Init(script), run)
    requires s in EndOf(Init(script), run).subs && EndOf(Init(script), run).subs[s].Single?
    ensures var c := EndOf(Init(script), run); var r := c.core.reg;
      && s in r.idToKey && r.idToKey[s] in r.vars && r.vars[r.idToKey[s]] == c.subs[s].slot
      && c.subs[s].slot < |r.slots| && r.slots[c.subs[s].slot].defineId == s
      && r.slots[c.subs[s].slot].Key() == r.idToKey[s]
  {
    InitTables(script);
    WiredOverRuns(Init(script), run);
    var c := EndOf(Init(script), run);
    assert SubOk(c.core.reg, s, c.subs[s]) && Owns(c.core.reg, c.subs[s]);
  }
}
