/** The agreement of the two tables over whole runs. */
module MirrorRuns {
  import opened Wrappers
  import opened Parsing
  import opened Fields
  import opened RegistryState
  import opened Remote
  import opened Client
  import opened Tables
  import opened TablesKept
  import opened Session
  import opened Mirror
  import opened MirrorKept

  /** A step that leaves the registry, the subscriptions and every definition alone. */
  lemma FrameAgrees(c: Client, d: Client)
    requires Agrees(c) && TablesOk(d) && d.core.reg == c.core.reg && d.subs == c.subs
    requires d.core.remote.defs == c.core.remote.defs && d.core.remote.open == c.core.remote.open
    requires Clean(d.core.remote) && d.openReceived == c.openReceived
    ensures Agrees(d)
  {
    assert forall s :: s in c.subs ==> Owns(c.core.reg, c.subs[s]);
    assert forall id :: Def(d.core.remote, id) == Def(c.core.remote, id);
    forall s | s in d.subs ensures Holds(d, s, Least(d)) {
      HoldsCarried(c, d, s, Least(c));
    }
  }

  lemma MarkAgrees(c: Client, sid: int, typeRequested: bool)
    requires Agrees(c) && sid in c.subs
    ensures Agrees(Mark(c, sid, typeRequested))
  {
    MarkKeeps(c, sid, typeRequested);
    SameDefsAgree(c, Mark(c, sid, typeRequested), 0);
  }

  lemma RepollAgrees(c: Client, sid: int)
    requires Agrees(c)
    ensures Agrees(Repoll(c, sid))
  {
    if Ready(c) && sid in c.subs {
      var d := c.(core := c.core.(remote := RequestDataOnType(c.core.remote, sid + TYPE_REQ_OFFSET, sid)));
      assert SubOk(c.core.reg, sid, c.subs[sid]);
      AskedKeeps(c, sid);
      CalledKeeps(c.core.remote);
      FrameAgrees(c, d);
      MarkAgrees(c, sid, false);
      MarkAgrees(d, sid, Accepts(c.core.remote));
    }
  }

  // ---- get and set ----

  lemma WithVarAgrees(c: Client, name: string, unit: string, dtype: int)
    requires Agrees(c) && InBounds(WithVar(c, name, unit, dtype).core.reg)
    ensures Agrees(WithVar(c, name, unit, dtype))
  {
    var d := WithVar(c, name, unit, dtype);
    WithVarKeeps(c, name, unit, dtype);
    forall s | s in d.subs ensures Owns(d.core.reg, d.subs[s]) && Holds(d, s, Least(d)) {
      assert SubOk(c.core.reg, s, c.subs[s]);
      assert Owns(c.core.reg, c.subs[s]);
      HoldsCarried(c, d, s, Least(c));
    }
  }

  /** The slot a get or a set works on is the one its id looks up; for the id of a live subscription it
      is the subscription's own. */
  lemma VarSlotIsFound(c: Client, name: string, unit: string, dtype: int)
    requires Agrees(c) && InBounds(WithVar(c, name, unit, dtype).core.reg)
    ensures var d := WithVar(c, name, unit, dtype); var ref := GetOrCreateVar(c.core.reg, name, unit, dtype).1;
      var id := VarId(c, name, unit, dtype);
      && ref < |d.core.reg.slots| && GetVarByDefineId(d.core.reg, id) == Some(ref)
      && (id in d.subs ==> d.subs[id].Single? && d.subs[id].slot == ref)
  {
    var d, key := WithVar(c, name, unit, dtype), KeyOf(name, unit, dtype);
    WithVarKeeps(c, name, unit, dtype);
    WithVarAgrees(c, name, unit, dtype);
    assert key in d.core.reg.vars && SoundEntry(d.core.reg, key);
    var id := VarId(c, name, unit, dtype);
    if id in d.subs {
      assert SubOk(d.core.reg, id, d.subs[id]);
      assert Owns(d.core.reg, d.subs[id]);
    }
  }

  lemma ClosedDefineSlot(k: Core, ref: SlotRef)
    requires !k.remote.open
    ensures DefineSlot(k, ref).0.remote == k.remote
  {}

  /** Defining a variable for a get or a set keeps the agreement, also when the id is a subscription's. */
  lemma DefineVarAgrees(c: Client, name: string, unit: string, dtype: int)
    requires Agrees(c) && InBounds(DefineVar(c.core, name, unit, dtype).0.reg)
    ensures Agrees(c.(core := DefineVar(c.core, name, unit, dtype).0))
  {
    var e, id := WithVar(c, name, unit, dtype), VarId(c, name, unit, dtype);
    var (k, ref, _) := DefineVar(c.core, name, unit, dtype);
    var d := c.(core := k);
    DefineVarTouches(c, name, unit, dtype);
    DefinedKeeps(c, name, unit, dtype);
    WithVarAgrees(c, name, unit, dtype);
    VarSlotIsFound(c, name, unit, dtype);
    if c.core.remote.open {
      DefineSlotDefines(e.core, ref);
      if id in e.subs {
        MirroredHolds(e);
        AppendedHolds(e, d, id, id);
        HoldsWeaker(d, id);
      }
      SameAgrees(e, d, id);
    } else {
      ClosedDefineSlot(e.core, ref);
      SameDefsAgree(e, d, id);
    }
  }

  lemma AskAgrees(c: Client, id: int, p: Pending)
    requires Agrees(c) && TablesOk(Ask(c, id, p).0)
    ensures Agrees(Ask(c, id, p).0)
  {
    CalledKeeps(c.core.remote);
    FrameAgrees(c, Ask(c, id, p).0);
  }

  lemma BeginGetAgrees(c: Client, name: string, unit: string, dtype: int)
    requires Agrees(c) && InBounds(BeginGet(c, name, unit, dtype).0.core.reg)
    ensures Agrees(BeginGet(c, name, unit, dtype).0)
  {
    if dtype >= 0 && Ready(c) {
      var (k, ref, ok) := DefineVar(c.core, name, unit, dtype);
      DefineVarAgrees(c, name, unit, dtype);
      BeginGetKeeps(c, name, unit, dtype);
      if ok {
        AskAgrees(c.(core := k), SlotAt(k.reg, ref).defineId, GetOne(KeyOf(name, unit, dtype), dtype, None));
      }
    }
  }

  lemma SetVarDirectAgrees(c: Client, name: string, unit: string, dtype: int)
    requires Agrees(c) && InBounds(SetVarDirect(c, name, unit, dtype).core.reg)
    ensures Agrees(SetVarDirect(c, name, unit, dtype))
  {
    var d := c.(core := DefineVar(c.core, name, unit, dtype).0);
    DefineVarAgrees(c, name, unit, dtype);
    SetVarDirectKeeps(c, name, unit, dtype);
    CalledKeeps(d.core.remote);
    FrameAgrees(d, SetVarDirect(c, name, unit, dtype));
  }

  // ---- get_many ----

  /** Nothing about an id beyond the subscriptions' can spoil the agreement. */
  lemma OtherIdAgrees(c: Client, d: Client, id: int)
    requires Agrees(c) && TablesOk(d) && Same(c, d, id) && GET_MANY_ID_START <= id < c.core.reg.counters.nextGetManyId
    ensures Agrees(d)
  {
    assert forall s :: s in c.subs ==> SubOk(c.core.reg, s, c.subs[s]);
    SameAgrees(c, d, id);
  }

  lemma ClearAgrees(c: Client, id: int)
    requires Agrees(c) && GET_MANY_ID_START <= id < c.core.reg.counters.nextGetManyId
    ensures Agrees(c.(core := c.core.(remote := ClearDefinition(c.core.remote, id))))
  {
    ClearTouches(c.core, id);
    ClearKeeps(c, id);
    OtherIdAgrees(c, c.(core := c.core.(remote := ClearDefinition(c.core.remote, id))), id);
  }

  lemma DrawGetManyAgrees(c: Client)
    requires Agrees(c) && c.core.reg.counters.nextGetManyId < TYPE_REQ_OFFSET
    ensures Agrees(c.(core := c.core.(reg := AllocGetManyId(c.core.reg))))
  {
    var d := c.(core := c.core.(reg := AllocGetManyId(c.core.reg)));
    DrawGetManyKeeps(c);
    forall s | s in d.subs ensures Owns(d.core.reg, d.subs[s]) && Holds(d, s, Least(d)) {
      assert Owns(c.core.reg, c.subs[s]);
      HoldsCarried(c, d, s, Least(c));
    }
  }

  lemma DefineManyAgrees(c: Client, fields: seq<ParsedField>)
    requires Agrees(c) && c.core.reg.counters.nextGetManyId < TYPE_REQ_OFFSET
    ensures Agrees(c.(core := DefineMany(c.core, fields).0))
  {
    DefineManyTouches(c.core, fields);
    DefineManyKeeps(c, fields);
    DrawGetManyAgrees(c);
    OtherIdAgrees(c.(core := c.core.(reg := AllocGetManyId(c.core.reg))), c.(core := DefineMany(c.core, fields).0),
                  c.core.reg.counters.nextGetManyId);
  }

  lemma BeginGetManyAgrees(c: Client, fields: seq<ParsedField>)
    requires Agrees(c) && InBounds(BeginGetMany(c, fields).0.core.reg)
    ensures Agrees(BeginGetMany(c, fields).0)
  {
    if Ready(c) && AllNumeric(fields) {
      GetManyCounts(c, fields);
      var id := c.core.reg.counters.nextGetManyId;
      var (k, ok) := DefineMany(c.core, fields);
      DefineManyTouches(c.core, fields);
      DefineManyKeeps(c, fields);
      DefineManyAgrees(c, fields);
      if ok {
        GetManyAskKeeps(c, k, id, Layout(fields));
        AskAgrees(c.(core := k), id, GetMany(Layout(fields), None));
        ClearAgrees(Ask(c.(core := k), id, GetMany(Layout(fields), None)).0, id);
      }
    }
  }

  lemma EndGetAgrees(c: Client, id: int)
    requires Agrees(c)
    ensures Agrees(EndGet(c, id))
  {
    if id in c.pending {
      EndGetKeeps(c, id);
      var d := c.(pending := c.pending - {id});
      NotPendingKeeps(c, id);
      FrameAgrees(c, d);
      if c.pending[id].GetMany? && c.core.remote.open {
        assert PendingOk(c.core.reg, c.subs, id, c.pending[id]);
        ClearAgrees(d, id);
      }
    }
  }

  lemma AnswerAgrees(c: Client, p: Packet)
    requires Agrees(c)
    ensures Agrees(Answer(c, p))
  {
    AnswerKeeps(c, p);
    FrameAgrees(c, Answer(c, p));
  }

  // ---- the session ----

  /** A session without definitions, before its OPEN message, agrees with any table. */
  lemma EmptySessionAgrees(c: Client, d: Client)
    requires Agrees(c) && TablesOk(d) && SameShape(c.core.reg, d.core.reg) && d.subs == c.subs
    requires d.core.remote.defs == map[] && Clean(d.core.remote) && !d.openReceived
    ensures Agrees(d)
  {
    forall s | s in d.subs ensures Owns(d.core.reg, d.subs[s]) && Holds(d, s, Least(d)) {
      assert SubOk(c.core.reg, s, c.subs[s]);
      assert Owns(c.core.reg, c.subs[s]);
      OwnsShape(c.core.reg, d.core.reg, c.subs[s], d.subs[s]);
      assert Copies(DefOf(d, s), FieldsOf(d, s), 0);
    }
  }

  lemma SessionAgrees(c: Client, hung: bool)
    requires Agrees(c)
    ensures Agrees(Open(c)) && Agrees(OnQuit(c)) && Agrees(Close(c, hung))
  {
    OpenKeeps(c);
    CloseKeeps(c, hung);
    EmptySessionAgrees(c, Open(c));
    EmptySessionAgrees(c, OnQuit(c));
    ResetSame(c);
    SpentKeeps(c.core.remote, |DefinedKeys(c.core.reg)|);
    EmptySessionAgrees(c, Close(c, hung));
  }

  lemma RestoreAgrees(c: Client, items: seq<int>)
    requires Agrees(c) && c.core.remote.open && Snapshot(c, items)
    ensures Agrees(Restore(c, items))
  {
    MirroredHolds(c);
    RestoreHolds(c, items);
    if !Ready(c) {
      forall s | s in Restore(c, items).subs ensures Holds(Restore(c, items), s, 0) {
        HoldsWeaker(Restore(c, items), s);
      }
    }
  }

  lemma OnOpenAgrees(c: Client, items: seq<int>)
    requires Agrees(c) && c.core.remote.open && Snapshot(c, items)
    ensures Agrees(OnOpen(c, items))
  {
    var d := c.(openReceived := true);
    SessionKeeps(c, d);
    assert forall s :: s in c.subs ==> Owns(c.core.reg, c.subs[s]);
    MirroredHolds(c);
    forall s | s in d.subs ensures Holds(d, s, 0) {
      HoldsCarried(c, d, s, 0);
    }
    RestoreHolds(d, items);
  }

  // ---- runs ----

  /** Live single subscriptions keep distinct keys. */
  ghost predicate Admissible(c: Client, l: Step) {
    match l
    case CallSubscribe(name, unit, dtype, period) => period >= 0 && dtype >= 0 ==> KeyFree(c, KeyOf(name, unit, dtype))
    case CallSubscribeMany(fields, period) => StringKeysFree(c, Strings(fields))
    case _ => true
  }

  ghost predicate DistinctKeys(c: Client, run: seq<Step>)
    decreases |run|
  {
    run == [] || (Admissible(c, run[0]) && DistinctKeys(Next(c, run[0]), run[1..]))
  }

  lemma StepAgrees(c: Client, l: Step)
    requires Agrees(c) && Enabled(c, l) && Admissible(c, l) && InBounds(Next(c, l).core.reg)
    ensures Agrees(Next(c, l))
  {
    match l
    case CallSubscribe(name, unit, dtype, period) => SubscribeAgrees(c, name, unit, dtype, period);
    case CallSubscribeMany(fields, period) => SubscribeManyAgrees(c, fields, period);
    case CallUnsubscribe(sid) => UnsubscribeAgrees(c, sid);
    case Recover(sid) => ResubscribeAllAgrees(c, if sid in c.composites then c.composites[sid] else [sid]);
    case CallGet(name, unit, dtype) => BeginGetAgrees(c, name, unit, dtype);
    case CallGetMany(fields) => BeginGetManyAgrees(c, fields);
    case FinishGet(id) => EndGetAgrees(c, id);
    case CallSet(name, unit, dtype) => SetVarDirectAgrees(c, name, unit, dtype);
    case CallOpen => SessionAgrees(c, false);
    case CallClose(hung) => SessionAgrees(c, hung);
    case OpenMessage(items) => OnOpenAgrees(c, items);
    case QuitMessage => SessionAgrees(c, false);
    case RestoreAll(items) => RestoreAgrees(c, items);
    case RepollType(sid) => RepollAgrees(c, sid);
    case DataMessage(packet) => AnswerAgrees(c, packet);
  }

  lemma {:induction false} AgreesOverRuns(c: Client, run: seq<Step>)
    requires Agrees(c) && Legal(c, run) && DistinctKeys(c, run)
    ensures Agrees(EndOf(c, run))
    decreases |run|
  {
    if run != [] {
      StepAgrees(c, run[0]);
      AgreesOverRuns(Next(c, run[0]), run[1..]);
    }
  }

  lemma InitAgrees(script: seq<int>)
    requires forall i :: 0 <= i < |script| ==> script[i] == 0
    ensures Agrees(Init(script))
  {}

  /** In every run whose calls return HRESULT 0 and whose live single subscriptions have distinct keys,
      the remote's definition of each live subscription is whole copies of its field list, and at least
      one copy as soon as the session is ready for requests. */
  lemma MirrorInvariant(script: seq<int>, run: seq<Step>, s: int)
    requires forall i :: 0 <= i < |script| ==> script[i] == 0
    requires Legal(Init(script), run) && DistinctKeys(Init(script), run)
    requires s in EndOf(Init(script), run).subs
    ensures var c := EndOf(Init(script), run);
      exists n: nat :: (Ready(c) ==> n >= 1) && DefOf(c, s) == Repeat(FieldsOf(c, s), n)
  {
    InitAgrees(script);
    AgreesOverRuns(Init(script), run);
    var c := EndOf(Init(script), run);
    assert Holds(c, s, Least(c));
    var n: nat :| n >= Least(c) && Copies(DefOf(c, s), FieldsOf(c, s), n);
    assert DefOf(c, s) == Repeat(FieldsOf(c, s), n);
  }
}
