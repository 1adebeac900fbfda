/** Every step of the client as a sequence of small actions, so that what each action keeps holds at every
    moment of every run, whatever the DLL answers and whichever keys are used. */
module Actions {
  import opened Wrappers
  import opened Parsing
  import opened Fields
  import opened RegistryState
  import opened Remote
  import opened Client
  import opened Tables
  import opened TablesKept
  import opened Session

  datatype Action =
    | Enter(name: string, unit: string, dtype: int, period: int)
    | EnterMany(fields: seq<ParsedField>, period: int)
    | Reserve
    | Compose(cid: int, children: seq<int>)
    | Decompose(cid: int)
    | ApplyTo(sid: int)
    | Halt(sid: int)
    | Drop(sid: int)
    | SetMark(sid: int, typeRequested: bool)
    | LowerFlags
    | OpenArrives
    | NewHandle
    | LoseHandle
    | LookUp(name: string, unit: string, dtype: int)
    | Define(ref: SlotRef)
    | DefineFields(fields: seq<ParsedField>)
    | AskType(id: int)
    | Clear(id: int)
    | OtherCalls(calls: nat)
    | Await(id: int, entry: Pending)
    | Forget(id: int)

  function WithRemote(c: Client, r: Remote): Client { c.(core := c.core.(remote := r)) }

  function WithReg(c: Client, r: Reg): Client { c.(core := c.core.(reg := r)) }

  function Do(c: Client, a: Action): Client {
    match a
    case Enter(name, unit, dtype, period) => AddSingle(c, name, unit, dtype, period)
    case EnterMany(fields, period) => AddMulti(c, fields, period)
    case Reserve => WithReg(c, AllocSubscriptionId(c.core.reg))
    case Compose(cid, children) => c.(composites := c.composites[cid := children])
    case Decompose(cid) => c.(composites := c.composites - {cid})
    case ApplyTo(sid) => if sid in c.subs then ApplyAt(c, sid).0 else c
    case Halt(sid) => if sid in c.subs then Stopped(c, sid) else c
    case Drop(sid) => UnsubscribeOne(c, sid)
    case SetMark(sid, typeRequested) => if sid in c.subs then Mark(c, sid, typeRequested) else c
    case LowerFlags => WithReg(c, ResetDefinedFlags(c.core.reg))
    case OpenArrives => c.(openReceived := true)
    case NewHandle => Open(c)
    case LoseHandle => OnQuit(c)
    case LookUp(name, unit, dtype) => WithVar(c, name, unit, dtype)
    case Define(ref) => c.(core := DefineSlot(c.core, ref).0)
    case DefineFields(fields) => c.(core := DefineMany(c.core, fields).0)
    case AskType(id) => WithRemote(c, RequestDataOnType(c.core.remote, id + TYPE_REQ_OFFSET, id))
    case Clear(id) => WithRemote(c, ClearDefinition(c.core.remote, id))
    case OtherCalls(calls) => WithRemote(c, Spent(c.core.remote, calls))
    case Await(id, entry) => c.(pending := c.pending[id := entry])
    case Forget(id) => c.(pending := c.pending - {id})
  }

  /** What the code has made sure of when it comes to the action. */
  ghost predicate Proper(c: Client, a: Action) {
    match a
    case EnterMany(fields, _) => AllNumeric(fields)
    case Compose(_, _) => TablesOk(Do(c, a))
    case OpenArrives => c.core.remote.open
    case Define(ref) => ref < |c.core.reg.slots|
      && GetVarByDefineId(c.core.reg, c.core.reg.slots[ref].defineId) == Some(ref)
    case AskType(id) => 0 < id < TYPE_REQ_OFFSET && Issued(c.core.reg.counters, id)
    case Clear(id) => GET_MANY_ID_START <= id < c.core.reg.counters.nextGetManyId
    case Await(id, entry) => PendingOk(c.core.reg, c.subs, id, entry)
    case _ => true
  }

  function After(c: Client, actions: seq<Action>): Client
    decreases |actions|
  {
    if actions == [] then c else After(Do(c, actions[0]), actions[1..])
  }

  ghost predicate AllProper(c: Client, actions: seq<Action>)
    decreases |actions|
  {
    actions == [] || (Proper(c, actions[0]) && AllProper(Do(c, actions[0]), actions[1..]))
  }

  lemma OneAction(c: Client, a: Action)
    ensures After(c, [a]) == Do(c, a) && (AllProper(c, [a]) <==> Proper(c, a))
  {
    assert [a][1..] == [];
    assert AllProper(Do(c, a), []);
    assert After(Do(c, a), []) == Do(c, a);
  }

  lemma {:induction false} Joined(c: Client, first: seq<Action>, second: seq<Action>)
    ensures After(c, first + second) == After(After(c, first), second)
    ensures AllProper(c, first + second) <==> AllProper(c, first) && AllProper(After(c, first), second)
    decreases |first|
  {
    if first == [] {
      assert first + second == second;
    } else {
      assert (first + second)[1..] == first[1..] + second;
      Joined(Do(c, first[0]), first[1..], second);
    }
  }

  /** The actions lead from c to d and each is proper. */
  ghost predicate Leads(c: Client, actions: seq<Action>, d: Client) { AllProper(c, actions) && After(c, actions) == d }

  lemma LeadsByOne(c: Client, a: Action)
    requires Proper(c, a)
    ensures Leads(c, [a], Do(c, a))
  {
    OneAction(c, a);
  }

  lemma LeadsOn(c: Client, first: seq<Action>, d: Client, second: seq<Action>, e: Client)
    requires Leads(c, first, d) && Leads(d, second, e)
    ensures Leads(c, first + second, e)
  {
    Joined(c, first, second);
  }

  lemma LeadsOneMore(c: Client, first: seq<Action>, d: Client, a: Action)
    requires Leads(c, first, d) && Proper(d, a)
    ensures Leads(c, first + [a], Do(d, a))
  {
    LeadsByOne(d, a);
    LeadsOn(c, first, d, [a], Do(d, a));
  }

  // ---- counters only grow, and every action keeps the tables ----

  lemma DefineOnlySlots(k: Core, ref: SlotRef)
    ensures DefineSlot(k, ref).0.reg.counters == k.reg.counters
  {}

  lemma DefineManyCounts(k: Core, fields: seq<ParsedField>)
    ensures DefineMany(k, fields).0.reg.counters == AllocGetManyId(k.reg).counters
  {
    DefineManyTouches(k, fields);
  }

  lemma DoLeq(c: Client, a: Action)
    ensures Leq(c.core.reg.counters, Do(c, a).core.reg.counters)
  {
    match a
    case ApplyTo(sid) => if sid in c.subs { ApplyOnlySlots(c.core, sid, c.subs[sid]); }
    case Define(ref) => DefineOnlySlots(c.core, ref);
    case DefineFields(fields) => DefineManyCounts(c.core, fields);
    case _ =>
  }

  lemma {:induction false} AfterLeq(c: Client, actions: seq<Action>)
    ensures Leq(c.core.reg.counters, After(c, actions).core.reg.counters)
    decreases |actions|
  {
    if actions != [] {
      DoLeq(c, actions[0]);
      AfterLeq(Do(c, actions[0]), actions[1..]);
    }
  }

  lemma DefineSame(c: Client, ref: SlotRef)
    requires ref < |c.core.reg.slots|
    ensures Same(c, Do(c, Define(ref)), c.core.reg.slots[ref].defineId)
  {
    var id := c.core.reg.slots[ref].defineId;
    PrepareTouches(c.core, id);
    var prepared := PrepareDefinition(c.core, id);
    EnsureTouches(prepared, ref);
    TouchesTrans(c.core, prepared, EnsureVarDefined(prepared, ref).0, id);
  }

  lemma DefineKeeps(c: Client, ref: SlotRef)
    requires TablesOk(c) && Proper(c, Define(ref))
    ensures TablesOk(Do(c, Define(ref)))
  {
    DefineSame(c, ref);
    SameKeeps(c, Do(c, Define(ref)), c.core.reg.slots[ref].defineId);
  }

  lemma HaltKeeps(c: Client, sid: int)
    requires TablesOk(c)
    ensures TablesOk(Do(c, Halt(sid)))
  {
    if sid in c.subs {
      assert SubOk(c.core.reg, sid, c.subs[sid]);
      StoppedSame(c, sid);
      SameKeeps(c, Stopped(c, sid), sid);
    }
  }

  lemma DecomposeKeeps(c: Client, cid: int)
    requires TablesOk(c)
    ensures TablesOk(Do(c, Decompose(cid)))
  {
    var d := Do(c, Decompose(cid));
    forall x | x in d.composites ensures CompositeOk(d, x) {
      assert CompositeOk(c, x);
    }
  }

  lemma LowerFlagsKeeps(c: Client)
    requires TablesOk(c)
    ensures TablesOk(Do(c, LowerFlags))
  {
    ResetSame(c);
    SameKeeps(c, Do(c, LowerFlags), 0);
  }

  lemma DoKeeps(c: Client, a: Action)
    requires TablesOk(c) && Proper(c, a) && InBounds(Do(c, a).core.reg)
    ensures TablesOk(Do(c, a))
  {
    match a
    case Enter(name, unit, dtype, period) => AddSingleKeeps(c, name, unit, dtype, period);
    case EnterMany(fields, period) => AddMultiKeeps(c, fields, period);
    case Reserve => ReserveKeeps(c);
    case Compose(_, _) =>
    case Decompose(cid) => DecomposeKeeps(c, cid);
    case ApplyTo(sid) => if sid in c.subs { ApplyAtKeeps(c, sid); }
    case Halt(sid) => HaltKeeps(c, sid);
    case Drop(sid) => UnsubscribeOneKeeps(c, sid);
    case SetMark(sid, typeRequested) => if sid in c.subs { MarkKeeps(c, sid, typeRequested); }
    case LowerFlags => LowerFlagsKeeps(c);
    case OpenArrives => SessionKeeps(c, Do(c, a));
    case NewHandle => OpenKeeps(c);
    case LoseHandle => OpenKeeps(c);
    case LookUp(name, unit, dtype) => WithVarKeeps(c, name, unit, dtype);
    case Define(ref) => DefineKeeps(c, ref);
    case DefineFields(fields) => DefineManyCounts(c.core, fields); DefineManyKeeps(c, fields);
    case AskType(id) => AskedKeeps(c, id);
    case Clear(id) => ClearKeeps(c, id);
    case OtherCalls(calls) => SpentClientKeeps(c, calls);
    case Await(id, entry) => PendingKeeps(c, id, entry);
    case Forget(id) => NotPendingKeeps(c, id);
  }

  // ---- the actions of each step ----

  function Applying(c: Client, sid: int): seq<Action> { if Ready(c) then [ApplyTo(sid)] else [] }

  function Subscribing(c: Client, name: string, unit: string, dtype: int, period: int): seq<Action> {
    if period < 0 || dtype < 0 then []
    else [Enter(name, unit, dtype, period)] + Applying(c, c.core.reg.counters.nextSubId)
  }

  function SubscribingNumeric(c: Client, fields: seq<ParsedField>, period: int): seq<Action> {
    [EnterMany(fields, period)] + Applying(c, c.core.reg.counters.nextSubId)
  }

  function SubscribingStrings(c: Client, fields: seq<ParsedField>, period: int): seq<Action>
    decreases |fields|
  {
    if fields == [] then []
    else
      var (next, ok) := Subscribe(c, fields[0].name, "", STRINGV, period);
      Subscribing(c, fields[0].name, "", STRINGV, period)
      + if ok then SubscribingStrings(next, fields[1..], period) else []
  }

  /** The first half of a composite's calls: its own id, and the numeric child. */
  function FirstHalf(c: Client, numeric: seq<ParsedField>, period: int): (seq<Action>, Client, bool) {
    var reserved := Do(c, Reserve);
    if numeric == [] then ([Reserve], reserved, true)
    else
      var (first, ok) := SubscribeNumeric(reserved, numeric, period);
      ([Reserve] + SubscribingNumeric(reserved, numeric, period), first, ok)
  }

  function NamedLast(c: Client, numeric: seq<ParsedField>, strings: seq<ParsedField>): Action {
    var cid := c.core.reg.counters.nextSubId;
    Compose(cid, Ids(cid + 1, |strings| + if numeric == [] then 0 else 1))
  }

  function SubscribingComposite(c: Client, numeric: seq<ParsedField>, strings: seq<ParsedField>,
                                period: int): seq<Action>
  {
    var (half, first, ok) := FirstHalf(c, numeric, period);
    if !ok then half
    else
      half + (SubscribingStrings(first, strings, period)
              + if SubscribeStrings(first, strings, period).1 then [NamedLast(c, numeric, strings)] else [])
  }

  function SubscribingMany(c: Client, parsed: seq<ParsedField>, period: int): seq<Action> {
    if period < 0 || exists f :: f in parsed && !Supported(f) then []
    else if Strings(parsed) == [] then SubscribingNumeric(c, Numeric(parsed), period)
    else SubscribingComposite(c, Numeric(parsed), Strings(parsed), period)
  }

  function Dropping(sids: seq<int>): seq<Action> {
    if sids == [] then [] else [Drop(sids[0])] + Dropping(sids[1..])
  }

  function Unsubscribing(c: Client, sid: int): seq<Action> {
    if sid in c.composites then [Decompose(sid)] + Dropping(c.composites[sid]) else [Drop(sid)]
  }

  function Recovering(sids: seq<int>): seq<Action> {
    if sids == [] then [] else [Halt(sids[0]), ApplyTo(sids[0])] + Recovering(sids[1..])
  }

  function Restoring(items: seq<int>): seq<Action> {
    if items == [] then [] else [ApplyTo(items[0])] + Restoring(items[1..])
  }

  function DefiningVar(c: Client, name: string, unit: string, dtype: int): seq<Action> {
    [LookUp(name, unit, dtype), Define(GetOrCreateVar(c.core.reg, name, unit, dtype).1)]
  }

  function Asking(c: Client, id: int, entry: Pending): seq<Action> {
    [AskType(id), if Accepts(c.core.remote) then Await(id, entry) else Forget(id)]
  }

  function Getting(c: Client, name: string, unit: string, dtype: int): seq<Action> {
    if dtype < 0 || !Ready(c) then []
    else
      var (core, ref, ok) := DefineVar(c.core, name, unit, dtype);
      DefiningVar(c, name, unit, dtype)
      + if !ok then []
        else Asking(c.(core := core), SlotAt(core.reg, ref).defineId, GetOne(KeyOf(name, unit, dtype), dtype, None))
  }

  function GettingMany(c: Client, fields: seq<ParsedField>): seq<Action> {
    if !Ready(c) || !AllNumeric(fields) then []
    else
      var id := c.core.reg.counters.nextGetManyId;
      var (core, ok) := DefineMany(c.core, fields);
      [DefineFields(fields)]
      + if !ok then []
        else
          Asking(c.(core := core), id, GetMany(Layout(fields), None))
          + if Ask(c.(core := core), id, GetMany(Layout(fields), None)).1 then [] else [Clear(id)]
  }

  function Finishing(c: Client, id: int): seq<Action> {
    if id !in c.pending then []
    else if c.pending[id].GetOne? || !c.core.remote.open then [Forget(id)]
    else [Clear(id), Forget(id)]
  }

  function Setting(c: Client, name: string, unit: string, dtype: int): seq<Action> {
    DefiningVar(c, name, unit, dtype) + if DefineVar(c.core, name, unit, dtype).2 then [OtherCalls(1)] else []
  }

  function Repolling(c: Client, sid: int): seq<Action> {
    if !Ready(c) || sid !in c.subs then []
    else if !SlotAt(c.core.reg, c.subs[sid].slot).defined then [SetMark(sid, false)]
    else [AskType(sid), SetMark(sid, Accepts(c.core.remote))]
  }

  function Answering(c: Client, p: Packet): seq<Action> {
    var id := LookupPending(c, p.requestId);
    if id.None? then [] else [Await(id.value, Answer(c, p).pending[id.value])]
  }

  function Closing(c: Client, hung: bool): seq<Action> {
    if c.core.remote.open && !hung then [OtherCalls(|DefinedKeys(c.core.reg)|), LowerFlags, LoseHandle]
    else [LoseHandle]
  }

  function ActionsOf(c: Client, l: Step): seq<Action> {
    match l
    case CallSubscribe(name, unit, dtype, period) => Subscribing(c, name, unit, dtype, period)
    case CallSubscribeMany(fields, period) => SubscribingMany(c, fields, period)
    case CallUnsubscribe(sid) => Unsubscribing(c, sid)
    case Recover(sid) => Recovering(if sid in c.composites then c.composites[sid] else [sid])
    case CallGet(name, unit, dtype) => Getting(c, name, unit, dtype)
    case CallGetMany(fields) => GettingMany(c, fields)
    case FinishGet(id) => Finishing(c, id)
    case CallSet(name, unit, dtype) => Setting(c, name, unit, dtype)
    case CallOpen => [NewHandle]
    case CallClose(hung) => Closing(c, hung)
    case OpenMessage(items) => [OpenArrives, LowerFlags] + Restoring(items)
    case QuitMessage => [LoseHandle]
    case RestoreAll(items) => [LowerFlags] + Restoring(items)
    case RepollType(sid) => Repolling(c, sid)
    case DataMessage(packet) => Answering(c, packet)
  }

  // ---- the actions of subscribing, recovering and restoring ----

  /** Actions that enter subscriptions or work on them, and end none. */
  predicate Plain(a: Action) { a.Enter? || a.EnterMany? || a.Reserve? || a.Compose? || a.ApplyTo? || a.Halt? }

  predicate AllPlain(actions: seq<Action>) { forall i :: 0 <= i < |actions| ==> Plain(actions[i]) }

  lemma JoinPlain(a: seq<Action>, b: seq<Action>)
    requires AllPlain(a) && AllPlain(b)
    ensures AllPlain(a + b)
  {}

  lemma {:induction false} StringsArePlain(c: Client, fields: seq<ParsedField>, period: int)
    ensures AllPlain(SubscribingStrings(c, fields, period))
    decreases |fields|
  {
    if fields != [] {
      var (next, ok) := Subscribe(c, fields[0].name, "", STRINGV, period);
      StringsArePlain(next, fields[1..], period);
      JoinPlain(Subscribing(c, fields[0].name, "", STRINGV, period),
                if ok then SubscribingStrings(next, fields[1..], period) else []);
    }
  }

  lemma FirstHalfIsPlain(c: Client, numeric: seq<ParsedField>, period: int)
    ensures AllPlain(FirstHalf(c, numeric, period).0)
  {}

  lemma CompositeIsPlain(c: Client, numeric: seq<ParsedField>, strings: seq<ParsedField>, period: int)
    ensures AllPlain(SubscribingComposite(c, numeric, strings, period))
  {
    var (half, first, ok) := FirstHalf(c, numeric, period);
    var named := SubscribingStrings(first, strings, period);
    var last := if SubscribeStrings(first, strings, period).1 then [NamedLast(c, numeric, strings)] else [];
    FirstHalfIsPlain(c, numeric, period);
    StringsArePlain(first, strings, period);
    JoinPlain(named, last);
    JoinPlain(half, named + last);
  }

  lemma SubscribingManyIsPlain(c: Client, fields: seq<ParsedField>, period: int)
    ensures AllPlain(SubscribingMany(c, fields, period))
  {
    CompositeIsPlain(c, Numeric(fields), Strings(fields), period);
  }

  lemma {:induction false} RecoveringIsPlain(sids: seq<int>)
    ensures AllPlain(Recovering(sids))
    decreases |sids|
  {
    if sids != [] {
      RecoveringIsPlain(sids[1..]);
    }
  }

  lemma {:induction false} RestoringIsPlain(items: seq<int>)
    ensures AllPlain(Restoring(items))
    decreases |items|
  {
    if items != [] {
      RestoringIsPlain(items[1..]);
    }
  }

  lemma {:induction false} DroppingOnlyDrops(sids: seq<int>)
    ensures forall i :: 0 <= i < |Dropping(sids)| ==> Dropping(sids)[i].Drop?
    ensures forall s :: Drop(s) in Dropping(sids) <==> s in sids
    decreases |sids|
  {
    if sids != [] {
      DroppingOnlyDrops(sids[1..]);
    }
  }

  // ---- the actions lead where the step leads ----

  lemma TwoLead(c: Client, a: Action, b: Action)
    requires Proper(c, a) && Proper(Do(c, a), b)
    ensures Leads(c, [a, b], Do(Do(c, a), b))
  {
    LeadsByOne(c, a);
    LeadsOneMore(c, [a], Do(c, a), b);
    assert [a] + [b] == [a, b];
  }

  lemma NothingLeads(c: Client)
    ensures Leads(c, [], c)
  {}

  lemma ApplyingLeads(c: Client, sid: int)
    requires sid in c.subs
    ensures Leads(c, Applying(c, sid), ApplyIfReady(c, sid).0)
  {
    if Ready(c) {
      LeadsByOne(c, ApplyTo(sid));
    } else {
      NothingLeads(c);
    }
  }

  lemma SubscribingLeads(c: Client, name: string, unit: string, dtype: int, period: int)
    ensures Leads(c, Subscribing(c, name, unit, dtype, period), Subscribe(c, name, unit, dtype, period).0)
  {
    if period < 0 || dtype < 0 {
      NothingLeads(c);
    } else {
      var d, sid := AddSingle(c, name, unit, dtype, period), c.core.reg.counters.nextSubId;
      LeadsByOne(c, Enter(name, unit, dtype, period));
      ApplyingLeads(d, sid);
      assert Applying(d, sid) == Applying(c, sid);
      LeadsOn(c, [Enter(name, unit, dtype, period)], d, Applying(c, sid), ApplyIfReady(d, sid).0);
    }
  }

  lemma SubscribingNumericLeads(c: Client, fields: seq<ParsedField>, period: int)
    requires AllNumeric(fields)
    ensures Leads(c, SubscribingNumeric(c, fields, period), SubscribeNumeric(c, fields, period).0)
  {
    var d, sid := AddMulti(c, fields, period), c.core.reg.counters.nextSubId;
    LeadsByOne(c, EnterMany(fields, period));
    ApplyingLeads(d, sid);
    assert Applying(d, sid) == Applying(c, sid);
    LeadsOn(c, [EnterMany(fields, period)], d, Applying(c, sid), ApplyIfReady(d, sid).0);
  }

  lemma {:induction false} SubscribingStringsLeads(c: Client, fields: seq<ParsedField>, period: int)
    ensures Leads(c, SubscribingStrings(c, fields, period), SubscribeStrings(c, fields, period).0)
    decreases |fields|
  {
    if fields == [] {
      NothingLeads(c);
    } else {
      var (d, ok) := Subscribe(c, fields[0].name, "", STRINGV, period);
      var first := Subscribing(c, fields[0].name, "", STRINGV, period);
      SubscribingLeads(c, fields[0].name, "", STRINGV, period);
      if ok {
        SubscribingStringsLeads(d, fields[1..], period);
        LeadsOn(c, first, d, SubscribingStrings(d, fields[1..], period), SubscribeStrings(d, fields[1..], period).0);
      } else {
        assert first + [] == first;
      }
    }
  }

  lemma FirstHalfLeads(c: Client, numeric: seq<ParsedField>, period: int)
    requires AllNumeric(numeric)
    ensures Leads(c, FirstHalf(c, numeric, period).0, FirstHalf(c, numeric, period).1)
  {
    var reserved := Do(c, Reserve);
    LeadsByOne(c, Reserve);
    if numeric != [] {
      SubscribingNumericLeads(reserved, numeric, period);
      LeadsOn(c, [Reserve], reserved, SubscribingNumeric(reserved, numeric, period),
              SubscribeNumeric(reserved, numeric, period).0);
    }
  }

  lemma CompositeClient(c: Client, numeric: seq<ParsedField>, strings: seq<ParsedField>, period: int)
    ensures var (half, first, ok) := FirstHalf(c, numeric, period);
      var (all, done) := SubscribeStrings(first, strings, period);
      SubscribeComposite(c, numeric, strings, period).0 ==
        if !ok then first else if done then Do(all, NamedLast(c, numeric, strings)) else all
  {}

  lemma SubscribingCompositeLeads(c: Client, numeric: seq<ParsedField>, strings: seq<ParsedField>, period: int)
    requires AllNumeric(numeric) && TablesOk(SubscribeComposite(c, numeric, strings, period).0)
    ensures Leads(c, SubscribingComposite(c, numeric, strings, period),
                  SubscribeComposite(c, numeric, strings, period).0)
  {
    var (half, first, ok) := FirstHalf(c, numeric, period);
    FirstHalfLeads(c, numeric, period);
    CompositeClient(c, numeric, strings, period);
    if ok {
      SecondHalfLeads(c, half, first, strings, period, NamedLast(c, numeric, strings));
    }
  }

  lemma SecondHalfLeads(c: Client, half: seq<Action>, first: Client, strings: seq<ParsedField>, period: int,
                        last: Action)
    requires Leads(c, half, first) && last.Compose?
    requires var (all, done) := SubscribeStrings(first, strings, period); TablesOk(if done then Do(all, last) else all)
    ensures var (all, done) := SubscribeStrings(first, strings, period);
      Leads(c, half + (SubscribingStrings(first, strings, period) + if done then [last] else []),
            if done then Do(all, last) else all)
  {
    var (all, done) := SubscribeStrings(first, strings, period);
    var named := SubscribingStrings(first, strings, period);
    SubscribingStringsLeads(first, strings, period);
    LeadsOn(c, half, first, named, all);
    if done {
      LeadsOneMore(c, half + named, all, last);
      assert half + named + [last] == half + (named + [last]);
    } else {
      assert half + (named + []) == half + named;
    }
  }

  lemma SubscribingManyLeads(c: Client, parsed: seq<ParsedField>, period: int)
    requires TablesOk(SubscribeMany(c, parsed, period).0)
    ensures Leads(c, SubscribingMany(c, parsed, period), SubscribeMany(c, parsed, period).0)
  {
    if period < 0 || exists f :: f in parsed && !Supported(f) {
      NothingLeads(c);
    } else {
      NumericHalfHasLayout(parsed);
      if Strings(parsed) == [] {
        SubscribingNumericLeads(c, Numeric(parsed), period);
      } else {
        SubscribingCompositeLeads(c, Numeric(parsed), Strings(parsed), period);
      }
    }
  }

  lemma {:induction false} DroppingLeads(c: Client, sids: seq<int>)
    ensures Leads(c, Dropping(sids), UnsubscribeAll(c, sids))
    decreases |sids|
  {
    if sids == [] {
      NothingLeads(c);
    } else {
      LeadsByOne(c, Drop(sids[0]));
      DroppingLeads(UnsubscribeOne(c, sids[0]), sids[1..]);
      LeadsOn(c, [Drop(sids[0])], UnsubscribeOne(c, sids[0]), Dropping(sids[1..]), UnsubscribeAll(c, sids));
    }
  }

  lemma UnsubscribingLeads(c: Client, sid: int)
    ensures Leads(c, Unsubscribing(c, sid), Unsubscribe(c, sid))
  {
    if sid in c.composites {
      LeadsByOne(c, Decompose(sid));
      DroppingLeads(Do(c, Decompose(sid)), c.composites[sid]);
      LeadsOn(c, [Decompose(sid)], Do(c, Decompose(sid)), Dropping(c.composites[sid]), Unsubscribe(c, sid));
    } else {
      LeadsByOne(c, Drop(sid));
    }
  }

  lemma {:induction false} RecoveringLeads(c: Client, sids: seq<int>)
    ensures Leads(c, Recovering(sids), ResubscribeAll(c, sids))
    decreases |sids|
  {
    if sids == [] {
      NothingLeads(c);
    } else {
      var d := ResubscribeOne(c, sids[0]).0;
      TwoLead(c, Halt(sids[0]), ApplyTo(sids[0]));
      assert Do(Do(c, Halt(sids[0])), ApplyTo(sids[0])) == d;
      RecoveringLeads(d, sids[1..]);
      LeadsOn(c, [Halt(sids[0]), ApplyTo(sids[0])], d, Recovering(sids[1..]), ResubscribeAll(c, sids));
    }
  }

  lemma {:induction false} RestoringLeads(c: Client, items: seq<int>)
    ensures Leads(c, Restoring(items), ApplyAll(c, items))
    decreases |items|
  {
    if items == [] {
      NothingLeads(c);
    } else {
      var d := Do(c, ApplyTo(items[0]));
      LeadsByOne(c, ApplyTo(items[0]));
      RestoringLeads(d, items[1..]);
      LeadsOn(c, [ApplyTo(items[0])], d, Restoring(items[1..]), ApplyAll(c, items));
    }
  }

  lemma RestoreLeads(c: Client, items: seq<int>)
    ensures Leads(c, [LowerFlags] + Restoring(items), Restore(c, items))
  {
    LeadsByOne(c, LowerFlags);
    RestoringLeads(Do(c, LowerFlags), items);
    LeadsOn(c, [LowerFlags], Do(c, LowerFlags), Restoring(items), Restore(c, items));
  }

  lemma OnOpenLeads(c: Client, items: seq<int>)
    requires c.core.remote.open
    ensures Leads(c, [OpenArrives, LowerFlags] + Restoring(items), OnOpen(c, items))
  {
    LeadsByOne(c, OpenArrives);
    RestoreLeads(Do(c, OpenArrives), items);
    LeadsOn(c, [OpenArrives], Do(c, OpenArrives), [LowerFlags] + Restoring(items), OnOpen(c, items));
    assert [OpenArrives] + ([LowerFlags] + Restoring(items)) == [OpenArrives, LowerFlags] + Restoring(items);
  }

  // ---- get, get_many, set ----

  /** The slot of the key is the one its own id looks up. */
  lemma LookedUpIsFound(c: Client, name: string, unit: string, dtype: int)
    requires TablesOk(WithVar(c, name, unit, dtype))
    ensures Proper(WithVar(c, name, unit, dtype), Define(GetOrCreateVar(c.core.reg, name, unit, dtype).1))
  {
    assert SoundEntry(WithVar(c, name, unit, dtype).core.reg, KeyOf(name, unit, dtype));
  }

  lemma DefiningVarLeads(c: Client, name: string, unit: string, dtype: int)
    requires TablesOk(c) && InBounds(DefineVar(c.core, name, unit, dtype).0.reg)
    ensures Leads(c, DefiningVar(c, name, unit, dtype), c.(core := DefineVar(c.core, name, unit, dtype).0))
  {
    var ref := GetOrCreateVar(c.core.reg, name, unit, dtype).1;
    DefineVarTouches(c, name, unit, dtype);
    WithVarKeeps(c, name, unit, dtype);
    LookedUpIsFound(c, name, unit, dtype);
    TwoLead(c, LookUp(name, unit, dtype), Define(ref));
  }

  lemma AskingLeads(c: Client, id: int, entry: Pending)
    requires 0 < id < TYPE_REQ_OFFSET && Issued(c.core.reg.counters, id) && PendingOk(c.core.reg, c.subs, id, entry)
    ensures Leads(c, Asking(c, id, entry), Ask(c, id, entry).0)
  {
    var last := if Accepts(c.core.remote) then Await(id, entry) else Forget(id);
    TwoLead(c, AskType(id), last);
  }

  lemma GettingLeads(c: Client, name: string, unit: string, dtype: int)
    requires TablesOk(c) && InBounds(BeginGet(c, name, unit, dtype).0.core.reg)
    ensures Leads(c, Getting(c, name, unit, dtype), BeginGet(c, name, unit, dtype).0)
  {
    if dtype < 0 || !Ready(c) {
      NothingLeads(c);
    } else {
      var (k, ref, ok) := DefineVar(c.core, name, unit, dtype);
      var d, first := c.(core := k), DefiningVar(c, name, unit, dtype);
      assert InBounds(k.reg);
      DefiningVarLeads(c, name, unit, dtype);
      if ok {
        var id, entry := SlotAt(k.reg, ref).defineId, GetOne(KeyOf(name, unit, dtype), dtype, None);
        DefineVarTouches(c, name, unit, dtype);
        DefinedKeeps(c, name, unit, dtype);
        GetFits(d, id, KeyOf(name, unit, dtype));
        AskingLeads(d, id, entry);
        LeadsOn(c, first, d, Asking(d, id, entry), Ask(d, id, entry).0);
      } else {
        assert first + [] == first;
      }
    }
  }

  lemma GettingManyLeads(c: Client, fields: seq<ParsedField>)
    requires TablesOk(c) && InBounds(BeginGetMany(c, fields).0.core.reg)
    ensures Leads(c, GettingMany(c, fields), BeginGetMany(c, fields).0)
  {
    if !Ready(c) || !AllNumeric(fields) {
      NothingLeads(c);
    } else {
      var id := c.core.reg.counters.nextGetManyId;
      var (k, ok) := DefineMany(c.core, fields);
      var d, entry, first := c.(core := k), GetMany(Layout(fields), None), [DefineFields(fields)];
      LeadsByOne(c, DefineFields(fields));
      DefineManyCounts(c.core, fields);
      if ok {
        GetManyCounts(c, fields);
        AskingLeads(d, id, entry);
        AskedManyLeads(c, first, d, id, entry);
        GettingManyIsAsking(c, fields);
      } else {
        assert first + [] == first;
      }
    }
  }

  lemma GettingManyIsAsking(c: Client, fields: seq<ParsedField>)
    requires Ready(c) && AllNumeric(fields) && DefineMany(c.core, fields).1
    ensures var d, entry := c.(core := DefineMany(c.core, fields).0), GetMany(Layout(fields), None);
      var id := c.core.reg.counters.nextGetManyId; var (asked, ok) := Ask(d, id, entry);
      && GettingMany(c, fields) == [DefineFields(fields)] + (Asking(d, id, entry) + if ok then [] else [Clear(id)])
      && BeginGetMany(c, fields).0 == if ok then asked else Do(asked, Clear(id))
  {}

  lemma AskedManyLeads(c: Client, first: seq<Action>, d: Client, id: int, entry: Pending)
    requires Leads(c, first, d) && Leads(d, Asking(d, id, entry), Ask(d, id, entry).0)
    requires GET_MANY_ID_START <= id < d.core.reg.counters.nextGetManyId
    ensures var (asked, ok) := Ask(d, id, entry);
      Leads(c, first + (Asking(d, id, entry) + if ok then [] else [Clear(id)]),
            if ok then asked else Do(asked, Clear(id)))
  {
    var (asked, ok) := Ask(d, id, entry);
    LeadsOn(c, first, d, Asking(d, id, entry), asked);
    if ok {
      assert Asking(d, id, entry) + [] == Asking(d, id, entry);
    } else {
      LeadsOneMore(c, first + Asking(d, id, entry), asked, Clear(id));
      assert first + Asking(d, id, entry) + [Clear(id)] == first + (Asking(d, id, entry) + [Clear(id)]);
    }
  }

  lemma FinishingLeads(c: Client, id: int)
    requires TablesOk(c)
    ensures Leads(c, Finishing(c, id), EndGet(c, id))
  {
    if id !in c.pending {
      NothingLeads(c);
    } else if c.pending[id].GetOne? || !c.core.remote.open {
      LeadsByOne(c, Forget(id));
    } else {
      assert PendingOk(c.core.reg, c.subs, id, c.pending[id]);
      TwoLead(c, Clear(id), Forget(id));
    }
  }

  lemma SettingLeads(c: Client, name: string, unit: string, dtype: int)
    requires TablesOk(c) && InBounds(SetVarDirect(c, name, unit, dtype).core.reg)
    ensures Leads(c, Setting(c, name, unit, dtype), SetVarDirect(c, name, unit, dtype))
  {
    var (k, _, ok) := DefineVar(c.core, name, unit, dtype);
    var d, first := c.(core := k), DefiningVar(c, name, unit, dtype);
    assert InBounds(k.reg);
    DefiningVarLeads(c, name, unit, dtype);
    if ok {
      SpentKeeps(k.remote, 1);
      LeadsOneMore(c, first, d, OtherCalls(1));
    } else {
      assert first + [] == first;
    }
  }

  lemma RepollingLeads(c: Client, sid: int)
    requires TablesOk(c)
    ensures Leads(c, Repolling(c, sid), Repoll(c, sid))
  {
    if !Ready(c) || sid !in c.subs {
      NothingLeads(c);
    } else {
      assert SubOk(c.core.reg, sid, c.subs[sid]);
      if !SlotAt(c.core.reg, c.subs[sid].slot).defined {
        LeadsByOne(c, SetMark(sid, false));
      } else {
        TwoLead(c, AskType(sid), SetMark(sid, Accepts(c.core.remote)));
      }
    }
  }

  lemma AnsweringLeads(c: Client, p: Packet)
    requires TablesOk(c)
    ensures Leads(c, Answering(c, p), Answer(c, p))
  {
    var id := LookupPending(c, p.requestId);
    if id.None? {
      NothingLeads(c);
    } else {
      assert PendingOk(c.core.reg, c.subs, id.value, c.pending[id.value]);
      LeadsByOne(c, Await(id.value, Answer(c, p).pending[id.value]));
    }
  }

  lemma ClosingLeads(c: Client, hung: bool)
    ensures Leads(c, Closing(c, hung), Close(c, hung))
  {
    if c.core.remote.open && !hung {
      var calls := OtherCalls(|DefinedKeys(c.core.reg)|);
      TwoLead(c, calls, LowerFlags);
      LeadsOneMore(c, [calls, LowerFlags], Do(Do(c, calls), LowerFlags), LoseHandle);
      assert [calls, LowerFlags] + [LoseHandle] == Closing(c, hung);
    } else {
      LeadsByOne(c, LoseHandle);
    }
  }

  /** Each step is its actions. */
  lemma StepIsItsActions(c: Client, l: Step)
    requires TablesOk(c) && Enabled(c, l) && InBounds(Next(c, l).core.reg)
    ensures Leads(c, ActionsOf(c, l), Next(c, l))
  {
    StepKeeps(c, l);
    match l
    case CallSubscribe(name, unit, dtype, period) => SubscribingLeads(c, name, unit, dtype, period);
    case CallSubscribeMany(fields, period) => SubscribingManyLeads(c, fields, period);
    case CallUnsubscribe(sid) => UnsubscribingLeads(c, sid);
    case Recover(sid) => RecoveringLeads(c, if sid in c.composites then c.composites[sid] else [sid]);
    case CallGet(name, unit, dtype) => GettingLeads(c, name, unit, dtype);
    case CallGetMany(fields) => GettingManyLeads(c, fields);
    case FinishGet(id) => FinishingLeads(c, id);
    case CallSet(name, unit, dtype) => SettingLeads(c, name, unit, dtype);
    case CallOpen => LeadsByOne(c, NewHandle);
    case CallClose(hung) => ClosingLeads(c, hung);
    case OpenMessage(items) => OnOpenLeads(c, items);
    case QuitMessage => LeadsByOne(c, LoseHandle);
    case RestoreAll(items) => RestoreLeads(c, items);
    case RepollType(sid) => RepollingLeads(c, sid);
    case DataMessage(packet) => AnsweringLeads(c, packet);
  }

  /** The actions of a whole run. */
  function RunActions(c: Client, run: seq<Step>): seq<Action>
    decreases |run|
  {
    if run == [] then [] else ActionsOf(c, run[0]) + RunActions(Next(c, run[0]), run[1..])
  }

  lemma {:induction false} RunIsItsActions(c: Client, run: seq<Step>)
    requires TablesOk(c) && Legal(c, run)
    ensures Leads(c, RunActions(c, run), EndOf(c, run)) && TablesOk(EndOf(c, run))
    decreases |run|
  {
    if run == [] {
      NothingLeads(c);
    } else {
      var d := Next(c, run[0]);
      StepKeeps(c, run[0]);
      StepIsItsActions(c, run[0]);
      RunIsItsActions(d, run[1..]);
      LeadsOn(c, ActionsOf(c, run[0]), d, RunActions(d, run[1..]), EndOf(c, run));
    }
  }
}
