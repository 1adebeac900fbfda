/** The client together with the data messages under way: what a message packed at any moment does when it
    arrives at any later one, whatever the DLL answers and whichever keys are used. */
module Mail {
  import opened Wrappers
  import opened Bytes
  import opened Parsing
  import opened Fields
  import opened RegistryState
  import opened Remote
  import opened Client
  import opened Tables
  import opened TablesKept
  import opened Session
  import opened Actions
  import opened Mirror
  import opened Meaning
  import opened Delivery
  import opened Asked

  /** A message the remote packed for an open request: from which definition, with which values, and whether
      the session was ready then. `tail` is the memory behind it. */
  datatype Letter = Letter(request: int, id: int, def: seq<Field>, values: seq<Value>, tail: Memory, ready: bool)

  function PacketOf(m: Letter): Packet { Message(m.request, m.values, m.tail) }

  /** `mail` lists everything packed so far; it may arrive in any order and any number of times. */
  datatype World = World(client: Client, meanings: Meanings, mail: seq<Letter>)

  datatype Event =
    | Act(step: Step)
    | Post(request: int, values: seq<Value>, tail: Memory)
    | Arrive(i: nat)

  function Start(script: seq<int>): World { World(Init(script), map[], []) }

  /** Data messages are those that were packed. They may be handled after QUIT, by the dispatch that found it. */
  ghost predicate May(x: World, e: Event) {
    match e
    case Act(l) => !l.DataMessage? && Enabled(x.client, l) && InBounds(Next(x.client, l).core.reg)
    case Post(request, values, _) =>
      var r := x.client.core.remote;
      r.open && request in r.requests && Fills(values, Def(r, r.requests[request]))
    case Arrive(i) => i < |x.mail|
  }

  function Then(x: World, e: Event): World {
    match e
    case Act(l) => World(Next(x.client, l), LearnAll(x.client, x.meanings, ActionsOf(x.client, l)), x.mail)
    case Post(request, values, tail) =>
      var r := x.client.core.remote;
      var id := if request in r.requests then r.requests[request] else 0;
      x.(mail := x.mail + [Letter(request, id, Def(r, id), values, tail, Ready(x.client))])
    case Arrive(i) => if i < |x.mail| then x.(client := Answer(x.client, PacketOf(x.mail[i]))) else x
  }

  ghost predicate Possible(x: World, events: seq<Event>)
    decreases |events|
  {
    events == [] || (May(x, events[0]) && Possible(Then(x, events[0]), events[1..]))
  }

  function Finally(x: World, events: seq<Event>): World
    decreases |events|
  {
    if events == [] then x else Finally(Then(x, events[0]), events[1..])
  }

  // ---- what holds at every moment ----

  /** The first value as the decoder reads it: itself, unless it is a text that trailing memory can spoil. */
  predicate Reads(sent: Value, got: Value) { got == sent || (sent.Text? && !SafeCString(sent.bytes)) }

  ghost predicate Genuine(n: Counters, w: Meanings, m: Letter) {
    && Fills(m.values, m.def) && m.id == Base(m.request) && Issued(n, m.id)
    && (m.id in w && |w[m.id]| == 1 ==> exists k: nat :: m.def == Repeat(w[m.id], k))
  }

  /** A field that defines the variable of the key. */
  ghost predicate StandsFor(f: Field, key: VarKey) { exists slot: VarSlot :: SlotField(slot) == f && slot.Key() == key }

  /** A waiting entry asks for what its id stands for. */
  ghost predicate Fits(w: Meanings, id: int, p: Pending) {
    id in w && match p
      case GetOne(key, _, _) => |w[id]| == 1 && StandsFor(w[id][0], key)
      case GetMany(layout, _) =>
        exists fields :: AllNumeric(fields) && layout == Layout(fields) && w[id] == RemoteFields(fields)
  }

  /** What an entry holds came out of a letter for its id. */
  ghost predicate Obtained(mail: seq<Letter>, id: int, p: Pending) {
    match p
    case GetOne(_, _, one) =>
      one.Some? ==> exists m :: m in mail && m.id == id && m.values != [] && Reads(m.values[0], one.value)
    case GetMany(layout, many) =>
      many.Some? ==> exists m :: m in mail && m.id == id && DictOf(many.value, layout, m.values)
  }

  /** As long as a get_many waits, requests for its id pack exactly its fields. */
  ghost predicate Exact(c: Client, w: Meanings, id: int) {
    forall q :: q in c.core.remote.requests && c.core.remote.requests[q] == id ==>
      id in w && Def(c.core.remote, id) == w[id]
  }

  ghost predicate Waiting(x: World, id: int)
    requires id in x.client.pending
  {
    && Fits(x.meanings, id, x.client.pending[id]) && Obtained(x.mail, id, x.client.pending[id])
    && (x.client.pending[id].GetMany? ==>
          Exact(x.client, x.meanings, id) && forall m :: m in x.mail && m.id == id ==> m.def == x.meanings[id])
  }

  ghost predicate Consistent(x: World) {
    && Means(x.client, x.meanings)
    && (forall m :: m in x.mail ==> Genuine(x.client.core.reg.counters, x.meanings, m))
    && (forall id :: id in x.client.pending ==> Waiting(x, id))
  }

  // ---- what the other steps leave alone ----

  /** Requests for b that are open afterwards were open before, and b is defined as it was. */
  ghost predicate Leaves(c: Client, d: Client, b: int) {
    forall q :: q in d.core.remote.requests && d.core.remote.requests[q] == b ==>
      q in c.core.remote.requests && c.core.remote.requests[q] == b && Def(d.core.remote, b) == Def(c.core.remote, b)
  }

  /** Actions that begin or end no get. */
  predicate Bystander(a: Action) {
    && !a.Await? && !a.Forget? && !a.Clear? && !a.DefineFields?
    && (a.AskType? ==> a.id < GET_MANY_ID_START)
  }

  predicate Bystanders(actions: seq<Action>) { forall i :: 0 <= i < |actions| ==> Bystander(actions[i]) }

  lemma TouchesLeaves(c: Client, d: Client, id: int, b: int)
    requires Touches(c.core, d.core, id) && id != b
    ensures Leaves(c, d, b)
  {}

  lemma ApplyLeaves(c: Client, s: int, b: int)
    requires TablesOk(c) && s in c.subs && GET_MANY_ID_START <= b
    ensures ApplyAt(c, s).0.pending == c.pending && Leaves(c, ApplyAt(c, s).0, b)
  {
    assert SubOk(c.core.reg, s, c.subs[s]);
    ApplyAtSame(c, s);
    TouchesLeaves(c, ApplyAt(c, s).0, s, b);
  }

  lemma HaltLeaves(c: Client, s: int, b: int)
    requires TablesOk(c) && s in c.subs && GET_MANY_ID_START <= b
    ensures Stopped(c, s).pending == c.pending && Leaves(c, Stopped(c, s), b)
  {
    assert SubOk(c.core.reg, s, c.subs[s]);
    StoppedSame(c, s);
    TouchesLeaves(c, Stopped(c, s), s, b);
  }

  lemma DefineLeaves(c: Client, ref: SlotRef, b: int)
    requires TablesOk(c) && Proper(c, Define(ref)) && GET_MANY_ID_START <= b
    ensures Do(c, Define(ref)).pending == c.pending && Leaves(c, Do(c, Define(ref)), b)
  {
    DefineSame(c, ref);
    assert c.core.reg.slots[ref].defineId in c.core.reg.idToKey;
    TouchesLeaves(c, Do(c, Define(ref)), c.core.reg.slots[ref].defineId, b);
  }

  lemma AskLeaves(c: Client, id: int, b: int)
    requires 0 < id < GET_MANY_ID_START <= b
    ensures Do(c, AskType(id)).pending == c.pending && Leaves(c, Do(c, AskType(id)), b)
  {
    AskTouches(c.core, id);
    TouchesLeaves(c, Do(c, AskType(id)), id, b);
  }

  lemma BystanderLeaves(c: Client, a: Action, b: int)
    requires TablesOk(c) && Proper(c, a) && Bystander(a) && GET_MANY_ID_START <= b < c.core.reg.counters.nextGetManyId
    ensures Do(c, a).pending == c.pending && Leaves(c, Do(c, a), b)
  {
    match a
    case ApplyTo(s) => if s in c.subs { ApplyLeaves(c, s, b); }
    case Halt(s) => if s in c.subs { HaltLeaves(c, s, b); }
    case Drop(s) =>
      if s in c.subs {
        assert SubOk(c.core.reg, s, c.subs[s]);
        DropLeaves(c, s, b);
      }
    case Define(ref) => DefineLeaves(c, ref, b);
    case AskType(id) => AskLeaves(c, id, b);
    case OtherCalls(calls) => SpentKeeps(c.core.remote, calls);
    case _ =>
  }

  lemma DropLeaves(c: Client, s: int, b: int)
    requires s in c.subs && s != b
    ensures UnsubscribeOne(c, s).pending == c.pending && Leaves(c, UnsubscribeOne(c, s), b)
  {
    StopTouches(c.core, s);
  }

  lemma {:induction false} BystandersLeave(c: Client, actions: seq<Action>, b: int)
    requires TablesOk(c) && AllProper(c, actions) && InBounds(After(c, actions).core.reg) && Bystanders(actions)
    requires GET_MANY_ID_START <= b < c.core.reg.counters.nextGetManyId
    ensures After(c, actions).pending == c.pending && Leaves(c, After(c, actions), b)
    decreases |actions|
  {
    if actions != [] {
      var d := Do(c, actions[0]);
      AfterLeq(d, actions[1..]);
      BoundsBelow(d.core.reg, After(c, actions).core.reg);
      DoLeq(c, actions[0]);
      DoKeeps(c, actions[0]);
      BystanderLeaves(c, actions[0], b);
      BystandersLeave(d, actions[1..], b);
    }
  }

  lemma {:induction false} BystandersKeepPending(c: Client, actions: seq<Action>)
    requires Bystanders(actions)
    ensures After(c, actions).pending == c.pending
    decreases |actions|
  {
    if actions != [] {
      BystandersKeepPending(Do(c, actions[0]), actions[1..]);
    }
  }

  lemma PlainStandBy(actions: seq<Action>)
    requires AllPlain(actions)
    ensures Bystanders(actions)
  {}

  predicate Gets(l: Step) { l.CallGet? || l.CallGetMany? || l.FinishGet? || l.DataMessage? }

  lemma RepollStandsBy(c: Client, sid: int)
    requires TablesOk(c)
    ensures Bystanders(Repolling(c, sid))
  {
    if sid in c.subs {
      assert SubOk(c.core.reg, sid, c.subs[sid]);
    }
  }

  lemma SubscribeManyStandsBy(c: Client, fields: seq<ParsedField>, period: int)
    ensures Bystanders(SubscribingMany(c, fields, period))
  {
    SubscribingManyIsPlain(c, fields, period);
    PlainStandBy(SubscribingMany(c, fields, period));
  }

  lemma UnsubscribeStandsBy(c: Client, sid: int)
    ensures Bystanders(Unsubscribing(c, sid))
  {
    if sid in c.composites {
      DroppingOnlyDrops(c.composites[sid]);
    }
  }

  lemma RecoverStandsBy(sids: seq<int>)
    ensures Bystanders(Recovering(sids))
  {
    RecoveringIsPlain(sids);
  }

  lemma RestoreStandsBy(items: seq<int>)
    ensures Bystanders([LowerFlags] + Restoring(items))
    ensures Bystanders([OpenArrives, LowerFlags] + Restoring(items))
  {
    RestoringIsPlain(items);
  }

  lemma SetStandsBy(c: Client, name: string, unit: string, dtype: int)
    ensures Bystanders(Setting(c, name, unit, dtype))
  {}

  lemma CloseStandsBy(c: Client, hung: bool)
    ensures Bystanders(Closing(c, hung))
  {}

  lemma StepStandsBy(c: Client, l: Step)
    requires TablesOk(c) && !Gets(l)
    ensures Bystanders(ActionsOf(c, l))
  {
    match l
    case CallSubscribeMany(fields, period) => SubscribeManyStandsBy(c, fields, period);
    case CallUnsubscribe(sid) => UnsubscribeStandsBy(c, sid);
    case CallSet(name, unit, dtype) => SetStandsBy(c, name, unit, dtype);
    case CallClose(hung) => CloseStandsBy(c, hung);
    case Recover(sid) => RecoverStandsBy(if sid in c.composites then c.composites[sid] else [sid]);
    case OpenMessage(items) => RestoreStandsBy(items);
    case RestoreAll(items) => RestoreStandsBy(items);
    case RepollType(sid) => RepollStandsBy(c, sid);
    case _ =>
  }

  // ---- entries and letters through a step ----

  lemma IssuedIsDrawn(c: Client, id: int)
    requires TablesOk(c) && Issued(c.core.reg.counters, id)
    ensures !NotDrawn(c.core.reg.counters, id)
  {}

  lemma GenuineStays(c: Client, w: Meanings, d: Client, v: Meanings, m: Letter)
    requires TablesOk(c) && Genuine(c.core.reg.counters, w, m)
    requires Leq(c.core.reg.counters, d.core.reg.counters) && Extends(w, v)
    requires forall id :: id in v && id !in w ==> NotDrawn(c.core.reg.counters, id)
    ensures Genuine(d.core.reg.counters, v, m)
  {
    IssuedIsDrawn(c, m.id);
  }

  lemma FitsStays(w: Meanings, v: Meanings, id: int, p: Pending)
    requires Fits(w, id, p) && Extends(w, v)
    ensures Fits(v, id, p)
  {}

  /** What a step does to the meanings and the counters. */
  lemma StepLearns(c: Client, w: Meanings, l: Step)
    requires Means(c, w) && Enabled(c, l) && InBounds(Next(c, l).core.reg)
    ensures var d, v := Next(c, l), LearnAll(c, w, ActionsOf(c, l));
      && Means(d, v) && Extends(w, v) && Leq(c.core.reg.counters, d.core.reg.counters)
      && forall id :: id in v && id !in w ==> NotDrawn(c.core.reg.counters, id)
  {
    StepIsItsActions(c, l);
    AfterLeq(c, ActionsOf(c, l));
    AfterMeans(c, w, ActionsOf(c, l));
    AfterExtends(c, w, ActionsOf(c, l));
  }

  lemma LettersStay(x: World, l: Step)
    requires Consistent(x) && May(x, Act(l))
    ensures var y := Then(x, Act(l)); forall m :: m in y.mail ==> Genuine(y.client.core.reg.counters, y.meanings, m)
  {
    var y := Then(x, Act(l));
    StepLearns(x.client, x.meanings, l);
    forall m | m in y.mail ensures Genuine(y.client.core.reg.counters, y.meanings, m) {
      GenuineStays(x.client, x.meanings, y.client, y.meanings, m);
    }
  }

  /** An entry that was there stays right if its own id is left alone. */
  lemma WaitingStays(x: World, y: World, id: int)
    requires id in x.client.pending && id in y.client.pending && y.client.pending[id] == x.client.pending[id]
    requires Waiting(x, id) && Extends(x.meanings, y.meanings) && y.mail == x.mail
    requires x.client.pending[id].GetMany? ==> Leaves(x.client, y.client, id)
    ensures Waiting(y, id)
  {
    FitsStays(x.meanings, y.meanings, id, x.client.pending[id]);
  }

  lemma OtherStepWaits(x: World, l: Step)
    requires Consistent(x) && May(x, Act(l)) && !Gets(l)
    ensures var y := Then(x, Act(l)); forall id :: id in y.client.pending ==> Waiting(y, id)
  {
    var c, y := x.client, Then(x, Act(l));
    StepIsItsActions(c, l);
    StepStandsBy(c, l);
    StepLearns(c, x.meanings, l);
    BystandersKeepPending(c, ActionsOf(c, l));
    forall id | id in y.client.pending ensures Waiting(y, id) {
      assert PendingOk(c.core.reg, c.subs, id, c.pending[id]);
      if c.pending[id].GetMany? {
        BystandersLeave(c, ActionsOf(c, l), id);
      }
      WaitingStays(x, y, id);
    }
  }

  // ---- the steps of a get ----

  lemma GetPending(c: Client, name: string, unit: string, dtype: int)
    requires c.pending == map[]
    ensures var d := BeginGet(c, name, unit, dtype).0; var id := VarId(c, name, unit, dtype);
      d.pending == map[] ||
      (DefineVar(c.core, name, unit, dtype).2 && Ready(c) && dtype >= 0
       && d.pending == map[id := GetOne(KeyOf(name, unit, dtype), dtype, None)])
  {
    DefineVarTouches(c, name, unit, dtype);
  }

  lemma NamedStandsFor(c: Client, w: Meanings, key: VarKey)
    requires Means(c, w) && key in c.core.reg.vars
    ensures var id := SlotAt(c.core.reg, c.core.reg.vars[key]).defineId;
      id in w && |w[id]| == 1 && StandsFor(w[id][0], key)
  {
    assert SoundEntry(c.core.reg, key) && Named(c.core.reg, w, c.core.reg.vars[key]);
    var slot := SlotAt(c.core.reg, c.core.reg.vars[key]);
    assert SlotField(slot) == w[slot.defineId][0] && slot.Key() == key;
  }

  lemma GetRegisters(c: Client, name: string, unit: string, dtype: int)
    requires TablesOk(c) && InBounds(BeginGet(c, name, unit, dtype).0.core.reg) && Ready(c) && dtype >= 0
    ensures var d, key := BeginGet(c, name, unit, dtype).0, KeyOf(name, unit, dtype);
      key in d.core.reg.vars && SlotAt(d.core.reg, d.core.reg.vars[key]).defineId == VarId(c, name, unit, dtype)
  {
    BeginGetRegistry(c, name, unit, dtype);
    DefineVarTouches(c, name, unit, dtype);
    DefinedIsRegistered(c, name, unit, dtype);
  }

  lemma GetWaits(x: World, name: string, unit: string, dtype: int)
    requires Consistent(x) && May(x, Act(CallGet(name, unit, dtype)))
    ensures var y := Then(x, Act(CallGet(name, unit, dtype))); forall id :: id in y.client.pending ==> Waiting(y, id)
  {
    var c, l := x.client, CallGet(name, unit, dtype);
    var y := Then(x, Act(l));
    GetPending(c, name, unit, dtype);
    StepLearns(c, x.meanings, l);
    if y.client.pending != map[] {
      GetRegisters(c, name, unit, dtype);
      NamedStandsFor(y.client, y.meanings, KeyOf(name, unit, dtype));
      NewGetWaits(y, VarId(c, name, unit, dtype), KeyOf(name, unit, dtype), dtype);
    }
  }

  lemma NewGetWaits(y: World, id: int, key: VarKey, dtype: int)
    requires y.client.pending == map[id := GetOne(key, dtype, None)]
    requires id in y.meanings && |y.meanings[id]| == 1 && StandsFor(y.meanings[id][0], key)
    ensures forall b :: b in y.client.pending ==> Waiting(y, b)
  {}

  lemma LearnsOnlyFields(c: Client, w: Meanings, fields: seq<ParsedField>)
    requires Ready(c) && AllNumeric(fields)
    ensures LearnAll(c, w, GettingMany(c, fields)) == w[c.core.reg.counters.nextGetManyId := RemoteFields(fields)]
  {
    var actions := GettingMany(c, fields);
    var d, v := Do(c, DefineFields(fields)), w[c.core.reg.counters.nextGetManyId := RemoteFields(fields)];
    assert actions[0] == DefineFields(fields);
    LearnsNothing(d, v, actions[1..]);
  }

  predicate Draws(a: Action) { a.Enter? || a.EnterMany? || a.LookUp? || a.DefineFields? }

  lemma {:induction false} LearnsNothing(c: Client, w: Meanings, actions: seq<Action>)
    requires forall i :: 0 <= i < |actions| ==> !Draws(actions[i])
    ensures LearnAll(c, w, actions) == w
    decreases |actions|
  {
    if actions != [] {
      LearnsNothing(Do(c, actions[0]), w, actions[1..]);
    }
  }

  lemma GetManyPending(c: Client, fields: seq<ParsedField>)
    requires c.pending == map[] && Undrawn(c) && TablesOk(c) && c.core.reg.counters.nextGetManyId < TYPE_REQ_OFFSET
    ensures var d := BeginGetMany(c, fields).0; var id := c.core.reg.counters.nextGetManyId;
      d.pending == map[] ||
      (Ready(c) && AllNumeric(fields) && d.pending == map[id := GetMany(Layout(fields), None)]
       && Def(d.core.remote, id) == RemoteFields(fields))
  {
    var id := c.core.reg.counters.nextGetManyId;
    assert NotDrawn(c.core.reg.counters, id);
    assert GetVarByDefineId(c.core.reg, id) == None;
    if Ready(c) && AllNumeric(fields) {
      DefineManyMakes(c.core, fields);
      CalledKeeps(DefineMany(c.core, fields).0.remote);
      assert [] + RemoteFields(fields) == RemoteFields(fields);
    }
  }

  lemma NewManyWaits(y: World, id: int, fields: seq<ParsedField>)
    requires y.client.pending == map[id := GetMany(Layout(fields), None)] && AllNumeric(fields)
    requires id in y.meanings && y.meanings[id] == RemoteFields(fields)
    requires Def(y.client.core.remote, id) == RemoteFields(fields) && forall m :: m in y.mail ==> m.id != id
    ensures forall b :: b in y.client.pending ==> Waiting(y, b)
  {}

  lemma NewIdHasNoLetter(x: World)
    requires Consistent(x)
    ensures forall m :: m in x.mail ==> m.id != x.client.core.reg.counters.nextGetManyId
  {
    forall m | m in x.mail ensures m.id != x.client.core.reg.counters.nextGetManyId {
      assert Genuine(x.client.core.reg.counters, x.meanings, m);
    }
  }

  lemma GetManyWaits(x: World, fields: seq<ParsedField>)
    requires Consistent(x) && May(x, Act(CallGetMany(fields)))
    ensures var y := Then(x, Act(CallGetMany(fields))); forall id :: id in y.client.pending ==> Waiting(y, id)
  {
    var c, l := x.client, CallGetMany(fields);
    var y, id := Then(x, Act(l)), c.core.reg.counters.nextGetManyId;
    if Ready(c) && AllNumeric(fields) {
      GetManyCounts(c, fields);
      GetManyPending(c, fields);
      LearnsOnlyFields(c, x.meanings, fields);
      NewIdHasNoLetter(x);
      if y.client.pending != map[] {
        NewManyWaits(y, id, fields);
      }
    }
  }

  lemma FinishWaits(x: World, id: int)
    requires Consistent(x) && May(x, Act(FinishGet(id)))
    ensures var y := Then(x, Act(FinishGet(id))); forall b :: b in y.client.pending ==> Waiting(y, b)
  {
    var y := Then(x, Act(FinishGet(id)));
    StepLearns(x.client, x.meanings, FinishGet(id));
    forall b | b in y.client.pending ensures Waiting(y, b) {
      FinishLeaves(x.client, id, b);
      WaitingStays(x, y, b);
    }
  }

  lemma FinishLeaves(c: Client, id: int, b: int)
    requires b in EndGet(c, id).pending
    ensures b in c.pending && EndGet(c, id).pending[b] == c.pending[b] && Leaves(c, EndGet(c, id), b)
  {
    ClearTouches(c.core, id);
    if id in c.pending {
      TouchesLeaves(c, EndGet(c, id), id, b);
    }
  }

  lemma ActKeeps(x: World, l: Step)
    requires Consistent(x) && May(x, Act(l))
    ensures Consistent(Then(x, Act(l)))
  {
    StepLearns(x.client, x.meanings, l);
    LettersStay(x, l);
    match l
    case CallGet(name, unit, dtype) => GetWaits(x, name, unit, dtype);
    case CallGetMany(fields) => GetManyWaits(x, fields);
    case FinishGet(id) => FinishWaits(x, id);
    case _ => OtherStepWaits(x, l);
  }

  // ---- packing and arriving ----

  lemma PostKeeps(x: World, request: int, values: seq<Value>, tail: Memory)
    requires Consistent(x) && May(x, Post(request, values, tail))
    ensures Consistent(Then(x, Post(request, values, tail)))
  {
    var c, y := x.client, Then(x, Post(request, values, tail));
    var m := y.mail[|x.mail|];
    assert y.mail == x.mail + [m];
    if m.id in x.meanings && |x.meanings[m.id]| == 1 {
      assert MadeOf(c.core.remote, m.id, x.meanings[m.id]);
      var k: nat :| Copies(m.def, x.meanings[m.id], k) || m.def == Repeat(x.meanings[m.id], k);
    }
    assert Genuine(c.core.reg.counters, x.meanings, m);
    forall id | id in y.client.pending ensures Waiting(y, id) {
      assert Waiting(x, id);
      assert forall l :: l in x.mail ==> l in y.mail;
    }
  }

  lemma ArrivalFinds(c: Client, m: Letter)
    requires TablesOk(c) && m.id == Base(m.request) && Issued(c.core.reg.counters, m.id)
    ensures LookupPending(c, m.request) == if m.id in c.pending then Some(m.id) else None
    ensures Lookup(c, m.request) == if m.id in c.subs then Some(m.id) else None
  {
    assert forall b :: b in c.pending ==> PendingOk(c.core.reg, c.subs, b, c.pending[b]);
    assert forall s :: s in c.subs ==> SubOk(c.core.reg, s, c.subs[s]);
  }

  lemma {:induction false} CopiesOfOne(f: Field, k: nat)
    ensures |Repeat([f], k)| == k
  {
    if k > 0 {
      CopiesOfOne(f, k - 1);
    }
  }

  /** The first value of a letter whose definition is copies of one field, as the field's datatype reads it. */
  lemma OneFieldReads(m: Letter, f: Field, k: nat)
    requires Fills(m.values, m.def) && m.def == Repeat([f], k)
    ensures var v := ReadData(PacketOf(m), f.dtype);
      && (m.values == [] ==> v == None)
      && (m.values != [] && v.Some? ==> Reads(m.values[0], v.value))
      && (m.values != [] && (m.values[0].Text? ==> SafeCString(m.values[0].bytes)) ==> v == Some(m.values[0]))
  {
    CopiesOfOne(f, k);
    if m.values != [] {
      RepeatStarts([f], k);
      if m.values[0].Text? ==> SafeCString(m.values[0].bytes) {
        FirstValueIsRead(m.def, f, m.values, m.tail);
      }
    }
  }

  lemma KeyDatatype(f: Field, key: VarKey)
    requires StandsFor(f, key)
    ensures f.dtype == key.dtype
  {}

  lemma AnswerToOne(c: Client, id: int, p: Packet)
    requires LookupPending(c, p.requestId) == Some(id) && c.pending[id].GetOne?
    ensures var old_ := c.pending[id]; var v := ReadData(p, old_.dtype);
      Answer(c, p).pending == c.pending[id := GetOne(old_.key, old_.dtype, if v.Some? then v else old_.one)]
  {}

  /** What the letter reads as with the datatype of the waiting get. */
  lemma OneRead(x: World, m: Letter)
    requires Consistent(x) && m in x.mail && m.id in x.client.pending && x.client.pending[m.id].GetOne?
    ensures var v := ReadData(PacketOf(m), x.client.pending[m.id].dtype);
      && (v.Some? ==> m.values != [] && Reads(m.values[0], v.value))
      && (m.values != [] && (m.values[0].Text? ==> SafeCString(m.values[0].bytes)) ==> v == Some(m.values[0]))
  {
    var c, w, p := x.client, x.meanings, x.client.pending[m.id];
    assert Genuine(c.core.reg.counters, w, m) && Waiting(x, m.id) && PendingOk(c.core.reg, c.subs, m.id, p);
    KeyDatatype(w[m.id][0], p.key);
    assert w[m.id] == [w[m.id][0]];
    var k: nat :| m.def == Repeat(w[m.id], k);
    OneFieldReads(m, w[m.id][0], k);
  }

  lemma OneAnswered(x: World, m: Letter)
    requires Consistent(x) && m in x.mail && m.id in x.client.pending && x.client.pending[m.id].GetOne?
    ensures var d, p := Answer(x.client, PacketOf(m)), x.client.pending[m.id]; var v := ReadData(PacketOf(m), p.dtype);
      && d.pending == x.client.pending[m.id := GetOne(p.key, p.dtype, if v.Some? then v else p.one)]
      && (v.Some? ==> m.values != [] && Reads(m.values[0], v.value))
      && (m.values != [] && (m.values[0].Text? ==> SafeCString(m.values[0].bytes)) ==> v == Some(m.values[0]))
  {
    assert Genuine(x.client.core.reg.counters, x.meanings, m);
    ArrivalFinds(x.client, m);
    AnswerToOne(x.client, m.id, PacketOf(m));
    OneRead(x, m);
  }

  lemma ManyRead(m: Letter, fields: seq<ParsedField>)
    requires Fills(m.values, m.def) && m.def == RemoteFields(fields) && AllNumeric(fields)
    ensures var read := ReadSlices(PacketOf(m).payload, Layout(fields), AnyValue);
      read.Some? && DictOf(read.value, Layout(fields), m.values)
  {
    FirstValuesHold(m.def, fields, m.values, m.tail);
    assert m.values[..|fields|] == m.values;
    ReadSlicesReads(Pack(m.values) + m.tail, Layout(fields), m.values, AnyValue);
  }

  lemma AnswerToMany(c: Client, id: int, p: Packet)
    requires LookupPending(c, p.requestId) == Some(id) && c.pending[id].GetMany?
    requires ReadSlices(p.payload, c.pending[id].layout, AnyValue).Some?
    ensures var layout := c.pending[id].layout;
      Answer(c, p).pending == c.pending[id := GetMany(layout, ReadSlices(p.payload, layout, AnyValue))]
  {}

  lemma HeldByMany(mail: seq<Letter>, m: Letter, layout: seq<Slice>, read: Option<map<string, Value>>)
    requires m in mail && read.Some? && DictOf(read.value, layout, m.values)
    ensures Obtained(mail, m.id, GetMany(layout, read))
  {}

  lemma ManyAnswered(x: World, m: Letter)
    requires Consistent(x) && m in x.mail && m.id in x.client.pending && x.client.pending[m.id].GetMany?
    ensures var d, layout := Answer(x.client, PacketOf(m)), x.client.pending[m.id].layout;
      var entry := GetMany(layout, ReadSlices(PacketOf(m).payload, layout, AnyValue));
      d.pending == x.client.pending[m.id := entry] && Obtained(x.mail, m.id, entry)
  {
    var c, p := x.client, x.client.pending[m.id];
    assert Genuine(c.core.reg.counters, x.meanings, m) && Waiting(x, m.id);
    ArrivalFinds(c, m);
    var fields :| AllNumeric(fields) && p.layout == Layout(fields) && x.meanings[m.id] == RemoteFields(fields);
    ManyRead(m, fields);
    AnswerToMany(c, m.id, PacketOf(m));
    HeldByMany(x.mail, m, p.layout, ReadSlices(PacketOf(m).payload, p.layout, AnyValue));
  }

  /** Only the entry of one id has changed, and it still fits what the id stands for. */
  lemma ChangedWaits(x: World, y: World, id: int, b: int)
    requires Consistent(x) && id in x.client.pending && id in y.client.pending && b in y.client.pending
    requires y == x.(client := x.client.(pending := x.client.pending[id := y.client.pending[id]]))
    requires Fits(x.meanings, id, y.client.pending[id]) && Obtained(x.mail, id, y.client.pending[id])
    requires y.client.pending[id].GetMany? == x.client.pending[id].GetMany?
    ensures Waiting(y, b)
  {
    assert Waiting(x, b);
  }

  lemma OneArrives(x: World, m: Letter, y: World, b: int)
    requires Consistent(x) && m in x.mail && m.id in x.client.pending && x.client.pending[m.id].GetOne?
    requires y == x.(client := Answer(x.client, PacketOf(m))) && b in y.client.pending
    ensures Waiting(y, b)
  {
    assert Waiting(x, m.id);
    OneAnswered(x, m);
    ChangedWaits(x, y, m.id, b);
  }

  lemma ManyArrives(x: World, m: Letter, y: World, b: int)
    requires Consistent(x) && m in x.mail && m.id in x.client.pending && x.client.pending[m.id].GetMany?
    requires y == x.(client := Answer(x.client, PacketOf(m))) && b in y.client.pending
    ensures Waiting(y, b)
  {
    assert Waiting(x, m.id);
    ManyAnswered(x, m);
    ChangedWaits(x, y, m.id, b);
  }

  lemma ArrivedWaits(x: World, i: nat, b: int)
    requires Consistent(x) && May(x, Arrive(i)) && b in Then(x, Arrive(i)).client.pending
    ensures Waiting(Then(x, Arrive(i)), b)
  {
    var m, y := x.mail[i], Then(x, Arrive(i));
    assert m in x.mail && Genuine(x.client.core.reg.counters, x.meanings, m);
    ArrivalFinds(x.client, m);
    if m.id !in x.client.pending {
      assert y == x && Waiting(x, b);
    } else if x.client.pending[m.id].GetOne? {
      OneArrives(x, m, y, b);
    } else {
      ManyArrives(x, m, y, b);
    }
  }

  lemma ArriveKeeps(x: World, i: nat)
    requires Consistent(x) && May(x, Arrive(i))
    ensures Consistent(Then(x, Arrive(i)))
  {
    var y := Then(x, Arrive(i));
    AnswerKeeps(x.client, PacketOf(x.mail[i]));
    OutsideMeans(x.client, y.client, x.meanings);
    forall b | b in y.client.pending ensures Waiting(y, b) {
      ArrivedWaits(x, i, b);
    }
  }

  lemma ThenKeeps(x: World, e: Event)
    requires Consistent(x) && May(x, e)
    ensures Consistent(Then(x, e))
  {
    match e
    case Act(l) => ActKeeps(x, l);
    case Post(request, values, tail) => PostKeeps(x, request, values, tail);
    case Arrive(i) => ArriveKeeps(x, i);
  }

  lemma {:induction false} AlwaysConsistent(x: World, events: seq<Event>)
    requires Consistent(x) && Possible(x, events)
    ensures Consistent(Finally(x, events))
    decreases |events|
  {
    if events != [] {
      ThenKeeps(x, events[0]);
      AlwaysConsistent(Then(x, events[0]), events[1..]);
    }
  }

  lemma StartIsConsistent(script: seq<int>)
    ensures Consistent(Start(script))
  {
    InitMeans(script);
  }

  // ---- what get and get_many hand out ----

  /** v is the first value of a letter for the id, packed from copies of one field that defines the key's
      variable. */
  ghost predicate FromVariable(x: World, id: int, m: Letter, f: Field, k: nat, key: VarKey, v: Value) {
    && m in x.mail && m.id == id && Fills(m.values, m.def) && m.def == Repeat([f], k) && StandsFor(f, key)
    && m.values != [] && Reads(m.values[0], v)
  }

  /** values are those of a letter for the id, key by key, packed from exactly the fields the id was drawn for. */
  ghost predicate FromFields(x: World, id: int, m: Letter, fields: seq<ParsedField>, layout: seq<Slice>,
                             values: map<string, Value>)
  {
    && m in x.mail && m.id == id && ListsVerbatim(m.def, fields)
    && id in x.meanings && x.meanings[id] == m.def
    && layout == Layout(fields) && Fills(m.values, m.def) && ByKey(values, fields, m.values)
  }

  lemma OneIsFromItsVariable(x: World, id: int)
    requires Consistent(x) && id in x.client.pending
    requires x.client.pending[id].GetOne? && x.client.pending[id].one.Some?
    ensures var p := x.client.pending[id]; exists m, f, k: nat :: FromVariable(x, id, m, f, k, p.key, p.one.value)
  {
    var p := x.client.pending[id];
    assert Waiting(x, id);
    var m :| m in x.mail && m.id == id && m.values != [] && Reads(m.values[0], p.one.value);
    assert Genuine(x.client.core.reg.counters, x.meanings, m);
    var f := x.meanings[id][0];
    assert x.meanings[id] == [f];
    var k: nat :| m.def == Repeat(x.meanings[id], k);
    assert FromVariable(x, id, m, f, k, p.key, p.one.value);
  }

  lemma ManyIsFromItsFields(x: World, id: int)
    requires Consistent(x) && id in x.client.pending
    requires x.client.pending[id].GetMany? && x.client.pending[id].many.Some?
    ensures var p := x.client.pending[id]; exists m, fields :: FromFields(x, id, m, fields, p.layout, p.many.value)
  {
    var p := x.client.pending[id];
    assert Waiting(x, id);
    var m :| m in x.mail && m.id == id && DictOf(p.many.value, p.layout, m.values);
    var fields :| AllNumeric(fields) && p.layout == Layout(fields) && x.meanings[id] == RemoteFields(fields);
    assert Genuine(x.client.core.reg.counters, x.meanings, m);
    RemoteFieldsAreVerbatim(fields);
    DictIsByKey(p.many.value, fields, m.values);
    assert FromFields(x, id, m, fields, p.layout, p.many.value);
  }

  /** In every run, whatever the DLL answers, whichever keys are used, and whatever happens between a get and
      its end - restores, sets, subscriptions to the same variable, late replies to earlier gets under the
      same id - a value in the waiting entry was packed for the variable the get asks for, and a dictionary
      is the values packed for exactly the fields its id was drawn for. */
  lemma GetsHandOutWhatWasPackedForThem(script: seq<int>, events: seq<Event>, id: int)
    requires Possible(Start(script), events) && id in Finally(Start(script), events).client.pending
    ensures var x := Finally(Start(script), events);
      match x.client.pending[id]
      case GetOne(key, _, one) => one.Some? ==> exists m, f, k: nat :: FromVariable(x, id, m, f, k, key, one.value)
      case GetMany(layout, many) => many.Some? ==> exists m, fields :: FromFields(x, id, m, fields, layout, many.value)
  {
    StartIsConsistent(script);
    AlwaysConsistent(Start(script), events);
    var x := Finally(Start(script), events);
    if x.client.pending[id].GetOne? {
      if x.client.pending[id].one.Some? {
        OneIsFromItsVariable(x, id);
      }
    } else if x.client.pending[id].many.Some? {
      ManyIsFromItsFields(x, id);
    }
  }

  // ---- from the call to its end ----

  /** The id of a get_many is drawn, and if the call still waits, its entry has the layout it began with. */
  ghost predicate Kept(x: World, id: int, layout: seq<Slice>) {
    && GET_MANY_ID_START <= id < x.client.core.reg.counters.nextGetManyId
    && (id in x.client.pending ==> x.client.pending[id].GetMany? && x.client.pending[id].layout == layout)
  }

  lemma GetIdIsLow(c: Client, id: int)
    requires TablesOk(c) && id in c.pending && c.pending[id].GetOne?
    ensures id < GET_MANY_ID_START
  {
    assert PendingOk(c.core.reg, c.subs, id, c.pending[id]);
  }

  lemma ActKeepsLayout(x: World, l: Step, id: int, layout: seq<Slice>)
    requires Consistent(x) && May(x, Act(l)) && Kept(x, id, layout)
    ensures Kept(Then(x, Act(l)), id, layout)
  {
    var c, d := x.client, Then(x, Act(l)).client;
    StepLearns(c, x.meanings, l);
    match l
    case CallGet(name, unit, dtype) =>
      GetPending(c, name, unit, dtype);
      if d.pending != map[] {
        GetIdIsLow(d, VarId(c, name, unit, dtype));
      }
    case CallGetMany(fields) =>
      if Ready(c) && AllNumeric(fields) {
        GetManyCounts(c, fields);
        GetManyPending(c, fields);
      }
    case FinishGet(other) =>
      if id in d.pending {
        FinishLeaves(c, other, id);
      }
    case _ =>
      StepIsItsActions(c, l);
      StepStandsBy(c, l);
      BystandersKeepPending(c, ActionsOf(c, l));
  }

  lemma AnswerKeepsLayout(c: Client, p: Packet, id: int)
    requires id in Answer(c, p).pending
    ensures var d := Answer(c, p);
      id in c.pending && d.pending[id].GetMany? == c.pending[id].GetMany?
      && (c.pending[id].GetMany? ==> d.pending[id].layout == c.pending[id].layout)
  {}

  lemma ArriveKeepsLayout(x: World, i: nat, id: int, layout: seq<Slice>)
    requires May(x, Arrive(i)) && Kept(x, id, layout)
    ensures Kept(Then(x, Arrive(i)), id, layout)
  {
    if id in Then(x, Arrive(i)).client.pending {
      AnswerKeepsLayout(x.client, PacketOf(x.mail[i]), id);
    }
  }

  lemma {:induction false} LayoutStays(x: World, events: seq<Event>, id: int, layout: seq<Slice>)
    requires Consistent(x) && Possible(x, events) && Kept(x, id, layout)
    ensures Consistent(Finally(x, events)) && Kept(Finally(x, events), id, layout)
    ensures Extends(x.meanings, Finally(x, events).meanings)
    decreases |events|
  {
    if events != [] {
      match events[0] {
        case Act(l) =>
          ActKeepsLayout(x, l, id, layout);
          StepLearns(x.client, x.meanings, l);
        case Post(_, _, _) =>
        case Arrive(i) => ArriveKeepsLayout(x, i, id, layout);
      }
      ThenKeeps(x, events[0]);
      LayoutStays(Then(x, events[0]), events[1..], id, layout);
    }
  }

  lemma BeganIsKept(x: World, fields: seq<ParsedField>)
    requires Consistent(x) && May(x, Act(CallGetMany(fields))) && BeginGetMany(x.client, fields).1
    ensures var id, y := x.client.core.reg.counters.nextGetManyId, Then(x, Act(CallGetMany(fields)));
      Kept(y, id, Layout(fields)) && id in y.meanings && y.meanings[id] == RemoteFields(fields)
  {
    GetManyCounts(x.client, fields);
    GetManyPending(x.client, fields);
    LearnsOnlyFields(x.client, x.meanings, fields);
  }

  lemma KeptHoldsItsFields(y: World, id: int, fields: seq<ParsedField>)
    requires Consistent(y) && Kept(y, id, Layout(fields)) && id in y.meanings && y.meanings[id] == RemoteFields(fields)
    requires id in y.client.pending && y.client.pending[id].many.Some?
    ensures exists m :: m in y.mail && PackedFrom(m, id, fields)
                        && ByKey(y.client.pending[id].many.value, fields, m.values)
  {
    assert Waiting(y, id);
    var m :| m in y.mail && m.id == id && DictOf(y.client.pending[id].many.value, Layout(fields), m.values);
    assert m.def == y.meanings[id] && Genuine(y.client.core.reg.counters, y.meanings, m);
    RemoteFieldsAreVerbatim(fields);
    DictIsByKey(y.client.pending[id].many.value, fields, m.values);
  }

  /** A letter for the id, with one value for each field of exactly the caller's list. */
  ghost predicate PackedFrom(m: Letter, id: int, fields: seq<ParsedField>) {
    m.id == id && ListsVerbatim(m.def, fields) && Fills(m.values, m.def)
  }

  /** So get_many(fields) hands out, after any events, the values of a letter packed from exactly the fields
      the caller wrote, in their order, each under the caller's key. */
  lemma GetManyHandsOutItsFields(script: seq<int>, before: seq<Event>, fields: seq<ParsedField>, after: seq<Event>)
    requires Possible(Start(script), before) && May(Finally(Start(script), before), Act(CallGetMany(fields)))
    requires Possible(Then(Finally(Start(script), before), Act(CallGetMany(fields))), after)
    requires BeginGetMany(Finally(Start(script), before).client, fields).1
    ensures var x := Finally(Start(script), before); var id := x.client.core.reg.counters.nextGetManyId;
      var y := Finally(Then(x, Act(CallGetMany(fields))), after);
      id in y.client.pending && y.client.pending[id].GetMany? && y.client.pending[id].many.Some? ==>
        exists m :: m in y.mail && PackedFrom(m, id, fields)
                    && ByKey(y.client.pending[id].many.value, fields, m.values)
  {
    StartIsConsistent(script);
    AlwaysConsistent(Start(script), before);
    var x := Finally(Start(script), before);
    var id, began := x.client.core.reg.counters.nextGetManyId, Then(x, Act(CallGetMany(fields)));
    ThenKeeps(x, Act(CallGetMany(fields)));
    BeganIsKept(x, fields);
    LayoutStays(began, after, id, Layout(fields));
    var y := Finally(began, after);
    if id in y.client.pending && y.client.pending[id].many.Some? {
      KeptHoldsItsFields(y, id, fields);
    }
  }

  lemma EventLearns(x: World, e: Event)
    requires Consistent(x) && May(x, e)
    ensures Extends(x.meanings, Then(x, e).meanings)
  {
    if e.Act? {
      StepLearns(x.client, x.meanings, e.step);
    }
  }

  lemma {:induction false} EventsLearn(x: World, events: seq<Event>)
    requires Consistent(x) && Possible(x, events)
    ensures Consistent(Finally(x, events)) && Extends(x.meanings, Finally(x, events).meanings)
    decreases |events|
  {
    if events != [] {
      ThenKeeps(x, events[0]);
      EventLearns(x, events[0]);
      EventsLearn(Then(x, events[0]), events[1..]);
    }
  }

  /** A letter for the id with one value for each copy of one field, which is the caller's variable. */
  ghost predicate PackedFor(m: Letter, id: int, f: Field, k: nat, name: string, unit: string, dtype: int) {
    m.id == id && m.def == Repeat([f], k) && Fills(m.values, m.def) && m.values != [] && Denotes(f, name, unit, dtype)
  }

  lemma DrawnForVariable(x: World, name: string, unit: string, dtype: int)
    requires Consistent(x) && May(x, Act(CallGet(name, unit, dtype))) && BeginGet(x.client, name, unit, dtype).1
    ensures var y, id := Then(x, Act(CallGet(name, unit, dtype))), VarId(x.client, name, unit, dtype);
      id in y.meanings && |y.meanings[id]| == 1 && Denotes(y.meanings[id][0], name, unit, dtype)
  {
    var c, key := x.client, KeyOf(name, unit, dtype);
    var y := Then(x, Act(CallGet(name, unit, dtype)));
    ThenKeeps(x, Act(CallGet(name, unit, dtype)));
    GetRegisters(c, name, unit, dtype);
    var slot := SlotAt(y.client.core.reg, y.client.core.reg.vars[key]);
    assert SoundEntry(y.client.core.reg, key) && Named(y.client.core.reg, y.meanings, y.client.core.reg.vars[key]);
    SlotDenotes(slot, name, unit, dtype);
  }

  lemma HeldForVariable(y: World, id: int, name: string, unit: string, dtype: int)
    requires Consistent(y) && id in y.client.pending && y.client.pending[id].GetOne?
    requires id in y.meanings && |y.meanings[id]| == 1 && Denotes(y.meanings[id][0], name, unit, dtype)
    requires y.client.pending[id].one.Some?
    ensures exists m, f, k: nat ::
      m in y.mail && PackedFor(m, id, f, k, name, unit, dtype) && Reads(m.values[0], y.client.pending[id].one.value)
  {
    var f := y.meanings[id][0];
    assert Waiting(y, id) && y.meanings[id] == [f];
    var m :| m in y.mail && m.id == id && m.values != [] && Reads(m.values[0], y.client.pending[id].one.value);
    assert Genuine(y.client.core.reg.counters, y.meanings, m);
    var k: nat :| m.def == Repeat([f], k);
    assert PackedFor(m, id, f, k, name, unit, dtype);
  }

  /** And get(name, unit) hands out, after any events, the first value of a letter packed from copies of one
      field, which names the variable the caller asked for, with its unit and its datatype. */
  lemma GetHandsOutItsVariable(script: seq<int>, before: seq<Event>, name: string, unit: string, dtype: int,
                               after: seq<Event>)
    requires Possible(Start(script), before) && May(Finally(Start(script), before), Act(CallGet(name, unit, dtype)))
    requires Possible(Then(Finally(Start(script), before), Act(CallGet(name, unit, dtype))), after)
    requires BeginGet(Finally(Start(script), before).client, name, unit, dtype).1
    ensures var x := Finally(Start(script), before); var id := VarId(x.client, name, unit, dtype);
      var y := Finally(Then(x, Act(CallGet(name, unit, dtype))), after);
      id in y.client.pending && y.client.pending[id].GetOne? && y.client.pending[id].one.Some? ==>
        exists m, f, k: nat :: m in y.mail && PackedFor(m, id, f, k, name, unit, dtype)
                               && Reads(m.values[0], y.client.pending[id].one.value)
  {
    StartIsConsistent(script);
    AlwaysConsistent(Start(script), before);
    var x := Finally(Start(script), before);
    var id, began := VarId(x.client, name, unit, dtype), Then(x, Act(CallGet(name, unit, dtype)));
    ThenKeeps(x, Act(CallGet(name, unit, dtype)));
    DrawnForVariable(x, name, unit, dtype);
    EventsLearn(began, after);
    var y := Finally(began, after);
    if id in y.client.pending && y.client.pending[id].GetOne? && y.client.pending[id].one.Some? {
      HeldForVariable(y, id, name, unit, dtype);
    }
  }

  /** A letter for a waiting entry fills it when it arrives: a get with its first value, unless that is a
      text the decoder may lose, a get_many with all its values. */
  lemma ArrivalAnswers(script: seq<int>, events: seq<Event>, i: nat)
    requires Possible(Start(script), events) && i < |Finally(Start(script), events).mail|
    requires Finally(Start(script), events).mail[i].id in Finally(Start(script), events).client.pending
    ensures var x := Finally(Start(script), events); var m := x.mail[i];
      var d := Answer(x.client, PacketOf(m));
      m.id in d.pending && match d.pending[m.id]
      case GetOne(_, _, one) =>
        m.values != [] && (m.values[0].Text? ==> SafeCString(m.values[0].bytes)) ==> one == Some(m.values[0])
      case GetMany(layout, many) => many.Some? && DictOf(many.value, layout, m.values)
  {
    StartIsConsistent(script);
    AlwaysConsistent(Start(script), events);
    var x := Finally(Start(script), events);
    var m := x.mail[i];
    assert m in x.mail && Waiting(x, m.id);
    if x.client.pending[m.id].GetOne? {
      OneAnswered(x, m);
    } else {
      ManyFilled(x, m);
    }
  }

  lemma ManyFilled(x: World, m: Letter)
    requires Consistent(x) && m in x.mail && m.id in x.client.pending && x.client.pending[m.id].GetMany?
    ensures var d, layout := Answer(x.client, PacketOf(m)), x.client.pending[m.id].layout;
      var read := ReadSlices(PacketOf(m).payload, layout, AnyValue);
      d.pending == x.client.pending[m.id := GetMany(layout, read)] && read.Some? && DictOf(read.value, layout, m.values)
  {
    var p := x.client.pending[m.id];
    assert Genuine(x.client.core.reg.counters, x.meanings, m) && Waiting(x, m.id);
    ManyAnswered(x, m);
    var fields :| AllNumeric(fields) && p.layout == Layout(fields) && x.meanings[m.id] == RemoteFields(fields);
    ManyRead(m, fields);
  }
}
