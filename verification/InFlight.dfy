/** From the remote's definition to the callback: messages under way reach their subscription whole. */
module InFlight {
  import opened Wrappers
  import opened Bytes
  import opened Parsing
  import opened Fields
  import opened RegistryState
  import opened Client
  import opened Tables
  import opened TablesKept
  import opened Session
  import opened Actions
  import opened Mirror
  import opened Meaning
  import opened MirrorRuns
  import opened Delivery
  import opened Mail
  import opened HalfWay

  /** The text of a single string subscription is one the decoder reads back under any continuation. */
  predicate Readable(m: Letter) { m.values != [] && m.values[0].Text? ==> SafeCString(m.values[0].bytes) }

  /** A letter packed from a definition that begins with what its id stands for. */
  predicate OwnFieldsFirst(x: World, m: Letter) { m.id in x.meanings && x.meanings[m.id] <= m.def }

  /** What a letter's arrival leads to if this memory follows it. */
  function CallUnder(c: Client, m: Letter, tail: Memory, plausible: Value -> bool): Option<(int, Handed)> {
    Deliver(c, Message(m.request, m.values, tail), plausible)
  }

  /** What a letter's arrival leads to. */
  function CallOf(x: World, m: Letter, plausible: Value -> bool): Option<(int, Handed)> {
    CallUnder(x.client, m, m.tail, plausible)
  }

  lemma SingleIsOwn(x: World, m: Letter)
    requires Consistent(x) && m in x.mail && m.id in x.client.subs && x.client.subs[m.id].Single? && m.values != []
    ensures OwnFieldsFirst(x, m)
  {
    assert Genuine(x.client.core.reg.counters, x.meanings, m);
    var k: nat :| m.def == Repeat(x.meanings[m.id], k);
    RepeatStarts(x.meanings[m.id], k);
  }

  lemma OwnLetterDelivers(x: World, m: Letter, tail: Memory, plausible: Value -> bool)
    requires Consistent(x) && m in x.mail && m.id in x.client.subs && OwnFieldsFirst(x, m)
    requires x.client.subs[m.id].Single? ==> Readable(m)
    ensures FieldsOf(x.client, m.id) <= m.def
    ensures Delivered(x.client.subs[m.id], m.id, m.values, plausible, CallUnder(x.client, m, tail, plausible))
  {
    var c, s := x.client, m.id;
    assert Genuine(c.core.reg.counters, x.meanings, m) && SubOk(c.core.reg, s, c.subs[s]);
    ArrivalFinds(c, m);
    if c.subs[s].Multi? {
      DeliversMany(c, s, m.request, m.def, m.values, tail, plausible);
    } else {
      DeliversOne(c, s, m.request, m.def, m.values, tail, plausible);
    }
  }

  lemma LostLetter(x: World, m: Letter, tail: Memory, plausible: Value -> bool)
    requires Consistent(x) && m in x.mail
    ensures var call := CallUnder(x.client, m, tail, plausible);
      && (m.id !in x.client.subs ==> call == None)
      && (m.id in x.client.subs && x.client.subs[m.id].Single? && m.values == [] ==> call == None)
  {
    assert Genuine(x.client.core.reg.counters, x.meanings, m);
    ArrivalFinds(x.client, m);
  }

  /** A callback is called for the subscription of the letter, a packed one with all its keys and no others. */
  ghost predicate WellAddressed(c: Client, m: Letter, call: Option<(int, Handed)>)
    requires m.id in c.subs
  {
    call.Some? ==>
      && call.value.0 == m.id
      && match c.subs[m.id]
         case Single(_, _, _) => call.value.1.One?
         case Multi(_, _, _, fields, _) => call.value.1.Many? && KeyedBy(call.value.1.values, fields)
  }

  lemma LetterIsWellAddressed(x: World, m: Letter, tail: Memory, plausible: Value -> bool)
    requires Consistent(x) && m in x.mail && m.id in x.client.subs
    ensures WellAddressed(x.client, m, CallUnder(x.client, m, tail, plausible))
  {
    assert Genuine(x.client.core.reg.counters, x.meanings, m);
    ArrivalFinds(x.client, m);
    var info := x.client.subs[m.id];
    if info.Multi? {
      var read := ReadSlices(Message(m.request, m.values, tail).payload, info.layout, plausible);
      assert SubOk(x.client.core.reg, m.id, info);
      ReadSlicesKeys(Message(m.request, m.values, tail).payload, info.layout, plausible);
      if read.Some? {
        LayoutKeys(read.value, info.fields);
      }
    }
  }

  lemma SingleGetsItsOwn(x: World, m: Letter, plausible: Value -> bool)
    requires Consistent(x) && m in x.mail && m.id in x.client.subs && x.client.subs[m.id].Single?
    ensures var call := CallOf(x, m, plausible);
      && (m.values == [] ==> call == None)
      && (m.values != [] ==> FieldsOf(x.client, m.id) <= m.def)
      && (m.values != [] && Readable(m) ==> Delivered(x.client.subs[m.id], m.id, m.values, plausible, call))
  {
    LostLetter(x, m, m.tail, plausible);
    if m.values != [] {
      SingleIsOwn(x, m);
      if Readable(m) {
        OwnLetterDelivers(x, m, m.tail, plausible);
      }
    }
  }

  lemma ManyGetsItsOwn(x: World, m: Letter, plausible: Value -> bool)
    requires Consistent(x) && m in x.mail && m.id in x.client.subs && x.client.subs[m.id].Multi?
    ensures FieldsOf(x.client, m.id) <= m.def ==>
      Delivered(x.client.subs[m.id], m.id, m.values, plausible, CallOf(x, m, plausible))
  {
    if FieldsOf(x.client, m.id) <= m.def {
      OwnLetterDelivers(x, m, m.tail, plausible);
    }
  }

  /** In every run, whatever the DLL answers and whichever keys are used, whenever a letter arrives: it is
      handed to the subscription its request was made for or to nobody; a letter for a single subscription is
      empty, and leads to no call, or was packed from its own variable, whose value it gets; a packed
      subscription is called with exactly its keys or not at all, and with the values of its own fields if the
      letter was packed from these first. */
  lemma LettersReachTheirSubscription(script: seq<int>, events: seq<Event>, m: Letter, plausible: Value -> bool)
    requires Possible(Start(script), events) && m in Finally(Start(script), events).mail
    ensures var x := Finally(Start(script), events); var call := CallOf(x, m, plausible);
      if m.id !in x.client.subs then call == None
      else WellAddressed(x.client, m, call) && if x.client.subs[m.id].Single? then
        && (m.values == [] ==> call == None)
        && (m.values != [] ==> FieldsOf(x.client, m.id) <= m.def)
        && (m.values != [] && Readable(m) ==> Delivered(x.client.subs[m.id], m.id, m.values, plausible, call))
      else
        FieldsOf(x.client, m.id) <= m.def ==> Delivered(x.client.subs[m.id], m.id, m.values, plausible, call)
  {
    StartIsConsistent(script);
    AlwaysConsistent(Start(script), events);
    var x := Finally(Start(script), events);
    if m.id !in x.client.subs {
      LostLetter(x, m, m.tail, plausible);
    } else {
      LetterIsWellAddressed(x, m, m.tail, plausible);
      if x.client.subs[m.id].Single? {
        SingleGetsItsOwn(x, m, plausible);
      } else {
        ManyGetsItsOwn(x, m, plausible);
      }
    }
  }

  // ---- calls that succeed and keys that are distinct ----

  ghost predicate DistinctAlways(x: World, events: seq<Event>)
    decreases |events|
  {
    events == [] || ((events[0].Act? ==> Admissible(x.client, events[0].step))
                     && DistinctAlways(Then(x, events[0]), events[1..]))
  }

  /** The letters that are followed: those of a ready session, or all that are not empty. */
  predicate Followed(m: Letter, ready: bool) { if ready then m.ready else m.values != [] }

  /** The letters followed, for subscriptions that are still live, were packed whole. */
  ghost predicate OwnLetters(x: World, ready: bool) {
    forall m :: m in x.mail && Followed(m, ready) && m.id in x.client.subs ==> OwnFieldsFirst(x, m)
  }

  lemma DoGrows(c: Client, a: Action, s: int)
    requires TablesOk(c) && InBounds(Do(c, a).core.reg) && s in Do(c, a).subs && s !in c.subs
    ensures NotDrawn(c.core.reg.counters, s)
  {
    DoLeq(c, a);
  }

  /** An id that is not live and was drawn does not come back. */
  lemma {:induction false} SubsGrow(c: Client, actions: seq<Action>, s: int)
    requires TablesOk(c) && AllProper(c, actions) && InBounds(After(c, actions).core.reg)
    requires s in After(c, actions).subs && s !in c.subs
    ensures NotDrawn(c.core.reg.counters, s)
    decreases |actions|
  {
    var d := Do(c, actions[0]);
    AfterLeq(d, actions[1..]);
    BoundsBelow(d.core.reg, After(c, actions).core.reg);
    DoLeq(c, actions[0]);
    DoKeeps(c, actions[0]);
    if s in d.subs {
      DoGrows(c, actions[0], s);
    } else {
      SubsGrow(d, actions[1..], s);
    }
  }

  lemma OwnFieldsStay(x: World, y: World, m: Letter)
    requires OwnFieldsFirst(x, m) && Extends(x.meanings, y.meanings)
    ensures OwnFieldsFirst(y, m)
  {}

  lemma ActOwn(x: World, l: Step, ready: bool)
    requires Consistent(x) && OwnLetters(x, ready) && May(x, Act(l))
    ensures OwnLetters(Then(x, Act(l)), ready)
  {
    var c, y := x.client, Then(x, Act(l));
    StepIsItsActions(c, l);
    StepLearns(c, x.meanings, l);
    forall m | m in y.mail && Followed(m, ready) && m.id in y.client.subs ensures OwnFieldsFirst(y, m) {
      assert Genuine(c.core.reg.counters, x.meanings, m);
      if m.id !in c.subs {
        SubsGrow(c, ActionsOf(c, l), m.id);
        IssuedIsDrawn(c, m.id);
      } else {
        OwnFieldsStay(x, y, m);
      }
    }
  }

  lemma ArriveOwn(x: World, i: nat, ready: bool)
    requires OwnLetters(x, ready) && May(x, Arrive(i))
    ensures OwnLetters(Then(x, Arrive(i)), ready)
  {
    var y := Then(x, Arrive(i));
    forall m | m in y.mail && Followed(m, ready) && m.id in y.client.subs ensures OwnFieldsFirst(y, m) {
      OwnFieldsStay(x, y, m);
    }
  }

  lemma PostOwn(x: World, request: int, values: seq<Value>, tail: Memory, ready: bool)
    requires Consistent(x) && OwnLetters(x, ready) && May(x, Post(request, values, tail))
    requires (ready ==> Agrees(x.client)) && (!ready ==> AllWhole(x.client))
    ensures OwnLetters(Then(x, Post(request, values, tail)), ready)
  {
    var c, y := x.client, Then(x, Post(request, values, tail));
    ThenKeeps(x, Post(request, values, tail));
    forall m | m in y.mail && Followed(m, ready) && m.id in c.subs ensures OwnFieldsFirst(y, m) {
      if m in x.mail {
        OwnFieldsStay(x, y, m);
      } else if !ready && c.subs[m.id].Single? {
        SingleIsOwn(y, m);
      } else {
        assert Holds(c, m.id, if ready then 1 else 0);
        var n: nat :| (ready ==> n >= 1) && Copies(DefOf(c, m.id), FieldsOf(c, m.id), n);
        RepeatStarts(FieldsOf(c, m.id), n);
      }
    }
  }

  lemma ThenReady(x: World, e: Event)
    requires Consistent(x) && Agrees(x.client) && OwnLetters(x, true) && May(x, e)
    requires e.Act? ==> Admissible(x.client, e.step)
    ensures Agrees(Then(x, e).client) && OwnLetters(Then(x, e), true)
  {
    match e
    case Act(l) =>
      StepAgrees(x.client, l);
      ActOwn(x, l, true);
    case Post(request, values, tail) => PostOwn(x, request, values, tail, true);
    case Arrive(i) =>
      AnswerAgrees(x.client, PacketOf(x.mail[i]));
      ArriveOwn(x, i, true);
  }

  lemma {:induction false} AlwaysReady(x: World, events: seq<Event>)
    requires Consistent(x) && Agrees(x.client) && OwnLetters(x, true)
    requires Possible(x, events) && DistinctAlways(x, events)
    ensures Agrees(Finally(x, events).client) && OwnLetters(Finally(x, events), true)
    decreases |events|
  {
    if events != [] {
      ThenKeeps(x, events[0]);
      ThenReady(x, events[0]);
      AlwaysReady(Then(x, events[0]), events[1..]);
    }
  }

  /** In every run whose calls return HRESULT 0 and whose live single subscriptions have distinct keys: a
      letter packed on a ready session is handed, whenever it arrives, to the subscription its request was
      made for, with exactly the values packed for its own fields, or, if that subscription is gone, to
      nobody. */
  lemma MessagesDeliverWhatWasPacked(script: seq<int>, events: seq<Event>, m: Letter, plausible: Value -> bool)
    requires forall i :: 0 <= i < |script| ==> script[i] == 0
    requires Possible(Start(script), events) && DistinctAlways(Start(script), events)
    requires m in Finally(Start(script), events).mail && m.ready && Readable(m)
    ensures var x := Finally(Start(script), events); var call := CallOf(x, m, plausible);
      if m.id in x.client.subs then
        FieldsOf(x.client, m.id) <= m.def && Delivered(x.client.subs[m.id], m.id, m.values, plausible, call)
      else call == None
  {
    StartIsConsistent(script);
    InitAgrees(script);
    AlwaysConsistent(Start(script), events);
    AlwaysReady(Start(script), events);
    var x := Finally(Start(script), events);
    LostLetter(x, m, m.tail, plausible);
    if m.id in x.client.subs {
      OwnLetterDelivers(x, m, m.tail, plausible);
    }
  }

  // ---- any HRESULTs, as long as no application stops half-way ----

  ghost predicate NeverHalfWay(x: World, events: seq<Event>)
    decreases |events|
  {
    events == [] ||
    ((events[0].Act? ==> !SomeStopsHalfWay(x.client, ActionsOf(x.client, events[0].step)))
     && NeverHalfWay(Then(x, events[0]), events[1..]))
  }

  lemma {:induction false} WholeAtTheEnd(c: Client, actions: seq<Action>)
    requires WholeThroughout(c, actions)
    ensures AllWhole(After(c, actions))
    decreases |actions|
  {
    if actions != [] {
      WholeAtTheEnd(Do(c, actions[0]), actions[1..]);
    }
  }

  lemma ThenWhole(x: World, e: Event)
    requires Consistent(x) && AllWhole(x.client) && OwnLetters(x, false) && May(x, e)
    requires e.Act? ==> !SomeStopsHalfWay(x.client, ActionsOf(x.client, e.step))
    ensures AllWhole(Then(x, e).client) && OwnLetters(Then(x, e), false)
  {
    match e
    case Act(l) =>
      StepIsItsActions(x.client, l);
      ThroughoutExactly(x.client, x.meanings, ActionsOf(x.client, l));
      WholeAtTheEnd(x.client, ActionsOf(x.client, l));
      ActOwn(x, l, false);
    case Post(request, values, tail) => PostOwn(x, request, values, tail, false);
    case Arrive(i) =>
      ArriveOwn(x, i, false);
      AnswerKeepsWhole(x.client, PacketOf(x.mail[i]));
  }

  lemma AnswerKeepsWhole(c: Client, p: Packet)
    requires AllWhole(c)
    ensures AllWhole(Answer(c, p))
  {
    var d := Answer(c, p);
    forall s | s in d.subs && d.subs[s].Multi? ensures Holds(d, s, 0) {
      var n: nat :| Copies(DefOf(c, s), FieldsOf(c, s), n);
      assert Copies(DefOf(d, s), FieldsOf(d, s), n);
    }
  }

  lemma {:induction false} AlwaysWhole(x: World, events: seq<Event>)
    requires Consistent(x) && AllWhole(x.client) && OwnLetters(x, false)
    requires Possible(x, events) && NeverHalfWay(x, events)
    ensures OwnLetters(Finally(x, events), false)
    decreases |events|
  {
    if events != [] {
      ThenKeeps(x, events[0]);
      ThenWhole(x, events[0]);
      AlwaysWhole(Then(x, events[0]), events[1..]);
    }
  }

  /** In every run in which no application stops half-way, whatever the DLL answers otherwise, whichever keys
      are used, and whether or not the session was ready: a letter that is not empty is handed, whenever it
      arrives, to the subscription its request was made for, with exactly the values packed for its own
      fields, or, if that subscription is gone, to nobody. */
  lemma WholeLettersAreDelivered(script: seq<int>, events: seq<Event>, m: Letter, plausible: Value -> bool)
    requires Possible(Start(script), events) && NeverHalfWay(Start(script), events)
    requires m in Finally(Start(script), events).mail && m.values != [] && Readable(m)
    ensures var x := Finally(Start(script), events); var call := CallOf(x, m, plausible);
      if m.id in x.client.subs then
        FieldsOf(x.client, m.id) <= m.def && Delivered(x.client.subs[m.id], m.id, m.values, plausible, call)
      else call == None
  {
    StartIsConsistent(script);
    AlwaysConsistent(Start(script), events);
    AlwaysWhole(Start(script), events);
    var x := Finally(Start(script), events);
    LostLetter(x, m, m.tail, plausible);
    if m.id in x.client.subs {
      OwnLetterDelivers(x, m, m.tail, plausible);
    }
  }

  // ---- the empty message ----

  /** The letter leads to no call, or to one with the values packed for the subscription's own fields. */
  ghost predicate OwnOrNone(c: Client, m: Letter, tail: Memory, plausible: Value -> bool) {
    var call := CallUnder(c, m, tail, plausible);
    call == None ||
    (m.id in c.subs && FieldsOf(c, m.id) <= m.def && Delivered(c.subs[m.id], m.id, m.values, plausible, call))
  }

  /** The letter is empty and its subscription packs fields: the one case in which memory decides. */
  predicate ReadsPastItsEnd(c: Client, m: Letter) {
    m.values == [] && m.id in c.subs && c.subs[m.id].Multi? && c.subs[m.id].fields != []
  }

  lemma EmptyLetterMisleads(x: World, m: Letter) returns (tail: Memory)
    requires Consistent(x) && m in x.mail && ReadsPastItsEnd(x.client, m)
    ensures !OwnOrNone(x.client, m, tail, AnyValue)
  {
    var c, s := x.client, m.id;
    assert Genuine(c.core.reg.counters, x.meanings, m) && SubOk(c.core.reg, s, c.subs[s]);
    ArrivalFinds(c, m);
    var found := SomeValues(c.subs[s].fields);
    tail := Pack(found) + [];
    EmptyMessageReadsMemory(c, s, m.request, found, [], AnyValue);
    assert |FieldsOf(c, s)| == |c.subs[s].fields|;
  }

  lemma OtherLettersDoNot(x: World, m: Letter, tail: Memory, plausible: Value -> bool)
    requires Consistent(x) && m in x.mail && OwnLetters(x, false) && Readable(m) && !ReadsPastItsEnd(x.client, m)
    ensures OwnOrNone(x.client, m, tail, plausible)
  {
    var c, s := x.client, m.id;
    LostLetter(x, m, tail, plausible);
    if s in c.subs && (m.values != [] || c.subs[s].Multi?) {
      if m.values == [] {
        assert x.meanings[s] == FieldsOf(c, s) == [];
      }
      OwnLetterDelivers(x, m, tail, plausible);
    }
  }

  lemma MisledExactly(x: World, m: Letter)
    requires Consistent(x) && m in x.mail && OwnLetters(x, false) && Readable(m)
    ensures (forall tail: Memory, plausible: Value -> bool :: OwnOrNone(x.client, m, tail, plausible)) <==>
      !ReadsPastItsEnd(x.client, m)
  {
    if ReadsPastItsEnd(x.client, m) {
      var tail := EmptyLetterMisleads(x, m);
    } else {
      forall tail: Memory, plausible: Value -> bool ensures OwnOrNone(x.client, m, tail, plausible) {
        OtherLettersDoNot(x, m, tail, plausible);
      }
    }
  }

  /** In every run in which no application stops half-way: whatever memory follows a letter and whatever counts as
      plausible, it leads to no call or to its own values, if and only if it is not an empty letter for a
      packed subscription. On that one, memory decides what the callback gets. */
  lemma OnlyEmptyLettersMislead(script: seq<int>, events: seq<Event>, m: Letter)
    requires Possible(Start(script), events) && NeverHalfWay(Start(script), events)
    requires m in Finally(Start(script), events).mail && Readable(m)
    ensures var c := Finally(Start(script), events).client;
      (forall tail: Memory, plausible: Value -> bool :: OwnOrNone(c, m, tail, plausible)) <==> !ReadsPastItsEnd(c, m)
  {
    StartIsConsistent(script);
    AlwaysConsistent(Start(script), events);
    AlwaysWhole(Start(script), events);
    MisledExactly(Finally(Start(script), events), m);
  }
}
