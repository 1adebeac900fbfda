/** A run in which an empty message arises and misleads a packed subscription, although no application stops
    half-way. */
module EmptyLetters {
  import opened Bytes
  import opened Parsing
  import opened Fields
  import opened RegistryState
  import opened Remote
  import opened Client
  import opened TablesKept
  import opened Session
  import opened Actions
  import opened Mail
  import opened HalfWay
  import opened MirrorLimits
  import opened InFlight

  // ---- an application of one field cannot stop half-way ----

  ghost predicate Short(c: Client) { forall s :: s in c.subs && c.subs[s].Multi? ==> |c.subs[s].fields| <= 1 }

  predicate EntersShort(a: Action) { a.EnterMany? ==> |a.fields| <= 1 }

  lemma DoShort(c: Client, a: Action)
    requires Short(c) && EntersShort(a)
    ensures Short(Do(c, a)) && !StopsHalfWay(c, a)
  {}

  lemma {:induction false} ShortNeverStops(c: Client, actions: seq<Action>)
    requires Short(c) && forall i :: 0 <= i < |actions| ==> EntersShort(actions[i])
    ensures !SomeStopsHalfWay(c, actions)
    decreases |actions|
  {
    if actions != [] {
      DoShort(c, actions[0]);
      ShortNeverStops(Do(c, actions[0]), actions[1..]);
    }
  }

  // ---- the run ----

  /** The last of the six calls is the AddToDataDefinition of the recovery. */
  const SCRIPT := [0, 0, 0, 0, 0, 1]

  lemma OneField(f: ParsedField)
    requires SizeOf(f.dtype).Some?
    ensures Numeric([f]) == [f] && Strings([f]) == [] && AllNumeric([f]) && RemoteFields([f]) == [RemoteField(f)]
    ensures forall x :: x in [f] ==> Supported(x)
  {
    assert [f][..0] == [];
    assert Numeric([]) == [] && Strings([]) == [];
  }

  /** Subscribed and requested; the recovery's three HRESULTs are still to come. */
  ghost predicate Subscribed(d: Client, f: ParsedField, period: int) {
    && d.subs == map[1 := Multi(0, period, true, [f], Layout([f]))] && d.composites == map[] && d.openReceived
    && d.core.remote.open && d.core.remote.script == [0, 0, 1] && d.core.remote.defs == map[1 := [RemoteField(f)]]
    && 1 + TYPE_REQ_OFFSET in d.core.remote.requests && d.core.remote.requests[1 + TYPE_REQ_OFFSET] == 1
    && d.core.reg.idToKey == map[] && InBounds(d.core.reg)
  }

  lemma AddOne(r: Remote, id: int, f: Field)
    ensures AddAll(r, id, [f]) == if Accepts(r) then (AddToDefinition(r, id, f), true) else (Called(r), false)
  {
    assert [f][1..] == [];
    assert AddAll(AddToDefinition(r, id, f), id, []) == (AddToDefinition(r, id, f), true);
  }

  lemma SubscribesOne(f: ParsedField, period: int)
    requires SizeOf(f.dtype).Some? && period >= 0
    ensures Subscribed(SubscribeMany(Opened(SCRIPT), [f], period).0, f, period)
  {
    OneField(f);
    var a := AddMulti(Opened(SCRIPT), [f], period);
    assert PrepareDefinition(a.core, 1) == a.core;
    AddOne(a.core.remote, 1, RemoteField(f));
    assert [] + [RemoteField(f)] == [RemoteField(f)];
    assert SCRIPT[1..] == [0, 0, 0, 0, 1] && [0, 0, 0, 0, 1][1..] == [0, 0, 0, 1] && [0, 0, 0, 1][1..] == [0, 0, 1];
  }

  /** Cleared, and not defined again. */
  ghost predicate Emptied(e: Client, f: ParsedField, period: int) {
    && 1 in e.subs && e.subs[1].Multi? && e.subs[1].fields == [f] && e.core.remote.open && e.core.remote.defs == map[]
    && 1 + TYPE_REQ_OFFSET in e.core.remote.requests && e.core.remote.requests[1 + TYPE_REQ_OFFSET] == 1
    && InBounds(e.core.reg)
  }

  lemma RecoveryEmpties(d: Client, f: ParsedField, period: int)
    requires Subscribed(d, f, period) && SizeOf(f.dtype).Some?
    ensures Emptied(ResubscribeOne(d, 1).0, f, period) && !ResubscribeOne(d, 1).1
  {
    OneField(f);
    var e := Stopped(d, 1);
    assert [0, 0, 1][1..] == [0, 1] && [0, 1][1..] == [1];
    assert e.core.remote.script == [1] && e.core.remote.defs == map[];
    assert PrepareDefinition(e.core, 1) == e.core;
    AddOne(e.core.remote, 1, RemoteField(f));
  }

  lemma OneMoreEvent(x: World, e: Event, rest: seq<Event>)
    requires May(x, e) && Possible(Then(x, e), rest) && NeverHalfWay(Then(x, e), rest)
    requires e.Act? ==> !SomeStopsHalfWay(x.client, ActionsOf(x.client, e.step))
    ensures Possible(x, [e] + rest) && NeverHalfWay(x, [e] + rest)
    ensures Finally(x, [e] + rest) == Finally(Then(x, e), rest)
  {
    assert ([e] + rest)[0] == e && ([e] + rest)[1..] == rest;
  }

  lemma NothingStops(c: Client, l: Step)
    requires Short(c) && (l.CallOpen? || l.Recover? || l == OpenMessage([]))
    ensures !SomeStopsHalfWay(c, ActionsOf(c, l))
  {
    if l.Recover? {
      RecoveringIsShort(if l.sid in c.composites then c.composites[l.sid] else [l.sid]);
    }
    ShortNeverStops(c, ActionsOf(c, l));
  }

  lemma {:induction false} RecoveringIsShort(sids: seq<int>)
    ensures forall i :: 0 <= i < |Recovering(sids)| ==> EntersShort(Recovering(sids)[i])
    decreases |sids|
  {
    if sids != [] {
      RecoveringIsShort(sids[1..]);
    }
  }

  lemma SubscribingOneActions(c: Client, f: ParsedField, period: int)
    requires SizeOf(f.dtype).Some?
    ensures var actions := SubscribingMany(c, [f], period);
      actions == [] || actions == SubscribingNumeric(c, [f], period)
  {
    OneField(f);
  }

  lemma SubscribingStopsNot(c: Client, f: ParsedField, period: int)
    requires Short(c) && SizeOf(f.dtype).Some?
    ensures !SomeStopsHalfWay(c, ActionsOf(c, CallSubscribeMany([f], period)))
  {
    SubscribingOneActions(c, f, period);
    EnteringIsShort(c, f, period);
    ShortNeverStops(c, ActionsOf(c, CallSubscribeMany([f], period)));
  }

  lemma EnteringIsShort(c: Client, f: ParsedField, period: int)
    ensures var actions := SubscribingNumeric(c, [f], period);
      forall i :: 0 <= i < |actions| ==> EntersShort(actions[i])
  {}

  /** The empty message is packed for the TYPE request that stayed open. */
  lemma EmptyIsPosted(x: World, f: ParsedField, period: int, tail: Memory)
    requires Emptied(x.client, f, period) && x.mail == []
    ensures var e := Post(1 + TYPE_REQ_OFFSET, [], tail);
      var m := Letter(1 + TYPE_REQ_OFFSET, 1, [], [], tail, Ready(x.client));
      Possible(x, [e]) && NeverHalfWay(x, [e]) && Finally(x, [e]) == x.(mail := [m]) && ReadsPastItsEnd(x.client, m)
  {
    var e := Post(1 + TYPE_REQ_OFFSET, [], tail);
    assert [e] == [e] + [] && [e][1..] == [];
    OneMoreEvent(x, e, []);
    assert x.mail + [Then(x, e).mail[0]] == [Then(x, e).mail[0]];
  }

  lemma SubscribedThenEmptied(x: World, f: ParsedField, period: int, tail: Memory) returns (events: seq<Event>)
    requires Subscribed(x.client, f, period) && SizeOf(f.dtype).Some? && x.mail == []
    ensures Possible(x, events) && NeverHalfWay(x, events)
    ensures var y := Finally(x, events); exists m :: y.mail == [m] && m.tail == tail && ReadsPastItsEnd(y.client, m)
  {
    var e := Act(Recover(1));
    var y := Then(x, e);
    RecoveryEmpties(x.client, f, period);
    assert [1][1..] == [];
    assert ResubscribeAll(x.client, [1]) == ResubscribeAll(ResubscribeOne(x.client, 1).0, []);
    assert y.client == ResubscribeOne(x.client, 1).0 && y.mail == [];
    EmptyIsPosted(y, f, period, tail);
    NothingStops(x.client, Recover(1));
    var last := Post(1 + TYPE_REQ_OFFSET, [], tail);
    OneMoreEvent(x, e, [last]);
    events := [e] + [last];
    assert Finally(x, events) == y.(mail := [Letter(1 + TYPE_REQ_OFFSET, 1, [], [], tail, Ready(y.client))]);
  }

  lemma OpenedThenEmptied(x: World, f: ParsedField, period: int, tail: Memory) returns (events: seq<Event>)
    requires x.client == Opened(SCRIPT) && x.mail == [] && SizeOf(f.dtype).Some? && period >= 0
    ensures Possible(x, events) && NeverHalfWay(x, events)
    ensures var y := Finally(x, events); exists m :: y.mail == [m] && m.tail == tail && ReadsPastItsEnd(y.client, m)
  {
    var e := Act(CallSubscribeMany([f], period));
    SubscribesOne(f, period);
    SubscribingStopsNot(x.client, f, period);
    events := SubscribedThenEmptied(Then(x, e), f, period, tail);
    OneMoreEvent(x, e, events);
    events := [e] + events;
  }

  /** The session opens and its OPEN message arrives. */
  lemma Opening()
    ensures var x := Start(SCRIPT); var y := Then(x, Act(CallOpen)); var z := Then(y, Act(OpenMessage([])));
      && May(x, Act(CallOpen)) && May(y, Act(OpenMessage([]))) && z.client == Opened(SCRIPT) && z.mail == []
      && Short(x.client) && Short(y.client)
  {
    TwoSteps(Init(SCRIPT), CallOpen, OpenMessage([]));
    OpeningRun(SCRIPT);
  }

  /** It does happen: a packed subscription on a ready session whose recovery clears its definition and then
      fails to define it keeps its TYPE request, and is answered with an empty message. No application stopped
      half-way, so its callback gets what stands behind the header. */
  lemma AnEmptyLetterArises(f: ParsedField, period: int, tail: Memory) returns (events: seq<Event>)
    requires SizeOf(f.dtype).Some? && period >= 0
    ensures Possible(Start(SCRIPT), events) && NeverHalfWay(Start(SCRIPT), events)
    ensures var y := Finally(Start(SCRIPT), events);
      exists m :: y.mail == [m] && m.tail == tail && ReadsPastItsEnd(y.client, m)
  {
    var x := Start(SCRIPT);
    var y := Then(x, Act(CallOpen));
    Opening();
    events := OpenedThenEmptied(Then(y, Act(OpenMessage([]))), f, period, tail);
    NothingStops(y.client, OpenMessage([]));
    OneMoreEvent(y, Act(OpenMessage([])), events);
    events := [Act(OpenMessage([]))] + events;
    NothingStops(x.client, CallOpen);
    OneMoreEvent(x, Act(CallOpen), events);
    events := [Act(CallOpen)] + events;
  }
}
