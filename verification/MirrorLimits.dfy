/** Runs outside the mirror theorem's conditions, and what becomes of the agreement in them. */
module MirrorLimits {
  import opened Wrappers
  import opened RegistryState
  import opened Remote
  import opened Client
  import opened Tables
  import opened TablesKept
  import opened Session
  import opened Mirror
  import opened Applied
  import opened RestoreExact

  lemma TwoSteps(c: Client, a: Step, b: Step)
    ensures EndOf(c, [a, b]) == Next(Next(c, a), b)
    ensures (Enabled(c, a) && InBounds(Next(c, a).core.reg) && Enabled(Next(c, a), b)
             && InBounds(Next(Next(c, a), b).core.reg)) ==> Legal(c, [a, b])
  {
    var d := Next(c, a);
    assert [a, b][1..] == [b] && [b][1..] == [];
    assert EndOf(d, [b]) == EndOf(Next(d, b), []);
    assert Legal(Next(d, b), []);
    assert Enabled(d, b) && InBounds(Next(d, b).core.reg) ==> Legal(d, [b]);
  }

  /** A session whose OPEN message has arrived, with nothing subscribed. */
  function Opened(script: seq<int>): Client {
    Client(Core(EmptyRegistry(), Remote(true, map[], map[], script)), map[], map[], map[], true)
  }

  lemma OpeningRun(script: seq<int>)
    ensures EndOf(Init(script), [CallOpen, OpenMessage([])]) == Opened(script)
    ensures Legal(Init(script), [CallOpen, OpenMessage([])])
  {
    TwoSteps(Init(script), CallOpen, OpenMessage([]));
    assert ResetDefinedFlags(EmptyRegistry()).slots == [];
  }

  /** What subscribing does on a ready session that accepts every call. */
  lemma SubscribeRegistersAndDefines(c: Client, name: string, unit: string, dtype: int, period: int)
    requires Ready(c) && c.core.remote.script == [] && period >= 0 && dtype >= 0
    ensures var d := Subscribe(c, name, unit, dtype, period).0; var sid := c.core.reg.counters.nextSubId;
      var bound := BindSubscriptionVar(AllocSubscriptionId(c.core.reg), sid, name, unit, dtype);
      && d.core.reg == bound.(slots := c.core.reg.slots + [VarSlot(sid, name, unit, dtype, true)])
      && d.subs == c.subs[sid := Single(Fresh(c.core.reg), period, true)]
      && d == c.(core := d.core, subs := d.subs)
      && Ready(d) && d.core.remote.script == []
  {
    var sid, a := c.core.reg.counters.nextSubId, AddSingle(c, name, unit, dtype, period);
    var ref := Fresh(c.core.reg);
    assert GetVarByDefineId(a.core.reg, sid) == Some(ref);
    assert !SlotAt(a.core.reg, ref).defined;
    assert PrepareDefinition(a.core, sid) == a.core;
    var (k, ok) := EnsureVarDefined(a.core, ref);
    assert ok && k.reg.slots == c.core.reg.slots + [VarSlot(sid, name, unit, dtype, true)];
    assert k.reg == a.core.reg.(slots := k.reg.slots);
  }

  lemma TwiceRegistered(name: string, unit: string, dtype: int, period: int)
    requires period >= 0 && dtype >= 0
    ensures var d := Subscribe(Opened([]), name, unit, dtype, period).0;
      var e := Subscribe(d, name, unit, dtype, period).0;
      && InBounds(d.core.reg) && InBounds(e.core.reg) && e.core.remote.open && e.core.remote.script == []
      && e.subs == map[1 := Single(0, period, true), 2 := Single(1, period, true)]
      && e.core.reg.vars == map[KeyOf(name, unit, dtype) := 1]
      && e.core.reg.slots == [VarSlot(1, name, unit, dtype, true), VarSlot(2, name, unit, dtype, true)]
  {
    OnceRegistered(name, unit, dtype, period);
    AgainRegistered(Subscribe(Opened([]), name, unit, dtype, period).0, name, unit, dtype, period);
  }

  lemma OnceRegistered(name: string, unit: string, dtype: int, period: int)
    requires period >= 0 && dtype >= 0
    ensures Once(Subscribe(Opened([]), name, unit, dtype, period).0, name, unit, dtype, period)
  {
    SubscribeRegistersAndDefines(Opened([]), name, unit, dtype, period);
  }

  /** One subscription on a ready session that accepts every call. */
  predicate Once(d: Client, name: string, unit: string, dtype: int, period: int) {
    && Ready(d) && d.core.remote.script == [] && d.subs == map[1 := Single(0, period, true)]
    && d.core.reg.vars == map[KeyOf(name, unit, dtype) := 0]
    && d.core.reg.counters == Counters(VAR_ID_START, 2, GET_MANY_ID_START)
    && d.core.reg.slots == [VarSlot(1, name, unit, dtype, true)]
  }

  lemma BindsAgain(r: Reg, name: string, unit: string, dtype: int)
    requires r.vars == map[KeyOf(name, unit, dtype) := 0] && r.counters == Counters(VAR_ID_START, 2, GET_MANY_ID_START)
    requires |r.slots| == 1
    ensures var q := BindSubscriptionVar(AllocSubscriptionId(r), 2, name, unit, dtype);
      q.vars == map[KeyOf(name, unit, dtype) := 1] && q.counters == Counters(VAR_ID_START, 3, GET_MANY_ID_START)
  {}

  lemma AgainRegistered(d: Client, name: string, unit: string, dtype: int, period: int)
    requires Once(d, name, unit, dtype, period) && period >= 0 && dtype >= 0
    ensures var e := Subscribe(d, name, unit, dtype, period).0;
      && InBounds(d.core.reg) && InBounds(e.core.reg) && e.core.remote.open && e.core.remote.script == []
      && e.subs == map[1 := Single(0, period, true), 2 := Single(1, period, true)]
      && e.core.reg.vars == map[KeyOf(name, unit, dtype) := 1]
      && e.core.reg.slots == [VarSlot(1, name, unit, dtype, true), VarSlot(2, name, unit, dtype, true)]
  {
    BindsAgain(d.core.reg, name, unit, dtype);
    SubscribeRegistersAndDefines(d, name, unit, dtype, period);
  }

  /** Two subscriptions to one variable on a ready session strand the first of them: registered no
      longer, but marked as defined. */
  lemma SecondSubscriptionStrandsTheFirst(name: string, unit: string, dtype: int, period: int)
    requires period >= 0 && dtype >= 0
    ensures var one := CallSubscribe(name, unit, dtype, period); var e := EndOf(Opened([]), [one, one]);
      && Legal(Opened([]), [one, one]) && TablesOk(e) && e.core.remote.open && e.core.remote.script == []
      && e.subs.Keys == {1, 2} && Stranded(e, 1)
  {
    var one := CallSubscribe(name, unit, dtype, period);
    TwiceRegistered(name, unit, dtype, period);
    TwoSteps(Opened([]), one, one);
    TablesOverRuns(Opened([]), [one, one]);
    DisplacedIsStranded(EndOf(Opened([]), [one, one]), name, unit, dtype, period);
  }

  lemma DisplacedIsStranded(e: Client, name: string, unit: string, dtype: int, period: int)
    requires e.subs == map[1 := Single(0, period, true), 2 := Single(1, period, true)]
    requires e.core.reg.vars == map[KeyOf(name, unit, dtype) := 1]
    requires e.core.reg.slots == [VarSlot(1, name, unit, dtype, true), VarSlot(2, name, unit, dtype, true)]
    ensures e.subs.Keys == {1, 2} && Stranded(e, 1)
  {}

  lemma Reconnected(c: Client)
    requires TablesOk(c) && c.core.remote.open && c.core.remote.script == []
    ensures var lost := Open(OnQuit(c));
      && TablesOk(lost) && lost.core.remote == Remote(true, map[], map[], []) && lost.subs == c.subs
      && lost.core.reg == c.core.reg && InBounds(OnQuit(c).core.reg)
  {
    OpenKeeps(c);
    OpenKeeps(OnQuit(c));
  }

  lemma QuitThenOpen(c: Client)
    requires c.core.remote.open && InBounds(c.core.reg)
    ensures Legal(c, [QuitMessage, CallOpen]) && EndOf(c, [QuitMessage, CallOpen]) == Open(OnQuit(c))
  {
    assert Next(c, QuitMessage) == OnQuit(c) && Next(OnQuit(c), CallOpen) == Open(OnQuit(c));
    TwoSteps(c, QuitMessage, CallOpen);
  }

  lemma StrandedReconnects(c: Client)
    requires TablesOk(c) && c.core.remote.open && c.core.remote.script == []
    requires c.subs.Keys == {1, 2} && Stranded(c, 1)
    ensures Legal(c, [QuitMessage, CallOpen])
    ensures var lost := EndOf(c, [QuitMessage, CallOpen]);
      TablesOk(lost) && lost.core.remote == Remote(true, map[], map[], []) && lost.subs == c.subs && Stranded(lost, 1)
  {
    Reconnected(c);
    QuitThenOpen(c);
  }

  lemma StrandedStaysLost(lost: Client)
    requires TablesOk(lost) && lost.core.remote == Remote(true, map[], map[], [])
    requires lost.subs.Keys == {1, 2} && Stranded(lost, 1)
    ensures Enabled(lost, OpenMessage([1, 2]))
    ensures Ready(OnOpen(lost, [1, 2])) && DefOf(OnOpen(lost, [1, 2]), 1) == []
  {
    assert Snapshot(lost, [1, 2]) by {
      assert forall s :: s in lost.subs <==> s in lost.subs.Keys;
    }
    OpenDefinesAllButStranded(lost, [1, 2], 1);
  }

  /** After the simulator quits and the client reconnects, the first of the two never gets a definition
      again, although the session is ready and its request is made. */
  lemma DuplicateKeyLosesTheFirst(name: string, unit: string, dtype: int, period: int)
    requires period >= 0 && dtype >= 0
    ensures Legal(Init([]), [CallOpen, OpenMessage([])]) && EndOf(Init([]), [CallOpen, OpenMessage([])]) == Opened([])
    ensures var one := CallSubscribe(name, unit, dtype, period); var e := EndOf(Opened([]), [one, one]);
      var lost := EndOf(e, [QuitMessage, CallOpen]);
      && Legal(e, [QuitMessage, CallOpen]) && Enabled(lost, OpenMessage([1, 2]))
      && 1 in lost.subs && FieldsOf(lost, 1) != []
      && Ready(Next(lost, OpenMessage([1, 2]))) && DefOf(Next(lost, OpenMessage([1, 2])), 1) == []
  {
    OpeningRun([]);
    var one := CallSubscribe(name, unit, dtype, period);
    SecondSubscriptionStrandsTheFirst(name, unit, dtype, period);
    StrandedReconnects(EndOf(Opened([]), [one, one]));
    StrandedStaysLost(EndOf(EndOf(Opened([]), [one, one]), [QuitMessage, CallOpen]));
  }
}
