/** Runs of the client: API calls and handlers in any order, each taken as one step. */
module Session {
  import opened Parsing
  import opened Fields
  import opened RegistryState
  import opened Client
  import opened Tables
  import opened TablesKept

  datatype Step =
    | CallSubscribe(name: string, unit: string, dtype: int, period: int)
    | CallSubscribeMany(fields: seq<ParsedField>, period: int)
    | CallUnsubscribe(sid: int)
    | Recover(sid: int)
    | CallGet(name: string, unit: string, dtype: int)
    | CallGetMany(fields: seq<ParsedField>)
    | FinishGet(id: int)
    | CallSet(name: string, unit: string, dtype: int)
    | CallOpen
    | CallClose(hung: bool)
    | OpenMessage(items: seq<int>)
    | QuitMessage
    | RestoreAll(items: seq<int>)
    | RepollType(sid: int)
    | DataMessage(packet: Packet)

  /** OPEN and QUIT arrive on an open session, a restore runs on one and walks through a snapshot of the table,
      and one get waits at a time. Data may be handled after QUIT, by the dispatch that found it. */
  ghost predicate Enabled(c: Client, l: Step) {
    match l
    case OpenMessage(items) => c.core.remote.open && Snapshot(c, items)
    case RestoreAll(items) => c.core.remote.open && Snapshot(c, items)
    case QuitMessage => c.core.remote.open
    case CallGet(_, _, _) => c.pending == map[]
    case CallGetMany(_) => c.pending == map[]
    case _ => true
  }

  predicate OfTheSession(l: Step) {
    l.CallOpen? || l.CallClose? || l.OpenMessage? || l.QuitMessage? || l.RestoreAll? || l.RepollType? || l.DataMessage?
  }

  function Next(c: Client, l: Step): Client {
    match l
    case CallSubscribe(name, unit, dtype, period) => Subscribe(c, name, unit, dtype, period).0
    case CallSubscribeMany(fields, period) => SubscribeMany(c, fields, period).0
    case CallUnsubscribe(sid) => Unsubscribe(c, sid)
    case Recover(sid) => Resubscribe(c, sid)
    case CallGet(name, unit, dtype) => BeginGet(c, name, unit, dtype).0
    case CallGetMany(fields) => BeginGetMany(c, fields).0
    case FinishGet(id) => EndGet(c, id)
    case CallSet(name, unit, dtype) => SetVarDirect(c, name, unit, dtype)
    case CallOpen => Open(c)
    case CallClose(hung) => Close(c, hung)
    case OpenMessage(items) => OnOpen(c, items)
    case QuitMessage => OnQuit(c)
    case RestoreAll(items) => Restore(c, items)
    case RepollType(sid) => Repoll(c, sid)
    case DataMessage(packet) => Answer(c, packet)
  }

  /** A run within the id ranges. */
  ghost predicate Legal(c: Client, run: seq<Step>)
    decreases |run|
  {
    run == [] || (Enabled(c, run[0]) && InBounds(Next(c, run[0]).core.reg) && Legal(Next(c, run[0]), run[1..]))
  }

  function EndOf(c: Client, run: seq<Step>): Client
    decreases |run|
  {
    if run == [] then c else EndOf(Next(c, run[0]), run[1..])
  }

  lemma GetManyCounts(c: Client, fields: seq<ParsedField>)
    ensures Ready(c) && AllNumeric(fields) ==>
      BeginGetMany(c, fields).0.core.reg.counters.nextGetManyId == c.core.reg.counters.nextGetManyId + 1
  {
    if Ready(c) && AllNumeric(fields) {
      DefineManyTouches(c.core, fields);
    }
  }

  lemma GetManyKeeps(c: Client, fields: seq<ParsedField>)
    requires TablesOk(c) && InBounds(BeginGetMany(c, fields).0.core.reg)
    ensures TablesOk(BeginGetMany(c, fields).0)
  {
    if Ready(c) && AllNumeric(fields) {
      GetManyCounts(c, fields);
      BeginGetManyKeeps(c, fields);
    }
  }

  lemma StepKeeps(c: Client, l: Step)
    requires TablesOk(c) && Enabled(c, l) && InBounds(Next(c, l).core.reg)
    ensures TablesOk(Next(c, l))
  {
    match l
    case CallSubscribe(name, unit, dtype, period) => SubscribeKeeps(c, name, unit, dtype, period);
    case CallSubscribeMany(fields, period) => SubscribeManyKeeps(c, fields, period);
    case CallUnsubscribe(sid) => UnsubscribeKeeps(c, sid);
    case Recover(sid) => ResubscribeAllKeeps(c, if sid in c.composites then c.composites[sid] else [sid]);
    case CallGet(name, unit, dtype) => BeginGetKeeps(c, name, unit, dtype);
    case CallGetMany(fields) => GetManyKeeps(c, fields);
    case FinishGet(id) => EndGetKeeps(c, id);
    case CallSet(name, unit, dtype) => SetVarDirectKeeps(c, name, unit, dtype);
    case CallOpen => OpenKeeps(c);
    case CallClose(hung) => CloseKeeps(c, hung);
    case OpenMessage(items) => OnOpenKeeps(c, items);
    case QuitMessage => OpenKeeps(c);
    case RestoreAll(items) => RestoreKeeps(c, items);
    case RepollType(sid) => RepollKeeps(c, sid);
    case DataMessage(packet) => AnswerKeeps(c, packet);
  }

  /** The tables are consistent in every run, whatever HRESULTs it meets and whichever keys it reuses. */
  lemma {:induction false} TablesOverRuns(c: Client, run: seq<Step>)
    requires TablesOk(c) && Legal(c, run)
    ensures TablesOk(EndOf(c, run))
    decreases |run|
  {
    if run != [] {
      StepKeeps(c, run[0]);
      TablesOverRuns(Next(c, run[0]), run[1..]);
    }
  }

  lemma InitTables(script: seq<int>)
    ensures TablesOk(Init(script))
  {}

  // ---- routing ----

  /** A reply carries the id it was asked for and finds the subscription and the get of that id and no
      other; when it finds both, the get asked for the subscription's own variable, unit and datatype. */
  lemma RepliesReachTheirIssuer(script: seq<int>, run: seq<Step>, request: int)
    requires Legal(Init(script), run)
    requires request in EndOf(Init(script), run).core.remote.requests
    ensures var c := EndOf(Init(script), run); var id := c.core.remote.requests[request];
      && (request == id || request == id + TYPE_REQ_OFFSET)
      && (Lookup(c, request).Some? <==> id in c.subs) && (Lookup(c, request).Some? ==> Lookup(c, request).value == id)
      && (LookupPending(c, request).Some? <==> id in c.pending)
      && (LookupPending(c, request).Some? ==> LookupPending(c, request).value == id)
      && (id in c.subs && id in c.pending ==>
            c.subs[id].Single? && c.pending[id].GetOne?
              && c.pending[id].key == SlotAt(c.core.reg, c.subs[id].slot).Key())
  {
    InitTables(script);
    TablesOverRuns(Init(script), run);
    var c := EndOf(Init(script), run);
    var id := c.core.remote.requests[request];
    assert Base(request) == id && Issued(c.core.reg.counters, id);
    assert forall s :: s in c.subs ==> SubOk(c.core.reg, s, c.subs[s]);
    assert forall b :: b in c.pending ==> PendingOk(c.core.reg, c.subs, b, c.pending[b]);
  }
}
