/** What the end of a get, a repeated TYPE request and the recovery of a composite achieve. */
module Effects {
  import opened Wrappers
  import opened Fields
  import opened RegistryState
  import opened Remote
  import opened Client
  import opened Tables
  import opened TablesKept
  import opened Session
  import opened Mirror
  import opened Meaning
  import opened Applied
  import opened Recovery
  import opened SyncRoundTrip

  // ---- the end of a get ----

  /** Nothing but the definition of one id and the waiting gets may differ. */
  ghost predicate OnlyDefinitionOf(c: Client, d: Client, id: int) {
    && d.subs == c.subs && d.composites == c.composites && d.openReceived == c.openReceived
    && d.core.reg == c.core.reg && OnlyDefinition(c.core.remote, d.core.remote, id)
  }

  lemma ForgottenOnly(c: Client, id: int)
    ensures var d := c.(pending := c.pending - {id}); OnlyDefinitionOf(c, d, id) && d.core.remote == c.core.remote
  {}

  lemma ClearedOnly(c: Client, id: int)
    ensures var d := c.(core := c.core.(remote := ClearDefinition(c.core.remote, id)), pending := c.pending - {id});
      OnlyDefinitionOf(c, d, id) && (Accepts(c.core.remote) ==> Def(d.core.remote, id) == [])
  {
    CalledKeeps(c.core.remote);
  }

  /** At the end of any run: when a get or get_many ends, answered or not, its entry is gone and no other. The end
      of a get_many on an open session clears its definition, which with HRESULT 0 is then empty; the end of a get
      leaves all definitions as they are. Nothing else changes. */
  lemma EndOfGet(script: seq<int>, run: seq<Step>, id: int)
    requires Legal(Init(script), run)
    ensures var c := EndOf(Init(script), run); var d := Next(c, FinishGet(id));
      && d.pending == c.pending - {id} && OnlyDefinitionOf(c, d, id)
      && (id in c.pending && c.pending[id].GetMany? && Accepts(c.core.remote) ==> Def(d.core.remote, id) == [])
      && (id !in c.pending || c.pending[id].GetOne? ==> d.core.remote == c.core.remote)
  {
    EndsOnly(EndOf(Init(script), run), id);
  }

  lemma EndsOnly(c: Client, id: int)
    ensures var d := EndGet(c, id);
      && d.pending == c.pending - {id} && OnlyDefinitionOf(c, d, id)
      && (id in c.pending && c.pending[id].GetMany? && Accepts(c.core.remote) ==> Def(d.core.remote, id) == [])
      && (id !in c.pending || c.pending[id].GetOne? ==> d.core.remote == c.core.remote)
  {
    if id in c.pending && c.pending[id].GetMany? && c.core.remote.open {
      ClearedOnly(c, id);
    } else {
      ForgottenOnly(c, id);
      assert id !in c.pending ==> c.pending - {id} == c.pending;
    }
  }

  lemma DefineManyFrame(k: Core, fields: seq<ParsedField>)
    requires GetVarByDefineId(k.reg, k.reg.counters.nextGetManyId) == None
    ensures var (q, ok) := DefineMany(k, fields);
      && q.reg == AllocGetManyId(k.reg) && OnlyDefinition(k.remote, q.remote, k.reg.counters.nextGetManyId)
      && (Clean(k.remote) && k.remote.open ==> ok)
  {
    var drawn, id := k.(reg := AllocGetManyId(k.reg)), k.reg.counters.nextGetManyId;
    assert PrepareDefinition(drawn, id) == drawn;
    AddAllFrame(k.remote, id, RemoteFields(fields));
    if Clean(k.remote) && k.remote.open {
      AddAllAppends(k.remote, id, RemoteFields(fields));
    }
  }

  /** What a get_many has changed when it is over. */
  ghost predicate OnlyDrewAnId(c: Client, e: Client) {
    var id := c.core.reg.counters.nextGetManyId;
    && e == c.(core := e.core) && e.core.reg == AllocGetManyId(c.core.reg)
    && (forall x :: x != id ==> Def(e.core.remote, x) == Def(c.core.remote, x))
    && (Clean(c.core.remote) ==> Def(e.core.remote, id) == [])
  }

  /** What the end of a get_many, or its failed request, leaves. */
  ghost predicate OnlyCleared(c: Client, k: Core, id: int, e: Client) {
    && e == c.(core := k.(remote := e.core.remote))
    && (forall x :: x != id ==> Def(e.core.remote, x) == Def(k.remote, x))
    && (Clean(k.remote) ==> Def(e.core.remote, id) == [])
  }

  lemma EndedCleared(c: Client, k: Core, id: int, layout: seq<Slice>)
    requires c.pending == map[] && k.remote.open && Accepts(k.remote)
    ensures var (asked, ok) := Ask(c.(core := k), id, GetMany(layout, None));
      ok && OnlyCleared(c, k, id, EndGet(asked, id))
  {
    CalledKeeps(k.remote);
    CalledKeeps(RequestDataOnType(k.remote, id + TYPE_REQ_OFFSET, id));
    assert map[id := GetMany(layout, None)] - {id} == map[];
  }

  lemma FailedCleared(c: Client, k: Core, id: int, layout: seq<Slice>)
    requires c.pending == map[] && k.remote.open && !Accepts(k.remote)
    ensures var (asked, ok) := Ask(c.(core := k), id, GetMany(layout, None));
      !ok && OnlyCleared(c, k, id, asked.(core := asked.core.(remote := ClearDefinition(asked.core.remote, id))))
  {
    CalledKeeps(k.remote);
    CalledKeeps(RequestDataOnType(k.remote, id + TYPE_REQ_OFFSET, id));
    assert c.pending - {id} == c.pending;
  }

  /** At the end of any run, whatever the DLL answers, a get_many that is refused changes nothing. Any other, once it
      has failed or has waited and ended, answered or not, has changed nothing but to draw an id: nothing waits, the
      subscriptions and the registered variables are what they were, and so is every definition but its own, which
      with HRESULT 0 is empty again. */
  lemma GetManyLeavesNothing(script: seq<int>, run: seq<Step>, fields: seq<ParsedField>)
    requires Legal(Init(script), run + [CallGetMany(fields)])
    ensures var c := EndOf(Init(script), run); var id := c.core.reg.counters.nextGetManyId;
      var (d, ok) := BeginGetMany(c, fields); var e := if ok then EndGet(d, id) else d;
      && c.pending == map[] && (e == c || OnlyDrewAnId(c, e))
      && (!Ready(c) || (exists f :: f in fields && !(1 <= f.dtype <= 4)) ==> e == c)
  {
    var c := EndOf(Init(script), run);
    LastStep(Init(script), run, CallGetMany(fields));
    MeansOverRuns(script, run);
    AllNumericIs(fields);
    if Ready(c) && AllNumeric(fields) {
      GetManyCounts(c, fields);
      assert GetVarByDefineId(c.core.reg, c.core.reg.counters.nextGetManyId) == None;
      DrawnAndCleared(c, fields);
    }
  }

  lemma DrawnAndCleared(c: Client, fields: seq<ParsedField>)
    requires Ready(c) && AllNumeric(fields) && c.pending == map[]
    requires GetVarByDefineId(c.core.reg, c.core.reg.counters.nextGetManyId) == None
    ensures var (d, ok) := BeginGetMany(c, fields);
      OnlyDrewAnId(c, if ok then EndGet(d, c.core.reg.counters.nextGetManyId) else d)
  {
    var id := c.core.reg.counters.nextGetManyId;
    var (k, ok) := DefineMany(c.core, fields);
    DefineManyFrame(c.core, fields);
    if ok {
      if Accepts(k.remote) {
        EndedCleared(c, k, id, Layout(fields));
      } else {
        FailedCleared(c, k, id, Layout(fields));
      }
      GetManyLeaves(c, fields, k, id);
    }
  }

  lemma GetManyLeaves(c: Client, fields: seq<ParsedField>, k: Core, id: int)
    requires Ready(c) && AllNumeric(fields) && DefineMany(c.core, fields) == (k, true)
    requires id == c.core.reg.counters.nextGetManyId
    ensures var (d, ok) := BeginGetMany(c, fields);
      var (asked, waits) := Ask(c.(core := k), id, GetMany(Layout(fields), None));
      && ok == waits
      && d == if ok then asked else asked.(core := asked.core.(remote := ClearDefinition(asked.core.remote, id)))
  {}

  // ---- a repeated TYPE request ----

  /** At the end of any run: on a ready session, for a live subscription whose slot is marked as defined, the TYPE
      request is made again, under the offset id for the subscription's own definition; the mark tells whether it was
      accepted. Nothing else changes, and in every other case nothing is asked. */
  lemma RepollAsksAgain(script: seq<int>, run: seq<Step>, s: int)
    requires Legal(Init(script), run)
    ensures var c := EndOf(Init(script), run); var d := Next(c, RepollType(s));
      if !Ready(c) || s !in c.subs then d == c
      else
        var asks := Flag(c, s) && Accepts(c.core.remote);
        && d.core.reg == c.core.reg && d.composites == c.composites && d.pending == c.pending
        && d.subs == c.subs[s := c.subs[s].(typeRequested := asks)] && d.core.remote.defs == c.core.remote.defs
        && d.core.remote.requests ==
          (if asks then c.core.remote.requests[s + 50000 := s] else c.core.remote.requests)
        && d.core.remote.script ==
          (if Flag(c, s) && c.core.remote.script != [] then c.core.remote.script[1..] else c.core.remote.script)
  {
    InitTables(script);
    TablesOverRuns(Init(script), run);
    var c := EndOf(Init(script), run);
    if s in c.subs {
      assert SubOk(c.core.reg, s, c.subs[s]);
      CalledKeeps(c.core.remote);
    }
  }

  // ---- the recovery of a composite ----

  /** A slot that no later subscription to its variable has displaced. */
  predicate Undisplaced(c: Client, s: int)
    requires s in c.subs
  {
    c.subs[s].Multi? || Registered(c, s)
  }

  /** The subscriptions of d are those of c, and s is as undisplaced and as defined as it was. */
  lemma RecoveredOne(c: Client, s: int)
    requires TablesOk(c) && Clean(c.core.remote) && c.core.remote.open
    ensures var (d, ok) := ResubscribeOne(c, s);
      && TablesOk(d) && Clean(d.core.remote) && d.core.remote.open && ok == (s in c.subs) && d.subs.Keys == c.subs.Keys
      && (forall t :: t in c.subs ==> FieldsOf(d, t) == FieldsOf(c, t) && (Undisplaced(c, t) ==> Undisplaced(d, t)))
      && (forall t :: t != s ==> DefOf(d, t) == DefOf(c, t))
      && (s in c.subs && Undisplaced(c, s) ==> DefOf(d, s) == FieldsOf(c, s))
  {
    if s in c.subs {
      var e := Stopped(c, s);
      var d := ApplyAt(e, s).0;
      assert SubOk(c.core.reg, s, c.subs[s]);
      ResubscribeOneKeeps(c, s);
      RecoveryDefinesAllButStranded(c, s);
      StoppedSame(c, s);
      SameKeeps(c, e, s);
      assert SubOk(e.core.reg, s, e.subs[s]);
      ApplyAtSame(e, s);
      SameChain(c, e, d, s);
    }
  }

  lemma SameChain(c: Client, e: Client, d: Client, s: int)
    requires TablesOk(c) && TablesOk(e) && Same(c, e, s) && Same(e, d, s)
    ensures forall t :: t in c.subs ==> t in d.subs && FieldsOf(d, t) == FieldsOf(c, t)
                                        && (Undisplaced(c, t) ==> Undisplaced(d, t))
  {
    forall t | t in c.subs
      ensures t in d.subs && FieldsOf(d, t) == FieldsOf(c, t) && (Undisplaced(c, t) ==> Undisplaced(d, t))
    {
      SameFields(c, e, s, t);
      SameFields(e, d, s, t);
      assert d.subs[t].slot == c.subs[t].slot && d.core.reg.vars == c.core.reg.vars;
    }
  }

  lemma {:induction false} RecoveredAll(c: Client, sids: seq<int>)
    requires TablesOk(c) && Clean(c.core.remote) && c.core.remote.open
    ensures var d := ResubscribeAll(c, sids);
      && d.subs.Keys == c.subs.Keys && (AllRecover(c, sids) <==> forall s :: s in sids ==> s in c.subs)
      && (forall t :: t in c.subs ==> FieldsOf(d, t) == FieldsOf(c, t))
      && (forall t :: t !in sids ==> DefOf(d, t) == DefOf(c, t))
      && (forall t :: t in sids && t in c.subs && Undisplaced(c, t) ==> DefOf(d, t) == FieldsOf(c, t))
    decreases |sids|
  {
    if sids != [] {
      var e := ResubscribeOne(c, sids[0]).0;
      RecoveredOne(c, sids[0]);
      RecoveredAll(e, sids[1..]);
      assert forall s :: s in c.subs <==> s in c.subs.Keys;
    }
  }

  /** At the end of any run, on an open session whose coming calls return HRESULT 0: recovering a subscription, or all
      children of a composite, leaves exactly one copy of the fields of each of them, apart from single ones whose
      slot was displaced, and reports success exactly if all of them are live. No other definition changes. */
  lemma RecoverReachesAllChildren(script: seq<int>, run: seq<Step>, sid: int)
    requires Legal(Init(script), run) && EndOf(Init(script), run).core.remote.open
    requires Clean(EndOf(Init(script), run).core.remote)
    ensures var c := EndOf(Init(script), run); var d := Next(c, Recover(sid));
      var all := if sid in c.composites then c.composites[sid] else [sid];
      && (AllRecover(c, all) <==> forall s :: s in all ==> s in c.subs)
      && (forall s :: s in all && s in c.subs && Undisplaced(c, s) ==> DefOf(d, s) == FieldsOf(c, s))
      && (forall t :: t !in all ==> DefOf(d, t) == DefOf(c, t))
  {
    InitTables(script);
    TablesOverRuns(Init(script), run);
    var c := EndOf(Init(script), run);
    RecoveredAll(c, if sid in c.composites then c.composites[sid] else [sid]);
  }
}
