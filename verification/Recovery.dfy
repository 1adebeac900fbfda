/** What recovering one subscription leaves of its definition, whatever the DLL answers and whichever keys
    are in use. */
module Recovery {
  import opened Remote
  import opened Client
  import opened Tables
  import opened TablesKept
  import opened Session
  import opened Mirror
  import opened Applied
  import opened MirrorLimits

  /** What the clear calls of a recovery leave of the old definition; their HRESULTs are ignored. A second one
      is made when the slot the id looks up is marked as defined. */
  function Left(c: Client, s: int): seq<Field> {
    var ended := RequestData(c.core.remote, s, s, PERIOD_NEVER);
    if Accepts(ended) || (Undefines(c.core.reg, s) && Accepts(ClearDefinition(ended, s))) then [] else DefOf(c, s)
  }

  /** The clear calls of a recovery: its own, and that of the application behind it. */
  lemma StoppedRemains(c: Client, s: int)
    requires s in c.subs && c.core.remote.open
    ensures var e := Stopped(c, s); e.core.remote.open && Remaining(e, s) == Left(c, s)
  {
    CalledKeeps(c.core.remote);
    CalledKeeps(RequestData(c.core.remote, s, s, PERIOD_NEVER));
  }

  lemma StoppedKeeps(c: Client, s: int)
    requires TablesOk(c) && s in c.subs
    ensures TablesOk(Stopped(c, s)) && Gained(Stopped(c, s), s) == Gained(c, s)
    ensures Clean(c.core.remote) ==> Clean(Stopped(c, s).core.remote)
  {
    assert SubOk(c.core.reg, s, c.subs[s]);
    StoppedSame(c, s);
    SameKeeps(c, Stopped(c, s), s);
  }

  /** A recovery that returns True has kept what its clear calls left and added the fields once, unless the
      slot was displaced while it was marked as defined. So it leaves exactly one copy if and only if the
      clear calls left nothing or, for a displaced slot, left exactly that. */
  lemma RecoveryLeavesExactly(c: Client, s: int)
    requires TablesOk(c) && s in c.subs && c.core.remote.open && ResubscribeOne(c, s).1
    ensures DefOf(ResubscribeOne(c, s).0, s) == Left(c, s) + Gained(c, s)
    ensures DefOf(ResubscribeOne(c, s).0, s) == FieldsOf(c, s) <==>
      Left(c, s) == if Stranded(c, s) then FieldsOf(c, s) else []
  {
    StoppedRemains(c, s);
    StoppedKeeps(c, s);
    ApplicationAddsExactly(Stopped(c, s), s);
    var left, fields := Left(c, s), FieldsOf(c, s);
    assert left + fields == fields ==> |left| == 0;
    assert left + [] == left && [] + fields == fields;
  }

  // ---- when every call succeeds ----

  lemma RecoverySucceeds(c: Client, s: int)
    requires TablesOk(c) && Clean(c.core.remote) && c.core.remote.open && s in c.subs
    ensures ResubscribeOne(c, s).1 && Left(c, s) == []
  {
    CalledKeeps(c.core.remote);
    StoppedRemains(c, s);
    StoppedKeeps(c, s);
    ApplicationSucceeds(Stopped(c, s), s);
    CalledKeeps(RequestData(c.core.remote, s, s, PERIOD_NEVER));
  }

  /** With HRESULT 0 and any keys, a recovery always returns True. It leaves exactly one copy of the fields,
      and nothing if a second subscription to the variable displaced the slot while it was defined. */
  lemma RecoveryDefinesAllButStranded(c: Client, s: int)
    requires TablesOk(c) && Clean(c.core.remote) && c.core.remote.open && s in c.subs
    ensures ResubscribeOne(c, s).1
    ensures DefOf(ResubscribeOne(c, s).0, s) == if Stranded(c, s) then [] else FieldsOf(c, s)
  {
    RecoverySucceeds(c, s);
    RecoveryLeavesExactly(c, s);
  }

  lemma RecoverIsResubscribeOne(c: Client, s: int)
    requires TablesOk(c) && s in c.subs
    ensures Next(c, Recover(s)) == ResubscribeOne(c, s).0
  {
    assert s in c.composites ==> CompositeOk(c, s);
    assert [s][1..] == [];
    assert ResubscribeAll(c, [s]) == ResubscribeAll(ResubscribeOne(c, s).0, []);
  }

  /** It does happen: of two subscriptions to one variable on a ready session, recovering the first returns
      True and takes its definition away, on the same session. */
  lemma RecoveryLosesTheFirst(name: string, unit: string, dtype: int, period: int)
    requires period >= 0 && dtype >= 0
    ensures Legal(Init([]), [CallOpen, OpenMessage([])]) && EndOf(Init([]), [CallOpen, OpenMessage([])]) == Opened([])
    ensures var one := CallSubscribe(name, unit, dtype, period); var e := EndOf(Opened([]), [one, one]);
      && Legal(Opened([]), [one, one]) && Enabled(e, Recover(1)) && 1 in e.subs && FieldsOf(e, 1) != []
      && ResubscribeOne(e, 1).1 && DefOf(Next(e, Recover(1)), 1) == []
  {
    var one := CallSubscribe(name, unit, dtype, period);
    var e := EndOf(Opened([]), [one, one]);
    OpeningRun([]);
    SecondSubscriptionStrandsTheFirst(name, unit, dtype, period);
    assert 1 in e.subs.Keys;
    RecoveryDefinesAllButStranded(e, 1);
    RecoverIsResubscribeOne(e, 1);
  }
}
