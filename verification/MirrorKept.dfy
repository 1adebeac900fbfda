/** The agreement of the two tables through every operation, on a session whose calls succeed. */
module MirrorKept {
  import opened Parsing
  import opened Fields
  import opened RegistryState
  import opened Remote
  import opened Client
  import opened Tables
  import opened TablesKept
  import opened Mirror

  lemma HoldsWeaker(c: Client, s: int)
    requires s in c.subs && Holds(c, s, 1)
    ensures Holds(c, s, 0)
  {}

  lemma MirroredHolds(c: Client)
    requires Mirrored(c)
    ensures AllHold(c, 0)
  {
    forall s | s in c.subs ensures Holds(c, s, 0) {
      if Ready(c) {
        HoldsWeaker(c, s);
      }
    }
  }

  lemma HoldsCarried(c: Client, d: Client, s: int, least: nat)
    requires s in c.subs && s in d.subs && FieldsOf(d, s) == FieldsOf(c, s) && DefOf(d, s) == DefOf(c, s)
    requires Holds(c, s, least)
    ensures Holds(d, s, least)
  {
    var n: nat :| n >= least && Copies(DefOf(c, s), FieldsOf(c, s), n);
    assert Copies(DefOf(d, s), FieldsOf(d, s), n);
  }

  /** A step that leaves every other definition alone keeps the agreement if it leaves `id` right. */
  lemma SameAgrees(c: Client, d: Client, id: int)
    requires Agrees(c) && TablesOk(d) && Same(c, d, id) && Issued(c.core.reg.counters, id)
    requires id in c.subs ==> Holds(d, id, Least(d))
    ensures Agrees(d)
  {
    SameWired(c, d, id);
    forall s | s in d.subs ensures Holds(d, s, Least(d)) {
      if s != id {
        SameHolds(c, d, id, s, Least(c));
      }
    }
  }

  /** A step that leaves every definition alone. */
  lemma SameDefsAgree(c: Client, d: Client, id: int)
    requires Agrees(c) && TablesOk(d) && Same(c, d, id)
    requires DefOf(d, id) == DefOf(c, id)
    ensures Agrees(d)
  {
    SameWired(c, d, id);
    forall s | s in d.subs ensures Holds(d, s, Least(d)) {
      SameFields(c, d, id, s);
      HoldsCarried(c, d, s, Least(c));
    }
  }

  // ---- subscribe ----

  /** No live single subscription uses the key. */
  ghost predicate KeyFree(c: Client, key: VarKey) {
    forall s :: s in c.subs && c.subs[s].Single? ==> SlotAt(c.core.reg, c.subs[s].slot).Key() != key
  }

  /** d is c with one more subscription, not applied yet. */
  ghost predicate Enters(c: Client, d: Client, sid: int) {
    && sid !in c.subs && d.subs.Keys == c.subs.Keys + {sid}
    && (forall s :: s in c.subs ==> d.subs[s] == c.subs[s] && FieldsOf(d, s) == FieldsOf(c, s))
    && d.core.remote == c.core.remote && d.openReceived == c.openReceived
    && sid == c.core.reg.counters.nextSubId && d.core.reg.counters.nextSubId == sid + 1
    && Leq(c.core.reg.counters, d.core.reg.counters)
  }

  lemma EnteredHolds(c: Client, d: Client, sid: int)
    requires Agrees(c) && Enters(c, d, sid) && sid < VAR_ID_START
    ensures AllHold(d, 0) && Undrawn(d) && forall s :: s in c.subs ==> Holds(d, s, Least(c))
  {
    MirroredHolds(c);
    forall s | s in d.subs ensures Holds(d, s, 0) && (s in c.subs ==> Holds(d, s, Least(c))) {
      if s == sid {
        assert DefOf(d, s) == DefOf(c, s) == [];
        assert Copies(DefOf(d, s), FieldsOf(d, s), 0);
      } else {
        HoldsCarried(c, d, s, 0);
        HoldsCarried(c, d, s, Least(c));
      }
    }
  }

  lemma EnteredAgrees(c: Client, d: Client, sid: int)
    requires Agrees(c) && Enters(c, d, sid) && sid < VAR_ID_START && TablesOk(d) && Wired(d)
    ensures Agrees(ApplyIfReady(d, sid).0)
    ensures ApplyIfReady(d, sid).1
  {
    EnteredHolds(c, d, sid);
    var e := ApplyIfReady(d, sid).0;
    if Ready(d) {
      assert SubOk(d.core.reg, sid, d.subs[sid]);
      ApplyAtSame(d, sid);
      ApplyAtHolds(d, sid);
      ApplyAtDefines(d, sid);
    }
  }

  lemma AddSingleEnters(c: Client, name: string, unit: string, dtype: int, period: int)
    requires TablesOk(c) && c.core.reg.counters.nextSubId < VAR_ID_START
    ensures Enters(c, AddSingle(c, name, unit, dtype, period), c.core.reg.counters.nextSubId)
  {
    NextIsFresh(c);
    forall s | s in c.subs ensures FieldsOf(AddSingle(c, name, unit, dtype, period), s) == FieldsOf(c, s) {
      assert SubOk(c.core.reg, s, c.subs[s]);
    }
  }

  lemma AddMultiEnters(c: Client, fields: seq<ParsedField>, period: int)
    requires TablesOk(c) && c.core.reg.counters.nextSubId < VAR_ID_START
    ensures Enters(c, AddMulti(c, fields, period), c.core.reg.counters.nextSubId)
  {
    NextIsFresh(c);
    forall s | s in c.subs ensures FieldsOf(AddMulti(c, fields, period), s) == FieldsOf(c, s) {
      assert SubOk(c.core.reg, s, c.subs[s]);
    }
  }

  /** Registering a subscription leaves every live single subscription the owner of its key exactly when
      no live one has the new key already. */
  lemma WiringSurvivesExactlyFreshKeys(c: Client, name: string, unit: string, dtype: int, period: int)
    requires TablesOk(c) && Wired(c) && c.core.reg.counters.nextSubId < VAR_ID_START
    ensures Wired(AddSingle(c, name, unit, dtype, period)) <==> KeyFree(c, KeyOf(name, unit, dtype))
  {
    var d, sid, key := AddSingle(c, name, unit, dtype, period), c.core.reg.counters.nextSubId, KeyOf(name, unit, dtype);
    NextIsFresh(c);
    forall s | s in c.subs
      ensures Owns(d.core.reg, d.subs[s]) <==> c.subs[s].Multi? || SlotAt(c.core.reg, c.subs[s].slot).Key() != key
    {
      assert SubOk(c.core.reg, s, c.subs[s]);
      assert Owns(c.core.reg, c.subs[s]);
    }
    assert Owns(d.core.reg, d.subs[sid]);
    assert forall s :: s in d.subs <==> s in c.subs || s == sid;
    if Wired(d) {
      forall s | s in c.subs && c.subs[s].Single? ensures SlotAt(c.core.reg, c.subs[s].slot).Key() != key {
        assert s in d.subs;
        assert Owns(d.core.reg, d.subs[s]);
      }
    }
  }

  lemma SubscribeAgrees(c: Client, name: string, unit: string, dtype: int, period: int)
    requires Agrees(c) && InBounds(Subscribe(c, name, unit, dtype, period).0.core.reg)
    requires period >= 0 && dtype >= 0 ==> KeyFree(c, KeyOf(name, unit, dtype))
    ensures Agrees(Subscribe(c, name, unit, dtype, period).0)
    ensures period >= 0 && dtype >= 0 ==> Subscribe(c, name, unit, dtype, period).1
  {
    if period >= 0 && dtype >= 0 {
      var sid := c.core.reg.counters.nextSubId;
      SubscribeCounts(c, name, unit, dtype, period);
      var d := AddSingle(c, name, unit, dtype, period);
      ApplyIfReadyCounters(d, sid);
      AddSingleKeeps(c, name, unit, dtype, period);
      AddSingleEnters(c, name, unit, dtype, period);
      WiringSurvivesExactlyFreshKeys(c, name, unit, dtype, period);
      EnteredAgrees(c, d, sid);
    }
  }

  lemma AddMultiWired(c: Client, fields: seq<ParsedField>, period: int)
    requires TablesOk(c) && Wired(c) && c.core.reg.counters.nextSubId < VAR_ID_START
    ensures Wired(AddMulti(c, fields, period))
  {
    NextIsFresh(c);
    var d := AddMulti(c, fields, period);
    forall s | s in d.subs ensures Owns(d.core.reg, d.subs[s]) {
      if s in c.subs {
        assert SubOk(c.core.reg, s, c.subs[s]);
        assert Owns(c.core.reg, c.subs[s]);
      }
    }
  }

  lemma SubscribeNumericAgrees(c: Client, fields: seq<ParsedField>, period: int)
    requires Agrees(c) && AllNumeric(fields) && InBounds(SubscribeNumeric(c, fields, period).0.core.reg)
    ensures Agrees(SubscribeNumeric(c, fields, period).0) && SubscribeNumeric(c, fields, period).1
  {
    SubscribeNumericCounts(c, fields, period);
    AddMultiKeeps(c, fields, period);
    AddMultiEnters(c, fields, period);
    AddMultiWired(c, fields, period);
    EnteredAgrees(c, AddMulti(c, fields, period), c.core.reg.counters.nextSubId);
  }

  // ---- subscribe_many ----

  function StringKey(f: ParsedField): VarKey { KeyOf(f.name, "", STRINGV) }

  /** The string fields name variables that differ from each other and from the live ones. */
  ghost predicate StringKeysFree(c: Client, fields: seq<ParsedField>) {
    && (forall i :: 0 <= i < |fields| ==> KeyFree(c, StringKey(fields[i])))
    && (forall i, j :: 0 <= i < j < |fields| ==> StringKey(fields[i]) != StringKey(fields[j]))
  }

  lemma KeyStaysFree(c: Client, d: Client, sid: int, key: VarKey)
    requires TablesOk(c) && KeyFree(c, key) && sid !in c.subs
    requires forall s :: s in d.subs ==> s in c.subs || s == sid
    requires forall s :: s in c.subs && s in d.subs ==> d.subs[s].Single? == c.subs[s].Single?
    requires forall s :: s in c.subs && s in d.subs ==>
      SlotAt(d.core.reg, d.subs[s].slot).Key() == SlotAt(c.core.reg, c.subs[s].slot).Key()
    requires sid in d.subs && d.subs[sid].Single? ==> SlotAt(d.core.reg, d.subs[sid].slot).Key() != key
    ensures KeyFree(d, key)
  {}

  lemma ApplyIfReadyShape(c: Client, sid: int)
    requires TablesOk(c) && sid in c.subs
    ensures Same(c, ApplyIfReady(c, sid).0, sid)
  {
    if Ready(c) {
      assert SubOk(c.core.reg, sid, c.subs[sid]);
      ApplyAtSame(c, sid);
    }
  }

  lemma SubscribeKeepsOtherKeysFree(c: Client, name: string, unit: string, dtype: int, period: int, key: VarKey)
    requires TablesOk(c) && InBounds(Subscribe(c, name, unit, dtype, period).0.core.reg) && period >= 0 && dtype >= 0
    requires KeyFree(c, key) && key != KeyOf(name, unit, dtype)
    ensures KeyFree(Subscribe(c, name, unit, dtype, period).0, key)
  {
    var sid, a := c.core.reg.counters.nextSubId, AddSingle(c, name, unit, dtype, period);
    var d := Subscribe(c, name, unit, dtype, period).0;
    SubscribeCounts(c, name, unit, dtype, period);
    ApplyIfReadyCounters(a, sid);
    AddSingleKeeps(c, name, unit, dtype, period);
    NextIsFresh(c);
    ApplyIfReadyShape(a, sid);
    forall s | s in c.subs
      ensures SlotAt(d.core.reg, d.subs[s].slot).Key() == SlotAt(c.core.reg, c.subs[s].slot).Key()
    {
      assert SubOk(c.core.reg, s, c.subs[s]);
    }
    assert SubOk(a.core.reg, sid, a.subs[sid]);
    KeyStaysFree(c, d, sid, key);
  }

  lemma {:induction false} SubscribeStringsAgree(c: Client, fields: seq<ParsedField>, period: int)
    requires Agrees(c) && period >= 0 && StringKeysFree(c, fields)
    requires InBounds(SubscribeStrings(c, fields, period).0.core.reg)
    ensures Agrees(SubscribeStrings(c, fields, period).0) && SubscribeStrings(c, fields, period).1
    decreases |fields|
  {
    if fields != [] {
      var (d, ok) := Subscribe(c, fields[0].name, "", STRINGV, period);
      if ok {
        SubscribeStringsCounts(d, fields[1..], period);
        BoundsBelow(d.core.reg, SubscribeStrings(c, fields, period).0.core.reg);
      }
      SubscribeAgrees(c, fields[0].name, "", STRINGV, period);
      forall i | 0 <= i < |fields[1..]| ensures KeyFree(d, StringKey(fields[1..][i])) {
        SubscribeKeepsOtherKeysFree(c, fields[0].name, "", STRINGV, period, StringKey(fields[1..][i]));
      }
      SubscribeStringsAgree(d, fields[1..], period);
    }
  }

  lemma ReserveAgrees(c: Client)
    requires Agrees(c) && c.core.reg.counters.nextSubId < VAR_ID_START
    ensures Agrees(c.(core := c.core.(reg := AllocSubscriptionId(c.core.reg))))
  {
    var d := c.(core := c.core.(reg := AllocSubscriptionId(c.core.reg)));
    ReserveKeeps(c);
    assert forall s :: s in c.subs ==> Owns(c.core.reg, c.subs[s]) ==> Owns(d.core.reg, d.subs[s]);
    forall s | s in d.subs ensures Holds(d, s, Least(d)) {
      HoldsCarried(c, d, s, Least(c));
    }
  }

  lemma CompositesDoNotMatter(c: Client, composites: map<int, seq<int>>)
    requires Agrees(c) && TablesOk(c.(composites := composites))
    ensures Agrees(c.(composites := composites))
  {
    var d := c.(composites := composites);
    assert forall s :: s in c.subs ==> Owns(c.core.reg, c.subs[s]) ==> Owns(d.core.reg, d.subs[s]);
    forall s | s in d.subs ensures Holds(d, s, Least(d)) {
      HoldsCarried(c, d, s, Least(c));
    }
  }

  lemma NumericKeepsKeysFree(c: Client, fields: seq<ParsedField>, period: int, key: VarKey)
    requires TablesOk(c) && AllNumeric(fields) && InBounds(SubscribeNumeric(c, fields, period).0.core.reg)
      && KeyFree(c, key)
    ensures KeyFree(SubscribeNumeric(c, fields, period).0, key)
  {
    var sid, a := c.core.reg.counters.nextSubId, AddMulti(c, fields, period);
    var d := SubscribeNumeric(c, fields, period).0;
    SubscribeNumericCounts(c, fields, period);
    AddMultiKeeps(c, fields, period);
    NextIsFresh(c);
    ApplyIfReadyShape(a, sid);
    forall s | s in c.subs
      ensures SlotAt(d.core.reg, d.subs[s].slot).Key() == SlotAt(c.core.reg, c.subs[s].slot).Key()
    {
      assert SubOk(c.core.reg, s, c.subs[s]);
    }
    KeyStaysFree(c, d, sid, key);
  }

  lemma SubscribeCompositeAgrees(c: Client, numeric: seq<ParsedField>, strings: seq<ParsedField>, period: int)
    requires Agrees(c) && AllNumeric(numeric) && period >= 0 && StringKeysFree(c, strings)
    requires InBounds(SubscribeComposite(c, numeric, strings, period).0.core.reg)
    ensures Agrees(SubscribeComposite(c, numeric, strings, period).0)
  {
    var reserved := c.(core := c.core.(reg := AllocSubscriptionId(c.core.reg)));
    var (first, ok1) := if numeric == [] then (reserved, true) else SubscribeNumeric(reserved, numeric, period);
    var d := SubscribeComposite(c, numeric, strings, period).0;
    SubscribeNumericCounts(reserved, numeric, period);
    SubscribeStringsCounts(first, strings, period);
    BoundsBelow(first.core.reg, d.core.reg);
    ReserveAgrees(c);
    assert forall key :: KeyFree(c, key) ==> KeyFree(reserved, key);
    if numeric != [] {
      SubscribeNumericAgrees(reserved, numeric, period);
      forall i | 0 <= i < |strings| ensures KeyFree(first, StringKey(strings[i])) {
        NumericKeepsKeysFree(reserved, numeric, period, StringKey(strings[i]));
      }
    }
    SubscribeStringsAgree(first, strings, period);
    SubscribeCompositeKeeps(c, numeric, strings, period);
    CompositesDoNotMatter(SubscribeStrings(first, strings, period).0, d.composites);
  }

  lemma SubscribeManyAgrees(c: Client, parsed: seq<ParsedField>, period: int)
    requires Agrees(c) && StringKeysFree(c, Strings(parsed)) && InBounds(SubscribeMany(c, parsed, period).0.core.reg)
    ensures Agrees(SubscribeMany(c, parsed, period).0)
  {
    if period >= 0 && forall f :: f in parsed ==> Supported(f) {
      NumericHalfHasLayout(parsed);
      if Strings(parsed) == [] {
        SubscribeNumericAgrees(c, Numeric(parsed), period);
      } else {
        SubscribeCompositeAgrees(c, Numeric(parsed), Strings(parsed), period);
      }
    }
  }

  // ---- unsubscribe, resubscribe ----

  lemma UnsubscribeOneOwns(c: Client, sid: int, s: int)
    requires TablesOk(c) && Wired(c) && sid in c.subs && s in c.subs && s != sid
    ensures var d := UnsubscribeOne(c, sid);
      Owns(d.core.reg, d.subs[s]) && FieldsOf(d, s) == FieldsOf(c, s)
  {
    assert SubOk(c.core.reg, sid, c.subs[sid]) && SubOk(c.core.reg, s, c.subs[s]);
    assert Owns(c.core.reg, c.subs[sid]) && Owns(c.core.reg, c.subs[s]);
  }

  lemma UnsubscribeOneAgrees(c: Client, sid: int)
    requires Agrees(c)
    ensures Agrees(UnsubscribeOne(c, sid))
  {
    if sid in c.subs {
      var d := UnsubscribeOne(c, sid);
      UnsubscribeOneKeeps(c, sid);
      StopTouches(c.core, sid);
      assert SubOk(c.core.reg, sid, c.subs[sid]);
      assert d.core.reg.counters == c.core.reg.counters;
      forall s | s in d.subs ensures Owns(d.core.reg, d.subs[s]) && Holds(d, s, Least(d)) {
        UnsubscribeOneOwns(c, sid, s);
        HoldsCarried(c, d, s, Least(c));
      }
    }
  }

  lemma {:induction false} UnsubscribeAllAgrees(c: Client, sids: seq<int>)
    requires Agrees(c)
    ensures Agrees(UnsubscribeAll(c, sids))
    decreases |sids|
  {
    if sids != [] {
      UnsubscribeOneAgrees(c, sids[0]);
      UnsubscribeAllAgrees(UnsubscribeOne(c, sids[0]), sids[1..]);
    }
  }

  lemma UnsubscribeAgrees(c: Client, sid: int)
    requires Agrees(c)
    ensures Agrees(Unsubscribe(c, sid))
  {
    if sid in c.composites {
      var d := c.(composites := c.composites - {sid});
      forall x | x in d.composites ensures CompositeOk(d, x) {
        assert CompositeOk(c, x);
      }
      CompositesDoNotMatter(c, d.composites);
      UnsubscribeAllAgrees(d, c.composites[sid]);
    } else {
      UnsubscribeOneAgrees(c, sid);
    }
  }

  lemma StoppedIsEmpty(c: Client, sid: int)
    requires Clean(c.core.remote) && c.core.remote.open && sid in c.subs
    ensures DefOf(Stopped(c, sid), sid) == []
  {
    CalledKeeps(c.core.remote);
    CalledKeeps(RequestData(c.core.remote, sid, sid, PERIOD_NEVER));
  }

  lemma StoppedIsReady(c: Client, sid: int)
    requires TablesOk(c) && Wired(c) && Clean(c.core.remote) && c.core.remote.open && sid in c.subs
    ensures var e := Stopped(c, sid);
      && TablesOk(e) && Same(c, e, sid) && Owns(e.core.reg, e.subs[sid])
      && Clean(e.core.remote) && e.core.remote.open
      && DefOf(e, sid) == [] && FieldsOf(e, sid) == FieldsOf(c, sid)
  {
    var e := Stopped(c, sid);
    assert SubOk(c.core.reg, sid, c.subs[sid]);
    StoppedSame(c, sid);
    SameKeeps(c, e, sid);
    SameWired(c, e, sid);
    SameFields(c, e, sid, sid);
    StoppedIsEmpty(c, sid);
  }

  /** Recovering one subscription on an open session leaves exactly one copy of its fields. */
  lemma ResubscribeLeavesOneCopy(c: Client, sid: int)
    requires TablesOk(c) && Wired(c) && Clean(c.core.remote) && c.core.remote.open && sid in c.subs
    ensures var (d, ok) := ResubscribeOne(c, sid);
      ok && TablesOk(d) && Same(c, d, sid) && DefOf(d, sid) == FieldsOf(c, sid)
  {
    var e := Stopped(c, sid);
    StoppedIsReady(c, sid);
    ApplyAtDefines(e, sid);
    assert [] + FieldsOf(c, sid) == FieldsOf(c, sid);
    assert SubOk(e.core.reg, sid, e.subs[sid]);
    ApplyAtSame(e, sid);
    ApplyAtKeeps(e, sid);
    TouchesTrans(c.core, e.core, ApplyAt(e, sid).0.core, sid);
  }

  lemma ClosedApplyDefinesNothing(c: Client, sid: int)
    requires !c.core.remote.open && sid in c.subs
    ensures ApplyAt(c, sid).0.core.remote == c.core.remote
  {}

  lemma ResubscribeOneAgrees(c: Client, sid: int)
    requires Agrees(c)
    ensures Agrees(ResubscribeOne(c, sid).0)
  {
    if sid in c.subs {
      var d := ResubscribeOne(c, sid).0;
      assert SubOk(c.core.reg, sid, c.subs[sid]);
      ResubscribeOneKeeps(c, sid);
      MirroredHolds(c);
      if c.core.remote.open {
        ResubscribeLeavesOneCopy(c, sid);
        AppendedHolds(c, d, sid, sid);
        if !Ready(d) {
          HoldsWeaker(d, sid);
        }
        SameAgrees(c, d, sid);
      } else {
        var e := Stopped(c, sid);
        StoppedSame(c, sid);
        SameKeeps(c, e, sid);
        ApplyAtSame(e, sid);
        TouchesTrans(c.core, e.core, d.core, sid);
        ClosedApplyDefinesNothing(e, sid);
        SameDefsAgree(c, d, sid);
      }
    }
  }

  lemma {:induction false} ResubscribeAllAgrees(c: Client, sids: seq<int>)
    requires Agrees(c)
    ensures Agrees(ResubscribeAll(c, sids))
    decreases |sids|
  {
    if sids != [] {
      ResubscribeOneAgrees(c, sids[0]);
      ResubscribeAllAgrees(ResubscribeOne(c, sids[0]).0, sids[1..]);
    }
  }
}
