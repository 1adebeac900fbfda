/** What unsubscribe achieves: the subscription and its children are gone for good, and nothing else is. */
module Unsubscribed {
  import opened Wrappers
  import opened Parsing
  import opened RegistryState
  import opened Remote
  import opened Client
  import opened Tables
  import opened TablesKept
  import opened Session
  import opened Mirror
  import opened Applied
  import opened RestoreExact
  import opened MirrorLimits
  import opened Entries

  /** What an unsubscribe is to end: the subscription itself, or the children of a composite. */
  function Ended(c: Client, sid: int): set<int> {
    if sid in c.composites then set child | child in c.composites[sid] else {sid}
  }

  /** Exactly the entries of these ids are gone, and nothing of any other id has changed. */
  ghost predicate OnlyGone(c: Client, d: Client, ids: set<int>) {
    && d.subs == c.subs - ids && d.pending == c.pending && d.openReceived == c.openReceived
    && d.core.remote.open == c.core.remote.open && (Clean(c.core.remote) ==> Clean(d.core.remote))
    && (forall id :: id !in ids ==> Def(d.core.remote, id) == Def(c.core.remote, id))
    && (forall q :: q in d.core.remote.requests ==>
          q in c.core.remote.requests && d.core.remote.requests[q] == c.core.remote.requests[q])
    && (forall q :: q !in ids && q in c.core.remote.requests ==> q in d.core.remote.requests)
    && OnlyReleased(c.core.reg, d.core.reg, ids)
  }

  /** The ids have been forgotten at most, with the keys they lead to. */
  ghost predicate OnlyReleased(r: Reg, q: Reg, ids: set<int>) {
    && q == r.(vars := q.vars, idToKey := q.idToKey)
    && (forall id :: id in q.idToKey ==> id in r.idToKey && q.idToKey[id] == r.idToKey[id])
    && (forall id :: id !in ids && id in r.idToKey ==> id in q.idToKey)
    && (forall k :: k in q.vars ==> k in r.vars && q.vars[k] == r.vars[k])
    && (forall k :: k in r.vars && k !in q.vars ==> LedTo(r, ids, k))
  }

  ghost predicate LedTo(r: Reg, ids: set<int>, k: VarKey) {
    exists id :: id in ids && id in r.idToKey && r.idToKey[id] == k
  }

  /** The DLL has forgotten the id, and it leads to no slot. */
  predicate Forgotten(d: Client, id: int) {
    Def(d.core.remote, id) == [] && id !in d.core.remote.requests && GetVarByDefineId(d.core.reg, id) == None
  }

  /** No packet of the id, under either of its request ids, calls a callback. */
  ghost predicate Silent(d: Client, id: int) {
    forall p: Packet, plausible: Value -> bool :: p.requestId == id || p.requestId == id + TYPE_REQ_OFFSET ==>
      Deliver(d, p, plausible) == None
  }

  lemma OneEnds(c: Client, s: int)
    requires TablesOk(c)
    ensures var d := UnsubscribeOne(c, s);
      && OnlyGone(c, d, {s}) && d.composites == c.composites
      && (s in c.subs && c.core.remote.open && Clean(c.core.remote) ==> Forgotten(d, s))
  {
    CalledKeeps(c.core.remote);
    CalledKeeps(RequestData(c.core.remote, s, s, PERIOD_NEVER));
    OneIsReleased(c, s);
    if s !in c.subs {
      assert c.subs - {s} == c.subs;
    }
  }

  lemma OneIsReleased(c: Client, s: int)
    requires TablesOk(c)
    ensures var r := UnsubscribeOne(c, s).core.reg;
      && OnlyReleased(c.core.reg, r, {s}) && (s in c.subs && c.core.remote.open ==> GetVarByDefineId(r, s) == None)
  {
    if s in c.subs {
      assert SubOk(c.core.reg, s, c.subs[s]);
      var r := UnsubscribeOne(c, s).core.reg;
      forall k | k in c.core.reg.vars && k !in r.vars ensures LedTo(c.core.reg, {s}, k) {
        assert s in c.core.reg.idToKey && c.core.reg.idToKey[s] == k;
      }
    }
  }

  lemma ReleasedTrans(r: Reg, q: Reg, p: Reg, s: int, rest: set<int>)
    requires OnlyReleased(r, q, {s}) && OnlyReleased(q, p, rest)
    ensures OnlyReleased(r, p, {s} + rest)
  {
    forall k | k in r.vars && k !in p.vars ensures LedTo(r, {s} + rest, k) {
      if k in q.vars {
        var id :| id in rest && id in q.idToKey && q.idToKey[id] == k;
        assert id in r.idToKey && r.idToKey[id] == k;
      } else {
        var id :| id in {s} && id in r.idToKey && r.idToKey[id] == k;
      }
    }
  }

  lemma GoneTrans(c: Client, d: Client, e: Client, s: int, rest: set<int>)
    requires OnlyGone(c, d, {s}) && OnlyGone(d, e, rest)
    ensures OnlyGone(c, e, {s} + rest)
  {
    ReleasedTrans(c.core.reg, d.core.reg, e.core.reg, s, rest);
    assert c.subs - ({s} + rest) == c.subs - {s} - rest;
  }

  lemma {:induction false} StaysForgotten(c: Client, sids: seq<int>, s: int)
    requires TablesOk(c) && s !in c.subs && Forgotten(c, s)
    ensures Forgotten(UnsubscribeAll(c, sids), s)
    decreases |sids|
  {
    if sids != [] {
      OneEnds(c, sids[0]);
      UnsubscribeOneKeeps(c, sids[0]);
      StaysForgotten(UnsubscribeOne(c, sids[0]), sids[1..], s);
    }
  }

  lemma {:induction false} AllEnd(c: Client, sids: seq<int>)
    requires TablesOk(c)
    ensures var d := UnsubscribeAll(c, sids);
      && OnlyGone(c, d, set s | s in sids) && d.composites == c.composites
      && (c.core.remote.open && Clean(c.core.remote) ==> forall s :: s in sids && s in c.subs ==> Forgotten(d, s))
    decreases |sids|
  {
    if sids == [] {
      assert c.subs - {} == c.subs;
    } else {
      var d, rest := UnsubscribeOne(c, sids[0]), set s | s in sids[1..];
      OneEnds(c, sids[0]);
      UnsubscribeOneKeeps(c, sids[0]);
      AllEnd(d, sids[1..]);
      GoneTrans(c, d, UnsubscribeAll(c, sids), sids[0], rest);
      assert (set s | s in sids) == {sids[0]} + rest;
      if c.core.remote.open && Clean(c.core.remote) {
        forall s | s in sids && s in c.subs ensures Forgotten(UnsubscribeAll(c, sids), s) {
          if s == sids[0] {
            StaysForgotten(d, sids[1..], s);
          }
        }
      }
    }
  }

  lemma UnsubscribeEndsExactly(c: Client, sid: int)
    requires TablesOk(c)
    ensures var d := Unsubscribe(c, sid);
      && OnlyGone(c, d, Ended(c, sid)) && d.composites == c.composites - {sid}
      && (c.core.remote.open && Clean(c.core.remote) ==>
            forall s :: s in Ended(c, sid) && s in c.subs ==> Forgotten(d, s))
  {
    if sid in c.composites {
      var d := c.(composites := c.composites - {sid});
      DecomposedKeeps(c, sid);
      AllEnd(d, c.composites[sid]);
    } else {
      OneEnds(c, sid);
      assert c.composites - {sid} == c.composites;
    }
  }

  lemma DecomposedKeeps(c: Client, sid: int)
    requires TablesOk(c) && sid in c.composites
    ensures TablesOk(c.(composites := c.composites - {sid}))
  {
    var d := c.(composites := c.composites - {sid});
    forall x | x in d.composites ensures CompositeOk(d, x) {
      assert CompositeOk(c, x);
    }
  }

  lemma GoneIsSilent(e: Client, id: int)
    requires TablesOk(e) && 0 < id < VAR_ID_START && id !in e.subs
    ensures Silent(e, id)
  {
    assert forall s :: s in e.subs ==> SubOk(e.core.reg, s, e.subs[s]);
    assert Lookup(e, id) == None && Lookup(e, id + TYPE_REQ_OFFSET) == None;
  }

  /** At the end of any run, whatever the DLL answered and whichever keys were used, after unsubscribe(sid): the
      entry of sid, or of every child of a composite sid, is gone, the composite too, and nothing of any other id has
      changed. With HRESULT 0 on an open session their definitions, data requests and keys are gone as well. No
      later run brings them back, and no packet for them, however late, calls a callback again. */
  lemma UnsubscribeEndsForGood(script: seq<int>, run: seq<Step>, sid: int, later: seq<Step>)
    requires Legal(Init(script), run) && Legal(Next(EndOf(Init(script), run), CallUnsubscribe(sid)), later)
    ensures var c := EndOf(Init(script), run); var d := Next(c, CallUnsubscribe(sid)); var e := EndOf(d, later);
      && OnlyGone(c, d, Ended(c, sid)) && d.composites == c.composites - {sid}
      && (c.core.remote.open && Clean(c.core.remote) ==>
            forall s :: s in Ended(c, sid) && s in c.subs ==> Forgotten(d, s))
      && (forall s :: s in Ended(c, sid) && 0 < s < c.core.reg.counters.nextSubId ==> s !in e.subs && Silent(e, s))
  {
    InitTables(script);
    TablesOverRuns(Init(script), run);
    var c := EndOf(Init(script), run);
    var d := Unsubscribe(c, sid);
    UnsubscribeEndsExactly(c, sid);
    UnsubscribeKeeps(c, sid);
    TablesOverRuns(d, later);
    forall s | s in Ended(c, sid) && 0 < s < c.core.reg.counters.nextSubId
      ensures s !in EndOf(d, later).subs && Silent(EndOf(d, later), s)
    {
      CountersStay(c, sid);
      GoneForGood(d, later, s);
      GoneIsSilent(EndOf(d, later), s);
    }
  }

  lemma {:induction false} AllCountersStay(c: Client, sids: seq<int>)
    ensures UnsubscribeAll(c, sids).core.reg.counters == c.core.reg.counters
    decreases |sids|
  {
    if sids != [] {
      AllCountersStay(UnsubscribeOne(c, sids[0]), sids[1..]);
    }
  }

  lemma CountersStay(c: Client, sid: int)
    ensures Unsubscribe(c, sid).core.reg.counters == c.core.reg.counters
  {
    if sid in c.composites {
      AllCountersStay(c.(composites := c.composites - {sid}), c.composites[sid]);
    }
  }

  // ---- two subscriptions to one variable ----

  lemma OtherIsStranded(e: Client, name: string, unit: string, dtype: int, period: int)
    requires TablesOk(e) && e.core.remote.open && e.core.remote.script == []
    requires e.subs == map[1 := Single(0, period, true), 2 := Single(1, period, true)]
    requires e.core.reg.vars == map[KeyOf(name, unit, dtype) := 1]
    requires e.core.reg.slots == [VarSlot(1, name, unit, dtype, true), VarSlot(2, name, unit, dtype, true)]
    ensures var d := UnsubscribeOne(e, 1); d.subs.Keys == {2} && Stranded(d, 2) && d.core.remote.script == []
  {
    assert SubOk(e.core.reg, 1, e.subs[1]) && SubOk(e.core.reg, 2, e.subs[2]);
    assert UnsubscribeOne(e, 1).core.reg.vars == map[];
  }

  lemma OtherReconnects(d: Client)
    requires TablesOk(d) && d.core.remote.open && d.core.remote.script == [] && d.subs.Keys == {2} && Stranded(d, 2)
    ensures var lost := EndOf(d, [QuitMessage, CallOpen]);
      && Legal(d, [QuitMessage, CallOpen]) && Enabled(lost, OpenMessage([2])) && 2 in lost.subs
      && Ready(Next(lost, OpenMessage([2]))) && DefOf(Next(lost, OpenMessage([2])), 2) == []
  {
    Reconnected(d);
    QuitThenOpen(d);
    var lost := Open(OnQuit(d));
    assert Snapshot(lost, [2]) by {
      assert forall s :: s in lost.subs <==> s in lost.subs.Keys;
    }
    OpenDefinesAllButStranded(lost, [2], 2);
  }

  /** With distinct keys the keys that go are those of the ended subscriptions. Of two subscriptions to one
      variable, unsubscribing the first also takes the slot of the second from the registry, marked as defined:
      after a reconnect the second never gets a definition again. */
  lemma UnsubscribeStrandsTheOther(name: string, unit: string, dtype: int, period: int)
    requires period >= 0 && dtype >= 0
    ensures Legal(Init([]), [CallOpen, OpenMessage([])]) && EndOf(Init([]), [CallOpen, OpenMessage([])]) == Opened([])
    ensures var one := CallSubscribe(name, unit, dtype, period); var e := EndOf(Opened([]), [one, one]);
      var d := Next(e, CallUnsubscribe(1)); var lost := EndOf(d, [QuitMessage, CallOpen]);
      && Legal(Opened([]), [one, one]) && InBounds(d.core.reg) && Legal(d, [QuitMessage, CallOpen])
      && Enabled(lost, OpenMessage([2])) && 2 in lost.subs
      && Ready(Next(lost, OpenMessage([2]))) && DefOf(Next(lost, OpenMessage([2])), 2) == []
  {
    var one := CallSubscribe(name, unit, dtype, period);
    var e := EndOf(Opened([]), [one, one]);
    OpeningRun([]);
    SecondSubscriptionStrandsTheFirst(name, unit, dtype, period);
    TwiceRegistered(name, unit, dtype, period);
    TwoSteps(Opened([]), one, one);
    UnsubscribeFirst(e, name, unit, dtype, period);
    OtherReconnects(Next(e, CallUnsubscribe(1)));
  }

  lemma UnsubscribeFirst(e: Client, name: string, unit: string, dtype: int, period: int)
    requires TablesOk(e) && e.core.remote.open && e.core.remote.script == []
    requires e.subs == map[1 := Single(0, period, true), 2 := Single(1, period, true)]
    requires e.core.reg.vars == map[KeyOf(name, unit, dtype) := 1]
    requires e.core.reg.slots == [VarSlot(1, name, unit, dtype, true), VarSlot(2, name, unit, dtype, true)]
    ensures var d := Next(e, CallUnsubscribe(1));
      TablesOk(d) && d.core.remote.open && d.core.remote.script == [] && d.subs.Keys == {2} && Stranded(d, 2)
  {
    assert 1 in e.subs;
    assert 1 in e.composites ==> CompositeOk(e, 1);
    OtherIsStranded(e, name, unit, dtype, period);
    UnsubscribeOneKeeps(e, 1);
    OneEnds(e, 1);
  }
}
