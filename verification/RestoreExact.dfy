/** What a full restore leaves behind, whatever the DLL answers and whichever keys are in use: what each entry's
    own application makes of its own definition. */
module RestoreExact {
  import opened Wrappers
  import opened RegistryState
  import opened Remote
  import opened Client
  import opened Tables
  import opened TablesKept
  import opened Mirror
  import opened Applied

  function ResetFlags(c: Client): Client { c.(core := c.core.(reg := ResetDefinedFlags(c.core.reg))) }

  // ---- the flags of others ----

  /** Whether undefining `id` would change the flag of the slot. */
  predicate Resets(r: Reg, id: int, ref: SlotRef) {
    GetVarByDefineId(r, id) == Some(ref) && SlotAt(r, ref).defined
  }

  lemma SingleFlags(k: Core, s: int, info: Info, ref: SlotRef)
    requires info.slot < |k.reg.slots| && k.reg.slots[info.slot].defineId == s
    requires ref != info.slot && !Resets(k.reg, s, ref)
    ensures SlotAt(ApplySingle(k, s, info).core.reg, ref) == SlotAt(k.reg, ref)
  {
    var prepared := PrepareDefinition(k, s);
    assert SlotAt(prepared.reg, ref) == SlotAt(k.reg, ref);
    var defined := EnsureVarDefined(prepared, info.slot).0;
    assert SlotAt(defined.reg, ref) == SlotAt(k.reg, ref);
  }

  lemma ManyFlags(k: Core, s: int, info: Info, ref: SlotRef)
    requires info.Multi? && GetVarByDefineId(k.reg, s) == None && ref != info.slot
    ensures SlotAt(ApplyMany(k, s, info).core.reg, ref) == SlotAt(k.reg, ref)
  {
    assert PrepareDefinition(k, s) == k;
    assert SlotAt(SetDefined(k.reg, info.slot, true), ref) == SlotAt(k.reg, ref);
  }

  /** Applying a subscription leaves the flag of another slot alone unless its id looks that slot up. */
  lemma ApplyAtFlags(c: Client, s: int, ref: SlotRef)
    requires TablesOk(c) && s in c.subs && ref != c.subs[s].slot && !Resets(c.core.reg, s, ref)
    ensures SlotAt(ApplyAt(c, s).0.core.reg, ref) == SlotAt(c.core.reg, ref)
  {
    assert SubOk(c.core.reg, s, c.subs[s]);
    if c.subs[s].Single? {
      SingleFlags(c.core, s, c.subs[s], ref);
    } else {
      ManyFlags(c.core, s, c.subs[s], ref);
    }
  }

  // ---- the other entries ----

  /** The entries are the same, and the definition of t, its fields and whether it is stranded. */
  ghost predicate Aside(c: Client, d: Client, t: int)
    requires t in c.subs
  {
    && TablesOk(d) && d.subs.Keys == c.subs.Keys && SameShape(c.core.reg, d.core.reg)
    && (forall s :: s in c.subs ==> d.subs[s].slot == c.subs[s].slot)
    && d.core.remote.open == c.core.remote.open && (Clean(c.core.remote) ==> Clean(d.core.remote))
    && DefOf(d, t) == DefOf(c, t) && FieldsOf(d, t) == FieldsOf(c, t) && Stranded(d, t) == Stranded(c, t)
  }

  lemma OtherStaysStranded(c: Client, s: int, t: int)
    requires TablesOk(c) && s in c.subs && t in c.subs && s != t
    ensures t in ApplyAt(c, s).0.subs && Stranded(ApplyAt(c, s).0, t) == Stranded(c, t)
  {
    assert SubOk(c.core.reg, s, c.subs[s]) && SubOk(c.core.reg, t, c.subs[t]);
    ApplyAtSame(c, s);
    if !Registered(c, t) {
      ApplyAtFlags(c, s, c.subs[t].slot);
    }
  }

  lemma ApplyAtAside(c: Client, s: int, t: int)
    requires TablesOk(c) && s in c.subs && t in c.subs && s != t
    ensures Aside(c, ApplyAt(c, s).0, t)
  {
    assert SubOk(c.core.reg, s, c.subs[s]);
    ApplyAtSame(c, s);
    ApplyAtKeeps(c, s);
    SameFields(c, ApplyAt(c, s).0, s, t);
    OtherStaysStranded(c, s, t);
  }

  /** Whatever the calls for other entries return, t is as it was. */
  lemma {:induction false} ApplyAllAside(c: Client, items: seq<int>, t: int)
    requires TablesOk(c) && t in c.subs && t !in items
    ensures Aside(c, ApplyAll(c, items), t)
    decreases |items|
  {
    if items != [] {
      if items[0] in c.subs {
        ApplyAtAside(c, items[0], t);
      }
      ApplyAllAside(if items[0] in c.subs then ApplyAt(c, items[0]).0 else c, items[1..], t);
    }
  }

  /** Nobody in the list owns the slot. */
  predicate NotOwned(c: Client, items: seq<int>, ref: SlotRef) {
    forall s :: s in items && s in c.subs ==> c.subs[s].slot != ref
  }

  /** A slot that nobody in the list owns does not get marked as defined. */
  lemma {:induction false} StaysUnmarked(c: Client, items: seq<int>, ref: SlotRef)
    requires TablesOk(c) && NotOwned(c, items, ref) && !SlotAt(c.core.reg, ref).defined
    ensures !SlotAt(ApplyAll(c, items).core.reg, ref).defined
    decreases |items|
  {
    if items != [] {
      if items[0] in c.subs {
        var d := ApplyAt(c, items[0]).0;
        assert SubOk(c.core.reg, items[0], c.subs[items[0]]);
        ApplyAtFlags(c, items[0], ref);
        ApplyAtSame(c, items[0]);
        ApplyAtKeeps(c, items[0]);
        assert forall s :: s in d.subs ==> d.subs[s].slot == c.subs[s].slot;
        StaysUnmarked(d, items[1..], ref);
      } else {
        StaysUnmarked(c, items[1..], ref);
      }
    }
  }

  lemma {:induction false} ApplyAllSplits(c: Client, items: seq<int>, k: nat)
    requires k < |items|
    ensures var e := ApplyAll(c, items[..k]);
      ApplyAll(c, items) == ApplyAll(if items[k] in e.subs then ApplyAt(e, items[k]).0 else e, items[k + 1..])
    decreases |items|
  {
    if k > 0 {
      var next := if items[0] in c.subs then ApplyAt(c, items[0]).0 else c;
      ApplyAllSplits(next, items[1..], k - 1);
      assert items[..k][1..] == items[1..][..k - 1];
      assert items[1..][k..] == items[k + 1..];
    }
  }

  lemma ResetAside(c: Client, t: int)
    requires TablesOk(c) && t in c.subs
    ensures Aside(c, ResetFlags(c), t)
  {
    assert SubOk(c.core.reg, t, c.subs[t]);
    ResetSame(c);
    SameKeeps(c, ResetFlags(c), 0);
    SameFields(c, ResetFlags(c), 0, t);
  }

  // ---- one entry of a restore ----

  /** The state in which a restore comes to apply its k-th entry. */
  function Reaches(c: Client, items: seq<int>, k: nat): Client
    requires k <= |items|
  {
    ApplyAll(ResetFlags(c), items[..k])
  }

  /** No earlier entry owns the slot that the id of the k-th looks up. */
  predicate Unclaimed(c: Client, items: seq<int>, k: nat)
    requires k < |items|
  {
    forall i :: 0 <= i < k && items[i] in c.subs ==>
      GetVarByDefineId(c.core.reg, items[k]) != Some(c.subs[items[i]].slot)
  }

  lemma ReachesAside(c: Client, items: seq<int>, k: nat)
    requires TablesOk(c) && Snapshot(c, items) && k < |items|
    ensures items[k] in c.subs && Aside(c, Reaches(c, items, k), items[k])
  {
    var t := items[k];
    assert t in items;
    ResetAside(c, t);
    ApplyAllAside(ResetFlags(c), items[..k], t);
    var e := Reaches(c, items, k);
    assert forall s :: s in c.subs ==> e.subs[s].slot == ResetFlags(c).subs[s].slot;
  }

  lemma UnclaimedRemains(c: Client, items: seq<int>, k: nat)
    requires TablesOk(c) && Snapshot(c, items) && k < |items| && Unclaimed(c, items, k)
    ensures Remaining(Reaches(c, items, k), items[k]) == DefOf(c, items[k])
  {
    var t, r, e := items[k], ResetFlags(c), Reaches(c, items, k);
    ReachesAside(c, items, k);
    var found := GetVarByDefineId(c.core.reg, t);
    if found.Some? {
      assert t in c.core.reg.idToKey && SoundEntry(c.core.reg, c.core.reg.idToKey[t]);
      assert found.value in c.core.reg.vars.Values;
      ResetAside(c, t);
      StaysUnmarked(r, items[..k], found.value);
    }
  }

  lemma RestoreSplits(c: Client, items: seq<int>, k: nat)
    requires TablesOk(c) && Snapshot(c, items) && k < |items|
    ensures items[k] in Reaches(c, items, k).subs
    ensures DefOf(Restore(c, items), items[k]) == DefOf(ApplyAt(Reaches(c, items, k), items[k]).0, items[k])
  {
    var t, e := items[k], Reaches(c, items, k);
    ReachesAside(c, items, k);
    ApplyAllSplits(ResetFlags(c), items, k);
    assert SubOk(e.core.reg, t, e.subs[t]);
    ApplyAtSame(e, t);
    ApplyAtKeeps(e, t);
    ApplyAllAside(ApplyAt(e, t).0, items[k + 1..], t);
  }

  /** With any HRESULTs and any keys: the k-th entry of the snapshot finds its definition as it was before the
      restore, and keeps what its own application leaves, whatever the calls for the other entries return. If
      its own checked calls succeed, that is what its clear call leaves and one copy of its fields more, or
      nothing more if it is stranded. A clear call is made only if an earlier entry owns the slot that its id
      looks up. */
  lemma RestoreIsolatesEntries(c: Client, items: seq<int>, k: nat)
    requires TablesOk(c) && Snapshot(c, items) && k < |items|
    ensures items[k] in c.subs && items[k] in Reaches(c, items, k).subs
    ensures DefOf(Reaches(c, items, k), items[k]) == DefOf(c, items[k])
    ensures DefOf(Restore(c, items), items[k]) == DefOf(ApplyAt(Reaches(c, items, k), items[k]).0, items[k])
    ensures c.core.remote.open && ApplyAt(Reaches(c, items, k), items[k]).1 ==>
      DefOf(Restore(c, items), items[k]) == Remaining(Reaches(c, items, k), items[k]) + Gained(c, items[k])
    ensures Unclaimed(c, items, k) ==> Remaining(Reaches(c, items, k), items[k]) == DefOf(c, items[k])
    ensures Clean(c.core.remote) && c.core.remote.open ==> ApplyAt(Reaches(c, items, k), items[k]).1
  {
    var t, e := items[k], Reaches(c, items, k);
    ReachesAside(c, items, k);
    RestoreSplits(c, items, k);
    if c.core.remote.open && ApplyAt(e, t).1 {
      ApplicationAddsExactly(e, t);
    }
    if Unclaimed(c, items, k) {
      UnclaimedRemains(c, items, k);
    }
    if Clean(c.core.remote) && c.core.remote.open {
      ApplicationSucceeds(e, t);
    }
  }

  /** A restore whose calls succeed adds exactly one copy of every live subscription that is not stranded: it
      does not clear what the session already has. */
  lemma RestoreAddsOneCopy(c: Client, items: seq<int>, k: nat)
    requires TablesOk(c) && Clean(c.core.remote) && c.core.remote.open && Snapshot(c, items)
    requires k < |items| && Unclaimed(c, items, k)
    ensures items[k] in c.subs
    ensures DefOf(Restore(c, items), items[k]) == DefOf(c, items[k]) + Gained(c, items[k])
  {
    RestoreIsolatesEntries(c, items, k);
  }

  // ---- distinct keys ----

  /** Nothing is stranded where live single subscriptions own their keys. */
  lemma WiredStrandsNobody(c: Client, s: int)
    requires Wired(c) && s in c.subs
    ensures !Stranded(c, s)
  {
    assert Owns(c.core.reg, c.subs[s]);
  }

  /** And nobody's slot is claimed, in whatever order the entries come. */
  lemma WiredIsUnclaimed(c: Client, items: seq<int>, k: nat)
    requires TablesOk(c) && Wired(c) && Snapshot(c, items) && k < |items|
    ensures Unclaimed(c, items, k)
  {
    assert items[k] in items;
    assert Owns(c.core.reg, c.subs[items[k]]);
    OwnSlotIsFound(c, items[k]);
    forall i | 0 <= i < k && items[i] in c.subs
      ensures GetVarByDefineId(c.core.reg, items[k]) != Some(c.subs[items[i]].slot)
    {
      assert SubOk(c.core.reg, items[i], c.subs[items[i]]);
    }
  }

  // ---- a new session ----

  /** The OPEN message of a session without definitions leaves exactly one copy of every subscription,
      and an empty definition for the stranded ones: those displaced by a second subscription to the
      same variable while they were defined. */
  lemma OpenDefinesAllButStranded(c: Client, items: seq<int>, s: int)
    requires TablesOk(c) && Clean(c.core.remote) && c.core.remote.open && c.core.remote.defs == map[]
    requires Snapshot(c, items) && s in c.subs
    ensures Ready(OnOpen(c, items))
    ensures Stranded(c, s) ==> DefOf(OnOpen(c, items), s) == []
    ensures !Stranded(c, s) ==> DefOf(OnOpen(c, items), s) == FieldsOf(c, s)
  {
    var d := c.(openReceived := true);
    SessionKeeps(c, d);
    OpenStays(d, items);
    var k :| 0 <= k < |items| && items[k] == s;
    RestoreIsolatesEntries(d, items, k);
    assert [] + Gained(d, s) == Gained(d, s);
  }

  lemma OpenStays(c: Client, items: seq<int>)
    requires TablesOk(c)
    ensures Restore(c, items).core.remote.open == c.core.remote.open && Restore(c, items).openReceived == c.openReceived
  {
    ResetSame(c);
    SameKeeps(c, ResetFlags(c), 0);
    ApplyAllStays(ResetFlags(c), items);
  }

  lemma {:induction false} ApplyAllStays(c: Client, items: seq<int>)
    requires TablesOk(c)
    ensures ApplyAll(c, items).core.remote.open == c.core.remote.open
      && ApplyAll(c, items).openReceived == c.openReceived
    decreases |items|
  {
    if items != [] {
      if items[0] in c.subs {
        assert SubOk(c.core.reg, items[0], c.subs[items[0]]);
        ApplyAtSame(c, items[0]);
        ApplyAtKeeps(c, items[0]);
      }
      ApplyAllStays(if items[0] in c.subs then ApplyAt(c, items[0]).0 else c, items[1..]);
    }
  }
}
