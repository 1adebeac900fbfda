/** What subscribe and subscribe_many achieve, in terms of what the caller wrote, from the call until the
    subscription is ended. */
module Subscribed {
  import opened Parsing
  import opened Fields
  import opened RegistryState
  import opened Remote
  import opened Client
  import opened Tables
  import opened TablesKept
  import opened Session
  import opened Mirror
  import opened Meaning
  import opened MirrorRuns
  import opened Applied
  import opened Asked
  import opened SyncRoundTrip
  import opened Entries

  /** s is a subscription to the caller's variable with the caller's period. */
  ghost predicate SubscribedTo(c: Client, s: int, name: string, unit: string, dtype: int, period: int) {
    && s in c.subs && c.subs[s].Single? && c.subs[s].period == period
    && SlotAt(c.core.reg, c.subs[s].slot).dtype == dtype
    && Verbatim(FieldsOf(c, s)[0], name, unit, dtype) && |FieldsOf(c, s)| == 1
  }

  /** s is a packed subscription to the caller's list with the caller's period. */
  ghost predicate PackedFor(c: Client, s: int, fields: seq<ParsedField>, period: int) {
    && s in c.subs && c.subs[s].Multi? && c.subs[s].period == period && c.subs[s].fields == fields
    && ListsVerbatim(FieldsOf(c, s), fields)
  }

  /** No entry of c is lost or says something else, and no composite changed. */
  ghost predicate OthersAsTheyWere(c: Client, d: Client) {
    d.composites == c.composites
    && forall t :: t in c.subs ==> t in d.subs && SameEntry(c.subs[t], d.subs[t]) && FieldsOf(d, t) == FieldsOf(c, t)
  }

  lemma OthersTrans(c: Client, d: Client, e: Client)
    requires OthersAsTheyWere(c, d) && OthersAsTheyWere(d, e)
    ensures OthersAsTheyWere(c, e)
  {}

  lemma StillSubscribed(c: Client, d: Client, s: int, name: string, unit: string, dtype: int, period: int)
    requires SubscribedTo(c, s, name, unit, dtype, period) && s in d.subs
    requires SameEntry(c.subs[s], d.subs[s]) && FieldsOf(d, s) == FieldsOf(c, s)
    ensures SubscribedTo(d, s, name, unit, dtype, period)
  {
    assert FieldsOf(d, s)[0] == SlotField(SlotAt(d.core.reg, d.subs[s].slot));
  }

  lemma AppliedIfReady(c: Client, s: int)
    requires TablesOk(c) && s in c.subs
    ensures var (d, ok) := ApplyIfReady(c, s);
      && OthersAsTheyWere(c, d) && d.subs.Keys == c.subs.Keys
      && (Clean(c.core.remote) || !Ready(c) ==> ok)
      && (Clean(c.core.remote) ==> Clean(d.core.remote))
  {
    if Ready(c) {
      var d := ApplyAt(c, s).0;
      assert SubOk(c.core.reg, s, c.subs[s]);
      ApplyAtSame(c, s);
      forall t | t in c.subs ensures FieldsOf(d, t) == FieldsOf(c, t) {
        SameFields(c, d, s, t);
      }
      if Clean(c.core.remote) {
        ApplicationSucceeds(c, s);
      }
    }
  }

  // ---- one variable ----

  /** One more entry and slot leave the others alone. */
  lemma OneMoreEntry(c: Client, d: Client)
    requires TablesOk(c) && c.core.reg.slots <= d.core.reg.slots && d.composites == c.composites
    requires forall t :: t in c.subs ==> t in d.subs && d.subs[t] == c.subs[t]
    ensures OthersAsTheyWere(c, d)
  {
    forall t | t in c.subs ensures FieldsOf(d, t) == FieldsOf(c, t) {
      assert SubOk(c.core.reg, t, c.subs[t]);
    }
  }

  lemma NewSingle(c: Client, name: string, unit: string, dtype: int, period: int)
    ensures var d, s := AddSingle(c, name, unit, dtype, period), c.core.reg.counters.nextSubId;
      d.subs.Keys == c.subs.Keys + {s} && SubscribedTo(d, s, name, unit, dtype, period)
  {}

  lemma AddedSingle(c: Client, name: string, unit: string, dtype: int, period: int)
    requires TablesOk(c) && InBounds(AddSingle(c, name, unit, dtype, period).core.reg)
    ensures var d, s := AddSingle(c, name, unit, dtype, period), c.core.reg.counters.nextSubId;
      && TablesOk(d) && OthersAsTheyWere(c, d) && d.subs.Keys == c.subs.Keys + {s}
      && SubscribedTo(d, s, name, unit, dtype, period)
  {
    AddSingleKeeps(c, name, unit, dtype, period);
    NextIsFresh(c);
    NewSingle(c, name, unit, dtype, period);
    OneMoreEntry(c, AddSingle(c, name, unit, dtype, period));
  }

  lemma SubscribeEnters(c: Client, name: string, unit: string, dtype: int, period: int)
    requires TablesOk(c) && InBounds(Subscribe(c, name, unit, dtype, period).0.core.reg) && period >= 0 && dtype >= 0
    ensures var (d, ok) := Subscribe(c, name, unit, dtype, period); var s := c.core.reg.counters.nextSubId;
      && OthersAsTheyWere(c, d) && d.subs.Keys == c.subs.Keys + {s}
      && SubscribedTo(d, s, name, unit, dtype, period)
      && (Clean(c.core.remote) || !Ready(c) ==> ok)
      && (Clean(c.core.remote) ==> Clean(d.core.remote)) && Ready(d) == Ready(c)
  {
    var added, s := AddSingle(c, name, unit, dtype, period), c.core.reg.counters.nextSubId;
    ApplyIfReadyCounters(added, s);
    AddedSingle(c, name, unit, dtype, period);
    AppliedIfReady(added, s);
    var d := ApplyIfReady(added, s).0;
    OthersTrans(c, added, d);
    StillSubscribed(added, d, s, name, unit, dtype, period);
    StaysReady(added, s);
  }

  lemma StaysReady(c: Client, s: int)
    requires TablesOk(c) && s in c.subs
    ensures Ready(ApplyIfReady(c, s).0) == Ready(c)
  {
    if Ready(c) {
      assert SubOk(c.core.reg, s, c.subs[s]);
      ApplyAtSame(c, s);
    }
  }

  /** At the end of any run, whatever the DLL answered and whichever keys were used, a subscribe with negative
      arguments changes nothing. Any other enters one new subscription, to the variable the caller wrote and with
      the caller's period, raised or not; with HRESULT 0, or before the session is ready, it does not raise. From
      then on, in every run, the subscription lives until it is unsubscribed, and its definition is made of
      copies of that variable alone. */
  lemma SubscribeForLife(script: seq<int>, before: seq<Step>, name: string, unit: string, dtype: int, period: int,
                         later: seq<Step>)
    requires Legal(Init(script), before)
    requires var c := EndOf(Init(script), before);
      InBounds(Next(c, CallSubscribe(name, unit, dtype, period)).core.reg)
      && Legal(Next(c, CallSubscribe(name, unit, dtype, period)), later)
    ensures var c := EndOf(Init(script), before); var s := c.core.reg.counters.nextSubId;
      var (e, ok) := Subscribe(c, name, unit, dtype, period); var d := EndOf(e, later);
      if period < 0 || dtype < 0 then !ok && e == c
      else
        && s !in c.subs && e.subs.Keys == c.subs.Keys + {s} && OthersAsTheyWere(c, e)
        && SubscribedTo(e, s, name, unit, dtype, period) && (Clean(c.core.remote) || !Ready(c) ==> ok)
        && (s in d.subs <==> NeverEnded(e, later, s))
        && (s in d.subs ==>
              && SubscribedTo(d, s, name, unit, dtype, period)
              && exists f, n: nat :: Verbatim(f, name, unit, dtype) && DefOf(d, s) == Repeat([f], n))
  {
    var c := EndOf(Init(script), before);
    var s, call := c.core.reg.counters.nextSubId, CallSubscribe(name, unit, dtype, period);
    var e := Next(c, call);
    MeansOverRuns(script, before);
    if period >= 0 && dtype >= 0 {
      var w := RunMeanings(script, before);
      SubscribeCounts(c, name, unit, dtype, period);
      NextIsFresh(c);
      SubscribeEnters(c, name, unit, dtype, period);
      LastsAsEntered(c, w, call, later, s);
      if s in EndOf(e, later).subs {
        StillSubscribed(e, EndOf(e, later), s, name, unit, dtype, period);
        SingleIsCopies(c, w, call, later, s);
      }
    }
  }

  lemma StepMeans(c: Client, w: Meanings, l: Step) returns (v: Meanings)
    requires Means(c, w) && Enabled(c, l) && InBounds(Next(c, l).core.reg)
    ensures Means(Next(c, l), v)
  {
    RunLearns(c, w, [l]);
    assert [l][1..] == [];
    assert EndOf(c, [l]) == EndOf(Next(c, l), []);
    v := RunLearned(c, w, [l]);
  }

  lemma LastsAsEntered(c: Client, w: Meanings, call: Step, later: seq<Step>, s: int)
    requires Means(c, w) && Enabled(c, call) && InBounds(Next(c, call).core.reg) && s in Next(c, call).subs
    requires Legal(Next(c, call), later)
    ensures var e := Next(c, call); var d := EndOf(e, later);
      && (s in d.subs <==> NeverEnded(e, later, s))
      && (s in d.subs ==> SameEntry(e.subs[s], d.subs[s]) && FieldsOf(d, s) == FieldsOf(e, s))
  {
    var v := StepMeans(c, w, call);
    EntryLasts(Next(c, call), later, s);
    if s in EndOf(Next(c, call), later).subs {
      FieldsLast(Next(c, call), v, later, s);
    }
  }

  lemma SingleIsCopies(c: Client, w: Meanings, call: Step, later: seq<Step>, s: int)
    requires Means(c, w) && Enabled(c, call) && InBounds(Next(c, call).core.reg) && Legal(Next(c, call), later)
    requires s in EndOf(Next(c, call), later).subs && EndOf(Next(c, call), later).subs[s].Single?
    ensures var d := EndOf(Next(c, call), later);
      exists n: nat :: DefOf(d, s) == Repeat([FieldsOf(d, s)[0]], n)
  {
    var v := StepMeans(c, w, call);
    RunLearns(Next(c, call), v, later);
    var d := EndOf(Next(c, call), later);
    assert MadeOf(d.core.remote, s, FieldsOf(d, s));
    var n: nat :| Copies(DefOf(d, s), FieldsOf(d, s), n);
    assert FieldsOf(d, s) == [FieldsOf(d, s)[0]];
    assert DefOf(d, s) == Repeat([FieldsOf(d, s)[0]], n);
  }

  // ---- a list of numeric fields ----

  lemma NewMulti(c: Client, fields: seq<ParsedField>, period: int)
    ensures var d, s := AddMulti(c, fields, period), c.core.reg.counters.nextSubId;
      d.subs.Keys == c.subs.Keys + {s} && PackedFor(d, s, fields, period)
  {
    RemoteFieldsAreVerbatim(fields);
  }

  lemma AddedMulti(c: Client, fields: seq<ParsedField>, period: int)
    requires TablesOk(c) && AllNumeric(fields) && InBounds(AddMulti(c, fields, period).core.reg)
    ensures var d, s := AddMulti(c, fields, period), c.core.reg.counters.nextSubId;
      && TablesOk(d) && OthersAsTheyWere(c, d) && d.subs.Keys == c.subs.Keys + {s} && PackedFor(d, s, fields, period)
  {
    AddMultiKeeps(c, fields, period);
    NextIsFresh(c);
    NewMulti(c, fields, period);
    OneMoreEntry(c, AddMulti(c, fields, period));
  }

  lemma SubscribeNumericEnters(c: Client, fields: seq<ParsedField>, period: int)
    requires TablesOk(c) && AllNumeric(fields) && InBounds(SubscribeNumeric(c, fields, period).0.core.reg)
    ensures var (d, ok) := SubscribeNumeric(c, fields, period); var s := c.core.reg.counters.nextSubId;
      && OthersAsTheyWere(c, d) && d.subs.Keys == c.subs.Keys + {s} && PackedFor(d, s, fields, period)
      && (Clean(c.core.remote) || !Ready(c) ==> ok)
      && (Clean(c.core.remote) ==> Clean(d.core.remote)) && Ready(d) == Ready(c)
  {
    var added, s := AddMulti(c, fields, period), c.core.reg.counters.nextSubId;
    ApplyIfReadyCounters(added, s);
    AddedMulti(c, fields, period);
    AppliedIfReady(added, s);
    OthersTrans(c, added, ApplyIfReady(added, s).0);
    StaysReady(added, s);
  }

  predicate NumericList(fields: seq<ParsedField>) { forall i :: 0 <= i < |fields| ==> 1 <= fields[i].dtype <= 4 }

  lemma SameBySnoc(half: seq<ParsedField>, init: seq<ParsedField>, fields: seq<ParsedField>)
    requires fields != [] && init == fields[..|fields| - 1] && half == init + [fields[|fields| - 1]]
    ensures half == fields
  {}

  lemma {:induction false} NumericListStays(fields: seq<ParsedField>)
    requires NumericList(fields)
    ensures Numeric(fields) == fields && Strings(fields) == []
    decreases |fields|
  {
    if fields == [] {
      assert Numeric([]) == [] && Strings([]) == [];
    } else {
      var init := fields[..|fields| - 1];
      assert forall i :: 0 <= i < |init| ==> init[i] == fields[i];
      NumericListStays(init);
      SplitLast(fields);
      SameBySnoc(Numeric(fields), init, fields);
    }
  }

  lemma NumericListIsSupported(fields: seq<ParsedField>)
    requires NumericList(fields)
    ensures AllNumeric(fields) && forall f :: f in fields ==> Supported(f)
  {}

  /** The same for a subscribe_many of numeric fields: one new subscription, to exactly the caller's list under
      the caller's keys, until it is unsubscribed. */
  lemma SubscribeManyForLife(script: seq<int>, before: seq<Step>, fields: seq<ParsedField>, period: int,
                             later: seq<Step>)
    requires Legal(Init(script), before) && NumericList(fields) && period >= 0
    requires var c := EndOf(Init(script), before);
      InBounds(Next(c, CallSubscribeMany(fields, period)).core.reg)
      && Legal(Next(c, CallSubscribeMany(fields, period)), later)
    ensures var c := EndOf(Init(script), before); var s := c.core.reg.counters.nextSubId;
      var (e, ok) := SubscribeMany(c, fields, period); var d := EndOf(e, later);
      && s !in c.subs && e.subs.Keys == c.subs.Keys + {s} && OthersAsTheyWere(c, e)
      && PackedFor(e, s, fields, period) && (Clean(c.core.remote) || !Ready(c) ==> ok)
      && (s in d.subs <==> NeverEnded(e, later, s))
      && (s in d.subs ==> PackedFor(d, s, fields, period))
  {
    var c := EndOf(Init(script), before);
    var s, call := c.core.reg.counters.nextSubId, CallSubscribeMany(fields, period);
    MeansOverRuns(script, before);
    NumericListStays(fields);
    NumericListIsSupported(fields);
    SubscribeNumericCounts(c, fields, period);
    NextIsFresh(c);
    SubscribeNumericEnters(c, fields, period);
    LastsAsEntered(c, RunMeanings(script, before), call, later, s);
  }

  lemma NumericIsAdmissible(c: Client, fields: seq<ParsedField>, period: int)
    requires NumericList(fields)
    ensures Admissible(c, CallSubscribeMany(fields, period))
  {
    NumericListStays(fields);
  }

  /** With HRESULT 0 and distinct keys its definition is whole copies of the caller's list, entry by entry, and at
      least one on a ready session. */
  lemma PackedDefinitionIsTheList(script: seq<int>, before: seq<Step>, fields: seq<ParsedField>, period: int,
                                  later: seq<Step>)
    requires forall i :: 0 <= i < |script| ==> script[i] == 0
    requires Legal(Init(script), before) && DistinctKeys(Init(script), before) && NumericList(fields) && period >= 0
    requires var e := Next(EndOf(Init(script), before), CallSubscribeMany(fields, period));
      InBounds(e.core.reg) && Legal(e, later) && DistinctKeys(e, later)
    ensures var c := EndOf(Init(script), before); var s := c.core.reg.counters.nextSubId;
      var d := EndOf(Next(c, CallSubscribeMany(fields, period)), later);
      s in d.subs ==> exists list, n: nat :: ListsVerbatim(list, fields) && (Ready(d) ==> n >= 1)
                                             && DefOf(d, s) == Repeat(list, n)
  {
    var c, call := EndOf(Init(script), before), CallSubscribeMany(fields, period);
    var d, s := EndOf(Next(c, call), later), c.core.reg.counters.nextSubId;
    SubscribeManyForLife(script, before, fields, period, later);
    InitAgrees(script);
    AgreesOverRuns(Init(script), before);
    NumericIsAdmissible(c, fields, period);
    StepAgrees(c, call);
    AgreesOverRuns(Next(c, call), later);
    if s in d.subs {
      assert Holds(d, s, Least(d));
      var n: nat :| n >= Least(d) && Copies(DefOf(d, s), FieldsOf(d, s), n);
      assert DefOf(d, s) == Repeat(FieldsOf(d, s), n);
    }
  }

  // ---- a list with strings ----

  /** The ids from s on are subscriptions to the strings, in order. */
  ghost predicate AllSubscribed(d: Client, s: int, strings: seq<ParsedField>, period: int) {
    forall j :: 0 <= j < |strings| ==> SubscribedTo(d, s + j, strings[j].name, "", 11, period)
  }

  lemma OneMoreSubscribed(d: Client, s: int, strings: seq<ParsedField>, period: int)
    requires strings != [] && SubscribedTo(d, s, strings[0].name, "", 11, period)
    requires AllSubscribed(d, s + 1, strings[1..], period)
    ensures AllSubscribed(d, s, strings, period)
  {
    forall j | 0 <= j < |strings| ensures SubscribedTo(d, s + j, strings[j].name, "", 11, period) {
      if j > 0 {
        assert strings[1..][j - 1] == strings[j];
      }
    }
  }

  /** Exactly the ids drawn in between are new entries. */
  ghost predicate EnteredAll(c: Client, d: Client) {
    var from_, to := c.core.reg.counters.nextSubId, d.core.reg.counters.nextSubId;
    from_ <= to && forall x :: x in d.subs <==> x in c.subs || from_ <= x < to
  }

  /** What the string children of a composite come to. */
  ghost predicate StringsEntered(c: Client, d: Client, ok: bool, fields: seq<ParsedField>, period: int) {
    && OthersAsTheyWere(c, d) && EnteredAll(c, d)
    && (fields != [] ==> d.core.reg.counters.nextSubId > c.core.reg.counters.nextSubId)
    && (ok ==> AllSubscribed(d, c.core.reg.counters.nextSubId, fields, period))
    && (Clean(c.core.remote) || !Ready(c) ==> ok)
  }

  lemma {:induction false} SubscribeStringsEnter(c: Client, fields: seq<ParsedField>, period: int)
    requires TablesOk(c) && period >= 0 && InBounds(SubscribeStrings(c, fields, period).0.core.reg)
    ensures var (d, ok) := SubscribeStrings(c, fields, period); StringsEntered(c, d, ok, fields, period)
    decreases |fields|
  {
    if fields != [] {
      var (next, ok) := Subscribe(c, fields[0].name, "", STRINGV, period);
      StringsUnroll(c, fields, period, next, ok);
      FirstStringEnters(c, fields, period);
      if ok {
        SubscribeStringsEnter(next, fields[1..], period);
        var (d, done) := SubscribeStrings(next, fields[1..], period);
        StringsKept(c, next, d, fields, done, period);
      }
    }
  }

  lemma StringsUnroll(c: Client, fields: seq<ParsedField>, period: int, next: Client, ok: bool)
    requires fields != [] && Subscribe(c, fields[0].name, "", STRINGV, period) == (next, ok)
    ensures SubscribeStrings(c, fields, period) ==
      if ok then SubscribeStrings(next, fields[1..], period) else (next, false)
  {}

  lemma FirstStringBounds(c: Client, fields: seq<ParsedField>, period: int)
    requires period >= 0 && InBounds(SubscribeStrings(c, fields, period).0.core.reg) && fields != []
    ensures InBounds(Subscribe(c, fields[0].name, "", STRINGV, period).0.core.reg)
  {
    var (next, ok) := Subscribe(c, fields[0].name, "", STRINGV, period);
    StringsUnroll(c, fields, period, next, ok);
    if ok {
      SubscribeStringsCounts(next, fields[1..], period);
      BoundsBelow(next.core.reg, SubscribeStrings(c, fields, period).0.core.reg);
    }
  }

  /** What entering the first string comes to. */
  ghost predicate FirstEntered(c: Client, next: Client, ok: bool, name: string, period: int) {
    var s := c.core.reg.counters.nextSubId;
    && OthersAsTheyWere(c, next) && SubscribedTo(next, s, name, "", 11, period) && EnteredAll(c, next)
    && next.core.reg.counters.nextSubId == s + 1 && TablesOk(next)
    && (Clean(c.core.remote) || !Ready(c) ==> ok)
    && (Clean(c.core.remote) ==> Clean(next.core.remote)) && Ready(next) == Ready(c)
  }

  lemma OneEnteredAll(c: Client, d: Client)
    requires d.subs.Keys == c.subs.Keys + {c.core.reg.counters.nextSubId}
    requires d.core.reg.counters.nextSubId == c.core.reg.counters.nextSubId + 1
    ensures EnteredAll(c, d)
  {
    assert forall x :: x in d.subs <==> x in d.subs.Keys;
  }

  lemma FirstStringEnters(c: Client, fields: seq<ParsedField>, period: int)
    requires TablesOk(c) && period >= 0 && InBounds(SubscribeStrings(c, fields, period).0.core.reg) && fields != []
    ensures var (next, ok) := Subscribe(c, fields[0].name, "", STRINGV, period);
      FirstEntered(c, next, ok, fields[0].name, period)
  {
    FirstStringBounds(c, fields, period);
    SubscribeCounts(c, fields[0].name, "", STRINGV, period);
    SubscribeEnters(c, fields[0].name, "", STRINGV, period);
    SubscribeKeeps(c, fields[0].name, "", STRINGV, period);
    OneEnteredAll(c, Subscribe(c, fields[0].name, "", STRINGV, period).0);
  }

  lemma StringsKept(c: Client, next: Client, d: Client, fields: seq<ParsedField>, ok: bool, period: int)
    requires fields != [] && FirstEntered(c, next, true, fields[0].name, period)
    requires StringsEntered(next, d, ok, fields[1..], period)
    ensures StringsEntered(c, d, ok, fields, period)
  {
    var s := c.core.reg.counters.nextSubId;
    OthersTrans(c, next, d);
    StillSubscribed(next, d, s, fields[0].name, "", 11, period);
    if ok {
      OneMoreSubscribed(d, s, fields, period);
    }
  }

  predicate SupportedList(fields: seq<ParsedField>) { forall i :: 0 <= i < |fields| ==> 1 <= fields[i].dtype <= 11 }

  /** The children of a composite: one packed subscription to the fields that are not strings, if there are any, and
      one subscription for each string, in the order of the caller's list. */
  ghost predicate ChildrenOf(d: Client, children: seq<int>, fields: seq<ParsedField>, period: int) {
    exists nums, strs ::
      && Positions(nums, fields, false) && Positions(strs, fields, true)
      && |children| == |strs| + (if nums == [] then 0 else 1)
      && (nums != [] ==> PackedAt(d, children[0], fields, nums, period))
      && StringsAt(d, if nums == [] then children else children[1..], fields, strs, period)
  }

  ghost predicate PackedAt(d: Client, child: int, fields: seq<ParsedField>, nums: seq<nat>, period: int) {
    exists packed :: Picks(packed, fields, nums) && PackedFor(d, child, packed, period)
  }

  ghost predicate StringsAt(d: Client, children: seq<int>, fields: seq<ParsedField>, strs: seq<nat>, period: int) {
    && |children| == |strs|
    && forall j :: 0 <= j < |strs| ==>
         strs[j] < |fields| && SubscribedTo(d, children[j], fields[strs[j]].name, "", 11, period)
  }

  /** Exactly the ids drawn after the composite's own are new entries. */
  ghost predicate NewChildren(c: Client, d: Client) {
    var cid, to := c.core.reg.counters.nextSubId, d.core.reg.counters.nextSubId;
    cid < to && forall x :: x in d.subs <==> x in c.subs || cid < x < to
  }

  /** What the composite's own id and its packed child come to. */
  ghost predicate FirstHalfEntered(c: Client, first: Client, ok: bool, numeric: seq<ParsedField>, period: int) {
    var cid := c.core.reg.counters.nextSubId;
    && OthersAsTheyWere(c, first) && NewChildren(c, first)
    && first.core.reg.counters.nextSubId == cid + 1 + (if numeric == [] then 0 else 1)
    && (numeric != [] ==> PackedFor(first, cid + 1, numeric, period))
    && (Clean(c.core.remote) || !Ready(c) ==> ok)
    && (Clean(c.core.remote) ==> Clean(first.core.remote)) && Ready(first) == Ready(c)
  }

  lemma ReservedEnters(c: Client)
    requires TablesOk(c) && c.core.reg.counters.nextSubId < VAR_ID_START
    ensures var r := c.(core := c.core.(reg := AllocSubscriptionId(c.core.reg)));
      TablesOk(r) && OthersAsTheyWere(c, r) && FirstHalfEntered(c, r, true, [], 0)
  {
    ReserveKeeps(c);
  }

  lemma NumericHalfEnters(c: Client, numeric: seq<ParsedField>, period: int)
    requires TablesOk(c) && AllNumeric(numeric) && numeric != []
    requires var r := c.(core := c.core.(reg := AllocSubscriptionId(c.core.reg)));
      InBounds(SubscribeNumeric(r, numeric, period).0.core.reg)
    ensures var r := c.(core := c.core.(reg := AllocSubscriptionId(c.core.reg)));
      var (first, ok) := SubscribeNumeric(r, numeric, period);
      TablesOk(first) && FirstHalfEntered(c, first, ok, numeric, period)
  {
    var r := c.(core := c.core.(reg := AllocSubscriptionId(c.core.reg)));
    var (first, ok) := SubscribeNumeric(r, numeric, period);
    SubscribeNumericCounts(r, numeric, period);
    ReservedEnters(c);
    SubscribeNumericKeeps(r, numeric, period);
    SubscribeNumericEnters(r, numeric, period);
    OthersTrans(c, r, first);
    assert forall x :: x in first.subs <==> x in first.subs.Keys;
  }

  lemma CompositeBounds(c: Client, numeric: seq<ParsedField>, strings: seq<ParsedField>, period: int)
    requires period >= 0 && InBounds(SubscribeComposite(c, numeric, strings, period).0.core.reg)
    ensures var r := c.(core := c.core.(reg := AllocSubscriptionId(c.core.reg)));
      var (first, ok) := if numeric == [] then (r, true) else SubscribeNumeric(r, numeric, period);
      InBounds(first.core.reg) && (ok ==> InBounds(SubscribeStrings(first, strings, period).0.core.reg))
  {
    var r := c.(core := c.core.(reg := AllocSubscriptionId(c.core.reg)));
    var (first, ok) := if numeric == [] then (r, true) else SubscribeNumeric(r, numeric, period);
    SubscribeNumericCounts(r, numeric, period);
    if ok {
      SubscribeStringsCounts(first, strings, period);
      BoundsBelow(first.core.reg, SubscribeStrings(first, strings, period).0.core.reg);
    }
  }

  /** What entering a composite comes to, in terms of its two halves. */
  ghost predicate CompositeEntered(c: Client, d: Client, ok: bool, numeric: seq<ParsedField>,
                                   strings: seq<ParsedField>, period: int)
  {
    var cid, first := c.core.reg.counters.nextSubId, if numeric == [] then 0 else 1;
    && (Clean(c.core.remote) || !Ready(c) ==> ok)
    && d.composites == (if ok then c.composites[cid := Ids(cid + 1, |strings| + first)] else c.composites)
    && (ok && numeric != [] ==> PackedFor(d, cid + 1, numeric, period))
    && (ok ==> AllSubscribed(d, cid + 1 + first, strings, period))
    && OthersAsTheyWere(c, d.(composites := c.composites)) && NewChildren(c, d)
    && (numeric != [] || strings != [] ==> d.core.reg.counters.nextSubId > cid + 1)
  }

  lemma CompositeEnters(c: Client, numeric: seq<ParsedField>, strings: seq<ParsedField>, period: int)
    requires TablesOk(c) && AllNumeric(numeric) && period >= 0
    requires InBounds(SubscribeComposite(c, numeric, strings, period).0.core.reg)
    ensures var (d, ok) := SubscribeComposite(c, numeric, strings, period);
      CompositeEntered(c, d, ok, numeric, strings, period)
  {
    var reserved := c.(core := c.core.(reg := AllocSubscriptionId(c.core.reg)));
    var (first, ok) := if numeric == [] then (reserved, true) else SubscribeNumeric(reserved, numeric, period);
    CompositeBounds(c, numeric, strings, period);
    if numeric == [] {
      ReservedEnters(c);
    } else {
      NumericHalfEnters(c, numeric, period);
    }
    if ok {
      var (all, done) := SubscribeStrings(first, strings, period);
      SubscribeStringsEnter(first, strings, period);
      OthersTrans(c, first, all);
      if done {
        var d := SubscribeComposite(c, numeric, strings, period).0;
        SameButComposites(all, d, c, strings, numeric, period);
      }
    }
  }

  /** Entering the composite changes no subscription. */
  lemma SameButComposites(all: Client, d: Client, c: Client, strings: seq<ParsedField>, numeric: seq<ParsedField>,
                          period: int)
    requires d == all.(composites := d.composites) && OthersAsTheyWere(c, all)
    ensures OthersAsTheyWere(c, d.(composites := c.composites))
    ensures forall s :: AllSubscribed(all, s, strings, period) ==> AllSubscribed(d, s, strings, period)
    ensures forall s :: PackedFor(all, s, numeric, period) ==> PackedFor(d, s, numeric, period)
  {
    assert forall t :: t in all.subs ==> FieldsOf(d, t) == FieldsOf(all, t);
    forall s | AllSubscribed(all, s, strings, period) ensures AllSubscribed(d, s, strings, period) {
      forall j | 0 <= j < |strings| ensures SubscribedTo(d, s + j, strings[j].name, "", 11, period) {
        assert SubscribedTo(all, s + j, strings[j].name, "", 11, period);
      }
    }
  }

  /** The composite is entered with its children, or, when a call fails, not at all; the children entered by then
      stay. Nothing else changes. */
  ghost predicate Split(c: Client, d: Client, ok: bool, fields: seq<ParsedField>, period: int) {
    var cid := c.core.reg.counters.nextSubId;
    && OthersAsTheyWere(c, d.(composites := c.composites)) && cid !in c.composites
    && NewChildren(c, d) && d.core.reg.counters.nextSubId > cid + 1
    && if ok then
         && cid in d.composites && ChildrenOf(d, d.composites[cid], fields, period)
         && d.composites == c.composites[cid := d.composites[cid]]
       else d.composites == c.composites
  }

  /** Split but for what the children are. */
  lemma EnteredChildren(c: Client, d: Client, numeric: seq<ParsedField>, strings: seq<ParsedField>, period: int)
    returns (children: seq<int>)
    requires CompositeEntered(c, d, true, numeric, strings, period)
    ensures var cid := c.core.reg.counters.nextSubId;
      && children == Ids(cid + 1, |strings| + if numeric == [] then 0 else 1)
      && cid in d.composites && d.composites[cid] == children && d.composites == c.composites[cid := children]
  {
    children := Ids(c.core.reg.counters.nextSubId + 1, |strings| + if numeric == [] then 0 else 1);
  }

  lemma EnteredIsSplit(c: Client, d: Client, ok: bool, fields: seq<ParsedField>, period: int)
    requires CompositeEntered(c, d, ok, Numeric(fields), Strings(fields), period)
    requires Strings(fields) != [] && CompositesBelow(c, c.core.reg.counters.nextSubId)
    ensures Split(c, d, ok, fields, period)
  {
    assert c.core.reg.counters.nextSubId !in c.composites;
    if ok {
      var children := EnteredChildren(c, d, Numeric(fields), Strings(fields), period);
      CompositeHasChildren(d, children, c.core.reg.counters.nextSubId, fields, period);
    }
  }

  lemma CompositeSplits(c: Client, fields: seq<ParsedField>, period: int)
    requires TablesOk(c) && AllNumeric(Numeric(fields)) && period >= 0 && Strings(fields) != []
    requires InBounds(SubscribeComposite(c, Numeric(fields), Strings(fields), period).0.core.reg)
    ensures var (d, ok) := SubscribeComposite(c, Numeric(fields), Strings(fields), period);
      Split(c, d, ok, fields, period) && (Clean(c.core.remote) || !Ready(c) ==> ok)
  {
    var (d, ok) := SubscribeComposite(c, Numeric(fields), Strings(fields), period);
    CompositesAreBelow(c);
    CompositeEnters(c, Numeric(fields), Strings(fields), period);
    EnteredIsSplit(c, d, ok, fields, period);
  }

  lemma CompositeHasChildren(d: Client, children: seq<int>, cid: int, fields: seq<ParsedField>, period: int)
    requires Numeric(fields) != [] ==> PackedFor(d, cid + 1, Numeric(fields), period)
    requires var first := if Numeric(fields) == [] then 0 else 1;
      AllSubscribed(d, cid + 1 + first, Strings(fields), period)
      && children == Ids(cid + 1, |Strings(fields)| + first)
    ensures ChildrenOf(d, children, fields, period)
  {
    var nums, strs := SplitKeepsOrder(fields);
    ChildrenArePicked(d, cid, fields, nums, strs, period);
  }

  /** A subscribe_many with at least one string field, at the end of any run: unless a call fails, it enters one
      composite, with one packed child for the other fields and one child for each string, all as the caller
      wrote them and in the caller's order. If one fails, no composite is entered, and the children entered by then,
      one at least, stay. */
  lemma SubscribeManySplits(script: seq<int>, before: seq<Step>, fields: seq<ParsedField>, period: int)
    requires Legal(Init(script), before + [CallSubscribeMany(fields, period)]) && period >= 0 && SupportedList(fields)
    requires exists i :: 0 <= i < |fields| && 5 <= fields[i].dtype <= 11
    ensures var c := EndOf(Init(script), before); var (d, ok) := SubscribeMany(c, fields, period);
      Split(c, d, ok, fields, period) && (Clean(c.core.remote) || !Ready(c) ==> ok)
  {
    LastStep(Init(script), before, CallSubscribeMany(fields, period));
    InitTables(script);
    TablesOverRuns(Init(script), before);
    SupportedListIs(fields);
    NumericHalfHasLayout(fields);
    CompositeSplits(EndOf(Init(script), before), fields, period);
  }

  /** Anything else is refused, and changes nothing. */
  lemma SubscribeManyRefuses(c: Client, fields: seq<ParsedField>, period: int)
    requires period < 0 || !SupportedList(fields)
    ensures SubscribeMany(c, fields, period) == (c, false)
  {
    if i :| 0 <= i < |fields| && !(1 <= fields[i].dtype <= 11) {
      assert fields[i] in fields && !Supported(fields[i]);
    }
  }

  lemma SupportedListIs(fields: seq<ParsedField>)
    requires SupportedList(fields) && exists i :: 0 <= i < |fields| && 5 <= fields[i].dtype <= 11
    ensures Strings(fields) != [] && forall f :: f in fields ==> Supported(f)
  {
    var i :| 0 <= i < |fields| && 5 <= fields[i].dtype <= 11;
    assert fields[i] in Strings(fields);
  }

  lemma StringsArePicked(d: Client, s: int, children: seq<int>, fields: seq<ParsedField>, strs: seq<nat>, period: int)
    requires Picks(Strings(fields), fields, strs) && AllSubscribed(d, s, Strings(fields), period)
    requires |children| == |strs| && forall j :: 0 <= j < |strs| ==> children[j] == s + j
    ensures StringsAt(d, children, fields, strs, period)
  {
    forall j | 0 <= j < |strs|
      ensures strs[j] < |fields| && SubscribedTo(d, children[j], fields[strs[j]].name, "", 11, period)
    {
      assert SubscribedTo(d, s + j, Strings(fields)[j].name, "", 11, period);
    }
  }

  lemma ChildrenArePicked(d: Client, cid: int, fields: seq<ParsedField>, nums: seq<nat>, strs: seq<nat>, period: int)
    requires Positions(nums, fields, false) && Picks(Numeric(fields), fields, nums)
    requires Positions(strs, fields, true) && Picks(Strings(fields), fields, strs)
    requires nums != [] ==> PackedFor(d, cid + 1, Numeric(fields), period)
    requires AllSubscribed(d, cid + 1 + (if nums == [] then 0 else 1), Strings(fields), period)
    ensures ChildrenOf(d, Ids(cid + 1, |strs| + if nums == [] then 0 else 1), fields, period)
  {
    var first := if nums == [] then 0 else 1;
    var children := Ids(cid + 1, |strs| + first);
    StringsArePicked(d, cid + 1 + first, if nums == [] then children else children[1..], fields, strs, period);
    if nums != [] {
      PackedIsPicked(d, children[0], fields, nums, period);
    }
    TheseAreChildren(d, children, fields, nums, strs, period);
  }

  lemma PackedIsPicked(d: Client, child: int, fields: seq<ParsedField>, nums: seq<nat>, period: int)
    requires Picks(Numeric(fields), fields, nums) && PackedFor(d, child, Numeric(fields), period)
    ensures PackedAt(d, child, fields, nums, period)
  {}

  lemma TheseAreChildren(d: Client, children: seq<int>, fields: seq<ParsedField>, nums: seq<nat>, strs: seq<nat>,
                         period: int)
    requires Positions(nums, fields, false) && Positions(strs, fields, true)
    requires |children| == |strs| + (if nums == [] then 0 else 1)
    requires nums != [] ==> PackedAt(d, children[0], fields, nums, period)
    requires StringsAt(d, if nums == [] then children else children[1..], fields, strs, period)
    ensures ChildrenOf(d, children, fields, period)
  {}
}
