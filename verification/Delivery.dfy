/** From the remote's definition to the callback: what a data message packed from it delivers. */
module Delivery {
  import opened Wrappers
  import opened Bytes
  import opened Parsing
  import opened Fields
  import opened RegistryState
  import opened Remote
  import opened Client
  import opened Tables
  import opened Mirror

  /** What the simulator may send for a field of the datatype: text comes as a C string. */
  predicate Sendable(v: Value, dtype: int) {
    if IsStringDatatype(dtype) then v.Text? && 0 !in v.bytes else ValueOf(v, dtype)
  }

  /** One value for every field of the definition. */
  ghost predicate Fills(values: seq<Value>, def: seq<Field>) {
    |values| == |def| && forall i :: 0 <= i < |def| ==> Sendable(values[i], def[i].dtype)
  }

  /** The message the remote sends for `request`; `tail` is whatever memory follows it. */
  function Message(request: int, values: seq<Value>, tail: Memory): Packet {
    Packet(request, |values|, Pack(values) + tail)
  }

  // ---- only the first copy is read ----

  lemma {:induction false} RepeatStarts<T>(xs: seq<T>, n: nat)
    requires n >= 1
    ensures Repeat(xs, n) == xs + Repeat(xs, n - 1)
  {
    if n > 1 {
      RepeatStarts(xs, n - 1);
    } else {
      assert Repeat(xs, 0) == [];
    }
  }

  lemma PackLast(values: seq<Value>, last: Value)
    ensures Pack(values + [last]) == Pack(values) + Encode(last)
  {
    assert (values + [last])[..|values|] == values;
  }

  lemma {:induction false} PackPrefix(values: seq<Value>, k: nat)
    requires k <= |values|
    ensures Pack(values[..k]) <= Pack(values)
    decreases |values|
  {
    if k == |values| {
      assert values[..k] == values;
    } else {
      var init := values[..|values| - 1];
      PackPrefix(init, k);
      assert init[..k] == values[..k];
      PrefixTrans(Pack(init[..k]), Pack(init), Encode(values[|values| - 1]));
    }
  }

  lemma PrefixTrans(a: seq<Byte>, b: seq<Byte>, c: seq<Byte>)
    requires a <= b
    ensures a <= b + c
  {}

  lemma SplitAfter(a: seq<Byte>, b: seq<Byte>, tail: seq<Byte>) returns (rest: seq<Byte>)
    requires a <= b
    ensures b + tail == a + rest
  {
    rest := b[|a|..] + tail;
    assert b == a + b[|a|..];
  }

  /** A definition that begins with the fields packs their values first. */
  lemma FirstCopy(def: seq<Field>, fields: seq<Field>, values: seq<Value>, tail: Memory) returns (rest: Memory)
    requires fields <= def && Fills(values, def)
    ensures |fields| <= |values| && forall i :: 0 <= i < |fields| ==> Sendable(values[i], fields[i].dtype)
    ensures Pack(values) + tail == Pack(values[..|fields|]) + rest
  {
    PackPrefix(values, |fields|);
    rest := SplitAfter(Pack(values[..|fields|]), Pack(values), tail);
  }

  // ---- several fields ----

  function Keys(layout: seq<Slice>): set<string> { set i | 0 <= i < |layout| :: layout[i].key }

  predicate LastOfItsKey(layout: seq<Slice>, i: nat)
    requires i < |layout|
  {
    forall j :: i < j < |layout| ==> layout[j].key != layout[i].key
  }

  /** m maps each key of the layout to its value, the last one when a key occurs twice, and has no others. */
  ghost predicate DictOf(m: map<string, Value>, layout: seq<Slice>, values: seq<Value>) {
    && |values| == |layout| && m.Keys == Keys(layout)
    && forall i :: 0 <= i < |layout| && LastOfItsKey(layout, i) ==> layout[i].key in m && m[layout[i].key] == values[i]
  }

  lemma KeysGrow(layout: seq<Slice>)
    requires layout != []
    ensures Keys(layout) == Keys(layout[..|layout| - 1]) + {layout[|layout| - 1].key}
  {
    var n := |layout| - 1;
    forall key | key in Keys(layout) ensures key in Keys(layout[..n]) + {layout[n].key} {
      var i :| 0 <= i < |layout| && layout[i].key == key;
      if i < n {
        assert layout[..n][i].key == key;
      }
    }
    forall key | key in Keys(layout[..n]) ensures key in Keys(layout) {
      var i :| 0 <= i < n && layout[..n][i].key == key;
      assert layout[i].key == key;
    }
  }

  lemma LastAmongFewer(layout: seq<Slice>, i: nat)
    requires i < |layout| - 1 && LastOfItsKey(layout, i)
    ensures LastOfItsKey(layout[..|layout| - 1], i) && layout[|layout| - 1].key != layout[i].key
  {
    assert forall j :: i < j < |layout| - 1 ==> layout[..|layout| - 1][j] == layout[j];
  }

  lemma DictGrows(m: map<string, Value>, layout: seq<Slice>, values: seq<Value>)
    requires |values| == |layout| > 0 && DictOf(m, layout[..|layout| - 1], values[..|layout| - 1])
    ensures DictOf(m[layout[|layout| - 1].key := values[|layout| - 1]], layout, values)
  {
    var n := |layout| - 1;
    var key, v := layout[n].key, values[n];
    KeysGrow(layout);
    forall i | 0 <= i < |layout| && LastOfItsKey(layout, i)
      ensures layout[i].key in m[key := v] && m[key := v][layout[i].key] == values[i]
    {
      if i < n {
        LastAmongFewer(layout, i);
        assert layout[..n][i] == layout[i] && values[..n][i] == values[i];
      }
    }
  }

  // ---- in terms of the caller's list ----

  /** No later field of the list has the same key. */
  predicate LastNamed(fields: seq<ParsedField>, i: nat)
    requires i < |fields|
  {
    forall j :: i < j < |fields| ==> fields[j].key != fields[i].key
  }

  predicate IsKey(fields: seq<ParsedField>, key: string) { exists i :: 0 <= i < |fields| && fields[i].key == key }

  /** m has the keys of the list and no others. */
  ghost predicate KeyedBy(m: map<string, Value>, fields: seq<ParsedField>) {
    forall key :: key in m <==> IsKey(fields, key)
  }

  /** And maps each to the value of its field, the last one when a key occurs twice. */
  ghost predicate ByKey(m: map<string, Value>, fields: seq<ParsedField>, values: seq<Value>) {
    && |values| == |fields| && KeyedBy(m, fields)
    && forall i :: 0 <= i < |fields| && LastNamed(fields, i) ==> fields[i].key in m && m[fields[i].key] == values[i]
  }

  lemma LayoutKeys(m: map<string, Value>, fields: seq<ParsedField>)
    ensures m.Keys == Keys(Layout(fields)) <==> KeyedBy(m, fields)
  {
    var layout := Layout(fields);
    forall key ensures key in Keys(layout) <==> IsKey(fields, key) {
      if i :| 0 <= i < |fields| && fields[i].key == key {
        assert layout[i].key == key;
      }
    }
    if KeyedBy(m, fields) {
      assert forall key :: key in m.Keys <==> key in Keys(layout);
    }
  }

  lemma DictIsByKey(m: map<string, Value>, fields: seq<ParsedField>, values: seq<Value>)
    ensures DictOf(m, Layout(fields), values) <==> ByKey(m, fields, values)
  {
    var layout := Layout(fields);
    LayoutKeys(m, fields);
    assert forall i :: 0 <= i < |fields| ==> layout[i].key == fields[i].key;
    assert forall i :: 0 <= i < |fields| ==> LastOfItsKey(layout, i) == LastNamed(fields, i);
  }

  predicate AllAccepted(values: seq<Value>, accept: Value -> bool) {
    forall i :: 0 <= i < |values| ==> accept(values[i])
  }

  lemma AcceptGrows(values: seq<Value>, accept: Value -> bool)
    requires values != []
    ensures AllAccepted(values, accept) <==>
      AllAccepted(values[..|values| - 1], accept) && accept(values[|values| - 1])
  {
    var n := |values| - 1;
    assert forall i :: 0 <= i < n ==> values[..n][i] == values[i];
    if AllAccepted(values[..n], accept) && accept(values[n]) {
      forall i | 0 <= i < |values| ensures accept(values[i]) {
        if i < n {
          assert accept(values[..n][i]);
        }
      }
    }
  }

  /** Every slice holds its value. */
  ghost predicate Holding(mem: Memory, layout: seq<Slice>, values: seq<Value>) {
    && |values| == |layout|
    && forall i :: 0 <= i < |layout| ==> ReadDataAt(From(mem, layout[i].offset), layout[i].dtype) == Some(values[i])
  }

  lemma {:induction false} ReadSlicesReads(mem: Memory, layout: seq<Slice>, values: seq<Value>, accept: Value -> bool)
    requires Holding(mem, layout, values)
    ensures var read := ReadSlices(mem, layout, accept);
      && (read.Some? <==> AllAccepted(values, accept))
      && (read.Some? ==> DictOf(read.value, layout, values))
    decreases |layout|
  {
    if layout != [] {
      var n := |layout| - 1;
      ReadSlicesReads(mem, layout[..n], values[..n], accept);
      AcceptGrows(values, accept);
      var rest := ReadSlices(mem, layout[..n], accept);
      if rest.Some? && accept(values[n]) {
        DictGrows(rest.value, layout, values);
      }
    }
  }

  // ---- the two kinds of callback ----

  /** What the callback of s gets from a message with these values: nothing if a value of its own is
      implausible, otherwise exactly its keys with their values, or its one value. */
  ghost predicate Delivered(info: Info, s: int, values: seq<Value>, plausible: Value -> bool, d: Option<(int, Handed)>)
  {
    match info
    case Multi(_, _, _, fields, _) =>
      && |fields| <= |values|
      && (d.Some? <==> AllAccepted(values[..|fields|], plausible))
      && (d.Some? ==> d.value.0 == s && d.value.1.Many? && ByKey(d.value.1.values, fields, values[..|fields|]))
    case Single(_, _, _) =>
      && 1 <= |values|
      && d == if plausible(values[0]) then Some((s, One(values[0]))) else None
  }

  lemma NumericValues(fields: seq<ParsedField>, values: seq<Value>)
    requires AllNumeric(fields) && |values| == |fields|
    requires forall i :: 0 <= i < |fields| ==> Sendable(values[i], RemoteFields(fields)[i].dtype)
    ensures ValuesOf(values, fields)
  {
    forall i | 0 <= i < |fields| ensures ValueOf(values[i], fields[i].dtype) {
      assert Sendable(values[i], RemoteFields(fields)[i].dtype);
      assert SizeOf(fields[i].dtype).Some?;
    }
  }

  /** The slices of a list of numeric fields hold the first values of any definition whose first fields
      have the same datatypes, whatever variables they name. */
  lemma FirstValuesHold(def: seq<Field>, fields: seq<ParsedField>, values: seq<Value>, tail: Memory)
    requires AllNumeric(fields) && Fills(values, def) && |fields| <= |def|
    requires forall i :: 0 <= i < |fields| ==> def[i].dtype == fields[i].dtype
    ensures |fields| <= |values| && Holding(Pack(values) + tail, Layout(fields), values[..|fields|])
  {
    var rest := FirstCopy(def, def[..|fields|], values, tail);
    var first := values[..|fields|];
    assert forall i :: 0 <= i < |fields| ==> first[i] == values[i];
    NumericValues(fields, first);
    LayoutRoundTrip(Layout(fields), fields, first, rest);
  }

  /** The callback of a packed subscription gets its keys with the values of the definition's first fields,
      by position, or is not called. */
  lemma DeliversByPosition(c: Client, s: int, request: int, def: seq<Field>, values: seq<Value>, tail: Memory,
                           plausible: Value -> bool)
    requires s in c.subs && SubOk(c.core.reg, s, c.subs[s]) && c.subs[s].Multi?
    requires Lookup(c, request) == Some(s) && Fills(values, def) && |c.subs[s].fields| <= |def|
    requires forall i :: 0 <= i < |c.subs[s].fields| ==> def[i].dtype == c.subs[s].fields[i].dtype
    ensures Delivered(c.subs[s], s, values, plausible, Deliver(c, Message(request, values, tail), plausible))
  {
    FirstValuesHold(def, c.subs[s].fields, values, tail);
    var first := values[..|c.subs[s].fields|];
    ReadSlicesReads(Pack(values) + tail, c.subs[s].layout, first, plausible);
    var read := ReadSlices(Pack(values) + tail, c.subs[s].layout, plausible);
    if read.Some? {
      DictIsByKey(read.value, c.subs[s].fields, first);
    }
  }

  /** When the definition begins with its own fields, these are the values packed for its own fields. */
  lemma DeliversMany(c: Client, s: int, request: int, def: seq<Field>, values: seq<Value>, tail: Memory,
                     plausible: Value -> bool)
    requires s in c.subs && SubOk(c.core.reg, s, c.subs[s]) && c.subs[s].Multi? && FieldsOf(c, s) <= def
    requires Lookup(c, request) == Some(s) && Fills(values, def)
    ensures Delivered(c.subs[s], s, values, plausible, Deliver(c, Message(request, values, tail), plausible))
  {
    assert forall i :: 0 <= i < |FieldsOf(c, s)| ==> def[i] == FieldsOf(c, s)[i];
    DeliversByPosition(c, s, request, def, values, tail, plausible);
  }

  /** Whatever memory the read goes through, it gives every key of the layout a value or nothing at all. */
  lemma {:induction false} ReadSlicesKeys(mem: Memory, layout: seq<Slice>, accept: Value -> bool)
    ensures var read := ReadSlices(mem, layout, accept); read.Some? ==> read.value.Keys == Keys(layout)
    decreases |layout|
  {
    if layout != [] {
      ReadSlicesKeys(mem, layout[..|layout| - 1], accept);
      KeysGrow(layout);
    }
  }

  /** The callback of a packed subscription does not look at how many values the message says it has: on one
      with none it gets what stands in the memory behind the header. */
  lemma EmptyMessageReadsMemory(c: Client, s: int, request: int, found: seq<Value>, rest: Memory,
                                plausible: Value -> bool)
    requires s in c.subs && SubOk(c.core.reg, s, c.subs[s]) && c.subs[s].Multi? && Lookup(c, request) == Some(s)
    requires ValuesOf(found, c.subs[s].fields) && AllAccepted(found, plausible)
    ensures var call := Deliver(c, Message(request, [], Pack(found) + rest), plausible);
      && call.Some? && call.value.0 == s && call.value.1.Many?
      && ByKey(call.value.1.values, c.subs[s].fields, found)
  {
    LayoutRoundTrip(c.subs[s].layout, c.subs[s].fields, found, rest);
    assert Pack([]) + (Pack(found) + rest) == Pack(found) + rest;
    ReadSlicesReads(Pack(found) + rest, c.subs[s].layout, found, plausible);
    DictIsByKey(ReadSlices(Pack(found) + rest, c.subs[s].layout, plausible).value, c.subs[s].fields, found);
  }

  /** A value for every numeric field. */
  lemma SomeValues(fields: seq<ParsedField>) returns (values: seq<Value>)
    requires AllNumeric(fields)
    ensures ValuesOf(values, fields)
  {
    values := seq(|fields|, i requires 0 <= i < |fields| => Zero(fields[i].dtype));
    assert forall i :: 0 <= i < |fields| ==> SizeOf(fields[i].dtype).Some?;
  }

  function Zero(dtype: int): Value {
    if dtype == INT32 then Int32(0)
    else if dtype == INT64 then Int64(0)
    else if dtype == FLOAT32 then Float32([0, 0, 0, 0])
    else Float64([0, 0, 0, 0, 0, 0, 0, 0])
  }

  lemma ReadsFirst(v: Value, dtype: int, rest: Memory)
    requires Sendable(v, dtype) && (v.Text? ==> SafeCString(v.bytes))
    ensures ReadDataAt(Encode(v) + rest, dtype) == Some(v)
  {
    if v.Text? {
      CStringReadsBack(v.bytes, rest);
    } else {
      NumericRoundTrip(v, dtype, rest);
    }
  }

  lemma FirstValueIsRead(def: seq<Field>, field: Field, values: seq<Value>, tail: Memory)
    requires [field] <= def && Fills(values, def)
    requires values[0].Text? ==> SafeCString(values[0].bytes)
    ensures ReadDataAt(Pack(values) + tail, field.dtype) == Some(values[0])
  {
    var rest := FirstCopy(def, [field], values, tail);
    PackLast([], values[0]);
    assert values[..1] == [] + [values[0]];
    assert Pack(values[..1]) == Encode(values[0]);
    assert Sendable(values[0], [field][0].dtype);
    ReadsFirst(values[0], field.dtype, rest);
  }

  lemma DeliversOne(c: Client, s: int, request: int, def: seq<Field>, values: seq<Value>, tail: Memory,
                    plausible: Value -> bool)
    requires s in c.subs && c.subs[s].Single? && FieldsOf(c, s) <= def
    requires Lookup(c, request) == Some(s) && Fills(values, def)
    requires values[0].Text? ==> SafeCString(values[0].bytes)
    ensures Delivered(c.subs[s], s, values, plausible, Deliver(c, Message(request, values, tail), plausible))
  {
    FirstValueIsRead(def, SlotField(SlotAt(c.core.reg, c.subs[s].slot)), values, tail);
  }
}
