/** Field descriptors of get_many / subscribe_many and the packed layout they share with the remote. */
module Fields {
  import opened Wrappers
  import opened Bytes
  import opened Parsing

  /** What a caller may write for one field: a DataField or a tuple of any length. */
  datatype FieldSpec =
    | DataField(name: string, unit: string, dtype: int)
    | Pair(name: string, unit: string)
    | Triple(name: string, unit: string, dtype: int)
    | OtherTuple(length: nat)

  datatype ParsedField = ParsedField(key: string, name: string, unit: string, dtype: int)

  datatype Slice = Slice(key: string, dtype: int, offset: nat)

  predicate WellFormedSpec(spec: FieldSpec) {
    match spec
    case OtherTuple(_) => false
    case Pair(_, _) => true
    case DataField(_, _, d) => d >= 0
    case Triple(_, _, d) => d >= 0
  }

  /** What a caller means by an item: no datatype means 4, a FLOAT64. */
  predicate Says(f: ParsedField, key: string, spec: FieldSpec) {
    f.key == key && match spec
      case DataField(name, unit, d) => f.name == name && f.unit == unit && f.dtype == d
      case Pair(name, unit) => f.name == name && f.unit == unit && f.dtype == 4
      case Triple(name, unit, d) => f.name == name && f.unit == unit && f.dtype == d
      case OtherTuple(_) => false
  }

  /** `fields` lists the items of the caller's dictionary in its order. */
  method ParseFields(fields: seq<(string, FieldSpec)>) returns (r: Result<seq<ParsedField>, string>)
    ensures r.Ok? <==> forall i :: 0 <= i < |fields| ==> WellFormedSpec(fields[i].1)
    ensures r.Ok? ==> |r.value| == |fields|
    ensures r.Ok? ==> forall i :: 0 <= i < |fields| ==> Says(r.value[i], fields[i].0, fields[i].1)
  {
    var parsed: seq<ParsedField> := [];
    for i := 0 to |fields|
      invariant |parsed| == i
      invariant forall j :: 0 <= j < i ==>
        WellFormedSpec(fields[j].1) && Says(parsed[j], fields[j].0, fields[j].1)
    {
      var (key, spec) := fields[i];
      match spec {
        case OtherTuple(_) => return Err("ValueError");
        case _ =>
      }
      var dtype := if spec.Pair? then FLOAT64 else spec.dtype;
      if dtype < 0 { return Err("ValueError"); }
      parsed := parsed + [ParsedField(key, spec.name, spec.unit, dtype)];
    }
    r := Ok(parsed);
  }

  // ---- layout ----

  predicate AllNumeric(fields: seq<ParsedField>) {
    forall i :: 0 <= i < |fields| ==> SizeOf(fields[i].dtype).Some?
  }

  function Width(dtype: int): nat {
    if SizeOf(dtype).Some? then SizeOf(dtype).value else 0
  }

  function TotalSize(fields: seq<ParsedField>): nat {
    if fields == [] then 0 else TotalSize(fields[..|fields| - 1]) + Width(fields[|fields| - 1].dtype)
  }

  /** Slice i starts where the first i fields end. */
  function SliceAt(fields: seq<ParsedField>, i: nat): Slice
    requires i < |fields|
  {
    Slice(fields[i].key, fields[i].dtype, TotalSize(fields[..i]))
  }

  ghost predicate IsLayout(layout: seq<Slice>, fields: seq<ParsedField>) {
    && |layout| == |fields|
    && forall i :: 0 <= i < |fields| ==> layout[i] == SliceAt(fields, i)
  }

  method BuildFieldLayout(parsed: seq<ParsedField>) returns (r: Result<seq<Slice>, string>)
    ensures r.Ok? <==> AllNumeric(parsed)
    ensures r.Ok? ==> IsLayout(r.value, parsed)
  {
    var layout: seq<Slice> := [];
    var offset := 0;
    for i := 0 to |parsed|
      invariant forall j :: 0 <= j < i ==> SizeOf(parsed[j].dtype).Some?
      invariant offset == TotalSize(parsed[..i])
      invariant |layout| == i
      invariant forall j :: 0 <= j < i ==> layout[j] == SliceAt(parsed, j)
    {
      var size := SizeOf(parsed[i].dtype);
      if size.None? {
        return Err("ValueError");
      }
      layout := layout + [Slice(parsed[i].key, parsed[i].dtype, offset)];
      offset := offset + size.value;
      assert parsed[..i + 1][..i] == parsed[..i];
    }
    r := Ok(layout);
  }

  /** The layout as a value, for the specifications that need to name it. */
  function Layout(fields: seq<ParsedField>): (layout: seq<Slice>)
    ensures IsLayout(layout, fields)
  {
    seq(|fields|, i requires 0 <= i < |fields| => SliceAt(fields, i))
  }

  lemma {:induction false} TotalSizeMonotone(fields: seq<ParsedField>, i: nat)
    requires i <= |fields|
    ensures TotalSize(fields[..i]) <= TotalSize(fields)
    decreases |fields|
  {
    if i == |fields| {
      assert fields[..i] == fields;
    } else {
      var init := fields[..|fields| - 1];
      assert init[..i] == fields[..i];
      TotalSizeMonotone(init, i);
    }
  }

  function End(s: Slice): nat { s.offset + Width(s.dtype) }

  lemma SliceEnd(layout: seq<Slice>, fields: seq<ParsedField>, i: nat)
    requires IsLayout(layout, fields) && i < |fields|
    ensures End(layout[i]) == TotalSize(fields[..i + 1])
  {
    assert fields[..i + 1][..i] == fields[..i];
  }

  /** The slices are contiguous from 0 and together cover exactly the packed size; no two overlap. */
  lemma LayoutTiles(layout: seq<Slice>, fields: seq<ParsedField>)
    requires IsLayout(layout, fields)
    ensures forall i, j :: 0 <= i < j < |layout| ==> End(layout[i]) <= layout[j].offset
    ensures forall i :: 0 <= i < |layout| - 1 ==> End(layout[i]) == layout[i + 1].offset
    ensures fields != [] ==> layout[0].offset == 0 && End(layout[|layout| - 1]) == TotalSize(fields)
  {
    forall i | 0 <= i < |layout|
      ensures i + 1 < |layout| ==> End(layout[i]) == layout[i + 1].offset
      ensures i + 1 == |layout| ==> End(layout[i]) == TotalSize(fields)
    {
      SliceEnd(layout, fields, i);
      assert fields[..|fields|] == fields;
    }
    forall i, j | 0 <= i < j < |layout| ensures End(layout[i]) <= layout[j].offset {
      SlicesOrdered(layout, fields, i, j);
    }
  }

  lemma SlicesOrdered(layout: seq<Slice>, fields: seq<ParsedField>, i: nat, j: nat)
    requires IsLayout(layout, fields) && i < j < |fields|
    ensures End(layout[i]) <= layout[j].offset
  {
    var head := fields[..j];
    assert head[..i + 1] == fields[..i + 1];
    SliceEnd(layout, fields, i);
    TotalSizeMonotone(head, i + 1);
  }

  // ---- packing ----

  ghost predicate ValuesOf(values: seq<Value>, fields: seq<ParsedField>) {
    |values| == |fields| && forall i :: 0 <= i < |fields| ==> ValueOf(values[i], fields[i].dtype)
  }

  function Pack(values: seq<Value>): seq<Byte> {
    if values == [] then [] else Pack(values[..|values| - 1]) + Encode(values[|values| - 1])
  }

  lemma {:induction false} PackedSize(values: seq<Value>, fields: seq<ParsedField>)
    requires ValuesOf(values, fields)
    ensures |Pack(values)| == TotalSize(fields)
  {
    if values != [] {
      PackedSize(values[..|values| - 1], fields[..|fields| - 1]);
      NumericRoundTrip(values[|values| - 1], fields[|fields| - 1].dtype, []);
    }
  }

  lemma Regroup(a: seq<Byte>, b: seq<Byte>, c: seq<Byte>)
    ensures a + b + c == a + (b + c)
  {}

  lemma ReadBehind(head: seq<Byte>, v: Value, dtype: int, tail: Memory)
    requires ValueOf(v, dtype)
    ensures ReadDataAt(From(head + (Encode(v) + tail), |head|), dtype) == Some(v)
  {
    assert From(head + (Encode(v) + tail), |head|) == Encode(v) + tail;
    NumericRoundTrip(v, dtype, tail);
  }

  lemma PackedSplit(values: seq<Value>, fields: seq<ParsedField>, tail: Memory)
    requires ValuesOf(values, fields) && values != []
    ensures var n := |fields| - 1;
      && ValuesOf(values[..n], fields[..n]) && ValueOf(values[n], fields[n].dtype)
      && Pack(values) + tail == Pack(values[..n]) + (Encode(values[n]) + tail)
  {
    var n := |fields| - 1;
    Regroup(Pack(values[..n]), Encode(values[n]), tail);
  }

  lemma LastSlice(values: seq<Value>, fields: seq<ParsedField>, tail: Memory)
    requires ValuesOf(values, fields) && values != []
    ensures var n := |fields| - 1;
      ReadDataAt(From(Pack(values) + tail, TotalSize(fields[..n])), fields[n].dtype) == Some(values[n])
  {
    var n := |fields| - 1;
    PackedSplit(values, fields, tail);
    PackedSize(values[..n], fields[..n]);
    ReadBehind(Pack(values[..n]), values[n], fields[n].dtype, tail);
  }

  lemma {:induction false} SliceRoundTrip(fields: seq<ParsedField>, values: seq<Value>, tail: Memory, i: nat)
    requires ValuesOf(values, fields) && i < |fields|
    ensures ReadDataAt(From(Pack(values) + tail, TotalSize(fields[..i])), fields[i].dtype) == Some(values[i])
    decreases |fields|
  {
    var n := |fields| - 1;
    if i == n {
      LastSlice(values, fields, tail);
    } else {
      PackedSplit(values, fields, tail);
      assert fields[..n][..i] == fields[..i];
      SliceRoundTrip(fields[..n], values[..n], Encode(values[n]) + tail, i);
    }
  }

  /** Reading every slice of a packed buffer gives the packed values back, also when more bytes
      (further copies of the fields, say) follow. */
  lemma LayoutRoundTrip(layout: seq<Slice>, fields: seq<ParsedField>, values: seq<Value>, tail: Memory)
    requires IsLayout(layout, fields) && ValuesOf(values, fields)
    ensures forall i :: 0 <= i < |layout| ==>
      ReadDataAt(From(Pack(values) + tail, layout[i].offset), layout[i].dtype) == Some(values[i])
  {
    forall i | 0 <= i < |layout|
      ensures ReadDataAt(From(Pack(values) + tail, layout[i].offset), layout[i].dtype) == Some(values[i])
    {
      SliceRoundTrip(fields, values, tail, i);
    }
  }

  // ---- numeric / string split ----

  predicate Supported(f: ParsedField): (supported: bool)
    ensures supported <==> 1 <= f.dtype <= 11
  {
    IsStringDatatype(f.dtype) || SizeOf(f.dtype).Some?
  }

  function Numeric(fields: seq<ParsedField>): (r: seq<ParsedField>)
    ensures forall f :: f in r <==> f in fields && !IsStringDatatype(f.dtype)
  {
    if fields == [] then []
    else
      var last := fields[|fields| - 1];
      Numeric(fields[..|fields| - 1]) + if IsStringDatatype(last.dtype) then [] else [last]
  }

  function Strings(fields: seq<ParsedField>): (r: seq<ParsedField>)
    ensures forall f :: f in r <==> f in fields && IsStringDatatype(f.dtype)
  {
    if fields == [] then []
    else
      var last := fields[|fields| - 1];
      Strings(fields[..|fields| - 1]) + if IsStringDatatype(last.dtype) then [last] else []
  }

  /** The numeric half of a supported list has a layout. */
  lemma NumericHalfHasLayout(fields: seq<ParsedField>)
    requires forall f :: f in fields ==> Supported(f)
    ensures AllNumeric(Numeric(fields))
  {
    forall i | 0 <= i < |Numeric(fields)| ensures SizeOf(Numeric(fields)[i].dtype).Some? {
      assert Numeric(fields)[i] in Numeric(fields);
    }
  }

  predicate OfKind(f: ParsedField, strings: bool) { 5 <= f.dtype <= 11 <==> strings }

  /** The positions of all fields that are strings, or of all that are not, in order. */
  ghost predicate Positions(at: seq<nat>, fields: seq<ParsedField>, strings: bool) {
    && (forall j :: 0 <= j < |at| ==> at[j] < |fields| && OfKind(fields[at[j]], strings))
    && (forall j, k :: 0 <= j < k < |at| ==> at[j] < at[k])
    && (forall i :: 0 <= i < |fields| && OfKind(fields[i], strings) ==> i in at)
  }

  ghost predicate Picks(half: seq<ParsedField>, fields: seq<ParsedField>, at: seq<nat>) {
    |half| == |at| && forall j :: 0 <= j < |at| ==> at[j] < |fields| && half[j] == fields[at[j]]
  }

  lemma PositionAdded(half: seq<ParsedField>, fields: seq<ParsedField>, at: seq<nat>, strings: bool)
    requires fields != [] && OfKind(fields[|fields| - 1], strings)
    requires Positions(at, fields[..|fields| - 1], strings) && Picks(half, fields[..|fields| - 1], at)
    ensures Positions(at + [|fields| - 1], fields, strings)
    ensures Picks(half + [fields[|fields| - 1]], fields, at + [|fields| - 1])
  {
    var n, init := |fields| - 1, fields[..|fields| - 1];
    var more := at + [n];
    assert forall j :: 0 <= j < |at| ==> more[j] == at[j] && init[at[j]] == fields[at[j]];
    forall i | 0 <= i < |fields| && OfKind(fields[i], strings) ensures i in more {
      if i < n {
        assert OfKind(init[i], strings);
      } else {
        assert more[|at|] == n;
      }
    }
  }

  lemma PositionSkipped(half: seq<ParsedField>, fields: seq<ParsedField>, at: seq<nat>, strings: bool)
    requires fields != [] && !OfKind(fields[|fields| - 1], strings)
    requires Positions(at, fields[..|fields| - 1], strings) && Picks(half, fields[..|fields| - 1], at)
    ensures Positions(at, fields, strings) && Picks(half, fields, at)
  {
    var init := fields[..|fields| - 1];
    assert forall j :: 0 <= j < |at| ==> init[at[j]] == fields[at[j]];
    forall i | 0 <= i < |fields| && OfKind(fields[i], strings) ensures i in at {
      assert OfKind(init[i], strings);
    }
  }

  /** The split loses no field, copies none and keeps the order: each half picks all positions of its kind. */
  lemma {:induction false} SplitKeepsOrder(fields: seq<ParsedField>) returns (nums: seq<nat>, strs: seq<nat>)
    ensures Positions(nums, fields, false) && Picks(Numeric(fields), fields, nums)
    ensures Positions(strs, fields, true) && Picks(Strings(fields), fields, strs)
    decreases |fields|
  {
    if fields == [] {
      nums, strs := [], [];
    } else {
      var n := |fields| - 1;
      nums, strs := SplitKeepsOrder(fields[..n]);
      nums := HalfGrows(Numeric(fields[..n]), fields, nums, false);
      strs := HalfGrows(Strings(fields[..n]), fields, strs, true);
      SplitLast(fields);
    }
  }

  lemma SplitLast(fields: seq<ParsedField>)
    requires fields != []
    ensures var init, last := fields[..|fields| - 1], fields[|fields| - 1];
      && Numeric(fields) == Numeric(init) + (if OfKind(last, true) then [] else [last])
      && Strings(fields) == Strings(init) + (if OfKind(last, true) then [last] else [])
  {}

  lemma HalfGrows(half: seq<ParsedField>, fields: seq<ParsedField>, at: seq<nat>, strings: bool)
    returns (more: seq<nat>)
    requires fields != [] && Positions(at, fields[..|fields| - 1], strings) && Picks(half, fields[..|fields| - 1], at)
    ensures var last := fields[|fields| - 1];
      Positions(more, fields, strings) && Picks(half + (if OfKind(last, strings) then [last] else []), fields, more)
  {
    if OfKind(fields[|fields| - 1], strings) {
      PositionAdded(half, fields, at, strings);
      more := at + [|fields| - 1];
    } else {
      PositionSkipped(half, fields, at, strings);
      assert half + [] == half;
      more := at;
    }
  }

  method SplitNumericStringFields(parsed: seq<ParsedField>)
    returns (r: Result<(seq<ParsedField>, seq<ParsedField>), string>)
    ensures r.Ok? <==> forall f :: f in parsed ==> Supported(f)
    ensures r.Ok? ==> r.value == (Numeric(parsed), Strings(parsed))
  {
    var numeric: seq<ParsedField> := [];
    var string_: seq<ParsedField> := [];
    for i := 0 to |parsed|
      invariant numeric == Numeric(parsed[..i]) && string_ == Strings(parsed[..i])
      invariant forall f :: f in parsed[..i] ==> Supported(f)
    {
      var item := parsed[i];
      assert parsed[..i + 1][..i] == parsed[..i];
      if IsStringDatatype(item.dtype) {
        string_ := string_ + [item];
      } else if SizeOf(item.dtype).Some? {
        numeric := numeric + [item];
      } else {
        assert item in parsed && !Supported(item);
        return Err("ValueError");
      }
    }
    assert parsed[..|parsed|] == parsed;
    r := Ok((numeric, string_));
  }
}
