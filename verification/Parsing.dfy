/** Reading one data field out of a packet, and the encodings it is the inverse of. */
module Parsing {
  import opened Wrappers
  import opened Bytes

  const INT32 := 1
  const INT64 := 2
  const FLOAT32 := 3
  const FLOAT64 := 4
  const STRING8 := 5
  const STRINGV := 11
  const MAX_STRINGV := 4096

  /** Floats are kept as their bit patterns, text as its bytes. */
  datatype Value =
    | Int32(n: int)
    | Int64(n: int)
    | Float32(bits: seq<Byte>)
    | Float64(bits: seq<Byte>)
    | Text(bytes: seq<Byte>)

  predicate IsStringDatatype(dtype: int) { STRING8 <= dtype <= STRINGV }

  /** DATATYPE_SIZES: the number of bytes of a numeric field, None for any other datatype. */
  function SizeOf(dtype: int): Option<nat> {
    if dtype == INT32 || dtype == FLOAT32 then Some(4)
    else if dtype == INT64 || dtype == FLOAT64 then Some(8)
    else None
  }

  // ---- the string field decoder, branch for branch ----

  function PeekI32(mem: Memory): int { Signed(Take(mem, 4)) }

  predicate HasStringVLengthPrefix(mem: Memory) {
    var n := PeekI32(mem);
    if !(1 <= n <= MAX_STRINGV) then false
    else if n < 256 then var b := Take(mem, 4); b[1] == b[2] == b[3] == 0
    else true
  }

  predicate StartsWithPrintableCString(mem: Memory) {
    var first := Take(mem, 1)[0];
    first >= 0x20 || first == 0
  }

  function ReadStringV(mem: Memory): Option<seq<Byte>> {
    var n := PeekI32(mem);
    if n <= 0 || n > MAX_STRINGV then None else Some(UpToNul(Take(From(mem, 4), n)))
  }

  function ReadCString(mem: Memory): Option<seq<Byte>> {
    var text := UpToNul(mem);
    if text == [] then None else Some(text)
  }

  function ReadStringField(mem: Memory): Option<seq<Byte>> {
    var s := if HasStringVLengthPrefix(mem) then ReadStringV(mem) else None;
    if s.Some? then s else
    var s := if StartsWithPrintableCString(mem) then ReadCString(mem) else None;
    if s.Some? then s else
    var s := ReadStringV(mem);
    if s.Some? then s else ReadCString(mem)
  }

  function ReadDataAt(mem: Memory, dtype: int): Option<Value> {
    if dtype == FLOAT64 then Some(Float64(Take(mem, 8)))
    else if dtype == FLOAT32 then Some(Float32(Take(mem, 4)))
    else if dtype == INT32 then Some(Int32(Signed(Take(mem, 4))))
    else if dtype == INT64 then Some(Int64(Signed(Take(mem, 8))))
    else if IsStringDatatype(dtype) then
      var s := ReadStringField(mem);
      if s.Some? then Some(Text(s.value)) else None
    else None
  }

  /** A data message: its request id, dwDefineCount, and the memory from dwData on. */
  datatype Packet = Packet(requestId: int, defineCount: nat, payload: Memory)

  function ReadData(p: Packet, dtype: int): Option<Value> {
    if p.defineCount >= 1 then ReadDataAt(p.payload, dtype) else None
  }

  // ---- what the decoder means ----

  /** A length word in 1..4096 announces that many bytes of text; anything else is a C string. */
  function DecodeStringField(mem: Memory): Option<seq<Byte>> {
    var n := PeekI32(mem);
    if 1 <= n <= MAX_STRINGV then Some(UpToNul(Take(From(mem, 4), n)))
    else if UpToNul(mem) == [] then None
    else Some(UpToNul(mem))
  }

  lemma Unsigned4(b: seq<Byte>)
    requires |b| == 4
    ensures Unsigned(b) == (b[0] as int) + 256 * (b[1] as int) + 65536 * (b[2] as int) + 16777216 * (b[3] as int)
    ensures Pow256(4) == 4294967296
  {
    assert Unsigned(b[3..]) == b[3] by { assert b[3..][1..] == []; }
    assert Unsigned(b[2..]) == b[2] + 256 * Unsigned(b[3..]) by { assert b[2..][1..] == b[3..]; }
    assert Unsigned(b[1..]) == b[1] + 256 * Unsigned(b[2..]) by { assert b[1..][1..] == b[2..]; }
    assert Pow256(2) == 65536 && Pow256(3) == 16777216;
  }

  /** The extra look at the three high bytes never changes the verdict. */
  lemma HighByteCheckIsRedundant(mem: Memory)
    ensures HasStringVLengthPrefix(mem) <==> 1 <= PeekI32(mem) <= MAX_STRINGV
  {
    Unsigned4(Take(mem, 4));
  }

  /** The four-way fallback is the two-case decoder. */
  lemma StringDecoderRefinesTwoCases(mem: Memory)
    ensures ReadStringField(mem) == DecodeStringField(mem)
  {
    HighByteCheckIsRedundant(mem);
  }

  // ---- what set_string() packs ----

  /** struct.pack("<i", ...) raises for a text that does not fit its length word. */
  function PackSetStringValue(text: seq<Byte>): Result<seq<Byte>, string> {
    if Fits(|text| + 1, 4) then Ok(LittleEndian(|text| + 1, 4) + text + [0])
    else Err("struct.error")
  }

  /** set_string() packs every text whose length and terminator fit a C int, and what it packs reads back as the
      text, whatever memory follows, exactly when the text holds no NUL and is at most 4095 bytes long. */
  lemma StringRoundTrip(text: seq<Byte>, tail: Memory)
    ensures var r := PackSetStringValue(text);
      && (r.Ok? <==> |text| < 0x7FFF_FFFF)
      && (r.Ok? ==>
            && |r.value| == |text| + 5
            && (|text| <= 4095 ==> ReadStringField(r.value + tail) == Some(UpToNul(text)))
            && (ReadStringField(r.value + tail) == Some(text) <==> |text| <= 4095 && 0 !in text))
  {
    assert Pow256(4) == 0x1_0000_0000 by { Unsigned4([0, 0, 0, 0]); }
    if |text| < 0x7FFF_FFFF {
      PackedTextReads(text, tail);
    }
  }

  lemma PackedTextReads(text: seq<Byte>, tail: Memory)
    requires Fits(|text| + 1, 4)
    ensures var mem := LittleEndian(|text| + 1, 4) + text + [0] + tail;
      && (|text| <= 4095 ==> ReadStringField(mem) == Some(UpToNul(text)))
      && (ReadStringField(mem) == Some(text) <==> |text| <= 4095 && 0 !in text)
  {
    var word := LittleEndian(|text| + 1, 4);
    var mem := word + text + [0] + tail;
    StringDecoderRefinesTwoCases(mem);
    LengthWordReadsBack(text, tail);
    CutText(text);
    if |text| <= 4095 {
      TextBehindWord(text, word, tail);
    } else {
      LongTextIsLost(text, word, mem);
    }
  }

  lemma WordIsRead(word: seq<Byte>, text: seq<Byte>, tail: Memory)
    requires |word| == 4
    ensures PeekI32(word + text + [0] + tail) == Signed(word)
  {
    assert Take(word + text + [0] + tail, 4) == word;
  }

  lemma LengthWordReadsBack(text: seq<Byte>, tail: Memory)
    requires Fits(|text| + 1, 4)
    ensures PeekI32(LittleEndian(|text| + 1, 4) + text + [0] + tail) == |text| + 1
  {
    SignedRoundTrip(|text| + 1, 4);
    WordIsRead(LittleEndian(|text| + 1, 4), text, tail);
  }

  lemma TextBehindWord(text: seq<Byte>, word: seq<Byte>, tail: Memory)
    requires |word| == 4
    ensures Take(From(word + text + [0] + tail, 4), |text| + 1) == text + [0]
  {
    assert From(word + text + [0] + tail, 4) == text + [0] + tail;
  }

  lemma CutText(text: seq<Byte>)
    ensures UpToNul(text + [0]) == UpToNul(text)
    ensures UpToNul(text) == text <==> 0 !in text
  {
    var cut := UpToNul(text);
    if |cut| == |text| {
      assert cut == text;
      UpToNulStops(text, [0]);
    } else {
      var rest := text[|cut|..];
      assert text == cut + rest && rest[0] == text[|cut|] == 0;
      assert 0 in text by { assert text[|cut|] in text; }
      assert text + [0] == cut + (rest + [0]);
      UpToNulStops(cut, rest + [0]);
    }
  }

  /** Past 4095 bytes the reader falls back to the C string that starts at the length word: it is
      longer than the text or cut inside the word, so never the text. */
  lemma LongTextIsLost(text: seq<Byte>, word: seq<Byte>, mem: Memory)
    requires |text| >= 4096 && |word| == 4 && word + text + [0] <= mem
    ensures UpToNul(mem) != text
  {
    var k := |text| - 4;
    assert mem[|text|] == (word + text + [0])[|text|] == text[k];
    assert text[k] in text;
  }

  // ---- what the simulator sends for TITLE and the like: NUL-terminated C strings ----

  /** When the four bytes at the base of a C string cannot be a length word. */
  predicate SafeCString(text: seq<Byte>) {
    || |text| >= 3
    || (|text| == 2 && text[1] >= 0x10)
  }

  /** A C string reads back as itself, whatever follows it, unless it is empty, has one byte, or has
      two bytes of which the second is a control character below 0x10. */
  lemma CStringReadsBack(text: seq<Byte>, tail: Memory)
    requires 0 !in text && SafeCString(text)
    ensures ReadStringField(text + [0] + tail) == Some(text)
  {
    var mem := text + [0] + tail;
    StringDecoderRefinesTwoCases(mem);
    assert mem == text + ([0] + tail);
    UpToNulStops(text, [0] + tail);
    var b := Take(mem, 4);
    assert b[0] == text[0] && b[1] == text[1] by { assert |mem| >= 3; TakeAt(mem, 0); TakeAt(mem, 1); }
    if |text| >= 3 { TakeAt(mem, 2); } else { TakeAt(mem, 2); assert b[2] == 0; }
    assert forall i :: 0 <= i < |text| ==> text[i] in text && text[i] != 0;
    Unsigned4(b);
  }

  lemma TakeAt(mem: Memory, i: nat)
    requires i < 4 && i < |mem|
    ensures Take(mem, 4)[i] == mem[i]
  {}

  /** Outside SafeCString the promise fails for every string: zeros behind it turn a one-byte or a
      two-byte string of the excluded kind into a length word, and an empty one into nothing. */
  lemma UnsafeCStringIsLost(text: seq<Byte>)
    requires 0 !in text && !SafeCString(text)
    ensures exists tail: Memory :: ReadStringField(text + [0] + tail) != Some(text)
  {
    var tail: Memory := seq(5000, _ => 0);
    var mem := text + [0] + tail;
    StringDecoderRefinesTwoCases(mem);
    var b := Take(mem, 4);
    assert forall i :: 0 <= i < |text| ==> text[i] in text && text[i] != 0;
    if |text| > 0 {
      Unsigned4(b);
      assert b[2] == 0 && b[3] == 0;
      var n := PeekI32(mem);
      var after := Take(From(mem, 4), n);
      assert after[0] == 0;
      assert UpToNul(after) == [];
    } else {
      Unsigned4(b);
      assert b[0] == 0 && b[1] == 0 && b[2] == 0 && b[3] == 0;
      assert UpToNul(mem) == [];
    }
    assert ReadStringField(text + [0] + tail) != Some(text);
  }

  /** The exact strings the simulator can send without risk. */
  lemma CStringIsReliableExactlyWhenSafe(text: seq<Byte>)
    requires 0 !in text
    ensures SafeCString(text) <==> forall tail: Memory :: ReadStringField(text + [0] + tail) == Some(text)
  {
    if SafeCString(text) {
      forall tail: Memory {
        CStringReadsBack(text, tail);
      }
    } else {
      UnsafeCStringIsLost(text);
    }
  }

  // ---- numeric fields ----

  /** The value kinds a field of each numeric datatype can hold. */
  predicate ValueOf(v: Value, dtype: int) {
    match v
    case Int32(n) => dtype == INT32 && Fits(n, 4)
    case Int64(n) => dtype == INT64 && Fits(n, 8)
    case Float32(bits) => dtype == FLOAT32 && |bits| == 4
    case Float64(bits) => dtype == FLOAT64 && |bits| == 8
    case Text(_) => false
  }

  function Encode(v: Value): seq<Byte> {
    match v
    case Int32(n) => LittleEndian(n, 4)
    case Int64(n) => LittleEndian(n, 8)
    case Float32(bits) => bits
    case Float64(bits) => bits
    case Text(bytes) => bytes + [0]
  }

  lemma NumericRoundTrip(v: Value, dtype: int, tail: Memory)
    requires ValueOf(v, dtype)
    ensures SizeOf(dtype) == Some(|Encode(v)|)
    ensures ReadDataAt(Encode(v) + tail, dtype) == Some(v)
  {
    var code := Encode(v);
    assert Take(code + tail, |code|) == code;
    match v {
      case Int32(n) => SignedRoundTrip(n, 4);
      case Int64(n) => SignedRoundTrip(n, 8);
      case _ =>
    }
  }

  /** What set() is asked to write: an integer, or a float as the two bit patterns it converts to. */
  datatype Number = Whole(n: int) | Real(truncated: int, single: seq<Byte>, double: seq<Byte>)

  /** c_int32 and c_int64 keep the low bytes of an integer that does not fit. `asFloat` is the
      conversion of an integer to a float of four or eight bytes. */
  function PackSetValue(value: Number, dtype: int, asFloat: (int, nat) -> seq<Byte>): Result<seq<Byte>, string> {
    var whole := if value.Whole? then value.n else value.truncated;
    if dtype == FLOAT64 then Ok(if value.Real? then value.double else asFloat(value.n, 8))
    else if dtype == FLOAT32 then Ok(if value.Real? then value.single else asFloat(value.n, 4))
    else if dtype == INT32 then Ok(LittleEndian(whole, 4))
    else if dtype == INT64 then Ok(LittleEndian(whole, 8))
    else Err("ValueError")
  }

  /** A float of a value is 4 or 8 bytes, by its width. */
  ghost predicate Convertible(value: Number, asFloat: (int, nat) -> seq<Byte>) {
    && (value.Real? ==> |value.single| == 4 && |value.double| == 8)
    && forall n, width :: |asFloat(n, width)| == width
  }

  /** What a field of the datatype holds once the value is written: a float of four or eight bytes, or the one
      number of the field's range that is congruent to the value, itself if it fits. */
  ghost predicate Written(value: Number, dtype: int, asFloat: (int, nat) -> seq<Byte>, read: Option<Value>) {
    var whole := if value.Whole? then value.n else value.truncated;
    if dtype == 4 then read == Some(Float64(if value.Real? then value.double else asFloat(value.n, 8)))
    else if dtype == 3 then read == Some(Float32(if value.Real? then value.single else asFloat(value.n, 4)))
    else if dtype == 2 then read.Some? && read.value.Int64? && WrapsTo(whole, 8, read.value.n)
    else dtype == 1 && read.Some? && read.value.Int32? && WrapsTo(whole, 4, read.value.n)
  }

  ghost predicate WrapsTo(whole: int, size: nat, n: int) {
    Fits(n, size) && n % Pow256(size) == whole % Pow256(size) && (Fits(whole, size) ==> n == whole)
  }

  lemma WholeIsWritten(whole: int, size: nat, tail: Memory)
    requires size == 4 || size == 8
    ensures WrapsTo(whole, size, Signed(Take(LittleEndian(whole, size) + tail, size)))
  {
    SignedRoundTrip(whole, size);
    assert Take(LittleEndian(whole, size) + tail, size) == LittleEndian(whole, size);
  }

  /** set() packs a value for exactly the datatypes INT32, INT64, FLOAT32 and FLOAT64, into exactly four or eight
      bytes, and these read back as the value. */
  lemma SetValueRoundTrip(value: Number, dtype: int, asFloat: (int, nat) -> seq<Byte>, tail: Memory)
    requires Convertible(value, asFloat)
    ensures var r := PackSetValue(value, dtype, asFloat);
      && (r.Ok? <==> 1 <= dtype <= 4)
      && (r.Ok? ==> |r.value| == (if dtype % 2 == 1 then 4 else 8)
                    && Written(value, dtype, asFloat, ReadDataAt(r.value + tail, dtype)))
  {
    var whole := if value.Whole? then value.n else value.truncated;
    if dtype == 1 || dtype == 2 {
      WholeIsWritten(whole, 4 * dtype, tail);
    } else if dtype == 3 || dtype == 4 {
      var packed := PackSetValue(value, dtype, asFloat).value;
      assert Take(packed + tail, |packed|) == packed;
    }
  }
}
