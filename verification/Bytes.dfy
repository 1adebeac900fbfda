/** Bytes, little-endian integers and the memory a packet is read from. */
module Bytes {
  type Byte = b: int | 0 <= b < 256 witness 0

  function Pow256(n: nat): (p: nat)
    ensures p >= 1
    ensures n > 0 ==> p % 2 == 0
  {
    if n == 0 then 1 else 256 * Pow256(n - 1)
  }

  function Unsigned(bs: seq<Byte>): nat {
    if bs == [] then 0 else bs[0] + 256 * Unsigned(bs[1..])
  }

  /** The two's-complement reading of `bs`, least significant byte first. */
  function Signed(bs: seq<Byte>): int {
    var u := Unsigned(bs);
    if 2 * u >= Pow256(|bs|) then u - Pow256(|bs|) else u
  }

  /** The low `n` bytes of `v`; a negative or oversized `v` wraps around, as a C integer does. */
  function LittleEndian(v: int, n: nat): (bs: seq<Byte>)
    ensures |bs| == n && (n > 0 ==> bs[0] == v % 256)
    decreases n
  {
    if n == 0 then [] else [v % 256] + LittleEndian(v / 256, n - 1)
  }

  lemma MulAtLeast(m: int, x: int)
    requires m >= 0
    ensures x >= 1 ==> m * x >= m
    ensures x <= -1 ==> m * x <= -m
  {}

  lemma ModUnique(v: int, m: nat, a: int, b: int)
    requires m >= 1 && v == m * a + b && 0 <= b < m
    ensures v % m == b
  {
    var q, r := v / m, v % m;
    assert v == m * q + r;
    assert m * (q - a) == m * q - m * a;
    MulAtLeast(m, q - a);
  }

  lemma ModOfProduct(v: int, p: nat)
    requires p >= 1
    ensures v % (256 * p) == v % 256 + 256 * ((v / 256) % p)
  {
    var q, r := v / 256, v % 256;
    var a, b := q / p, q % p;
    assert v == 256 * q + r;
    assert q == p * a + b;
    assert 256 * (p * a) == (256 * p) * a;
    ModUnique(v, 256 * p, a, 256 * b + r);
  }

  lemma {:induction false} UnsignedOfLittleEndian(v: int, n: nat)
    ensures Unsigned(LittleEndian(v, n)) == v % Pow256(n)
    decreases n
  {
    if n > 0 {
      UnsignedOfLittleEndian(v / 256, n - 1);
      ModOfProduct(v, Pow256(n - 1));
    }
  }

  /** `n` bytes hold exactly the numbers of this range. */
  predicate Fits(v: int, n: nat) {
    var p: int := Pow256(n);
    -p <= 2 * v < p
  }

  /** Encoding then decoding gives back the one number of the range equal to `v` modulo 256^n. */
  lemma SignedRoundTrip(v: int, n: nat)
    requires n > 0
    ensures var s := Signed(LittleEndian(v, n)); Fits(s, n) && s % Pow256(n) == v % Pow256(n)
    ensures Fits(v, n) ==> Signed(LittleEndian(v, n)) == v
  {
    UnsignedOfLittleEndian(v, n);
    SignedOfMod(v, Pow256(n));
  }

  lemma SignedOfMod(v: int, p: nat)
    requires p >= 1
    ensures var u := v % p; var s := if 2 * u >= p then u - p else u;
      s % p == u && (-(p as int) <= 2 * v < p ==> s == v)
  {
    var u := v % p;
    ModUnique(u, p, 0, u);
    ModUnique(u - p, p, -1, u);
    if -(p as int) <= 2 * v < p {
      if v >= 0 { ModUnique(v, p, 0, v); } else { ModUnique(v, p, -1, v + p); }
    }
  }

  lemma {:induction false} UnsignedBound(bs: seq<Byte>)
    ensures Unsigned(bs) < Pow256(|bs|)
  {
    if bs != [] {
      UnsignedBound(bs[1..]);
    }
  }

  /** Memory from a base address on; what lies past the modelled bytes reads as zero. */
  type Memory = seq<Byte>

  function From(mem: Memory, offset: nat): Memory {
    if offset <= |mem| then mem[offset..] else []
  }

  function Take(mem: Memory, n: nat): (bs: seq<Byte>)
    ensures |bs| == n
    ensures n <= |mem| ==> bs == mem[..n]
  {
    if n <= |mem| then mem[..n] else mem + seq(n - |mem|, _ => 0)
  }

  function UpToNul(bs: seq<Byte>): (text: seq<Byte>)
    ensures text <= bs && 0 !in text
    ensures |text| < |bs| ==> bs[|text|] == 0
  {
    if bs == [] || bs[0] == 0 then [] else [bs[0]] + UpToNul(bs[1..])
  }

  lemma {:induction false} UpToNulStops(text: seq<Byte>, tail: seq<Byte>)
    requires 0 !in text
    requires tail == [] || tail[0] == 0
    ensures UpToNul(text + tail) == text
  {
    if text == [] {
      assert text + tail == tail;
    } else {
      assert (text + tail)[1..] == text[1..] + tail;
      UpToNulStops(text[1..], tail);
    }
  }
}
