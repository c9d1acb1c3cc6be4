/**
 * Shared byte-level vocabulary: bytes, optional values, and the
 * little-endian integer encodings every SlipStream message uses.
 */
module Bytes {
  /** A wire byte. */
  newtype byte = x: int | 0 <= x < 256

  function Pow2(k: nat): (r: nat)
    ensures r >= 1
  {
    if k == 0 then 1 else 2 * Pow2(k - 1)
  }

  /** Bitwise exclusive or of the low k bits of a and b, lowest bit first. */
  function XorBits(a: nat, b: nat, k: nat): nat
  {
    if k == 0 then 0 else XorBit(a % 2, b % 2) + 2 * XorBits(a / 2, b / 2, k - 1)
  }

  function XorBit(x: nat, y: nat): nat
  {
    if x == y then 0 else 1
  }

  /** Bitwise exclusive or of two bytes (the `^` of `parity[j] ^= src[j]`). */
  function Xor(a: byte, b: byte): byte
  {
    XorBitsBound(a as nat, b as nat, 8);
    assert Pow2(8) == 256;
    XorBits(a as nat, b as nat, 8) as byte
  }

  lemma {:induction false} XorBitsBound(a: nat, b: nat, k: nat)
    ensures XorBits(a, b, k) < Pow2(k)
  {
    if k > 0 {
      XorBitsBound(a / 2, b / 2, k - 1);
    }
  }

  /** A low bit and the higher bits are recovered by `% 2` and `/ 2`. */
  lemma Digits(bit: nat, rest: nat)
    requires bit < 2
    ensures (bit + 2 * rest) % 2 == bit && (bit + 2 * rest) / 2 == rest
  {
  }

  lemma {:induction false} XorBitsAssoc(a: nat, b: nat, c: nat, k: nat)
    ensures XorBits(XorBits(a, b, k), c, k) == XorBits(a, XorBits(b, c, k), k)
  {
    if k > 0 {
      Digits(XorBit(a % 2, b % 2), XorBits(a / 2, b / 2, k - 1));
      Digits(XorBit(b % 2, c % 2), XorBits(b / 2, c / 2, k - 1));
      XorBitsAssoc(a / 2, b / 2, c / 2, k - 1);
    }
  }

  lemma {:induction false} XorBitsComm(a: nat, b: nat, k: nat)
    ensures XorBits(a, b, k) == XorBits(b, a, k)
  {
    if k > 0 {
      XorBitsComm(a / 2, b / 2, k - 1);
    }
  }

  lemma {:induction false} XorBitsUnits(a: nat, k: nat)
    ensures XorBits(a, a, k) == 0
    ensures a < Pow2(k) ==> XorBits(a, 0, k) == a
  {
    if k > 0 {
      XorBitsUnits(a / 2, k - 1);
    }
  }

  lemma XorAssoc(a: byte, b: byte, c: byte)
    ensures Xor(Xor(a, b), c) == Xor(a, Xor(b, c))
  {
    XorBitsAssoc(a as nat, b as nat, c as nat, 8);
  }

  lemma XorComm(a: byte, b: byte)
    ensures Xor(a, b) == Xor(b, a)
  {
    XorBitsComm(a as nat, b as nat, 8);
  }

  /** XOR with zero is the identity and every byte cancels itself. */
  lemma XorUnits(a: byte)
    ensures Xor(a, 0) == a && Xor(0, a) == a && Xor(a, a) == 0
  {
    assert Pow2(8) == 256;
    XorBitsUnits(a as nat, 8);
    XorBitsComm(a as nat, 0, 8);
  }

  datatype Option<T> = None | Some(value: T)

  function Min(a: int, b: int): int { if a <= b then a else b }
  function Max(a: int, b: int): int { if a >= b then a else b }

  /** 256^n, the number of values an n-byte field can carry. */
  function Pow256(n: nat): (r: nat)
    ensures r >= 1
  {
    if n == 0 then 1 else 256 * Pow256(n - 1)
  }

  const TWO16: nat := 0x1_0000
  const TWO32: nat := 0x1_0000_0000
  const TWO64: nat := 0x1_0000_0000_0000_0000

  lemma {:induction false} Pow256Values()
    ensures Pow256(1) == 256 && Pow256(2) == TWO16 && Pow256(4) == TWO32 && Pow256(8) == TWO64
  {
    assert Pow256(1) == 256 * Pow256(0);
    assert Pow256(2) == 256 * Pow256(1);
    assert Pow256(3) == 256 * Pow256(2);
    assert Pow256(4) == 256 * Pow256(3);
    assert Pow256(5) == 256 * Pow256(4);
    assert Pow256(6) == 256 * Pow256(5);
    assert Pow256(7) == 256 * Pow256(6);
    assert Pow256(8) == 256 * Pow256(7);
  }

  /**
   * The n-byte little-endian encoding of x (a `WritePod`/`DataView.setUintN(.., true)`);
   * bits beyond the n bytes are dropped, as a store into an n-byte field drops them.
   */
  function LE(x: nat, n: nat): (r: seq<byte>)
    ensures |r| == n
  {
    if n == 0 then [] else [(x % 256) as byte] + LE(x / 256, n - 1)
  }

  /** The little-endian value of a byte string (a `ReadPod`/`DataView.getUintN(.., true)`). */
  function ReadLE(s: seq<byte>): (r: nat)
    ensures r < Pow256(|s|)
  {
    if |s| == 0 then 0 else (s[0] as nat) + 256 * ReadLE(s[1..])
  }

  /** Reading back an encoding yields the encoded value. */
  lemma {:induction false} ReadLEOfLE(x: nat, n: nat)
    requires x < Pow256(n)
    ensures ReadLE(LE(x, n)) == x
  {
    if n > 0 {
      var q := x / 256;
      assert q < Pow256(n - 1) by { DivBound(x, Pow256(n - 1)); }
      ReadLEOfLE(q, n - 1);
      var e := LE(x, n);
      assert e[0] == (x % 256) as byte;
      ByteValue(x % 256);
      assert e[1..] == LE(q, n - 1);
      calc {
        ReadLE(e);
        e[0] as nat + 256 * ReadLE(e[1..]);
        x % 256 + 256 * q;
        x;
      }
    }
  }

  lemma ByteValue(v: nat)
    requires v < 256
    ensures (v as byte) as nat == v
  {
  }

  lemma DivBound(x: nat, p: nat)
    requires x < 256 * p
    ensures x / 256 < p
  {
  }

  /** Encoding a value read from n bytes reproduces those bytes. */
  lemma {:induction false} LEOfReadLE(s: seq<byte>)
    ensures LE(ReadLE(s), |s|) == s
  {
    if |s| > 0 {
      var v := ReadLE(s);
      var rest := ReadLE(s[1..]);
      assert v % 256 == s[0] as nat && v / 256 == rest;
      LEOfReadLE(s[1..]);
      assert LE(v, |s|) == [(v % 256) as byte] + LE(rest, |s| - 1);
      assert [s[0]] + s[1..] == s;
    }
  }

  /** The unsigned n-bit truncation of an integer, as a C++ `static_cast` to an unsigned type does. */
  function Wrap(x: int, n: nat): (r: nat)
    ensures r < Pow256(n)
    ensures 0 <= x < Pow256(n) ==> r == x
  {
    var p := Pow256(n);
    ModSmall(x, p);
    x % p
  }

  lemma ModSmall(x: int, p: int)
    requires p > 0
    ensures 0 <= x < p ==> x % p == x
  {
  }

  /** The low byte of an integer (`static_cast<uint8_t>`). */
  function U8(x: int): byte
  {
    (x % 256) as byte
  }

  /** Two's-complement interpretation of a 16-bit field (`DataView.getInt16`). */
  function ToInt16(u: nat): (r: int)
    requires u < TWO16
    ensures -32768 <= r < 32768
  {
    if u < 32768 then u else u - TWO16
  }

  /** Two's-complement 16-bit encoding of any integer (`DataView.setInt16`, which wraps). */
  function FromInt16(x: int): (r: nat)
    ensures r < TWO16
    ensures -32768 <= x < 32768 ==> ToInt16(r) == x
  {
    x % TWO16
  }

  /** Byte j of s, or 0 past its end (the zero padding of a shorter chunk). */
  function ByteAt(s: seq<byte>, j: nat): byte
  {
    if j < |s| then s[j] else 0
  }

  /** XOR of byte j of every string in `parts`, each zero-padded, folded in order. */
  function XorColumn(parts: seq<seq<byte>>, j: nat): byte
  {
    if |parts| == 0 then 0 else Xor(XorColumn(parts[..|parts| - 1], j), ByteAt(parts[|parts| - 1], j))
  }

  /** Taking one string out of a column XOR leaves the XOR of the rest with that string's byte. */
  lemma {:induction false} XorColumnRemove(parts: seq<seq<byte>>, m: nat, j: nat)
    requires m < |parts|
    ensures XorColumn(parts, j) == Xor(XorColumn(parts[..m] + parts[m + 1..], j), ByteAt(parts[m], j))
  {
    var n := |parts|;
    var rest := parts[..m] + parts[m + 1..];
    if m == n - 1 {
      assert rest == parts[..n - 1];
    } else {
      var init := parts[..n - 1];
      XorColumnRemove(init, m, j);
      assert init[m] == parts[m];
      assert init[..m] + init[m + 1..] == rest[..n - 2];
      assert rest[n - 2] == parts[n - 1];
      var x := XorColumn(rest[..n - 2], j);
      var bm := ByteAt(parts[m], j);
      var bl := ByteAt(parts[n - 1], j);
      calc {
        XorColumn(parts, j);
        Xor(Xor(x, bm), bl);
        { XorAssoc(x, bm, bl); XorComm(bm, bl); }
        Xor(x, Xor(bl, bm));
        { XorAssoc(x, bl, bm); }
        Xor(XorColumn(rest, j), bm);
      }
    }
  }

  /** A string put in front of the column XOR contributes its byte first. */
  lemma {:induction false} XorColumnCons(a: seq<byte>, ps: seq<seq<byte>>, j: nat)
    ensures XorColumn([a] + ps, j) == Xor(ByteAt(a, j), XorColumn(ps, j))
  {
    if |ps| == 0 {
      assert ([a] + ps)[..0] == [];
      XorUnits(ByteAt(a, j));
    } else {
      var init := ps[..|ps| - 1];
      var last := ps[|ps| - 1];
      XorColumnCons(a, init, j);
      assert ([a] + ps)[..|ps|] == [a] + init;
      XorAssoc(ByteAt(a, j), XorColumn(init, j), ByteAt(last, j));
    }
  }

  lemma XorColumnSnoc(parts: seq<seq<byte>>, c: seq<byte>, j: nat)
    ensures XorColumn(parts + [c], j) == Xor(XorColumn(parts, j), ByteAt(c, j))
  {
    assert (parts + [c])[..|parts|] == parts;
  }

  /** Strictly ascending. */
  predicate Increasing(s: seq<nat>)
  {
    forall i, j :: 0 <= i < j < |s| ==> s[i] < s[j]
  }

  /** Distinct elements: a strictly increasing sequence has as many elements as its set. */
  lemma {:induction false} IncreasingCard(s: seq<nat>)
    requires Increasing(s)
    ensures |Elems(s)| == |s|
  {
    if |s| > 0 {
      IncreasingCard(s[1..]);
      assert s[0] !in Elems(s[1..]);
    }
  }

  /** The set of elements of a sequence. */
  function Elems(s: seq<nat>): (r: set<nat>)
    ensures forall x :: x in r <==> x in s
  {
    if |s| == 0 then {} else {s[0]} + Elems(s[1..])
  }

  /** Length of the longest string, 0 for none. */
  function MaxLen(parts: seq<seq<byte>>): nat
  {
    if |parts| == 0 then 0 else Max(MaxLen(parts[..|parts| - 1]), |parts[|parts| - 1]|)
  }

  /** MaxLen is an upper bound on every length and is attained by some part. */
  lemma {:induction false} MaxLenFacts(parts: seq<seq<byte>>)
    ensures forall k :: 0 <= k < |parts| ==> |parts[k]| <= MaxLen(parts)
    ensures |parts| > 0 ==> exists k :: 0 <= k < |parts| && |parts[k]| == MaxLen(parts)
  {
    if |parts| > 0 {
      var init := parts[..|parts| - 1];
      MaxLenFacts(init);
      assert forall k :: 0 <= k < |init| ==> parts[k] == init[k];
      if |init| > 0 && MaxLen(init) >= |parts[|parts| - 1]| {
        var k :| 0 <= k < |init| && |init[k]| == MaxLen(init);
        assert |parts[k]| == MaxLen(parts);
      } else {
        assert |parts[|parts| - 1]| == MaxLen(parts);
      }
    }
  }

  lemma MaxLenSnoc(parts: seq<seq<byte>>, c: seq<byte>)
    ensures MaxLen(parts + [c]) == Max(MaxLen(parts), |c|)
  {
    assert (parts + [c])[..|parts|] == parts;
  }

  /** Concatenation of byte strings in order. */
  function Concat(parts: seq<seq<byte>>): (r: seq<byte>)
  {
    if |parts| == 0 then [] else Concat(parts[..|parts| - 1]) + parts[|parts| - 1]
  }

  // Linear stand-ins for products and quotients.

  /** i * d, the byte offset of the i-th block of d bytes (see `OffsetIsProduct`). */
  function Offset(i: nat, d: nat): nat
  {
    if i == 0 then 0 else Offset(i - 1, d) + d
  }

  lemma {:induction false} OffsetIsProduct(i: nat, d: nat)
    ensures Offset(i, d) == i * d
  {
    if i > 0 {
      OffsetIsProduct(i - 1, d);
    }
  }

  lemma {:induction false} OffsetMono(a: nat, b: nat, d: nat)
    requires a <= b
    ensures Offset(a, d) <= Offset(b, d)
  {
    if a < b {
      OffsetMono(a, b - 1, d);
    }
  }

  lemma DivUnique(a: nat, d: nat, q: nat)
    requires 0 < d && q * d <= a < q * d + d
    ensures a / d == q
  {
    var r := a / d;
    DivMod(a, d);
    assert (q + 1) * d == q * d + d;
    assert (r + 1) * d == r * d + d;
    MulCancel(r, q + 1, d);
    MulCancel(q, r + 1, d);
  }

  lemma DivMod(a: nat, d: nat)
    requires d > 0
    ensures a == (a / d) * d + a % d && 0 <= a % d < d
  {
  }

  lemma MulCancel(a: nat, b: nat, d: nat)
    requires a * d < b * d
    ensures a < b
  {
  }

}
