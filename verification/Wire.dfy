/**
 Integers on the wire (source/util/serializer.h): network byte order, obtained on a little-endian
 host through htons, htonl and the serializer's own htonll and ntohll.
 */
module Wire {
  import opened RaftTypes

  // ---- integers --------------------------------------------------------------------------

  function Bound(n: nat): (b: nat)
    ensures b > 0
  {
    if n == 0 then 1 else 256 * Bound(n - 1)
  }

  /** The n low bytes of v, most significant first: network order. */
  function BigEndian(v: nat, n: nat): (b: seq<Byte>)
    ensures |b| == n
  {
    if n == 0 then [] else BigEndian(v / 256, n - 1) + [v % 256]
  }

  function FromBigEndian(b: seq<Byte>): (v: nat)
    ensures v < Bound(|b|)
  {
    if b == [] then 0 else FromBigEndian(b[..|b| - 1]) * 256 + b[|b| - 1]
  }

  lemma {:induction false} BigEndianRoundTrip(v: nat, n: nat)
    requires v < Bound(n)
    ensures FromBigEndian(BigEndian(v, n)) == v
  {
    if n > 0 {
      BigEndianRoundTrip(v / 256, n - 1);
      assert BigEndian(v, n)[..n - 1] == BigEndian(v / 256, n - 1);
    }
  }

  const TWO32: nat := 0x1_0000_0000

  lemma Digits(v: nat)
    ensures v / 256 / 256 / 256 / 256 == v / TWO32
    ensures var lo := v % TWO32;
      && lo % 256 == v % 256 && lo / 256 % 256 == v / 256 % 256
      && lo / 256 / 256 % 256 == v / 256 / 256 % 256
      && lo / 256 / 256 / 256 % 256 == v / 256 / 256 / 256 % 256
  {
  }

  /** The low four bytes apart from the rest. */
  lemma BigEndianSplit(v: nat, m: nat)
    ensures BigEndian(v, m + 4) == BigEndian(v / TWO32, m) + BigEndian(v % TWO32, 4)
  {
    Digits(v);
    var v1, v2, v3 := v / 256, v / 256 / 256, v / 256 / 256 / 256;
    assert BigEndian(v, m + 4) == BigEndian(v1, m + 3) + [v % 256];
    assert BigEndian(v1, m + 3) == BigEndian(v2, m + 2) + [v1 % 256];
    assert BigEndian(v2, m + 2) == BigEndian(v3, m + 1) + [v2 % 256];
    assert BigEndian(v3, m + 1) == BigEndian(v / TWO32, m) + [v3 % 256];
    var w := v % TWO32;
    var w1, w2, w3 := w / 256, w / 256 / 256, w / 256 / 256 / 256;
    assert BigEndian(w, 4) == BigEndian(w1, 3) + [w % 256];
    assert BigEndian(w1, 3) == BigEndian(w2, 2) + [w1 % 256];
    assert BigEndian(w2, 2) == BigEndian(w3, 1) + [w2 % 256];
    assert BigEndian(w3, 1) == [w3 % 256];
  }

  // ---- the byte order of the host --------------------------------------------------------

  /** Memory image of an n-byte integer on the little-endian host. */
  function Memory(v: nat, n: nat): (b: seq<Byte>)
    ensures |b| == n
  {
    if n == 0 then [] else [v % 256] + Memory(v / 256, n - 1)
  }

  function FromMemory(b: seq<Byte>): (v: nat)
    ensures v < Bound(|b|)
  {
    if b == [] then 0 else b[0] + 256 * FromMemory(b[1..])
  }

  lemma {:induction false} MemoryRoundTrip(b: seq<Byte>)
    ensures Memory(FromMemory(b), |b|) == b
  {
    if b != [] {
      MemoryRoundTrip(b[1..]);
      assert FromMemory(b) % 256 == b[0] && FromMemory(b) / 256 == FromMemory(b[1..]);
    }
  }

  lemma {:induction false} FromMemoryRoundTrip(v: nat, n: nat)
    requires v < Bound(n)
    ensures FromMemory(Memory(v, n)) == v
  {
    if n > 0 {
      FromMemoryRoundTrip(v / 256, n - 1);
      assert Memory(v, n)[1..] == Memory(v / 256, n - 1);
    }
  }

  lemma MemorySplit(v: nat, n: nat)
    ensures Memory(v, 4 + n) == Memory(v % TWO32, 4) + Memory(v / TWO32, n)
  {
    Digits(v);
    var v1, v2, v3 := v / 256, v / 256 / 256, v / 256 / 256 / 256;
    assert Memory(v, 4 + n) == [v % 256] + Memory(v1, 3 + n);
    assert Memory(v1, 3 + n) == [v1 % 256] + Memory(v2, 2 + n);
    assert Memory(v2, 2 + n) == [v2 % 256] + Memory(v3, 1 + n);
    assert Memory(v3, 1 + n) == [v3 % 256] + Memory(v / TWO32, n);
    var w := v % TWO32;
    var w1, w2, w3 := w / 256, w / 256 / 256, w / 256 / 256 / 256;
    assert Memory(w, 4) == [w % 256] + Memory(w1, 3);
    assert Memory(w1, 3) == [w1 % 256] + Memory(w2, 2);
    assert Memory(w2, 2) == [w2 % 256] + Memory(w3, 1);
    assert Memory(w3, 1) == [w3 % 256];
  }

  /** htonl and htons on a little-endian host: the bytes in the opposite order. */
  function Swap(v: nat, n: nat): (r: nat)
    ensures r < Bound(n)
  {
    FromMemory(BigEndian(v, n))
  }

  lemma Bound4()
    ensures Bound(4) == TWO32 && Bound(8) == TWO32 * TWO32 && Bound(2) == 0x1_0000
  {
    assert Bound(1) == 256;
    assert Bound(2) == 0x1_0000;
    assert Bound(3) == 0x100_0000;
    assert Bound(4) == TWO32;
    assert Bound(5) == 256 * TWO32;
    assert Bound(6) == 0x1_0000 * TWO32;
    assert Bound(7) == 0x100_0000 * TWO32;
  }

  /** (htonl(value & 0xFFFFFFFF) << 32) | htonl(value >> 32); the two halves do not overlap. */
  function Htonll(v: nat): nat {
    Swap(v % TWO32, 4) * TWO32 + Swap(v / TWO32, 4)
  }

  /** The memory image of htonll(v) is v in network order. */
  lemma HtonllIsNetworkOrder(v: nat)
    requires v < Bound(8)
    ensures Htonll(v) < Bound(8)
    ensures Memory(Htonll(v), 8) == BigEndian(v, 8)
  {
    Bound4();
    var hi, lo := v / TWO32, v % TWO32;
    var a, b := Swap(lo, 4), Swap(hi, 4);
    MemorySplit(Htonll(v), 4);
    assert Htonll(v) / TWO32 == a && Htonll(v) % TWO32 == b;
    MemoryRoundTrip(BigEndian(lo, 4));
    MemoryRoundTrip(BigEndian(hi, 4));
    BigEndianSplit(v, 4);
  }

  lemma SwapIsNetworkOrder(v: nat, n: nat)
    requires v < Bound(n)
    ensures Memory(Swap(v, n), n) == BigEndian(v, n)
  {
    MemoryRoundTrip(BigEndian(v, n));
  }

  /** ntohll, the same expression, turns a memory image of network order back into the number. */
  lemma NtohllReads(b: seq<Byte>)
    requires |b| == 8
    ensures Htonll(FromMemory(b)) == FromBigEndian(b)
  {
    Bound4();
    var v := FromBigEndian(b);
    BigEndianOfFrom(b);
    HtonllIsNetworkOrder(v);
    var w := Htonll(v);
    FromMemoryRoundTrip(w, 8);
    assert FromMemory(b) == w;
    HtonllInvolution(v);
  }

  lemma HtonllInvolution(v: nat)
    requires v < Bound(8)
    ensures Htonll(Htonll(v)) == v
  {
    Bound4();
    var hi, lo := v / TWO32, v % TWO32;
    var a, b := Swap(lo, 4), Swap(hi, 4);
    assert Htonll(v) / TWO32 == a && Htonll(v) % TWO32 == b;
    SwapInvolution(lo, 4);
    SwapInvolution(hi, 4);
  }

  lemma {:induction false} SwapReads(b: seq<Byte>)
    ensures Swap(FromMemory(b), |b|) == FromBigEndian(b)
  {
    var v := FromBigEndian(b);
    BigEndianOfFrom(b);
    SwapInvolution(v, |b|);
  }

  lemma {:induction false} BigEndianOfFrom(b: seq<Byte>)
    ensures BigEndian(FromBigEndian(b), |b|) == b
  {
    if b != [] {
      BigEndianOfFrom(b[..|b| - 1]);
      assert FromBigEndian(b) / 256 == FromBigEndian(b[..|b| - 1]) && FromBigEndian(b) % 256 == b[|b| - 1];
    }
  }

  function Reversed(b: seq<Byte>): (r: seq<Byte>)
    ensures |r| == |b| && forall i :: 0 <= i < |b| ==> r[i] == b[|b| - 1 - i]
  {
    if b == [] then [] else Reversed(b[1..]) + [b[0]]
  }

  lemma {:induction false} MemoryIsReversed(v: nat, n: nat)
    ensures Memory(v, n) == Reversed(BigEndian(v, n))
  {
    if n > 0 {
      MemoryIsReversed(v / 256, n - 1);
      var b := BigEndian(v, n);
      assert forall i :: 0 <= i < n ==> Memory(v, n)[i] == b[n - 1 - i];
    }
  }

  lemma SwapInvolution(v: nat, n: nat)
    requires v < Bound(n)
    ensures Swap(Swap(v, n), n) == v
  {
    var w := Swap(v, n);
    MemoryRoundTrip(BigEndian(v, n));
    MemoryIsReversed(w, n);
    MemoryIsReversed(v, n);
    assert BigEndian(w, n) == Reversed(Memory(w, n));
    assert BigEndian(w, n) == Memory(v, n);
    FromMemoryRoundTrip(v, n);
  }
}
