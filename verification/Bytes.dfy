/** Bytes, machine words and the concatenation of a sequence of legs. */
module Bytes {

  type byte = x: int | 0 <= x < 256

  const U32 := 0x1_0000_0000
  const U64 := 0x1_0000_0000_0000_0000

  /** The payload capacity of a leg, `kfootsize`. */
  const KFOOTSIZE := 2048 * 1024

  /** The largest single read the program asks for. */
  const MAXBSIZE := 16384

  function Min(a: int, b: int): (m: int)
    ensures m <= a && m <= b && (m == a || m == b)
  {
    if a < b then a else b
  }

  /** A quotient is known by its remainder. */
  lemma {:induction false} Quotient(x: nat, d: nat, q: nat, r: nat)
    requires r < d && x == d * q + r
    ensures x / d == q && x % d == r
  {
    var p, t := x / d, x % d;
    assert x == d * p + t;
    if p < q {
      ProductGap(d, p, q);
    } else if q < p {
      ProductGap(d, q, p);
    }
  }

  lemma {:induction false} ProductGap(d: nat, small: nat, large: nat)
    requires small < large
    ensures d * large >= d * small + d
  {
    var gap := large - small - 1;
    assert d * large == d * small + d * gap + d;
    assert d * gap >= 0;
  }

  function Zeros(n: nat): (z: seq<byte>)
    ensures |z| == n && forall i :: 0 <= i < n ==> z[i] == 0
  {
    seq(n, _ => 0)
  }

  /** All legs one after another. */
  function Flatten(legs: seq<seq<byte>>): seq<byte> {
    if legs == [] then [] else Flatten(legs[..|legs| - 1]) + legs[|legs| - 1]
  }

  lemma {:induction false} FlattenSnoc(legs: seq<seq<byte>>, leg: seq<byte>)
    ensures Flatten(legs + [leg]) == Flatten(legs) + leg
  {
    assert (legs + [leg])[..|legs|] == legs;
  }

  lemma {:induction false} FlattenTake(legs: seq<seq<byte>>, k: nat)
    requires k < |legs|
    ensures Flatten(legs[..k + 1]) == Flatten(legs[..k]) + legs[k]
  {
    assert legs[..k + 1] == legs[..k] + [legs[k]];
    FlattenSnoc(legs[..k], legs[k]);
  }

  /** What has been delivered up to some leg is a prefix of what all legs hold. */
  lemma {:induction false} FlattenPrefix(legs: seq<seq<byte>>, k: nat)
    requires k <= |legs|
    ensures Flatten(legs[..k]) <= Flatten(legs)
    decreases |legs| - k
  {
    if k < |legs| {
      FlattenTake(legs, k);
      FlattenPrefix(legs, k + 1);
    } else {
      assert legs[..k] == legs;
    }
  }

  lemma {:induction false} FlattenConcat(a: seq<seq<byte>>, b: seq<seq<byte>>)
    ensures Flatten(a + b) == Flatten(a) + Flatten(b)
  {
    if b == [] {
      assert a + b == a;
    } else {
      var front, last := b[..|b| - 1], b[|b| - 1];
      assert a + b == (a + front) + [last];
      FlattenSnoc(a + front, last);
      FlattenConcat(a, front);
    }
  }

  lemma {:induction false} FlattenCons(leg: seq<byte>, rest: seq<seq<byte>>)
    ensures Flatten([leg] + rest) == leg + Flatten(rest)
  {
    FlattenConcat([leg], rest);
    FlattenSnoc([], leg);
    assert [] + [leg] == [leg];
  }

  lemma {:induction false} FlattenDrop(legs: seq<seq<byte>>, k: nat)
    requires k < |legs|
    ensures Flatten(legs[k..]) == legs[k] + Flatten(legs[k + 1..])
  {
    assert legs[k..] == [legs[k]] + legs[k + 1..];
    FlattenCons(legs[k], legs[k + 1..]);
  }

  /** 256 to the power n. */
  function Pow256(n: nat): (p: nat)
    ensures p >= 1
  {
    if n == 0 then 1 else 256 * Pow256(n - 1)
  }

  /** The value of bytes stored least significant first. */
  function LittleEndian(bytes: seq<byte>): (v: nat)
  {
    if bytes == [] then 0 else bytes[0] + 256 * LittleEndian(bytes[1..])
  }

  /** The low n bytes of v, least significant first. */
  function ToLittleEndian(v: nat, n: nat): (bytes: seq<byte>)
    ensures |bytes| == n
  {
    if n == 0 then [] else [v % 256] + ToLittleEndian(v / 256, n - 1)
  }

  /** Dividing by 256 and then by p. */
  lemma {:induction false} DivideTwice(x: nat, p: nat)
    requires p >= 1
    ensures x / (256 * p) == x / 256 / p
  {
    var y, q := x / 256, x / 256 / p;
    assert x == 256 * y + x % 256;
    assert y == p * q + y % p;
    assert 256 * y == 256 * p * q + 256 * (y % p);
    Quotient(x, 256 * p, q, 256 * (y % p) + x % 256);
  }

  /** Byte i is the digit of weight 256^i. */
  lemma {:induction false} LittleEndianDigit(bytes: seq<byte>, i: nat)
    requires i < |bytes|
    ensures LittleEndian(bytes) / Pow256(i) % 256 == bytes[i]
  {
    var v, rest := LittleEndian(bytes), LittleEndian(bytes[1..]);
    assert v / 256 == rest && v % 256 == bytes[0];
    if i > 0 {
      LittleEndianDigit(bytes[1..], i - 1);
      DivideTwice(v, Pow256(i - 1));
    }
  }

  lemma {:induction false} ToLittleEndianDigit(v: nat, n: nat, i: nat)
    requires i < n
    ensures ToLittleEndian(v, n)[i] == v / Pow256(i) % 256
  {
    if i > 0 {
      ToLittleEndianDigit(v / 256, n - 1, i - 1);
      DivideTwice(v, Pow256(i - 1));
    }
  }

  /** Four bytes, least significant first. */
  lemma {:induction false} LittleEndianOfFour(bytes: seq<byte>)
    requires |bytes| == 4
    ensures LittleEndian(bytes) ==
            bytes[0] as int + 0x100 * (bytes[1] as int) + 0x1_0000 * (bytes[2] as int) + 0x100_0000 * (bytes[3] as int)
  {
    assert LittleEndian(bytes) == bytes[0] + 0x100 * LittleEndian(bytes[1..]);
    assert LittleEndian(bytes[1..]) == bytes[1] + 0x100 * LittleEndian(bytes[2..]) by {
      assert bytes[1..][1..] == bytes[2..];
    }
    assert LittleEndian(bytes[2..]) == bytes[2] + 0x100 * LittleEndian(bytes[3..]) by {
      assert bytes[2..][1..] == bytes[3..];
    }
    assert LittleEndian(bytes[3..]) == bytes[3];
  }

  lemma {:induction false} LittleEndianRoundTrip(v: nat, n: nat)
    requires v < Pow256(n)
    ensures LittleEndian(ToLittleEndian(v, n)) == v
  {
    if n > 0 {
      LittleEndianRoundTrip(v / 256, n - 1);
      assert ToLittleEndian(v, n)[1..] == ToLittleEndian(v / 256, n - 1);
    }
  }

  lemma {:induction false} LittleEndianBound(bytes: seq<byte>)
    ensures LittleEndian(bytes) < Pow256(|bytes|)
  {
    if bytes != [] {
      LittleEndianBound(bytes[1..]);
    }
  }

  lemma {:induction false} LittleEndianInverse(bytes: seq<byte>)
    ensures ToLittleEndian(LittleEndian(bytes), |bytes|) == bytes
  {
    if bytes != [] {
      LittleEndianInverse(bytes[1..]);
      assert LittleEndian(bytes) % 256 == bytes[0];
      assert LittleEndian(bytes) / 256 == LittleEndian(bytes[1..]);
      assert bytes == [bytes[0]] + bytes[1..];
    }
  }

  lemma {:induction false} LittleEndianConcat(a: seq<byte>, b: seq<byte>)
    ensures LittleEndian(a + b) == LittleEndian(a) + Pow256(|a|) * LittleEndian(b)
  {
    if a == [] {
      assert a + b == b;
    } else {
      LittleEndianConcat(a[1..], b);
      assert (a + b)[1..] == a[1..] + b;
      assert 256 * (Pow256(|a| - 1) * LittleEndian(b)) == Pow256(|a|) * LittleEndian(b);
    }
  }

  lemma {:induction false} Pow256Of8()
    ensures Pow256(8) == U64 && Pow256(4) == U32
  {
    assert Pow256(2) == 65536;
    assert Pow256(4) == 65536 * 65536;
    assert Pow256(6) == 65536 * 65536 * 65536;
  }
}
