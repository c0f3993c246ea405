/** The pseudorandom test stream: generator, verifier and what the verifier tells apart. */
module Prbs {
  import opened Bytes

  /** The ECMA-182 constant. */
  const SALT := 0x42F0_E1EB_A9EA_3693

  /** Its inverse modulo 2^64, and the quotient of SALT * INVERSE by 2^64. */
  const INVERSE := 0x4C95_08C1_98E7_579B
  const QUOTIENT := 0x1406_7B8F_9B40_A1E8

  /** Bitwise exclusive or. */
  function Xor(a: nat, b: nat): nat
    decreases a + b
  {
    if a == 0 && b == 0 then 0 else (a + b) % 2 + 2 * Xor(a / 2, b / 2)
  }

  lemma {:induction false} XorCancels(a: nat, b: nat, mask: nat)
    ensures Xor(a, mask) == Xor(b, mask) <==> a == b
    decreases a + b + mask
  {
    if a + b + mask > 0 {
      XorCancels(a / 2, b / 2, mask / 2);
      CombineHalves(a, b, mask, Xor(a / 2, mask / 2), Xor(b / 2, mask / 2));
    }
  }

  lemma {:induction false} CombineHalves(a: nat, b: nat, mask: nat, x: nat, y: nat)
    requires x == y <==> a / 2 == b / 2
    ensures (a + mask) % 2 + 2 * x == (b + mask) % 2 + 2 * y <==> a == b
  {
  }

  lemma {:induction false} XorCommutes(a: nat, b: nat)
    ensures Xor(a, b) == Xor(b, a)
    decreases a + b
  {
    if a + b > 0 {
      XorCommutes(a / 2, b / 2);
    }
  }

  lemma {:induction false} XorZero(a: nat)
    ensures Xor(a, 0) == a
  {
    if a > 0 {
      XorZero(a / 2);
    }
  }

  /** Applying the same mask twice undoes it. */
  lemma {:induction false} XorUndo(a: nat, b: nat)
    ensures Xor(Xor(a, b), a) == b
    decreases a + b
  {
    if a + b > 0 {
      var half := Xor(a / 2, b / 2);
      XorUndo(a / 2, b / 2);
      assert Xor(a, b) == (a + b) % 2 + 2 * half;
      UndoLowBit(a, b, half, Xor(half, a / 2));
    }
  }

  lemma {:induction false} UndoLowBit(a: nat, b: nat, half: nat, rest: nat)
    requires rest == b / 2
    ensures
      var x := (a + b) % 2 + 2 * half;
      x / 2 == half && (x + a) % 2 + 2 * rest == b
  {
  }

  /** Bit n of a number. */
  function Bit(x: nat, n: nat): nat {
    if n == 0 then x % 2 else Bit(x / 2, n - 1)
  }

  lemma {:induction false} BitIsDigit(x: nat, n: nat)
    ensures Bit(x, n) == x / Pow2(n) % 2
  {
    if n > 0 {
      BitIsDigit(x / 2, n - 1);
      HalveTwice(x, Pow2(n - 1));
    }
  }

  /** Bit n of the result is the sum modulo 2 of the bits n. */
  lemma {:induction false} XorBit(a: nat, b: nat, n: nat)
    ensures Bit(Xor(a, b), n) == (Bit(a, n) + Bit(b, n)) % 2
  {
    XorHalves(a, b);
    if n > 0 {
      XorBit(a / 2, b / 2, n - 1);
    }
  }

  lemma {:induction false} XorHalves(a: nat, b: nat)
    ensures Xor(a, b) / 2 == Xor(a / 2, b / 2)
    ensures Xor(a, b) % 2 == (a % 2 + b % 2) % 2
  {
    if a + b > 0 {
      LowBit(a, b, Xor(a / 2, b / 2));
    }
  }

  lemma {:induction false} LowBit(a: nat, b: nat, half: nat)
    ensures
      var x := (a + b) % 2 + 2 * half;
      x / 2 == half && x % 2 == (a % 2 + b % 2) % 2
  {
  }

  lemma {:induction false} HalveTwice(x: nat, p: nat)
    requires p >= 1
    ensures x / (2 * p) == x / 2 / p
  {
    var y, q := x / 2, x / 2 / p;
    assert x == 2 * y + x % 2;
    assert y == p * q + y % p;
    assert 2 * y == 2 * p * q + 2 * (y % p);
    Quotient(x, 2 * p, q, 2 * (y % p) + x % 2);
  }

  function Pow2(n: nat): (p: nat)
    ensures p >= 1
  {
    if n == 0 then 1 else 2 * Pow2(n - 1)
  }

  lemma {:induction false} XorBound(a: nat, b: nat, n: nat)
    requires a < Pow2(n) && b < Pow2(n)
    ensures Xor(a, b) < Pow2(n)
    decreases n
  {
    if n > 0 {
      XorBound(a / 2, b / 2, n - 1);
    }
  }

  lemma {:induction false} Pow2Of64()
    ensures Pow2(64) == U64
  {
    assert Pow2(8) == 256;
    assert Pow2(16) == 65536;
    assert Pow2(24) == 0x100_0000;
    assert Pow2(32) == 0x1_0000_0000;
    assert Pow2(40) == 0x100_0000_0000;
    assert Pow2(48) == 0x1_0000_0000_0000;
    assert Pow2(56) == 0x100_0000_0000_0000;
  }

  /** `prbs_sequence`: word i of the stream for a permutation. */
  function Word(permutation: nat, i: nat): nat {
    Xor(permutation, (SALT * i) % U64)
  }

  lemma {:induction false} WordFits(permutation: nat, i: nat)
    requires permutation < U64
    ensures Word(permutation, i) < U64
  {
    Pow2Of64();
    XorBound(permutation, (SALT * i) % U64, 64);
  }

  /** The permutation of a leg: seed plus leg id in 64-bit arithmetic. */
  function Permutation(seed: nat, leg: nat): (p: nat)
    ensures p < U64
  {
    (seed + leg) % U64
  }

  ghost predicate Verifies(words: seq<nat>, permutation: nat, n: nat)
    requires n <= |words|
  {
    forall i :: 0 <= i < n ==> words[i] == Word(permutation, i)
  }

  /** Under the mask of the permutation a word is the one before it plus the salt. */
  ghost predicate Follows(word: nat, next: nat, permutation: nat) {
    Xor(next, permutation) == (Xor(word, permutation) + 0x42F0_E1EB_A9EA_3693) % 0x1_0000_0000_0000_0000
  }

  /** What a pseudorandom leg is: it begins with the permutation itself, and each word
      follows from the one before it. */
  ghost predicate IsStream(words: seq<nat>, permutation: nat, n: nat)
    requires n <= |words|
  {
    && (n > 0 ==> words[0] == permutation)
    && forall i :: 0 <= i < n - 1 ==> Follows(words[i], words[i + 1], permutation)
  }

  /** Exactly the generated words are such a stream. */
  lemma {:induction false} VerifiesIffStream(words: seq<nat>, permutation: nat, n: nat)
    requires n <= |words|
    ensures Verifies(words, permutation, n) <==> IsStream(words, permutation, n)
  {
    if n == 1 {
      FirstIsPermutation(permutation);
    } else if n > 1 {
      VerifiesIffStream(words, permutation, n - 1);
      if words[n - 2] == Word(permutation, n - 2) {
        FollowsMeans(words[n - 1], permutation, n - 2);
      }
    }
  }

  lemma {:induction false} FirstIsPermutation(permutation: nat)
    ensures Word(permutation, 0) == permutation
  {
    assert Word(permutation, 0) == Xor(permutation, 0);
    XorZero(permutation);
  }

  lemma {:induction false} FollowsMeans(next: nat, permutation: nat, i: nat)
    ensures Follows(Word(permutation, i), next, permutation) <==> next == Word(permutation, i + 1)
  {
    NextWord(permutation, i + 1);
    UnmaskedWord(next, permutation, i + 1);
  }

  lemma {:induction false} NextWord(permutation: nat, i: nat)
    ensures Xor(Word(permutation, i), permutation) == (SALT * i) % U64
    ensures i > 0 ==> (SALT * i) % U64 == ((SALT * (i - 1)) % U64 + SALT) % U64
    ensures i > 0 ==> Xor(Word(permutation, i - 1), permutation) == (SALT * (i - 1)) % U64
  {
    XorUndo(permutation, (SALT * i) % U64);
    if i > 0 {
      XorUndo(permutation, (SALT * (i - 1)) % U64);
      assert SALT * i == SALT * (i - 1) + SALT;
      AddResidue(SALT * (i - 1), SALT);
    }
  }

  lemma {:induction false} AddResidue(a: nat, b: nat)
    ensures (a + b) % U64 == (a % U64 + b) % U64
  {
    SameResidue(a + b, a % U64 + b);
    assert a + b - (a % U64 + b) == U64 * (a / U64);
  }

  lemma {:induction false} UnmaskedWord(word: nat, permutation: nat, i: nat)
    ensures Xor(word, permutation) == (SALT * i) % U64 <==> word == Word(permutation, i)
  {
    XorCancels(word, Word(permutation, i), permutation);
    XorUndo(permutation, (SALT * i) % U64);
  }

  method PrbsGen(payload: array<nat>, permutation: nat, size: nat)
    requires size / 8 <= payload.Length
    modifies payload
    ensures Verifies(payload[..], permutation, size / 8)
    ensures IsStream(payload[..], permutation, size / 8)
    ensures payload[size / 8..] == old(payload[size / 8..])
  {
    var i := 0;
    while i < size / 8
      invariant i <= size / 8
      invariant forall j :: 0 <= j < i ==> payload[j] == Word(permutation, j)
      invariant payload[size / 8..] == old(payload[size / 8..])
    {
      payload[i] := Word(permutation, i);
      i := i + 1;
    }
    VerifiesIffStream(payload[..], permutation, size / 8);
  }

  method PrbsVerify(payload: array<nat>, permutation: nat, size: nat) returns (ok: bool)
    requires size / 8 <= payload.Length
    ensures ok <==> Verifies(payload[..], permutation, size / 8)
    ensures ok <==> IsStream(payload[..], permutation, size / 8)
  {
    VerifiesIffStream(payload[..], permutation, size / 8);
    var i := 0;
    while i < size / 8
      invariant i <= size / 8
      invariant forall j :: 0 <= j < i ==> payload[j] == Word(permutation, j)
    {
      if payload[i] != Word(permutation, i) {
        assert payload[..][i] != Word(permutation, i);
        return false;
      }
      i := i + 1;
    }
    ok := true;
  }

  /** Any stream of at least one word verifies only under the permutation it was made with. */
  lemma {:induction false} VerifiesOnlyItself(words: seq<nat>, p: nat, q: nat, n: nat)
    requires 1 <= n <= |words|
    requires Verifies(words, p, n)
    ensures Verifies(words, q, n) <==> p == q
  {
    if Verifies(words, q, n) {
      assert words[0] == Word(p, 0) == Word(q, 0);
      XorCancels(p, q, (SALT * 0) % U64);
    }
  }

  /** Generating for one leg and verifying against another succeeds exactly when
      their ids agree modulo 2^64. */
  method GenerateThenVerify(payload: array<nat>, seed: nat, made: nat, expected: nat, size: nat)
    returns (ok: bool)
    requires 8 <= size && size / 8 <= payload.Length
    modifies payload
    ensures ok <==> made % U64 == expected % U64
    ensures payload[0] == (seed + made) % U64
  {
    PrbsGen(payload, Permutation(seed, made), size);
    ok := PrbsVerify(payload, Permutation(seed, expected), size);
    VerifiesOnlyItself(payload[..], Permutation(seed, made), Permutation(seed, expected), size / 8);
    PermutationsAgree(seed, made, expected);
  }

  lemma {:induction false} PermutationsAgree(seed: nat, a: nat, b: nat)
    ensures Permutation(seed, a) == Permutation(seed, b) <==> a % U64 == b % U64
  {
    SameResidue(seed + a, seed + b);
    SameResidue(a, b);
  }

  lemma {:induction false} SameResidue(a: nat, b: nat)
    ensures a % U64 == b % U64 <==> (a - b) % U64 == 0
  {
    assert a - b == U64 * (a / U64 - b / U64) + (a % U64 - b % U64);
  }

  /** The salt is odd, so the words of a leg are pairwise distinct. */
  lemma {:induction false} WordsDistinct(permutation: nat, i: nat, j: nat)
    requires i < U64 && j < U64
    ensures Word(permutation, i) == Word(permutation, j) <==> i == j
  {
    var mi, mj := (SALT * i) % U64, (SALT * j) % U64;
    XorCommutes(permutation, mi);
    XorCommutes(permutation, mj);
    XorCancels(mi, mj, permutation);
    if mi == mj {
      SameResidue(SALT * i, SALT * j);
      var d := i - j;
      var q := (SALT * i - SALT * j) / U64;
      assert SALT * d == U64 * q;
      assert SALT * INVERSE == 1 + U64 * QUOTIENT;
      assert d == U64 * (INVERSE * q - QUOTIENT * d);
    }
  }

  /** The first n words of the stream as they lie in a buffer. */
  function PrbsBytes(permutation: nat, n: nat): (bytes: seq<byte>)
    ensures |bytes| == 8 * n
  {
    if n == 0 then []
    else PrbsBytes(permutation, n - 1) + ToLittleEndian(Word(permutation, n - 1), 8)
  }

  /** What `prbs_verify` checks of a byte buffer. */
  ghost predicate VerifiesBytes(buffer: seq<byte>, permutation: nat, n: nat)
    requires 8 * n <= |buffer|
  {
    forall i :: 0 <= i < n ==> LittleEndian(buffer[8 * i..8 * i + 8]) == Word(permutation, i)
  }

  lemma {:induction false} PrbsBytesVerify(permutation: nat, n: nat)
    requires permutation < U64
    ensures VerifiesBytes(PrbsBytes(permutation, n), permutation, n)
  {
    if n > 0 {
      PrbsBytesVerify(permutation, n - 1);
      var front, last := PrbsBytes(permutation, n - 1), ToLittleEndian(Word(permutation, n - 1), 8);
      WordFits(permutation, n - 1);
      Pow256Of8();
      LittleEndianRoundTrip(Word(permutation, n - 1), 8);
      forall i | 0 <= i < n
        ensures LittleEndian((front + last)[8 * i..8 * i + 8]) == Word(permutation, i)
      {
        if i < n - 1 {
          assert (front + last)[8 * i..8 * i + 8] == front[8 * i..8 * i + 8];
        } else {
          assert (front + last)[8 * i..8 * i + 8] == last;
        }
      }
    }
  }

  /** The stream starts with the bytes of the permutation. */
  lemma {:induction false} PrbsBytesStart(permutation: nat, n: nat)
    requires permutation < U64 && n >= 1
    ensures forall i :: 0 <= i < 8 ==> PrbsBytes(permutation, n)[i] == permutation / Pow256(i) % 256
  {
    PrbsBytesVerify(permutation, n);
    var first := PrbsBytes(permutation, n)[8 * 0..8 * 0 + 8];
    assert LittleEndian(first) == Word(permutation, 0);
    FirstIsPermutation(permutation);
    forall i | 0 <= i < 8
      ensures first[i] == permutation / Pow256(i) % 256
    {
      LittleEndianDigit(first, i);
    }
  }
}
