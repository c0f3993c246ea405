/** The leg checksum `mix` and the two chains of it: the one ingest computes in
    leg order and the one the sequencer recomputes in delivery order. */
module Checksum {
  import opened Bytes

  /** The first machine word of a buffer, which is all that `mix` looks at. */
  function FirstWord(buffer: seq<byte>): nat
    requires |buffer| >= 8
  {
    LittleEndian(buffer[..8])
  }

  /** Number of times the loop of `mix` runs: the cursor takes 0, 8, ... up to and including size. */
  function Rounds(size: nat): (k: nat)
    ensures k >= 1 && 8 * (k - 1) <= size < 8 * k
  {
    size / 8 + 1
  }

  /** What n rounds of `mix` add up to before truncation. */
  function Summands(word: nat, n: nat): nat {
    if n == 0 then 0 else Summands(word, n - 1) + word + 8 * (n - 1)
  }

  /** `mix`: the seed plus all summands, in 32-bit arithmetic. */
  function MixOf(seed: nat, word: nat, size: nat): (acc: nat)
    ensures acc < U32
  {
    (seed + Summands(word, Rounds(size))) % U32
  }

  /** Truncating the summands before a 32-bit addition does not change the sum. */
  lemma {:induction false} WrapAdd(a: nat, b: nat)
    ensures (a % U32 + b % U64) % U32 == (a + b) % U32
  {
    var qa, qb := a / U32, b / U64;
    assert a + b == (a % U32 + b % U64) + U32 * (qa + U32 * qb);
    ModShift(a % U32 + b % U64, qa + U32 * qb);
  }

  lemma {:induction false} ModShift(x: nat, q: nat)
    ensures (x + U32 * q) % U32 == x % U32
  {
  }

  /** `mix`: adds the first word plus the cursor once per round, in 32-bit arithmetic. */
  method Mix(seed: nat, data: array<byte>, size: nat) returns (acc: nat)
    requires seed < U32
    requires data.Length >= 8
    ensures acc == MixOf(seed, FirstWord(data[..]), size)
    ensures
      var k := size / 8 + 1;
      var word := data[0] as int + 0x100 * (data[1] as int) + 0x1_0000 * (data[2] as int) + 0x100_0000 * (data[3] as int);
      acc == (seed + k * word + 4 * k * (k - 1)) % U32
  {
    MixOfBytes(seed, data[..], size);
    assert data[..8] == data[..][..8];
    acc := seed;
    var cursor := 0;
    ghost var n := 0;
    while cursor <= size
      invariant cursor == 8 * n
      invariant n <= Rounds(size)
      invariant acc == (seed + Summands(LittleEndian(data[..8]), n)) % U32
    {
      WrapAdd(seed + Summands(LittleEndian(data[..8]), n), LittleEndian(data[..8]) + cursor);
      acc := (acc + (LittleEndian(data[..8]) + cursor) % U64) % U32;
      cursor := cursor + 8;
      n := n + 1;
    }
  }

  lemma {:induction false} SummandsClosedForm(word: nat, n: nat)
    ensures Summands(word, n) == n * word + 4 * n * (n - 1)
  {
    if n > 0 {
      SummandsClosedForm(word, n - 1);
      var m := n - 1;
      assert n * word == m * word + word;
      assert 4 * n * (n - 1) == 4 * (m * m) + 4 * m;
      assert 4 * m * (m - 1) == 4 * (m * m) - 4 * m;
    }
  }

  /** The checksum depends on the size and on the first word of the data alone. */
  lemma {:induction false} MixClosedForm(seed: nat, word: nat, size: nat)
    ensures
      var k := size / 8 + 1;
      MixOf(seed, word, size) == (seed + k * word + 4 * k * (k - 1)) % U32
  {
    SummandsClosedForm(word, Rounds(size));
  }

  /** With the data fixed, `mix` is injective in its 32-bit seed. */
  lemma {:induction false} MixSeed(seed1: nat, seed2: nat, word: nat, size: nat)
    ensures MixOf(seed1, word, size) == MixOf(seed2, word, size) <==> seed1 % U32 == seed2 % U32
  {
    var rest := Summands(word, Rounds(size));
    CongruentIffDifference(seed1 + rest, seed2 + rest);
    CongruentIffDifference(seed1, seed2);
  }

  lemma {:induction false} CongruentIffDifference(a: nat, b: nat)
    ensures a % U32 == b % U32 <==> (a - b) % U32 == 0
  {
    var qa, qb := a / U32, b / U32;
    assert a - b == U32 * (qa - qb) + (a % U32 - b % U32);
  }

  /** For full legs the number of rounds is odd, hence invertible, so under equal
      seeds two checksums agree exactly when the low 32 bits of the first words do. */
  lemma {:induction false} MixDiscriminatesFullLegs(seed: nat, word1: nat, word2: nat)
    ensures MixOf(seed, word1, KFOOTSIZE) == MixOf(seed, word2, KFOOTSIZE)
       <==> word1 % U32 == word2 % U32
  {
    var d := word1 - word2;
    var c := seed + 4 * 0x40001 * 0x40000;
    MixClosedForm(seed, word1, KFOOTSIZE);
    MixClosedForm(seed, word2, KFOOTSIZE);
    assert MixOf(seed, word1, KFOOTSIZE) == (c + 0x40001 * word1) % U32;
    assert MixOf(seed, word2, KFOOTSIZE) == (c + 0x40001 * word2) % U32;
    CongruentIffDifference(c + 0x40001 * word1, c + 0x40001 * word2);
    CongruentIffDifference(word1, word2);
    OddFactor(d);
  }

  /** 1 - 2^18 inverts 2^18 + 1 modulo 2^32. */
  lemma {:induction false} OddFactor(d: int)
    ensures (0x40001 * d) % U32 == 0 <==> d % U32 == 0
  {
    if (0x40001 * d) % U32 == 0 {
      var q := (0x40001 * d) / U32;
      assert d == U32 * ((1 - 0x40000) * q + 16 * d);
    }
    if d % U32 == 0 {
      assert 0x40001 * d == U32 * (0x40001 * (d / U32));
    }
  }

  /** The low 32 bits of the first word are the first four bytes. */
  lemma {:induction false} LowWord(buffer: seq<byte>)
    requires |buffer| >= 8
    ensures FirstWord(buffer) % U32 == LittleEndian(buffer[..4])
  {
    assert buffer[..8] == buffer[..4] + buffer[4..8];
    LittleEndianConcat(buffer[..4], buffer[4..8]);
    LittleEndianBound(buffer[..4]);
    Pow256Of8();
  }

  /** A whole word is added in every round, but only its low half survives in a 32-bit sum:
      of all the data `mix` sees no more than the first four bytes. */
  lemma {:induction false} MixReadsFour(seed: nat, buffer: seq<byte>, size: nat)
    requires |buffer| >= 8
    ensures MixOf(seed, FirstWord(buffer), size) == MixOf(seed, LittleEndian(buffer[..4]), size)
  {
    var word, low, n := FirstWord(buffer), LittleEndian(buffer[..4]), Rounds(size);
    LowWord(buffer);
    SummandsShift(low, word / U32, n);
    ModShift(seed + Summands(low, n), n * (word / U32));
  }

  lemma {:induction false} SummandsShift(low: nat, q: nat, n: nat)
    ensures Summands(low + U32 * q, n) == Summands(low, n) + U32 * (n * q)
  {
    if n > 0 {
      SummandsShift(low, q, n - 1);
      assert n * q == (n - 1) * q + q;
    }
  }

  /** `mix` in terms of the bytes it is given. */
  lemma {:induction false} MixOfBytes(seed: nat, buffer: seq<byte>, size: nat)
    requires |buffer| >= 8
    ensures
      var k := size / 8 + 1;
      var word := buffer[0] as int + 0x100 * (buffer[1] as int) + 0x1_0000 * (buffer[2] as int) + 0x100_0000 * (buffer[3] as int);
      MixOf(seed, FirstWord(buffer), size) == (seed + k * word + 4 * k * (k - 1)) % U32
  {
    MixReadsFour(seed, buffer, size);
    LittleEndianOfFour(buffer[..4]);
    MixClosedForm(seed, LittleEndian(buffer[..4]), size);
  }

  /** Below eight bytes there is one round, so under equal seeds the checksums of two
      buffers agree exactly when their first four bytes do. */
  lemma {:induction false} MixOfShort(seed: nat, head1: seq<byte>, head2: seq<byte>, size: nat)
    requires |head1| == |head2| == 4 && size < 8
    ensures MixOf(seed, LittleEndian(head1), size) == MixOf(seed, LittleEndian(head2), size) <==> head1 == head2
  {
    OneRound(seed, LittleEndian(head1), size);
    OneRound(seed, LittleEndian(head2), size);
    FourBytes(head1);
    FourBytes(head2);
    SameSum(seed, LittleEndian(head1), LittleEndian(head2));
  }

  lemma {:induction false} SameSum(seed: nat, word1: nat, word2: nat)
    requires word1 < U32 && word2 < U32
    ensures (seed + word1) % U32 == (seed + word2) % U32 <==> word1 == word2
  {
    CongruentIffDifference(seed + word1, seed + word2);
  }

  lemma {:induction false} OneRound(seed: nat, word: nat, size: nat)
    requires size < 8
    ensures MixOf(seed, word, size) == (seed + word) % U32
  {
    assert Rounds(size) == 1 && Summands(word, 1) == word;
  }

  lemma {:induction false} FourBytes(head: seq<byte>)
    requires |head| == 4
    ensures LittleEndian(head) < U32 && ToLittleEndian(LittleEndian(head), 4) == head
  {
    Pow256Of8();
    LittleEndianBound(head);
    LittleEndianInverse(head);
  }

  // ---------------------------------------------------------------- what a buffer starts with

  /** Payload of leg k; from |legs| on there is none. */
  function LegAt(legs: seq<seq<byte>>, k: nat): seq<byte> {
    if k < |legs| then legs[k] else []
  }

  /** The first four bytes of a buffer after a leg has been laid over it. */
  function Cover(head: seq<byte>, leg: seq<byte>): (h: seq<byte>)
    requires |head| == 4
    ensures |h| == 4
  {
    if |leg| >= 4 then leg[..4] else leg + head[|leg|..]
  }

  /** A leg read into the front of a buffer covers it. */
  lemma {:induction false} CoverOverwrites(buffer: seq<byte>, leg: seq<byte>)
    requires |buffer| >= 4 && |leg| <= |buffer|
    ensures (leg + buffer[|leg|..])[..4] == Cover(buffer[..4], leg)
  {
  }

  /** The first four bytes of a buffer of worker w that began with `base`, after it has held
      those of the legs before k that were given to w. Leg j is given to owner[j]. */
  ghost function Head(legs: seq<seq<byte>>, owner: seq<nat>, base: seq<byte>, w: nat, k: nat): (h: seq<byte>)
    requires |base| == 4 && k <= |owner|
    ensures |h| == 4
  {
    if k == 0 then base
    else
      var before := Head(legs, owner, base, w, k - 1);
      if owner[k - 1] == w then Cover(before, LegAt(legs, k - 1)) else before
  }

  /** The first k legs and their owners are the same. */
  ghost predicate SameStart(legs: seq<seq<byte>>, owner: seq<nat>, legs': seq<seq<byte>>, owner': seq<nat>, k: nat) {
    && k <= |owner| && k <= |owner'|
    && forall j :: 0 <= j < k ==> owner'[j] == owner[j] && LegAt(legs', j) == LegAt(legs, j)
  }

  /** Only the legs before k matter. */
  lemma {:induction false} HeadStable(
      legs: seq<seq<byte>>, owner: seq<nat>, legs': seq<seq<byte>>, owner': seq<nat>, base: seq<byte>, w: nat, k: nat)
    requires |base| == 4 && SameStart(legs, owner, legs', owner', k)
    ensures Head(legs', owner', base, w, k) == Head(legs, owner, base, w, k)
  {
    if k > 0 {
      HeadStable(legs, owner, legs', owner', base, w, k - 1);
    }
  }

  /** Legs of other workers do not matter. */
  lemma {:induction false} HeadGap(legs: seq<seq<byte>>, owner: seq<nat>, base: seq<byte>, w: nat, k: nat, m: nat)
    requires |base| == 4 && k <= m <= |owner|
    requires forall j :: k <= j < m ==> owner[j] != w
    ensures Head(legs, owner, base, w, m) == Head(legs, owner, base, w, k)
    decreases m
  {
    if k < m {
      HeadGap(legs, owner, base, w, k, m - 1);
    }
  }

  /** Some leg before k that was given to w reaches beyond byte i. */
  ghost predicate Covered(legs: seq<seq<byte>>, owner: seq<nat>, w: nat, k: nat, i: nat)
    requires k <= |owner|
  {
    exists j :: 0 <= j < k && owner[j] == w && |LegAt(legs, j)| > i
  }

  /** Two buffers that held the same legs agree on a byte exactly when a leg covered it or
      they agreed there from the start. */
  lemma {:induction false} HeadsAgree(
      legs: seq<seq<byte>>, owner: seq<nat>, base1: seq<byte>, base2: seq<byte>, w: nat, k: nat, i: nat)
    requires |base1| == |base2| == 4 && k <= |owner| && i < 4
    ensures Head(legs, owner, base1, w, k)[i] == Head(legs, owner, base2, w, k)[i]
       <==> Covered(legs, owner, w, k, i) || base1[i] == base2[i]
  {
    if k > 0 {
      HeadsAgree(legs, owner, base1, base2, w, k - 1, i);
      CoveredStep(legs, owner, w, k, i);
    }
  }

  lemma {:induction false} CoveredStep(legs: seq<seq<byte>>, owner: seq<nat>, w: nat, k: nat, i: nat)
    requires 0 < k <= |owner|
    ensures Covered(legs, owner, w, k, i)
       <==> Covered(legs, owner, w, k - 1, i) || (owner[k - 1] == w && |LegAt(legs, k - 1)| > i)
  {
    if j :| 0 <= j < k && owner[j] == w && |LegAt(legs, j)| > i {
      assert j < k - 1 || j == k - 1;
    }
    if owner[k - 1] == w && |LegAt(legs, k - 1)| > i {
      assert Covered(legs, owner, w, k, i);
    }
  }

  // ---------------------------------------------------------------- the two chains

  /** The checksum of leg k after the saved one, over a buffer that starts with `head`. */
  function HeadSum(saved: nat, k: nat, head: seq<byte>, leg: seq<byte>): (v: nat)
    ensures v < U32
  {
    MixOf(saved + k, LittleEndian(head), |leg|)
  }

  /** In terms of the bytes. */
  lemma {:induction false} HeadSumOfBytes(saved: nat, k: nat, head: seq<byte>, leg: seq<byte>)
    requires |head| == 4
    ensures
      var n := |leg| / 8 + 1;
      var word := head[0] as int + 0x100 * (head[1] as int) + 0x1_0000 * (head[2] as int) + 0x100_0000 * (head[3] as int);
      HeadSum(saved, k, head, leg) == (saved + k + n * word + 4 * n * (n - 1)) % U32
  {
    LittleEndianOfFour(head);
    MixClosedForm(saved + k, LittleEndian(head), |leg|);
  }

  /** `saved_checksum` of ingest just before leg k; the buffers of the sender began with `base`. */
  ghost function TxSaved(legs: seq<seq<byte>>, owner: seq<nat>, base: seq<byte>, k: nat): (v: nat)
    requires |base| == 4 && k <= |owner|
    ensures v < U32
    decreases k, 0
  {
    if k == 0 then 0xff else TxSum(legs, owner, base, k - 1)
  }

  /** The checksum ingest puts in the header of leg k. */
  ghost function TxSum(legs: seq<seq<byte>>, owner: seq<nat>, base: seq<byte>, k: nat): (v: nat)
    requires |base| == 4 && k < |owner|
    ensures v < U32
    decreases k, 1
  {
    HeadSum(TxSaved(legs, owner, base, k), k, Head(legs, owner, base, owner[k], k + 1), LegAt(legs, k))
  }

  /** `grx_saved_checksum` just before leg k: a zero checksum leaves it alone. */
  ghost function RxSaved(legs: seq<seq<byte>>, owner: seq<nat>, base: seq<byte>, k: nat): (v: nat)
    requires |base| == 4 && k <= |owner|
    ensures 0 < v < U32
  {
    if k == 0 then 0xff
    else if TxSum(legs, owner, base, k - 1) == 0 then RxSaved(legs, owner, base, k - 1)
    else TxSum(legs, owner, base, k - 1)
  }

  /** What the receiver computes for leg k; its buffers began with `phrase`. */
  ghost function Recomputed(legs: seq<seq<byte>>, owner: seq<nat>, base: seq<byte>, phrase: seq<byte>, k: nat): nat
    requires |base| == |phrase| == 4 && k < |owner|
  {
    HeadSum(RxSaved(legs, owner, base, k), k, Head(legs, owner, phrase, owner[k], k + 1), LegAt(legs, k))
  }

  /** The receiver's comparison for leg k succeeds, or is skipped because the header says 0. */
  ghost predicate Passes(legs: seq<seq<byte>>, owner: seq<nat>, base: seq<byte>, phrase: seq<byte>, k: nat)
    requires |base| == |phrase| == 4 && k < |owner|
  {
    TxSum(legs, owner, base, k) == 0 || Recomputed(legs, owner, base, phrase, k) == TxSum(legs, owner, base, k)
  }

  /** Later legs do not change the checksums of earlier ones. */
  lemma {:induction false} TxSumStable(
      legs: seq<seq<byte>>, owner: seq<nat>, legs': seq<seq<byte>>, owner': seq<nat>, base: seq<byte>, k: nat)
    requires |base| == 4 && SameStart(legs, owner, legs', owner', k + 1)
    ensures TxSum(legs', owner', base, k) == TxSum(legs, owner, base, k)
    decreases k, 1
  {
    StartShrinks(legs, owner, legs', owner', k);
    TxSavedStable(legs, owner, legs', owner', base, k);
    HeadStable(legs, owner, legs', owner', base, owner[k], k + 1);
  }

  lemma {:induction false} StartShrinks(
      legs: seq<seq<byte>>, owner: seq<nat>, legs': seq<seq<byte>>, owner': seq<nat>, k: nat)
    requires SameStart(legs, owner, legs', owner', k + 1)
    ensures SameStart(legs, owner, legs', owner', k)
    ensures owner'[k] == owner[k] && LegAt(legs', k) == LegAt(legs, k)
  {
  }

  lemma {:induction false} TxSavedStable(
      legs: seq<seq<byte>>, owner: seq<nat>, legs': seq<seq<byte>>, owner': seq<nat>, base: seq<byte>, k: nat)
    requires |base| == 4 && SameStart(legs, owner, legs', owner', k)
    ensures TxSaved(legs', owner', base, k) == TxSaved(legs, owner, base, k)
    decreases k, 0
  {
    if k > 0 {
      TxSumStable(legs, owner, legs', owner', base, k - 1);
    }
  }

  lemma {:induction false} RxSavedStable(
      legs: seq<seq<byte>>, owner: seq<nat>, legs': seq<seq<byte>>, owner': seq<nat>, base: seq<byte>, k: nat)
    requires |base| == 4 && SameStart(legs, owner, legs', owner', k)
    ensures RxSaved(legs', owner', base, k) == RxSaved(legs, owner, base, k)
  {
    if k > 0 {
      RxSavedStable(legs, owner, legs', owner', base, k - 1);
      TxSumStable(legs, owner, legs', owner', base, k - 1);
    }
  }

  lemma {:induction false} RecomputedStable(
      legs: seq<seq<byte>>, owner: seq<nat>, legs': seq<seq<byte>>, owner': seq<nat>,
      base: seq<byte>, phrase: seq<byte>, k: nat)
    requires |base| == |phrase| == 4 && SameStart(legs, owner, legs', owner', k + 1)
    ensures Recomputed(legs', owner', base, phrase, k) == Recomputed(legs, owner, base, phrase, k)
  {
    StartShrinks(legs, owner, legs', owner', k);
    RxSavedStable(legs, owner, legs', owner', base, k);
    HeadStable(legs, owner, legs', owner', phrase, owner[k], k + 1);
  }

  lemma {:induction false} PassesStable(
      legs: seq<seq<byte>>, owner: seq<nat>, legs': seq<seq<byte>>, owner': seq<nat>,
      base: seq<byte>, phrase: seq<byte>, k: nat)
    requires |base| == |phrase| == 4 && SameStart(legs, owner, legs', owner', k + 1)
    ensures Passes(legs', owner', base, phrase, k) <==> Passes(legs, owner, base, phrase, k)
  {
    RecomputedStable(legs, owner, legs', owner', base, phrase, k);
    TxSumStable(legs, owner, legs', owner', base, k);
  }

  // ---------------------------------------------------------------- when the chains agree

  /** The saved values part exactly after a leg whose checksum is 0. */
  lemma {:induction false} SavedAgree(legs: seq<seq<byte>>, owner: seq<nat>, base: seq<byte>, k: nat)
    requires |base| == 4 && k <= |owner|
    ensures RxSaved(legs, owner, base, k) == TxSaved(legs, owner, base, k)
       <==> (k == 0 || TxSum(legs, owner, base, k - 1) != 0)
  {
  }

  /** A leg of four bytes or more hides all that `mix` could see of the old buffer. */
  lemma {:induction false} LongLegHides(legs: seq<seq<byte>>, owner: seq<nat>, base: seq<byte>, k: nat)
    requires |base| == 4 && k < |owner| && |LegAt(legs, k)| >= 4
    ensures Head(legs, owner, base, owner[k], k + 1) == LegAt(legs, k)[..4]
  {
  }

  /** The comparison for a leg of four bytes or more, exactly: with a non-zero checksum it
      passes unless the checksum before it was 0. */
  lemma {:induction false} LongLegPasses(
      legs: seq<seq<byte>>, owner: seq<nat>, base: seq<byte>, phrase: seq<byte>, k: nat)
    requires |base| == |phrase| == 4 && k < |owner| && |LegAt(legs, k)| >= 4
    requires TxSum(legs, owner, base, k) != 0
    ensures Passes(legs, owner, base, phrase, k) <==> k == 0 || TxSum(legs, owner, base, k - 1) != 0
  {
    LongLegHides(legs, owner, base, k);
    LongLegHides(legs, owner, phrase, k);
    SeedDecides(RxSaved(legs, owner, base, k), TxSaved(legs, owner, base, k), k, LegAt(legs, k)[..4], LegAt(legs, k));
    SavedAgree(legs, owner, base, k);
  }

  lemma {:induction false} SeedDecides(saved1: nat, saved2: nat, k: nat, head: seq<byte>, leg: seq<byte>)
    requires saved1 < U32 && saved2 < U32
    ensures HeadSum(saved1, k, head, leg) == HeadSum(saved2, k, head, leg) <==> saved1 == saved2
  {
    MixSeed(saved1 + k, saved2 + k, LittleEndian(head), |leg|);
    CongruentIffDifference(saved1 + k, saved2 + k);
  }

  /** The comparison for a shorter leg, exactly: with a non-zero checksum it passes when what
      the two ends saved differs by just as much as what they see in their buffers. */
  lemma {:induction false} ShortLegPasses(
      legs: seq<seq<byte>>, owner: seq<nat>, base: seq<byte>, phrase: seq<byte>, k: nat)
    requires |base| == |phrase| == 4 && k < |owner| && |LegAt(legs, k)| < 4
    requires TxSum(legs, owner, base, k) != 0
    ensures Passes(legs, owner, base, phrase, k) <==>
      (RxSaved(legs, owner, base, k) + LittleEndian(Head(legs, owner, phrase, owner[k], k + 1))
       - TxSaved(legs, owner, base, k) - LittleEndian(Head(legs, owner, base, owner[k], k + 1))) % U32 == 0
  {
    ShortSums(RxSaved(legs, owner, base, k), Head(legs, owner, phrase, owner[k], k + 1),
              TxSaved(legs, owner, base, k), Head(legs, owner, base, owner[k], k + 1), k, LegAt(legs, k));
  }

  lemma {:induction false} ShortSums(
      saved1: nat, head1: seq<byte>, saved2: nat, head2: seq<byte>, k: nat, leg: seq<byte>)
    requires |leg| < 8
    ensures HeadSum(saved1, k, head1, leg) == HeadSum(saved2, k, head2, leg)
       <==> (saved1 + LittleEndian(head1) - saved2 - LittleEndian(head2)) % U32 == 0
  {
    OneRound(saved1 + k, LittleEndian(head1), |leg|);
    OneRound(saved2 + k, LittleEndian(head2), |leg|);
    CongruentIffDifference(saved1 + k + LittleEndian(head1), saved2 + k + LittleEndian(head2));
  }

  /** If the saved values agree, a leg passes exactly when every byte of the phrase that
      differs from the sender's has been covered by a leg on the same connection. */
  lemma {:induction false} PassesIffCovered(
      legs: seq<seq<byte>>, owner: seq<nat>, base: seq<byte>, phrase: seq<byte>, k: nat)
    requires |base| == |phrase| == 4 && k < |owner| && TxSum(legs, owner, base, k) != 0
    requires k == 0 || TxSum(legs, owner, base, k - 1) != 0
    ensures Passes(legs, owner, base, phrase, k)
       <==> forall i :: 0 <= i < 4 ==> phrase[i] == base[i] || Covered(legs, owner, owner[k], k + 1, i)
  {
    var w, size := owner[k], |LegAt(legs, k)|;
    var th, rh := Head(legs, owner, base, w, k + 1), Head(legs, owner, phrase, w, k + 1);
    SavedAgree(legs, owner, base, k);
    forall i | 0 <= i < 4
      ensures rh[i] == th[i] <==> phrase[i] == base[i] || Covered(legs, owner, w, k + 1, i)
    {
      HeadsAgree(legs, owner, phrase, base, w, k + 1, i);
    }
    assert rh == th <==> forall i :: 0 <= i < 4 ==> rh[i] == th[i];
    if size >= 4 {
      LongLegHides(legs, owner, base, k);
      LongLegHides(legs, owner, phrase, k);
    } else {
      MixOfShort(RxSaved(legs, owner, base, k) + k, rh, th, size);
    }
  }

  // ---------------------------------------------------------------- long legs

  /** Every leg is long enough for `mix` to see only bytes of the leg. */
  ghost predicate LongLegs(legs: seq<seq<byte>>) {
    forall k :: 0 <= k < |legs| ==> |legs[k]| >= 4
  }

  /** With long legs the chain of checksums is a function of the legs alone. */
  ghost function PlainSum(legs: seq<seq<byte>>, k: nat): nat
    requires LongLegs(legs) && k < |legs|
  {
    HeadSum(if k == 0 then 0xff else PlainSum(legs, k - 1), k, legs[k][..4], legs[k])
  }

  lemma {:induction false} LongSum(legs: seq<seq<byte>>, owner: seq<nat>, base: seq<byte>, k: nat)
    requires LongLegs(legs) && |base| == 4 && k < |legs| && k < |owner|
    ensures TxSum(legs, owner, base, k) == PlainSum(legs, k)
  {
    LongLegHides(legs, owner, base, k);
    assert LegAt(legs, k) == legs[k];
    if k > 0 {
      LongSum(legs, owner, base, k - 1);
    }
  }

  /** No leg whose checksum is 0 is directly followed by one whose checksum is not. */
  ghost predicate ZerosOnlyAtEnd(legs: seq<seq<byte>>)
    requires LongLegs(legs)
  {
    forall k :: 0 <= k < |legs| - 1 && PlainSum(legs, k) == 0 ==> PlainSum(legs, k + 1) == 0
  }

  /** A long leg passes exactly when its own checksum is 0 or the one before it is not,
      whatever the buffers held and whoever carried it. */
  lemma {:induction false} LongPasses(
      legs: seq<seq<byte>>, owner: seq<nat>, base: seq<byte>, phrase: seq<byte>, k: nat)
    requires LongLegs(legs) && |base| == |phrase| == 4 && k < |legs| && k < |owner|
    ensures Passes(legs, owner, base, phrase, k) <==> PlainSum(legs, k) == 0 || k == 0 || PlainSum(legs, k - 1) != 0
  {
    LongSum(legs, owner, base, k);
    if k > 0 {
      LongSum(legs, owner, base, k - 1);
    }
    if TxSum(legs, owner, base, k) != 0 {
      LongLegPasses(legs, owner, base, phrase, k);
    }
  }

  /** The two chains agree on every leg exactly when zero checksums form a suffix. */
  lemma {:induction false} ChainAgreement(legs: seq<seq<byte>>, owner: seq<nat>, base: seq<byte>, phrase: seq<byte>)
    requires LongLegs(legs) && |base| == |phrase| == 4 && |legs| <= |owner|
    ensures (forall k :: 0 <= k < |legs| ==> Passes(legs, owner, base, phrase, k)) <==> ZerosOnlyAtEnd(legs)
  {
    forall k | 0 <= k < |legs|
      ensures Passes(legs, owner, base, phrase, k) <==> PlainSum(legs, k) == 0 || k == 0 || PlainSum(legs, k - 1) != 0
    {
      LongPasses(legs, owner, base, phrase, k);
    }
    if forall k :: 0 <= k < |legs| ==> Passes(legs, owner, base, phrase, k) {
      forall k | 0 <= k < |legs| - 1 && PlainSum(legs, k) == 0
        ensures PlainSum(legs, k + 1) == 0
      {
        assert Passes(legs, owner, base, phrase, k + 1);
      }
    }
    if ZerosOnlyAtEnd(legs) {
      forall k | 0 <= k < |legs|
        ensures Passes(legs, owner, base, phrase, k)
      {
        assert k > 0 && PlainSum(legs, k - 1) == 0 ==> PlainSum(legs, k - 1 + 1) == 0;
      }
    }
  }

  /** Inputs with a zero inside exist: a 16-byte leg with checksum 0 followed by any 8-byte leg. */
  lemma {:induction false} ZeroInside(second: seq<byte>)
    requires |second| == 8
    ensures
      var first := ToLittleEndian(0xFFFF_FFA3, 4) + Zeros(12);
      LongLegs([first, second]) && !ZerosOnlyAtEnd([first, second])
  {
    var first := ToLittleEndian(0xFFFF_FFA3, 4) + Zeros(12);
    var legs := [first, second];
    var w0, w1 := LittleEndian(first[..4]), LittleEndian(second[..4]);
    Pow256Of8();
    LittleEndianRoundTrip(0xFFFF_FFA3, 4);
    assert first[..4] == ToLittleEndian(0xFFFF_FFA3, 4);
    assert legs[0] == first && legs[1] == second;
    MixClosedForm(0xff + 0, w0, 16);
    assert PlainSum(legs, 0) == (255 + 3 * 0xFFFF_FFA3 + 24) % U32 == 0;
    MixClosedForm(0 + 1, w1, 8);
    assert PlainSum(legs, 1) == (1 + 2 * w1 + 8) % U32;
    assert (9 + 2 * w1) % U32 != 0;
  }

  /** A first leg shorter than four bytes never has checksum 0, so it passes exactly when
      the part of the phrase it leaves uncovered agrees with the sender's zeros. */
  lemma {:induction false} FirstShortLeg(legs: seq<seq<byte>>, owner: seq<nat>, phrase: seq<byte>)
    requires |phrase| == 4 && |owner| > 0 && |LegAt(legs, 0)| < 4
    ensures Passes(legs, owner, Zeros(4), phrase, 0)
       <==> forall i :: |LegAt(legs, 0)| <= i < 4 ==> phrase[i] == 0
  {
    var leg := LegAt(legs, 0);
    var head := Head(legs, owner, Zeros(4), owner[0], 1);
    assert Head(legs, owner, Zeros(4), owner[0], 0) == Zeros(4);
    assert head == Cover(Zeros(4), leg);
    SmallHead(head);
    OneRound(0xff, LittleEndian(head), |leg|);
    assert TxSum(legs, owner, Zeros(4), 0) == 0xff + LittleEndian(head);
    PassesIffCovered(legs, owner, Zeros(4), phrase, 0);
    forall i | 0 <= i < 4
      ensures Covered(legs, owner, owner[0], 1, i) <==> i < |leg|
    {
      CoveredStep(legs, owner, owner[0], 1, i);
    }
  }

  lemma {:induction false} SmallHead(head: seq<byte>)
    requires |head| == 4 && head[3] == 0
    ensures LittleEndian(head) < 0x100_0000
  {
    assert head == head[..3] + [0];
    LittleEndianConcat(head[..3], [0]);
    LittleEndianBound(head[..3]);
    assert Pow256(3) == 0x100_0000;
  }
}
