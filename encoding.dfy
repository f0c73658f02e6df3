/** The composite state of the generator: an 8-bit mask that is the union of a
    one-hot base field (bits 3..7) and a multiplier field (bits 0..2, zero or
    one-hot). This module is the reference enumeration of the 20 masks against
    which both the frequency table and the runtime counters are proved. */
module Encoding {

  const NUMBER_OF_FREQUENCIES: nat := 20
  const BASE_COUNT: nat := 5
  const MULTIPLYER_COUNT: nat := 4

  /** Bits that the base field may occupy. */
  const BASE_BITS: bv8 := 0xF8
  /** Bits that the multiplier field may occupy. */
  const MULTIPLYER_BITS: bv8 := 0x07

  /** The j-th base value: 0x08, 0x10, 0x20, 0x40, 0x80. */
  function Base(j: nat): (b: bv8)
    requires j < BASE_COUNT
    ensures b & BASE_BITS == b && b != 0
  {
    if j == 0 then 0x08 else if j == 1 then 0x10 else if j == 2 then 0x20
    else if j == 3 then 0x40 else 0x80
  }

  /** The k-th multiplier value: 0, 0x01, 0x02, 0x04 (and 0x08 one place
      past the end, where the table builder's loop stops). */
  function Multiplyer(k: nat): (m: bv8)
    requires k <= MULTIPLYER_COUNT
    ensures k < MULTIPLYER_COUNT ==> m & MULTIPLYER_BITS == m
  {
    if k == 0 then 0x00 else if k == 1 then 0x01 else if k == 2 then 0x02
    else if k == 3 then 0x04 else 0x08
  }

  /** The i-th mask of the enumeration: the base field cycles fastest. */
  function Key(i: nat): bv8
    requires i < NUMBER_OF_FREQUENCIES
  {
    Base(i % BASE_COUNT) | Multiplyer(i / BASE_COUNT)
  }

  /** Each base value is 0x08 shifted left by its position; each non-zero
      multiplier value is 0x01 shifted left by one less than its position.
      So key i is (0x08 << (i % 5)) | M[i / 5] with M = [0, 1, 2, 4]. */
  lemma ShiftForm(i: nat)
    requires i < NUMBER_OF_FREQUENCIES
    ensures Base(i % BASE_COUNT) == (0x08 as bv8) << (i % BASE_COUNT)
    ensures i / BASE_COUNT > 0 ==> Multiplyer(i / BASE_COUNT) == (0x01 as bv8) << (i / BASE_COUNT - 1)
    ensures Key(i) == ((0x08 as bv8) << (i % BASE_COUNT)) | [0x00, 0x01, 0x02, 0x04][i / BASE_COUNT]
  {
  }

  /** The 20 masks in order: 0x08, 0x10, 0x20, 0x40, 0x80 with multiplier 0,
      then the same five with 0x01, 0x02 and 0x04 added. */
  lemma KeyValues()
    ensures Key(0) == 0x08 && Key(4) == 0x80
    ensures Key(5) == 0x09 && Key(9) == 0x81
    ensures Key(10) == 0x0A && Key(14) == 0x82
    ensures Key(15) == 0x0C && Key(19) == 0x84
  {
  }

  /** The two fields never share a bit, so the union can be split back into
      its fields by masking. */
  lemma FieldsSplit(j: nat, k: nat)
    requires j < BASE_COUNT && k < MULTIPLYER_COUNT
    ensures (Base(j) | Multiplyer(k)) & BASE_BITS == Base(j)
    ensures (Base(j) | Multiplyer(k)) & MULTIPLYER_BITS == Multiplyer(k)
  {
  }

  /** Distinct positions give distinct base values. */
  lemma BaseInjective(j1: nat, j2: nat)
    requires j1 < BASE_COUNT && j2 < BASE_COUNT
    ensures Base(j1) == Base(j2) <==> j1 == j2
  {
  }

  /** Distinct positions give distinct multiplier values. */
  lemma MultiplyerInjective(k1: nat, k2: nat)
    requires k1 < MULTIPLYER_COUNT && k2 < MULTIPLYER_COUNT
    ensures Multiplyer(k1) == Multiplyer(k2) <==> k1 == k2
  {
  }

  /** Key(i) splits into the base and multiplier fields of position i. */
  lemma KeyFields(i: nat)
    requires i < NUMBER_OF_FREQUENCIES
    ensures Key(i) & BASE_BITS == Base(i % BASE_COUNT)
    ensures Key(i) & MULTIPLYER_BITS == Multiplyer(i / BASE_COUNT)
  {
    FieldsSplit(i % BASE_COUNT, i / BASE_COUNT);
  }

  /** The 20 keys of the enumeration are pairwise distinct. */
  lemma KeysDistinct(i1: nat, i2: nat)
    requires i1 < NUMBER_OF_FREQUENCIES && i2 < NUMBER_OF_FREQUENCIES
    ensures Key(i1) == Key(i2) <==> i1 == i2
  {
    if Key(i1) == Key(i2) {
      KeyFields(i1);
      KeyFields(i2);
      BaseInjective(i1 % BASE_COUNT, i2 % BASE_COUNT);
      MultiplyerInjective(i1 / BASE_COUNT, i2 / BASE_COUNT);
    }
  }

  /** The step from one base value to the next, as the runtime counter takes
      it: only the last value has its top bit set, and every other value
      shifted left once is the next one. */
  lemma BaseStep(j: nat)
    requires j < BASE_COUNT
    ensures Base(j) >= 0x80 <==> j == BASE_COUNT - 1
    ensures j < BASE_COUNT - 1 ==> Base(j) << 1 == Base(j + 1)
  {
  }

  /** The step from one multiplier value to the next: the last is the only
      one at or above 0x04, the first is the only zero, and every non-zero one
      shifted left once is the one after it (for the last, the value 0x08 the
      table builder's loop leaves behind). */
  lemma MultiplyerStep(k: nat)
    requires k < MULTIPLYER_COUNT
    ensures Multiplyer(k) >= 0x04 <==> k == MULTIPLYER_COUNT - 1
    ensures Multiplyer(k) == 0 <==> k == 0
    ensures 0 < k ==> Multiplyer(k) << 1 == Multiplyer(k + 1)
  {
  }

  /** The position after p in the cyclic enumeration: the base index moves on
      by one, except after the last base value, where it returns to 0 and the
      multiplier index moves on by one (cyclically). */
  lemma Successor(p: nat)
    requires p < NUMBER_OF_FREQUENCIES
    ensures p % BASE_COUNT == BASE_COUNT - 1 ==>
      (p + 1) % NUMBER_OF_FREQUENCIES % BASE_COUNT == 0 &&
      (p + 1) % NUMBER_OF_FREQUENCIES / BASE_COUNT == (p / BASE_COUNT + 1) % MULTIPLYER_COUNT
    ensures p % BASE_COUNT < BASE_COUNT - 1 ==>
      (p + 1) % NUMBER_OF_FREQUENCIES % BASE_COUNT == p % BASE_COUNT + 1 &&
      (p + 1) % NUMBER_OF_FREQUENCIES / BASE_COUNT == p / BASE_COUNT
  {
  }

  /** Counting on by one moves the base index on by one, except after the
      last base value, where it returns to 0 and the multiplier index moves
      on by one. */
  lemma NextIndex(i: nat)
    ensures i % BASE_COUNT == BASE_COUNT - 1 ==>
      (i + 1) % BASE_COUNT == 0 && (i + 1) / BASE_COUNT == i / BASE_COUNT + 1
    ensures i % BASE_COUNT < BASE_COUNT - 1 ==>
      (i + 1) % BASE_COUNT == i % BASE_COUNT + 1 && (i + 1) / BASE_COUNT == i / BASE_COUNT
  {
    var q, r := i / BASE_COUNT, i % BASE_COUNT;
    assert i == BASE_COUNT * q + r;
  }

  /** The enumeration is a cycle of exactly 20 masks: moving n places on from
      any position gives back the same mask exactly when n is a multiple of
      20. */
  lemma CycleLength(p: nat, n: nat)
    requires p < NUMBER_OF_FREQUENCIES
    ensures Key((p + n) % NUMBER_OF_FREQUENCIES) == Key(p) <==> n % NUMBER_OF_FREQUENCIES == 0
  {
    var q, r := n / NUMBER_OF_FREQUENCIES, n % NUMBER_OF_FREQUENCIES;
    var m := (p + n) % NUMBER_OF_FREQUENCIES;
    if p + r < NUMBER_OF_FREQUENCIES {
      assert p + n == NUMBER_OF_FREQUENCIES * q + (p + r);
      assert m == p + r;
    } else {
      assert p + n == NUMBER_OF_FREQUENCIES * (q + 1) + (p + r - NUMBER_OF_FREQUENCIES);
      assert m == p + r - NUMBER_OF_FREQUENCIES;
    }
    KeysDistinct(m, p);
  }

  /** Base index j and multiplier index k are the fields of position 5k + j. */
  lemma PositionOf(j: nat, k: nat)
    requires j < BASE_COUNT && k < MULTIPLYER_COUNT
    ensures BASE_COUNT * k + j < NUMBER_OF_FREQUENCIES
    ensures (BASE_COUNT * k + j) % BASE_COUNT == j && (BASE_COUNT * k + j) / BASE_COUNT == k
  {
  }
}
