/** The frequency table built once at start-up: one entry per mask of the
    enumeration, each paired with the timer's period reload value (icr) and
    clock-divider code (prescaler) for one target frequency. */
module Frequencies {
  import opened Encoding

  newtype UInt8 = x: int | 0 <= x < 0x100
  newtype UInt32 = x: int | 0 <= x < 0x1_0000_0000

  datatype Frequency = Frequency(key: bv8, icr: UInt32, prescaler: UInt8)

  datatype Option<T> = None | Some(value: T)

  /** Period reload values, one per target frequency, in table order. */
  const ICRS: seq<UInt32> :=
    [21599, 43199, 21599, 14399, 10799, 8639, 34559, 17279, 11519, 8639,
     55295, 27647, 13823, 9215, 6911, 5529, 2764, 1381, 921, 690]

  /** Clock-divider codes, one per target frequency, in table order. */
  const PRESCALERS: seq<UInt8> :=
    [4, 3, 3, 3, 3, 3, 2, 2, 2, 2, 1, 1, 1, 1, 1, 1, 1, 1, 1, 1]

  /** Entry i of the table: the i-th key of the enumeration with the i-th
      tuning literals. */
  function Entry(i: nat): (f: Frequency)
    requires i < NUMBER_OF_FREQUENCIES
  {
    Frequency(Key(i), ICRS[i], PRESCALERS[i])
  }

  /** The table as it must be after start-up. */
  function Table(): seq<Frequency>
  {
    seq(NUMBER_OF_FREQUENCIES, i requires 0 <= i < NUMBER_OF_FREQUENCIES => Entry(i))
  }

  /** Fills the table. The loop steps a base mask and a multiplier mask the
      way the enumeration does: five base values per multiplier value. */
  method SetFrequencies(frequencies: array<Frequency>)
    requires frequencies.Length == NUMBER_OF_FREQUENCIES as int
    modifies frequencies
    ensures frequencies[..] == Table()
  {
    var multiplyer: bv8 := 0x00;
    var base: bv8 := 0x08;
    var counter: UInt8 := 0;
    for i := 0 to NUMBER_OF_FREQUENCIES
      invariant counter as int == i % BASE_COUNT
      invariant base == Base(i % BASE_COUNT)
      invariant multiplyer == Multiplyer(i / BASE_COUNT)
      invariant forall n :: 0 <= n < i ==> frequencies[n] == Entry(n)
    {
      NextIndex(i);
      BaseStep(i % BASE_COUNT);
      MultiplyerStep(i / BASE_COUNT);
      var mask := base | multiplyer;
      ghost var before := frequencies[..];
      frequencies[i] := Frequency(mask, ICRS[i], PRESCALERS[i]);
      assert frequencies[..] == before[i := Entry(i)];
      if counter >= 4 {
        counter := 0;
        base := 0x08;
        if multiplyer == 0 {
          multiplyer := 0x01;
        } else {
          multiplyer := multiplyer << 1;
        }
        assert multiplyer == Multiplyer((i + 1) / BASE_COUNT);
      } else {
        counter := counter + 1;
        base := base << 1;
        assert multiplyer == Multiplyer((i + 1) / BASE_COUNT);
      }
    }
  }

  /** Every period reload value fits the timer's 16-bit ICR1 register (the
      largest is 55295) and every clock-divider code is one of 1..4. */
  lemma TuningInRange(i: nat)
    requires i < NUMBER_OF_FREQUENCIES
    ensures Table()[i].icr <= 55295 < 0x1_0000
    ensures 1 <= Table()[i].prescaler <= 4
  {
  }

  /** The index of the first entry whose key equals mask, or None when no
      entry has that key. */
  function Lookup(table: seq<Frequency>, mask: bv8): (r: Option<nat>)
    ensures r.Some? ==> r.value < |table| && table[r.value].key == mask
    ensures r.Some? ==> forall j :: 0 <= j < r.value ==> table[j].key != mask
    ensures r.None? <==> forall j :: 0 <= j < |table| ==> table[j].key != mask
  {
    if |table| == 0 then None
    else if table[0].key == mask then Some(0)
    else match Lookup(table[1..], mask)
      case None => None
      case Some(k) => Some(k + 1)
  }

  /** The main loop's linear scan: the first index whose key equals mask,
      leaving the loop at the first match. */
  method FindFrequency(frequencies: array<Frequency>, mask: bv8) returns (found: Option<nat>)
    requires frequencies.Length == NUMBER_OF_FREQUENCIES as int
    ensures found == Lookup(frequencies[..], mask)
  {
    found := None;
    for i := 0 to NUMBER_OF_FREQUENCIES
      invariant forall j :: 0 <= j < i ==> frequencies[j].key != mask
    {
      if mask == frequencies[i].key {
        found := Some(i);
        break;
      }
    }
  }

  /** Every key of the enumeration is the key of exactly one table entry,
      the one at its own index. */
  lemma KeyUnique(i: nat)
    requires i < NUMBER_OF_FREQUENCIES
    ensures forall j :: 0 <= j < NUMBER_OF_FREQUENCIES ==> (Table()[j].key == Key(i) <==> j == i)
  {
    forall j | 0 <= j < NUMBER_OF_FREQUENCIES
      ensures Table()[j].key == Key(i) <==> j == i
    {
      KeysDistinct(i, j);
    }
  }

  /** Looking up any key of the enumeration finds the entry at its index. */
  lemma LookupKey(i: nat)
    requires i < NUMBER_OF_FREQUENCIES
    ensures Lookup(Table(), Key(i)) == Some(i)
  {
    KeyUnique(i);
    assert Table()[i].key == Key(i);
  }

  /** A mask outside the enumeration matches no entry, so the lookup finds
      nothing and the timer is left as it is. */
  lemma LookupUnknown(mask: bv8)
    requires forall i :: 0 <= i < NUMBER_OF_FREQUENCIES ==> Key(i) != mask
    ensures Lookup(Table(), mask) == None
  {
  }

  /** Any base value combined with any multiplier value is a key of the
      enumeration, so the lookup always finds it. A main loop that reads the
      two counters on either side of an interrupt still gets a key, and the
      path where nothing matches is never taken; the key need not be one the
      counters ever held (see TornReadAhead). */
  lemma AnyFieldPairIsKey(j: nat, k: nat)
    requires j < BASE_COUNT && k < MULTIPLYER_COUNT
    ensures Base(j) | Multiplyer(k) == Key(BASE_COUNT * k + j)
    ensures Lookup(Table(), Base(j) | Multiplyer(k)) == Some(BASE_COUNT * k + j)
  {
    var i := BASE_COUNT * k + j;
    PositionOf(j, k);
    assert Key(i) == Base(j) | Multiplyer(k);
    LookupKey(i);
  }

  /** A torn read can select a key the counters never held. On the step from
      position 4 (base 0x80, multiplier 0) to position 5 (base 0x08,
      multiplier 0x01), reading the base before the interrupt and the
      multiplier after it gives 0x81, the key of position 9: four positions
      ahead of the state, and neither the state before nor the one after. */
  lemma TornReadAhead()
    ensures Base(4) | Multiplyer(0) == Key(4) && Base(0) | Multiplyer(1) == Key(5)
    ensures Base(4) | Multiplyer(1) == 0x81 == Key(9)
    ensures Key(9) != Key(4) && Key(9) != Key(5)
    ensures Lookup(Table(), Base(4) | Multiplyer(1)) == Some(9)
  {
    assert Base(4) == 0x80 && Multiplyer(0) == 0 && Base(0) == 0x08 && Multiplyer(1) == 0x01;
    PositionOf(4, 0);
    PositionOf(0, 1);
    AnyFieldPairIsKey(4, 1);
    KeysDistinct(9, 4);
    KeysDistinct(9, 5);
  }

  /** The two reads at the same step in the other order: C does not fix the
      order in which the operands of `|` are read, so when the multiplier is
      read before the interrupt (0) and the base after it (0x08), the mask is
      0x08, the key of position 0, and the 1 Hz entry is selected. */
  lemma TornReadBehind()
    ensures Multiplyer(0) | Base(0) == 0x08 == Key(0)
    ensures Key(0) != Key(4) && Key(0) != Key(5)
    ensures Lookup(Table(), Base(0) | Multiplyer(0)) == Some(0)
  {
    AnyFieldPairIsKey(0, 0);
    KeysDistinct(0, 4);
    KeysDistinct(0, 5);
  }
}
