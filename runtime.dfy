/** The state the button interrupt changes: the two rotating counters whose
    union is the current mask, and the parity toggle that lets the first edge
    of every pair through. */
module Runtime {
  import opened Encoding

  /** The toggle after `edges` edges, starting from `changed`: every edge
      flips it. */
  function ToggleAfter(changed: bool, edges: nat): bool
  {
    if edges == 0 then changed else !ToggleAfter(changed, edges - 1)
  }

  /** How many times `edges` edges advance the counters, starting from toggle
      `changed`: one advance for every edge that finds the toggle clear. */
  function AdvancesAfter(changed: bool, edges: nat): nat
  {
    if edges == 0 then 0
    else AdvancesAfter(changed, edges - 1) + (if ToggleAfter(changed, edges - 1) then 0 else 1)
  }

  /** From a clear toggle, N edges give (N + 1) / 2 advances (the advance
      happens on the first edge of each pair) and leave the toggle set exactly
      when N is odd; from a set toggle they give N / 2 advances. */
  lemma {:induction false} EdgeCount(changed: bool, edges: nat)
    ensures ToggleAfter(changed, edges) == (changed != (edges % 2 == 1))
    ensures AdvancesAfter(changed, edges) == if changed then edges / 2 else (edges + 1) / 2
  {
    if edges > 0 {
      EdgeCount(changed, edges - 1);
    }
  }

  /** Forty edges from the start-up state (twenty presses and releases)
      advance the counters twenty times, once around the whole enumeration,
      and leave the toggle clear again. */
  lemma FortyEdges()
    ensures AdvancesAfter(false, 40) == NUMBER_OF_FREQUENCIES && !ToggleAfter(false, 40)
    ensures Key(AdvancesAfter(false, 40) % NUMBER_OF_FREQUENCIES) == Key(0)
  {
    EdgeCount(false, 40);
  }

  /** One more advance moves the position on by one, cyclically. */
  lemma NextPosition(advances: nat)
    ensures (advances + 1) % NUMBER_OF_FREQUENCIES ==
      if advances % NUMBER_OF_FREQUENCIES == NUMBER_OF_FREQUENCIES - 1 then 0
      else advances % NUMBER_OF_FREQUENCIES + 1
  {
    var q, r := advances / NUMBER_OF_FREQUENCIES, advances % NUMBER_OF_FREQUENCIES;
    assert advances == NUMBER_OF_FREQUENCIES * q + r;
  }

  class Status {
    var baseStatus: bv8
    var multiplyerStatus: bv8
    var changed: bool
    /** Number of calls to IncrementBase since start-up. */
    ghost var advances: nat
    /** Number of button edges handled since start-up. */
    ghost var edges: nat

    /** The position in the enumeration the counters stand at. */
    ghost function Position(): (p: nat)
      reads this
      ensures p < NUMBER_OF_FREQUENCIES
    {
      advances % NUMBER_OF_FREQUENCIES
    }

    /** The counters hold the two fields of the enumeration's entry at
        Position(). */
    ghost predicate Valid()
      reads this
    {
      && Mask() == Key(Position())
      && baseStatus == Base(Position() % BASE_COUNT)
      && multiplyerStatus == Multiplyer(Position() / BASE_COUNT)
    }

    /** The toggle and the advance count are what the edges seen so far
        produce from a clear toggle. */
    ghost predicate Debounced()
      reads this
    {
      changed == ToggleAfter(false, edges) && advances == AdvancesAfter(false, edges)
    }

    /** The current mask, as the main loop reads it. */
    function Mask(): bv8
      reads this
    {
      baseStatus | multiplyerStatus
    }

    /** The globals' start-up values: base 0x08, multiplier 0, toggle clear. */
    constructor ()
      ensures Valid() && Debounced()
      ensures advances == 0 && edges == 0
      ensures Mask() == Key(0) && !changed
    {
      baseStatus := 0x08;
      multiplyerStatus := 0x00;
      changed := false;
      advances := 0;
      edges := 0;
    }

    /** Rotates the multiplier 0 -> 0x01 -> 0x02 -> 0x04 -> 0. */
    method IncrementMultiplyer()
      modifies this`multiplyerStatus
      ensures old(multiplyerStatus) == 0x00 ==> multiplyerStatus == 0x01
      ensures old(multiplyerStatus) == 0x01 ==> multiplyerStatus == 0x02
      ensures old(multiplyerStatus) == 0x02 ==> multiplyerStatus == 0x04
      ensures old(multiplyerStatus) == 0x04 ==> multiplyerStatus == 0x00
    {
      if multiplyerStatus >= 0x04 {
        multiplyerStatus := 0x00;
      } else {
        if multiplyerStatus == 0x00 {
          multiplyerStatus := 0x01;
        } else {
          multiplyerStatus := multiplyerStatus << 1;
        }
      }
    }

    /** Rotates the base 0x08 -> 0x10 -> 0x20 -> 0x40 -> 0x80 -> 0x08 and
        advances the multiplier exactly on the wrap, so the mask moves to the
        next entry of the enumeration. */
    method IncrementBase()
      requires Valid()
      modifies this`baseStatus, this`multiplyerStatus, this`advances
      ensures Valid() && advances == old(advances) + 1
      ensures Mask() == Key(Position())
      ensures multiplyerStatus != old(multiplyerStatus) <==> old(baseStatus) == 0x80
    {
      ghost var p := Position();
      ghost var j, k := p % BASE_COUNT, p / BASE_COUNT;
      Successor(p);
      NextPosition(advances);
      BaseStep(j);
      MultiplyerStep(k);
      MultiplyerInjective(k, (k + 1) % MULTIPLYER_COUNT);
      if baseStatus >= 0x80 {
        baseStatus := 0x08;
        IncrementMultiplyer();
      } else {
        baseStatus := baseStatus << 1;
      }
      advances := advances + 1;
    }

    /** The pin-change interrupt: flips the toggle and advances only on the
        edges that find it clear. */
    method OnEdge()
      requires Valid() && Debounced()
      modifies this
      ensures Valid() && Debounced() && edges == old(edges) + 1
      ensures changed == !old(changed)
      ensures advances == old(advances) + (if old(changed) then 0 else 1)
      ensures old(changed) ==> Mask() == old(Mask())
      ensures advances == (edges + 1) / 2 && Mask() == Key(Position())
    {
      if !changed {
        changed := true;
        IncrementBase();
      } else {
        changed := false;
      }
      edges := edges + 1;
      EdgeCount(false, edges);
    }
  }
}
