/** The program's start-up and main loop: build the table, program the timer
    for the first entry, then on every pass compare the current mask with the
    previous one and reprogram the timer when it changed. */
module Program {
  import opened Encoding
  import opened Frequencies
  import opened Runtime

  class MainLoop {
    /** The globals the button interrupt changes. */
    const status: Status
    const frequencies: array<Frequency>
    var previousMask: bv8
    /** The entry the timer was last programmed with. */
    var output: Frequency
    /** The table index of that entry. */
    ghost var shown: nat

    /** The table is built and the timer runs the table entry whose key is
        the last mask the loop saw. */
    ghost predicate Valid()
      reads this, frequencies
    {
      && frequencies.Length == NUMBER_OF_FREQUENCIES as int
      && frequencies[..] == Table()
      && shown < NUMBER_OF_FREQUENCIES
      && previousMask == Key(shown)
      && output == Table()[shown]
    }

    /** Start-up: the globals take their initial values, the table is
        filled, and the timer is programmed with the first (1 Hz) entry. */
    constructor ()
      ensures Valid() && status.Valid() && fresh(status) && fresh(frequencies)
      ensures status.advances == 0 && status.edges == 0 && status.Debounced()
      ensures previousMask == status.Mask() == Key(0)
      ensures output == Table()[0]
    {
      var globals := new Status();
      status := globals;
      var table := new Frequency[NUMBER_OF_FREQUENCIES](_ => Frequency(0, 0, 0));
      SetFrequencies(table);
      frequencies := table;
      var currentMask := globals.Mask();
      previousMask := currentMask;
      output := table[0];
      shown := 0;
    }

    /** One pass of the main loop. When the mask changed, the loop records
        it and programs the timer with the first entry whose key matches;
        when it did not, nothing is looked up or reprogrammed. */
    method Step() returns (selected: Option<nat>)
      requires Valid() && status.Valid()
      modifies this
      ensures Valid()
      ensures previousMask == status.Mask()
      ensures old(previousMask) == status.Mask() ==> selected == None && output == old(output)
      ensures old(previousMask) != status.Mask() ==>
        selected == Lookup(Table(), status.Mask()) == Some(status.Position())
      ensures output == Table()[status.Position()] && output.key == status.Mask()
    {
      ghost var p := status.Position();
      var currentMask := status.Mask();
      assert currentMask == Key(p);
      selected := None;
      if currentMask != previousMask {
        previousMask := currentMask;
        LookupKey(p);
        selected := FindFrequency(frequencies, currentMask);
        assert selected == Some(p) && frequencies[p] == Table()[p];
        if selected.Some? {
          output := frequencies[selected.value];
          shown := selected.value;
        }
      } else {
        KeysDistinct(p, shown);
      }
    }
  }
}
