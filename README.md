# Square wave generator: state encoding and frequency selection

A model of the firmware of an ATmega328P signal generator that steps through
20 preset frequencies, one step per push-button press. The selected frequency
is identified by an 8-bit mask, the union of a one-hot *base* field in bits
3..7 (0x08, 0x10, 0x20, 0x40, 0x80) and a *multiplier* field in bits 0..2
(0, 0x01, 0x02, 0x04). The mask is produced twice, by two separately written
pieces of code that must agree bit for bit:

- `setFrequencies` walks the 20 masks in a counter-driven loop (base fastest)
  and builds a table pairing each mask with a timer period (`icr`) and a
  clock-divider code (`prescaler`);
- `incrementBase` and `incrementMultiplyer` rotate the two global counters
  `baseStatus` and `multiplyerStatus` one step per button press, driven by the
  pin-change interrupt, which lets through the first edge of every pair
  using the `changed` toggle.

The main loop reads the two counters, and when their union changed it scans
the table for the first entry with that key and reprograms the timer with it.

The model has four modules, one per component:

- `Encoding` (encoding.dfy): the reference enumeration `Key(i)`, equal to
  `(0x08 << (i % 5)) | M[i / 5]` with M = [0, 1, 2, 4]. It also holds the
  facts about the two bit fields that the other modules rely on.
- `Frequencies` (frequencies.dfy): the `Frequency` record, the tuning
  literals, the table builder `SetFrequencies` over an `array`, and the
  linear lookup. The lookup appears twice: as the pure `Lookup` and as the
  scanning loop `FindFrequency`, which leaves at the first match.
- `Runtime` (runtime.dfy): the class `Status` holding the volatile globals
  and the methods `IncrementMultiplyer`, `IncrementBase` and `OnEdge` (the
  interrupt handler). Ghost fields count the advances and the edges seen.
  `Valid()` ties the counters to position `advances % 20` of the enumeration.
  `Debounced()` ties the toggle and the advance count to the number of edges.
- `Program` (program.dfy): the class `MainLoop`. Its constructor is start-up:
  initial globals, table filled, timer programmed with the first (1 Hz)
  entry. `Step` is one pass of the endless loop. The timer configuration that
  `setOutputSignals` writes is modelled as the field `output`, the entry last
  programmed.

Masks and counters are `bv8`, so C's 8-bit shifts wrap the same way. `icr` is
an unsigned 32-bit newtype; `prescaler` and the loop counter are an unsigned
8-bit newtype.

The central result is the pair of contracts `SetFrequencies` (entry i of the
array is `Frequency(Key(i), ICRS[i], PRESCALERS[i])`) and
`Status.IncrementBase` (after the call the counters' union is
`Key(advances % 20)`). Together with `KeysDistinct` and `LookupKey` they give
`MainLoop.Step`'s guarantee: after every pass of the loop the timer runs the
table entry whose key is the current mask.

One point about edge counting: counting one advance per pair of edges as
floor(N/2) is wrong for odd N. The handler advances on the first edge of each
pair, so N edges from start-up give (N + 1) / 2 advances. The model follows
the code (`EdgeCount`, `Status.OnEdge`).

## Model

| member | source | states |
|---|---|---|
| Encoding.ShiftForm | main.c:83-102 | base value j is 0x08 shifted left j times and multiplier value k > 0 is 0x01 shifted left k - 1 times, so key i is (0x08 << (i % 5)) \| M[i / 5] with M = [0, 1, 2, 4] |
| Encoding.KeyValues | main.c:82-104 | the enumeration's masks at the ends of each group of five: 0x08..0x80, 0x09..0x81, 0x0A..0x82, 0x0C..0x84 |
| Encoding.FieldsSplit | main.c:86 | the base and multiplier fields never share a bit: masking the union with 0xF8 gives back the base, with 0x07 the multiplier |
| Encoding.BaseInjective | main.c:84 | the five base values are pairwise distinct |
| Encoding.MultiplyerInjective | main.c:83 | the four multiplier values are pairwise distinct |
| Encoding.KeyFields | main.c:86 | key i splits into base value i % 5 and multiplier value i / 5 |
| Encoding.KeysDistinct | main.c:82-104 | the 20 keys are pairwise distinct (key i equals key j exactly when i = j) |
| Encoding.BaseStep | main.c:143-147 | among the base values only the last is at or above 0x80, and every other one shifted left once is the next |
| Encoding.MultiplyerStep | main.c:129-136 | among the multiplier values only the last is at or above 0x04, only the first is zero, and each other one shifted left once is the next |
| Encoding.Successor | main.c:140-149 | moving one position on in the cycle of 20 advances the base index, or wraps it to 0 and advances the multiplier index cyclically |
| Encoding.CycleLength | main.c:140-149 | from any position, n further advances give the same mask exactly when n is a multiple of 20: twenty presses return to the start and no fewer do |
| Frequencies.SetFrequencies | main.c:77-105 | after the loop, entry i holds key `Key(i)`, the i-th `icr` literal and the i-th `prescaler` literal |
| Frequencies.TuningInRange | main.c:78-79 | every `icr` is at most 55295, so it fits the 16-bit ICR1, and every prescaler code is in 1..4 |
| Frequencies.Lookup | main.c:67-72 | the result is the first index whose key equals the mask; it is none exactly when no entry has that key |
| Frequencies.FindFrequency | main.c:67-72 | the scan with an early exit returns what `Lookup` specifies for the table's contents |
| Frequencies.KeyUnique | main.c:67-72 | every key of the enumeration matches exactly one table entry, the one at its own index |
| Frequencies.LookupKey | main.c:65-72 | looking up key i in the built table gives index i |
| Frequencies.LookupUnknown | main.c:67-72 | a mask outside the enumeration matches nothing, so nothing is selected |
| Frequencies.AnyFieldPairIsKey | main.c:62-72 | every combination of a base value and a multiplier value is the key at position 5k + j, and the lookup finds it: the no-match path is never taken, even when the two counters are read on either side of an interrupt |
| Frequencies.TornReadAhead | main.c:62 | reading the base before and the multiplier after the step from position 4 to position 5 gives 0x81, the key of position 9, which differs from both the old and the new key and which the lookup selects |
| Frequencies.TornReadBehind | main.c:62 | reading the multiplier before and the base after the step from position 4 to position 5 gives 0x08, the key of position 0, which differs from both the old and the new key and which the lookup selects |
| Runtime.EdgeCount | main.c:151-158 | from a clear toggle, N edges give (N + 1) / 2 advances and leave the toggle set exactly when N is odd; from a set toggle they give N / 2 |
| Runtime.FortyEdges | main.c:151-158 | forty edges from start-up give twenty advances, clear the toggle and come back to the first mask |
| Runtime.Status.constructor | main.c:16-18 | the globals start at base 0x08, multiplier 0, toggle clear: the first mask of the enumeration |
| Runtime.Status.IncrementMultiplyer | main.c:126-138 | the multiplier goes 0 -> 0x01 -> 0x02 -> 0x04 -> 0, and nothing else changes |
| Runtime.Status.IncrementBase | main.c:140-149 | the counters move to the next position of the enumeration, so their union is `Key(advances % 20)`; the multiplier changes exactly when the base wraps from 0x80 |
| Runtime.Status.OnEdge | main.c:151-158 | the toggle flips; the counters advance only if it was clear; after N edges there have been (N + 1) / 2 advances and the mask is the enumeration's key at that count |
| Program.MainLoop.constructor | main.c:49-58 | after start-up the table is built, the previous mask is the first key and the timer runs the first (1 Hz) entry |
| Program.MainLoop.Step | main.c:60-73 | the previous mask becomes the current one; an unchanged mask selects nothing and leaves the timer alone; a changed mask selects the first matching entry, its own position; afterwards the timer runs the entry whose key is the current mask |

## Left out

- `setOutputSignals` (main.c:107-124): the timer register writes (TCCR1A/B/C, TCNT1) and their order are not modelled; the model records only which table entry the timer was last programmed with (`MainLoop.output`).
- The compare values `OCR1A = (int)(ICR1 * 0.02)` and `OCR1B = (int)(ICR1 * 0.51)` (main.c:115-116) use floating-point multiplication and a truncating cast; floating point is not modelled.
- The assignment of the 32-bit `icr` to the 16-bit ICR1 is not modelled as a truncation; `TuningInRange` shows no table value would be truncated.
- GPIO direction and pull-up setup, the interrupt enable (main.c:37-47) and the `PORTD` mirror of the mask (main.c:63) are hardware I/O.
- Concurrency: the interrupt handler is modelled as an event that runs between passes of the main loop. The torn read of the two globals at main.c:62 is not modelled as an interleaving; `AnyFieldPairIsKey` shows that any such read still yields a key that the lookup finds, so the no-match path is dead; but the key need not be one the counters ever held. C does not fix the order of the two reads at main.c:62. When the base is read first, a read straddling the step from 0x80 to 0x09 gives 0x81, entry 9 (`TornReadAhead`); in the other order it gives 0x08, entry 0 (`TornReadBehind`). Either entry is programmed for one pass, until the next pass selects entry 5. Edges arriving during start-up (between main.c:47 and main.c:54) are not modelled.
- The `static` locals of `setFrequencies` (main.c:83-85) are modelled as locals initialised before the loop, since the function is called once.
- The endless `while (1)` is modelled as one pass, `MainLoop.Step`, applied repeatedly by the caller.
- Runtime.Status.IncrementMultiplyer: the contract states the transitions of the four values the program reaches; those of other values (such as 0x03 -> 0x06, or anything above 0x04 -> 0) are left unstated.
- Runtime.Status.IncrementBase: specified only from states of the enumeration (`Valid()`), the only states the program reaches; the code would also run from others.
- Runtime.Status.OnEdge: specified only from states of the enumeration whose toggle matches the edges seen so far (`Valid()` and `Debounced()`), which every reachable state satisfies.
