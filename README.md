# Pump-probe waveform synthesis for the Keysight 33522B

The two scripts `pump_probe.py` and `pump_probe_twice.py` compute an
amplitude-modulated pump-probe cycle for a caesium magnetometer. They then
program a Keysight 33522B arbitrary waveform generator over SCPI. This
project models what the scripts compute and the exact text they write, and
proves properties of that model in Dafny.

Each script does four things:

1. **Count resolution** (module `Counts`). From the number of samples per
   Larmor period and the whole number of Larmor periods in the pump time,
   the scripts derive three counts with Python floor divisions:
   - `pumpPoints`, the samples of the pump stretch;
   - `pumpPulses`, how often the pump segment repeats;
   - `probeLength`, how often the 10-sample probe segment repeats.

   A whole cycle is 1 000 000 samples.
2. **Segment generation** (module `Segments`).
   - The pump cycle and the trigger's pump cycle are built by `while` loops;
     the transition pulse and the trigger's transition pulse are built by
     `for` loops. The probe segments are list comprehensions.
   - These loops are kept as Dafny methods with loop invariants. Each is
     proved equal to a closed-form definition.
   - Samples are integer thousandths of the peak-to-peak scale, so the
     scripts' three-decimal formatting is exact.
   - The duty cycle is a fraction `dutyNum / dutyDen`, so
     `dutyPoints = periodPoints * dutyNum / dutyDen` needs no floating point.
3. **Text encoding** (modules `Decimal`, `Fields`, `Block`, `Sequence`,
   `Commands`).
   - Samples are printed with three decimals and joined with commas behind
     `data:arb <name>,`.
   - A sequence is a typed `Descriptor`: a name plus steps, each with a
     segment, a count, a repeat mode, a jump mode and a marker. It is
     serialised to the comma-separated step list.
   - The step list is wrapped in the definite-length arbitrary block of
     section 7.7.6 of IEEE 488.2: `#`, then the digit count of the length,
     then the length, then the body.
   - Every printer has a parser beside it, which plays the instrument's
     role, and a round-trip lemma. The format strings the scripts hard-code
     for their sequence bodies are proved equal to the serialisation of the
     matching descriptors.
4. **Command list** (module `Scripts`).
   - Each script's writes are a fixed, ordered list of `Command` values:
     - fixed settings text;
     - segment uploads;
     - sequence uploads.
   - `Written` renders that list to the strings sent, in order.
   - The lemmas state what an instrument reading the list finds:
     - each upload reads back as its name and samples;
     - each sequence reads back as its descriptor and plays only segments
       uploaded to the same channel before it;
     - the store, clear and reload commands come in order;
     - the outputs are switched on last.

The inputs of the scripts are a `Settings` value:
- `periodPoints`;
- `pumpPeriods`, which stands for `floor(pumpTime/periodL)`;
- the duty fraction;
- the pump amplitude, probe amplitude and offset, in thousandths.

`pump_probe_twice.py` also takes `probeAmp2`.

## Model

| member | source | states |
|---|---|---|
| Counts.FloorDiv | pump_probe.py:113 | `m.floor(a / b)` on integers: the result q is the unique integer with b*q <= a < b*q + b for positive b, mirrored for negative b |
| Counts.FloorDivMultiple | pump_probe.py:113 | flooring k*b / b gives back k, so `pumpPulses` recovers the number of whole Larmor periods |
| Counts.Resolve | pump_probe.py:112-114 | fails exactly when periodPoints is 0 (the ZeroDivisionError); otherwise pumpPoints = pumpPeriods*periodPoints, pumpPulses = pumpPeriods, and probeLength is the floor of (1000000 - pumpPoints)/10 |
| Counts.ProbeBudget | pump_probe.py:112-114 | when the pump stretch fits in the cycle, pumpPulses*periodPoints + 10*probeLength is at most 1000000 and leaves fewer than 10 samples unused; when it does not fit, probeLength is negative |
| Counts.WholeCyclePump | pump_probe.py:112-114 | a pump stretch of exactly 1000000 samples gives probeLength 0 |
| Counts.NegativePeriodPoints | pump_probe.py:112-114 | a negative periodPoints is not rejected: -1 samples per period and 5 periods give the counts -5, 5 and 100000 |
| Counts.NoPumpPulses | pump_probe.py:112-114 | with no whole Larmor period in the pump time there are 0 pump pulses and 100000 probe repeats |
| Counts.OneMicroTesla | pump_probe.py:112-114 | with 2858 samples per period and 87 pump periods the counts are 248646, 87 and 75135 |
| Segments.PumpCycle | pump_probe.py:50-58 | the closed-form pump cycle has exactly periodPoints samples, none when periodPoints is not positive; its samples are given by Segments.PumpCycleAt |
| Segments.BuildPumpCycle | pump_probe.py:50-58 | the pump loop yields exactly periodPoints samples (none when it is not positive); sample i is pumpAmp+offset when i < dutyPoints (i*dd < periodPoints*dn) and offset otherwise; equals PumpCycle |
| Segments.PumpCycleAt | pump_probe.py:53-57 | in the closed-form pump cycle, sample i is high exactly when i < dutyPoints |
| Segments.BuildTransitionPulse | pump_probe.py:61-63 | the transition loop yields exactly max(0, floor(dutyPoints)) samples (Segments.TransitionLength, the `range(m.floor(dutyPoints))` bound), each equal to the given level |
| Segments.BuildTriggerPumpCycle | pump_probe.py:70-75 | the trigger loop yields exactly periodPoints samples, all the trigger's high level 1 |
| Segments.Probe | pump_probe.py:100-101 | the probe segment has exactly 10 samples, each probeAmp+offset |
| Segments.TriggerProbe | pump_probe.py:130-131 | the trigger probe segment has exactly 10 samples, each 0 |
| Segments.ZeroDuty | pump_probe.py:50-63 | duty cycle 0 gives a pump cycle that is all offset and an empty transition |
| Segments.FullDuty | pump_probe.py:50-63 | duty cycle 1 gives a pump cycle that is all high, and the transition is then exactly the pump cycle |
| Segments.HighCount | pump_probe.py:53-57 | the number of high samples of the pump cycle is at most periodPoints; Segments.PumpCycleAt and Segments.HighCountQuirk say which samples and how many |
| Segments.HighCountQuirk | pump_probe.py:49-63 | for a duty cycle in [0, 1] the pump loop marks ceil(dutyPoints) samples high while the transition has floor(dutyPoints) samples, so they differ by one exactly when dutyPoints is not whole |
| Segments.TransitionWithinPumpHigh | pump_probe.py:49-63 | for a duty cycle of at most 1 the transition is no longer than the pump's high run and is a prefix of the pump cycle |
| Segments.CeilFloor | pump_probe.py:54 | the ceiling of a / d, which the pump loop's comparison with a real dutyPoints counts, is the floor plus one unless d divides a |
| Decimal.NatToString | pump_probe.py:116-117 | `str(n)` of a natural number is at least one digit, only digits, with no leading zero unless it is `0` |
| Decimal.ParseNatToString | pump_probe.py:116-117 | `str(n)` of a natural number parses back to n |
| Decimal.IntToString | pump_probe.py:115 | `%i` of an integer is non-empty and holds only digits and the minus sign |
| Decimal.IntToStringRoundTrip | pump_probe.py:115 | `%i` of any integer, negative ones included, parses back to that integer |
| Decimal.FormatMilli | pump_probe.py:95 | the three-decimal text of a sample is at least five characters, has its point fourth from the end, and holds only digits, the minus sign and the point |
| Decimal.FormatMilliShape | pump_probe.py:95 | the three-decimal text starts with a minus sign exactly when the sample is negative; the rest is whole digits with no leading zero (unless the whole part is 0), a point and exactly three fraction digits |
| Decimal.MilliRoundTrip | pump_probe.py:95 | reading the three-decimal text of a sample gives back the sample |
| Fields.Join | pump_probe.py:96 | `','.join` of a single element is that element; Fields.SplitJoin and Fields.JoinSeparatorCount state the rest |
| Fields.SplitJoin | pump_probe.py:96 | splitting `','.join(xs)` at commas gives back xs when no element holds a comma |
| Fields.JoinSeparatorCount | pump_probe_twice.py:94 | `','.join(xs)` of comma-free elements holds exactly one comma fewer than it has elements |
| Fields.StripPrefixAppend | pump_probe.py:97 | stripping the command's prefix off prefix + rest gives back rest |
| Block.FrameRoundTrip | pump_probe.py:116-118 | the block Block.Frame writes, `#<digits><length><body>`, decodes to exactly the body if and only if the body's length has at most nine digits |
| Block.DecodedLength | pump_probe.py:116-118 | anything a one-digit block header can frame is shorter than 10^9 characters |
| Block.TwentyThreeCharacters | pump_probe.py:116-118 | a 23-character body gets the header `#223` |
| Commands.ValueStrings | pump_probe.py:95 | one value string per sample, in order, each the three-decimal text of that sample |
| Commands.ParseValueStrings | pump_probe.py:95-96 | the value strings parse back to exactly the samples |
| Commands.ParseEach | pump_probe.py:95-96 | fields that each read as one value read together as those values, in order |
| Commands.ArbValues | pump_probe_twice.py:93-95 | an upload is `data:arb <name>,` then the n values joined with exactly n-1 commas; it ends with the bare comma exactly when the segment is empty |
| Commands.ArbRoundTrip | pump_probe.py:95-97 | an instrument reads an upload, as Commands.ArbCommand writes it (pump_probe.py:97, 104, 109, 127, 134, 139), back as exactly its segment name and samples, the empty segment included |
| Commands.SeqRoundTrip | pump_probe.py:116-118 | a `data:seq` upload as Commands.SeqCommand writes it (pump_probe.py:118, 145), whose body fits the block header reads back as whatever the body parses to |
| Commands.WrittenUpload | pump_probe.py:162-164 | a written segment upload reads back as its name and samples |
| Commands.WrittenSequence | pump_probe.py:165 | a written sequence upload reads back as its descriptor |
| Commands.WrittenReferences | pump_probe.py:162-165 | when every segment a sequence plays was uploaded before it to the same channel, the written strings show each of those uploads before the sequence |
| Commands.RunUploads | pump_probe.py:162-164 | each command of a run of uploads reads back as its segment, in order |
| Commands.ChannelUploads | pump_probe.py:162-164 | wherever a channel's writes stand in the list, its uploads read back as its segments, in order |
| Commands.ChannelSequence | pump_probe.py:162-165 | wherever a channel's writes stand in the list, its sequence reads back as its descriptor and references only segments uploaded to that channel before it |
| Commands.TailOnlyAt | pump_probe.py:174-190 | a fixed command of a list's tail whose text no other command of the list writes is written exactly once, at its own position |
| Commands.ChannelAvoids | pump_probe.py:162-171 | a text that starts with neither the channel's `data:arb ` nor its `data:seq ` prefix is written by none of that channel's uploads or its sequence |
| Commands.AvoidsConcat | pump_probe.py:152-171 | a text written by neither of two command lists is written by none of their concatenation |
| Sequence.SerializeRoundTrip | pump_probe.py:115 | a descriptor whose names hold no comma serialises (Sequence.Serialize) to a step list that parses back to exactly that descriptor |
| Sequence.CycleBodyText | pump_probe.py:115 | the channel-1 format string (Sequence.CycleBody) is the serialisation of the sequence Cs_cycle: pump pumpPulses times, transition once with count 0, probe probeLength times |
| Sequence.CycleBodySteps | pump_probe.py:115 | the channel-1 body parses to exactly those three steps, in that order |
| Sequence.TriggerBodyText | pump_probe.py:142 | the channel-2 format string (Sequence.TriggerBody) is the serialisation of Cs_trigger: trPump, trTransition and trProbe with the channel-1 counts |
| Sequence.TriggerBodySteps | pump_probe.py:142 | the trigger body parses to exactly those three steps, in that order |
| Sequence.TwiceBodyText | pump_probe_twice.py:101 | the six-step format string (Sequence.TwiceBody) is the serialisation of pump, transition, probe, pump, transition, probetwo, with pumpPulses on both pump steps and probeLength on both probe steps |
| Sequence.TwiceBodySteps | pump_probe_twice.py:101 | the six-step body parses to exactly those six steps, in that order |
| Sequence.CycleWellFormed | pump_probe.py:115 | no name in the channel-1 sequence holds a comma |
| Sequence.TriggerWellFormed | pump_probe.py:142 | no name in the trigger sequence holds a comma |
| Sequence.TwiceWellFormed | pump_probe_twice.py:101 | no name in the six-step sequence holds a comma |
| Scripts.SingleCommands | pump_probe.py:152-197 | pump_probe.py makes 29 writes |
| Scripts.SingleScript | pump_probe.py:112-197 | pump_probe.py fails, writing nothing, exactly when periodPoints is 0, and otherwise writes 29 strings |
| Scripts.RunSingle | pump_probe.py:48-197 | running the segment loops and then the writes gives exactly the strings of SingleScript, whose segments are the closed forms of Scripts.SingleSegmentsOf |
| Scripts.SingleCycleUploads | pump_probe.py:162-164 | the writes at indices 6-8 (counting from 0) read back on channel 1 as pump, transition and probe with their samples |
| Scripts.SingleTriggerUploads | pump_probe.py:168-170 | the writes at indices 10-12 read back on channel 2 as trPump, trTransition and trProbe with their samples |
| Scripts.CycleCovers | pump_probe.py:115 | every step of Cs_cycle plays a segment that channel 1 uploads |
| Scripts.TriggerCovers | pump_probe.py:142 | every step of Cs_trigger plays a segment that channel 2 uploads |
| Scripts.SingleCycleSequence | pump_probe.py:162-165 | the write at index 9 reads back as Cs_cycle, and every segment it plays was uploaded to channel 1 before it |
| Scripts.SingleTriggerSequence | pump_probe.py:168-171 | the write at index 13 reads back as Cs_trigger, and every segment it plays was uploaded to channel 2 before it |
| Scripts.SinglePrefix | pump_probe.py:152-171 | the writes of pump_probe.py are its setup and uploads followed by its fixed closing writes |
| Scripts.SingleFinishOnlyAt | pump_probe.py:174-190 | each store, clear and reload write of pump_probe.py is made exactly once, at its position among the closing writes |
| Scripts.SingleCycleReload | pump_probe.py:174-186 | the store of Cs_cycle to channel 1, the clear of channel 1's volatile memory and the reload of Cs_cycle are each written exactly once, at indices 15, 18 and 20, so in that order |
| Scripts.SingleTriggerReload | pump_probe.py:177-190 | the store of Cs_trigger to channel 2, the clear of channel 2's volatile memory and the reload of Cs_trigger are each written exactly once, at indices 17, 19 and 23, so in that order |
| Scripts.SingleOutputsLast | pump_probe.py:196-197 | the last two writes are `output1 on` and `output2 on` |
| Scripts.TwiceCommands | pump_probe_twice.py:111-153 | pump_probe_twice.py makes 15 writes |
| Scripts.TwiceScript | pump_probe_twice.py:98-153 | pump_probe_twice.py fails, writing nothing, exactly when periodPoints is 0, and otherwise writes 15 strings |
| Scripts.RunTwice | pump_probe_twice.py:46-153 | running the segment loops and then the writes gives exactly the strings of TwiceScript, whose segments are the closed forms of Scripts.TwiceSegmentsOf |
| Scripts.TwiceUploads | pump_probe_twice.py:117-120 | the writes at indices 3-6 read back as pump, transition, probe and probetwo with their samples |
| Scripts.TwiceCovers | pump_probe_twice.py:101 | every step of the six-step sequence plays one of the four uploaded segments |
| Scripts.TwiceSequence | pump_probe_twice.py:117-121 | the write at index 7 reads back as the six-step sequence, and all segments it plays were uploaded before it |
| Scripts.TwiceFinishOnlyAt | pump_probe_twice.py:124-131 | each of the store, clear and reload writes of pump_probe_twice.py is made exactly once, at its position among the closing writes |
| Scripts.TwiceFinish | pump_probe_twice.py:124-153 | the store of Cs_cycle, the clear of volatile memory and the reload of Cs_cycle are each written exactly once, at indices 9, 10 and 11, so in that order, and `output on` is the last write |
| Scripts.BodiesFrame | pump_probe.py:115-118 | counts below 10^8 in magnitude leave every sequence body short enough for a one-digit block header |

## Left out

- The floating-point front end is not modelled: `nuL`, `periodL` and the ratio that gives `periodPoints` (pump_probe.py:44-48). `periodPoints` and `floor(pumpTime/periodL)` are integer inputs.
- Floating point in general is not modelled. A duty cycle that is not a fraction, amplitudes that are not multiples of 0.001, and Python's rounding inside the three-decimal format are outside the model; so is the float division inside `m.floor(pumpPoints/periodPoints)`. The text `-0.000`, which Python prints for a negative zero float, does not arise from integer thousandths.
- Command-line parsing (`sys.argv`) is not modelled. The unused matplotlib import is left out.
- `usbtmc.Instrument`, the `*IDN?` query, the two `print` calls that show its reply (pump_probe.py:87-88, pump_probe_twice.py:70-71) and `inst.close()` are device I/O and are left out. The model keeps only the ordered list of strings passed to `inst.write`.
- What the instrument does with `mmem:store`, `mmem:load`, `data:vol:clear` and `func:arb:sync` is not modelled; only the order of those commands is.
- The commented-out burst and sync block of pump_probe_twice.py:133-151 is dead code inside a string literal and is not modelled.
- ethernet_pump_probe.py is not part of this model. It is raw socket I/O with random test data.
- Counts.Resolve: the only error is the ZeroDivisionError when periodPoints is 0. Nothing rejects a pump stretch longer than the cycle: probeLength is then negative and `%i` prints it with a minus sign. A pump stretch of exactly 1000000 samples gives probeLength 0. Nothing rejects a negative periodPoints either: the pump and trigger loops then write no samples, and the counts follow the same formulas.
- Scripts.SingleScript and Scripts.TwiceScript: in the failing case the source has already queried `*IDN?` before it fails. Since the query is left out, the model's failure writes nothing, which matches the source's writes.
