/**
 * The two scripts end to end: pump_probe.py drives both channels (the
 * pump-probe waveform on channel 1, its trigger on channel 2) and
 * pump_probe_twice.py drives one channel with a sequence that probes twice.
 * Each builds its segments, resolves its counts and writes a fixed, ordered
 * list of commands; the list is what the model keeps of the writes.
 */
module Scripts {
  import opened Wrappers
  import opened Decimal
  import opened Fields
  import opened Counts
  import opened Segments
  import opened Block
  import opened Sequence
  import opened Commands

  /** What the scripts read from the command line, with the floating-point parts resolved. */
  datatype Settings = Settings(
    periodPoints: int,  // m.floor(periodL/totalTime * totalPoints)
    pumpPeriods: int,   // m.floor(pumpTime/periodL)
    dutyNum: int,       // dutyCycle == dutyNum / dutyDen
    dutyDen: Pos,
    pumpAmp: int,       // thousandths of the peak-to-peak scale
    probeAmp: int,
    offset: int)

  function PumpSegment(s: Settings): seq<int>
  {
    PumpCycle(s.periodPoints, s.dutyNum, s.dutyDen, s.pumpAmp + s.offset, s.offset)
  }

  function TransitionSegment(s: Settings, level: int): seq<int>
  {
    Constant(level, TransitionLength(s.periodPoints, s.dutyNum, s.dutyDen))
  }

  // pump_probe.py

  datatype SingleSegments = SingleSegments(
    pump: seq<int>, transition: seq<int>, probe: seq<int>,
    trPump: seq<int>, trTransition: seq<int>, trProbe: seq<int>)

  function SingleSegmentsOf(s: Settings): SingleSegments
  {
    SingleSegments(PumpSegment(s), TransitionSegment(s, s.pumpAmp + s.offset), Probe(s.probeAmp, s.offset),
                   Constant(TRIGGER_HIGH, Max0(s.periodPoints)), TransitionSegment(s, TRIGGER_HIGH),
                   TriggerProbe())
  }

  /** The writes of pump_probe.py before its first segment: sample rate, filter and scale per channel. */
  const SINGLE_SETUP: seq<Command> :=
    [Fixed("sour1:func:arb:srate 1e7"),
     Fixed("sour1:func:arb:filter off"),
     Fixed("sour1:func:arb:ptpeak 6"),
     Fixed("sour2:func:arb:srate 1e7"),
     Fixed("sour2:func:arb:filter off"),
     Fixed("sour2:func:arb:ptpeak 3")]

  /** The writes of pump_probe.py after its second sequence: store, clear, reload, play. */
  const SINGLE_FINISH: seq<Command> :=
    [Fixed("sour1:func:arb Cs_cycle"),
     Fixed("mmem:store:data1 \"INT:\\Cs_cycle.seq\""),
     Fixed("sour2:func:arb Cs_trigger"),
     Fixed("mmem:store:data2 \"INT:\\Cs_trigger.seq\""),
     Fixed("sour1:data:vol:clear"),
     Fixed("sour2:data:vol:clear"),
     Fixed("mmem:load:data1 \"INT:\\Cs_cycle.seq\""),
     Fixed("sour1:func arb"),
     Fixed("sour1:func:arb \"INT:\\Cs_cycle.seq\""),
     Fixed("mmem:load:data2 \"INT:\\Cs_trigger.seq\""),
     Fixed("sour2:func arb"),
     Fixed("sour2:func:arb \"INT:\\Cs_trigger.seq\""),
     Fixed("func:arb:sync"),
     Fixed("output1 on"),
     Fixed("output2 on")]

  /** The writes of pump_probe.py, in order. */
  function SingleCommands(c: Counts, g: SingleSegments): (cmds: seq<Command>)
    ensures |cmds| == 29
  {
    SINGLE_SETUP
      + Channel("sour1:", CycleUploads(g), CycleDescriptor(c.pumpPulses, c.probeLength))
      + Channel("sour2:", TriggerUploads(g), TriggerDescriptor(c.pumpPulses, c.probeLength))
      + SINGLE_FINISH
  }

  /** pump_probe.py: nothing is written when the pump pulse count cannot be computed. */
  function SingleScript(s: Settings): (r: Result<seq<string>, Error>)
    ensures r.Err? <==> s.periodPoints == 0
    ensures r.Ok? ==> |r.value| == 29
  {
    match Resolve(s.periodPoints, s.pumpPeriods)
    case Err(e) => Err(e)
    case Ok(c) => Ok(Written(SingleCommands(c, SingleSegmentsOf(s))))
  }

  /** The segment loops and value strings of pump_probe.py, then its writes. */
  method RunSingle(s: Settings) returns (r: Result<seq<string>, Error>)
    ensures r == SingleScript(s)
  {
    var high := s.pumpAmp + s.offset;
    var pump := BuildPumpCycle(s.periodPoints, s.dutyNum, s.dutyDen, high, s.offset);
    var transition := BuildTransitionPulse(s.periodPoints, s.dutyNum, s.dutyDen, high);
    var trPump := BuildTriggerPumpCycle(s.periodPoints);
    var trTransition := BuildTransitionPulse(s.periodPoints, s.dutyNum, s.dutyDen, TRIGGER_HIGH);
    var g := SingleSegments(pump, transition, Probe(s.probeAmp, s.offset), trPump, trTransition, TriggerProbe());
    assert g == SingleSegmentsOf(s);
    match Resolve(s.periodPoints, s.pumpPeriods)
    case Err(e) =>
      r := Err(e);
    case Ok(c) =>
      r := Ok(Written(SingleCommands(c, g)));
  }

  /** The segments channel 1 plays, and the trigger segments channel 2 plays. */
  function CycleUploads(g: SingleSegments): seq<Upload>
  {
    [Upload("pump", g.pump), Upload("transition", g.transition), Upload("probe", g.probe)]
  }

  function TriggerUploads(g: SingleSegments): seq<Upload>
  {
    [Upload("trPump", g.trPump), Upload("trTransition", g.trTransition), Upload("trProbe", g.trProbe)]
  }

  /** The writes at indices 6 to 8 of pump_probe.py read back as the three channel-1 segments, names and samples alike. */
  lemma SingleCycleUploads(c: Counts, g: SingleSegments)
    ensures var w := Written(SingleCommands(c, g));
      forall j :: 6 <= j < 9 ==> ParseArb(w[j], "sour1:") == Some(CycleUploads(g)[j - 6])
  {
    var ch1 := Channel("sour1:", CycleUploads(g), CycleDescriptor(c.pumpPulses, c.probeLength));
    var ch2 := Channel("sour2:", TriggerUploads(g), TriggerDescriptor(c.pumpPulses, c.probeLength));
    assert SingleCommands(c, g) == SINGLE_SETUP + ch1 + (ch2 + SINGLE_FINISH);
    ChannelUploads(SINGLE_SETUP, "sour1:", CycleUploads(g), CycleDescriptor(c.pumpPulses, c.probeLength), ch2 + SINGLE_FINISH);
  }

  /** The writes at indices 10 to 12 of pump_probe.py read back as the three channel-2 trigger segments. */
  lemma SingleTriggerUploads(c: Counts, g: SingleSegments)
    ensures var w := Written(SingleCommands(c, g));
      forall j :: 10 <= j < 13 ==> ParseArb(w[j], "sour2:") == Some(TriggerUploads(g)[j - 10])
  {
    var ch1 := Channel("sour1:", CycleUploads(g), CycleDescriptor(c.pumpPulses, c.probeLength));
    ChannelUploads(SINGLE_SETUP + ch1, "sour2:", TriggerUploads(g), TriggerDescriptor(c.pumpPulses, c.probeLength), SINGLE_FINISH);
  }

  /** Each step of the channel-1 sequence plays one of the channel-1 uploads. */
  lemma CycleCovers(c: Counts, g: SingleSegments)
    ensures Covers(CycleUploads(g), CycleDescriptor(c.pumpPulses, c.probeLength))
  {
    var ups := CycleUploads(g);
    var d := CycleDescriptor(c.pumpPulses, c.probeLength);
    forall i | 0 <= i < |d.steps|
      ensures d.steps[i].segment in Names(ups)
    {
      assert ups[i].name == d.steps[i].segment;
    }
  }

  lemma TriggerCovers(c: Counts, g: SingleSegments)
    ensures Covers(TriggerUploads(g), TriggerDescriptor(c.pumpPulses, c.probeLength))
  {
    var ups := TriggerUploads(g);
    var d := TriggerDescriptor(c.pumpPulses, c.probeLength);
    forall i | 0 <= i < |d.steps|
      ensures d.steps[i].segment in Names(ups)
    {
      assert ups[i].name == d.steps[i].segment;
    }
  }

  /**
   * In pump_probe.py the channel-1 sequence (the write at index 9) reads back as its
   * descriptor, and every segment it plays was uploaded to channel 1 before it.
   */
  lemma SingleCycleSequence(c: Counts, g: SingleSegments)
    requires |CycleBody(c.pumpPulses, c.probeLength)| < MAX_PAYLOAD
    ensures var w := Written(SingleCommands(c, g));
      && ParseSeqCommand(w[9], "sour1:") == Some(CycleDescriptor(c.pumpPulses, c.probeLength))
      && ReferencesUploaded(w, 9, "sour1:")
  {
    var d1 := CycleDescriptor(c.pumpPulses, c.probeLength);
    var ch1 := Channel("sour1:", CycleUploads(g), d1);
    var ch2 := Channel("sour2:", TriggerUploads(g), TriggerDescriptor(c.pumpPulses, c.probeLength));
    assert SingleCommands(c, g) == SINGLE_SETUP + ch1 + (ch2 + SINGLE_FINISH);
    CycleBodyText(c.pumpPulses, c.probeLength);
    CycleWellFormed(c.pumpPulses, c.probeLength);
    CycleCovers(c, g);
    ChannelSequence(SINGLE_SETUP, "sour1:", CycleUploads(g), d1, ch2 + SINGLE_FINISH);
  }

  /**
   * In pump_probe.py the channel-2 sequence (the write at index 13) reads back as its
   * descriptor, and every segment it plays was uploaded to channel 2 before it.
   */
  lemma SingleTriggerSequence(c: Counts, g: SingleSegments)
    requires |TriggerBody(c.pumpPulses, c.probeLength)| < MAX_PAYLOAD
    ensures var w := Written(SingleCommands(c, g));
      && ParseSeqCommand(w[13], "sour2:") == Some(TriggerDescriptor(c.pumpPulses, c.probeLength))
      && ReferencesUploaded(w, 13, "sour2:")
  {
    var d2 := TriggerDescriptor(c.pumpPulses, c.probeLength);
    var ch1 := Channel("sour1:", CycleUploads(g), CycleDescriptor(c.pumpPulses, c.probeLength));
    TriggerBodyText(c.pumpPulses, c.probeLength);
    TriggerWellFormed(c.pumpPulses, c.probeLength);
    TriggerCovers(c, g);
    ChannelSequence(SINGLE_SETUP + ch1, "sour2:", TriggerUploads(g), d2, SINGLE_FINISH);
  }

  /** The writes of pump_probe.py before its closing commands. */
  function SinglePrefix(c: Counts, g: SingleSegments): (cmds: seq<Command>)
    ensures SingleCommands(c, g) == cmds + SINGLE_FINISH
  {
    SINGLE_SETUP
      + Channel("sour1:", CycleUploads(g), CycleDescriptor(c.pumpPulses, c.probeLength))
      + Channel("sour2:", TriggerUploads(g), TriggerDescriptor(c.pumpPulses, c.probeLength))
  }

  /** The stores, clears and loads among the closing writes of pump_probe.py. */
  predicate SingleReloadPosition(i: int)
  {
    i == 1 || i == 3 || i == 4 || i == 5 || i == 6 || i == 9
  }

  /** No other closing write of pump_probe.py has the text of a store, clear or load. */
  lemma SingleFinishDistinct(i: int)
    requires SingleReloadPosition(i)
    ensures forall j :: 0 <= j < |SINGLE_FINISH| && j != i ==> Render(SINGLE_FINISH[j]) != SINGLE_FINISH[i].text
  {
  }

  /** A store, clear or load of pump_probe.py is no setup write and starts like no upload. */
  lemma SingleReloadText(i: int)
    requires SingleReloadPosition(i)
    ensures var t := SINGLE_FINISH[i].text;
      && Avoids(SINGLE_SETUP, t)
      && !("sour1:" + "data:arb " <= t) && !("sour1:" + "data:seq " <= t)
      && !("sour2:" + "data:arb " <= t) && !("sour2:" + "data:seq " <= t)
  {
    var t := SINGLE_FINISH[i].text;
    var k1, k2 := if i == 4 then 11 else if i == 5 then 4 else 0, if i == 4 then 4 else if i == 5 then 11 else 0;
    NotPrefix("sour1:" + "data:arb ", t, k1);
    NotPrefix("sour1:" + "data:seq ", t, k1);
    NotPrefix("sour2:" + "data:arb ", t, k2);
    NotPrefix("sour2:" + "data:seq ", t, k2);
  }

  /** A text that is no setup write and starts like no upload is none of the writes before the closing ones. */
  lemma SinglePrefixAvoids(c: Counts, g: SingleSegments, t: string)
    requires Avoids(SINGLE_SETUP, t)
    requires !("sour1:" + "data:arb " <= t) && !("sour1:" + "data:seq " <= t)
    requires !("sour2:" + "data:arb " <= t) && !("sour2:" + "data:seq " <= t)
    ensures Avoids(SinglePrefix(c, g), t)
  {
    var ch1 := Channel("sour1:", CycleUploads(g), CycleDescriptor(c.pumpPulses, c.probeLength));
    var ch2 := Channel("sour2:", TriggerUploads(g), TriggerDescriptor(c.pumpPulses, c.probeLength));
    ChannelAvoids("sour1:", CycleUploads(g), CycleDescriptor(c.pumpPulses, c.probeLength), t);
    ChannelAvoids("sour2:", TriggerUploads(g), TriggerDescriptor(c.pumpPulses, c.probeLength), t);
    AvoidsConcat(SINGLE_SETUP, ch1, t);
    AvoidsConcat(SINGLE_SETUP + ch1, ch2, t);
  }

  /** Each store, clear and load of pump_probe.py is written exactly once, at its own position. */
  lemma SingleFinishOnlyAt(c: Counts, g: SingleSegments, i: int)
    requires SingleReloadPosition(i)
    ensures OnlyAt(Written(SingleCommands(c, g)), SINGLE_FINISH[i].text, 14 + i)
  {
    SingleFinishDistinct(i);
    SingleReloadText(i);
    SinglePrefixAvoids(c, g, SINGLE_FINISH[i].text);
    TailOnlyAt(SinglePrefix(c, g), SINGLE_FINISH, i);
  }

  /**
   * pump_probe.py stores the channel-1 sequence, then clears channel 1's
   * volatile memory, then reloads the sequence, and writes each of these
   * commands exactly once.
   */
  lemma SingleCycleReload(c: Counts, g: SingleSegments)
    ensures var w := Written(SingleCommands(c, g));
      && OnlyAt(w, "mmem:store:data1 \"INT:\\Cs_cycle.seq\"", 15)
      && OnlyAt(w, "sour1:data:vol:clear", 18)
      && OnlyAt(w, "mmem:load:data1 \"INT:\\Cs_cycle.seq\"", 20)
  {
    SingleFinishOnlyAt(c, g, 1);
    SingleFinishOnlyAt(c, g, 4);
    SingleFinishOnlyAt(c, g, 6);
  }

  /** The same for the trigger sequence on channel 2. */
  lemma SingleTriggerReload(c: Counts, g: SingleSegments)
    ensures var w := Written(SingleCommands(c, g));
      && OnlyAt(w, "mmem:store:data2 \"INT:\\Cs_trigger.seq\"", 17)
      && OnlyAt(w, "sour2:data:vol:clear", 19)
      && OnlyAt(w, "mmem:load:data2 \"INT:\\Cs_trigger.seq\"", 23)
  {
    SingleFinishOnlyAt(c, g, 3);
    SingleFinishOnlyAt(c, g, 5);
    SingleFinishOnlyAt(c, g, 9);
  }

  /** pump_probe.py switches the two outputs on last. */
  lemma SingleOutputsLast(c: Counts, g: SingleSegments)
    ensures var w := Written(SingleCommands(c, g));
      w[|w| - 2..] == ["output1 on", "output2 on"]
  {
    WrittenAt(SingleCommands(c, g), 27);
    WrittenAt(SingleCommands(c, g), 28);
  }

  // pump_probe_twice.py

  datatype TwiceSegments = TwiceSegments(
    pump: seq<int>, transition: seq<int>, probe: seq<int>, probeTwo: seq<int>)

  function TwiceSegmentsOf(s: Settings, probeAmp2: int): TwiceSegments
  {
    TwiceSegments(PumpSegment(s), TransitionSegment(s, s.pumpAmp + s.offset),
                  Probe(s.probeAmp, s.offset), Probe(probeAmp2, s.offset))
  }

  /** The writes of pump_probe_twice.py before its first segment. */
  const TWICE_SETUP: seq<Command> :=
    [Fixed("func:arb:srate 1e7"),
     Fixed("func:arb:filter off"),
     Fixed("func:arb:ptpeak 6")]

  /** The writes of pump_probe_twice.py after its sequence: store, clear, reload, play. */
  const TWICE_FINISH: seq<Command> :=
    [Fixed("func:arb Cs_cycle"),
     Fixed("mmem:store:data \"INT:\\Cs_cycle.seq\""),
     Fixed("data:vol:clear"),
     Fixed("mmem:load:data \"INT:\\Cs_cycle.seq\""),
     Fixed("func arb"),
     Fixed("func:arb \"INT:\\Cs_cycle.seq\""),
     Fixed("output on")]

  /** The writes of pump_probe_twice.py, in order; it names no source, so the commands go to channel 1. */
  function TwiceCommands(c: Counts, g: TwiceSegments): (cmds: seq<Command>)
    ensures |cmds| == 15
  {
    TWICE_SETUP + Channel("", TwiceUploadList(g), TwiceDescriptor(c.pumpPulses, c.probeLength)) + TWICE_FINISH
  }

  /** pump_probe_twice.py, with `probeAmp2` the second probe amplitude. */
  function TwiceScript(s: Settings, probeAmp2: int): (r: Result<seq<string>, Error>)
    ensures r.Err? <==> s.periodPoints == 0
    ensures r.Ok? ==> |r.value| == 15
  {
    match Resolve(s.periodPoints, s.pumpPeriods)
    case Err(e) => Err(e)
    case Ok(c) => Ok(Written(TwiceCommands(c, TwiceSegmentsOf(s, probeAmp2))))
  }

  /** The segment loops and value strings of pump_probe_twice.py, then its writes. */
  method RunTwice(s: Settings, probeAmp2: int) returns (r: Result<seq<string>, Error>)
    ensures r == TwiceScript(s, probeAmp2)
  {
    var high := s.pumpAmp + s.offset;
    var pump := BuildPumpCycle(s.periodPoints, s.dutyNum, s.dutyDen, high, s.offset);
    var transition := BuildTransitionPulse(s.periodPoints, s.dutyNum, s.dutyDen, high);
    var g := TwiceSegments(pump, transition, Probe(s.probeAmp, s.offset), Probe(probeAmp2, s.offset));
    assert g == TwiceSegmentsOf(s, probeAmp2);
    match Resolve(s.periodPoints, s.pumpPeriods)
    case Err(e) =>
      r := Err(e);
    case Ok(c) =>
      r := Ok(Written(TwiceCommands(c, g)));
  }

  /** The four segments pump_probe_twice.py uploads. */
  function TwiceUploadList(g: TwiceSegments): seq<Upload>
  {
    [Upload("pump", g.pump), Upload("transition", g.transition), Upload("probe", g.probe),
     Upload("probetwo", g.probeTwo)]
  }

  /** The writes at indices 3 to 6 of pump_probe_twice.py read back as its four segments, names and samples alike. */
  lemma TwiceUploads(c: Counts, g: TwiceSegments)
    ensures var w := Written(TwiceCommands(c, g));
      forall j :: 3 <= j < 7 ==> ParseArb(w[j], "") == Some(TwiceUploadList(g)[j - 3])
  {
    ChannelUploads(TWICE_SETUP, "", TwiceUploadList(g), TwiceDescriptor(c.pumpPulses, c.probeLength), TWICE_FINISH);
  }

  /** Each step of the sequence of pump_probe_twice.py plays one of its four uploads. */
  lemma TwiceCovers(c: Counts, g: TwiceSegments)
    ensures Covers(TwiceUploadList(g), TwiceDescriptor(c.pumpPulses, c.probeLength))
  {
    var ups := TwiceUploadList(g);
    var d := TwiceDescriptor(c.pumpPulses, c.probeLength);
    forall i | 0 <= i < |d.steps|
      ensures d.steps[i].segment in Names(ups)
    {
      var k := if i == 5 then 3 else i % 3;
      assert ups[k].name == d.steps[i].segment;
    }
  }

  /**
   * In pump_probe_twice.py the sequence reads back as its six-step
   * descriptor, and all four segments it plays were uploaded before it.
   */
  lemma TwiceSequence(c: Counts, g: TwiceSegments)
    requires |TwiceBody(c.pumpPulses, c.probeLength)| < MAX_PAYLOAD
    ensures var w := Written(TwiceCommands(c, g));
      && ParseSeqCommand(w[7], "") == Some(TwiceDescriptor(c.pumpPulses, c.probeLength))
      && ReferencesUploaded(w, 7, "")
  {
    var ups := TwiceUploadList(g);
    var d := TwiceDescriptor(c.pumpPulses, c.probeLength);
    TwiceBodyText(c.pumpPulses, c.probeLength);
    TwiceWellFormed(c.pumpPulses, c.probeLength);
    TwiceCovers(c, g);
    ChannelSequence(TWICE_SETUP, "", ups, d, TWICE_FINISH);
  }

  /** No other closing write of pump_probe_twice.py has the text of its store, clear or load. */
  lemma TwiceFinishDistinct(i: int)
    requires 1 <= i <= 3
    ensures forall j :: 0 <= j < |TWICE_FINISH| && j != i ==> Render(TWICE_FINISH[j]) != TWICE_FINISH[i].text
  {
  }

  /** No setup write or upload of pump_probe_twice.py has the text of its store, clear or load. */
  lemma TwicePrefixAvoids(c: Counts, g: TwiceSegments, i: int)
    requires 1 <= i <= 3
    ensures Avoids(TWICE_SETUP + Channel("", TwiceUploadList(g), TwiceDescriptor(c.pumpPulses, c.probeLength)),
                   TWICE_FINISH[i].text)
  {
    var t := TWICE_FINISH[i].text;
    var d := TwiceDescriptor(c.pumpPulses, c.probeLength);
    var k := if i == 2 then 5 else 0;
    NotPrefix("" + "data:arb ", t, k);
    NotPrefix("" + "data:seq ", t, k);
    ChannelAvoids("", TwiceUploadList(g), d, t);
    assert Avoids(TWICE_SETUP, t);
    AvoidsConcat(TWICE_SETUP, Channel("", TwiceUploadList(g), d), t);
  }

  /** Each of the store, clear and load of pump_probe_twice.py is written exactly once, at its own position. */
  lemma TwiceFinishOnlyAt(c: Counts, g: TwiceSegments, i: int)
    requires 1 <= i <= 3
    ensures OnlyAt(Written(TwiceCommands(c, g)), TWICE_FINISH[i].text, 8 + i)
  {
    TwiceFinishDistinct(i);
    TwicePrefixAvoids(c, g, i);
    TailOnlyAt(TWICE_SETUP + Channel("", TwiceUploadList(g), TwiceDescriptor(c.pumpPulses, c.probeLength)),
               TWICE_FINISH, i);
  }

  /**
   * pump_probe_twice.py stores the sequence, then clears volatile memory,
   * then reloads the sequence, writing each exactly once, and switches the
   * output on last.
   */
  lemma TwiceFinish(c: Counts, g: TwiceSegments)
    ensures var w := Written(TwiceCommands(c, g));
      && OnlyAt(w, "mmem:store:data \"INT:\\Cs_cycle.seq\"", 9)
      && OnlyAt(w, "data:vol:clear", 10)
      && OnlyAt(w, "mmem:load:data \"INT:\\Cs_cycle.seq\"", 11)
      && w[|w| - 1] == "output on"
  {
    TwiceFinishOnlyAt(c, g, 1);
    TwiceFinishOnlyAt(c, g, 2);
    TwiceFinishOnlyAt(c, g, 3);
    WrittenAt(TwiceCommands(c, g), 14);
  }

  /** Counts below 10^8 in magnitude leave every body short enough for a one-digit block header. */
  lemma BodiesFrame(pumpPulses: int, probeLength: int)
    requires -(Pow10(8) as int) < pumpPulses < Pow10(8) && -(Pow10(8) as int) < probeLength < Pow10(8)
    ensures |CycleBody(pumpPulses, probeLength)| < MAX_PAYLOAD
    ensures |TriggerBody(pumpPulses, probeLength)| < MAX_PAYLOAD
    ensures |TwiceBody(pumpPulses, probeLength)| < MAX_PAYLOAD
  {
    NatToStringAtMost(Abs(pumpPulses), 8);
    NatToStringAtMost(Abs(probeLength), 8);
    assert Pow10(8) == 100000000;
  }
}
