/**
 * The sequence descriptor compiler. A sequence is a name and an ordered
 * list of steps; each step names an uploaded segment, how often it is
 * played, whether it repeats or plays once, how it advances, and its marker
 * point. On the wire it is the comma-separated text
 * `"<name>","<segment>",<count>,<repeat>,<jump>,<marker>,...`.
 *
 * The scripts write that text as one format string per sequence; the
 * lemmas here prove that each of those strings is the serialisation of the
 * descriptor it stands for, and that parsing it gives the descriptor back.
 */
module Sequence {
  import opened Wrappers
  import opened Decimal
  import opened Fields

  datatype RepeatMode = Repeat | Once

  datatype JumpMode = Maintain | HighAtStart

  datatype Step = Step(segment: string, count: int, repeat: RepeatMode, jump: JumpMode, marker: int)

  datatype Descriptor = Descriptor(name: string, steps: seq<Step>)

  /** The marker point every step of both scripts carries. */
  const MARKER: int := 5

  function RepeatWord(m: RepeatMode): string
  {
    match m
    case Repeat => "repeat"
    case Once => "once"
  }

  function JumpWord(j: JumpMode): string
  {
    match j
    case Maintain => "maintain"
    case HighAtStart => "highAtStart"
  }

  function Quote(s: string): string { "\"" + s + "\"" }

  /** The five comma-free fields of one step. */
  function StepWords(s: Step): seq<string>
  {
    [Quote(s.segment), IntToString(s.count), RepeatWord(s.repeat), JumpWord(s.jump), IntToString(s.marker)]
  }

  function StepText(s: Step): string
  {
    Quote(s.segment) + "," + IntToString(s.count) + "," + RepeatWord(s.repeat) + ","
      + JumpWord(s.jump) + "," + IntToString(s.marker)
  }

  function StepsText(steps: seq<Step>): string
  {
    if steps == [] then "" else "," + StepText(steps[0]) + StepsText(steps[1..])
  }

  /** The body the scripts pass to `data:seq`. */
  function Serialize(d: Descriptor): string
  {
    Quote(d.name) + StepsText(d.steps)
  }

  /** Names must not contain the field separator. */
  predicate WellFormed(d: Descriptor)
  {
    ',' !in d.name && forall i :: 0 <= i < |d.steps| ==> ',' !in d.steps[i].segment
  }

  // Reading a body back.

  function Unquote(f: string): Option<string>
  {
    if |f| >= 2 && f[0] == '"' && f[|f| - 1] == '"' then Some(f[1..|f| - 1]) else None
  }

  function ParseRepeat(f: string): Option<RepeatMode>
  {
    if f == "repeat" then Some(Repeat) else if f == "once" then Some(Once) else None
  }

  function ParseJump(f: string): Option<JumpMode>
  {
    if f == "maintain" then Some(Maintain) else if f == "highAtStart" then Some(HighAtStart) else None
  }

  function ParseStep(w: seq<string>): Option<Step>
    requires |w| == 5
  {
    match (Unquote(w[0]), ParseInt(w[1]), ParseRepeat(w[2]), ParseJump(w[3]), ParseInt(w[4]))
    case (Some(seg), Some(count), Some(rep), Some(jump), Some(marker)) =>
      Some(Step(seg, count, rep, jump, marker))
    case _ => None
  }

  function ParseSteps(fs: seq<string>): Option<seq<Step>>
    decreases |fs|
  {
    if fs == [] then Some([])
    else if |fs| < 5 then None
    else
      match (ParseStep(fs[..5]), ParseSteps(fs[5..]))
      case (Some(s), Some(rest)) => Some([s] + rest)
      case _ => None
  }

  function ParseDescriptor(body: string): Option<Descriptor>
  {
    var fs := Split(body, ',');
    match (Unquote(fs[0]), ParseSteps(fs[1..]))
    case (Some(name), Some(steps)) => Some(Descriptor(name, steps))
    case _ => None
  }

  // The round trip.

  function StepFields(steps: seq<Step>): seq<string>
  {
    if steps == [] then [] else StepWords(steps[0]) + StepFields(steps[1..])
  }

  lemma IntToStringCommaFree(i: int)
    ensures ',' !in IntToString(i)
  {
  }

  lemma QuoteCommaFree(s: string)
    requires ',' !in s
    ensures ',' !in Quote(s)
  {
  }

  lemma SplitStep(s: Step)
    requires ',' !in s.segment
    ensures Split(StepText(s), ',') == StepWords(s)
  {
    var q, c, r, j, m := Quote(s.segment), IntToString(s.count), RepeatWord(s.repeat),
                         JumpWord(s.jump), IntToString(s.marker);
    QuoteCommaFree(s.segment);
    IntToStringCommaFree(s.count);
    IntToStringCommaFree(s.marker);
    assert StepText(s) == q + [','] + (c + [','] + (r + [','] + (j + [','] + m)));
    SplitFive(q, c, r, j, m);
  }

  /** Five comma-free fields joined by commas split back into those fields. */
  lemma SplitFive(q: string, c: string, r: string, j: string, m: string)
    requires ',' !in q && ',' !in c && ',' !in r && ',' !in j && ',' !in m
    ensures Split(q + [','] + (c + [','] + (r + [','] + (j + [','] + m))), ',') == [q, c, r, j, m]
  {
    SplitNone(q, ',');
    SplitNone(c, ',');
    SplitNone(r, ',');
    SplitNone(j, ',');
    SplitNone(m, ',');
    SplitAppend(j, m, ',');
    SplitAppend(r, j + [','] + m, ',');
    SplitAppend(c, r + [','] + (j + [','] + m), ',');
    SplitAppend(q, c + [','] + (r + [','] + (j + [','] + m)), ',');
  }

  /** Splitting a text followed by serialised steps yields the text's fields, then the steps'. */
  lemma {:induction false} SplitSteps(x: string, steps: seq<Step>)
    requires forall i :: 0 <= i < |steps| ==> ',' !in steps[i].segment
    ensures Split(x + StepsText(steps), ',') == Split(x, ',') + StepFields(steps)
    decreases |steps|
  {
    if steps == [] {
      assert x + StepsText(steps) == x;
    } else {
      var t, rest := StepText(steps[0]), StepsText(steps[1..]);
      SplitSteps(t, steps[1..]);
      SplitStep(steps[0]);
      SplitCons(x, t, rest, StepWords(steps[0]), StepFields(steps[1..]));
    }
  }

  /** The inductive step of SplitSteps, for any text t whose fields are w. */
  lemma SplitCons(x: string, t: string, rest: string, w: seq<string>, f: seq<string>)
    requires Split(t, ',') == w
    requires Split(t + rest, ',') == Split(t, ',') + f
    ensures Split(x + ("," + t + rest), ',') == Split(x, ',') + (w + f)
  {
    assert x + ("," + t + rest) == x + [','] + (t + rest);
    SplitAppend(x, t + rest, ',');
  }

  lemma {:induction false} ParseStepFields(steps: seq<Step>)
    ensures ParseSteps(StepFields(steps)) == Some(steps)
  {
    if steps != [] {
      var s := steps[0];
      var fs := StepFields(steps);
      assert fs[..5] == StepWords(s);
      assert fs[5..] == StepFields(steps[1..]);
      IntToStringRoundTrip(s.count);
      IntToStringRoundTrip(s.marker);
      assert Unquote(Quote(s.segment)) == Some(s.segment);
      assert ParseRepeat(RepeatWord(s.repeat)) == Some(s.repeat) by { if s.repeat == Once { } }
      assert ParseJump(JumpWord(s.jump)) == Some(s.jump) by { if s.jump == HighAtStart { } }
      ParseStepFields(steps[1..]);
      assert [s] + steps[1..] == steps;
    }
  }

  /** Parsing a serialised descriptor gives back exactly that descriptor. */
  lemma SerializeRoundTrip(d: Descriptor)
    requires WellFormed(d)
    ensures ParseDescriptor(Serialize(d)) == Some(d)
  {
    QuoteCommaFree(d.name);
    SplitNone(Quote(d.name), ',');
    SplitSteps(Quote(d.name), d.steps);
    ParseStepFields(d.steps);
    assert Unquote(Quote(d.name)) == Some(d.name);
  }

  // The sequences of the two scripts.

  function PumpProbeSteps(pump: string, transition: string, probe: string,
                          pumpPulses: int, probeLength: int): seq<Step>
  {
    [Step(pump, pumpPulses, Repeat, Maintain, MARKER),
     Step(transition, 0, Once, HighAtStart, MARKER),
     Step(probe, probeLength, Repeat, Maintain, MARKER)]
  }

  /** Channel 1 of pump_probe.py: pump, transition, probe. */
  function CycleDescriptor(pumpPulses: int, probeLength: int): Descriptor
  {
    Descriptor("Cs_cycle", PumpProbeSteps("pump", "transition", "probe", pumpPulses, probeLength))
  }

  /** Channel 2 of pump_probe.py: the trigger segments, with the same counts. */
  function TriggerDescriptor(pumpPulses: int, probeLength: int): Descriptor
  {
    Descriptor("Cs_trigger", PumpProbeSteps("trPump", "trTransition", "trProbe", pumpPulses, probeLength))
  }

  /** pump_probe_twice.py: two pump-probe triples, the second probing with `probetwo`. */
  function TwiceDescriptor(pumpPulses: int, probeLength: int): Descriptor
  {
    Descriptor("Cs_cycle",
      PumpProbeSteps("pump", "transition", "probe", pumpPulses, probeLength)
      + PumpProbeSteps("pump", "transition", "probetwo", pumpPulses, probeLength))
  }

  /** No name in the scripts' sequences contains a comma. */
  lemma CycleWellFormed(pumpPulses: int, probeLength: int)
    ensures WellFormed(CycleDescriptor(pumpPulses, probeLength))
  {
  }

  lemma TriggerWellFormed(pumpPulses: int, probeLength: int)
    ensures WellFormed(TriggerDescriptor(pumpPulses, probeLength))
  {
  }

  lemma TwiceWellFormed(pumpPulses: int, probeLength: int)
    ensures WellFormed(TwiceDescriptor(pumpPulses, probeLength))
  {
  }

  // The format strings of the scripts, split at the step boundaries.

  const REPEAT_TAIL := ",repeat,maintain,5"
  const ONCE_TAIL := ",0,once,highAtStart,5"

  /** The `pumpProbe` format string of pump_probe.py. */
  function CycleBody(pumpPulses: int, probeLength: int): string
  {
    "\"Cs_cycle\"" + ",\"pump\"," + IntToString(pumpPulses) + REPEAT_TAIL
      + ",\"transition\"" + ONCE_TAIL + ",\"probe\"," + IntToString(probeLength) + REPEAT_TAIL
  }

  /** The `trigger` format string of pump_probe.py. */
  function TriggerBody(pumpPulses: int, probeLength: int): string
  {
    "\"Cs_trigger\"" + ",\"trPump\"," + IntToString(pumpPulses) + REPEAT_TAIL
      + ",\"trTransition\"" + ONCE_TAIL + ",\"trProbe\"," + IntToString(probeLength) + REPEAT_TAIL
  }

  /** The `pumpProbe` format string of pump_probe_twice.py. */
  function TwiceBody(pumpPulses: int, probeLength: int): string
  {
    "\"Cs_cycle\"" + ",\"pump\"," + IntToString(pumpPulses) + REPEAT_TAIL
      + ",\"transition\"" + ONCE_TAIL + ",\"probe\"," + IntToString(probeLength) + REPEAT_TAIL
      + ",\"pump\"," + IntToString(pumpPulses) + REPEAT_TAIL
      + ",\"transition\"" + ONCE_TAIL + ",\"probetwo\"," + IntToString(probeLength) + REPEAT_TAIL
  }

  lemma RepeatStepText(segment: string, count: int)
    ensures StepText(Step(segment, count, Repeat, Maintain, MARKER))
         == Quote(segment) + "," + IntToString(count) + REPEAT_TAIL
  {
    assert IntToString(MARKER) == "5";
    assert "," + "repeat" + "," + "maintain" + "," + "5" == REPEAT_TAIL;
  }

  lemma OnceStepText(segment: string)
    ensures StepText(Step(segment, 0, Once, HighAtStart, MARKER)) == Quote(segment) + ONCE_TAIL
  {
    assert IntToString(MARKER) == "5" && IntToString(0) == "0";
    assert "," + "0" + "," + "once" + "," + "highAtStart" + "," + "5" == ONCE_TAIL;
  }

  /** The text of a pump, transition, probe triple. */
  lemma PumpProbeStepsText(head: string, pump: string, transition: string, probe: string,
                           pumpPulses: int, probeLength: int, more: seq<Step>)
    ensures head + StepsText(PumpProbeSteps(pump, transition, probe, pumpPulses, probeLength) + more)
         == head + ("," + Quote(pump) + ",") + IntToString(pumpPulses) + REPEAT_TAIL
              + ("," + Quote(transition)) + ONCE_TAIL
              + ("," + Quote(probe) + ",") + IntToString(probeLength) + REPEAT_TAIL
              + StepsText(more)
  {
    var steps := PumpProbeSteps(pump, transition, probe, pumpPulses, probeLength) + more;
    assert steps[1..][0] == steps[1] && steps[1..][1..][0] == steps[2];
    assert steps[1..][1..][1..] == more;
    assert StepsText(steps) == "," + StepText(steps[0]) + StepsText(steps[1..]);
    assert StepsText(steps[1..]) == "," + StepText(steps[1]) + StepsText(steps[1..][1..]);
    assert StepsText(steps[1..][1..]) == "," + StepText(steps[2]) + StepsText(more);
    Nest(head, StepText(steps[0]), StepText(steps[1]), StepText(steps[2]), StepsText(more));
    RepeatStepText(pump, pumpPulses);
    OnceStepText(transition);
    RepeatStepText(probe, probeLength);
    Regroup(head, Quote(pump), Quote(transition), Quote(probe),
            IntToString(pumpPulses), IntToString(probeLength), StepsText(more));
  }

  /** Three nested steps of StepsText, written flat. */
  lemma Nest(h: string, a: string, b: string, c: string, rest: string)
    ensures h + ("," + a + ("," + b + ("," + c + rest))) == h + "," + a + "," + b + "," + c + rest
  {
  }

  /** A triple's text grouped by step, regrouped as the scripts' format strings split it. */
  lemma Regroup(q0: string, q1: string, q2: string, q3: string, i: string, k: string, rest: string)
    ensures q0 + "," + (q1 + "," + i + REPEAT_TAIL) + "," + (q2 + ONCE_TAIL) + ","
              + (q3 + "," + k + REPEAT_TAIL) + rest
         == q0 + ("," + q1 + ",") + i + REPEAT_TAIL + ("," + q2) + ONCE_TAIL
              + ("," + q3 + ",") + k + REPEAT_TAIL + rest
  {
  }

  lemma QuotedNames()
    ensures Quote("Cs_cycle") == "\"Cs_cycle\"" && Quote("Cs_trigger") == "\"Cs_trigger\""
    ensures "," + Quote("pump") + "," == ",\"pump\"," && "," + Quote("transition") == ",\"transition\""
    ensures "," + Quote("probe") + "," == ",\"probe\"," && "," + Quote("probetwo") + "," == ",\"probetwo\","
    ensures "," + Quote("trPump") + "," == ",\"trPump\"," && "," + Quote("trTransition") == ",\"trTransition\""
    ensures "," + Quote("trProbe") + "," == ",\"trProbe\","
  {
  }

  lemma CycleBodyText(pumpPulses: int, probeLength: int)
    ensures CycleBody(pumpPulses, probeLength) == Serialize(CycleDescriptor(pumpPulses, probeLength))
  {
    var steps := PumpProbeSteps("pump", "transition", "probe", pumpPulses, probeLength);
    assert steps + [] == steps;
    PumpProbeStepsText(Quote("Cs_cycle"), "pump", "transition", "probe", pumpPulses, probeLength, []);
    QuotedNames();
  }

  lemma TriggerBodyText(pumpPulses: int, probeLength: int)
    ensures TriggerBody(pumpPulses, probeLength) == Serialize(TriggerDescriptor(pumpPulses, probeLength))
  {
    var steps := PumpProbeSteps("trPump", "trTransition", "trProbe", pumpPulses, probeLength);
    assert steps + [] == steps;
    PumpProbeStepsText(Quote("Cs_trigger"), "trPump", "trTransition", "trProbe", pumpPulses, probeLength, []);
    QuotedNames();
  }

  lemma TwiceBodyText(pumpPulses: int, probeLength: int)
    ensures TwiceBody(pumpPulses, probeLength) == Serialize(TwiceDescriptor(pumpPulses, probeLength))
  {
    var second := PumpProbeSteps("pump", "transition", "probetwo", pumpPulses, probeLength);
    assert second + [] == second;
    PumpProbeStepsText(Quote("Cs_cycle"), "pump", "transition", "probe", pumpPulses, probeLength, second);
    var head := Quote("Cs_cycle") + ("," + Quote("pump") + ",") + IntToString(pumpPulses) + REPEAT_TAIL
              + ("," + Quote("transition")) + ONCE_TAIL
              + ("," + Quote("probe") + ",") + IntToString(probeLength) + REPEAT_TAIL;
    PumpProbeStepsText(head, "pump", "transition", "probetwo", pumpPulses, probeLength, []);
    QuotedNames();
  }

  /**
   * The channel-1 body of pump_probe.py lists exactly three steps, in order:
   * pump played pumpPulses times, the transition once (with count 0), and
   * the probe played probeLength times.
   */
  lemma CycleBodySteps(pumpPulses: int, probeLength: int)
    ensures ParseDescriptor(CycleBody(pumpPulses, probeLength))
         == Some(CycleDescriptor(pumpPulses, probeLength))
  {
    CycleBodyText(pumpPulses, probeLength);
    CycleWellFormed(pumpPulses, probeLength);
    SerializeRoundTrip(CycleDescriptor(pumpPulses, probeLength));
  }

  /** The trigger body lists trPump, trTransition and trProbe with the channel-1 counts. */
  lemma TriggerBodySteps(pumpPulses: int, probeLength: int)
    ensures ParseDescriptor(TriggerBody(pumpPulses, probeLength))
         == Some(TriggerDescriptor(pumpPulses, probeLength))
  {
    TriggerBodyText(pumpPulses, probeLength);
    TriggerWellFormed(pumpPulses, probeLength);
    SerializeRoundTrip(TriggerDescriptor(pumpPulses, probeLength));
  }

  /**
   * The body of pump_probe_twice.py lists six steps: pump, transition,
   * probe, pump, transition, probetwo; both pump steps carry pumpPulses and
   * both probe steps carry probeLength.
   */
  lemma TwiceBodySteps(pumpPulses: int, probeLength: int)
    ensures ParseDescriptor(TwiceBody(pumpPulses, probeLength))
         == Some(TwiceDescriptor(pumpPulses, probeLength))
  {
    TwiceBodyText(pumpPulses, probeLength);
    TwiceWellFormed(pumpPulses, probeLength);
    SerializeRoundTrip(TwiceDescriptor(pumpPulses, probeLength));
  }
}
