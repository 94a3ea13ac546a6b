/**
 * The waveform segment generator. Samples are integer thousandths of the
 * instrument's peak-to-peak scale (so `0.500` is 500), and the duty cycle
 * is the fraction dn/dd, so `dutyPoints = periodPoints * dn / dd` is exact.
 *
 * The scripts build the pump cycle with a `while` loop that marks sample i
 * high while `i < dutyPoints`, which gives ceil(dutyPoints) high samples,
 * and the transition with `range(floor(dutyPoints))`. Both loops are kept
 * as methods and proved equal to closed-form definitions.
 */
module Segments {
  import opened Counts

  type Pos = d: int | d > 0 witness 1

  /** The trigger channel's levels: the integers 1 and 0, printed as 1.000 and 0.000. */
  const TRIGGER_HIGH: int := 1000
  const TRIGGER_LOW: int := 0

  function Max0(x: int): nat { if x < 0 then 0 else x }

  /** n copies of v, appended one at a time as the scripts' loops do. */
  function Constant(v: int, n: nat): (s: seq<int>)
    ensures |s| == n
    ensures forall i :: 0 <= i < n ==> s[i] == v
  {
    if n == 0 then [] else Constant(v, n - 1) + [v]
  }

  /** The smallest c with a <= c * d. */
  function CeilDiv(a: int, d: Pos): (c: int)
    ensures d * (c - 1) < a <= d * c
  {
    -((-a) / d)
  }

  /** An integer i lies below a / d exactly when it lies below its ceiling. */
  lemma BelowCeil(i: int, a: int, d: Pos)
    ensures i * d < a <==> i < CeilDiv(a, d)
  {
    var c := CeilDiv(a, d);
    if i < c {
      MulMonotone(i, c - 1, d);
    } else {
      MulMonotone(c, i, d);
    }
  }

  lemma MulMonotone(x: int, y: int, d: Pos)
    requires x <= y
    ensures x * d <= y * d
  {
    assert y * d - x * d == (y - x) * d;
  }

  /** `len(range(m.floor(dutyPoints)))`: a negative floor gives no samples. */
  function TransitionLength(periodPoints: int, dn: int, dd: Pos): nat
  {
    Max0(FloorDiv(periodPoints * dn, dd))
  }

  /** How many samples `i < dutyPoints` marks high in `range(periodPoints)`. */
  function HighCount(periodPoints: int, dn: int, dd: Pos): (h: nat)
    ensures h <= Max0(periodPoints)
  {
    var c := CeilDiv(periodPoints * dn, dd);
    if c < 0 then 0 else if c > Max0(periodPoints) then Max0(periodPoints) else c
  }

  /** One Larmor period of the pump waveform: a high run followed by a low run. */
  function PumpCycle(periodPoints: int, dn: int, dd: Pos, high: int, low: int): (s: seq<int>)
    ensures |s| == Max0(periodPoints)
  {
    var h := HighCount(periodPoints, dn, dd);
    Constant(high, h) + Constant(low, Max0(periodPoints) - h)
  }

  /** Sample i of the pump cycle is high exactly when i < dutyPoints. */
  lemma PumpCycleAt(periodPoints: int, dn: int, dd: Pos, high: int, low: int, i: int)
    requires 0 <= i < Max0(periodPoints)
    ensures PumpCycle(periodPoints, dn, dd, high, low)[i]
         == if i * dd < periodPoints * dn then high else low
  {
    BelowCeil(i, periodPoints * dn, dd);
  }

  /** The pump loop of pump_probe.py and pump_probe_twice.py. */
  method BuildPumpCycle(periodPoints: int, dn: int, dd: Pos, high: int, low: int)
    returns (s: seq<int>)
    ensures |s| == Max0(periodPoints)
    ensures forall i :: 0 <= i < |s| ==> s[i] == if i * dd < periodPoints * dn then high else low
    ensures s == PumpCycle(periodPoints, dn, dd, high, low)
  {
    s := [];
    var cyclePoints := 0;
    while cyclePoints < periodPoints
      invariant 0 <= cyclePoints <= Max0(periodPoints)
      invariant |s| == cyclePoints
      invariant forall i :: 0 <= i < cyclePoints ==>
        s[i] == if i * dd < periodPoints * dn then high else low
    {
      if cyclePoints * dd < periodPoints * dn {
        s := s + [high];
      } else {
        s := s + [low];
      }
      cyclePoints := cyclePoints + 1;
    }
    forall i | 0 <= i < |s|
      ensures s[i] == PumpCycle(periodPoints, dn, dd, high, low)[i]
    {
      PumpCycleAt(periodPoints, dn, dd, high, low, i);
    }
  }

  /** The `for i in range(m.floor(dutyPoints))` loops: the transition pulse and its trigger. */
  method BuildTransitionPulse(periodPoints: int, dn: int, dd: Pos, level: int)
    returns (s: seq<int>)
    ensures |s| == TransitionLength(periodPoints, dn, dd)
    ensures forall i :: 0 <= i < |s| ==> s[i] == level
    ensures s == Constant(level, TransitionLength(periodPoints, dn, dd))
  {
    var n := FloorDiv(periodPoints * dn, dd);
    s := [];
    var i := 0;
    while i < n
      invariant 0 <= i <= Max0(n)
      invariant s == Constant(level, i)
    {
      s := s + [level];
      i := i + 1;
    }
  }

  /** The trigger loop of pump_probe.py: the trigger stays high for the whole period. */
  method BuildTriggerPumpCycle(periodPoints: int) returns (s: seq<int>)
    ensures |s| == Max0(periodPoints)
    ensures forall i :: 0 <= i < |s| ==> s[i] == TRIGGER_HIGH
    ensures s == Constant(TRIGGER_HIGH, Max0(periodPoints))
  {
    s := [];
    var cyclePoints := 0;
    while cyclePoints < periodPoints
      invariant 0 <= cyclePoints <= Max0(periodPoints)
      invariant s == Constant(TRIGGER_HIGH, cyclePoints)
    {
      s := s + [TRIGGER_HIGH];
      cyclePoints := cyclePoints + 1;
    }
  }

  /** `[probeAmp+offset for x in range(probePoints)]`. */
  function Probe(probeAmp: int, offset: int): (s: seq<int>)
    ensures |s| == PROBE_POINTS
    ensures forall i :: 0 <= i < |s| ==> s[i] == probeAmp + offset
  {
    Constant(probeAmp + offset, PROBE_POINTS)
  }

  /** `[0 for x in range(triggerProbePoints)]`. */
  function TriggerProbe(): (s: seq<int>)
    ensures |s| == PROBE_POINTS
    ensures forall i :: 0 <= i < |s| ==> s[i] == TRIGGER_LOW
  {
    Constant(TRIGGER_LOW, PROBE_POINTS)
  }

  /** Duty cycle 0: the pump cycle is all offset and the transition is empty. */
  lemma ZeroDuty(periodPoints: int, dd: Pos, high: int, low: int)
    ensures PumpCycle(periodPoints, 0, dd, high, low) == Constant(low, Max0(periodPoints))
    ensures TransitionLength(periodPoints, 0, dd) == 0
  {
    assert HighCount(periodPoints, 0, dd) == 0;
  }

  /** Duty cycle 1: the pump cycle is all high, and the transition is a copy of it. */
  lemma FullDuty(periodPoints: int, dd: Pos, high: int, low: int)
    ensures PumpCycle(periodPoints, dd, dd, high, low) == Constant(high, Max0(periodPoints))
    ensures Constant(high, TransitionLength(periodPoints, dd, dd))
         == PumpCycle(periodPoints, dd, dd, high, low)
  {
    FloorDivMultiple(periodPoints, dd);
    assert CeilDiv(periodPoints * dd, dd) == periodPoints by {
      BelowCeil(periodPoints, periodPoints * dd, dd);
      BelowCeil(periodPoints - 1, periodPoints * dd, dd);
    }
  }

  /**
   * For a duty cycle in [0, 1] the pump cycle has one more high sample than
   * the transition has samples exactly when dutyPoints is not a whole number.
   */
  lemma HighCountQuirk(periodPoints: nat, dn: nat, dd: Pos)
    requires dn <= dd
    ensures HighCount(periodPoints, dn, dd)
         == TransitionLength(periodPoints, dn, dd) + if (periodPoints * dn) % dd == 0 then 0 else 1
  {
    var a := periodPoints * dn;
    if periodPoints > 0 {
      MulMonotone(dn, dd, periodPoints);
    }
    BelowCeil(periodPoints, a, dd);
    CeilFloor(a, dd);
  }

  /** The ceiling of a / d is its floor, plus one when d does not divide a. */
  lemma CeilFloor(a: int, d: Pos)
    ensures CeilDiv(a, d) == a / d + if a % d == 0 then 0 else 1
  {
    var q := a / d;
    if a % d == 0 {
      assert q * d == a;
      BelowCeil(q, a, d);
      BelowCeil(q - 1, a, d);
    } else {
      assert q * d < a;
      BelowCeil(q, a, d);
      assert a < (q + 1) * d;
      BelowCeil(q + 1, a, d);
    }
  }

  /**
   * For a duty cycle of at most 1 the transition is a prefix of the pump
   * cycle: it is no longer than the pump's high run, and every one of its
   * samples equals the pump sample in the same place.
   */
  lemma TransitionWithinPumpHigh(periodPoints: nat, dn: int, dd: Pos, high: int, low: int)
    requires dn <= dd
    ensures TransitionLength(periodPoints, dn, dd) <= HighCount(periodPoints, dn, dd)
    ensures Constant(high, TransitionLength(periodPoints, dn, dd))
         <= PumpCycle(periodPoints, dn, dd, high, low)
  {
    var a := periodPoints * dn;
    var t := TransitionLength(periodPoints, dn, dd);
    if t > 0 {
      MulMonotone(dn, dd, periodPoints);
      BelowCeil(a / dd, a, dd);
      assert (a / dd) * dd <= a;
      BelowCeil(a / dd - 1, a, dd);
    }
  }
}
