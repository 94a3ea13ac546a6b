/**
 * The cycle parameter resolver: from the samples per Larmor period and the
 * whole number of Larmor periods that fit in the pump time, the scripts
 * derive the sample count of the pump stretch, the number of pump pulses
 * and the number of times the 10-sample probe segment is repeated.
 */
module Counts {
  import opened Wrappers

  /** Samples in one whole pump-probe cycle (`totalPoints`). */
  const TOTAL_POINTS: int := 1000000

  /** Samples in one probe segment (`probePoints`, `triggerProbePoints`). */
  const PROBE_POINTS: nat := 10

  /** `pumpPoints / periodPoints` raises ZeroDivisionError when periodPoints is 0. */
  datatype Error = ZeroPeriodPoints

  datatype Counts = Counts(pumpPoints: int, pumpPulses: int, probeLength: int)

  /** Python's `m.floor(a / b)` on integers: the quotient rounded towards minus infinity. */
  function FloorDiv(a: int, b: int): (q: int)
    requires b != 0
    ensures b > 0 ==> b * q <= a < b * q + b
    ensures b < 0 ==> b * q >= a > b * q + b
  {
    if b > 0 then a / b else (-a) / (-b)
  }

  /** Dividing a multiple of b by b and flooring gives the multiplier back. */
  lemma FloorDivMultiple(k: int, b: int)
    requires b != 0
    ensures FloorDiv(k * b, b) == k
  {
    var q := FloorDiv(k * b, b);
    var d := q - k;
    assert b * d == b * q - k * b;
    if d >= 1 {
      MulAtLeast(b, d);
    } else if d <= -1 {
      MulAtLeast(b, -d);
    }
  }

  /** |b * d| is at least |b| when d is a positive whole number. */
  lemma MulAtLeast(b: int, d: int)
    requires d >= 1
    ensures b > 0 ==> b * d >= b
    ensures b < 0 ==> b * d <= b
  {
    assert b * d == b + b * (d - 1);
    if b > 0 { assert b * (d - 1) >= 0; }
    if b < 0 { assert (-b) * (d - 1) >= 0; }
  }

  /**
   * `pumpPoints = floor(pumpTime/periodL) * periodPoints`,
   * `pumpPulses = floor(pumpPoints / periodPoints)` and
   * `probeLength = floor((totalPoints - pumpPoints) / probePoints)`,
   * with `pumpPeriods` standing for `floor(pumpTime/periodL)`.
   * Nothing rejects a pump stretch longer than the cycle: probeLength is
   * then negative.
   */
  function Resolve(periodPoints: int, pumpPeriods: int): (r: Result<Counts, Error>)
    ensures r.Err? <==> periodPoints == 0
    ensures r.Ok? ==> r.value.pumpPoints == pumpPeriods * periodPoints
    ensures r.Ok? ==> r.value.pumpPulses == pumpPeriods
    ensures r.Ok? ==>
      PROBE_POINTS * r.value.probeLength <= TOTAL_POINTS - r.value.pumpPoints
        < PROBE_POINTS * r.value.probeLength + PROBE_POINTS
  {
    if periodPoints == 0 then Err(ZeroPeriodPoints)
    else
      var pumpPoints := pumpPeriods * periodPoints;
      FloorDivMultiple(pumpPeriods, periodPoints);
      Ok(Counts(pumpPoints, FloorDiv(pumpPoints, periodPoints),
                FloorDiv(TOTAL_POINTS - pumpPoints, PROBE_POINTS)))
  }

  /**
   * The pump pulses and the probe repeats never ask for more samples than
   * the cycle has, and leave fewer than one probe segment unused; when the
   * pump stretch alone is longer than the cycle, the probe count is negative.
   */
  lemma ProbeBudget(periodPoints: int, pumpPeriods: int)
    requires periodPoints != 0
    ensures var c := Resolve(periodPoints, pumpPeriods).value;
      && c.pumpPulses * periodPoints == c.pumpPoints
      && (c.pumpPoints <= TOTAL_POINTS ==>
            && 0 <= c.probeLength
            && c.pumpPulses * periodPoints + PROBE_POINTS * c.probeLength <= TOTAL_POINTS
            && TOTAL_POINTS - (c.pumpPulses * periodPoints + PROBE_POINTS * c.probeLength) < PROBE_POINTS)
      && (c.pumpPoints > TOTAL_POINTS ==> c.probeLength < 0)
  {
  }

  /** A pump stretch of exactly the whole cycle leaves no probe repeats. */
  lemma WholeCyclePump(periodPoints: int, pumpPeriods: int)
    requires periodPoints != 0 && pumpPeriods * periodPoints == TOTAL_POINTS
    ensures Resolve(periodPoints, pumpPeriods) == Ok(Counts(TOTAL_POINTS, pumpPeriods, 0))
  {
  }

  /**
   * Nothing rejects a negative periodPoints: the pump stretch is then
   * negative and the probe repeats exceed a whole cycle's worth.
   */
  lemma NegativePeriodPoints()
    ensures Resolve(-1, 5) == Ok(Counts(-5, 5, 100000))
  {
  }

  /** A pump time shorter than one Larmor period gives zero pump pulses and a full probe stretch. */
  lemma NoPumpPulses(periodPoints: int)
    requires periodPoints != 0
    ensures Resolve(periodPoints, 0) == Ok(Counts(0, 0, TOTAL_POINTS / PROBE_POINTS))
  {
  }

  /**
   * One microtesla: `periodPoints` is 2858 and 87 whole Larmor periods fit in
   * 25 ms of pumping.
   */
  lemma OneMicroTesla()
    ensures Resolve(2858, 87) == Ok(Counts(248646, 87, 75135))
  {
  }
}
