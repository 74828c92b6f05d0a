/** The pitch model: twelve base pitches (octave "0", C to B), the
    just-intonation ratios from unison to major seventh, and the two
    frequency formulas built from them. Doubles are modelled as reals;
    every table entry is a decimal or rational constant and every octave
    factor an integer power of two, so no rounding is involved. */
module MusicTheory {

  /** `MusicTheory::fundamentalPitches`: Hz of each pitch class, 0 = C .. 11 = B. */
  const FundamentalPitches: seq<real> :=
    [16.35, 17.32, 18.35, 19.45, 20.60, 21.83, 23.12, 24.50, 25.96, 27.50, 29.14, 30.87]

  /** The ratios used by `FFF`: 0 = unison .. 11 = major seventh. */
  const JustIntervals: seq<real> :=
    [1.0, 25.0 / 24.0, 9.0 / 8.0, 6.0 / 5.0, 5.0 / 4.0, 4.0 / 3.0,
     45.0 / 32.0, 3.0 / 2.0, 8.0 / 5.0, 5.0 / 3.0, 9.0 / 5.0, 15.0 / 8.0]

  /** `pow(2.0, e)` for an integer exponent. */
  function Pow2(e: int): (r: real)
    ensures r > 0.0
    decreases if e < 0 then -e else e
  {
    if e == 0 then 1.0
    else if e > 0 then 2.0 * Pow2(e - 1)
    else Pow2(e + 1) / 2.0
  }

  lemma Pow2Succ(e: int)
    ensures Pow2(e + 1) == 2.0 * Pow2(e)
  {
  }

  /** Every base pitch is positive. */
  lemma FundamentalPitchPositive(i: int)
    requires 0 <= i < 12
    ensures FundamentalPitches[i] > 0.0
  {
  }

  /** Adjacent base pitches rise, and B of one octave lies below C of the next. */
  lemma FundamentalPitchStep(i: int)
    requires 0 <= i < 12
    ensures i < 11 ==> FundamentalPitches[i] < FundamentalPitches[i + 1]
    ensures FundamentalPitches[11] < 2.0 * FundamentalPitches[0]
  {
  }

  /** Each just ratio lies in [1, 2) and the table is strictly increasing
      from one entry to the next. */
  lemma JustIntervalStep(i: int)
    requires 0 <= i < 12
    ensures 1.0 <= JustIntervals[i] < 2.0
    ensures i < 11 ==> JustIntervals[i] < JustIntervals[i + 1]
  {
  }

  /** The just-intonation table is strictly increasing. */
  lemma {:induction false} JustIntervalsIncreasing(i: int, j: int)
    requires 0 <= i < j < 12
    ensures JustIntervals[i] < JustIntervals[j]
  {
    JustIntervalStep(j - 1);
    if i < j - 1 {
      JustIntervalsIncreasing(i, j - 1);
    }
  }

  /** `MusicTheory::BaseFrequency`: the equal-temperament pitch of a pitch
      class in an octave. */
  function BaseFrequency(intervalIndex: int, octaveIndex: int): (r: real)
    requires 0 <= intervalIndex < 12
    ensures r > 0.0
  {
    FundamentalPitchPositive(intervalIndex);
    FundamentalPitches[intervalIndex] * Pow2(octaveIndex + 1)
  }

  /** `MusicTheory::FFF` ("frequency from fundamental"): the base pitch of the
      fundamental, in the given octave, times a just ratio. */
  function FFF(fundamentalIndex: int, intervalIndex: int, octaveIndex: int): (r: real)
    requires 0 <= fundamentalIndex < 12 && 0 <= intervalIndex < 12
    ensures intervalIndex == 0 ==> r == BaseFrequency(fundamentalIndex, octaveIndex)
    ensures BaseFrequency(fundamentalIndex, octaveIndex) <= r < 2.0 * BaseFrequency(fundamentalIndex, octaveIndex)
  {
    JustIntervalStep(intervalIndex);
    FundamentalPitches[fundamentalIndex] * Pow2(octaveIndex + 1) * JustIntervals[intervalIndex]
  }

  /** Raising the octave index by one doubles the frequency. */
  lemma FFFOctaveDoubles(fundamentalIndex: int, intervalIndex: int, octaveIndex: int)
    requires 0 <= fundamentalIndex < 12 && 0 <= intervalIndex < 12
    ensures FFF(fundamentalIndex, intervalIndex, octaveIndex + 1) == 2.0 * FFF(fundamentalIndex, intervalIndex, octaveIndex)
  {
    Pow2Succ(octaveIndex + 1);
  }

  /** Within one fundamental and octave, a larger interval index gives a
      higher frequency. */
  lemma FFFIncreasingInInterval(fundamentalIndex: int, i: int, j: int, octaveIndex: int)
    requires 0 <= fundamentalIndex < 12 && 0 <= i < j < 12
    ensures FFF(fundamentalIndex, i, octaveIndex) < FFF(fundamentalIndex, j, octaveIndex)
  {
    JustIntervalsIncreasing(i, j);
    var p := BaseFrequency(fundamentalIndex, octaveIndex);
    ScaleUp(p, JustIntervals[i], JustIntervals[j]);
    assert FFF(fundamentalIndex, i, octaveIndex) == p * JustIntervals[i];
    assert FFF(fundamentalIndex, j, octaveIndex) == p * JustIntervals[j];
  }

  lemma ScaleUp(p: real, x: real, y: real)
    requires p > 0.0 && x < y
    ensures p * x < p * y
  {
  }

  /** Equal temperament: raising the octave index by one doubles the frequency. */
  lemma BaseFrequencyOctaveDoubles(intervalIndex: int, octaveIndex: int)
    requires 0 <= intervalIndex < 12
    ensures BaseFrequency(intervalIndex, octaveIndex + 1) == 2.0 * BaseFrequency(intervalIndex, octaveIndex)
  {
    Pow2Succ(octaveIndex + 1);
  }
}
