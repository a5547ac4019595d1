/** The two arithmetic helpers of the library (index.ts:30-39). Times and
    modifiers are exact reals here; see README for what that leaves out. */
module PaxCalculator {

  /** The PAX ("indexed") time of a run: the raw time scaled by the class
      modifier (index.ts:31-33). No domain check, no failure case. */
  function CalculatePaxTime(rawTime: real, modifier: real): real {
    rawTime * modifier
  }

  /** The raw time a driver in a class with `comparisonModifier` must beat to
      have a better PAX time than `rawTime` in a class with `modifier`
      (index.ts:35-39). The source does not guard a zero divisor, where
      JavaScript would produce Infinity or NaN; the model excludes that case. */
  function CalculateTimeToBeat(rawTime: real, modifier: real, comparisonModifier: real): real
    requires comparisonModifier != 0.0
  {
    (rawTime * modifier) / comparisonModifier
  }

  /** Scaling the time to beat by the comparison class's modifier gives back
      exactly the reference PAX time: the two runs tie on PAX. */
  lemma TimeToBeatRoundTrip(rawTime: real, modifier: real, comparisonModifier: real)
    requires comparisonModifier != 0.0
    ensures CalculatePaxTime(CalculateTimeToBeat(rawTime, modifier, comparisonModifier), comparisonModifier)
         == CalculatePaxTime(rawTime, modifier)
  {
  }

  /** For a positive comparison modifier, a raw time beats the reference PAX
      time exactly when it is below the time to beat. */
  lemma TimeToBeatIsThreshold(rawTime: real, modifier: real, comparisonModifier: real, candidate: real)
    requires comparisonModifier > 0.0
    ensures CalculatePaxTime(candidate, comparisonModifier) < CalculatePaxTime(rawTime, modifier)
        <==> candidate < CalculateTimeToBeat(rawTime, modifier, comparisonModifier)
  {
    var target := CalculateTimeToBeat(rawTime, modifier, comparisonModifier);
    TimeToBeatRoundTrip(rawTime, modifier, comparisonModifier);
    PaxTimeKeepsOrder(candidate, target, comparisonModifier);
  }

  /** With a positive modifier, PAX times order runs exactly as raw times do. */
  lemma PaxTimeKeepsOrder(a: real, b: real, modifier: real)
    requires modifier > 0.0
    ensures CalculatePaxTime(a, modifier) < CalculatePaxTime(b, modifier) <==> a < b
  {
    assert CalculatePaxTime(b, modifier) - CalculatePaxTime(a, modifier) == (b - a) * modifier;
  }

  /** A modifier in (0, 1], as every modifier of the table is, never raises a
      non-negative raw time. */
  lemma PaxTimeNeverExceedsRaw(rawTime: real, modifier: real)
    requires rawTime >= 0.0 && 0.0 < modifier <= 1.0
    ensures 0.0 <= CalculatePaxTime(rawTime, modifier) <= rawTime
  {
    assert rawTime - CalculatePaxTime(rawTime, modifier) == rawTime * (1.0 - modifier);
  }

  /** Comparing against one's own class asks for one's own raw time. */
  lemma TimeToBeatSameClass(rawTime: real, modifier: real)
    requires modifier != 0.0
    ensures CalculateTimeToBeat(rawTime, modifier, modifier) == rawTime
  {
  }

  /** Worked values: 60 s in a 0.835 class is 50.1 s on PAX, and the raw time
      a 0.826 class must beat against 50.1 s at 0.835 lies between 50.64 s and
      50.65 s. */
  lemma WorkedExamples()
    ensures CalculatePaxTime(60.0, 0.835) == 50.1
    ensures 50.64 < CalculateTimeToBeat(50.1, 0.835, 0.826) < 50.65
  {
  }
}
