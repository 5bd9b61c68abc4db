/** Properties of the `ColorJitter` argument checks. */
module ColorLemmas {
  import opened Results
  import opened Numeric
  import opened ColorJitter

  /** A single number gives a range around the centre whose upper end is
      exactly v above it and whose lower end is v below it unless clipped
      at 0. */
  lemma ScalarRangeAroundCenter(property: string, v: real, center: real,
                                lower: ExtReal, upper: ExtReal, clipFirstOnZero: bool)
    requires CheckJitterProperties(property, Scalar(v), center, lower, upper, clipFirstOnZero).Ok?
    ensures var r := CheckJitterProperties(property, Scalar(v), center, lower, upper, clipFirstOnZero).value;
      && r.Some?
      && r.value.1 - center == v
      && (r.value.0 == center - v || (clipFirstOnZero && r.value.0 == 0.0 && center - v < 0.0))
      && (center >= 0.0 || !clipFirstOnZero ==> r.value.0 <= center <= r.value.1)
  {
  }

  /** For brightness, contrast and saturation every non-negative number is
      accepted as (max(0, 1 - v), 1 + v), and every negative one is
      rejected. */
  lemma FactorScalar(property: string, v: real)
    ensures v >= 0.0 ==> CheckFactor(property, Scalar(v)) == Ok(Some((Max(0.0, 1.0 - v), 1.0 + v)))
    ensures v < 0.0 ==> CheckFactor(property, Scalar(v)) == Err(NegativeScalar(property))
  {
  }

  /** A (min, max) factor pair is accepted unchanged exactly when
      0 <= min <= max. */
  lemma FactorPair(property: string, lo: real, hi: real)
    ensures CheckFactor(property, Pair(lo, hi)).Ok? <==> 0.0 <= lo <= hi
    ensures CheckFactor(property, Pair(lo, hi)).Ok? ==> CheckFactor(property, Pair(lo, hi)).value == Some((lo, hi))
  {
  }

  /** A single hue value v is accepted exactly when 0 <= v <= 0.5, and then
      stands for (-v, v). */
  lemma HueScalar(v: real)
    ensures CheckHue(Scalar(v)).Ok? <==> 0.0 <= v <= 0.5
    ensures CheckHue(Scalar(v)).Ok? ==> CheckHue(Scalar(v)).value == Some((-v, v))
  {
  }

  /** A hue pair is accepted unchanged exactly when
      -0.5 <= min <= max <= 0.5. */
  lemma HuePair(lo: real, hi: real)
    ensures CheckHue(Pair(lo, hi)).Ok? <==> -0.5 <= lo <= hi <= 0.5
    ensures CheckHue(Pair(lo, hi)).Ok? ==> CheckHue(Pair(lo, hi)).value == Some((lo, hi))
  {
  }

  /** Hue 0.3 gives (-0.3, 0.3), hue 0.6 is rejected; brightness 0.5 gives
      (0.5, 1.5) and brightness 2 gives (0, 3). */
  lemma Examples()
    ensures CheckHue(Scalar(0.3)) == Ok(Some((-0.3, 0.3)))
    ensures CheckHue(Scalar(0.6)) == Err(OutOfBounds("hue", -0.6, 0.6))
    ensures CheckFactor("brightness", Scalar(0.5)) == Ok(Some((0.5, 1.5)))
    ensures CheckFactor("brightness", Scalar(2.0)) == Ok(Some((0.0, 3.0)))
  {
  }

  /** With no arguments nothing is jittered. */
  lemma NewDefaults()
    ensures New(NoJitter, NoJitter, NoJitter, NoJitter) == Ok(Config(None, None, None, None))
  {
  }

  /** The checks run in order, so an invalid brightness is reported even
      when the hue is invalid too. */
  lemma NewReportsFirstError()
    ensures New(Scalar(-1.0), NoJitter, NoJitter, Scalar(0.6)) == Err(NegativeScalar("brightness"))
    ensures New(NoJitter, NoJitter, NoJitter, Scalar(0.6)) == Err(OutOfBounds("hue", -0.6, 0.6))
  {
  }
}
