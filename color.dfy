/** The argument checks of `ColorJitter`: each of brightness, contrast,
    saturation and hue is absent, a single non-negative number spread around
    a centre, or an explicit (min, max) pair, and the resulting range must
    lie within the property's bounds. */
module ColorJitter {
  import opened Results
  import opened Numeric

  /** A jitter argument: `None`, a number, or a (min, max) tuple. */
  datatype Jitter = NoJitter | Scalar(v: real) | Pair(lo: real, hi: real)

  /** A bound that may be infinite (`math.inf`). */
  datatype ExtReal = NegInf | Finite(x: real) | PosInf

  predicate AtMost(a: ExtReal, b: ExtReal) {
    match (a, b)
    case (NegInf, _) => true
    case (_, PosInf) => true
    case (Finite(x), Finite(y)) => x <= y
    case _ => false
  }

  /** bounds[0] <= lo <= hi <= bounds[1]. */
  predicate WithinBounds(lower: ExtReal, upper: ExtReal, lo: real, hi: real) {
    AtMost(lower, Finite(lo)) && lo <= hi && AtMost(Finite(hi), upper)
  }

  datatype JitterError =
    | NegativeScalar(property: string)
    | OutOfBounds(property: string, lo: real, hi: real)

  /** The range a single number v stands for: (center - v, center + v), with
      the lower end raised to 0 when `clipFirstOnZero`. */
  function ScalarRange(v: real, center: real, clipFirstOnZero: bool): (r: (real, real))
    ensures r.1 == center + v
    ensures r.0 == (if clipFirstOnZero then Max(0.0, center - v) else center - v)
  {
    var lo, hi := center - v, center + v;
    (if clipFirstOnZero then Max(0.0, lo) else lo, hi)
  }

  /** `_check_jitter_properties`. */
  function CheckJitterProperties(property: string, value: Jitter, center: real,
                                 lower: ExtReal, upper: ExtReal, clipFirstOnZero: bool)
    : (r: Result<Option<(real, real)>, JitterError>)
    ensures value == NoJitter ==> r == Ok(None)
    ensures value.Scalar? && value.v < 0.0 ==> r == Err(NegativeScalar(property))
    // What is accepted always lies within the bounds, and what is rejected
    // as out of bounds does not.
    ensures r.Ok? && r.value.Some? ==> WithinBounds(lower, upper, r.value.value.0, r.value.value.1)
    ensures r.Err? && r.error.OutOfBounds? ==> !WithinBounds(lower, upper, r.error.lo, r.error.hi)
    // A pair is taken as it is; a single number stands for its range.
    ensures value.Pair? && r.Ok? ==> r.value == Some((value.lo, value.hi))
    ensures value.Pair? ==> (r.Ok? <==> WithinBounds(lower, upper, value.lo, value.hi))
    ensures value.Scalar? && r.Ok? ==> r.value == Some(ScalarRange(value.v, center, clipFirstOnZero))
    ensures value.Scalar? && value.v >= 0.0 ==>
      (r.Ok? <==> WithinBounds(lower, upper, ScalarRange(value.v, center, clipFirstOnZero).0,
                               ScalarRange(value.v, center, clipFirstOnZero).1))
    ensures r.Err? ==> r.error.property == property
  {
    match value
    case NoJitter => Ok(None)
    case Scalar(v) =>
      if v < 0.0 then Err(NegativeScalar(property))
      else
        var range := ScalarRange(v, center, clipFirstOnZero);
        if WithinBounds(lower, upper, range.0, range.1) then Ok(Some(range))
        else Err(OutOfBounds(property, range.0, range.1))
    case Pair(lo, hi) =>
      if WithinBounds(lower, upper, lo, hi) then Ok(Some((lo, hi)))
      else Err(OutOfBounds(property, lo, hi))
  }

  /** The defaults used for brightness, contrast and saturation: centre 1,
      bounds [0, inf), lower end clipped at 0. */
  function CheckFactor(property: string, value: Jitter): (r: Result<Option<(real, real)>, JitterError>)
    ensures r.Ok? && r.value.Some? ==> 0.0 <= r.value.value.0 <= r.value.value.1
    ensures value.Scalar? ==> (r.Ok? <==> value.v >= 0.0)
    ensures value.Pair? ==> (r.Ok? <==> 0.0 <= value.lo <= value.hi)
  {
    CheckJitterProperties(property, value, 1.0, Finite(0.0), PosInf, true)
  }

  /** The settings used for hue: centre 0, bounds [-0.5, 0.5], no clipping. */
  function CheckHue(value: Jitter): (r: Result<Option<(real, real)>, JitterError>)
    ensures r.Ok? && r.value.Some? ==> -0.5 <= r.value.value.0 <= r.value.value.1 <= 0.5
    ensures value.Scalar? ==> (r.Ok? <==> 0.0 <= value.v <= 0.5)
    ensures value.Pair? ==> (r.Ok? <==> -0.5 <= value.lo <= value.hi <= 0.5)
  {
    CheckJitterProperties("hue", value, 0.0, Finite(-0.5), Finite(0.5), false)
  }

  /** A constructed `ColorJitter`: the checked range of each property. */
  datatype Config = Config(brightness: Option<(real, real)>, contrast: Option<(real, real)>,
                           saturation: Option<(real, real)>, hue: Option<(real, real)>)

  /** `ColorJitter.__init__`: the four checks in order; the first failure is
      raised. */
  function New(brightness: Jitter, contrast: Jitter, saturation: Jitter, hue: Jitter)
    : (r: Result<Config, JitterError>)
    ensures r.Ok? <==> CheckFactor("brightness", brightness).Ok? && CheckFactor("contrast", contrast).Ok?
                       && CheckFactor("saturation", saturation).Ok? && CheckHue(hue).Ok?
    ensures r.Ok? ==> r.value == Config(CheckFactor("brightness", brightness).value,
                                        CheckFactor("contrast", contrast).value,
                                        CheckFactor("saturation", saturation).value,
                                        CheckHue(hue).value)
    ensures CheckFactor("brightness", brightness).Err? ==> r == Err(CheckFactor("brightness", brightness).error)
  {
    var b :- CheckFactor("brightness", brightness);
    var c :- CheckFactor("contrast", contrast);
    var s :- CheckFactor("saturation", saturation);
    var h :- CheckHue(hue);
    Ok(Config(b, c, s, h))
  }
}
