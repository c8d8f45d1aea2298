/**
 * The package-dispatch classifier: the three stacks a package can go to,
 * the "bulky" and "heavy" threshold predicates and the validating `Sort`
 * entry point that maps four measurements onto a stack.
 *
 * Measurements are exact reals; centimetres for the three dimensions and
 * kilograms for the mass.
 */
module Solution {

  /** The three dispatch stacks. */
  datatype PackageStack = STANDARD | SPECIAL | REJECTED
  {
    /** The string value each enumeration member carries. */
    function Value(): string
    {
      match this
      case STANDARD => "STANDARD"
      case SPECIAL => "SPECIAL"
      case REJECTED => "REJECTED"
    }
  }

  /** Classification thresholds (all inclusive). */
  const VOLUME_THRESHOLD_CM3: real := 1_000_000.0
  const DIMENSION_THRESHOLD_CM: real := 150.0
  const MASS_THRESHOLD_KG: real := 20.0

  /**
   * An argument as the caller passes it: either a value that converts to a
   * number, or one that does not (a non-numeric string, say).
   */
  datatype Arg = Num(x: real) | NotNumeric

  /** The two ways `Sort` refuses its arguments. */
  datatype SortError =
    | InvalidType   // an argument cannot be converted to a number
    | InvalidValue  // an argument is a number but not strictly positive

  datatype Result<T> = Ok(value: T) | Err(error: SortError)

  /** `any(p(x) for x in xs)`: some element of `xs` satisfies `p`. */
  function Any(xs: seq<real>, p: real -> bool): (r: bool)
    ensures r <==> exists i :: 0 <= i < |xs| && p(xs[i])
  {
    if xs == [] then false
    else p(xs[0]) || Any(xs[1..], p)
  }

  /** Width times height times length. */
  function Volume(width: real, height: real, length: real): (v: real)
  {
    width * height * length
  }

  predicate ReachesDimensionThreshold(dim: real)
  {
    dim >= DIMENSION_THRESHOLD_CM
  }

  /**
   * A package is bulky when its volume reaches the volume threshold or any
   * one of its dimensions reaches the dimension threshold.
   */
  function IsBulky(width: real, height: real, length: real): (b: bool)
    ensures b <==> || Volume(width, height, length) >= 1_000_000.0
                   || width >= 150.0 || height >= 150.0 || length >= 150.0
  {
    var volume := Volume(width, height, length);
    var dimensions := [width, height, length];
    assert dimensions[0] == width && dimensions[1] == height && dimensions[2] == length;
    volume >= VOLUME_THRESHOLD_CM3
      || Any(dimensions, ReachesDimensionThreshold)
  }

  /** A package is heavy when its mass reaches the mass threshold. */
  function IsHeavy(mass: real): (b: bool)
    ensures b <==> mass >= 20.0
  {
    mass >= MASS_THRESHOLD_KG
  }

  /**
   * The decision table applied to measurements that passed validation:
   * REJECTED when bulky and heavy, SPECIAL when exactly one of the two
   * holds, STANDARD when neither does.
   */
  function Classify(width: real, height: real, length: real, mass: real): (s: PackageStack)
    ensures s == REJECTED <==> IsBulky(width, height, length) && IsHeavy(mass)
    ensures s == SPECIAL <==> IsBulky(width, height, length) != IsHeavy(mass)
    ensures s == STANDARD <==> !IsBulky(width, height, length) && !IsHeavy(mass)
  {
    var bulky := IsBulky(width, height, length);
    var heavy := IsHeavy(mass);
    if bulky && heavy then REJECTED
    else if bulky || heavy then SPECIAL
    else STANDARD
  }

  predicate NotPositive(x: real)
  {
    x <= 0.0
  }

  /**
   * The public entry point. All four arguments are converted first; any
   * argument that is not numeric fails with InvalidType, even when another
   * argument is non-positive. Then any argument that is not strictly
   * positive fails with InvalidValue. Otherwise the result is the string
   * value of the stack the package goes to.
   */
  function Sort(width: Arg, height: Arg, length: Arg, mass: Arg): (r: Result<string>)
    ensures r == Err(InvalidType) <==>
      width.NotNumeric? || height.NotNumeric? || length.NotNumeric? || mass.NotNumeric?
    ensures r == Err(InvalidValue) <==>
      && width.Num? && height.Num? && length.Num? && mass.Num?
      && (width.x <= 0.0 || height.x <= 0.0 || length.x <= 0.0 || mass.x <= 0.0)
    ensures r.Ok? ==> r.value in {"STANDARD", "SPECIAL", "REJECTED"}
  {
    if width.NotNumeric? || height.NotNumeric? || length.NotNumeric? || mass.NotNumeric? then
      Err(InvalidType)
    else
      var dimensions := [width.x, height.x, length.x, mass.x];
      assert dimensions[0] == width.x && dimensions[1] == height.x;
      assert dimensions[2] == length.x && dimensions[3] == mass.x;
      if Any(dimensions, NotPositive) then
        Err(InvalidValue)
      else
        Ok(Classify(width.x, height.x, length.x, mass.x).Value())
  }
}
