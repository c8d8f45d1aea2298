/**
 * Properties of the package classifier: the decision table as seen through
 * `Sort`, inclusive thresholds, symmetry of the bulky test in the three
 * dimensions, monotonicity, and the fixed example table.
 */
module SolutionProperties {
  import opened Solution

  /** Distinct stacks carry distinct string values, so `Sort`'s string names the stack. */
  lemma ValueInjective(a: PackageStack, b: PackageStack)
    ensures a.Value() == b.Value() <==> a == b
  {
  }

  /** Valid measurements: every one strictly positive. */
  predicate AllPositive(width: real, height: real, length: real, mass: real)
  {
    width > 0.0 && height > 0.0 && length > 0.0 && mass > 0.0
  }

  /**
   * On valid measurements `Sort` never fails, and the string it returns is
   * the decision table applied to the bulky and heavy predicates; every
   * valid package lands in exactly one of the three stacks.
   */
  lemma SortDecisionTable(width: real, height: real, length: real, mass: real)
    requires AllPositive(width, height, length, mass)
    ensures Sort(Num(width), Num(height), Num(length), Num(mass)) == Ok(Classify(width, height, length, mass).Value())
    ensures Sort(Num(width), Num(height), Num(length), Num(mass)) == Ok("REJECTED")
      <==> IsBulky(width, height, length) && IsHeavy(mass)
    ensures Sort(Num(width), Num(height), Num(length), Num(mass)) == Ok("SPECIAL")
      <==> IsBulky(width, height, length) != IsHeavy(mass)
    ensures Sort(Num(width), Num(height), Num(length), Num(mass)) == Ok("STANDARD")
      <==> !IsBulky(width, height, length) && !IsHeavy(mass)
  {
  }

  /**
   * Each threshold is inclusive: a dimension of exactly 150, a volume of
   * exactly 1,000,000 and a mass of exactly 20 already count; anything
   * strictly below all of them does not.
   */
  lemma ThresholdsInclusive(width: real, height: real, length: real, mass: real)
    ensures width == 150.0 || height == 150.0 || length == 150.0 ==> IsBulky(width, height, length)
    ensures Volume(width, height, length) == 1_000_000.0 ==> IsBulky(width, height, length)
    ensures mass == 20.0 ==> IsHeavy(mass)
    ensures IsHeavy(mass) <==> mass >= 20.0
    ensures Volume(width, height, length) < 1_000_000.0 && width < 150.0 && height < 150.0 && length < 150.0
      ==> !IsBulky(width, height, length)
    ensures mass < 20.0 ==> !IsHeavy(mass)
  {
  }

  /** The product of a sequence of reals (the empty product is 1). */
  function Product(xs: seq<real>): (p: real)
  {
    if xs == [] then 1.0 else xs[0] * Product(xs[1..])
  }

  lemma VolumeIsProduct(width: real, height: real, length: real)
    ensures Volume(width, height, length) == Product([width, height, length])
  {
    assert [width, height, length][1..] == [height, length];
    assert [height, length][1..] == [length];
    assert [length][1..] == [];
    assert Product([length]) == length;
    assert Product([height, length]) == height * length;
    assert width * height * length == width * (height * length);
  }

  /** Taking out the factor at index `j` leaves the product of the rest. */
  lemma {:induction false} ProductRemove(xs: seq<real>, j: nat)
    requires j < |xs|
    ensures Product(xs) == xs[j] * Product(xs[..j] + xs[j + 1..])
  {
    if j == 0 {
      assert xs[..0] + xs[1..] == xs[1..];
    } else {
      var tail := xs[1..];
      ProductRemove(tail, j - 1);
      var rest := tail[..j - 1] + tail[j..];
      assert xs[..j] + xs[j + 1..] == [xs[0]] + rest;
      assert ([xs[0]] + rest)[1..] == rest;
      calc {
        Product(xs);
        xs[0] * Product(tail);
        xs[0] * (xs[j] * Product(rest));
        xs[j] * (xs[0] * Product(rest));
        xs[j] * Product([xs[0]] + rest);
      }
    }
  }

  /**
   * When `xs` and `ys` hold the same elements, the first element of `xs`
   * sits at some index `j` of `ys`, and the rest of `xs` holds the same
   * elements as `ys` without that index.
   */
  lemma MatchFirst(xs: seq<real>, ys: seq<real>) returns (j: nat)
    requires xs != [] && multiset(xs) == multiset(ys)
    ensures j < |ys| && ys[j] == xs[0]
    ensures multiset(xs[1..]) == multiset(ys[..j] + ys[j + 1..])
  {
    assert xs[0] in multiset(ys);
    j :| 0 <= j < |ys| && ys[j] == xs[0];
    assert xs == [xs[0]] + xs[1..];
    assert ys == ys[..j] + [ys[j]] + ys[j + 1..];
    assert multiset(ys[..j] + ys[j + 1..]) == multiset(ys) - multiset{xs[0]};
  }

  /** The product does not depend on the order of the factors. */
  lemma {:induction false} ProductPermutation(xs: seq<real>, ys: seq<real>)
    requires multiset(xs) == multiset(ys)
    ensures Product(xs) == Product(ys)
  {
    if xs == [] {
      assert |ys| == |multiset(ys)| == 0;
    } else {
      var j := MatchFirst(xs, ys);
      ProductPermutation(xs[1..], ys[..j] + ys[j + 1..]);
      ProductRemove(ys, j);
    }
  }

  /**
   * Whether some element satisfies `p` does not depend on the order of the
   * elements.
   */
  lemma AnyPermutation(xs: seq<real>, ys: seq<real>, p: real -> bool)
    requires multiset(xs) == multiset(ys)
    ensures Any(xs, p) == Any(ys, p)
  {
    if Any(xs, p) {
      var i :| 0 <= i < |xs| && p(xs[i]);
      assert xs[i] in multiset(ys);
      var j :| 0 <= j < |ys| && ys[j] == xs[i];
    }
    if Any(ys, p) {
      var j :| 0 <= j < |ys| && p(ys[j]);
      assert ys[j] in multiset(xs);
      var i :| 0 <= i < |xs| && xs[i] == ys[j];
    }
  }

  /**
   * Being bulky is invariant under every permutation of width, height and
   * length: both the volume and the per-dimension test are symmetric.
   */
  lemma BulkyPermutationInvariant(dims: seq<real>, permuted: seq<real>)
    requires |dims| == 3 && multiset(dims) == multiset(permuted)
    ensures |permuted| == 3
    ensures IsBulky(dims[0], dims[1], dims[2]) == IsBulky(permuted[0], permuted[1], permuted[2])
  {
    assert |permuted| == |multiset(permuted)| == |multiset(dims)| == 3;
    assert dims == [dims[0], dims[1], dims[2]];
    assert permuted == [permuted[0], permuted[1], permuted[2]];
    VolumeIsProduct(dims[0], dims[1], dims[2]);
    VolumeIsProduct(permuted[0], permuted[1], permuted[2]);
    ProductPermutation(dims, permuted);
    AnyPermutation(dims, permuted, ReachesDimensionThreshold);
  }

  /** Position of a stack in the order STANDARD < SPECIAL < REJECTED. */
  function Rank(s: PackageStack): (k: nat)
  {
    match s
    case STANDARD => 0
    case SPECIAL => 1
    case REJECTED => 2
  }

  /** Enlarging positive dimensions never shrinks the volume. */
  lemma VolumeMonotone(width: real, height: real, length: real,
                       width': real, height': real, length': real)
    requires 0.0 < width <= width' && 0.0 < height <= height' && 0.0 < length <= length'
    ensures Volume(width, height, length) <= Volume(width', height', length')
  {
    assert width * height <= width' * height;
    assert width' * height <= width' * height';
    assert (width * height) * length <= (width' * height') * length;
    assert (width' * height') * length <= (width' * height') * length';
  }

  /**
   * Increasing any of the measurements (or several at once) of a valid
   * package never moves it backwards in the order
   * STANDARD < SPECIAL < REJECTED.
   */
  lemma ClassifyMonotone(width: real, height: real, length: real, mass: real,
                         width': real, height': real, length': real, mass': real)
    requires AllPositive(width, height, length, mass)
    requires width <= width' && height <= height' && length <= length' && mass <= mass'
    ensures Rank(Classify(width, height, length, mass)) <= Rank(Classify(width', height', length', mass'))
  {
    VolumeMonotone(width, height, length, width', height', length');
    assert IsBulky(width, height, length) ==> IsBulky(width', height', length');
    assert IsHeavy(mass) ==> IsHeavy(mass');
  }

  /** The fixed example table: STANDARD rows. */
  lemma ExamplesStandard()
    ensures Sort(Num(10.0), Num(10.0), Num(10.0), Num(5.0)) == Ok("STANDARD")
    ensures Sort(Num(149.0), Num(149.0), Num(45.0), Num(19.0)) == Ok("STANDARD")
  {
  }

  /** The fixed example table: SPECIAL rows, among them the three at a threshold. */
  lemma ExamplesSpecial()
    ensures Sort(Num(10.0), Num(10.0), Num(10.0), Num(25.0)) == Ok("SPECIAL")
    ensures Sort(Num(100.0), Num(100.0), Num(100.0), Num(5.0)) == Ok("SPECIAL")
    ensures Sort(Num(160.0), Num(10.0), Num(10.0), Num(5.0)) == Ok("SPECIAL")
    ensures Sort(Num(150.0), Num(10.0), Num(10.0), Num(19.0)) == Ok("SPECIAL")
    ensures Sort(Num(100.0), Num(100.0), Num(100.0), Num(19.0)) == Ok("SPECIAL")
    ensures Sort(Num(10.0), Num(10.0), Num(10.0), Num(20.0)) == Ok("SPECIAL")
  {
  }

  /** The fixed example table: REJECTED rows. */
  lemma ExamplesRejected()
    ensures Sort(Num(100.0), Num(100.0), Num(100.0), Num(25.0)) == Ok("REJECTED")
    ensures Sort(Num(160.0), Num(10.0), Num(10.0), Num(25.0)) == Ok("REJECTED")
  {
  }

  /** The fixed error cases. */
  lemma ErrorExamples()
    ensures Sort(Num(-1.0), Num(10.0), Num(10.0), Num(5.0)) == Err(InvalidValue)
    ensures Sort(Num(10.0), Num(0.0), Num(10.0), Num(5.0)) == Err(InvalidValue)
    ensures Sort(NotNumeric, Num(10.0), Num(10.0), Num(5.0)) == Err(InvalidType)
    ensures Sort(Num(10.0), Num(10.0), Num(10.0), Num(-5.0)) == Err(InvalidValue)
  {
  }
}
