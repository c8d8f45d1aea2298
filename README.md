# Package sorting classifier, modelled in Dafny

The repository is a package-dispatch classifier for a robotic sorting line.
It sends a package to one of three stacks, `STANDARD`, `SPECIAL` or
`REJECTED`, from its width, height and length (centimetres) and its mass
(kilograms). Two threshold predicates drive the choice. A package is
*bulky* when its volume is at least 1,000,000 cm³ or any one dimension is
at least 150 cm. It is *heavy* when its mass is at least 20 kg. The entry
point `sort` first checks that all four arguments are numbers and strictly
positive. It then applies the decision table: both bulky and heavy gives
REJECTED, exactly one of them gives SPECIAL, neither gives STANDARD.

Files:

- `solution.dfy`, module `Solution`: the model. It holds the
  `PackageStack` enumeration and its string values, the three threshold
  constants, `Any` (the source's `any(...)` generator test), `Volume`,
  `IsBulky`, `IsHeavy`, `Classify` (the decision table) and `Sort`
  (validation, then classification).
- `solution_properties.dfy`, module `SolutionProperties`: the lemmas. They
  cover the decision table as seen through `Sort`, inclusive thresholds,
  symmetry of the bulky test, monotonicity and the source's example tables.

The arguments are modelled by `Arg = Num(x: real) | NotNumeric`. `NotNumeric`
stands for a value on which Python's `float()` raises ValueError or
TypeError; both are turned into TypeError (solution.py:89-92). All arithmetic
uses exact reals. Every member is a pure function, so the classifier is
deterministic and free of side effects by construction.

## Model

| member | source | states |
|---|---|---|
| `Solution.Any` | solution.py:48-50 | `any(p(x) for x in xs)` holds exactly when some index of `xs` satisfies `p`; proved by induction over the sequence |
| `Solution.IsBulky` | solution.py:31-50 | bulky holds exactly when the volume is at least 1,000,000 or width, height or length is at least 150. This expands the `any` over the dimension list into the three comparisons |
| `Solution.IsHeavy` | solution.py:53-63 | heavy holds exactly when the mass is at least 20 kg, so a mass of exactly 20 is heavy |
| `Solution.Classify` | solution.py:97-106 | REJECTED exactly when bulky and heavy; SPECIAL exactly when exactly one of them holds; STANDARD exactly when neither holds (all three as if-and-only-if) |
| `Solution.Sort` | solution.py:66-106 | fails with InvalidType exactly when some argument is not numeric, even if another argument is non-positive. Fails with InvalidValue exactly when all are numeric and one is at most 0. Any success value is one of "STANDARD", "SPECIAL" or "REJECTED" |
| `SolutionProperties.ValueInjective` | solution.py:15-19 | two stacks have the same string value exactly when they are the same stack, so the string `sort` returns identifies the stack |
| `SolutionProperties.SortDecisionTable` | solution.py:70-73 | for strictly positive inputs `sort` succeeds with the value of the table's stack. It returns "REJECTED" iff bulky and heavy, "SPECIAL" iff exactly one holds, and "STANDARD" iff neither holds |
| `SolutionProperties.ThresholdsInclusive` | solution.py:47-63 | a dimension of exactly 150 or a volume of exactly 1,000,000 makes a package bulky, and a mass of exactly 20 makes it heavy; heavy holds exactly when the mass is at least 20. Values strictly below every threshold give neither |
| `SolutionProperties.ProductPermutation` | solution.py:47 | the product of the measurements does not depend on their order (any permutation, stated as equal multisets) |
| `SolutionProperties.AnyPermutation` | solution.py:49-50 | whether some dimension reaches the threshold does not depend on the order of the dimension list |
| `SolutionProperties.BulkyPermutationInvariant` | solution.py:47-50 | `is_bulky` gives the same answer for every permutation of (width, height, length) |
| `SolutionProperties.VolumeMonotone` | solution.py:47 | enlarging positive dimensions never decreases the volume |
| `SolutionProperties.ClassifyMonotone` | solution.py:98-106 | for strictly positive inputs, raising any measurement (or several) never moves the result backwards in the order STANDARD < SPECIAL < REJECTED |
| `SolutionProperties.ExamplesStandard` | solution.py:114-120 | (10,10,10,5) and (149,149,45,19) give "STANDARD" |
| `SolutionProperties.ExamplesSpecial` | solution.py:115-123 | the six SPECIAL rows of the example table give "SPECIAL". Three of them sit exactly on a threshold: dimension 150, volume 1,000,000 and mass 20 |
| `SolutionProperties.ExamplesRejected` | solution.py:118-119 | (100,100,100,25) and (160,10,10,25) give "REJECTED" |
| `SolutionProperties.ErrorExamples` | solution.py:151-155 | negative width, zero height and negative mass give InvalidValue; a non-numeric width gives InvalidType |

## Left out

- `run_comprehensive_tests` and the `__main__` entry point (solution.py:109-167): console output and pass/fail counting only. Their example tables are stated as the `Examples*` and `ErrorExamples` lemmas.
- Python's `float()` coercion (solution.py:89-92) is abstracted. Every argument is either a number (`Num`) or not convertible (`NotNumeric`). String parsing, booleans and numeric strings are not modelled.
- `is_bulky` and `is_heavy` get the original, unconverted arguments (solution.py:98-99). A positive numeric string such as `"10"` therefore passes validation and then raises TypeError, from the product or the comparison in `is_bulky` (solution.py:47-48) or from the comparison in `is_heavy` (solution.py:63). In the model a `Num` argument is already a number, so this is not modelled.
- Floating-point behaviour is not modelled; volumes and measurements are exact reals. Rounding in `width * height * length` is not modelled.
- NaN and infinities are not modelled. A NaN argument passes the `<= 0` check (solution.py:94). A NaN width, height or length makes the volume test and its own dimension test false; a NaN mass makes the heavy test false; either way the other arguments decide the stack.
- Overflow and underflow in `float()` are not modelled. A number too large for a float (such as `10**400`) makes `float()` raise OverflowError. That error is not caught at solution.py:91 and reaches the caller as a third error kind. A positive number that `float()` rounds to 0.0 fails the `<= 0` check with ValueError. The model classifies both as ordinary positive reals.
- The error messages carried by the exceptions are not modelled, only the kinds: `TypeError` is modelled as `InvalidType` and `ValueError` as `InvalidValue`.
