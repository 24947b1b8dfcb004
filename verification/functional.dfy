/** Higher-order functions, function references, thunks and lambdas (the
    `Functional Features in Kotlin` test class). All arithmetic is on `Int`
    and wraps around. */
module Functional {
  import opened Kotlin

  /** `returnsANumber(baseResult) = baseResult`. */
  function ReturnsANumber(baseResult: int32): (r: int32)
    ensures r == baseResult
  {
    baseResult
  }

  /** `triplesANumber(baseNumber, returnsNumber) = returnsNumber(baseNumber) * 3`. */
  function TriplesANumber(baseNumber: int32, returnsNumber: int32 -> int32): (r: int32)
    ensures (r as int - 3 * returnsNumber(baseNumber) as int) % 0x1_0000_0000 == 0
  {
    Mul32(returnsNumber(baseNumber), 3)
  }

  /** `takesAFunctionReturnsAFunction(lhs, rhs, operation)`: a thunk that
      applies `operation` to the two arguments when it is called. */
  function TakesAFunctionReturnsAFunction(lhs: int32, rhs: int32, operation: (int32, int32) -> int32): (r: () -> int32)
    ensures r() == operation(lhs, rhs)
  {
    () => operation(lhs, rhs)
  }

  /** The local `doubleANumber(returnsAnInt) = returnsAnInt() * 2`. */
  function DoubleANumber(returnsAnInt: () -> int32): (r: int32)
    ensures (r as int - 2 * returnsAnInt() as int) % 0x1_0000_0000 == 0
  {
    Mul32(returnsAnInt(), 2)
  }

  /** The `multiply` lambda `{ a: Int, b: Int -> a * b }`. */
  function Multiply(a: int32, b: int32): (r: int32)
    ensures (r as int - a as int * b as int) % 0x1_0000_0000 == 0
    ensures INT_MIN <= a as int * b as int <= INT_MAX ==> r as int == a as int * b as int
  {
    Mul32(a, b)
  }

  /** `returnsANumber` is the identity, so tripling through it is tripling:
      exactly `3 * b` when that fits in an `Int`. */
  lemma TriplesThroughIdentity(b: int32)
    ensures forall x: int32 :: ReturnsANumber(x) == x
    ensures INT_MIN <= 3 * b as int <= INT_MAX ==> TriplesANumber(b, ReturnsANumber) as int == 3 * b as int
  {
  }

  /** The higher-order test: doubling the thunk `{ returnsANumber(2) }` gives 4,
      tripling 2 through `::returnsANumber` gives 6, and the thunk made from
      `(5, 4, multiply)` gives 20 when called. */
  lemma HigherOrderTest()
    ensures DoubleANumber(() => ReturnsANumber(2)) == 4
    ensures TriplesANumber(2, ReturnsANumber) == 6
    ensures TakesAFunctionReturnsAFunction(5, 4, Multiply)() == 20
  {
  }

  /** The four spellings of `x * 4` in the lambda test. */
  const WithoutTypeInference: int32 -> int32 := (subject: int32) => Mul32(subject, 4)
  const InferredInside: int32 -> int32 := subject => Mul32(subject, 4)
  const InferredOutside := (subject: int32) => Mul32(subject, 4)
  const WithIt: int32 -> int32 := it => Mul32(it, 4)

  /** All four lambdas agree on every input, quadruple it, and give 8 for 2. */
  lemma LambdasAgree(x: int32)
    ensures WithoutTypeInference(x) == InferredInside(x) == InferredOutside(x) == WithIt(x)
    ensures INT_MIN <= 4 * x as int <= INT_MAX ==> WithIt(x) as int == 4 * x as int
    ensures WithIt(2) == 8
  {
  }
}
