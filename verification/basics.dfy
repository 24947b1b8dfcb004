/** Functions, default and named parameters, infix functions, variables and
    null safety (the `Kotlin basics` test class). */
module Basics {
  import opened Kotlin

  /** `Obligatory parameters, with a return type`: the parameter upper-cased. */
  function ObligatoryParameters(firstParam: string): (r: string)
    ensures |r| == |firstParam|
    ensures forall i :: 0 <= i < |r| ==> !IsLowerAscii(r[i])
    ensures forall i :: 0 <= i < |r| ==> r[i] == UpperChar(firstParam[i])
  {
    Uppercase(firstParam)
  }

  /** `Multiple named parameters`: `firstParam` repeated `secondParam` times,
      with defaults "hello" and 2; a negative count throws. */
  function MultipleNamedParameters(firstParam: string := "hello", secondParam: int32 := 2): (r: Outcome<string>)
    ensures r.Threw? <==> secondParam < 0
    ensures r.Threw? ==> r.error == IllegalArgumentException
    ensures r.Returned? ==> |r.value| == secondParam as int * |firstParam|
    ensures r.Returned? && 0 < secondParam ==> |firstParam| <= |r.value| && r.value[..|firstParam|] == firstParam
    ensures r.Returned? ==> forall i :: |firstParam| <= i < |r.value| ==> r.value[i] == r.value[i - |firstParam|]
  {
    Repeat(firstParam, secondParam as int)
  }

  /** The infix `n times message`, i.e. `message.repeat(n)`. */
  function Times(n: int32, message: string): (r: Outcome<string>)
    ensures r.Threw? <==> n < 0
    ensures r.Threw? ==> r.error == IllegalArgumentException
    ensures r.Returned? ==> |r.value| == n as int * |message|
    ensures r.Returned? && 0 < n ==> |message| <= |r.value| && r.value[..|message|] == message
    ensures r.Returned? ==> forall i :: |message| <= i < |r.value| ==> r.value[i] == r.value[i - |message|]
  {
    Repeat(message, n as int)
  }

  /** Called without arguments, `Multiple named parameters` gives "hellohello". */
  lemma MultipleNamedParametersDefaults()
    ensures MultipleNamedParameters() == Returned("hellohello")
  {
    RepeatTwice("hello");
    assert "hello" + "hello" == "hellohello";
  }

  /** The `Functions in kotlin` test: upper-casing, and `2 times s` agrees with
      `Multiple named parameters(s, 2)`, which contains `s` ignoring case. */
  lemma {:induction false} FunctionsInKotlin(someString: string)
    ensures ObligatoryParameters(someString) == Uppercase(someString)
    ensures Times(2, someString) == MultipleNamedParameters(secondParam := 2, firstParam := someString)
    ensures MultipleNamedParameters(someString, 2).Returned?
    ensures ContainsIgnoreCase(MultipleNamedParameters(someString, 2).value, someString)
  {
    var third := MultipleNamedParameters(someString, 2).value;
    RepeatTwice(someString);
    assert third == someString + someString;
    UppercaseConcat(someString, someString);
    assert OccursAt(Uppercase(third), Uppercase(someString), 0);
  }

  /** The `Variables and assignment` test: `v += v` on a non-empty string
      yields a string different from the constant it started from. */
  lemma VariablesAndAssignment(constant: string)
    requires constant != ""
    ensures constant + constant != constant
  {
    assert |constant + constant| == 2 * |constant|;
  }

  /** The local `act` of the `Null safety` test. */
  function Act(aString: string): (r: string)
    ensures EqualsIgnoreCase(r, aString)
    ensures forall i :: 0 <= i < |r| ==> !IsLowerAscii(r[i])
  {
    UppercaseIdempotent(aString);
    Uppercase(aString)
  }

  /** The `Null safety` test: `act(null ?: "Oh no")` is "OH NO", and on a
      non-null string `act` yields its upper-case form. */
  lemma NullSafety(nonNull: string)
    ensures Act(Elvis(Null, "Oh no")) == "OH NO"
    ensures Act(Elvis(Some(nonNull), "Oh no")) == Uppercase(nonNull)
  {
    assert Uppercase("Oh no") == "OH NO";
  }
}
