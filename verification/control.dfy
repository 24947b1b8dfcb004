/** `when`, the three loops, ranges, and structural versus referential
    equality (the `Kotlin's Control Flow` test class). */
module Control {
  import opened Kotlin

  // ---------------------------------------------------------------------
  // when

  const WEIRD_MESSAGE := "Well, this is weird!"

  /** The `when` expression over a `String` subject: the branch for
      "not a cupcake" throws, and the `is String` branch yields the upper-case
      subject. The `is Nothing` branch matches no value and the `else` branch
      no string, so neither is reachable. */
  function WhenExpression(subject: string): (r: Outcome<string>)
    ensures r.Threw? <==> subject == "not a cupcake"
    ensures r.Threw? ==> r.error == Exception(WEIRD_MESSAGE)
    ensures r.Returned? ==> EqualsIgnoreCase(r.value, subject) && Uppercase(r.value) == r.value
  {
    var expected := Uppercase(subject);
    UppercaseIdempotent(subject);
    if subject == "not a cupcake" then Threw(Exception(WEIRD_MESSAGE))
    else Returned(expected)
  }

  /** The `when` statement: the same branches, assigning `statementGot`. */
  method WhenStatement(subject: string) returns (statementGot: Outcome<string>)
    ensures statementGot == WhenExpression(subject)
  {
    var expected := Uppercase(subject);
    if subject == "not a cupcake" {
      statementGot := Threw(Exception(WEIRD_MESSAGE));
    } else {
      statementGot := Returned(expected);
    }
  }

  /** The `when` test: for "cupcake" the statement and the expression both
      give "CUPCAKE". */
  method WhenTest() returns (statementGot: Outcome<string>, expressionGot: Outcome<string>)
    ensures statementGot == expressionGot == Returned("CUPCAKE")
  {
    assert Uppercase("cupcake") == "CUPCAKE";
    statementGot := WhenStatement("cupcake");
    expressionGot := WhenExpression("cupcake");
  }

  // ---------------------------------------------------------------------
  // Loops

  /** `for (thing in subject) countFor++`, starting from 0. */
  method CountFor<T>(subject: seq<T>) returns (countFor: nat)
    ensures countFor == |subject|
  {
    countFor := 0;
    for i := 0 to |subject|
      invariant countFor == i
    {
      countFor := countFor + 1;
    }
  }

  /** `while (countWhile < subject.size) countWhile++`, starting from 0. */
  method CountWhile<T>(subject: seq<T>) returns (countWhile: nat)
    ensures countWhile == |subject|
  {
    countWhile := 0;
    while countWhile < |subject|
      invariant countWhile <= |subject|
    {
      countWhile := countWhile + 1;
    }
  }

  /** `do countDoWhile++ while (countDoWhile < subject.size)`, starting from
      0: the body runs at least once. */
  method CountDoWhile<T>(subject: seq<T>) returns (countDoWhile: nat)
    ensures countDoWhile == if subject == [] then 1 else |subject|
  {
    countDoWhile := 0;
    countDoWhile := countDoWhile + 1;
    while countDoWhile < |subject|
      invariant 1 <= countDoWhile
      invariant subject == [] ==> countDoWhile == 1
      invariant subject != [] ==> countDoWhile <= |subject|
    {
      countDoWhile := countDoWhile + 1;
    }
  }

  /** The loops test: over a three-element list all three counters end at 3. */
  method LoopsTest() returns (countFor: nat, countWhile: nat, countDoWhile: nat)
    ensures countFor == countWhile == countDoWhile == 3
  {
    var subject := ["Abacaxi", "Banana", "Carambola"];
    countFor := CountFor(subject);
    countDoWhile := CountDoWhile(subject);
    countWhile := CountWhile(subject);
  }

  // ---------------------------------------------------------------------
  // Ranges

  /** `(first..last).toList()`. */
  function RangeTo(first: int, last: int): (r: seq<int>)
    ensures |r| == if first <= last then last - first + 1 else 0
    ensures forall i :: 0 <= i < |r| ==> r[i] == first + i
    decreases last - first
  {
    if first > last then [] else [first] + RangeTo(first + 1, last)
  }

  /** `(first downTo last).toList()`. */
  function DownTo(first: int, last: int): (r: seq<int>)
    ensures |r| == if first >= last then first - last + 1 else 0
    ensures forall i :: 0 <= i < |r| ==> r[i] == first - i
    decreases first - last
  {
    if first < last then [] else [first] + DownTo(first - 1, last)
  }

  /** The elements of `first..last step step` for a positive step. */
  function Progression(first: int, last: int, step: int): (r: seq<int>)
    requires step > 0
    ensures first <= last ==> r != [] && r[0] == first
    ensures forall i :: 0 <= i < |r| ==> first <= r[i] <= last
    ensures forall i :: 0 <= i < |r| - 1 ==> r[i + 1] == r[i] + step
    ensures r != [] ==> r[|r| - 1] + step > last
    decreases last - first
  {
    if first > last then [] else [first] + Progression(first + step, last, step)
  }

  /** `(first..last step step).toList()`: a non-positive step throws. */
  function Step(first: int, last: int, step: int): (r: Outcome<seq<int>>)
    ensures r.Threw? <==> step <= 0
    ensures r.Threw? ==> r.error == IllegalArgumentException
    ensures r.Returned? ==> r.value == Progression(first, last, step)
  {
    if step <= 0 then Threw(IllegalArgumentException) else Returned(Progression(first, last, step))
  }

  /** `(first until bound).toList()` over characters: `bound` excluded,
      ascending from `first`, each character once. Surrogate code units are
      not characters here and are skipped. */
  function CharsUntil(first: char, bound: char): (r: seq<char>)
    ensures forall c :: c in r <==> first <= c < bound
    ensures first < bound ==> r != [] && r[0] == first
    ensures forall i :: 0 <= i < |r| - 1 ==> r[i] < r[i + 1]
    decreases bound as int - first as int
  {
    if first >= bound then []
    else
      var next := if first as int + 1 == 0xD800 then 0xE000 as char else (first as int + 1) as char;
      [first] + CharsUntil(next, bound)
  }

  /** The ranges test: `1..10` ends at 10, `10 downTo 1` starts at 10,
      `1..10 step 2` holds 9, and `'A' until 'Z'` holds 'B' but not 'Z'. */
  lemma RangesTest()
    ensures RangeTo(1, 10)[|RangeTo(1, 10)| - 1] == 10
    ensures DownTo(10, 1)[0] == 10
    ensures Step(1, 10, 2).Returned? && 9 in Step(1, 10, 2).value
    ensures 'B' in CharsUntil('A', 'Z') && 'Z' !in CharsUntil('A', 'Z')
  {
    var odd := Progression(1, 10, 2);
    assert odd[0] == 1 && odd[1] == 3 && odd[2] == 5 && odd[3] == 7;
    assert odd[4] == 9;
  }

  // ---------------------------------------------------------------------
  // Equality

  /** `data class Food(val name: String)`. */
  class Food {
    const name: string

    constructor (name: string)
      ensures this.name == name
    {
      this.name := name;
    }

    /** `==`: the data-class `equals`, comparing the names. */
    function Equals(other: Food?): (r: bool)
      ensures r <==> other != null && other.name == name
      ensures other == this ==> r
    {
      other != null && name == other.name
    }
  }

  /** Referential equality implies structural equality. */
  lemma SameReferenceIsEqual(a: Food, b: Food)
    requires a == b
    ensures a.Equals(b) && b.Equals(a)
  {
  }

  /** The equality test: an alias is the same reference and equal; a second
      `Food` with the same name is equal but another reference; and the
      ternary `if (got == null) false else true` holds. */
  method EqualityTest() returns (sameRef: bool, sameStructure: bool, otherRef: bool, otherStructure: bool, ternary: bool)
    ensures sameRef && sameStructure
    ensures !otherRef && otherStructure
    ensures ternary
  {
    var foodName := "Bolinho de Arroz";
    var expected := new Food(foodName);
    var got: Food? := expected;
    var otherGot := new Food(foodName);
    sameRef := expected == got;
    sameStructure := expected.Equals(got);
    otherRef := expected == otherGot;
    otherStructure := expected.Equals(otherGot);
    ternary := if got == null then false else true;
  }
}
