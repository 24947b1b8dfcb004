# helloKt in Dafny

helloKt is a Kotlin sandbox made of unit-test classes, each demonstrating
one language feature. This project models the deterministic helpers those
tests define and the behaviour the tests assert about them. It covers
functions with default and named parameters, classes with validating
constructors, data-class `copy`, the user generator and the collection
queries, control flow, higher-order functions, scope functions and an
interface with default members.

One Dafny module per source file:

- `kotlin.dfy` (`Kotlin`) holds the language and library pieces the tests
  lean on. These are `T?` (`Nullable`), thrown exceptions (`Outcome`,
  `Throwable`), 32-bit `Int` arithmetic that wraps around, and the
  `String` helpers `uppercase`, `repeat`, `toString` and the
  `ignoreCase` comparisons.
- `basics.dfy` (`Basics`), `classes.dfy` (`Classes`),
  `collections.dfy` (`Collections`), `control.dfy` (`Control`),
  `functional.dfy` (`Functional`), `scopes.dfy` (`Scopes`) and
  `interfaces.dfy` (`Interfaces`) each model the test class of the same
  name.

Code that works on values is written as functions and datatypes. This
covers `Telephone`, `Contact`, the collections' `User` and the queries.
Code that changes state is written as classes and methods:

- `MutableList`, `MutableSet` and `MutableMap`;
- the scope functions' `User`, whose `isBanned` is a `var`;
- `BethesdaGame`, whose `score` is a `var`;
- `createListOfUsers` and the three counting loops, which are loops.

A read-only view of a mutable collection is a second reference to the same
object. A test that throws is modelled as a function returning `Outcome`,
never as a precondition.

## Model

| member | source | states |
|---|---|---|
| `Kotlin.Elvis` | src/test/kotlin/Basics.kt:103 | `x ?: default` is the value of `x` when it is not null, and `default` when it is |
| `Kotlin.Wrap` | src/test/kotlin/Functional.kt:24-26 | `Int` arithmetic wraps: the result is congruent to the exact value modulo 2^32 and equals it when it fits |
| `Kotlin.Add32` | src/test/kotlin/Classes.kt:87 | `a + b` on `Int` is the sum modulo 2^32, and the exact sum when it fits |
| `Kotlin.Mul32` | src/test/kotlin/Functional.kt:25 | `a * b` on `Int` is the product modulo 2^32, and the exact product when it fits |
| `Kotlin.Add32OneChanges` | src/test/kotlin/Classes.kt:86-92 | `a + 1` on `Int` never gives `a` back; it is `a + 1` below `Int.MAX_VALUE` and wraps to `Int.MIN_VALUE` there |
| `Kotlin.Uppercase` | src/test/kotlin/Basics.kt:26-28 | `uppercase()` keeps the length and maps each character to its upper-case form (ASCII) |
| `Kotlin.UppercaseIdempotent` | src/test/kotlin/Basics.kt:96-107 | an upper-cased string has no lower-case letter, and upper-casing it again changes nothing |
| `Kotlin.UppercaseConcat` | src/test/kotlin/Basics.kt:62 | upper-casing distributes over concatenation |
| `Kotlin.UpperEqualsIgnoreCaseIsUppercase` | src/test/kotlin/Interfaces.kt:30 | a string with no lower-case letter that equals `s` ignoring case is `s.uppercase()`, so the contracts of `act` and `reportProgress` determine their results |
| `Kotlin.RepeatCount` | src/test/kotlin/Basics.kt:34-36 | `n` copies of `s`: length `n * \|s\|`, first period `s`, every later character equals the one a period earlier |
| `Kotlin.Repeat` | src/test/kotlin/Basics.kt:42-44 | `repeat(n)` throws IllegalArgumentException exactly when `n < 0`; otherwise it returns `s` repeated `n` times |
| `Kotlin.RepeatTwice` | src/test/kotlin/Basics.kt:56-63 | two copies of `s` are `s + s` |
| `Kotlin.DecimalString` | src/test/kotlin/Collections.kt:153 | `toString()` of a non-negative `Int` is a non-empty string of decimal digits with no leading zero |
| `Kotlin.DecimalRoundTrip` | src/test/kotlin/Collections.kt:153 | reading back the printed digits gives the number |
| `Kotlin.DecimalStringInjective` | src/test/kotlin/Collections.kt:150-153 | different numbers print differently |
| `Kotlin.EqualsIgnoreCase` | src/test/kotlin/Collections.kt:250-251 | `a.equals(b, true)` holds exactly when both have the same length and agree character by character after upper-casing; equal strings always match |
| `Kotlin.ContainsIgnoreCase` | src/test/kotlin/Basics.kt:62 | `contains(needle, ignoreCase = true)` fails for a needle longer than the text, holds for the empty needle and for any text equal to the needle ignoring case; `Kotlin.ContainsIgnoreCaseIffMatches` gives its full meaning |
| `Kotlin.UppercaseSlice` | src/test/kotlin/Basics.kt:62 | upper-casing a slice of a string gives the same slice of the upper-cased string |
| `Kotlin.ContainsIgnoreCaseIffMatches` | src/test/kotlin/Basics.kt:62 | `contains(needle, ignoreCase = true)` holds exactly when, at some offset, the slice of the text as long as the needle equals the needle ignoring case |
| `Basics.ObligatoryParameters` | src/test/kotlin/Basics.kt:26-28 | same length, each character mapped to its upper-case form, so no lower-case letter is left |
| `Basics.MultipleNamedParameters` | src/test/kotlin/Basics.kt:34-36 | throws IllegalArgumentException exactly on a negative count; otherwise returns `firstParam` repeated `secondParam` times |
| `Basics.Times` | src/test/kotlin/Basics.kt:42-44 | infix `n times message` throws IllegalArgumentException exactly on a negative `n`; otherwise returns `message` repeated `n` times |
| `Basics.MultipleNamedParametersDefaults` | src/test/kotlin/Basics.kt:34 | with the defaults "hello" and 2 the result is "hellohello" |
| `Basics.FunctionsInKotlin` | src/test/kotlin/Basics.kt:50-64 | for every string: the first helper upper-cases it, `2 times s` equals the named-parameter call with count 2, and that result contains `s` ignoring case |
| `Basics.VariablesAndAssignment` | src/test/kotlin/Basics.kt:70-83 | appending a non-empty string to itself gives a different string |
| `Basics.Act` | src/test/kotlin/Basics.kt:96-98 | the local `act` returns a string equal to its argument ignoring case and holding no lower-case letter, which by `Kotlin.UpperEqualsIgnoreCaseIsUppercase` is exactly the argument upper-cased |
| `Basics.NullSafety` | src/test/kotlin/Basics.kt:89-108 | `act(null ?: "Oh no")` is "OH NO", and `act` of a non-null string is its upper-case form |
| `Classes.NewTelephone` | src/test/kotlin/Classes.kt:16-21 | construction succeeds exactly when the digit is positive and the number non-empty, and then stores both unchanged; otherwise it throws the digit message first, then the empty-number message |
| `Classes.ConstructedIffValid` | src/test/kotlin/Classes.kt:16-21 | the constructor builds exactly the telephones that pass `init`, and everything it builds passes |
| `Classes.NewBrazilianTelephone` | src/test/kotlin/Classes.kt:27 | always digit 55 and the given number; an empty number throws through the inherited `init` |
| `Classes.TryAssign` | src/test/kotlin/Classes.kt:63-70 | `try { subject = e } catch (ex: Exception)` assigns only when `e` returns; an `Exception` leaves the subject as it was, and an `Error` such as `NotImplementedError` propagates |
| `Classes.InitValidation` | src/test/kotlin/Classes.kt:41-77 | `Telephone(-41, "")` throws the digit message and the subject stays null; `Telephone(41, "9 9877-2345")` stores both values |
| `Classes.OpenClassInheritance` | src/test/kotlin/Classes.kt:96-117 | a Brazilian telephone keeps its number and has digit 55; `BrazilianTelephone("")` leaves the subject null |
| `Classes.Contact.CopyWithAge` | src/test/kotlin/Classes.kt:34 | `copy(age = a)` keeps the name and sets the age, and gives an equal contact exactly when the age is unchanged |
| `Classes.AgedCopy` | src/test/kotlin/Classes.kt:80-93 | `copy(age = age + 1)` keeps the name and always changes the age, even at `Int.MAX_VALUE` |
| `Classes.MagicTelephone.GetThing` | src/test/kotlin/Classes.kt:129-131 | `getThing()` returns the value the telephone was built with |
| `Classes.MagicTelephone.ToString` | src/test/kotlin/Classes.kt:137-139 | the overriding `toString()` is the telephone number |
| `Classes.NewMagicTelephone` | src/test/kotlin/Classes.kt:128-140 | succeeds exactly when the inherited `init` does; `getThing()` then returns the stored value, and otherwise the same exception is thrown |
| `Classes.GenericParameters` | src/test/kotlin/Classes.kt:120-153 | a magic telephone holding null gives null back; one holding it gives back a telephone with the number "1234-4321"; `toString()` is the number |
| `Collections.NewUser` | src/test/kotlin/Collections.kt:24 | the permission defaults to `User` |
| `Collections.Ban` | src/test/kotlin/Collections.kt:199 | the `copy(permission = Banned)` lambda keeps the name and bans the user |
| `Collections.Unban` | src/test/kotlin/Collections.kt:201 | the `copy(permission = User)` lambda keeps the name, and the user is neither banned nor an administrator |
| `Collections.Filter` | src/test/kotlin/Collections.kt:171-174 | `filter` keeps every matching element and only matching elements of the list, never growing it |
| `Collections.FilterConcat` | src/test/kotlin/Collections.kt:171-174 | `filter` keeps the order: filtering a concatenation filters each part |
| `Collections.FilterIdentity` | src/test/kotlin/Collections.kt:195 | `filter` returns the list itself exactly when every element matches |
| `Collections.Map` | src/test/kotlin/Collections.kt:198-201 | `map` keeps the length and applies the function at every index |
| `Collections.Any` | src/test/kotlin/Collections.kt:227 | `any` holds exactly when some element matches |
| `Collections.All` | src/test/kotlin/Collections.kt:228 | `all` holds exactly when every element matches |
| `Collections.None` | src/test/kotlin/Collections.kt:229-230 | `none` holds exactly when no element matches |
| `Collections.FirstOrNull` | src/test/kotlin/Collections.kt:246-251 | `find`/`firstOrNull` is null exactly when nothing matches, and otherwise the lowest-index match |
| `Collections.LastOrNull` | src/test/kotlin/Collections.kt:248-249 | `findLast`/`lastOrNull` is null exactly when nothing matches, and otherwise the highest-index match |
| `Collections.FirstOrNullAt` | src/test/kotlin/Collections.kt:246-247 | if the element at `k` matches and none before it does, `find` returns that element |
| `Collections.LastOrNullAt` | src/test/kotlin/Collections.kt:248-249 | if the element at `k` matches and none after it does, `findLast` returns that element |
| `Collections.First` | src/test/kotlin/Collections.kt:271-277 | `first` throws NoSuchElementException exactly when nothing matches, and otherwise agrees with `firstOrNull` |
| `Collections.Last` | src/test/kotlin/Collections.kt:273-280 | `last` throws NoSuchElementException exactly when nothing matches, and otherwise agrees with `lastOrNull` |
| `Collections.Count` | src/test/kotlin/Collections.kt:301-302 | `count(p)` is at most the size, and equals it exactly when every element matches |
| `Collections.CountIsFilterSize` | src/test/kotlin/Collections.kt:301-302 | `count(p)` is the size of `filter(p)` |
| `Collections.CreateListOfUsers` | src/test/kotlin/Collections.kt:142-159 | returns exactly `qty` users (none for `qty < 1`); the one at position `i` is the user generated for `idx = i + 1`, so the order is increasing `idx` |
| `Collections.GeneratedUserRules` | src/test/kotlin/Collections.kt:147-155 | banned exactly when `idx % 7 == 0`, administrator exactly when `idx % 3 == 0` and not banned, plain user otherwise; user 21 is "admin-21" yet banned |
| `Collections.GeneratedNamesDistinct` | src/test/kotlin/Collections.kt:150-153 | no two generated users share a name |
| `Collections.NoGeneratedAlligator` | src/test/kotlin/Collections.kt:250-251 | no generated user is named "Alligator", ignoring case |
| `Collections.NoAlligatorAnywhere` | src/test/kotlin/Collections.kt:276-281 | no user of any generated list is named "Alligator", ignoring case |
| `Collections.FilterTest` | src/test/kotlin/Collections.kt:166-184 | the banned filter holds only banned users and every banned user; the administrator filter holds only administrators |
| `Collections.MapBanTest` | src/test/kotlin/Collections.kt:198-207 | banning everybody keeps the length, bans everybody and changes the list |
| `Collections.MapUnbanTest` | src/test/kotlin/Collections.kt:195-211 | unbanning the banned sublist leaves nobody banned and changes that sublist |
| `Collections.ExistentialQueriesTest` | src/test/kotlin/Collections.kt:220-237 | some user is an administrator, all filtered-banned users are banned, no filtered-non-banned user is banned |
| `Collections.FindTest` | src/test/kotlin/Collections.kt:246-247 | the first administrator found is user 3 |
| `Collections.FindLastTest` | src/test/kotlin/Collections.kt:248-249 | in the thousand-user list the last administrator found is user 999 |
| `Collections.FirstLastTest` | src/test/kotlin/Collections.kt:266-289 | `first`/`last` find administrators; both throw NoSuchElementException for "Alligator", where `find` and `lastOrNull` give null |
| `Collections.CountTest` | src/test/kotlin/Collections.kt:293-307 | `createListOfUsers(qty)` counts `qty`, and fewer of its users are administrators |
| `Collections.MutableList.constructor` | src/test/kotlin/Collections.kt:40-42 | `mutableListOf(...)` holds the given elements in order |
| `Collections.MutableList.Add` | src/test/kotlin/Collections.kt:50-51 | `add` appends, duplicates included, and returns true |
| `Collections.MutableList.Contains` | src/test/kotlin/Collections.kt:56-58 | `contains` holds exactly when some position of the list holds the element |
| `Collections.MutableSet.constructor` | src/test/kotlin/Collections.kt:75-77 | `mutableSetOf(...)` holds the given elements |
| `Collections.MutableSet.Add` | src/test/kotlin/Collections.kt:85-88 | `add` returns true exactly when the element was absent; the set afterwards is the old one plus the element, so a repeated add changes nothing |
| `Collections.MutableSet.Contains` | src/test/kotlin/Collections.kt:93-95 | `contains` is membership in the set |
| `Collections.MutableMap.constructor` | src/test/kotlin/Collections.kt:117 | `mutableMapOf(...)` holds the given entries |
| `Collections.MutableMap.Put` | src/test/kotlin/Collections.kt:122-124 | `m[k] = v` inserts a new key or overwrites an existing one and leaves the other entries alone |
| `Collections.MutableMap.Get` | src/test/kotlin/Collections.kt:132 | `m[k]` is null exactly for a missing key, else its value |
| `Collections.MutableMap.GetValue` | src/test/kotlin/Collections.kt:124 | `getValue` throws NoSuchElementException exactly for a missing key, else agrees with `m[k]` |
| `Collections.MutableMap.ContainsKey` | src/test/kotlin/Collections.kt:134-136 | `containsKey` holds exactly for the keys where `this[key]` is not null and `getValue` does not throw |
| `Collections.ListsTest` | src/test/kotlin/Collections.kt:31-59 | after adding a user twice the list has five elements; it and its read-only view contain the user, while the separate read-only list does not |
| `Collections.SetsTest` | src/test/kotlin/Collections.kt:66-98 | the first add returns true and the second false; the set and its view contain the user, the separate set does not |
| `Collections.MapsTest` | src/test/kotlin/Collections.kt:105-137 | the admin's score becomes 0 + 2 = 2; the map and its view hold the new key, the separate map does not |
| `Control.WhenExpression` | src/test/kotlin/Control.kt:38-43 | the `when` expression throws exactly for "not a cupcake"; otherwise it yields the subject upper-cased |
| `Control.WhenStatement` | src/test/kotlin/Control.kt:30-35 | the `when` statement gives the same outcome as the `when` expression for every subject |
| `Control.WhenTest` | src/test/kotlin/Control.kt:22-48 | for "cupcake" both forms give "CUPCAKE" |
| `Control.CountFor` | src/test/kotlin/Control.kt:59-63 | the for-loop counter ends equal to the list size |
| `Control.CountWhile` | src/test/kotlin/Control.kt:64-68 | the while-loop counter ends equal to the list size |
| `Control.CountDoWhile` | src/test/kotlin/Control.kt:69-73 | the do-while body runs at least once: the counter ends at 1 for an empty list and at the size otherwise |
| `Control.LoopsTest` | src/test/kotlin/Control.kt:54-84 | over the three fruits all three counters end at 3 |
| `Control.RangeTo` | src/test/kotlin/Control.kt:93 | `a..b` lists `a, a+1, ..., b` and is empty when `a > b` |
| `Control.DownTo` | src/test/kotlin/Control.kt:96 | `a downTo b` lists `a, a-1, ..., b` and is empty when `a < b` |
| `Control.Progression` | src/test/kotlin/Control.kt:94-95 | a positive step yields the values from `first` upward in steps of `step`, all in range, up to the last one that fits |
| `Control.Step` | src/test/kotlin/Control.kt:94-95 | `step` throws IllegalArgumentException exactly when the step is not positive; otherwise the list is the progression from `first` in steps of `step` up to `last` |
| `Control.CharsUntil` | src/test/kotlin/Control.kt:97-98 | `a until b` holds exactly the characters from `a` up to but not including `b`, starting at `a` and strictly ascending, so each appears once |
| `Control.RangesTest` | src/test/kotlin/Control.kt:91-107 | `1..10` ends at 10, `10 downTo 1` starts at 10, `1..10 step 2` contains 9, and `'A' until 'Z'` contains 'B' but not 'Z' |
| `Control.Food.constructor` | src/test/kotlin/Control.kt:116 | a `Food` stores its name |
| `Control.Food.Equals` | src/test/kotlin/Control.kt:125-128 | the data-class `==` compares names, so a `Food` equals another with the same name even when it is a different object, and always equals itself |
| `Control.SameReferenceIsEqual` | src/test/kotlin/Control.kt:125-126 | referential equality implies structural equality |
| `Control.EqualityTest` | src/test/kotlin/Control.kt:114-131 | an alias is both the same reference and equal; a second `Food` with the same name is equal but another reference; the ternary yields true |
| `Functional.ReturnsANumber` | src/test/kotlin/Functional.kt:19 | `returnsANumber` gives its argument back: it is the identity on `Int` |
| `Functional.TriplesANumber` | src/test/kotlin/Functional.kt:24-26 | the result is three times `returnsNumber(baseNumber)`, modulo 2^32 |
| `Functional.TakesAFunctionReturnsAFunction` | src/test/kotlin/Functional.kt:31-36 | calling the returned thunk gives `operation(lhs, rhs)` |
| `Functional.DoubleANumber` | src/test/kotlin/Functional.kt:62-64 | the result is twice the thunk's value, modulo 2^32 |
| `Functional.Multiply` | src/test/kotlin/Functional.kt:55-57 | the `multiply` lambda gives the product modulo 2^32, and the exact product when it fits in an `Int` |
| `Functional.TriplesThroughIdentity` | src/test/kotlin/Functional.kt:19-26 | `returnsANumber` is the identity, so tripling through it gives `3 * b` whenever that fits in an `Int` |
| `Functional.HigherOrderTest` | src/test/kotlin/Functional.kt:43-81 | doubling `{ returnsANumber(2) }` gives 4, tripling 2 gives 6, and the `multiply` thunk for (5, 4) gives 20 |
| `Functional.LambdasAgree` | src/test/kotlin/Functional.kt:88-117 | the four `x * 4` lambdas agree on every input, quadruple it when that fits, and give 8 for 2 |
| `Scopes.User.constructor` | src/test/kotlin/Scopes.kt:17 | a user starts unbanned unless told otherwise |
| `Scopes.User.Copy` | src/test/kotlin/Scopes.kt:28 | `copy(isBanned = b)` is a new object with the same name and the given flag |
| `Scopes.User.Equals` | src/test/kotlin/Scopes.kt:17 | the data-class `==` compares the name and the ban flag, not the reference; every user equals itself |
| `Scopes.NewSubject` | src/test/kotlin/Scopes.kt:22-23 | the subject exists exactly when it should, and is then the unbanned "ralves" |
| `Scopes.LetBannedCopy` | src/test/kotlin/Scopes.kt:26-29 | `?.let` gives null exactly for a null subject; otherwise it gives a banned copy, another object with the same name |
| `Scopes.RunBannedCopy` | src/test/kotlin/Scopes.kt:47-50 | `?.run` gives null exactly for a null subject; otherwise it gives a banned copy, another object with the same name |
| `Scopes.LetRunWithTest` | src/test/kotlin/Scopes.kt:20-77 | the result is a banned user when the subject exists and null when it does not; `let` and `run` agree; the `with` assertion holds |
| `Scopes.ApplyBan` | src/test/kotlin/Scopes.kt:86 | `apply { isBanned = true }` bans that same object and returns it |
| `Scopes.ApplyTest` | src/test/kotlin/Scopes.kt:80-90 | the `isBanned` read after `apply` is true |
| `Scopes.AlsoBannedShadowCopy` | src/test/kotlin/Scopes.kt:98 | `also` returns the object itself, untouched; the shadow copy is another, banned object, and differs from an unbanned original |
| `Scopes.AlsoTest` | src/test/kotlin/Scopes.kt:93-102 | the subject is still unbanned and differs from its shadow copy |
| `Interfaces.BethesdaGame.constructor` | src/test/kotlin/Interfaces.kt:55 | `nameOfTheGame` and `score` are the constructor's arguments |
| `Interfaces.BethesdaGame.Play` | src/test/kotlin/Interfaces.kt:59-61 | `play()` always throws NotImplementedError |
| `Interfaces.BethesdaGame.ReportProgress` | src/test/kotlin/Interfaces.kt:30 | the default `reportProgress` returns the message upper-cased, with no lower-case letter left |
| `Interfaces.BethesdaGame.GameTitle` | src/test/kotlin/Interfaces.kt:46-47 | the default `gameTitle` is "PLACEHOLDER GAME INC" for every game |
| `Interfaces.BethesdaGame.SetScore` | src/test/kotlin/Interfaces.kt:41 | `score` can be reassigned; `nameOfTheGame` is a constant and cannot be |
| `Interfaces.InterfaceTest` | src/test/kotlin/Interfaces.kt:75-84 | the game viewed as `Playable` is the same object, with name "Skyrim 2.0", score 1 and the default title "PLACEHOLDER GAME INC" |

## Left out

- `Async.kt` and `Flows.kt`: coroutines, `delay`, timeouts and flow cancellation are concurrency and timing behaviours of `kotlinx.coroutines`, which is not part of this model. `createEnemy`'s `UUID.randomUUID` is left out too.
- `SomethingTest.kt`: the class `Something` is not part of this model.
- `Random.nextBoolean()` in the scope tests: the choice is the parameter `shouldExist`.
- `println` logging.
- `uppercase()` and the `ignoreCase` comparisons: only ASCII letters are mapped. Kotlin's full Unicode case mapping is not modelled.
- Lines that are commented out because they do not compile (assigning a `val`, mutating a read-only collection, passing a nullable where a non-null is required): these are compile-time rules with no run-time behaviour.
- `MagicTelephone.getSomethingElse<T>()`: an unchecked cast with no sound model. The test's use of it is modelled as `getThing()` returning the telephone it holds.
- `UserPermission.accessCode`: declared but never read.
- `No parameters, no return`: it does nothing.
- `Playable` as an interface type: the model has no interface types. Its default members are members of `BethesdaGame`, its only implementation, and the upcast in the test is the same reference.
- Iteration order of `mutableSetOf` and `mutableMapOf` (linked hash collections): the model keeps their contents, not their insertion order.
- The default `toString()`, `hashCode()` and `equals()` of classes that do not override them. `Telephone`, `BrazilianTelephone` and `MagicTelephone` are plain classes, so Kotlin compares them by reference; the model makes them datatypes, which compare by value. `Classes.ConstructedIffValid` relies on that value equality.
- `Int.toString()` of negative numbers: the generator prints only positive indices.
- String length in UTF-16 code units: Kotlin's `length` counts code units, while the model counts characters. The length clauses of `Kotlin.Repeat`, `Kotlin.Uppercase` and the members built on them match Kotlin only for text inside the Basic Multilingual Plane.
- Surrogate code units in `Char` ranges: Dafny characters exclude them, so `CharsUntil` skips them.
- The messages of library exceptions (`IllegalArgumentException`, `NoSuchElementException`); the model keeps only their kind. The messages of the source's own `throw Exception(...)` and the `TODO` reason are kept.
