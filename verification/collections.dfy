/** Lists, sets and maps, mutable and read-only, the not-so-random user
    generator and the query functions run over its output (the
    `Collections in Kotlin` test class). */
module Collections {
  import opened Kotlin

  /** Access level for a given user. */
  datatype UserPermission = Banned | User | Administrator

  /** `data class User(val username: String, val permission: UserPermission)`. */
  datatype User = User(username: string, permission: UserPermission)

  /** `User(username)`: the permission defaults to `UserPermission.User`. */
  function NewUser(username: string): (u: User)
    ensures u.username == username && u.permission == UserPermission.User
  {
    User.User(username, UserPermission.User)
  }

  // ---------------------------------------------------------------------
  // The predicates and transformations the tests pass to the queries

  predicate IsBanned(u: User) { u.permission == Banned }
  predicate IsNotBanned(u: User) { u.permission != Banned }
  predicate IsAdministrator(u: User) { u.permission == Administrator }

  /** `it.username.equals("Alligator", true)`. */
  predicate NamedAlligator(u: User) { EqualsIgnoreCase(u.username, "Alligator") }

  /** `u.copy(permission = UserPermission.Banned)`. */
  function Ban(u: User): (r: User)
    ensures r.username == u.username && IsBanned(r)
  {
    u.(permission := Banned)
  }

  /** `it.copy(permission = UserPermission.User)`. */
  function Unban(u: User): (r: User)
    ensures r.username == u.username && !IsBanned(r) && !IsAdministrator(r)
  {
    u.(permission := UserPermission.User)
  }

  // ---------------------------------------------------------------------
  // Query functions over a List

  /** `s.filter(p)`: the elements satisfying `p`. */
  function Filter<T>(s: seq<T>, p: T -> bool): (r: seq<T>)
    ensures |r| <= |s|
    ensures forall i :: 0 <= i < |r| ==> p(r[i]) && r[i] in s
    ensures forall i :: 0 <= i < |s| && p(s[i]) ==> s[i] in r
  {
    if s == [] then [] else (if p(s[0]) then [s[0]] else []) + Filter(s[1..], p)
  }

  /** `filter` keeps the order: filtering a concatenation filters each part. */
  lemma {:induction false} FilterConcat<T>(a: seq<T>, b: seq<T>, p: T -> bool)
    ensures Filter(a + b, p) == Filter(a, p) + Filter(b, p)
  {
    if a == [] {
      assert a + b == b;
    } else {
      assert (a + b)[0] == a[0];
      assert (a + b)[1..] == a[1..] + b;
      FilterConcat(a[1..], b, p);
    }
  }

  /** `filter` returns the list itself exactly when every element matches. */
  lemma {:induction false} FilterIdentity<T>(s: seq<T>, p: T -> bool)
    ensures Filter(s, p) == s <==> All(s, p)
  {
    if s != [] {
      FilterIdentity(s[1..], p);
      if !p(s[0]) {
        assert |Filter(s, p)| < |s|;
      } else {
        assert s == [s[0]] + s[1..];
      }
    }
  }

  /** `s.map(f)`: `f` applied to every element, in order. */
  function Map<T, U>(s: seq<T>, f: T -> U): (r: seq<U>)
    ensures |r| == |s|
    ensures forall i :: 0 <= i < |s| ==> r[i] == f(s[i])
  {
    if s == [] then [] else [f(s[0])] + Map(s[1..], f)
  }

  /** `s.any(p)`. */
  function Any<T>(s: seq<T>, p: T -> bool): (b: bool)
    ensures b <==> exists i :: 0 <= i < |s| && p(s[i])
  {
    if s == [] then false else p(s[0]) || Any(s[1..], p)
  }

  /** `s.all(p)`. */
  function All<T>(s: seq<T>, p: T -> bool): (b: bool)
    ensures b <==> forall i :: 0 <= i < |s| ==> p(s[i])
  {
    if s == [] then true else p(s[0]) && All(s[1..], p)
  }

  /** `s.none(p)`. */
  function None<T>(s: seq<T>, p: T -> bool): (b: bool)
    ensures b <==> forall i :: 0 <= i < |s| ==> !p(s[i])
  {
    if s == [] then true else !p(s[0]) && None(s[1..], p)
  }

  /** `s.firstOrNull(p)`, which `s.find(p)` is: the lowest-index match. */
  function FirstOrNull<T>(s: seq<T>, p: T -> bool): (r: Nullable<T>)
    ensures r.Null? <==> forall i :: 0 <= i < |s| ==> !p(s[i])
    ensures r.Some? ==> exists i :: 0 <= i < |s| && p(s[i]) && r.value == s[i] &&
                                    forall j :: 0 <= j < i ==> !p(s[j])
  {
    if s == [] then Null
    else if p(s[0]) then Some(s[0])
    else
      var r := FirstOrNull(s[1..], p);
      assert r.Some? ==> exists i :: 1 <= i < |s| && p(s[i]) && r.value == s[i] &&
                                     forall j :: 1 <= j < i ==> !p(s[j]);
      r
  }

  /** `s.lastOrNull(p)`, which `s.findLast(p)` is: the highest-index match. */
  function LastOrNull<T>(s: seq<T>, p: T -> bool): (r: Nullable<T>)
    ensures r.Null? <==> forall i :: 0 <= i < |s| ==> !p(s[i])
    ensures r.Some? ==> exists i :: 0 <= i < |s| && p(s[i]) && r.value == s[i] &&
                                    forall j :: i < j < |s| ==> !p(s[j])
  {
    if s == [] then Null
    else if p(s[|s| - 1]) then Some(s[|s| - 1])
    else LastOrNull(s[..|s| - 1], p)
  }

  function Find<T>(s: seq<T>, p: T -> bool): Nullable<T>
  {
    FirstOrNull(s, p)
  }

  function FindLast<T>(s: seq<T>, p: T -> bool): Nullable<T>
  {
    LastOrNull(s, p)
  }

  /** The match `firstOrNull` reports is the one at the lowest matching
      index, whichever index that is. */
  lemma FirstOrNullAt<T>(s: seq<T>, p: T -> bool, k: nat)
    requires k < |s| && p(s[k])
    requires forall j :: 0 <= j < k ==> !p(s[j])
    ensures FirstOrNull(s, p) == Some(s[k])
  {
    var i :| 0 <= i < |s| && p(s[i]) && FirstOrNull(s, p).value == s[i] &&
             forall j :: 0 <= j < i ==> !p(s[j]);
    assert !(i < k) && !(k < i);
  }

  /** The match `lastOrNull` reports is the one at the highest matching
      index, whichever index that is. */
  lemma LastOrNullAt<T>(s: seq<T>, p: T -> bool, k: nat)
    requires k < |s| && p(s[k])
    requires forall j :: k < j < |s| ==> !p(s[j])
    ensures LastOrNull(s, p) == Some(s[k])
  {
    var i :| 0 <= i < |s| && p(s[i]) && LastOrNull(s, p).value == s[i] &&
             forall j :: i < j < |s| ==> !p(s[j]);
    assert !(i < k) && !(k < i);
  }

  /** `s.first(p)`: like `firstOrNull`, but throws when nothing matches. */
  function First<T>(s: seq<T>, p: T -> bool): (r: Outcome<T>)
    ensures r.Threw? <==> !Any(s, p)
    ensures r.Threw? ==> r.error == NoSuchElementException
    ensures r.Returned? ==> FirstOrNull(s, p) == Some(r.value)
  {
    match FirstOrNull(s, p)
    case Some(x) => Returned(x)
    case Null => Threw(NoSuchElementException)
  }

  /** `s.last(p)`: like `lastOrNull`, but throws when nothing matches. */
  function Last<T>(s: seq<T>, p: T -> bool): (r: Outcome<T>)
    ensures r.Threw? <==> !Any(s, p)
    ensures r.Threw? ==> r.error == NoSuchElementException
    ensures r.Returned? ==> LastOrNull(s, p) == Some(r.value)
  {
    match LastOrNull(s, p)
    case Some(x) => Returned(x)
    case Null => Threw(NoSuchElementException)
  }

  /** `s.count(p)`: how many elements match. */
  function Count<T>(s: seq<T>, p: T -> bool): (n: nat)
    ensures n <= |s|
    ensures n == |s| <==> forall i :: 0 <= i < |s| ==> p(s[i])
  {
    if s == [] then 0 else (if p(s[0]) then 1 else 0) + Count(s[1..], p)
  }

  /** `count(p)` is the size of `filter(p)`. */
  lemma {:induction false} CountIsFilterSize<T>(s: seq<T>, p: T -> bool)
    ensures Count(s, p) == |Filter(s, p)|
  {
    if s != [] {
      CountIsFilterSize(s[1..], p);
    }
  }

  // ---------------------------------------------------------------------
  // createListOfUsers

  /** The user that `createListOfUsers` makes at position `idx`: named
      "admin-idx" when `idx` is a multiple of 3 and "user-idx" otherwise;
      banned when `idx` is a multiple of 7, whatever the name, otherwise an
      administrator exactly when the name says so. */
  function GeneratedUser(idx: nat): User
  {
    User.User((if idx % 3 == 0 then "admin-" else "user-") + DecimalString(idx),
         if idx % 7 == 0 then Banned
         else if idx % 3 == 0 then Administrator
         else UserPermission.User)
  }

  /** What `createListOfUsers(qty)` returns: one user per `idx` in `1..qty`. */
  function ListOfUsers(qty: int): seq<User>
  {
    seq(if qty < 1 then 0 else qty, i requires 0 <= i => GeneratedUser(i + 1))
  }

  /** `createListOfUsers(qty)`: appends, for `idx` from 1 to `qty`, a copy of
      the base user with the name and permission `idx` calls for. */
  method CreateListOfUsers(qty: int32) returns (users: seq<User>)
    ensures |users| == if qty < 1 then 0 else qty as int
    ensures forall i :: 0 <= i < |users| ==> users[i] == GeneratedUser(i + 1)
    ensures users == ListOfUsers(qty as int)
  {
    var result := new MutableList<User>([]);
    var baseUser := User.User("user-", UserPermission.User);
    var baseAdmin := User.User("admin-", Administrator);
    var idx := 1;
    while idx <= qty as int
      invariant 1 <= idx <= if qty < 1 then 1 else qty as int + 1
      invariant |result.elements| == idx - 1
      invariant forall i :: 0 <= i < idx - 1 ==> result.elements[i] == GeneratedUser(i + 1)
    {
      var isBanned := idx % 7 == 0;
      var userOrAdmin := if idx % 3 == 0 then baseAdmin else baseUser;
      var finalUser := baseUser.(username := userOrAdmin.username + DecimalString(idx),
                                 permission := if isBanned then Banned else userOrAdmin.permission);
      var _ := result.Add(finalUser);
      idx := idx + 1;
    }
    users := result.elements;
  }

  /** The naming rule and the permission rule, with the ban overriding the
      administrator rule: user 21 is named "admin-21" but is banned. */
  lemma GeneratedUserRules(idx: nat)
    ensures IsBanned(GeneratedUser(idx)) <==> idx % 7 == 0
    ensures IsAdministrator(GeneratedUser(idx)) <==> idx % 3 == 0 && idx % 7 != 0
    ensures GeneratedUser(idx).permission == UserPermission.User <==> idx % 3 != 0 && idx % 7 != 0
    ensures GeneratedUser(21) == User.User("admin-21", Banned)
  {
    assert DecimalString(21) == "21";
  }

  /** No two generated users share a name. */
  lemma GeneratedNamesDistinct(i: nat, j: nat)
    requires i != j
    ensures GeneratedUser(i).username != GeneratedUser(j).username
  {
    var pi := if i % 3 == 0 then "admin-" else "user-";
    var pj := if j % 3 == 0 then "admin-" else "user-";
    var ni, nj := pi + DecimalString(i), pj + DecimalString(j);
    if ni == nj {
      assert ni[0] == pi[0] && nj[0] == pj[0];
      assert pi == pj;
      assert DecimalString(i) == ni[|pi|..] == nj[|pj|..] == DecimalString(j);
      DecimalStringInjective(i, j);
    }
  }

  /** No generated user is named "Alligator", whatever the case. */
  lemma NoGeneratedAlligator(idx: nat)
    ensures !NamedAlligator(GeneratedUser(idx))
  {
    var name := GeneratedUser(idx).username;
    var target := Uppercase("Alligator");
    assert target[0] == 'A' && target[1] == 'L';
    if idx % 3 == 0 {
      assert name[1] == 'd';
      assert Uppercase(name)[1] == 'D';
    } else {
      assert name[0] == 'u';
      assert Uppercase(name)[0] == 'U';
    }
  }

  // ---------------------------------------------------------------------
  // What the query tests assert about the generated list

  /** The `filter` test: the banned filter holds only banned users, the
      administrator filter only administrators (the order they keep is
      `FilterConcat`'s). */
  lemma FilterTest(qty: int)
    ensures All(Filter(ListOfUsers(qty), IsBanned), IsBanned)
    ensures All(Filter(ListOfUsers(qty), IsAdministrator), IsAdministrator)
    ensures forall i :: 0 <= i < |ListOfUsers(qty)| && IsBanned(ListOfUsers(qty)[i]) ==> ListOfUsers(qty)[i] in Filter(ListOfUsers(qty), IsBanned)
  {
  }

  /** The first half of the `map` test: banning everybody keeps the length,
      bans every user and so changes the list, whose first user is not
      banned. */
  lemma {:induction false} MapBanTest(qty: int)
    requires qty >= 1
    ensures |Map(ListOfUsers(qty), Ban)| == |ListOfUsers(qty)|
    ensures All(Map(ListOfUsers(qty), Ban), IsBanned)
    ensures Map(ListOfUsers(qty), Ban) != ListOfUsers(qty)
  {
    var users := ListOfUsers(qty);
    GeneratedUserRules(1);
    assert !IsBanned(users[0]);
    assert Map(users, Ban)[0] != users[0];
  }

  /** The second half of the `map` test: unbanning the banned users leaves
      nobody banned, and changes that list, which holds a user from the
      seventh on. */
  lemma {:induction false} MapUnbanTest(qty: int)
    requires qty >= 7
    ensures None(Map(Filter(ListOfUsers(qty), IsBanned), Unban), IsBanned)
    ensures Map(Filter(ListOfUsers(qty), IsBanned), Unban) != Filter(ListOfUsers(qty), IsBanned)
  {
    var banned := Filter(ListOfUsers(qty), IsBanned);
    GeneratedUserRules(7);
    assert ListOfUsers(qty)[6] in banned;
    assert Map(banned, Unban)[0] != banned[0];
  }

  /** The `any`, `all` and `none` test: some user is an administrator, all
      banned users are banned, and no non-banned user is banned. */
  lemma {:induction false} ExistentialQueriesTest(qty: int)
    requires qty >= 3
    ensures Any(ListOfUsers(qty), IsAdministrator)
    ensures All(Filter(ListOfUsers(qty), IsBanned), IsBanned)
    ensures None(Filter(ListOfUsers(qty), IsNotBanned), IsBanned)
  {
    GeneratedUserRules(3);
    assert IsAdministrator(ListOfUsers(qty)[2]);
  }

  /** The `find` test: in any list of at least three users the first
      administrator is user 3. */
  lemma {:induction false} FindTest(qty: int)
    requires qty >= 3
    ensures Find(ListOfUsers(qty), IsAdministrator) == Some(GeneratedUser(3))
  {
    var users := ListOfUsers(qty);
    GeneratedUserRules(1);
    GeneratedUserRules(2);
    GeneratedUserRules(3);
    assert !IsAdministrator(users[0]) && !IsAdministrator(users[1]) && IsAdministrator(users[2]);
    FirstOrNullAt(users, IsAdministrator, 2);
  }

  /** The `findLast` test over a thousand users: the last administrator is
      user 999. */
  lemma {:induction false} FindLastTest()
    ensures FindLast(ListOfUsers(1000), IsAdministrator) == Some(GeneratedUser(999))
  {
    var users := ListOfUsers(1000);
    GeneratedUserRules(999);
    GeneratedUserRules(1000);
    assert IsAdministrator(users[998]) && !IsAdministrator(users[999]);
    LastOrNullAt(users, IsAdministrator, 998);
  }

  /** Nobody in any generated list is named Alligator. */
  lemma NoAlligatorAnywhere(qty: int)
    ensures forall i :: 0 <= i < |ListOfUsers(qty)| ==> !NamedAlligator(ListOfUsers(qty)[i])
  {
    var users := ListOfUsers(qty);
    forall i | 0 <= i < |users| ensures !NamedAlligator(users[i]) {
      assert users[i] == GeneratedUser(i + 1);
      NoGeneratedAlligator(i + 1);
    }
  }

  /** The `first`/`last` test: both find an administrator, both throw
      NoSuchElementException when looking for Alligator, and `lastOrNull` and
      `find` give null instead. */
  lemma {:induction false} FirstLastTest(qty: int)
    requires qty >= 3
    ensures First(ListOfUsers(qty), IsAdministrator).Returned?
    ensures IsAdministrator(First(ListOfUsers(qty), IsAdministrator).value)
    ensures Last(ListOfUsers(qty), IsAdministrator).Returned?
    ensures IsAdministrator(Last(ListOfUsers(qty), IsAdministrator).value)
    ensures First(ListOfUsers(qty), NamedAlligator) == Threw(NoSuchElementException)
    ensures Last(ListOfUsers(qty), NamedAlligator) == Threw(NoSuchElementException)
    ensures LastOrNull(ListOfUsers(qty), NamedAlligator) == Null
    ensures Find(ListOfUsers(qty), NamedAlligator) == Null
  {
    ExistentialQueriesTest(qty);
    NoAlligatorAnywhere(qty);
  }

  /** The `count` test: a list of `qty` users counts `qty`, and fewer of them
      are administrators, since user 1 is not one. */
  lemma {:induction false} CountTest(qty: int)
    requires qty >= 1
    ensures |ListOfUsers(qty)| == qty
    ensures Count(ListOfUsers(qty), IsAdministrator) < |ListOfUsers(qty)|
  {
    GeneratedUserRules(1);
    assert !IsAdministrator(ListOfUsers(qty)[0]);
  }

  // ---------------------------------------------------------------------
  // Mutable collections; a read-only view is another reference to the same object

  /** A `MutableList<T>` (`mutableListOf`). */
  class MutableList<T(==)> {
    var elements: seq<T>

    constructor (initial: seq<T>)
      ensures elements == initial
    {
      elements := initial;
    }

    /** `add(element)`: appends, duplicates included, and reports true. */
    method Add(element: T) returns (added: bool)
      modifies this
      ensures added
      ensures elements == old(elements) + [element]
    {
      elements := elements + [element];
      added := true;
    }

    /** `contains(element)`: some position holds it. */
    function Contains(element: T): (r: bool)
      reads this
      ensures r <==> exists i :: 0 <= i < |elements| && elements[i] == element
    {
      element in elements
    }
  }

  /** A `MutableSet<T>` (`mutableSetOf`); its insertion order is not modelled. */
  class MutableSet<T(==)> {
    var elements: set<T>

    constructor (initial: seq<T>)
      ensures elements == set x | x in initial
    {
      elements := set x | x in initial;
    }

    /** `add(element)`: true, and inserted, exactly when it was absent. */
    method Add(element: T) returns (added: bool)
      modifies this
      ensures added <==> element !in old(elements)
      ensures elements == old(elements) + {element}
    {
      added := element !in elements;
      elements := elements + {element};
    }

    /** `contains(element)`: set membership. */
    function Contains(element: T): (r: bool)
      reads this
      ensures r <==> element in elements
    {
      element in elements
    }
  }

  /** A `MutableMap<K, V>` (`mutableMapOf`); its insertion order is not modelled. */
  class MutableMap<K(==), V> {
    var entries: map<K, V>

    constructor (initial: map<K, V>)
      ensures entries == initial
    {
      entries := initial;
    }

    /** `put(key, value)`, which `this[key] = value` calls: inserts a new key
        or overwrites an existing one, and gives back the value it replaced
        (the `[]=` operator itself discards it). */
    method Put(key: K, value: V) returns (previous: Nullable<V>)
      modifies this
      ensures previous == if key in old(entries) then Some(old(entries)[key]) else Null
      ensures entries == old(entries)[key := value]
    {
      previous := if key in entries then Some(entries[key]) else Null;
      entries := entries[key := value];
    }

    /** `this[key]`: null for a missing key. */
    function Get(key: K): (r: Nullable<V>)
      reads this
      ensures r.Some? <==> key in entries
      ensures r.Some? ==> r.value == entries[key]
    {
      if key in entries then Some(entries[key]) else Null
    }

    /** `getValue(key)`: throws for a missing key. */
    function GetValue(key: K): (r: Outcome<V>)
      reads this
      ensures r.Threw? <==> key !in entries
      ensures r.Threw? ==> r.error == NoSuchElementException
      ensures r.Returned? ==> Get(key) == Some(r.value)
    {
      if key in entries then Returned(entries[key]) else Threw(NoSuchElementException)
    }

    /** `containsKey(key)`: exactly the keys `this[key]` finds. */
    function ContainsKey(key: K): (r: bool)
      reads this
      ensures r <==> Get(key).Some?
      ensures r <==> GetValue(key).Returned?
    {
      key in entries
    }
  }

  /** The list test: adding the same user twice appends it twice; the list and
      its read-only view contain it, the separate read-only list does not. */
  method ListsTest() returns (inMutable: bool, inView: bool, inImmutable: bool, size: nat)
    ensures inMutable && inView && !inImmutable
    ensures size == 5
  {
    var adminUser := User.User("ralves", Administrator);
    var additionalUser := NewUser("john-doe-2k22");
    var mutableList := new MutableList<User>([adminUser, NewUser("rodolpho.alves"), User.User("evil-doer-666", Banned)]);
    var immutableList := [adminUser];
    var view := mutableList;
    var _ := mutableList.Add(additionalUser);
    var _ := mutableList.Add(additionalUser);
    inMutable := mutableList.Contains(additionalUser);
    inView := view.Contains(additionalUser);
    inImmutable := additionalUser in immutableList;
    size := |mutableList.elements|;
  }

  /** The set test: the first `add` reports true, the second false; the set
      and its read-only view contain the user, the separate set does not. */
  method SetsTest() returns (firstGot: bool, secondGot: bool, inMutable: bool, inView: bool, inImmutable: bool)
    ensures firstGot && !secondGot
    ensures inMutable && inView && !inImmutable
  {
    var adminUser := User.User("ralves", Administrator);
    var additionalUser := NewUser("john-doe-2k22");
    var mutableSet := new MutableSet<User>([adminUser, NewUser("rodolpho.alves"), User.User("evil-doer-666", Banned)]);
    var immutableSet := {adminUser};
    var view := mutableSet;
    firstGot := mutableSet.Add(additionalUser);
    secondGot := mutableSet.Add(additionalUser);
    inMutable := mutableSet.Contains(additionalUser);
    inView := view.Contains(additionalUser);
    inImmutable := additionalUser in immutableSet;
  }

  /** The map test: the new user gets a score, the admin's score goes from 0
      to 2, the view sees the new key and the separate map does not. */
  method MapsTest() returns (adminScore: Nullable<int32>, containsNew: bool, viewContainsNew: bool, immutableContainsNew: bool)
    ensures adminScore == Some(2)
    ensures containsNew && viewContainsNew && !immutableContainsNew
  {
    var baseScore: int32 := 0;
    var adminUser := User.User("ralves", Administrator);
    var additionalUser := NewUser("john-doe-2k22");
    var mutableMap := new MutableMap<User, int32>(map[adminUser := baseScore]);
    var immutableMap := map[adminUser := baseScore];
    var view := mutableMap;
    var _ := mutableMap.Put(additionalUser, 1);
    var current := mutableMap.GetValue(adminUser);
    assert current == Returned(baseScore);
    var _ := mutableMap.Put(adminUser, Add32(current.value, 2));
    adminScore := mutableMap.Get(adminUser);
    containsNew := mutableMap.ContainsKey(additionalUser);
    viewContainsNew := view.ContainsKey(additionalUser);
    immutableContainsNew := additionalUser in immutableMap;
  }
}
