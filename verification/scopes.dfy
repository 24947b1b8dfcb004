/** The scope functions `let`, `run`, `with`, `apply` and `also` over a
    user whose ban flag is mutable (the `Scopes in Kotlin` test class).
    Where the tests pick with `Random.nextBoolean()` whether the subject
    exists, that choice is a parameter. */
module Scopes {

  /** `data class User(val username: String, var isBanned: Boolean = false)`. */
  class User {
    const username: string
    var isBanned: bool

    constructor (username: string, isBanned: bool := false)
      ensures this.username == username && this.isBanned == isBanned
    {
      this.username := username;
      this.isBanned := isBanned;
    }

    /** `copy(isBanned = isBanned)`: a new user with this name. */
    method Copy(isBanned: bool) returns (u: User)
      ensures fresh(u)
      ensures u.username == username && u.isBanned == isBanned
    {
      u := new User(username, isBanned);
    }

    /** `==`: the data-class `equals`, comparing both properties. */
    function Equals(other: User?): (r: bool)
      reads this, other
      ensures r <==> other != null && other.username == username && other.isBanned == isBanned
      ensures other == this ==> r
    {
      other != null && username == other.username && isBanned == other.isBanned
    }
  }

  /** The subject of the null-checking tests: a user named "ralves" when it
      should exist, null otherwise. */
  method NewSubject(shouldExist: bool) returns (subject: User?)
    ensures (subject != null) == shouldExist
    ensures subject != null ==> subject.username == "ralves" && !subject.isBanned
  {
    subject := null;
    if shouldExist {
      subject := new User("ralves");
    }
  }

  /** `subject?.let { it.copy(isBanned = true) }`: null stays null; otherwise
      a banned copy, another object with the same name. */
  method LetBannedCopy(subject: User?) returns (got: User?)
    ensures (got == null) == (subject == null)
    ensures got != null ==> got != subject && got.username == subject.username && got.isBanned
  {
    if subject == null {
      got := null;
    } else {
      var it := subject;
      got := it.Copy(true);
    }
  }

  /** `subject?.run { copy(isBanned = true) }`: the block sees the subject as
      `this` rather than `it`. */
  method RunBannedCopy(subject: User?) returns (got: User?)
    ensures (got == null) == (subject == null)
    ensures got != null ==> got != subject && got.username == subject.username && got.isBanned
  {
    got := null;
    if subject != null {
      got := subject.Copy(true);
    }
  }

  /** The `let` and `run` tests, and the `with` test on the result of `run`:
      the result is a banned user exactly when the subject was made to exist,
      and `let` and `run` agree on it. */
  method LetRunWithTest(shouldExist: bool) returns (gotLet: User?, gotRun: User?, withHolds: bool)
    ensures shouldExist ==> gotLet != null && gotLet.isBanned
    ensures !shouldExist ==> gotLet == null
    ensures (gotRun == null) == (gotLet == null)
    ensures gotRun != null ==> gotRun.Equals(gotLet)
    ensures withHolds
  {
    var subject := NewSubject(shouldExist);
    gotLet := LetBannedCopy(subject);
    gotRun := RunBannedCopy(subject);
    withHolds := if shouldExist then gotRun != null else gotRun == null;
  }

  /** `subject.apply { isBanned = true }`: bans the subject itself and returns
      it. */
  method ApplyBan(subject: User) returns (got: User)
    modifies subject
    ensures got == subject && subject.isBanned
  {
    subject.isBanned := true;
    got := subject;
  }

  /** The `apply` test: `subject?.apply { isBanned = true }?.isBanned` is not
      false. */
  method ApplyTest() returns (got: bool)
    ensures got
  {
    var subject := new User("ralves");
    var applied := ApplyBan(subject);
    got := applied.isBanned;
  }

  /** `it.also { shadowCopy = it.copy(isBanned = true) }`: returns `it`
      itself, untouched (nothing is modified), and leaves a banned copy in
      `shadowCopy`, which differs from an unbanned `it`. */
  method AlsoBannedShadowCopy(it: User) returns (result: User, shadowCopy: User)
    ensures result == it
    ensures !it.isBanned ==> !result.Equals(shadowCopy)
    ensures shadowCopy != it && shadowCopy.username == it.username && shadowCopy.isBanned
  {
    shadowCopy := it.Copy(true);
    result := it;
  }

  /** The `also` test: the returned user is still unbanned, so it differs
      from its banned shadow copy. */
  method AlsoTest() returns (subjectIsBanned: bool, differs: bool)
    ensures !subjectIsBanned && differs
  {
    var user := new User("ralves");
    var subject, shadowCopy := AlsoBannedShadowCopy(user);
    subjectIsBanned := subject.isBanned;
    differs := !subject.Equals(shadowCopy);
  }
}
