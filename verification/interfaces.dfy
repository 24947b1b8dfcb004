/** An interface with default members, implemented by a class with a
    read-only and a mutable property (the `Kotlin Interfaces` test class).
    `BethesdaGame` is the only implementation of `Playable`, so the
    interface's default members are modelled as its members. */
module Interfaces {
  import opened Kotlin

  const PLACEHOLDER_TITLE := "PLACEHOLDER GAME INC"

  /** `class BethesdaGame(override val nameOfTheGame: String, override var score: Int) : Playable`. */
  class BethesdaGame {
    const nameOfTheGame: string
    var score: int32

    constructor (nameOfTheGame: string, score: int32)
      ensures this.nameOfTheGame == nameOfTheGame && this.score == score
    {
      this.nameOfTheGame := nameOfTheGame;
      this.score := score;
    }

    /** `play()`: `TODO("Not yet implemented")`, so it always throws. */
    function Play(): (r: Outcome<()>)
      ensures r.Threw? && r.error.NotImplementedError?
    {
      Threw(NotImplementedError("Not yet implemented"))
    }

    /** The default `reportProgress(message)`: the message upper-cased. */
    function ReportProgress(message: string): (r: string)
      ensures EqualsIgnoreCase(r, message)
      ensures forall i :: 0 <= i < |r| ==> !IsLowerAscii(r[i])
    {
      UppercaseIdempotent(message);
      Uppercase(message)
    }

    /** The default `gameTitle`, the same whatever the game. */
    function GameTitle(): (r: string)
      ensures r == "PLACEHOLDER GAME INC"
    {
      PLACEHOLDER_TITLE
    }

    /** The setter of `var score`; `nameOfTheGame` has none. */
    method SetScore(newScore: int32)
      modifies this
      ensures score == newScore
    {
      score := newScore;
    }
  }

  /** The interface test: `BethesdaGame("Skyrim 2.0", 1)` viewed as a
      `Playable` is the same object, with the name and score it was built
      with and the default title. */
  method InterfaceTest() returns (subject: BethesdaGame, got: BethesdaGame)
    ensures got == subject
    ensures got.nameOfTheGame == "Skyrim 2.0" && got.score == 1
    ensures got.GameTitle() == PLACEHOLDER_TITLE
  {
    subject := new BethesdaGame("Skyrim 2.0", 1);
    got := subject;
  }
}
