/** A racer on the track: the player's dog or one of the two CPU dogs (dog.h, dog.cpp). */
module Dogs {

  class Dog {
    // The symbol, the player flag and the name are set once by the
    // constructor and no operation writes them afterwards, so they are
    // constants here; the getters of the source are plain reads of these
    // fields.
    const symbol: char
    const isPlayer: bool
    const name: string
    // The position on the track; it may start below zero (a staggered start).
    var position: int

    constructor (symbol: char, initialPosition: int, isPlayer: bool, name: string)
      ensures this.symbol == symbol && this.position == initialPosition
      ensures this.isPlayer == isPlayer && this.name == name
    {
      this.symbol := symbol;
      this.position := initialPosition;
      this.isPlayer := isPlayer;
      this.name := name;
    }

    /** Advances the dog by `steps` cells; the position is the only state that changes. */
    method Move(steps: int)
      modifies this
      ensures position == old(position) + steps
    {
      position := position + steps;
    }
  }

  /** Two moves in a row land where one move by the sum of the steps would. */
  method MovesCompose(d: Dog, a: int, b: int)
    modifies d
    ensures d.position == old(d.position) + (a + b)
    ensures a >= 0 && b >= 0 ==> d.position >= old(d.position)
  {
    d.Move(a);
    d.Move(b);
  }
}
