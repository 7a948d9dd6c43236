/**
 * The two draws the generator makes from numpy's random module. Only their
 * ranges are modelled: each draw is an arbitrary value of its range, so every
 * property proved of the generator holds whatever the random source returns.
 */
module Randomness {

  /** numpy's randint(low, high): an integer of the half-open range [low, high); an empty range raises. */
  method RandInt(low: int, high: int) returns (r: int)
    requires low < high
    ensures low <= r < high
  {
    r :| low <= r < high;
  }

  /** numpy's choice(xs): one of the elements of a non-empty list. */
  method Choice(xs: seq<string>) returns (x: string)
    requires |xs| > 0
    ensures x in xs
  {
    assert xs[0] in xs;
    x :| x in xs;
  }
}
