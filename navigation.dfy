/**
 * Single-wrap stepping through 1-based indices, as used for the next and
 * previous column (`calculateSelectedNextColumn`, `calculateConnectedNextColumn`,
 * ...) and the next and previous deck (`calculateNextDeck`, `calculatePreviousDeck`).
 * The step wraps around the end at most once; it is not a modulo.
 */
module Navigation {

  /** Step forward by `add` from `current`, wrapping once past `last`. */
  function Next(current: int, add: int, last: int): (r: int)
    ensures 1 <= current <= last && 0 <= add <= last ==> 1 <= r <= last
  {
    if current + add > last then current + add - last else current + add
  }

  /** Step back by `sub` from `current`, wrapping once below 1. */
  function Previous(current: int, sub: int, last: int): (r: int)
    ensures 1 <= current <= last && 0 <= sub <= last ==> 1 <= r <= last
  {
    if current - sub < 1 then last + current - sub else current - sub
  }

  /** The Euclidean remainder is the one offset in `[0, last)` reached from
      `x` by whole laps: here at most one lap either way. */
  lemma ModOneLap(x: int, laps: int, last: int)
    requires last >= 1 && -1 <= laps <= 1
    requires 0 <= x - laps * last < last
    ensures x % last == x - laps * last
  {
    var q, r := x / last, x % last;
    assert x == last * q + r && 0 <= r < last;
  }

  /** Within one lap the single wrap is the cyclic successor. */
  lemma NextIsCyclic(current: int, add: int, last: int)
    requires 1 <= current <= last && 0 <= add <= last
    ensures Next(current, add, last) == (current - 1 + add) % last + 1
  {
    var x := current - 1 + add;
    if x < last {
      ModOneLap(x, 0, last);
    } else {
      ModOneLap(x, 1, last);
    }
  }

  /** Within one lap the single wrap is the cyclic predecessor. */
  lemma PreviousIsCyclic(current: int, sub: int, last: int)
    requires 1 <= current <= last && 0 <= sub <= last
    ensures Previous(current, sub, last) == (current - 1 - sub) % last + 1
  {
    var x := current - 1 - sub;
    if x >= 0 {
      ModOneLap(x, 0, last);
    } else {
      ModOneLap(x, -1, last);
    }
  }

  /** Stepping back undoes stepping forward, and the other way round. */
  lemma PreviousUndoesNext(current: int, k: int, last: int)
    requires 1 <= current <= last && 0 <= k <= last
    ensures Previous(Next(current, k, last), k, last) == current
    ensures Next(Previous(current, k, last), k, last) == current
  {
  }

  /** With eight columns, three on from the eighth is the third and two back
      from the first is the seventh. */
  lemma WrapExamples()
    ensures Next(8, 3, 8) == 3
    ensures Previous(1, 2, 8) == 7
  {
  }

  /** A step longer than a lap leaves the range: twenty on from the first of
      eight is thirteen, not five. */
  lemma SingleWrapOnly()
    ensures Next(1, 20, 8) == 13
    ensures Previous(1, 20, 8) == -11
  {
  }
}
