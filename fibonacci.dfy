/**
 * `getFibonacciSequence()`: an infinite generator that keeps two running values
 * `prevPrevNum` and `prevNum` (and the last sum `currNum`), yields 0 and 1, and
 * then forever yields the sum of the two and shifts them forward.
 */
module Fibonacci {

  /** The Fibonacci numbers: 0, 1, and then each the sum of the two before it. */
  function Fib(n: nat): nat
  {
    if n < 2 then n else Fib(n - 2) + Fib(n - 1)
  }

  /** Where the generator is suspended: before its first statement, or at one of its three `yield`s. */
  datatype ResumePoint = NotStarted | AfterFirstYield | AfterSecondYield | AfterLoopYield

  class FibonacciSequence {
    var prevPrevNum: nat
    var prevNum: nat
    var currNum: nat
    var point: ResumePoint
    /** Number of values yielded so far. */
    ghost var count: nat

    /**
     * The state after `count` yields. While in the loop, after `count - 3`
     * shifts, `prevPrevNum`, `prevNum` and `currNum` are three consecutive
     * Fibonacci numbers, the last of them the value just yielded.
     */
    ghost predicate Valid()
      reads this
    {
      match point
      case NotStarted => count == 0 && prevPrevNum == 0 && prevNum == 1
      case AfterFirstYield => count == 1 && prevPrevNum == 0 && prevNum == 1
      case AfterSecondYield => count == 2 && prevPrevNum == 0 && prevNum == 1
      case AfterLoopYield =>
        && count >= 3
        && prevPrevNum == Fib(count - 3)
        && prevNum == Fib(count - 2)
        && currNum == Fib(count - 1)
    }

    constructor ()
      ensures Valid() && count == 0
    {
      prevPrevNum, prevNum, currNum := 0, 1, 0;
      point := NotStarted;
      count := 0;
    }

    /** One pull: the generator never finishes, and its `n`-th value (from 0) is `Fib(n)`. */
    method Next() returns (value: nat)
      requires Valid()
      modifies this
      ensures Valid() && count == old(count) + 1
      ensures value == Fib(old(count))
    {
      match point {
        case NotStarted =>
          value := prevPrevNum;
          point := AfterFirstYield;
        case AfterFirstYield =>
          value := prevNum;
          point := AfterSecondYield;
        case AfterSecondYield =>
          currNum := prevNum + prevPrevNum;
          value := currNum;
          point := AfterLoopYield;
        case AfterLoopYield =>
          prevPrevNum := prevNum;
          prevNum := currNum;
          currNum := prevNum + prevPrevNum;
          value := currNum;
      }
      count := count + 1;
    }
  }

  /**
   * The first `n` values of the sequence: 0, then 1, then each the sum of the
   * two before it; the `i`-th is `Fib(i)`.
   */
  method Take(n: nat) returns (values: seq<nat>)
    ensures |values| == n
    ensures forall i | 0 <= i < n :: values[i] == Fib(i)
    ensures n > 0 ==> values[0] == 0
    ensures n > 1 ==> values[1] == 1
    ensures forall i | 2 <= i < n :: values[i] == values[i - 1] + values[i - 2]
  {
    var fibs := new FibonacciSequence();
    values := [];
    while |values| < n
      invariant fibs.Valid() && fibs.count == |values| <= n
      invariant forall i | 0 <= i < |values| :: values[i] == Fib(i)
    {
      var v := fibs.Next();
      values := values + [v];
    }
  }

  /** The prefix listed in the documentation. */
  method FirstFourteen() returns (values: seq<nat>)
    ensures values == [0, 1, 1, 2, 3, 5, 8, 13, 21, 34, 55, 89, 144, 233]
  {
    values := Take(14);
    assert Fib(2) == 1 && Fib(3) == 2 && Fib(4) == 3 && Fib(5) == 5 && Fib(6) == 8;
    assert Fib(7) == 13 && Fib(8) == 21 && Fib(9) == 34 && Fib(10) == 55;
    assert Fib(11) == 89 && Fib(12) == 144 && Fib(13) == 233;
  }
}
