// Model of src/fibonacci.go: the recursive Fibonacci definition and the
// loop in main that prints its first values.
module Fibonacci {

  /** Go's `fibonacci(n)`: below 2 (negative arguments included) the value is
      `n` itself, otherwise the sum of the two previous values. */
  function Fib(n: int): (r: int)
    decreases n
    ensures n < 2 ==> r == n
    ensures n >= 0 ==> r >= 0
    ensures n >= 2 ==> r >= 1
  {
    if n < 2 then n else Fib(n - 2) + Fib(n - 1)
  }

  /** The recurrence holds for every n of at least 2. */
  lemma FibStep(n: int)
    requires n >= 2
    ensures Fib(n) == Fib(n - 2) + Fib(n - 1)
  {
  }

  /** From 0 on the sequence never decreases: each step adds a non-negative value. */
  lemma {:induction false} FibMonotone(m: int, n: int)
    requires 0 <= m <= n
    ensures Fib(m) <= Fib(n)
    decreases n - m
  {
    if m < n {
      FibMonotone(m, n - 1);
      if n >= 2 {
        assert Fib(n) == Fib(n - 2) + Fib(n - 1);
      }
    }
  }

  /** The loop of `main`: the values printed for `i := 0; i < count; i++`. */
  method Printed(count: int) returns (out: seq<int>)
    ensures |out| == if count > 0 then count else 0
    ensures forall k :: 0 <= k < |out| ==> out[k] == Fib(k)
  {
    out := [];
    var i := 0;
    while i < count
      invariant 0 <= i <= if count > 0 then count else 0
      invariant |out| == i
      invariant forall k :: 0 <= k < i ==> out[k] == Fib(k)
    {
      out := out + [Fib(i)];
      i := i + 1;
    }
  }

  /** `main` prints ten values: 0 1 1 2 3 5 8 13 21 34. */
  method Main10() returns (out: seq<int>)
    ensures out == [0, 1, 1, 2, 3, 5, 8, 13, 21, 34]
  {
    out := Printed(10);
    assert Fib(2) == 1 && Fib(3) == 2 && Fib(4) == 3 && Fib(5) == 5;
    assert Fib(6) == 8 && Fib(7) == 13 && Fib(8) == 21 && Fib(9) == 34;
  }
}
