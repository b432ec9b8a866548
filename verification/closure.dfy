// Model of src/closure.go: `getSequence` returns a closure over its own
// counter `i`; every call increments that counter and returns it. The closure
// and its captured variable are modelled as an object with one field.
module Closure {

  class Sequence {
    /** The captured variable `i`. */
    var i: int

    /** `getSequence()`: a new generator whose counter starts at 0. */
    constructor ()
      ensures i == 0
    {
      i := 0;
    }

    /** One call of the returned closure: increment the counter, return it. */
    method Next() returns (r: int)
      modifies this
      ensures i == old(i) + 1
      ensures r == i
    {
      i := i + 1;
      r := i;
    }
  }

  /** k successive calls on one generator return the k values after its
      current counter, and leave the counter k further on. */
  method Calls(g: Sequence, k: nat) returns (values: seq<int>)
    modifies g
    ensures g.i == old(g.i) + k
    ensures |values| == k
    ensures forall n :: 0 <= n < k ==> values[n] == old(g.i) + n + 1
  {
    values := [];
    var n := 0;
    while n < k
      invariant 0 <= n <= k
      invariant g.i == old(g.i) + n
      invariant |values| == n
      invariant forall m :: 0 <= m < n ==> values[m] == old(g.i) + m + 1
    {
      var v := g.Next();
      values := values + [v];
      n := n + 1;
    }
  }

  /** `main`: the first generator returns 1, 2, 3; a second one starts again at
      1 and then 2, and its calls do not touch the first generator's counter. */
  method MainExample() returns (first: seq<int>, second: seq<int>, firstAfter: int)
    ensures first == [1, 2, 3]
    ensures second == [1, 2]
    ensures firstAfter == 3
  {
    var nextNumber := new Sequence();
    var a := nextNumber.Next();
    var b := nextNumber.Next();
    var c := nextNumber.Next();
    first := [a, b, c];
    var nextNumber1 := new Sequence();
    var d := nextNumber1.Next();
    var e := nextNumber1.Next();
    second := [d, e];
    firstAfter := nextNumber.i;
  }
}
