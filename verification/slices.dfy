// Model of demos/slices/slice3.go: appending to a slice passed by value
// returns a new slice; appending through a pointer replaces the caller's.
module Slices {

  /** `myAppend(s)`: the argument with 100 appended. The caller's slice is a
      value here, so it cannot change. */
  function MyAppend(s: seq<int>): (r: seq<int>)
    ensures |r| == |s| + 1
    ensures r[..|s|] == s
    ensures r[|s|] == 100
  {
    s + [100]
  }

  /** A Go variable of type `[]int`, whose address `&s` is passed around. */
  class SliceVar {
    var value: seq<int>

    constructor (init: seq<int>)
      ensures value == init
    {
      value := init;
    }
  }

  /** `myAppendPtr(&s)`: the variable behind the pointer gets the appended slice. */
  method MyAppendPtr(s: SliceVar)
    modifies s
    ensures s.value == MyAppend(old(s.value))
  {
    s.value := MyAppend(s.value);
  }

  /** `main`: s stays [1 1 1] after myAppend, the result is [1 1 1 100], and
      myAppendPtr on that result gives [1 1 1 100 100]. */
  method MainExample() returns (s: seq<int>, newS: seq<int>, afterPtr: seq<int>)
    ensures s == [1, 1, 1]
    ensures newS == [1, 1, 1, 100]
    ensures afterPtr == [1, 1, 1, 100, 100]
  {
    var v := new SliceVar([1, 1, 1]);
    newS := MyAppend(v.value);
    s := v.value;
    v.value := newS;
    MyAppendPtr(v);
    afterPtr := v.value;
  }
}
