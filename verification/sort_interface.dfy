// Model of main.go: the Len/Less/Swap interface over an int slice, and the
// `reverse` wrapper that flips Less while inheriting Len and Swap.
module SortInterface {

  /** A value of Go's `Interface`: either the slice type `Array` itself or a
      `reverse` struct embedding another Interface value. An Array shares its
      backing store with every copy of it, which the array reference models. */
  datatype Interface = ArrayOf(arr: array<int>) | Reversed(inner: Interface)

  /** The backing array that Len, Less and Swap finally act on. */
  function Backing(x: Interface): array<int>
  {
    match x
    case ArrayOf(a) => a
    case Reversed(y) => Backing(y)
  }

  /** How many `reverse` wrappers lie around the array. */
  function Depth(x: Interface): nat
  {
    match x
    case ArrayOf(_) => 0
    case Reversed(y) => Depth(y) + 1
  }

  /** `Len`: `reverse` has no Len of its own, the embedded one is used, so
      it is the length of the underlying slice however often it is wrapped. */
  function Len(x: Interface): (n: int)
    ensures n == Backing(x).Length
  {
    match x
    case ArrayOf(a) => a.Length
    case Reversed(y) => Len(y)
  }

  /** `Array.Less` compares two elements; `reverse.Less(i, j)` is the wrapped
      `Less(j, i)`. On the plain array and under an even number of wrappers it
      compares arr[i] < arr[j]; under an odd number, arr[j] < arr[i]. An index
      out of range panics in Go and is excluded here. */
  function Less(x: Interface, i: int, j: int): (r: bool)
    requires 0 <= i < Backing(x).Length && 0 <= j < Backing(x).Length
    reads Backing(x)
    ensures var a := Backing(x);
      r <==> if Depth(x) % 2 == 0 then a[i] < a[j] else a[j] < a[i]
  {
    match x
    case ArrayOf(a) => a[i] < a[j]
    case Reversed(y) => Less(y, j, i)
  }

  /** `Reverse(data)`. */
  function Reverse(data: Interface): (r: Interface)
    ensures Backing(r) == Backing(data) && Depth(r) == Depth(data) + 1
  {
    Reversed(data)
  }

  /** `reverse.Less(i, j)` is the wrapped Less(j, i), and `Reverse` keeps Len
      and the backing store that Swap acts on. */
  lemma ReverseFlipsLess(data: Interface, i: int, j: int)
    requires 0 <= i < Backing(data).Length && 0 <= j < Backing(data).Length
    ensures Less(Reverse(data), i, j) == Less(data, j, i)
    ensures Len(Reverse(data)) == Len(data)
    ensures Backing(Reverse(data)) == Backing(data)
  {
  }

  /** Reversing twice gives back the original order. */
  lemma ReverseTwice(data: Interface, i: int, j: int)
    requires 0 <= i < Backing(data).Length && 0 <= j < Backing(data).Length
    ensures Less(Reverse(Reverse(data)), i, j) == Less(data, i, j)
  {
  }

  /** Every view's Less is a strict order: irreflexive and transitive. */
  lemma LessStrictOrder(x: Interface, i: int, j: int, k: int)
    requires var n := Backing(x).Length; 0 <= i < n && 0 <= j < n && 0 <= k < n
    ensures !Less(x, i, i)
    ensures Less(x, i, j) && Less(x, j, k) ==> Less(x, i, k)
  {
  }

  /** The slice after exchanging positions i and j. */
  function Swapped(s: seq<int>, i: int, j: int): (r: seq<int>)
    requires 0 <= i < |s| && 0 <= j < |s|
    ensures |r| == |s|
    ensures r[i] == s[j] && r[j] == s[i]
    ensures forall k :: 0 <= k < |s| && k != i && k != j ==> r[k] == s[k]
  {
    s[i := s[j]][j := s[i]]
  }

  lemma SwapTwice(s: seq<int>, i: int, j: int)
    requires 0 <= i < |s| && 0 <= j < |s|
    ensures Swapped(Swapped(s, i, j), i, j) == s
    ensures Swapped(s, i, i) == s
  {
  }

  lemma SwapPermutes(s: seq<int>, i: int, j: int)
    requires 0 <= i < |s| && 0 <= j < |s|
    ensures multiset(Swapped(s, i, j)) == multiset(s)
  {
  }

  /** `Array.Swap`, which every `reverse` wrapper inherits: it writes through
      the shared backing array. */
  method Swap(x: Interface, i: int, j: int)
    requires 0 <= i < Backing(x).Length && 0 <= j < Backing(x).Length
    modifies Backing(x)
    // Lets the postcondition speak of the array's old contents; every caller meets it.
    requires allocated(Backing(x))
    ensures var a := Backing(x); a[..] == Swapped(old(a[..]), i, j)
  {
    var a := Backing(x);
    a[i], a[j] := a[j], a[i];
  }

  /** `main`: for Array{1, 2, 3}, arr.Less(0, 1) is true and
      Reverse(arr).Less(0, 1) is false. */
  method MainExample() returns (plain: bool, reversed: bool)
    ensures plain && !reversed
  {
    var a := new int[3];
    a[0], a[1], a[2] := 1, 2, 3;
    var arr := ArrayOf(a);
    var rarr := Reverse(arr);
    plain := Less(arr, 0, 1);
    reversed := Less(rarr, 0, 1);
    assert reversed == Less(arr, 1, 0);
  }
}
