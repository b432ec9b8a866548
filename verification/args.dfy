// Model of the argument-joining loops of src/osargs.go and src/forrange.go.
// `os.Args` is a parameter; printing the result is not modelled.
module Args {

  /** The arguments joined by single spaces, built as the loops build it:
      the last argument is added after everything before it. There is no
      leading separator: the result starts with the first argument. */
  function Join(xs: seq<string>): (r: string)
    decreases |xs|
    ensures |xs| >= 1 ==> |xs[0]| <= |r| && r[..|xs[0]|] == xs[0]
  {
    if |xs| == 0 then ""
    else if |xs| == 1 then xs[0]
    else Join(xs[..|xs| - 1]) + " " + xs[|xs| - 1]
  }

  /** An independent reference: the first argument, then a space before every
      later one. */
  function JoinFromFront(xs: seq<string>): string
    decreases |xs|
  {
    if |xs| == 0 then ""
    else if |xs| == 1 then xs[0]
    else xs[0] + " " + JoinFromFront(xs[1..])
  }

  function TotalLength(xs: seq<string>): nat
  {
    if xs == [] then 0 else TotalLength(xs[..|xs| - 1]) + |xs[|xs| - 1]|
  }

  /** The two definitions agree. */
  lemma {:induction false} JoinIsJoinFromFront(xs: seq<string>)
    ensures Join(xs) == JoinFromFront(xs)
    decreases |xs|
  {
    if |xs| > 2 {
      var init := xs[..|xs| - 1];
      JoinIsJoinFromFront(init);
      JoinIsJoinFromFront(xs[1..]);
      JoinIsJoinFromFront(init[1..]);
      assert init[1..] == xs[1..][..|xs| - 2];
      assert JoinFromFront(xs[1..]) == Join(init[1..]) + " " + xs[|xs| - 1];
    } else if |xs| == 2 {
      assert xs[..1] == [xs[0]];
      assert xs[1..] == [xs[1]];
    }
  }

  /** One space between each pair of neighbours and no other character added. */
  lemma {:induction false} JoinLength(xs: seq<string>)
    requires |xs| >= 1
    ensures |Join(xs)| == TotalLength(xs) + |xs| - 1
    decreases |xs|
  {
    if |xs| == 1 {
      assert xs[..0] == [];
    } else {
      JoinLength(xs[..|xs| - 1]);
    }
  }

  /** No trailing separator: the result ends with the last argument. */
  lemma JoinEndsWithLast(xs: seq<string>)
    requires |xs| >= 1
    ensures var j, l := Join(xs), xs[|xs| - 1]; |l| <= |j| && j[|j| - |l|..] == l
  {
  }

  // Splitting at spaces, the inverse of Join for arguments without spaces.

  function LastSpace(s: string): (k: int)
    requires ' ' in s
    ensures 0 <= k < |s| && s[k] == ' ' && ' ' !in s[k + 1..]
  {
    if s[|s| - 1] == ' ' then |s| - 1
    else
      assert ' ' in s[..|s| - 1] by {
        var k :| 0 <= k < |s| && s[k] == ' ';
        assert s[..|s| - 1][k] == ' ';
      }
      assert s[LastSpace(s[..|s| - 1]) + 1..] == s[..|s| - 1][LastSpace(s[..|s| - 1]) + 1..] + [s[|s| - 1]];
      LastSpace(s[..|s| - 1])
  }

  /** The pieces between spaces, in order ("" gives [""]). */
  function Split(s: string): seq<string>
    decreases |s|
  {
    if ' ' in s then Split(s[..LastSpace(s)]) + [s[LastSpace(s) + 1..]] else [s]
  }

  lemma LastSpaceOfJoined(p: string, q: string)
    requires ' ' !in q
    ensures ' ' in p + " " + q && LastSpace(p + " " + q) == |p|
  {
    var s := p + " " + q;
    assert s[|p|] == ' ';
  }

  /** Splitting the joined arguments at spaces gives them back, provided there
      is at least one and none contains a space. */
  lemma {:induction false} SplitJoin(xs: seq<string>)
    requires |xs| >= 1
    requires forall k :: 0 <= k < |xs| ==> ' ' !in xs[k]
    ensures Split(Join(xs)) == xs
    decreases |xs|
  {
    if |xs| == 1 {
    } else {
      var init, last := xs[..|xs| - 1], xs[|xs| - 1];
      LastSpaceOfJoined(Join(init), last);
      var s := Join(init) + " " + last;
      assert s[..|Join(init)|] == Join(init);
      assert s[|Join(init)| + 1..] == last;
      SplitJoin(init);
    }
  }

  /** The index loop of src/osargs.go: from index 1 on, each argument is added
      after the separator, which is empty the first time and a space after. */
  method JoinIndexed(args: seq<string>) returns (s: string)
    ensures s == if |args| <= 1 then "" else Join(args[1..])
  {
    var sep := "";
    s := "";
    var i := 1;
    while i < |args|
      invariant 1 <= i <= if |args| > 1 then |args| else 1
      invariant s == if i <= |args| then Join(args[1..i]) else ""
      invariant sep == if i == 1 then "" else " "
    {
      assert args[1..i + 1][..i - 1] == args[1..i];
      s := s + sep + args[i];
      sep := " ";
      i := i + 1;
    }
    if |args| > 1 {
      assert args[1..i] == args[1..];
    }
  }

  /** The range loop of src/forrange.go over the arguments after the program
      name, with the same separator variable. Taking that tail needs at least
      the program name to be present. */
  method JoinRange(args: seq<string>) returns (s: string)
    requires |args| >= 1
    ensures s == Join(args[1..])
  {
    var rest := args[1..];
    var sep := "";
    s := "";
    for k := 0 to |rest|
      invariant s == Join(rest[..k])
      invariant sep == if k == 0 then "" else " "
    {
      assert rest[..k + 1][..k] == rest[..k];
      s := s + sep + rest[k];
      sep := " ";
    }
    assert rest[..|rest|] == rest;
  }

  /** Both programs print the same line for the same arguments. */
  method SameOutput(args: seq<string>) returns (indexed: string, ranged: string)
    requires |args| >= 1
    ensures indexed == ranged
    ensures |args| == 1 ==> ranged == ""
  {
    indexed := JoinIndexed(args);
    ranged := JoinRange(args);
  }
}
