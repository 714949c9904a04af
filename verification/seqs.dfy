/** Sequence helpers shared by the other modules: duplicate-freedom,
    `list.index`, Python's slicing and two facts about concatenation that
    are cheaper to state once than to rediscover in large proofs. */
module Seqs {

  predicate Distinct<T(==)>(s: seq<T>) {
    forall i, j :: 0 <= i < j < |s| ==> s[i] != s[j]
  }

  /** Position of the first `x` in `s`, or `|s|` when absent. */
  function IndexOf<T(==)>(s: seq<T>, x: T): (i: nat)
    ensures i <= |s|
    ensures i < |s| <==> x in s
    ensures i < |s| ==> s[i] == x && x !in s[..i]
  {
    if s == [] then 0
    else if s[0] == x then 0
    else 1 + IndexOf(s[1..], x)
  }

  lemma IndexOfDistinct<T>(s: seq<T>, i: nat)
    requires Distinct(s) && i < |s|
    ensures IndexOf(s, s[i]) == i
  {
  }

  /** Appending an element moves no earlier first occurrence. */
  lemma IndexOfAppend<T>(s: seq<T>, y: T, x: T)
    ensures IndexOf(s + [y], x) == if x in s then IndexOf(s, x) else if x == y then |s| else |s| + 1
  {
    if s != [] {
      assert (s + [y])[1..] == s[1..] + [y];
      IndexOfAppend(s[1..], y, x);
    }
  }

  /** `s[:n]` for a non-negative bound `n`. */
  function Prefix<T>(s: seq<T>, n: nat): (r: seq<T>)
    ensures |r| == if n < |s| then n else |s|
    ensures r == s[..|r|]
  {
    if n < |s| then s[..n] else s
  }

  /** `s[:n]` for any integer `n`: a negative bound counts from the end. */
  function PyPrefix<T>(s: seq<T>, n: int): (r: seq<T>)
    ensures 0 <= n ==> r == Prefix(s, n)
    ensures n < 0 ==> |r| == (if |s| + n > 0 then |s| + n else 0)
    ensures r == s[..|r|]
  {
    if 0 <= n then Prefix(s, n)
    else if |s| + n > 0 then s[..|s| + n]
    else []
  }

  /** The position Python uses for a slice bound `i` of a sequence of length
      `n`: a negative bound counts from the end, and both are clamped. */
  function PyBound(i: int, n: nat): (b: nat)
    ensures b <= n
    ensures 0 <= i <= n ==> b == i
  {
    if i < 0 then (if n + i < 0 then 0 else n + i)
    else if i > n then n
    else i
  }

  /** `s[a:b]` for any integer bounds. */
  function PySlice<T>(s: seq<T>, a: int, b: int): (r: seq<T>)
    ensures 0 <= a <= |s| && a <= b ==> r == s[a..if b < |s| then b else |s|]
  {
    var x := PyBound(a, |s|);
    var y := PyBound(b, |s|);
    if x < y then s[x..y] else []
  }

  lemma SliceAppend<T>(a: seq<T>, x: T, n: nat)
    requires n <= |a|
    ensures (a + [x])[n..] == a[n..] + [x]
  {
  }

  lemma AppendAssoc<T>(a: seq<T>, b: seq<T>, c: seq<T>)
    ensures a + b + c == a + (b + c)
  {
  }

  /** The `k`-th element of the middle part of a three-part sequence. */
  lemma MiddleAt<T>(a: seq<T>, b: seq<T>, c: seq<T>, k: nat)
    requires k < |b|
    ensures |a| + k < |a + (b + c)| && (a + (b + c))[|a| + k] == b[k]
  {
  }

  /** The parts one after another. */
  function Flatten<T>(parts: seq<seq<T>>): seq<T>
    decreases |parts|
  {
    if parts == [] then [] else parts[0] + Flatten(parts[1..])
  }

  /** Each part sits whole, at some offset, in the flattened sequence. */
  lemma {:induction false} FlattenAt<T>(parts: seq<seq<T>>, k: nat) returns (off: nat)
    requires k < |parts|
    ensures off + |parts[k]| <= |Flatten(parts)|
    ensures Flatten(parts)[off..off + |parts[k]|] == parts[k]
    decreases |parts|
  {
    var rest := Flatten(parts[1..]);
    assert Flatten(parts) == parts[0] + rest;
    if k == 0 {
      off := 0;
    } else {
      assert parts[1..][k - 1] == parts[k];
      var o := FlattenAt(parts[1..], k - 1);
      off := |parts[0]| + o;
      assert Flatten(parts)[off..off + |parts[k]|] == rest[o..o + |parts[k]|];
    }
  }

  /** Empty parts flatten to nothing. */
  lemma {:induction false} FlattenEmpty<T>(parts: seq<seq<T>>)
    requires forall i :: 0 <= i < |parts| ==> parts[i] == []
    ensures Flatten(parts) == []
    decreases |parts|
  {
    if parts != [] {
      assert parts[0] == [];
      FlattenEmpty(parts[1..]);
    }
  }

  /** `[f(x) for x in xs if p(x)]` */
  function Keep<T, U>(xs: seq<T>, p: T -> bool, f: T -> U): (r: seq<U>)
    ensures |r| <= |xs|
  {
    if xs == [] then []
    else if p(xs[0]) then [f(xs[0])] + Keep(xs[1..], p, f)
    else Keep(xs[1..], p, f)
  }

  /** Each kept value is the image of a selected element. */
  lemma {:induction false} KeepSound<T, U>(xs: seq<T>, p: T -> bool, f: T -> U, k: nat) returns (i: nat)
    requires k < |Keep(xs, p, f)|
    ensures i < |xs| && p(xs[i]) && Keep(xs, p, f)[k] == f(xs[i])
  {
    var rest := Keep(xs[1..], p, f);
    if p(xs[0]) && k == 0 {
      i := 0;
    } else {
      var k' := if p(xs[0]) then k - 1 else k;
      assert Keep(xs, p, f)[k] == rest[k'];
      var j := KeepSound(xs[1..], p, f, k');
      i := j + 1;
    }
  }

  /** Each selected element's image is kept. */
  lemma {:induction false} KeepComplete<T, U>(xs: seq<T>, p: T -> bool, f: T -> U, i: nat)
    requires i < |xs| && p(xs[i])
    ensures f(xs[i]) in Keep(xs, p, f)
  {
    if i == 0 {
      assert Keep(xs, p, f)[0] == f(xs[0]);
    } else {
      assert xs[1..][i - 1] == xs[i];
      KeepComplete(xs[1..], p, f, i - 1);
      var rest := Keep(xs[1..], p, f);
      assert Keep(xs, p, f) == rest || Keep(xs, p, f) == [f(xs[0])] + rest;
    }
  }

  /** Nothing is kept exactly when nothing is selected. */
  lemma {:induction false} KeepEmpty<T, U>(xs: seq<T>, p: T -> bool, f: T -> U)
    ensures Keep(xs, p, f) == [] <==> forall i :: 0 <= i < |xs| ==> !p(xs[i])
  {
    if Keep(xs, p, f) != [] {
      var i := KeepSound(xs, p, f, 0);
    } else {
      forall i | 0 <= i < |xs| ensures !p(xs[i]) {
        if p(xs[i]) {
          KeepComplete(xs, p, f, i);
        }
      }
    }
  }
}
