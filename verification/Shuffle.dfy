/** The order a channel plays its files in: a shuffle in place. The random numbers are left open. */
module Shuffle {

  function Swapped<T>(s: seq<T>, i: nat, j: nat): (r: seq<T>)
    requires i < |s| && j < |s|
    ensures |r| == |s|
  {
    s[i := s[j]][j := s[i]]
  }

  /** Positions `n - 1` down to 1, each swapped with one at or before it that a draw picks. */
  function Shuffled<T>(s: seq<T>, n: nat, draws: seq<nat>): (r: seq<T>)
    requires n <= |s| && n <= |draws| + 1
    ensures |r| == |s|
    decreases n
  {
    if n <= 1 then s else Shuffled(Swapped(s, n - 1, draws[0] % n), n - 1, draws[1..])
  }

  method ShuffleInPlace<T>(v: array<T>, draws: seq<nat>)
    requires v.Length <= |draws| + 1
    modifies v
    ensures v[..] == Shuffled(old(v[..]), v.Length, draws)
  {
    ghost var was := v[..];
    var n, k := v.Length, 0;
    while n > 1
      invariant 0 <= n <= v.Length && k == v.Length - n && (v.Length == 0 || n >= 1)
      invariant Shuffled(was, v.Length, draws) == Shuffled(v[..], n, draws[k..])
    {
      var j := draws[k] % n;
      ghost var before := v[..];
      v[n - 1], v[j] := v[j], v[n - 1];
      assert v[..] == Swapped(before, n - 1, j);
      assert draws[k..][0] == draws[k] && draws[k..][1..] == draws[k + 1..];
      n, k := n - 1, k + 1;
    }
  }

  lemma {:induction false} SwapPermutes<T>(s: seq<T>, i: nat, j: nat)
    requires i < |s| && j < |s|
    ensures multiset(Swapped(s, i, j)) == multiset(s)
  {}

  /** Whatever the draws, every file is played once. */
  lemma {:induction false} ShufflePermutes<T>(s: seq<T>, n: nat, draws: seq<nat>)
    requires n <= |s| && n <= |draws| + 1
    ensures multiset(Shuffled(s, n, draws)) == multiset(s)
    ensures Shuffled(s, n, draws)[n..] == s[n..]
    decreases n
  {
    if n > 1 {
      var j := draws[0] % n;
      SwapPermutes(s, n - 1, j);
      ShufflePermutes(Swapped(s, n - 1, j), n - 1, draws[1..]);
      var r := Shuffled(s, n, draws);
      assert r[n..] == r[n - 1..][1..];
      assert Swapped(s, n - 1, j)[n - 1..][1..] == s[n..];
    }
  }

  /** No order is left out: for every order of the files some draws give it. */
  lemma {:induction false} EveryOrderCanCome<T>(s: seq<T>, t: seq<T>, n: nat) returns (draws: seq<nat>)
    requires n <= |s| == |t| && s[n..] == t[n..] && multiset(s[..n]) == multiset(t[..n])
    ensures |draws| == n && Shuffled(s, n, draws) == t
    decreases n
  {
    hide Swapped, Shuffled;
    if n <= 1 {
      draws := seq(n, _ => 0);
      OneLeft(s, t, n);
      ShuffledStep(s, n, draws);
    } else {
      var j := FindLast(s, t, n);
      SwapInside(s, t, n, j);
      var rest := EveryOrderCanCome(Swapped(s, n - 1, j), t, n - 1);
      draws := [j] + rest;
      assert draws[1..] == rest;
      Small(j, n);
      ShuffledStep(s, n, draws);
    }
  }

  lemma {:induction false} Small(j: nat, n: nat)
    requires j < n
    ensures j % n == j
  {}

  lemma {:induction false} ShuffledStep<T>(s: seq<T>, n: nat, draws: seq<nat>)
    requires n <= |s| && n <= |draws| + 1
    ensures Shuffled(s, n, draws) == if n <= 1 then s else Shuffled(Swapped(s, n - 1, draws[0] % n), n - 1, draws[1..])
  {}

  lemma {:induction false} OneLeft<T>(s: seq<T>, t: seq<T>, n: nat)
    requires n <= 1 && n <= |s| == |t| && s[n..] == t[n..] && multiset(s[..n]) == multiset(t[..n])
    ensures s == t
  {
    if n == 1 {
      var j := FindLast(s, t, 1);
    }
    assert s == s[..n] + s[n..] && t == t[..n] + t[n..];
  }

  lemma {:induction false} FindLast<T>(s: seq<T>, t: seq<T>, n: nat) returns (j: nat)
    requires 1 <= n <= |s| == |t| && multiset(s[..n]) == multiset(t[..n])
    ensures j < n && s[j] == t[n - 1]
  {
    assert t[..n][n - 1] == t[n - 1];
    assert t[n - 1] in multiset(t[..n]);
    j :| 0 <= j < n && s[..n][j] == t[n - 1];
  }

  /** With the right one swapped into place `n - 1`, the rest still has to be put in order. */
  lemma {:induction false} SwapInside<T>(s: seq<T>, t: seq<T>, n: nat, j: nat)
    requires 1 <= n <= |s| == |t| && s[n..] == t[n..] && multiset(s[..n]) == multiset(t[..n])
    requires j < n && s[j] == t[n - 1]
    ensures var r := Swapped(s, n - 1, j);
            r[n - 1..] == t[n - 1..] && multiset(r[..n - 1]) == multiset(t[..n - 1])
  {
    hide Swapped;
    SwapAt(s, n, j);
    var r := Swapped(s, n - 1, j);
    assert t[n - 1..] == [t[n - 1]] + t[n..];
    SwapPermutes(s[..n], n - 1, j);
    assert t[..n] == t[..n - 1] + [t[n - 1]];
    DropLast(r[..n - 1], t[..n - 1], t[n - 1]);
  }

  lemma {:induction false} SwapAt<T>(s: seq<T>, n: nat, j: nat)
    requires 1 <= n <= |s| && j < n
    ensures var r := Swapped(s, n - 1, j);
            r[n - 1..] == [s[j]] + s[n..] && Swapped(s[..n], n - 1, j) == r[..n - 1] + [s[j]]
  {}

  lemma {:induction false} DropLast<T>(a: seq<T>, b: seq<T>, x: T)
    requires multiset(a + [x]) == multiset(b + [x])
    ensures multiset(a) == multiset(b)
  {
    assert multiset(a + [x]) == multiset(a) + multiset{x};
    assert multiset(b + [x]) == multiset(b) + multiset{x};
    assert multiset(a) == multiset(a + [x]) - multiset{x};
    assert multiset(b) == multiset(b + [x]) - multiset{x};
  }
}
