/** Sums over sequences, what is left to do added up over all callers of a protocol, and
    the sizes of sets. */
module Sums {

  function Sum(ws: seq<nat>): nat {
    if ws == [] then 0 else Sum(ws[..|ws| - 1]) + ws[|ws| - 1]
  }

  lemma {:induction false} SumOfUpdate(ws: seq<nat>, c: nat, w: nat)
    requires c < |ws|
    ensures Sum(ws[c := w]) + ws[c] == Sum(ws) + w
  {
    var n := |ws| - 1;
    if c < n {
      SumOfUpdate(ws[..n], c, w);
      assert ws[c := w][..n] == ws[..n][c := w];
    } else {
      assert ws[c := w][..n] == ws[..n];
    }
  }

  /** No weight falls, and none rises by more than one. */
  lemma {:induction false} SumOfRaised(ws: seq<nat>, vs: seq<nat>)
    requires |ws| == |vs| && forall i | 0 <= i < |ws| :: ws[i] <= vs[i] <= ws[i] + 1
    ensures Sum(ws) <= Sum(vs) <= Sum(ws) + |ws|
  {
    if ws != [] {
      SumOfRaised(ws[..|ws| - 1], vs[..|vs| - 1]);
    }
  }

  lemma {:induction false} SumOfEqual(ws: seq<nat>, w: nat)
    requires forall i | 0 <= i < |ws| :: ws[i] == w
    ensures Sum(ws) == |ws| * w
  {
    if ws != [] {
      SumOfEqual(ws[..|ws| - 1], w);
    }
  }

  /** The function applied to each element. */
  function Each<A, B>(f: A -> B, s: seq<A>): (r: seq<B>)
    ensures |r| == |s| && forall i | 0 <= i < |s| :: r[i] == f(s[i])
  {
    seq(|s|, i requires 0 <= i < |s| => f(s[i]))
  }

  // ---- Sizes of sets --------------------------------------------------------------

  lemma {:induction false} SubsetSize<T>(a: set<T>, b: set<T>)
    requires a <= b
    ensures |a| <= |b|
    decreases b
  {
    if x :| x in a {
      SubsetSize(a - {x}, b - {x});
    }
  }

  /** Numbers below `n`, and all of them. */
  lemma {:induction false} SizeUpTo(a: set<nat>, n: nat)
    requires forall i | i in a :: i < n
    ensures |a| <= n
    ensures (forall i: nat | i < n :: i in a) ==> |a| == n
  {
    if n == 0 {
      assert a == {};
    } else {
      SizeUpTo(a - {n - 1}, n - 1);
    }
  }

  function Members<T>(s: seq<T>): set<T> {
    set x | x in s
  }

  lemma {:induction false} MembersSize<T>(s: seq<T>)
    requires forall i, j | 0 <= i < j < |s| :: s[i] != s[j]
    ensures |Members(s)| == |s|
  {
    if s != [] {
      var n := |s| - 1;
      MembersSize(s[..n]);
      assert Members(s) == Members(s[..n]) + {s[n]};
      assert s[n] !in s[..n];
    }
  }
}
