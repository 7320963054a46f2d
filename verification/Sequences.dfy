// Sequence helpers shared by the models.
module Sequences {

  ghost predicate Distinct<T>(s: seq<T>) { forall i, j :: 0 <= i < j < |s| ==> s[i] != s[j] }

  /** The elements that satisfy `keep`, in order. */
  function Keep<T>(s: seq<T>, keep: T -> bool): seq<T> {
    if s == [] then [] else Keep(s[..|s| - 1], keep) + (if keep(s[|s| - 1]) then [s[|s| - 1]] else [])
  }

  lemma {:induction false} KeepMembers<T>(s: seq<T>, keep: T -> bool, x: T)
    ensures x in Keep(s, keep) <==> x in s && keep(x)
  {
    if s != [] {
      KeepMembers(s[..|s| - 1], keep, x);
      assert s == s[..|s| - 1] + [s[|s| - 1]];
    }
  }

  lemma {:induction false} KeepAll<T>(s: seq<T>, keep: T -> bool)
    requires forall i :: 0 <= i < |s| ==> keep(s[i])
    ensures Keep(s, keep) == s
  {
    if s != [] {
      KeepAll(s[..|s| - 1], keep);
      assert s == s[..|s| - 1] + [s[|s| - 1]];
    }
  }

  lemma {:induction false} KeepPrefix<T>(s: seq<T>, keep: T -> bool, n: nat)
    requires n <= |s| && forall i :: n <= i < |s| ==> !keep(s[i])
    ensures Keep(s, keep) == Keep(s[..n], keep)
    decreases |s|
  {
    if n < |s| {
      assert s[..|s| - 1][..n] == s[..n];
      KeepPrefix(s[..|s| - 1], keep, n);
    } else {
      assert s[..n] == s;
    }
  }

  lemma {:induction false} KeepLength<T>(s: seq<T>, keep: T -> bool)
    ensures |Keep(s, keep)| <= |s|
    ensures |Keep(s, keep)| == |s| <==> forall i :: 0 <= i < |s| ==> keep(s[i])
  {
    if s != [] { KeepLength(s[..|s| - 1], keep); }
  }

  /** `r` is what `s` has at the indices `picks`, in the same order. */
  ghost predicate Picked<T>(s: seq<T>, r: seq<T>, picks: seq<nat>) {
    |picks| == |r| && (forall i :: 0 <= i < |r| ==> picks[i] < |s| && r[i] == s[picks[i]]) &&
    forall i, j :: 0 <= i < j < |r| ==> picks[i] < picks[j]
  }

  /** Exactly the elements that satisfy `keep` are kept, each as often as it occurs, in order. */
  lemma {:induction false} KeepPicks<T>(s: seq<T>, keep: T -> bool) returns (picks: seq<nat>)
    ensures Picked(s, Keep(s, keep), picks)
    ensures forall n: nat :: n in picks <==> n < |s| && keep(s[n])
  {
    if s == [] {
      picks := [];
    } else {
      var front, last := s[..|s| - 1], |s| - 1;
      picks := KeepPicks(front, keep);
      assert forall n: nat :: n < last ==> s[n] == front[n];
      if keep(s[last]) {
        assert forall i :: 0 <= i < |picks| ==> picks[i] in picks;
        picks := picks + [last];
      }
    }
  }

  lemma NewElement<T>(s: seq<T>, i: nat)
    requires Distinct(s) && i < |s|
    ensures s[i] !in s[..i]
  {
  }

  // ----- first occurrences -----

  /** Among the first `n` elements, those in `allowed`, each where it first occurs. */
  function Firsts<T(==)>(s: seq<T>, allowed: set<T>, n: nat): seq<T>
    requires n <= |s|
  {
    if n == 0 then []
    else
      var r := Firsts(s, allowed, n - 1);
      if s[n - 1] in allowed && s[n - 1] !in r then r + [s[n - 1]] else r
  }

  lemma FirstsStart<T>(s: seq<T>, allowed: set<T>)
    ensures Firsts(s, allowed, 0) == []
  {
  }

  lemma FirstsStep<T>(s: seq<T>, allowed: set<T>, n: nat)
    requires n < |s|
    ensures Firsts(s, allowed, n + 1) ==
            Firsts(s, allowed, n) + (if s[n] in allowed && s[n] !in Firsts(s, allowed, n) then [s[n]] else [])
  {
  }

  lemma {:induction false} FirstsMembers<T>(s: seq<T>, allowed: set<T>, n: nat)
    requires n <= |s|
    ensures Distinct(Firsts(s, allowed, n))
    ensures forall x :: x in Firsts(s, allowed, n) <==> x in allowed && x in s[..n]
  {
    if n > 0 {
      FirstsMembers(s, allowed, n - 1);
      assert s[..n] == s[..n - 1] + [s[n - 1]];
    }
  }

  /** `x` occurs in `s` before any `y` does. */
  ghost predicate Before<T(!new)>(s: seq<T>, x: T, y: T) {
    exists p :: 0 <= p < |s| && s[p] == x && y !in s[..p]
  }

  /** The elements of `r` stand in the order in which they first occur in `s`. */
  ghost predicate InOrder<T(!new)>(s: seq<T>, r: seq<T>) {
    forall i, j :: 0 <= i < j < |r| ==> Before(s, r[i], r[j])
  }

  lemma AppendInOrder<T(!new)>(s: seq<T>, r: seq<T>, x: T)
    requires InOrder(s, r) && forall i :: 0 <= i < |r| ==> Before(s, r[i], x)
    ensures InOrder(s, r + [x])
  {
    hide Before;
    var r' := r + [x];
    forall i, j | 0 <= i < j < |r'| ensures Before(s, r'[i], r'[j]) {
      if j < |r| { assert r'[i] == r[i] && r'[j] == r[j]; } else { assert r'[i] == r[i]; }
    }
  }

  lemma {:induction false} FirstsInOrder<T(!new)>(s: seq<T>, allowed: set<T>, n: nat)
    requires n <= |s|
    ensures InOrder(s, Firsts(s, allowed, n))
  {
    if n > 0 {
      FirstsInOrder(s, allowed, n - 1);
      FirstsMembers(s, allowed, n - 1);
      var r := Firsts(s, allowed, n - 1);
      if s[n - 1] in allowed && s[n - 1] !in r {
        forall i | 0 <= i < |r| ensures Before(s, r[i], s[n - 1]) {
          assert r[i] in s[..n - 1];
          var p :| 0 <= p < n - 1 && s[p] == r[i];
          assert s[..p] <= s[..n - 1];
        }
        AppendInOrder(s, r, s[n - 1]);
      }
    }
  }

  lemma {:induction false} FirstsAll<T>(s: seq<T>, allowed: set<T>, n: nat)
    requires n <= |s| && Distinct(s) && forall i :: 0 <= i < |s| ==> s[i] in allowed
    ensures Firsts(s, allowed, n) == s[..n]
  {
    if n > 0 {
      FirstsAll(s, allowed, n - 1);
      NewElement(s, n - 1);
      assert s[..n] == s[..n - 1] + [s[n - 1]];
    }
  }
}
