/** Walking a sequence and keeping what some of its elements give. */
module Sequences {

  /** The images of all elements, concatenated. */
  function Collect<A, B>(f: A -> seq<B>, s: seq<A>): seq<B> {
    if s == [] then [] else Collect(f, s[..|s| - 1]) + f(s[|s| - 1])
  }

  function Map<A, B>(f: A -> B, s: seq<A>): (r: seq<B>)
    ensures |r| == |s| && forall i :: 0 <= i < |s| ==> r[i] == f(s[i])
  {
    seq(|s|, i requires 0 <= i < |s| => f(s[i]))
  }

  function Take<A>(n: nat, s: seq<A>): seq<A> {
    if n <= |s| then s[..n] else s
  }

  lemma {:induction false} CollectConcat<A, B>(f: A -> seq<B>, a: seq<A>, b: seq<A>)
    ensures Collect(f, a + b) == Collect(f, a) + Collect(f, b)
  {
    if b == [] {
      assert a + b == a;
    } else {
      var front := b[..|b| - 1];
      assert (a + b)[..|a + b| - 1] == a + front;
      CollectConcat(f, a, front);
    }
  }

  /** The numbers of `wanted`, each once, in increasing order. */
  predicate Lists(at: seq<nat>, wanted: set<nat>) {
    && (forall i, j :: 0 <= i < j < |at| ==> at[i] < at[j])
    && (forall i :: 0 <= i < |at| ==> at[i] in wanted)
    && (forall n <- wanted :: n in at)
  }

  lemma {:induction false} ListsAppend(at: seq<nat>, wanted: set<nat>, n: nat)
    requires Lists(at, wanted) && forall i <- wanted :: i < n
    ensures Lists(at + [n], wanted + {n})
  {
  }

  /** Which elements give anything. */
  function Givers<A, B>(f: A -> seq<B>, s: seq<A>): set<nat> {
    set i: nat | i < |s| && f(s[i]) != []
  }

  /** Where each element gives at most one, the k-th thing collected is what the k-th element
      gives that gives anything: no element is skipped, and none comes out of turn. */
  lemma {:induction false} CollectPicks<A, B>(f: A -> seq<B>, s: seq<A>) returns (at: seq<nat>)
    requires forall x <- s :: |f(x)| <= 1
    ensures Lists(at, Givers(f, s)) && |at| == |Collect(f, s)|
    ensures forall k :: 0 <= k < |at| ==> at[k] < |s| && f(s[at[k]]) == [Collect(f, s)[k]]
  {
    if s == [] {
      at := [];
    } else {
      var n := |s| - 1;
      var front := CollectPicks(f, s[..n]);
      assert s[n] in s;
      if f(s[n]) == [] {
        at := front;
        assert Givers(f, s) == Givers(f, s[..n]);
      } else {
        at := front + [n];
        ListsAppend(front, Givers(f, s[..n]), n);
        assert Givers(f, s) == Givers(f, s[..n]) + {n};
      }
    }
  }
}
