/** Order-preserving filtering of sequences, the shape of both row filters in the crawler. */
module Seqs {
  import opened Common

  /** `sub` is obtained from `xs` by deleting elements, keeping the order of the rest. */
  predicate IsSubsequence<T(==,!new)>(sub: seq<T>, xs: seq<T>)
    decreases |xs|
  {
    if sub == [] then true
    else if xs == [] then false
    else if sub[0] == xs[0] then IsSubsequence(sub[1..], xs[1..])
    else IsSubsequence(sub, xs[1..])
  }

  /** Concatenation is associative. */
  lemma {:induction false} ConcatAssoc<T>(a: seq<T>, b: seq<T>, c: seq<T>)
    ensures a + (b + c) == (a + b) + c
  {
  }

  /** The elements of `xs` satisfying `p`, in their original order. */
  function Filter<T(==,!new)>(xs: seq<T>, p: T -> bool): (r: seq<T>)
    ensures forall i :: 0 <= i < |r| ==> p(r[i])
    ensures forall x :: multiset(r)[x] == if p(x) then multiset(xs)[x] else 0
    ensures IsSubsequence(r, xs)
  {
    if xs == [] then []
    else
      assert xs == [xs[0]] + xs[1..];
      if p(xs[0]) then [xs[0]] + Filter(xs[1..], p) else Filter(xs[1..], p)
  }

  /** The first value `f` yields over `xs`, trying the elements in order. */
  function FirstSome<A, B>(xs: seq<A>, f: A -> Option<B>): (r: Option<B>)
    ensures r.Some? ==> exists i :: 0 <= i < |xs| && f(xs[i]) == r
  {
    if xs == [] then None
    else match f(xs[0])
      case Some(b) => Some(b)
      case None => FirstSome(xs[1..], f)
  }

  /** Nothing is found exactly when `f` yields nothing for every element. */
  lemma {:induction false} FirstSomeNone<A, B>(xs: seq<A>, f: A -> Option<B>)
    ensures FirstSome(xs, f).None? <==> forall i :: 0 <= i < |xs| ==> f(xs[i]).None?
  {
    if xs != [] && f(xs[0]).None? {
      FirstSomeNone(xs[1..], f);
      assert forall i :: 1 <= i < |xs| ==> xs[i] == xs[1..][i - 1];
    }
  }

  /** What is found comes from some element, and every element before it yields nothing. */
  lemma {:induction false} FirstSomeWitness<A, B>(xs: seq<A>, f: A -> Option<B>) returns (k: nat)
    requires FirstSome(xs, f).Some?
    ensures k < |xs| && f(xs[k]) == FirstSome(xs, f)
    ensures forall j :: 0 <= j < k ==> f(xs[j]).None?
  {
    if f(xs[0]).Some? {
      k := 0;
    } else {
      var k' := FirstSomeWitness(xs[1..], f);
      assert forall j :: 1 <= j < k' + 1 ==> xs[j] == xs[1..][j - 1];
      k := k' + 1;
    }
  }

  /** When element `k` yields `b` and every earlier element yields nothing or `b` too, `b` is
      found. */
  lemma {:induction false} FirstSomeAgrees<A, B>(xs: seq<A>, f: A -> Option<B>, k: nat, b: B)
    requires k < |xs| && f(xs[k]) == Some(b)
    requires forall j :: 0 <= j < k ==> f(xs[j]).None? || f(xs[j]) == Some(b)
    ensures FirstSome(xs, f) == Some(b)
  {
    if k > 0 && f(xs[0]).None? {
      assert forall j :: 0 <= j < k - 1 ==> xs[1..][j] == xs[j + 1];
      FirstSomeAgrees(xs[1..], f, k - 1, b);
    }
  }
}
