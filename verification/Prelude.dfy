/** Small definitions shared by every component of the model. */
module Prelude {

  datatype Option<+T> = None | Some(value: T)

  function Last<T>(s: seq<T>): T
    requires s != []
  {
    s[|s| - 1]
  }

  function Init<T>(s: seq<T>): seq<T>
    requires s != []
  {
    s[..|s| - 1]
  }

  lemma InitAndLast<T>(s: seq<T>)
    requires s != []
    ensures s == Init(s) + [Last(s)]
  {
  }

  lemma SplitAt<T>(s: seq<T>, n: nat)
    requires n <= |s|
    ensures s == s[..n] + s[n..]
  {
  }

  lemma NothingMore<T>(s: seq<T>)
    ensures s + [] == s
  {
  }

  lemma Regroup<T>(a: seq<T>, b: seq<T>, c: seq<T>)
    ensures (a + b) + c == a + (b + c)
  {
  }

  lemma RegroupLast<T>(a: seq<T>, b: seq<T>, c: seq<T>, d: seq<T>)
    ensures a + (b + (c + d)) == (a + (b + c)) + d
  {
  }

  /** No two positions hold the same value. */
  ghost predicate Distinct<T>(s: seq<T>) {
    forall i, j :: 0 <= i < j < |s| ==> s[i] != s[j]
  }

  /** What `f` makes of each element, one after the other. */
  function FlatMap<A, B>(f: A -> seq<B>, s: seq<A>): seq<B> {
    if s == [] then [] else FlatMap(f, Init(s)) + f(Last(s))
  }

  lemma {:induction false} FlatMapAppends<A, B>(f: A -> seq<B>, a: seq<A>, b: seq<A>)
    ensures FlatMap(f, a + b) == FlatMap(f, a) + FlatMap(f, b)
  {
    if b == [] {
      assert a + b == a;
    } else {
      FlatMapAppends(f, a, Init(b));
      assert Init(a + b) == a + Init(b) && Last(a + b) == Last(b);
      assert FlatMap(f, a) + FlatMap(f, Init(b)) + f(Last(b)) == FlatMap(f, a) + (FlatMap(f, Init(b)) + f(Last(b)));
    }
  }

  lemma {:induction false} FlatMapHolds<A, B>(f: A -> seq<B>, s: seq<A>, x: B)
    ensures x in FlatMap(f, s) <==> exists i :: 0 <= i < |s| && x in f(s[i])
  {
    if s != [] {
      FlatMapHolds(f, Init(s), x);
      assert forall i :: 0 <= i < |s| - 1 ==> Init(s)[i] == s[i];
      assert Last(s) == s[|s| - 1];
    }
  }

  lemma FlatMapOne<A, B>(f: A -> seq<B>, x: A)
    ensures FlatMap(f, [x]) == f(x)
  {
    assert Init([x]) == [];
  }

  /** `a` is `b` with some elements left out. */
  predicate IsSubsequence<T(==)>(a: seq<T>, b: seq<T>) {
    if a == [] then true
    else if b == [] then false
    else if Last(a) == Last(b) && IsSubsequence(Init(a), Init(b)) then true
    else IsSubsequence(a, Init(b))
  }

  lemma {:induction false} SubsequenceOfSelf<T>(a: seq<T>)
    ensures IsSubsequence(a, a)
  {
    if a != [] {
      SubsequenceOfSelf(Init(a));
    }
  }

  lemma {:induction false} SubsequenceOfMore<T>(a: seq<T>, b: seq<T>, more: seq<T>)
    requires IsSubsequence(a, b)
    ensures IsSubsequence(a, b + more)
  {
    if more == [] {
      assert b + more == b;
    } else {
      SubsequenceOfMore(a, b, Init(more));
      assert Init(b + more) == b + Init(more);
    }
  }

  lemma {:induction false} SubsequencesAppend<T>(a: seq<T>, b: seq<T>, c: seq<T>, d: seq<T>)
    requires IsSubsequence(a, b) && IsSubsequence(c, d)
    ensures IsSubsequence(a + c, b + d)
  {
    if c == [] {
      assert a + c == a;
      SubsequenceOfMore(a, b, d);
    } else {
      assert Init(b + d) == b + Init(d) && Last(b + d) == Last(d) && Last(a + c) == Last(c) && Init(a + c) == a + Init(c);
      if Last(c) == Last(d) && IsSubsequence(Init(c), Init(d)) {
        SubsequencesAppend(a, b, Init(c), Init(d));
      } else {
        SubsequencesAppend(a, b, c, Init(d));
      }
    }
  }

  lemma {:induction false} SubsequenceTransitive<T>(a: seq<T>, b: seq<T>, c: seq<T>)
    requires IsSubsequence(a, b) && IsSubsequence(b, c)
    ensures IsSubsequence(a, c)
    decreases |b| + |c|
  {
    if a != [] {
      if Last(b) == Last(c) && IsSubsequence(Init(b), Init(c)) {
        if Last(a) == Last(b) && IsSubsequence(Init(a), Init(b)) {
          SubsequenceTransitive(Init(a), Init(b), Init(c));
        } else {
          SubsequenceTransitive(a, Init(b), Init(c));
        }
      } else {
        SubsequenceTransitive(a, b, Init(c));
      }
    }
  }
}
