/** Facts about sequences used as duplicate-free lists. */
module Seqs {

  /** No element occurs twice in `s`. */
  ghost predicate Distinct<T>(s: seq<T>) {
    forall i, j :: 0 <= i < j < |s| ==> s[i] != s[j]
  }

  /** The set of elements of `s`. */
  ghost function Elems<T>(s: seq<T>): set<T> {
    set x | x in s
  }

  /** `s` with every repeated element dropped, keeping first occurrences in
      their original order: the list that `if x not in l: l.append(x)`
      builds when run over `s`. */
  function Dedup<T(==)>(s: seq<T>): seq<T> {
    if s == [] then []
    else
      var d := Dedup(s[..|s| - 1]);
      if s[|s| - 1] in d then d else d + [s[|s| - 1]]
  }

  lemma {:induction false} DedupIsDistinctAndSameElements<T>(s: seq<T>)
    ensures Distinct(Dedup(s))
    ensures forall x :: x in Dedup(s) <==> x in s
    ensures |Dedup(s)| <= |s|
  {
    if s != [] {
      var init := s[..|s| - 1];
      DedupIsDistinctAndSameElements(init);
      assert s == init + [s[|s| - 1]];
    }
  }

  /** `Dedup(s)` is read off `s` at the first occurrence of each element, in
      increasing index order: `idx[j]` is where `Dedup(s)[j]` first occurs. */
  lemma {:induction false} DedupFirstOccurrences<T>(s: seq<T>) returns (idx: seq<nat>)
    ensures |idx| == |Dedup(s)|
    ensures forall j :: 0 <= j < |idx| ==>
              idx[j] < |s| && s[idx[j]] == Dedup(s)[j] && s[idx[j]] !in s[..idx[j]]
    ensures forall j, k :: 0 <= j < k < |idx| ==> idx[j] < idx[k]
  {
    if s == [] {
      idx := [];
    } else {
      var init := s[..|s| - 1];
      var last := s[|s| - 1];
      var prev := DedupFirstOccurrences(init);
      var d := Dedup(init);
      assert Dedup(s) == if last in d then d else d + [last];
      assert forall j :: 0 <= j < |prev| ==>
               s[prev[j]] == init[prev[j]] && s[..prev[j]] == init[..prev[j]];
      if last in d {
        idx := prev;
      } else {
        DedupIsDistinctAndSameElements(init);
        assert s[..|s| - 1] == init;
        idx := prev + [|s| - 1];
      }
    }
  }

  /** Extending the input by one element extends the result exactly when
      that element is new. */
  lemma DedupSnoc<T>(s: seq<T>, x: T)
    ensures Dedup(s + [x]) == if x in s then Dedup(s) else Dedup(s) + [x]
  {
    assert (s + [x])[..|s + [x]| - 1] == s;
    DedupIsDistinctAndSameElements(s);
  }

  lemma {:induction false} ElemsOfDistinct<T>(s: seq<T>)
    requires Distinct(s)
    ensures |Elems(s)| == |s|
  {
    if s != [] {
      var init := s[..|s| - 1];
      ElemsOfDistinct(init);
      assert Elems(s) == Elems(init) + {s[|s| - 1]};
      assert s[|s| - 1] !in Elems(init);
    }
  }

  lemma {:induction false} ElemsBound<T>(s: seq<T>)
    ensures |Elems(s)| <= |s|
  {
    if s != [] {
      var init := s[..|s| - 1];
      ElemsBound(init);
      assert Elems(s) == Elems(init) + {s[|s| - 1]};
    }
  }

  /** A finite subset is no larger than its superset, and a subset of the
      same size is the whole set. */
  lemma SubsetCard<T>(a: set<T>, b: set<T>)
    requires a <= b
    ensures |a| <= |b|
    ensures |a| == |b| ==> a == b
  {
    assert b == a + (b - a);
    assert a !! (b - a);
    assert |b| == |a| + |b - a|;
    if |a| == |b| {
      assert b - a == {};
    }
  }

  /** Pigeonhole: a duplicate-free list drawn from `b` is no longer than
      `b`, and when it is as long as a duplicate-free `b` it holds every
      element of `b`. */
  lemma DistinctWithin<T>(a: seq<T>, b: seq<T>)
    requires Distinct(a)
    requires forall x :: x in a ==> x in b
    ensures |a| <= |b|
    ensures Distinct(b) && |a| == |b| ==> forall x :: x in b ==> x in a
  {
    ElemsOfDistinct(a);
    ElemsBound(b);
    assert Elems(a) <= Elems(b);
    SubsetCard(Elems(a), Elems(b));
    if Distinct(b) && |a| == |b| {
      ElemsOfDistinct(b);
      assert Elems(a) == Elems(b);
      forall x | x in b ensures x in a {
        assert x in Elems(b);
      }
    }
  }
}
