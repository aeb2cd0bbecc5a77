/** The word rotation behind `start_new_session`, stated on values: which
    words may be picked given the identifiers already issued, and how the
    issued list changes. The app's method is proved against these. */
module Rotation {
  import opened Seqs
  import opened Vocabulary

  /** The words whose identifier has not been issued yet, in catalog order
      (the comprehension building `available_words`). */
  function Available(vocab: seq<Word>, used: seq<string>): (r: seq<Word>)
    ensures |r| <= |vocab|
    ensures forall w :: w in r <==> w in vocab && w.chinese !in used
  {
    if vocab == [] then []
    else
      var rest := Available(vocab[1..], used);
      assert forall w :: w in vocab <==> w == vocab[0] || w in vocab[1..];
      if vocab[0].chinese in used then rest else [vocab[0]] + rest
  }

  /** The list `random.choice` draws from: the unused words, or the whole
      catalog once every word has been issued. */
  function Candidates(vocab: seq<Word>, used: seq<string>): seq<Word> {
    if Available(vocab, used) == [] then vocab else Available(vocab, used)
  }

  /** The issued list after `pick` is drawn: cleared first when nothing was
      available, then extended by the pick's identifier. */
  function NextUsed(vocab: seq<Word>, used: seq<string>, pick: Word): seq<string> {
    (if Available(vocab, used) == [] then [] else used) + [pick.chinese]
  }

  /** What every issued list satisfies: no identifier twice, and only
      identifiers of the catalog. */
  ghost predicate SessionInvariant(vocab: seq<Word>, used: seq<string>) {
    && Distinct(used)
    && forall x :: x in used ==> x in Ids(vocab)
  }

  /** Nothing is available exactly when every catalog word was issued. */
  lemma ExhaustedIffAllIssued(vocab: seq<Word>, used: seq<string>)
    ensures Available(vocab, used) == [] <==> forall w :: w in vocab ==> w.chinese in used
  {
  }

  /** The issued list never outgrows the catalog; with distinct identifiers
      it is full exactly when nothing is available any more. */
  lemma IssuedBound(vocab: seq<Word>, used: seq<string>)
    requires SessionInvariant(vocab, used)
    ensures |used| <= |vocab|
    ensures DistinctIds(vocab) ==> (Available(vocab, used) == [] <==> |used| == |vocab|)
  {
    DistinctWithin(used, Ids(vocab));
    ExhaustedIffAllIssued(vocab, used);
    if DistinctIds(vocab) {
      if |used| == |vocab| {
        forall w | w in vocab ensures w.chinese in used {
          var i :| 0 <= i < |vocab| && vocab[i] == w;
          assert Ids(vocab)[i] == w.chinese;
        }
      }
      if Available(vocab, used) == [] {
        forall x | x in Ids(vocab) ensures x in used {
          var i :| 0 <= i < |vocab| && Ids(vocab)[i] == x;
          assert vocab[i] in vocab;
        }
        DistinctWithin(Ids(vocab), used);
      }
    }
  }

  /** One draw keeps the invariant, ends the issued list with the pick,
      picks an unused word while there is one, and leaves exactly one
      issued identifier after a reset. */
  lemma DrawKeepsInvariant(vocab: seq<Word>, used: seq<string>, pick: Word)
    requires SessionInvariant(vocab, used)
    requires pick in Candidates(vocab, used)
    ensures pick in vocab
    ensures SessionInvariant(vocab, NextUsed(vocab, used, pick))
    ensures Available(vocab, used) != [] ==> pick.chinese !in used
    ensures Available(vocab, used) == [] ==> |NextUsed(vocab, used, pick)| == 1
    ensures |NextUsed(vocab, used, pick)| <= |vocab|
  {
    var next := NextUsed(vocab, used, pick);
    var i :| 0 <= i < |vocab| && vocab[i] == pick;
    assert Ids(vocab)[i] == pick.chinese;
    assert forall x :: x in next ==> x in Ids(vocab);
    IssuedBound(vocab, next);
  }

  /** With at least two words of distinct identifiers, the first draw
      finds words available, and so does the second. */
  lemma SecondDrawFresh(vocab: seq<Word>, first: Word)
    requires DistinctIds(vocab) && |vocab| >= 2
    requires first in vocab
    ensures Available(vocab, []) != []
    ensures Available(vocab, [first.chinese]) != []
  {
    assert vocab[0] in Available(vocab, []);
    assert Ids(vocab)[0] != Ids(vocab)[1];
    var other := if vocab[0].chinese == first.chinese then vocab[1] else vocab[0];
    assert other in Available(vocab, [first.chinese]);
  }

  /** The issued list after drawing `picks` one after another from an
      empty list. */
  function IssuedAfter(vocab: seq<Word>, picks: seq<Word>): seq<string>
    decreases |picks|
  {
    if picks == [] then []
    else NextUsed(vocab, IssuedAfter(vocab, picks[..|picks| - 1]), picks[|picks| - 1])
  }

  /** Every draw of `picks` came from the candidates of its moment. */
  ghost predicate ValidRun(vocab: seq<Word>, picks: seq<Word>)
    decreases |picks|
  {
    || picks == []
    || (var init := picks[..|picks| - 1];
        ValidRun(vocab, init) && picks[|picks| - 1] in Candidates(vocab, IssuedAfter(vocab, init)))
  }

  /** Every candidate is a catalog word. */
  lemma CandidatesWithin(vocab: seq<Word>, used: seq<string>, w: Word)
    requires w in Candidates(vocab, used)
    ensures w in vocab
  {
  }

  /** Unfolds the last draw of a non-empty valid run. */
  lemma LastDraw(vocab: seq<Word>, picks: seq<Word>)
    requires ValidRun(vocab, picks)
    requires picks != []
    ensures ValidRun(vocab, picks[..|picks| - 1])
    ensures picks[|picks| - 1] in Candidates(vocab, IssuedAfter(vocab, picks[..|picks| - 1]))
    ensures IssuedAfter(vocab, picks)
         == NextUsed(vocab, IssuedAfter(vocab, picks[..|picks| - 1]), picks[|picks| - 1])
  {
  }

  /** Splitting a non-empty list of draws into its prefix and last draw. */
  lemma SplitLast(picks: seq<Word>)
    requires picks != []
    ensures Ids(picks) == Ids(picks[..|picks| - 1]) + [picks[|picks| - 1].chinese]
    ensures forall w :: w in picks <==> w in picks[..|picks| - 1] || w == picks[|picks| - 1]
  {
  }

  /** No repeat until exhausted: up to catalog-size draws from an empty
      list issue pairwise different words, and the issued list is exactly
      their identifiers in draw order. */
  lemma {:induction false} NoRepeatUntilExhausted(vocab: seq<Word>, picks: seq<Word>)
    requires DistinctIds(vocab)
    requires ValidRun(vocab, picks)
    requires |picks| <= |vocab|
    ensures IssuedAfter(vocab, picks) == Ids(picks)
    ensures DistinctIds(picks)
    ensures SessionInvariant(vocab, IssuedAfter(vocab, picks))
  {
    if picks != [] {
      var init, pick := picks[..|picks| - 1], picks[|picks| - 1];
      LastDraw(vocab, picks);
      SplitLast(picks);
      NoRepeatUntilExhausted(vocab, init);
      var used := IssuedAfter(vocab, init);
      IssuedBound(vocab, used);
      DrawKeepsInvariant(vocab, used, pick);
    }
  }

  /** Every prefix of a valid run keeps the invariant, and every draw is a
      catalog word. */
  lemma {:induction false} RunInvariant(vocab: seq<Word>, picks: seq<Word>)
    requires ValidRun(vocab, picks)
    ensures SessionInvariant(vocab, IssuedAfter(vocab, picks))
    ensures forall w :: w in picks ==> w in vocab
  {
    if picks != [] {
      var init, pick := picks[..|picks| - 1], picks[|picks| - 1];
      LastDraw(vocab, picks);
      SplitLast(picks);
      RunInvariant(vocab, init);
      DrawKeepsInvariant(vocab, IssuedAfter(vocab, init), pick);
    }
  }

  /** With distinct identifiers, an identifier names one catalog word. */
  lemma SameIdSameWord(vocab: seq<Word>, a: Word, b: Word)
    requires DistinctIds(vocab)
    requires a in vocab && b in vocab && a.chinese == b.chinese
    ensures a == b
  {
  }

  /** A full round (as many draws as the catalog has words, from an empty
      list) issues every catalog word exactly once. */
  lemma FullRoundCoversCatalog(vocab: seq<Word>, picks: seq<Word>)
    requires DistinctIds(vocab)
    requires ValidRun(vocab, picks)
    requires |picks| == |vocab|
    ensures DistinctIds(picks)
    ensures forall w :: w in vocab ==> w in picks
  {
    NoRepeatUntilExhausted(vocab, picks);
    RunInvariant(vocab, picks);
    DistinctWithin(Ids(picks), Ids(vocab));
    forall w | w in vocab ensures w in picks {
      var i :| 0 <= i < |vocab| && vocab[i] == w;
      assert w.chinese in Ids(vocab);
      var j :| 0 <= j < |picks| && Ids(picks)[j] == w.chinese;
      SameIdSameWord(vocab, picks[j], w);
    }
  }
}
