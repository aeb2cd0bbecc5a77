/** The per-user progress ledger behind `_update_progress`, stated on
    values: the `UserProgress` record, what one recorded submission does to
    it, and what any number of submissions add up to. */
module Ledger {
  import opened Wrappers
  import opened Seqs

  /** A point in time as the clock reports it; supplied by the caller. */
  datatype Timestamp = Timestamp(iso: string)

  /** One submitted sentence: the word it was for, its text and when. */
  datatype SentenceRecord = SentenceRecord(word: string, sentence: string, timestamp: Timestamp)

  datatype UserProgress = UserProgress(
    userId: string,
    wordsLearned: seq<string>,
    sentencesCreated: seq<SentenceRecord>,
    currentStreak: int,
    totalPracticeSessions: int,
    lastPracticeDate: Option<Timestamp>)

  /** The word of every record, in submission order. */
  function WordsOf(records: seq<SentenceRecord>): (ws: seq<string>)
    ensures |ws| == |records|
    ensures forall i :: 0 <= i < |records| ==> ws[i] == records[i].word
  {
    seq(|records|, i requires 0 <= i < |records| => records[i].word)
  }

  /** The record a user gets on their first submission. */
  function NewProgress(userId: string): (p: UserProgress)
    ensures p.userId == userId && p.sentencesCreated == []
    ensures WellFormed(p)
  {
    UserProgress(userId, [], [], 0, 0, None)
  }

  /** What every record satisfies: the learned words are the distinct
      words of the submissions in first-seen order, and both counters equal
      the number of submissions. */
  ghost predicate WellFormed(p: UserProgress) {
    && p.wordsLearned == Dedup(WordsOf(p.sentencesCreated))
    && p.currentStreak == |p.sentencesCreated|
    && p.totalPracticeSessions == |p.sentencesCreated|
  }

  /** A well-formed record learns each word once, never learns more words
      than it has sentences, and has learned exactly the submitted words. */
  lemma WellFormedBounds(p: UserProgress)
    requires WellFormed(p)
    ensures Distinct(p.wordsLearned)
    ensures |p.wordsLearned| <= |p.sentencesCreated|
    ensures forall w :: w in p.wordsLearned <==> exists r :: r in p.sentencesCreated && r.word == w
  {
    var ws := WordsOf(p.sentencesCreated);
    DedupIsDistinctAndSameElements(ws);
    forall w ensures w in ws <==> exists r :: r in p.sentencesCreated && r.word == w {
      if w in ws {
        var i :| 0 <= i < |ws| && ws[i] == w;
        assert p.sentencesCreated[i] in p.sentencesCreated;
      }
    }
  }

  /** One submission recorded into `p`: the word is learned if it was not
      yet, the sentence is appended with its timestamp, both counters go up
      by one and the last practice date becomes `now`. */
  function Record(p: UserProgress, word: string, sentence: string, now: Timestamp): (q: UserProgress)
    ensures WellFormed(p) ==> WellFormed(q)
  {
    var learned := if word in p.wordsLearned then p.wordsLearned else p.wordsLearned + [word];
    var q := UserProgress(
      p.userId,
      learned,
      p.sentencesCreated + [SentenceRecord(word, sentence, now)],
      p.currentStreak + 1,
      p.totalPracticeSessions + 1,
      Some(now));
    assert WellFormed(p) ==> WellFormed(q) by {
      if WellFormed(p) {
        var ws := WordsOf(p.sentencesCreated);
        assert WordsOf(q.sentencesCreated) == ws + [word];
        DedupSnoc(ws, word);
        DedupIsDistinctAndSameElements(ws);
      }
    }
    q
  }

  /** One submission changes what the source says it changes and nothing
      else: same user, one more sentence (this one, last), both counters one
      higher, the word learned, at most one word added, and the earlier
      learned words kept in order. */
  lemma RecordEffect(p: UserProgress, word: string, sentence: string, now: Timestamp)
    ensures var q := Record(p, word, sentence, now);
      && q.userId == p.userId
      && q.sentencesCreated == p.sentencesCreated + [SentenceRecord(word, sentence, now)]
      && q.currentStreak == p.currentStreak + 1
      && q.totalPracticeSessions == p.totalPracticeSessions + 1
      && q.lastPracticeDate == Some(now)
      && word in q.wordsLearned
      && q.wordsLearned[..|p.wordsLearned|] == p.wordsLearned
      && |q.wordsLearned| == |p.wordsLearned| + (if word in p.wordsLearned then 0 else 1)
  {
  }

  /** The record of `userId` in `ledger`, or a fresh one if it has none. */
  function Lookup(ledger: map<string, UserProgress>, userId: string): UserProgress {
    if userId in ledger then ledger[userId] else NewProgress(userId)
  }

  /** The ledger after `Record` for `userId`: only that user's entry is
      created or replaced. */
  function RecordFor(ledger: map<string, UserProgress>, userId: string, word: string,
                     sentence: string, now: Timestamp): map<string, UserProgress>
  {
    ledger[userId := Record(Lookup(ledger, userId), word, sentence, now)]
  }

  /** Every entry is a well-formed record filed under its own user. */
  ghost predicate LedgerWellFormed(ledger: map<string, UserProgress>) {
    forall u :: u in ledger ==> ledger[u].userId == u && WellFormed(ledger[u])
  }

  /** Recording keeps the ledger well formed, gives `userId` a record and
      leaves every other user's entry (or absence of one) as it was. */
  lemma RecordForFrame(ledger: map<string, UserProgress>, userId: string, word: string,
                       sentence: string, now: Timestamp)
    ensures var l := RecordFor(ledger, userId, word, sentence, now);
      && l.Keys == ledger.Keys + {userId}
      && (forall u :: u in ledger && u != userId ==> l[u] == ledger[u])
      && (LedgerWellFormed(ledger) ==> LedgerWellFormed(l))
  {
  }

  /** A record after the given submissions, applied in order. */
  function RecordAll(p: UserProgress, subs: seq<SentenceRecord>): UserProgress
    decreases |subs|
  {
    if subs == [] then p
    else
      var last := subs[|subs| - 1];
      Record(RecordAll(p, subs[..|subs| - 1]), last.word, last.sentence, last.timestamp)
  }

  /** After k submissions by a user who had no record, accepted or not:
      both counters are k, the sentences are the submissions in order, and
      the learned words are the distinct submitted words in first-seen
      order, so there are no more of them than sentences. */
  lemma {:induction false} AfterSubmissions(userId: string, subs: seq<SentenceRecord>)
    ensures var p := RecordAll(NewProgress(userId), subs);
      && p.userId == userId
      && p.sentencesCreated == subs
      && p.currentStreak == |subs| && p.totalPracticeSessions == |subs|
      && p.wordsLearned == Dedup(WordsOf(subs))
      && Distinct(p.wordsLearned)
      && (forall w :: w in p.wordsLearned <==> w in WordsOf(subs))
      && |p.wordsLearned| <= |p.sentencesCreated|
  {
    var p := RecordAll(NewProgress(userId), subs);
    if subs != [] {
      var init, last := subs[..|subs| - 1], subs[|subs| - 1];
      AfterSubmissions(userId, init);
      assert subs == init + [last];
    }
    assert WellFormed(p);
    WellFormedBounds(p);
    DedupIsDistinctAndSameElements(WordsOf(subs));
  }

  /** Practising the same word twice adds two sentences and at most one
      learned word. */
  lemma SameWordTwice(p: UserProgress, word: string, s1: string, t1: Timestamp,
                      s2: string, t2: Timestamp)
    ensures var q := Record(Record(p, word, s1, t1), word, s2, t2);
      && |q.sentencesCreated| == |p.sentencesCreated| + 2
      && |q.wordsLearned| <= |p.wordsLearned| + 1
  {
  }

  /** A user without a record who practises one word twice ends with that
      one learned word and both sentences, in order. */
  lemma NewUserSameWordTwice(ledger: map<string, UserProgress>, userId: string, word: string,
                             s1: string, t1: Timestamp, s2: string, t2: Timestamp)
    requires userId !in ledger
    ensures var q := RecordFor(RecordFor(ledger, userId, word, s1, t1), userId, word, s2, t2)[userId];
      && q.wordsLearned == [word]
      && q.sentencesCreated == [SentenceRecord(word, s1, t1), SentenceRecord(word, s2, t2)]
  {
    var first := RecordFor(ledger, userId, word, s1, t1)[userId];
    assert first.wordsLearned == [word];
  }
}
