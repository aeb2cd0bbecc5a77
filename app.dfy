/** `ChineseLearningApp`: the catalog, the process-wide rotation of issued
    words and the per-user progress ledger, behind four operations. */
module LearningApp {
  import opened Wrappers
  import opened Seqs
  import opened Text
  import opened Vocabulary
  import opened Rotation
  import opened Ledger
  import opened Validation

  /** The word part of the session dictionary `start_new_session` returns. */
  datatype SessionWord = SessionWord(chinese: string, pinyin: string, english: string, category: string)

  function SessionWordOf(w: Word): SessionWord {
    SessionWord(w.chinese, w.pinyin, w.english, w.category)
  }

  /** What `submit_sentence` returns: the error dictionary for an unknown
      word, or the feedback. */
  datatype Submission = WordNotFound(error: string) | Answered(feedback: Feedback)

  const WordNotFoundError: string := "Vocabulary word not found"

  /** One line of `get_vocabulary_list`. */
  datatype ListedWord = ListedWord(chinese: string, pinyin: string, english: string,
                                   category: string, exampleSentence: string)

  /** The dictionary `get_user_progress` returns; `recentSentences` is
      absent for a user with no record. */
  datatype Summary = Summary(
    wordsLearned: nat,
    sentencesCreated: nat,
    currentStreak: int,
    totalSessions: int,
    recentSentences: Option<seq<SentenceRecord>>,
    message: string)

  const GetStartedMessage: string := "开始你的中文学习之旅吧！"

  /** The summary message for a user with a record. */
  function ProgressMessage(words: nat, sentences: nat): string {
    "你已经学习了 " + Decimal(words) + " 个词汇，创造了 " + Decimal(sentences) + " 个句子！"
  }

  function Min(a: int, b: int): int {
    if a <= b then a else b
  }

  class App {
    const vocabulary: seq<Word>
    const pools: MessagePools
    /** The `user_progress` dictionary. */
    var userProgress: map<string, UserProgress>
    /** The process-wide `current_session_words` list, shared by all users. */
    var currentSessionWords: seq<string>

    ghost predicate Valid()
      reads this
    {
      && |vocabulary| > 0
      && DistinctIds(vocabulary)
      && ValidPools(pools)
      && SessionInvariant(vocabulary, currentSessionWords)
      && LedgerWellFormed(userProgress)
    }

    /** A fresh app over the built-in table, with no progress and nothing
        issued yet. */
    constructor (pools: MessagePools)
      requires ValidPools(pools)
      ensures Valid()
      ensures vocabulary == Database && this.pools == pools
      ensures userProgress == map[] && currentSessionWords == []
    {
      DatabaseWellFormed();
      vocabulary := Database;
      this.pools := pools;
      userProgress := map[];
      currentSessionWords := [];
    }

    /** Issues the next word of the rotation. `userId` is accepted and
        ignored: the rotation is shared by every user. */
    method StartNewSession(userId: string) returns (selected: Word, session: SessionWord)
      requires Valid()
      modifies this`currentSessionWords
      ensures Valid()
      ensures selected in vocabulary
      ensures selected in Candidates(vocabulary, old(currentSessionWords))
      ensures currentSessionWords == NextUsed(vocabulary, old(currentSessionWords), selected)
      ensures Available(vocabulary, old(currentSessionWords)) != [] ==>
                selected.chinese !in old(currentSessionWords)
      ensures Available(vocabulary, old(currentSessionWords)) == [] ==>
                currentSessionWords == [selected.chinese]
      ensures currentSessionWords[|currentSessionWords| - 1] == selected.chinese
      ensures |currentSessionWords| <= |vocabulary|
      ensures session == SessionWordOf(selected)
    {
      var available := Available(vocabulary, currentSessionWords);
      ghost var before := currentSessionWords;
      if available == [] {
        currentSessionWords := [];
        available := vocabulary;
      }
      var i :| 0 <= i < |available|;
      selected := available[i];
      currentSessionWords := currentSessionWords + [selected.chinese];
      session := SessionWordOf(selected);
      DrawKeepsInvariant(vocabulary, before, selected);
    }

    /** Records one submission for `userId`, accepted or not. */
    method UpdateProgress(userId: string, word: string, sentence: string, now: Timestamp)
      requires Valid()
      modifies this`userProgress
      ensures Valid()
      ensures userProgress == RecordFor(old(userProgress), userId, word, sentence, now)
      ensures userProgress.Keys == old(userProgress.Keys) + {userId}
      ensures forall u :: u in old(userProgress) && u != userId ==> userProgress[u] == old(userProgress)[u]
    {
      if userId !in userProgress {
        userProgress := userProgress[userId := NewProgress(userId)];
      }
      var progress := userProgress[userId];
      ghost var before := Lookup(old(userProgress), userId);
      assert progress == before;
      if word !in progress.wordsLearned {
        progress := progress.(wordsLearned := progress.wordsLearned + [word]);
      }
      progress := progress.(sentencesCreated := progress.sentencesCreated + [SentenceRecord(word, sentence, now)]);
      progress := progress.(currentStreak := progress.currentStreak + 1,
                            totalPracticeSessions := progress.totalPracticeSessions + 1);
      progress := progress.(lastPracticeDate := Some(now));
      assert progress == Record(before, word, sentence, now);
      userProgress := userProgress[userId := progress];
      assert userProgress == RecordFor(old(userProgress), userId, word, sentence, now);
      RecordForFrame(old(userProgress), userId, word, sentence, now);
    }

    /** Looks the word up; an unknown word is an error that records nothing,
        a known word gets feedback and one ledger update whatever the
        verdict. */
    method SubmitSentence(userId: string, sentence: string, wordChinese: string,
                          choice: Choice, now: Timestamp) returns (r: Submission)
      requires Valid()
      requires ValidChoice(pools, choice)
      modifies this`userProgress
      ensures Valid()
      ensures Find(vocabulary, wordChinese).None? ==>
                r == WordNotFound(WordNotFoundError) && userProgress == old(userProgress)
      ensures Find(vocabulary, wordChinese).Some? ==>
                && r == Answered(GenerateFeedback(sentence, Find(vocabulary, wordChinese).value, pools, choice))
                && userProgress == RecordFor(old(userProgress), userId, wordChinese, sentence, now)
    {
      var word := Find(vocabulary, wordChinese);
      if word.None? {
        return WordNotFound(WordNotFoundError);
      }
      var feedback := GenerateFeedback(sentence, word.value, pools, choice);
      UpdateProgress(userId, wordChinese, sentence, now);
      r := Answered(feedback);
    }

    /** The progress summary of `userId`: zeros and the start message when
        the user has no record; otherwise the two list lengths, the two
        counters (all tied by the ledger invariant), and the last
        `min(5, n)` of the n sentences, oldest first. */
    function GetUserProgress(userId: string): (r: Summary)
      reads this
      requires Valid()
      ensures userId !in userProgress ==>
                r == Summary(0, 0, 0, 0, None, GetStartedMessage)
      ensures userId in userProgress ==>
                var p := userProgress[userId];
                && r.wordsLearned == |p.wordsLearned| && r.sentencesCreated == |p.sentencesCreated|
                && r.currentStreak == r.sentencesCreated && r.totalSessions == r.sentencesCreated
                && r.wordsLearned <= r.sentencesCreated
                && r.recentSentences.Some?
                && |r.recentSentences.value| == Min(5, |p.sentencesCreated|)
                && r.recentSentences.value == p.sentencesCreated[|p.sentencesCreated| - |r.recentSentences.value|..]
                && r.message == ProgressMessage(r.wordsLearned, r.sentencesCreated)
    {
      if userId !in userProgress then
        Summary(0, 0, 0, 0, None, GetStartedMessage)
      else
        var p := userProgress[userId];
        WellFormedBounds(p);
        var n := |p.sentencesCreated|;
        var recent := if n == 0 then [] else p.sentencesCreated[n - Min(5, n)..];
        Summary(|p.wordsLearned|, n, p.currentStreak, p.totalPracticeSessions, Some(recent),
                ProgressMessage(|p.wordsLearned|, n))
    }

    /** The reference listing: one line per catalog word, in catalog order;
        looking up a listed identifier finds the entry it was listed from. */
    function GetVocabularyList(): (r: seq<ListedWord>)
      reads this
      requires Valid()
      ensures |r| == |vocabulary|
      ensures forall i :: 0 <= i < |r| ==> Find(vocabulary, r[i].chinese) == Some(vocabulary[i])
      ensures forall i :: 0 <= i < |r| ==>
                r[i] == ListedWord(vocabulary[i].chinese, vocabulary[i].pinyin, vocabulary[i].english,
                                   vocabulary[i].category, vocabulary[i].exampleSentence)
    {
      assert forall i :: 0 <= i < |vocabulary| ==> Find(vocabulary, vocabulary[i].chinese) == Some(vocabulary[i]) by {
        forall i | 0 <= i < |vocabulary| ensures Find(vocabulary, vocabulary[i].chinese) == Some(vocabulary[i]) {
          FindRoundTrip(vocabulary, vocabulary[i]);
        }
      }
      seq(|vocabulary|, i requires 0 <= i < |vocabulary| =>
        ListedWord(vocabulary[i].chinese, vocabulary[i].pinyin, vocabulary[i].english,
                   vocabulary[i].category, vocabulary[i].exampleSentence))
    }
  }

  /** A client of `App`: from an empty rotation over at least two words,
      two sessions issue two different words and record no progress. */
  method TwoSessions(app: App) returns (first: Word, second: Word)
    requires app.Valid() && |app.vocabulary| >= 2 && app.currentSessionWords == []
    modifies app
    ensures first in app.vocabulary && second in app.vocabulary
    ensures first.chinese != second.chinese
    ensures app.currentSessionWords == [first.chinese, second.chinese]
    ensures app.userProgress == old(app.userProgress)
  {
    var session;
    first, session := app.StartNewSession("learner");
    SecondDrawFresh(app.vocabulary, first);
    assert app.currentSessionWords == [first.chinese];
    second, session := app.StartNewSession("learner");
  }

  /** A client of `App`: the first two sessions of a fresh app issue two
      different words and leave the progress ledger empty. */
  method TwoSessionsNoRepeat(pools: MessagePools) returns (first: Word, second: Word)
    requires ValidPools(pools)
    ensures first.chinese != second.chinese
  {
    var app := new App(pools);
    assert |app.vocabulary| == 10 by { DatabaseWellFormed(); }
    first, second := TwoSessions(app);
    assert app.userProgress == map[];
  }

  /** A client of `App`: a user without a record who submits two sentences
      for one known word, whatever their verdicts, ends with both sentences
      in order under one learned word. */
  method PracticeTwice(app: App, user: string, word: string, choice: Choice,
                       s1: string, t1: Timestamp, s2: string, t2: Timestamp)
    returns (first: Submission, second: Submission, summary: Summary)
    requires app.Valid() && ValidChoice(app.pools, choice)
    requires user !in app.userProgress
    requires Find(app.vocabulary, word).Some?
    modifies app
    ensures first == Answered(GenerateFeedback(s1, Find(app.vocabulary, word).value, app.pools, choice))
    ensures second == Answered(GenerateFeedback(s2, Find(app.vocabulary, word).value, app.pools, choice))
    ensures summary.sentencesCreated == 2 && summary.wordsLearned == 1
    ensures summary.recentSentences == Some([SentenceRecord(word, s1, t1), SentenceRecord(word, s2, t2)])
  {
    ghost var l0 := app.userProgress;
    first := app.SubmitSentence(user, s1, word, choice, t1);
    ghost var l1 := app.userProgress;
    second := app.SubmitSentence(user, s2, word, choice, t2);
    assert app.userProgress == RecordFor(l1, user, word, s2, t2);
    NewUserSameWordTwice(l0, user, word, s1, t1, s2, t2);
    var p := app.userProgress[user];
    assert p.wordsLearned == [word];
    assert |p.sentencesCreated| == 2 && Min(5, 2) == 2;
    summary := app.GetUserProgress(user);
    assert summary.recentSentences.value == p.sentencesCreated[0..];
  }

  /** A client of `App`: on a fresh app, one rejected and one accepted
      sentence for 上线 are both recorded, in order, under one learned
      word. */
  method PracticeLaunchTwice(pools: MessagePools, choice: Choice, t1: Timestamp, t2: Timestamp)
    returns (missing: Submission, accepted: Submission, summary: Summary)
    requires ValidPools(pools) && ValidChoice(pools, choice)
    ensures missing.Answered? && !missing.feedback.Success()
    ensures accepted.Answered? && accepted.feedback.Success()
    ensures summary.sentencesCreated == 2 && summary.wordsLearned == 1
    ensures summary.recentSentences
         == Some([SentenceRecord("上线", "这是一个测试句子。", t1),
                  SentenceRecord("上线", "新功能将在下周上线。", t2)])
  {
    var app := new App(pools);
    var word := "上线";
    var s1, s2 := "这是一个测试句子。", "新功能将在下周上线。";
    FindLaunch();
    missing, accepted, summary := PracticeTwice(app, "learner", word, choice, s1, t1, s2, t2);
    assert !missing.feedback.Success() by { LaunchMissing(pools, choice); }
    assert accepted.feedback.Success() by { LaunchAccepted(pools, choice); }
  }
}
