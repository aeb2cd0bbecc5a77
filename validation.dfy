/** The sentence validator behind `_generate_feedback` and
    `_generate_usage_tip`: a three-way decision (blank, target word
    missing, accepted) and the usage-tip table. */
module Validation {
  import opened Text
  import opened Vocabulary

  /** The two message pools `random.choice` draws from. Their texts are
      configuration; only membership in the right pool is modelled. */
  datatype MessagePools = MessagePools(praise: seq<string>, encouragement: seq<string>)

  predicate ValidPools(pools: MessagePools) {
    |pools.praise| > 0 && |pools.encouragement| > 0
  }

  /** The outcome of the random draws for one submission: an index into
      each pool. */
  datatype Choice = Choice(praise: nat, encouragement: nat)

  predicate ValidChoice(pools: MessagePools, choice: Choice) {
    choice.praise < |pools.praise| && choice.encouragement < |pools.encouragement|
  }

  /** The part of an accepted answer that describes the word. */
  datatype WordAnalysis = WordAnalysis(chinese: string, pinyin: string, english: string, usageTip: string)

  /** The feedback dictionary: `Rejected` carries `"success": False`,
      `Accepted` carries `"success": True`. */
  datatype Feedback =
    | Rejected(message: string, exampleSentence: string, encouragement: string)
    | Accepted(message: string, userSentence: string, exampleSentence: string,
               analysis: WordAnalysis, encouragement: string)
  {
    predicate Success() { Accepted? }
  }

  const EmptySentenceMessage: string := "请写一个句子！"

  /** The message for a sentence that does not use the target word. */
  function MissingWordMessage(chinese: string): string {
    "请在你的句子中使用词汇 '" + chinese + "'！"
  }

  /** The rejection message names the word the learner has to use. */
  lemma MissingWordMessageNamesWord(chinese: string)
    ensures Contains(MissingWordMessage(chinese), chinese)
  {
    var prefix := "请在你的句子中使用词汇 '";
    var m := MissingWordMessage(chinese);
    assert m[|prefix|..|prefix| + |chinese|] == chinese;
    assert OccursAt(m, chinese, |prefix|);
  }

  /** The usage tips, keyed by identifier. */
  const Tips: map<string, string> := map[
    "数据分析" := "数据分析通常用于描述分析数据的过程，可以搭配'进行'、'做'等动词。",
    "迭代" := "迭代常用于描述产品开发过程，可以搭配'进行'、'完成'等动词。",
    "产品经理" := "产品经理是职位名称，通常用作主语或宾语。",
    "垄断" := "垄断通常用作动词，表示独占市场的行为。",
    "上线" := "上线是动词，表示产品或功能正式发布，可以搭配'将'、'计划'等词。",
    "用户体验" := "用户体验是名词，通常用作主语或宾语。",
    "优化" := "优化是动词，表示改进或提升，可以搭配'进行'、'完成'等动词。",
    "功能" := "功能是名词，表示产品的特性，可以搭配'开发'、'测试'等动词。",
    "市场" := "市场是名词，表示商业环境，可以搭配'分析'、'进入'等动词。",
    "策略" := "策略是名词，表示计划或方法，可以搭配'制定'、'执行'等动词。"
  ]

  const FallbackTip: string := "这个词汇可以根据语境灵活使用。"

  /** `tips.get(word.chinese, fallback)`. */
  function UsageTip(word: Word): string {
    if word.chinese in Tips then Tips[word.chinese] else FallbackTip
  }

  /** Every built-in word has its own tip, never the fallback. */
  lemma DatabaseWordsHaveTips()
    ensures forall w :: w in Database ==> UsageTip(w) == Tips[w.chinese] && UsageTip(w) != FallbackTip
  {
  }

  /** The tip table has no key outside the built-in identifiers, so a word
      that is not built in gets the fallback tip. */
  lemma OtherWordsGetFallback(w: Word)
    requires w.chinese !in Ids(Database)
    ensures UsageTip(w) == FallbackTip
  {
    var ids := Ids(Database);
    assert ids == ["数据分析", "迭代", "产品经理", "垄断", "上线",
                   "用户体验", "优化", "功能", "市场", "策略"];
    assert Tips.Keys == {"数据分析", "迭代", "产品经理", "垄断", "上线",
                         "用户体验", "优化", "功能", "市场", "策略"};
  }

  /** The feedback for `userSentence` on `word`, given the random draws:
      a blank sentence is rejected with the "write a sentence" message; a
      sentence without the word is rejected with a message naming it;
      anything else is accepted with praise, the sentence echoed back and the
      word's usage tip. Every outcome shows the word's example sentence and
      an encouragement from the pool. */
  function GenerateFeedback(userSentence: string, word: Word, pools: MessagePools, choice: Choice): (r: Feedback)
    requires ValidChoice(pools, choice)
    ensures r.Success() <==> !AllWhitespace(userSentence) && Contains(userSentence, word.chinese)
    ensures AllWhitespace(userSentence) ==> r.Rejected? && r.message == EmptySentenceMessage
    ensures !AllWhitespace(userSentence) && !Contains(userSentence, word.chinese) ==>
              r.Rejected? && r.message == MissingWordMessage(word.chinese)
    ensures r.Accepted? ==> && r.message in pools.praise
                            && r.userSentence == userSentence
                            && r.analysis == WordAnalysis(word.chinese, word.pinyin, word.english, UsageTip(word))
    ensures r.exampleSentence == word.exampleSentence
    ensures r.encouragement in pools.encouragement
  {
    StripEmptyIffAllWhitespace(userSentence);
    var encouragement := pools.encouragement[choice.encouragement];
    if Strip(userSentence) == [] then
      Rejected(EmptySentenceMessage, word.exampleSentence, encouragement)
    else if !Contains(userSentence, word.chinese) then
      Rejected(MissingWordMessage(word.chinese), word.exampleSentence, encouragement)
    else
      Accepted(pools.praise[choice.praise], userSentence, word.exampleSentence,
               WordAnalysis(word.chinese, word.pinyin, word.english, UsageTip(word)), encouragement)
  }

  /** For a word that is not itself blank, containment alone decides: the
      sentence is accepted if and only if it contains the word. */
  lemma ContainmentDecides(userSentence: string, word: Word, pools: MessagePools, choice: Choice)
    requires ValidChoice(pools, choice)
    requires !AllWhitespace(word.chinese)
    ensures GenerateFeedback(userSentence, word, pools, choice).Success() <==> Contains(userSentence, word.chinese)
  {
  }

  /** No built-in identifier is blank, so for them containment decides. */
  lemma DatabaseIdsNotBlank()
    ensures forall w :: w in Database ==> !AllWhitespace(w.chinese)
  {
    forall w | w in Database ensures !AllWhitespace(w.chinese) {
      var i :| 0 <= i < |Database| && Database[i] == w;
      assert !IsWhitespace(w.chinese[0]);
    }
  }

  /** A sentence that uses 上线 is accepted with that word's own tip. */
  lemma LaunchAccepted(pools: MessagePools, choice: Choice)
    requires ValidChoice(pools, choice)
    ensures var r := GenerateFeedback("新功能将在下周上线。", Database[4], pools, choice);
      && r.Success()
      && r.analysis.usageTip == Tips["上线"]
      && r.exampleSentence == "我们计划下周一将新功能上线。"
  {
    var s := "新功能将在下周上线。";
    assert OccursAt(s, "上线", 7);
    assert !IsWhitespace(s[0]);
  }

  /** A sentence without 上线 is rejected with the message naming it. */
  lemma LaunchMissing(pools: MessagePools, choice: Choice)
    requires ValidChoice(pools, choice)
    ensures var r := GenerateFeedback("这是一个测试句子。", Database[4], pools, choice);
      && !r.Success()
      && r.message == "请在你的句子中使用词汇 '上线'！"
  {
    var s := "这是一个测试句子。";
    assert !IsWhitespace(s[0]);
    assert s == ['这', '是', '一', '个', '测', '试', '句', '子', '。'];
    FirstCharAbsent(s, "上线");
    var w := Database[4];
    assert w.chinese == "上线";
    var r := GenerateFeedback(s, w, pools, choice);
    assert r.Rejected? && r.message == MissingWordMessage(w.chinese);
    assert MissingWordMessage("上线") == "请在你的句子中使用词汇 '上线'！";
  }

  /** An empty submission is rejected before any containment test. */
  lemma EmptyRejected(word: Word, pools: MessagePools, choice: Choice)
    requires ValidChoice(pools, choice)
    ensures var r := GenerateFeedback("", word, pools, choice);
      && !r.Success() && r.message == EmptySentenceMessage && r.exampleSentence == word.exampleSentence
  {
  }
}
