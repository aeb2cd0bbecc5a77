/** The vocabulary catalog: the `VocabularyWord` record, the built-in
    word table and lookup of a word by its Chinese text. */
module Vocabulary {
  import opened Wrappers
  import opened Seqs

  /** One vocabulary entry. `chinese` is its identifier. */
  datatype Word = Word(
    chinese: string,
    pinyin: string,
    english: string,
    exampleSentence: string,
    difficulty: string,
    category: string)

  /** A word with the record's default difficulty and category. */
  function BusinessWord(chinese: string, pinyin: string, english: string, example: string): Word {
    Word(chinese, pinyin, english, example, "intermediate", "business")
  }

  /** The table every app starts with, in its configured order. */
  const Database: seq<Word> := [
    BusinessWord("数据分析", "shù jù fēn xī", "Data analysis",
      "产品经理需要通过数据分析来了解用户行为并优化功能。"),
    BusinessWord("迭代", "dié dài", "Iteration",
      "为了提升用户体验，我们计划对这个功能进行多次迭代。"),
    BusinessWord("产品经理", "chǎn pǐn jīng lǐ", "Product Manager",
      "我们的产品经理负责制定产品战略并协调各个部门的工作。"),
    BusinessWord("垄断", "lǒng duàn", "Monopoly",
      "虾贝想要垄断电商市场。"),
    BusinessWord("上线", "shàng xiàn", "Go live / Launch (a feature or product)",
      "我们计划下周一将新功能上线。"),
    BusinessWord("用户体验", "yòng hù tǐ yàn", "User experience",
      "好的用户体验是产品成功的关键。"),
    BusinessWord("优化", "yōu huà", "Optimize",
      "我们需要优化这个功能以提高效率。"),
    BusinessWord("功能", "gōng néng", "Feature / Function",
      "这个新功能很受用户欢迎。"),
    BusinessWord("市场", "shì chǎng", "Market",
      "我们需要分析市场趋势来制定策略。"),
    BusinessWord("策略", "cè lüè", "Strategy",
      "公司制定了新的营销策略。")
  ]

  /** The identifiers of `vocab`, in order. */
  function Ids(vocab: seq<Word>): (ids: seq<string>)
    ensures |ids| == |vocab|
    ensures forall i :: 0 <= i < |vocab| ==> ids[i] == vocab[i].chinese
  {
    seq(|vocab|, i requires 0 <= i < |vocab| => vocab[i].chinese)
  }

  /** No two entries share an identifier. */
  ghost predicate DistinctIds(vocab: seq<Word>) {
    Distinct(Ids(vocab))
  }

  /** The first entry whose identifier is `id`, as the generator
      `next((w for w in vocab if w.chinese == id), None)` finds it. */
  function Find(vocab: seq<Word>, id: string): (r: Option<Word>)
    ensures r.None? <==> forall w :: w in vocab ==> w.chinese != id
    ensures r.Some? ==> exists i :: 0 <= i < |vocab| && vocab[i] == r.value
                          && r.value.chinese == id
                          && forall j :: 0 <= j < i ==> vocab[j].chinese != id
  {
    if vocab == [] then None
    else if vocab[0].chinese == id then Some(vocab[0])
    else
      var r := Find(vocab[1..], id);
      assert r.Some? ==> exists i :: 1 <= i < |vocab| && vocab[i] == r.value
                          && forall j :: 0 <= j < i ==> vocab[j].chinese != id by {
        if r.Some? {
          var i :| 0 <= i < |vocab[1..]| && vocab[1..][i] == r.value
                    && forall j :: 0 <= j < i ==> vocab[1..][j].chinese != id;
          assert vocab[i + 1] == r.value;
          assert forall j :: 0 <= j < i + 1 ==> vocab[j].chinese != id by {
            forall j | 0 <= j < i + 1 ensures vocab[j].chinese != id {
              if j > 0 { assert vocab[j] == vocab[1..][j - 1]; }
            }
          }
        }
      }
      r
  }

  /** Looking an entry up by its own identifier gives back that entry, when
      identifiers are distinct. */
  lemma FindRoundTrip(vocab: seq<Word>, w: Word)
    requires DistinctIds(vocab)
    requires w in vocab
    ensures Find(vocab, w.chinese) == Some(w)
  {
  }

  /** The built-in table is non-empty and its identifiers are distinct. */
  lemma DatabaseWellFormed()
    ensures |Database| == 10
    ensures DistinctIds(Database)
  {
  }

  /** 上线 is the fifth entry of the built-in table. */
  lemma FindLaunch()
    ensures Find(Database, "上线") == Some(Database[4])
  {
    DatabaseWellFormed();
    FindRoundTrip(Database, Database[4]);
  }
}
