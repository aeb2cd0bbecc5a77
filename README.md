# Chinese vocabulary practice: a Dafny model

This project models the core of a small vocabulary-practice tool, the
`ChineseLearningApp` class in `chinese_learning_app.py`. The app shows a
learner one Chinese word. It checks the sentence the learner writes with it
and answers with feedback. It also keeps a progress record for each user.
The core has three parts:

- **Word rotation** (`start_new_session`). It keeps one list of the word
  identifiers already issued. The list is shared by the whole process, not
  kept per user. The app draws an unused word, and once every word has been
  issued it clears the list and draws from the whole catalog.
- **Sentence validation** (`_generate_feedback`, `_generate_usage_tip`). The
  rules are checked in order. A blank sentence is rejected. A sentence
  without the target word is rejected with a message naming the word. Any
  other sentence is accepted with praise and the word's usage tip.
- **Progress ledger** (`_update_progress`, `get_user_progress`). It holds one
  record per user: the words learned (no duplicates), the sentences
  submitted (append-only) and two counters. Each submission for a known word
  updates the record exactly once, whether the sentence passed or failed.

Modules, one per component:

- `Wrappers` (wrappers.dfy): the `Option` datatype.
- `Seqs` (seqs.dfy): lists without duplicates, first-seen de-duplication
  (`Dedup`) and pigeonhole bounds.
- `Text` (text.dfy): Python's `str.isspace`, `str.strip`, the substring
  test `w in s` and `str(n)`.
- `Vocabulary` (vocabulary.dfy): the `VocabularyWord` record, the ten-word
  built-in table and lookup by identifier.
- `Rotation` (rotation.dfy): the word rotation, stated on values: the
  candidate list, the issued list after one draw, and lemmas about runs of
  draws.
- `Ledger` (ledger.dfy): the `UserProgress` record, what one submission does
  to it, and what k submissions add up to.
- `Validation` (validation.dfy): the three-way feedback decision and the
  usage-tip table.
- `LearningApp` (app.dfy): the class `App`, the mutable state of the
  original class. `currentSessionWords` and `userProgress` are fields, and
  the methods that change them carry `modifies` clauses. Each method is
  proved against the value-level functions above. The read-only operations
  are functions.

`App.Valid()` is the object invariant. It requires a non-empty catalog with
distinct identifiers and non-empty message pools. It requires an issued list
with no repeats that holds only catalog identifiers. Every ledger record
must be filed under its own user. In every record, the learned words are the
distinct submitted words in first-seen order, and both counters equal the
number of sentences.

Modelling choices:

- `random.choice` is modelled in two ways. The word draw is a
  nondeterministic pick (`:|`) from the candidate list. The message draws are
  a `Choice` of two indices into the pools, which must be in range. Only
  membership in the right pool is stated.
- The praise and encouragement texts are configuration. The message pools
  are passed to the constructor as a `MessagePools` value. The vocabulary
  table and the usage-tip table are written out as in the source.
- `datetime.now()` becomes a `Timestamp` parameter (`now`). The source reads
  the clock twice per submission, once for the record and once for
  `last_practice_date`; the model uses the one value for both.
- Strings are `seq<char>`. Whitespace is the exact set of characters for
  which Python's `str.isspace` holds.

## Model

| member | source | states |
|---|---|---|
| `Text.IsWhitespace` | chinese_learning_app.py:204 | no contract of its own: the characters for which Python's `str.isspace` holds, the ones `strip()` removes; `Text.Strip` and `Text.StripEmptyIffAllWhitespace` state what follows from it |
| `Text.Strip` | chinese_learning_app.py:204 | `strip()` returns a contiguous slice of the input that neither starts nor ends with whitespace, and everything cut off on either side is whitespace |
| `Text.StripEmptyIffAllWhitespace` | chinese_learning_app.py:204 | `not s.strip()` holds exactly when every character of `s` is whitespace (including `s == ""`) |
| `Text.Contains` | chinese_learning_app.py:213 | `w in s` holds exactly when some offset `i` has `s[i..i+|w|] == w` |
| `Text.ContainsNonBlankIsNonBlank` | chinese_learning_app.py:204-213 | a sentence that contains a non-blank word is itself non-blank |
| `Text.Decimal` | chinese_learning_app.py:301 | `str(n)` is a non-empty string of decimal digits, with no leading zero unless it is "0" |
| `Text.DecimalRoundTrip` | chinese_learning_app.py:301 | reading back the digits of `str(n)` gives `n` |
| `Vocabulary.Find` | chinese_learning_app.py:188-191 | the lookup finds nothing exactly when no entry has the identifier; otherwise it returns the first entry with that identifier |
| `Vocabulary.FindRoundTrip` | chinese_learning_app.py:188 | with distinct identifiers, looking up an entry's own identifier returns that entry |
| `Vocabulary.DatabaseWellFormed` | chinese_learning_app.py:40-112 | the built-in table `Vocabulary.Database`, written out entry by entry in the configured order, has ten entries with pairwise distinct identifiers |
| `Vocabulary.FindLaunch` | chinese_learning_app.py:188 | looking up 上线 in the built-in table finds its fifth entry |
| `Rotation.Available` | chinese_learning_app.py:159-160 | the available words are exactly the catalog words whose identifier has not been issued |
| `Rotation.Candidates` | chinese_learning_app.py:162-166 | no contract of its own: the list `random.choice` draws from, the available words or, when none is left, the whole catalog; `Rotation.DrawKeepsInvariant` states what a draw from it keeps |
| `Rotation.NextUsed` | chinese_learning_app.py:162-167 | no contract of its own: the issued list after a draw, cleared first when nothing was available; `Rotation.DrawKeepsInvariant` and `Rotation.IssuedBound` state its invariant and bound |
| `Rotation.ExhaustedIffAllIssued` | chinese_learning_app.py:159-165 | nothing is available exactly when every catalog word has been issued, which is when the list is reset |
| `Rotation.IssuedBound` | chinese_learning_app.py:159-168 | an issued list without repeats, holding only catalog identifiers, is never longer than the catalog; with distinct identifiers it is full exactly when nothing is available |
| `Rotation.DrawKeepsInvariant` | chinese_learning_app.py:159-168 | one draw picks a catalog word, an unused one while any is left; it keeps the issued list free of repeats and within the catalog; after a reset the list has length 1 |
| `Rotation.SecondDrawFresh` | chinese_learning_app.py:159-165 | with at least two words of distinct identifiers, neither the first nor the second draw from an empty list resets the rotation |
| `Rotation.NoRepeatUntilExhausted` | chinese_learning_app.py:159-168 | up to catalog-size draws from an empty list return pairwise different words, and the issued list is their identifiers in draw order |
| `Rotation.RunInvariant` | chinese_learning_app.py:159-168 | along any run of draws every pick is a catalog word and the issued list keeps its invariant |
| `Rotation.FullRoundCoversCatalog` | chinese_learning_app.py:159-168 | as many draws as there are words, starting from an empty list, return every catalog word exactly once |
| `Rotation.SameIdSameWord` | chinese_learning_app.py:159-160 | with distinct identifiers, two catalog entries with the same identifier are the same entry |
| `Seqs.Dedup` | chinese_learning_app.py:268-269 | no contract of its own: the learned list that `if x not in l: l.append(x)` builds over a sequence of words; the three lemmas below state what it is |
| `Seqs.DedupIsDistinctAndSameElements` | chinese_learning_app.py:268-269 | appending a word only when it is absent yields a list with no duplicates, holding exactly the words seen, and no longer than the input |
| `Seqs.DedupFirstOccurrences` | chinese_learning_app.py:268-269 | the de-duplicated list is read off the input at the first occurrence of each element, in increasing index order: first-seen order |
| `Seqs.DedupSnoc` | chinese_learning_app.py:268-269 | one more word extends the learned list exactly when that word is new |
| `Ledger.NewProgress` | chinese_learning_app.py:256-263 | a new record has no sentences and satisfies the record invariant |
| `Ledger.WellFormedBounds` | chinese_learning_app.py:266-280 | a well-formed record's learned words have no duplicates, are no more than its sentences, and are exactly the words of its sentences |
| `Ledger.Record` | chinese_learning_app.py:265-281 | recording one submission keeps the record invariant |
| `Ledger.RecordEffect` | chinese_learning_app.py:265-281 | one submission keeps the user, appends exactly this sentence with its timestamp, raises both counters by one, sets the last date, learns the word, and adds at most one learned word while keeping the earlier ones in order |
| `Ledger.Lookup` | chinese_learning_app.py:256-265 | no contract of its own: the user's record, or the fresh record `_update_progress` creates when there is none |
| `Ledger.RecordFor` | chinese_learning_app.py:254-281 | no contract of its own: the ledger with only this user's record created or replaced by `Record`; `Ledger.RecordForFrame` states its frame |
| `Ledger.RecordForFrame` | chinese_learning_app.py:254-281 | recording for one user gives that user a record, leaves every other user's entry as it was, and keeps the ledger well formed |
| `Ledger.AfterSubmissions` | chinese_learning_app.py:254-281 | after k submissions from no record, both counters and the number of sentences equal k; the sentences are the submissions in order; the learned words are the distinct submitted words in first-seen order, so there are at most k of them |
| `Ledger.SameWordTwice` | chinese_learning_app.py:268-280 | practising the same word twice adds two sentences and at most one learned word |
| `Ledger.NewUserSameWordTwice` | chinese_learning_app.py:256-281 | a user without a record who practises one word twice ends with exactly that one learned word and both sentences in submission order |
| `Validation.MissingWordMessage` | chinese_learning_app.py:216 | no contract of its own: the rejection text for a sentence without the word; `Validation.MissingWordMessageNamesWord` states that it names the word |
| `Validation.MissingWordMessageNamesWord` | chinese_learning_app.py:216 | the rejection message for a missing word contains that word |
| `Validation.UsageTip` | chinese_learning_app.py:238-252 | no contract of its own: `tips.get(word.chinese, fallback)` over the ten-entry `Tips` table; `Validation.DatabaseWordsHaveTips` and `Validation.OtherWordsGetFallback` state its contract |
| `Validation.DatabaseWordsHaveTips` | chinese_learning_app.py:240-252 | every built-in word gets its own entry from the ten-entry `Validation.Tips` table, written out as in the source, never the fallback |
| `Validation.OtherWordsGetFallback` | chinese_learning_app.py:240-252 | a word whose identifier is not built in gets the fallback tip |
| `Validation.GenerateFeedback` | chinese_learning_app.py:201-236 | success holds exactly when the sentence is non-blank and contains the word. A blank sentence gets the "write a sentence" message. A non-blank sentence without the word gets the message naming the word. An accepted sentence gets praise from the pool, an echo of the sentence and the word's analysis with its usage tip. Every outcome carries the word's example sentence and an encouragement from the pool |
| `Validation.ContainmentDecides` | chinese_learning_app.py:204-236 | for a non-blank word, the sentence is accepted exactly when it contains the word |
| `Validation.DatabaseIdsNotBlank` | chinese_learning_app.py:40-112 | no built-in identifier is blank, so containment decides for every built-in word |
| `Validation.LaunchAccepted` | chinese_learning_app.py:222-236 | "新功能将在下周上线。" for 上线 is accepted with the 上线 tip and the word's example sentence |
| `Validation.LaunchMissing` | chinese_learning_app.py:213-219 | "这是一个测试句子。" for 上线 is rejected with the message "请在你的句子中使用词汇 '上线'！" |
| `Validation.EmptyRejected` | chinese_learning_app.py:204-210 | the empty sentence is rejected with the "write a sentence" message and the word's example sentence |
| `LearningApp.ProgressMessage` | chinese_learning_app.py:301 | no contract of its own: the summary f-string with the two counts written by `Text.Decimal`, which is `str(n)` |
| `LearningApp.App.constructor` | chinese_learning_app.py:151-154 | a new app uses the built-in table, has no progress and no issued words, and satisfies the invariant |
| `LearningApp.App.StartNewSession` | chinese_learning_app.py:156-183 | the selected word is a catalog entry, unused while any is left. The issued list becomes `NextUsed` of the old one: it is reset to just the selected word when everything was used, and always ends with the selected word. The list stays within the catalog size and the invariant holds |
| `LearningApp.App.UpdateProgress` | chinese_learning_app.py:254-281 | the ledger becomes `RecordFor` of the old one: this user's record is created if absent and recorded into, every other user is unchanged, and the invariant holds |
| `LearningApp.App.SubmitSentence` | chinese_learning_app.py:185-199 | an unknown word returns the error and leaves the ledger unchanged. A known word returns `GenerateFeedback` for its entry and records the submission once, pass or fail |
| `LearningApp.App.GetUserProgress` | chinese_learning_app.py:283-302 | a user with no record gets zeros and the start message. Otherwise the summary holds the list lengths and the two counters, which equal the sentence count; there are no more learned words than sentences; the recent sentences are the last `min(5, n)` in order; the message reports both counts |
| `LearningApp.App.GetVocabularyList` | chinese_learning_app.py:304-315 | one listing line per catalog word, in catalog order, with its fields; looking up a listed identifier finds the entry it came from |
| `LearningApp.TwoSessions` | chinese_learning_app.py:156-168 | a client: from an empty rotation over at least two distinctly named words, two sessions issue two different words, the issued list is their two identifiers in order, and the ledger is unchanged |
| `LearningApp.TwoSessionsNoRepeat` | chinese_learning_app.py:150-168 | a client: the first two sessions of a fresh app issue two different words |
| `LearningApp.PracticeTwice` | chinese_learning_app.py:185-302 | a client: two submissions of one known word by a user without a record return the feedback for each, and the summary then shows two sentences, one learned word and both sentences in order |
| `LearningApp.PracticeLaunchTwice` | chinese_learning_app.py:150-302 | a client: on a fresh app, "这是一个测试句子。" for 上线 is rejected, "新功能将在下周上线。" is accepted, and the summary shows both sentences in order under one learned word |

## Left out

- The console code (`run_interactive_demo`, `show_vocabulary_reference`, the
  `__main__` menu, chinese_learning_app.py:321-421) is only `input` and
  `print`. chinese_learning_demo.py drives the class with canned sentences
  and holds no logic of its own. src/components/ChineseLearningApp.jsx is a
  separate React front end whose inline logic differs from the Python class.
  None of these are part of this model.
- The `instructions`, `hint` and `session_id` strings of `start_new_session`
  are display text and a clock reading. `StartNewSession` returns the word
  part of the session dictionary and the selected entry.
- The texts of the praise and encouragement pools, and the randomness of the
  choices. Only pool membership is modelled.
- `LearningApp.App.constructor`: the source's `__init__` takes no arguments
  and reads the module-level message pools. The model receives the pools as
  a parameter.
- The `UserProgress` object that Python updates in place is a datatype value
  in the `userProgress` map, replaced whole on each update. The
  `recent_sentences` list of `get_user_progress` is a new list, but it shares
  its submission dictionaries with the stored record, so a caller that
  changed one of them would change the record. The model returns values and
  does not capture that sharing. No caller in the repository changes them:
  chinese_learning_demo.py:78-80 and the console code only read them.
- The submission dictionaries become `SentenceRecord` values.
  `datetime.now()` is an argument, and one reading is used for both the
  record and `last_practice_date`.
- A per-user rotation would keep users from affecting each other's draws.
  The code keeps one process-wide list and ignores `user_id`, and the model
  follows the code.
- `random.choice` on an empty list raises an error. The invariant requires a
  non-empty catalog and non-empty pools, as the built-in configuration
  provides.
