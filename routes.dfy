/** The server's sentiment classifier and the few request checks around it.
  * The classifier either applies a keyword rule (demo mode, or no access
  * token), or reads the scores returned by a remote inference service, or,
  * when that call fails, falls back to a second keyword rule. The network
  * call itself is not modelled: its outcome is an input, already parsed.
  * `Math.random()` is an input `rnd` with 0 <= rnd < 1. */
module Routes {
  import opened Optional
  import opened Seqs
  import opened Text
  import opened Domain
  import opened Storage

  /** What `analyzeSentiment` returns. */
  datatype Sentiment = Sentiment(sentimentLabel: string, sentimentScore: real)

  /** The label is one of the three the store expects. */
  predicate KnownLabel(s: Sentiment) {
    s.sentimentLabel in {POSITIVE, NEUTRAL, NEGATIVE}
  }

  // ---------------------------------------------------------------------
  // Choosing the rule

  /** `process.env.HUGGINGFACE_API_TOKEN || config?.huggingfaceToken` */
  function Token(envToken: Option<string>, config: Option<Config>): (t: Option<string>)
    ensures TruthyStr(t) <==> TruthyStr(envToken) || (config.Some? && TruthyStr(config.value.huggingfaceToken))
  {
    if TruthyStr(envToken) then envToken
    else if config.Some? then config.value.huggingfaceToken
    else None
  }

  /** `process.env.DEMO_MODE === "true" || config?.demoMode === "true"` */
  predicate DemoMode(envDemo: Option<string>, config: Option<Config>) {
    envDemo == Some("true") || (config.Some? && config.value.demoMode == "true")
  }

  /** `demoMode || !huggingfaceToken`: whether the keyword rule is used. */
  predicate UsesKeywordRule(envToken: Option<string>, envDemo: Option<string>, config: Option<Config>) {
    DemoMode(envDemo, config) || !TruthyStr(Token(envToken, config))
  }

  /** The remote service is asked only when demo mode is off in both places and
    * some token, from the environment or from the stored config, is non-empty. */
  lemma RemoteOnlyWithToken(envToken: Option<string>, envDemo: Option<string>, config: Option<Config>)
    ensures !UsesKeywordRule(envToken, envDemo, config) <==>
      envDemo != Some("true") &&
      (config.None? || config.value.demoMode != "true") &&
      (TruthyStr(envToken) || (config.Some? && TruthyStr(config.value.huggingfaceToken)))
  {
  }

  // ---------------------------------------------------------------------
  // The keyword rule

  const POSITIVE_WORDS: seq<string> :=
    ["amazing", "excellent", "great", "love", "wonderful", "fantastic", "perfect", "best", "awesome", "delicious"]
  const NEGATIVE_WORDS: seq<string> :=
    ["terrible", "awful", "worst", "hate", "horrible", "disgusting", "bad", "disappointing", "slow", "rude"]

  /** `word => lowerText.includes(word)` */
  function OccursIn(lowerText: string): string -> bool {
    (w: string) => Contains(lowerText, w)
  }

  /** `words.filter(word => lowerText.includes(word)).length` */
  function KeywordCount(lowerText: string, words: seq<string>): (n: nat)
    ensures n <= |words|
  {
    Count(words, OccursIn(lowerText))
  }

  /** Each keyword of a list without repeats counts once however often it
    * occurs: the count is the number of different keywords found in the text. */
  lemma KeywordsCountOnce(lowerText: string, words: seq<string>)
    requires Distinct(words)
    ensures KeywordCount(lowerText, words) == |KeywordsFound(lowerText, words)|
  {
    CountDistinct(words, OccursIn(lowerText));
    assert Satisfying(words, OccursIn(lowerText)) == KeywordsFound(lowerText, words);
  }

  /** The listed keywords that occur in the text. */
  function KeywordsFound(lowerText: string, words: seq<string>): set<string> {
    set w | w in words && Contains(lowerText, w)
  }

  /** Neither keyword list repeats a word, and no word is in both. */
  lemma KeywordListsDistinct()
    ensures Distinct(POSITIVE_WORDS) && Distinct(NEGATIVE_WORDS)
    ensures forall w :: w in POSITIVE_WORDS ==> w !in NEGATIVE_WORDS
  {
  }

  /** The decision over the two counts, with `rnd` the value of `Math.random()`. */
  function Decide(positiveCount: nat, negativeCount: nat, rnd: real): (s: Sentiment)
    requires 0.0 <= rnd < 1.0
    ensures s.sentimentLabel == POSITIVE <==> positiveCount > negativeCount
    ensures s.sentimentLabel == NEGATIVE <==> negativeCount > positiveCount
    ensures s.sentimentLabel == NEUTRAL <==> positiveCount == negativeCount
    ensures s.sentimentLabel == POSITIVE ==> 0.7 <= s.sentimentScore < 1.0
    ensures s.sentimentLabel == NEGATIVE ==> 0.0 <= s.sentimentScore < 0.4
    ensures s.sentimentLabel == NEUTRAL ==> 0.4 <= s.sentimentScore < 0.6
  {
    if positiveCount > negativeCount then Sentiment(POSITIVE, 0.7 + rnd * 0.3)
    else if negativeCount > positiveCount then Sentiment(NEGATIVE, rnd * 0.4)
    else Sentiment(NEUTRAL, 0.4 + rnd * 0.2)
  }

  /** The keyword rule of demo mode. */
  function KeywordRule(text: string, rnd: real): (s: Sentiment)
    requires 0.0 <= rnd < 1.0
    ensures KnownLabel(s) && 0.0 <= s.sentimentScore < 1.0
  {
    var lowerText := Lower(text);
    Decide(KeywordCount(lowerText, POSITIVE_WORDS), KeywordCount(lowerText, NEGATIVE_WORDS), rnd)
  }

  /** A text with no listed keyword is neutral; case does not matter. */
  lemma KeywordRuleNeutralWithoutKeywords(text: string, rnd: real)
    requires 0.0 <= rnd < 1.0
    requires forall w :: w in POSITIVE_WORDS + NEGATIVE_WORDS ==> !Contains(Lower(text), w)
    ensures KeywordRule(text, rnd).sentimentLabel == NEUTRAL
    ensures KeywordRule(Lower(text), rnd) == KeywordRule(text, rnd)
  {
    LowerIdempotent(text);
    assert forall w :: w in POSITIVE_WORDS ==> !OccursIn(Lower(text))(w);
    assert forall w :: w in NEGATIVE_WORDS ==> !OccursIn(Lower(text))(w);
  }

  // ---------------------------------------------------------------------
  // The remote result

  /** One `{ label, score }` entry of the service's answer. */
  datatype Entry = Entry(lbl: Option<string>, score: real)

  /** The parsed answer: `result[0]` when `result` is an array whose first
    * element is itself an array, `Malformed` in every other case. */
  datatype Remote = Scores(first: seq<Entry>) | Malformed

  /** `s => s.label === label` */
  function LabelledAs(lbl: string): Entry -> bool {
    (e: Entry) => e.lbl == Some(lbl)
  }

  /** The reading of the remote answer (lines 52-67). */
  function Interpret(result: Remote): (s: Sentiment)
    ensures KnownLabel(s)
    ensures s == Sentiment(NEUTRAL, 0.5) <==>
      result.Malformed? || Find(result.first, LabelledAs(POSITIVE)).None? || Find(result.first, LabelledAs(NEGATIVE)).None?
  {
    if result.Scores? then
      var positive := Find(result.first, LabelledAs(POSITIVE));
      var negative := Find(result.first, LabelledAs(NEGATIVE));
      if positive.Some? && negative.Some? then
        if positive.value.score > negative.value.score then Sentiment(POSITIVE, positive.value.score)
        else Sentiment(NEGATIVE, negative.value.score)
      else Sentiment(NEUTRAL, 0.5)
    else Sentiment(NEUTRAL, 0.5)
  }

  /** When both labels are present, the verdict is POSITIVE exactly when the
    * first POSITIVE entry scores strictly higher than the first NEGATIVE one
    * (a tie goes to NEGATIVE), and the score is that entry's score. */
  lemma InterpretComparesFirstEntries(first: seq<Entry>, i: nat, j: nat)
    requires i < |first| && first[i].lbl == Some(POSITIVE)
    requires j < |first| && first[j].lbl == Some(NEGATIVE)
    requires forall k :: 0 <= k < i ==> first[k].lbl != Some(POSITIVE)
    requires forall k :: 0 <= k < j ==> first[k].lbl != Some(NEGATIVE)
    ensures Interpret(Scores(first)).sentimentLabel == POSITIVE <==> first[i].score > first[j].score
    ensures Interpret(Scores(first)).sentimentLabel == NEGATIVE <==> first[i].score <= first[j].score
    ensures Interpret(Scores(first)).sentimentScore == if first[i].score > first[j].score then first[i].score else first[j].score
  {
    FindAt(first, LabelledAs(POSITIVE), i);
    FindAt(first, LabelledAs(NEGATIVE), j);
  }

  // ---------------------------------------------------------------------
  // The fallback when the call fails

  /** The keyword rule of the `catch` block (lines 71-77). */
  function FailureRule(text: string): (s: Sentiment)
    ensures KnownLabel(s)
    ensures s.sentimentLabel == POSITIVE <==> Contains(Lower(text), "good") || Contains(Lower(text), "great")
    ensures s.sentimentLabel == NEGATIVE <==>
      !Contains(Lower(text), "good") && !Contains(Lower(text), "great") &&
      (Contains(Lower(text), "bad") || Contains(Lower(text), "terrible"))
    ensures s.sentimentScore == if s.sentimentLabel == POSITIVE then 0.8 else if s.sentimentLabel == NEGATIVE then 0.2 else 0.5
  {
    var lowerText := Lower(text);
    if Contains(lowerText, "good") || Contains(lowerText, "great") then Sentiment(POSITIVE, 0.8)
    else if Contains(lowerText, "bad") || Contains(lowerText, "terrible") then Sentiment(NEGATIVE, 0.2)
    else Sentiment(NEUTRAL, 0.5)
  }

  /** A text with both a positive and a negative word is positive under the
    * failure rule: "good" and "great" are checked first. */
  lemma FailureRulePrefersPositive(text: string)
    requires Contains(Lower(text), "great") && Contains(Lower(text), "terrible")
    ensures FailureRule(text) == Sentiment(POSITIVE, 0.8)
  {
  }

  // ---------------------------------------------------------------------
  // The whole classifier

  /** How the call to the inference service ended: a parsed answer, or any
    * failure (network error, a status other than 2xx, a body that is not JSON). */
  datatype Outcome = Answered(result: Remote) | Failed

  /** `analyzeSentiment(text)`, with `config` the stored config of user
    * "default", the two environment variables, and the outcome of the remote
    * call (consulted only when the remote path is taken). */
  function AnalyzeSentiment(text: string, envToken: Option<string>, envDemo: Option<string>,
                            config: Option<Config>, outcome: Outcome, rnd: real): (s: Sentiment)
    requires 0.0 <= rnd < 1.0
    ensures KnownLabel(s)
    ensures UsesKeywordRule(envToken, envDemo, config) ==> 0.0 <= s.sentimentScore < 1.0
    ensures !UsesKeywordRule(envToken, envDemo, config) && outcome.Failed? ==> s.sentimentScore in {0.8, 0.2, 0.5}
    ensures UsesKeywordRule(envToken, envDemo, config) ==> s == KeywordRule(text, rnd)
    ensures !UsesKeywordRule(envToken, envDemo, config) && outcome.Failed? ==> s == FailureRule(text)
    ensures !UsesKeywordRule(envToken, envDemo, config) && outcome.Answered? ==> s == Interpret(outcome.result)
  {
    if UsesKeywordRule(envToken, envDemo, config) then KeywordRule(text, rnd)
    else if outcome.Failed? then FailureRule(text)
    else Interpret(outcome.result)
  }

  /** Scores stay within [0, 1] whenever the service's own scores do. */
  lemma AnalyzeScoreInUnitRange(text: string, envToken: Option<string>, envDemo: Option<string>,
                                config: Option<Config>, outcome: Outcome, rnd: real)
    requires 0.0 <= rnd < 1.0
    requires outcome.Answered? && outcome.result.Scores? ==>
      forall e :: e in outcome.result.first ==> 0.0 <= e.score <= 1.0
    ensures 0.0 <= AnalyzeSentiment(text, envToken, envDemo, config, outcome, rnd).sentimentScore <= 1.0
  {
    if !UsesKeywordRule(envToken, envDemo, config) && outcome.Answered? && outcome.result.Scores? {
      var first := outcome.result.first;
      var positive := Find(first, LabelledAs(POSITIVE));
      var negative := Find(first, LabelledAs(NEGATIVE));
      if positive.Some? && negative.Some? {
        assert positive.value in first;
        assert negative.value in first;
      }
    }
  }

  // ---------------------------------------------------------------------
  // Handlers

  /** `Math.min(10, Math.floor(Math.random() * 8) + 2)` (line 141). */
  function Influence(rnd: real): (n: int)
    requires 0.0 <= rnd < 1.0
    ensures 2 <= n <= 9
    ensures n == (rnd * 8.0).Floor + 2
  {
    var raw := (rnd * 8.0).Floor + 2;
    if 10 < raw then 10 else raw
  }

  /** The `text` field of a request body: absent, a string, or a value of
    * another type. `!text || typeof text !== "string"` rejects all but a
    * non-empty string. */
  datatype BodyField = Missing | Text(s: string) | OtherValue

  datatype AnalyzeReply = BadRequest(message: string) | Classified(verdict: Sentiment)

  /** `POST /api/analyze` (lines 95-99). */
  function Analyze(text: BodyField, envToken: Option<string>, envDemo: Option<string>,
                   config: Option<Config>, outcome: Outcome, rnd: real): (reply: AnalyzeReply)
    requires 0.0 <= rnd < 1.0
    ensures reply.BadRequest? <==> !(text.Text? && text.s != "")
    ensures reply.BadRequest? ==> reply.message == "Text is required"
    ensures reply.Classified? ==> KnownLabel(reply.verdict)
  {
    if text.Text? && text.s != "" then
      Classified(AnalyzeSentiment(text.s, envToken, envDemo, config, outcome, rnd))
    else
      BadRequest("Text is required")
  }

  /** What `GET /api/config` answers. */
  datatype ConfigReply = Stored(config: Config) | Defaults(demoMode: string, sentimentThreshold: real)

  /** `config || { demoMode: "true", sentimentThreshold: 0.4 }` (line 226). */
  function ConfigResponse(config: Option<Config>): (reply: ConfigReply)
    ensures config.None? <==> reply == Defaults("true", 0.4)
    ensures config.Some? ==> reply == Stored(config.value)
  {
    if config.Some? then Stored(config.value) else Defaults("true", 0.4)
  }

  /** The defaults shown before a user saves anything are the ones the store
    * writes when the user's first update sets nothing. */
  lemma DefaultsMatchFirstSave(userId: string, freshId: string)
    ensures var saved := MergeConfig(userId, ConfigUpdate(None, None, None), None, freshId);
            ConfigResponse(None) == Defaults(saved.demoMode, saved.sentimentThreshold)
  {
  }
}
