/** The brand assistant chat: a keyword router that answers a question
  * from the current comments, and the chat that appends the question and
  * its answer. Replies are kept as the facts they report; the wording
  * around those facts and number rendering are not modelled. */
module BrandAssistant {
  import opened Optional
  import opened Seqs
  import opened Ranking
  import opened Text
  import opened Tallies
  import opened Domain
  import opened Analysis

  // ---------------------------------------------------------- the router

  /** Which branch of the router answers a message. */
  datatype Topic = SentimentTopic | MentionsTopic | ImproveTopic | TrendsTopic | OverviewTopic

  /** The lowercased message contains either keyword. */
  predicate Asks(message: string, a: string, b: string) {
    Contains(Lower(message), a) || Contains(Lower(message), b)
  }

  /** The branches are tried in a fixed order; the first whose keywords
    * occur in the lowercased message answers. */
  function Route(message: string): (t: Topic)
    ensures t.SentimentTopic? <==> Asks(message, "sentiment", "feeling")
    ensures t.MentionsTopic? <==> !Asks(message, "sentiment", "feeling") && Asks(message, "mentions", "volume")
    ensures t.ImproveTopic? <==>
              !Asks(message, "sentiment", "feeling") && !Asks(message, "mentions", "volume") &&
              Asks(message, "improve", "recommendation")
    ensures t.TrendsTopic? <==>
              !Asks(message, "sentiment", "feeling") && !Asks(message, "mentions", "volume") &&
              !Asks(message, "improve", "recommendation") && Asks(message, "trends", "pattern")
  {
    if Asks(message, "sentiment", "feeling") then SentimentTopic
    else if Asks(message, "mentions", "volume") then MentionsTopic
    else if Asks(message, "improve", "recommendation") then ImproveTopic
    else if Asks(message, "trends", "pattern") then TrendsTopic
    else OverviewTopic
  }

  /** The router ignores letter case. */
  lemma RouteIgnoresCase(message: string)
    ensures Route(Lower(message)) == Route(message)
  {
    LowerIdempotent(message);
  }

  datatype SentimentVerdict = Excellent | Good | NeedsAttention
  datatype Visibility = GoodVisibility | BuildingPresence | NeedsMarketing
  datatype Trend = PositiveRising | NegativeRising | Stable

  /** What a reply reports. */
  datatype Reply =
    | SentimentReply(avgSentiment: real, verdict: SentimentVerdict, positives: nat, negatives: nat)
    | MentionsReply(total: nat, visibility: Visibility)
    | ImproveReply(complaintAdvice: bool)
    | TrendsReply(trend: Trend, mostMentioned: Option<string>)
    | OverviewReply(total: nat, positivePercent: real)

  function SentimentScore(c: Comment): real {
    c.sentimentScore
  }

  /** Above 0.7 excellent, above 0.5 good, otherwise needs attention. */
  function Verdict(avg: real): (v: SentimentVerdict)
    ensures v == Excellent <==> avg > 0.7
    ensures v == Good <==> 0.5 < avg <= 0.7
    ensures v == NeedsAttention <==> avg <= 0.5
  {
    if avg > 0.7 then Excellent else if avg > 0.5 then Good else NeedsAttention
  }

  /** Over 50 mentions good visibility, over 20 a presence being built. */
  function VisibilityOf(total: nat): (v: Visibility)
    ensures v == GoodVisibility <==> total > 50
    ensures v == BuildingPresence <==> 20 < total <= 50
    ensures v == NeedsMarketing <==> total <= 20
  {
    if total > 50 then GoodVisibility else if total > 20 then BuildingPresence else NeedsMarketing
  }

  /** Compares the positives and negatives among the first ten comments. */
  function TrendOf(cs: seq<Comment>): (t: Trend)
    ensures t == PositiveRising <==> LabelCount(Take(cs, 10), POSITIVE) > LabelCount(Take(cs, 10), NEGATIVE)
    ensures t == NegativeRising <==> LabelCount(Take(cs, 10), NEGATIVE) > LabelCount(Take(cs, 10), POSITIVE)
    ensures t == Stable <==> LabelCount(Take(cs, 10), POSITIVE) == LabelCount(Take(cs, 10), NEGATIVE)
  {
    var recent := Take(cs, 10);
    var positive, negative := LabelCount(recent, POSITIVE), LabelCount(recent, NEGATIVE);
    if positive > negative then PositiveRising
    else if negative > positive then NegativeRising
    else Stable
  }

  /** The positive share in percent over `Math.max(comments.length, 1)`. */
  function PositivePercent(cs: seq<Comment>): (p: real)
    ensures cs == [] ==> p == 0.0
    ensures 0.0 <= p <= 100.0
    ensures cs != [] ==> p == LabelCount(cs, POSITIVE) as real / |cs| as real * 100.0
  {
    LabelCountBounds(cs, POSITIVE);
    var n := if |cs| > 1 then |cs| else 1;
    QuotientInUnit(LabelCount(cs, POSITIVE) as real, n as real);
    LabelCount(cs, POSITIVE) as real / n as real * 100.0
  }

  /** The answer the router gives to a message. */
  function Respond(message: string, cs: seq<Comment>): (r: Reply)
    ensures Route(message) == SentimentTopic <==> r.SentimentReply?
    ensures Route(message) == MentionsTopic <==> r.MentionsReply?
    ensures Route(message) == ImproveTopic <==> r.ImproveReply?
    ensures Route(message) == TrendsTopic <==> r.TrendsReply?
    ensures Route(message) == OverviewTopic <==> r.OverviewReply?
    ensures r.SentimentReply? ==> r.avgSentiment == Mean(cs, SentimentScore) && r.verdict == Verdict(r.avgSentiment) &&
                                  r.positives == LabelCount(cs, POSITIVE) && r.negatives == LabelCount(cs, NEGATIVE)
    ensures r.MentionsReply? ==> r == MentionsReply(|cs|, VisibilityOf(|cs|))
    ensures r.ImproveReply? ==> (r.complaintAdvice <==> LabelCount(cs, NEGATIVE) > 0)
    ensures r.TrendsReply? ==> r.trend == TrendOf(cs) && r.mostMentioned == MostMentionedSource(cs)
    ensures r.OverviewReply? ==> r == OverviewReply(|cs|, PositivePercent(cs))
  {
    match Route(message)
    case SentimentTopic =>
      var avg := Mean(cs, SentimentScore);
      SentimentReply(avg, Verdict(avg), LabelCount(cs, POSITIVE), LabelCount(cs, NEGATIVE))
    case MentionsTopic => MentionsReply(|cs|, VisibilityOf(|cs|))
    case ImproveTopic => ImproveReply(LabelCount(cs, NEGATIVE) > 0)
    case TrendsTopic => TrendsReply(TrendOf(cs), MostMentionedSource(cs))
    case OverviewTopic => OverviewReply(|cs|, PositivePercent(cs))
  }

  /** The improvement branch gives complaint-handling advice exactly when
    * some comment is negative. */
  lemma ImproveAdviceIffNegative(message: string, cs: seq<Comment>)
    requires Route(message) == ImproveTopic
    ensures Respond(message, cs).complaintAdvice <==> exists c :: c in cs && c.sentimentLabel == NEGATIVE
  {
    LabelCountBounds(cs, NEGATIVE);
  }

  /** The trend only looks at the first ten comments. */
  lemma TrendUsesFirstTen(a: seq<Comment>, b: seq<Comment>)
    requires Take(a, 10) == Take(b, 10)
    ensures TrendOf(a) == TrendOf(b)
  {
  }

  /** The sentiment branch reports the mean score, 0 without comments,
    * and its positive and negative counts never exceed the mentions. */
  lemma SentimentReplyMeaning(message: string, cs: seq<Comment>)
    requires Route(message) == SentimentTopic
    ensures cs == [] ==> Respond(message, cs).avgSentiment == 0.0
    ensures cs != [] ==> Respond(message, cs).avgSentiment == Sum(cs, SentimentScore) / |cs| as real
    ensures Respond(message, cs).positives + Respond(message, cs).negatives <= |cs|
  {
    LabelCountIsCount(cs, POSITIVE);
    LabelCountIsCount(cs, NEGATIVE);
    CountDisjoint(cs, Labelled(POSITIVE), Labelled(NEGATIVE),
                  (c: Comment) => Labelled(POSITIVE)(c) || Labelled(NEGATIVE)(c));
  }

  // ------------------------------------------ the most mentioned source

  /** "Most mentions come from" interpolates the per-source count object
    * itself, which a template literal renders as the same text for any
    * comments. */
  function MostMentionedTextAsWritten(cs: seq<Comment>): (text: string)
    ensures |text| == 15
  {
    "[object Object]"
  }

  const GOOGLE_COMMENT: Comment :=
    Comment("1", None, "google", None, "", None, None, None, POSITIVE, 0.9, None)
  const FACEBOOK_COMMENT: Comment :=
    Comment("2", None, "facebook", None, "", None, None, None, POSITIVE, 0.9, None)

  /** Two comment lists whose most mentioned sources differ get the same
    * text. */
  lemma MostMentionedTextHidesSource()
    ensures MostMentionedSource([GOOGLE_COMMENT]) == Some("google")
    ensures MostMentionedSource([FACEBOOK_COMMENT]) == Some("facebook")
    ensures MostMentionedTextAsWritten([GOOGLE_COMMENT]) == MostMentionedTextAsWritten([FACEBOOK_COMMENT])
  {
    assert Sources([GOOGLE_COMMENT]) == ["google"];
    assert Sources([FACEBOOK_COMMENT]) == ["facebook"];
    assert Tally(["google"]) == [Entry("google", 1)];
    assert Tally(["facebook"]) == [Entry("facebook", 1)];
  }

  /** The source with the most comments, the first counted on a tie; none
    * without comments. */
  function MostMentionedSource(cs: seq<Comment>): Option<string> {
    var t := Tally(Sources(cs));
    if t == [] then None else Some(t[FirstMax(t, CountKey)].key)
  }

  /** The named source has comments, and no source has more. */
  lemma MostMentionedMeaning(cs: seq<Comment>)
    ensures MostMentionedSource(cs).None? <==> cs == []
    ensures MostMentionedSource(cs).Some? ==>
              Count(cs, FromSource(MostMentionedSource(cs).value)) > 0 &&
              forall c :: c in cs ==> Count(cs, FromSource(c.source)) <= Count(cs, FromSource(MostMentionedSource(cs).value))
  {
    var t := Tally(Sources(cs));
    TallyProps(Sources(cs));
    TallyCounts(Sources(cs));
    if t != [] {
      assert Sources(cs) != [] by {
        assert t[0].key in KeysOf(t);
      }
      var k := FirstMax(t, CountKey);
      var best := t[k].key;
      SourceMultiplicity(cs, best);
      forall c | c in cs ensures Count(cs, FromSource(c.source)) <= Count(cs, FromSource(best)) {
        var i :| 0 <= i < |cs| && cs[i] == c;
        assert Sources(cs)[i] == c.source;
        assert c.source in KeysOf(t);
        var j :| 0 <= j < |t| && KeysOf(t)[j] == c.source;
        assert CountKey(t[j]) <= CountKey(t[k]);
        SourceMultiplicity(cs, c.source);
      }
    }
  }

  // ------------------------------------------------------------ the chat

  datatype Sender = FromUser | FromAssistant

  datatype Content = Greeting | Said(text: string) | Answer(reply: Reply) | Apology

  /** A chat message; its id is the send time in milliseconds. */
  datatype Message = Message(id: int, sender: Sender, content: Content, timestamp: int)

  /** Every user message is answered by the assistant message right after it. */
  ghost predicate Conversation(ms: seq<Message>) {
    |ms| % 2 == 1 &&
    ms[0].sender == FromAssistant &&
    (forall i :: 0 <= i < |ms| / 2 ==> ms[2 * i + 1].sender == FromUser && ms[2 * i + 2].sender == FromAssistant)
  }

  /** Appending one message and then another appends the pair. */
  lemma SnocTwice(ms: seq<Message>, a: Message, b: Message)
    ensures ms + [a] + [b] == ms + [a, b]
  {
    assert (ms + [a] + [b])[|ms|] == a;
  }

  /** A question and its answer keep the conversation shape. */
  lemma ConversationExtend(ms: seq<Message>, question: Message, answer: Message)
    requires Conversation(ms) && question.sender == FromUser && answer.sender == FromAssistant
    ensures Conversation(ms + [question, answer])
  {
    var ext := ms + [question, answer];
    forall i | 0 <= i < |ext| / 2
      ensures ext[2 * i + 1].sender == FromUser && ext[2 * i + 2].sender == FromAssistant
    {
      if i < |ms| / 2 {
        assert ext[2 * i + 1] == ms[2 * i + 1] && ext[2 * i + 2] == ms[2 * i + 2];
      }
    }
  }

  class Chat {
    var messages: seq<Message>
    var inputValue: string

    ghost predicate Valid()
      reads this
    {
      Conversation(messages)
    }

    /** The chat opens with the assistant's greeting and an empty input. */
    constructor (now: int)
      ensures Valid()
      ensures messages == [Message(1, FromAssistant, Greeting, now)] && inputValue == ""
    {
      messages := [Message(1, FromAssistant, Greeting, now)];
      inputValue := "";
    }

    /** Typing changes only the input. */
    method SetInput(value: string)
      requires Valid()
      modifies this
      ensures Valid()
      ensures inputValue == value && messages == old(messages)
    {
      inputValue := value;
    }

    /** `handleSendMessage`: a blank input sends nothing. Otherwise the
      * trimmed input goes in as the user's message stamped `sentAt`, the
      * input is cleared, and the assistant's reply, or an apology when the
      * request `failed`, follows stamped `repliedAt` with id one past it. */
    method HandleSendMessage(cs: seq<Comment>, sentAt: int, repliedAt: int, failed: bool)
      requires Valid()
      modifies this
      ensures Valid()
      ensures IsBlank(old(inputValue)) ==> messages == old(messages) && inputValue == old(inputValue)
      ensures !IsBlank(old(inputValue)) ==> inputValue == "" && |messages| == |old(messages)| + 2
      ensures !IsBlank(old(inputValue)) ==>
                messages == old(messages) + [
                  Message(sentAt, FromUser, Said(Trim(old(inputValue))), sentAt),
                  Message(repliedAt + 1, FromAssistant,
                          if failed then Apology else Answer(Respond(Trim(old(inputValue)), cs)), repliedAt)]
    {
      TrimEmptyIffBlank(inputValue);
      if Trim(inputValue) == "" {
        return;
      }
      var question := Trim(inputValue);
      var userMessage := Message(sentAt, FromUser, Said(question), sentAt);
      ghost var before := messages;
      messages := messages + [userMessage];
      inputValue := "";
      var content := if failed then Apology else Answer(Respond(question, cs));
      var assistantMessage := Message(repliedAt + 1, FromAssistant, content, repliedAt);
      SnocTwice(before, userMessage, assistantMessage);
      ConversationExtend(before, userMessage, assistantMessage);
      messages := messages + [assistantMessage];
    }
  }
}
