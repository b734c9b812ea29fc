/** The emotion page: a fixed table turning a sentiment label and score
  * into eight emotion intensities, their mean over all comments, a
  * per-day emotion timeline, the distribution chart and the dominant
  * emotion. An emotion record is an eight-slot vector in the record's key
  * order. */
module EmotionAnalysis {
  import opened Seqs
  import opened Ranking
  import opened Domain
  import opened Storage

  const ADMIRATION: nat := 0
  const JOY: nat := 1
  const LOVE: nat := 2
  const ANGER: nat := 3
  const DISGUST: nat := 4
  const FEAR: nat := 5
  const SADNESS: nat := 6
  const SURPRISE: nat := 7
  const EMOTIONS: nat := 8

  const EMOTION_NAMES: seq<string> :=
    ["admiration", "joy", "love", "anger", "disgust", "fear", "sadness", "surprise"]

  const NONE_FELT: seq<real> := [0.0, 0.0, 0.0, 0.0, 0.0, 0.0, 0.0, 0.0]

  // ------------------------------------------------ per-comment emotions

  /** The rule table: how strongly emotion k is felt for a sentiment and score.
    * A strong positive (score above 0.8) is admiration 0.6, joy 0.8 and
    * love 0.4; another positive joy 0.6 and admiration 0.3; a strong
    * negative (score below 0.3) anger 0.7, disgust 0.5 and sadness 0.6;
    * another negative sadness 0.4 and anger 0.3; any other sentiment surprise
    * 0.2. Everything else is 0, and fear is never felt. */
  function Intensity(sentiment: string, score: real, k: nat): (x: real)
    ensures 0.0 <= x <= 0.8
    ensures k == FEAR ==> x == 0.0
    ensures x > 0.0 && sentiment == POSITIVE ==> k in {ADMIRATION, JOY, LOVE}
    ensures x > 0.0 && sentiment == NEGATIVE ==> k in {ANGER, DISGUST, SADNESS}
    ensures x > 0.0 && sentiment != POSITIVE && sentiment != NEGATIVE ==> k == SURPRISE
  {
    if sentiment == POSITIVE then
      if score > 0.8 then
        (if k == ADMIRATION then 0.6 else if k == JOY then 0.8 else if k == LOVE then 0.4 else 0.0)
      else
        (if k == JOY then 0.6 else if k == ADMIRATION then 0.3 else 0.0)
    else if sentiment == NEGATIVE then
      if score < 0.3 then
        (if k == ANGER then 0.7 else if k == DISGUST then 0.5 else if k == SADNESS then 0.6 else 0.0)
      else
        (if k == SADNESS then 0.4 else if k == ANGER then 0.3 else 0.0)
    else
      (if k == SURPRISE then 0.2 else 0.0)
  }

  /** `mapSentimentToEmotions(sentiment, score)`: starts from all zeros and sets
    * the fields of the matching branch. */
  method MapSentimentToEmotions(sentiment: string, score: real) returns (emotions: seq<real>)
    ensures |emotions| == EMOTIONS
    ensures forall k :: 0 <= k < EMOTIONS ==> emotions[k] == Intensity(sentiment, score, k)
  {
    emotions := NONE_FELT;
    if sentiment == POSITIVE {
      if score > 0.8 {
        emotions := emotions[ADMIRATION := 0.6];
        emotions := emotions[JOY := 0.8];
        emotions := emotions[LOVE := 0.4];
      } else {
        emotions := emotions[JOY := 0.6];
        emotions := emotions[ADMIRATION := 0.3];
      }
    } else if sentiment == NEGATIVE {
      if score < 0.3 {
        emotions := emotions[ANGER := 0.7];
        emotions := emotions[DISGUST := 0.5];
        emotions := emotions[SADNESS := 0.6];
      } else {
        emotions := emotions[SADNESS := 0.4];
        emotions := emotions[ANGER := 0.3];
      }
    } else {
      emotions := emotions[SURPRISE := 0.2];
    }
  }

  function IntensityOf(k: nat): Comment -> real {
    (c: Comment) => Intensity(c.sentimentLabel, c.sentimentScore, k)
  }

  // ---------------------------------------------------------- aggregate

  /** `aggregateEmotions()`: adds up every comment's emotions, then divides
    * each total by the comment count when there are comments. Each result
    * is the mean intensity of that emotion over the comments, 0 when there
    * are none. */
  method AggregateEmotions(cs: seq<Comment>) returns (totals: seq<real>)
    ensures |totals| == EMOTIONS
    ensures forall k :: 0 <= k < EMOTIONS ==> totals[k] == Mean(cs, IntensityOf(k))
  {
    totals := NONE_FELT;
    var i := 0;
    while i < |cs|
      invariant 0 <= i <= |cs| && |totals| == EMOTIONS
      invariant forall k :: 0 <= k < EMOTIONS ==> totals[k] == Sum(cs[..i], IntensityOf(k))
    {
      var emotions := MapSentimentToEmotions(cs[i].sentimentLabel, cs[i].sentimentScore);
      assert cs[..i + 1][..i] == cs[..i];
      var k := 0;
      while k < EMOTIONS
        invariant 0 <= k <= EMOTIONS && |totals| == EMOTIONS
        invariant forall j :: 0 <= j < k ==> totals[j] == Sum(cs[..i + 1], IntensityOf(j))
        invariant forall j :: k <= j < EMOTIONS ==> totals[j] == Sum(cs[..i], IntensityOf(j))
      {
        totals := totals[k := totals[k] + emotions[k]];
        k := k + 1;
      }
      i := i + 1;
    }
    assert cs[..i] == cs;
    if |cs| > 0 {
      var k := 0;
      while k < EMOTIONS
        invariant 0 <= k <= EMOTIONS && |totals| == EMOTIONS
        invariant forall j :: 0 <= j < k ==> totals[j] == Sum(cs, IntensityOf(j)) / |cs| as real
        invariant forall j :: k <= j < EMOTIONS ==> totals[j] == Sum(cs, IntensityOf(j))
      {
        totals := totals[k := totals[k] / |cs| as real];
        k := k + 1;
      }
    }
  }

  /** Every mean intensity lies in [0, 0.8], and fear's is always 0. */
  lemma AggregateBounds(cs: seq<Comment>, k: nat)
    ensures 0.0 <= Mean(cs, IntensityOf(k)) <= 0.8
    ensures Mean(cs, IntensityOf(FEAR)) == 0.0
  {
    if cs != [] {
      MeanBounds(cs, IntensityOf(k), 0.0, 0.8);
      MeanBounds(cs, IntensityOf(FEAR), 0.0, 0.0);
    }
  }

  predicate OtherLabel(c: Comment) {
    c.sentimentLabel != POSITIVE && c.sentimentLabel != NEGATIVE
  }

  predicate StrongPositive(c: Comment) {
    c.sentimentLabel == POSITIVE && c.sentimentScore > 0.8
  }

  /** Surprise comes only from comments that are neither positive nor
    * negative, 0.2 each. */
  lemma {:induction false} SurpriseCount(cs: seq<Comment>)
    ensures Sum(cs, IntensityOf(SURPRISE)) == 0.2 * Count(cs, OtherLabel) as real
  {
    if cs != [] {
      var init, last := cs[..|cs| - 1], cs[|cs| - 1];
      assert cs == init + [last];
      SurpriseCount(init);
      CountAppend(init, last, OtherLabel);
      var x := IntensityOf(SURPRISE)(last);
      assert x == if OtherLabel(last) then 0.2 else 0.0;
      assert Sum(cs, IntensityOf(SURPRISE)) == Sum(init, IntensityOf(SURPRISE)) + x;
    }
  }

  /** Love comes only from strong positives, 0.4 each. */
  lemma {:induction false} LoveCount(cs: seq<Comment>)
    ensures Sum(cs, IntensityOf(LOVE)) == 0.4 * Count(cs, StrongPositive) as real
  {
    if cs != [] {
      var init, last := cs[..|cs| - 1], cs[|cs| - 1];
      assert cs == init + [last];
      LoveCount(init);
      CountAppend(init, last, StrongPositive);
      var x := IntensityOf(LOVE)(last);
      assert x == if StrongPositive(last) then 0.4 else 0.0;
      assert Sum(cs, IntensityOf(LOVE)) == Sum(init, IntensityOf(LOVE)) + x;
    }
  }

  // ----------------------------------------------------------- timeline

  function Max0(x: real): real {
    if x > 0.0 then x else 0.0
  }

  /** One day of the emotion timeline, in percent. */
  datatype EmotionPoint = EmotionPoint(
    day: int, joy: real, admiration: real, anger: real, sadness: real, love: real, fear: real)

  /** The emotions of a day read off its mean score: joy above 0.5,
    * admiration above 0.7, anger below 0.5, sadness below 0.3; love is
    * 0.6 of joy and fear half of anger. */
  function TimelinePoint(s: Snapshot): (p: EmotionPoint)
    ensures p.day == s.day
    ensures p.joy >= 0.0 && p.admiration >= 0.0 && p.anger >= 0.0 && p.sadness >= 0.0 && p.love >= 0.0 && p.fear >= 0.0
    ensures p.joy > 0.0 <==> s.avgScore > 0.5
    ensures p.anger > 0.0 <==> s.avgScore < 0.5
    ensures p.admiration > 0.0 <==> s.avgScore > 0.7
    ensures p.sadness > 0.0 <==> s.avgScore < 0.3
    ensures p.love == 0.6 * p.joy && p.fear == 0.5 * p.anger
  {
    var joy := Max0(s.avgScore - 0.5) * 2.0;
    var admiration := Max0(s.avgScore - 0.7) * 3.0;
    var anger := Max0(0.5 - s.avgScore) * 2.0;
    var sadness := Max0(0.3 - s.avgScore) * 3.0;
    var love := joy * 0.6;
    var fear := anger * 0.5;
    EmotionPoint(s.day, joy * 100.0, admiration * 100.0, anger * 100.0, sadness * 100.0, love * 100.0, fear * 100.0)
  }

  function Timeline(snapshots: seq<Snapshot>): (t: seq<EmotionPoint>)
    ensures |t| == |snapshots|
    ensures forall i :: 0 <= i < |t| ==> t[i] == TimelinePoint(snapshots[i])
  {
    seq(|snapshots|, i requires 0 <= i < |snapshots| => TimelinePoint(snapshots[i]))
  }

  /** No day shows joy and anger at once. */
  lemma JoyAndAngerExclusive(snapshots: seq<Snapshot>, i: nat)
    requires i < |snapshots|
    ensures !(Timeline(snapshots)[i].joy > 0.0 && Timeline(snapshots)[i].anger > 0.0)
  {
    var p := Timeline(snapshots)[i];
    assert p == TimelinePoint(snapshots[i]);
  }

  // ------------------------------------------------------- distribution

  datatype Slice = Slice(name: string, value: real, color: string)

  /** The six charted emotions in chart order, in percent; disgust and
    * surprise are not charted. */
  function Candidates(totals: seq<real>): (r: seq<Slice>)
    requires |totals| == EMOTIONS
    ensures |r| == 6
  {
    [ Slice("Joy", totals[JOY] * 100.0, "#10B981"),
      Slice("Admiration", totals[ADMIRATION] * 100.0, "#3B82F6"),
      Slice("Love", totals[LOVE] * 100.0, "#EC4899"),
      Slice("Anger", totals[ANGER] * 100.0, "#EF4444"),
      Slice("Sadness", totals[SADNESS] * 100.0, "#6B7280"),
      Slice("Fear", totals[FEAR] * 100.0, "#7C3AED") ]
  }

  function IsFelt(s: Slice): bool {
    s.value > 0.0
  }

  /** `emotionDistribution`: the charted emotions with a positive value. */
  function Distribution(totals: seq<real>): (r: seq<Slice>)
    requires |totals| == EMOTIONS
    ensures forall s :: s in r ==> s.value > 0.0 && s in Candidates(totals)
    ensures forall s :: s in Candidates(totals) && s.value > 0.0 ==> s in r
  {
    Filter(Candidates(totals), IsFelt)
  }

  /** Over the aggregated totals fear never makes it into the chart. */
  lemma FearNeverCharted(cs: seq<Comment>, totals: seq<real>)
    requires |totals| == EMOTIONS && totals[FEAR] == Mean(cs, IntensityOf(FEAR))
    ensures forall s :: s in Distribution(totals) ==> s.name != "Fear"
  {
    AggregateBounds(cs, FEAR);
    NoFearSlice(totals);
  }

  /** A zero fear total leaves fear out of the chart. */
  lemma NoFearSlice(totals: seq<real>)
    requires |totals| == EMOTIONS && totals[FEAR] == 0.0
    ensures forall s :: s in Distribution(totals) ==> s.name != "Fear"
  {
    FearCandidateZero(totals);
  }

  /** The fear candidate carries the fear total. */
  lemma FearCandidateZero(totals: seq<real>)
    requires |totals| == EMOTIONS && totals[FEAR] == 0.0
    ensures forall s :: s in Candidates(totals) && s.name == "Fear" ==> s.value == 0.0
  {
    var cands := Candidates(totals);
    assert "Love"[0] != "Fear"[0];
    forall s | s in cands && s.name == "Fear" ensures s.value == 0.0 {
      var i :| 0 <= i < 6 && cands[i] == s;
    }
  }

  /** Love is charted exactly when some comment is a strong positive. */
  lemma LoveCharted(cs: seq<Comment>, totals: seq<real>)
    requires |totals| == EMOTIONS && totals[LOVE] == Mean(cs, IntensityOf(LOVE))
    ensures Slice("Love", totals[LOVE] * 100.0, "#EC4899") in Distribution(totals) <==>
              Count(cs, StrongPositive) > 0
  {
    assert Candidates(totals)[2] == Slice("Love", totals[LOVE] * 100.0, "#EC4899");
    LoveCount(cs);
    if cs != [] {
      QuotientSign(Sum(cs, IntensityOf(LOVE)), |cs| as real);
    }
  }

  lemma QuotientSign(x: real, n: real)
    requires n > 0.0
    ensures x / n > 0.0 <==> x > 0.0
  {
    assert x / n * n == x;
  }

  // ---------------------------------------------------- dominant emotion

  datatype EmotionValue = EmotionValue(emotion: string, value: real)

  const NO_EMOTION: EmotionValue := EmotionValue("neutral", 0.0)

  function ValueOf(e: EmotionValue): real {
    e.value
  }

  /** `Object.entries(emotionTotals)` */
  function Entries(totals: seq<real>): (es: seq<EmotionValue>)
    requires |totals| == EMOTIONS
    ensures |es| == EMOTIONS
    ensures forall k :: 0 <= k < EMOTIONS ==> es[k] == EmotionValue(EMOTION_NAMES[k], totals[k])
  {
    seq(EMOTIONS, k requires 0 <= k < EMOTIONS => EmotionValue(EMOTION_NAMES[k], totals[k]))
  }

  /** `entries.reduce((max, e) => e.value > max.value ? e : max, {neutral, 0})` */
  function Dominant(es: seq<EmotionValue>): EmotionValue {
    if es == [] then NO_EMOTION
    else
      var best := Dominant(es[..|es| - 1]);
      if es[|es| - 1].value > best.value then es[|es| - 1] else best
  }

  /** The dominant emotion is "neutral" with 0 unless some value is
    * positive; then it is the first entry attaining the largest value. */
  lemma {:induction false} DominantMeaning(es: seq<EmotionValue>)
    ensures (forall i :: 0 <= i < |es| ==> es[i].value <= 0.0) ==> Dominant(es) == NO_EMOTION
    ensures (exists i :: 0 <= i < |es| && es[i].value > 0.0) ==> Dominant(es) == es[FirstMax(es, ValueOf)]
  {
    if es != [] {
      var init, last := es[..|es| - 1], es[|es| - 1];
      DominantMeaning(init);
      if forall i :: 0 <= i < |init| ==> init[i].value <= 0.0 {
        if last.value > 0.0 {
          assert FirstMax(es, ValueOf) == |es| - 1 by {
            if |es| > 1 {
              assert es[FirstMax(init, ValueOf)] == init[FirstMax(init, ValueOf)];
            }
          }
        } else {
          assert forall i :: 0 <= i < |es| ==> es[i].value <= 0.0 by {
            forall i | 0 <= i < |es| ensures es[i].value <= 0.0 {
              if i < |init| { assert es[i] == init[i]; }
            }
          }
        }
      } else {
        var j :| 0 <= j < |init| && init[j].value > 0.0;
        assert es[j] == init[j];
        assert |es| > 1;
        assert es[FirstMax(init, ValueOf)] == init[FirstMax(init, ValueOf)];
      }
    }
  }

  /** The page's dominant emotion over the aggregated totals. */
  function DominantEmotion(totals: seq<real>): EmotionValue
    requires |totals| == EMOTIONS
  {
    Dominant(Entries(totals))
  }

  /** "neutral" when no emotion is felt; otherwise one of the eight
    * emotions, with the largest total. */
  lemma DominantEmotionMeaning(totals: seq<real>)
    requires |totals| == EMOTIONS
    ensures (forall k :: 0 <= k < EMOTIONS ==> totals[k] <= 0.0) ==> DominantEmotion(totals) == NO_EMOTION
    ensures (exists k :: 0 <= k < EMOTIONS && totals[k] > 0.0) ==>
              DominantEmotion(totals).emotion in EMOTION_NAMES &&
              forall k :: 0 <= k < EMOTIONS ==> totals[k] <= DominantEmotion(totals).value
  {
    var es := Entries(totals);
    DominantMeaning(es);
    if exists k :: 0 <= k < EMOTIONS && totals[k] > 0.0 {
      var k :| 0 <= k < EMOTIONS && totals[k] > 0.0;
      assert es[k].value > 0.0;
      var m := FirstMax(es, ValueOf);
      assert es[m].emotion == EMOTION_NAMES[m];
      assert forall j :: 0 <= j < EMOTIONS ==> ValueOf(es[j]) == totals[j];
    } else {
      assert forall j :: 0 <= j < EMOTIONS ==> es[j].value == totals[j];
    }
  }
}
