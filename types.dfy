/** The shared display helpers and constant tables of the client: time
  * ranges, sources, sentiment options, the colour of a sentiment badge, the
  * influence level, the short form of large numbers and the "time ago"
  * wording. Numbers are kept as values: rendering digits as text is not
  * modelled, so each helper returns which form it chose and the number it
  * shows. */
module Types {
  import opened Optional
  import opened Seqs
  import opened Domain
  import opened Storage

  // ------------------------------------------------------------ constants

  datatype TimeRange = TimeRange(rangeLabel: string, value: string, days: nat)
  datatype GroupOption = GroupOption(groupLabel: string, value: string)
  datatype SourceOption = SourceOption(sourceLabel: string, value: string, icon: string)
  datatype SentimentOption = SentimentOption(sentimentLabel: string, value: string, color: string)

  const TIME_RANGES: seq<TimeRange> := [
    TimeRange("Last 24h", "1d", 1),
    TimeRange("Last 7d", "7d", 7),
    TimeRange("Last 30d", "30d", 30),
    TimeRange("Custom", "custom", 0)
  ]

  const GROUP_OPTIONS: seq<GroupOption> := [
    GroupOption("Days", "day"),
    GroupOption("Weeks", "week"),
    GroupOption("Months", "month")
  ]

  const SOURCES: seq<SourceOption> := [
    SourceOption("Google Reviews", "google", "fab fa-google"),
    SourceOption("Facebook", "facebook", "fab fa-facebook"),
    SourceOption("X (Twitter)", "x", "fab fa-x-twitter"),
    SourceOption("Instagram", "instagram", "fab fa-instagram"),
    SourceOption("TikTok", "tiktok", "fab fa-tiktok"),
    SourceOption("News", "news", "fas fa-newspaper"),
    SourceOption("Blogs", "blog", "fas fa-blog"),
    SourceOption("Videos", "video", "fas fa-video"),
    SourceOption("Podcasts", "podcast", "fas fa-podcast"),
    SourceOption("Manual", "manual", "fas fa-edit"),
    SourceOption("Other", "other", "fas fa-globe")
  ]

  const SENTIMENT_OPTIONS: seq<SentimentOption> := [
    SentimentOption("Positive", POSITIVE, "text-green-600"),
    SentimentOption("Neutral", NEUTRAL, "text-yellow-600"),
    SentimentOption("Negative", NEGATIVE, "text-red-600")
  ]

  function SourceValues(): (vs: seq<string>)
    ensures |vs| == |SOURCES|
    ensures forall i :: 0 <= i < |vs| ==> vs[i] == SOURCES[i].value
  {
    seq(|SOURCES|, i requires 0 <= i < |SOURCES| => SOURCES[i].value)
  }

  /** Eleven sources with distinct values, and exactly the three labels as
    * sentiment options, in the order positive, neutral, negative. */
  lemma TablesWellFormed()
    ensures |SOURCES| == 11 && Distinct(SourceValues())
    ensures |SENTIMENT_OPTIONS| == 3
    ensures SENTIMENT_OPTIONS[0].value == POSITIVE && SENTIMENT_OPTIONS[1].value == NEUTRAL &&
            SENTIMENT_OPTIONS[2].value == NEGATIVE
    ensures |TIME_RANGES| == 4
    ensures TIME_RANGES[0].days == 1 && TIME_RANGES[1].days == 7 && TIME_RANGES[2].days == 30 &&
            TIME_RANGES[3].days == 0
  {
    var vs := SourceValues();
    assert vs == ["google", "facebook", "x", "instagram", "tiktok", "news", "blog", "video", "podcast", "manual", "other"];
  }

  /** The server's snapshot range agrees with the day counts of the fixed
    * ranges; "custom" (0 days here) falls to the server's 30-day default. */
  lemma TimeRangesMatchServer()
    ensures forall i :: 0 <= i < 3 ==> RangeDays(Some(TIME_RANGES[i].value)) == TIME_RANGES[i].days
    ensures RangeDays(Some(TIME_RANGES[3].value)) == 30
  {
  }

  // ------------------------------------------------------------- helpers

  const GREEN_BADGE: string := "bg-green-100 text-green-800 border-green-200"
  const RED_BADGE: string := "bg-red-100 text-red-800 border-red-200"
  const YELLOW_BADGE: string := "bg-yellow-100 text-yellow-800 border-yellow-200"

  /** `getSentimentColor(sentiment, score?)`: the badge classes of a label. */
  function SentimentColor(sentiment: string, score: Option<real>): (cls: string)
    ensures cls == GREEN_BADGE <==> sentiment == POSITIVE
    ensures cls == RED_BADGE <==> sentiment == NEGATIVE
    ensures cls == YELLOW_BADGE <==> sentiment != POSITIVE && sentiment != NEGATIVE
  {
    if sentiment == POSITIVE then GREEN_BADGE
    else if sentiment == NEGATIVE then RED_BADGE
    else YELLOW_BADGE
  }

  /** The score argument is never consulted. */
  lemma SentimentColorIgnoresScore(sentiment: string, a: Option<real>, b: Option<real>)
    ensures SentimentColor(sentiment, a) == SentimentColor(sentiment, b)
  {
  }

  /** `getInfluenceLevel(influence)` */
  function InfluenceLevel(influence: real): (level: string)
    ensures level == "High" <==> influence >= 8.0
    ensures level == "Medium" <==> 5.0 <= influence < 8.0
    ensures level == "Low" <==> influence < 5.0
  {
    if influence >= 8.0 then "High"
    else if influence >= 5.0 then "Medium"
    else "Low"
  }

  /** A higher influence never gets a lower level. */
  lemma InfluenceLevelMonotone(a: real, b: real)
    requires a <= b
    ensures Rank(InfluenceLevel(a)) <= Rank(InfluenceLevel(b))
  {
  }

  function Rank(level: string): nat {
    if level == "High" then 2 else if level == "Medium" then 1 else 0
  }

  /** `x.toFixed(1)` for x >= 0, as a count of tenths: the nearest tenth,
    * halves rounding up. */
  function Tenths(x: real): (t: int)
    requires x >= 0.0
    ensures t >= 0
    ensures (t as real) - 0.5 <= x * 10.0 < (t as real) + 0.5
  {
    (x * 10.0 + 0.5).Floor
  }

  /** What `formatNumber` shows: a scaled value in tenths with a suffix, or
    * the number itself. */
  datatype NumberText = Scaled(tenths: int, suffix: string) | Plain(value: real)

  /** `formatNumber(num)` as written (types.ts:91-99): the suffix is chosen
    * before rounding. */
  function FormatNumberAsWritten(num: real): (t: NumberText)
    ensures t.Scaled? && t.suffix == "M" <==> num >= 1000000.0
    ensures t.Scaled? && t.suffix == "K" <==> 1000.0 <= num < 1000000.0
    ensures t.Plain? <==> num < 1000.0
    ensures t.Plain? ==> t.value == num
    ensures t.Scaled? && t.suffix == "K" ==> 10 <= t.tenths <= 10000
    ensures t.Scaled? && t.suffix == "M" ==> t.tenths >= 10
  {
    if num >= 1000000.0 then Scaled(Tenths(num / 1000000.0), "M")
    else if num >= 1000.0 then Scaled(Tenths(num / 1000.0), "K")
    else Plain(num)
  }

  /** Just below one million the "K" form rounds up to 1000.0K. */
  lemma FormatNumberShowsThousandK()
    ensures FormatNumberAsWritten(999999.0) == Scaled(10000, "K")
  {
    assert Tenths(999999.0 / 1000.0) == 10000;
  }

  /** `formatNumber(num)`, with the suffix chosen on the rounded value, so a
    * "K" form never reaches 1000.0K: from 999,950 on the number shows as 1.0M. */
  function FormatNumber(num: real): (t: NumberText)
    ensures t.Scaled? && t.suffix == "M" <==> num >= 999950.0
    ensures t.Scaled? && t.suffix == "K" <==> 1000.0 <= num < 999950.0
    ensures t.Plain? <==> num < 1000.0
    ensures t.Plain? ==> t.value == num
    ensures t.Scaled? && t.suffix == "K" ==> 10 <= t.tenths < 10000
    ensures t.Scaled? && t.suffix == "M" ==> t.tenths >= 10
  {
    if num >= 999950.0 then Scaled(Tenths(num / 1000000.0), "M")
    else if num >= 1000.0 then Scaled(Tenths(num / 1000.0), "K")
    else Plain(num)
  }

  /** The two agree everywhere except on [999,950, 1,000,000). */
  lemma FormatNumberAgrees(num: real)
    requires num < 999950.0 || num >= 1000000.0
    ensures FormatNumber(num) == FormatNumberAsWritten(num)
  {
  }

  /** What `getRelativeTime` shows. */
  datatype RelativeTime = MinutesAgo(minutes: int) | HoursAgo(hours: int) | DaysAgo(days: int) | CalendarDate

  /** `getRelativeTime(date)` with `diffMs = now - then` in milliseconds.
    * `Math.floor` of a quotient by a positive constant is Dafny's `/`. */
  function GetRelativeTime(diffMs: int): (t: RelativeTime)
    ensures t.MinutesAgo? <==> diffMs / MS_PER_HOUR < 1
    ensures t.HoursAgo? <==> 1 <= diffMs / MS_PER_HOUR < 24
    ensures t.DaysAgo? <==> diffMs / MS_PER_HOUR >= 24 && (diffMs / MS_PER_HOUR) / 24 < 7
    ensures t.CalendarDate? <==> (diffMs / MS_PER_HOUR) / 24 >= 7
    ensures t.MinutesAgo? ==> t.minutes == diffMs / MS_PER_MINUTE
    ensures t.HoursAgo? ==> t.hours == diffMs / MS_PER_HOUR
    ensures t.DaysAgo? ==> t.days == (diffMs / MS_PER_HOUR) / 24
  {
    var diffHours := diffMs / MS_PER_HOUR;
    var diffDays := diffHours / 24;
    if diffHours < 1 then MinutesAgo(diffMs / MS_PER_MINUTE)
    else if diffHours < 24 then HoursAgo(diffHours)
    else if diffDays < 7 then DaysAgo(diffDays)
    else CalendarDate
  }

  /** The same buckets stated on the elapsed milliseconds: under an hour,
    * under a day, under a week, and older; each count stays in its range. */
  lemma RelativeTimeThresholds(diffMs: int)
    ensures GetRelativeTime(diffMs).MinutesAgo? <==> diffMs < 3600000
    ensures GetRelativeTime(diffMs).HoursAgo? <==> 3600000 <= diffMs < 86400000
    ensures GetRelativeTime(diffMs).DaysAgo? <==> 86400000 <= diffMs < 604800000
    ensures GetRelativeTime(diffMs).CalendarDate? <==> diffMs >= 604800000
    ensures GetRelativeTime(diffMs).MinutesAgo? && diffMs >= 0 ==> 0 <= GetRelativeTime(diffMs).minutes < 60
    ensures GetRelativeTime(diffMs).HoursAgo? ==> 1 <= GetRelativeTime(diffMs).hours < 24
    ensures GetRelativeTime(diffMs).DaysAgo? ==> 1 <= GetRelativeTime(diffMs).days < 7
  {
    var h := diffMs / MS_PER_HOUR;
    assert h < 1 <==> diffMs < 3600000;
    assert h < 24 <==> diffMs < 86400000;
    assert h / 24 < 7 <==> h < 168;
    assert h < 168 <==> diffMs < 604800000;
  }
}
