/** The influencer analysis page: on top of the influencer figures, the
  * share of each author's comments from the last week as a growth figure,
  * the rising and trending flags, and the three ranked lists. `Date.now()`
  * is the parameter `now`. */
module InfluencerAnalysis {
  import opened Seqs
  import opened Ranking
  import opened Domain
  import opened Influencers
  import TopicAnalysis

  datatype AnalysisStat = AnalysisStat(
    base: InfluencerStat,
    recentMentions: nat,
    influenceGrowth: real,
    isRising: bool,
    isTrending: bool)

  function RecentAt(now: int): Comment -> bool {
    (c: Comment) => TopicAnalysis.IsRecent(c, now)
  }

  /** `mentions > 0 ? (recentMentions / mentions) * 100 - 50 : 0` */
  function Growth(recent: nat, mentions: nat): (g: real)
    ensures mentions == 0 ==> g == 0.0
    ensures 0 < mentions && recent <= mentions ==> -50.0 <= g <= 50.0
    ensures 0 < mentions ==> g == (recent as real / mentions as real) * 100.0 - 50.0
  {
    if mentions > 0 then
      QuotientInUnit(recent as real, mentions as real);
      (recent as real / mentions as real) * 100.0 - 50.0
    else 0.0
  }


  /** The figures of one author on this page. */
  function AnalysisOf(a: Author, cs: seq<Comment>, now: int): (s: AnalysisStat)
    ensures s.base == StatOf(a, cs)
    ensures s.recentMentions == Count(Filter(cs, WrittenBy(a.id)), RecentAt(now)) <= s.base.mentions
    ensures s.influenceGrowth == Growth(s.recentMentions, s.base.mentions)
    ensures s.isRising <==> s.influenceGrowth > 10.0
    ensures s.isTrending <==> s.base.mentions >= 3 && s.base.avgInfluence >= 7.0
  {
    var base := StatOf(a, cs);
    var recent := Count(Filter(cs, WrittenBy(a.id)), RecentAt(now));
    var growth := Growth(recent, base.mentions);
    AnalysisStat(base, recent, growth, growth > 10.0, base.mentions >= 3 && base.avgInfluence >= 7.0)
  }

  /** The growth lies in [-50, 50], is 0 without comments, and an author is
    * rising exactly when more than 60% of its comments are from the last
    * week. */
  lemma {:induction false} GrowthMeaning(a: Author, cs: seq<Comment>, now: int)
    ensures -50.0 <= AnalysisOf(a, cs, now).influenceGrowth <= 50.0
    ensures AnalysisOf(a, cs, now).base.mentions == 0 ==> AnalysisOf(a, cs, now).influenceGrowth == 0.0
    ensures AnalysisOf(a, cs, now).isRising <==>
              AnalysisOf(a, cs, now).base.mentions > 0 &&
              AnalysisOf(a, cs, now).recentMentions as real > 0.6 * AnalysisOf(a, cs, now).base.mentions as real
  {
    var s := AnalysisOf(a, cs, now);
    if s.base.mentions > 0 {
      RisingThreshold(s.recentMentions, s.base.mentions);
    }
  }

  lemma RisingThreshold(recent: nat, mentions: nat)
    requires 0 < mentions
    ensures Growth(recent, mentions) > 10.0 <==> recent as real > 0.6 * mentions as real
  {
    var n := mentions as real;
    var q := recent as real / n;
    assert q * n == recent as real;
    if q > 0.6 {
      var d := q - 0.6;
      assert d * n > 0.0;
      assert q * n == 0.6 * n + d * n;
    } else {
      var d := 0.6 - q;
      assert d * n >= 0.0;
      assert q * n == 0.6 * n - d * n;
    }
  }

  /** `influencerStats`: one entry per author. */
  function AnalysisStats(authors: seq<Author>, cs: seq<Comment>, now: int): (stats: seq<AnalysisStat>)
    ensures |stats| == |authors|
    ensures forall i :: 0 <= i < |stats| ==> stats[i] == AnalysisOf(authors[i], cs, now)
  {
    seq(|authors|, i requires 0 <= i < |authors| => AnalysisOf(authors[i], cs, now))
  }

  // -------------------------------------------------------- ranked lists

  function InfluenceKey(s: AnalysisStat): real {
    s.base.avgInfluence
  }

  function GrowthKey(s: AnalysisStat): real {
    s.influenceGrowth
  }

  function EngagementKey(s: AnalysisStat): real {
    s.base.engagementRate
  }

  function Rising(s: AnalysisStat): bool {
    s.isRising
  }

  /** `topInfluencers`: the ten highest average influences, from a sorted copy. */
  function TopInfluencers(stats: seq<AnalysisStat>): seq<AnalysisStat> {
    Take(SortDesc(stats, InfluenceKey), 10)
  }

  /** `risingInfluencers`: the rising authors by growth, the first five. */
  function RisingInfluencers(stats: seq<AnalysisStat>): seq<AnalysisStat> {
    Take(SortDesc(Filter(stats, Rising), GrowthKey), 5)
  }

  /** `engagementLeaders`: the five highest engagement rates. */
  function EngagementLeaders(stats: seq<AnalysisStat>): seq<AnalysisStat> {
    Take(SortDesc(stats, EngagementKey), 5)
  }

  /** At most ten, highest average influence first, and no author left out
    * has a higher average influence than one shown. */
  lemma {:induction false} TopInfluencersMeaning(stats: seq<AnalysisStat>)
    ensures |TopInfluencers(stats)| <= 10
    ensures SortedDesc(TopInfluencers(stats), InfluenceKey)
    ensures forall x :: x in TopInfluencers(stats) ==> x in stats
    ensures forall x, y :: x in stats && x !in TopInfluencers(stats) && y in TopInfluencers(stats) ==>
              y.base.avgInfluence >= x.base.avgInfluence
  {
    TopDominates(stats, InfluenceKey, 10);
    SortDescMembers(stats, InfluenceKey);
  }

  /** At most five, all rising, highest growth first, and no rising author
    * left out grows faster than one shown. */
  lemma {:induction false} RisingInfluencersMeaning(stats: seq<AnalysisStat>)
    ensures |RisingInfluencers(stats)| <= 5
    ensures SortedDesc(RisingInfluencers(stats), GrowthKey)
    ensures forall x :: x in RisingInfluencers(stats) ==> x in stats && x.isRising
    ensures forall x, y :: x in stats && x.isRising && x !in RisingInfluencers(stats) && y in RisingInfluencers(stats) ==>
              y.influenceGrowth >= x.influenceGrowth
  {
    var rising := Filter(stats, Rising);
    TopDominates(rising, GrowthKey, 5);
    TopMembers(rising, GrowthKey, 5);
  }

  /** At most five, highest engagement first, and no author left out has a
    * higher engagement rate than one shown. */
  lemma {:induction false} EngagementLeadersMeaning(stats: seq<AnalysisStat>)
    ensures |EngagementLeaders(stats)| <= 5
    ensures SortedDesc(EngagementLeaders(stats), EngagementKey)
    ensures forall x :: x in EngagementLeaders(stats) ==> x in stats
    ensures forall x, y :: x in stats && x !in EngagementLeaders(stats) && y in EngagementLeaders(stats) ==>
              y.base.engagementRate >= x.base.engagementRate
  {
    TopDominates(stats, EngagementKey, 5);
    TopMembers(stats, EngagementKey, 5);
  }

  // ------------------------------------------------------------ overview

  function HighInfluence(s: AnalysisStat): bool {
    s.base.avgInfluence >= 8.0
  }

  function TotalReach(s: AnalysisStat): real {
    s.base.reach
  }

  datatype AnalysisOverview = AnalysisOverview(totalInfluencers: nat, highInfluence: nat, risingCount: nat, totalReach: real)

  /** The overview cards: all authors, those with average influence of at
    * least 8, the rising ones shown (at most five), and the summed reach. */
  function OverviewOf(stats: seq<AnalysisStat>): (o: AnalysisOverview)
    ensures o.totalInfluencers == |stats|
    ensures o.highInfluence == Count(stats, HighInfluence)
    ensures o.risingCount == if Count(stats, Rising) <= 5 then Count(stats, Rising) else 5
    ensures o.totalReach == Sum(stats, TotalReach)
  {
    AnalysisOverview(|stats|, Count(stats, HighInfluence), |RisingInfluencers(stats)|, Sum(stats, TotalReach))
  }
}
