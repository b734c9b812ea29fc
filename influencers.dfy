/** The influencers page: per-author mention, sentiment, influence, reach
  * and engagement figures, the name/handle search, the sort selector, the
  * page's influence levels and the overview cards. */
module Influencers {
  import opened Optional
  import opened Seqs
  import opened Ranking
  import opened Text
  import opened Domain
  import Types

  datatype InfluencerStat = InfluencerStat(
    author: Author,
    mentions: nat,
    avgSentiment: real,
    avgInfluence: real,
    reach: real,
    engagementRate: real)

  function SentimentScore(c: Comment): real {
    c.sentimentScore
  }

  /** `c.influence || 0` */
  function Influence(c: Comment): real {
    InfluenceOr0(c) as real
  }

  /** `author.followers || 0` */
  function Followers(a: Author): int {
    a.followers.GetOr(0)
  }

  /** `author.followers ? (mentions / author.followers) * 100 : 0` */
  function EngagementRate(a: Author, mentions: nat): (rate: real)
    ensures a.followers.None? || a.followers.value == 0 ==> rate == 0.0
    ensures a.followers.Some? && a.followers.value > 0 ==> rate >= 0.0
    ensures a.followers.Some? && a.followers.value != 0 ==>
              rate == (mentions as real / a.followers.value as real) * 100.0
  {
    if a.followers.Some? && a.followers.value != 0 then
      (mentions as real / a.followers.value as real) * 100.0
    else 0.0
  }

  /** The figures of one author over the comments carrying its id. */
  function StatOf(a: Author, cs: seq<Comment>): (s: InfluencerStat)
    ensures s.author == a
    ensures s.mentions == Count(cs, WrittenBy(a.id))
    ensures s.avgSentiment == Mean(Filter(cs, WrittenBy(a.id)), SentimentScore)
    ensures s.avgInfluence == Mean(Filter(cs, WrittenBy(a.id)), Influence)
    ensures s.reach == Followers(a) as real + s.avgInfluence * 1000.0
    ensures s.engagementRate == EngagementRate(a, s.mentions)
  {
    var mine := Filter(cs, WrittenBy(a.id));
    var avgInfluence := Mean(mine, Influence);
    InfluencerStat(a, |mine|, Mean(mine, SentimentScore), avgInfluence,
                   Followers(a) as real + avgInfluence * 1000.0, EngagementRate(a, |mine|))
  }

  /** An author without comments has zero averages and engagement, and its
    * reach is its follower count; with comments, the averages stay in the
    * range of the scores and of the influences. */
  lemma {:induction false} StatMeaning(a: Author, cs: seq<Comment>, lo: real, hi: real)
    ensures StatOf(a, cs).mentions == 0 ==>
              StatOf(a, cs).avgSentiment == 0.0 && StatOf(a, cs).avgInfluence == 0.0 &&
              StatOf(a, cs).engagementRate == 0.0 && StatOf(a, cs).reach == Followers(a) as real
    ensures (forall c :: c in cs ==> 0.0 <= c.sentimentScore <= 1.0) ==> 0.0 <= StatOf(a, cs).avgSentiment <= 1.0
    ensures (forall c :: c in cs ==> lo <= Influence(c) <= hi) && StatOf(a, cs).mentions > 0 ==>
              lo <= StatOf(a, cs).avgInfluence <= hi
  {
    var mine := Filter(cs, WrittenBy(a.id));
    if mine != [] {
      if forall c :: c in cs ==> 0.0 <= c.sentimentScore <= 1.0 {
        MeanBounds(mine, SentimentScore, 0.0, 1.0);
      }
      if forall c :: c in cs ==> lo <= Influence(c) <= hi {
        MeanBounds(mine, Influence, lo, hi);
      }
    }
  }

  /** `authors.map(...)`: one entry per author, in the authors' order. */
  function AllStats(authors: seq<Author>, cs: seq<Comment>): (stats: seq<InfluencerStat>)
    ensures |stats| == |authors|
    ensures forall i :: 0 <= i < |stats| ==> stats[i] == StatOf(authors[i], cs)
  {
    seq(|authors|, i requires 0 <= i < |authors| => StatOf(authors[i], cs))
  }

  // --------------------------------------------------------------- search

  /** The name, or the handle when there is one, contains the query, both
    * lowercased. */
  predicate Matches(s: InfluencerStat, query: string) {
    Contains(Lower(s.author.name), Lower(query)) ||
    (TruthyStr(s.author.handle) && Contains(Lower(s.author.handle.value), Lower(query)))
  }

  function MatchesQuery(query: string): InfluencerStat -> bool {
    (s: InfluencerStat) => Matches(s, query)
  }

  /** `influencerStats`: the entries the search keeps, in the authors' order. */
  function InfluencerStats(authors: seq<Author>, cs: seq<Comment>, query: string): seq<InfluencerStat> {
    Filter(AllStats(authors, cs), MatchesQuery(query))
  }

  /** The search keeps exactly the authors whose name or handle contains the
    * query, ignoring case, and an empty query keeps every author. */
  lemma {:induction false} SearchMeaning(authors: seq<Author>, cs: seq<Comment>, query: string)
    ensures forall s :: s in InfluencerStats(authors, cs, query) <==> s in AllStats(authors, cs) && Matches(s, query)
    ensures query == "" ==> InfluencerStats(authors, cs, query) == AllStats(authors, cs)
  {
    if query == "" {
      forall s | s in AllStats(authors, cs) ensures MatchesQuery(query)(s) {
        ContainsEmpty(Lower(s.author.name));
      }
      FilterAll(AllStats(authors, cs), MatchesQuery(query));
    }
  }

  /** Upper and lower case do not change what the search keeps. */
  lemma {:induction false} SearchIgnoresCase(s: InfluencerStat, query: string)
    ensures Matches(s, Lower(query)) == Matches(s, query)
  {
    LowerIdempotent(query);
  }

  // ----------------------------------------------------------------- sort

  /** The sort selector; "influence" is the initial choice. */
  datatype SortBy = ByInfluence | ByMentions | BySentiment

  const DEFAULT_SORT: SortBy := ByInfluence

  function KeyOf(sortBy: SortBy): InfluencerStat -> real {
    match sortBy
    case ByInfluence => (s: InfluencerStat) => s.avgInfluence
    case ByMentions => (s: InfluencerStat) => s.mentions as real
    case BySentiment => (s: InfluencerStat) => s.avgSentiment
  }

  /** `sortedInfluencers`: a copy sorted by the selected figure, highest
    * first, authors with equal figures in their original order. */
  function SortedInfluencers(stats: seq<InfluencerStat>, sortBy: SortBy): (r: seq<InfluencerStat>)
    ensures multiset(r) == multiset(stats)
    ensures forall i, j :: 0 <= i < j < |r| ==> KeyOf(sortBy)(r[i]) >= KeyOf(sortBy)(r[j])
  {
    SortDesc(stats, KeyOf(sortBy))
  }

  /** Sorting neither adds nor drops an author. */
  lemma SortedInfluencersMembers(stats: seq<InfluencerStat>, sortBy: SortBy)
    ensures |SortedInfluencers(stats, sortBy)| == |stats|
    ensures forall s :: s in SortedInfluencers(stats, sortBy) <==> s in stats
  {
    SortDescMembers(stats, KeyOf(sortBy));
  }

  // ----------------------------------------------------------- levels

  datatype Level = Level(levelLabel: string, color: string)

  /** The page's `getInfluenceLevel`: its own colours, low in grey. */
  function InfluenceLevel(influence: real): (l: Level)
    ensures l.levelLabel == "High" <==> influence >= 8.0
    ensures l.levelLabel == "Medium" <==> 5.0 <= influence < 8.0
    ensures l.levelLabel == "Low" <==> influence < 5.0
    ensures l.color == "bg-gray-100 text-gray-800" <==> influence < 5.0
  {
    if influence >= 8.0 then Level("High", "bg-green-100 text-green-800")
    else if influence >= 5.0 then Level("Medium", "bg-yellow-100 text-yellow-800")
    else Level("Low", "bg-gray-100 text-gray-800")
  }

  /** The page's levels use the same thresholds as the shared helper. */
  lemma LevelsAgree(influence: real)
    ensures InfluenceLevel(influence).levelLabel == Types.InfluenceLevel(influence)
  {
  }

  // ------------------------------------------------------------ overview

  function IsHigh(s: InfluencerStat): bool {
    s.avgInfluence >= 8.0
  }

  function Reach(s: InfluencerStat): real {
    s.reach
  }

  function AvgSentiment(s: InfluencerStat): real {
    s.avgSentiment
  }

  datatype Overview = Overview(totalInfluencers: nat, highInfluencers: nat, totalReach: real, avgSentiment: real)

  /** The overview cards over the searched list. */
  function OverviewOf(stats: seq<InfluencerStat>): (o: Overview)
    ensures o.totalInfluencers == |stats|
    ensures o.highInfluencers == Count(stats, IsHigh) <= |stats|
    ensures o.totalReach == Sum(stats, Reach)
    ensures o.avgSentiment == Mean(stats, AvgSentiment)
  {
    Overview(|stats|, Count(stats, IsHigh), Sum(stats, Reach), Mean(stats, AvgSentiment))
  }

  /** The "high" card counts exactly the authors the page labels "High", and
    * the average sentiment card stays in [0, 1] when every score does. */
  lemma {:induction false} OverviewMeaning(authors: seq<Author>, cs: seq<Comment>, query: string)
    ensures OverviewOf(InfluencerStats(authors, cs, query)).highInfluencers ==
              Count(InfluencerStats(authors, cs, query), (s: InfluencerStat) => InfluenceLevel(s.avgInfluence).levelLabel == "High")
    ensures (forall c :: c in cs ==> 0.0 <= c.sentimentScore <= 1.0) ==>
              0.0 <= OverviewOf(InfluencerStats(authors, cs, query)).avgSentiment <= 1.0
  {
    HighCardCounts(authors, cs, query);
    if forall c :: c in cs ==> 0.0 <= c.sentimentScore <= 1.0 {
      AverageCardInRange(authors, cs, query);
    }
  }

  /** The "high" card counts the authors labelled "High". */
  lemma HighCardCounts(authors: seq<Author>, cs: seq<Comment>, query: string)
    ensures OverviewOf(InfluencerStats(authors, cs, query)).highInfluencers ==
              Count(InfluencerStats(authors, cs, query), (s: InfluencerStat) => InfluenceLevel(s.avgInfluence).levelLabel == "High")
  {
    var stats := InfluencerStats(authors, cs, query);
    var high := (s: InfluencerStat) => InfluenceLevel(s.avgInfluence).levelLabel == "High";
    assert forall s :: IsHigh(s) == high(s);
    SameFilter(stats, IsHigh, high);
  }

  /** With every score in [0, 1] the average sentiment card is in [0, 1]. */
  lemma AverageCardInRange(authors: seq<Author>, cs: seq<Comment>, query: string)
    requires forall c :: c in cs ==> 0.0 <= c.sentimentScore <= 1.0
    ensures 0.0 <= OverviewOf(InfluencerStats(authors, cs, query)).avgSentiment <= 1.0
  {
    var stats := InfluencerStats(authors, cs, query);
    if stats != [] {
      forall s | s in stats ensures 0.0 <= AvgSentiment(s) <= 1.0 {
        var i :| 0 <= i < |AllStats(authors, cs)| && AllStats(authors, cs)[i] == s;
        StatMeaning(authors[i], cs, 0.0, 10.0);
      }
      MeanBounds(stats, AvgSentiment, 0.0, 1.0);
    }
  }
}
