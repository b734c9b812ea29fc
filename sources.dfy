/** The sources management page: per-source mention, reach and sentiment
  * figures over the eleven known sources, the label search, the
  * include/exclude switch and the overview cards. `Math.random()` is a
  * parameter: `roll(i)` is the value drawn for the i-th source. */
module SourceManagement {
  import opened Seqs
  import opened Ranking
  import opened Text
  import opened Domain
  import opened Types
  import opened Analysis
  import opened TopicAnalysis

  datatype SourceStat = SourceStat(
    source: SourceOption,
    mentions: nat,
    reach: real,
    avgSentiment: real,
    isActive: bool,
    growth: int)

  /** `(c.influence || 0) * 100` */
  function ReachOf(c: Comment): real {
    (InfluenceOr0(c) * 100) as real
  }

  function SentimentScore(c: Comment): real {
    c.sentimentScore
  }

  /** `Math.floor(Math.random() * 30) - 10` for a draw in [0, 1). */
  function Growth(roll: real): (g: int)
    ensures 0.0 <= roll < 1.0 ==> -10 <= g < 20
  {
    (roll * 30.0).Floor - 10
  }

  /** The figures of one source over the comments with exactly its value. */
  function StatOf(source: SourceOption, cs: seq<Comment>, excluded: seq<string>, roll: real): (s: SourceStat)
    ensures s.source == source
    ensures s.mentions == Count(cs, FromSource(source.value))
    ensures s.isActive <==> source.value !in excluded
  {
    var mine := Filter(cs, FromSource(source.value));
    SourceStat(source, |mine|, Sum(mine, ReachOf), Mean(mine, SentimentScore), source.value !in excluded, Growth(roll))
  }

  /** `SOURCES.map(...)`: one entry per known source, in table order. */
  function AllStats(cs: seq<Comment>, excluded: seq<string>, roll: int -> real): (stats: seq<SourceStat>)
    ensures |stats| == |SOURCES|
    ensures forall i :: 0 <= i < |stats| ==> stats[i] == StatOf(SOURCES[i], cs, excluded, roll(i))
  {
    seq(|SOURCES|, i requires 0 <= i < |SOURCES| => StatOf(SOURCES[i], cs, excluded, roll(i)))
  }

  /** `source.label.toLowerCase().includes(searchQuery.toLowerCase())` */
  function MatchesQuery(query: string): SourceStat -> bool {
    (s: SourceStat) => Contains(Lower(s.source.sourceLabel), Lower(query))
  }

  /** `sourceStats`: the entries whose label matches the search. */
  function SourceStats(cs: seq<Comment>, excluded: seq<string>, query: string, roll: int -> real): seq<SourceStat> {
    Filter(AllStats(cs, excluded, roll), MatchesQuery(query))
  }

  // ------------------------------------------------------ per-source figures

  /** Reach and average sentiment summarise the comments of the source: the
    * reach adds 100 per influence point with a missing influence as 0, so
    * it is 0 without comments and never negative when no influence is; the
    * average is 0 without comments, otherwise the mean score, and stays in
    * [0, 1] when every score does. */
  lemma {:induction false} StatMeaning(source: SourceOption, cs: seq<Comment>, excluded: seq<string>, roll: real)
    ensures StatOf(source, cs, excluded, roll).reach == Sum(Filter(cs, FromSource(source.value)), ReachOf)
    ensures StatOf(source, cs, excluded, roll).mentions == 0 ==>
              StatOf(source, cs, excluded, roll).avgSentiment == 0.0 && StatOf(source, cs, excluded, roll).reach == 0.0
    ensures StatOf(source, cs, excluded, roll).mentions > 0 ==>
              StatOf(source, cs, excluded, roll).avgSentiment ==
              Sum(Filter(cs, FromSource(source.value)), SentimentScore) / StatOf(source, cs, excluded, roll).mentions as real
    ensures (forall c :: c in cs ==> 0.0 <= c.sentimentScore <= 1.0) ==>
              0.0 <= StatOf(source, cs, excluded, roll).avgSentiment <= 1.0
    ensures (forall c :: c in cs ==> InfluenceOr0(c) >= 0) ==> StatOf(source, cs, excluded, roll).reach >= 0.0
  {
    var mine := Filter(cs, FromSource(source.value));
    var st := StatOf(source, cs, excluded, roll);
    assert st.mentions == |mine| && st.avgSentiment == Mean(mine, SentimentScore);
    if forall c :: c in cs ==> InfluenceOr0(c) >= 0 {
      SumNonNegative(mine, ReachOf);
    }
    if mine != [] && forall c :: c in cs ==> 0.0 <= c.sentimentScore <= 1.0 {
      MeanBounds(mine, SentimentScore, 0.0, 1.0);
    }
  }

  // --------------------------------------------------------------- search

  /** The search keeps exactly the known sources whose lowercased label
    * contains the lowercased query, in table order; an empty query keeps
    * all eleven. */
  lemma {:induction false} SearchMeaning(cs: seq<Comment>, excluded: seq<string>, query: string, roll: int -> real)
    ensures forall s :: s in SourceStats(cs, excluded, query, roll) <==>
              s in AllStats(cs, excluded, roll) && Contains(Lower(s.source.sourceLabel), Lower(query))
    ensures query == "" ==> SourceStats(cs, excluded, query, roll) == AllStats(cs, excluded, roll)
    ensures query == "" ==> |SourceStats(cs, excluded, query, roll)| == 11
  {
    if query == "" {
      var all := AllStats(cs, excluded, roll);
      forall s | s in all ensures MatchesQuery(query)(s) {
        ContainsEmpty(Lower(s.source.sourceLabel));
      }
      FilterAll(all, MatchesQuery(query));
      TablesWellFormed();
    }
  }

  // ----------------------------------------------------------- the switch

  /** `handleToggleSource(value)`: the excluded list with the value removed
    * when present and appended otherwise. */
  function ToggleSource(excluded: seq<string>, value: string): (r: seq<string>)
    ensures (value in r) != (value in excluded)
    ensures forall x :: x != value ==> (x in r <==> x in excluded)
  {
    Toggle(excluded, value)
  }

  /** The switch flips the active flag of the toggled source and of no
    * other, and two switches restore every flag. */
  lemma {:induction false} ToggleFlipsActive(cs: seq<Comment>, excluded: seq<string>, value: string, roll: int -> real, i: nat)
    requires i < |SOURCES|
    ensures AllStats(cs, ToggleSource(excluded, value), roll)[i].isActive ==
              if SOURCES[i].value == value then !AllStats(cs, excluded, roll)[i].isActive
              else AllStats(cs, excluded, roll)[i].isActive
    ensures AllStats(cs, ToggleSource(ToggleSource(excluded, value), value), roll)[i].isActive ==
              AllStats(cs, excluded, roll)[i].isActive
  {
    ToggleTwice(excluded, value);
  }

  // ---------------------------------------------------------- the overview

  /** `sourceStats.reduce((sum, s) => sum + s.mentions, 0)` */
  function TotalMentions(stats: seq<SourceStat>): nat {
    if stats == [] then 0 else TotalMentions(stats[..|stats| - 1]) + stats[|stats| - 1].mentions
  }

  function IsActive(s: SourceStat): bool {
    s.isActive
  }

  /** `sourceStats.filter(s => s.isActive).length` */
  function ActiveSources(stats: seq<SourceStat>): (n: nat)
    ensures n <= |stats|
    ensures n == |stats| <==> forall s :: s in stats ==> s.isActive
  {
    Count(stats, IsActive)
  }

  /** With nothing excluded every shown source is active. */
  lemma {:induction false} NothingExcludedAllActive(cs: seq<Comment>, query: string, roll: int -> real)
    ensures ActiveSources(SourceStats(cs, [], query, roll)) == |SourceStats(cs, [], query, roll)|
  {
  }

  /** `c => SOURCES.some(s => s.value === c.source)` for a list of values. */
  function InSources(vs: seq<string>): Comment -> bool {
    (c: Comment) => c.source in vs
  }

  /** `v => comments.filter(c => c.source === v).length` */
  function MentionsIn(cs: seq<Comment>): string -> nat {
    (v: string) => Count(cs, FromSource(v))
  }

  /** `vs.reduce((sum, v) => sum + f(v), 0)` */
  function SumOver(vs: seq<string>, f: string -> nat): nat {
    if vs == [] then 0 else SumOver(vs[..|vs| - 1], f) + f(vs[|vs| - 1])
  }

  /** The total of the entries is the sum of their per-value figures. */
  lemma {:induction false} TotalMentionsSum(stats: seq<SourceStat>, vs: seq<string>, f: string -> nat)
    requires |stats| == |vs|
    requires forall i :: 0 <= i < |vs| ==> stats[i].mentions == f(vs[i])
    ensures TotalMentions(stats) == SumOver(vs, f)
  {
    if vs != [] {
      var before, init := stats[..|stats| - 1], vs[..|vs| - 1];
      assert forall i :: 0 <= i < |init| ==> before[i] == stats[i] && init[i] == vs[i];
      TotalMentionsSum(before, init, f);
    }
  }

  /** Over distinct values, the per-value mention counts add up to the
    * comments from any of them: each such comment is counted once. */
  lemma {:induction false} MentionsAddUp(cs: seq<Comment>, vs: seq<string>)
    requires Distinct(vs)
    ensures SumOver(vs, MentionsIn(cs)) == Count(cs, InSources(vs))
  {
    if vs != [] {
      var init, last := vs[..|vs| - 1], vs[|vs| - 1];
      DistinctSnoc(vs);
      MentionsAddUp(cs, init);
      SourcesSplit(vs);
      CountDisjoint(cs, InSources(init), FromSource(last), InSources(vs));
    }
  }

  /** A comment is from one of the values exactly when it is from one of
    * the earlier values or from the last, which is not an earlier value. */
  lemma SourcesSplit(vs: seq<string>)
    requires vs != [] && Distinct(vs)
    ensures forall c :: InSources(vs)(c) == (InSources(vs[..|vs| - 1])(c) || FromSource(vs[|vs| - 1])(c))
    ensures vs[|vs| - 1] !in vs[..|vs| - 1]
  {
    DistinctSnoc(vs);
  }

  /** With an empty search the total counts every comment from a known
    * source once, so it equals the number of comments when every comment
    * comes from a known source. */
  lemma {:induction false} TotalCountsKnownComments(cs: seq<Comment>, excluded: seq<string>, roll: int -> real)
    ensures TotalMentions(SourceStats(cs, excluded, "", roll)) == Count(cs, InSources(SourceValues()))
    ensures (forall c :: c in cs ==> c.source in SourceValues()) ==>
              TotalMentions(SourceStats(cs, excluded, "", roll)) == |cs|
  {
    SearchMeaning(cs, excluded, "", roll);
    AllStatsTotal(cs, excluded, roll);
  }

  /** The entries of all eleven sources together count the comments from a
    * known source. */
  lemma AllStatsTotal(cs: seq<Comment>, excluded: seq<string>, roll: int -> real)
    ensures TotalMentions(AllStats(cs, excluded, roll)) == Count(cs, InSources(SourceValues()))
  {
    TablesWellFormed();
    TotalMentionsSum(AllStats(cs, excluded, roll), SourceValues(), MentionsIn(cs));
    MentionsAddUp(cs, SourceValues());
  }

  function MentionsKey(s: SourceStat): real {
    s.mentions as real
  }

  /** The "Top Performer" card: the label of the first source with the most
    * mentions, or "N/A" when the search leaves none. */
  function TopPerformer(stats: seq<SourceStat>): (shown: string)
    ensures stats == [] ==> shown == "N/A"
    ensures stats != [] ==>
              (exists k :: 0 <= k < |stats| && shown == stats[k].source.sourceLabel &&
                 (forall j :: 0 <= j < |stats| ==> stats[j].mentions <= stats[k].mentions) &&
                 (forall j :: 0 <= j < k ==> stats[j].mentions < stats[k].mentions))
  {
    if stats == [] then "N/A"
    else
      var k := FirstMax(stats, MentionsKey);
      assert forall j :: 0 <= j < |stats| ==> MentionsKey(stats[j]) <= MentionsKey(stats[k]);
      stats[k].source.sourceLabel
  }

  // ----------------------------------------------------------- colours

  /** `getSentimentBg(sentiment)` */
  function SentimentBg(sentiment: real): (cls: string)
    ensures cls == "bg-green-100" <==> sentiment > 0.7
    ensures cls == "bg-yellow-100" <==> 0.4 < sentiment <= 0.7
    ensures cls == "bg-red-100" <==> sentiment <= 0.4
  {
    if sentiment > 0.7 then "bg-green-100"
    else if sentiment > 0.4 then "bg-yellow-100"
    else "bg-red-100"
  }

  /** The background and the text colour (`getSentimentColor`, shared with
    * the topic page) always name the same shade. */
  lemma BgMatchesColor(sentiment: real)
    ensures SentimentBg(sentiment) == "bg-green-100" <==> ScoreColor(sentiment) == "text-green-600"
    ensures SentimentBg(sentiment) == "bg-yellow-100" <==> ScoreColor(sentiment) == "text-yellow-600"
    ensures SentimentBg(sentiment) == "bg-red-100" <==> ScoreColor(sentiment) == "text-red-600"
  {
  }
}
