/** The summary dashboard: the mention and sentiment figures, the five
  * authors with the most comments and the five busiest sources. */
module Summary {
  import opened Optional
  import opened Seqs
  import opened Ranking
  import opened Tallies
  import opened Domain
  import opened Analysis

  // ------------------------------------------------------------------ KPIs

  /** `total > 0 ? (part / total) * 100 : 0` */
  function Percent(part: nat, total: nat): (p: real)
    ensures total == 0 ==> p == 0.0
    ensures total > 0 ==> p * total as real == part as real * 100.0
    ensures part <= total ==> 0.0 <= p <= 100.0
  {
    if total > 0 then (part as real / total as real) * 100.0 else 0.0
  }

  datatype Kpis = Kpis(
    totalMentions: nat,
    positiveCount: nat, neutralCount: nat, negativeCount: nat,
    positivePercentage: real, neutralPercentage: real, negativePercentage: real)

  /** The KPI strip: all comments, the comments per label and each label's share. */
  function SummaryKpis(cs: seq<Comment>): (k: Kpis)
    ensures k.totalMentions == |cs|
    ensures k.positiveCount == Count(cs, Labelled(POSITIVE))
    ensures k.neutralCount == Count(cs, Labelled(NEUTRAL))
    ensures k.negativeCount == Count(cs, Labelled(NEGATIVE))
    ensures cs == [] ==> k.positivePercentage == k.neutralPercentage == k.negativePercentage == 0.0
    ensures 0.0 <= k.positivePercentage <= 100.0
    ensures 0.0 <= k.neutralPercentage <= 100.0
    ensures 0.0 <= k.negativePercentage <= 100.0
  {
    LabelCountIsCount(cs, POSITIVE);
    LabelCountIsCount(cs, NEUTRAL);
    LabelCountIsCount(cs, NEGATIVE);
    var pos, neu, neg := LabelCount(cs, POSITIVE), LabelCount(cs, NEUTRAL), LabelCount(cs, NEGATIVE);
    Kpis(|cs|, pos, neu, neg, Percent(pos, |cs|), Percent(neu, |cs|), Percent(neg, |cs|))
  }

  /** With only the three known labels, the three shares of a non-empty
    * list add up to 100. */
  lemma {:induction false} PercentagesAddUp(cs: seq<Comment>)
    requires KnownLabels(cs) && cs != []
    ensures SummaryKpis(cs).positivePercentage + SummaryKpis(cs).neutralPercentage +
            SummaryKpis(cs).negativePercentage == 100.0
  {
    LabelPartition(cs);
    var k := SummaryKpis(cs);
    LabelCountIsCount(cs, POSITIVE);
    LabelCountIsCount(cs, NEUTRAL);
    LabelCountIsCount(cs, NEGATIVE);
    SharesAddUp(k.positiveCount, k.neutralCount, k.negativeCount, |cs|);
  }

  lemma SharesAddUp(a: nat, b: nat, c: nat, total: nat)
    requires a + b + c == total > 0
    ensures Percent(a, total) + Percent(b, total) + Percent(c, total) == 100.0
  {
    var t := total as real;
    assert a as real / t + b as real / t + c as real / t == (a + b + c) as real / t;
    assert (a + b + c) as real / t == 1.0;
  }

  /** The donut chart shows the same three counts as the KPI strip. */
  lemma {:induction false} ChartMatchesKpis(cs: seq<Comment>)
    ensures SentimentData(cs)[0].value == SummaryKpis(cs).positiveCount
    ensures SentimentData(cs)[1].value == SummaryKpis(cs).neutralCount
    ensures SentimentData(cs)[2].value == SummaryKpis(cs).negativeCount
  {
    SentimentDataCounts(cs);
  }

  // ------------------------------------------------------------ top authors

  /** `comments.some(c => c.authorId === author.id)` */
  predicate Posted(cs: seq<Comment>, a: Author) {
    exists c :: c in cs && c.authorId == Some(a.id)
  }

  function HasPosted(cs: seq<Comment>): Author -> bool {
    (a: Author) => Posted(cs, a)
  }

  datatype AuthorRow = AuthorRow(author: Author, mentionCount: nat)

  function MentionKey(r: AuthorRow): real {
    r.mentionCount as real
  }

  /** Each author with the number of comments carrying its id. */
  function AuthorRows(authors: seq<Author>, cs: seq<Comment>): (rows: seq<AuthorRow>)
    ensures |rows| == |authors|
    ensures forall i :: 0 <= i < |rows| ==>
              rows[i] == AuthorRow(authors[i], Count(cs, WrittenBy(authors[i].id)))
  {
    seq(|authors|, i requires 0 <= i < |authors| => AuthorRow(authors[i], Count(cs, WrittenBy(authors[i].id))))
  }

  /** `topAuthors`: the authors with at least one comment, by comment count,
    * most first, the first five. */
  function TopAuthors(authors: seq<Author>, cs: seq<Comment>): seq<AuthorRow> {
    Take(SortDesc(AuthorRows(Filter(authors, HasPosted(cs)), cs), MentionKey), 5)
  }

  /** At most five rows, most comments first; each row is a listed author
    * with at least one comment and counts exactly that author's comments. */
  lemma {:induction false} TopAuthorsRanked(authors: seq<Author>, cs: seq<Comment>)
    ensures |TopAuthors(authors, cs)| <= 5
    ensures SortedDesc(TopAuthors(authors, cs), MentionKey)
    ensures forall r :: r in TopAuthors(authors, cs) ==>
              r.author in authors && r.mentionCount == Count(cs, WrittenBy(r.author.id)) >= 1
  {
    TopDominates(AuthorRows(Filter(authors, HasPosted(cs)), cs), MentionKey, 5);
    forall r | r in TopAuthors(authors, cs)
      ensures r.author in authors && r.mentionCount == Count(cs, WrittenBy(r.author.id)) >= 1
    {
      TopAuthorRow(authors, cs, r);
    }
  }

  /** An author with comments that is left out has no more comments than
    * any author shown. */
  lemma {:induction false} TopAuthorsDominate(authors: seq<Author>, cs: seq<Comment>, a: Author, r: AuthorRow)
    requires a in authors && Posted(cs, a) && r in TopAuthors(authors, cs)
    requires AuthorRow(a, Count(cs, WrittenBy(a.id))) !in TopAuthors(authors, cs)
    ensures r.mentionCount >= Count(cs, WrittenBy(a.id))
  {
    var rows := AuthorRows(Filter(authors, HasPosted(cs)), cs);
    var top := Take(SortDesc(rows, MentionKey), 5);
    var x := AuthorRow(a, Count(cs, WrittenBy(a.id)));
    PostedRow(authors, cs, a);
    assert x in rows && x !in top && r in top;
    TopDominates(rows, MentionKey, 5);
    assert MentionKey(r) >= MentionKey(x);
  }

  /** When at most five authors have comments, every one of them is shown. */
  lemma {:induction false} TopAuthorsComplete(authors: seq<Author>, cs: seq<Comment>, a: Author)
    requires Count(authors, HasPosted(cs)) <= 5
    requires a in authors && Posted(cs, a)
    ensures AuthorRow(a, Count(cs, WrittenBy(a.id))) in TopAuthors(authors, cs)
  {
    var posted := Filter(authors, HasPosted(cs));
    var rows := AuthorRows(posted, cs);
    var sorted := SortDesc(rows, MentionKey);
    assert |posted| == Count(authors, HasPosted(cs));
    assert |sorted| == |rows| == |posted|;
    assert Take(sorted, 5) == sorted;
    PostedRow(authors, cs, a);
    SortDescMembers(rows, MentionKey);
  }

  /** A shown row belongs to a listed author with at least one comment. */
  lemma {:induction false} TopAuthorRow(authors: seq<Author>, cs: seq<Comment>, r: AuthorRow)
    requires r in TopAuthors(authors, cs)
    ensures r.author in authors && r.mentionCount == Count(cs, WrittenBy(r.author.id)) >= 1
  {
    var posted := Filter(authors, HasPosted(cs));
    RankedRow(authors, cs, r);
    RowOf(posted, cs, r);
    assert Posted(cs, r.author);
    var c :| c in cs && c.authorId == Some(r.author.id);
    assert WrittenBy(r.author.id)(c);
  }

  /** The shown rows are rows of authors with comments. */
  lemma {:induction false} RankedRow(authors: seq<Author>, cs: seq<Comment>, r: AuthorRow)
    requires r in TopAuthors(authors, cs)
    ensures r in AuthorRows(Filter(authors, HasPosted(cs)), cs)
  {
    SortDescMembers(AuthorRows(Filter(authors, HasPosted(cs)), cs), MentionKey);
  }

  lemma {:induction false} RowOf(posted: seq<Author>, cs: seq<Comment>, r: AuthorRow)
    requires r in AuthorRows(posted, cs)
    ensures r.author in posted && r.mentionCount == Count(cs, WrittenBy(r.author.id))
  {
    var rows := AuthorRows(posted, cs);
    var i :| 0 <= i < |rows| && rows[i] == r;
    assert posted[i] in posted;
  }

  /** An author with comments has its row among those being ranked. */
  lemma {:induction false} PostedRow(authors: seq<Author>, cs: seq<Comment>, a: Author)
    requires a in authors && Posted(cs, a)
    ensures AuthorRow(a, Count(cs, WrittenBy(a.id))) in AuthorRows(Filter(authors, HasPosted(cs)), cs)
  {
    var posted := Filter(authors, HasPosted(cs));
    assert a in posted;
    var i :| 0 <= i < |posted| && posted[i] == a;
    assert AuthorRows(posted, cs)[i] == AuthorRow(a, Count(cs, WrittenBy(a.id)));
  }

  // ------------------------------------------------------------ top sources

  datatype SourceRow = SourceRow(source: string, mentions: nat, reach: nat)

  /** Each row of the sources table: the estimated reach is 85 per mention. */
  function SourceRowOf(e: Entry<string>): (r: SourceRow)
    ensures r.source == e.key && r.mentions == e.count
    ensures r.reach == 85 * r.mentions
  {
    SourceRow(e.key, e.count, e.count * 85)
  }

  /** `topSources`: the five sources with the most comments, most first. */
  function TopSources(cs: seq<Comment>): (rows: seq<SourceRow>)
    ensures |rows| == |TopKeys(Sources(cs), 5)|
    ensures forall i :: 0 <= i < |rows| ==> rows[i] == SourceRowOf(TopKeys(Sources(cs), 5)[i])
  {
    var t := TopKeys(Sources(cs), 5);
    seq(|t|, i requires 0 <= i < |t| => SourceRowOf(t[i]))
  }

  /** At most five rows, most mentions first; each counts exactly the
    * comments from its source, at least one, and shows 85 reach per mention. */
  lemma {:induction false} TopSourcesMeaning(cs: seq<Comment>)
    ensures |TopSources(cs)| <= 5
    ensures forall i, j :: 0 <= i < j < |TopSources(cs)| ==> TopSources(cs)[i].mentions >= TopSources(cs)[j].mentions
    ensures forall r :: r in TopSources(cs) ==>
              r.mentions == Count(cs, FromSource(r.source)) > 0 && r.reach == 85 * r.mentions
  {
    var t := TopKeys(Sources(cs), 5);
    var rows := TopSources(cs);
    forall i, j | 0 <= i < j < |rows| ensures rows[i].mentions >= rows[j].mentions {
      assert CountKey(t[i]) >= CountKey(t[j]);
    }
    forall r | r in rows ensures r.mentions == Count(cs, FromSource(r.source)) > 0 {
      TopSourceRow(cs, r);
    }
  }

  lemma {:induction false} TopSourceRow(cs: seq<Comment>, r: SourceRow)
    requires r in TopSources(cs)
    ensures r.mentions == Count(cs, FromSource(r.source)) > 0
  {
    var t := TopKeys(Sources(cs), 5);
    var rows := TopSources(cs);
    TopKeysCounts(Sources(cs), 5);
    var i :| 0 <= i < |rows| && rows[i] == r;
    assert t[i] in t;
    SourceMultiplicity(cs, r.source);
  }

  /** A source left out has no more comments than any source shown. */
  lemma {:induction false} TopSourceDominates(cs: seq<Comment>, r: SourceRow, c: Comment)
    requires r in TopSources(cs) && c in cs
    requires forall q :: q in TopSources(cs) ==> q.source != c.source
    ensures r.mentions >= Count(cs, FromSource(c.source))
  {
    var t := TopKeys(Sources(cs), 5);
    var rows := TopSources(cs);
    var i :| 0 <= i < |rows| && rows[i] == r;
    assert t[i] in t;
    var k :| 0 <= k < |cs| && cs[k] == c;
    assert Sources(cs)[k] == c.source;
    assert c.source !in KeysOf(t) by {
      forall j | 0 <= j < |t| ensures KeysOf(t)[j] != c.source {
        assert rows[j] in rows;
      }
    }
    TopKeyDominates(Sources(cs), 5, t[i], c.source);
    SourceMultiplicity(cs, c.source);
  }
}
