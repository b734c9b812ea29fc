/** The comparison page: two search terms, the guard that starts the
  * comparison, and the figures of each term (mentions, mean sentiment,
  * source mix, countries and a timeline). `Math.random()` is the parameter
  * `roll`: `roll(i)` is the value drawn for the i-th snapshot. */
module Comparison {
  import opened Optional
  import opened Seqs
  import opened Ranking
  import opened Text
  import opened Tallies
  import opened Domain
  import opened Storage
  import opened Analysis

  // ---------------------------------------------------------------- state

  datatype PageState = PageState(termA: string, termB: string, isComparing: bool)

  const INITIAL: PageState := PageState("", "", false)

  /** Typing in either input changes only that term. */
  function SetTermA(st: PageState, term: string): (r: PageState)
    ensures r.termA == term && r.termB == st.termB && r.isComparing == st.isComparing
  {
    st.(termA := term)
  }

  function SetTermB(st: PageState, term: string): (r: PageState)
    ensures r.termB == term && r.termA == st.termA && r.isComparing == st.isComparing
  {
    st.(termB := term)
  }

  /** `handleCompare`: turns the comparison on when both trimmed terms are
    * non-empty; nothing turns it off again. */
  function HandleCompare(st: PageState): (r: PageState)
    ensures r.termA == st.termA && r.termB == st.termB
    ensures r.isComparing <==> st.isComparing || (!IsBlank(st.termA) && !IsBlank(st.termB))
    ensures st.isComparing ==> r == st
  {
    TrimEmptyIffBlank(st.termA);
    TrimEmptyIffBlank(st.termB);
    if Trim(st.termA) != "" && Trim(st.termB) != "" then st.(isComparing := true) else st
  }

  /** An event of the page: typing a term or pressing the compare button. */
  datatype Event = TypeA(term: string) | TypeB(term: string) | Compare

  function Step(st: PageState, e: Event): PageState {
    match e
    case TypeA(t) => SetTermA(st, t)
    case TypeB(t) => SetTermB(st, t)
    case Compare => HandleCompare(st)
  }

  function Run(st: PageState, es: seq<Event>): PageState
    decreases |es|
  {
    if es == [] then st else Run(Step(st, es[0]), es[1..])
  }

  /** Once on, the comparison stays on whatever happens next. */
  lemma {:induction false} ComparingNeverTurnsOff(st: PageState, es: seq<Event>)
    requires st.isComparing
    ensures Run(st, es).isComparing
    decreases |es|
  {
    if es != [] {
      ComparingNeverTurnsOff(Step(st, es[0]), es[1..]);
    }
  }

  /** When a run turns the comparison on, some event of it was a press of
    * the compare button while both terms were non-blank. */
  lemma {:induction false} TurnedOnByCompare(st: PageState, es: seq<Event>) returns (i: nat)
    requires !st.isComparing && Run(st, es).isComparing
    ensures i < |es| && es[i].Compare?
    ensures !IsBlank(Run(st, es[..i]).termA) && !IsBlank(Run(st, es[..i]).termB)
    decreases |es|
  {
    var next := Step(st, es[0]);
    if next.isComparing {
      i := 0;
      assert es[..0] == [];
    } else {
      var j := TurnedOnByCompare(next, es[1..]);
      i := j + 1;
      RunPrefix(st, es, i);
    }
  }

  lemma RunPrefix(st: PageState, es: seq<Event>, k: nat)
    requires 0 < k <= |es|
    ensures Run(st, es[..k]) == Run(Step(st, es[0]), es[1..][..k - 1])
  {
    assert es[..k][1..] == es[1..][..k - 1];
  }

  // ------------------------------------------------------------ term data

  /** The comment's text or source, lowercased, contains the lowercased term. */
  predicate IsRelevant(c: Comment, term: string) {
    Contains(Lower(c.text), Lower(term)) || Contains(Lower(c.source), Lower(term))
  }

  function RelevantTo(term: string): Comment -> bool {
    (c: Comment) => IsRelevant(c, term)
  }

  function SentimentScore(c: Comment): real {
    c.sentimentScore
  }

  /** `comment.country || "Unknown"` */
  function CountryOf(c: Comment): (name: string)
    ensures TruthyStr(c.country) ==> name == c.country.value
    ensures !TruthyStr(c.country) ==> name == "Unknown"
  {
    if TruthyStr(c.country) then c.country.value else "Unknown"
  }

  function Countries(cs: seq<Comment>): (names: seq<string>)
    ensures |names| == |cs|
    ensures forall i :: 0 <= i < |cs| ==> names[i] == CountryOf(cs[i])
  {
    seq(|cs|, i requires 0 <= i < |cs| => CountryOf(cs[i]))
  }

  /** Relevant to the term and from the given source, or from the given country. */
  function RelevantFrom(term: string, source: string): Comment -> bool {
    (c: Comment) => IsRelevant(c, term) && c.source == source
  }

  function FromCountry(country: string): Comment -> bool {
    (c: Comment) => CountryOf(c) == country
  }

  function RelevantIn(term: string, country: string): Comment -> bool {
    (c: Comment) => IsRelevant(c, term) && CountryOf(c) == country
  }

  /** A country occurs in the country list once per comment from it. */
  lemma {:induction false} CountryMultiplicity(cs: seq<Comment>, country: string)
    ensures multiset(Countries(cs))[country] == Count(cs, FromCountry(country))
  {
    if cs != [] {
      var init, last := cs[..|cs| - 1], cs[|cs| - 1];
      assert cs == init + [last];
      assert Countries(cs) == Countries(init) + [CountryOf(last)];
      CountryMultiplicity(init, country);
      CountAppend(init, last, FromCountry(country));
    }
  }

  datatype TermData = TermData(
    mentions: nat,
    avgSentiment: real,
    sourceMix: seq<Entry<string>>,
    countries: seq<Entry<string>>,
    timeline: seq<int>)

  /** `Math.floor(Math.random() * totalMentions * 0.3)` for each snapshot. */
  function Timeline(snapshots: seq<Snapshot>, total: nat, roll: int -> real): (t: seq<int>)
    ensures |t| == |snapshots|
    ensures forall i :: 0 <= i < |t| ==> t[i] == (roll(i) * total as real * 0.3).Floor
  {
    seq(|snapshots|, i requires 0 <= i < |snapshots| => (roll(i) * total as real * 0.3).Floor)
  }

  /** `getTermData(term)`: the untrimmed term is used as typed. */
  function GetTermData(cs: seq<Comment>, snapshots: seq<Snapshot>, term: string, roll: int -> real): (d: TermData)
    ensures d.mentions == Count(cs, RelevantTo(term))
    ensures d.avgSentiment == Mean(Filter(cs, RelevantTo(term)), SentimentScore)
    ensures d.sourceMix == TopKeys(Sources(Filter(cs, RelevantTo(term))), 5)
    ensures d.countries == TopKeys(Countries(Filter(cs, RelevantTo(term))), 5)
    ensures d.timeline == Timeline(snapshots, d.mentions, roll)
  {
    var relevant := Filter(cs, RelevantTo(term));
    TermData(|relevant|, Mean(relevant, SentimentScore),
             TopKeys(Sources(relevant), 5), TopKeys(Countries(relevant), 5),
             Timeline(snapshots, |relevant|, roll))
  }

  /** The mean sentiment is 0 when nothing matches and stays in [0, 1] when
    * every score does; an empty term matches every comment. */
  lemma {:induction false} TermDataMeaning(cs: seq<Comment>, snapshots: seq<Snapshot>, term: string, roll: int -> real)
    ensures GetTermData(cs, snapshots, term, roll).mentions == 0 ==> GetTermData(cs, snapshots, term, roll).avgSentiment == 0.0
    ensures (forall c :: c in cs ==> 0.0 <= c.sentimentScore <= 1.0) ==>
              0.0 <= GetTermData(cs, snapshots, term, roll).avgSentiment <= 1.0
    ensures term == "" ==> GetTermData(cs, snapshots, term, roll).mentions == |cs|
  {
    var relevant := Filter(cs, RelevantTo(term));
    if relevant != [] && forall c :: c in cs ==> 0.0 <= c.sentimentScore <= 1.0 {
      MeanBounds(relevant, SentimentScore, 0.0, 1.0);
    }
    if term == "" {
      forall c | c in cs ensures RelevantTo(term)(c) {
        ContainsEmpty(Lower(c.text));
      }
    }
  }

  /** Both lists hold at most five entries, most comments first. Every
    * source entry counts the matching comments from that source and every
    * country entry the matching comments from that country (missing ones
    * as "Unknown"); before the cut to five, each tally adds up to the
    * mentions. */
  lemma {:induction false} MixesAddUp(cs: seq<Comment>, term: string)
    ensures Total(Tally(Sources(Filter(cs, RelevantTo(term))))) == Count(cs, RelevantTo(term))
    ensures Total(Tally(Countries(Filter(cs, RelevantTo(term))))) == Count(cs, RelevantTo(term))
    ensures |TopKeys(Sources(Filter(cs, RelevantTo(term))), 5)| <= 5
    ensures SortedDesc(TopKeys(Countries(Filter(cs, RelevantTo(term))), 5), CountKey)
    ensures forall e :: e in TopKeys(Sources(Filter(cs, RelevantTo(term))), 5) ==>
              e.count == Count(cs, RelevantFrom(term, e.key)) > 0
    ensures forall e :: e in TopKeys(Countries(Filter(cs, RelevantTo(term))), 5) ==>
              e.count == Count(cs, RelevantIn(term, e.key)) > 0
  {
    var relevant := Filter(cs, RelevantTo(term));
    TallyProps(Sources(relevant));
    TallyProps(Countries(relevant));
    TopKeysCounts(Sources(relevant), 5);
    TopKeysCounts(Countries(relevant), 5);
    forall e | e in TopKeys(Sources(relevant), 5)
      ensures e.count == Count(cs, RelevantFrom(term, e.key))
    {
      SourceMultiplicity(relevant, e.key);
      CountOfFilter(cs, RelevantTo(term), FromSource(e.key), RelevantFrom(term, e.key));
    }
    forall e | e in TopKeys(Countries(relevant), 5)
      ensures e.count == Count(cs, RelevantIn(term, e.key))
    {
      CountryMultiplicity(relevant, e.key);
      CountOfFilter(cs, RelevantTo(term), FromCountry(e.key), RelevantIn(term, e.key));
    }
  }

  /** For a draw in [0, 1), a timeline value lies in [0, 0.3 * mentions]. */
  lemma TimelineBounds(snapshots: seq<Snapshot>, total: nat, roll: int -> real, i: nat)
    requires i < |snapshots| && 0.0 <= roll(i) < 1.0
    ensures 0 <= Timeline(snapshots, total, roll)[i]
    ensures Timeline(snapshots, total, roll)[i] as real <= total as real * 0.3
  {
    var x := roll(i) * total as real * 0.3;
    assert 0.0 <= x <= total as real * 0.3 by {
      assert 0.0 <= roll(i) * (total as real * 0.3) <= 1.0 * (total as real * 0.3);
    }
  }

  /** The comparison chart: `Math.floor(Math.random() * 20) + 5` per term
    * and snapshot, empty until both terms have data. */
  datatype ChartPoint = ChartPoint(day: int, a: int, b: int)

  function ComparisonData(st: PageState, snapshots: seq<Snapshot>, roll: int -> real): (points: seq<ChartPoint>)
    ensures !st.isComparing ==> points == []
    ensures st.isComparing ==> |points| == |snapshots|
    ensures st.isComparing ==>
              forall i :: 0 <= i < |points| && 0.0 <= roll(2 * i) < 1.0 && 0.0 <= roll(2 * i + 1) < 1.0
                ==> 5 <= points[i].a < 25 && 5 <= points[i].b < 25
  {
    if st.isComparing then
      seq(|snapshots|, i requires 0 <= i < |snapshots| =>
        ChartPoint(snapshots[i].day, (roll(2 * i) * 20.0).Floor + 5, (roll(2 * i + 1) * 20.0).Floor + 5))
    else []
  }
}
