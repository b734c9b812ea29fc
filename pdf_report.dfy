/** The PDF report page: the page count estimate shown beside the report
  * options. Generating the document is a server call and is not modelled. */
module PdfReport {
  import opened Domain

  datatype ReportConfig = ReportConfig(
    timeRange: string,
    includeCharts: bool,
    includeSummary: bool,
    includeComments: bool,
    includeTopics: bool,
    includeGeoData: bool,
    format: string)

  const DEFAULT_CONFIG: ReportConfig := ReportConfig("30d", true, true, true, true, false, "standard")

  /** `Math.ceil(n / 10)` */
  function CommentPages(n: nat): (p: nat)
    ensures n <= 10 * p < n + 10
    ensures p == 0 <==> n == 0
    ensures 1 <= n <= 10 ==> p == 1
  {
    (n + 9) / 10
  }

  /** The optional sections of a report. */
  datatype Section = SummarySection | ChartsSection | CommentsSection | TopicsSection | GeoSection

  const SECTIONS: seq<Section> := [SummarySection, ChartsSection, CommentsSection, TopicsSection, GeoSection]

  predicate Includes(config: ReportConfig, s: Section) {
    match s
    case SummarySection => config.includeSummary
    case ChartsSection => config.includeCharts
    case CommentsSection => config.includeComments
    case TopicsSection => config.includeTopics
    case GeoSection => config.includeGeoData
  }

  /** Pages each section takes: charts two, the comment list one per ten
    * comments, every other section one. */
  function SectionPages(s: Section, comments: nat): nat {
    match s
    case ChartsSection => 2
    case CommentsSection => CommentPages(comments)
    case _ => 1
  }

  /** The pages of the included sections among `sections`. */
  function PagesOf(sections: seq<Section>, config: ReportConfig, comments: nat): nat {
    if sections == [] then 0
    else
      (if Includes(config, sections[0]) then SectionPages(sections[0], comments) else 0) +
      PagesOf(sections[1..], config, comments)
  }

  /** A cover page plus the pages of every included section. */
  function ReportPages(config: ReportConfig, comments: nat): nat {
    1 + PagesOf(SECTIONS, config, comments)
  }

  /** The pages of all included sections, section by section. */
  lemma PagesOfSections(config: ReportConfig, comments: nat)
    ensures PagesOf(SECTIONS, config, comments) ==
              (if config.includeSummary then 1 else 0) + (if config.includeCharts then 2 else 0) +
              (if config.includeComments then CommentPages(comments) else 0) +
              (if config.includeTopics then 1 else 0) + (if config.includeGeoData then 1 else 0)
  {
    var geo := if config.includeGeoData then 1 else 0;
    var topics := if config.includeTopics then 1 else 0;
    var list := if config.includeComments then CommentPages(comments) else 0;
    var charts := if config.includeCharts then 2 else 0;
    var s4 := [GeoSection];
    assert s4[1..] == [];
    assert PagesOf(s4, config, comments) == geo;
    var s3 := [TopicsSection] + s4;
    assert s3[1..] == s4;
    assert PagesOf(s3, config, comments) == topics + geo;
    var s2 := [CommentsSection] + s3;
    assert s2[1..] == s3;
    assert PagesOf(s2, config, comments) == list + topics + geo;
    var s1 := [ChartsSection] + s2;
    assert s1[1..] == s2;
    assert PagesOf(s1, config, comments) == charts + list + topics + geo;
    assert SECTIONS == [SummarySection] + s1;
    assert SECTIONS[1..] == s1;
  }

  /** `calculateReportSize()`: counts the cover page, then adds each
    * included section in turn. */
  method CalculateReportSize(config: ReportConfig, comments: seq<Comment>) returns (pages: nat)
    ensures pages == ReportPages(config, |comments|)
    ensures pages >= 1
  {
    pages := 1;
    if config.includeSummary {
      pages := pages + 1;
    }
    if config.includeCharts {
      pages := pages + 2;
    }
    if config.includeComments {
      pages := pages + CommentPages(|comments|);
    }
    if config.includeTopics {
      pages := pages + 1;
    }
    if config.includeGeoData {
      pages := pages + 1;
    }
    PagesOfSections(config, |comments|);
  }

  /** The report is the cover page alone exactly when no section adds a
    * page: every option off, except the comment list may be on with no
    * comments. */
  lemma CoverOnly(config: ReportConfig, comments: nat)
    ensures ReportPages(config, comments) == 1 <==>
              !config.includeSummary && !config.includeCharts && !config.includeTopics &&
              !config.includeGeoData && (!config.includeComments || comments == 0)
  {
    PagesOfSections(config, comments);
  }

  /** More comments never give fewer pages. */
  lemma {:induction false} MoreCommentsMorePages(sections: seq<Section>, config: ReportConfig, a: nat, b: nat)
    requires a <= b
    ensures PagesOf(sections, config, a) <= PagesOf(sections, config, b)
  {
    if sections != [] {
      MoreCommentsMorePages(sections[1..], config, a, b);
      assert CommentPages(a) <= CommentPages(b) by {
        assert 10 * CommentPages(a) < a + 10 <= b + 10;
        assert b <= 10 * CommentPages(b);
      }
    }
  }

  /** Whether `on` includes every section `off` does. */
  predicate IncludesAll(on: ReportConfig, off: ReportConfig) {
    forall s :: Includes(off, s) ==> Includes(on, s)
  }

  /** Turning a section on never gives fewer pages. */
  lemma {:induction false} MoreSectionsMorePages(sections: seq<Section>, off: ReportConfig, on: ReportConfig, comments: nat)
    requires IncludesAll(on, off)
    ensures PagesOf(sections, off, comments) <= PagesOf(sections, on, comments)
  {
    if sections != [] {
      MoreSectionsMorePages(sections[1..], off, on, comments);
    }
  }

  /** The time range and the layout do not change the page count. */
  lemma PagesIgnoreRangeAndFormat(config: ReportConfig, timeRange: string, format: string, comments: nat)
    ensures ReportPages(config.(timeRange := timeRange, format := format), comments) == ReportPages(config, comments)
  {
    var other := config.(timeRange := timeRange, format := format);
    assert forall s :: Includes(other, s) == Includes(config, s);
    MoreSectionsMorePages(SECTIONS, config, other, comments);
    MoreSectionsMorePages(SECTIONS, other, config, comments);
  }
}
