/** The Excel export page: the row count and the sheet count shown beside
  * the export options. Generating the workbook is a server call and is
  * not modelled. */
module ExcelExport {
  import opened Domain
  import opened Storage

  datatype ExportConfig = ExportConfig(
    timeRange: string,
    includeComments: bool,
    includeAuthors: bool,
    includeSnapshots: bool,
    includeSummary: bool,
    includeFilters: bool,
    format: string)

  const DEFAULT_CONFIG: ExportConfig := ExportConfig("30d", true, true, true, true, false, "detailed")

  /** The sheets a workbook may hold. */
  datatype Sheet = SummarySheet | CommentsSheet | AuthorsSheet | SnapshotsSheet

  const SHEETS: seq<Sheet> := [SummarySheet, CommentsSheet, AuthorsSheet, SnapshotsSheet]

  predicate Includes(config: ExportConfig, s: Sheet) {
    match s
    case SummarySheet => config.includeSummary
    case CommentsSheet => config.includeComments
    case AuthorsSheet => config.includeAuthors
    case SnapshotsSheet => config.includeSnapshots
  }

  /** How many of `sheets` are included. */
  function SheetsOf(sheets: seq<Sheet>, config: ExportConfig): nat {
    if sheets == [] then 0
    else (if Includes(config, sheets[0]) then 1 else 0) + SheetsOf(sheets[1..], config)
  }

  /** The rows a sheet holds; the summary sheet holds none of the data rows. */
  function SheetRows(s: Sheet, comments: seq<Comment>, authors: seq<Author>, snapshots: seq<Snapshot>): nat {
    match s
    case SummarySheet => 0
    case CommentsSheet => |comments|
    case AuthorsSheet => |authors|
    case SnapshotsSheet => |snapshots|
  }

  /** The data rows of the included sheets among `sheets`. */
  function RowsOf(sheets: seq<Sheet>, config: ExportConfig, comments: seq<Comment>, authors: seq<Author>, snapshots: seq<Snapshot>): nat {
    if sheets == [] then 0
    else
      (if Includes(config, sheets[0]) then SheetRows(sheets[0], comments, authors, snapshots) else 0) +
      RowsOf(sheets[1..], config, comments, authors, snapshots)
  }

  /** The data rows of all included sheets, sheet by sheet. */
  lemma RowsOfSheets(config: ExportConfig, comments: seq<Comment>, authors: seq<Author>, snapshots: seq<Snapshot>)
    ensures RowsOf(SHEETS, config, comments, authors, snapshots) ==
              (if config.includeComments then |comments| else 0) + (if config.includeAuthors then |authors| else 0) +
              (if config.includeSnapshots then |snapshots| else 0)
  {
    var c := if config.includeComments then |comments| else 0;
    var a := if config.includeAuthors then |authors| else 0;
    var n := if config.includeSnapshots then |snapshots| else 0;
    var s3 := [SnapshotsSheet];
    assert s3[1..] == [];
    assert RowsOf(s3, config, comments, authors, snapshots) == n;
    var s2 := [AuthorsSheet] + s3;
    assert s2[1..] == s3;
    assert RowsOf(s2, config, comments, authors, snapshots) == a + n;
    var s1 := [CommentsSheet] + s2;
    assert s1[1..] == s2;
    assert RowsOf(s1, config, comments, authors, snapshots) == c + a + n;
    assert SHEETS == [SummarySheet] + s1;
    assert SHEETS[1..] == s1;
  }

  /** The included sheets, counted one by one. */
  lemma SheetsOfSheets(config: ExportConfig)
    ensures SheetsOf(SHEETS, config) ==
              (if config.includeSummary then 1 else 0) + (if config.includeComments then 1 else 0) +
              (if config.includeAuthors then 1 else 0) + (if config.includeSnapshots then 1 else 0)
  {
    var c := if config.includeComments then 1 else 0;
    var a := if config.includeAuthors then 1 else 0;
    var n := if config.includeSnapshots then 1 else 0;
    var s3 := [SnapshotsSheet];
    assert s3[1..] == [];
    assert SheetsOf(s3, config) == n;
    var s2 := [AuthorsSheet] + s3;
    assert s2[1..] == s3;
    assert SheetsOf(s2, config) == a + n;
    var s1 := [CommentsSheet] + s2;
    assert s1[1..] == s2;
    assert SheetsOf(s1, config) == c + a + n;
    assert SHEETS == [SummarySheet] + s1;
    assert SHEETS[1..] == s1;
  }

  /** `calculateDataSize()`: adds the length of each included list in turn. */
  method CalculateDataSize(config: ExportConfig, comments: seq<Comment>, authors: seq<Author>, snapshots: seq<Snapshot>)
    returns (rows: nat)
    ensures rows == RowsOf(SHEETS, config, comments, authors, snapshots)
    ensures rows <= |comments| + |authors| + |snapshots|
  {
    rows := 0;
    if config.includeComments {
      rows := rows + |comments|;
    }
    if config.includeAuthors {
      rows := rows + |authors|;
    }
    if config.includeSnapshots {
      rows := rows + |snapshots|;
    }
    RowsOfSheets(config, comments, authors, snapshots);
  }

  /** `getSheetCount()`: one per included sheet, and at least one. */
  method GetSheetCount(config: ExportConfig) returns (sheets: nat)
    ensures sheets == if SheetsOf(SHEETS, config) > 0 then SheetsOf(SHEETS, config) else 1
    ensures 1 <= sheets <= 4
  {
    sheets := 0;
    if config.includeSummary {
      sheets := sheets + 1;
    }
    if config.includeComments {
      sheets := sheets + 1;
    }
    if config.includeAuthors {
      sheets := sheets + 1;
    }
    if config.includeSnapshots {
      sheets := sheets + 1;
    }
    SheetsOfSheets(config);
    if sheets < 1 {
      sheets := 1;
    }
  }

  /** Whether the filter settings go into the workbook changes neither
    * the row count nor the sheet count. */
  lemma FiltersChangeNothing(config: ExportConfig, includeFilters: bool, comments: seq<Comment>, authors: seq<Author>, snapshots: seq<Snapshot>)
    ensures RowsOf(SHEETS, config.(includeFilters := includeFilters), comments, authors, snapshots) ==
            RowsOf(SHEETS, config, comments, authors, snapshots)
    ensures SheetsOf(SHEETS, config.(includeFilters := includeFilters)) == SheetsOf(SHEETS, config)
  {
    RowsOfSheets(config, comments, authors, snapshots);
    RowsOfSheets(config.(includeFilters := includeFilters), comments, authors, snapshots);
    SheetsOfSheets(config);
    SheetsOfSheets(config.(includeFilters := includeFilters));
  }

  /** With the default options every comment, author and snapshot is a
    * row, on four sheets. */
  lemma DefaultExportsEverything(comments: seq<Comment>, authors: seq<Author>, snapshots: seq<Snapshot>)
    ensures RowsOf(SHEETS, DEFAULT_CONFIG, comments, authors, snapshots) == |comments| + |authors| + |snapshots|
    ensures SheetsOf(SHEETS, DEFAULT_CONFIG) == 4
  {
    RowsOfSheets(DEFAULT_CONFIG, comments, authors, snapshots);
    SheetsOfSheets(DEFAULT_CONFIG);
  }

  /** `Math.ceil(rows / 1000)` KB: none for no rows, and the kilobytes
    * cover the rows with less than a thousand to spare. */
  function SizeKb(rows: nat): (kb: nat)
    ensures kb == 0 <==> rows == 0
    ensures rows <= 1000 * kb < rows + 1000
  {
    (rows + 999) / 1000
  }
}
