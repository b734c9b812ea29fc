/** The hot-hours page: a 7 × 24 heatmap of mentions and average sentiment
  * by weekday and hour, the five busiest hours, the five best-liked hours,
  * and the colour and label helpers of the grid. A heatmap is indexed by
  * the weekday number of `getDay()` (0 is Sunday) and then by the hour;
  * the weekday names only label the rows. */
module HotHours {
  import opened Seqs
  import opened Ranking
  import opened Domain

  datatype Cell = Cell(mentions: nat, sentiment: real, count: nat)

  const DAYS: seq<string> := ["Sunday", "Monday", "Tuesday", "Wednesday", "Thursday", "Friday", "Saturday"]
  const EMPTY: Cell := Cell(0, 0.0, 0)

  /** 7 rows of 24 cells. */
  predicate Shaped(grid: seq<seq<Cell>>) {
    |grid| == 7 && forall d :: 0 <= d < 7 ==> |grid[d]| == 24
  }

  /** The comment has a date, and the date falls on that weekday and hour. */
  predicate InSlot(c: Comment, day: int, hour: int) {
    c.createdAt.Some? && WeekdayOf(c.createdAt.value) == day && HourOf(c.createdAt.value) == hour
  }

  function InSlotOf(day: int, hour: int): Comment -> bool {
    (c: Comment) => InSlot(c, day, hour)
  }

  predicate Dated(c: Comment) {
    c.createdAt.Some?
  }

  function Score(c: Comment): real {
    c.sentimentScore
  }

  /** The cell (day, hour) once the comments have been added: one mention,
    * one count and the score for every comment in that slot. */
  function Accumulated(cs: seq<Comment>, day: int, hour: int): (c: Cell)
    ensures c.mentions == c.count
    ensures c.count == 0 ==> c.sentiment == 0.0
  {
    if cs == [] then EMPTY
    else
      var c := Accumulated(cs[..|cs| - 1], day, hour);
      var x := cs[|cs| - 1];
      if InSlot(x, day, hour) then Cell(c.mentions + 1, c.sentiment + x.sentimentScore, c.count + 1) else c
  }

  /** A cell with data gets the average score; an empty cell is left alone. */
  function Averaged(c: Cell): Cell {
    if c.count > 0 then c.(sentiment := c.sentiment / c.count as real) else c
  }

  /** The finished cell (day, hour) of the heatmap of cs. */
  function HeatCell(cs: seq<Comment>, day: int, hour: int): Cell {
    Averaged(Accumulated(cs, day, hour))
  }

  /** `generateHeatmapData()`: build the zeroed grid, add every dated
    * comment to its cell, then average the cells that have data. */
  method GenerateHeatmap(comments: seq<Comment>) returns (grid: seq<seq<Cell>>)
    ensures Shaped(grid)
    ensures forall d, h :: 0 <= d < 7 && 0 <= h < 24 ==> grid[d][h] == HeatCell(comments, d, h)
  {
    grid := EmptyHeatmap();
    grid := AddComments(comments, grid);
    grid := AverageCells(comments, grid);
  }

  /** The initialisation loops: every cell starts at zero. */
  method EmptyHeatmap() returns (grid: seq<seq<Cell>>)
    ensures Shaped(grid)
    ensures forall d, h :: 0 <= d < 7 && 0 <= h < 24 ==> grid[d][h] == EMPTY
  {
    grid := [];
    var d := 0;
    while d < 7
      invariant 0 <= d <= 7 && |grid| == d
      invariant forall e :: 0 <= e < d ==> |grid[e]| == 24
      invariant forall e, h :: 0 <= e < d && 0 <= h < 24 ==> grid[e][h] == EMPTY
    {
      var row: seq<Cell> := [];
      var h := 0;
      while h < 24
        invariant 0 <= h <= 24 && |row| == h
        invariant forall k :: 0 <= k < h ==> row[k] == EMPTY
      {
        row := row + [EMPTY];
        h := h + 1;
      }
      grid := grid + [row];
      d := d + 1;
    }
  }

  /** The comments loop: a dated comment adds to the cell of its weekday and hour. */
  method AddComments(comments: seq<Comment>, start: seq<seq<Cell>>) returns (grid: seq<seq<Cell>>)
    requires Shaped(start)
    requires forall d, h :: 0 <= d < 7 && 0 <= h < 24 ==> start[d][h] == EMPTY
    ensures Shaped(grid)
    ensures forall d, h :: 0 <= d < 7 && 0 <= h < 24 ==> grid[d][h] == Accumulated(comments, d, h)
  {
    grid := start;
    var i := 0;
    while i < |comments|
      invariant 0 <= i <= |comments|
      invariant Shaped(grid)
      invariant forall d, h :: 0 <= d < 7 && 0 <= h < 24 ==> grid[d][h] == Accumulated(comments[..i], d, h)
    {
      var x := comments[i];
      assert comments[..i + 1][..i] == comments[..i];
      assert comments[..i + 1][i] == x;
      if x.createdAt.Some? {
        var ts := x.createdAt.value;
        TimeBounds(ts);
        var day, hour := WeekdayOf(ts), HourOf(ts);
        var c := grid[day][hour];
        grid := grid[day := grid[day][hour := Cell(c.mentions + 1, c.sentiment + x.sentimentScore, c.count + 1)]];
      }
      i := i + 1;
    }
    assert comments[..i] == comments;
  }

  /** The averaging loops, row by row. */
  method AverageCells(ghost comments: seq<Comment>, start: seq<seq<Cell>>) returns (grid: seq<seq<Cell>>)
    requires Shaped(start)
    requires forall d, h :: 0 <= d < 7 && 0 <= h < 24 ==> start[d][h] == Accumulated(comments, d, h)
    ensures Shaped(grid)
    ensures forall d, h :: 0 <= d < 7 && 0 <= h < 24 ==> grid[d][h] == HeatCell(comments, d, h)
  {
    grid := start;
    var d := 0;
    while d < 7
      invariant 0 <= d <= 7 && Shaped(grid)
      invariant forall e, h :: 0 <= e < d && 0 <= h < 24 ==> grid[e][h] == HeatCell(comments, e, h)
      invariant forall e, h :: d <= e < 7 && 0 <= h < 24 ==> grid[e][h] == Accumulated(comments, e, h)
    {
      var row := AverageRow(grid[d]);
      grid := grid[d := row];
      d := d + 1;
    }
  }

  /** `if (count > 0) sentiment = sentiment / count` for each hour of one day. */
  method AverageRow(start: seq<Cell>) returns (row: seq<Cell>)
    requires |start| == 24
    ensures |row| == 24
    ensures forall h :: 0 <= h < 24 ==> row[h] == Averaged(start[h])
  {
    row := start;
    var h := 0;
    while h < 24
      invariant 0 <= h <= 24 && |row| == 24
      invariant forall k :: 0 <= k < h ==> row[k] == Averaged(start[k])
      invariant forall k :: h <= k < 24 ==> row[k] == start[k]
    {
      if row[h].count > 0 {
        var c := row[h];
        row := row[h := c.(sentiment := c.sentiment / c.count as real)];
      }
      h := h + 1;
    }
  }

  // ------------------------------------------------- what a cell holds

  /** The comments of one slot, in order. */
  function Slot(cs: seq<Comment>, day: int, hour: int): seq<Comment> {
    Filter(cs, InSlotOf(day, hour))
  }

  /** A cell counts the comments of its slot and sums their scores. */
  lemma AccumulatedMeaning(cs: seq<Comment>, day: int, hour: int)
    ensures Accumulated(cs, day, hour) ==
            Cell(|Slot(cs, day, hour)|, Sum(Slot(cs, day, hour), Score), |Slot(cs, day, hour)|)
  {
    AccumulatedCount(cs, day, hour);
    AccumulatedSum(cs, day, hour);
  }

  /** The count of a cell is the size of its slot. */
  lemma {:induction false} AccumulatedCount(cs: seq<Comment>, day: int, hour: int)
    ensures Accumulated(cs, day, hour).count == |Slot(cs, day, hour)|
  {
    if cs != [] {
      var init, x := cs[..|cs| - 1], cs[|cs| - 1];
      assert cs == init + [x];
      AccumulatedCount(init, day, hour);
      FilterAppend(init, x, InSlotOf(day, hour));
    }
  }

  /** The sentiment of a cell is the sum of its slot's scores. */
  lemma {:induction false} AccumulatedSum(cs: seq<Comment>, day: int, hour: int)
    ensures Accumulated(cs, day, hour).sentiment == Sum(Slot(cs, day, hour), Score)
  {
    if cs != [] {
      var init, x := cs[..|cs| - 1], cs[|cs| - 1];
      assert cs == init + [x];
      AccumulatedSum(init, day, hour);
      FilterAppend(init, x, InSlotOf(day, hour));
      if InSlot(x, day, hour) {
        SumAppend(Slot(init, day, hour), x, Score);
      } else {
        assert Slot(cs, day, hour) == Slot(init, day, hour) + [];
        assert Slot(init, day, hour) + [] == Slot(init, day, hour);
      }
    }
  }

  /** A dated comment belongs to exactly one cell of the grid, and an
    * undated one to none. */
  lemma OneSlotPerComment(x: Comment)
    ensures Dated(x) ==> 0 <= WeekdayOf(x.createdAt.value) < 7 && 0 <= HourOf(x.createdAt.value) < 24 &&
                         InSlot(x, WeekdayOf(x.createdAt.value), HourOf(x.createdAt.value))
    ensures forall d1, h1, d2, h2 :: InSlot(x, d1, h1) && InSlot(x, d2, h2) ==> d1 == d2 && h1 == h2
    ensures !Dated(x) ==> forall d, h :: !InSlot(x, d, h)
  {
    if Dated(x) {
      TimeBounds(x.createdAt.value);
    }
  }

  /** Adding a comment adds one mention and one count to its own cell and
    * leaves every other cell as it was. */
  lemma AddOneComment(cs: seq<Comment>, x: Comment, day: int, hour: int)
    ensures InSlot(x, day, hour) ==>
      Accumulated(cs + [x], day, hour) == Cell(Accumulated(cs, day, hour).mentions + 1,
                                               Accumulated(cs, day, hour).sentiment + x.sentimentScore,
                                               Accumulated(cs, day, hour).count + 1)
    ensures !InSlot(x, day, hour) ==> Accumulated(cs + [x], day, hour) == Accumulated(cs, day, hour)
  {
    assert (cs + [x])[..|cs|] == cs;
  }

  /** A cell without data stays at zero; averaging keeps the mention count. */
  lemma EmptyCellsStayZero(cs: seq<Comment>, day: int, hour: int)
    ensures HeatCell(cs, day, hour).count == 0 ==> HeatCell(cs, day, hour) == EMPTY
    ensures HeatCell(cs, day, hour).mentions == HeatCell(cs, day, hour).count == Count(cs, InSlotOf(day, hour))
  {
    AccumulatedMeaning(cs, day, hour);
    assert Count(cs, InSlotOf(day, hour)) == |Slot(cs, day, hour)|;
  }

  /** With every score in [0, 1], a cell's average lies in [0, 1] too. */
  lemma {:induction false} HeatSentimentInRange(cs: seq<Comment>, day: int, hour: int)
    requires forall c :: c in cs ==> 0.0 <= c.sentimentScore <= 1.0
    ensures 0.0 <= HeatCell(cs, day, hour).sentiment <= 1.0
  {
    var a := Accumulated(cs, day, hour);
    var slot := Slot(cs, day, hour);
    AccumulatedMeaning(cs, day, hour);
    assert a.sentiment == Sum(slot, Score) && a.count == |slot|;
    assert forall c :: c in slot ==> c in cs;
    SumWithinLength(slot, Score);
    if a.count > 0 {
      QuotientInUnit(a.sentiment, a.count as real);
    }
  }


  // ------------------------------------------------------ total mentions

  /** Mentions of the first n hours of one weekday. */
  function RowMentions(cs: seq<Comment>, day: int, n: nat): nat {
    if n == 0 then 0 else RowMentions(cs, day, n - 1) + HeatCell(cs, day, n - 1).mentions
  }

  /** Mentions of the first n weekdays, every hour. */
  function GridMentions(cs: seq<Comment>, n: nat): nat {
    if n == 0 then 0 else GridMentions(cs, n - 1) + RowMentions(cs, n - 1, 24)
  }

  lemma {:induction false} RowMentionsStep(cs: seq<Comment>, x: Comment, day: int, n: nat)
    ensures RowMentions(cs + [x], day, n) ==
            RowMentions(cs, day, n) + (if Dated(x) && WeekdayOf(x.createdAt.value) == day && HourOf(x.createdAt.value) < n then 1 else 0)
  {
    if n > 0 {
      RowMentionsStep(cs, x, day, n - 1);
      AddOneComment(cs, x, day, n - 1);
      if Dated(x) {
        TimeBounds(x.createdAt.value);
      }
    }
  }

  lemma {:induction false} GridMentionsStep(cs: seq<Comment>, x: Comment, n: nat)
    ensures GridMentions(cs + [x], n) ==
            GridMentions(cs, n) + (if Dated(x) && WeekdayOf(x.createdAt.value) < n then 1 else 0)
  {
    if n > 0 {
      GridMentionsStep(cs, x, n - 1);
      RowMentionsStep(cs, x, n - 1, 24);
      if Dated(x) {
        TimeBounds(x.createdAt.value);
      }
    }
  }

  /** The mentions of the whole grid add up to the number of dated
    * comments: every dated comment lands in the grid once, and undated
    * ones are skipped. */
  lemma {:induction false} TotalMentions(cs: seq<Comment>)
    ensures GridMentions(cs, 7) == Count(cs, Dated)
  {
    if cs == [] {
      ZeroMentions(cs, 7);
    } else {
      var init, x := cs[..|cs| - 1], cs[|cs| - 1];
      assert cs == init + [x];
      TotalMentions(init);
      GridMentionsStep(init, x, 7);
      CountAppend(init, x, Dated);
      if Dated(x) {
        TimeBounds(x.createdAt.value);
      }
    }
  }

  lemma {:induction false} ZeroMentions(cs: seq<Comment>, n: nat)
    requires cs == []
    ensures GridMentions(cs, n) == 0
  {
    if n > 0 {
      ZeroMentions(cs, n - 1);
      ZeroRow(cs, n - 1, 24);
    }
  }

  lemma {:induction false} ZeroRow(cs: seq<Comment>, day: int, n: nat)
    requires cs == []
    ensures RowMentions(cs, day, n) == 0
  {
    if n > 0 {
      ZeroRow(cs, day, n - 1);
    }
  }

  // ---------------------------------------------------------- peak hours

  datatype HourMentions = HourMentions(hour: int, mentions: nat)

  function MentionsKey(p: HourMentions): real {
    p.mentions as real
  }

  /** Mentions of one hour over the first n weekdays of the grid. */
  function ColumnMentions(grid: seq<seq<Cell>>, hour: int, n: nat): nat
    requires Shaped(grid) && 0 <= hour < 24 && n <= 7
  {
    if n == 0 then 0 else ColumnMentions(grid, hour, n - 1) + grid[n - 1][hour].mentions
  }

  /** `hourlyTotals` as entries, hour 0 first. */
  function HourlyTotals(grid: seq<seq<Cell>>): seq<HourMentions>
    requires Shaped(grid)
  {
    seq(24, k requires 0 <= k < 24 => HourMentions(k, ColumnMentions(grid, k, 7)))
  }

  /** The five busiest hours: the totals sorted by mentions, first five. */
  function PeakHours(grid: seq<seq<Cell>>): seq<HourMentions>
    requires Shaped(grid)
  {
    Take(SortDesc(HourlyTotals(grid), MentionsKey), 5)
  }

  /** `findPeakHours()`: the 24 hourly totals over the seven days, sorted by
    * total, the first five kept. */
  method FindPeakHours(grid: seq<seq<Cell>>) returns (peaks: seq<HourMentions>)
    requires Shaped(grid)
    ensures peaks == PeakHours(grid)
  {
    var totals: seq<HourMentions> := [];
    var hour := 0;
    while hour < 24
      invariant 0 <= hour <= 24 && |totals| == hour
      invariant forall k :: 0 <= k < hour ==> totals[k] == HourMentions(k, ColumnMentions(grid, k, 7))
    {
      var t := 0;
      var d := 0;
      while d < 7
        invariant 0 <= d <= 7 && t == ColumnMentions(grid, hour, d)
      {
        t := t + grid[d][hour].mentions;
        d := d + 1;
      }
      totals := totals + [HourMentions(hour, t)];
      hour := hour + 1;
    }
    assert totals == HourlyTotals(grid);
    peaks := Take(SortDesc(totals, MentionsKey), 5);
  }

  /** Exactly five hours, busiest first, each with its true total over the
    * week, and no hour left out is busier than one kept. */
  lemma PeakHoursRanked(grid: seq<seq<Cell>>)
    requires Shaped(grid)
    ensures |PeakHours(grid)| == 5
    ensures SortedDesc(PeakHours(grid), MentionsKey)
    ensures forall p :: p in PeakHours(grid) ==> 0 <= p.hour < 24 && p.mentions == ColumnMentions(grid, p.hour, 7)
    ensures forall h, p :: 0 <= h < 24 && p in PeakHours(grid) && (forall q :: q in PeakHours(grid) ==> q.hour != h)
              ==> p.mentions >= ColumnMentions(grid, h, 7)
  {
    var totals := HourlyTotals(grid);
    var peaks := PeakHours(grid);
    TopDominates(totals, MentionsKey, 5);
    SortDescMembers(totals, MentionsKey);
    forall p | p in peaks
      ensures 0 <= p.hour < 24 && p.mentions == ColumnMentions(grid, p.hour, 7)
    {
      var sorted := SortDesc(totals, MentionsKey);
      assert p in sorted;
      assert p in totals;
      var k :| 0 <= k < 24 && totals[k] == p;
    }
    forall h, p | 0 <= h < 24 && p in peaks && (forall q :: q in peaks ==> q.hour != h)
      ensures p.mentions >= ColumnMentions(grid, h, 7)
    {
      assert totals[h] in totals;
    }
  }

  // ------------------------------------------------ best sentiment hours

  /** An hour's average over the days that have data. */
  datatype HourSentiment = HourSentiment(hour: int, sentiment: real, count: nat)

  /** What the page keeps of it. */
  datatype HourScore = HourScore(hour: int, sentiment: real)

  function SentimentKey(s: HourSentiment): real {
    s.sentiment
  }

  predicate HasData(s: HourSentiment) {
    s.count > 0
  }

  /** Number of the first n weekdays with data at that hour. */
  function DaysWithData(grid: seq<seq<Cell>>, hour: int, n: nat): nat
    requires Shaped(grid) && 0 <= hour < 24 && n <= 7
  {
    if n == 0 then 0 else DaysWithData(grid, hour, n - 1) + (if grid[n - 1][hour].count > 0 then 1 else 0)
  }

  /** Sum of the cell averages of those days. */
  function DaySentimentSum(grid: seq<seq<Cell>>, hour: int, n: nat): real
    requires Shaped(grid) && 0 <= hour < 24 && n <= 7
  {
    if n == 0 then 0.0
    else DaySentimentSum(grid, hour, n - 1) + (if grid[n - 1][hour].count > 0 then grid[n - 1][hour].sentiment else 0.0)
  }

  /** Without days with data the sum is empty. */
  lemma {:induction false} NoDataNoSum(grid: seq<seq<Cell>>, hour: int, n: nat)
    requires Shaped(grid) && 0 <= hour < 24 && n <= 7
    ensures DaysWithData(grid, hour, n) == 0 ==> DaySentimentSum(grid, hour, n) == 0.0
  {
    if n > 0 {
      NoDataNoSum(grid, hour, n - 1);
    }
  }

  /** The hour's average over its days with data. */
  function HourAverage(grid: seq<seq<Cell>>, hour: int): real
    requires Shaped(grid) && 0 <= hour < 24
  {
    var k := DaysWithData(grid, hour, 7);
    if k > 0 then DaySentimentSum(grid, hour, 7) / k as real else 0.0
  }

  /** `hourlySentiment` as entries, hour 0 first. */
  function HourlySentiment(grid: seq<seq<Cell>>): seq<HourSentiment>
    requires Shaped(grid)
  {
    seq(24, k requires 0 <= k < 24 => HourSentiment(k, HourAverage(grid, k), DaysWithData(grid, k, 7)))
  }

  /** The entries with data, best average first, at most five. */
  function BestEntries(grid: seq<seq<Cell>>): seq<HourSentiment>
    requires Shaped(grid)
  {
    Take(SortDesc(Filter(HourlySentiment(grid), HasData), SentimentKey), 5)
  }

  /** `.map(([hour, data]) => ({ hour, sentiment: data.sentiment }))` */
  function Scores(entries: seq<HourSentiment>): (r: seq<HourScore>)
    ensures |r| == |entries|
    ensures forall i :: 0 <= i < |r| ==> r[i] == HourScore(entries[i].hour, entries[i].sentiment)
  {
    seq(|entries|, i requires 0 <= i < |entries| => HourScore(entries[i].hour, entries[i].sentiment))
  }

  function BestHours(grid: seq<seq<Cell>>): seq<HourScore>
    requires Shaped(grid)
  {
    Scores(BestEntries(grid))
  }

  /** `findBestSentimentHours()`: per hour the average over the days with
    * data; hours without data are dropped, the rest sorted by average and
    * the first five kept. */
  method FindBestSentimentHours(grid: seq<seq<Cell>>) returns (best: seq<HourScore>)
    requires Shaped(grid)
    ensures best == BestHours(grid)
  {
    var hourly: seq<HourSentiment> := [];
    var hour := 0;
    while hour < 24
      invariant 0 <= hour <= 24 && |hourly| == hour
      invariant forall k :: 0 <= k < hour ==> hourly[k] == HourlySentiment(grid)[k]
    {
      var entry := HourEntry(grid, hour);
      hourly := hourly + [entry];
      hour := hour + 1;
    }
    assert hourly == HourlySentiment(grid);
    var top := Take(SortDesc(Filter(hourly, HasData), SentimentKey), 5);
    best := Scores(top);
  }

  /** One hour of `findBestSentimentHours`: the days loop, then the average. */
  method HourEntry(grid: seq<seq<Cell>>, hour: int) returns (entry: HourSentiment)
    requires Shaped(grid) && 0 <= hour < 24
    ensures entry == HourSentiment(hour, HourAverage(grid, hour), DaysWithData(grid, hour, 7))
  {
    var s := 0.0;
    var count := 0;
    var d := 0;
    while d < 7
      invariant 0 <= d <= 7
      invariant s == DaySentimentSum(grid, hour, d) && count == DaysWithData(grid, hour, d)
    {
      if grid[d][hour].count > 0 {
        s := s + grid[d][hour].sentiment;
        count := count + 1;
      }
      d := d + 1;
    }
    NoDataNoSum(grid, hour, 7);
    if count > 0 {
      s := s / count as real;
    }
    entry := HourSentiment(hour, s, count);
  }

  /** At most five hours, best first, each an hour with data shown with its
    * true average. */
  lemma BestHoursRanked(grid: seq<seq<Cell>>)
    requires Shaped(grid)
    ensures |BestHours(grid)| <= 5
    ensures forall i, j :: 0 <= i < j < |BestHours(grid)| ==> BestHours(grid)[i].sentiment >= BestHours(grid)[j].sentiment
    ensures forall b :: b in BestHours(grid) ==>
              0 <= b.hour < 24 && DaysWithData(grid, b.hour, 7) > 0 && b.sentiment == HourAverage(grid, b.hour)
  {
    var top := BestEntries(grid);
    BestEntriesFacts(grid);
    forall b | b in BestHours(grid)
      ensures 0 <= b.hour < 24 && DaysWithData(grid, b.hour, 7) > 0 && b.sentiment == HourAverage(grid, b.hour)
    {
      var i :| 0 <= i < |BestHours(grid)| && BestHours(grid)[i] == b;
      HourWithData(grid, top[i]);
    }
  }

  /** The kept entries are at most five, best first, and all have data. */
  lemma BestEntriesFacts(grid: seq<seq<Cell>>)
    requires Shaped(grid)
    ensures |BestEntries(grid)| <= 5
    ensures SortedDesc(BestEntries(grid), SentimentKey)
    ensures forall i :: 0 <= i < |BestEntries(grid)| ==> BestEntries(grid)[i] in Filter(HourlySentiment(grid), HasData)
  {
    var withData := Filter(HourlySentiment(grid), HasData);
    var sorted := SortDesc(withData, SentimentKey);
    TopDominates(withData, SentimentKey, 5);
    SortDescMembers(withData, SentimentKey);
    forall i | 0 <= i < |BestEntries(grid)| ensures BestEntries(grid)[i] in withData {
      assert BestEntries(grid)[i] == sorted[i];
    }
  }

  /** An hourly entry with data describes its hour truly. */
  lemma HourWithData(grid: seq<seq<Cell>>, e: HourSentiment)
    requires Shaped(grid) && e in Filter(HourlySentiment(grid), HasData)
    ensures 0 <= e.hour < 24 && DaysWithData(grid, e.hour, 7) > 0 && e.sentiment == HourAverage(grid, e.hour)
  {
    var k :| 0 <= k < 24 && HourlySentiment(grid)[k] == e;
  }

  /** An hour with data that was left out has an average no better than any
    * hour kept. */
  lemma BestHoursDominate(grid: seq<seq<Cell>>, h: int, b: HourScore)
    requires Shaped(grid) && 0 <= h < 24 && DaysWithData(grid, h, 7) > 0
    requires b in BestHours(grid)
    requires forall c :: c in BestHours(grid) ==> c.hour != h
    ensures b.sentiment >= HourAverage(grid, h)
  {
    var hourly := HourlySentiment(grid);
    var withData := Filter(hourly, HasData);
    var top := BestEntries(grid);
    var best := BestHours(grid);
    TopDominates(withData, SentimentKey, 5);
    var i :| 0 <= i < |best| && best[i] == b;
    assert hourly[h] in withData;
    forall j | 0 <= j < |top| ensures top[j] != hourly[h] {
      assert best[j] in best;
    }
    assert hourly[h] !in top;
    assert top[i] in top;
  }

  // -------------------------------------------------------------- helpers

  const GRAY: string := "bg-gray-100"

  /** `getIntensityColor(value, maxValue)`: gray with no data, otherwise one
    * of five blues by the share of the maximum. */
  function IntensityColor(value: real, maxValue: real): (cls: string)
    ensures cls == GRAY <==> maxValue == 0.0 || value / maxValue == 0.0
    ensures maxValue != 0.0 && value / maxValue != 0.0 ==>
      cls == (if value / maxValue < 0.2 then "bg-blue-100"
              else if value / maxValue < 0.4 then "bg-blue-200"
              else if value / maxValue < 0.6 then "bg-blue-300"
              else if value / maxValue < 0.8 then "bg-blue-400"
              else "bg-blue-500")
  {
    if maxValue == 0.0 then GRAY
    else
      var intensity := value / maxValue;
      if intensity == 0.0 then GRAY
      else if intensity < 0.2 then "bg-blue-100"
      else if intensity < 0.4 then "bg-blue-200"
      else if intensity < 0.6 then "bg-blue-300"
      else if intensity < 0.8 then "bg-blue-400"
      else "bg-blue-500"
  }

  /** Position of a colour on the intensity scale. */
  function Shade(cls: string): nat {
    if cls == "bg-blue-100" then 1
    else if cls == "bg-blue-200" then 2
    else if cls == "bg-blue-300" then 3
    else if cls == "bg-blue-400" then 4
    else if cls == "bg-blue-500" then 5
    else 0
  }

  /** Against the same positive maximum, more mentions never get a lighter shade. */
  lemma IntensityMonotone(a: real, b: real, maxValue: real)
    requires 0.0 <= a <= b && maxValue > 0.0
    ensures Shade(IntensityColor(a, maxValue)) <= Shade(IntensityColor(b, maxValue))
  {
    assert a / maxValue <= b / maxValue;
  }

  /** The largest mention count among the first `n` cells of a row. */
  function RowMax(row: seq<Cell>, n: nat): (m: nat)
    requires 0 < n <= |row|
    ensures forall h :: 0 <= h < n ==> row[h].mentions <= m
    ensures exists h :: 0 <= h < n && row[h].mentions == m
  {
    if n == 1 then row[0].mentions
    else
      var m := RowMax(row, n - 1);
      if row[n - 1].mentions > m then row[n - 1].mentions else m
  }

  /** The largest mention count among the cells of the first `n` rows. */
  function GridMax(grid: seq<seq<Cell>>, n: nat): (m: nat)
    requires Shaped(grid) && 0 < n <= 7
    ensures forall d, h :: 0 <= d < n && 0 <= h < 24 ==> grid[d][h].mentions <= m
    ensures exists d, h :: 0 <= d < n && 0 <= h < 24 && grid[d][h].mentions == m
  {
    if n == 1 then RowMax(grid[0], 24)
    else
      var m := GridMax(grid, n - 1);
      var r := RowMax(grid[n - 1], 24);
      if r > m then r else m
  }

  /** `maxMentions`: `Math.max` over the mentions of all 168 cells. */
  function MaxMentions(grid: seq<seq<Cell>>): (m: nat)
    requires Shaped(grid)
    ensures forall d, h :: 0 <= d < 7 && 0 <= h < 24 ==> grid[d][h].mentions <= m
    ensures exists d, h :: 0 <= d < 7 && 0 <= h < 24 && grid[d][h].mentions == m
  {
    GridMax(grid, 7)
  }

  /** On the heatmap's scale a cell with mentions is never gray, and a
    * busiest cell gets the darkest blue. */
  lemma BusiestCellDarkest(grid: seq<seq<Cell>>, d: int, h: int)
    requires Shaped(grid) && 0 <= d < 7 && 0 <= h < 24
    ensures grid[d][h].mentions > 0 ==>
      IntensityColor(grid[d][h].mentions as real, MaxMentions(grid) as real) != GRAY
    ensures grid[d][h].mentions == MaxMentions(grid) > 0 ==>
      IntensityColor(grid[d][h].mentions as real, MaxMentions(grid) as real) == "bg-blue-500"
  {
    var m := MaxMentions(grid);
    assert grid[d][h].mentions <= m;
    if grid[d][h].mentions > 0 {
      RatioFacts(grid[d][h].mentions as real, m as real);
    }
  }

  /** A positive share of a maximum is positive, and the maximum's own share is 1. */
  lemma RatioFacts(v: real, m: real)
    requires 0.0 < v <= m
    ensures v / m > 0.0
    ensures v == m ==> v / m == 1.0
  {
    assert v / m * m == v;
  }

  /** The hot-hours page's own `getSentimentColor(sentiment)`, on an average score. */
  function CellSentimentColor(sentiment: real): (cls: string)
    ensures cls == "bg-green-400" <==> sentiment > 0.7
    ensures cls == "bg-yellow-400" <==> 0.4 < sentiment <= 0.7
    ensures cls == "bg-red-400" <==> sentiment <= 0.4
  {
    if sentiment > 0.7 then "bg-green-400"
    else if sentiment > 0.4 then "bg-yellow-400"
    else "bg-red-400"
  }

  /** A clock label: the number shown and "AM" or "PM". */
  datatype ClockHour = ClockHour(shown: int, half: string)

  /** `formatHour(hour)` */
  function FormatHour(hour: int): (t: ClockHour)
    ensures hour == 0 ==> t == ClockHour(12, "AM")
    ensures 0 < hour < 12 ==> t == ClockHour(hour, "AM")
    ensures hour == 12 ==> t == ClockHour(12, "PM")
    ensures hour > 12 ==> t == ClockHour(hour - 12, "PM")
  {
    if hour == 0 then ClockHour(12, "AM")
    else if hour < 12 then ClockHour(hour, "AM")
    else if hour == 12 then ClockHour(12, "PM")
    else ClockHour(hour - 12, "PM")
  }

  /** Every hour of the day gets a label between 1 and 12, and no two hours
    * share a label. */
  lemma FormatHourReadable(h1: int, h2: int)
    requires 0 <= h1 < 24 && 0 <= h2 < 24
    ensures 1 <= FormatHour(h1).shown <= 12
    ensures FormatHour(h1).half == (if h1 < 12 then "AM" else "PM")
    ensures FormatHour(h1) == FormatHour(h2) ==> h1 == h2
  {
  }
}
