/** The computations behind the timetable display: the table rows (a day
    name then one cell per period), the column headers with period times,
    and the colour codes of the visual (heatmap) view. */
module Display {
  import opened Timetables
  import Scheduler

  /** A table cell: the first entry of the period, or FREE when the period
      is missing or has no entries. */
  function TableCell(slots: map<int, seq<string>>, period: int): string
  {
    if period in slots && |slots[period]| > 0 then slots[period][0] else "FREE"
  }

  /** The header of period column `i`: `P{i+1}`, a line break, then `start-end`. */
  function ColumnHeader(i: nat, pt: PeriodTime): string
  {
    "P" + NatToString(i + 1) + "\n" + pt.start + "-" + pt.end
  }

  /** Builds the table rows and the column headers, as the display loops do. */
  method BuildTable(timetable: Timetable, periodTimes: seq<PeriodTime>)
    returns (rows: seq<seq<string>>, columns: seq<string>)
    ensures |rows| == |timetable|
    ensures forall d :: 0 <= d < |rows| ==>
      |rows[d]| == |periodTimes| + 1 && rows[d][0] == timetable[d].day
    ensures forall d, c :: 0 <= d < |rows| && 1 <= c <= |periodTimes| ==>
      rows[d][c] == TableCell(timetable[d].slots, c - 1)
    ensures |columns| == |periodTimes| + 1 && columns[0] == "Day"
    ensures forall c :: 1 <= c <= |periodTimes| ==> columns[c] == ColumnHeader(c - 1, periodTimes[c - 1])
  {
    rows := [];
    var d := 0;
    while d < |timetable|
      invariant 0 <= d <= |timetable|
      invariant |rows| == d
      invariant forall e :: 0 <= e < d ==>
        |rows[e]| == |periodTimes| + 1 && rows[e][0] == timetable[e].day
      invariant forall e, c :: 0 <= e < d && 1 <= c <= |periodTimes| ==>
        rows[e][c] == TableCell(timetable[e].slots, c - 1)
    {
      var dayRow := [timetable[d].day];
      var period := 0;
      while period < |periodTimes|
        invariant 0 <= period <= |periodTimes|
        invariant |dayRow| == period + 1 && dayRow[0] == timetable[d].day
        invariant forall c :: 1 <= c <= period ==> dayRow[c] == TableCell(timetable[d].slots, c - 1)
      {
        if period in timetable[d].slots {
          var entries := timetable[d].slots[period];
          dayRow := dayRow + [if |entries| > 0 then entries[0] else "FREE"];
        } else {
          dayRow := dayRow + ["FREE"];
        }
        period := period + 1;
      }
      rows := rows + [dayRow];
      d := d + 1;
    }
    columns := ["Day"];
    var period := 0;
    while period < |periodTimes|
      invariant 0 <= period <= |periodTimes|
      invariant |columns| == period + 1 && columns[0] == "Day"
      invariant forall c :: 1 <= c <= period ==> columns[c] == ColumnHeader(c - 1, periodTimes[c - 1])
    {
      var pt := periodTimes[period];
      columns := columns + ["P" + NatToString(period + 1) + "\n" + pt.start + "-" + pt.end];
      period := period + 1;
    }
  }

  /** Column headers are pairwise distinct, whatever the period times are. */
  lemma {:induction false} HeadersDistinct(i: nat, j: nat, a: PeriodTime, b: PeriodTime)
    requires i != j
    ensures ColumnHeader(i, a) != ColumnHeader(j, b)
  {
    var x, y := NatToString(i + 1), NatToString(j + 1);
    var hx, hy := ColumnHeader(i, a), ColumnHeader(j, b);
    // The number runs up to the first line break, which no digit is.
    if |x| < |y| {
      assert hx[1 + |x|] == '\n';
      assert hy[1 + |x|] == y[|x|];
    } else if |y| < |x| {
      assert hy[1 + |y|] == '\n';
      assert hx[1 + |y|] == x[|y|];
    } else {
      assert hx[1..1 + |x|] == x;
      assert hy[1..1 + |y|] == y;
      if x == y {
        NatToStringInjective(i + 1, j + 1);
      }
    }
  }

  /** The colour of an entry in the visual view, tests taken in this order:
      0 for a break or lunch, 2 for a lab, 3 for library, training or a
      meeting, and 1 for any other class. */
  function ColourCode(entry: string): (c: int)
    ensures c == 0 <==> Contains(entry, "Break") || Contains(entry, "Lunch")
    ensures c == 2 <==> !(Contains(entry, "Break") || Contains(entry, "Lunch")) && Contains(entry, "Lab")
    ensures c == 3 <==>
      (!(Contains(entry, "Break") || Contains(entry, "Lunch") || Contains(entry, "Lab")) &&
       (Contains(entry, "Library") || Contains(entry, "Training") || Contains(entry, "Meeting")))
    ensures c == 1 <==> !(Contains(entry, "Break") || Contains(entry, "Lunch") || Contains(entry, "Lab") ||
                          Contains(entry, "Library") || Contains(entry, "Training") || Contains(entry, "Meeting"))
  {
    if Contains(entry, "Break") || Contains(entry, "Lunch") then 0
    else if Contains(entry, "Lab") then 2
    else if Contains(entry, "Library") || Contains(entry, "Training") || Contains(entry, "Meeting") then 3
    else 1
  }

  /** The heatmap value of one period: the colour of its first entry, or -1
      when the day has no such period. */
  function HeatValue(slots: map<int, seq<string>>, period: int): int
    requires period in slots ==> |slots[period]| > 0
  {
    if period in slots then ColourCode(slots[period][0]) else -1
  }

  /** Some period of the shown range is present with an empty entry list, on
      which the visual view's unguarded `[0]` fails. */
  predicate HasEmptyCell(timetable: Timetable, n: int)
  {
    exists d, p :: 0 <= d < |timetable| && 0 <= p < n && p in timetable[d].slots && timetable[d].slots[p] == []
  }

  /** Builds the heatmap grid. When a shown period is present but empty, the
      failure is caught by the view and no heatmap is drawn: None. */
  method BuildHeatmap(timetable: Timetable, periodTimes: seq<PeriodTime>) returns (z: Option<seq<seq<int>>>)
    ensures z.None? <==> HasEmptyCell(timetable, |periodTimes|)
    ensures z.Some? ==>
      (|z.value| == |timetable| && forall d :: 0 <= d < |timetable| ==> |z.value[d]| == |periodTimes|)
    ensures z.Some? ==> forall d, p :: 0 <= d < |timetable| && 0 <= p < |periodTimes| ==>
      z.value[d][p] == HeatValue(timetable[d].slots, p)
  {
    var grid: seq<seq<int>> := [];
    var d := 0;
    while d < |timetable|
      invariant 0 <= d <= |timetable|
      invariant |grid| == d
      invariant forall e, p :: 0 <= e < d && 0 <= p < |periodTimes| ==>
        (p in timetable[e].slots ==> timetable[e].slots[p] != [])
      invariant forall e :: 0 <= e < d ==> |grid[e]| == |periodTimes|
      invariant forall e, p :: 0 <= e < d && 0 <= p < |periodTimes| ==>
        grid[e][p] == HeatValue(timetable[e].slots, p)
    {
      var dayZ: seq<int> := [];
      var period := 0;
      while period < |periodTimes|
        invariant 0 <= period <= |periodTimes|
        invariant |dayZ| == period
        invariant forall p :: 0 <= p < period ==>
          (p in timetable[d].slots ==> timetable[d].slots[p] != [])
        invariant forall p :: 0 <= p < period ==> dayZ[p] == HeatValue(timetable[d].slots, p)
      {
        if period in timetable[d].slots {
          var entries := timetable[d].slots[period];
          if entries == [] {
            return None;
          }
          dayZ := dayZ + [ColourCode(entries[0])];
        } else {
          dayZ := dayZ + [-1];
        }
        period := period + 1;
      }
      grid := grid + [dayZ];
      d := d + 1;
    }
    z := Some(grid);
  }

  /** The break names of the default day are all drawn grey. */
  lemma DefaultBreakNamesAreGrey()
    ensures forall p :: p in Scheduler.DefaultBreakPeriods ==> ColourCode(DefaultPeriodTimes[p].name) == 0
  {
    ContainsAt("Morning Break", "Break", 8);
    ContainsAt("Lunch Break", "Break", 6);
    ContainsAt("Evening Break", "Break", 8);
  }

  /** In the table of a generated timetable, a break period shows the
      break's name on every day, and every other period shows the sample's
      first entry, or FREE. */
  lemma TableOfGenerated(days: seq<string>, periodTimes: seq<PeriodTime>, breakPeriods: seq<int>,
                         sample: Scheduler.SampleTimetable, d: int, p: int)
    requires Scheduler.SampleCovers(days, sample)
    requires 0 <= d < |days| && 0 <= p < |periodTimes|
    ensures var t := Scheduler.Overlay(days, periodTimes, breakPeriods, sample);
      TableCell(t[d].slots, p) ==
        if p in breakPeriods then periodTimes[p].name else TableCell(sample[days[d]], p)
  {
  }

  /** On the default week every break cell of the heatmap is grey. */
  lemma DefaultHeatmapBreaksGrey(periodTimes: seq<PeriodTime>, d: int, p: int)
    requires |periodTimes| == |DefaultPeriodTimes| && 0 <= d < 5
    requires forall q :: 0 <= q < |periodTimes| ==> periodTimes[q].name == DefaultPeriodTimes[q].name
    requires p in Scheduler.DefaultBreakPeriods
    ensures var t := Scheduler.Overlay(Weekdays, periodTimes, Scheduler.DefaultBreakPeriods, Scheduler.DefaultSampleTimetable);
      p in t[d].slots && t[d].slots[p] != [] && HeatValue(t[d].slots, p) == 0
  {
    DefaultBreakNamesAreGrey();
  }
}
