/** The flexible-time-structure scheduler: an object holding the week's days,
    the period map, the fixed break periods and a sample timetable, whose
    timetable generation overlays the breaks on the sample for every day. */
module Scheduler {
  import opened Timetables

  /** Day name -> period -> entries, as the scheduler keeps its sample. */
  type SampleTimetable = map<string, map<int, seq<string>>>

  /** Morning break, lunch and evening break of the default day. */
  const DefaultBreakPeriods: seq<int> := [2, 5, 8]

  const DefaultSampleTimetable: SampleTimetable := map[
    "Monday" := map[
      0 := ["EMF (Ms.H.Asra)"], 1 := ["Signals (Ms.Rubitha)"], 2 := ["Morning Break"],
      3 := ["EDC (Ms.Shantha)"], 4 := ["PRP (Ms.Christina)"], 5 := ["Lunch Break"],
      6 := ["DSD (Ms.Shiva)"], 7 := ["EMF Tutorial"], 8 := ["Evening Break"],
      9 := ["Signals Lab"], 10 := ["Project Work"]],
    "Tuesday" := map[
      0 := ["Signals (Ms.Rubitha)"], 1 := ["DSD (Ms.Shiva)"], 2 := ["Morning Break"],
      3 := ["PRP (Ms.Christina)"], 4 := ["EMF (Ms.H.Asra)"], 5 := ["Lunch Break"],
      6 := ["EDC (Ms.Shantha)"], 7 := ["Aptitude (Ms.Asra)"], 8 := ["Evening Break"],
      9 := ["EDC Lab"], 10 := ["Library"]],
    "Wednesday" := map[
      0 := ["DSD (Ms.Shiva)"], 1 := ["Aptitude (Ms.Asra)"], 2 := ["Morning Break"],
      3 := ["EDC (Ms.Shantha)"], 4 := ["EMF (Ms.H.Asra)"], 5 := ["Lunch Break"],
      6 := ["Signals (Ms.Rubitha)"], 7 := ["PRP Tutorial"], 8 := ["Evening Break"],
      9 := ["DSD Lab"], 10 := ["Counseling"]],
    "Thursday" := map[
      0 := ["EDC (Ms.Shantha)"], 1 := ["Comm. Training"], 2 := ["Morning Break"],
      3 := ["Signals (Ms.Rubitha)"], 4 := ["PRP (Ms.Christina)"], 5 := ["Lunch Break"],
      6 := ["DSD (Ms.Shiva)"], 7 := ["EMF (Ms.H.Asra)"], 8 := ["Evening Break"],
      9 := ["Project Lab"], 10 := ["Faculty Meeting"]],
    "Friday" := map[
      0 := ["EMF (Ms.H.Asra)"], 1 := ["PRP (Ms.Christina)"], 2 := ["Morning Break"],
      3 := ["DSD (Ms.Shiva)"], 4 := ["Signals (Ms.Rubitha)"], 5 := ["Lunch Break"],
      6 := ["EDC (Ms.Shantha)"], 7 := ["Aptitude Session"], 8 := ["Evening Break"],
      9 := ["Signals Lab"], 10 := ["Weekly Review"]]
  ]

  /** What the overlay puts in `period` of a day whose sample row is `sample`:
      a break period shows its own name, any other period the sample's
      entries, or FREE when the sample has none. */
  function OverlayCell(periodTimes: seq<PeriodTime>, breakPeriods: seq<int>,
                       sample: map<int, seq<string>>, period: int): seq<string>
    requires 0 <= period < |periodTimes|
  {
    if period in breakPeriods then [periodTimes[period].name]
    else if period in sample then sample[period]
    else ["FREE"]
  }

  /** One day of the overlay: a cell for every period of the period map. */
  function OverlayRow(periodTimes: seq<PeriodTime>, breakPeriods: seq<int>,
                      sample: map<int, seq<string>>): (row: map<int, seq<string>>)
    ensures forall p :: p in row <==> 0 <= p < |periodTimes|
  {
    map p | 0 <= p < |periodTimes| :: OverlayCell(periodTimes, breakPeriods, sample, p)
  }

  /** Every day the sample must have a row for (the source indexes it unguarded). */
  predicate SampleCovers(days: seq<string>, sample: SampleTimetable)
  {
    forall i :: 0 <= i < |days| ==> days[i] in sample
  }

  /** The timetable the scheduler generates: one overlaid row per day, in day order. */
  function Overlay(days: seq<string>, periodTimes: seq<PeriodTime>, breakPeriods: seq<int>,
                   sample: SampleTimetable): (t: Timetable)
    requires SampleCovers(days, sample)
    ensures |t| == |days|
    ensures forall i :: 0 <= i < |t| ==> t[i].day == days[i]
  {
    seq(|days|, i requires 0 <= i < |days| =>
      DaySchedule(days[i], OverlayRow(periodTimes, breakPeriods, sample[days[i]])))
  }

  /** A generated timetable read back as a sample (day -> row; a later day of
      the same name wins, as with a Python dict). */
  function AsSample(t: Timetable): SampleTimetable
  {
    if t == [] then map[] else AsSample(t[..|t| - 1])[t[|t| - 1].day := t[|t| - 1].slots]
  }

  predicate DistinctDays(days: seq<string>)
  {
    forall i, j :: 0 <= i < j < |days| ==> days[i] != days[j]
  }

  lemma {:induction false} AsSampleAt(t: Timetable, i: int)
    requires 0 <= i < |t|
    requires forall a, b :: 0 <= a < b < |t| ==> t[a].day != t[b].day
    ensures t[i].day in AsSample(t) && AsSample(t)[t[i].day] == t[i].slots
  {
    if i < |t| - 1 {
      AsSampleAt(t[..|t| - 1], i);
    }
  }

  /** Shape of the generated timetable: one row per day, in order, and every
      row keyed by exactly the periods 0 .. |periodTimes|-1. */
  lemma OverlayShape(days: seq<string>, periodTimes: seq<PeriodTime>, breakPeriods: seq<int>,
                     sample: SampleTimetable)
    requires SampleCovers(days, sample)
    ensures var t := Overlay(days, periodTimes, breakPeriods, sample);
      |t| == |days| &&
      forall i, p :: 0 <= i < |t| ==> (t[i].day == days[i] && (p in t[i].slots <==> 0 <= p < |periodTimes|))
  {
  }

  /** Breaks win: on every day a break period holds exactly its own name,
      whatever the sample holds there. */
  lemma BreaksShowTheirName(days: seq<string>, periodTimes: seq<PeriodTime>, breakPeriods: seq<int>,
                            sample: SampleTimetable, i: int, p: int)
    requires SampleCovers(days, sample)
    requires 0 <= i < |days| && 0 <= p < |periodTimes| && p in breakPeriods
    ensures Overlay(days, periodTimes, breakPeriods, sample)[i].slots[p] == [periodTimes[p].name]
  {
  }

  /** Any other period copies the sample's entries, or is FREE when the sample has none. */
  lemma OtherPeriodsCopySample(days: seq<string>, periodTimes: seq<PeriodTime>, breakPeriods: seq<int>,
                               sample: SampleTimetable, i: int, p: int)
    requires SampleCovers(days, sample)
    requires 0 <= i < |days| && 0 <= p < |periodTimes| && p !in breakPeriods
    ensures var cell := Overlay(days, periodTimes, breakPeriods, sample)[i].slots[p];
      cell == if p in sample[days[i]] then sample[days[i]][p] else ["FREE"]
  {
  }

  /** A break index at or past the end of the period map never shows up. */
  lemma OutOfRangeBreaksVanish(days: seq<string>, periodTimes: seq<PeriodTime>, breakPeriods: seq<int>,
                               sample: SampleTimetable, i: int, p: int)
    requires SampleCovers(days, sample)
    requires 0 <= i < |days| && p in breakPeriods && p >= |periodTimes|
    ensures p !in Overlay(days, periodTimes, breakPeriods, sample)[i].slots
  {
  }

  /** Periods added beyond the default eleven are always FREE with the default sample. */
  lemma ExtraPeriodsAreFree(periodTimes: seq<PeriodTime>, i: int, p: int)
    requires 0 <= i < 5 && 11 <= p < |periodTimes|
    ensures Overlay(Weekdays, periodTimes, DefaultBreakPeriods, DefaultSampleTimetable)[i].slots[p] == ["FREE"]
  {
    var day := Weekdays[i];
    assert day in DefaultSampleTimetable;
    assert p !in DefaultSampleTimetable[day];
  }

  /** Overlaying is idempotent: feeding a generated timetable back in as the
      sample and generating again gives the same timetable. */
  lemma OverlayIdempotent(days: seq<string>, periodTimes: seq<PeriodTime>, breakPeriods: seq<int>,
                          sample: SampleTimetable)
    requires SampleCovers(days, sample) && DistinctDays(days)
    ensures var t := Overlay(days, periodTimes, breakPeriods, sample);
      SampleCovers(days, AsSample(t)) &&
      Overlay(days, periodTimes, breakPeriods, AsSample(t)) == t
  {
    var t := Overlay(days, periodTimes, breakPeriods, sample);
    var s' := AsSample(t);
    forall i | 0 <= i < |days|
      ensures days[i] in s' && s'[days[i]] == t[i].slots
    {
      AsSampleAt(t, i);
    }
    var t' := Overlay(days, periodTimes, breakPeriods, s');
    forall i | 0 <= i < |days| ensures t'[i] == t[i] {
      var row := t[i].slots;
      assert row == OverlayRow(periodTimes, breakPeriods, sample[days[i]]);
      assert OverlayRow(periodTimes, breakPeriods, row) == row;
    }
  }

  /** The scheduler object: the fields that `setup_parameters` assigns and
      `update_time_structure` rewrites. */
  class FlexibleTimetableScheduler {
    var days: seq<string>
    var periodTimes: seq<PeriodTime>
    var breakPeriods: seq<int>
    var sampleTimetable: SampleTimetable

    /** The sample has a row for every day the generator walks. */
    ghost predicate Valid()
      reads this
    {
      SampleCovers(days, sampleTimetable)
    }

    constructor ()
      ensures Valid()
      ensures days == Weekdays && periodTimes == DefaultPeriodTimes
      ensures breakPeriods == DefaultBreakPeriods && sampleTimetable == DefaultSampleTimetable
    {
      new;
      SetupParameters();
    }

    /** Installs the default week, period map, break periods and sample. */
    method SetupParameters()
      modifies this
      ensures Valid()
      ensures days == Weekdays && periodTimes == DefaultPeriodTimes
      ensures breakPeriods == DefaultBreakPeriods && sampleTimetable == DefaultSampleTimetable
    {
      days := Weekdays;
      periodTimes := DefaultPeriodTimes;
      breakPeriods := DefaultBreakPeriods;
      sampleTimetable := DefaultSampleTimetable;
    }

    /** Swaps in a custom period map; the break periods and the sample stay as they were. */
    method UpdateTimeStructure(newTimes: seq<PeriodTime>)
      requires Valid()
      modifies this
      ensures Valid()
      ensures periodTimes == newTimes
      ensures days == old(days) && breakPeriods == old(breakPeriods)
      ensures sampleTimetable == old(sampleTimetable)
    {
      periodTimes := newTimes;
    }

    /** Builds the timetable day by day and period by period. The population
        size and generation count are accepted and not used. */
    method GenerateTimetable(popSize: int, ngen: int) returns (timetable: Timetable)
      requires Valid()
      ensures timetable == Overlay(days, periodTimes, breakPeriods, sampleTimetable)
    {
      timetable := [];
      var d := 0;
      while d < |days|
        invariant 0 <= d <= |days|
        invariant |timetable| == d
        invariant forall i :: 0 <= i < d ==>
          timetable[i] == DaySchedule(days[i], OverlayRow(periodTimes, breakPeriods, sampleTimetable[days[i]]))
      {
        var day := days[d];
        var row: map<int, seq<string>> := map[];
        var period := 0;
        while period < |periodTimes|
          invariant 0 <= period <= |periodTimes|
          invariant forall p :: p in row <==> 0 <= p < period
          invariant forall p :: 0 <= p < period ==>
            row[p] == OverlayCell(periodTimes, breakPeriods, sampleTimetable[day], p)
        {
          if period in breakPeriods {
            row := row[period := [periodTimes[period].name]];
          } else if period in sampleTimetable[day] {
            row := row[period := sampleTimetable[day][period]];
          } else {
            row := row[period := ["FREE"]];
          }
          period := period + 1;
        }
        assert row == OverlayRow(periodTimes, breakPeriods, sampleTimetable[day]);
        timetable := timetable + [DaySchedule(day, row)];
        d := d + 1;
      }
    }
  }

  /** A freshly built scheduler generates five days, Monday to Friday, of
      eleven periods each, with the three default breaks in place. */
  method DefaultTimetable() returns (timetable: Timetable)
    ensures |timetable| == 5
    ensures forall i :: 0 <= i < 5 ==> timetable[i].day == Weekdays[i]
    ensures forall i, p :: 0 <= i < 5 && p in DefaultBreakPeriods ==>
      p in timetable[i].slots && timetable[i].slots[p] == [DefaultPeriodTimes[p].name]
  {
    var scheduler := new FlexibleTimetableScheduler();
    timetable := scheduler.GenerateTimetable(10, 5);
  }
}
