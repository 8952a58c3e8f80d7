/** The time-structure editor: the session's custom period map, the
    "Add Period", "Remove Last Period", "Reset to Default" and per-period
    "Update" edits, and the HH:MM clock arithmetic that "Add Period" uses
    (`datetime.strptime(_, "%H:%M")`, plus 50 minutes, `strftime("%H:%M")`). */
module TimeStructure {
  import opened Timetables

  const MinutesPerDay: nat := 1440

  /** Length of a period appended by "Add Period". */
  const PeriodMinutes: nat := 50

  /** The hour field of "%H": one digit, or two digits from 00 to 23. */
  function ParseHour(h: string): Option<nat>
  {
    if |h| == 1 && IsDigit(h[0]) then Some(DigitValue(h[0]))
    else if |h| == 2 && IsDigit(h[0]) && IsDigit(h[1]) && DigitValue(h[0]) * 10 + DigitValue(h[1]) <= 23 then
      Some(DigitValue(h[0]) * 10 + DigitValue(h[1]))
    else None
  }

  /** The minute field of "%M": one digit, or two digits whose first is 0 to 5. */
  function ParseMinute(m: string): Option<nat>
  {
    if |m| == 1 && IsDigit(m[0]) then Some(DigitValue(m[0]))
    else if |m| == 2 && '0' <= m[0] <= '5' && IsDigit(m[1]) then
      Some(DigitValue(m[0]) * 10 + DigitValue(m[1]))
    else None
  }

  function Combine(hour: Option<nat>, minute: Option<nat>): Option<nat>
  {
    if hour.Some? && minute.Some? then Some(hour.value * 60 + minute.value) else None
  }

  /** `strptime(s, "%H:%M")` as minutes after midnight, or None where it raises
      ValueError: the hour runs up to the first colon and the minute field
      must take the rest of the string. */
  function ParseClock(s: string): (r: Option<nat>)
    ensures r.Some? ==> r.value < MinutesPerDay
  {
    if |s| >= 2 && s[1] == ':' then Combine(ParseHour(s[..1]), ParseMinute(s[2..]))
    else if |s| >= 3 && s[2] == ':' then Combine(ParseHour(s[..2]), ParseMinute(s[3..]))
    else None
  }

  function TwoDigits(k: int): string
    requires 0 <= k < 100
  {
    [DigitChar(k / 10), DigitChar(k % 10)]
  }

  /** `strftime("%H:%M")` of a time of day given in minutes after midnight. */
  function FormatClock(m: nat): (s: string)
    requires m < MinutesPerDay
    ensures |s| == 5 && s[2] == ':'
  {
    TwoDigits(m / 60) + ":" + TwoDigits(m % 60)
  }

  /** A formatted time parses back to the same minute of the day. */
  lemma FormatThenParse(m: nat)
    requires m < MinutesPerDay
    ensures ParseClock(FormatClock(m)) == Some(m)
  {
    var s := FormatClock(m);
    assert s[..2] == TwoDigits(m / 60);
    assert s[3..] == TwoDigits(m % 60);
  }

  lemma DigitCharValue(c: char)
    requires IsDigit(c)
    ensures DigitChar(DigitValue(c)) == c
  {
  }

  lemma TwoDigitsOf(a: char, b: char)
    requires IsDigit(a) && IsDigit(b)
    ensures TwoDigits(DigitValue(a) * 10 + DigitValue(b)) == [a, b]
  {
    var k := DigitValue(a) * 10 + DigitValue(b);
    assert k / 10 == DigitValue(a) && k % 10 == DigitValue(b);
    DigitCharValue(a);
    DigitCharValue(b);
  }

  lemma SplitMinutes(h: int, mi: int)
    requires 0 <= h < 24 && 0 <= mi < 60
    ensures (h * 60 + mi) / 60 == h && (h * 60 + mi) % 60 == mi
  {
  }

  lemma FormatOfDigits(v: nat, a: char, b: char, c: char, d: char)
    requires IsDigit(a) && IsDigit(b) && IsDigit(c) && IsDigit(d)
    requires DigitValue(a) * 10 + DigitValue(b) < 24 && DigitValue(c) < 6
    requires v == (DigitValue(a) * 10 + DigitValue(b)) * 60 + DigitValue(c) * 10 + DigitValue(d)
    ensures v < MinutesPerDay && FormatClock(v) == [a, b, ':', c, d]
  {
    var h := DigitValue(a) * 10 + DigitValue(b);
    var mi := DigitValue(c) * 10 + DigitValue(d);
    SplitMinutes(h, mi);
    assert v / 60 == h && v % 60 == mi;
    TwoDigitsOf(a, b);
    TwoDigitsOf(c, d);
    assert FormatClock(v) == TwoDigits(h) + ":" + TwoDigits(mi);
  }

  /** What a successful parse of an "HH:MM" string reads from its four digits. */
  lemma ParseFiveChars(s: string)
    requires |s| == 5 && s[2] == ':' && ParseClock(s).Some?
    ensures IsDigit(s[0]) && IsDigit(s[1]) && IsDigit(s[3]) && IsDigit(s[4])
    ensures DigitValue(s[0]) * 10 + DigitValue(s[1]) < 24 && DigitValue(s[3]) < 6
    ensures ParseClock(s).value == (DigitValue(s[0]) * 10 + DigitValue(s[1])) * 60 + DigitValue(s[3]) * 10 + DigitValue(s[4])
  {
    var hs, ms := s[..2], s[3..];
    assert hs == [s[0], s[1]] && ms == [s[3], s[4]];
    assert ParseClock(s) == Combine(ParseHour(hs), ParseMinute(ms));
  }

  /** Formatting is canonical: a time written as two-digit hour and minute
      reads back to a value that formats to the same text. */
  lemma ParseThenFormat(s: string)
    requires |s| == 5 && s[2] == ':' && ParseClock(s).Some?
    ensures FormatClock(ParseClock(s).value) == s
  {
    ParseFiveChars(s);
    FormatOfDigits(ParseClock(s).value, s[0], s[1], s[3], s[4]);
    assert s == [s[0], s[1], ':', s[3], s[4]];
  }

  /** The end time of a period starting at `start`: 50 minutes later, wrapping
      past midnight (only the time of day is formatted, zero-padded). */
  function EndAfterPeriod(start: string): (r: Option<string>)
    ensures r.Some? <==> ParseClock(start).Some?
    ensures r.Some? ==> ParseClock(r.value) == Some((ParseClock(start).value + PeriodMinutes) % MinutesPerDay)
    ensures r.Some? ==> r.value == FormatClock((ParseClock(start).value + PeriodMinutes) % MinutesPerDay)
  {
    var parsed := ParseClock(start);
    if parsed.None? then None
    else
      var e := (parsed.value + PeriodMinutes) % MinutesPerDay;
      FormatThenParse(e);
      Some(FormatClock(e))
  }

  /** The period "Add Period" appends: it starts where the last one ends,
      lasts 50 minutes and is named after its one-based position. */
  function NextPeriod(times: seq<PeriodTime>): (r: Option<PeriodTime>)
    requires |times| >= 1
    ensures r.Some? <==> ParseClock(times[|times| - 1].end).Some?
    ensures r.Some? ==> r.value.start == times[|times| - 1].end
    ensures r.Some? ==>
      ParseClock(r.value.end) == Some((ParseClock(times[|times| - 1].end).value + PeriodMinutes) % MinutesPerDay)
    ensures r.Some? ==>
      r.value.end == FormatClock((ParseClock(times[|times| - 1].end).value + PeriodMinutes) % MinutesPerDay)
    ensures r.Some? ==> r.value.name == "Period " + NatToString(|times| + 1)
  {
    var start := times[|times| - 1].end;
    match EndAfterPeriod(start)
    case None => None
    case Some(end) => Some(PeriodTime(start, end, "Period " + NatToString(|times| + 1)))
  }

  /** Each period starts when the one before it ends. */
  predicate Contiguous(times: seq<PeriodTime>)
  {
    forall i :: 0 < i < |times| ==> times[i].start == times[i - 1].end
  }

  lemma DefaultIsContiguous()
    ensures Contiguous(DefaultPeriodTimes)
  {
  }

  /** Appending the next period keeps the day contiguous, and the appended
      period can itself be followed by another one. */
  lemma NextPeriodKeepsContiguous(times: seq<PeriodTime>)
    requires |times| >= 1 && Contiguous(times) && NextPeriod(times).Some?
    ensures Contiguous(times + [NextPeriod(times).value])
    ensures NextPeriod(times + [NextPeriod(times).value]).Some?
  {
    var t' := times + [NextPeriod(times).value];
    assert t'[|t'| - 1] == NextPeriod(times).value;
  }

  /** Dropping the last period keeps the day contiguous. */
  lemma DropLastKeepsContiguous(times: seq<PeriodTime>)
    requires |times| >= 1 && Contiguous(times)
    ensures Contiguous(times[..|times| - 1])
  {
  }

  /** The period map the user edits, kept in the session state. */
  class TimeStructureEditor {
    var customTimes: seq<PeriodTime>

    /** "Remove Last Period" never empties the map, so there is always a last period. */
    ghost predicate Valid()
      reads this
    {
      |customTimes| >= 1
    }

    /** The session starts from the default eleven periods. */
    constructor ()
      ensures Valid() && customTimes == DefaultPeriodTimes
    {
      customTimes := DefaultPeriodTimes;
    }

    method ResetToDefault()
      modifies this
      ensures Valid() && customTimes == DefaultPeriodTimes
    {
      customTimes := DefaultPeriodTimes;
    }

    /** Appends the next period when the last end time parses; when it does not,
        the edit fails (the source raises ValueError) and nothing changes. */
    method AddPeriod() returns (added: bool)
      requires Valid()
      modifies this
      ensures Valid()
      ensures added <==> ParseClock(old(customTimes)[|old(customTimes)| - 1].end).Some?
      ensures added ==> customTimes == old(customTimes) + [NextPeriod(old(customTimes)).value]
      ensures !added ==> customTimes == old(customTimes)
    {
      var newIndex := |customTimes|;
      var lastEnd := customTimes[newIndex - 1].end;
      var newStart := lastEnd;
      var newEnd := EndAfterPeriod(newStart);
      if newEnd.None? {
        return false;
      }
      var period := PeriodTime(newStart, newEnd.value, "Period " + NatToString(newIndex + 1));
      customTimes := customTimes + [period];
      added := true;
    }

    /** Drops exactly the last period, but only while more than one remains. */
    method RemoveLastPeriod() returns (removed: bool)
      requires Valid()
      modifies this
      ensures Valid()
      ensures removed <==> |old(customTimes)| > 1
      ensures customTimes == if removed then old(customTimes)[..|old(customTimes)| - 1] else old(customTimes)
    {
      removed := |customTimes| > 1;
      if removed {
        customTimes := customTimes[..|customTimes| - 1];
      }
    }

    /** The per-period "Update" button: rewrites one existing period. */
    method UpdatePeriod(index: nat, start: string, end: string, name: string)
      requires Valid() && index < |customTimes|
      modifies this
      ensures Valid()
      ensures customTimes == old(customTimes)[index := PeriodTime(start, end, name)]
    {
      customTimes := customTimes[index := PeriodTime(start, end, name)];
    }
  }
}
