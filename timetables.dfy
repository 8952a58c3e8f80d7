/** Values shared by the scheduler, the display and the time-structure editor:
    the period map, timetables as ordered day -> period -> entries maps,
    and the few string helpers the application relies on (substring test,
    decimal rendering of a number). */
module Timetables {

  datatype Option<T> = None | Some(value: T)

  /** One entry of the period map: start time, end time and display name. */
  datatype PeriodTime = PeriodTime(start: string, end: string, name: string)

  /** One day of a timetable: the day's name and its period -> entries map. */
  datatype DaySchedule = DaySchedule(day: string, slots: map<int, seq<string>>)

  /** A timetable: its days in insertion order. */
  type Timetable = seq<DaySchedule>

  const Weekdays: seq<string> := ["Monday", "Tuesday", "Wednesday", "Thursday", "Friday"]

  /** The eleven-period day (three of them breaks) that the scheduler, the
      fallback scheduler and the time editor all start from. */
  const DefaultPeriodTimes: seq<PeriodTime> := [
    PeriodTime("09:00", "09:50", "1st Period"),
    PeriodTime("09:50", "10:40", "2nd Period"),
    PeriodTime("10:40", "10:55", "Morning Break"),
    PeriodTime("10:55", "11:45", "3rd Period"),
    PeriodTime("11:45", "12:35", "4th Period"),
    PeriodTime("12:35", "13:30", "Lunch Break"),
    PeriodTime("13:30", "14:20", "5th Period"),
    PeriodTime("14:20", "15:10", "6th Period"),
    PeriodTime("15:10", "15:20", "Evening Break"),
    PeriodTime("15:20", "16:10", "7th Period"),
    PeriodTime("16:10", "17:00", "8th Period")
  ]

  /** Python's `sub in s` on strings. */
  predicate Contains(s: string, sub: string)
    decreases |s|
  {
    (|sub| <= |s| && s[..|sub|] == sub) || (|s| > 0 && Contains(s[1..], sub))
  }

  /** `sub` sits in `s` at offset `i`. */
  predicate OccursAt(s: string, sub: string, i: int)
  {
    0 <= i && i + |sub| <= |s| && s[i..i + |sub|] == sub
  }

  /** The substring test means what it says: some offset holds `sub`. */
  lemma {:induction false} ContainsIff(s: string, sub: string)
    ensures Contains(s, sub) <==> exists i :: OccursAt(s, sub, i)
    decreases |s|
  {
    if |sub| <= |s| && s[..|sub|] == sub {
      assert OccursAt(s, sub, 0);
    } else if |s| == 0 {
      forall i | OccursAt(s, sub, i) ensures false {
      }
    } else {
      ContainsIff(s[1..], sub);
      if Contains(s[1..], sub) {
        var i :| OccursAt(s[1..], sub, i);
        assert s[1..][i..i + |sub|] == s[i + 1..i + 1 + |sub|];
        assert OccursAt(s, sub, i + 1);
      } else {
        forall i | OccursAt(s, sub, i) ensures false {
          if i > 0 {
            assert s[1..][i - 1..i - 1 + |sub|] == s[i..i + |sub|];
            assert OccursAt(s[1..], sub, i - 1);
          }
        }
      }
    }
  }

  /** A witness offset is enough to establish the substring test. */
  lemma ContainsAt(s: string, sub: string, i: int)
    requires OccursAt(s, sub, i)
    ensures Contains(s, sub)
  {
    ContainsIff(s, sub);
  }

  predicate IsDigit(c: char)
  {
    '0' <= c <= '9'
  }

  function DigitChar(d: int): (c: char)
    requires 0 <= d < 10
    ensures IsDigit(c) && c as int - '0' as int == d
  {
    "0123456789"[d]
  }

  function DigitValue(c: char): int
  {
    c as int - '0' as int
  }

  /** The value of a string of decimal digits, most significant first. */
  function DigitsValue(s: string): int
  {
    if s == [] then 0 else DigitsValue(s[..|s| - 1]) * 10 + DigitValue(s[|s| - 1])
  }

  /** Python's `str(n)` (and an f-string field) for a natural number. */
  function NatToString(n: nat): (r: string)
    ensures |r| >= 1
    ensures forall i :: 0 <= i < |r| ==> IsDigit(r[i])
  {
    if n < 10 then [DigitChar(n)] else NatToString(n / 10) + [DigitChar(n % 10)]
  }

  /** Reading the rendered digits back gives the number. */
  lemma {:induction false} NatToStringValue(n: nat)
    ensures DigitsValue(NatToString(n)) == n
  {
    var r := NatToString(n);
    if n >= 10 {
      NatToStringValue(n / 10);
      assert r[..|r| - 1] == NatToString(n / 10);
    } else {
      assert r[..0] == [];
    }
  }

  /** Distinct numbers are rendered differently (so `P{i+1}` headers differ). */
  lemma NatToStringInjective(m: nat, n: nat)
    requires NatToString(m) == NatToString(n)
    ensures m == n
  {
    NatToStringValue(m);
    NatToStringValue(n);
  }
}
