# Timetable scheduler: a verified model of its working core

The timetable scheduler for the ECE department of CARE College is a Streamlit
application with a scheduler object and a database seeding script. Its
timetable "generation" runs no optimisation. The flexible scheduler lays the
fixed break periods over a sample timetable for the five weekdays. The
application around it does a few exact jobs:

- it checks a login against built-in accounts;
- it picks the sidebar menu for the user's role;
- it turns a timetable into table rows, column headers and heatmap colour codes;
- it edits the period map ("Add Period", "Remove Last Period", "Reset to Default", "Update"), including the HH:MM plus 50 minutes arithmetic.

The seeding script derives each subject's weekly session requirements. It
skips seeding when users already exist.

This project models those pieces in Dafny and proves their properties:

- `timetables.dfy` (module `Timetables`) holds the shared values: the period map as a sequence of `(start, end, name)`, timetables as day rows of period-to-entries maps, Python's substring test and the decimal rendering of numbers.
- `scheduler.dfy` (module `Scheduler`) has the scheduler as a class. `SetupParameters` and `UpdateTimeStructure` assign its fields. `GenerateTimetable` fills the grid with nested loops and is proved equal to the specification function `Overlay`. Lemmas about `Overlay` state the grid's shape, that breaks win, that other periods copy the sample, that out-of-range breaks vanish and that overlaying is idempotent.
- `display.dfy` (module `Display`) builds the table and the heatmap codes by loops. Each is proved against a per-cell function.
- `time_structure.dfy` (module `TimeStructure`) has the session's period map as a class with the four edits. It also models `strptime`/`strftime` for `"%H:%M"`, with both round trips proved. "Add Period", "Remove Last Period" and "Reset to Default" keep a day contiguous (each period starts when the one before it ends); "Update" accepts any times and can break that.
- `access.dfy` (module `Access`) has the credential check, the role menus and the menu-to-page dispatch.
- `seed.dfy` (module `Seed`) has the session-derivation loop, proved against a recursive specification. It also has the count, order and kind lemmas and the existing-users guard.

The generation page offers population, generation, crossover-rate and
mutation-rate settings (app.py:468-473), and ga_scheduler.py imports `deap`,
but no search runs. The scheduler inside app.py returns hard-coded data;
the flexible scheduler overlays its breaks on a hard-coded sample under the
current period map, so its output follows the number of periods and their
names. The model follows that code.

## Model

| member | source | states |
|---|---|---|
| Timetables.ContainsIff | app.py:176-180 | The `in` substring test used for colouring holds exactly when the fragment occurs at some offset of the entry |
| Timetables.NatToStringValue | app.py:152 | The decimal text of a period number reads back to that number |
| Scheduler.Overlay | ga_scheduler.py:129-139 | The generated timetable has one row per configured day, in the order of the days |
| Scheduler.OverlayRow | ga_scheduler.py:133 | Each day's map has exactly the keys 0 .. len(period_times)-1 |
| Scheduler.OverlayShape | ga_scheduler.py:131-133 | The whole timetable has one row per day, in day order, and every row is keyed by exactly the periods of the period map |
| Scheduler.BreaksShowTheirName | ga_scheduler.py:134-136 | On every day, a break period holds exactly `[name]` of that period, whatever the sample holds there |
| Scheduler.OtherPeriodsCopySample | ga_scheduler.py:137-139 | A non-break period holds the sample's entries for that day and period, or `["FREE"]` when the sample has none |
| Scheduler.OutOfRangeBreaksVanish | ga_scheduler.py:133-134 | A break index at or beyond the number of periods never appears in any day |
| Scheduler.ExtraPeriodsAreFree | ga_scheduler.py:41-107 | With the default sample and breaks, every period from index 11 on is `["FREE"]` on all five days |
| Scheduler.OverlayIdempotent | ga_scheduler.py:129-139 | Feeding a generated timetable back in as the sample and generating again gives the same timetable |
| Scheduler.FlexibleTimetableScheduler.constructor | ga_scheduler.py:14-16 | A new scheduler holds Monday..Friday, the eleven default periods, breaks [2, 5, 8] and the default sample |
| Scheduler.FlexibleTimetableScheduler.SetupParameters | ga_scheduler.py:18-107 | Assigns the default days, period map, break periods and sample timetable |
| Scheduler.FlexibleTimetableScheduler.UpdateTimeStructure | ga_scheduler.py:119-121 | Replaces the period map wholesale and leaves the days, the break periods and the sample unchanged |
| Scheduler.FlexibleTimetableScheduler.GenerateTimetable | ga_scheduler.py:123-141 | The nested loops produce exactly `Overlay` of the current fields; the population size and generation count play no part |
| Scheduler.DefaultTimetable | ga_scheduler.py:131-136 | A freshly built scheduler yields Monday..Friday in order, each with the three default breaks showing their names |
| Display.BuildTable | app.py:133-152 | One row per day: the day name, then exactly one cell per period. A cell is the first entry when the period exists with a non-empty list, else "FREE". The headers are "Day" then `P{i+1}\n{start}-{end}` in period order |
| Display.HeadersDistinct | app.py:149-152 | Two different period columns never get the same header, whatever their times |
| Display.ColourCode | app.py:176-183 | Checked in priority order: 0 iff the entry contains "Break" or "Lunch"; else 2 iff it contains "Lab"; else 3 iff it contains "Library", "Training" or "Meeting"; else 1 |
| Display.BuildHeatmap | app.py:165-192 | With plotly available: no heatmap exactly when a shown period is present with an empty list (the unguarded `[0]` fails and the view's handler skips the figure). Otherwise one code per day and period: the entry's colour, or -1 for a missing period |
| Display.DefaultBreakNamesAreGrey | app.py:176-177 | The names of the three default breaks are all coloured 0 |
| Display.TableOfGenerated | app.py:141-145 | If an overlaid timetable were displayed (app.py runs its own fixed scheduler; the alias at ga_scheduler.py:143-144 is what would connect them), in its table a break column shows the break's name and any other column shows the sample's first entry or FREE |
| Display.DefaultHeatmapBreaksGrey | app.py:171-177 | If the default overlaid week were displayed (a composition app.py itself does not make), then under any period map with the default names every break cell is present, non-empty and coloured 0 on every day |
| TimeStructure.ParseClock | app.py:319 | `strptime(_, "%H:%M")` accepts a 1- or 2-digit hour up to 23 and a 1- or 2-digit minute up to 59 spanning the rest of the string; any accepted time is a minute of the day |
| TimeStructure.FormatClock | app.py:319 | `strftime("%H:%M")` gives five characters with the colon in the middle |
| TimeStructure.FormatThenParse | app.py:319 | A formatted time parses back to the same minute of the day |
| TimeStructure.ParseThenFormat | app.py:319 | A parsable two-digit "HH:MM" text is exactly the formatting of its value |
| TimeStructure.EndAfterPeriod | app.py:319 | The end time exists iff the start parses; it is the zero-padded "HH:MM" text of start + 50 minutes modulo a day (wrapping past midnight), and reads back as that minute |
| TimeStructure.NextPeriod | app.py:313-320 | The appended period starts at the previous last end, ends with the zero-padded "HH:MM" text of 50 minutes later (mod 24 h) and is named `Period {n+1}`. It exists iff the last end parses |
| TimeStructure.DefaultIsContiguous | app.py:270-282 | Each default period starts when the one before it ends |
| TimeStructure.NextPeriodKeepsContiguous | app.py:313-320 | Adding a period keeps a contiguous day contiguous, and the added period can itself be followed by another |
| TimeStructure.DropLastKeepsContiguous | app.py:324-327 | Removing the last period keeps a contiguous day contiguous |
| TimeStructure.TimeStructureEditor.constructor | app.py:285-286 | The session's period map starts as the eleven default periods |
| TimeStructure.TimeStructureEditor.ResetToDefault | app.py:308-310 | "Reset to Default" restores the eleven default periods |
| TimeStructure.TimeStructureEditor.AddPeriod | app.py:313-321 | Appends `NextPeriod` when the last end parses and leaves existing periods unchanged. On a parse failure nothing changes |
| TimeStructure.TimeStructureEditor.RemoveLastPeriod | app.py:324-328 | Acts iff more than one period exists and then drops exactly the last one, keeping the rest in order. The map never becomes empty |
| TimeStructure.TimeStructureEditor.UpdatePeriod | app.py:346-347 | Rewrites exactly the chosen existing period |
| Access.AuthenticateUser | app.py:92-102 | Returns the stored record iff the username is a known account and the password equals its stored password; otherwise None |
| Access.MenuFor | app.py:649-655 | Admin and timetable officer get six entries, hod three, and any other role two. Every entry opens a page and no two open the same page. Each entry's presence is fixed: "Timetable Generation", "Faculty Management", "Room Management", "Subject Management" and "System Configuration" iff the role is admin or timetable officer; "Dashboard" iff manager or hod; "Timetable Approval" iff hod; "View Timetables" iff not a manager; "My Schedule" iff neither manager nor hod. The first (pre-selected) entry is Dashboard, or My Schedule for other roles |
| Access.PageFor | app.py:662-670 | An entry opens a page iff it is one of the nine menu entries, and the page it opens is the one offered under that very text ("Dashboard" opens the dashboard, and so on); any other text opens nothing |
| Access.EntryOf | app.py:662-670 | Every page is offered under one of the nine menu entries |
| Access.PageForEntryOf | app.py:662-670 | Each page's own menu text opens exactly that page |
| Access.PageForInjective | app.py:662-670 | No two different entries open the same page |
| Access.OnlyManagersGenerate | app.py:93-101 | Of the built-in accounts, a successful login reaches timetable generation iff it is "admin" or "timetable_officer" |
| Access.StoredCredentialsLogIn | app.py:100-101 | Every built-in account logs in with its stored password and gets its own record |
| Seed.SessionsOf | init_data.py:145-175 | A lab-code subject gives THEORY (3/week, 1 h, no lab, wait 0) then LAB (2/week, 2 h, lab, wait 1). Any other subject gives one THEORY with weekly frequency = total hours |
| Seed.SessionsForAppend | init_data.py:144 | Deriving a concatenated subject list gives the concatenation of the two derivations |
| Seed.SessionCount | init_data.py:144-175 | The number of sessions is the number of subjects plus the number of lab-code subjects |
| Seed.SessionsAt | init_data.py:144-164 | The sessions of subject k come theory first, straight after those of the subjects before it |
| Seed.SessionKinds | init_data.py:147-173 | Every LAB session needs a lab, lasts 2 h, runs twice a week and has min_days_after_theory = 1. Every THEORY session lasts 1 h, needs no lab and keeps the default 0 |
| Seed.SessionsBelong | init_data.py:144-175 | Every session belongs to a subject of the list, and a LAB session only to a lab-code subject |
| Seed.DeriveSessions | init_data.py:144-175 | The loop creates exactly the specified session list |
| Seed.SampleSessionCount | init_data.py:121-129 | The seven sample subjects, three with labs, give ten sessions |
| Seed.InitializeSampleData | init_data.py:13-16 | Seeding is skipped iff users already exist. Otherwise it yields the sample subjects and their ten sessions |

## Left out

- The period map, a Python dict, is a sequence indexed by period. Every producer in the code keeps its keys 0..n-1. A dict with a gap in its keys, on which the source raises KeyError, cannot be written down in this model.
- Timetables arriving at the display are sequences of day rows. A day name given twice, impossible for a Python dict, is not excluded.
- The fitness values (998.5, 98.5), the `time.sleep` delays and the progress bar are left out. They are simulated work with no behaviour.
- The canned timetable of the fallback scheduler in app.py is left out. It is a constant that ignores its inputs.
- No genetic algorithm, fitness evaluator, crossover, mutation or repair is modelled. None exists in the code.
- All rendering is left out: Streamlit widgets, session plumbing, reruns, the Plotly figure's hover text and x-axis labels, the CSV/PDF/calendar exports, and the time-structure tables shown on screen.
- The scheduler's `params` and `subjects` fields are not modelled. No modelled operation reads them.
- The entry-point test harness of the scheduler file is left out.
- TimeStructure.ParseClock: accepts ASCII digits only. Python's `\d` in `strptime` also accepts other Unicode decimal digits.
- Seed.InitializeSampleData: takes the existing-user count as a parameter. The database session, `flush`/`commit`/`rollback`, and the creation of users, faculty, department, batch and rooms are not modelled. Nor is `hash_password`, a SHA-256 foreign call.
- Seed.SubjectSession: names its subject by code rather than by database id. Durations 1.0 h and 2.0 h are whole hours. The unset `preferred_days`/`preferred_times` columns are not represented.
- Display.BuildHeatmap: assumes plotly is installed. Without it the view draws no heatmap at all and shows an install hint instead (app.py:160, 238-239).
- models.py is not part of this model. It is a database schema without behaviour.
