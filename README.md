# StudyStack study timer: a Dafny model

StudyStack is a one-page study timer with an analytics tab. The user sets
a countdown duration in hours and minutes and starts the timer. They may
pause and resume it; every pause counts as one break. When the countdown
runs out, the session is saved as one row of a history table: date,
subject, topic, duration in minutes and number of breaks. The dashboard
tab then summarises the history: totals, records, and time per subject and
per topic.

The model covers the logic of `tracker.py` in five modules:

- `Wrappers` (`wrappers.dfy`): an `Option` type.
- `Clock` (`clock.dfy`): `format_time`, the `HH:MM:SS` text of the timer.
  It comes with a reader (`ReadClock`, which gives back the three fields)
  and a parser (`ParseTime`, which gives back the seconds). They state
  what the text says.
- `SessionStore` (`session_store.dfy`): the history file as a value, and
  `load_data` (`Load`). It also holds a `Store` class whose `Save` method is
  `save_session`: load the table, append one row, write it back.
- `Countdown` (`countdown.dfy`): the four timer fields, `time_left`,
  `initial_time`, `timer_running` and `break_count`.
  - Each button and each rerun of the page is a function on a
    `TimerState` value (`Configured`, `Resumed`, `Paused`, `Ticked`).
  - The class `Timer` updates the same four fields in place. Its methods are
    proved to follow those functions. `Timer.Step` is one rerun of the timer
    block; on expiry it calls `Store.Save`.
  - `Run` replays a sequence of button presses and reruns. The lemmas about
    whole sessions are stated over `Run`.
- `Dashboard` (`dashboard.dfy`): the aggregates of the dashboard tab, all
  pure functions over the loaded table. Each comes with a reference
  definition it is proved against. For example, the minutes of the rows
  carrying a label are `MinutesFor`.

Notes on behaviour, taken from the code:

- Pressing Start with no time left is not ignored. It sets the timer
  running, and the next rerun goes down the expiry branch. That rerun saves
  a session of `initial_time / 60` minutes, which is zero minutes from the
  idle state (`StartWithNoTimeLeft`).
- A session of N seconds is saved on the rerun after the N-th countdown
  step, so N + 1 reruns in total (`UninterruptedSession`).
- `initial_time` is always a whole number of minutes. So the saved duration
  `initial_time / 60` is a whole number, and it is exact as a Dafny `real`
  (`ConfiguredMinutes`, `Inv`).
- The Subject and Topic inputs only start out as "General" and "Study
  Session". `Timer.Step` takes both labels as parameters, and the model
  keeps every label as text, a blank one included. See "## Left out" for
  what the program does with a blank label.

## Model

| member | source | states |
|---|---|---|
| `Clock.Split` | tracker.py:37-38 | hours*3600 + minutes*60 + seconds equals the input; minutes and seconds lie in 0..59; hours are non-negative exactly when the input is (floor division, as Python's divmod) |
| `Clock.SplitUnique` | tracker.py:37-38 | any decomposition with minutes and seconds in 0..59 is the one `Split` returns |
| `Clock.Digits` | tracker.py:39 | the decimal text of n is non-empty, all digits, and reads back as n; it has no leading zero (only 0 starts with '0'); one character exactly for n below 10, two for 10..99 |
| `Clock.Pad2` | tracker.py:39 | `{n:02}` is at least two characters; a non-negative n is all digits and reads back as n, is exactly two characters below 100, and starts with '0' only below 10; a negative n is a minus sign followed by the digits of -n, with no zero after the sign |
| `Clock.FormatTime` | tracker.py:36-39 | the text reads back, field by field, as exactly the hours, minutes and seconds of `Split`; it starts with a digit exactly when the input is non-negative; it is exactly `HH:MM:SS` (8 characters) below 100 hours, which covers every time the timer holds; a wider hour field, and the digits after a minus sign, have no leading zero |
| `Clock.FormatTimeRoundTrip` | tracker.py:36-39 | parsing the clock text of any count of seconds, negative counts included, gives back that count |
| `SessionStore.WithoutBreaks` | tracker.py:17-18 | a row of an old-format file loads with Breaks 0 and its other fields unchanged |
| `SessionStore.Load` | tracker.py:13-21 | no file gives the empty table; otherwise one row per stored row, in order, with Breaks 0 when the file has no Breaks column |
| `SessionStore.Encode` | tracker.py:34 | the written table reads back as exactly the rows written, with a Breaks column |
| `SessionStore.Store.Save` | tracker.py:23-34 | the file now holds the old table plus one row at the end; earlier rows are unchanged; the new row has the given date, labels, duration and breaks |
| `Countdown.Configured` | tracker.py:72-77 | from any prior state, the result satisfies the timer invariant (time left within the configured whole-minute duration, breaks non-negative) |
| `Countdown.Resumed` | tracker.py:99-101 | Start/Resume keeps the timer invariant |
| `Countdown.Paused` | tracker.py:94-97 | Pause keeps the timer invariant |
| `Countdown.Ticked` | tracker.py:104-118 | one rerun keeps the invariant; it emits a row exactly when the timer is running with no time left |
| `Countdown.Progress` | tracker.py:84-88 | in every valid state the progress bar value lies in [0, 1] and is the fraction of the duration already spent; it is 0 when no duration is set |
| `Countdown.Apply` | tracker.py:93-118 | one button press or rerun keeps the invariant and saves at most one row |
| `Countdown.Run` | tracker.py:93-118 | any sequence of presses and reruns keeps the invariant and saves at most one row per action |
| `Countdown.RunAppend` | tracker.py:93-118 | running two sequences one after the other is running their concatenation |
| `Countdown.CountDown` | tracker.py:104-108 | while time is left, each rerun takes off exactly one second, changes nothing else and saves nothing |
| `Countdown.BreaksArePauses` | tracker.py:94-96 | without Set/Reset and before a save, the break count grows by exactly the number of Pause presses and the configured duration stays the same |
| `Countdown.Accounting` | tracker.py:93-108 | with any pauses and resumes and no Set/Reset, while the reruns that find the timer running are no more than the seconds left: nothing is saved, each such rerun takes exactly one second off, and the duration is unchanged |
| `Countdown.SessionAccounted` | tracker.py:72-115 | set h:m, then any presses and reruns whose running reruns number exactly h*3600 + m*60, ending with the timer running: nothing is saved so far, and one more rerun saves one row of h*60 + m minutes with one break per Pause, then the timer is idle |
| `Countdown.ConfiguredMinutes` | tracker.py:73 | the duration `initial_time / 60` of a timer set to h:m is h*60 + m minutes exactly |
| `Countdown.SessionIsLogged` | tracker.py:109-115 | a session set to h:m that reaches its end after any pauses is saved as one row with h*60 + m minutes and one break per Pause; the timer returns to idle |
| `Countdown.RunsOut` | tracker.py:104-115 | a running timer with n seconds left saves its session on rerun n + 1, with the configured duration and the current break count, then is idle |
| `Countdown.UninterruptedSession` | tracker.py:72-115 | set h:m, press Start, and the first h*3600 + m*60 reruns only count down; the next rerun saves exactly one row with no breaks |
| `Countdown.StartWithNoTimeLeft` | tracker.py:99-115 | Start with no time left, then one rerun: one session of `initial_time / 60` minutes is saved and the timer is idle |
| `Countdown.TwentyFiveMinuteSession` | tracker.py:72-115 | a 25-minute timer left alone saves one 25-minute row with no breaks, after 1500 reruns plus one |
| `Countdown.PauseThenRunOut` | tracker.py:94-115 | a pause and a resume, then running out, saves a row with one more break |
| `Countdown.PauseMidway` | tracker.py:94-115 | a pause at any point of the countdown still saves one row of the full duration, with one more break |
| `Countdown.SessionWithOnePause` | tracker.py:72-115 | set h:m, start, pause once, resume, and run out: one row of h*60 + m minutes with one break |
| `Countdown.OneMinuteWithPause` | tracker.py:72-115 | one minute, paused after 10 seconds, resumed, and run out: one row of 1.0 minutes with one break |
| `Countdown.Timer.constructor` | tracker.py:42-49 | a new timer is idle: no time left, no duration, stopped, no breaks |
| `Countdown.Timer.SetReset` | tracker.py:72-77 | time left and duration both become hours*3600 + minutes*60; the timer is stopped and the breaks are 0, whatever the prior state |
| `Countdown.Timer.StartResume` | tracker.py:99-101 | only `running` changes; it becomes true |
| `Countdown.Timer.Pause` | tracker.py:94-97 | the timer stops and the break count grows by exactly one; time left and duration are unchanged |
| `Countdown.Timer.Step` | tracker.py:104-118 | stopped: nothing changes; running with time left: exactly one second less and nothing else; running with none left: one row with duration `initial_time / 60` and the break count is appended to the store, and every counter is zeroed |
| `Dashboard.TotalMinutes` | tracker.py:130 | the reference definition of the column sum (no contract of its own); `TotalMinutesConcat` and `TotalBetween` state its properties |
| `Dashboard.TotalMinutesConcat` | tracker.py:130 | the total of two tables joined is the sum of their totals, so a saved session adds exactly its minutes to the total |
| `Dashboard.TotalBreaks` | tracker.py:154 | the sum of the break counts is never negative when no count is, and is positive only when some session has a break |
| `Dashboard.Summary` | tracker.py:130-132 | the session count is the number of rows; total hours are the total minutes / 60; the average is the total / count |
| `Dashboard.FirstArgMax` | tracker.py:146 | a valid position holding the largest value, before which every value is smaller (idxmax's first occurrence) |
| `Dashboard.FirstArgMin` | tracker.py:150 | a valid position holding the smallest value, before which every value is larger |
| `Dashboard.Longest` | tracker.py:146 | the first row with the largest duration |
| `Dashboard.Shortest` | tracker.py:150 | the first row with the smallest duration |
| `Dashboard.MostDistracted` | tracker.py:154-158 | reported exactly when the total of breaks is positive; then the first row with the most breaks |
| `Dashboard.TotalBetween` | tracker.py:130 | when every duration lies in [lo, hi], the total lies in [n*lo, n*hi] |
| `Dashboard.AverageBetween` | tracker.py:132 | when every duration lies in [lo, hi], so does the average |
| `Dashboard.AverageBetweenRecords` | tracker.py:132-150 | the average session lies between the shortest and the longest session |
| `Dashboard.SingleRowRecords` | tracker.py:146-150 | with one row, that row is both the longest and the shortest, and the average is its duration |
| `Dashboard.AddTo` | tracker.py:167 | adding one row's minutes to its label: the label set gains the label, that label's amount grows by the minutes, others stay, the grand total grows by the minutes |
| `Dashboard.AddToKeepsDistinct` | tracker.py:167 | adding to a rollup keeps one entry per label |
| `Dashboard.GroupTotals` | tracker.py:167 | one entry per distinct label of the table, each holding the minutes of exactly the rows with that label; the entries add up to the total duration |
| `Dashboard.GroupEntry` | tracker.py:167 | every entry of the rollup holds the sum of the minutes of the rows with its label |
| `Dashboard.MinutesForConcat` | tracker.py:167 | the minutes of a label over two tables joined are the sum over each |
| `Dashboard.MinutesForPermutation` | tracker.py:167 | the minutes of a label do not depend on the order of the rows |
| `Dashboard.GroupTotalsPermutation` | tracker.py:167 | reordering the table leaves the labels and every label's total unchanged |
| `Dashboard.Insert` | tracker.py:167 | inserting into an ascending rollup keeps it ascending and adds exactly that entry |
| `Dashboard.SortByMinutes` | tracker.py:167 | the result is ascending by minutes and a permutation of the input |
| `Dashboard.SubjectStats` | tracker.py:167 | time by subject: the subject rollup, ascending and a permutation of it |
| `Dashboard.MostStudied` | tracker.py:171 | a subject of the table whose total is at least every other subject's total |
| `Dashboard.LeastStudied` | tracker.py:172 | a subject of the table whose total is at most every other subject's total |
| `Dashboard.TopTopics` | tracker.py:177 | at most five topic entries (fewer only when there are fewer topics), ascending, drawn from the topic rollup; no topic left out has a larger total than one shown |
| `Dashboard.TailOfSorted` | tracker.py:177 | anything before a suffix of an ascending sequence is at most everything in it |
| `Dashboard.Analytics` | tracker.py:128-186 | nothing but a notice for the empty table; otherwise the count, records (the average between shortest and longest), most distracted only when breaks were recorded, subject labels from the table and at most five topics |

## Left out

- The Streamlit page: widgets, layout, the Markdown text, metrics, progress
  bar, balloons, success and info messages, and the `st.rerun()` redraw
  cycle. One rerun is one call of `Timer.Step`, and the buttons are method
  calls.
- The Hours and Minutes inputs appear only as their ranges, the subset
  types `Hours` (0..24) and `Minutes` (0..59).
- `time.sleep` (lines 106 and 117): waiting blocks the page and changes no
  state.
- A click that interrupts a rerun during its one-second sleep. The model
  treats every press as happening between two reruns; Streamlit's
  interruption of a running script is not modelled.
- CSV file input/output: `os.path.exists`, `pd.read_csv` and `to_csv`. The
  file is a value (`Option<CsvFile>`). A corrupt or unreadable file is
  library behaviour and is not modelled.
- SessionStore.Encode: labels are never missing in the model, and every
  label reads back as the text that was saved. In the program, a Subject
  or Topic saved blank, or as a text pandas reads as missing ("NA", "N/A",
  "null", "nan", "None" and the like), is written by `to_csv` (line 34).
  `read_csv` (line 15) then reads it back as NaN.
- Dashboard.GroupTotals: the program's `groupby` (lines 167 and 177) drops
  rows whose label is NaN. For a table with such rows, the program's
  rollups leave those rows' minutes out. The model's rollups do not: their
  labels are every label of the table, and their minutes sum to the total.
- Dashboard.MostStudied: when every subject is missing, the program's
  `subject_stats` is empty and `idxmax()` (line 171) raises an error. The
  model always gives a subject for a non-empty table. The same holds for
  Dashboard.LeastStudied (line 172).
- SessionStore.Store.Save: is atomic in the model. The program's
  load-append-rewrite (lines 24-34) is not. Two browser sessions saving at
  the same moment can both read the old file, and then one of the new rows
  is lost. Concurrency is not modelled.
- The date: `datetime.now()` is nondeterministic. `Save` and `Step` take
  the date text as a parameter.
- SessionStore.Store.Save: does not round the duration to two decimals
  (`round(duration_minutes, 2)`). The duration is stored exactly. Every
  duration the timer saves is a whole number of minutes, which rounding
  leaves unchanged.
- Floating point: durations are exact `real`s where the source uses
  floats, so sums and means are exact.
- The display formats `:.1f` and `:.0f`, and the hours shown as text.
- Plotly and the bar charts (lines 168 and 178), and the full history
  table sorted by date (line 183), which only render data.
- Dashboard.GroupTotals: keeps labels in order of first appearance rather
  than pandas' sorted label order. Only the contents of the rollup are
  stated, and the sort that follows reorders it anyway.
- Dashboard.SortByMinutes: which of several equal totals comes first is
  not stated.
- Dashboard.MostStudied: which label wins among equal totals follows
  pandas' incidental order and is not stated. The same holds for
  Dashboard.LeastStudied and for the topics kept by Dashboard.TopTopics at
  the cut.
