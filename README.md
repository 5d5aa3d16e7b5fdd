# cloudmesh bench-api: a Dafny model of the timer, the report and the runner

This project models the core of `cloudmesh_bench_api`, a small library for
driving benchmarks through a fixed lifecycle and timing each phase.

- **Timing** (`timer.dfy`) models the named-span recorder.
  - A `TimeSpan` is a start/stop pair.
  - A `Timer` is a class with the Python object's six fields:
    - `order`: names in first-seen order;
    - `times`: name to spans in recording order;
    - `running`, `name`, `start` and `stop`.
  - `Measure`, `Enter` and `Exit` update those fields the way `measure`, `__enter__` and `__exit__` do.
  - The instant `time.time()` would return is a parameter of `Enter` and `Exit`.
- **Reports** (`report.dfy`) models the read-only view over a timer.
  - `Rows` is the `rows` generator, as a function of the timer's state.
  - `Csv` and `Pretty` are methods with the source's writing loops.
  - `Pretty`'s width scan works in place on an `array`, as the numpy array does.
- **Bench** (`bench.dfy`) models `AbstractBenchmarkRunner`.
  - The runner is a class holding the log, a `Timer`, the path, the environment and an interaction counter.
  - The concrete benchmark's `_fetch` … `_clean` are a `Provider` value of functions. The working directory, the clock and `shutil.rmtree` are a `Host` value.
  - Every phase method is proved equal to a pure step function over a snapshot of the runner (`Snap`).
  - The lifecycle properties are lemmas about those step functions.
- **Errors** (`errors.dfy`) holds the Python exceptions the core raises, `Option`, `Result` and the `Outcome` of a round. **Text** (`text.dfy`) holds decimal rendering of integers, padding and joining.

## Model

| member | source | states |
|---|---|---|
| Timing.TimeSpan.Seconds | cloudmesh_bench_api/timer.py:13-15 | the elapsed seconds added to the start give the stop; they are non-negative exactly when start does not exceed stop |
| Timing.Timer.constructor | cloudmesh_bench_api/timer.py:41-47 | a new timer is idle, with no names, no spans, no pending name and no start or stop instant |
| Timing.Timer.Names | cloudmesh_bench_api/timer.py:56-67 | the names are the first-seen order, handed out exactly when the recorded names and the order hold the same set of names; otherwise the assertion fails (corrected reading) |
| Timing.Timer.NamesAsWritten | cloudmesh_bench_api/timer.py:64-65 | as written: when the sets differ, building the assertion's message calls `_times.key()` and raises AttributeError instead |
| Timing.Timer.Times | cloudmesh_bench_api/timer.py:70-79 | the spans of a name in recording order, none for an unseen name; an unseen name gets an empty entry, which breaks the `names` condition when it held before |
| Timing.Timer.Average | cloudmesh_bench_api/timer.py:82-101 | the loop's sum of seconds over the count is the mean of the name's spans; with no span the division raises ZeroDivisionError; the empty entry of `times` is left behind |
| Timing.Timer.Measure | cloudmesh_bench_api/timer.py:104-121 | only the pending name changes, even while running, and the same timer is handed back |
| Timing.Timer.Enter | cloudmesh_bench_api/timer.py:124-132 | entering a running timer raises ValueError with the source's message and changes nothing; otherwise the pending name joins the order only when absent, the timer runs and the start instant is `now` |
| Timing.Timer.Exit | cloudmesh_bench_api/timer.py:135-147 | exactly one span from the start to `now` is appended to the end of the pending name's list, every other list is kept, and running, the pending name, start and stop are reset |
| Timing.WithKeyKeepsOrder | cloudmesh_bench_api/timer.py:128-129 | entering a name keeps the order duplicate-free and adds exactly that name to its set |
| Timing.PairKeepsNamesMatched | cloudmesh_bench_api/timer.py:128-129 | an enter followed by an exit under the same name keeps the recorded names equal to the order's names |
| Timing.AddAllElems | cloudmesh_bench_api/timer.py:128-129 | entering a sequence of names in turn keeps the order duplicate-free, keeps its old names first, and adds exactly the entered names |
| Timing.AddAllPresent | cloudmesh_bench_api/timer.py:128-129 | entering names that are already all present leaves the order as it is |
| Timing.AddAllFresh | cloudmesh_bench_api/timer.py:128-129 | entering distinct names into an empty order yields exactly those names in that order |
| Timing.LeastIsMinimum | cloudmesh_bench_api/report.py:31-33 | the least of the seconds is at most every span's seconds and is one of them |
| Timing.GreatestIsMaximum | cloudmesh_bench_api/report.py:31-34 | the greatest of the seconds is at least every span's seconds and is one of them |
| Timing.SumBounds | cloudmesh_bench_api/timer.py:94-99 | a sum of seconds each within bounds lies between count times the lower and count times the upper bound |
| Timing.MeanBetweenLeastAndGreatest | cloudmesh_bench_api/timer.py:94-101 | the average of a non-empty list of spans lies between its least and its greatest seconds |
| Timing.MeanOfOneAndThree | cloudmesh_bench_api/timer.py:94-101 | spans of 1 and 3 seconds average to 2 seconds |
| Timing.NestedEnterRenamesOuterSpan | cloudmesh_bench_api/timer.py:120-141 | a nested `measure`/enter fails with ValueError, and the outer exit then records its span under the inner name, so `names` fails |
| Timing.TimesOfUnseenNameBreaksNames | cloudmesh_bench_api/timer.py:45-79 | `times` of a name a fresh timer never measured is empty, leaves an empty entry behind, and makes `names` fail (AttributeError as written) |
| Reports.Report.constructor | cloudmesh_bench_api/report.py:14-17 | the report views the timer it was given |
| Reports.DataRowsCharacterised | cloudmesh_bench_api/report.py:30-37 | the data rows exist exactly when every name has a span, and are then one row per name in order; otherwise `min()` raises ValueError |
| Reports.RowsCharacterised | cloudmesh_bench_api/report.py:20-37 | rows exist exactly when `names` passes and every name has a span; a failing `names` yields AssertionError, the corrected reading (see Left out); the rows are the header when asked for, then one data row per name in `names` order |
| Reports.RowsStartWithHeader | cloudmesh_bench_api/report.py:27-28 | with a header, the first row is exactly `name, count, min, max, mean` |
| Reports.RowsHaveFiveCells | cloudmesh_bench_api/report.py:27-37 | every row, header or data, has five cells |
| Reports.DataRowFields | cloudmesh_bench_api/report.py:31-37 | a data row holds the name, the span count, the least and greatest seconds (each attained by a span and bounding all of them) and the name's average, which lies between the two |
| Reports.Report.Csv | cloudmesh_bench_api/report.py:40-52 | a failure of `rows` is passed on; otherwise the text is the comma-separated rendering of the rows |
| Reports.WriteCsv | cloudmesh_bench_api/report.py:45-50 | the writing loop produces the comment marker and header line when asked for, then one comma-joined line per remaining row, in order |
| Reports.CsvOneLinePerRow | cloudmesh_bench_api/report.py:45-50 | when no cell and no comment marker holds a newline, the text holds exactly one newline per row |
| Reports.CsvLinesCount | cloudmesh_bench_api/report.py:49-50 | the data lines hold one newline per row |
| Reports.CsvLineCount | cloudmesh_bench_api/report.py:50 | one comma-joined line holds exactly one newline |
| Reports.CsvStartsWithHeader | cloudmesh_bench_api/report.py:45-47 | `csv(header=True)` starts with the comment marker followed by `name,count,min,max,mean` and a newline |
| Reports.CsvWithoutHeader | cloudmesh_bench_api/report.py:45-50 | `csv(header=False)` writes no comment marker, only one data line per name |
| Reports.Report.Pretty | cloudmesh_bench_api/report.py:55-85 | a failure of `rows` is passed on; with no row `entries[0]` raises IndexError; otherwise the rows are rectangular and the text is the fixed-width table of them |
| Reports.NothingMeasuredNoRows | cloudmesh_bench_api/report.py:70-71 | a timer that measured nothing has no row without a header, so `pretty(header=False)` has no first row, and only the header row with one |
| Reports.WriteTable | cloudmesh_bench_api/report.py:70-85 | the width scan and the writing loops produce the fixed-width table of the rows |
| Reports.Widen | cloudmesh_bench_api/report.py:73-74 | one row of the scan grows each column to that row's cell at width 1 and changes nothing else |
| Reports.ColumnWidths | cloudmesh_bench_api/report.py:71-75 | the scan from zeros, then the increment, leaves each column one more than its longest cell at width 1 over all rows |
| Reports.MaxLenStep | cloudmesh_bench_api/report.py:74 | one more row widens a column to the larger of its width and that row's cell |
| Reports.MaxLenBounds | cloudmesh_bench_api/report.py:72-74 | every cell at width 1 fits in its column's longest length |
| Reports.MaxLenAttained | cloudmesh_bench_api/report.py:72-74 | some row's cell attains the column's longest length |
| Reports.WidthIsOnePlusLongest | cloudmesh_bench_api/report.py:71-75 | column `i` is wider than every cell `i` at width 1 and exactly one wider than the longest |
| Reports.CellFillsColumn | cloudmesh_bench_api/report.py:57-68 | a cell formatted in a wider column is spaces then the cell's text, exactly the column's width, starting with a space |
| Reports.WriteCells | cloudmesh_bench_api/report.py:80-81 | the inner loop writes every cell of a row right-aligned in its column |
| Reports.WriteRows | cloudmesh_bench_api/report.py:79-82 | the outer loop writes each row's cells followed by one newline, in row order |
| Reports.CellsLength | cloudmesh_bench_api/report.py:80-81 | a row whose cells fit is as long as the sum of its columns' widths |
| Reports.LinesLength | cloudmesh_bench_api/report.py:79-82 | the table is as long as the row count times one more than the sum of the widths |
| Reports.LinesPrefix | cloudmesh_bench_api/report.py:79-82 | the lines of the first rows begin the table |
| Reports.WidthsFit | cloudmesh_bench_api/report.py:71-75 | the widths `pretty` settles on leave room for every cell of every row |
| Reports.LineOfRow | cloudmesh_bench_api/report.py:79-82 | line `k` begins at `k` times the line length and is row `k`'s cells, as long as the sum of the widths, then a newline |
| Reports.PrettyLayout | cloudmesh_bench_api/report.py:55-85 | every line of the table has the sum of the widths plus one newline; line `k` starts at offset `k` times that and is row `k` right-aligned in the columns |
| Text.PadLeftShape | cloudmesh_bench_api/report.py:66-68 | `'%<width>s'` padding never truncates: the text is as long as the wider of cell and field, ends with the cell's text and holds only spaces before it |
| Text.IntToStringRoundTrip | cloudmesh_bench_api/bench.py:269-273 | the decimal text written for the round count reads back as that count |
| Bench.GrewTrans | cloudmesh_bench_api/timer.py:141 | spans appended in two stretches add up, each list keeping its earlier spans first |
| Bench.MeasuredEffect | cloudmesh_bench_api/timer.py:120-147 | a measurement of a phase reads the clock twice, appends exactly one span between the readings under its name, and enters that name |
| Bench.FetchEffect | cloudmesh_bench_api/bench.py:103-121 | `fetch` logs first, is timed whatever `_fetch` answers, asks for the given directory or else the working directory, and stores and returns exactly the answer; on an exception the path is kept |
| Bench.PrepareEffect | cloudmesh_bench_api/bench.py:137-144 | `prepare` logs first, is timed whatever `_prepare` answers, and stores the environment only when one is returned |
| Bench.ScopedEffect | cloudmesh_bench_api/bench.py:157-204 | a phase inside the environment logs first; with no environment it raises before anything is timed; otherwise it answers the provider's answer and is timed either way |
| Bench.VerifyEffect | cloudmesh_bench_api/bench.py:222-234 | `verify` is timed, succeeds exactly when `_verify` answers true, and raises VerificationError when it answers false |
| Bench.CleanEffect | cloudmesh_bench_api/bench.py:247-257 | `clean` logs `clean` but is timed as `cleanup`; the tree is removed and the path cleared only after `_clean` returns, and the path is cleared exactly when `clean` succeeds |
| Bench.FetchPhase | cloudmesh_bench_api/bench.py:276 | the first phase of a round fetches into the runner's prefix and, when it returns, has set the path |
| Bench.PreparePhase | cloudmesh_bench_api/bench.py:277 | the second phase of a round prepares, and when it returns the environment is set |
| Bench.ScopedPhase | cloudmesh_bench_api/bench.py:278-280 | the launch, deploy and run phases of a round keep path and environment and log and time their own name |
| Bench.CleanPhase | cloudmesh_bench_api/bench.py:281 | the last phase of a round cleans, and when it returns the path is None |
| Bench.PhaseEffect | cloudmesh_bench_api/bench.py:275-281 | each phase of a round logs its entry, times its name when it returns, and returns whenever provider and host never fail, once the earlier phases of the round have run |
| Bench.AddAllCons | cloudmesh_bench_api/timer.py:128-129 | entering one name and then a list equals entering the whole list |
| Bench.GrewCons | cloudmesh_bench_api/timer.py:141 | one span under a name followed by one span under each of the rest is one span under each name |
| Bench.RoundFromEffect | cloudmesh_bench_api/bench.py:275-281 | the phases from `i` on log a prefix of the remaining round entries, all of them and their timings when they succeed |
| Bench.CycleEffect | cloudmesh_bench_api/bench.py:275-281 | one round logs a prefix of `fetch, prepare, launch, deploy, run, clean`, all of it when it succeeds, and then has one more span under each round name; it succeeds when provider and host never fail |
| Bench.VerifyNeverLogged | cloudmesh_bench_api/bench.py:275-281 | `verify` is not among the log entries of any number of rounds |
| Bench.CycleLogsPrefix | cloudmesh_bench_api/bench.py:275-281 | the log entries of fewer rounds begin those of more rounds |
| Bench.RepeatedStop | cloudmesh_bench_api/bench.py:275-281 | once a round raises, later rounds are never started |
| Bench.RoundsStop | cloudmesh_bench_api/bench.py:275-281 | once a round of `bench` raises, the loop's result is that round's |
| Bench.RoundsNext | cloudmesh_bench_api/bench.py:275-281 | `i + 1` rounds are `i` successful rounds followed by one more |
| Bench.RoundsNone | cloudmesh_bench_api/bench.py:275 | zero rounds log nothing and change nothing |
| Bench.RoundsMore | cloudmesh_bench_api/bench.py:275-281 | a successful stretch of rounds followed by one more round keeps the rounds' log and timing relation |
| Bench.RoundsRaised | cloudmesh_bench_api/bench.py:275-281 | a raising stretch of rounds stays in the rounds' log relation |
| Bench.RepeatedEffect | cloudmesh_bench_api/bench.py:275-281 | `i` rounds log a prefix of `i` round logs, all of them with `i` spans under every round name when they succeed, and succeed when nothing fails |
| Bench.EveryCycle | cloudmesh_bench_api/bench.py:276-281 | every round, from any runner state, satisfies the one-round relation |
| Bench.RoundsEffect | cloudmesh_bench_api/bench.py:275-281 | the loop of `bench` satisfies the rounds relation |
| Bench.BenchEffect | cloudmesh_bench_api/bench.py:261-281 | below one round `bench` raises ValueError with its message before logging or timing anything; otherwise it logs `bench(times=n)` and then a prefix of `n` rounds, never `verify`; it keeps the `names` condition; on success it logs all `n` rounds and adds `n` spans under each round name; it succeeds when provider and host never fail |
| Bench.FreshBench | cloudmesh_bench_api/bench.py:275-281 | on a timer that measured nothing, a successful `bench(n)` leaves the order exactly the round names, with `n` spans under each and no other name |
| Bench.BenchFreshRunner | tests/bench.py:72-81 | a new runner whose provider and host never fail benches `n` rounds successfully; its timer's order is `fetch, prepare, launch, deploy, run, cleanup`, `names` succeeds, and each name has `n` spans |
| Bench.Runner.constructor | cloudmesh_bench_api/bench.py:74-79 | a new runner keeps the prefix, or else the working directory when the prefix is absent or empty; its log is empty, its path and environment are unset, and its report views its own new timer |
| Bench.Runner.Path | cloudmesh_bench_api/bench.py:310-316 | the path is available exactly once a fetch has stored one; before that the attribute does not exist |
| Bench.Runner.Env | cloudmesh_bench_api/bench.py:319-326 | the environment is handed out, equal to the stored one, exactly once `prepare` stored it; otherwise the assertion fails |
| Bench.Runner.Report | cloudmesh_bench_api/bench.py:329-337 | the report views the runner's own timer |
| Bench.Runner.Timed | cloudmesh_bench_api/bench.py:117-118 | a measured call answers the provider's answer and leaves the runner as one measurement step says |
| Bench.Runner.Fetch | cloudmesh_bench_api/bench.py:103-121 | the method's result and new state are those of the fetch step; the timer is idle with no pending name afterwards |
| Bench.Runner.Prepare | cloudmesh_bench_api/bench.py:137-144 | the method's result and new state are those of the prepare step; the timer is idle with no pending name afterwards |
| Bench.Runner.Scoped | cloudmesh_bench_api/bench.py:157-204 | the method's result and new state are those of a phase inside the environment; once an environment exists, no name is pending afterwards |
| Bench.Runner.Launch | cloudmesh_bench_api/bench.py:157-164 | `launch` is the scoped phase logged and timed as `launch` |
| Bench.Runner.Deploy | cloudmesh_bench_api/bench.py:177-184 | `deploy` is the scoped phase logged and timed as `deploy` |
| Bench.Runner.Run | cloudmesh_bench_api/bench.py:197-204 | `run` is the scoped phase logged and timed as `run` |
| Bench.Runner.Verify | cloudmesh_bench_api/bench.py:222-234 | the method's result and new state are those of the verify step; once an environment exists, no name is pending afterwards |
| Bench.Runner.Clean | cloudmesh_bench_api/bench.py:247-257 | the method's result and new state are those of the clean step; once an environment exists, no name is pending afterwards |
| Bench.Runner.Cycle | cloudmesh_bench_api/bench.py:276-281 | the loop body's outcome and new state are those of one round, after which no name is pending |
| Bench.Runner.Bench | cloudmesh_bench_api/bench.py:261-281 | the outcome and new state of `bench(times=n)` are those of the bench step, whose properties `BenchEffect` states; after at least one round no name is pending |
| Bench.Runner.Repeat | cloudmesh_bench_api/bench.py:275-281 | the `for` loop's outcome and new state are those of `n` rounds stopping at the first exception; after at least one round no name is pending |

## Left out

- I/O is not modelled. `os.getcwd()` is the parameter `Host.cwd`; `shutil.rmtree` is `Host.removeTree`, which answers success or an exception; `time.time()` is `Host.clock`. The clock and the removal are read at the runner's interaction counter, so their answers may differ between calls; the working directory is one constant string for the runner's whole life. `Timer.Enter` and `Timer.Exit` take the instant as a parameter.
- `pxul.os.env(**self._env)` scoping of the process environment is not modelled. Only its one observable effect on the runner is kept: with `_env` never assigned, the argument list raises AttributeError before the measurement starts.
- Float formatting is not modelled. `str(float)` and `'%.{p}f'` are the function parameters `strFloat` and `fmtFloat`; `%d` and `%s` are rendered exactly. Seconds and averages are `real`, not IEEE floats.
- `numpy.zeros` is a Dafny `array<int>` and `pxul.StringIO` a growing string; `writeln` adds `"\n"`.
- The abstract `_fetch` … `_clean` and `ABCMeta` are not modelled as a class hierarchy, because traits are not used. The provider is a `Provider` datatype of functions, each indexed by the interaction counter, with unconstrained answers that may be exceptions.
- A provider call cannot touch the runner or its timer. In the source `_fetch` … `_clean` are methods on the runner and may use `self._timer`, where a nested `measure` would raise ValueError on enter and rename the phase's span; the model's provider answers only from its arguments and the interaction counter, so the timer is idle between phases (`Bench.Runner.Valid`).
- Reports.RowsCharacterised: `rows` is built on the corrected `names` (`Timing.Timer.Names`), so a timer whose keys and order differ yields AssertionError; the code as written raises AttributeError there (`Timing.Timer.NamesAsWritten`, see Findings).
- Python's generators are evaluated eagerly. `Rows` is the whole list; in `csv` an exception from a later row would discard the partly written text either way.
- `Timing.Timer.running` and `Bench.Runner.nodeCount` are plain fields. The `running` property and the `node_count` accessor only read them, so there is nothing to prove. `Bench.Runner.NodeCount` has no contract for the same reason.
- `_timer` and `_log` are the fields `Bench.Runner.timer` and `Bench.Runner.log`.
- BenchmarkError is declared in `Errors.Error` but never raised, because nothing in the core raises it.
- Python 2's `xrange`, hypothesis and the random sleeps of the tests are not modelled, nor are setup.py or the provider name constants in providers.py.
- `Timing.Timer.Measure` takes a string. A `with timer:` with no `measure` records under the name None (`Key` is an `Option`), which the model covers; a name of another type is not covered.

Where the documented behaviour and the code differ, the code is followed, except for the one finding below, whose corrected reading the report uses:
- The constructor uses `prefix or os.getcwd()`, so an empty prefix also means the working directory. `fetch` replaces only a `None` prefix.
- A second `clean` after a successful one calls `shutil.rmtree(None)`, which raises TypeError (`Bench.CleanEffect`).

## Findings

| source | as written | input that shows it | evidently intended | confidence | as-written member | corrected member |
|---|---|---|---|---|---|---|
| cloudmesh_bench_api/timer.py:64-65 | the assertion's message expression calls `self._times.key()`, which a dict does not have, so a failing assertion raises AttributeError | a fresh timer after `times('run')`: recorded names `{'run'}`, order `[]` | an AssertionError reporting the recorded names and the order | not executed | Timing.TimesOfUnseenNameBreaksNames | Timing.Timer.Names |
