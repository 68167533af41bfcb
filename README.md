# Normalize_Sound: a verified model of the batch runner's logic

Normalize_Sound is a Windows console program (`main.cpp`). It runs ffmpeg's
loudness filter over every `.mp3` file of an input folder, using a pool of
worker threads, and draws a live status panel while it works. This project
models that program's sequential core in Dafny and proves what it does:

- **Enumeration and the job queue** (module `Jobs`, module `Scheduler`).
  - The directory entries whose `path::extension()` is exactly `.mp3` become
    jobs `(inputDir / name, outputDir / name)`, in listing order.
  - Each such name is seeded `Pending` in the status table.
  - A worker pops the front job, sets its name to `Working`, then to `Done`
    or `Error` by the transform's result, and appends the source path to the
    error log on failure.
  - The shared state (`jobQueue`, `done`, `jobStatusMap`, the error log) is
    the class `Scheduler.Run`. Each method on it is one step of a thread
    between two points where other threads may run: a single locked
    region, or two adjacent ones merged (see "Left out"). An invariant
    ties the queue, the table and the log together.
- **The monitor's arithmetic** (module `Dashboard`).
  - The tally pass over the `std::map` in key order.
  - The stop test `pending == 0 && working == 0`.
  - The summary row and the detail rows, cut and padded to the panel's inner
    width.
  - `trimLeading`.
- **Start-up parsing** (module `Settings`).
  - `readFfmpegPathFromConfig`.
  - The `--help` / `/?` scan and the usage check.
  - The thread count and its fallbacks.
  - The `--force` / `--target=` scan from the fifth argument on.

Module `Strings` holds the text helpers: blanks, `resize`, `trimLeading`,
decimal rendering, and the lexicographic order of `std::wstring` keys.

Threads are modelled sequentially. Each method call is one step of a thread,
and an interleaving of workers is a sequence of such calls. `Run.Drain` and
`Batch` show the whole run for one worker after `done` is set.

Inputs stand in for the outside world:

- the directory listing is a sequence of names;
- the configuration file is a sequence of lines;
- the command line is a sequence of arguments;
- ffmpeg's success is a set of the names whose transform succeeds;
- file sizes are a map from name to their formatted text;
- `std::stoi`'s value and `std::thread::hardware_concurrency()` are
  parameters.

## Model

| member | source | states |
|---|---|---|
| `Jobs.IsMp3Iff` | main.cpp:344 | An entry is a job exactly when its name is at least one character followed by `.mp3` (case-sensitive); a bare `.mp3` is not. |
| `Jobs.ExtensionStart` | main.cpp:344 | `path::extension()` starts at the last `.` at position 1 or later, or there is none. |
| `Jobs.Eligible` | main.cpp:341-355 | The enumeration keeps exactly the listed names whose extension is `.mp3`, and no more names than were listed. |
| `Jobs.EligibleAppend` | main.cpp:341-344 | Filtering works entry by entry, so jobs keep the listing's order. |
| `Jobs.EligibleDistinct` | main.cpp:341-355 | A listing without repeated names yields jobs without repeated names. |
| `Scheduler.InvPush` | main.cpp:344-353 | Pushing a new name's job and seeding it `Pending` keeps the run invariant. |
| `Scheduler.InvPop` | main.cpp:107-108 | Removing the front job and recording it as popped keeps the run invariant. |
| `Scheduler.InvStart` | main.cpp:112-115 | Moving a popped `Pending` job to `Working` keeps the run invariant. |
| `Scheduler.InvFinish` | main.cpp:122-133 | Ending a popped `Working` job as `Done`, or as `Error` with its source logged once, keeps the run invariant. |
| `Scheduler.InvFacts` | main.cpp:107-108 | A popped job never shares a name with a queued one, is the job built for its name, and is never popped twice. |
| `Scheduler.AllEndedStep` | main.cpp:112-124 | A job popped under a fresh name and ended leaves every popped job ended. |
| `Scheduler.DrainStep` | main.cpp:96-134 | One more pass of the worker loop takes the next job of the queue it started on and records that job's outcome and log line. |
| `Scheduler.AllPoppedEnded` | main.cpp:103-104 | Once the queue is empty and no job is mid-way, every pushed job was popped, in push order, and every table entry is final. |
| `Scheduler.FinalTable` | main.cpp:352 | When every job has its outcome, the table maps exactly the seeded names to their outcomes. |
| `Scheduler.Run.constructor` | main.cpp:51-57 | A run starts with an empty queue, `done` clear, an empty table and an empty error log. |
| `Scheduler.Run.SeedOne` | main.cpp:344-354 | Only before `done` is set: an `.mp3` entry appends its job to the queue and adds its name as `Pending`. Any other entry changes nothing. |
| `Scheduler.Run.Seed` | main.cpp:341-355 | Before `done` is set, the queue grows by one job `(inputDir / name, outputDir / name)` per kept name, in listing order. The table gains exactly those names as `Pending`. |
| `Scheduler.Run.MarkDone` | main.cpp:365-368 | `done` is set and the invariant is kept. After that, no job can be pushed, since `SeedOne` and `Seed` require `done` to be clear. |
| `Scheduler.Run.Pop` | main.cpp:100-109 | On a non-empty queue: returns the front and leaves the rest in order. On an empty queue: quits when `done` is set, otherwise waits. |
| `Scheduler.Run.StartJob` | main.cpp:112-115 | Only this job's entry changes, and it goes from `Pending` to `Working`. |
| `Scheduler.Run.FinishJob` | main.cpp:122-133 | Only this job's entry changes, from `Working` to `Done` or `Error`. The log grows by exactly the source path on failure and is unchanged on success. |
| `Scheduler.Run.WorkOne` | main.cpp:96-134 | One loop pass after `done`: quit on an empty queue, or pop the front job, end it by its outcome and log its failure. No other entry changes. |
| `Scheduler.Run.Drain` | main.cpp:96-134 | A worker after `done` takes every queued job in order. Each ends with its outcome, earlier jobs are untouched, the log grows by the failures in order, and every entry ends final. |
| `Scheduler.Batch` | main.cpp:338-372 | A whole run: every `.mp3` name ends `Done` exactly when its transform succeeds and `Error` otherwise. Nothing else is in the table, nothing is `Skipped`, and the log lists the failed sources. |
| `Dashboard.KeysWithAdd` | main.cpp:194-199 | Visiting one more key adds one to the counter of its status only. |
| `Dashboard.StopsIffSettled` | main.cpp:258 | `pending == 0 && working == 0` holds exactly when every entry is `Done`, `Error` or `Skipped`. |
| `Dashboard.TallyStart` | main.cpp:190-191 | The counters start at zero with an empty busy list. |
| `Dashboard.VisitLeast` | main.cpp:194-199 | Visiting the least remaining key keeps the counts right and the busy list ascending. |
| `Dashboard.TallyEnd` | main.cpp:194-199 | After the last key, the counters and the busy list are those of the whole table. |
| `Dashboard.TallyStatuses` | main.cpp:190-200 | Each counter counts the entries in its status, and the five counters sum to the table's size. The busy list holds exactly the `Working` keys, once each, in ascending key order. The counters show the monitor's stop condition exactly when every entry is final. |
| `Dashboard.FitRow` | main.cpp:247-252 | A row cut and padded to the width has exactly that length. |
| `Dashboard.FitRowChars` | main.cpp:247-252 | A fitted row shows the text's first characters, then blanks. |
| `Dashboard.SummaryRowShape` | main.cpp:203-217 | The summary is shown from its second character and padded from the untrimmed length, so the row is one character shorter than the width (empty at width 0). |
| `Dashboard.DetailText` | main.cpp:245 | A detail text starts with `[`, so `trimLeading` leaves it whole. |
| `Dashboard.DetailRowFits` | main.cpp:227-253 | A slot with a busy file shows `[Thread n] name (size)` fitted to the width, and an empty slot is all blanks. |
| `Dashboard.DetailRows` | main.cpp:227-253 | There is one row per worker slot, each exactly the width. Row r shows the r-th busy file while there is one and is blank after. |
| `Strings.TrimLeadingSpec` | main.cpp:178-181 | `trimLeading` returns a suffix that does not start with a space or tab, after a prefix of blanks only. It is empty exactly when the input is all blanks. |
| `Strings.LeastExists` | main.cpp:194 | Every non-empty key set has a least key in `std::wstring` order, so the map pass visits keys in ascending order. |
| `Strings.BelowTotal` | main.cpp:194 | Two different keys are ordered one way or the other. |
| `Strings.BelowTransitive` | main.cpp:194 | The key order is transitive. |
| `Strings.BelowIrreflexive` | main.cpp:194 | No key comes before itself. |
| `Settings.ReadFfmpegPath` | main.cpp:70-79 | Returns the text after the 12-character `ffmpeg_path=` on the first line that starts with it; later lines are ignored. Returns `""` when no line matches. |
| `Settings.ToInt32` | main.cpp:309 | The unsigned hardware count stored in an `int` keeps values below 2^31 and wraps larger ones negative. |
| `Settings.ResolveThreadsPositive` | main.cpp:306-312 | The worker count is always positive. It is 4 without a third argument, the given count when positive, otherwise the hardware count when positive as an `int`, else 4. |
| `Settings.ScanFlags` | main.cpp:314-321 | Only arguments from index 4 on are read. Force is set exactly when one of them is `--force`. The target is the text after `--target=` of the last such argument, and absent when there is none. |
| `Settings.HelpRequested` | main.cpp:286-295 | Help is shown exactly when some argument after the program name is `--help` or `/?`. |
| `Settings.ParseCommandLine` | main.cpp:286-321 | Help comes first, then the usage error below three arguments, then a run. A run has the two directories and a positive worker count from the fallback rule. Force is set exactly when some argument from index 4 on is `--force`. The target is the text after `--target=` in the last such argument, and absent when there is none. |

## Left out

- Threads, mutexes and condition variables. Each method call is one step. A worker's two status writes, and the monitor pass that could run between them, are not interleaved with other workers' steps. How many jobs are `Working` at once under N threads is not stated.
- `Scheduler.Run.Drain`, `Scheduler.Batch`: the log order is the pop order of one worker. With several threads, the file gets lines in completion order.
- ffmpeg's invocation (`normalizeFile`, `_wsystem`, building the command string): its success is the input set `succeeds`.
- The console: Win32 calls, cursor positioning, screen clearing and UTF-8/UTF-16 mode setup. A row is modelled as the text written at its position.
- The separator line and the panel's position. `Dashboard` takes the inner width `cellWidth` as a natural number; a console narrower than two columns, where the source's `int` to `size_t` conversion misbehaves, is not modelled.
- The filesystem: existence and directory checks, `create_directories`, `file_size`, `directory_iterator` and the log file itself. The listing is a sequence of names, the sizes a map to already formatted text, and the log a sequence of paths. Paths are (directory, name) pairs, and the textual `/` join is not modelled.
- `formatSize` and `std::stod` (floating point). The target flag is kept as the text after `--target=`.
- `std::stoi`: its value is a parameter. Its exceptions on malformed or out-of-range text are not modelled. So "normalize in out --force", which hands `--force` to `stoi`, is not covered.
- The monitor's 100 ms sleep and the final messages.
- `Strings.LeastExists`: keys are ordered by the value of each `char`. Windows `wchar_t` compares UTF-16 code units, so the order of characters above U+FFFF may differ.
- `Dashboard.FitRow`, `Dashboard.DetailRows`, `Dashboard.SummaryRowShape`: a Dafny `string` counts Unicode scalar values. The program's `std::wstring` counts UTF-16 code units, so a character above U+FFFF is one unit here and two there. For names with such characters, the model's row widths and cut points differ from the program's. The model also never shows a cut that splits a surrogate pair, which the program's `resize` can make.
- `Scheduler.Run.FinishJob`: the status write (main.cpp:122-125, under `statusMutex`) and the log append (main.cpp:129-133, under `logMutex`) are one step. The program passes through a state where a job is `Error` but its source is not yet logged. The run invariant, which pairs every `Error` entry with its log line, does not describe that state.
- `Scheduler.Run.SeedOne`: the queue push (main.cpp:346-349, under `queueMutex`) and the `Pending` seed (main.cpp:350-353, under `statusMutex`) are one step. The worker and monitor threads start only after the enumeration loop (main.cpp:358-363), so no thread can run between the two regions.
- The force flag is parsed but the program never reads it; the model only reports it.
