# DevTrackr time accounting, modelled in Dafny

DevTrackr is an editor plugin with a web dashboard. It records how long a developer works in each
language, file and folder. This project models the plugin's time-accounting core and proves
properties of it. It also models three small pieces of dashboard logic.

- **Idle detector** (`ActivityWatcher`, activity_watcher.dfy). The user is idle when strictly more
  than 60 000 ms have passed since the last input. The `Watcher` class holds `lastActivity`.
- **Per-day store** (`TimeLog`, time_log.dfy). This is what `saveTimeLog` keeps in time_data.json:
  date → { files, folders, languages }. Each of the three is a map from a full path or a language id
  to seconds. `SaveTimeLog` is the read-merge-write update.
- **Time-accounting state machine** (`Extension`, extension.dfy). The state is `lastActivity`, the
  attribution `(currentLang, currentFile, currentFolder)`, `startTime` (0 means "no open interval")
  and the store. Six events drive it: text change, active-editor change, window blur, window focus,
  the 30-second save tick and `deactivate`.
  - Each event is a function on a `Tracking` snapshot.
  - The `DevTrackr` class holds the same variables as fields. Its methods follow the handlers
    statement by statement, and each is proved to perform exactly its event's transition.
  - Lemmas state what the handlers promise. `RunIsSound` shows that over any trace of events the
    attribution stays consistent and no stored total decreases.
- **Per-file tracker** (`FileTracker`, file_tracker.dfy). This is tracker.ts: open-start times and
  accumulated milliseconds per path, as the `Tracker` class with the pure `Open` and `Close`.
- **Dashboard logic**:
  - `Contributions`: count → heat-map level, colour fallback, totals, and grouping days into weeks.
    `GroupWeeks` keeps the source's loop.
  - `ExtensionFilter`: the search/enabled filter.
  - `FolderUsage`: the expand/collapse toggle.

The clock (`Date.now()`), today's ISO date, the active editor and the tracked-extension list are
parameters. The default tracked-extension list is `Extension.DefaultTracked` = `[".ts", ".js", ".py", ".go"]`.

JavaScript truthiness is kept explicit:
- `if (file)`, `if (folder)` and `currentLang && …` treat the empty string like `null` (`Wrappers.Truthy`).
- `if (!start)` in tracker.ts treats a start time of 0 like a missing one (`FileTracker.HasStart`).
- `Math.floor((now - startTime) / 1000)` is Dafny's `/` by 1000, which rounds down for every sign of
  `now - startTime`.

Some behaviour of the code may be unexpected. The model keeps it as written:
- Switching file or language does not save the interval open so far. `trackActivityChange` only
  overwrites the attribution and `startTime` (`SwitchDropsOpenInterval`).
- The idle and non-idle branches of `trackActivityChange` make the same assignments.
- Blur saves the open interval without checking for idleness.
- Files and folders are keyed by full path, not base name.
- Languages map to seconds; they are not a set.
- The tick checks idleness only when it fires. An idle gap that ends before the next tick is saved
  with the rest of the interval (`IdleGapBeforeTickIsCounted`).
- In tracker.ts, a file opened at time 0 is never timed (`OpenAtZeroIsNeverTimed`).

## Model

| member | source | states |
|---|---|---|
| `ActivityWatcher.ThresholdIsStrict` | devtrackr-plugin/src/activityWatcher.ts:8-10 | exactly 60 000 ms after the last input is not idle; 60 001 ms is |
| `ActivityWatcher.NotIdleWithinThreshold` | devtrackr-plugin/src/activityWatcher.ts:4-10 | after an input at t, no t' with t' - t ≤ 60 000 is idle |
| `ActivityWatcher.IdleIsPersistent` | devtrackr-plugin/src/activityWatcher.ts:8-10 | with no input in between, idle at t implies idle at every later t' |
| `ActivityWatcher.Watcher.constructor` | devtrackr-plugin/src/activityWatcher.ts:1 | `lastActivity` starts at the load time |
| `ActivityWatcher.Watcher.ResetActivityTimer` | devtrackr-plugin/src/activityWatcher.ts:4-6 | sets `lastActivity := now`; afterwards nothing within the threshold is idle |
| `ActivityWatcher.Watcher.IsIdle` | devtrackr-plugin/src/activityWatcher.ts:8-10 | a read-only query; true exactly when `now - lastActivity > 60000` |
| `TimeLog.Add` | devtrackr-plugin/src/extension.ts:223-224 | the key's total grows by `duration`, an absent key counting 0; every other key keeps its value |
| `TimeLog.SaveTimeLog` | devtrackr-plugin/src/extension.ts:218-234 | creates the date's entry when missing; adds `duration` to the language, to the file only when truthy, to the folder only when truthy, each written key joining that map's keys; no other date changes |
| `TimeLog.SaveTouchesOnlyItsKeys` | devtrackr-plugin/src/extension.ts:222-234 | no language, file or folder other than the saved ones changes |
| `TimeLog.SaveIsMonotone` | devtrackr-plugin/src/extension.ts:213-236 | with `duration ≥ 0` every stored date and total survives and none decreases |
| `TimeLog.SavesAccumulate` | devtrackr-plugin/src/extension.ts:218-234 | two saves of one attribution on a new date give `d1 + d2` for the language, file and folder, each a single key |
| `TimeLog.SavesCommute` | devtrackr-plugin/src/extension.ts:218-234 | the order of two saves does not affect the store |
| `Paths.DirName` | devtrackr-plugin/src/extension.ts:127 | "." for a path without '/'; any result other than "." or "/" is the proper prefix of the path before its last '/' (the full split for paths with a '/' is `Paths.DirNameSplitsAtLastSlash`) |
| `Paths.DirNameSplitsAtLastSlash` | devtrackr-plugin/src/extension.ts:145 | with a '/' in the path the result is either the root (the only '/' is the first character) or the non-empty prefix before the last '/' |
| `Paths.ExtName` | devtrackr-plugin/src/extension.ts:179 | a non-empty extension starts with '.', has no other '.' and no '/', is a suffix of the path and shorter than its last segment; an empty one means the last segment has no '.' after its first character |
| `Paths.AfterLastFollowsSeparator` | devtrackr-plugin/src/tracker.ts:9 | when the segment is shorter than the text, the character just before it is the separator |
| `Paths.LastDotSegment` | devtrackr-plugin/src/tracker.ts:9 | a dot-free suffix of the name, preceded by a '.' when it is not the whole name; the whole name when it has no '.' |
| `Extension.ElapsedSeconds` | devtrackr-plugin/src/extension.ts:46 | the floor of the elapsed milliseconds over 1000; positive exactly when at least 1000 ms elapsed |
| `Extension.CloseInterval` | devtrackr-plugin/src/extension.ts:153-158 | the store is untouched unless an interval is open with a positive whole-second length; then it is exactly `SaveTimeLog` of that many seconds for the current language, file and folder on `today`; totals never decrease |
| `Extension.Tick` | devtrackr-plugin/src/extension.ts:43-52 | when idle, with no current language, with `startTime ≤ 0` or under one second, nothing changes; otherwise the store becomes `SaveTimeLog` of the elapsed whole seconds for the current triple and `startTime := now`; the attribution and `lastActivity` are kept |
| `Extension.TrackChange` | devtrackr-plugin/src/extension.ts:170-202 | an untracked active extension changes nothing; otherwise the triple is replaced and `startTime := now`, idle or not; never writes the store |
| `Extension.TextChange` | devtrackr-plugin/src/extension.ts:122-136 | always sets `lastActivity := now`; with an unchanged language, path and folder, or an untracked active editor, nothing else changes; otherwise the triple becomes the document's and `startTime := now`; never writes the store |
| `Extension.EditorChange` | devtrackr-plugin/src/extension.ts:139-148 | no editor, or an untracked extension: no change; otherwise the triple becomes the editor's language, path and directory and `startTime := now`; never writes the store or the activity time |
| `Extension.Blur` | devtrackr-plugin/src/extension.ts:150-160 | saves the open interval (`CloseInterval`, no idle check), then `startTime := 0`, keeping the attribution; afterwards no interval is open |
| `Extension.Focus` | devtrackr-plugin/src/extension.ts:161-166 | `startTime := now` exactly when `currentLang` is truthy; otherwise no change |
| `Extension.WindowStateChange` | devtrackr-plugin/src/extension.ts:149-167 | never changes the attribution or `lastActivity`; focus leaves the store alone and sets `startTime` to `now` or keeps it; blur always ends with `startTime = 0` and no stored total lower |
| `Extension.Shutdown` | devtrackr-plugin/src/extension.ts:270-281 | the same final save as blur (`CloseInterval`); nothing else changes, no interval is opened; without an open interval nothing at all changes |
| `Extension.InitialIsConsistent` | devtrackr-plugin/src/extension.ts:31-34 | the start state satisfies the invariant and has no open interval |
| `Extension.StepIsSound` | devtrackr-plugin/src/extension.ts:122-167 | every event keeps the triple set all at once, the folder the file's directory, and `startTime ≠ 0` only with a language; no stored total decreases |
| `Extension.RunIsSound` | devtrackr-plugin/src/extension.ts:43-167 | over any trace of events the invariant holds and no stored total decreases |
| `Extension.TickWithoutIntervalIsNoOp` | devtrackr-plugin/src/extension.ts:44 | with `startTime ≤ 0` or no current language the tick is a no-op |
| `Extension.TicksAfterBlurAreNoOps` | devtrackr-plugin/src/extension.ts:44 | after a blur the tick changes nothing |
| `Extension.FocusAfterBlurStartsAtFocus` | devtrackr-plugin/src/extension.ts:161-166 | focus after blur reopens at the focus time, never backdated |
| `Extension.DeactivateAfterBlurSavesNothing` | devtrackr-plugin/src/extension.ts:270-281 | deactivating after a blur saves nothing more |
| `Extension.SameTripleOnlyResetsActivity` | devtrackr-plugin/src/extension.ts:122-135 | a text change on the current triple only records the input |
| `Extension.SwitchDropsOpenInterval` | devtrackr-plugin/src/extension.ts:187-201 | switching to a tracked file leaves the store as it was and starts a new interval now, whatever the idle state |
| `Extension.UntrackedFileIsIgnored` | devtrackr-plugin/src/extension.ts:178-185 | an editor change to an untracked file changes nothing; a text change only records the input |
| `Extension.IdleGapBeforeTickIsCounted` | devtrackr-plugin/src/extension.ts:43-52 | a concrete trace in which an idle gap ending before a tick is saved as worked time |
| `Extension.DevTrackr.constructor` | devtrackr-plugin/src/extension.ts:7-34 | the start state, which is consistent |
| `Extension.DevTrackr.ResetActivityTimer` | devtrackr-plugin/src/extension.ts:12-14 | sets `lastActivity := now`, changes nothing else, and keeps the invariant |
| `Extension.DevTrackr.IsIdle` | devtrackr-plugin/src/extension.ts:16-18 | the idle rule of the detector, on the plugin's `lastActivity` |
| `Extension.DevTrackr.SaveTimeLog` | devtrackr-plugin/src/extension.ts:204-236 | the in-place updates give exactly `TimeLog.SaveTimeLog` of the old store; the invariant is kept |
| `Extension.DevTrackr.PeriodicSave` | devtrackr-plugin/src/extension.ts:43-52 | performs `Tick` and keeps the invariant |
| `Extension.DevTrackr.TrackActivityChange` | devtrackr-plugin/src/extension.ts:170-202 | given the file's own directory as folder, performs `TrackChange` and keeps the invariant |
| `Extension.DevTrackr.OnTextChange` | devtrackr-plugin/src/extension.ts:122-136 | performs `TextChange` and keeps the invariant |
| `Extension.DevTrackr.OnActiveEditorChange` | devtrackr-plugin/src/extension.ts:139-148 | performs `EditorChange` and keeps the invariant |
| `Extension.DevTrackr.OnWindowStateChange` | devtrackr-plugin/src/extension.ts:149-167 | performs `Blur` or `Focus` and keeps the invariant |
| `Extension.DevTrackr.Deactivate` | devtrackr-plugin/src/extension.ts:270-281 | performs `Shutdown` and keeps the invariant |
| `FileTracker.Open` | devtrackr-plugin/src/tracker.ts:8-15 | an untracked name changes nothing; a tracked one sets the path's start to `now`; timers and other paths unchanged |
| `FileTracker.Close` | devtrackr-plugin/src/tracker.ts:17-26 | no start (absent or 0): no change; otherwise adds `now - start` to the path's timer (absent = 0) and deletes the start, the path's key always present in the timers afterwards; other paths unchanged |
| `FileTracker.CloseTwiceIsCloseOnce` | devtrackr-plugin/src/tracker.ts:19-25 | a second close of the same path is a no-op |
| `FileTracker.ReopenOverwrites` | devtrackr-plugin/src/tracker.ts:14 | re-opening only overwrites the start time |
| `FileTracker.OpenThenCloseAddsSession` | devtrackr-plugin/src/tracker.ts:8-25 | open at t0 ≠ 0 then close at t1 adds exactly `t1 - t0` and leaves no start |
| `FileTracker.OpenAtZeroIsNeverTimed` | devtrackr-plugin/src/tracker.ts:19-20 | a start time of 0 reads as absent, so that session is never timed |
| `FileTracker.TimersNeverDecrease` | devtrackr-plugin/src/tracker.ts:22-23 | with `now ≥ start` no timer decreases |
| `FileTracker.Tracker.constructor` | devtrackr-plugin/src/tracker.ts:5-6 | both dictionaries start empty |
| `FileTracker.Tracker.OnFileOpen` | devtrackr-plugin/src/tracker.ts:8-15 | performs `Open` |
| `FileTracker.Tracker.OnFileClose` | devtrackr-plugin/src/tracker.ts:17-26 | performs `Close` |
| `FileTracker.Tracker.GetStats` | devtrackr-plugin/src/tracker.ts:28-30 | returns exactly the `timers` map |
| `Contributions.Level` | devtrackr-frontend/src/components/GitHubContributions.tsx:81 | level in 0..4; for counts ≥ 0 level 0 exactly at 0; level 4 exactly above 8; negative counts get 1 |
| `Contributions.LevelIsMonotone` | devtrackr-frontend/src/components/GitHubContributions.tsx:81 | for 0 ≤ a ≤ b, `Level(a) ≤ Level(b)` |
| `Contributions.LevelBuckets` | devtrackr-frontend/src/components/GitHubContributions.tsx:117 | positive counts fall in buckets 1–2, 3–5, 6–8, the same chain the mock generator uses |
| `Contributions.LevelColor` | devtrackr-frontend/src/components/GitHubContributions.tsx:22-31 | levels outside 1..4 get the slate class of level 0; levels 1..4 get a green class |
| `Contributions.LevelColorFallback` | devtrackr-frontend/src/components/GitHubContributions.tsx:22-31 | levels outside 1..4 get level 0's colour; levels 0..4 get five different colours |
| `Contributions.ToContributionDays` | devtrackr-frontend/src/components/GitHubContributions.tsx:78-82 | one day per API day with the same date and count, and the level `Level(count)`, in 0..4 |
| `Contributions.TotalThisYear` | devtrackr-frontend/src/components/GitHubContributions.tsx:174 | non-negative counts give a non-negative total; all-zero counts give 0 |
| `Contributions.TotalThisYearAppend` | devtrackr-frontend/src/components/GitHubContributions.tsx:174 | the total of a concatenation is the sum of the totals |
| `Contributions.CountSum` | devtrackr-frontend/src/components/GitHubContributions.tsx:74 | non-negative counts give a non-negative total; all-zero counts give 0 |
| `Contributions.CountSumIsTotalThisYear` | devtrackr-frontend/src/components/GitHubContributions.tsx:74 | the fallback total over the API days equals `totalThisYear` over the drawn days |
| `Contributions.SumOrZero` | devtrackr-frontend/src/components/GitHubContributions.tsx:69 | present values all non-negative give a non-negative sum |
| `Contributions.SumOrZeroProperties` | devtrackr-frontend/src/components/GitHubContributions.tsx:60 | a list with no present value sums to 0 |
| `Contributions.SumOrZeroFillsWithZero` | devtrackr-frontend/src/components/GitHubContributions.tsx:69 | replacing every missing value by 0 leaves the sum unchanged |
| `Contributions.TotalStars` | devtrackr-frontend/src/components/GitHubContributions.tsx:60 | star counts summed with missing = 0; non-negative counts give a non-negative total |
| `Contributions.TotalContributions` | devtrackr-frontend/src/components/GitHubContributions.tsx:66-75 | a numeric `total` is taken as is; a `total` that is neither object nor number gives `totalThisYear` of the days |
| `Contributions.TotalOfFlatten` | devtrackr-frontend/src/components/GitHubContributions.tsx:174-180 | the total over the concatenated weeks is the sum of the weeks' totals |
| `Contributions.GroupWeeks` | devtrackr-frontend/src/components/GitHubContributions.tsx:177-180 | the weeks concatenate back to the days; all but the last have 7 days, the last 1 to 7; there are ceil(n/7); their totals add up to `totalThisYear` |
| `ExtensionFilter.Lower` | devtrackr-frontend/src/components/ExtensionTracker.tsx:23 | same length, each character lower-cased, no upper-case ASCII letter left |
| `ExtensionFilter.MatchesSearch` | devtrackr-frontend/src/components/ExtensionTracker.tsx:23 | an empty term matches every name, a name matches itself, and a term longer than the name never matches |
| `ExtensionFilter.MatchesFilter` | devtrackr-frontend/src/components/ExtensionTracker.tsx:24-26 | 'all' keeps every entry, 'enabled' exactly the enabled ones, 'disabled' exactly the disabled ones; any other value keeps none |
| `ExtensionFilter.Keep` | devtrackr-frontend/src/components/ExtensionTracker.tsx:22-27 | an empty search with 'all' keeps the entry; a kept entry matches the state filter and the term is no longer than its name |
| `ExtensionFilter.Filtered` | devtrackr-frontend/src/components/ExtensionTracker.tsx:22-28 | an order-preserving subsequence; every kept entry passes search and filter; every entry that passes both is kept, as many times as it occurs (multiset equality with the passing entries) |
| `ExtensionFilter.FilterSelectsByState` | devtrackr-frontend/src/components/ExtensionTracker.tsx:24-26 | 'enabled' keeps only enabled entries, 'disabled' only disabled ones |
| `ExtensionFilter.EmptySearchShowsAll` | devtrackr-frontend/src/components/ExtensionTracker.tsx:19-26 | an empty search with 'all' returns the whole list |
| `ExtensionFilter.UnknownFilterShowsNothing` | devtrackr-frontend/src/components/ExtensionTracker.tsx:24-26 | any other filter value gives an empty list |
| `ExtensionFilter.SearchIgnoresCase` | devtrackr-frontend/src/components/ExtensionTracker.tsx:23 | lower-casing the search term does not change the result |
| `FolderUsage.ToggleFolder` | devtrackr-frontend/src/components/FolderUsage.tsx:39-43 | same length; entry `index` flips `isExpanded`, keeping its name, hours and files; every other entry unchanged |
| `FolderUsage.ToggleTwiceRestores` | devtrackr-frontend/src/components/FolderUsage.tsx:40-42 | toggling the same index twice restores the list |
| `FolderUsage.OutOfRangeToggleIsNoOp` | devtrackr-frontend/src/components/FolderUsage.tsx:40-42 | an index outside the list leaves it unchanged |

## Left out

- Editor host plumbing is not modelled (extension.ts:55-120): `activate`'s storage directory, the
  `connectSession` and `showStats` commands, `globalState`, event subscription and the message
  formatting of `showStats`. The handlers are methods that receive the event's data.
- Timer scheduling is not modelled. The host calls `PeriodicSave`; the model does not track the
  30-second cadence, the `setInterval`/`clearInterval` calls, or the fact that no tick comes after
  `deactivate`.
- File and JSON I/O are not modelled. The store is an in-memory field. It is not re-read from disk
  and there is no second writer. A corrupt time_data.json (`JSON.parse` throwing) and a failed write
  are not modelled.
- `syncToBackend` and the session key are left out: the function only logs. The network client in
  api.ts is left out too.
- devtrackr-plugin/src/config.ts is not part of this model. The tracked-extension list is a
  parameter, and `DefaultTracked` is its fallback value.
- `Date.now()` and `new Date().toISOString().split("T")[0]` are parameters (`now`, `today`).
- Paths.DirName, Paths.ExtName: cover POSIX paths without trailing separators. They do not
  model Node's handling of trailing '/', of `..`, of Windows separators, or of a leading "//":
  `DirName("//a")` is "/", where Node's POSIX `path.dirname` gives "//".
- The model treats JavaScript numbers as unbounded integers: no IEEE-754 doubles, rounding or fractions. Non-numeric, `NaN` or `undefined` values inside a
  stored document are not modelled.
- FileTracker.Tracker.GetStats: returns a copy of `timers`. tracker.ts returns the live object, so a caller that
  mutates the result would change the tracker's timers; that aliasing is not modelled.
- Contributions.ToContributionDays: an API day without a `count` is not modelled; the component
  would carry `undefined` into the count and `NaN` into `totalThisYear`.
- Contributions.TotalContributions: for a `total` object its contract states nothing beyond the
  definition; the summed per-year values are `SumOrZero`, with a value `Number()` cannot read
  counting 0.
- The network requests of `fetchGitHubContributions`, its error fallback with fixed statistics, and
  `generateMockContributions` are left out: they use `fetch`, `Math.random` and date arithmetic.
  The mock generator's level formula is the same `Level`.
- ExtensionFilter.Lower: lower-cases ASCII letters only; Unicode case mapping is not modelled.
- Rendering, routing, authentication and the backend are out of scope.
