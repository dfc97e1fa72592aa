# changebot change-detection core, in Dafny

changebot is a website change monitor. Each run goes through the enabled
websites of its configuration. For each one it:

- fetches the page, with retries and exponential backoff;
- narrows the page with an optional CSS or XPath selector;
- hashes the content and compares the hash with the stored snapshot;
- on a change or a first run, saves a new snapshot (a line diff is rendered
  for a change) and sends an ntfy notification;
- on a failure, counts an error on the stored snapshot and sends an urgent
  error notification.

This project models that core and proves what it promises.

| module | file | models |
|---|---|---|
| `Types` | `types.dfy` | The records of `src/types.ts`, plus the shapes of what the foreign libraries return. |
| `Text` | `text.dfy` | The JavaScript string built-ins the core relies on: `split("\n")`, `join("\n")`, the empty-line filter, `trimEnd`, decimal `${n}`, and ASCII `toLowerCase`. |
| `Utils` | `utils.dfy` | `urlToFilename` (`src/utils.ts`). |
| `Differ` | `differ.dfy` | `compareContent`, and `generateDiff` as an imperative loop proved against a rendering function (`src/differ.ts`). |
| `Fetcher` | `fetcher.dfy` | The `fetchWithRetry` attempt/backoff loop as a method, the selector dispatch and the CSS/XPath fall-back rules (`src/fetcher.ts`). |
| `Notifier` | `notifier.dfy` | The priority table, and the title, message, tags, priority and click of both notifications (`src/notifier.ts`). |
| `Monitor` | `monitor.dfy` | `monitorWebsite` and `main`'s loop (`src/monitor.ts`), with the store and the ntfy service as classes. |

## How the outside world enters the model

Everything the core does not compute itself is passed in:

- **Foreign libraries** are the fields of a `Libraries` value:
  - SHA-256 (`hash`);
  - `diffLines` (`lineDiff`, giving `Added`/`Removed`/`Unchanged` records);
  - `new URL` (`parseUrl`, giving a host name and path name, or nothing for an invalid URL);
  - the cheerio and xpath queries (`cssSelect`, `xpathSelect`).
- **Per-site events.** For each site, a `SiteEvents` value says:
  - what each fetch attempt met: a thrown error, or a response with a status and a body;
  - the clock readings;
  - whether each ntfy POST was accepted or threw, and with what message.
- **The store.** `./storage` (`loadSnapshot`/`saveSnapshot`) is not part of
  this model. It is the class `SnapshotStore`, whose map from URL to
  snapshot the methods update.
- **The ntfy service.** It is the class `Ntfy`, whose log of accepted
  notifications grows.

Each imperative method is proved equal to a pure specification function:

| method | specification function |
|---|---|
| `GenerateDiff` | `DiffText` |
| `FetchWithRetry` | `Fetch` |
| `MonitorWebsite` | `MonitorEffect` |
| `RunMonitor` | `RunEffect` |

The lemmas state the source's promises about those functions.

## Model

| member | source | states |
|---|---|---|
| `Differ.CompareContent` | src/differ.ts:7-46 | First run exactly when there is no earlier hash (no entry, or an empty hash). A first run is never "changed", has no old hash and an empty diff. Otherwise `changed` holds iff the hashes differ, and both hashes are returned. A diff is rendered only when changed, and the text is `DiffText` of the library's records. The URL and name are carried, and there is never an error. |
| `Differ.PushMarked` | src/differ.ts:67-69 | Appending the trimmed, marked items leaves `lines` extended by exactly `Mark` of the items. |
| `Differ.FlushContext` | src/differ.ts:66-71 | The new state is `Flush` of the old one: the last two buffered lines are emitted as context and the buffer is emptied. |
| `Differ.ProcessChange` | src/differ.ts:63-98 | One loop iteration moves the rendering state by exactly `Step` of the record. |
| `Differ.GenerateDiff` | src/differ.ts:51-113 | The returned text is `DiffText` of the library's change records. |
| `Differ.CountsAreLineCounts` | src/differ.ts:72-76 | `additions` is the number of non-empty lines over the Added records, and `deletions` is the same over the Removed records (lines 85-89). |
| `Differ.SummaryStatesLineCounts` | src/differ.ts:110 | The output begins `Changes summary: A additions, D deletions` and a blank line, with A and D those line counts. |
| `Differ.BufferIsRecentContext` | src/differ.ts:91-97 | The buffer is exactly the last four unchanged lines since the last flush, so it never holds more than four. |
| `Differ.BoundedBufferLosesNothing` | src/differ.ts:93-97 | Trimming the buffer to four lines renders exactly what a reference rendering with an unbounded buffer gives. In that rendering each change run is preceded by the last two (or fewer) unchanged lines since the previous change run, then its own marked lines. |
| `Differ.StepLines` | src/differ.ts:63-98 | A step appends to the rendered lines exactly what its record emits for the buffered lines. |
| `Differ.EmittedOfBuffer` | src/differ.ts:67 | Only the last two buffered lines can be emitted, so only the last four matter. |
| `Differ.RenderedLineShape` | src/differ.ts:68 | Every rendered line starts with two spaces, `+ ` or `- ` (lines 74, 81 and 87), and contains no newline. |
| `Differ.DiffTextLines` | src/differ.ts:101-110 | Read line by line, the diff is the summary, a blank line, then at most 50 rendered lines. A single `... and N more lines` trailer follows exactly when lines were cut, with N the number cut. |
| `Differ.ReplacedLine` | src/differ.ts:63-110 | One line replaced between two others renders as the summary `1 additions, 1 deletions`, the preceding line as context, then `- old` and `+ new`. The following line stays in the buffer. |
| `Text.Split` | src/differ.ts:72 | `split("\n")` gives at least one piece, and no piece holds a newline. |
| `Text.JoinSplit` | src/differ.ts:103 | Joining the pieces of a split with `"\n"` gives the string back. |
| `Text.SplitJoin` | src/differ.ts:103 | Splitting a join of newline-free pieces gives the pieces back. |
| `Text.NonEmptyLinesKeepText` | src/differ.ts:72 | The empty-line filter loses no character of the record but its newlines. |
| `Text.TrimEnd` | src/differ.ts:74 | `trimEnd` returns a prefix that does not end in white space, and only white space was dropped. |
| `Text.NatToString` | src/differ.ts:110 | `${n}` is a non-empty run of decimal digits with no leading zero. |
| `Text.DecimalRoundTrip` | src/differ.ts:110 | Reading the decimal text of `n` back gives `n`. |
| `Text.ToLowerLaws` | src/utils.ts:14 | `toLowerCase` leaves no upper-case letter, leaves lower-case text unchanged, and works piece by piece. |
| `Utils.DotsToDashes` | src/utils.ts:9 | Position by position, every `.` of the host name becomes `-` and every other character is kept, so no dot is left. |
| `Utils.NonAlnumToDash` | src/utils.ts:11 | Every character that is not an ASCII letter or digit becomes `-`, and the rest are kept. |
| `Utils.CollapseDashes` | src/utils.ts:12 | No `--` is left. Only dashes are dropped: the non-dash characters are kept in order, and so are the first and last characters. |
| `Utils.SanitizePath` | src/utils.ts:10-13 | The path part holds only ASCII letters, digits and `-`, has no `--`, and neither starts nor ends with `-`. |
| `Utils.CollapseStep` | src/utils.ts:12 | Two dashes in a row collapse exactly like one, anywhere in the string. With `CollapseKeepsSingleDashes` this fixes the result on every input: each run of dashes leaves one dash. |
| `Utils.CollapsedRuns` | src/utils.ts:11-12 | After the dashing and the collapse, the path is its maximal runs of letters and digits joined by single dashes. There is one more dash in front if the path starts with another character, and one at the end if it ends with one and has a run. |
| `Utils.SanitizeIsDashJoin` | src/utils.ts:10-13 | The path part equals the path's maximal runs of letters and digits, in order, joined by single dashes (`AlnumRuns` and `DashJoin`, defined independently of the replace chain). |
| `Utils.SanitizePathIdempotent` | src/utils.ts:10-13 | Sanitising a sanitised path changes nothing. |
| `Utils.SanitizeKeepsAlnums` | src/utils.ts:10-13 | The path part holds exactly the ASCII letters and digits of the path, in order: only the separators between them change. |
| `Utils.SanitizeEmptyIff` | src/utils.ts:10-14 | The path part is empty, so `index` takes its place, exactly when the path holds no ASCII letter or digit. |
| `Utils.UrlToFilename` | src/utils.ts:6-18 | An unparseable URL fails with `Invalid URL: <url>`. Otherwise the result is the dashed host, the sanitised path (or `index` when empty), then `.json`, lower-cased. |
| `Utils.FilenameShape` | src/utils.ts:14 | Every filename is lower-case and ends in `.json`, with no other `.`. |
| `Utils.SanitizeRoot` | src/utils.ts:14 | The path `/` sanitises to the empty string, which becomes `index`. |
| `Utils.RootFilename` | src/utils.ts:14 | Host and path are joined with no separator: `example.com` gives `example-comindex.json`. |
| `Utils.SanitizeOneWord` | src/utils.ts:10-13 | A one-word path `/w` sanitises to `w`. |
| `Utils.FilenamesCollide` | src/utils.ts:14 | Because there is no separator, host `h` plus `w` at path `/` and host `h` at path `/windex` are different URL parts that give the same filename. |
| `Fetcher.Backoff` | src/fetcher.ts:54 | The delay after failed attempt k is `min(1000 * 2^(k-1), 10000)`: positive and at most 10000. |
| `Fetcher.BackoffMonotone` | src/fetcher.ts:54 | Later attempts never wait less. |
| `Fetcher.BackoffSchedule` | src/fetcher.ts:54 | The delay doubles until the cap, and is the cap from the fifth attempt on. |
| `Fetcher.ReplaceFirst` | src/fetcher.ts:38 | A string `replace` with a string pattern replaces a leading occurrence and leaves a string without one unchanged. |
| `Fetcher.ApplyCssSelector` | src/fetcher.ts:67-82 | A query that throws (lines 78-81) or matches nothing (lines 72-75) gives the raw HTML back. On a match it gives the first element's inner HTML if non-empty, else its text (line 77). |
| `Fetcher.ApplyXPathSelector` | src/fetcher.ts:87-104 | A query that throws, does not give a node list, or gives an empty one yields the raw HTML. Otherwise it gives the first node's text content if non-empty, else its serialised form (lines 93-96). |
| `Fetcher.ApplySelector` | src/fetcher.ts:37-41 | A selector starting `xpath=` goes to XPath with the prefix removed. Any other non-empty selector goes to CSS. No selector, or `""`, keeps the content. |
| `Fetcher.TryAttempt` | src/fetcher.ts:17-43 | One attempt's outcome is `AttemptResult`: a non-OK status throws, else the body is read and narrowed. |
| `Fetcher.AttemptCases` | src/fetcher.ts:30-43 | An attempt succeeds exactly on an OK status (200-299) with a readable body, and then its content is the narrowed body and its status the response's. A non-OK response fails with `HTTP <status>: <text>`, and a thrown error fails with its own message. |
| `Fetcher.FetchWithRetry` | src/fetcher.ts:9-62 | The loop's result and its sleeps are those of `Fetch` over the attempts' outcomes. |
| `Fetcher.NoRetriesNoAttempt` | src/fetcher.ts:16-61 | With fewer than one retry, no attempt is made and the result is `Max retries exceeded` with empty content and status 0. |
| `Fetcher.FetchFromStops` | src/fetcher.ts:43-51 | A success ends the loop at once, and so does a failure of the last attempt. |
| `Fetcher.FetchFromFailure` | src/fetcher.ts:44-57 | A failure before the last attempt sleeps `Backoff(attempt)` and goes on. |
| `Fetcher.FirstSuccessWins` | src/fetcher.ts:43 | If attempt k is the first to succeed, its content and status are returned after exactly k attempts and k-1 sleeps, with no further attempt. |
| `Fetcher.AllAttemptsFail` | src/fetcher.ts:45-51 | If every attempt fails, all `retries` attempts are made, with a sleep after each but the last. The result is empty content, status 0 and the last attempt's message. |
| `Fetcher.FetchFromShape` | src/fetcher.ts:16-61 | At most the allowed attempts are made, and none exactly when none are allowed. Sleep j is `Backoff(j+1)`, and there is none after the final attempt. The result is the last attempt's content or, when that was the final attempt and failed, its message. |
| `Fetcher.SuccessComesFromLastAttempt` | src/fetcher.ts:43 | A result without an error is the result of the last attempt made. |
| `Notifier.PriorityOf` | src/notifier.ts:41 | The priority is the table's value for the site's level, falling back to `default` (3); it is always between 1 and 5. |
| `Notifier.PrioritiesDecrease` | src/notifier.ts:5-11 | The table has exactly the levels urgent, high, default, low and min, with strictly decreasing priorities. |
| `Notifier.ChangeTags` | src/notifier.ts:42-46 | The site's tags (or none) come first, then `changedetection`, then `initial` or `changed`; the length grows by two. |
| `Notifier.ErrorTags` | src/notifier.ts:70 | The site's tags come first, then `error`. |
| `Notifier.ChangeNotification` | src/notifier.ts:16-50 | Fails exactly when a non-first-run result's URL does not parse, with `Invalid URL: <url>`. Otherwise: the topic is the configured one; the title is `✅ Initial snapshot: ` or `📢 Change detected: ` plus the name; the priority is `PriorityOf` the site's level; the tags are `ChangeTags`; the click is the result's URL. The message is the first-run text or the change text naming `snapshots/<filename>`. |
| `Notifier.ErrorNotification` | src/notifier.ts:55-73 | The title is `❌ Failed to fetch: <name>`, the priority is urgent (5), the tags are `ErrorTags`, and the click is the site's URL. The message names the URL and the error. |
| `Notifier.ErrorIsMostUrgent` | src/notifier.ts:69 | An error notification has priority 5 whatever the site's level, never below any change notification. |
| `Notifier.InitialMessageLines` | src/notifier.ts:25-28 | Read line by line, the first-run message names the URL, then the new hash, then the timestamp. |
| `Notifier.ErrorMessageLines` | src/notifier.ts:60-63 | Read line by line, the error message names the URL, then a blank line, the error and the timestamp. |
| `Notifier.ChangeMessageIsOneLine` | src/notifier.ts:32-34 | The change message is one line: the timestamp runs straight into `Snapshot:`. |
| `Monitor.Enabled` | src/monitor.ts:24 | The filter keeps only enabled websites, all taken from the configuration, and every enabled website is kept. |
| `Monitor.EnabledAppend` | src/monitor.ts:24 | Filtering a concatenation is filtering each part in turn, so the enabled sites keep their configuration order. |
| `Monitor.EnabledOne` | src/monitor.ts:24 | A single website is kept exactly when it is enabled. With `EnabledAppend` this fixes the filter on every list. |
| `Monitor.EnabledCounts` | src/monitor.ts:24 | Each enabled website is kept as many times as it is configured, and no disabled website is kept. |
| `Monitor.NewEntry` | src/monitor.ts:102-107 | The new entry's content is the fetched content, its hash the hash of that content, its status the fetched status, and its timestamp the clock reading. |
| `Monitor.SnapshotStore.Load` | src/monitor.ts:110 | Loading gives the stored snapshot for the URL, if any. |
| `Monitor.SnapshotStore.Save` | src/monitor.ts:118 | Saving replaces the snapshot under its URL and changes nothing else. |
| `Monitor.Ntfy.Send` | src/notifier.ts:86-102 | An accepted POST appends the notification to the log. A failed one throws its message and leaves the log as it was. |
| `Monitor.SaveAndNotify` | src/monitor.ts:117-134 | The save and the change notification behave as `Publish`. |
| `Monitor.MonitorWebsite` | src/monitor.ts:90-137 | The outcome, the store and the notification log are those of `MonitorEffect` for what the fetch gave. |
| `Monitor.HandleFailure` | src/monitor.ts:37-68 | The `catch` block's effect on the store, the log, `results` and `updatedSnapshots` is `RecordFailure`. |
| `Monitor.CheckWebsite` | src/monitor.ts:27-68 | One loop iteration's effect is `CheckSite`. |
| `Monitor.RunMonitor` | src/monitor.ts:13-69 | The store, the log, `results` and `updatedSnapshots` after the loop are those of `RunEffect`. `completed` is false exactly when the run rejected. |
| `Monitor.RunAbortedStays` | src/monitor.ts:64-67 | Once an error notification fails and `main` rejects, later sites are not checked. |
| `Monitor.SavesWhenDiffers` | src/monitor.ts:114-117 | After a successful fetch, the snapshot is saved exactly when the stored hash is absent, empty or different. Otherwise the result is returned with the store and the log untouched. |
| `Monitor.PublishSaves` | src/monitor.ts:117-134 | The saving branch always stores the snapshot. It returns the result exactly when the change notification can be built and is accepted, and then that notification is the one sent. Otherwise it throws the build error, or else the POST's error. |
| `Monitor.FetchErrorChangesNothing` | src/monitor.ts:97-99 | A fetch error throws that message before the store is read or written, and nothing is sent. |
| `Monitor.SameContentIsQuiet` | src/monitor.ts:114-136 | The same hash as a stored non-empty one gives an unchanged result with equal old and new hashes. Nothing is stored, `last_check` is not refreshed, and nothing is sent. |
| `Monitor.ChangeRotatesSnapshot` | src/monitor.ts:118-130 | A saved snapshot has the new entry as `current`, the old `current` (or none) as `previous`, and the new `last_check`. `change_count` goes up by exactly one on a change and is carried (or 0) on a first run; `error_count` is carried (or 0). No other URL changes. |
| `Monitor.ChangeIsNotified` | src/monitor.ts:117-136 | After a change or a first run, the result is returned exactly when the notification can be built and the POST is accepted, and it is then the one notification sent. Otherwise the thrown message is the build error (`Invalid URL`), or else the POST's error. |
| `Monitor.FirstRunStoresBaseline` | src/monitor.ts:117-133 | A site with no snapshot gets one with no previous entry and both counters at 0, and a first-run result unless the POST fails. |
| `Monitor.FailedNoticeCountsError` | src/monitor.ts:37-52 | If the change notification throws after the save (lines 118-133), `main` bumps `error_count` on the just-saved snapshot, which keeps the new content. The throw is either `Invalid URL` while building the notification or a failed POST. `main` records an error result whose message is the thrown one. |
| `Monitor.RecordFailureCounts` | src/monitor.ts:44-61 | On the error path with a stored snapshot, only `error_count` goes up by one and the URL is reported as updated. With none, nothing is written. Either way the error result (not changed, not first run, the message) is recorded. |
| `Monitor.MonitorGrows` | src/monitor.ts:90-137 | One site's check keeps every snapshot under its own URL and drops none. It changes no other site's snapshot, never lowers a counter, and only appends notifications. |
| `Monitor.CheckSiteGrows` | src/monitor.ts:27-68 | One loop iteration grows the store and the log. It appends exactly one result, about this site, and reports at most this site's URL as updated. |
| `Monitor.RunPrefixInvariant` | src/monitor.ts:24-69 | After k sites the results are one per site reached, in order, and only those sites' URLs are written or reported. |
| `Monitor.RunReportsEverySite` | src/monitor.ts:20-69 | A completed run returns one result per enabled site, in configuration order; a rejected run returns one for each site it reached. Only enabled sites' URLs are written or reported as updated. No snapshot is lost, no counter goes down, every snapshot stays under its own URL, and no notification is taken back. |

## Left out

- Network I/O is not modelled. The `fetch` calls, the timeout timer and the sleeps are replaced by the attempt outcomes the caller passes in; the model computes the sleep lengths but does not wait.
- `Fetcher.FetchWithRetry` ignores `timeout`. It only bounds how long a fetch may take, which the attempt outcomes already reflect.
- Fetcher: a non-integer `retries` from the configuration is not modelled; `retries` is an integer.
- DOM parsing and querying (cheerio, xmldom, xpath) are foreign libraries. Their answers are inputs.
- The `diff` library's LCS is not modelled. Its change records are an input.
- SHA-256 (`calculateHash`) is an arbitrary deterministic function.
- WHATWG URL parsing is not modelled. A parser gives the host name and path name, or nothing.
- Clock reads (`formatTimestamp`, `new Date()`) are not modelled; their strings are inputs.
- The ntfy POST body (`JSON.stringify`) and the message of a rejected POST are not modelled. The POST's verdict is an input.
- `Text.ToLower`: only ASCII letters are lowered; JavaScript's full Unicode case mapping is not modelled.
- `./storage` is not part of this model. The store is a map keyed by URL; the real module keys its files by name, so URLs that share a filename (`Utils.FilenamesCollide`) would share one file there, while the map keeps them apart.
- Errors thrown by `loadSnapshot` or `saveSnapshot` are not modelled.
- `git` (the `--update` commit and push), `config.ts`, `process.argv`/`process.exit` and all console logging, including the run summary, are left out.
- async/await is not modelled: every await is sequential, so the model runs the steps in order.
- `Notifier.PriorityOf`: a level that names an inherited `Object` property (such as `toString`) is not modelled. The model treats it as an unknown level and falls back to `default`.
