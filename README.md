# League mastery companion: a verified model

This project models the core of a League of Legends companion app in Dafny and proves properties of the model. The app sums champion-mastery points and estimates playtime across many Riot accounts. It has:

- two Express servers over the Riot API: `backend/server.js` and the older `server.js`;
- an even older proxy, `backend/server_old.js`;
- a JSON file store with a command line and a CSV exporter;
- a file checker, `multitor.js`;
- two account-summary servers, `app.js` and `backend/app.js`;
- two browser scripts that manage profiles of saved accounts;
- a small "jungle coach" of timers.

One module per concern:

| module | file | models |
|---|---|---|
| `Base` | base.dfy | JavaScript values used throughout: `Number` with NaN, `Math.round`, ASCII `toLowerCase`, `trim`, parsed JSON, `??` and truthiness |
| `Sorting` | sorting.dfy | `Array.prototype.sort`: a stable insertion sort under a total preorder |
| `Tally` | tally.dfy | the per-key sums and descending sort of the overall-mastery route and of the store's `totalsByChampion` |
| `RiotHttp` | riot_http.dfy | the queued, retrying Riot call of `backend/server.js` (a class over the FIFO of pending jobs) and the one-shot call of `server.js` |
| `MatchHistory` | match_history.dfy | the Match-V5 cluster table and the paginated match count |
| `Playtime` | playtime.dfy | the two playtime estimators |
| `Routes` | routes.dfy | `/api/account`, `/api/mastery/overall`, `/api/mastery` and both `/api/playtime/profile` variants |
| `Datastore`, `Cli`, `Exporter` | datastore.dfy, cli.dfy, exporter.dfy | the record store (a class over the data file), its command line and its CSV export |
| `Multitor` | multitor.dfy | the file checker |
| `AccountsApi` | accounts_api.dfy | `/api/accounts` of `app.js` and `backend/app.js`, whose logic is identical |
| `Client` | client.dfy | what both browser scripts share: the default accounts, champion-key normalisation, the champion catalogue, resolving and suggestions, account descriptors, profile maps |
| `FrontendScript`, `PublicScript` | frontend_script.dfy, public_script.dfy | the page state of each browser script, as a class |
| `Coach` | coach.dfy | the `JungleCoach` class |
| `LegacyProxy` | legacy_proxy.dfy | `backend/server_old.js` |

**Parameters instead of effects.** Every call to the outside world is a parameter of the model:

- Riot replies are a script `t(k)`: the reply to the k-th fetch.
- Directory listings, file reads, JSON parsing, `localStorage` contents, champion data and the current time are likewise parameters.
- Waiting is not performed. Each call records how long every fetch held the lane and every retry wait.

**Behaviours the proofs bring out:**

- **Retries.** A 429 is retried at most three times, so one call makes at most four fetches.
- **Queue.** A rejected job does not stop the jobs queued behind it.
- **Match count.** It never exceeds 2000 and costs at most 20 requests.
- **`hadMatchError`.** In `backend/server.js` it is never set, because `getMatchCountForPUUID` catches its own failures. So an "error" estimate there only comes from a failed level lookup.
- **The two estimators.** They agree on the hours and disagree on the label of a levelled account without matches.
- **Store key.** It is not injective: `("a", ":b")` and `("a:", "b")` share a key.
- **CSV export.** It reads back to the table it was made from.
- **CS target.** The coach's fixed targets for 10 and 15 minutes equal the rule of thumb, so the target is always eight per minute.
- **Shared default list in `public/script.js`.** After a start without stored profiles, "Profil 1" is the very array `DEFAULT_PROFILES["Profil 1"]`, so adding an account to "Profil 1" also grows the list of defaults. The page class carries that list and whether it is still shared.

**What the code does, where one might expect otherwise.** The model follows the code in each of these:

- **Backoff.** The wait before a retry is the `Retry-After` value or a fixed 1500 ms; it does not grow from one retry to the next.
- **Where the retry loop lives.** It runs inside the queued job, so a retried call keeps its place in the queue.
- **Skipped accounts.** The overall-mastery route drops a failing account from the sums and reports no error for it.
- **Failed level lookup.** The backend playtime route counts the account with level 0 and puts no error message in its row.
- **Order of totals.** Equal totals may stand side by side, so the order is non-increasing rather than strictly descending.

## Model

| member | source | states |
|---|---|---|
| RiotHttp.Attempt | backend/server.js:83-124 | a call makes between one and four fetches, with one retry wait between each two |
| RiotHttp.DirectCall | server.js:65-77 | the one-shot call succeeds exactly on a 2xx answer; any other status rejects with that status and the body text |
| RiotHttp.SkipRateLimits | backend/server.js:101-116 | while replies are 429 and tries remain, the call moves on to the next fetch with the attempt counter raised |
| RiotHttp.RateLimitedThenOk | backend/server.js:101-123 | up to three 429s followed by a success resolve with that success after k+1 fetches |
| RiotHttp.FourRateLimitsReject | backend/server.js:101-121 | a fourth consecutive 429 is not retried: the call rejects with status 429 after exactly four fetches |
| RiotHttp.FetchIsSpaced | backend/server.js:86-98 | every answered fetch holds the lane for at least 120 ms (its own time padded to the minimum) |
| RiotHttp.WaitsFollowRateLimits | backend/server.js:101-114 | every wait follows a 429 and lasts the positive `Retry-After` value in ms, else 1500 ms |
| RiotHttp.CallWithoutRateLimit | backend/server.js:118-123 | without a leading 429 the retrying call settles like the one-shot call, after one fetch |
| RiotHttp.Chain | backend/server.js:127-131 | the queue settles one job per queued url |
| RiotHttp.ChainJob | backend/server.js:127-131 | job i belongs to the i-th url and settles to a fresh call from its own first fetch, the first job starting at the queue's next fetch |
| RiotHttp.ChainConsecutive | backend/server.js:128-130 | each job starts with the fetch after the last fetch of the job before it, whether that job succeeded or rejected |
| RiotHttp.RiotQueue.Enqueue | backend/server.js:128 | a new job is placed behind every pending job |
| RiotHttp.RunJob | backend/server.js:83-124 | the job's `while (true)` loop returns exactly the outcome `Attempt` describes from its first fetch on |
| RiotHttp.JobPass | backend/server.js:85-123 | one pass of the loop either retries a 429 with tries left, adding its time and wait, or settles the call |
| RiotHttp.Examine | backend/server.js:86-123 | a reply is retried exactly when it is a 429 and at most three attempts have been made; otherwise it settles like the one-shot call |
| RiotHttp.RiotQueue.RunNext | backend/server.js:82-125 | the oldest job runs the retry loop; its result, fetch count and settled record are those of `Attempt` |
| RiotHttp.RiotQueue.Drain | backend/server.js:127-131 | all pending jobs settle in order as `Chain` describes and the queue is left empty |
| RiotHttp.RiotQueue.GetJson | backend/server.js:80-132 | the caller's job runs after every earlier job and the caller receives its own job's result |
| MatchHistory.Cluster | backend/server.js:150-158 | the cluster is always one of europe, americas, asia, sea |
| MatchHistory.ClusterIgnoresCase | backend/server.js:151 | the region is looked up without regard to letter case |
| MatchHistory.ClusterTable | backend/server.js:152-157 | americas, asia and sea are chosen exactly for their listed platforms; every other region, the empty one included, is europe |
| MatchHistory.ClusterExamples | server.js:96-104 | sample platforms of each cluster and the fallback |
| MatchHistory.Paginate | backend/server.js:174-213 | the first request asks for `start` 0 (or the given offset) |
| MatchHistory.CountMatches | backend/server.js:170-216 | the `while (true)` loop computes exactly the count and the request offsets of `Paginate` |
| MatchHistory.RequestOffsets | backend/server.js:179-204 | request k asks for `start = 100·k` |
| MatchHistory.RequestsBounded | backend/server.js:204-212 | from a multiple of 100, at most one request per 100 matches below the 2000 cap |
| MatchHistory.AtMostTwentyRequests | backend/server.js:204-212 | one match count makes at most 20 requests |
| MatchHistory.TotalIsFetchedLength | backend/server.js:194-198 | the count is the sum of the lengths of the pages fetched |
| MatchHistory.TotalCapped | backend/server.js:198-212 | with pages of at most 100 ids the count never exceeds 2000 |
| MatchHistory.FullPagesReachCap | backend/server.js:198-212 | when every page is full the count is exactly 2000, reached in 20 requests |
| MatchHistory.FailureKeepsPartialCount | backend/server.js:184-192 | a failed request ends the loop and keeps the ids counted before it |
| MatchHistory.ShortPageStops | backend/server.js:199-202 | a page shorter than 100 ends the count (100, 100, 37 gives 237 in three requests) |
| Playtime.HoursFromMatchesRounds | backend/server.js:549 | the match figure is `Math.round(games · 0.5)` |
| Playtime.HoursFromLevelRounds | backend/server.js:550 | the level figure is `Math.round(level · 7.5)` |
| Playtime.BackendHoursAreMax | backend/server.js:552-559 | the backend estimate is always the larger of the two figures, in whole numbers max((games+1)/2, (15·level+1)/2) |
| Playtime.BackendSources | backend/server.js:553-571 | "level_only" exactly without matches and with a level; "level_boost" exactly with matches and a strictly larger level figure; "error" exactly with neither matches nor level after a failed lookup; "matches" otherwise |
| Playtime.LegacySources | server.js:474-480 | the old estimate is the larger figure, labelled "level_boost" exactly when the level figure is strictly larger, never "error" or "level_only" |
| Playtime.EstimateBackend | backend/server.js:549-571 | the backend estimate carries both figures and is the larger of them; an "error" estimate is 0 hours |
| Playtime.EstimateLegacy | server.js:474-480 | the old estimate carries both figures and is the larger of them; "level_boost" only when the level figure is strictly larger |
| Playtime.EstimatorsAgreeOnHours | server.js:474-478 | both servers put the same hours on an account |
| Playtime.EstimatorsDisagreeWithoutMatches | backend/server.js:555-558 | a levelled account without matches is "level_only" on the backend and "level_boost" on the old server |
| Playtime.EstimateMonotone | server.js:474-478 | more matches or a higher level never lower the estimate |
| Routes.SplitRiotId | backend/server.js:311-318 | a Riot id splits exactly when it contains '#'; the parts contain no '#' and the input starts with them |
| Routes.SplitJoin | backend/server.js:318 | `name#tag` splits back into name and tag |
| Routes.SplitDropsExtraParts | backend/server.js:318 | parts after a second '#' are dropped |
| Routes.LookupAccount | backend/server.js:239-270 | `/api/account` answers 400 exactly when the trimmed name has no '#'; an account found carries the given region, "euw1" when none is given |
| Routes.MasteryPairs | backend/server.js:329-335 | one (championId, points) pair per mastery entry |
| Routes.OverallOf | backend/server.js:277-360 | 400 exactly without accounts; otherwise the champion totals in non-increasing order |
| Routes.AddMasteries | backend/server.js:329-335 | the inner loop adds one account's entries to the running totals |
| Routes.MasteryOverall | backend/server.js:277-360 | the account loop and the sort compute the route's reference answer: 400 without accounts, else the per-champion sums of the resolved accounts, ranked as the Tally lemmas state |
| Routes.MalformedAccountSkipped | backend/server.js:311-316 | an account without '#' contributes nothing, whatever the upstream says |
| Routes.FindMastery | backend/server.js:423-425 | the entry found is the first entry with the requested champion id; if none is found, no entry has it |
| Routes.MasterySingle | backend/server.js:363-460 | the single-champion route loops over the accounts and then sums, as its reference function does |
| Routes.ChampionRowFacts | backend/server.js:401-445 | a row's name, region, points and error for a malformed id and a failed lookup; a looked-up row holds the points and level of the first entry with the requested id, or 0 and level 0 when no entry has it |
| Routes.SingleOf | backend/server.js:363-460 | 400 exactly for a falsy champion id or no accounts; otherwise one row per account and the total is the sum of the rows' points |
| Routes.SingleRows | backend/server.js:397-455 | one row per account in input order; the total is the sum of the rows' points |
| Routes.SingleValidation | backend/server.js:366-371 | a falsy championId is refused first, then missing or empty accounts |
| Routes.SumSkipsErrorRows | backend/server.js:448 | rows with an error add nothing to the total |
| Routes.SingleTotalSkipsErrors | backend/server.js:448 | the route's total is the sum over the rows without an error |
| Routes.BackendRowFor | backend/server.js:495-600 | one backend playtime row, match count from the pagination loop |
| Routes.BackendRow | backend/server.js:495-600 | a backend row with an error is labelled "error" with no games and no hours; any other row's hours are the larger of its two figures |
| Routes.LegacyRowFor | server.js:442-505 | one old-server playtime row |
| Routes.LegacyRow | server.js:442-505 | an old-server row with an error is labelled "error" with no games and no hours; any other row's hours are the larger of its two figures |
| Routes.PlaytimeBackend | backend/server.js:466-607 | 400 for missing accounts, else one row per account in order with running totals |
| Routes.PlaytimeLegacy | server.js:413-512 | the same for the old server |
| Routes.ErrorRowsAddNothing | backend/server.js:499-508 | a row with an error is labelled "error" and carries zero games and zero hours; in the old server the label and the error go together; a malformed id always gives an error row |
| Routes.LevelFailureHandling | backend/server.js:523-535 | a failed level lookup fails the whole account on the old server but only zeroes the level on the backend |
| Routes.RowHours | backend/server.js:549-559 | a counted account reports `hoursFromMatches` as half an hour per match and `hoursFromLevel` as 7.5 hours per level, both rounded, and its hours are the larger of the two |
| Routes.TotalsOverCountedRows | backend/server.js:573-574 | when error rows carry nothing, the totals are the sums over the rows without an error |
| Routes.PlaytimeTotalsSkipFailures | backend/server.js:573-574 | in the responses of both servers the totals are the sums over the accounts that did not fail |
| Routes.TotalsAddRows | backend/server.js:573-574 | each row adds its games and hours to the totals |
| Tally.Add | backend/server.js:333-334 | adding to a key updates its bucket in place or appends a new one; keys stay distinct |
| Tally.AddOthers | backend/server.js:333-334 | adding to one key leaves every other total unchanged |
| Tally.Accumulate | backend/server.js:305-344 | the accumulated buckets have distinct keys |
| Tally.TallyTotals | backend/server.js:329-335 | each key's total is the sum of all points given for it |
| Tally.TallyKeys | backend/server.js:329-335 | a key has a bucket exactly when some entry carries it |
| Tally.RankedSorted | backend/server.js:346-351 | the answer is a permutation of the per-champion sums with non-increasing totals |
| Tally.RankedTotals | backend/server.js:346-351 | every listed champion carries the sum of all its points |
| Tally.RankedDistinct | backend/server.js:305 | no champion is listed twice |
| Tally.RankedKeys | backend/server.js:346-350 | a champion is listed exactly when some account has it |
| Sorting.Sort | backend/server.js:351 | sorting keeps the length and the multiset of elements |
| Sorting.SortSorted | backend/server.js:351 | under a total preorder the result is sorted |
| Sorting.SortStable | backend/server.js:351 | the sort is stable: the elements that tie with any element keep their input order |
| Sorting.SortDescending | datastore.js:99 | sorting by `b - a` on a key gives non-increasing keys and a permutation |
| Datastore.ReadAll | datastore.js:51-59 | an unreadable or non-list file reads as the empty list |
| Datastore.NormalizeRecord | datastore.js:37-44 | a record is refused exactly when the trimmed account or champion is empty; otherwise the fields are trimmed, the time stamp is the current time, and the mastery is a whole number: the floor of a non-negative input, and 0 for NaN or a negative input |
| Datastore.KeyIgnoresCase | datastore.js:46-48 | the key ignores letter case |
| Datastore.KeyOf | datastore.js:46-48 | the key is lower case and has the length of account, "::" and champion together |
| Datastore.KeyCollision | datastore.js:46-48 | the key is not injective: a colon can move between account and champion |
| Datastore.FindKey | datastore.js:70 | the first index whose record has the key, or none |
| Datastore.WithoutKey | datastore.js:79 | the kept records are records of the list without the key |
| Datastore.Get | datastore.js:85-89 | the record found is the first record of the file that matches account and champion ignoring case; if none is found, no record matches |
| Datastore.FirstMatch | datastore.js:88 | the first record of the list matching account and champion ignoring case, or none when nothing matches |
| Datastore.ListByAccountMembers | datastore.js:102-105 | a record is listed exactly when it is in the file and belongs to the account |
| Datastore.ListByAccountOrder | datastore.js:102-105 | the listing keeps file order |
| Datastore.ListByAccount | datastore.js:102-105 | every listed record is a record of the file whose account equals the given one ignoring case |
| Datastore.MasteryValue | datastore.js:94 | a stored number counts with its exact value, fraction and sign included; a value that converts to NaN counts as 0 |
| Datastore.MasteryPairs | datastore.js:93-96 | one (champion, mastery) pair per record, the mastery counted as its number, or 0 when that is NaN |
| Datastore.TotalsByChampion | datastore.js:91-100 | the totals are in non-increasing order; an empty or unreadable file has none |
| Datastore.TotalsByChampionSpec | datastore.js:91-100 | one entry per champion present, carrying the exact sum of its records' masteries, in non-increasing order without a champion twice |
| Datastore.Upserted | datastore.js:67-74 | an upsert replaces the first record with the key in place, or appends; every other record keeps its position |
| Datastore.UpsertIdempotent | datastore.js:67-74 | upserting the same record twice equals upserting it once |
| Datastore.WithoutKeyExact | datastore.js:76-83 | remove drops exactly the records with the key, keeps order, and shortens the list exactly when one had it |
| Datastore.Store.WriteAll | datastore.js:61-65 | the file then holds the list |
| Datastore.Store.Upsert | datastore.js:67-74 | an invalid record leaves the file alone; a valid one writes the upserted list once |
| Datastore.Store.Remove | datastore.js:76-83 | the file is written only when something was removed; an invalid probe is an error |
| Datastore.Store.Totals | datastore.js:91-100 | the loop and sort give `totalsByChampion` of the file, with exact sums |
| Exporter.Cell | exporter.js:8 | an absent field is the empty cell |
| Exporter.ReadQuotedDoubled | exporter.js:9 | doubled quotes in a quoted field read back as single quotes |
| Exporter.ReadEscaped | exporter.js:7-10 | an escaped cell reads back as itself |
| Exporter.ReadJoinedLine | exporter.js:11-12 | a line of escaped cells joined by ';' reads back as those cells |
| Exporter.ReadTerminated | exporter.js:12-13 | lines of escaped cells read back as the table |
| Exporter.JoinLines | exporter.js:13 | joining by line feeds and adding one more gives every line its terminator |
| Exporter.CsvRoundTrip | exporter.js:6-14 | `toCSV` reads back to the header row followed by every row's cells in header order |
| Exporter.ToCsv | exporter.js:6-14 | the text starts with the header line and always ends in a line feed; without rows it is the header line and an empty line |
| Exporter.ExportAll | exporter.js:16-22 | the full export starts with the four column names; an empty store exports the header and an empty line |
| Exporter.ExportTotals | exporter.js:24-31 | the totals export starts with the two column names; without totals it is the header and an empty line |
| Exporter.JsonText | exporter.js:8 | a text is written as itself; a whole number is written so that `Number` reads it back |
| Exporter.Export | exporter.js:33-35 | `totals` writes the totals file, anything else the full export |
| Exporter.RecordRowCells | exporter.js:18 | a record is exported as account, champion, mastery and time stamp |
| Exporter.TotalRowCells | exporter.js:26-27 | a total is exported as champion and mastery |
| Exporter.ExportAllRoundTrip | exporter.js:16-22 | every stored record comes back as one line, in file order |
| Exporter.ExportTotalsRoundTrip | exporter.js:24-31 | every total comes back as one line, in the order of `totalsByChampion` |
| Cli.ParseArgs | backend/cli.js:4-12 | the loop builds the flags map defined by `ParsedArgs` |
| Cli.FlagParts | backend/cli.js:8-9 | `--key` reads as undefined; `--key=value` reads as value, and text after a second '=' is dropped |
| Cli.FlagWithValue | backend/cli.js:8 | the value runs from the first '=' to the next '=' |
| Cli.LastFlagWins | backend/cli.js:9 | a key is set exactly when some flag names it, and the last such flag gives its value |
| Cli.NonFlagsIgnored | backend/cli.js:7 | tokens that are not flags do not change the arguments |
| Cli.ActionOf | backend/cli.js:31-83 | `totals` shows the totals; `list`, `get` and `remove` act exactly when their flags are given, else show help; `add` and `set` are `SaveAction`; unknown or empty commands show help |
| Cli.SaveAction | backend/cli.js:63-70 | a save happens exactly when account and champion are given and mastery is present, with the mastery through `Number`; otherwise help |
| Cli.AddIsSet | backend/cli.js:63-70 | `add` and `set` are the same command |
| Cli.RunCommand | backend/cli.js:31-84 | one store operation per command; only a valid add/set or a remove that found something writes the file; `remove` reports true exactly when some record had the key |
| Multitor.FileRun | multitor.js:28-31 | the file run stops at the first option |
| Multitor.ParseArgs | multitor.js:21-39 | the index loop computes `ParseFrom` of `argv.slice(2)` |
| Multitor.ParseToken | multitor.js:25-38 | one pass of the index loop moves strictly forward and leaves the parse of the remaining tokens unchanged |
| Multitor.CollectFiles | multitor.js:26-32 | the inner loop collects the tokens up to the next option |
| Multitor.ParseFilesStep | multitor.js:26-32 | `--files` appends the following non-option tokens and resumes at the next option |
| Multitor.ParseDirStep | multitor.js:33-36 | `--dir` takes the next token, or nothing at the end |
| Multitor.OtherTokensIgnored | multitor.js:24-37 | tokens other than `--files` and `--dir` change nothing |
| Multitor.FilesThenDir | multitor.js:21-39 | `--files a b --dir x` gives files a, b and directory x |
| Multitor.DirTakesAnyToken | multitor.js:33-36 | `--dir` takes the next token even when it is an option |
| Multitor.FilesAccumulate | multitor.js:26-32 | an unknown option ends a run and a later `--files` adds more |
| Multitor.TrailingDir | multitor.js:34 | a trailing `--dir` leaves the directory unset |
| Multitor.FilesAreNotOptions | multitor.js:28-29 | every collected file is a non-option token, in token order |
| Multitor.DropControls | multitor.js:43 | the result is a suffix of the input that starts with no control character |
| Multitor.CleanIsSlice | multitor.js:42-44 | the cleaned text is a slice of the input without white space at either end |
| Multitor.CleanJsonString | multitor.js:42-44 | the cleaned text is no longer than the input and starts and ends with no white space |
| Multitor.ReadJsonSafe | multitor.js:46-54 | reading succeeds exactly when the file reads and its cleaned text parses, giving that data |
| Multitor.FirstPresent | multitor.js:58-66 | a `??` chain is nullish exactly when every candidate is, and is otherwise the first candidate that is not |
| Multitor.FallbackOrder | multitor.js:58-66 | the champion list, total and date fall back through their fields in the written order |
| Multitor.ChampionCount | multitor.js:68-71 | a count exists exactly for an array or an object |
| Multitor.AnalyzeStructure | multitor.js:56-98 | pushing issues one at a time gives the analysis |
| Multitor.IssuesExact | multitor.js:86-90 | each of the three issues is reported exactly when its condition holds |
| Multitor.Analyze | multitor.js:56-98 | the count comes from the champion list; no points are shown exactly when the missing-points issue is raised; a date is shown exactly when its issue is not raised |
| Multitor.PointsFallback | multitor.js:73-84 | without an explicit total, a champion list's entry points are summed |
| Multitor.SumPointsOfNumbers | multitor.js:79-82 | entries without a number add nothing |
| Multitor.ListJsonFiles | multitor.js:112-118 | exactly the plain files ending in ".json" (any case), outside the excluded names, are listed |
| Multitor.ListJsonFilesAppend | multitor.js:112-118 | the listing keeps directory order: it distributes over concatenated entry lists |
| Multitor.ResolveTargets | multitor.js:120-129 | `--files` first, then the account list, then the directory listing |
| Multitor.TargetsFromListing | multitor.js:125-128 | without files or accounts, the targets are the listed files of the chosen directory and all end in ".json" |
| Multitor.JoinKeepsJsonEnding | multitor.js:115-116 | joining a ".json" name to a directory keeps the ending |
| Multitor.LabelOfJoined | multitor.js:150 | a file joined to a directory is labelled by its own name, whatever separators trail the path |
| Multitor.Label | multitor.js:150 | a label has no '/' and is no longer than the path |
| Multitor.RowFor | multitor.js:150-178 | a row is OK exactly when the file read and its analysis has no issues |
| Multitor.CheckFiles | multitor.js:131-184 | no targets exit with 2; otherwise one row per target in order; counts add up; exit 1 exactly when a file failed |
| AccountsApi.AccountFiles | app.js:19-25 | a failing listing gives no files (same code in backend/app.js:14-20) |
| AccountsApi.FilterMembers | app.js:22 | a file is listed exactly when its lower-cased name ends in ".json" and it is not excluded |
| AccountsApi.FilterAppend | app.js:22 | the filter distributes over concatenated listings |
| AccountsApi.AccountName | app.js:32 | the name is the file name without one trailing ".json" |
| AccountsApi.DataOf | app.js:14-18 | an unreadable, unparsable or falsy file reads as `{}`; otherwise as its parsed value with the leading BOM removed |
| Base.NumberOfArrays | app.js:34 | `Number` of an array: 0 for `[]`, the item's value for one numeric item, NaN for a boolean item or two items |
| AccountsApi.RowOf | app.js:30-37 | champs counts only an array `championSet`; points is `Number(masteryPoints \|\| 0)`; updated falls back to "-" |
| AccountsApi.UnreadableRow | backend/app.js:25-32 | an unreadable file gives champs 0, points 0 and "-" |
| AccountsApi.Rows | app.js:30-37 | one row per file, in order |
| AccountsApi.Plus | app.js:38 | NaN absorbs the sum |
| AccountsApi.TotalPoints | app.js:38 | the total is NaN exactly when some row's points are |
| AccountsApi.Average | app.js:45 | 0 for no accounts, NaN with a NaN total, else an integer within 0.5 of total/count |
| AccountsApi.Summarize | app.js:40-48 | count is the number of rows; no rows give the all-zero summary |
| AccountsApi.AccountsRoute | app.js:28-49 | one account per file, and count equals that number |
| AccountsApi.TotalsAppend | backend/app.js:33-34 | the sums split over concatenated row lists |
| AccountsApi.TotalBounds | app.js:38 | points within [lo, hi] give a total within [lo·n, hi·n] |
| AccountsApi.AverageOfBounded | app.js:45 | a total within [lo·n, hi·n] gives an average between round(lo) and round(hi) |
| AccountsApi.AverageBounds | backend/app.js:40 | with every account's points in [lo, hi], the average lies between round(lo) and round(hi) |
| Client.NormalizeChampionKey | frontend/public/script.js:344-346 | the key is no longer than the input and contains no apostrophe, dot or white space |
| Client.NormalizeIdempotent | public/script.js:267-269 | normalising twice equals normalising once |
| Client.NormalizeConcat | frontend/public/script.js:345 | normalisation works character by character |
| Client.NormalizeIgnores | frontend/public/script.js:345 | inserting a stripped character or changing letter case does not change the key |
| Client.Entries | frontend/public/script.js:366-373 | one catalogue entry per champion, in order |
| Client.KeyMapDomain | frontend/public/script.js:375-379 | a key is known exactly when it is the normalised name or id of some champion |
| Client.KeyMapValue | frontend/public/script.js:375-379 | a known key maps to a catalogue entry whose normalised name or id is that key |
| Client.IdMapSpec | frontend/public/script.js:380-381 | a numeric key is known exactly when some champion carries it, and maps to a catalogue entry with that key |
| Client.ChampionCatalog.Load | frontend/public/script.js:348-386 | a loaded catalogue is kept; otherwise the list, the name map and the id map are built from the data |
| Client.ResolveChampion | frontend/public/script.js:420-428 | empty input is an error; otherwise found exactly when the normalised input is a catalogue key or a key every object inherits, a catalogue key giving its entry; only "constructor" and "__proto__" are inherited hits; the "nicht gefunden" message otherwise |
| Client.NormalizedNoCapitals | frontend/public/script.js:344-346 | a normalised key has no capital letter |
| Client.ReachableInherited | frontend/public/script.js:425 | of the `Object.prototype` members, only "constructor" and "__proto__" can be named by a normalised key |
| Client.InheritedResolve | frontend/public/script.js:425-427 | "constructor" and "__proto__" resolve to the inherited member when no champion has that key |
| Client.ResolveInCatalog | public/script.js:343-351 | when some champion's normalised name or id equals the normalised input, it resolves to such a champion's entry; otherwise it resolves only for "constructor" and "__proto__", to the inherited member |
| Client.Suggestions | frontend/public/script.js:413-416 | at most 12 suggestions |
| Client.MatchingSpec | frontend/public/script.js:415 | a champion matches exactly when its normalised name starts with the normalised input |
| Client.MatchingAppend | public/script.js:338 | the filter distributes over concatenated lists |
| Client.Matching | frontend/public/script.js:415 | the matches are champions of the list, no more than the list holds |
| Client.SuggestionsSpec | public/script.js:337-339 | the suggestions are the first `min(12, matches)` matches in list order, and all of them when there are at most 12 |
| Client.Descriptor | frontend/public/script.js:513-524 | the region is kept; the name is `gameName#tagLine` when the lookup gave both fields, and otherwise the descriptor is the saved account unchanged |
| Client.DescriptorSplits | frontend/public/script.js:518-520 | a descriptor built from a lookup splits back into game name and tag |
| Client.Descriptors | frontend/public/script.js:513-524 | one descriptor per account, in order |
| Client.Names | frontend/public/script.js:140-142 | one name per profile, in order |
| Client.AccountsOf | frontend/public/script.js:140-142 | a profile's accounts exist exactly when its name is known |
| Client.AssignPlaces | frontend/public/script.js:144-147 | an existing profile keeps its place; a new one is appended |
| Client.Assign | frontend/public/script.js:144-147 | assigning a name adds at most one profile, and the profile with that name and list is then present |
| Client.AssignSpec | public/script.js:178-181 | after assigning, the profile holds the list and every other profile is unchanged |
| Client.AssignDistinct | public/script.js:179 | assigning keeps profile names distinct |
| Client.RemoveAt | public/script.js:209 | removing row i drops exactly that row; an index out of range changes nothing |
| Client.RenderedRows | public/script.js:383-385 | the rendered rows are a permutation of the response rows with non-increasing points |
| FrontendScript.IndexIn | frontend/public/script.js:289 | `indexOf`: the first position of the value, or none |
| FrontendScript.RegionRank | frontend/public/script.js:287-296 | a listed region ranks by its position in euw1, eun1, na1, kr, jp1; any other ranks 999 |
| FrontendScript.ByRegionThenNameIsTotal | frontend/public/script.js:297-301 | comparing by region rank and then by name is a total preorder |
| FrontendScript.SortAccounts | frontend/public/script.js:287-302 | the sorted copy holds the same accounts |
| FrontendScript.SortAccountsSpec | frontend/public/script.js:287-302 | the sorted list is a permutation ordered by region rank and, within a rank, by name |
| FrontendScript.EnsureDefaults | frontend/public/script.js:114-125 | the profiles are kept or replaced by the defaults |
| FrontendScript.EnsureDefaultsSpec | frontend/public/script.js:114-125 | profiles whose "Profil 1" has accounts are kept; afterwards "Profil 1" always has accounts |
| FrontendScript.Selection | frontend/public/script.js:240-247 | the selection is always a known profile, or none |
| FrontendScript.LoadedSelection | frontend/public/script.js:220-251 | after loading, the saved profile is selected if it exists, else "Profil 1" |
| FrontendScript.Page.Save | frontend/public/script.js:127-132 | the profiles are stored, and the selection only when it is set |
| FrontendScript.Page.LoadProfiles | frontend/public/script.js:220-251 | the stored profiles with the defaults ensured, and the selection rule |
| FrontendScript.Page.SwitchProfile | frontend/public/script.js:199-204 | selects the profile and saves |
| FrontendScript.Page.CreateProfile | frontend/public/script.js:206-218 | created exactly for a non-blank name that is neither a profile nor a key inherited from `Object.prototype`: an empty profile appended and selected; otherwise nothing changes |
| FrontendScript.Page.AddAccount | frontend/public/script.js:304-339 | refused without a profile, with a blank name, or for a listed account; otherwise the sorted list with the account added |
| FrontendScript.Page.DeleteAccount | frontend/public/script.js:175 | the current list without row i |
| FrontendScript.Page.LoadDefaultAccounts | frontend/public/script.js:253-282 | "Profil 1" gets the default accounts and is selected |
| FrontendScript.AddedListSpec | frontend/public/script.js:327-336 | an accepted account grows the list by exactly that account, and the list comes out region-ordered |
| FrontendScript.DeleteSpec | frontend/public/script.js:175 | deleting row i removes exactly that account and keeps the others in order |
| FrontendScript.WithTotalGames | frontend/public/script.js:773-775 | an older reply's `totalMatches` becomes `totalGames` when that is missing; nothing else changes |
| FrontendScript.Render | frontend/public/script.js:654-667 | no data without a non-empty account list; the hours default to 0 and the games fall back to `totalMatches`, then 0 |
| FrontendScript.CopyIsRedundant | frontend/public/script.js:661-667 | the copy of `totalMatches` never changes what is shown |
| FrontendScript.RowFigures | frontend/public/script.js:692-694 | a row's games and hours fall back to the older fields, then 0 |
| PublicScript.Merge | public/script.js:242-262 | the existing accounts stay first, in order, and at most one account is added per default |
| PublicScript.MergeCovers | public/script.js:249-257 | every default is covered by the merged list, ignoring case of name and region |
| PublicScript.MergeIdempotent | public/script.js:242-262 | merging the defaults twice equals merging them once |
| PublicScript.MergeAddsDefaults | public/script.js:255-256 | every added account is a default, with its region lower-cased, that the existing list did not cover |
| PublicScript.Page.MergeDefaults | public/script.js:247-258 | the `forEach` push loop computes `Merge` |
| PublicScript.Page.Save | public/script.js:134-137 | the profiles and the selection are stored |
| PublicScript.Page.LoadProfiles | public/script.js:109-132 | the profiles stored in the page are taken as they are; missing or unparsable ones become the shared defaults and are stored; the saved profile is selected if it exists, else the first profile, else "Profil 1" |
| PublicScript.Page.SwitchProfile | public/script.js:151-155 | selects the profile and saves |
| PublicScript.Page.CreateProfile | public/script.js:157-169 | created exactly for a non-blank name that is neither a profile nor a key inherited from `Object.prototype`, which is then selected |
| PublicScript.Page.AddAccount | public/script.js:220-240 | a blank name does nothing and a listed account only clears the input; otherwise the account is appended at the end, and also to the defaults while "Profil 1" shares them |
| PublicScript.Page.LoadDefaultAccounts | public/script.js:242-262 | with defaults, the current list becomes the merge and stops sharing the defaults |
| PublicScript.Page.DeleteAccount | public/script.js:209-210 | removes exactly row i; the new array ends any sharing |
| Coach.ObjectiveOf | frontend/public/coach.js:12-32 | a key that is found gives the configured objective with that key: dragon, herald or baron |
| Coach.ObjectiveTimers | frontend/public/coach.js:94-114 | every scheduled timer has a positive delay, and there are at most two |
| Coach.ObjectiveTimersOrdered | frontend/public/coach.js:83-114 | with a lead shorter than the respawn, the warning comes first, exactly the lead before the spawn reminder at respawn·1000 ms |
| Coach.ObjectiveTimersLateWarning | frontend/public/coach.js:95-96 | a lead of at least the respawn time schedules only the spawn reminder |
| Coach.ConfiguredObjectives | frontend/public/coach.js:12-32 | every objective warns 60 s ahead; dragon respawns after 300 s, herald and baron after 360 s |
| Coach.CsTargetEightPerMinute | frontend/public/coach.js:196-200 | the CS target is always 8 per minute; the fixed targets for 10 and 15 minutes agree |
| Coach.TierOf | frontend/public/coach.js:142-148 | praise exactly at or above the target; scold exactly below both the target and three quarters of it |
| Coach.TierMonotone | frontend/public/coach.js:142-148 | more CS never earns a worse verdict |
| Coach.CsMessage | frontend/public/coach.js:133-151 | a null or NaN value only asks for a valid number; otherwise the verdict carries the number and the minute |
| Coach.EmptyCsScolded | frontend/public/coach.js:134-139 | an empty input counts as 0 CS and is scolded against a positive target |
| Coach.JungleCoach.Speak | frontend/public/coach.js:44-60 | the message is shown, and spoken when a voice exists |
| Coach.JungleCoach.ClearAllTimers | frontend/public/coach.js:65-71 | no timer is left |
| Coach.JungleCoach.StartGame | frontend/public/coach.js:73-77 | timers cleared, then the game start set |
| Coach.JungleCoach.HandleObjectiveTaken | frontend/public/coach.js:79-115 | an unknown key does nothing; otherwise the objective is announced and its timers appended |
| Coach.JungleCoach.ScheduleCsCheck | frontend/public/coach.js:117-131 | exactly one timer, due after minutes·60000 ms |
| Coach.JungleCoach.EvaluateCs | frontend/public/coach.js:133-151 | an unusable value is only shown; a verdict is spoken |
| Coach.JungleCoach.ResetAll | frontend/public/coach.js:153-157 | timers cleared and the game start unset |
| LegacyProxy.Validate | backend/server_old.js:83-91 | "name required" exactly for a missing or empty name; then "invalid region" exactly when the lower-cased region is not `[a-z0-9]+`; otherwise the name and region |
| LegacyProxy.RegionDefaultAndCase | backend/server_old.js:84 | a missing region is "euw1" and the region is case-blind |
| LegacyProxy.NormalizedId | backend/server_old.js:108 | the id contains no white space and is no longer than the name |
| LegacyProxy.NormalizedIdIdempotent | backend/server_old.js:108 | a name without white space is its own id, so normalising twice changes nothing |
| LegacyProxy.ChampionMap | backend/server_old.js:71-75 | a numeric key is mapped exactly when some champion carries it |
| LegacyProxy.ChampionMapLastWins | backend/server_old.js:74 | a key maps to the id of the last champion carrying it |
| LegacyProxy.BuildChampionMap | backend/server_old.js:71-75 | the `forEach` fills the map defined by `ChampionMap` |
| LegacyProxy.ChampionName | backend/server_old.js:103 | the mapped name when non-empty, else the id as text |
| LegacyProxy.Champions | backend/server_old.js:102-105 | one entry per mastery in order, each keeping its points |
| LegacyProxy.ChampionsKeepPoints | backend/server_old.js:102-105 | points are kept, and without a map every name reads back as the champion id |
| LegacyProxy.Proxy.LoadChampionMap | backend/server_old.js:60-78 | the cached map is returned when there is one; otherwise it is built once and kept |
| LegacyProxy.Proxy.Account | backend/server_old.js:81-119 | 400 before any upstream call; 500 with the upstream status and text; otherwise the account file with the normalised id and the mapped champions |
| LegacyProxy.CachedAcrossRequests | backend/server_old.js:60-62 | after one successful request, later ones use the same map whatever Data Dragon serves |

## Left out

- **Not modelled.**
  - Express wiring, CORS, static files, `listen`, dotenv and the mock mode of both servers. The route bodies are modelled over already-parsed request bodies.
  - Real HTTP and Data Dragon downloads.
  - `Date.now`, `sleep` and `setTimeout`. Durations and waits are recorded, not waited for.
- **Concurrency.**
  - The interleaving of concurrent requests is reduced to a FIFO of jobs.
  - The `Promise.all` of the old playtime route is taken as running its two lookups one after the other.
  - Concurrent first requests to the old proxy, which could both download the champion map, are not modelled.
- **Outer 500 handlers.** The outer `catch` blocks that answer 500 for an unexpected exception in a route are not modelled.
- **`Number` conversion.**
  - `Number` and `parseFloat` are modelled for optionally signed decimal integers only. Fractions and exponents convert to NaN in the model.
  - `Number` of an array goes through the array's text, as JavaScript does, but only for the item kinds the model's `Number` reads.
  - The parsed `Retry-After` value is taken as whole milliseconds.
- **Lower-casing.** `toLowerCase` is modelled for ASCII letters only.
- **`localeCompare`.** The `de-CH` collation is the abstract total preorder `nameLe`.
- **Champion keys.** `parseInt` of a champion key is taken as already an integer.
- **Outside the core.**
  - `backend/summary.js`, `data/status.js`, `backend/test.js` and the Android `MainActivity` are not part of this model.
  - `/api/app-meta` and `/health` are not part of this model.
- **Datastore values.**
  - Cli.SaveAction: a fractional mastery text such as "12.7" is NaN under the integer-only `Number`, so it is stored as 0. JavaScript gives 12.7, which the store floors to 12. `NormalizeRecord` itself floors any fractional number.
  - Object key order of `totalsByChampion` is insertion order in the model. JavaScript puts integer-like champion names first.
  - Datastore.TotalsByChampion: `agg` is a plain object, and the model treats every champion name as an ordinary key. In JavaScript a champion named after an `Object.prototype` member ("constructor", "toString", …) starts from that inherited function, so its total becomes a string. A champion named "__proto__" is dropped from the result.
  - Datastore.TotalsByChampionSpec: states the sums for ordinary champion names only, for the reason given in the line above.
  - Datastore.Store.Totals: computes the same ordinary-key totals as `TotalsByChampion`.
- **Exporter values.**
  - Exporter.JsonText: a fractional number, an array or an object is written as the empty cell. `String(v)` of those is not modelled. This also applies to a champion total made from fractional masteries in the totals export.
  - Only the written text and file name of an export are modelled, not the file write.
- **Multitor.**
  - `path.join` is joined without normalising `..` or duplicate separators.
  - `printRow` padding, `toLocaleString` and console output are not modelled.
  - Multitor.ResolveTargets: a failing `readdir` of the target directory is an unhandled rejection in multitor.js. The model's directory listing is a total function and cannot fail.
- **`app.js`.** The `readdir` entries are taken as plain file names.
- **Browser scripts.**
  - The DOM, alerts, the `de-CH` number formatting and the champion images are not modelled.
  - A stored profiles value that is not an object of account lists is not modelled.
  - JavaScript's ordering of integer-like profile names before the others in `Object.keys` is not modelled.
- **`localStorage` failures.** `localStorage` is two fields of the page state; quota and access errors are not modelled.
- **Coach.**
  - Speech synthesis parameters (voice, rate, pitch), timers firing, and a missing status element are not modelled.
  - Objective keys inherited from `Object.prototype` count as unknown.
  - Messages are kept as a datatype, not as the German sentences.
- **Old proxy.**
  - `encodeURIComponent`, URL building and query values given as arrays are not modelled.
  - Upstream bodies that fail to parse, and failures of the Data Dragon downloads, are not modelled. Both would end in the 500 handler.
  - The time stamp `lastUpdated` is the `now` parameter.
- **Weakened contracts.**
  - Routes.Contributions: no lemma states how contributions split over concatenated account lists; the route is specified through this reference function.
  - Routes.ErrorRow: an error row of the playtime routes has no `level`, `hoursFromMatches` or `hoursFromLevel` in the response. The model's row carries 0 for all three.
  - RiotHttp.Attempt: a reply body that fails to read (`res.text()`) or to parse (`res.json()`) is not modelled. A reply's body is given as text, and a 2xx call returns that text unparsed.
  - FrontendScript.Selection: a saved selection that names a key inherited from `Object.prototype` passes the `profiles[saved]` test in the source. The model does not select it.
  - PublicScript.Page.LoadProfiles: a saved selection that names a key inherited from `Object.prototype` passes the `profiles[saved]` test in the source. The model does not select it.
  - MatchHistory.Paginate: its own ensures only fixes the first offset. The count and the offsets are stated by the lemmas beside it.
