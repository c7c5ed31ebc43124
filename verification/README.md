# ark-curser, modelled in Dafny

ark-curser is a bot that drives a mobile game over ADB. It keeps the game's
trading posts busy:
- before a post's order completes, it **curses** the post, swapping in three
  workers (Proviso, Quartz, Tequila) whose skills pay off at delivery;
- shortly after delivery, it **uncurses** the post, putting the post's
  productivity workers back.

The bot runs on a few parts:
- **Scheduler.** A class-wide min-heap of `(time, post, is_curse)` tasks, and
  a protocol loop that sleeps until the head task is due, then pops it and
  dispatches it. It decides to use drones when the next task follows a curse
  too closely.
- **Click helpers.** Every tap and template click goes through a bounded
  retry engine.
- **Adaptive wait optimiser.** The retry engine asks it how long to wait
  before each attempt, and reports each result back. The optimiser learns a
  per-operation estimate from those results.
- **Small parsers.** OCR timers and names, template de-duplication, dotted
  configuration lookup, and time formatting.

The model covers all of these. Anything the program observes through the
device becomes an input:
- screenshots, template matches and taps;
- OCR text and similarity scores;
- the clock and random jitter.

Outcomes that repeat (one per attempt or per round) are sequences of
observations. Sleeps are recorded as durations, not performed.

Modules, one file each:
- `search.dfy` (`BoundedSearch`): `FirstHit`, the first success among the
  first `n` observations. Every bounded retry and navigation loop is proved
  against it.
- `numerals.dfy` (`Numerals`): decimal digits, `int()` truncation, and `{:02}`
  padding.
- `time_helper.dfy` (`TimeHelper`): the remaining-time text of
  `get_ist_time_and_remaining`, with a parse-back round trip.
- `ocr.dfy` (`Ocr`): the HHMMSS timer parser, the text cleaners,
  `_preprocess_text`, and the best-match loop of `find_text_coordinates`.
- `vision.dfy` (`Vision`): the greedy de-duplication of template matches, and
  the stable sort by confidence.
- `config_loader.dfy` (`ConfigLoader`): the dotted-path lookup over a YAML
  tree, and the load-once cache.
- `adaptive_waits.dfy` (`AdaptiveWaits`): the `WaitOptimizer` class (estimates,
  bounded histories, convergence tracking) and its learning rule.
- `click_helper.dfy` (`ClickHelper`): `_execute_action`, `click_template` and
  `click_region` over the optimiser.
- `navigation.dfy` (`Navigation`): `retry_operation`, `ensure_at_location`,
  and the back-press searches `reach_home_screen`, `reach_base` and
  `reach_base_left_side`.
- `trading_posts.dfy` (`TradingPosts`): the `Scheduler` class (the heap and
  one protocol pass) and the `Station` class (a `TradingPost` with
  `is_cursed`, `productivity_workers` and `execution_time`).

Facts about the code that the model keeps as they are:
- The drone rule reads only the task at the head once the curse has been
  popped, whatever its kind (tasks/handle_trading_posts.py:320-325).
- A head that is not yet within the buffer gets one sleep of
  `time − now − buffer`, and the pass ends there
  (tasks/handle_trading_posts.py:334-340).
- The buffer and threshold are taken from configuration as they are, with
  defaults 45 and 240 (tasks/handle_trading_posts.py:22-23).
- `_preprocess_text` strips before deleting punctuation, so it is not
  idempotent (`Ocr.PreprocessKeepsInnerEdgeSpace`).

`wait_optimizer.wait` is called throughout the trading-post code and by
`adaptive_wait` (utils/click_helper.py:12-13), but `WaitOptimizer` defines
only `static_wait` (utils/adaptive_waits.py:177). As written, every such call
raises AttributeError. So `_update_execution_time` raises before its first
timer read, and with it `TradingPost.__init__` raises on every input, as does
every `click_template` or `click_region` that succeeds with its post-click
wait. The model follows the evident intent: each such call is a sleep of the
optimiser's current wait, which is not modelled.

A curse whose change is confirmed but whose timer re-read fails queues
nothing (`TradingPosts.FailedReReadDropsPost`). Once its task has been
popped, that post drops out of the schedule while still cursed.

## Model

| member | source | states |
|---|---|---|
| BoundedSearch.FirstHit | tasks/navigation.py:208-213 | the first success among the first n observations: its index is below n, it succeeded and all earlier ones failed; None exactly when all n failed |
| BoundedSearch.FirstHitAt | tasks/navigation.py:208-213 | a success at k after k failures is the first hit |
| BoundedSearch.FirstHitStable | tasks/navigation.py:86-98 | allowing more attempts never changes a hit already found |
| Numerals.TruncateTowardZero | utils/time_helper.py:19 | `int()` of a real drops the fraction toward zero: within one unit of the argument and never further from zero |
| Numerals.DigitChar | utils/time_helper.py:24 | the character printed for a digit value denotes that value |
| Numerals.Digits | utils/time_helper.py:24 | the printed decimal digits are digits, one of them exactly for values below 10 |
| Numerals.DigitValue | utils/ocr.py:66-68 | a digit character's value is at most 9 |
| Numerals.DigitsRoundTrip | utils/time_helper.py:24 | reading the printed digits back gives the number |
| Numerals.LeadingZero | utils/ocr.py:66-68 | a leading zero does not change the value `int()` reads |
| Numerals.Pad2Spec | utils/time_helper.py:24-26 | `{n:02}` is at least two digits, exactly two below 100, and reads back as n |
| TimeHelper.RemainingSeconds | utils/time_helper.py:19 | `abs(int(diff))` is the whole number of seconds r with r ≤ abs(diff) < r + 1 |
| TimeHelper.Split | utils/time_helper.py:20-21 | the two `divmod`s give hours, minutes, seconds with h·3600 + m·60 + s = total and m, s < 60 |
| TimeHelper.SplitUnique | utils/time_helper.py:20-21 | any decomposition with minutes and seconds below 60 is the one `divmod` gives |
| TimeHelper.FieldsRoundTrip | utils/time_helper.py:24 | "HHh MMm SSs" reads back as the total number of seconds |
| TimeHelper.FormatRemaining | utils/time_helper.py:19-26 | the remaining-time text reads back as whether the target is overdue and the whole seconds left |
| TimeHelper.OverdueUnderOneSecond | utils/time_helper.py:19-25 | less than a second late prints "OVERDUE by 00h 00m 00s" |
| Ocr.Keep | utils/ocr.py:58 | the filtered text has only accepted characters and is no longer than the input |
| Ocr.KeepCounts | utils/ocr.py:58 | every accepted character survives as often as it occurs; the others disappear |
| Ocr.KeepPreserves | utils/ocr.py:102 | a property of every input character holds of every kept character |
| Ocr.KeepConcat | utils/ocr.py:94 | filtering keeps the input order (it distributes over concatenation) |
| Ocr.KeepAll | utils/ocr.py:58 | a string of accepted characters is left unchanged |
| Ocr.Join | utils/ocr.py:55 | joining a single text yields that text |
| Ocr.JoinConcat | utils/ocr.py:55 | joining two runs of texts is joining each and concatenating: `"".join` drops, adds and reorders nothing |
| Ocr.HhMmSs | utils/ocr.py:66-69 | six digits read as HHMMSS are at most 362439 seconds |
| Ocr.TwoDigits | utils/ocr.py:66-68 | a two-digit field is ten times its first digit plus its second, at most 99 |
| Ocr.ParseTimer | utils/ocr.py:43-72 | a timer exactly when the screenshot loaded, OCR read something and exactly six digits remain after dropping non-digits; the value is at most 362439 |
| Ocr.TimerRoundTrip | utils/ocr.py:55-69 | reading a displayed "HH:MM:SS" timer yields h·3600 + m·60 + s |
| Ocr.TimerExample | utils/ocr.py:38 | "012345" reads as 5025 seconds |
| Ocr.TimerFieldsUnchecked | utils/ocr.py:66-69 | minutes and seconds are not range-checked: "009999" reads as 99·60 + 99 |
| Ocr.CleanText | utils/ocr.py:82-97 | None exactly when nothing was loaded or read; otherwise exactly the ASCII letters and digits of the joined text, each as often as there (possibly none) |
| Ocr.CleanTextInOrder | utils/ocr.py:92-97 | the cleaned text keeps the order of the joined text: cleaning it cut at any point is cleaning the two pieces, one after the other |
| Ocr.Lower | utils/ocr.py:102 | lower-casing maps each character and keeps the length |
| Ocr.LeadingSpaces | utils/ocr.py:102 | the leading whitespace run ends at the first non-space |
| Ocr.TrailingStart | utils/ocr.py:102 | the trailing whitespace run starts after the last non-space |
| Ocr.Strip | utils/ocr.py:102 | the result is the slice of the input between its leading and trailing whitespace runs, both removed in full: it neither starts nor ends with whitespace, and is empty only for all-space input |
| Ocr.Preprocess | utils/ocr.py:100-102 | the normalised text holds each word or space character of the stripped, lower-cased input as often as it occurs there and nothing else, so it has no upper-case letter |
| Ocr.PreprocessKeepsInnerEdgeSpace | utils/ocr.py:102 | "a !" normalises to "a ", and normalising again gives "a": not idempotent |
| Ocr.MaxSimilarity | utils/ocr.py:136-157 | the highest similarity among eligible detections bounds all of them and is attained, or is 0 when none is eligible |
| Ocr.CentersAboveMax | utils/ocr.py:153-157 | no centre is recorded at a similarity above every eligible one |
| Ocr.CentersOfWitness | utils/ocr.py:153-157 | an eligible detection's similarity has at least one recorded centre |
| Ocr.CentersHaveWitness | utils/ocr.py:153-157 | recorded centres imply an eligible detection |
| Ocr.FindTextCoordinates | utils/ocr.py:122-164 | None exactly when no detection passes both thresholds; otherwise `CentersAt` the highest similarity: the centres of the detections of highest similarity, in input order |
| Vision.Kept | utils/vision.py:56-63 | the greedy pass keeps no more matches than it is given |
| Vision.KeptFirst | utils/vision.py:56-63 | the first match is always kept, and first |
| Vision.KeptSpread | utils/vision.py:57-63 | no kept match is `Near` (within `min_distance` of) one kept before it |
| Vision.KeptCovers | utils/vision.py:58-61 | every dropped match is within `min_distance` of a kept one |
| Vision.KeptFromInput | utils/vision.py:56-63 | the kept matches are a sub-multiset of the input |
| Vision.InsertSorted | utils/vision.py:66 | inserting into a descending list keeps it descending |
| Vision.InsertPermutes | utils/vision.py:66 | insertion adds `x` and keeps every match of the list: the result's multiset is that of `[x] + t` |
| Vision.InsertStable | utils/vision.py:66 | insertion keeps the input order among equal confidences |
| Vision.SortByConfidence | utils/vision.py:66 | the sort is a permutation, descending by confidence |
| Vision.SortStable | utils/vision.py:66 | the sort is stable: equal confidences keep input order |
| Vision.RemoveDuplicateMatches | utils/vision.py:42-67 | the loop yields the greedy kept matches sorted by confidence; empty input gives empty output |
| Vision.TemplatePath | utils/vision.py:31-39 | the user path if it exists, else the core path if it exists, else None (each case if and only if) |
| ConfigLoader.Split | utils/config_loader.py:37 | `split(".")` yields at least one piece, none containing a dot, and the key itself when it has no dot |
| ConfigLoader.SplitJoin | utils/config_loader.py:37 | joining the pieces with dots gives the key back |
| ConfigLoader.LookupAppend | utils/config_loader.py:40-41 | walking a path in two legs is walking it in one |
| ConfigLoader.LookupNest | utils/config_loader.py:42 | a present value is returned whatever it is, None and falsy values included |
| ConfigLoader.WalkPath | utils/config_loader.py:38-45 | the loop returns `Lookup`, the value at the end of the path, or the default when a segment is missing or a non-mapping is indexed |
| ConfigLoader.ConfigValueIsLookup | utils/config_loader.py:36-48 | on a mapping, `ConfigValue` for plain and dotted keys alike is to look up the key's pieces, falling back to the default |
| ConfigLoader.EmptyConfigGivesDefaults | utils/config_loader.py:21-48 | after a failed load every lookup returns its default |
| ConfigLoader.ValueFrom | utils/config_loader.py:28-48 | the value `get_config_value` yields for a loaded document |
| ConfigLoader.ConfigCache.constructor | utils/config_loader.py:9 | nothing cached, nothing read |
| ConfigLoader.ConfigCache.LoadConfigAsWritten | utils/config_loader.py:11-26 | the file is read only while nothing is cached; an empty file parses to None, which is not cached |
| ConfigLoader.ConfigCache.LoadConfig | utils/config_loader.py:11-26 | the file is read at most once; afterwards the cached document (`{}` after a failure) is returned unchanged |
| ConfigLoader.ConfigCache.GetConfigValue | utils/config_loader.py:28-48 | over the corrected loader: the lookup on the cached document, reading the file only when nothing is cached, and then caching the parsed document, or `{}` after a failed read or an empty file |
| ConfigLoader.ConfigCache.GetConfigValueAsWritten | utils/config_loader.py:11-48 | over the loader as written: the lookup on what was loaded; an empty file stays uncached and a plain key then raises AttributeError |
| ConfigLoader.EmptyFileIsReread | utils/config_loader.py:15-20 | as written, two lookups with an empty settings file read it twice |
| ConfigLoader.EmptyFileIsReadOnce | utils/config_loader.py:15-26 | corrected, the file is read once and the second load returns `{}` |
| AdaptiveWaits.Clamp | utils/adaptive_waits.py:164 | the stored estimate lies in [0.1, 10.0], equal to the value inside that range |
| AdaptiveWaits.AppendBounded | utils/adaptive_waits.py:135-136 | appending to `deque(maxlen=100)` grows it by one until it is full, puts the entry last and drops only the oldest |
| AdaptiveWaits.AppendAll | utils/adaptive_waits.py:135-136 | a history never exceeds 100 entries |
| AdaptiveWaits.AppendAllLength | utils/adaptive_waits.py:135-136 | the history grows by one per entry until it holds 100 |
| AdaptiveWaits.AppendBoundedSuffix | utils/adaptive_waits.py:136 | one append keeps the newest entries in place and adds the new one after them |
| AdaptiveWaits.AppendAllSuffix | utils/adaptive_waits.py:135-136 | the latest entries sit at the end of the history, in order |
| AdaptiveWaits.KeepsLatest | utils/adaptive_waits.py:135-136 | after 100 appends the history holds exactly them |
| AdaptiveWaits.NextConvergence | utils/adaptive_waits.py:167-175 | a new key ends at count 1 on its own value; a reset sets the baseline to the value; a positive count means within 10% of the baseline; the baseline stays ≥ 0.1 |
| AdaptiveWaits.StableCountMeaning | utils/adaptive_waits.py:167-175 | the baseline is one of the stored estimates, and the last `stable_count` estimates all lie within 10% of it |
| AdaptiveWaits.Learn | utils/adaptive_waits.py:140-161 | retry exactly after a failure below `max_retries`; learn exactly on success and return the learned value; a final failure returns the current estimate; a retry wait is at most 15 |
| AdaptiveWaits.LearnDownShrinks | utils/adaptive_waits.py:141-145 | a first-try success lowers the estimate |
| AdaptiveWaits.LearnUpBetween | utils/adaptive_waits.py:146-152 | a success after retries lands between the estimate and 105% of the wait used, above the estimate exactly when that target is |
| AdaptiveWaits.RetryExpands | utils/adaptive_waits.py:155-158 | a retried failure suggests 1.35 times the wait used, capped at 15 |
| AdaptiveWaits.DecayedBelow | utils/adaptive_waits.py:143 | repeated 0.97 factors never raise the estimate or make it negative |
| AdaptiveWaits.ShrunkGeometric | utils/adaptive_waits.py:141-145 | after n first-try successes the estimate is max(0.1, e·0.97ⁿ) |
| AdaptiveWaits.LearnedFirstTryIsShrunk | utils/adaptive_waits.py:141-145 | one more first-try success, as `record_wait_result` stores it, takes the estimate from `Shrunk(e, n)` to `Shrunk(e, n + 1)` |
| AdaptiveWaits.JitteredWait | utils/adaptive_waits.py:123-129 | the wait handed out is at least `min_wait`; disabled, it is `max(min_wait, estimate)` |
| AdaptiveWaits.JitterWithinOnePercent | utils/adaptive_waits.py:127-129 | enabled, the jitter moves the estimate by at most 1% |
| AdaptiveWaits.WaitOptimizer.constructor | utils/adaptive_waits.py:26-46 | configured flags kept; the defaults alone, or saved estimates overlaid key by key with saved histories and convergence data |
| AdaptiveWaits.WaitOptimizer.HistoryOf | utils/adaptive_waits.py:135 | a key's history holds at most 100 entries |
| AdaptiveWaits.WaitOptimizer.ConvergenceOf | utils/adaptive_waits.py:170-171 | a stored baseline is at least 0.1, so the stability test can divide by it |
| AdaptiveWaits.WaitOptimizer.GetWaitTime | utils/adaptive_waits.py:123-129 | the wait handed out is at least `min_wait`; disabled, it is `max(min_wait, estimate)`; enabled, it is `min_wait` or within 1% of the estimate |
| AdaptiveWaits.WaitOptimizer.LoadSavedWaits | utils/adaptive_waits.py:97-112 | saved estimates override the defaults key by key (new keys added); histories and convergence data are replaced |
| AdaptiveWaits.WaitOptimizer.UpdatePermanentWait | utils/adaptive_waits.py:163-175 | stores the clamped value and advances only that key's convergence entry |
| AdaptiveWaits.WaitOptimizer.RecordWaitResult | utils/adaptive_waits.py:131-161 | disabled: `(False, used)` and no change; enabled: exactly one history entry appended, the learning rule's answer, and a clamped estimate stored only on success |
| ClickHelper.AttemptBudget | utils/click_helper.py:22-40 | the action is called at most `max_retries + 1` times, at least once for a non-negative count, and at most once with adaptive waits off |
| ClickHelper.BudgetReached | utils/click_helper.py:38-40 | the engine stops after attempt k exactly when k + 1 attempts exhaust the budget |
| ClickHelper.FetchWait | utils/click_helper.py:26 | each attempt's wait is at least the minimum, and within 1% of the estimate when adaptive |
| ClickHelper.Report | utils/click_helper.py:31-33 | reporting one attempt appends its entry to the history; retry iff it failed below `max_retries`, with 1.35 times the wait capped at 15; a failure leaves the estimate alone, and an enabled success stores the clamped learned value and steps that key's convergence entry (`NextConvergence`) |
| ClickHelper.Attempt | utils/click_helper.py:26-44 | one attempt: its wait is in band; success stops; a failure stops exactly when the budget is used, and otherwise sleeps `ExtraSleep` more; the history gains the attempt's entry; a failure leaves the estimate alone, and an enabled success stores the clamped learned value and steps that key's convergence entry |
| ClickHelper.RunAttempts | utils/click_helper.py:25-46 | the loop stops at the first success or when the budget is used; every earlier outcome failed; one history entry per attempt; an enabled success stores the last attempt's clamped learned value and steps that key's convergence entry |
| ClickHelper.ExecuteAction | utils/click_helper.py:15-46 | success iff an attempt within the budget succeeds; then `(True, k)` for the first success k, else `(False, max_retries)`; every wait in band; one extra sleep per retried failure; history grows by exactly the attempts made; only a success changes the estimate, storing the clamped learned value and stepping that key's convergence entry |
| ClickHelper.ClickFound | utils/click_helper.py:58-65 | an empty list gives `(False, 0)` with no tap; otherwise it taps the first match; success iff the tap succeeds, and only then, with the optimiser enabled, is a 0.05 s "template_click" success recorded, the estimate lowered and its convergence entry stepped; a failure or a disabled optimiser leaves estimate, history and convergence unchanged |
| ClickHelper.ClickNamed | utils/click_helper.py:68-84 | success iff within the budget an attempt both found the template on its screenshot and tapped it (`AttemptClick`); then the index of the first such attempt, else `max_retries`; each wait in band; the optimiser's "template_click" history gains one entry per attempt; only a success changes its estimate, storing the clamped learned value and stepping its convergence entry |
| ClickHelper.ClickTemplate | utils/click_helper.py:48-84 | matches found earlier: the `ClickFound` result and optimiser update, nothing changed on a failure or with the optimiser disabled; a template name: the `ClickNamed` result, waits and optimiser update, including the convergence step on a success |
| ClickHelper.Mid | utils/click_helper.py:97 | `(a + b) // 2` is the midpoint rounded down, between a and b |
| ClickHelper.ClickRegion | utils/click_helper.py:86-110 | a region without four numbers gives `(False, 0)` and changes nothing; otherwise it taps the floor midpoint, succeeding iff a tap within the budget succeeds, and the "region_click" history, estimate and convergence entry change as the retry engine's do |
| Navigation.ForwardClick | tasks/navigation.py:14-28 | as written every call raises (the keyword `max_attempts` is not accepted); corrected it hands 0 retries with a cached screenshot, else 2 |
| Navigation.RetryOperation | tasks/navigation.py:201-219 | True iff a call among the first `max_attempts` succeeds; calls stop at the first success; on failure `max_attempts` calls and one fewer sleeps of `delay`; none for a non-positive count |
| Navigation.EnsureAtLocation | tasks/navigation.py:222-233 | navigates iff not already there; True iff there already or the navigation succeeded |
| Navigation.ReachHomeScreen | tasks/navigation.py:68-78 | corrected: True iff home is seen within the attempts, with one back press per round before; as written: raises at the first back press |
| Navigation.ReachBase | tasks/navigation.py:81-98 | corrected: True iff base or home is seen within the attempts, clicking the base icon exactly when home came first; as written: True only when the first view is the base, otherwise it raises |
| Navigation.ReachBaseLeftSide | tasks/navigation.py:101-120 | two right swipes exactly on success; corrected: True iff the base is reached, and reached again when zoomed out; as written: raises unless the base is already shown and not zoomed out |
| TradingPosts.LessIsTotal | tasks/handle_trading_posts.py:142 | the (time, push number) order is a strict total order that refines the order by time |
| TradingPosts.TupleLess | tasks/handle_trading_posts.py:142 | Python's comparison of `(time, post, is_curse)` tuples raises exactly for equal times of different posts, and agrees with the time order otherwise |
| TradingPosts.RootLe | tasks/handle_trading_posts.py:315 | the root of a heap precedes every entry |
| TradingPosts.HeadIsMin | tasks/handle_trading_posts.py:315 | the head is a least task of the queue |
| TradingPosts.SiftTowardRoot | tasks/handle_trading_posts.py:142 | sifting the pushed task up restores the heap and keeps the tasks |
| TradingPosts.ToLeafStep | tasks/handle_trading_posts.py:318 | one step of sifting down keeps the invariant everywhere but at the new position |
| TradingPosts.SiftToLeaf | tasks/handle_trading_posts.py:318 | sifting down after a pop restores the heap and keeps the tasks |
| TradingPosts.SiftAsWritten | tasks/handle_trading_posts.py:142 | the push as written keeps the tasks whenever no comparison raises |
| TradingPosts.TieMakesPushRaise | tasks/handle_trading_posts.py:142 | pushing raises when the entry the new task is first compared with (the parent of the new slot; the only task of a one-task queue) is due at the same time for another post; ties further up or elsewhere are not claimed |
| TradingPosts.Scheduler.constructor | tasks/handle_trading_posts.py:20-23 | empty queue; buffer 2 when testing, else the configured value or 45; threshold the configured value or 240 |
| TradingPosts.Scheduler.Push | tasks/handle_trading_posts.py:139-149 | the heap stays a heap and gains exactly the new task |
| TradingPosts.Scheduler.Pop | tasks/handle_trading_posts.py:318 | returns the old head, which precedes every queued task, and removes exactly it |
| TradingPosts.Scheduler.TakeDue | tasks/handle_trading_posts.py:318-325 | pops the head; the next time is the new head's time, a lower bound of the rest; drones iff a curse is followed within (0, threshold] |
| TradingPosts.Scheduler.Visit | tasks/handle_trading_posts.py:327-333 | an uncurse first waits max(0, time − now); the post's new state and the queued follow-up are those of the visit |
| TradingPosts.Scheduler.Dispatch | tasks/handle_trading_posts.py:318-333 | the due head is popped; it is lost iff reaching the base raises; otherwise the next time is a remaining task's time and the least of them, drones by `UseDrones`, the post's state is the visit's, and the queue gains the visit's follow-up; every other post keeps its state |
| TradingPosts.Scheduler.ProtocolPass | tasks/handle_trading_posts.py:305-343 | empty queue: sleep 60; head not within the buffer: queue unchanged and one positive sleep of `time − now − buffer`; otherwise the head is popped and dispatched (next time the least remaining time, drones by `UseDrones`), or lost when reaching the base raises; every post but the dispatched one keeps its state |
| TradingPosts.Clamp | tasks/handle_trading_posts.py:331 | `max(0, d)` is non-negative and at least d |
| TradingPosts.ReadingMeaning | tasks/handle_trading_posts.py:123-137 | `Reading`, the new execution time, exists iff the post was entered and one of the three reads parsed; it is the clock plus the first such timer |
| TradingPosts.SameCategoryNoClick | tasks/handle_trading_posts.py:201-205 | a worker of the class just selected needs no filter click |
| TradingPosts.CurseWorkersIcons | tasks/handle_trading_posts.py:25-45 | a curse clicks the supporter filter, then the guard filter, and none for Tequila |
| TradingPosts.FindAndSelectWorker | tasks/handle_trading_posts.py:176-190 | found iff a round among the 15 sees the worker; swipes before it, or 15 |
| TradingPosts.SelectWorkers | tasks/handle_trading_posts.py:192-216 | over a worker table (the stations pass `Workers`), per worker: the filter click the class-tracking rule (`CategoryBefore`, `IconClick`, built from `FilterAfter` and `ClickFor`) prescribes, "all" for an unknown worker, the right search, found iff seen within 15 rounds (`Finds`); always 0 retries |
| TradingPosts.Station.constructor | tasks/handle_trading_posts.py:58-70 | uncursed with no saved workers; execution time the reading or 0; the first curse queued exactly when a positive time was read |
| TradingPosts.Station.Initialize | tasks/handle_trading_posts.py:72-75 | schedules a curse exactly when the timer can be read |
| TradingPosts.Station.Reschedule | tasks/handle_trading_posts.py:72-75 | a timer re-read followed, on success, by exactly one curse or uncurse push |
| TradingPosts.Station.EnsureInsideTp | tasks/handle_trading_posts.py:78-91 | inside iff one of three rounds finds the interior or enters |
| TradingPosts.Station.UpdateExecutionTime | tasks/handle_trading_posts.py:123-137 | succeeds iff a reading exists, and then sets the execution time to it; otherwise it is unchanged |
| TradingPosts.Station.ScheduleCurse | tasks/handle_trading_posts.py:139-143 | pushes exactly `(time − prelay, post, curse)`, nothing when the time is not positive; with the default 40 s this is `FollowUp` |
| TradingPosts.Station.ScheduleUncurse | tasks/handle_trading_posts.py:145-149 | pushes exactly `(time + delay, post, uncurse)`, nothing when the time is not positive; with the default 10 s this is `FollowUp` |
| TradingPosts.Station.SaveProductivityWorkers | tasks/handle_trading_posts.py:152-168 | without a screenshot `(False, 0)` and the list untouched; otherwise the three-name roster and `(True, 0)` |
| TradingPosts.Station.Uncurse | tasks/handle_trading_posts.py:256-288 | returns the visit result; the post's new state and the queued curse are those of `AfterUncurse` and the re-read |
| TradingPosts.Station.Curse | tasks/handle_trading_posts.py:218-254 | returns the visit result, the uncurse's result with drones; the post's new state and the queued task are those of `AfterCurse` and the re-read |
| TradingPosts.Station.CurseConfirmed | tasks/handle_trading_posts.py:240-253 | after the confirm click: cursed, then either uncursed with drones or the uncurse scheduled from the re-read |
| TradingPosts.CurseStateFacts | tasks/handle_trading_posts.py:232-240 | the post becomes cursed only after a confirmed change; an unconfirmed visit keeps the flag and the time |
| TradingPosts.UncurseStateFacts | tasks/handle_trading_posts.py:270-281 | the saved workers are forgotten before confirming; the flag clears only after a confirmed change |
| TradingPosts.RequeuedFacts | tasks/handle_trading_posts.py:242-288 | a visit queues at most one task, for its own post, only after a confirmed change with a timer re-read; a curse after an uncurse or a drone curse, an uncurse otherwise |
| TradingPosts.FailedReReadDropsPost | tasks/handle_trading_posts.py:249-254 | a confirmed curse whose re-read fails returns `(False, 0)`, stays cursed and queues nothing |
| TradingPosts.NoDronesWithoutLaterHead | tasks/handle_trading_posts.py:320-325 | `UseDrones` never holds for an uncurse, for an empty queue, or when the next task is not strictly later |

## Left out

- Device I/O is not modelled: ADB taps and swipes, screenshots, template matching (`cv2`), the EasyOCR reader, and `SequenceMatcher`. Their results are inputs.
- `time.sleep`, `time.time` and `random.random` are not modelled: clocks and jitter are parameters, and sleeps are returned as durations.
- `wait_optimizer.wait`, `adaptive_wait` and `static_wait` are left out: sleeps. As written, the first two raise AttributeError (see the paragraph above the model table). The model treats them as the intended sleeps.
- The pickle save file is not modelled: `save_waits`, the file existence check, and the unpickling. The already-read saved state is an input.
- `print_report`, logging, `TradingPostAdapter`, and the IST `strftime` are left out: presentation only.
- The `_instances` list and the singleton `__new__` of `WaitOptimizer` are left out: the model passes the one optimiser and the one scheduler explicitly.
- `_enter_trading_post`, `_enter_workers_section`, `_sort_workers`, the deselect-all and confirmation-prompt clicks, `_use_drones` and `_collect_orders` are reduced to their outcomes: device clicks whose results the posts ignore or summarise as one boolean.
- The click helpers used inside station visits do not feed the wait optimiser in the model: station clicks are abstract booleans.
- `find_trading_posts`, `enter_base_overview`, `wait_for_template`, `find_and_click_text`, `handle_trading_posts` and `main.py` are not part of this model. `utils/adb.py` and `utils/stability.py` are not part of this model either.
- TradingPosts.Scheduler.ProtocolPass: models one pass of the `while True` loop. The catch-all handler is modelled only for the TypeError raised by navigation's `click_template`; other exceptions from device calls are not modelled. The handler's 60 s sleep after a raise is not recorded in the `Aborted` step.
- TradingPosts.Scheduler.Push: equal-time tasks are ordered by push number; Python would compare the posts and raise (see Findings).
- TradingPosts.Scheduler.Pop: `heappop` as written also compares tuples while it sifts the last entry down, so two remaining tasks due at the same time for different posts can make it raise TypeError. For example, push a@10 for post 0, then b@100 for post 1, then c@100 for post 2: the pop of a compares c with b. Task a has already left the queue by then, so it is never run, and the protocol loop logs the error. The model pops by push number instead and does not model this raise, so `TakeDue`, `Dispatch` and `ProtocolPass` never abort for it.
- TradingPosts.Station.Curse: the returned retry count of a failed confirm click is an input (`confirmRetries`), not derived from the click engine.
- AdaptiveWaits.JitteredWait: floating-point rounding is not modelled; times are reals.
- Ocr.Preprocess: `str.lower()`, `\w` and `\s` are modelled on ASCII only; Unicode case mapping and Unicode word characters are not modelled.

## Findings

| source | as written | input that shows it | evidently intended | confidence | as-written member | corrected member |
|---|---|---|---|---|---|---|
| tasks/handle_trading_posts.py:142 | heap entries are `(time, post, is_curse)`, so equal times make Python compare two `TradingPost` objects, which raises TypeError | a queued curse at time 100.0 for post 1, then a push at time 100.0 for post 2 | a total order on tasks, e.g. a sequence number breaking ties | not executed; needs identical float times | TradingPosts.TieMakesPushRaise | TradingPosts.Scheduler.Push |
| tasks/navigation.py:28 | `click_template` forwards `max_attempts=`, which the click helper's `click_template` does not accept, so every back press, base-icon click or zoomed-out click raises TypeError; in the protocol the popped task is lost in the handler | `reach_base()` when the first view is not the base | forward the attempts as `max_retries` (0 with a cached screenshot, else 2) | not executed; Python rejects unknown keywords | Navigation.ForwardClick | Navigation.ReachBase |
| utils/config_loader.py:15-20 | an empty settings file parses to None, so the cache stays unset and the file is re-read on every call, and `.get` on None raises | two lookups with an empty settings file | cache `{}` for an empty document | not executed; `yaml.safe_load` returns None for an empty stream | ConfigLoader.EmptyFileIsReread | ConfigLoader.EmptyFileIsReadOnce |
