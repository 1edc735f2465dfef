# fesistats: a verified model of the follower-count pipeline

fesistats shows follower counts for a YouTube channel, a Telegram channel and
an Instagram account. Every few minutes it polls the three platforms, stores
the current count and every snapshot in a history in Redis, and detects milestones (the
counts in a fixed table of 31 values from 1,000 to 10,000,000). When a detected
milestone is above the platform's stored cursor, it broadcasts an announcement
to the Telegram bot's subscribers and advances the cursor. Around this core
sit the following:

- the Telegram bot: its webhook commands, the subscriber file and set, the
  manual notify route and the admin subscriber listing;
- the YouTube stream archive: a Redis sorted set of stream records with a
  fetch marker;
- the client pages: the throttled milestone checker, the language context,
  the statistics charts, the admin dashboard and the subscribers page.

This project models that core in Dafny, one module per source file, and
proves what each part promises:

- the table and its formatting;
- the cursor discipline (no milestone is announced twice, and none below the
  cursor);
- the history bookkeeping (every snapshot kept and pruned by age; the time
  series gives the rounded mean of each hour's counts);
- the page scrapers' leftmost-match extraction;
- the set semantics of subscribing;
- the admin route's partition and batching;
- the stream archive's range query;
- the client-side throttle, lookup and filtering rules.

Modules and what they stand for:

- `Wrappers`, `Text`, `SortedSet` are shared building blocks.
  - `Option` is a value that may be missing.
  - `Text` holds the JavaScript string and number conversions the code
    relies on: `toString`, `parseInt`, `Number`, `trim`, `toLowerCase`,
    `includes`, `replace` with a string pattern, and `.length` in UTF-16 units.
  - `SortedSet` is a Redis sorted set as a score-ordered sequence of
    distinct members (ZADD, ZRANGE BYSCORE, ZREM, ZREMRANGEBYSCORE).
- Stores the code updates in place are classes whose fields are the Redis
  keys, the subscriber file, the browser's local storage or the form's
  state. Their methods state the whole new state as a function of the old.
  Those functions carry the lemmas.
- Clocks, network answers, Redis failures and send outcomes are parameters:
  `now`, a `readFails` flag, a settled outcome per call.

Redis keeps a sorted set's members distinct and compares them by their JSON
text. So `saveStreamRecord` on a record whose video id is already stored but
whose fields changed (a stream that went from upcoming to live) ADDS a second
member rather than replacing the first. Both versions then come back from
range queries (`StreamStorage.SaveKeepsOlderVersion`). `updateStreamEndTime`
rewrites only the first member whose id matches.

The code does not seed a new platform's cursor, sets no time-to-live on a
cursor, keeps no audit log of milestones and has no throttled variant of
`saveStats`. A platform with no cursor is announced at its next exact
threshold.

## Model

| member | source | states |
|---|---|---|
| Milestones.StepsUpAscending | lib/milestones.ts:16-24 | a table whose neighbours step up is strictly ascending throughout |
| Milestones.ThresholdTableShape | lib/milestones.ts:16-24 | the table has 31 values, from 1000 to 10,000,000, strictly ascending |
| Milestones.ThresholdsFromAThousand | lib/milestones.ts:14 | no count below 1000 is a table value |
| Milestones.FormatMilestone | lib/milestones.ts:40-50 | below 1000 the decimal string of the count; from 1000 on a text ending in "K", from a million on one ending in "M" |
| Milestones.DetectMilestone | lib/milestones.ts:13-35 | a milestone exactly when the count is a table value (so never below 1000), with value = count, the formatted text and an empty platform |
| Milestones.ShouldNotifyMilestone | lib/milestones.ts:70-84 | non-null exactly for a table value above the cursor (or with no cursor), and then the detected milestone |
| Milestones.FirstCheckNotifiesDetected | lib/milestones.ts:74-80 | with no cursor, the answer is the detection itself |
| Milestones.RecheckIsSilent | lib/milestones.ts:79-83 | re-checking the value the cursor holds notifies nothing |
| Milestones.FormatWholeThousands | lib/milestones.ts:45-47 | k·1000 with 1 ≤ k < 1000 prints as k followed by "K" |
| Milestones.FormatWholeMillions | lib/milestones.ts:41-43 | k·1,000,000 prints as k followed by "M" |
| Milestones.FormatHalfMillions | lib/milestones.ts:41-43 | k·1,000,000 + 500,000 prints as k followed by ".5M" (the one-decimal branch) |
| Milestones.TableMembers | lib/milestones.ts:16-24 | the table holds exactly the 31 listed values |
| Milestones.TableValueShape | lib/milestones.ts:16-24 | every table value is a whole number of thousands, and from a million on a whole or half number of millions |
| Milestones.FormatTableRoundTrip | lib/milestones.ts:40-48 | reading a table value's formatted text back gives the value |
| Milestones.FormatTableInjective | lib/milestones.ts:40-48 | distinct table values are announced with distinct texts |
| Milestones.NotifiedAscending | lib/milestones.ts:70-84 | over any run of checks with each announcement delivered, the announced values are table values above the starting cursor, strictly ascending, so none repeats |
| Milestones.ObservedThresholdIsNotified | lib/milestones.ts:74-80 | a non-decreasing run that passes exactly through a table value above the cursor announces it |
| Milestones.SkippedThresholdIsNeverNotified | lib/milestones.ts:26 | detection is by equality: counts 999 then 1001 announce nothing |
| MilestoneStorage.SetThenLookup | lib/milestoneStorage.ts:35-38 | after a set, every name equal up to case reads the new value, whatever was stored (a smaller value replaces a larger), and other names are unchanged |
| MilestoneStorage.StripPrefix | lib/milestoneStorage.ts:52 | removing the prefix from a key that carries it gives the rest of the key |
| MilestoneStorage.PrefixInjective | lib/milestoneStorage.ts:4 | distinct platform names give distinct cursor keys under the prefix |
| MilestoneStorage.CursorStore.GetLastNotifiedMilestone | lib/milestoneStorage.ts:22-30 | the stored cursor for the platform, or null when the read fails |
| MilestoneStorage.CursorStore.SetLastNotifiedMilestone | lib/milestoneStorage.ts:35-41 | the key for the lower-cased platform now holds the value; a failed write changes nothing |
| MilestoneStorage.CursorStore.GetAllLastMilestones | lib/milestoneStorage.ts:46-64 | every key under the prefix, prefix stripped, mapped to its value; the empty record on an error |
| StatsStorage.ParsedMembers | lib/statsStorage.ts:166-174 | the parsed history holds exactly the snapshots stored at their own timestamp; unparsable members are dropped |
| StatsStorage.ParsedChronological | lib/statsStorage.ts:164-176 | a range read by score returns the snapshots in timestamp order |
| StatsStorage.CountsIn | lib/statsStorage.ts:209-213 | an hour holds counts exactly when some snapshot of the window falls in it |
| StatsStorage.RoundedMean | lib/statsStorage.ts:220-222 | `Math.round(sum / n)`: the integer m with m − ½ ≤ mean < m + ½ |
| StatsStorage.InsertHour | lib/statsStorage.ts:233 | inserting an hour keeps the hour list strictly increasing and adds exactly that hour |
| StatsStorage.SortHours | lib/statsStorage.ts:233 | the hours sorted: strictly increasing, with the same members |
| StatsStorage.AddSnapshotOk | lib/statsStorage.ts:78-81 | ZADD of a snapshot at its timestamp keeps the history a well-formed sorted set scored by timestamp |
| StatsStorage.PruneOk | lib/statsStorage.ts:84-85 | ZREMRANGEBYSCORE keeps the history well formed |
| StatsStorage.SavedHistoryOk | lib/statsStorage.ts:44-91 | `saveStats` keeps every platform's history well formed, whatever step fails |
| StatsStorage.PrunedAllOk | lib/statsStorage.ts:300-315 | the cleanup keeps every history well formed |
| StatsStorage.PrunedForOk | lib/statsStorage.ts:306-312 | a cleanup stopped part-way still leaves every history well formed |
| StatsStorage.PrunedForBounds | lib/statsStorage.ts:306-312 | a cleanup reaching every key is the full one; one reaching none changes nothing |
| StatsStorage.PrunedForIs | lib/statsStorage.ts:306-312 | the loop's result is the partial cleanup of the keys reached, well formed, and the full cleanup when every key is reached |
| StatsStorage.UpdateEach | lib/statsStorage.ts:307-309 | the loop over the history keys applies the pruning to exactly the keys it reaches and keeps the others |
| StatsStorage.GroupByHour | lib/statsStorage.ts:207-213 | the grouping loop: one group per hour that has snapshots, holding that hour's counts in order; the hour list has the same members |
| StatsStorage.Points | lib/statsStorage.ts:216-232 | one point per hour |
| StatsStorage.PointsStamped | lib/statsStorage.ts:217-231 | each point sits at the start of its hour, which holds snapshots, and carries the rounded mean of that hour's counts |
| StatsStorage.PointsCover | lib/statsStorage.ts:209-219 | every snapshot's hour has a point |
| StatsStorage.PointsAscending | lib/statsStorage.ts:233 | the points are strictly ascending in time |
| StatsStorage.PointsSeries | lib/statsStorage.ts:206-235 | the points form the hourly series of the window: ascending, hour-aligned, covering, averaged |
| StatsStorage.StatsStore.constructor | lib/statsStorage.ts:22-24 | an empty current-stats map and the given well-formed histories |
| StatsStorage.StatsStore.CurrentStats | lib/statsStorage.ts:96-114 | the cached stats of the lower-cased platform while the expiry has not passed, null when missing, expired or on a read error |
| StatsStorage.StatsStore.StatsHistory | lib/statsStorage.ts:149-181 | exactly the stored snapshots inside the window (24 hours back and now by default, a 0 bound also counting as missing), in time order; [] on a read error |
| StatsStorage.StatsStore.ShouldRefresh | lib/statsStorage.ts:246-260 | refresh when nothing is cached (or the read fails) or the cached stats are older than the interval |
| StatsStorage.StatsStore.SaveStats | lib/statsStorage.ts:44-91 | the new current entry and history are those of `SavedCurrent`/`SavedHistory`, a failing step leaving the later steps undone |
| StatsStorage.StatsStore.StatsTimeSeries | lib/statsStorage.ts:187-240 | [] for an empty window, else the hourly series of the range's window |
| StatsStorage.StatsStore.StatsWithAutoRefresh | lib/statsStorage.ts:240-295 | the fetcher runs exactly when the refresh check (whose failed read forces a refresh) says so; a fetched value is saved; a failed fetch leaves the store alone; the answer is the current stats as the final read finds them, the freshly saved ones when the save and that read succeed |
| StatsStorage.StatsStore.CleanupOldHistory | lib/statsStorage.ts:300-315 | nothing changes when listing the keys fails; otherwise every history loses the entries scored from 0 to the age cutoff, or, when one key's prune throws, only the keys pruned before it do and the rest stay |
| StatsStorage.SaveThenCurrent | lib/statsStorage.ts:51-65 | after a save with a positive expiry, any spelling of the platform reads the new count, unexpired |
| StatsStorage.SaveLeavesOthers | lib/statsStorage.ts:51-85 | a save touches only the lower-cased platform's keys |
| StatsStorage.SaveHistoryShape | lib/statsStorage.ts:68-85 | after a save nothing in the history is older than the retention; the new snapshot is kept exactly when the retention is positive; newer entries stay |
| StatsStorage.DefaultRetentionKeepsSnapshot | lib/statsStorage.ts:78-85 | with the default settings the new snapshot survives its own pruning |
| Config.SettingOfNumeral | lib/config.ts:22-38 | a setting whose text is a decimal numeral n reads as n times its unit factor |
| Config.SettingOfDefault | lib/config.ts:22-38 | an unset or empty variable takes the default text, scaled |
| Config.LoadDefaults | lib/config.ts:22-38 | with nothing set: 24 hours, 90 days, 2 hours, 30 days, 5 minutes, 30 s, 5 s, 30 s (in milliseconds) and a log of 5 |
| Config.EmptyVariableTakesDefault | lib/config.ts:22 | an empty variable is the same as a missing one (`\|\|` treats "" as falsy) |
| Config.ConfiguredValuesAreScaled | lib/config.ts:22-35 | a configured numeral is scaled to milliseconds: seconds by 1000, days by 86,400,000 |
| Config.ConfiguredMilestoneValuesAreScaled | lib/config.ts:26-38 | the same for the milestone settings; the log size is taken as is |
| Config.NonNumericIsNaN | lib/config.ts:22-38 | a value with no leading digit parses to NaN |
| Config.RoundDiv | lib/config.ts:47-53 | `Math.round(n / d)`: the nearest integer, halves rounding up |
| Config.RoundDivExact | lib/config.ts:47-53 | an exact multiple divides back exactly |
| Config.DisplayValue | lib/config.ts:41-57 | a number exactly when the setting is one, then the setting rounded to the chosen unit |
| Config.DisplayDefaults | lib/config.ts:63-67 | the defaults display as 24 hours, 90 days, 2 hours, 5 minutes and 30 seconds |
| CheckMilestones.CountFulfilled | app/api/check-milestones/route.ts:36 | the fulfilled sends are at most the recipients |
| CheckMilestones.Broadcast | app/api/check-milestones/route.ts:16-38 | throws exactly when the bot token is unset or reading the subscriber set throws; otherwise total is the subscriber count, successful and failed add up to it, and no subscribers gives 0/0/0 |
| CheckMilestones.ErrorStatusesCountAsSuccessful | app/api/check-milestones/route.ts:36 | a send that gets any HTTP answer, an error status included, counts as successful |
| CheckMilestones.RejectedSendsFail | app/api/check-milestones/route.ts:36-37 | when every send is rejected, none counts as successful |
| CheckMilestones.Report | app/api/check-milestones/route.ts:54-73 | one entry exactly for a fulfilled, ok response, with the platform, the field's count (0 when absent) and extra info only for YouTube |
| CheckMilestones.FetchPlatformStats | app/api/check-milestones/route.ts:40-81 | [] when a body fails to parse, else the usable platforms' reports |
| CheckMilestones.ReportsInOrder | app/api/check-milestones/route.ts:52-76 | at most three reports, YouTube before Telegram before Instagram, extra info exactly on YouTube's |
| CheckMilestones.CheckPlatform | app/api/check-milestones/route.ts:104-147 | one iteration of the loop changes the stores and the answer lists as `Step` says |
| CheckMilestones.CheckAll | app/api/check-milestones/route.ts:91-172 | the cursors, current stats and histories end as `Run` over the fetched stats leaves them, each platform's save, cursor read, cursor write and subscriber read failing or not on its own; the answer is the 500 failure once a broadcast throws, else the rows, notifications and message |
| CheckMilestones.AbortSticks | app/api/check-milestones/route.ts:161-171 | once the run has thrown, the later platforms change nothing |
| CheckMilestones.RunCounts | app/api/check-milestones/route.ts:104-148 | one row per platform visited (all of them when nothing throws), at most one notification per row, each with a positive delivery |
| CheckMilestones.StepCursorRule | app/api/check-milestones/route.ts:119-144 | a notification is added exactly when a milestone is due and one send succeeded, and only then the cursor is written; a failed cursor write keeps the old cursor, so the milestone is due again next run; the step throws exactly for a due milestone whose broadcast finds no token or cannot read the subscribers |
| CheckMilestones.Step | app/api/check-milestones/route.ts:104-147 | one iteration of the loop, as `StepCursorRule` and `CheckPlatform` state |
| CheckMilestones.Run | app/api/check-milestones/route.ts:104-148 | the loop over the fetched platforms, as `RunCounts`, `EveryVisitedPlatformSaved` and `CheckAll` state |
| CheckMilestones.UnvisitedCursorKept | app/api/check-milestones/route.ts:137 | a platform none of the fetched stats names keeps its cursor |
| CheckMilestones.RowsReportInitialCursor | app/api/check-milestones/route.ts:108-116 | with distinct platforms, each row reports its platform, count, extra info and the cursor as it was before the run |
| CheckMilestones.StepRow | app/api/check-milestones/route.ts:111-116 | each step appends exactly its platform's row |
| CheckMilestones.StepSaves | app/api/check-milestones/route.ts:106 | a step whose save succeeds leaves the platform's new current stats behind |
| CheckMilestones.StepKeepsOther | app/api/check-milestones/route.ts:106 | a step leaves other platforms' current stats alone |
| CheckMilestones.EveryVisitedPlatformSaved | app/api/check-milestones/route.ts:104-106 | every visited platform whose own save did not fail reads back its new count, whatever the other platforms' saves did |
| CheckMilestones.MessageOnlyTellsWhetherNotified | app/api/check-milestones/route.ts:155-157 | the message is "No new milestones detected" exactly when nothing was notified |
| Fetchers.Kept | lib/fetchers/index.ts:42-44 | the kept stats are exactly the fulfilled, non-null results, at most one per result |
| Fetchers.FetchAndSaveAllStats | lib/fetchers/index.ts:31-57 | returns the kept stats and saves each of them in order, each platform's save failing or not on its own |
| Fetchers.AfterOneMore | lib/fetchers/index.ts:42-53 | saving one more stat is one more `saveStats` on the state so far |
| Fetchers.KeptAppend | lib/fetchers/index.ts:42-54 | results are kept one by one: the kept stats of two runs concatenate |
| Fetchers.ThreeFetchers | lib/fetchers/index.ts:34-38 | of the three fetchers at most three stats are kept, in fetcher order, YouTube's first when it succeeded |
| Fetchers.OtherPlatformsUntouched | lib/fetchers/index.ts:47 | a platform none of the stats names keeps its current entry and history |
| Fetchers.EverySavedReadsBack | lib/fetchers/index.ts:47-49 | with distinct platforms, every stat whose own save did not fail reads back as the platform's current stats |
| PageScan.ChannelPageUrl | lib/fetchers/telegram-fetcher.ts:17-24 | a page is requested exactly for a set, non-empty channel name |
| PageScan.ChannelPageUrlDropsFirstAt | lib/fetchers/telegram-fetcher.ts:23-24 | `@name` requests `https://t.me/name`: only the first '@' is removed |
| PageScan.ChannelPageUrlPlainName | lib/fetchers/telegram-fetcher.ts:23-24 | a name without '@' is used unchanged |
| PageScan.DigitRunEnd | lib/fetchers/telegram-fetcher.ts:63 | `\d+` is greedy: the run ends at the first non-digit |
| PageScan.ChainEnd | lib/fetchers/telegram-fetcher.ts:63 | `(?:\s\d+)*` is greedy: the chain stops only where no separator-and-digit follows, and holds only digits and separators |
| PageScan.GroupsEnd | lib/fetchers/telegram-fetcher.ts:63 | the digit groups after the prefix start and end with a digit and hold only digits and separators |
| PageScan.MatchAt | lib/fetchers/telegram-fetcher.ts:63 | a match at a position starts there and captures the digit groups right after the prefix |
| PageScan.FirstMatch | lib/fetchers/telegram-fetcher.ts:63 | `String.match` without the global flag: the leftmost match, nothing matching before it |
| PageScan.FirstMatchIs | lib/fetchers/telegram-fetcher.ts:63 | the match at `j` is the leftmost when nothing matches before `j` |
| PageScan.AllMatches | lib/fetchers/telegram-fetcher.ts:91 | `String.match` with the global flag: non-overlapping matches in increasing order, each a non-empty digit-and-separator capture |
| PageScan.Remove | lib/fetchers/telegram-fetcher.ts:66 | `replace(/\s/g, '')`: the result is no longer than the capture, and a digit-and-separator capture becomes all digits |
| PageScan.RemoveAppend | lib/fetchers/telegram-fetcher.ts:66 | removing characters distributes over concatenation |
| PageScan.RemoveNothing | lib/fetchers/telegram-fetcher.ts:80 | a string of digits is left as it is |
| PageScan.RemoveJoined | lib/fetchers/telegram-fetcher.ts:66 | two digit groups joined by a separator clean to the two groups run together |
| PageScan.CountIsParseInt | lib/fetchers/telegram-fetcher.ts:66-70 | the cleaned capture is a non-empty digit string whose `parseInt` is the count |
| PageScan.SingleGroupMatch | lib/fetchers/telegram-fetcher.ts:91 | a lone digit run followed by " members" matches an ungrouped pattern |
| PageScan.FirstSingleGroup | lib/fetchers/telegram-fetcher.ts:91 | that run is the leftmost match when nothing matches before it |
| TelegramFetcher.Numbers | lib/fetchers/telegram-fetcher.ts:94-96 | one number per plain match, the parsed capture |
| TelegramFetcher.Positive | lib/fetchers/telegram-fetcher.ts:97 | `filter(n => n > 0)`: exactly the positive numbers are kept |
| TelegramFetcher.Max | lib/fetchers/telegram-fetcher.ts:100 | `Math.max`: a member no smaller than any other |
| TelegramFetcher.PlainCount | lib/fetchers/telegram-fetcher.ts:91-108 | a count exactly when some plain match is positive, and then the largest |
| TelegramFetcher.ExtractCount | lib/fetchers/telegram-fetcher.ts:61-126 | the first of the four rules that applies decides: space groups, comma groups, the largest plain number, the meta data; null when none applies |
| TelegramFetcher.FetchTelegramStats | lib/fetchers/telegram-fetcher.ts:15-134 | stats exactly for a configured channel whose page answers ok with an extractable count, then `Telegram` with that count and no extra info |
| TelegramFetcher.SpaceGroupedLayout | lib/fetchers/telegram-fetcher.ts:63 | "a b members" with digit groups `a`, `b` matches the space pattern from its start |
| TelegramFetcher.SpaceGroupedFirst | lib/fetchers/telegram-fetcher.ts:63 | and that is the leftmost match |
| TelegramFetcher.SpaceGroupedCount | lib/fetchers/telegram-fetcher.ts:62-73 | "1 120 members" reads as 1120 |
| TelegramFetcher.CommaNotSpaceGrouped | lib/fetchers/telegram-fetcher.ts:63 | a comma-grouped count does not match the space pattern |
| TelegramFetcher.CommaGroupedLayout | lib/fetchers/telegram-fetcher.ts:77 | "a,b members" matches the comma pattern from its start |
| TelegramFetcher.CommaGroupedFirst | lib/fetchers/telegram-fetcher.ts:77 | and that is the leftmost match |
| TelegramFetcher.CommaGroupedCount | lib/fetchers/telegram-fetcher.ts:76-87 | "1,120 members" reads as 1120 |
| TelegramRoute.MetaMatch | app/api/telegram/route.ts:56-57 | the first meta pattern, else the `data-before` one; none exactly when neither matches |
| TelegramRoute.ExtractMembers | app/api/telegram/route.ts:49-64 | the comma-grouped match first, else the meta data, commas removed; null when neither matches |
| TelegramRoute.PublicPageMembers | app/api/telegram/route.ts:19-76 | a count exactly for an ok page with an extractable count |
| TelegramRoute.Get | app/api/telegram/route.ts:78-129 | 500 without a channel or without a count; else the count and the name with its first '@' removed |
| TelegramRoute.UnconfiguredFetchesNothing | app/api/telegram/route.ts:85-93 | without a channel the page is never read |
| TelegramRoute.NoCountIsServerError | app/api/telegram/route.ts:100-108 | a page without a count answers 500 |
| TelegramRoute.ExtractedIsParseInt | app/api/telegram/route.ts:51-52 | the count is `parseInt` of the capture with its commas removed |
| TelegramRoute.SpaceGroupedReadsLastGroup | app/api/telegram/route.ts:49-52 | the route has no space pattern: "1 120 members" reads as 120, its last group |
| TelegramRoute.CommaGroupedReadsWhole | app/api/telegram/route.ts:49-52 | "1,120 members" reads as 1120 |
| Subscribers.AddMember | lib/telegramSubscribers.ts:22-25 | SADD: the members afterwards are the old ones and the new one, still distinct |
| Subscribers.RemoveMember | lib/telegramSubscribers.ts:27-30 | SREM: the members afterwards are the old ones but the removed one, still distinct |
| Subscribers.Numbers | lib/telegramSubscribers.ts:35 | `map(Number)`: one parse per member, in order |
| Subscribers.ParseMembersContents | lib/telegramSubscribers.ts:34-36 | the listed numbers are exactly those some member parses to; NaN members are dropped |
| Subscribers.PresentContents | lib/telegramSubscribers.ts:36 | the filter keeps exactly the parsed values |
| Subscribers.SubscriberRegistry.constructor | lib/telegramSubscribers.ts:6 | an empty set |
| Subscribers.SubscriberRegistry.AddSubscriber | lib/telegramSubscribers.ts:22-25 | adds the id's decimal string and reports success whether or not it was there |
| Subscribers.SubscriberRegistry.RemoveSubscriber | lib/telegramSubscribers.ts:27-30 | removes the id's decimal string and reports success whether or not it was there |
| Subscribers.SubscriberRegistry.GetSubscribers | lib/telegramSubscribers.ts:32-37 | no more ids than the set has members |
| Subscribers.SubscriberRegistry.IsSubscribed | lib/telegramSubscribers.ts:39-42 | a subscribed id is among the listed subscribers |
| Subscribers.AddCount | lib/telegramSubscribers.ts:44-46 | after SADD, SCARD grows by one exactly when the member was new |
| Subscribers.RemoveCount | lib/telegramSubscribers.ts:44-46 | after SREM, SCARD drops by one exactly when the member was there |
| Subscribers.SubscriberRegistry.SubscriberCount | lib/telegramSubscribers.ts:44-46 | SCARD; `getSubscribers` lists no more ids than it (`GetSubscribers`), and SADD and SREM move it as `AddCount` and `RemoveCount` state |
| Subscribers.AddThenListed | lib/telegramSubscribers.ts:22-37 | after adding an id it is a member and `getSubscribers` lists it |
| Subscribers.AddExistingIsIdentity | lib/telegramSubscribers.ts:24 | adding a present id changes nothing |
| Subscribers.RemoveThenAbsent | lib/telegramSubscribers.ts:27-30 | after removing an id it is gone and every other member stays |
| SubscriberFile.Encode | app/api/telegram-bot/webhook/route.ts:34 | `JSON.stringify(ids, null, 2)` is a bracketed text |
| SubscriberFile.CommaAt | app/api/telegram-bot/webhook/route.ts:22 | the first comma of a text, or its end |
| SubscriberFile.IntToStringHasNoComma | app/api/telegram-bot/webhook/route.ts:34 | an id's text holds no comma, so items split at commas |
| SubscriberFile.Decode | app/api/telegram-bot/webhook/route.ts:17-28 | `JSON.parse` of the file text, in the layout `Encode` writes; its round trip is `DecodeEncode` |
| SubscriberFile.DecodeItemsOfItems | app/api/telegram-bot/webhook/route.ts:22-34 | the item lines parse back to the ids |
| SubscriberFile.DecodeEncode | app/api/telegram-bot/webhook/route.ts:22-34 | `JSON.parse(JSON.stringify(ids, null, 2))` gives back the ids |
| SubscriberFile.Dedup | app/api/telegram-bot/webhook/route.ts:22 | `new Set(array)` is no longer than the array |
| SubscriberFile.DedupMembers | app/api/telegram-bot/webhook/route.ts:22 | the set has the array's members, each once |
| SubscriberFile.DedupOfDistinct | app/api/telegram-bot/webhook/route.ts:22 | an array of distinct ids keeps its order |
| SubscriberFile.JsonFile.constructor | app/api/telegram-bot/webhook/route.ts:6 | the file with the given content, None when it does not exist |
| SubscriberFile.JsonFile.Ids | app/api/telegram-bot/webhook/route.ts:17-28 | a missing file reads as no ids |
| SubscriberFile.JsonFile.Save | app/api/telegram-bot/webhook/route.ts:31-38 | the file holds the encoded ids, or is unchanged when the write fails |
| SubscriberFile.SavedIdsReadBack | app/api/telegram-bot/webhook/route.ts:17-38 | a saved list reads back as itself |
| Webhook.CommandOf | app/api/telegram-bot/webhook/route.ts:65-140 | the first of `/start`, `/stop`, `/status` the text starts with picks the command; anything else, and no text, is help |
| Webhook.AddId | app/api/telegram-bot/webhook/route.ts:75 | `Set.add`: the id and every old id are present, still distinct |
| Webhook.DeleteIdMembers | app/api/telegram-bot/webhook/route.ts:102 | `Set.delete`: every old id but the deleted one, still distinct |
| Webhook.Subscribers | app/api/telegram-bot/webhook/route.ts:17-28 | the file read as a set: distinct ids |
| Webhook.Post | app/api/telegram-bot/webhook/route.ts:58-155 | a reply exactly for an update with a message, chosen by command and membership; the file is rewritten only for a new `/start` or a member's `/stop`; the answer is ok unless the reply could not be sent |
| Webhook.ReplyTo | app/api/telegram-bot/webhook/route.ts:71-140 | the reply chosen by command and membership; `ReplyReportsOutcome` states what it tells |
| Webhook.ReplyReportsOutcome | app/api/telegram-bot/webhook/route.ts:71-140 | a first welcome exactly when `/start` adds the chat, an unsubscribe notice exactly when `/stop` removes it; after a welcome the chat is subscribed, after a `/stop` reply it is not; `/status` reports membership and the set's size and changes nothing |
| Webhook.StartSubscribes | app/api/telegram-bot/webhook/route.ts:71-96 | `/start` makes the chat a subscriber, keeps every other, and writes only when it was new |
| Webhook.StopUnsubscribes | app/api/telegram-bot/webhook/route.ts:98-116 | `/stop` removes the chat, keeps every other, and writes only when it was there |
| Webhook.OthersKeepSet | app/api/telegram-bot/webhook/route.ts:118-140 | `/status` and other messages change nothing |
| Webhook.PrefixDispatch | app/api/telegram-bot/webhook/route.ts:65-118 | commands are matched by prefix: `/start now` is `/start`, `/stopped` is `/stop` |
| Webhook.RewriteReadsBack | app/api/telegram-bot/webhook/route.ts:31-38 | after the rewrite the file reads back as the updated set |
| Notify.FormatMessageLayout | app/api/telegram-bot/notify/route.ts:60-65 | the text is the header, the platform line, the milestone line, the message and the footer, in that order |
| Notify.FormatMessage | app/api/telegram-bot/notify/route.ts:60-65 | the broadcast text, laid out as `FormatMessageLayout` states |
| Notify.Recipients | app/api/telegram-bot/notify/route.ts:8-18 | a missing file gives no recipients |
| Notify.BroadcastMessage | app/api/telegram-bot/notify/route.ts:21-46 | total is the recipient count, the fulfilled sends are successful and the rest failed |
| Notify.Post | app/api/telegram-bot/notify/route.ts:48-85 | 500 when the body is not JSON; 400 unless message, platform and milestone are all truthy; otherwise the formatted text is broadcast to the file's ids and `successful` counts the fulfilled sends |
| Notify.MissingFileSendsNothing | app/api/telegram-bot/notify/route.ts:10-17 | without a subscriber file a valid request answers 0/0/0 |
| Notify.DuplicatesCountTwice | app/api/telegram-bot/notify/route.ts:12 | this route does not deduplicate: an id listed twice is sent to twice |
| Notify.NoMilestoneIsRejected | app/api/telegram-bot/notify/route.ts:52-57 | a request without a milestone answers 400 |
| SubscriberDetails.Placeholder | app/api/telegram-bot/subscribers/details/route.ts:223-230 | a user whose lookup fails is shown as "User #id", not a bot, without username or photo |
| SubscriberDetails.ResolveAll | app/api/telegram-bot/subscribers/details/route.ts:220-244 | one user per id, in order, the looked-up info or the placeholder |
| SubscriberDetails.CachedUsers | app/api/telegram-bot/subscribers/details/route.ts:192-204 | one user per cached id |
| SubscriberDetails.CachedUsersOfIds | app/api/telegram-bot/subscribers/details/route.ts:192-208 | the cached part lists each cached id's stored info in order; the uncached ids have no cache entry |
| SubscriberDetails.PartitionCovers | app/api/telegram-bot/subscribers/details/route.ts:192-208 | cached and uncached ids together are the subscriber ids, as a multiset |
| SubscriberDetails.PartitionLength | app/api/telegram-bot/subscribers/details/route.ts:192-208 | the two lists' lengths add up to the number of ids |
| SubscriberDetails.BatchesCover | app/api/telegram-bot/subscribers/details/route.ts:215-217 | the batches concatenate to the uncached ids; each holds one to five ids, all but the last exactly five |
| SubscriberDetails.Batches | app/api/telegram-bot/subscribers/details/route.ts:215-217 | `slice(i, i + 5)` in steps of five; `BatchesCover` states the cover |
| SubscriberDetails.Partition | app/api/telegram-bot/subscribers/details/route.ts:189-208 | the loop builds the cached users and the uncached ids |
| SubscriberDetails.FetchBatches | app/api/telegram-bot/subscribers/details/route.ts:211-252 | the batch loop resolves every uncached id in order, five at a time |
| SubscriberDetails.Authorize | app/api/telegram-bot/subscribers/details/route.ts:155-170 | 500 without an admin token, then 401 for a wrong token, then 500 without a bot token; nothing when all three pass |
| SubscriberDetails.Get | app/api/telegram-bot/subscribers/details/route.ts:153-271 | a refusal fetches nothing; otherwise 500 when a read fails, an empty listing for no subscribers, else the cached users then the fetched ones with the cached and fetched counts |
| SubscriberDetails.ListingCounts | app/api/telegram-bot/subscribers/details/route.ts:254-259 | the listing has one user per subscriber id |
| SubscriberDetails.ListingOrder | app/api/telegram-bot/subscribers/details/route.ts:189-245 | cached users come first in id order, then the fetched ones in id order |
| SubscriberDetails.FailedLookupIsPlaceholder | app/api/telegram-bot/subscribers/details/route.ts:222-230 | a null or thrown lookup gives the placeholder |
| StreamStorage.Decoded | lib/streamStorage.ts:71-86 | no more records than members; unparsable members are skipped |
| StreamStorage.Overlapping | lib/streamStorage.ts:77-83 | the overlap filter keeps no more than it is given |
| StreamStorage.DecodedMembers | lib/streamStorage.ts:71-86 | exactly the stored records come out |
| StreamStorage.StoredEntry | lib/streamStorage.ts:41-44 | a stored record sits at its start time |
| StreamStorage.OverlappingAll | lib/streamStorage.ts:77-83 | records that all overlap pass unchanged |
| StreamStorage.DecodedAscending | lib/streamStorage.ts:61-63 | a score-ordered read gives records by start time |
| StreamStorage.InRangeByStart | lib/streamStorage.ts:56-94 | `getStreamsInRange` returns exactly the stored records starting inside the range, in start order (the overlap test adds nothing to a by-score read) |
| StreamStorage.FreshForAnHour | lib/streamStorage.ts:109-128 | after a fetch marked at t, a new fetch is due exactly when more than an hour has passed |
| StreamStorage.FirstWithId | lib/streamStorage.ts:155-159 | the first stored record with the video id, or none |
| StreamStorage.EndedOk | lib/streamStorage.ts:148-182 | ending a stream keeps the set well formed |
| StreamStorage.EndedEffect | lib/streamStorage.ts:148-182 | without that id nothing changes; else the first such record is replaced by its finished copy at the same score, and every other member stays |
| StreamStorage.StreamStore.constructor | lib/streamStorage.ts:4-5 | the given stream set and fetch marker |
| StreamStorage.StreamStore.Save | lib/streamStorage.ts:36-50 | ZADD of the record at its start time, or nothing when it fails |
| StreamStorage.StreamStore.StreamsInRange | lib/streamStorage.ts:56-94 | the overlapping stored records of the by-score range; [] on a read error |
| StreamStorage.StreamStore.FetchDue | lib/streamStorage.ts:109-128 | due on a read error and with no marker; for a marker `markStreamsFetched` wrote, due exactly when more than an hour has passed |
| StreamStorage.StreamStore.MarkFetched | lib/streamStorage.ts:133-142 | the marker now holds the time with a one-hour expiry, or is unchanged when the write fails; the streams are untouched |
| StreamStorage.StreamStore.UpdateEndTime | lib/streamStorage.ts:148-182 | the streams become `EndFrom` over the set as read, with each matching record's write outcome, or stay on a read error; the marker stays |
| StreamStorage.EndFromUnfold | lib/streamStorage.ts:155-178 | one record of the scan: one without the id, or whose ZREM throws, is passed over; one whose ZADD throws after the ZREM is removed and the scan goes on; a full write finishes it and ends the scan |
| StreamStorage.FinishStepOk | lib/streamStorage.ts:161-170 | ZREM of a record, and ZADD of its finished form at its start time, keep the set well formed |
| StreamStorage.EndFromOk | lib/streamStorage.ts:148-182 | whatever the writes do, the scan keeps the set well formed |
| StreamStorage.EndFromNoMatch | lib/streamStorage.ts:155-178 | a scan that meets no record with the id changes nothing |
| StreamStorage.EndFromWritten | lib/streamStorage.ts:148-182 | when every write succeeds the scan is `Ended`: the first record with the id finished, everything else kept |
| StreamStorage.LostOnAddFailure | lib/streamStorage.ts:161-170 | a ZADD that throws after its ZREM loses the record: with no later record of that id, the record is gone and no finished form is added |
| StreamStorage.RemoveFailureSkips | lib/streamStorage.ts:159-178 | a ZREM that throws leaves the record and hands on to the next record with the id |
| StreamStorage.ShouldFetch | lib/streamStorage.ts:109-128 | `shouldFetchStreams` on the stored marker; its hour rule is stated by `FreshForAnHour` and `StreamStore.FetchDue` |
| StreamStorage.StreamStore.Cleanup | lib/streamStorage.ts:188-202 | every stream scored from 0 to 90 days ago is removed, or nothing changes when the call fails |
| StreamStorage.SaveThenPresent | lib/streamStorage.ts:36-44 | a saved record is stored at its start time |
| StreamStorage.SaveKeepsOlderVersion | lib/streamStorage.ts:41-44 | saving a changed record with the same video id keeps the old version as well |
| StreamStorage.CleanupKeeps | lib/streamStorage.ts:188-194 | a record survives the cleanup exactly when it started after the cutoff (or before 0) |
| YouTubeStreams.RecordOf | lib/fetchers/youtube-streams.ts:114-128 | the record carries the video's id and title, is live exactly for "live", starts at the actual start or else the publish time, and ends at the actual end |
| YouTubeStreams.Records | lib/fetchers/youtube-streams.ts:108-135 | at most one record per video |
| YouTubeStreams.RecordsAppend | lib/fetchers/youtube-streams.ts:108-135 | records are built video by video |
| YouTubeStreams.RecordsOne | lib/fetchers/youtube-streams.ts:109-113 | a video gives a record exactly when it is live, upcoming or has live-streaming details |
| YouTubeStreams.IsStream | lib/fetchers/youtube-streams.ts:109-113 | the stream test on a video: live, upcoming or with live-streaming details, as `RecordsOne` states |
| YouTubeStreams.SavedAllOk | lib/fetchers/youtube-streams.ts:133 | saving the records keeps the stream set well formed |
| YouTubeStreams.SavedAllPresent | lib/fetchers/youtube-streams.ts:130-133 | every record whose own save did not fail is stored afterwards |
| YouTubeStreams.SavedAllFailed | lib/streamStorage.ts:36-50 | when every save fails the set is unchanged |
| YouTubeStreams.SaveRecords | lib/fetchers/youtube-streams.ts:106-135 | the loop returns the records of the stream videos and saves each of them in turn, a failed save changing nothing; the marker is left alone |
| YouTubeStreams.FetchYouTubeStreams | lib/fetchers/youtube-streams.ts:44-152 | unless forced and not due, configured, with search results and a video answer, nothing changes and [] comes back; otherwise the records are returned, saved one by one, the marker set and old streams cleaned up, each write failing or not on its own; the API call count follows the same steps |
| YouTubeStreams.MarkerOnlyAfterVideos | lib/fetchers/youtube-streams.ts:47-103 | a completed run made both API calls; a run that is not due and not forced makes none |
| YouTubeStreams.FetchedAreStored | lib/fetchers/youtube-streams.ts:130-141 | a fetched record whose save did not fail is in the store after the run, when it is newer than the cutoff or the cleanup failed |
| Language.Code | lib/LanguageContext.tsx:35-36 | "en" and "fa" name the two languages, one each |
| Language.Dir | lib/LanguageContext.tsx:24-37 | Persian is right to left, English left to right |
| Language.SavedLanguage | lib/LanguageContext.tsx:21-22 | a saved preference counts only when it is "en" or "fa" |
| Language.SavedRoundTrip | lib/LanguageContext.tsx:21-35 | a language saved by `setLanguage` is read back on the next mount |
| Language.Lookup | lib/LanguageContext.tsx:41 | the current language's text, else the English one, else the key |
| Language.UntranslatedShowsKey | lib/LanguageContext.tsx:41 | a key translated nowhere shows itself |
| Language.FirstPlaceholderOnly | lib/LanguageContext.tsx:44-46 | `replace` with a string pattern fills only the first `{name}` |
| Language.AbsentPlaceholder | lib/LanguageContext.tsx:44-46 | a replacement whose placeholder is absent changes nothing |
| Language.Substituted | lib/LanguageContext.tsx:44-46 | the replacements applied in entry order; `FirstPlaceholderOnly` and `AbsentPlaceholder` state each step |
| Language.LanguageState.constructor | lib/LanguageContext.tsx:16-17 | Persian and not mounted, storage and document as given |
| Language.LanguageState.Mount | lib/LanguageContext.tsx:19-31 | the saved language if valid, else Persian; the document follows |
| Language.LanguageState.SetLanguage | lib/LanguageContext.tsx:33-38 | the language, its stored code and the document's lang and dir all change to it |
| Language.LanguageState.IsRtl | lib/LanguageContext.tsx:52 | right to left exactly for Persian |
| Language.LanguageState.T | lib/LanguageContext.tsx:40-50 | the looked-up text, with each replacement applied in turn |
| MilestoneChecker.Throttled | components/MilestoneChecker.tsx:15-27 | the throttle test on the stored time; what it means after a successful check is stated by `ThrottleAfterSuccess` |
| MilestoneChecker.LogOf | components/MilestoneChecker.tsx:43-48 | the log entry counts the notifications and stats, 0 when absent |
| MilestoneChecker.Pushed | components/MilestoneChecker.tsx:52-54 | the new entry first, then the older ones, at most five |
| MilestoneChecker.PushedTwice | components/MilestoneChecker.tsx:52-54 | two checks leave the newest two first, in order, and keep the bound |
| MilestoneChecker.BrowserStorage.constructor | components/MilestoneChecker.tsx:15 | the storage as given |
| MilestoneChecker.BrowserStorage.Check | components/MilestoneChecker.tsx:13-67 | called exactly when not throttled; only an ok answer stores the time and pushes a log entry; anything else leaves storage alone |
| MilestoneChecker.ThrottleAfterSuccess | components/MilestoneChecker.tsx:21-35 | after a success at t, visits skip exactly until t plus two hours |
| MilestoneChecker.FailureRetries | components/MilestoneChecker.tsx:21-27 | a visit that was not throttled stays unthrottled later |
| SubscribersPage.Kept | app/admin/subscribers/page.tsx:85-98 | the filter keeps no more users than it is given |
| SubscribersPage.KeptSubsequence | app/admin/subscribers/page.tsx:85-98 | the filter keeps the users' order |
| SubscribersPage.KeptMembers | app/admin/subscribers/page.tsx:85-98 | exactly the matching users are kept |
| SubscribersPage.FilteredSpec | app/admin/subscribers/page.tsx:85-98 | a blank term shows everyone; otherwise exactly the users whose name, username or id holds the term, in order |
| SubscribersPage.Filtered | app/admin/subscribers/page.tsx:85-98 | `filteredSubscribers`, as `FilteredSpec` states |
| SubscribersPage.IdFindsUser | app/admin/subscribers/page.tsx:94-96 | searching for a user's id finds them |
| SubscribersPage.TelegramLink | app/admin/subscribers/page.tsx:216-218 | `https://t.me/` and the username when there is one, else `tg://user?id=` and the id |
| SubscribersPage.LinkScheme | app/admin/subscribers/page.tsx:216-218 | the link uses https exactly when the user has a username |
| Charts.BuildChartData | app/stats/page.tsx:82-100 | the chart points are `Chart` of the stats |
| Charts.FillPoint | app/stats/page.tsx:92-96 | the inner `forEach` fills the point as `Fill` says |
| Charts.ChartShape | app/stats/page.tsx:82-90 | no points without stats or without a first history; else one point per entry of the first history |
| Charts.FillKeys | components/StatsModal.tsx:74-78 | a name is set exactly when it was already there or some platform of that name has an entry at the index |
| Charts.FillLast | components/StatsModal.tsx:74-78 | the value is the count of the last such platform |
| Charts.FillUntouched | components/StatsModal.tsx:74-78 | a name no platform sets keeps its value |
| Charts.ChartPoint | app/stats/page.tsx:82-100 | point i holds the first platform's time at i (unless a platform is named "time") and exactly the platforms with an entry at i |
| Charts.ChartCount | app/stats/page.tsx:92-96 | with one stat per platform each point shows that platform's own count |
| Charts.ShortHistoryAbsent | app/stats/page.tsx:92-96 | a platform whose history is too short is missing from the point |
| Charts.Find | app/stats/page.tsx:106 | `find`: the first stat of the platform, or none when there is none |
| Charts.GrowthTelescopes | components/StatsModal.tsx:86-90 | last minus first is the sum of the step-by-step changes |
| Charts.GrowthSpec | app/stats/page.tsx:105-109 | 0 for a missing platform or fewer than two entries, else the sum of its history's changes |
| Charts.Growth | app/stats/page.tsx:105-109 | `getGrowth`, as `GrowthSpec` states |
| Charts.NonDecreasingGrowth | app/stats/page.tsx:105-109 | a history that never falls has non-negative growth |
| Dashboard.RejectionSpec | app/admin/dashboard/page.tsx:67-77 | a message that trims to nothing is refused first, then a blank milestone in template mode; only a form passing both goes on |
| Dashboard.Rejection | app/admin/dashboard/page.tsx:67-77 | the form's refusal, as `RejectionSpec` states |
| Dashboard.BuildPayload | app/admin/dashboard/page.tsx:80-93 | platform, message and mode as typed; a milestone exactly in template mode; an image URL only as typed |
| Dashboard.PayloadImage | app/admin/dashboard/page.tsx:86-90 | the image URL goes out exactly in custom mode when it does not trim to nothing |
| Dashboard.CustomPayloadRejected | app/admin/dashboard/page.tsx:80-93 | a custom-mode payload has no milestone, so the notify route answers 400 |
| Dashboard.TemplatePayloadSent | app/admin/dashboard/page.tsx:73-103 | a template payload that passed the form's checks, for a named platform, is broadcast |
| Dashboard.SubmitDisabledBounds | app/admin/dashboard/page.tsx:297 | over 500 characters always disables the button; 250 or fewer never does unless a send is running |
| Dashboard.SubmitDisabled | app/admin/dashboard/page.tsx:297 | the submit button's `disabled`, bounded as `SubmitDisabledBounds` states |
| Dashboard.PendingIsFailed | app/admin/dashboard/page.tsx:325 | for the notify route's answer the pending figure is its failed count, between 0 and the total |
| Dashboard.DashboardForm.constructor | app/admin/dashboard/page.tsx:27-35 | YouTube, template mode, empty fields, nothing sent |
| Dashboard.DashboardForm.HandleSubmit | app/admin/dashboard/page.tsx:60-126 | without a token nothing changes; otherwise the payload is posted exactly when the checks pass, the answer is kept, the count is refreshed only after a delivery, and sending ends false |
| Dashboard.PostedAreValid | app/admin/dashboard/page.tsx:67-77 | a posted message is never empty, nor a template milestone |
| Text.NatToStringRoundTrip | lib/milestones.ts:48 | `String(n)` of a natural number reads back as n |
| Text.IntToStringInjective | lib/telegramSubscribers.ts:23 | distinct ids have distinct `toString()` texts, so each id is one set member |
| Text.JsParseIntOfIntToString | components/MilestoneChecker.tsx:21-35 | `parseInt(now.toString())` gives back `now` |
| Text.JsParseInt | components/MilestoneChecker.tsx:21 | `parseInt` without a radix, as `LeadingDigits` and `JsParseIntOfIntToString` state |
| Text.JsNumberOfIntToString | lib/telegramSubscribers.ts:35 | `Number(id.toString())` gives back the id |
| Text.JsNumber | lib/telegramSubscribers.ts:35 | `Number` on integer text, as `JsNumberOfIntToString` states |
| Text.LeadingDigits | components/MilestoneChecker.tsx:21 | `parseInt` reads the longest run of digits at the front |
| Text.TrimStart | app/admin/dashboard/page.tsx:67 | `trim()` drops exactly the leading white space |
| Text.TrimEnd | app/admin/dashboard/page.tsx:67 | and exactly the trailing white space |
| Text.TrimEmptyIffBlank | app/admin/dashboard/page.tsx:67-73 | a string trims to "" exactly when it is all white space |
| Text.Trim | app/admin/dashboard/page.tsx:67-73 | `trim()`, as `TrimStart`, `TrimEnd` and `TrimEmptyIffBlank` state |
| Text.Lower | app/admin/subscribers/page.tsx:90-93 | `toLowerCase()` lowers every ASCII capital and keeps the length |
| Text.IndexOf | lib/LanguageContext.tsx:45 | the first occurrence at or after a position, none before it |
| Text.Includes | app/admin/subscribers/page.tsx:96 | `includes` holds exactly when the pattern occurs somewhere |
| Text.ReplaceFirst | lib/LanguageContext.tsx:45 | `replace` with a string pattern: unchanged when it does not occur, else the first occurrence replaced |
| Text.Utf16Length | app/admin/dashboard/page.tsx:297 | `.length` counts UTF-16 units: at least the characters, at most twice as many |
| SortedSet.Add | lib/streamStorage.ts:41-44 | ZADD: the member at the score, any earlier entry of that same member gone, the set still well formed |
| SortedSet.Without | lib/streamStorage.ts:161 | ZREM: every entry but the member's, the set still well formed |
| SortedSet.RangeByScore | lib/streamStorage.ts:61-63 | ZRANGE BYSCORE: exactly the entries scored inside the bounds, in score order |
| SortedSet.RemoveRangeByScore | lib/streamStorage.ts:194 | ZREMRANGEBYSCORE: exactly the entries scored outside the bounds stay |
| SortedSet.AddThenRange | lib/streamStorage.ts:41-63 | an added member is found by a range that holds its score, and only at that score |

## Left out

- Redis client construction and environment lookups (`getClient` in every storage file): the store is the class's fields, and a failing call is a flag or an outcome parameter.
- Network calls (`fetch` to YouTube, Telegram, Instagram and the bot API), `AbortController` timeouts and the 100 ms pauses between batches: every answer is an input, a settled outcome per call.
- `Promise.allSettled` and `Promise.all`: the model takes the settled outcomes in order and runs sequentially; races between concurrent invocations are not modelled.
- Upstash's automatic JSON deserialisation: a stored member is either a record the code can read or unreadable text, and two members are the same when their records are equal (standing for equal JSON text).
- `generateMilestoneMessage` (lib/milestones.ts:55-65) draws its wording with `Math.random`, so the broadcast text is a parameter and not modelled.
- `sendTelegramMessage`, `console` logging and the debug-only scan of the Telegram page (lib/fetchers/telegram-fetcher.ts:44-59).
- Date handling: timestamps are integer milliseconds; ISO date parsing in the YouTube fetcher and the `toLocaleTimeString` labels (lib/statsStorage.ts:227-230) are not modelled, and a label is a given string.
- `viewCount` is read with `parseInt`; a value that does not parse (NaN) is modelled as a missing count.
- JavaScript numbers: integers are unbounded and exact, with no 2^53 precision limit and no floating point. `String(v)` of a replacement value covers integers and strings only.
- `toLowerCase` is modelled on ASCII letters only; other letters stay as they are.
- `String.replace` with a string pattern is modelled as replacing the first occurrence; the `$`-patterns in the replacement text are not interpreted.
- `Object.entries` order: the `t` replacements are given as a sequence in the order they are applied.
- `getUsersInfo` is imported by the details route but not defined in lib/telegramSubscribers.ts: it is an abstract cache that either answers a map or throws.
- `getTelegramUserInfo` (app/api/telegram-bot/subscribers/details/route.ts:43-151) is an oracle from id to user-or-nothing; its three nested API calls are not modelled.
- `getAllCurrentStats`, `getRecentStreams` and `checkAndUpdateLiveStreams` are outside the modelled core.
- The history entries of `StatData` are assumed present when the charts read them; the stats modal's guard against a missing history is not modelled.
- The dashboard's image file upload, and the `template` and `imageUrl` fields that the notify route ignores; toasts, routers, redirects and all JSX rendering.
- `sessionStorage` and every other browser storage use beyond `lastMilestoneCheck` and `milestoneCheckLogs`.
- UI-only files, translation strings, deployment scripts and the thin API wrappers around a single external call.
- Config.DisplayValue: None stands for a setting that is not a number (NaN from `parseInt`); the code itself would display `NaN` there, since `typeof NaN` is `'number'` and its `'N/A'` branch only catches a value that is not a number at all.
- MilestoneChecker.BrowserStorage.Check: a log text that is not a JSON array is modelled as None and left untouched, and a missing key as the empty list.
- Subscribers.SubscriberRegistry.IsSubscribed: one direction only (a member implies a listed id), because a stored member such as "007" is listed as 7 without being the id's own decimal text.
- SubscriberFile.Decode: its round trip is stated only for the layout `Encode` writes, and it parses no other layout: valid JSON such as `[1,2]` reads as None where `JSON.parse` gives the array.
- SubscriberFile.JsonFile.Ids: any file text outside `Encode`'s layout reads as no ids, so a hand-written `[1,2]` file gives [] here; `/start` would then rewrite it with the new id alone, where the routes keep the parsed ids.
- Notify.Post: a subscriber file holding JSON that is not an array (such as `5`) makes `subscribers.map` throw and the route answer 500 (app/api/telegram-bot/notify/route.ts:27 and 75-83); the model reads it as no ids and answers a broadcast to nobody.
- Default arguments are not modelled: `shouldRefreshStats` defaults its age to `STATS_CACHE_TTL`, `getStatsWithAutoRefresh` to five minutes, `cleanupOldStatsHistory` to 90 days and `getStatsTimeSeries` its range to `'day'`; in the model every caller passes the value.
- Webhook.Post: a body that is not JSON, or a message without `chat` or `from`, makes the route throw and answer 500 (app/api/telegram-bot/webhook/route.ts:60-66 and 144-153); the model takes an already decoded message or none, so that path is not modelled.
- Milestones.FormatMilestone: the tenths are rounded half up on exact integers, which agrees with `toFixed(1)` on the table's values; on other values binary floating point can round a tie down (1450 prints "1.4K").
- SortedSet.Add: among entries with equal scores Redis orders members lexicographically by their text, while the model puts a new entry after the existing equal-score entries. Range reads (`getStreamsInRange`, the stats history) can list equal-score members in another order than Redis, and `updateStreamEndTime` can then meet a different copy of a twice-saved stream first (for instance two versions with the same start time and view counts 9 and 10: Redis lists the `"viewCount":10` text first).
- Text.JsNumber: only optionally signed decimal digits (and the empty or blank string, read as 0) are parsed; exponent (`1e3`), decimal (`1.5`), hexadecimal (`0x10`), octal (`0o7`), binary (`0b1`) and `Infinity` texts, which `Number` parses, are read as NaN, so `getSubscribers` would drop such members where the code keeps them. The code itself only ever stores `String(id)` texts.
