# Discord activity statistics bot — a verified Dafny model

The bot counts, for every member of a Discord server:
- messages, in total, per UTC day and per channel per day;
- time spent in voice channels, in total and per UTC day.

It keeps these counts in an in-memory store, `stats`. The store is periodically written to two SQLite tables, `user_stats` and `daily_stats`, with upserts. The `/stats me` and `/stats server` slash commands read it.

The repository holds the logic twice:
- `src/`: `statsManager.js`, `events.js` and `commands.js`;
- the single file `bot.js`.

This project models both copies:
- **`common.dfy` (Common):** `Option`, duplicate-free sequences, `indexOf`, and a stable descending sort. The sort stands for `Array.prototype.sort` with a comparator `(a, b) => key(b) - key(a)`.
- **`map_sums.dfy` (MapSums):** sums of the values of a map. A JavaScript loop over an object's keys computes the same sum in any key order.
- **`aggregates.dfy` (Aggregates):** the store as values.
  - A store maps a user id to `UserStats(totalMessages, totalVoiceTime, daily)`, and `daily` maps a day to `DayStats(messages, voiceTime, channels)`.
  - It also has the lazy initialisers, the two recording operations, and the counter invariants they keep.
- **`durable.dfy` (Durable):** the two tables as maps. The upserts overwrite every non-key column. Writes can fail, and a fixed set of row keys says which ones do.
- **`stats_manager.dfy` (StatsManager):** the `stats` object as a class `StatsStore`. The class keeps the entries and the key order (`Object.keys`). Its methods update the store in place. The module also has `getLast7Dates` and the flush loop.
- **`events.dfy` (Events):** the message handler and the voice handler of `src/events.js`.
  - The voice handler is a state machine over the store and the map of open voice sessions.
  - The module also has sequences of events replayed from a consistent store.
- **`commands.dfy` (Commands):** everything in `src/commands.js`:
  - the seven-day sums;
  - the rank;
  - the top channels;
  - the per-user rate limiter;
  - the `/stats me` and `/stats server` replies;
  - the interaction handler.
- **`bot.dfy` (Bot):** where `bot.js` differs from `src/`:
  - loading the store from the tables at start-up;
  - the one-day and hour figures;
  - the top three channels;
  - `/stats me`, which creates the caller's entry before ranking them;
  - the voice handler, whose leave branch writes the store directly.

  The rest of `bot.js` repeats `src/` code, and the members that model that code also model `bot.js`:
  - `initUserStats`…`recordVoiceTime` (bot.js:163-189) are `StatsManager.StatsStore`'s methods;
  - `flushStatsToDB` (bot.js:117-147) is `StatsStore.FlushStatsToDB`, with the same upsert semantics;
  - `get7DayMessages` (bot.js:194-203) is `Commands.GetLast7DaysMessagesLocal`;
  - `getUserRank` (bot.js:220-224) is `Commands.Rank`;
  - the `messageCreate` handler (bot.js:473-480) is `Events.MessageCreate`.

Modelling choices:
- A calendar day (`"YYYY-MM-DD"` in UTC) is an integer day number. `getLast7Dates` is then `[today-6, …, today]`.
- Clock readings are integer milliseconds.
- A voice duration is the exact real number `(now - join) / 1000`.
- User and channel ids are abstract numbers; only equality between ids matters.
- The clock is a parameter: every event or command gets one `now` and one `today`.

Where the bot's documented design and its code differ, the model follows the code:
- **Voice durations are not clamped.** `recordVoiceTime` adds its argument as it is, so a negative duration lowers both counters (`Aggregates.WithVoice`).
- **A failed flush write stops the pass.** One `try` wraps the whole pass, so the first write that throws ends it, and the later rows are not written (`StatsManager.StatsStore.FlushStatsToDB`).
- **A failed load is not fatal.** `bot.js` logs a failed load and carries on (`Bot.LoadStatsFromDB`).
- **`src/` never loads.** The `src/` version has no load at all: its store starts empty.
- **Negative counts are possible in principle.** Non-negative message counts are an invariant of the store built by the operations (`Aggregates.DayMessagesNonNegative`, `Commands.WindowAtMostTotal`), not a property of every store.

## Model

| member | source | states |
|---|---|---|
| Common.SortDesc | src/commands.js:51-53 | The sorted sequence is a permutation of the input with the same length. |
| Common.SortDescSorted | src/commands.js:34-36 | The result of the sort is non-increasing in its key. |
| Common.SortDescStable | src/commands.js:34-36 | The sort is stable: of two elements with equal key in a duplicate-free input, the earlier one stays in front. |
| Common.IndexOf | src/commands.js:37 | `indexOf` gives -1 for a missing element, and otherwise the first position holding it. |
| Common.IndexOfDistinct | src/commands.js:37 | In a duplicate-free sequence, `indexOf` of the element at position `i` is `i`. |
| MapSums.SumIntsUpdate | src/statsManager.js:40-41 | Overwriting one value changes the sum of a map by the difference. This is how a channel or day counter update moves the totals. |
| MapSums.SumAlongAll | src/commands.js:163-170 | Summing a map along a duplicate-free listing of all its keys gives its sum, in any order. |
| MapSums.SumAddInto | src/commands.js:46-48 | Adding one map's counts into another adds their sums. |
| Aggregates.Last7 | src/statsManager.js:13-19 | Seven days, ascending by one, the last being today. Membership is exactly `today-6 … today`. |
| Aggregates.EnsureUser | src/statsManager.js:21-25 | Only the user's key is added. Their entry is the old one, or zeroed when absent. No other entry changes. |
| Aggregates.EnsureDay | src/statsManager.js:27-32 | Creates the user if needed, and a zeroed day only if that day is absent. Totals and the other days are untouched, and an existing day is never reset. |
| Aggregates.WithMessage | src/statsManager.js:34-42 | The author's total, that day's count and that day's count for the channel each go up by exactly one. Voice, other channels, other days and other users are unchanged. |
| Aggregates.WithVoice | src/statsManager.js:44-50 | The seconds are added unchanged to the total and to today's voice time. Messages and channels are unchanged, as are other days and users. |
| Aggregates.EmptyStoreConsistent | src/statsManager.js:7 | The empty store satisfies the counter invariants. |
| Aggregates.EnsureDayPreservesConsistency | src/statsManager.js:21-32 | Creating entries on demand keeps the invariants. |
| Aggregates.DayMessageConsistent | src/statsManager.js:39-41 | Counting a message in a day keeps its channel counts non-negative and adding up to its message count. |
| Aggregates.MessagePreservesConsistency | src/statsManager.js:34-42 | `recordMessage` keeps both invariants: days add up to the totals, and channels add up to their day. |
| Aggregates.VoicePreservesConsistency | src/statsManager.js:44-50 | `recordVoiceTime` keeps the daily voice times adding up to the total voice time. |
| Aggregates.DayMessagesNonNegative | src/statsManager.js:39-41 | A day whose channel counts are non-negative and add up to its message count has a non-negative count. |
| Durable.Database.UpsertUser | src/statsManager.js:56-60 | A write succeeds unless its key is failing. On success it inserts or overwrites the whole user row, and nothing else changes. |
| Durable.Database.UpsertDaily | src/statsManager.js:63-69 | The same for one (user, day) row. |
| StatsManager.StatsStore.constructor | src/statsManager.js:7 | The store starts empty, with no keys, and consistent. |
| StatsManager.StatsStore.InitUserStats | src/statsManager.js:21-25 | The new store is `EnsureUser` of the old one. A new key is appended to the key order. |
| StatsManager.StatsStore.InitUserDateStats | src/statsManager.js:27-32 | The new store is `EnsureDay` of the old one. A new key is appended to the key order. |
| StatsManager.StatsStore.RecordMessage | src/statsManager.js:34-42 | The new store is `WithMessage` of the old one. A new key is appended to the key order. |
| StatsManager.StatsStore.RecordVoiceTime | src/statsManager.js:44-50 | The new store is `WithVoice` of the old one. A new key is appended to the key order. |
| StatsManager.StatsStore.FlushStatsToDB | src/statsManager.js:52-76 | Only the tables change. The pass stops at the first user, in key order, with a failing write (`FirstFailing`). If none fails, the tables gain every user row and every (user, day) row of the store. Otherwise they gain the rows of the earlier users, then that user's totals row unless that was the failing write, then that user's day rows in date order up to the first failing day. If the totals write failed, none of that user's day rows are written. The tables end as `FlushedUserRows` / `FlushedDailyRows` of the old ones. |
| StatsManager.FlushUsers | src/statsManager.js:54-71 | The loop over users in key order. It stops at the first user with a failing write. The tables gain every row of the users before it, that user's totals row unless that write threw, and that user's days in date order up to the first failing one (none if the totals write threw). |
| StatsManager.FlushUser | src/statsManager.js:55-70 | One user's pass: first the totals row, then the day rows. The days written are exactly `WrittenDays`: none when the totals write throws, otherwise the days in date order before the first failing one. |
| StatsManager.FlushDays | src/statsManager.js:61-70 | The inner loop, visiting days in date order. It writes exactly the days before the first failing one (all of them when none fails) and succeeds iff none of the user's days fails. |
| StatsManager.Earliest | src/statsManager.js:61 | The next day the inner loop visits is the earliest day not yet written. |
| StatsManager.GetLast7Dates | src/statsManager.js:13-19 | The `unshift` loop builds exactly `Last7(today)`. |
| StatsManager.EnsureUserIdempotent | src/statsManager.js:21-25 | `initUserStats` is idempotent and leaves an existing entry untouched. |
| StatsManager.FlushTwiceSameAsOnce | bot.js:117-147 | A second pass over the same store and the tables the first pass left, with the same failing rows, leaves those tables unchanged, whether or not a write fails. |
| StatsManager.StatsStore.FlushTwice | src/statsManager.js:52-76 | Two passes of the flush over an unchanged store succeed or fail together, and the tables end as after one pass, also when a write fails. With no failing write both passes succeed and the tables gain every row of the store. |
| StatsManager.OrderWithKeeps | src/statsManager.js:22-23 | Appending a newly created key keeps the key order listing each key exactly once. |
| Events.Classify | src/events.js:29-49 | The four cases, with the branch conditions in both directions: join, switch (two different channels), leave, and no change. |
| Events.VoiceUpdate | src/events.js:19-53 | With no member nothing changes. Otherwise the member's entry and today's entry exist afterwards. |
| Events.NoSessionNoVoice | src/events.js:33-49 | A switch or leave with no open session, or an update that changes no channel, only creates the entries. It records no time and keeps the sessions. |
| Events.JoinOpensSession | src/events.js:29-31 | A join opens the session at `now` and adds no voice time. |
| Events.JoinSwitchLeave | src/events.js:29-49 | Join at t0 on day d0, switch at t1 on day d1 and leave at t2 on day d2 add `(t2 - t0)/1000` to the total. The first stretch goes to day d1 and the second to day d2 (all of it to that day when d1 = d2). Other days keep their voice time, the message total is unchanged, and the session closes. |
| Events.JoinLeave | src/events.js:29-49 | Join on day d0 then leave on day d1 adds `(t1 - t0)/1000` to the total and to day d1, leaves the other days' voice time unchanged, and closes the session, whether or not the member had an entry. |
| Events.VoiceUpdateConsistent | src/events.js:24-49 | The voice handler keeps the counter invariants. |
| Events.VoiceUpdateTracked | src/events.js:24-31 | Every open session belongs to a user with an entry. |
| Events.StepConsistent | src/events.js:9-53 | Any single message or voice event keeps the invariants. |
| Events.ReplayConsistent | src/events.js:9-53 | Any sequence of events keeps the invariants. |
| Events.ReplayTracked | src/events.js:19-53 | Any sequence of voice events keeps every session tracked. |
| Events.StepMessages | src/events.js:9-16 | One event raises a user's total by one iff it is a non-bot message by that user. |
| Events.ReplayCountsMessages | src/events.js:9-16 | After any sequence of events, a user's total is the old total plus the number of their non-bot messages. |
| Events.MessageCreate | src/events.js:9-16 | A bot author changes nothing. Any other author's message is recorded with `recordMessage`. |
| Events.VoiceTracker.constructor | src/events.js:5 | No session is open at start. |
| Events.VoiceTracker.VoiceStateUpdate | src/events.js:19-53 | The new store and sessions are `VoiceUpdate` of the old ones, and the key order grows by the member if they were new. |
| Events.EnsureDayAfterEnsureUser | src/events.js:24-26 | `initUserStats` followed by `initUserDateStats` is just `initUserDateStats`. |
| Commands.GetLast7DaysMessagesLocal | src/commands.js:10-19 | The loop returns the seven-day message sum, a missing user or day counting 0. |
| Commands.GetLast7DaysVoiceTimeLocal | src/commands.js:21-30 | The loop returns the seven-day voice sum. |
| Commands.AbsentUserWindow | src/commands.js:14 | A user without an entry has 0 messages and 0 seconds in the window. |
| Commands.TodayOnceInWindow | src/statsManager.js:13-19 | Today occurs exactly once among the seven days. |
| Commands.MessageWindow | src/commands.js:10-19 | A message recorded today adds exactly 1 to its author's window and changes no other window. Voice windows are unchanged. |
| Commands.VoiceWindow | src/commands.js:21-30 | Voice time recorded today adds exactly its seconds to that member's window. Message windows are unchanged. |
| Commands.WindowAtMostTotal | src/commands.js:10-19 | In a consistent store, the window count is between 0 and the user's lifetime total. |
| Commands.ByActivity | src/commands.js:33-36 | The sorted user ids are a permutation of the keys, non-increasing in seven-day count. |
| Commands.Rank | src/commands.js:32-38 | The rank lies in 0..N, and it is 0 iff the user has no entry. |
| Commands.RankPosition | src/commands.js:37 | The rank is one more than the user's position in the sorted order. |
| Commands.RankedAboveSentAtLeast | src/commands.js:32-38 | Anyone ranked above a user has at least their seven-day count. |
| Commands.MoreMessagesBetterRank | src/commands.js:32-38 | A strictly larger seven-day count gives a strictly better rank. |
| Commands.RanksDistinct | src/commands.js:32-38 | Users with entries have distinct ranks in 1..N. |
| Commands.MostActiveRanksFirst | src/commands.js:32-38 | A user strictly ahead of everyone else has rank 1. |
| Commands.ChannelTotalsAt | src/commands.js:40-50 | A channel is in the merged counts iff some day of the window has it. Its count is the sum over the window's days. |
| Commands.ChannelTotalsSum | src/commands.js:40-50 | In a consistent store, the merged channel counts add up to the window's message count. |
| Commands.AddDayChannels | src/commands.js:46-48 | The `for … in` loop adds one day's channel counts into the running counts, and keeps their key order duplicate-free. |
| Commands.ChannelCountsLocal | src/commands.js:41-50 | The loop over the window builds exactly the merged channel counts. |
| Commands.GetTopChannelsLocal | src/commands.js:40-55 | Each channel appears once, with its window total, sorted by count with the largest first. |
| Commands.TakeTop | src/commands.js:122 | `.slice(0, n)` of that ranking gives at most n rows, sorted, each channel once. A channel is left out only when n rows are shown and none of them has fewer messages. |
| Commands.RateLimiter.constructor | src/commands.js:58-59 | No command has been accepted yet. The limit is the configured one. |
| Commands.RateLimiter.Admit | src/commands.js:66-75 | A command less than the limit after the user's last accepted one is rejected, and the timestamp is kept. Otherwise the timestamp becomes `now`. |
| Commands.AdmittedSpaced | src/commands.js:66-75 | Over any sequence of requests, each accepted time of a user is at least the limit after the previous accepted one, the first of them after the time on record. |
| Commands.AdmittedApart | src/commands.js:66-75 | With a limit that is not negative, each accepted time of a user is at least the limit after every earlier accepted time of theirs and after the time on record. |
| Commands.AddUserWindow | src/commands.js:164-169 | The inner loop adds one user's seven-day counts to the running totals. |
| Commands.ServerTotals | src/commands.js:160-170 | The nested loops compute the server's seven-day message and voice totals. |
| Commands.ServerTotalAnyOrder | src/commands.js:160-170 | The server message total is the sum of every user's seven-day count, whatever the key order. |
| Commands.TopUsersAreTop | src/commands.js:155-159 | The top lines number min(n, N). Each is numbered from 1 with its server rank and shows that user's count. Nobody left out sent more than anyone listed. |
| Commands.Round | src/commands.js:87 | `Math.round`: the nearest integer, a half rounded up. |
| Commands.WholeMinutes | src/commands.js:137 | `Math.floor(s / 60)`: the whole minutes in `s`. |
| Commands.ChartAddsUp | src/commands.js:83-85 | The chart's daily message points add up to the seven-day count. |
| Commands.StatsMe | src/commands.js:78-148 | The reply shows: the rank; the seven-day messages; the whole voice minutes, or none ("No Data") when the voice total is not positive; the daily message and voice-minute points; and the top three channels as `TakeTop` describes. |
| Commands.StatsServer | src/commands.js:149-184 | The server reply: "No stats available yet" for an empty store. Otherwise the totals over the sorted ids and the top five. |
| Commands.ServerReplyMeaning | src/commands.js:150-176 | "No stats available yet" iff no user has an entry. Otherwise the total is the sum of every user's seven-day count, and there are min(5, N) lines. |
| Commands.HandleInteraction | src/commands.js:62-185 | Another command is ignored and leaves the limiter unchanged. A `/stats` command within the limit gets "too fast" and leaves the timestamp. Otherwise the timestamp is set: `me` and `server` answer as above, and an unknown subcommand gets no reply. |
| Bot.LoadDailyRows | bot.js:91-101 | The `daily_stats` loop gives `WithDailyRows`, whatever the row order. Existing keys keep their positions, and new users are appended after them. |
| Bot.PutDailyRow | bot.js:92-100 | One row: the user is created with zero totals if absent, and appended to the key order, then the day is set. |
| Bot.LoadUserRows | bot.js:102-110 | The `user_stats` loop gives `WithUserRows`. The totals are overwritten, and a new user gets no days. Existing keys keep their positions, and new users are appended after them. |
| Bot.LoadStatsFromDB | bot.js:89-115 | Nothing is loaded if the first query throws, and only the days if the second throws. Otherwise both kinds of rows are loaded. |
| Bot.LoadedTotals | bot.js:89-110 | After a successful start-up load: a user has an entry iff they have a row; their totals are their `user_stats` row, or 0 without one; their days are exactly their `daily_stats` rows. |
| Bot.FlushThenLoad | bot.js:89-147 | Loading the rows a flush writes into empty tables gives back the store. |
| Bot.OneDayFigures | bot.js:190-209 | In any store, today's figures are today's message count and the whole hours of today's voice time, a missing user or day counting 0. |
| Bot.OneDayWithinWindow | bot.js:190-209 | In a consistent store, today's count lies between 0 and the seven-day count. |
| Bot.WholeHours | bot.js:207 | `Math.floor(s / 3600)`: the whole hours in `s`. |
| Bot.Get7DayVoiceHours | bot.js:210-219 | The whole hours in the seven-day voice sum. |
| Bot.GetTopChannels | bot.js:225-240 | At most three rows, sorted, each channel once with its window total. No channel left out has more messages than a row shown. |
| Bot.HandleInteraction | bot.js:511-600 | No rate limit. `/stats me` creates the caller's entry first, so the rank lies in 1..N; it shows the one-day and seven-day figures and the top three channels. `/stats server` is a placeholder, and the store changes only for `me`. |
| Bot.BotVoiceUpdate | bot.js:482-508 | With no member nothing changes. |
| Bot.BotVoiceAgrees | bot.js:482-508 | When the member already has an entry for today, the handler of `bot.js` equals the one of `src/events.js`. |
| Bot.BotJoinLeaveWithoutEntry | bot.js:489-503 | A member without an entry who joins and leaves records nothing, and their session stays open. |
| Bot.BotLeaveWithoutToday | bot.js:497-503 | A leave without a day entry for today raises the lifetime total only, and the session stays open. |
| Bot.BotLeaveBreaksConsistency | bot.js:497-503 | A concrete consistent store that this leave makes inconsistent. |

## Left out

- Discord wiring: the client, intents, login and command registration (bot.js:437-470, src/commands.js:188-209, src/index.js). Each handler is a method called with the fields it reads.
- Reply formatting: the embed texts, the canvas panel (bot.js:284-434), and the QuickChart URLs (src/commands.js:90-120, bot.js:241-281). `/stats me` returns its figures as values, including the chart points of `src/commands.js`. The `bot.js` chart arrays are not modelled.
- Replies that fail to send, and the fallback reply of `bot.js`, are not modelled; they are only logged.
- The SQLite/Sequelize schema and connection (bot.js:48-84, src/database.js). The tables are maps with upsert, and a write or query failure is a parameter.
- JSON encoding of channel maps: a channel map is stored and read back as it is, and `JSON.parse` errors are not modelled.
- Timers and signals: `setInterval` and the exit handlers. The asynchronous interleaving of a flush with events is concurrency and is not modelled; a flush is one sequential pass.
- Reading the clock: `Date.now()` and `moment` are read once per event. The source reads the clock twice in one handler, which could straddle midnight or a millisecond; that is not modelled.
- Floating point: voice time is an exact real, not a double.
- `config.js`: a `RATE_LIMIT_MS` that does not parse (NaN) is not modelled; the limit is any integer. With a negative limit only the spacing between consecutive accepted commands holds (`Commands.AdmittedSpaced`); spacing from every earlier one (`Commands.AdmittedApart`) needs a limit that is not negative.
- Ids are numbers, not strings, and Discord snowflake text is not modelled.
- Tie order in the user ranking: among equal counts the sort is stable (`Common.SortDescStable`) and follows the key order of the users. Numeric-looking keys that `Object.keys` would order first are not modelled.
- StatsManager.FlushDays: visits a user's days in ascending date order. That is the insertion order of `daily` while days are created for the current day of a clock that never goes back. After a load from the database, `daily` follows the SQL row order, which the flush does not follow.
- Commands.AddDayChannels: the order in which a day's channels are visited is not modelled; any order is allowed. So when several channels tie at the cut-off, which of them make the top three (`Commands.GetTopChannelsLocal`, `Commands.TakeTop`, `Bot.GetTopChannels`) is not determined.
- SQL row order: loading is proved for every order of the rows. The key order of users created by the load follows the order the model visits them in.
- Logging and monitoring (src/logger.js, Sentry).
- Bot.BotVoiceUpdate: the function states only the no-member case in its contract. Its other behaviour is given by the lemmas beside it.

## Findings

| source | as written | input that shows it | evidently intended | confidence | as-written member | corrected member |
|---|---|---|---|---|---|---|
| bot.js:497-503 | The leave branch adds the elapsed time straight into `stats[userId]` and `stats[userId].daily[today]` without creating them. With no entry the first write throws; with no day for today the second write throws after the total was raised. In both cases `voiceTimes.delete` is skipped. | A store `{1: {0, 0, {}}}` with a session of user 1 opened at 0 ms, and a leave at 1000 ms on day 0: the total becomes 1 s while the days add up to 0 s, and the session stays open. A user with no entry who joins and leaves records nothing. | Create the entries first, as `recordVoiceTime` does in `src/events.js`. Join then leave is credited in the total and the day, the session closes, and the invariants hold. | high (not executed) | Bot.BotLeaveBreaksConsistency | Events.JoinLeave |
