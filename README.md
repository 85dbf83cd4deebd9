# CALBOT detection and tracking state, in Dafny

CALBOT is a bot that polls MLB's public statistics API during Seattle
Mariners games. It sends a WhatsApp message when Cal Raleigh hits a home run
("dinger"). This project models the logic that decides what the bot does on
each poll. The feeds it receives, the clock and the messages it sends are
explicit inputs and outputs here. The model covers:

- **Home-run detection and de-duplication** (`src/server.js`). A play is a home
  run if its `result.eventType` is `"home_run"` or its lower-cased description
  mentions "homers" or "home run". It counts only when the batter's id is the
  tracked player's id. Each detected play gets an event id through a
  three-step fallback. The ids already notified are kept in
  `notifiedEventIds`, so each event is reported at most once. The message
  text is built by `formatHrMessage`.
- **Game discovery and the poll cycle** (`src/server.js`). `pollLoop` looks up
  today's game when none is tracked and keeps it once found. Its `catch`
  (src/server.js:296-300) would forget the game, but it cannot be reached
  in practice: `checkAndSendInitialConfirmation` (src/server.js:86-100),
  `findTodayMarinersGamePk` (src/server.js:145-162) and `checkForCalDingers`
  (src/server.js:251-271) each catch their own failures. So the first game
  found is tracked for the life of the process, after it has ended and on
  later days; the model keeps this. `startPolling` arms the interval timer
  only once.
- **The at-bat tracker** (`proposed-fix.js`). Three variables record whether the
  tracked batter is at the plate, in which at-bat, and since when.
  `checkIfCalIsUpToBat` enters, continues or leaves the at-bat, and resets on
  any error.
- **The single poll timer** (`test-polling.js`). The old timer is cleared
  before a new one is armed. The delay is the override if one is given,
  otherwise the time left until `nextPollTime`, otherwise 5000 ms.

Modules: `Base` (optional fields, request outcomes), `Text` (the JavaScript
string operations used), `Feed` (the provider's JSON), `Detection`, `Dedup`,
`Dates`, `Server`, `AtBat` and `PollingTest`.

Modelling conventions:

- A JavaScript optional chain such as `play?.matchup?.batter?.id` is one
  optional field. JSON `null` and a missing field are the same `None`.
- JavaScript truthiness is written out where the code relies on it:
  - a gamePk of 0 is falsy;
  - an id of 0 or `""` is falsy;
  - a start time of 0 never times out;
  - an exit velocity or launch angle of 0 or NaN is dropped from the message,
    while a distance of 0 is still shown, through the `toString` fallback.
- Hit metrics are JSON numbers that may have decimals. They are held as the
  text `String(x)` prints for them.
- Provider requests are inputs, as functions from the request key to the
  outcome: `schedules` maps a date string to a schedule, `feeds` maps a
  gamePk to a live feed. A failed request is `FetchFailed`, which is the
  exception the code catches.
- Sending a message means appending it to the bot's `outbox`, together with
  the event id it was sent for.

Behaviour of the code that the model keeps as it is:

- The ten-minute at-bat timeout is checked only once the tracked player is
  no longer the current batter. A feed stuck on his at-bat keeps the
  tracker up indefinitely (`AtBat.StuckAtBatNeverTimesOut`).
- The at-bat index is copied from `currentPlay.about.atBatIndex` even when
  that is absent. So the invariant the code keeps is: the start time is set
  exactly while up, and the index is absent while not up
  (`AtBat.Consistent`).
- The code has no watchdog timer, fetch cache, request timeout, multi-day
  look-ahead, phase-based polling tiers or invalidation of finished games.

Where each function of the code is modelled (the lemmas in the table below
state what these definitions do):

- `isHomeRunPlay`, `batterIsCal`: `Detection.IsHomeRunPlay`, `Detection.BatterIsCal`.
- event id (src/server.js:259): `Detection.EventId`, with `Detection.AtBatIndexText`.
- `formatHrMessage`: `Detection.FormatHrMessage`, over `Detection.HrBits`.
- the loop of `checkForCalDingers`: `Dedup.Scan` and `Dedup.ScanStep`; `Server.DingerCheck` for the whole call; the method `Server.DingerBot.CheckForCalDingers`.
- `findTodayMarinersGamePk`: `Server.DiscoverGamePk`; the method `Server.FindTodayMarinersGamePk`.
- `pollLoop`: `Server.PollCycle` with `Server.TrackedGame`; the method `Server.DingerBot.PollLoop`.
- `getTodayDateString`: as written, `Dates.TodayDateStringAsWritten`; corrected, `Dates.TodayDateString`.
- `checkIfCalIsUpToBat`: `AtBat.CheckUp`; the method `AtBat.AtBatTracker.CheckIfCalIsUpToBat`.
- `scheduleNextPoll`, `testPolling`: `PollingTest.ChooseDelay`; the methods of `PollingTest.PollTest`.

## Model

| member | source | states |
|---|---|---|
| `Text.Contains` | src/server.js:131 | `includes` is true exactly when the text occurs at some position |
| `Detection.IsHomeRunPlay` | src/server.js:124-133 | a play with no result is never a home run; with a result, it is one exactly when the event type is "home_run" or the lower-cased description contains "homers" or "home run" |
| `Detection.BatterIsCal` | src/server.js:135-138 | a missing, empty or zero batter id never matches; otherwise the play matches exactly when the id's text equals the player id |
| `Detection.EventId` | src/server.js:259 | the id is the first play event's id if non-empty, else the play GUID if non-empty, else the text of the at-bat index, `Detection.AtBatIndexText` ("undefined" when absent); it is never empty, so every detected play's id is recorded |
| `Detection.HrBitsShape` | src/server.js:233-241 | the parts `Detection.HrBits` keeps are the headline, then the present optional bits in order, then the season tally; there are 2 + (number of present bits) parts |
| `Detection.HrMessageFrame` | src/server.js:220-243 | the message `Detection.FormatHrMessage` builds starts with the headline carrying the description (or "Home run!") and ends with "Season HR #(fetched count + 1)" |
| `Detection.BareHrMessage` | src/server.js:233-242 | with the inning absent or 0, no RBI count, exit velocity and launch angle absent, 0 or NaN, and no distance, the message is exactly headline, " • ", season tally |
| `Detection.ZeroDistanceShown` | src/server.js:223-239 | a recorded distance of 0 is still shown as "0 ft", while an exit velocity of 0 is dropped |
| `Dedup.ScanRecordsSent` | src/server.js:256-268 | after a scan (`Dedup.Scan`, one `Dedup.ScanStep` per play) the notified set is the old set plus exactly the ids of the messages sent; it only grows |
| `Dedup.ScanSendsFreshIds` | src/server.js:259-267 | a scan never sends two messages for one id, nor one for an id notified before it |
| `Dedup.ScanCoversQualifying` | src/server.js:256-268 | after a scan, the id of every home run by the tracked batter in the feed is in the notified set |
| `Dedup.ScanCoveredIsNoop` | src/server.js:260 | when every qualifying play's id is already notified, the scan sends nothing and changes nothing |
| `Dedup.RescanSendsNothing` | src/server.js:256-268 | scanning the same feed again sends nothing and leaves the notified set unchanged |
| `Dedup.NothingQualifiesNothingSent` | src/server.js:257-258 | plays that are not home runs or not by the tracked batter send nothing and leave the notified set unchanged |
| `Dedup.ScanSendsOnlyQualifying` | src/server.js:256-266 | every message sent is the notice (event id and formatted text) of a qualifying play of the feed |
| `Dedup.DuplicatePlayOneMessage` | src/server.js:259-267 | two different qualifying plays with the same fresh id in one feed produce one message, the first play's notice, and record the id once |
| `Dedup.ScanKeepsAtMostOnce` | src/server.js:120-121 | appending a scan's messages to a log in which each id occurs at most once, and is notified, keeps both properties |
| `Feed.FetchLiveFeed` | src/server.js:165-172 | a falsy gamePk fails the request; a truthy gamePk gets the provider's answer for it; a successful request was made for the given gamePk |
| `Dates.TodayDateString` | src/server.js:103-110 | the date string (all fields in UTC) reads back as today's UTC date |
| `Dates.IsoDateRoundTrip` | src/server.js:106-109 | a valid date is written as ten characters "YYYY-MM-DD", with zero-padded month and day, that parse back to the same date |
| `Dates.AsWrittenAgreesWithinYear` | src/server.js:106-109 | when the local and UTC years agree, the string as written is the UTC date |
| `Dates.AsWrittenWrongAcrossYears` | src/server.js:106-109 | when the local and UTC years differ, the string as written (`Dates.TodayDateStringAsWritten`) is not the UTC date |
| `Dates.NewYearsEveCounterexample` | src/server.js:103-110 | on a host at UTC-8 at 20:00 on 31 December 2025, the string as written reads 1 January 2025, which is not the UTC date |
| `Server.FirstGameIsFirst` | src/server.js:149-158 | discovery finds nothing exactly when no date has a game; otherwise it finds the first game of the first date that has one |
| `Server.FindTodayMarinersGamePk` | src/server.js:140-163 | returns `Server.DiscoverGamePk`, that is the gamePk of the first game of the first date with games in the schedule asked for today's date, and nothing when the request fails or lists no game |
| `Server.UntrackedCycleDiscovers` | src/server.js:284-292 | with no game tracked, the cycle tracks what discovery returns, and runs no dinger check when that is no game |
| `Server.TrackedGameKept` | src/server.js:284-295 | a tracked gamePk is kept, and the cycle depends neither on the schedule nor on the clock, so the first game found stays tracked after it ends and on every later day |
| `Server.ErrorForgetsGame` | src/server.js:296-300 | an error caught by the loop resets the tracked game to none and sends nothing; the next cycle rediscovers. Every call inside the loop catches its own failures, so this path is not reached in practice |
| `Server.CycleKeepsAtMostOnce` | src/server.js:277-301 | every cycle (`Server.PollCycle`: `Server.TrackedGame`, then `Server.DingerCheck` when the game is truthy) keeps each event id notified at most once across the whole run, and the notified set only grows |
| `Server.OverlappingCyclesNotifyTwice` | src/server.js:256-267 | two cycles that both test the notified set before either adds to it each send the same new home run, so its id is sent twice |
| `Server.RepeatedCycleSendsNothing` | src/server.js:294-295 | a second cycle over an unchanged feed of the same game sends nothing |
| `Server.DingerBot.constructor` | src/server.js:274-275 | the bot starts with no notified ids, no messages, no game and no timer |
| `Server.DingerBot.CheckForCalDingers` | src/server.js:245-272 | the loop's new notified set and sent messages are those of one scan of the feed's plays (none when the gamePk is falsy or the request fails); each id stays notified at most once |
| `Server.DingerBot.PollLoop` | src/server.js:277-301 | the tracked game, notified set and messages after the call are those of one poll cycle from the state before it |
| `Server.DingerBot.StartPolling` | src/server.js:303-308 | a second start changes nothing; a first start arms the interval timer with the configured period and runs one cycle |
| `AtBat.FindAtBat` | proposed-fix.js:38-42 | the found play is the first play of the feed by the tracked batter with the remembered index, as `find` returns it; when none is found, no play matches both |
| `AtBat.CheckKeepsConsistent` | proposed-fix.js:4-79 | every path of `AtBat.CheckUp` keeps "up exactly when a start time is set, and no index while not up" |
| `AtBat.CalUpIffCurrentBatter` | proposed-fix.js:20-33 | the function returns true exactly when the feed was read and the tracked player is the current batter |
| `AtBat.EnterOrContinue` | proposed-fix.js:20-32 | when not up or at another index, the tracker becomes up at the current index and time; the same at-bat continuing changes nothing |
| `AtBat.ExitIffResultOrTimeout` | proposed-fix.js:36-62 | while up and not the current batter, the tracker resets exactly when the remembered at-bat has an event type or more than 600000 ms have passed, and is otherwise unchanged |
| `AtBat.ResultSentOnlyOnResultExit` | proposed-fix.js:36-60 | the at-bat result is sent exactly when the tracker is up, the player is no longer the current batter, the remembered at-bat has a result and the timeout has not passed; a send always resets the tracker |
| `AtBat.ErrorResets` | proposed-fix.js:65-77 | a failed request leaves the tracker not up, and the function returns false |
| `AtBat.NoLiveDataNoChange` | proposed-fix.js:11-13 | a feed without liveData returns false and changes nothing, not even by timeout |
| `AtBat.IntervalUpdatedIffChanged` | proposed-fix.js:21-75 | the poll interval is recomputed exactly when the tracker changes |
| `AtBat.TimeoutEndsAtBat` | proposed-fix.js:44-54 | more than ten minutes after a non-zero start, the next check that sees another batter resets the tracker |
| `AtBat.StuckAtBatNeverTimesOut` | proposed-fix.js:20-33 | while the feed still shows the tracked batter in the same at-bat, the tracker stays up whatever the time |
| `AtBat.GroundoutExample` | proposed-fix.js:89-93 | at-bat 45 gets "groundout" while at-bat 46 is current: the tracker resets and sends the result once; the next check sends nothing |
| `AtBat.AtBatTracker.constructor` | proposed-fix.js:4-6 | the tracker starts not up, with no index and no start time |
| `AtBat.AtBatTracker.CheckIfCalIsUpToBat` | proposed-fix.js:8-79 | the new variables, the result, the interval recomputations and the result requests are those of one check from the old state |
| `PollingTest.ChooseDelay` | test-polling.js:12-19 | an override (0 included) is used as is; otherwise the delay is never negative: the time left until nextPollTime, or 0 when overdue, or 5000 without a poll time |
| `PollingTest.OverduePollIsImmediate` | test-polling.js:15-16 | a poll time already past gives delay 0 |
| `PollingTest.ScenarioDelayIsArmed` | test-polling.js:43-47 | with no time elapsed, the armed delay equals the chosen scenario's delay |
| `PollingTest.ElapsedShortensDelay` | test-polling.js:16-47 | time passing between setting the poll time (44) and arming the timer (16) is taken off the scenario's delay, never below 0 |
| `PollingTest.ScenarioTiers` | test-polling.js:34-38 | batting (1000) < game in progress (10000) < pre-game (300000) |
| `PollingTest.PollTest.constructor` | test-polling.js:2-3 | no poll time and no timer at the start |
| `PollingTest.PollTest.ScheduleNextPoll` | test-polling.js:5-27 | any previous timer is cleared, and exactly one new timer is armed, with the chosen delay |
| `PollingTest.PollTest.TestPolling` | test-polling.js:29-48 | nextPollTime becomes the first clock reading plus the scenario's delay, and exactly one timer is armed, with the delay left at the second reading |
| `PollingTest.PollTest.Fire` | test-polling.js:22-26 | the fired timer is gone and exactly one new timer, with the next handle, is armed by the simulated poll, with the delay left at the poll's second clock reading |
| `PollingTest.PollTest.Start` | test-polling.js:56 | the test starts with one timer, with the next handle, armed for 1000 ms; the poll time is unchanged |
| `PollingTest.PollTest.Stop` | test-polling.js:59-62 | stopping leaves no timer armed and arms none, while `pollTimer` keeps its stale handle |

## Left out

- Sending: the WhatsApp client, QR handling, recipients and per-recipient failures are not modelled. `outbox` holds the messages handed to `sendWhatsApp`. That function drops a message silently when the client is not ready or no recipient is configured (src/server.js:197-204), and the id is recorded all the same (267), so such a home run is never delivered.
- `checkAndSendInitialConfirmation` and the `whatsappReady` flag are not modelled, because they depend on the WhatsApp client. In `pollLoop` they only send the start-up message.
- HTTP endpoints, `app.listen`, start-up logging and environment configuration are not modelled. The player id and the poll interval are constructor parameters.
- Network calls (`fetchJson`, `fetchLiveFeed`'s request, `fetchCalSeasonStats`) are inputs. Request timeouts and HTTP details are not modelled.
- Server.DingerBot.CheckForCalDingers: the season home-run count is one value per scan. The source fetches it again before each message.
- `updatePollInterval` and `sendCalAtBatResult` are not part of this model. proposed-fix.js is a patch meant to be merged into src/server.js, and neither file shown defines them; they are taken to return normally. Each call is recorded: a counter of interval updates, and the list of gamePks whose result was requested.
- Detection.IsHomeRunPlay: only ASCII letters are lower-cased. JavaScript's `toLowerCase` also maps other Unicode letters.
- `String(n)` is modelled for integers only. Exponent notation (from 10^21) and fractional numbers are not modelled; hit metrics are kept as their printed text.
- JSON `null` and a missing field are one `None`. They differ in three places. The at-bat index comparisons in proposed-fix.js:21 and :41 use `===`. `String(currentBatter.id)` and `String(play?.matchup?.batter?.id)` at proposed-fix.js:20 and :40 print a null id as "null" and a missing one as "undefined"; `AtBat.BatterIdText` and `AtBat.PlayBatterText` give "undefined" for both. The last event-id fallback at src/server.js:259 prints a null index as "null" and a missing one as "undefined"; `Detection.AtBatIndexText` gives "undefined" for both.
- Server.DingerBot.PollLoop: an exception reaching the loop's own `catch` is an input flag, taken as raised before the dinger scan. Every call inside the loop catches its own errors, so the flag stands for an error the code does not raise in practice (a `throw null`, say, whose handler then fails on `error.message`); with it false, which is the case in practice, a tracked game is never dropped.
- Server.CycleKeepsAtMostOnce: overlapping poll cycles are not modelled. `setInterval` starts `pollLoop` every interval whether or not the previous cycle has finished, and two runs of `checkAndSendInitialConfirmation` or `checkForCalDingers` can then interleave at each `await`. At-most-once is proved only for cycles that finish before the next starts; `Server.OverlappingCyclesNotifyTwice` shows that it fails otherwise.
- Server.FindTodayMarinersGamePk: the schedule is asked for the all-UTC date (`Dates.TodayDateString`), not the mixed local-year, UTC-month-and-day string the code builds at src/server.js:106-109. The mixed string is modelled as `Dates.TodayDateStringAsWritten` (see Findings).
- Start-up: src/server.js:17-20 log `CAL_RALEIGH_PLAYER_ID`, `MARINERS_TEAM_ID`, `CURRENT_SEASON` and `POLL_INTERVAL_MS` before their `const` declarations at 24-29. That throws a `ReferenceError` (temporal dead zone) when the module loads, so the file as written never reaches `startPolling`. The model starts from the state the code would have after its declarations ran.
- Timers: the repeated firing of `setInterval` is not modelled; `PollLoop` may simply be called again. The clamping Node applies to `setTimeout` delays (below 1 ms or above 2^31 - 1 ms) is not modelled. Log output, including the rounded delay, is not modelled.
- The conversion from the host clock to local and UTC calendar dates is an input (`Dates.Clock`).
- Wager and projection code (`test-wager.js`, `test-improved-wager.js`, `test-games-based.js`) is not modelled: it is floating-point arithmetic, `Math.random` and `Date` arithmetic.
- The console demos (`test-dual-config.js`, `test-group-chat.js`, `test-mobile-format.js`, `test-score-included.js`, `test-enhanced-dinger.js`, `test-notifications-disabled.js`, `test-mlb-api.js`) are not modelled: they print fixed strings or call the network.

## Findings

| source | as written | input that shows it | evidently intended | confidence | as-written member | corrected member |
|---|---|---|---|---|---|---|
| src/server.js:106-109 | the year comes from `getFullYear()` (local time); the month and day come from `getUTCMonth()` and `getUTCDate()` | a host eight hours behind UTC at 20:00 on 31 December 2025 (1 January 2026 in UTC) gets "2025-01-01", neither the local nor the UTC date, and asks for the schedule of a day a year back | all three fields from one time zone; the model uses UTC, giving "2026-01-01" | medium, not executed | `Dates.NewYearsEveCounterexample` | `Dates.TodayDateString` |
| src/server.js:256-267, 303-305 | `setInterval(pollLoop, POLL_INTERVAL_MS)` starts a cycle every interval even while the previous one is still awaiting; `notifiedEventIds.has` (260) and `add` (267) are separated by two `await`s (262, 266) | a cycle that sees a new home run and takes longer than the interval to fetch the season stats and send: the next cycle tests the set before the id is added, and sends the same home run again | cycles that do not overlap (skip a tick while a cycle runs, or add the id before the first `await`), so that each id is notified once | medium, not executed | `Server.OverlappingCyclesNotifyTwice` | `Server.CycleKeepsAtMostOnce` |
