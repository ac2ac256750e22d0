# MetaWorlds web app: a verified model of its core

MetaWorlds is a Telegram mini-app. Each player owns a magical "world" with
energy, income, chaos and daily missions. The players fight ranked battles
against each other or against roster bots. This project models four parts of
it in Dafny and proves what each part promises.

- **The matchmaking long-poll queue of `api.js`.** A `GET /api/matchmaking`
  request either pairs the requester at once with the oldest waiting player,
  or parks the request in the insertion-ordered `waitingPlayers` map until one
  of three things happens: a partner arrives, the request's timer fires (it
  then gets a random opponent), or the connection closes. The queue is the
  class `Matchmaking.Matchmaker`. A response handle is `Matchmaking.Response`,
  which records what was sent and whether it has ended. A parked request is
  `Matchmaking.Entry`, whose `armed` flag stands for its pending
  `setTimeout`. A request, a timer firing and a connection closing are each a
  single JavaScript callback, so each is one method. The opponent builders live
  in `Opponents`.
- **The server's bookkeeping (`index.js`, and its copy in `api.js`).** This
  covers the ranking ledger, the capped event log, world records, the daily
  missions, and the coin accrual and daily refresh of `GET /api/world`. Here
  `db` is the class `Ledger.Db`. A JavaScript object such as `db.worlds` is a
  map together with the order in which its keys were inserted. The
  leaderboard (`Ratings`) and the missions (`Missions`) are pure definitions.
- **The client's world-state rules (`main.js`).** These are: choosing an
  archetype, gaining experience, completing a mission, using a boost, the
  regeneration tick, the battle outcome and the daily missions. Every rule
  updates the one `worldState` object in place, so the state is the class
  `Client.WorldState` and each rule is a method on it.
- **The asset minifiers (`scripts/build-assets.js`).** `minifyJs` is a loop
  over five scanner flags. It is modelled as a method with that loop, proved
  equal to a step function (`MinifyJs.Run`); lemmas then say what the scanner
  does to strings, comments, whitespace and plain text. `minifyCss`, a chain of
  regular-expression replacements, is a chain of functions (`MinifyCss`).

Some inputs stand in for things the model cannot see:
- `Math.random()` becomes a `roll` parameter in [0, 1).
- `Date.now()` becomes `now` and the day key becomes `today`.
- A match id is passed in.
- JavaScript's `x || d` default treats both a missing field and `0` or `""` as
  falsy. The model writes it `OrInt`/`OrStr`.
- The floating-point multipliers are exact rationals floored with integer
  division, e.g. `Math.floor(n * 1.35)` is `(n * 135) / 100`.

The regen of an opponent built from a saved world is its maximum energy divided
by 80 (api.js:234). The default snapshot of a player who never saved a world
divides 800 by 90 instead (api.js:271), so its regen is 9. The model keeps both
divisors as the code has them.

## Model

| member | source | states |
|---|---|---|
| Matchmaking.Response.SendJson | api.js:329-336 | a response is written only while it has not ended; afterwards it has ended and holds exactly that one delivery |
| Matchmaking.RespondMatch | api.js:291-302 | an ended response is left alone; otherwise it receives the opponent with `matched`, eta 1 for a match and 2..4 for a fallback |
| Matchmaking.Eta | api.js:295 | the eta is 1 for a real match and between 2 and 4 otherwise |
| Matchmaking.PartnerIsOldest | api.js:277-289 | with distinct keys, a user who is not waiting gets a partner exactly when the queue is non-empty, and it is the oldest entry; a waiting user gets one exactly when another entry exists |
| Matchmaking.WithoutFacts | api.js:282 | deleting one key keeps the keys distinct and removes exactly that entry |
| Matchmaking.Matchmaker.constructor | api.js:122 | the queue starts empty with no timers |
| Matchmaking.Matchmaker.DequeueOpponent | api.js:277-289 | returns the first entry whose key is not `exclude`, removed from the queue with its timer cleared and the other entries kept in order; returns null with the queue unchanged exactly when no such entry exists |
| Matchmaking.Matchmaker.RemoveAt | api.js:282-285 | removing an entry and clearing its timer keeps the queue invariant: distinct keys and responses, armed exactly while waiting, waiting responses not yet ended |
| Matchmaking.Matchmaker.Request | api.js:434-469 | missing id: 400; already waiting: 409; both leave the queue, the database, every entry's timer and every response untouched. Otherwise the world is ensured exactly as `ensureWorld` does (a first-time user gets a new stateless record as the newest key, so the snapshot is the default pilot), nothing else in the database changes, and the requester's snapshot is built; with someone waiting, both sides get the other's snapshot with matched true and eta 1 and the requester is never enqueued; with nobody waiting, the requester becomes the newest entry with its timer armed. A queue of at most one entry stays so |
| Matchmaking.Matchmaker.Admit | api.js:445-460 | the world is ensured exactly as `ensureWorld` does and nothing else in the database changes; the snapshot is built from that world and the ranking; then the requester is paired or parked |
| Matchmaking.Matchmaker.Seat | api.js:446-460 | the requester pairs with the oldest entry, which leaves the queue disarmed, or is parked when the queue was empty |
| Matchmaking.Matchmaker.Pair | api.js:447-450 | both responses get the other side's snapshot with matched true and eta 1 |
| Matchmaking.Matchmaker.Park | api.js:453-462 | the requester is appended as the newest entry, its timer armed, the queue invariant kept |
| Matchmaking.Matchmaker.Unpark | api.js:463-466 | a pending timer finds its entry under its user's key, and that entry alone is removed, disarmed |
| Matchmaking.Matchmaker.TimeoutFire | api.js:462-469 | the firing entry leaves the queue and its response gets a random opponent with matched false and eta 2..4 |
| Matchmaking.Matchmaker.Close | api.js:471-479 | the entry under `userId` is removed and disarmed only if it holds this very response; otherwise the queue is unchanged; timers of entries with other responses are untouched |
| Opponents.OpponentFromWorld | api.js:216-238 | nothing exactly for a world never saved; otherwise the owner's id, not a bot, regen at least 5, power at least 20, the ranking's rating or 1200 |
| Opponents.PlayerSnapshot | api.js:252-275 | never a bot, regen at least 5, power at least 20; for a saved world the same as the opponent built from it; otherwise "PILOT-" and the id's last four characters upper-cased, level 1, energy 900, regen 9, power 24 |
| Opponents.Candidates | api.js:241 | exactly the other users' worlds that have a state |
| Opponents.PickRandomOpponent | api.js:240-250 | a bot exactly when no other user has a state, and then a roster entry marked as a bot; otherwise the snapshot built from one candidate's saved world with that user's ranking, so never the requester; regen at least 5 and power at least 20 |
| Opponents.LastFour | api.js:259 | `slice(-4)`: the last four characters, or the whole of a shorter id |
| Opponents.Upper | api.js:259 | each of `a`..`z` becomes its capital, every other character stays, and the length is kept |
| Ratings.Standings | index.js:131-132 | one row per ranked user, in key order, each carrying the stored rating or 1200 for a zero one |
| Ratings.InsertFacts | index.js:133 | inserting into a sorted leaderboard keeps it sorted and adds exactly that entry |
| Ratings.SortFacts | index.js:131-133 | the leaderboard is sorted by descending rating and is a permutation of the rows |
| Ratings.RankingPosition | index.js:134-139 | the 1-based index of the first row of the user, or one past the end when there is none |
| Ratings.LeaderboardFacts | index.js:130-140 | the leaderboard is sorted, has one row per ranked user, and contains the user exactly when the user is ranked |
| Ratings.BattleRating | index.js:153-154 | a win adds exactly 25 and a loss subtracts exactly 15, the result floored at 500 |
| Missions.GenerateDailyMissions | index.js:94-113 | exactly three missions, the i-th from template i mod 4 with its title and description, none done |
| Missions.DailyMissionsOk | index.js:98-101 | at level 0 or above no reward or cost is negative |
| Missions.RewardsGrowWithLevel | index.js:98-100 | rewards are at least the template's base and grow with the level |
| Missions.DailyIdsDistinct | index.js:103 | the mission ids of one day are pairwise distinct, on the server and on the client |
| Missions.DoneCount | main.js:469-471 | the done count never exceeds the number of missions |
| Missions.FindMission | main.js:455 | the index of the first mission with the id, or none when no mission has it |
| Missions.NoneDone | main.js:120 | a fresh list has no mission done |
| Missions.MarkDoneCount | main.js:467-471 | marking an undone mission done raises the done count by exactly one |
| Ledger.KeyOrderSize | index.js:131 | a key order lists as many keys as the object has |
| Ledger.Db.constructor | index.js:58-66 | the empty database: no events, worlds or rankings, the event counter at 0 |
| Ledger.Db.EnsureWorld | index.js:116-128 | an existing record is returned and nothing changes; otherwise a record with no state, no missions and no daily worlds is added as the newest key |
| Ledger.Db.UpdateRankingFromBattle | index.js:142-162 | a first battle starts from 1200, 0 wins, 0 losses; the rating is updated by `BattleRating`, exactly one of wins and losses grows by one, and every other user's ranking is unchanged |
| Ledger.Db.UpdateRankingPosition | index.js:130-140 | a position in 1..n+1, n+1 exactly for an unranked user; a ranked user's row is at that position and everyone ahead is rated at least as high |
| Ledger.Db.RecordEvent | index.js:164-176 | the counter grows by one, an event with that id is appended as the newest, the log keeps its last 5000 events, and ids keep increasing along the log |
| Ledger.Db.GetWorld | index.js:234-284 | missing id: rejected with nothing changed; unknown user: a new record and no state, its id added as the newest key (a known user leaves the key order as it was); a saved world: accrued, refreshed, stored and returned with its ranking; other users' records are untouched |
| Ledger.Db.UpdateWorld | index.js:250-267 | the known user's record is replaced and no other record changes |
| Ledger.Db.SaveWorld | index.js:286-302 | missing id or state: 400 with nothing changed; otherwise 200, the record (created on first sight) holds the saved state, the save time, the state's missions and travel count, and the state's date key, else the record's, else today's; other records untouched |
| Ledger.Db.ReportEvent | index.js:309-327 | missing id, type or state: 400 with nothing changed; otherwise 200 and the event is logged as `RecordEvent` does; only a finished battle touches the rankings, exactly as `UpdateRankingFromBattle` does |
| Ledger.Db.ServeSaved | index.js:245-277 | the saved world is updated as `Served` says and the reply carries the stored state, the gain and the ranking |
| Ledger.Accrue | index.js:245-267 | coins grow by the non-negative gain; `lastUpdate` moves to now only on a positive gain; missions are regenerated, the quest and travel counters reset, exactly when the date changed or the list is empty; the state mirrors the record's missions, date and daily worlds; nothing else changes |
| Ledger.Db.ApiGetWorld | api.js:338-384 | the same contract under the api.js rules, key order included |
| Ledger.Db.ApiServeSaved | api.js:349-377 | the saved world is updated as `ApiServed` says, and the reply carries the stored state, the gain and the ranking |
| Ledger.ApiAccrue | api.js:349-367 | coins grow by the gain clamped at zero; missions are regenerated exactly when the date changed; the quest counters stay as they were |
| Ledger.AccrualGain | index.js:245-249 | the gain is never negative for non-negative income, and is 0 when no time has passed |
| Ledger.ApiAccrualGain | api.js:349-352 | the gain is never negative |
| Ledger.AccrualRulesAgree | index.js:245-249 | for non-negative income the index.js and api.js accrual rules give the same gain |
| Ledger.AccrualMonotone | index.js:245-249 | waiting longer never accrues less; a record without a last update accrues nothing at either time |
| Ledger.WorldValues | api.js:241 | `Object.values(db.worlds)`: the records in key order |
| Client.WorldState.constructor | main.js:10-49 | the starting state: "Magotech Grad", level 7, 1200 of 2000 xp, 860 of 1000 energy, income 4320, chaos 62 and order 38, 493232 coins, 3 travel worlds, no missions, no date, no archetype, and the two unused boosts b1 (energy, 2000 coins) and b2 (profit, 3500 coins) |
| Client.WorldState.ApplyArchetype | main.js:247-271 | the archetype is recorded; tech, harmony and chaos set full energy, income, chaos and order to their figures; any other name changes nothing else |
| Client.SettleFacts | main.js:435-443 | after levelling, xp is below the next threshold, the level has not fallen, the maximum energy grew by 40 per level gained, and xp and income stay non-negative |
| Client.WorldState.GainXp | main.js:430-443 | the loop ends with xp below the threshold, in the state the level-up recursion `Settle` defines |
| Client.WorldState.CompleteMission | main.js:454-474 | a missing or done mission, or too little energy, changes nothing; otherwise energy pays the cost, coins and xp are rewarded, the mission alone is marked done, the done count grows by one, chaos drops by 2 and order is 100 - chaos; name, archetype, boosts, date and travel count never change |
| Client.WorldState.Accomplish | main.js:464-474 | the successful part of completing a mission |
| Client.WorldState.MarkDone | main.js:467-474 | the mission is marked done, the done count grows by one, chaos drops by 2 |
| Client.WorldState.UseBoost | main.js:522-545 | a missing or used boost, or too few coins, changes nothing; otherwise the cost is paid and the boost marked used; the energy boost adds a quarter of the maximum, capped at the maximum; the profit boost raises income by a fifth, floored; experience, level, chaos, order, missions, date and the other fields never change |
| Client.WorldState.RegenTick | main.js:631-640 | energy grows by 5, never past the maximum, and never shrinks |
| Client.WorldState.Battle | main.js:570-617 | refused below 40 energy with nothing changed; otherwise the hp values differ, the win goes to the higher hp, and coins, energy, chaos and xp change by the win or loss figures with order = 100 - chaos; name, archetype, missions, boosts, date and travel count never change |
| Client.BattleHp | main.js:594-595 | an hp roll lies between 31 and 100 |
| Client.WorldState.GenerateDailyMissions | main.js:94-123 | nothing on a day that has missions; otherwise the day's three client missions, none done, counters 0 and 3 |
| Client.ClientMissionList | main.js:106-121 | the loop builds exactly the three client missions of the day, none done, none with a negative figure |
| Client.FindBoost | main.js:523 | the index of the first boost with the id, or none |
| MinifyJs.Minify | scripts/build-assets.js:9-92 | the loop over the flags computes exactly the scanner `MinifiedJs`, and the output is never longer than the input |
| MinifyJs.RunLength | scripts/build-assets.js:18-89 | from any state the scanner writes at most one character per input character |
| MinifyJs.MinifiedJsShorter | scripts/build-assets.js:9-92 | the minified code is never longer than the input |
| MinifyJs.InsideString | scripts/build-assets.js:40-53 | inside a string the scanner copies through the closing quote, escapes included |
| MinifyJs.CopiesStringLiteral | scripts/build-assets.js:40-62 | a terminated string literal is copied verbatim and leaves `lastNonSpace` as it was |
| MinifyJs.DropsLineComment | scripts/build-assets.js:22-31 | a `//` comment is dropped through its newline, which is kept unless the output already ends with one |
| MinifyJs.DropsFinalLineComment | scripts/build-assets.js:22-31 | a `//` comment on the last line drops the rest of the input |
| MinifyJs.DropsBlockComment | scripts/build-assets.js:32-38 | a block comment is dropped, delimiters included, up to the first closer after its opener |
| MinifyJs.DropsUnterminatedBlockComment | scripts/build-assets.js:32-38 | an unterminated block comment drops the rest of the input |
| MinifyJs.SqueezesWhitespace | scripts/build-assets.js:76-82 | a whitespace run outside strings and comments becomes at most one space, only between a word-like character and a joining one, and never a second space in a row |
| MinifyJs.KeepsPlainRun | scripts/build-assets.js:85-88 | a run of plain characters anywhere in code is copied to the output in its original order, and the scan goes on after it with the run's last character as the last non-space one |
| MinifyJs.KeepsPlainText | scripts/build-assets.js:85-88 | a plain rest of the input is appended to the output unchanged |
| MinifyJs.PlainTextUnchanged | scripts/build-assets.js:85-88 | text of plain characters alone is left unchanged |
| MinifyCss.StripsLeadingComment | scripts/build-assets.js:96 | a leading `/*...*/` comment is removed with its delimiters, whatever its body holds short of a closer (stars included) |
| MinifyCss.StripCanLeaveComment | scripts/build-assets.js:96 | one pass of the lazy comment pattern can leave a whole comment in its output: `//* c */* x */` becomes `/* x */` |
| MinifyCss.StripShorter | scripts/build-assets.js:96 | stripping comments never lengthens the text |
| MinifyCss.CollapseFacts | scripts/build-assets.js:97 | collapsing leaves no two whitespace characters in a row and never lengthens the text |
| MinifyCss.TightenFacts | scripts/build-assets.js:98 | no whitespace remains next to `{}:;,>`, and no double whitespace appears |
| MinifyCss.DropSemicolonsFacts | scripts/build-assets.js:99 | replacing `;}` keeps both shapes and never lengthens the text |
| MinifyCss.TrimFacts | scripts/build-assets.js:100 | trimming leaves no whitespace at either end and keeps both shapes |
| MinifyCss.MinifiedShape | scripts/build-assets.js:94-101 | the minified CSS has no whitespace at its ends, no two whitespace characters in a row, none next to `{}:;,>`, and is never longer than the input |

## Left out

- Persistence: `loadDb`, `saveDb` and `persistDb` are file I/O. The database is an in-memory object; a database read back from a file is not modelled, only the empty one.
- HTTP plumbing: request parsing, routing, static files and the server itself. `sendJson` is modelled as recording the status and payload on the response and ending it.
- Request bodies are not parsed: `SaveWorld` and `ReportEvent` take the decoded fields, and the event payload is its JSON text. The `reason` echoed by a save and the 500 replies of a failed parse are left out.
- Ledger.Db.SaveWorld: a saved state always carries its missions and travel count, so the fallbacks to the record's values for a missing field are not modelled; nor is the record's own `profitHour` copy, which no modelled rule reads.
- The client's rendering, screens, haptics, alerts, Telegram cloud storage, local storage and the debounced state push are browser glue. They are left out, together with the bot process under `bot/`.
- Clocks, randomness and the match id: all are parameters. The timer's delay (`matchWaitTimeout` plus up to 2000 ms of jitter) is not modelled; the firing is the `TimeoutFire` event, which may happen at any point after parking.
- The `options` overrides of `createApiHandlers` (timeout, mission templates, fallback roster) are not modelled; the defaults are fixed.
- Floating point: the multipliers are exact rationals floored with integer division. No claim is made about bit-equality with JavaScript doubles near rounding boundaries.
- Object key order: JavaScript enumerates integer-like keys first but the model enumerates in insertion order. This affects only ties on the leaderboard and the index a random pick lands on.
- Ratings.SortFacts: stability of `.sort` is not stated. The model's insertion sort is stable, but only sortedness and permutation are proved.
- Opponents.LastFour: counts whole Unicode characters, where `slice(-4)` counts UTF-16 code units; for an id ending in a character outside the Basic Multilingual Plane (an emoji) the source can cut a surrogate pair and the model does not. The minifiers' length bounds likewise count characters, not code units.
- Ledger.Db.EnsureWorld: `db.worlds` and `db.rankings` are plain objects, so an id naming an inherited `Object.prototype` member (`constructor`, `toString`, `__proto__`) finds that inherited value instead of a missing record. The model's maps have no inherited keys and treat such an id as a new user; the same holds for Ledger.Db.GetWorld, Ledger.Db.ApiGetWorld, Ledger.Db.SaveWorld, Ledger.Db.ReportEvent, Ledger.Db.UpdateRankingFromBattle and Opponents.Lookup.
- Opponents.Upper: upper-cases ASCII letters only, not the full Unicode case mapping of `toUpperCase`.
- MinifyCss.StripsLeadingComment: states the removal of a leading comment only, not a closed form for every text. The comment pass is one left-to-right scan, as the regular expression is, so "no comment is left" does not hold in general: MinifyCss.StripCanLeaveComment shows `//* c */* x */` becoming `/* x */`.
- MinifyJs.Minify: a `/` that starts a regular-expression literal is treated as ordinary code, as the source does.
- Matchmaking.Matchmaker.TimeoutFire: requires that the timer is still pending. A cleared timer never runs, so the `has` guard's early return cannot be taken and is not modelled as a separate outcome.
- Matchmaking.Matchmaker.Request: the queue invariant holds only responses that have not ended. A parked response that Node ends by some other route, such as a socket error with no `close` event, is not modelled.
- The battle: the three-step countdown and its interval timer are collapsed into one step that happens right after the energy check.
- Display-only fields of the client state (`rankTop`, `epoch`, `dailyBonus`, `isCreated`) and profile display fields that no rule reads are left out.
