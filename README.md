# TypingMaster core, modelled in Dafny

TypingMaster is a browser typing trainer. Its core is the typing-session
engine of `TypingGame`. In words mode the player types single words, and an
input counts only when it equals the word exactly. In sentences and
paragraphs mode the player types a whole text. Each input is checked as a
prefix of the text, and a mismatch counts as an error. A completed text
adds to the running WPM, accuracy, experience and level. Beside the engine
there are three smaller pieces of logic:

- the dashboard's assembly of statistics, achievements and recent activity;
- the leaderboard ranking;
- the choice of the interface language at start-up.

The engine is modelled as a class, `TypingGame.Session`. It has the
component's refs as fields, and each event handler is a method that updates
them in place with the same branches. Each method's `ensures` gives the new
state in terms of functions of `Scoring`, `Achievements` and `Strings`. The
properties the game relies on are proved about those functions. The other
three pieces are mostly pure functions with proved contracts. The dashboard's
recent-activity loop and the pushes after it are methods
(`Dashboard.UnlockActivities`, `Dashboard.AppendStatsActivities`,
`Dashboard.RecentActivity`), proved equal to `Dashboard.ActivityList`, and so
is `Dashboard.AchievementPanel`. Inputs the browser or the backend would supply are parameters:

- the index `Math.random` would pick;
- the time `Date.now()` in milliseconds;
- the outcome of each backend query (success, failure, rows).

Timers are events. `Tick` is one firing of the one-second interval,
`FireWrite` the firing of the debounced write, and `HideAchievement` the
five-second timeout of the notification. As written, the component never
lets the interval do anything (see "Left out"); `Tick` states what its body
does when it runs.

Files (one module each): `options.dfy` (Option), `numeric.dfy` (JavaScript
rounding on integers, `x || d` on numbers), `strings.dfy` (`split`,
`substring`, `toLowerCase`), `text_pools.dfy` (modes and the three text
pools), `scoring.dfy` (experience, levels, accuracy, WPM, stored
statistics), `achievements.dfy` (the achievement delta), `typing_game.dfy`
(the session class), `sorting.dfy` (stable sort by a comparator),
`dashboard.dfy`, `leaderboard.dfy`, `i18n.dfy`.

The model follows the code:

- Level-up is a single `if` (TypingGame.tsx:412-415, 479-482), not a loop. At
  most one level is gained per event, and the experience may stay above the
  threshold (`Scoring.GainLevelsUpOnce`).
- Session accuracy is `Math.round((totalChars - errors) / totalChars * 100)`
  with no clamp (TypingGame.tsx:463-464). More errors than characters give 0
  or less (`Scoring.SessionAccuracyUnclamped`).
- `changeGameMode` sets the mode, `gameStarted`, `gameCompleted` and the
  input, and draws a text (TypingGame.tsx:510-516). It does not reset the
  error count.
- Completing a text sets `gameCompleted` (TypingGame.tsx:491). It is cleared
  again by `getNewText` (TypingGame.tsx:129), `startGame`
  (TypingGame.tsx:136) and `changeGameMode` (TypingGame.tsx:513). While it is
  set, the input box is replaced by the "play again" button
  (TypingGame.tsx:677-681).
- A text is drawn with `Math.floor(Math.random() * pool.length)` and no check
  for an empty pool (TypingGame.tsx:110-124). The pools are non-empty
  constants (`TextPools.PoolSizes`).
- Session WPM divides by the elapsed minutes with no guard against zero
  (TypingGame.tsx:456-460). The model asks for `startTime < now` instead (see
  "Left out").

## Model

| member | source | states |
|---|---|---|
| TextPools.PoolSizes | src/components/TypingGame.tsx:11-54 | the word, sentence and paragraph pools hold 50, 20 and 5 texts, so a random index always picks something |
| TextPools.PoolTextNonEmpty | src/components/TypingGame.tsx:19-54 | every sentence and every paragraph is non-empty, so the completion check never divides by a zero length |
| Numeric.RoundDiv | src/components/TypingGame.tsx:146 | `Math.round(n / d)` for d > 0: the result r satisfies r - 1/2 <= n/d < r + 1/2, so halves round up |
| Numeric.Mean | src/components/TypingGame.tsx:467-472 | the rounded mean of the old value and the session value lies between the two |
| Numeric.OrDefault | src/components/TypingGame.tsx:324-337 | `x \|\| d` on a stored number gives `d` for null and 0, and keeps every other value |
| Strings.Split | src/components/TypingGame.tsx:449 | `split(' ')` has one more field than the text has separators, and no field contains the separator |
| Strings.JoinSplit | src/components/TypingGame.tsx:449 | joining the fields of a split with the separator gives back the text, so no character is lost or invented |
| Strings.SplitJoin | src/components/TypingGame.tsx:449 | splitting a join of separator-free fields gives back the fields |
| Strings.Prefix | src/components/TypingGame.tsx:440 | `substring(0, n)` is a prefix of the text, of length min(n, length) |
| Strings.MatchesPrefixIff | src/components/TypingGame.tsx:440-442 | the input equals the same-length prefix of the text exactly when the input is a prefix of the text |
| Strings.FirstField | src/i18n/index.ts:14 | `split('-')[0]` is the prefix of the tag before its first '-', or the whole tag when it has none |
| Strings.ToLower | src/i18n/index.ts:14 | `toLowerCase` keeps the length and lowers each ASCII capital letter |
| Scoring.GainExp | src/components/TypingGame.tsx:412-415 | after the gain, the level rises by exactly one when experience reaches level*100, and otherwise stays; total experience is conserved |
| Scoring.GainKeepsInRange | src/components/TypingGame.tsx:409-415 | a gain of at most 100 (the words-mode gain is 10) keeps 0 <= exp < level*100 and level >= 1 |
| Scoring.GainLevelsUpOnce | src/components/TypingGame.tsx:479-482 | a gain worth two levels still raises the level by one only, and leaves exp at or above the new threshold |
| Scoring.WordsAccuracy | src/components/TypingGame.tsx:153-158 | unchanged without attempts; otherwise round(correct/total*100), which is in [0, 100] when correct <= total, 100 when they are equal, and at least 100 otherwise |
| Scoring.WordsAccuracyHalf | src/components/TypingGame.tsx:155 | half of the attempts correct gives exactly 50 |
| Scoring.SessionAccuracy | src/components/TypingGame.tsx:463-464 | 100 without errors, in [0, 100] while errors <= length, and 0 or less beyond |
| Scoring.SessionAccuracyAntitone | src/components/TypingGame.tsx:464 | more errors never give a higher session accuracy |
| Scoring.SessionAccuracyUnclamped | src/components/TypingGame.tsx:464 | twice as many errors as characters give -100: there is no clamping |
| Scoring.WordsInText | src/components/TypingGame.tsx:449 | the words of a text are its spaces plus one |
| Scoring.SessionWpm | src/components/TypingGame.tsx:455-460 | non-negative; equal to the word count after exactly one minute, and at least the word count when faster |
| Scoring.LiveWpm | src/components/TypingGame.tsx:143-150 | non-negative for a non-negative word count, and equal to it after 60 seconds |
| Scoring.CompletionExp | src/components/TypingGame.tsx:476 | 5 points per word at full accuracy, and between 0 and that for an accuracy in [0, 100] |
| Scoring.LoadedStats | src/components/TypingGame.tsx:320-337 | stored nulls and zeros read as level 1, accuracy 100 and 0 elsewhere; a stored non-zero level or accuracy, and every other stored value, is kept |
| Achievements.IdSet | src/components/TypingGame.tsx:178 | the set holds exactly the ids of the query result |
| Achievements.Check | src/components/TypingGame.tsx:162-214 | the new ids are exactly current minus known; the known set becomes the current one unless a query fails; only the first detail record is shown, and only when there are new ids |
| Achievements.CheckIdempotent | src/components/TypingGame.tsx:177-210 | a second check against an unchanged store finds nothing new and shows nothing |
| Achievements.CheckCoversCurrent | src/components/TypingGame.tsx:177-210 | whenever the known set is replaced it covers every current id, and the reported ids were not known before |
| TypingGame.LoadOutcome | src/components/TypingGame.tsx:261-338 | statistics are installed only for a signed-in user whose row was read or created: the stored row with defaults, or the initial row |
| TypingGame.Session.constructor | src/components/TypingGame.tsx:69-107 | the initial state: words mode, a word of the pool, empty input, level 1, accuracy 100, everything else 0 |
| TypingGame.Session.GetNewText | src/components/TypingGame.tsx:110-130 | the text becomes the pool entry at the index; the cursor is 0, the input empty and the round not completed |
| TypingGame.Session.StartGame | src/components/TypingGame.tsx:133-140 | as GetNewText, and the round is started at `now` with no errors |
| TypingGame.Session.UpdateWpm | src/components/TypingGame.tsx:143-150 | WPM becomes the live WPM only when words have been typed |
| TypingGame.Session.UpdateAccuracy | src/components/TypingGame.tsx:153-159 | accuracy becomes the words-mode accuracy of the attempt counters |
| TypingGame.Session.AddExp | src/components/TypingGame.tsx:410-418 | level and experience follow GainExp: at most one level gained, total experience conserved |
| TypingGame.Session.ScheduleWrite | src/components/TypingGame.tsx:250-258 | the single write slot is occupied, replacing any pending write |
| TypingGame.Session.Tick | src/components/TypingGame.tsx:371-379 | one second is added, and live WPM is updated, only while a round is started and not completed; never in words mode |
| TypingGame.Session.HandleWordInput | src/components/TypingGame.tsx:390-427 | attempts grow by one exactly when the input got longer; only the exact word scores (one word, 10 experience, new accuracy, a write, a cleared input and a new word); any other input changes nothing else |
| TypingGame.Session.CompleteText | src/components/TypingGame.tsx:447-491 | the text's words are added; WPM and accuracy become the rounded means with the session values; the experience is weighted by accuracy; a write is scheduled and the round is completed |
| TypingGame.Session.MatchTextInput | src/components/TypingGame.tsx:436-497 | the input is kept; a prefix moves the cursor to its end and completes the round exactly when it is the whole text; anything else adds one error and leaves the cursor |
| TypingGame.Session.HandleTextInput | src/components/TypingGame.tsx:430-498 | before the round starts, the keystroke only starts it and is dropped; afterwards the input is matched as in MatchTextInput |
| TypingGame.Session.HandleInput | src/components/TypingGame.tsx:501-507 | dispatches on the mode and gives the whole new state of the handler it calls. In word mode: one more attempt when the input grew; on an exact match one more correct attempt and word, 10 experience with level-up, the recomputed accuracy, a scheduled write, a cleared input and the new word; otherwise only the input changes. In text modes: the first keystroke only starts the round; later ones keep the input, move the cursor on a prefix or add one error otherwise, and on the whole text add its words, average WPM and accuracy, award the weighted experience and schedule a write |
| TypingGame.Session.ChangeGameMode | src/components/TypingGame.tsx:510-516 | the new mode with a text from its pool, not started, not completed, empty input and errors untouched; a different mode drops the pending write, reloads the statistics and known ids, and records a load error exactly when the initial row could not be created |
| TypingGame.Session.CheckNewAchievements | src/components/TypingGame.tsx:162-214 | the known set and the notification follow Check |
| TypingGame.Session.HideAchievement | src/components/TypingGame.tsx:202-205 | the notification is hidden |
| TypingGame.Session.FireWrite | src/components/TypingGame.tsx:217-245 | the slot is emptied; a signed-in user's write carries the statistics at firing time; only after a successful write are the achievements checked, updating the known ids and showing the first new one exactly as `checkNewAchievements` does |
| TypingGame.Session.Unmount | src/components/TypingGame.tsx:363-367 | the pending write is dropped |
| TypingGame.Session.LoadUserStats | src/components/TypingGame.tsx:261-358 | the statistics become LoadOutcome when there is one, and the known ids the ones read; a failed creation records the error |
| Sorting.SortBy | src/components/Leaderboard.tsx:48-54 | the result is a permutation of the input |
| Sorting.SortBySorted | src/components/Leaderboard.tsx:48-54 | with a total, transitive comparator the result is sorted |
| Sorting.SortByStable | src/components/Leaderboard.tsx:48-54 | elements the comparator cannot tell apart keep their relative order |
| Leaderboard.ValidEntries | src/components/Leaderboard.tsx:42-47 | a filter: an entry occurs exactly as often as the complete row it comes from, an incomplete row gives nothing, and no more entries than rows |
| Leaderboard.ValidEntriesConcat | src/components/Leaderboard.tsx:42-47 | filtering a concatenation concatenates the filtered parts, so entries follow the order of their rows |
| Leaderboard.Ranking | src/components/Leaderboard.tsx:42-54 | a permutation of the kept rows, sorted by level descending and then words typed descending |
| Leaderboard.RankingKeepsTies | src/components/Leaderboard.tsx:48-54 | players with the same level and words typed keep the order the query returned |
| Leaderboard.FetchLeaderboard | src/components/Leaderboard.tsx:24-63 | a failed query shows the error; null data ranks as no rows; otherwise the ranking is shown |
| Leaderboard.BadgeAt | src/components/Leaderboard.tsx:129-138 | positions 0, 1 and 2 get the gold, silver and bronze medal; every other position i shows rank i+1 |
| Dashboard.CoerceStats | src/components/Dashboard.tsx:158-167 | `Number(x) \|\| default`: level 1 for null or zero, 0 for every other null or zero field, a stored non-zero level kept; without a row, level 1 and 0 elsewhere |
| Dashboard.MergeAchievements | src/components/Dashboard.tsx:240-256 | same length and order as the full list, fields kept, and unlocked exactly when the user has a row for the id |
| Dashboard.RecentUnlocked | src/components/Dashboard.tsx:259-265 | min(3, n) of the user's rows (a sub-multiset), newest first, and no row left out is newer than a row kept |
| Dashboard.Find | src/components/Dashboard.tsx:270-272 | the first achievement with the id (no earlier one has it), and none exactly when no achievement has it |
| Dashboard.ActivityFor | src/components/Dashboard.tsx:269-282 | an unlock gives an activity exactly when its achievement is in the full list, named after the first such achievement, with the unlock time |
| Dashboard.StatsActivities | src/components/Dashboard.tsx:284-304 | nothing when there are 3 achievement activities or no row; otherwise a typing activity exactly when the stored words typed is positive and a level activity exactly when the stored level is above 1, both at the row's update time, the typing one first |
| Dashboard.ActivityList | src/components/Dashboard.tsx:267-315 | between 1 and 4 activities; a lone "joined" entry exactly when there is no other activity |
| Dashboard.ActivityListNewestFirst | src/components/Dashboard.tsx:259-282 | the achievement activities come first and newest first, each with the time of one of the user's unlocks |
| Dashboard.UnlockActivities | src/components/Dashboard.tsx:269-282 | the loop over the recent unlocks builds exactly AchievementActivities: one activity per unlock whose achievement is found, in order |
| Dashboard.AppendStatsActivities | src/components/Dashboard.tsx:284-304 | the pushes after the loop append exactly StatsActivities of the activities so far |
| Dashboard.RecentActivity | src/components/Dashboard.tsx:267-313 | the loop, the pushes and the "joined" fallback build exactly ActivityList |
| Dashboard.AchievementPanel | src/components/Dashboard.tsx:239-316 | nothing is shown without the achievement list; a failed unlocked query counts as no rows |
| Dashboard.GetRelativeTime | src/components/Dashboard.tsx:362-373 | today below one day, yesterday below two, "N days ago" for the rest below 7 days (a future date too), and the date itself from 7 days on |
| I18n.BrowserLanguage | src/i18n/index.ts:13 | the browser's language, else the first of its languages, else "en"; empty values are skipped |
| I18n.LanguageCode | src/i18n/index.ts:14 | the lower-cased tag up to its first '-' |
| I18n.GetDefaultLanguage | src/i18n/index.ts:7-23 | a non-empty saved choice is returned verbatim; otherwise "pt" exactly when the language code is "pt", and "en" in every other case |
| I18n.RegionIgnored | src/i18n/index.ts:14 | a region subtag does not change the language code |
| I18n.PortugueseVariants | src/i18n/index.ts:14-20 | "pt-…" and "PT-…" both select Portuguese |
| I18n.Fallbacks | src/i18n/index.ts:13-22 | without a saved choice or a browser language, "en" is chosen; a saved unsupported choice is kept |

## Left out

- Backend calls (Supabase queries, inserts, updates, authentication): their outcomes are parameters (`StatsFetch`, the `Option` answers of the achievement queries, `signedIn`, `updateOk`, `insertOk`). The rows are values. They are never stored.
- String lengths: `|s|` counts Unicode characters, while JavaScript's `.length` counts UTF-16 code units. The words-mode attempt rule `value.length > input.length` (TypingGame.tsx:394-395; `Session.HandleWordInput`, `Session.HandleInput`) therefore differs for characters outside the Basic Multilingual Plane. From "a" to "😀", JavaScript compares 2 > 1 and counts an attempt; the model compares 1 > 1 and does not. Prefix matching, the cursor and completion are not affected, because every pool text lies inside that plane.
- Interleaving across awaits: `Session.FireWrite` runs the update, its await and `checkNewAchievements` as one step (TypingGame.tsx:231-240). `Session.LoadUserStats`, which `Session.ChangeGameMode` also calls, runs the awaited queries of `fetchUserStats` (TypingGame.tsx:264-351) as one step too. In the component, other events can run between those awaits, such as keystrokes or another write firing. The model does not capture such interleavings.
- Rendering, animation, styling, progress bars, the language dropdown, the landing page and the advertisement.
- Randomness: the text index is a parameter. The dashboard's invented seven-day WPM history (Dashboard.tsx:170-191) is not modelled.
- Floating point: every quotient is an integer numerator over a positive integer denominator. It is rounded exactly as `Math.round` would round the real quotient.
- Scoring.SessionWpm: requires `elapsedMs > 0`. The source divides by the elapsed time without a guard, giving Infinity or NaN at zero. `TypingGame.Session.CompleteText`, `MatchTextInput` and `HandleTextInput` require `startTime < now` for the same reason.
- Scoring.LiveWpm: requires `seconds > 0`. Every caller in the source has ticked at least once.
- TypingGame.Session.LoadUserStats: requires a stored `time_spent` to be non-negative, because the model's seconds counter is a natural number.
- Timers as wall-clock objects: the one-second interval, the two-second debounce and the five-second notification timeout are events of the model, and React's effect scheduling is not modelled. `Session.Tick` models the body of the interval callback (TypingGame.tsx:373-378) as if it read the current state. As written, the component never runs that body. The only interval is created when loading ends (TypingGame.tsx:372-373), and `gameStarted` is still false then, because the loading spinner hides the input until that moment. The callback reads that captured `false`. The effect's clean-up clears the interval but never empties `timerRef` (TypingGame.tsx:382-386), so no later run of the effect creates a new one. In the running component `timeSpent` therefore never advances and `updateWPM` is never called from the timer.
- TypingGame.Session.HandleWordInput, HandleTextInput: require that the round is not completed. The input box is not rendered while `gameCompleted` holds (TypingGame.tsx:677-681).
- The draw that `changeGameMode` makes with the previous mode's pool (a stale callback) is not modelled. The effect's draw from the new pool replaces it before the next render (TypingGame.tsx:361, 368).
- `user_achievements` data that is null without an error is taken as an empty list, as `?.map(...) || []` does. The model passes it as `Some([])`.
- The leaderboard query's own ordering and its limit of 100 rows (Leaderboard.tsx:33-35) happen on the server. The model ranks whatever rows arrive.
- Dashboard: the top-three leaderboard preview (Dashboard.tsx:318-336) and the icon choice are display only.
- Timestamps are milliseconds since the epoch. Parsing of ISO date strings and the locale date format of `toLocaleDateString` are not modelled. `OnDate` carries the date's milliseconds.
- `toLowerCase` is modelled for ASCII letters only. Unicode case mapping is not modelled.
