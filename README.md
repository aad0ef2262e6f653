# Progression engine of a gamified chat assistant

This project models the progression engine of the server (`server.js`),
written in Dafny, and proves properties of the model. The engine takes the
game-state document the client sends with each chat message and derives the
following from it:

- the XP the message earns;
- the player's streak and its multiplier;
- health decay;
- level rollover;
- the statistics block;
- the achievement title;
- daily and weekly quests;
- badge unlocks.

The model also covers how a request chooses its game state
(`resolveGameState`), how `/init-profile` merges a quiz result into that state,
and the client-side personality quiz (`quiz.js`) that produces the result.

Modules, one per file:

- `Text` (`text.dfy`): JavaScript's `trim`, `toLowerCase` (ASCII capitals and U+0130) and `split(/\s+/)`, and `JsLength`, the UTF-16 length that JavaScript's `length` reports.
- `GameData` (`game_data.dfy`): the document, the player, the stats and statistics blocks, quests, and the request clock.
- `Catalog` (`catalog.dfy`): the default document, the title tiers, the badge catalog and the two quest template tables.
- `Progression` (`progression.dfy`): each helper of the engine as a function on the player.
- `Quests` (`quests.dfy`) and `Badges` (`badges.dfy`): quest generation and progress, and the badge scan.
- `Award` (`award.dfy`): `awardXP` as one function on the document, with the lemmas about a whole award.
- `Engine` (`engine.dfy`): the class `GameState`, which holds the document's fields and updates them in place. The source's helpers mutate `gameState` in the same way. Each method is proved to leave the object exactly as the matching function of `Progression`, `Quests`, `Badges` or `Award` says.
- `Reconcile` (`reconcile.dfy`): `resolveGameState` and the `/init-profile` merge.
- `Quiz` (`quiz.js` as `quiz.dfy`): the questions, the class `QuizSession` for `currentQuestion`/`userScores`, the personality code, and `checkQuizStatus`.

Conventions:

- Time is an explicit `Clock`, which holds the epoch milliseconds and the local hour, weekday and day of the month. A calendar day is `nowMs / 86400000`, and day markers are day numbers. The source uses `toDateString()` strings and compares them for equality, which amounts to the same thing.
- The streak multiplier is kept in tenths (10, 15, 20, 30, 50).
- The shuffle of a template table is replaced by its outcome: the three distinct table positions it puts first.

Some behaviours of the code, kept as they stand, each with the lemma or contracts that state it:

- The `titleInfo` that `awardXP` returns never reports a title change (`Award.AwardNeverReportsTitleChange`). `updateStatistics` has already stored the new title by the time the final `updateAchievementTitle` compares against it.
- `dailyQuestsCompletedTotal` grows by at most one per message. It grows exactly when the message completes the last open daily quest (`Quests.DailyBonusWhenSetCompletes`). A list that is already complete earns nothing more (`Quests.CompletedSetEarnsNothing`).
- All-neutral quiz answers give the code `INTP` (`Quiz.NeutralQuizIsINTP`), because every comparison is a strict `> 50`.
- The weekly XP quest adds whole awards, so its progress may overshoot its target. Daily progress never passes its target (`Quests.DailyInOrder`).
- On the day the default document was created, no daily quests are generated, because its generation marker already names that day. Weekly quests are generated, because the list is empty (`Quests.BootDayGeneration`).
- The `deep-thinker` badge is awarded at an average of 20 or more. Its description says "> 20" (`Badges.DeepThinkerAtTwenty`).
- The XP reward stored on a quest is never credited to the player: the total grows by exactly the message's award (`Award.AwardAccounting`).

## Model

| member | source | states |
|---|---|---|
| Text.TrimStart | server.js:261 | the result is a suffix of the input, everything dropped is white space, and it does not start with white space |
| Text.TrimEnd | server.js:261 | the result is a prefix of the input, everything dropped is white space, and it does not end with white space |
| Text.Trim | server.js:261 | the result is the slice of the input that starts right after its leading white space, only white space follows that slice, the result has no white space at either end, and it is empty exactly when the input is all white space |
| Text.TrimIdempotent | server.js:261 | trimming twice is trimming once |
| Text.LowerChar | server.js:261 | U+0130 becomes `i` followed by U+0307; ASCII capitals map to the letter 32 code points up; every other character is unchanged; only U+0130 grows, by one UTF-16 code unit |
| Text.ToLowerInPlace | server.js:261 | without U+0130, lower-casing keeps the length and maps each character on its own |
| Text.ToLower | server.js:261 | lower-casing adds one character and one UTF-16 code unit per U+0130 of the input, and keeps the length otherwise |
| Text.JsLength | server.js:262 | the UTF-16 length lies between the number of characters and twice it, and equals it when no character lies beyond U+FFFF |
| Text.SplitWs | server.js:197 | `split(/\s+/)` yields at least one piece, no piece holds white space, and the pieces together are exactly the non-white-space characters of the message, in order |
| Text.SplitWsCount | server.js:197 | `split(/\s+/)` yields one piece more than the message has maximal runs of white space |
| Text.WordCount | server.js:197 | the word count is one more than the number of maximal runs of white space, so it is 1 for the empty message |
| Catalog.DefaultDocument | server.js:28-61 | the default document starts at level 1 with 0 XP, streak 0, no badges, the default stats, empty quest lists, and the moment it was built as every day marker: the message day, both quest generation days, the day of the month and the message time |
| Catalog.TitlesContiguous | server.js:63-70 | six tiers with levels 1 to 6; the first starts at 0, each starts one past the end of the one before, only the last is open, and the names differ |
| Catalog.BadgeKeysDistinct | server.js:72-88 | fifteen badges, no two sharing a key |
| Catalog.TemplateTargetsPositive | server.js:90-107 | eight daily and five weekly templates, each with a target of at least 1 |
| Progression.IsValidMessage | server.js:261-262 | a message passes exactly when its trimmed form is at least 10 UTF-16 code units long, each U+0130 counting once more because lower-casing doubles it; the reserved greetings are all too short to matter |
| Progression.HealthLoss | server.js:141-143 | the loss is the whole number of tenths of a day elapsed, and at least 10 when more than a day has passed |
| Progression.DecayedHealth | server.js:141-144 | health is unchanged within a day; after more than a day it drops by the loss but never below 0, so by at least 10 or to 0 |
| Progression.HealthUpdated | server.js:134-146 | a missing stats block becomes the default one, only health and the message time change, and health is the decayed value |
| Progression.DaysSince | server.js:117-119 | the day count is the floor of the milliseconds elapsed since the start of the last message day, divided by the length of a day |
| Progression.DaysSinceIsDayGap | server.js:117-119 | the floored day count from the start of the last message day equals the difference of day numbers |
| Progression.StreakUpdated | server.js:114-125 | on the same day nothing changes; the next day adds 1 to the streak; any other day restarts it at 1; a new day also records the day and the day of the month |
| Progression.MultiplierTenths | server.js:126-131 | the multiplier is one of 1.0, 1.5, 2.0, 3.0 and 5.0 |
| Progression.MultiplierMonotone | server.js:126-131 | a longer streak never earns a smaller multiplier |
| Progression.MultiplierTiers | server.js:126-131 | each multiplier holds exactly on its streak range: below 3, 3 to 6, 7 to 13, 14 to 29, and 30 or more |
| Progression.BaseXp | server.js:269-270 | base XP is 10, 15, 20 or 25; at least 20 exactly when the untrimmed message is longer than 50 UTF-16 code units; odd fives exactly when it holds a `?` |
| Progression.AwardedXp | server.js:272 | the award is the floor of base times multiplier, and never less than the base |
| Progression.XpApplied | server.js:273-279 | `level*100 + xp` and the total grow by the award; `xp` stays below 100 and the level never drops; nothing else changes |
| Progression.RoundDiv | server.js:250 | for a divisor of either sign, the result is the floor of the quotient plus one half: the nearest integer, with halves rounded up |
| Progression.StatisticsUpdated | server.js:246-256 | one more message; the award added to the total; the running maximum; the high-quality count for awards of 20 or more; the days-active proxy from the streak; the rounded mean; `longestStreak` as a running maximum; nothing else changes |
| Progression.FirstTier | server.js:233-239 | the index found is of the first tier holding the total, and none is found exactly when no tier holds it |
| Progression.TitleFor | server.js:232-239 | the title picked is a tier of the table; it holds the total whenever some tier does; when none does, it is the first tier |
| Progression.TitleForIsTheTier | server.js:63-70 | every non-negative total lies in exactly one tier, and that is the tier picked |
| Progression.TitleMonotone | server.js:63-70 | more total XP never gives a lower title level |
| Progression.TitleUpdated | server.js:231-244 | the stored title and level become those of the total's tier; the change flag is set exactly when the stored name differs |
| Badges.Unlocked | server.js:148-159 | a badge is awarded exactly when it is in the catalog, its key is not owned, and its condition holds |
| Badges.UnlockedAppend | server.js:150 | scanning a catalog in two parts awards the first part's badges followed by the second's, so catalog order is kept |
| Badges.Keys | server.js:153 | the keys list has the length of the badge list and lists each badge's key in place |
| Badges.KeysAppend | server.js:153 | the keys of a concatenation are the concatenated keys |
| Badges.UnlockedKeysFresh | server.js:150-157 | from a catalog of distinct keys, the awarded keys are distinct, all from the catalog, and none already owned |
| Badges.ScanKeepsBadgesDistinct | server.js:148-159 | a duplicate-free badge list stays duplicate-free after a scan, and only unowned keys are added |
| Badges.HoldsIgnoresBadges | server.js:72-88 | no badge condition reads the badge list |
| Badges.BadgeConditionsOverlap | server.js:73-87 | the tech-wizard and creative-genius conditions coincide; legendary and health-guardian each imply flame-on; night-owl and early-bird never hold together; master with a longest streak of 10 implies consistent |
| Badges.DeepThinkerAtTwenty | server.js:87 | an average of exactly 20 XP per message already earns `deep-thinker`, whose description says "> 20" |
| Badges.UnlockedStep | server.js:150-157 | scanning one more entry awards it exactly when its key is unowned and its condition holds; a key pushed earlier in the same scan never counts as owned |
| Badges.ScanStep | server.js:150-155 | the test made on the player as the scan has left it is the test on the original player, and pushing the key keeps the owned list equal to the old one followed by the awarded keys |
| Badges.Scan | server.js:148-159 | `checkBadges` returns the awarded badges and appends exactly their keys to the owned list |
| Quests.FactsOf | server.js:195-197 | the length in UTF-16 code units, the `?` test, and the word count, one more than the runs of white space |
| Quests.FreshQuests | server.js:166-169 | three quests from the picked templates, numbered 0, 1 and 2, with no progress and not completed |
| Quests.DailyTitlesDistinct | server.js:90-99 | the daily templates have pairwise different titles |
| Quests.WeeklyTitlesDistinct | server.js:101-107 | the weekly templates have pairwise different titles |
| Quests.FreshQuestsAreDifferent | server.js:166-169 | a generated set never holds the same template twice |
| Quests.DailyGenerated | server.js:161-172 | on a new day the list becomes the three quests made from the picked templates, numbered 0, 1 and 2, with no progress, and the day is recorded; on the same day the document is unchanged; nothing else changes |
| Quests.DailyGenerationSettles | server.js:161-172 | generating twice on one day keeps the first list, whatever the second shuffle picks |
| Quests.BootDayGeneration | server.js:161-180 | on the day the default document was built, daily generation leaves it unchanged, and weekly quests are due |
| Quests.CeilDays | server.js:178 | the rounded-up day count is the least whole number of days covering the time |
| Quests.WeeklyDue | server.js:175-180 | weekly quests are due exactly when the list is empty or the recorded day is more than six whole days away, in either direction |
| Quests.WeeklyGenerated | server.js:174-189 | when due, the list becomes the three quests made from the picked templates, numbered 0, 1 and 2, and today is recorded; otherwise the document is unchanged |
| Quests.WeeklyGenerationSettles | server.js:174-189 | right after a generation the weekly list is not due again |
| Quests.DailyAdvances | server.js:202-209 | volume and streak quests advance on every valid message; the weekly-only kinds never advance; the question rules need a `?`, the XP rules a positive award, and the length rules more than 100 code units |
| Quests.DailyAdvancesRules | server.js:202-209 | messages advance exactly when XP is positive, long-question exactly with a `?` and at least 10 words, focus-maintenance exactly at focus 70 or more, high-xp-message exactly at 50 XP or more, philosophical exactly with a `?` and more than 100 UTF-16 code units, and long-message exactly at 500 or more |
| Quests.DailyStep | server.js:201-216 | a completed quest is untouched; any other advances by one when its type's rule holds, and is completed exactly when it reaches its target |
| Quests.WeeklyGain | server.js:222-224 | a volume quest gains 1 exactly for a positive award, a questions quest 1 exactly for a `?`, the XP quest the whole award, and every other kind nothing; a non-negative award never gives a negative gain |
| Quests.WeeklyStep | server.js:220-228 | a completed quest is untouched; any other gains by its type (1 per message, 1 per question, or the whole award) and is completed exactly at its target |
| Quests.DailyPass | server.js:200-217 | each daily quest takes its own step |
| Quests.WeeklyPass | server.js:220-228 | each weekly quest takes its own step |
| Quests.NewlyCompleted | server.js:211-213 | the number of newly completed quests is at most the length of the list |
| Quests.NewlyCompletedPositive | server.js:211-213 | the count is positive exactly when some quest went from open to completed |
| Quests.DailyBonus | server.js:214 | the set bonus of a pass is 0 or 1, and 1 only when the list ends all complete and some quest completed during the pass |
| Quests.DailyBonusWhenSetCompletes | server.js:211-214 | the completed-set counter gains 1 exactly when the list was not all complete before the message and is afterwards, and otherwise gains nothing |
| Quests.CompletedSetEarnsNothing | server.js:200-217 | a fully completed list is left as it is and credits no quest and no set |
| Quests.DailyPassMonotone | server.js:200-217 | daily progress never goes back, completed quests stay as they are, and progress stays within 0 and the target |
| Quests.WeeklyPassMonotone | server.js:220-228 | weekly progress never goes back, completed quests stay as they are, and completion matches reaching the target |
| Quests.Generated | server.js:192-193 | generation touches neither the player nor the message count |
| Quests.QuestsUpdated | server.js:191-229 | the daily and weekly lists are those of the two passes over the generated lists; the day markers are those of generation; the player changes only in two statistics: quests completed (by the newly completed daily quests) and completed sets (by the set bonus) |
| Quests.QuestsUpdatedInOrder | server.js:191-229 | generation and progress keep both quest lists in order |
| Award.DefaultWellFormed | server.js:28-61 | the default document satisfies the engine's invariant |
| Award.Credited | server.js:266-281 | the first half of an award: base XP and the updated streak's multiplier; the floored award lands in the total, in `level*100 + xp` and in the statistics; time and day are stamped; the title matches the total; the invariant is kept |
| Award.CreditKeepsOrder | server.js:266-281 | health, streak, award, statistics and title together keep the player invariant |
| Award.Finished | server.js:281-286 | quest progress, then the badge scan on the player as quests left it, then the title; the result reports the award, the new badges and the title |
| Award.Award | server.js:259-287 | a rejected message leaves the document untouched and reports zero XP, multiplier 1, no badges and no title |
| Award.AwardAccounting | server.js:259-287 | a valid message earns base XP times the multiplier of the reported streak, floored; the total, the level/xp pair and the statistics grow by exactly that; one more message is counted |
| Award.AwardNeverReportsTitleChange | server.js:281-286 | the reported `titleChanged` is always false, and the stored title is that of the new total |
| Award.AwardBadgesAppendOnly | server.js:282-284 | the badge list is the old one followed by the new badges' keys, which are the unowned badges that hold after the quest step; no duplicate is ever added |
| Award.AwardPreservesWellFormed | server.js:259-287 | every award, rejected or not, keeps the invariant: level at least 1, `0 <= xp < 100`, titles matching the total, health between 0 and 100, totals in step, no duplicate badges, quest lists in order |
| Award.FirstQuestionOfNewProfile | server.js:259-287 | a long question as the first message of a fresh profile earns 25 XP at multiplier 1.0 and leaves level 1 with 25 XP; the streak becomes 0 on the day the default was built and 1 on any other day |
| Award.FirstCredit | server.js:111-132 | the credit part of the first message: base 25, multiplier 1.0, award 25, and the streak as above |
| Engine.GameState.constructor | server.js:289-296 | the object holds exactly the given document |
| Engine.GameState.UpdateHealth | server.js:134-146 | the player becomes exactly `HealthUpdated` of the old player |
| Engine.GameState.GetStreakMultiplier | server.js:111-132 | the player becomes `StreakUpdated` of the old player, and the multiplier returned is that of the new streak |
| Engine.GameState.UpdateAchievementTitle | server.js:231-244 | the first-match loop with `break` stores and returns what `TitleUpdated` says |
| Engine.GameState.UpdateStatistics | server.js:246-257 | the player becomes the statistics update followed by the title update |
| Engine.GameState.CheckBadges | server.js:148-159 | the `includes` and `push` loop over the catalog leaves the player and returns the badges that `Scan` gives |
| Engine.GameState.GenerateDailyQuests | server.js:161-172 | clearing and pushing three quests leaves the document as `DailyGenerated` says |
| Engine.GameState.GenerateWeeklyQuests | server.js:174-189 | the same for `WeeklyGenerated` |
| Engine.GameState.UpdateQuestProgress | server.js:191-229 | the whole quest step leaves the document as `QuestsUpdated` says |
| Engine.GameState.DailyProgress | server.js:200-217 | the daily `forEach` with its in-loop counters gives `DailyPass` and the counted statistics |
| Engine.GameState.AdvanceDailyQuest | server.js:201-215 | one quest takes its step; a completion adds 1 to quests completed, and adds 1 to completed sets when the list is then all complete |
| Engine.GameState.WeeklyProgress | server.js:220-228 | the weekly `forEach` gives `WeeklyPass` |
| Engine.GameState.CreditMessage | server.js:266-280 | health, streak, base XP, award, rollover and statistics leave the player and figures as `Credited` says |
| Engine.GameState.AwardXP | server.js:259-287 | the object and the returned result are exactly those of `Award`, and a well-formed document stays well-formed |
| Reconcile.ResolveGameState | server.js:289-296 | a `gameState` member with a player is used as it is; without that member, the body is used if it has a player; in every other case the default document is used |
| Reconcile.ResolveRoundTrip | server.js:289-296 | sending back a resolved state resolves to the same state |
| Reconcile.ResolvedIsWellFormed | server.js:289-296 | from well-formed candidates, resolution always yields a well-formed document |
| Reconcile.MergeProfile | server.js:400-407 | a merge fails exactly when scores are sent to a document without a stats block; otherwise it writes the five scores, stores the type only if it is non-empty, and changes nothing else |
| Reconcile.MergeKeepsWellFormed | server.js:400-407 | merging into a well-formed document succeeds and keeps it well-formed |
| Reconcile.MergeIdempotent | server.js:400-407 | merging the same profile twice is merging it once |
| Quiz.Clamp | quiz.js:102-106 | the result lies in 0 to 100, equals the input inside that range, and is the nearer bound outside it |
| Quiz.Answered | quiz.js:102-106 | an answer moves only the asked trait, by `(value - 3) * 10` clamped; a trait without a score is left alone |
| Quiz.ScoresAfter | quiz.js:96-110 | after any prefix of answers, all five traits have scores within 0 to 100 |
| Quiz.TimesAsked | quiz.js:32-43 | a trait is asked at most as many times as there are questions |
| Quiz.EachTraitAskedTwice | quiz.js:32-43 | the ten questions ask about each trait exactly twice |
| Quiz.ScoresWithinAskedRange | quiz.js:96-110 | with answers on the 1 to 5 scale, each score stays within 20 points per time its trait has been asked |
| Quiz.TimesAskedAtMostTwice | quiz.js:32-43 | no prefix of the questions asks about a trait more than twice |
| Quiz.TimesAskedGrows | quiz.js:32-43 | a longer prefix asks about a trait at least as often |
| Quiz.FinalScoresBounded | quiz.js:96-110 | after a full quiz on the 1 to 5 scale, every score lies between 10 and 90, so the clamp is never reached |
| Quiz.NeutralAnswersKeepFifty | quiz.js:96-110 | neutral answers leave every score at 50 |
| Quiz.PersonalityType | quiz.js:153-160 | a four-letter code whose letters are E/I, S/N, F/T and J/P, each chosen exactly when its trait is strictly above 50 |
| Quiz.CreativityIgnored | quiz.js:153-160 | the creativity score never affects the code |
| Quiz.NeutralQuizIsINTP | quiz.js:153-160 | all-neutral answers yield the initial scores and the code `INTP` |
| Quiz.QuizSession.constructor | quiz.js:45-46 | a fresh page has question 0 and every score at 50 |
| Quiz.QuizSession.StartQuiz | quiz.js:48-50 | starting resets the question and the scores |
| Quiz.QuizSession.AnswerQuestion | quiz.js:96-115 | after the last question an answer changes nothing; otherwise the asked trait is scored, the question advances, and `finished` is set exactly on the last one; the scores always equal those of the answers given |
| Quiz.QuizSession.CalculatePersonalityType | quiz.js:153-160 | the code is that of the scores of the answers given |
| Quiz.CheckQuizStatus | quiz.js:12-30 | retry exactly when no state is stored; show the quiz exactly when the stored player's type is missing, empty or `"Unknown"` |
| Quiz.QuizNotRepeatedAfterMerge | quiz.js:117-133 | after a finished quiz is merged into a state, the quiz is no longer offered |

## Left out

- The HTTP layer, the chat-completion call to the language model, the UI (the dashboard and the quiz overlay), `localStorage` and `setTimeout`. They are I/O. `dashboard.js` and `script.js` are not part of this model.
- Text.SplitWs: only the number of pieces and their concatenation are stated, not where each piece begins and ends (for example the empty first piece of a message that starts with white space). The server reads only the count.
- One instant per request. The source reads the clock separately for the health decay, the streak, the daily and weekly generation and each clock badge. The model reads one `Clock` for the whole `awardXP` call, so a request that crosses midnight or an hour boundary between those reads (recording one day as the message day and the next as the quest generation day, say) is not modelled.
- Time zones. The local calendar day, hour, weekday and day of the month are fields of `Clock`, and the day number is taken from the epoch milliseconds as a UTC day. The behaviour of `toDateString` and `new Date(string)` in other time zones is not modelled.
- The randomness of `sort(() => Math.random() - 0.5)` is not modelled. The model takes the three positions it puts first. How uniform the shuffle is, and the fact that it reorders the shared template table in place, are not modelled.
- Floating point. The engine's values are whole numbers, except the multiplier and health loss, and those are modelled in tenths. They are exact up to floating-point rounding at tenth-of-a-day boundaries, where `Math.floor((elapsed / 86400000) * 10)` on doubles may differ from the whole-number quotient. Numbers beyond 2^53 are not modelled.
- `Text.LowerChar`: only ASCII capitals and U+0130 are lower-cased. U+0130 is the one character whose lower case is longer. JavaScript's other case mappings are not modelled. They keep the UTF-16 length of every character, and the lowered string is only measured, so the validity gate is modelled exactly.
- A Dafny `char` is a Unicode scalar value, so a string is a sequence of code points. `Text.JsLength` counts a character beyond U+FFFF as two code units, as JavaScript's `length` does. A lone surrogate, which a JavaScript string may hold, cannot be represented.
- Engine.GameState.AwardXP: for a valid message, requires that the stored `totalMessages` is not -1. With -1 the incremented count is 0, the mean divides by zero, and `Math.round` stores `Infinity`, `-Infinity` or `NaN`. A rejected message returns before the statistics are touched, so it is modelled on every document. Every other stored value, negative ones included, is modelled.
- Award.Award: the same requires, for a valid message only, for the same reason. `Award.Credited` and the lemmas about a valid award require it outright, since they only describe valid messages.
- Engine.GameState.UpdateStatistics: requires that the stored `totalMessages` is not -1, for the same reason. So does `Progression.StatisticsUpdated`.
- Statistics fields that are `undefined` are not modelled. `|| 0` turns them into 0, and the model assumes every field is present or the whole block is missing. The same holds for the stats and personality type of the player. A missing weekly list is modelled as an empty one.
- `Progression.TitleFor` on a negative total falls back to the first tier, as the source does. The lemmas about tiers assume a non-negative total, which the invariant guarantees.
- The question texts of the quiz, the result screen and `getGameState` are not modelled. The quiz reads `getGameState` as a stored candidate.
- The `messageCount` field is carried along but never updated, as in the source.
