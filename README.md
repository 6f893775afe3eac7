# Infinity Clicker: a verified model of the game core

Infinity Clicker is an idle game. A universe gathers a resource from clicks and from buildings. It buys automation units ("helpers") and researches new, generated buildings. It evolves through five tiers, Quantum to Omnipotent, and it can collapse in a prestige reset that converts the run's output into Cosmic Shards. Each shard adds 10% to all income.

This project models the following in Dafny and proves properties about it:

- The game's transition function, `gameReducer` in App.tsx.
- The drivers around the reducer: the helper scheduler, the research protocol, the evolution roller, the prestige gate, the cheat dispatcher and the hard reset.
- The starter catalogue in types.ts.
- The save codec in services/saveService.ts.
- The news-ticker headline choice in services/newsService.ts.
- The figures shown by the achievement panel and the prestige dialog.

Layout, one module per file:

- `wrappers.dfy` (`Wrappers`): Option, Result, `findIndex`, `find` and `slice(-n)`.
- `game_types.dfy` (`GameTypes`): tiers, the record shapes, and the starter constants `INITIAL_HELPERS`, `INITIAL_BUILDINGS`, `INITIAL_ACHIEVEMENTS` and `INITIAL_STATE`.
- `economy.dfy` (`Economy`):
  - building prices and production;
  - research cost and duration;
  - the prestige gain `floor(cbrt(total / 1000))`, as an exact integer cube root of the floor.
- `achievement_rules.dfy` (`AchievementRules`): the unlock test that the reducer's CHECK_ACHIEVEMENTS pass applies and the panel mirrors.
- `reducer.dfy` (`Reducer`): the action union, one function per action and `Step(state, action, now)`.
- `reducer_properties.dfy` (`ReducerProperties`): invariants across every action, the save/load round trip, and the production loop.
- `drivers.dfy` (`Drivers`): `class Game`, which holds the live state beside the research hooks, the pending-request ref, the last-tick ref and the research cost.
- `save_codec.dfy` (`SaveCodec`): obfuscation, deobfuscation and import validation.
- `news.dfy` (`News`): the candidate headlines and the pick.
- `achievement_panel.dfy` (`AchievementPanel`): progress, progress text, visibility and the unlocked count.
- `prestige_modal.dfy` (`PrestigeModal`): the prestige preview and the enable condition of its button.

Conventions:

- Numbers are `real`.
- `Math.pow` with a natural exponent is a recursive power. A negative exponent is its reciprocal.
- `Date.now()` is a parameter `now`.
- `Math.random()` is a parameter `roll`.
- A log entry keeps its kind and its timestamp.
- The content generator's answer to a research request is an external event: resolved with data, rejected, or not yet settled.

The driver methods follow the source's timing:

- `processHelpers` decides with the state of the frame it was created in (`view`), while its dispatches land on the live state.
- `Game.Tick` dispatches TICK, runs that helper pass, then settles an expired research.

Where the code and the intended design disagree, the model follows the code:

- `handleHardReset` leaves an in-flight research running (see Findings).
- A prestige turns the research off, but it leaves the pending request in place.
- LOAD_GAME takes a saved log of any length.
- PrestigeModal.tsx:16 divides the lifetime total by 1000, as App.tsx:669 does. The model uses 1000.

## Model

| member | source | states |
|---|---|---|
| GameTypes.TierRank | types.ts:9-15 | Rank 0 is Quantum and rank 4, the highest, is Omnipotent. |
| GameTypes.Successor | App.tsx:560-566 | Every tier but Omnipotent has a successor exactly one rank higher. Omnipotent has none. |
| GameTypes.TierLadder | App.tsx:560-566 | Successors climb Quantum, Macrocosm, Cosmic, Multiversal, Omnipotent, with ranks 0 to 4 in that order, as the enum of types.ts:9-15 declares them. |
| GameTypes.InitialEconomy | types.ts:347-362 | The initial state has 0 resources, 0 shards, multiplier 1, click power 1 and tier Quantum. So multiplier = 1 + 0.1 x shards holds initially. |
| GameTypes.StarterBuildings | types.ts:133-158 | There are exactly two starter buildings: b_cursor with base cost 15 and b_drone with base cost 100. Both start at count 0 with cost multiplier 1.15 > 1. |
| GameTypes.StarterHelpers | types.ts:94-131 | There are three helpers with distinct ids and distinct kinds (CLICK, BUY, RESEARCH). All start locked and inactive, with last action time 0 and bonus 1. |
| GameTypes.AchievementIdsDistinct | types.ts:160-345 | The eighteen achievement ids are pairwise distinct. |
| GameTypes.StarterAchievements | types.ts:160-345 | There are 18 achievements. All start locked with positive thresholds. The RESEARCH_COUNT thresholds are 7, 12 and 27, that is 5, 10 and 25 plus the two starter buildings. |
| GameTypes.HiddenAreTheSpecialOnes | types.ts:322-344 | An achievement is hidden exactly when it is SPECIAL. These are the last two. |
| GameTypes.InitialBuffers | types.ts:357-365 | The initial notification queue is empty and the log holds one entry, within the 50 cap. |
| Economy.CostGrowsWithCount | App.tsx:83 | With a cost multiplier of at least 1, the floored price `baseCost x mult^count` never falls as the count grows. |
| Economy.RawProductionNonNegative | App.tsx:51-54 | The summed production of buildings with non-negative outputs is non-negative. |
| Economy.ResearchCost | App.tsx:597-601 | The research price is always positive, even for fewer buildings than the starter two (the exponent is not clamped). |
| Economy.ResearchCostGeometric | App.tsx:599-600 | From the starter count on, each extra building multiplies the research price by 3.5. |
| Economy.FirstResearchCost | App.tsx:598-600 | With the two starter buildings the research costs 1000. |
| Economy.FourthResearchCost | App.tsx:598-600 | With five buildings the research costs 1000 x 3.5^3 = 42875. |
| Economy.ResearchDuration | App.tsx:650-651 | Research lasts at least 30 s. It lasts exactly 30 s while at most the starter buildings exist (the count is clamped at 0). |
| Economy.ResearchDurationExamples | App.tsx:650-651 | Two buildings give 30 s. Five give 120 s. |
| Economy.FloorCbrt | App.tsx:669 | The integer cube root r of m satisfies r^3 <= m < (r+1)^3, negative m included. |
| Economy.FloorCbrtUnique | App.tsx:669 | Any n with n^3 <= m < (n+1)^3 is that cube root. |
| Economy.PrestigeGain | App.tsx:669 | The gain g satisfies g^3 <= total/1000 < (g+1)^3. |
| Economy.PrestigeGainPositiveIff | App.tsx:669-670 | The gain is positive if and only if at least 1000 were generated this run. |
| Economy.PrestigeGainNonNegative | App.tsx:669 | A non-negative total never gives a negative gain. |
| Economy.PrestigeGainOfAMillion | App.tsx:669 | A total of 1,000,000 gives exactly 10 shards. |
| AchievementRules.Evaluate | App.tsx:242-270 | An achievement becomes unlocked iff it was unlocked or its condition holds. Unlocked and SPECIAL achievements come back unchanged. |
| AchievementRules.EvaluateAll | App.tsx:242-271 | The pass maps every achievement through that rule, preserving order and length. |
| AchievementRules.Newly | App.tsx:264-267 | The newly unlocked list is at most as long as the catalogue. Every entry is unlocked and not SPECIAL. It is empty iff no achievement is newly satisfied. |
| AchievementRules.NewlyMembers | App.tsx:264-267 | Every newly satisfied achievement is in the list, unlocked, and every entry of the list is a newly satisfied achievement, unlocked. |
| AchievementRules.NewlyAppend | App.tsx:242-267 | The list is collected in declaration order: that of a concatenation is the lists of its parts, concatenated. |
| AchievementRules.NewlyOne | App.tsx:264-267 | A single achievement contributes itself, unlocked, exactly when it is newly satisfied, and nothing otherwise. |
| AchievementRules.EvaluationPass | App.tsx:241-271 | The loop that pushes into `newlyUnlocked` while mapping returns exactly the mapped list and the newly unlocked list. |
| AchievementRules.NothingNewAfterEvaluation | App.tsx:240-273 | After a pass, a second pass against the same metrics finds nothing new. |
| Reducer.AppendLogs | App.tsx:134 | Appending then keeping the last 50 never exceeds 50 entries. It keeps everything when the total fits. The appended entries are always the tail. |
| Reducer.OrOne | App.tsx:67 | `x \|\| 1` is never 0 and keeps every non-zero x. |
| Reducer.BuildingIndex | App.tsx:79-80 | The found index is the first building with that id. It is -1 iff none has it. |
| Reducer.HelperIndex | App.tsx:97-98 | The found index is the first helper with that id. It is -1 iff none has it. |
| Reducer.AchievementIndex | App.tsx:322-323 | The found index is the first achievement with that id. It is -1 iff none has it. |
| Reducer.BuffClicker | App.tsx:150-155 | Only helpers with id h_clicker get their bonus (0 read as 1) times 1.25. The others are unchanged. |
| Reducer.BoostOutput | App.tsx:195-198 | Every building's output is multiplied by 1.15, and order and counts are kept. |
| Reducer.Evolve | App.tsx:187-211 | An evolution sets the tier, multiplies click power by 1.5, buffs h_clicker, boosts outputs and logs one entry. Nothing else changes. |
| Reducer.TickStep | App.tsx:49-65 | TICK adds the same amount, production x multiplier x dt/1000, to resources, the run total and the lifetime total, and sets lastSaveTime to now. Nothing else changes. |
| Reducer.ClickStep | App.tsx:66-77 | CLICK adds clickPower x prestigeMultiplier x (multiplier \|\| 1) to all three counters. It increments totalClicks by exactly 1. Nothing else changes. |
| Reducer.BuyBuildingStep | App.tsx:78-95 | An unknown id or an unaffordable price leaves the state unchanged. Otherwise resources fall by exactly the price, and only that building's count goes up by 1, with its highlight cleared. Nothing else changes. |
| Reducer.BuyHelperStep | App.tsx:96-112 | An unknown, already unlocked or unaffordable helper leaves the state unchanged. Otherwise the helper is unlocked and activated, its cost is paid, and one log entry is appended without the cap. |
| Reducer.ToggleHelperStep | App.tsx:113-118 | Every helper with that id has `active` flipped. The other helpers and all other fields are unchanged. |
| Reducer.HelperActionStep | App.tsx:119-124 | Only helpers with that id get lastActionTime = now. Nothing else changes. |
| Reducer.StartResearchStep | App.tsx:125-136 | The cost is charged with no affordability check, and one log entry is appended under the cap. Nothing else changes. |
| Reducer.UnlockBuildingStep | App.tsx:137-174 | One building is appended at the end: count 0, cost multiplier 1.2, the current tier, highlighted. Click power doubles, only h_clicker is buffed, and the generation count goes up by 1. |
| Reducer.UpdateTierStep | App.tsx:184-213 | Moving to the current tier is a no-op. Any other tier is an evolution with a story log. |
| Reducer.ForceEvolveStep | App.tsx:354-370 | At Omnipotent nothing changes. Otherwise the state evolves to the successor tier with a cheat log. |
| Reducer.PrestigeStep | App.tsx:214-239 | Shards become old + gain, and the multiplier becomes 1 + 0.1 x shards. The galaxy name, achievements, lifetime total and clicks are kept. Helpers keep their flags with bonus 1. Click power becomes 1. Everything else is from the initial state, and the log holds one entry. |
| Reducer.AchievementLogs | App.tsx:275-280 | There are n entries, each an achievement entry stamped now. |
| Reducer.CheckAchievementsStep | App.tsx:240-288 | The state is identical when nothing is newly satisfied. Nothing is re-locked. Unlocked and SPECIAL entries are untouched. The queue gains exactly the newly unlocked list, whose contents and catalogue order NewlyMembers, NewlyAppend and NewlyOne fix. Otherwise the log gains one achievement entry per newly unlocked achievement, capped at 50. |
| Reducer.WithoutId | App.tsx:292 | The filtered queue holds only entries whose id differs, all of them, and is no longer than the queue. |
| Reducer.WithoutIdAppend | App.tsx:292 | The filter distributes over concatenation, so it keeps order and multiplicity. |
| Reducer.WithoutIdOne | App.tsx:292 | On one entry the filter keeps it exactly when its id differs. With the append lemma this pins the filter down. |
| Reducer.WithoutIdIdempotent | App.tsx:292 | Filtering twice is filtering once. |
| Reducer.WithoutIdAbsent | App.tsx:292 | A queue with no entry of that id is left unchanged. |
| Reducer.DismissStep | App.tsx:289-294 | Only the notification queue changes. No entry with that id is left, and every other entry stays. Order and multiplicity follow from the WithoutId lemmas. |
| Reducer.DismissIdempotent | App.tsx:289-294 | Dismissing twice is dismissing once. Dismissing an id that is not queued changes nothing. |
| Reducer.UnlockSecretStep | App.tsx:321-339 | An unknown or already unlocked id is a no-op. Otherwise that achievement is unlocked, queued and logged. Nothing else changes. |
| Reducer.MergeAchievement | App.tsx:301-308 | A catalogue achievement takes only the `unlocked` flag of the first saved entry with its id, and stays as it is when none exists. |
| Reducer.LoadGameStep | App.tsx:295-313 | The snapshot is laid over the initial state. Saved buildings have their highlight cleared. Achievements are the catalogue merged by id. Every other field is the saved value when present and the initial one otherwise: helpers, tier, resources, totals, clicks, click power, shards, multiplier, logs, queue, name, theme, resource name, save time and generation count. |
| Reducer.CheatAddResourcesStep | App.tsx:340-346 | 10^15 is added to resources and to the lifetime total, but not to the run total. |
| Reducer.CheatAddShardsStep | App.tsx:347-353 | Adds 100 shards and 10 to the multiplier, which preserves multiplier = 1 + 0.1 x shards. |
| Reducer.TimeWarpStep | App.tsx:371-383 | One hour of production is added to resources and the lifetime total, but not the run total. |
| Reducer.UnlockAllStep | App.tsx:384-390 | Every achievement is unlocked and nothing is queued. One cheat log is appended. |
| Reducer.RunSnoc | App.tsx:47-393 | Dispatching a list and then one action is dispatching the extended list. |
| Reducer.RunAppend | App.tsx:47-393 | Dispatching two lists in turn is dispatching their concatenation. |
| ReducerProperties.LogsStayCapped | App.tsx:108 | From at most 50 entries, every action but BUY_HELPER and LOAD_GAME keeps the log at 50 or fewer. BUY_HELPER adds at most one. |
| ReducerProperties.BuyHelperOverflowsLog | App.tsx:108 | A helper bought with a full log leaves 51 entries. |
| ReducerProperties.MultiplierInvariantKept | App.tsx:214-217 | Multiplier = 1 + 0.1 x shards survives every action except LOAD_GAME, cheats included. |
| ReducerProperties.ResourcesStayNonNegative | App.tsx:125-164 | One step: from a non-negative, sane state with non-negative inputs, resources stay non-negative under every action but LOAD_GAME. Research costs must be within the resources, as the drivers ensure. |
| ReducerProperties.InitialPlayable | types.ts:347-368 | The starting universe is playable: sane, with non-negative resources and shards, and the multiplier in step with the shards. |
| ReducerProperties.PlayableKept | App.tsx:47-393 | Every guarded action keeps a playable state playable. Guarded means non-negative inputs, no LOAD_GAME, affordable research costs and a researched building with non-negative output. |
| ReducerProperties.SaneOutputKept | App.tsx:78-213 | No guarded action makes click power or a building's output negative. Purchases keep outputs, evolution scales them by 1.15, and research appends a non-negative one. |
| ReducerProperties.PlayableAlongRun | App.tsx:47-393 | Along any run of guarded actions the state stays playable, so resources are never negative. |
| ReducerProperties.LifetimeNeverFalls | App.tsx:49-77 | The lifetime total never falls except on reset or load. Prestige carries it over. |
| ReducerProperties.ShardsNeverFall | App.tsx:214-216 | Shards never fall except on reset or load. |
| ReducerProperties.UnlocksArePermanent | App.tsx:240-339 | Achievement and helper unlocks are never taken back, prestige included, except by reset or load. |
| ReducerProperties.TierNeverFallsWithinRun | App.tsx:184-213 | Within a run the tier only rises. UPDATE_TIER goes exactly where it is told. |
| ReducerProperties.CheckAchievementsIdempotent | App.tsx:273 | A second CHECK_ACHIEVEMENTS right after a first returns the same state. |
| ReducerProperties.LoadRoundTrip | App.tsx:295-313 | Loading the snapshot of a state gives the state back, when its achievements have the catalogue's shape and no building is highlighted. |
| ReducerProperties.InitialStateRoundTrips | App.tsx:295-313 | The initial state survives a save and load. |
| ReducerProperties.ComputeProduction | App.tsx:371-376 | The forEach accumulation loop yields the summed production times the multiplier. |
| ReducerProperties.NoProductionAtStart | types.ts:133-158 | The starter universe produces nothing until a building is bought. |
| Drivers.CheapestAffordable | App.tsx:482-491 | The pick is None iff nothing is affordable. Otherwise it is affordable, no affordable building is cheaper, and it comes first among equally cheap ones. |
| Drivers.HelperActions | App.tsx:462-499 | A helper that is not due dispatches nothing. A due one dispatches at most one click or purchase, then its own stamp. CLICK carries bonus \|\| 1, BUY buys the cheapest affordable building, and RESEARCH only stamps. |
| Drivers.DueHelperActs | App.tsx:466-499 | A due clicker dispatches its click (bonus \|\| 1) then its stamp. A due buyer buys the cheapest affordable building and then stamps, or only stamps when nothing is affordable. A due researcher only stamps. |
| Drivers.HelperSchedule | App.tsx:461-501 | A pass dispatches nothing iff no helper is due. It has at most two actions per helper, and only clicks, purchases and stamps. |
| Drivers.ScheduleStampsTheDue | App.tsx:499 | A helper id is stamped in the pass iff some helper with that id is due, whether or not its action succeeded. |
| Drivers.ScheduleBuysCheapest | App.tsx:482-491 | Every purchase in a pass is of the cheapest building affordable in the frame's view. |
| Drivers.ScheduleAppend | App.tsx:461-501 | The pass over two helper lists in a row is the two passes in a row. |
| Drivers.ScheduleIncludesEach | App.tsx:461-501 | Whatever one helper dispatches appears in the pass over a list containing it. |
| Drivers.ScheduleActsForTheDue | App.tsx:466-491 | In a pass, a due clicker clicks with its bonus, and a due buyer buys the cheapest affordable building whenever one is affordable. |
| Drivers.SchedulePreservesBuildingList | App.tsx:461-501 | A helper pass never adds or removes a building. |
| Drivers.EvolutionRoll | App.tsx:557-577 | Omnipotent never evolves. A roll below the chance moves exactly one tier up. A roll below five times the chance logs a resonance. Anything else does nothing. |
| Drivers.EvolutionAlwaysApplies | App.tsx:185 | An evolution that fires always lands on a different, higher tier, so its buffs apply. |
| Drivers.ResonanceOnlyLogs | App.tsx:575-577 | A roll in the resonance band only appends a log entry. The tier and everything else stay as they were. |
| Drivers.CheatAction | App.tsx:711-713 | Each menu cheat is one of the five CHEAT_ actions. |
| Drivers.CheatUnlocksHacker | App.tsx:711-716 | After any cheat the a_dirty_hacker achievement is unlocked, whenever the state holds it. |
| Drivers.Game.Dispatch | App.tsx:47-393 | The state becomes `Step` of the old state. No hook changes. |
| Drivers.Game.SyncResearchCost | App.tsx:597-601 | The research cost becomes 1000 x 3.5^(buildings - 2) of the current state. |
| Drivers.Game.RunHelper | App.tsx:462-499 | One helper's turn dispatches exactly its actions on the live state. |
| Drivers.Game.ProcessHelpers | App.tsx:461-501 | The loop over the helpers leaves the state equal to dispatching the whole schedule in helper order. |
| Drivers.Game.SettleResearch | App.tsx:508-530 | Expired research with a resolved result dispatches exactly UNLOCK_BUILDING at cost 0. A rejected one adds one info log with no refund. Expiry without a request just clears. Each settled case returns to inactive with times zeroed. |
| Drivers.Game.Tick | App.tsx:503-533 | A frame with dt <= 0 changes nothing. Otherwise it is TICK, the helper pass on the pre-frame view, then research settlement, with lastTick = now. |
| Drivers.Game.HandleResearch | App.tsx:641-666 | Research starts iff resources >= the research cost, no research is active and the animation is idle. Starting charges the cost, sets duration 30 s + 30 s x max(0, buildings - 2) and holds a request. Otherwise nothing changes. |
| Drivers.Game.HandlePrestige | App.tsx:668-692 | The reset happens iff the run produced at least 1000. It then dispatches PRESTIGE with floor(cbrt(total/1000)) and turns the research off. Otherwise nothing changes. |
| Drivers.Game.EvolutionCheck | App.tsx:557-581 | The 5-second check dispatches exactly what EvolutionRoll gives for the tier and roll. |
| Drivers.Game.HandleCheat | App.tsx:711-716 | The state is the cheat followed by UNLOCK_SECRET_ACHIEVEMENT a_dirty_hacker. |
| Drivers.Game.HandleHardResetAsWritten | App.tsx:694-709 | The state becomes the initial state, and the research hooks are left as they were. |
| Drivers.Game.HandleHardReset | App.tsx:694-709 | The state becomes the initial state, with no research active and no request pending. |
| Drivers.NoHelpersAtStart | types.ts:94-131 | With the starter helpers a pass dispatches nothing. |
| Drivers.LateResultAfterHardResetAsWritten | App.tsx:694-709 | After the reset as written, a research result that arrives late adds a building to the fresh universe. |
| Drivers.LateResultAfterHardReset | App.tsx:694-709 | After the corrected reset, the same late result leaves the starter buildings untouched. |
| Drivers.LateResultAfterPrestige | App.tsx:685 | Take a research that no frame has yet seen expire. Its result arriving after a prestige is dropped, and the building list is the starter one. |
| SaveCodec.KeyIsAscii | services/saveService.ts:5 | The key has 18 characters, all ASCII. |
| SaveCodec.XorWithKey | services/saveService.ts:12-15 | The XOR step keeps the length. Character i XORed again with key[i mod 18] gives back the input. |
| SaveCodec.XorInvolution | services/saveService.ts:13-15 | Applying the XOR step twice returns the original code units. |
| SaveCodec.XorKeepsAscii | services/saveService.ts:8-16 | An ASCII text stays ASCII under the XOR step, so it is within what btoa accepts. |
| SaveCodec.Obfuscate | services/saveService.ts:9-21 | A failing URI encoding or a failing btoa yields the empty text instead of throwing. |
| SaveCodec.Deobfuscate | services/saveService.ts:24-36 | A failing atob or a failing URI decoding yields the empty text instead of throwing. |
| SaveCodec.DeobfuscateInvertsObfuscate | services/saveService.ts:9-36 | Deobfuscation inverts obfuscation whenever URI encoding succeeds, given Base64 and URI codecs that round-trip. |
| SaveCodec.ImportSaveString | services/saveService.ts:73-89 | Import succeeds iff the decoding is non-empty, parses, and has resources and buildings. It then returns the parsed value. Every failure is one error. |
| SaveCodec.ExportThenImport | services/saveService.ts:63-89 | An exported save imports as the snapshot of the state it was made from. |
| SaveCodec.ExportImportLoad | services/saveService.ts:63-89 | Export, import and LOAD_GAME give the original state back, under the load round trip's conditions. |
| SaveCodec.LoadFromLocal | services/saveService.ts:51-61 | Nothing stored, an empty entry or a parse failure gives no snapshot. Otherwise the result is the parse. |
| SaveCodec.LocalSaveRoundTrip | services/saveService.ts:38-61 | A local save loads back as the snapshot of the saved state. |
| News.TierNewsCounts | services/newsService.ts:8-39 | There are 6 headlines each for Quantum, Macrocosm and Cosmic, 3 for Multiversal and none for Omnipotent. |
| News.ResourceNews | services/newsService.ts:42-54 | The three resource brackets are exclusive: below 100, strictly between 10^4 and 10^5, and above 10^6. Each adds 3 headlines. |
| News.ResourceGaps | services/newsService.ts:42-54 | Values between the brackets, boundaries included, add nothing. |
| News.CountOf | services/newsService.ts:57-65 | A missing building counts 0. Otherwise the count is that of the first building with the id. |
| News.CandidatesNeverEmpty | services/newsService.ts:72-82 | The list always ends with the eight fixed headlines, so it is never empty. |
| News.CandidateCount | services/newsService.ts:57-69 | The list's size is the tier's and the bracket's share, plus 2 for more than 10 cursors, plus 2 for more than 5 drones, plus 8. |
| News.StarterCandidates | services/newsService.ts:4-80 | A fresh universe draws from 17 headlines. |
| News.CollectHeadlines | services/newsService.ts:4-79 | The push sequence builds exactly the candidate list. |
| News.PickIndex | services/newsService.ts:84 | floor(roll x n) lies in [0, n) and is the index i with i <= roll x n < i + 1. |
| News.GetNewsHeadline | services/newsService.ts:4-85 | The headline is a candidate, at index floor(roll x length). |
| AchievementPanel.ShownMetric | components/AchievementPanel.tsx:38-58 | The bar's metric is the reducer's, except for shards. Shards show as held when non-negative, and as 0 when negative. |
| AchievementPanel.Progress | components/AchievementPanel.tsx:35-60 | Progress is 100 when unlocked and never above 100. A locked SPECIAL shows 0. For a locked non-SPECIAL with a positive threshold it reaches 100 iff the reducer's unlock condition holds. With a zero threshold, a zero or negative metric has no finite value (NaN or -Infinity). |
| AchievementPanel.ProgressTextOf | components/AchievementPanel.tsx:62-85 | The text is "Completed" iff unlocked, "???" iff locked SPECIAL, and otherwise the floored raw metric over the threshold. |
| AchievementPanel.Visible | components/AchievementPanel.tsx:87 | Every listed achievement is not hidden or unlocked, every such one is listed, and the list is no longer than the catalogue. |
| AchievementPanel.VisibleAppend | components/AchievementPanel.tsx:87 | The listing distributes over concatenation, so it keeps order and multiplicity. |
| AchievementPanel.VisibleOne | components/AchievementPanel.tsx:87 | One achievement is listed exactly when it is not hidden or is unlocked. |
| AchievementPanel.Unlocked | components/AchievementPanel.tsx:88 | Every entry is unlocked and from the input, and every unlocked input entry is kept. |
| AchievementPanel.UnlockedAppend | components/AchievementPanel.tsx:88 | The unlocked filter distributes over concatenation. |
| AchievementPanel.UnlockedOne | components/AchievementPanel.tsx:88 | One achievement is kept exactly when it is unlocked. |
| AchievementPanel.UnlockedCountsPositions | components/AchievementPanel.tsx:88 | The filter keeps one entry per unlocked position, so its length counts them exactly. |
| AchievementPanel.UnlockedCount | components/AchievementPanel.tsx:88 | The count is exactly the number of unlocked positions in the catalogue, and never exceeds the listed count. |
| AchievementPanel.UnlockedAreVisible | components/AchievementPanel.tsx:87-88 | Counting unlocked among the listed misses none: it equals counting among all. |
| AchievementPanel.StarterPanel | components/AchievementPanel.tsx:87-88 | A fresh catalogue lists 16 achievements, none unlocked. |
| PrestigeModal.PotentialCurrency | components/PrestigeModal.tsx:16 | The offer is the same gain as the gate at App.tsx:669. It is positive iff the total is at least 1000, and non-negative for a non-negative total. |
| PrestigeModal.CurrentBonus | components/PrestigeModal.tsx:19 | Under the multiplier relation, the bonus is 10% per shard held. |
| PrestigeModal.NewMultiplier | components/PrestigeModal.tsx:23-24 | The preview uses the reducer's multiplier rule for the shards held plus those on offer. PrestigeModal.PreviewMatchesPrestige proves PRESTIGE then yields this value. With the multiplier in step and a non-negative total, the preview never offers less than the current multiplier. |
| PrestigeModal.NewBonus | components/PrestigeModal.tsx:25 | The previewed bonus is 10% per shard after the reset. |
| PrestigeModal.ResetEnabledIff | components/PrestigeModal.tsx:78 | The button is enabled iff the total is at least 1000, the same condition as Drivers.Game.HandlePrestige. |
| PrestigeModal.PreviewMatchesPrestige | components/PrestigeModal.tsx:16-25 | PRESTIGE with the offered gain yields exactly the shown shards, multiplier and bonus. |
| PrestigeModal.BonusNeverDrops | components/PrestigeModal.tsx:19-25 | Under the multiplier relation and with a non-negative total, the new bonus is at least the current one. It is at least 10 points more when the button is enabled. |
| PrestigeModal.AMillionOffersTen | components/PrestigeModal.tsx:16-25 | A million produced from zero shards offers 10 shards: multiplier 2, bonus 100%. |

## Left out

- Rendering, animation and sound are not modelled. This covers JSX, CSS, floating texts, playSound and every purely presentational component. The animation state appears only as the `idle` argument of `HandleResearch`.
- services/audioService.ts is not modelled. It is Web Audio synthesis.
- The content generator (generateNextBuilding, generatePrestigeTheme and generateStoryEvent) is not part of this model. A research request's outcome is a parameter of `Game.Tick`, and the prestige theme is a parameter of `HandlePrestige`. The story interval (App.tsx:603-611) and the status interval are left out with it.
- Only one settlement per expired research is modelled. Re-attaching `.then` on every frame until the promise settles (App.tsx:514-525) can dispatch a result more than once. Nothing here covers that.
- Delays are collapsed into the handler itself:
  - The prestige handler's `await` and its 2.4 s timeout are collapsed; the dispatch and the research stop happen in one step.
  - The hard reset's 2.5 s delay is collapsed in the same way.
- Log messages, log ids and `toLocaleString` formatting are left out. `Date.now()` values are the `now` parameter. The start-up timestamps of INITIAL_STATE are 0.
- Some fields are left out because the core never reads them:
  - on buildings: `description`, `flavorText` and `unlocked`;
  - on helpers: name and description;
  - on achievements: name, description, icon and flavor text.
- Optional fields get defaults. A missing `bonusMultiplier` or `hidden` is represented by its default (1, respectively false). `|| 1` is applied where the code applies it.
- IEEE-754 arithmetic is replaced by exact reals:
  - `Math.cbrt` is the exact integer cube root of the floor. It can differ from the float result just below a perfect cube.
  - Infinity and NaN appear only where the panel divides by a zero threshold. A +Infinity quotient is capped at 100. NaN and -Infinity are `None`.
- `localStorage`, `JSON.stringify`/`JSON.parse`, `btoa`/`atob` and `encodeURIComponent`/`decodeURIComponent` are function parameters. Their round-trip promises are stated as predicates.
- In import validation, `null` is treated like a missing field. A `resources` value of `null` passes the source's `=== undefined` test. The model treats it as missing.
- A throwing `JSON.stringify` in export is not modelled.
- The periodic `saveToLocal` interval, the mount-time load effect and file download/upload are not modelled.
- The debug-menu key handler, which unlocks a_cheater through the same secret-achievement action, is not modelled. `Reducer.UnlockSecretStep` covers what it dispatches.
- News.GetNewsHeadline: the "nothing is happening" fallback (services/newsService.ts:82) is omitted because it is unreachable. `News.CandidatesNeverEmpty` proves the list always has at least 8 entries.
- Drivers.Game.Tick: `requestAnimationFrame` scheduling is not modelled. Each call is one frame.
- ReducerProperties.ResourcesStayNonNegative is stated only for what the drivers send. START_RESEARCH and UNLOCK_BUILDING subtract without a check (App.tsx:128, 159), so arbitrary costs can drive resources negative. `Sane` alone is not kept: a PRESTIGE from negative shards, or an UNLOCK_BUILDING with negative output, breaks it. `ReducerProperties.PlayableAlongRun` therefore lifts the bound to whole runs of guarded actions. Whether a helper's bonus is non-negative, which makes its clicks guarded, is not proved.
- Drivers.LateResultAfterPrestige: only a research that no frame has yet seen expire is covered. Once a frame sees an expired research whose result is still outstanding, App.tsx:514-526 attaches a callback. That callback unlocks the building whenever the result arrives, even after a prestige. The model settles outcomes within the frame and does not keep such callbacks.

## Findings

| source | as written | input that shows it | evidently intended | confidence | as-written member | corrected member |
|---|---|---|---|---|---|---|
| App.tsx:694-709 | `handleHardReset` dispatches RESET_GAME but leaves the research state active and the pending request held. | Start a research, hard-reset before it expires, then let a frame pass its expiry: the next tick dispatches UNLOCK_BUILDING into the fresh universe, which then has three buildings, doubled click power and a research cost of 3500. | A hard reset also cancels the research, as prestige does at App.tsx:685, so that the new universe keeps its two starter buildings. | not executed | Drivers.LateResultAfterHardResetAsWritten | Drivers.LateResultAfterHardReset |
