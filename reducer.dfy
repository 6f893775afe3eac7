/**
 * The state-transition function of the simulation, `gameReducer` (App.tsx:47-393):
 * a total function from a state, an action and the wall-clock time `now` (the value
 * `Date.now()` returns during the call) to the next state. Every action case is a
 * function of its own whose contract says what changes and that nothing else does.
 */
module Reducer {
  import opened Wrappers
  import opened GameTypes
  import opened Economy
  import opened AchievementRules

  /** The closed action union of App.tsx:22-44; log messages are not carried. */
  datatype Action =
    | Tick(dt: real)
    | Click(multiplier: Option<real>)
    | BuyBuilding(id: string)
    | BuyHelper(id: string)
    | ToggleHelper(id: string)
    | HelperAction(helperId: string)
    | UnlockBuilding(data: GeneratedBuildingData, cost: real)
    | StartResearch(cost: real)
    | AddLog(logType: LogType)
    | LoadGame(saved: Snapshot)
    | UpdateTier(tier: Tier)
    | Prestige(newTheme: string, newResource: string, currencyGain: real)
    | CheckAchievements
    | DismissAchievement(id: string)
    | ResetGame
    | RenameGalaxy(name: string)
    | CheatAddResources
    | CheatForceEvolve
    | CheatAddShards
    | CheatTimeWarp
    | CheatUnlockAchievements
    | UnlockSecretAchievement(id: string)

  const LogCap: nat := 50

  /** `[...logs, ...entries].slice(-50)`: append, then keep the 50 most recent. */
  function AppendLogs(logs: seq<LogEntry>, entries: seq<LogEntry>): (r: seq<LogEntry>)
    ensures |r| <= LogCap
    ensures |logs| + |entries| <= LogCap ==> r == logs + entries
    ensures |entries| <= LogCap ==> |entries| <= |r| && r[|r| - |entries|..] == entries
  {
    TakeLast(logs + entries, LogCap)
  }

  /** JavaScript's `x || 1` on a number: 0 counts as absent. */
  function OrOne(x: real): (r: real)
    ensures r != 0.0
    ensures x != 0.0 ==> r == x
  {
    if x == 0.0 then 1.0 else x
  }

  // ---- lookups by id ----

  function BuildingIndex(bs: seq<Building>, id: string): (r: int)
    ensures -1 <= r < |bs|
    ensures r >= 0 ==> bs[r].id == id && forall j :: 0 <= j < r ==> bs[j].id != id
    ensures r == -1 <==> forall j :: 0 <= j < |bs| ==> bs[j].id != id
  {
    FindIndex(bs, (b: Building) => b.id == id)
  }

  function HelperIndex(hs: seq<Helper>, id: string): (r: int)
    ensures -1 <= r < |hs|
    ensures r >= 0 ==> hs[r].id == id && forall j :: 0 <= j < r ==> hs[j].id != id
    ensures r == -1 <==> forall j :: 0 <= j < |hs| ==> hs[j].id != id
  {
    FindIndex(hs, (h: Helper) => h.id == id)
  }

  function AchievementIndex(achs: seq<Achievement>, id: string): (r: int)
    ensures -1 <= r < |achs|
    ensures r >= 0 ==> achs[r].id == id && forall j :: 0 <= j < r ==> achs[j].id != id
    ensures r == -1 <==> forall j :: 0 <= j < |achs| ==> achs[j].id != id
  {
    FindIndex(achs, (a: Achievement) => a.id == id)
  }

  // ---- shared pieces of several cases ----

  /** The research and evolution buff: only the helper with id `h_clicker` gets x1.25. */
  function BuffClicker(hs: seq<Helper>): (r: seq<Helper>)
    ensures |r| == |hs|
    ensures forall i :: 0 <= i < |hs| ==>
      r[i] == if hs[i].id == ClickerId then hs[i].(bonusMultiplier := OrOne(hs[i].bonusMultiplier) * 1.25) else hs[i]
  {
    seq(|hs|, i requires 0 <= i < |hs| =>
      if hs[i].id == ClickerId then hs[i].(bonusMultiplier := OrOne(hs[i].bonusMultiplier) * 1.25) else hs[i])
  }

  /** Structure output x1.15 on every building, order and counts kept. */
  function BoostOutput(bs: seq<Building>): (r: seq<Building>)
    ensures |r| == |bs|
    ensures forall i :: 0 <= i < |bs| ==> r[i] == bs[i].(baseProduction := bs[i].baseProduction * 1.15)
  {
    seq(|bs|, i requires 0 <= i < |bs| => bs[i].(baseProduction := bs[i].baseProduction * 1.15))
  }

  /** Tier evolution as UPDATE_TIER and CHEAT_FORCE_EVOLVE apply it (App.tsx:187-211, 363-369). */
  function Evolve(s: GameState, tier: Tier, kind: LogType, now: int): (r: GameState)
    ensures r.currentTier == tier && r.clickPower == s.clickPower * 1.5
    ensures r.helpers == BuffClicker(s.helpers) && r.buildings == BoostOutput(s.buildings)
    ensures r.logs == AppendLogs(s.logs, [LogEntry(kind, now)])
    ensures r == s.(currentTier := tier, clickPower := r.clickPower, helpers := r.helpers,
                    buildings := r.buildings, logs := r.logs)
  {
    s.(currentTier := tier,
       clickPower := s.clickPower * 1.5,
       helpers := BuffClicker(s.helpers),
       buildings := BoostOutput(s.buildings),
       logs := AppendLogs(s.logs, [LogEntry(kind, now)]))
  }

  /** The decimal digits of a natural number. */
  function Digits(n: nat): (r: string)
    ensures |r| > 0
    decreases n
  {
    var d := ["0", "1", "2", "3", "4", "5", "6", "7", "8", "9"][n % 10];
    if n < 10 then d else Digits(n / 10) + d
  }

  /** The id `b_gen_<now>` given to a researched building. */
  function GeneratedId(now: int): string {
    "b_gen_" + (if now < 0 then "-" + Digits(-now) else Digits(now))
  }

  // ---- accrual ----

  /** TICK: the production of `dt` milliseconds goes to all three counters alike. */
  function TickStep(s: GameState, dt: real, now: int): (r: GameState)
    ensures r.resources - s.resources == TotalProduction(s) * (dt / 1000.0)
    ensures r.totalResourcesGenerated - s.totalResourcesGenerated == r.resources - s.resources
    ensures r.lifetimeTotalResources - s.lifetimeTotalResources == r.resources - s.resources
    ensures r == s.(resources := r.resources, totalResourcesGenerated := r.totalResourcesGenerated,
                    lifetimeTotalResources := r.lifetimeTotalResources, lastSaveTime := now)
  {
    var delta := TotalProduction(s) * (dt / 1000.0);
    s.(resources := s.resources + delta,
       totalResourcesGenerated := s.totalResourcesGenerated + delta,
       lifetimeTotalResources := s.lifetimeTotalResources + delta,
       lastSaveTime := now)
  }

  /** CLICK: click power times prestige multiplier times the multiplier (0 or absent meaning 1). */
  function ClickStep(s: GameState, multiplier: Option<real>): (r: GameState)
    ensures r.resources - s.resources == s.clickPower * s.prestigeMultiplier * OrOne(multiplier.GetOr(0.0))
    ensures r.totalResourcesGenerated - s.totalResourcesGenerated == r.resources - s.resources
    ensures r.lifetimeTotalResources - s.lifetimeTotalResources == r.resources - s.resources
    ensures r.totalClicks == s.totalClicks + 1
    ensures r == s.(resources := r.resources, totalResourcesGenerated := r.totalResourcesGenerated,
                    lifetimeTotalResources := r.lifetimeTotalResources, totalClicks := r.totalClicks)
  {
    var m := OrOne(multiplier.GetOr(0.0));
    var clickVal := s.clickPower * s.prestigeMultiplier * m;
    s.(resources := s.resources + clickVal,
       totalResourcesGenerated := s.totalResourcesGenerated + clickVal,
       lifetimeTotalResources := s.lifetimeTotalResources + clickVal,
       totalClicks := s.totalClicks + 1)
  }

  // ---- purchases ----

  /** BUY_BUILDING: an unknown id or an unaffordable cost is a no-op. */
  function BuyBuildingStep(s: GameState, id: string): (r: GameState)
    ensures var i := BuildingIndex(s.buildings, id);
      if i == -1 || s.resources < BuildingCost(s.buildings[i]) as real then r == s
      else
        && r.resources == s.resources - BuildingCost(s.buildings[i]) as real
        && |r.buildings| == |s.buildings|
        && r.buildings[i] == s.buildings[i].(count := s.buildings[i].count + 1, justUnlocked := false)
        && (forall j :: 0 <= j < |s.buildings| && j != i ==> r.buildings[j] == s.buildings[j])
        && r == s.(resources := r.resources, buildings := r.buildings)
  {
    var i := BuildingIndex(s.buildings, id);
    if i == -1 then s
    else
      var b := s.buildings[i];
      var cost := BuildingCost(b);
      if s.resources >= cost as real then
        s.(resources := s.resources - cost as real,
           buildings := s.buildings[i := b.(count := b.count + 1, justUnlocked := false)])
      else s
  }

  /** BUY_HELPER: unlocks and activates a locked, affordable helper; the log is appended without the cap. */
  function BuyHelperStep(s: GameState, id: string, now: int): (r: GameState)
    ensures var i := HelperIndex(s.helpers, id);
      if i == -1 || s.resources < s.helpers[i].baseCost || s.helpers[i].unlocked then r == s
      else
        && r.resources == s.resources - s.helpers[i].baseCost
        && |r.helpers| == |s.helpers|
        && r.helpers[i] == s.helpers[i].(unlocked := true, active := true)
        && (forall j :: 0 <= j < |s.helpers| && j != i ==> r.helpers[j] == s.helpers[j])
        && r.logs == s.logs + [LogEntry(InfoLog, now)]
        && r == s.(resources := r.resources, helpers := r.helpers, logs := r.logs)
  {
    var i := HelperIndex(s.helpers, id);
    if i == -1 then s
    else
      var h := s.helpers[i];
      if s.resources >= h.baseCost && !h.unlocked then
        s.(resources := s.resources - h.baseCost,
           helpers := s.helpers[i := h.(unlocked := true, active := true)],
           logs := s.logs + [LogEntry(InfoLog, now)])
      else s
  }

  /** TOGGLE_HELPER: flips `active` on every helper with that id. */
  function ToggleHelperStep(s: GameState, id: string): (r: GameState)
    ensures |r.helpers| == |s.helpers|
    ensures forall i :: 0 <= i < |s.helpers| ==>
      r.helpers[i] == if s.helpers[i].id == id then s.helpers[i].(active := !s.helpers[i].active) else s.helpers[i]
    ensures r == s.(helpers := r.helpers)
  {
    s.(helpers := seq(|s.helpers|, i requires 0 <= i < |s.helpers| =>
         var h := s.helpers[i]; if h.id == id then h.(active := !h.active) else h))
  }

  /** HELPER_ACTION: stamps `lastActionTime := now` on that helper only. */
  function HelperActionStep(s: GameState, helperId: string, now: int): (r: GameState)
    ensures |r.helpers| == |s.helpers|
    ensures forall i :: 0 <= i < |s.helpers| ==>
      r.helpers[i] == if s.helpers[i].id == helperId then s.helpers[i].(lastActionTime := now) else s.helpers[i]
    ensures r == s.(helpers := r.helpers)
  {
    s.(helpers := seq(|s.helpers|, i requires 0 <= i < |s.helpers| =>
         var h := s.helpers[i]; if h.id == helperId then h.(lastActionTime := now) else h))
  }

  // ---- research ----

  /** START_RESEARCH: charges the cost with no affordability check and logs. */
  function StartResearchStep(s: GameState, cost: real, now: int): (r: GameState)
    ensures r.resources == s.resources - cost
    ensures r.logs == AppendLogs(s.logs, [LogEntry(InfoLog, now)])
    ensures r == s.(resources := r.resources, logs := r.logs)
  {
    s.(resources := s.resources - cost, logs := AppendLogs(s.logs, [LogEntry(InfoLog, now)]))
  }

  /** UNLOCK_BUILDING: appends the researched building and applies the research buffs. */
  function UnlockBuildingStep(s: GameState, data: GeneratedBuildingData, cost: real, now: int): (r: GameState)
    ensures r.resources == s.resources - cost
    ensures |r.buildings| == |s.buildings| + 1 && r.buildings[..|s.buildings|] == s.buildings
    ensures var nb := r.buildings[|s.buildings|];
      nb.count == 0 && nb.costMultiplier == 1.2 && nb.tier == s.currentTier && nb.justUnlocked &&
      nb.name == data.name && nb.baseCost == data.baseCost && nb.baseProduction == data.baseProduction
    ensures r.clickPower == 2.0 * s.clickPower
    ensures r.helpers == BuffClicker(s.helpers)
    ensures r.generationCount == s.generationCount + 1
    ensures r.logs == AppendLogs(s.logs, [LogEntry(UnlockLog, now)])
    ensures r == s.(resources := r.resources, clickPower := r.clickPower, helpers := r.helpers,
                    buildings := r.buildings, generationCount := r.generationCount, logs := r.logs)
  {
    var nb := Building(GeneratedId(now), data.name, data.baseCost, data.baseProduction, 0, 1.2, s.currentTier, true);
    s.(resources := s.resources - cost,
       clickPower := s.clickPower * 2.0,
       helpers := BuffClicker(s.helpers),
       buildings := s.buildings + [nb],
       generationCount := s.generationCount + 1,
       logs := AppendLogs(s.logs, [LogEntry(UnlockLog, now)]))
  }

  // ---- tiers ----

  /** UPDATE_TIER: a no-op for the current tier, otherwise an evolution with a story log. */
  function UpdateTierStep(s: GameState, tier: Tier, now: int): (r: GameState)
    ensures tier == s.currentTier ==> r == s
    ensures tier != s.currentTier ==> r == Evolve(s, tier, StoryLog, now)
  {
    if s.currentTier == tier then s else Evolve(s, tier, StoryLog, now)
  }

  /** CHEAT_FORCE_EVOLVE: evolution to the next tier; nothing at the last one. */
  function ForceEvolveStep(s: GameState, now: int): (r: GameState)
    ensures s.currentTier == Omnipotent ==> r == s
    ensures s.currentTier != Omnipotent ==>
      TierRank(r.currentTier) == TierRank(s.currentTier) + 1 &&
      r == Evolve(s, r.currentTier, CheatLog, now)
  {
    match Successor(s.currentTier)
    case None => s
    case Some(next) => Evolve(s, next, CheatLog, now)
  }

  // ---- prestige ----

  /** PRESTIGE: converts the gain into shards and restarts the run, keeping meta-progress. */
  function PrestigeStep(s: GameState, newTheme: string, newResource: string, gain: real, now: int): (r: GameState)
    ensures r.prestigeCurrency == s.prestigeCurrency + gain
    ensures r.prestigeMultiplier == MultiplierFor(r.prestigeCurrency) && MultiplierInvariant(r)
    ensures r.galaxyName == s.galaxyName && r.achievements == s.achievements
    ensures r.lifetimeTotalResources == s.lifetimeTotalResources && r.totalClicks == s.totalClicks
    ensures r.theme == newTheme && r.resourceName == newResource
    ensures |r.helpers| == |s.helpers|
    ensures forall i :: 0 <= i < |s.helpers| ==> r.helpers[i] == s.helpers[i].(bonusMultiplier := 1.0)
    ensures r.clickPower == 1.0 && r.logs == [LogEntry(PrestigeLog, now)]
    ensures r.resources == 0.0 && r.totalResourcesGenerated == 0.0 && r.currentTier == Quantum
    ensures r.buildings == InitialBuildings && r.achievementQueue == [] && r.generationCount == 0
    ensures r.lastSaveTime == InitialState.lastSaveTime
  {
    var newCurrency := s.prestigeCurrency + gain;
    InitialState.(
      galaxyName := s.galaxyName,
      prestigeCurrency := newCurrency,
      prestigeMultiplier := 1.0 + newCurrency * 0.1,
      theme := newTheme,
      resourceName := newResource,
      helpers := seq(|s.helpers|, i requires 0 <= i < |s.helpers| => s.helpers[i].(bonusMultiplier := 1.0)),
      achievements := s.achievements,
      lifetimeTotalResources := s.lifetimeTotalResources,
      totalClicks := s.totalClicks,
      clickPower := 1.0,
      logs := [LogEntry(PrestigeLog, now)])
  }

  // ---- achievements ----

  /** One achievement log entry per newly unlocked achievement. */
  function AchievementLogs(n: nat, now: int): (r: seq<LogEntry>)
    ensures |r| == n
    ensures forall k :: 0 <= k < n ==> r[k] == LogEntry(AchievementLog, now)
  {
    seq(n, _ => LogEntry(AchievementLog, now))
  }

  /** CHECK_ACHIEVEMENTS: batch-unlocks what is newly satisfied; identical state if nothing is. */
  function CheckAchievementsStep(s: GameState, now: int): (r: GameState)
    ensures Newly(s.achievements, s) == [] ==> r == s
    ensures |r.achievements| == |s.achievements|
    ensures forall i :: 0 <= i < |s.achievements| ==>
      r.achievements[i] == s.achievements[i].(unlocked := s.achievements[i].unlocked || Satisfied(s.achievements[i], s))
    ensures forall i :: 0 <= i < |s.achievements| && (s.achievements[i].unlocked || s.achievements[i].conditionType == Special) ==>
      r.achievements[i] == s.achievements[i]
    ensures r.achievementQueue == s.achievementQueue + Newly(s.achievements, s)
    ensures |s.logs| <= LogCap ==> |r.logs| <= LogCap
    ensures Newly(s.achievements, s) != [] ==>
      r.logs == AppendLogs(s.logs, AchievementLogs(|Newly(s.achievements, s)|, now))
    ensures r == s.(achievements := r.achievements, logs := r.logs, achievementQueue := r.achievementQueue)
  {
    var newly := Newly(s.achievements, s);
    if |newly| == 0 then
      assert EvaluateAll(s.achievements, s) == s.achievements;
      s
    else
      s.(achievements := EvaluateAll(s.achievements, s),
         logs := AppendLogs(s.logs, AchievementLogs(|newly|, now)),
         achievementQueue := s.achievementQueue + newly)
  }

  /** `queue.filter(a => a.id !== id)`. */
  function WithoutId(q: seq<Achievement>, id: string): (r: seq<Achievement>)
    ensures |r| <= |q|
    ensures forall k :: 0 <= k < |r| ==> r[k].id != id && r[k] in q
    ensures forall k :: 0 <= k < |q| && q[k].id != id ==> q[k] in r
  {
    if |q| == 0 then []
    else
      var rest := WithoutId(q[1..], id);
      assert forall k :: 1 <= k < |q| ==> q[k] == q[1..][k - 1];
      if q[0].id == id then rest else [q[0]] + rest
  }

  /**
   * The filter works element by element and keeps the order: it distributes over concatenation,
   * and on one element keeps it exactly when its id differs. Together these pin `WithoutId` down.
   */
  lemma {:induction false} WithoutIdAppend(a: seq<Achievement>, b: seq<Achievement>, id: string)
    ensures WithoutId(a + b, id) == WithoutId(a, id) + WithoutId(b, id)
  {
    if |a| > 0 {
      assert (a + b)[1..] == a[1..] + b;
      assert (a + b)[0] == a[0];
      WithoutIdAppend(a[1..], b, id);
    } else {
      assert a + b == b;
    }
  }

  lemma WithoutIdOne(x: Achievement, id: string)
    ensures WithoutId([x], id) == if x.id == id then [] else [x]
  {
    assert [x][1..] == [];
  }

  /** Nothing with the id is left to remove, so filtering twice is filtering once; a queue without the id is untouched. */
  lemma {:induction false} WithoutIdIdempotent(q: seq<Achievement>, id: string)
    ensures WithoutId(WithoutId(q, id), id) == WithoutId(q, id)
  {
    WithoutIdAbsent(WithoutId(q, id), id);
  }

  lemma {:induction false} WithoutIdAbsent(q: seq<Achievement>, id: string)
    requires forall k :: 0 <= k < |q| ==> q[k].id != id
    ensures WithoutId(q, id) == q
  {
    if |q| > 0 {
      WithoutIdAbsent(q[1..], id);
      assert [q[0]] + q[1..] == q;
    }
  }

  /** DISMISS_ACHIEVEMENT: only the notification queue changes. */
  function DismissStep(s: GameState, id: string): (r: GameState)
    ensures forall k :: 0 <= k < |r.achievementQueue| ==> r.achievementQueue[k].id != id
    ensures forall k :: 0 <= k < |s.achievementQueue| && s.achievementQueue[k].id != id ==>
      s.achievementQueue[k] in r.achievementQueue
    ensures r == s.(achievementQueue := r.achievementQueue)
  {
    s.(achievementQueue := WithoutId(s.achievementQueue, id))
  }

  /** Dismissing twice is dismissing once, and dismissing an id that is not queued changes nothing. */
  lemma DismissIdempotent(s: GameState, id: string)
    ensures DismissStep(DismissStep(s, id), id) == DismissStep(s, id)
    ensures (forall k :: 0 <= k < |s.achievementQueue| ==> s.achievementQueue[k].id != id) ==> DismissStep(s, id) == s
  {
    WithoutIdIdempotent(s.achievementQueue, id);
    if forall k :: 0 <= k < |s.achievementQueue| ==> s.achievementQueue[k].id != id {
      WithoutIdAbsent(s.achievementQueue, id);
    }
  }

  /** UNLOCK_SECRET_ACHIEVEMENT: unlocks a named locked achievement, queues and logs it. */
  function UnlockSecretStep(s: GameState, id: string, now: int): (r: GameState)
    ensures var i := AchievementIndex(s.achievements, id);
      if i == -1 || s.achievements[i].unlocked then r == s
      else
        && |r.achievements| == |s.achievements|
        && (forall j :: 0 <= j < |s.achievements| ==>
              r.achievements[j] == if s.achievements[j].id == id then s.achievements[j].(unlocked := true) else s.achievements[j])
        && r.achievementQueue == s.achievementQueue + [s.achievements[i].(unlocked := true)]
        && r.logs == AppendLogs(s.logs, [LogEntry(AchievementLog, now)])
        && r == s.(achievements := r.achievements, achievementQueue := r.achievementQueue, logs := r.logs)
  {
    var i := AchievementIndex(s.achievements, id);
    if i == -1 || s.achievements[i].unlocked then s
    else
      var achs := seq(|s.achievements|, j requires 0 <= j < |s.achievements| =>
        if s.achievements[j].id == id then s.achievements[j].(unlocked := true) else s.achievements[j]);
      s.(achievements := achs,
         achievementQueue := s.achievementQueue + [achs[i]],
         logs := AppendLogs(s.logs, [LogEntry(AchievementLog, now)]))
  }

  // ---- save loading ----

  /** The initial achievement with its `unlocked` flag taken from the first saved entry of the same id. */
  function MergeAchievement(initial: Achievement, saved: seq<Achievement>): (r: Achievement)
    ensures r == initial.(unlocked := r.unlocked)
    ensures AchievementIndex(saved, initial.id) == -1 ==> r == initial
    ensures AchievementIndex(saved, initial.id) >= 0 ==> r.unlocked == saved[AchievementIndex(saved, initial.id)].unlocked
  {
    var i := AchievementIndex(saved, initial.id);
    if i == -1 then initial else initial.(unlocked := saved[i].unlocked)
  }

  /** LOAD_GAME: the snapshot over the initial state, buildings' `justUnlocked` cleared, achievements merged by id. */
  function LoadGameStep(saved: Snapshot): (r: GameState)
    ensures |r.achievements| == |InitialAchievements|
    ensures forall i :: 0 <= i < |InitialAchievements| ==>
      r.achievements[i] == MergeAchievement(InitialAchievements[i], saved.achievements.GetOr([]))
    ensures var bs := saved.buildings.GetOr([]);
      |r.buildings| == |bs| && forall i :: 0 <= i < |bs| ==> r.buildings[i] == bs[i].(justUnlocked := false)
    ensures r.helpers == saved.helpers.GetOr(InitialHelpers)
    ensures r.currentTier == saved.currentTier.GetOr(Quantum)
    ensures r.resources == saved.resources.GetOr(InitialState.resources)
    ensures r.prestigeCurrency == saved.prestigeCurrency.GetOr(InitialState.prestigeCurrency)
    ensures r.prestigeMultiplier == saved.prestigeMultiplier.GetOr(InitialState.prestigeMultiplier)
    ensures r.logs == saved.logs.GetOr(InitialState.logs)
    ensures r.achievementQueue == saved.achievementQueue.GetOr(InitialState.achievementQueue)
    ensures r.galaxyName == saved.galaxyName.GetOr(InitialState.galaxyName)
    ensures r.totalResourcesGenerated == saved.totalResourcesGenerated.GetOr(InitialState.totalResourcesGenerated)
    ensures r.lifetimeTotalResources == saved.lifetimeTotalResources.GetOr(InitialState.lifetimeTotalResources)
    ensures r.totalClicks == saved.totalClicks.GetOr(InitialState.totalClicks)
    ensures r.clickPower == saved.clickPower.GetOr(InitialState.clickPower)
    ensures r.theme == saved.theme.GetOr(InitialState.theme)
    ensures r.resourceName == saved.resourceName.GetOr(InitialState.resourceName)
    ensures r.lastSaveTime == saved.lastSaveTime.GetOr(InitialState.lastSaveTime)
    ensures r.generationCount == saved.generationCount.GetOr(InitialState.generationCount)
  {
    var bs := saved.buildings.GetOr([]);
    var savedAchs := saved.achievements.GetOr([]);
    GameState(
      saved.galaxyName.GetOr(InitialState.galaxyName),
      saved.resources.GetOr(InitialState.resources),
      saved.totalResourcesGenerated.GetOr(InitialState.totalResourcesGenerated),
      saved.lifetimeTotalResources.GetOr(InitialState.lifetimeTotalResources),
      saved.totalClicks.GetOr(InitialState.totalClicks),
      saved.clickPower.GetOr(InitialState.clickPower),
      seq(|bs|, i requires 0 <= i < |bs| => bs[i].(justUnlocked := false)),
      saved.helpers.GetOr(InitialHelpers),
      seq(|InitialAchievements|, i requires 0 <= i < |InitialAchievements| =>
        MergeAchievement(InitialAchievements[i], savedAchs)),
      saved.achievementQueue.GetOr(InitialState.achievementQueue),
      saved.theme.GetOr(InitialState.theme),
      saved.resourceName.GetOr(InitialState.resourceName),
      saved.currentTier.GetOr(Quantum),
      saved.prestigeCurrency.GetOr(InitialState.prestigeCurrency),
      saved.prestigeMultiplier.GetOr(InitialState.prestigeMultiplier),
      saved.logs.GetOr(InitialState.logs),
      saved.lastSaveTime.GetOr(InitialState.lastSaveTime),
      saved.generationCount.GetOr(InitialState.generationCount))
  }

  // ---- cheats ----

  /** CHEAT_ADD_RESOURCES: 10^15 to resources and the lifetime total, not to the run total. */
  function CheatAddResourcesStep(s: GameState, now: int): (r: GameState)
    ensures r.resources == s.resources + 1000000000000000.0
    ensures r.lifetimeTotalResources == s.lifetimeTotalResources + 1000000000000000.0
    ensures r.totalResourcesGenerated == s.totalResourcesGenerated
    ensures r == s.(resources := r.resources, lifetimeTotalResources := r.lifetimeTotalResources,
                    logs := AppendLogs(s.logs, [LogEntry(CheatLog, now)]))
  {
    s.(resources := s.resources + 1000000000000000.0,
       lifetimeTotalResources := s.lifetimeTotalResources + 1000000000000000.0,
       logs := AppendLogs(s.logs, [LogEntry(CheatLog, now)]))
  }

  /** CHEAT_ADD_SHARDS: +100 shards and +10 multiplier, which keeps multiplier = 1 + 0.1 * shards. */
  function CheatAddShardsStep(s: GameState, now: int): (r: GameState)
    ensures r.prestigeCurrency == s.prestigeCurrency + 100.0
    ensures MultiplierInvariant(s) ==> MultiplierInvariant(r)
    ensures r == s.(prestigeCurrency := r.prestigeCurrency, prestigeMultiplier := s.prestigeMultiplier + 10.0,
                    logs := AppendLogs(s.logs, [LogEntry(CheatLog, now)]))
  {
    s.(prestigeCurrency := s.prestigeCurrency + 100.0,
       prestigeMultiplier := s.prestigeMultiplier + 10.0,
       logs := AppendLogs(s.logs, [LogEntry(CheatLog, now)]))
  }

  /** CHEAT_TIME_WARP: one hour of production to resources and the lifetime total, not the run total. */
  function TimeWarpStep(s: GameState, now: int): (r: GameState)
    ensures r.resources - s.resources == TotalProduction(s) * 3600.0
    ensures r.lifetimeTotalResources - s.lifetimeTotalResources == r.resources - s.resources
    ensures r == s.(resources := r.resources, lifetimeTotalResources := r.lifetimeTotalResources,
                    logs := AppendLogs(s.logs, [LogEntry(CheatLog, now)]))
  {
    var hourProd := TotalProduction(s) * 3600.0;
    s.(resources := s.resources + hourProd,
       lifetimeTotalResources := s.lifetimeTotalResources + hourProd,
       logs := AppendLogs(s.logs, [LogEntry(CheatLog, now)]))
  }

  /** CHEAT_UNLOCK_ACHIEVEMENTS: every achievement unlocked; nothing is queued. */
  function UnlockAllStep(s: GameState, now: int): (r: GameState)
    ensures |r.achievements| == |s.achievements|
    ensures forall i :: 0 <= i < |s.achievements| ==> r.achievements[i] == s.achievements[i].(unlocked := true)
    ensures r == s.(achievements := r.achievements, logs := AppendLogs(s.logs, [LogEntry(CheatLog, now)]))
  {
    s.(achievements := seq(|s.achievements|, i requires 0 <= i < |s.achievements| => s.achievements[i].(unlocked := true)),
       logs := AppendLogs(s.logs, [LogEntry(CheatLog, now)]))
  }

  // ---- the reducer ----

  function Step(s: GameState, a: Action, now: int): GameState {
    match a
    case Tick(dt) => TickStep(s, dt, now)
    case Click(m) => ClickStep(s, m)
    case BuyBuilding(id) => BuyBuildingStep(s, id)
    case BuyHelper(id) => BuyHelperStep(s, id, now)
    case ToggleHelper(id) => ToggleHelperStep(s, id)
    case HelperAction(id) => HelperActionStep(s, id, now)
    case UnlockBuilding(data, cost) => UnlockBuildingStep(s, data, cost, now)
    case StartResearch(cost) => StartResearchStep(s, cost, now)
    case AddLog(kind) => s.(logs := AppendLogs(s.logs, [LogEntry(kind, now)]))
    case LoadGame(saved) => LoadGameStep(saved)
    case UpdateTier(tier) => UpdateTierStep(s, tier, now)
    case Prestige(theme, resource, gain) => PrestigeStep(s, theme, resource, gain, now)
    case CheckAchievements => CheckAchievementsStep(s, now)
    case DismissAchievement(id) => DismissStep(s, id)
    case ResetGame => InitialState
    case RenameGalaxy(name) => s.(galaxyName := name)
    case CheatAddResources => CheatAddResourcesStep(s, now)
    case CheatForceEvolve => ForceEvolveStep(s, now)
    case CheatAddShards => CheatAddShardsStep(s, now)
    case CheatTimeWarp => TimeWarpStep(s, now)
    case CheatUnlockAchievements => UnlockAllStep(s, now)
    case UnlockSecretAchievement(id) => UnlockSecretStep(s, id, now)
  }

  /** Dispatching a list of actions in order, all at time `now`. */
  function Run(s: GameState, acts: seq<Action>, now: int): GameState {
    if |acts| == 0 then s else Step(Run(s, acts[..|acts| - 1], now), acts[|acts| - 1], now)
  }

  lemma RunSnoc(s: GameState, acts: seq<Action>, a: Action, now: int)
    ensures Run(s, acts + [a], now) == Step(Run(s, acts, now), a, now)
  {
    assert (acts + [a])[..|acts|] == acts;
  }

  /** Dispatching `xs` then `ys` is dispatching `xs + ys`. */
  lemma {:induction false} RunAppend(s: GameState, xs: seq<Action>, ys: seq<Action>, now: int)
    ensures Run(s, xs + ys, now) == Run(Run(s, xs, now), ys, now)
    decreases |ys|
  {
    if |ys| == 0 {
      assert xs + ys == xs;
    } else {
      var front := ys[..|ys| - 1];
      assert (xs + ys)[..|xs + ys| - 1] == xs + front;
      RunAppend(s, xs, front, now);
    }
  }
}
