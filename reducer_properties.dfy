/**
 * What the transition function keeps true across every action: the log cap, the
 * prestige-multiplier relation, non-negative resources, unlocks that are never revoked,
 * monotone lifetime totals, idempotent achievement checks and the save/load round trip.
 * Each statement names the actions it excludes, and why, in its doc comment.
 */
module ReducerProperties {
  import opened Wrappers
  import opened GameTypes
  import opened Economy
  import opened AchievementRules
  import opened Reducer

  /** A state whose numbers are as play produces them: nothing that scales income is negative. */
  predicate Sane(s: GameState) {
    s.clickPower >= 0.0 && s.prestigeMultiplier >= 0.0 && NonNegativeOutput(s.buildings)
  }

  /** The inputs a driver supplies are non-negative (elapsed time, click multiplier, costs, gains). */
  predicate NonNegativeInput(a: Action) {
    match a
    case Tick(dt) => dt >= 0.0
    case Click(m) => m.GetOr(0.0) >= 0.0
    case UnlockBuilding(_, cost) => cost >= 0.0
    case StartResearch(cost) => cost >= 0.0
    case Prestige(_, _, gain) => gain >= 0.0
    case _ => true
  }

  /**
   * The log buffer stays within 50 entries under every action except two: BUY_HELPER
   * appends without trimming (one entry over at most) and LOAD_GAME takes the saved log verbatim.
   */
  lemma LogsStayCapped(s: GameState, a: Action, now: int)
    requires |s.logs| <= LogCap
    ensures !a.BuyHelper? && !a.LoadGame? ==> |Step(s, a, now).logs| <= LogCap
    ensures a.BuyHelper? ==> |Step(s, a, now).logs| <= |s.logs| + 1
  {
  }

  /** The one action that breaks the cap: a helper bought with a full log leaves 51 entries. */
  lemma BuyHelperOverflowsLog()
    ensures var s := InitialState.(resources := 500.0, logs := seq(LogCap, _ => LogEntry(InfoLog, 0)));
      |Step(s, BuyHelper(ClickerId), 1).logs| == LogCap + 1
  {
    var s := InitialState.(resources := 500.0, logs := seq(LogCap, _ => LogEntry(InfoLog, 0)));
    assert HelperIndex(s.helpers, ClickerId) == 0;
  }

  /** `prestigeMultiplier == 1 + 0.1 * prestigeCurrency` survives every action but LOAD_GAME, which trusts the save. */
  lemma MultiplierInvariantKept(s: GameState, a: Action, now: int)
    requires MultiplierInvariant(s) && !a.LoadGame?
    ensures MultiplierInvariant(Step(s, a, now))
  {
    match a
    case CheatAddShards =>
      assert MultiplierInvariant(CheatAddShardsStep(s, now));
    case _ =>
  }

  /**
   * Resources never go negative from a non-negative start, given what the drivers guarantee:
   * research is charged only when affordable and the researched building is delivered at cost 0.
   * LOAD_GAME takes whatever the save holds.
   */
  lemma ResourcesStayNonNegative(s: GameState, a: Action, now: int)
    requires Sane(s) && s.resources >= 0.0 && NonNegativeInput(a) && !a.LoadGame?
    requires a.StartResearch? ==> a.cost <= s.resources
    requires a.UnlockBuilding? ==> a.cost <= s.resources
    ensures Step(s, a, now).resources >= 0.0
  {
    match a
    case Tick(dt) =>
      RawProductionNonNegative(s.buildings);
      ProductNonNegative(RawProduction(s.buildings), s.prestigeMultiplier);
      ProductNonNegative(TotalProduction(s), dt / 1000.0);
    case Click(m) =>
      ProductNonNegative(s.clickPower, s.prestigeMultiplier);
      ProductNonNegative(s.clickPower * s.prestigeMultiplier, OrOne(m.GetOr(0.0)));
    case CheatTimeWarp =>
      RawProductionNonNegative(s.buildings);
      ProductNonNegative(RawProduction(s.buildings), s.prestigeMultiplier);
    case _ =>
  }

  /**
   * What play keeps true of a state: `Sane`, resources and shards non-negative, and the
   * multiplier in step with the shards. The starting universe is playable.
   */
  predicate Playable(s: GameState) {
    Sane(s) && s.resources >= 0.0 && s.prestigeCurrency >= 0.0 && MultiplierInvariant(s)
  }

  /**
   * An action as the drivers dispatch it to state `s`: non-negative inputs, no LOAD_GAME,
   * research charged only when affordable, and a researched building that produces, not consumes.
   */
  predicate Guarded(s: GameState, a: Action) {
    && NonNegativeInput(a) && !a.LoadGame?
    && (a.StartResearch? ==> a.cost <= s.resources)
    && (a.UnlockBuilding? ==> a.cost <= s.resources && a.data.baseProduction >= 0.0)
  }

  lemma InitialPlayable()
    ensures Playable(InitialState)
  {
  }

  /** Every guarded action keeps a playable state playable. */
  lemma PlayableKept(s: GameState, a: Action, now: int)
    requires Playable(s) && Guarded(s, a)
    ensures Playable(Step(s, a, now))
  {
    var t := Step(s, a, now);
    ResourcesStayNonNegative(s, a, now);
    MultiplierInvariantKept(s, a, now);
    if !a.ResetGame? {
      ShardsNeverFall(s, a, now);
    }
    assert t.prestigeMultiplier >= 0.0;
    SaneOutputKept(s, a, now);
  }

  /** No guarded action makes click power or any building's output negative. */
  lemma SaneOutputKept(s: GameState, a: Action, now: int)
    requires Playable(s) && Guarded(s, a)
    ensures Step(s, a, now).clickPower >= 0.0 && NonNegativeOutput(Step(s, a, now).buildings)
  {
    match a
    case BuyBuilding(id) => OutputsKept(s, BuyBuildingStep(s, id));
    case UnlockBuilding(data, cost) => UnlockKeepsOutputs(s, data, cost, now);
    case UpdateTier(tier) => EvolveKeepsOutputs(s, UpdateTierStep(s, tier, now));
    case CheatForceEvolve => EvolveKeepsOutputs(s, ForceEvolveStep(s, now));
    case _ =>
  }

  /** Same click power, and every building keeps its output. */
  lemma OutputsKept(s: GameState, t: GameState)
    requires Sane(s) && t.clickPower == s.clickPower && |t.buildings| == |s.buildings|
    requires forall i :: 0 <= i < |s.buildings| ==> t.buildings[i].baseProduction == s.buildings[i].baseProduction
    ensures t.clickPower >= 0.0 && NonNegativeOutput(t.buildings)
  {
  }

  lemma UnlockKeepsOutputs(s: GameState, data: GeneratedBuildingData, cost: real, now: int)
    requires Sane(s) && data.baseProduction >= 0.0
    ensures var t := UnlockBuildingStep(s, data, cost, now);
      t.clickPower >= 0.0 && NonNegativeOutput(t.buildings)
  {
    var t := UnlockBuildingStep(s, data, cost, now);
    forall i | 0 <= i < |t.buildings|
      ensures t.buildings[i].baseProduction >= 0.0
    {
      if i < |s.buildings| {
        assert t.buildings[i] == s.buildings[i];
      }
    }
  }

  /** Evolution raises click power by half and every output by 15 percent. */
  lemma EvolveKeepsOutputs(s: GameState, t: GameState)
    requires Sane(s)
    requires t == s || exists tier, kind, now :: t == Evolve(s, tier, kind, now)
    ensures t.clickPower >= 0.0 && NonNegativeOutput(t.buildings)
  {
    if t != s {
      var tier, kind, now :| t == Evolve(s, tier, kind, now);
      forall i | 0 <= i < |t.buildings|
        ensures t.buildings[i].baseProduction >= 0.0
      {
        assert t.buildings[i].baseProduction == s.buildings[i].baseProduction * 1.15;
      }
    }
  }

  /** Every action of `acts` is guarded for the state it is dispatched to. */
  predicate GuardedRun(s: GameState, acts: seq<Action>, now: int) {
    |acts| == 0 ||
    (GuardedRun(s, acts[..|acts| - 1], now) && Guarded(Run(s, acts[..|acts| - 1], now), acts[|acts| - 1]))
  }

  /** Playability holds along any run of guarded actions, so resources are never negative there. */
  lemma {:induction false} PlayableAlongRun(s: GameState, acts: seq<Action>, now: int)
    requires Playable(s) && GuardedRun(s, acts, now)
    ensures Playable(Run(s, acts, now))
    ensures Run(s, acts, now).resources >= 0.0
  {
    if |acts| > 0 {
      var front := acts[..|acts| - 1];
      PlayableAlongRun(s, front, now);
      PlayableKept(Run(s, front, now), acts[|acts| - 1], now);
    }
  }

  lemma ProductNonNegative(x: real, y: real)
    requires x >= 0.0 && y >= 0.0
    ensures x * y >= 0.0
  {
  }

  /**
   * The lifetime total never falls, except on a hard reset (back to 0) or a load. Production
   * and clicks add a non-negative amount; prestige carries the total over.
   */
  lemma LifetimeNeverFalls(s: GameState, a: Action, now: int)
    requires Sane(s) && NonNegativeInput(a) && !a.ResetGame? && !a.LoadGame?
    ensures Step(s, a, now).lifetimeTotalResources >= s.lifetimeTotalResources
  {
    match a
    case Tick(dt) =>
      RawProductionNonNegative(s.buildings);
      ProductNonNegative(RawProduction(s.buildings), s.prestigeMultiplier);
      ProductNonNegative(TotalProduction(s), dt / 1000.0);
    case Click(m) =>
      ProductNonNegative(s.clickPower, s.prestigeMultiplier);
      ProductNonNegative(s.clickPower * s.prestigeMultiplier, OrOne(m.GetOr(0.0)));
    case CheatTimeWarp =>
      RawProductionNonNegative(s.buildings);
      ProductNonNegative(RawProduction(s.buildings), s.prestigeMultiplier);
    case _ =>
  }

  /** Shards never decrease except on a hard reset or a load. */
  lemma ShardsNeverFall(s: GameState, a: Action, now: int)
    requires NonNegativeInput(a) && !a.ResetGame? && !a.LoadGame?
    ensures Step(s, a, now).prestigeCurrency >= s.prestigeCurrency
  {
  }

  /** The same achievements and helpers, in the same order, with no unlock taken back. */
  predicate NoRelock(s: GameState, t: GameState) {
    && |t.achievements| == |s.achievements|
    && (forall i :: 0 <= i < |s.achievements| ==>
          t.achievements[i].id == s.achievements[i].id &&
          (s.achievements[i].unlocked ==> t.achievements[i].unlocked))
    && |t.helpers| == |s.helpers|
    && (forall i :: 0 <= i < |s.helpers| ==>
          t.helpers[i].id == s.helpers[i].id && (s.helpers[i].unlocked ==> t.helpers[i].unlocked))
  }

  /** Unlocks of achievements and helpers are permanent under every action but a hard reset or a load; prestige included. */
  lemma UnlocksArePermanent(s: GameState, a: Action, now: int)
    requires !a.ResetGame? && !a.LoadGame?
    ensures NoRelock(s, Step(s, a, now))
  {
    match a
    case CheckAchievements => CheckKeepsUnlocks(s, now);
    case CheatUnlockAchievements => UnlockAllKeepsUnlocks(s, now);
    case UnlockSecretAchievement(id) => SecretKeepsUnlocks(s, id, now);
    case BuyHelper(id) => BuyHelperKeepsUnlocks(s, id, now);
    case ToggleHelper(id) => HelpersRewritten(s, ToggleHelperStep(s, id));
    case HelperAction(id) => HelpersRewritten(s, HelperActionStep(s, id, now));
    case UpdateTier(tier) => EvolveKeepsUnlocks(s, UpdateTierStep(s, tier, now));
    case CheatForceEvolve => EvolveKeepsUnlocks(s, ForceEvolveStep(s, now));
    case _ =>
  }

  lemma BuyHelperKeepsUnlocks(s: GameState, id: string, now: int)
    ensures NoRelock(s, BuyHelperStep(s, id, now))
  {
  }

  /** A step that only rewrites helpers in place, keeping ids and unlock flags, relocks nothing. */
  lemma HelpersRewritten(s: GameState, t: GameState)
    requires t.achievements == s.achievements && |t.helpers| == |s.helpers|
    requires forall i :: 0 <= i < |s.helpers| ==>
      t.helpers[i].id == s.helpers[i].id && t.helpers[i].unlocked == s.helpers[i].unlocked
    ensures NoRelock(s, t)
  {
  }

  lemma EvolveKeepsUnlocks(s: GameState, t: GameState)
    requires t == s || exists tier, kind, now :: t == Evolve(s, tier, kind, now)
    ensures NoRelock(s, t)
  {
    if t != s {
      var tier, kind, now :| t == Evolve(s, tier, kind, now);
      HelpersRewritten(s, t);
    }
  }

  lemma CheckKeepsUnlocks(s: GameState, now: int)
    ensures NoRelock(s, CheckAchievementsStep(s, now))
  {
  }

  lemma UnlockAllKeepsUnlocks(s: GameState, now: int)
    ensures NoRelock(s, UnlockAllStep(s, now))
  {
  }

  lemma SecretKeepsUnlocks(s: GameState, id: string, now: int)
    ensures NoRelock(s, UnlockSecretStep(s, id, now))
  {
  }

  /** Outside prestige, reset and load, the tier only moves up, and UPDATE_TIER goes exactly where it is told. */
  lemma TierNeverFallsWithinRun(s: GameState, a: Action, now: int)
    requires !a.Prestige? && !a.ResetGame? && !a.LoadGame?
    ensures a.UpdateTier? ==> Step(s, a, now).currentTier == a.tier
    ensures !a.UpdateTier? ==> TierRank(Step(s, a, now).currentTier) >= TierRank(s.currentTier)
  {
  }

  /** A second CHECK_ACHIEVEMENTS right after a first changes nothing. */
  lemma {:induction false} CheckAchievementsIdempotent(s: GameState, now1: int, now2: int)
    ensures var t := CheckAchievementsStep(s, now1); CheckAchievementsStep(t, now2) == t
  {
    var t := CheckAchievementsStep(s, now1);
    assert t.achievements == EvaluateAll(s.achievements, s);
    assert SameMetrics(s, t);
    NothingNewAfterEvaluation(s.achievements, s, t);
  }

  /** An achievement list as saves hold it: the catalogue of the release, only `unlocked` varying. */
  predicate CatalogueShaped(achs: seq<Achievement>) {
    |achs| == |InitialAchievements| &&
    forall i :: 0 <= i < |achs| ==> achs[i] == InitialAchievements[i].(unlocked := achs[i].unlocked)
  }

  /**
   * Saving and loading a state gives it back, when its achievements have the catalogue's shape
   * and no building carries the transient "just unlocked" highlight (which loading clears).
   */
  lemma LoadRoundTrip(s: GameState)
    requires CatalogueShaped(s.achievements)
    requires forall i :: 0 <= i < |s.buildings| ==> !s.buildings[i].justUnlocked
    ensures LoadGameStep(SnapshotOf(s)) == s
  {
    var r := LoadGameStep(SnapshotOf(s));
    AchievementIdsDistinct();
    forall i | 0 <= i < |InitialAchievements|
      ensures r.achievements[i] == s.achievements[i]
    {
      assert s.achievements[i].id == InitialAchievements[i].id;
      assert forall j :: 0 <= j < i ==> s.achievements[j].id == InitialAchievements[j].id;
      assert AchievementIndex(s.achievements, InitialAchievements[i].id) == i;
    }
    assert r.achievements == s.achievements;
    assert r.buildings == s.buildings;
  }

  /** A state fresh from the starter defaults satisfies the round trip's conditions. */
  lemma InitialStateRoundTrips()
    ensures LoadGameStep(SnapshotOf(InitialState)) == InitialState
  {
    StarterAchievements();
    LoadRoundTrip(InitialState);
  }

  /** The hourly production loop of CHEAT_TIME_WARP and the per-tick loop of TICK as written: a left-to-right sum. */
  method ComputeProduction(bs: seq<Building>, multiplier: real) returns (production: real)
    ensures production == RawProduction(bs) * multiplier
  {
    production := 0.0;
    var i := 0;
    while i < |bs|
      invariant 0 <= i <= |bs|
      invariant production == RawProduction(bs[..i])
    {
      assert bs[..i + 1][..i] == bs[..i];
      production := production + bs[i].baseProduction * bs[i].count as real;
      i := i + 1;
    }
    assert bs[..|bs|] == bs;
    production := production * multiplier;
  }

  /** Starter universe: nothing is produced before the first building is bought. */
  lemma NoProductionAtStart()
    ensures TotalProduction(InitialState) == 0.0
  {
    var bs := InitialBuildings;
    assert bs[..1][..0] == [];
    assert RawProduction(bs[..1]) == 0.0;
    assert bs[..|bs| - 1] == bs[..1];
    assert RawProduction(bs) == 0.0;
  }
}
