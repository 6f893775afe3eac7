/**
 * The records of the simulation and the starter constants every reset returns to
 * (types.ts). Names, descriptions, flavour text and icons are cosmetic and are not
 * carried; log entries keep only their kind and timestamp.
 */
module GameTypes {
  import opened Wrappers

  /** The evolutionary stages of a universe, in order. */
  datatype Tier = Quantum | Macrocosm | Cosmic | Multiversal | Omnipotent

  function TierRank(t: Tier): (r: nat)
    ensures r <= 4
    ensures t == Quantum <==> r == 0
    ensures t == Omnipotent <==> r == 4
  {
    match t
    case Quantum => 0
    case Macrocosm => 1
    case Cosmic => 2
    case Multiversal => 3
    case Omnipotent => 4
  }

  /** The tier one step above `t`; the last tier has none. */
  function Successor(t: Tier): (r: Option<Tier>)
    ensures r.None? <==> t == Omnipotent
    ensures r.Some? ==> TierRank(r.value) == TierRank(t) + 1
  {
    match t
    case Quantum => Some(Macrocosm)
    case Macrocosm => Some(Cosmic)
    case Cosmic => Some(Multiversal)
    case Multiversal => Some(Omnipotent)
    case Omnipotent => None
  }

  /** Climbing from Quantum one successor at a time visits the tiers in their declared order. */
  lemma TierLadder()
    ensures Successor(Quantum) == Some(Macrocosm) && Successor(Macrocosm) == Some(Cosmic)
    ensures Successor(Cosmic) == Some(Multiversal) && Successor(Multiversal) == Some(Omnipotent)
    ensures TierRank(Macrocosm) == 1 && TierRank(Cosmic) == 2 && TierRank(Multiversal) == 3
  {
  }

  /** What an automation unit does when it fires: CLICK, BUY or RESEARCH. */
  datatype HelperType = AutoClick | AutoBuy | AutoResearch

  /** The metric an achievement compares with its threshold. */
  datatype ConditionType = ResourceTotal | BuildingCount | ClickCount | ResearchCount | PrestigeTotal | Special

  datatype LogType = InfoLog | StoryLog | UnlockLog | PrestigeLog | AchievementLog | CheatLog

  datatype Building = Building(
    id: string,
    name: string,
    baseCost: real,
    baseProduction: real,
    count: nat,
    costMultiplier: real,
    tier: Tier,
    justUnlocked: bool)

  datatype Helper = Helper(
    id: string,
    kind: HelperType,
    baseCost: real,
    unlocked: bool,
    active: bool,
    intervalMs: int,
    lastActionTime: int,
    bonusMultiplier: real)

  datatype Achievement = Achievement(
    id: string,
    conditionType: ConditionType,
    threshold: real,
    unlocked: bool,
    hidden: bool)

  datatype LogEntry = LogEntry(kind: LogType, timestamp: int)

  /** What the content generator delivers for a researched building. */
  datatype GeneratedBuildingData = GeneratedBuildingData(name: string, baseCost: real, baseProduction: real)

  datatype GameState = GameState(
    galaxyName: string,
    resources: real,
    totalResourcesGenerated: real,   // current run
    lifetimeTotalResources: real,    // all runs
    totalClicks: nat,
    clickPower: real,
    buildings: seq<Building>,
    helpers: seq<Helper>,
    achievements: seq<Achievement>,
    achievementQueue: seq<Achievement>,
    theme: string,
    resourceName: string,
    currentTier: Tier,
    prestigeCurrency: real,
    prestigeMultiplier: real,
    logs: seq<LogEntry>,
    lastSaveTime: int,
    generationCount: nat)

  /**
   * A persisted game as the loader sees it: a parsed object that may lack any field
   * (an older save), so every field is optional.
   */
  datatype Snapshot = Snapshot(
    galaxyName: Option<string>,
    resources: Option<real>,
    totalResourcesGenerated: Option<real>,
    lifetimeTotalResources: Option<real>,
    totalClicks: Option<nat>,
    clickPower: Option<real>,
    buildings: Option<seq<Building>>,
    helpers: Option<seq<Helper>>,
    achievements: Option<seq<Achievement>>,
    achievementQueue: Option<seq<Achievement>>,
    theme: Option<string>,
    resourceName: Option<string>,
    currentTier: Option<Tier>,
    prestigeCurrency: Option<real>,
    prestigeMultiplier: Option<real>,
    logs: Option<seq<LogEntry>>,
    lastSaveTime: Option<int>,
    generationCount: Option<nat>)

  /** The snapshot a save of `s` holds: every field present. */
  function SnapshotOf(s: GameState): Snapshot {
    Snapshot(Some(s.galaxyName), Some(s.resources), Some(s.totalResourcesGenerated),
             Some(s.lifetimeTotalResources), Some(s.totalClicks), Some(s.clickPower),
             Some(s.buildings), Some(s.helpers), Some(s.achievements), Some(s.achievementQueue),
             Some(s.theme), Some(s.resourceName), Some(s.currentTier), Some(s.prestigeCurrency),
             Some(s.prestigeMultiplier), Some(s.logs), Some(s.lastSaveTime), Some(s.generationCount))
  }

  // ---- starter constants ----

  const ClickerId := "h_clicker"
  const BuilderId := "h_builder"
  const ResearcherId := "h_researcher"

  const InitialHelpers: seq<Helper> := [
    Helper(ClickerId, AutoClick, 500.0, false, false, 1000, 0, 1.0),
    Helper(BuilderId, AutoBuy, 25000.0, false, false, 5000, 0, 1.0),
    Helper(ResearcherId, AutoResearch, 100000.0, false, false, 10000, 0, 1.0)
  ]

  const InitialBuildings: seq<Building> := [
    Building("b_cursor", "Quantum Fluctuator", 15.0, 0.5, 0, 1.15, Quantum, false),
    Building("b_drone", "Matter Weaver", 100.0, 4.0, 0, 1.15, Quantum, false)
  ]

  const InitialAchievements: seq<Achievement> := [
    Achievement("a_start", ResourceTotal, 100.0, false, false),
    Achievement("a_clicker", ClickCount, 100.0, false, false),
    Achievement("a_builder", BuildingCount, 25.0, false, false),
    Achievement("a_industrial", BuildingCount, 100.0, false, false),
    Achievement("a_rich", ResourceTotal, 1000000.0, false, false),
    Achievement("a_research", ResearchCount, 5.0 + |InitialBuildings| as real, false, false),
    Achievement("a_clicker_master", ClickCount, 1000.0, false, false),
    Achievement("a_prestige", PrestigeTotal, 1.0, false, false),
    Achievement("a_clicker_5k", ClickCount, 5000.0, false, false),
    Achievement("a_research_10", ResearchCount, 10.0 + |InitialBuildings| as real, false, false),
    Achievement("a_buildings_200", BuildingCount, 200.0, false, false),
    Achievement("a_buildings_500", BuildingCount, 500.0, false, false),
    Achievement("a_rich_1b", ResourceTotal, 1000000000.0, false, false),
    Achievement("a_prestige_10", PrestigeTotal, 10.0, false, false),
    Achievement("a_research_25", ResearchCount, 25.0 + |InitialBuildings| as real, false, false),
    Achievement("a_rich_1t", ResourceTotal, 1000000000000.0, false, false),
    Achievement("a_cheater", Special, 1.0, false, true),
    Achievement("a_dirty_hacker", Special, 1.0, false, true)
  ]

  /** The universe at first launch; its load-time timestamps are taken as 0. */
  const InitialState: GameState := GameState(
    "Unknown Sector", 0.0, 0.0, 0.0, 0, 1.0,
    InitialBuildings, InitialHelpers, InitialAchievements, [],
    "Quantum Genesis", "Entropy", Quantum, 0.0, 1.0,
    [LogEntry(StoryLog, 0)], 0, 0)

  // ---- facts about the starter constants ----

  /** The prestige multiplier is 1 + 0.1 per shard. */
  predicate MultiplierInvariant(s: GameState) {
    s.prestigeMultiplier == 1.0 + s.prestigeCurrency * 0.1
  }

  lemma InitialEconomy()
    ensures InitialState.resources == 0.0 && InitialState.prestigeCurrency == 0.0
    ensures InitialState.prestigeMultiplier == 1.0 && MultiplierInvariant(InitialState)
    ensures InitialState.clickPower == 1.0 && InitialState.currentTier == Quantum
  {
  }

  lemma StarterBuildings()
    ensures |InitialBuildings| == 2
    ensures InitialBuildings[0].id == "b_cursor" && InitialBuildings[0].baseCost == 15.0
    ensures InitialBuildings[1].id == "b_drone" && InitialBuildings[1].baseCost == 100.0
    ensures forall i :: 0 <= i < |InitialBuildings| ==>
      InitialBuildings[i].count == 0 && InitialBuildings[i].costMultiplier == 1.15 > 1.0
  {
  }

  lemma StarterHelpers()
    ensures |InitialHelpers| == 3
    ensures forall i, j :: 0 <= i < j < |InitialHelpers| ==>
      InitialHelpers[i].id != InitialHelpers[j].id && InitialHelpers[i].kind != InitialHelpers[j].kind
    ensures forall i :: 0 <= i < |InitialHelpers| ==>
      var h := InitialHelpers[i];
      !h.unlocked && !h.active && h.lastActionTime == 0 && h.bonusMultiplier == 1.0
  {
  }

  lemma AchievementIdsDistinct()
    ensures forall i, j :: 0 <= i < j < |InitialAchievements| ==>
      InitialAchievements[i].id != InitialAchievements[j].id
  {
  }

  lemma StarterAchievements()
    ensures |InitialAchievements| == 18
    ensures forall i :: 0 <= i < |InitialAchievements| ==>
      !InitialAchievements[i].unlocked && InitialAchievements[i].threshold > 0.0
    ensures InitialAchievements[5].conditionType == ResearchCount && InitialAchievements[5].threshold == 7.0
    ensures InitialAchievements[9].conditionType == ResearchCount && InitialAchievements[9].threshold == 12.0
    ensures InitialAchievements[14].conditionType == ResearchCount && InitialAchievements[14].threshold == 27.0
  {
  }

  /** Exactly the two SPECIAL achievements are hidden. */
  lemma HiddenAreTheSpecialOnes()
    ensures forall i :: 0 <= i < |InitialAchievements| ==>
      (InitialAchievements[i].hidden <==> InitialAchievements[i].conditionType == Special)
    ensures forall i :: 0 <= i < |InitialAchievements| && InitialAchievements[i].hidden ==> i >= 16
  {
  }

  lemma InitialBuffers()
    ensures InitialState.achievementQueue == []
    ensures |InitialState.logs| == 1 <= 50
  {
  }
}
