/**
 * The drivers around the transition function in App.tsx: the helper scheduler run on every
 * animation frame, research start and completion, the prestige gate, the evolution roll, the
 * research-cost effect, the cheat menu and the hard reset. `now` is the wall-clock time of the
 * call, `roll` the value `Math.random()` returns, and a research request's result is delivered
 * as a `ResearchOutcome` observed when the research expires.
 */
module Drivers {
  import opened Wrappers
  import opened GameTypes
  import opened Economy
  import opened Reducer
  import opened ReducerProperties

  // ---- helper automation (App.tsx:461-501) ----

  /** A helper fires when it is unlocked, active and its interval has elapsed since its last action. */
  predicate IsDue(h: Helper, now: int) {
    h.unlocked && h.active && now - h.lastActionTime >= h.intervalMs
  }

  /** The floored current price of a building is at most the resources. */
  predicate Affordable(b: Building, resources: real) {
    BuildingCost(b) as real <= resources
  }

  /**
   * The building a BUY helper purchases: the affordable one of least current cost, the earliest
   * among equals (the filter is followed by a stable sort on cost).
   */
  function CheapestAffordable(bs: seq<Building>, resources: real): (r: Option<nat>)
    ensures r.None? <==> forall j :: 0 <= j < |bs| ==> !Affordable(bs[j], resources)
    ensures r.Some? ==> r.value < |bs| && Affordable(bs[r.value], resources)
    ensures r.Some? ==> forall j :: 0 <= j < |bs| && Affordable(bs[j], resources) ==>
      BuildingCost(bs[r.value]) <= BuildingCost(bs[j])
    ensures r.Some? ==> forall j :: 0 <= j < r.value && Affordable(bs[j], resources) ==>
      BuildingCost(bs[r.value]) < BuildingCost(bs[j])
  {
    if |bs| == 0 then None
    else
      var k := |bs| - 1;
      var prev := CheapestAffordable(bs[..k], resources);
      assert forall j :: 0 <= j < k ==> bs[..k][j] == bs[j];
      if !Affordable(bs[k], resources) then prev
      else match prev
        case None => Some(k)
        case Some(p) => if BuildingCost(bs[k]) < BuildingCost(bs[p]) then Some(k) else prev
  }

  /** What one helper dispatches in a pass, judged on the frame's `view` of the state. */
  function HelperActions(h: Helper, view: GameState, now: int): (r: seq<Action>)
    ensures !IsDue(h, now) ==> r == []
    ensures IsDue(h, now) ==> 1 <= |r| <= 2 && r[|r| - 1] == HelperAction(h.id)
    ensures forall a :: a in r ==> a.Click? || a.BuyBuilding? || a.HelperAction?
    ensures forall a :: a in r && a.HelperAction? ==> a.helperId == h.id && IsDue(h, now)
    ensures forall a :: a in r && a.Click? ==> h.kind == AutoClick && a.multiplier == Some(OrOne(h.bonusMultiplier))
    ensures forall a :: a in r && a.BuyBuilding? ==>
      h.kind == AutoBuy && var c := CheapestAffordable(view.buildings, view.resources);
      c.Some? && a.id == view.buildings[c.value].id
    ensures h.kind == AutoResearch ==> forall a :: a in r ==> a.HelperAction?
  {
    if !IsDue(h, now) then []
    else
      var act: seq<Action> :=
        match h.kind
        case AutoClick => [Click(Some(OrOne(h.bonusMultiplier)))]
        case AutoBuy =>
          (match CheapestAffordable(view.buildings, view.resources)
           case None => []
           case Some(k) => [BuyBuilding(view.buildings[k].id)])
        case AutoResearch => [];
      act + [HelperAction(h.id)]
  }

  /**
   * What a due helper dispatches, by kind: a clicker clicks with its bonus (0 read as 1), a buyer
   * buys the cheapest affordable building when there is one, a researcher only stamps; every
   * due helper's last action is its own timestamp stamp.
   */
  lemma DueHelperActs(h: Helper, view: GameState, now: int)
    requires IsDue(h, now)
    ensures h.kind == AutoClick ==>
      HelperActions(h, view, now) == [Click(Some(OrOne(h.bonusMultiplier))), HelperAction(h.id)]
    ensures h.kind == AutoBuy ==>
      var c := CheapestAffordable(view.buildings, view.resources);
      (c.Some? ==> HelperActions(h, view, now) == [BuyBuilding(view.buildings[c.value].id), HelperAction(h.id)]) &&
      (c.None? ==> HelperActions(h, view, now) == [HelperAction(h.id)])
    ensures h.kind == AutoResearch ==> HelperActions(h, view, now) == [HelperAction(h.id)]
  {
  }

  /** No helper of `hs` is due. */
  predicate NoneDue(hs: seq<Helper>, now: int) {
    forall i :: 0 <= i < |hs| ==> !IsDue(hs[i], now)
  }

  /** The actions of one pass over the helpers, in helper order. */
  function HelperSchedule(hs: seq<Helper>, view: GameState, now: int): (r: seq<Action>)
    ensures |r| <= 2 * |hs|
    ensures |r| == 0 <==> NoneDue(hs, now)
    ensures forall a :: a in r ==> a.Click? || a.BuyBuilding? || a.HelperAction?
  {
    if |hs| == 0 then []
    else
      var k := |hs| - 1;
      var prev := HelperSchedule(hs[..k], view, now);
      assert forall j :: 0 <= j < k ==> hs[..k][j] == hs[j];
      prev + HelperActions(hs[k], view, now)
  }

  /** Some helper of `hs` with this id is due. */
  predicate SomeDue(hs: seq<Helper>, id: string, now: int) {
    exists i :: 0 <= i < |hs| && hs[i].id == id && IsDue(hs[i], now)
  }

  lemma SomeDueSnoc(hs: seq<Helper>, id: string, now: int)
    requires |hs| > 0
    ensures SomeDue(hs, id, now) <==>
      SomeDue(hs[..|hs| - 1], id, now) || (hs[|hs| - 1].id == id && IsDue(hs[|hs| - 1], now))
  {
    var k := |hs| - 1;
    if SomeDue(hs, id, now) {
      var i :| 0 <= i < |hs| && hs[i].id == id && IsDue(hs[i], now);
      if i < k { assert hs[..k][i] == hs[i]; }
    }
    if SomeDue(hs[..k], id, now) {
      var i :| 0 <= i < k && hs[..k][i].id == id && IsDue(hs[..k][i], now);
      assert hs[i] == hs[..k][i];
    }
  }

  lemma StampOfOne(h: Helper, view: GameState, now: int, id: string)
    ensures HelperAction(id) in HelperActions(h, view, now) <==> h.id == id && IsDue(h, now)
  {
    var mine := HelperActions(h, view, now);
    if h.id == id && IsDue(h, now) {
      assert mine[|mine| - 1] in mine;
    }
  }

  /** Every due helper, and only a due helper, gets its timestamp stamp in the pass. */
  lemma {:induction false} ScheduleStampsTheDue(hs: seq<Helper>, view: GameState, now: int, id: string)
    ensures HelperAction(id) in HelperSchedule(hs, view, now) <==> SomeDue(hs, id, now)
  {
    if |hs| > 0 {
      var k := |hs| - 1;
      ScheduleStampsTheDue(hs[..k], view, now, id);
      SomeDueSnoc(hs, id, now);
      StampOfOne(hs[k], view, now, id);
      assert HelperSchedule(hs, view, now) == HelperSchedule(hs[..k], view, now) + HelperActions(hs[k], view, now);
    }
  }

  /** Every purchase in the pass is of the cheapest building affordable in the frame's view. */
  lemma {:induction false} ScheduleBuysCheapest(hs: seq<Helper>, view: GameState, now: int)
    ensures forall a :: a in HelperSchedule(hs, view, now) && a.BuyBuilding? ==>
      var c := CheapestAffordable(view.buildings, view.resources);
      c.Some? && a.id == view.buildings[c.value].id
  {
    if |hs| > 0 {
      ScheduleBuysCheapest(hs[..|hs| - 1], view, now);
    }
  }

  lemma ScheduleSnoc(hs: seq<Helper>, view: GameState, now: int)
    requires |hs| > 0
    ensures HelperSchedule(hs, view, now) ==
      HelperSchedule(hs[..|hs| - 1], view, now) + HelperActions(hs[|hs| - 1], view, now)
  {
  }

  /** The pass over two helper lists one after the other is the two passes one after the other. */
  lemma {:induction false} ScheduleAppend(xs: seq<Helper>, ys: seq<Helper>, view: GameState, now: int)
    ensures HelperSchedule(xs + ys, view, now) == HelperSchedule(xs, view, now) + HelperSchedule(ys, view, now)
  {
    if |ys| == 0 {
      assert xs + ys == xs;
    } else {
      var front := ys[..|ys| - 1];
      var last := ys[|ys| - 1];
      DropLastOfAppend(xs, ys);
      ScheduleSnoc(xs + ys, view, now);
      ScheduleSnoc(ys, view, now);
      ScheduleAppend(xs, front, view, now);
      ActionsAssoc(HelperSchedule(xs, view, now), HelperSchedule(front, view, now), HelperActions(last, view, now));
    }
  }

  lemma DropLastOfAppend(xs: seq<Helper>, ys: seq<Helper>)
    requires |ys| > 0
    ensures (xs + ys)[..|xs + ys| - 1] == xs + ys[..|ys| - 1]
    ensures (xs + ys)[|xs + ys| - 1] == ys[|ys| - 1]
  {
  }

  lemma ActionsAssoc(a: seq<Action>, b: seq<Action>, c: seq<Action>)
    ensures (a + b) + c == a + (b + c)
  {
  }

  lemma ScheduleOfOne(h: Helper, view: GameState, now: int)
    ensures HelperSchedule([h], view, now) == HelperActions(h, view, now)
  {
    ScheduleSnoc([h], view, now);
    assert [h][..0] == [];
  }

  /** Whatever one helper dispatches appears in the pass over a helper list that contains it. */
  lemma ScheduleIncludesEach(hs: seq<Helper>, view: GameState, now: int, i: int, a: Action)
    requires 0 <= i < |hs| && a in HelperActions(hs[i], view, now)
    ensures a in HelperSchedule(hs, view, now)
  {
    var pre := hs[..i];
    var post := hs[i + 1..];
    assert hs == (pre + [hs[i]]) + post;
    ScheduleAppend(pre + [hs[i]], post, view, now);
    ScheduleAppend(pre, [hs[i]], view, now);
    ScheduleOfOne(hs[i], view, now);
    InMiddle(HelperSchedule(pre, view, now), HelperActions(hs[i], view, now), HelperSchedule(post, view, now), a);
  }

  lemma InMiddle(x: seq<Action>, y: seq<Action>, z: seq<Action>, a: Action)
    requires a in y
    ensures a in (x + y) + z
  {
  }

  /**
   * A due helper acts in the pass: a clicker clicks with its bonus (0 read as 1), and a buyer
   * buys the cheapest affordable building whenever one is affordable.
   */
  lemma ScheduleActsForTheDue(hs: seq<Helper>, view: GameState, now: int, i: int)
    requires 0 <= i < |hs| && IsDue(hs[i], now)
    ensures hs[i].kind == AutoClick ==>
      Click(Some(OrOne(hs[i].bonusMultiplier))) in HelperSchedule(hs, view, now)
    ensures hs[i].kind == AutoBuy && CheapestAffordable(view.buildings, view.resources).Some? ==>
      BuyBuilding(view.buildings[CheapestAffordable(view.buildings, view.resources).value].id) in HelperSchedule(hs, view, now)
  {
    var mine := HelperActions(hs[i], view, now);
    DueHelperActs(hs[i], view, now);
    if hs[i].kind == AutoClick {
      assert mine[0] == Click(Some(OrOne(hs[i].bonusMultiplier)));
      ScheduleIncludesEach(hs, view, now, i, mine[0]);
    }
    if hs[i].kind == AutoBuy && CheapestAffordable(view.buildings, view.resources).Some? {
      assert mine[0] == BuyBuilding(view.buildings[CheapestAffordable(view.buildings, view.resources).value].id);
      ScheduleIncludesEach(hs, view, now, i, mine[0]);
    }
  }

  /** Replaying clicks, purchases and stamps never adds or removes a building. */
  lemma {:induction false} SchedulePreservesBuildingList(s: GameState, acts: seq<Action>, now: int)
    requires forall a :: a in acts ==> a.Click? || a.BuyBuilding? || a.HelperAction?
    ensures |Run(s, acts, now).buildings| == |s.buildings|
    decreases |acts|
  {
    if |acts| > 0 {
      var front := acts[..|acts| - 1];
      assert forall a :: a in front ==> a in acts;
      SchedulePreservesBuildingList(s, front, now);
    }
  }

  // ---- evolution (App.tsx:557-581) ----

  /** The chance per 5-second check of moving up from a tier. */
  function EvolutionChance(t: Tier): real {
    match t
    case Quantum => 0.05
    case Macrocosm => 0.01
    case Cosmic => 0.001
    case Multiversal => 0.0001
    case Omnipotent => 0.0
  }

  /** What one evolution check dispatches for a roll: a move up below the chance, a resonance log below five times it. */
  function EvolutionRoll(current: Tier, roll: real): (r: Option<Action>)
    ensures current == Omnipotent ==> r == None
    ensures r.Some? ==> r.value.AddLog? || r.value.UpdateTier?
    ensures r.Some? && r.value.UpdateTier? ==>
      roll < EvolutionChance(current) && Successor(current) == Some(r.value.tier) &&
      TierRank(r.value.tier) == TierRank(current) + 1
    ensures r.Some? && r.value.AddLog? ==>
      EvolutionChance(current) <= roll < 5.0 * EvolutionChance(current) && r.value.logType == InfoLog
    ensures current != Omnipotent && roll < EvolutionChance(current) ==> r.Some? && r.value.UpdateTier?
    ensures roll >= 5.0 * EvolutionChance(current) ==> r == None
    ensures current != Omnipotent && EvolutionChance(current) <= roll < 5.0 * EvolutionChance(current) ==>
      r == Some(AddLog(InfoLog))
  {
    match Successor(current)
    case None => None
    case Some(next) =>
      var chance := EvolutionChance(current);
      if roll < chance then Some(UpdateTier(next))
      else if roll < chance * 5.0 then Some(AddLog(InfoLog))
      else None
  }

  /** An evolution step that fires always lands on a different, higher tier, so UPDATE_TIER applies its buffs. */
  lemma EvolutionAlwaysApplies(s: GameState, roll: real, now: int)
    requires EvolutionRoll(s.currentTier, roll).Some? && EvolutionRoll(s.currentTier, roll).value.UpdateTier?
    ensures var t := Step(s, EvolutionRoll(s.currentTier, roll).value, now);
      TierRank(t.currentTier) == TierRank(s.currentTier) + 1 && t.clickPower == s.clickPower * 1.5
  {
    var next := EvolutionRoll(s.currentTier, roll).value.tier;
    assert TierRank(next) != TierRank(s.currentTier);
  }

  /** A roll in the resonance band only logs: the tier, income and everything else stay as they were. */
  lemma ResonanceOnlyLogs(s: GameState, roll: real, now: int)
    requires s.currentTier != Omnipotent
    requires EvolutionChance(s.currentTier) <= roll < 5.0 * EvolutionChance(s.currentTier)
    ensures var t := Step(s, EvolutionRoll(s.currentTier, roll).value, now);
      t.currentTier == s.currentTier && t == s.(logs := AppendLogs(s.logs, [LogEntry(InfoLog, now)]))
  {
  }

  // ---- research ----

  /** What the content generator's request has produced by the time the research expires. */
  datatype ResearchOutcome = Unresolved | Resolved(data: GeneratedBuildingData) | Rejected

  /** The selectable cheats of the debug menu, dispatched as `CHEAT_<kind>`. */
  datatype Cheat = AddResources | ForceEvolve | AddShards | TimeWarp | UnlockAchievements

  function CheatAction(c: Cheat): (a: Action)
    ensures a.CheatAddResources? || a.CheatForceEvolve? || a.CheatAddShards? || a.CheatTimeWarp? || a.CheatUnlockAchievements?
  {
    match c
    case AddResources => CheatAddResources
    case ForceEvolve => CheatForceEvolve
    case AddShards => CheatAddShards
    case TimeWarp => CheatTimeWarp
    case UnlockAchievements => CheatUnlockAchievements
  }

  const HackerId := "a_dirty_hacker"

  /** Using any cheat leaves the secret "dirty hacker" achievement unlocked, when the state has it. */
  lemma CheatUnlocksHacker(s: GameState, c: Cheat, now: int)
    requires AchievementIndex(s.achievements, HackerId) >= 0
    ensures var t := Step(Step(s, CheatAction(c), now), UnlockSecretAchievement(HackerId), now);
      var i := AchievementIndex(s.achievements, HackerId);
      i < |t.achievements| && t.achievements[i].unlocked
  {
    var m := Step(s, CheatAction(c), now);
    var i := AchievementIndex(s.achievements, HackerId);
    CheatKeepsIndex(s, c, now);
    SecretEndsUnlocked(m, HackerId, now);
  }

  /** A cheat keeps every achievement id in place, so the hacker achievement sits at the same index. */
  lemma CheatKeepsIndex(s: GameState, c: Cheat, now: int)
    requires AchievementIndex(s.achievements, HackerId) >= 0
    ensures AchievementIndex(Step(s, CheatAction(c), now).achievements, HackerId) == AchievementIndex(s.achievements, HackerId)
  {
    var m := Step(s, CheatAction(c), now);
    UnlocksArePermanent(s, CheatAction(c), now);
    var i := AchievementIndex(s.achievements, HackerId);
    assert m.achievements[i].id == HackerId;
    assert forall k :: 0 <= k < i ==> m.achievements[k].id == s.achievements[k].id;
  }

  /** After UNLOCK_SECRET_ACHIEVEMENT for a known id, that achievement is unlocked. */
  lemma SecretEndsUnlocked(m: GameState, id: string, now: int)
    requires AchievementIndex(m.achievements, id) >= 0
    ensures var t := Step(m, UnlockSecretAchievement(id), now);
      var i := AchievementIndex(m.achievements, id);
      i < |t.achievements| && t.achievements[i].unlocked
  {
    assert Step(m, UnlockSecretAchievement(id), now) == UnlockSecretStep(m, id, now);
  }

  /** The state after a frame's TICK and its helper pass, the helpers judged on the pre-frame state. */
  function FrameResult(s: GameState, dt: int, now: int): GameState {
    Run(Step(s, Action.Tick(dt as real), now), HelperSchedule(s.helpers, s, now), now)
  }

  /** Whether a frame at `now` ends the research: it has expired and its request is settled or absent. */
  predicate Settles(active: bool, start: int, duration: int, pending: bool, outcome: ResearchOutcome, now: int) {
    active && now - start >= duration && !(pending && outcome.Unresolved?)
  }

  /** The state after an expired research is settled. */
  function Settled(s: GameState, pending: bool, outcome: ResearchOutcome, now: int): GameState {
    if !pending then s
    else match outcome
      case Resolved(data) => Step(s, UnlockBuilding(data, 0.0), now)
      case Rejected => Step(s, AddLog(InfoLog), now)
      case Unresolved => s
  }

  /** The game component: the live state and the refs and state hooks the drivers keep beside it. */
  class Game {
    var state: GameState
    var researchActive: bool
    var researchStart: int
    var researchDuration: int
    /** Whether a content-generation request is held (the pending-research ref is non-null). */
    var hasPending: bool
    var lastTick: int
    var researchCost: real

    /** Inactive research has its times zeroed; active research lasts at least 30 seconds. */
    ghost predicate Valid()
      reads this
    {
      (researchActive ==> researchDuration >= 30000) &&
      (!researchActive ==> researchStart == 0 && researchDuration == 0)
    }

    /** Mount: the starter universe, no research, the research cost at its initial 500 until the effect runs. */
    constructor (now: int)
      ensures Valid()
      ensures state == InitialState && lastTick == now && researchCost == 500.0
      ensures !researchActive && !hasPending
    {
      state := InitialState;
      researchActive := false;
      researchStart := 0;
      researchDuration := 0;
      hasPending := false;
      lastTick := now;
      researchCost := 500.0;
    }

    method Dispatch(a: Action, now: int)
      modifies this`state
      ensures state == Step(old(state), a, now)
    {
      state := Step(state, a, now);
    }

    /** The research-cost effect (App.tsx:597-601), run whenever the building list changes. */
    method SyncResearchCost()
      modifies this`researchCost
      ensures researchCost == ResearchCost(|state.buildings|)
    {
      researchCost := 1000.0 * PowInt(3.5, |state.buildings| - |InitialBuildings|);
    }

    /** One helper's turn in the pass: its click or purchase when due, then its stamp. */
    method RunHelper(h: Helper, view: GameState, now: int)
      modifies this`state
      ensures state == Run(old(state), HelperActions(h, view, now), now)
    {
      ghost var done: seq<Action> := [];
      if IsDue(h, now) {
        match h.kind {
          case AutoClick =>
            Dispatch(Click(Some(OrOne(h.bonusMultiplier))), now);
            done := [Click(Some(OrOne(h.bonusMultiplier)))];
          case AutoBuy =>
            var choice := CheapestAffordable(view.buildings, view.resources);
            if choice.Some? {
              Dispatch(BuyBuilding(view.buildings[choice.value].id), now);
              done := [BuyBuilding(view.buildings[choice.value].id)];
            }
          case AutoResearch =>
        }
        assert state == Run(old(state), done, now) by {
          if |done| == 1 { assert done[..0] == []; }
        }
        Dispatch(HelperAction(h.id), now);
        RunSnoc(old(state), done, HelperAction(h.id), now);
        done := done + [HelperAction(h.id)];
      }
      assert done == HelperActions(h, view, now);
    }

    /**
     * `processHelpers`: walks the helpers of the frame's `view` and, for each due one, dispatches
     * its click or purchase and then its timestamp stamp onto the live state.
     */
    method ProcessHelpers(view: GameState, now: int)
      modifies this`state
      ensures state == Run(old(state), HelperSchedule(view.helpers, view, now), now)
    {
      var i := 0;
      while i < |view.helpers|
        invariant 0 <= i <= |view.helpers|
        invariant state == Run(old(state), HelperSchedule(view.helpers[..i], view, now), now)
      {
        assert view.helpers[..i + 1][..i] == view.helpers[..i];
        ScheduleSnoc(view.helpers[..i + 1], view, now);
        ghost var before := HelperSchedule(view.helpers[..i], view, now);
        RunHelper(view.helpers[i], view, now);
        RunAppend(old(state), before, HelperActions(view.helpers[i], view, now), now);
        i := i + 1;
      }
      assert view.helpers[..|view.helpers|] == view.helpers;
    }

    /**
     * Settling an expired research (App.tsx:513-528): an arrived result unlocks the building at
     * cost 0, a failure logs without refund, either way the research goes idle; a result still
     * outstanding leaves it waiting; with no request held the research just goes idle.
     */
    method SettleResearch(now: int, outcome: ResearchOutcome)
      requires Valid()
      modifies this`state, this`researchActive, this`researchStart, this`researchDuration, this`hasPending
      ensures Valid()
      ensures !Settles(old(researchActive), old(researchStart), old(researchDuration), old(hasPending), outcome, now) ==>
        state == old(state) && researchActive == old(researchActive) && researchStart == old(researchStart) &&
        researchDuration == old(researchDuration) && hasPending == old(hasPending)
      ensures Settles(old(researchActive), old(researchStart), old(researchDuration), old(hasPending), outcome, now) ==>
        state == Settled(old(state), old(hasPending), outcome, now) && !researchActive && !hasPending
    {
      if researchActive {
        var elapsed := now - researchStart;
        if elapsed >= researchDuration {
          if hasPending {
            match outcome {
              case Resolved(data) =>
                Dispatch(UnlockBuilding(data, 0.0), now);
                researchActive, researchStart, researchDuration := false, 0, 0;
                hasPending := false;
              case Rejected =>
                Dispatch(AddLog(InfoLog), now);
                researchActive, researchStart, researchDuration := false, 0, 0;
                hasPending := false;
              case Unresolved =>
            }
          } else {
            researchActive, researchStart, researchDuration := false, 0, 0;
          }
        }
      }
    }

    /**
     * One animation frame (`tick`, App.tsx:503-533): when time has advanced, accrue the elapsed
     * production, run the helpers against the frame's view, then settle an expired research.
     */
    method Tick(now: int, outcome: ResearchOutcome)
      requires Valid()
      modifies this
      ensures Valid()
      ensures researchCost == old(researchCost)
      ensures now <= old(lastTick) ==>
        state == old(state) && lastTick == old(lastTick) && researchActive == old(researchActive) &&
        researchStart == old(researchStart) && researchDuration == old(researchDuration) && hasPending == old(hasPending)
      ensures now > old(lastTick) ==> lastTick == now
      ensures now > old(lastTick) && !Settles(old(researchActive), old(researchStart), old(researchDuration), old(hasPending), outcome, now) ==>
        state == FrameResult(old(state), now - old(lastTick), now) &&
        researchActive == old(researchActive) && researchStart == old(researchStart) &&
        researchDuration == old(researchDuration) && hasPending == old(hasPending)
      ensures now > old(lastTick) && Settles(old(researchActive), old(researchStart), old(researchDuration), old(hasPending), outcome, now) ==>
        state == Settled(FrameResult(old(state), now - old(lastTick), now), old(hasPending), outcome, now) &&
        !researchActive && !hasPending
    {
      var dt := now - lastTick;
      if dt > 0 {
        var view := state;
        Dispatch(Action.Tick(dt as real), now);
        ProcessHelpers(view, now);
        SettleResearch(now, outcome);
        lastTick := now;
      }
    }

    /**
     * `handleResearch`: refused while unaffordable at the current research cost, while a
     * research is active, or during an animation; otherwise charges the cost, starts the
     * clock with the length the building count gives, and issues the generation request.
     */
    method HandleResearch(now: int, idle: bool) returns (started: bool)
      requires Valid()
      modifies this
      ensures Valid()
      ensures started <==> old(state).resources >= old(researchCost) && !old(researchActive) && idle
      ensures !started ==>
        state == old(state) && researchActive == old(researchActive) &&
        researchStart == old(researchStart) && researchDuration == old(researchDuration) && hasPending == old(hasPending)
      ensures started ==>
        state == Step(old(state), StartResearch(old(researchCost)), now) && state.resources >= 0.0 &&
        researchActive && researchStart == now && researchDuration == ResearchDuration(|old(state).buildings|) && hasPending
      ensures lastTick == old(lastTick) && researchCost == old(researchCost)
    {
      if state.resources < researchCost || researchActive || !idle {
        return false;
      }
      var duration := ResearchDuration(|state.buildings|);
      Dispatch(StartResearch(researchCost), now);
      researchActive, researchStart, researchDuration := true, now, duration;
      hasPending := true;
      started := true;
    }

    /**
     * `handlePrestige`: dispatched only for a positive gain, i.e. at least 1000 generated this
     * run; the research goes idle but the pending request is not discarded.
     */
    method HandlePrestige(newTheme: string, newResource: string, now: int) returns (reset: bool)
      requires Valid()
      modifies this
      ensures Valid()
      ensures reset <==> old(state).totalResourcesGenerated >= 1000.0
      ensures !reset ==>
        state == old(state) && researchActive == old(researchActive) &&
        researchStart == old(researchStart) && researchDuration == old(researchDuration)
      ensures reset ==>
        state == Step(old(state), Prestige(newTheme, newResource, PrestigeGain(old(state).totalResourcesGenerated) as real), now) &&
        !researchActive
      ensures hasPending == old(hasPending) && lastTick == old(lastTick) && researchCost == old(researchCost)
    {
      var gain := PrestigeGain(state.totalResourcesGenerated);
      PrestigeGainPositiveIff(state.totalResourcesGenerated);
      if gain <= 0 {
        return false;
      }
      Dispatch(Prestige(newTheme, newResource, gain as real), now);
      researchActive, researchStart, researchDuration := false, 0, 0;
      reset := true;
    }

    /** The 5-second evolution check on the latest state with the roll `Math.random()` gave. */
    method EvolutionCheck(roll: real, now: int)
      modifies this`state
      ensures EvolutionRoll(old(state).currentTier, roll).None? ==> state == old(state)
      ensures EvolutionRoll(old(state).currentTier, roll).Some? ==>
        state == Step(old(state), EvolutionRoll(old(state).currentTier, roll).value, now)
    {
      var next := EvolutionRoll(state.currentTier, roll);
      if next.Some? {
        Dispatch(next.value, now);
      }
    }

    /** `handleCheat`: the cheat, then the secret achievement for using one. */
    method HandleCheat(c: Cheat, now: int)
      modifies this`state
      ensures state == Step(Step(old(state), CheatAction(c), now), UnlockSecretAchievement(HackerId), now)
    {
      Dispatch(CheatAction(c), now);
      Dispatch(UnlockSecretAchievement(HackerId), now);
    }

    /** `handleHardReset` as written: the state is reset but the research hooks are left as they were. */
    method HandleHardResetAsWritten(now: int)
      modifies this`state
      ensures state == InitialState
    {
      Dispatch(ResetGame, now);
    }

    /** The hard reset with the in-flight research cancelled, so no late result reaches the new universe. */
    method HandleHardReset(now: int)
      modifies this`state, this`researchActive, this`researchStart, this`researchDuration, this`hasPending
      ensures Valid()
      ensures state == InitialState && !researchActive && !hasPending
    {
      Dispatch(ResetGame, now);
      researchActive, researchStart, researchDuration := false, 0, 0;
      hasPending := false;
    }
  }

  /** In the starter universe no helper is unlocked, so a frame dispatches nothing for them. */
  lemma NoHelpersAtStart(view: GameState, now: int)
    ensures HelperSchedule(InitialHelpers, view, now) == []
  {
    StarterHelpers();
  }

  /**
   * A research in flight survives the hard reset as written: once it expires, its result adds a
   * researched building to the fresh universe.
   */
  method LateResultAfterHardResetAsWritten(g: Game, data: GeneratedBuildingData, now: int)
    requires g.Valid() && g.researchActive && g.hasPending
    requires now > g.lastTick && now - g.researchStart >= g.researchDuration
    modifies g
    ensures |g.state.buildings| == |InitialBuildings| + 1
  {
    g.HandleHardResetAsWritten(now);
    NoHelpersAtStart(InitialState, now);
    g.Tick(now, Resolved(data));
  }

  /** With the corrected reset the same late result changes nothing: the universe keeps its starter buildings. */
  method LateResultAfterHardReset(g: Game, data: GeneratedBuildingData, now: int)
    requires g.Valid() && g.researchActive && g.hasPending
    requires now > g.lastTick && now - g.researchStart >= g.researchDuration
    modifies g
    ensures g.state.buildings == InitialBuildings
  {
    g.HandleHardReset(now);
    NoHelpersAtStart(InitialState, now);
    g.Tick(now, Resolved(data));
  }

  /**
   * A prestige in the middle of a research that no frame has yet seen expire: the late result is
   * dropped, no building is added.
   */
  method LateResultAfterPrestige(g: Game, theme: string, resource: string, data: GeneratedBuildingData, now: int)
    requires g.Valid() && g.researchActive && g.hasPending
    requires g.lastTick - g.researchStart < g.researchDuration
    requires g.state.totalResourcesGenerated >= 1000.0
    requires now > g.lastTick
    modifies g
    ensures |g.state.buildings| == |InitialBuildings|
  {
    var reset := g.HandlePrestige(theme, resource, now);
    ghost var view := g.state;
    ghost var last := g.lastTick;
    g.Tick(now, Resolved(data));
    SchedulePreservesBuildingList(Step(view, Action.Tick((now - last) as real), now), HelperSchedule(view.helpers, view, now), now);
  }
}
