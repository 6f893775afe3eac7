/**
 * The unlock test of an achievement and the batch evaluation pass of CHECK_ACHIEVEMENTS
 * (App.tsx:240-288): each locked achievement whose condition holds in the state is unlocked,
 * and the newly unlocked ones are collected in declaration order.
 */
module AchievementRules {
  import opened GameTypes
  import opened Economy

  /** The quantity an achievement's condition reads from the state (App.tsx:246-262). */
  function Metric(ct: ConditionType, s: GameState): real {
    match ct
    case ResourceTotal => s.totalResourcesGenerated
    case ClickCount => s.totalClicks as real
    case BuildingCount => BuildingTotal(s.buildings) as real
    case ResearchCount => |s.buildings| as real
    case PrestigeTotal => s.prestigeCurrency
    case Special => 0.0
  }

  /** The reducer's unlock condition: SPECIAL achievements are never unlocked by evaluation. */
  predicate Satisfied(a: Achievement, s: GameState) {
    a.conditionType != Special && Metric(a.conditionType, s) >= a.threshold
  }

  /** One achievement after the pass: already unlocked ones are returned as they are. */
  function Evaluate(a: Achievement, s: GameState): (r: Achievement)
    ensures r == a.(unlocked := a.unlocked || Satisfied(a, s))
    ensures a.unlocked ==> r == a
    ensures a.conditionType == Special ==> r == a
  {
    if a.unlocked then a
    else if Satisfied(a, s) then a.(unlocked := true)
    else a
  }

  /** The `map` of App.tsx:242-271 over all achievements. */
  function EvaluateAll(achs: seq<Achievement>, s: GameState): (r: seq<Achievement>)
    ensures |r| == |achs|
    ensures forall i :: 0 <= i < |achs| ==> r[i] == Evaluate(achs[i], s)
  {
    seq(|achs|, i requires 0 <= i < |achs| => Evaluate(achs[i], s))
  }

  /** Whether evaluation changes this achievement. */
  predicate NewlySatisfied(a: Achievement, s: GameState) {
    !a.unlocked && Satisfied(a, s)
  }

  /** The `newlyUnlocked` list: the achievements the pass unlocks, as unlocked, in declaration order. */
  function Newly(achs: seq<Achievement>, s: GameState): (r: seq<Achievement>)
    ensures |r| <= |achs|
    ensures forall k :: 0 <= k < |r| ==> r[k].unlocked && r[k].conditionType != Special
    ensures |r| == 0 <==> forall i :: 0 <= i < |achs| ==> !NewlySatisfied(achs[i], s)
  {
    if |achs| == 0 then []
    else
      var front := achs[..|achs| - 1];
      var last := achs[|achs| - 1];
      var prev := Newly(front, s);
      assert forall i :: 0 <= i < |front| ==> front[i] == achs[i];
      if NewlySatisfied(last, s) then prev + [last.(unlocked := true)] else prev
  }

  /**
   * The list holds exactly the newly satisfied achievements, unlocked: each of them is in it,
   * and each of its entries is one of them.
   */
  lemma {:induction false} NewlyMembers(achs: seq<Achievement>, s: GameState)
    ensures forall i :: 0 <= i < |achs| && NewlySatisfied(achs[i], s) ==> achs[i].(unlocked := true) in Newly(achs, s)
    ensures forall k :: 0 <= k < |Newly(achs, s)| ==>
      exists i :: 0 <= i < |achs| && NewlySatisfied(achs[i], s) && Newly(achs, s)[k] == achs[i].(unlocked := true)
  {
    if |achs| > 0 {
      var front := achs[..|achs| - 1];
      var prev := Newly(front, s);
      var r := Newly(achs, s);
      var last := achs[|achs| - 1];
      NewlyMembers(front, s);
      assert r == if NewlySatisfied(last, s) then prev + [last.(unlocked := true)] else prev;
      assert forall i :: 0 <= i < |front| ==> front[i] == achs[i];
      assert forall k :: 0 <= k < |prev| ==> r[k] == prev[k];
      forall k | 0 <= k < |Newly(achs, s)|
        ensures exists i :: 0 <= i < |achs| && NewlySatisfied(achs[i], s) && Newly(achs, s)[k] == achs[i].(unlocked := true)
      {
        if k < |prev| {
          var i :| 0 <= i < |front| && NewlySatisfied(front[i], s) && prev[k] == front[i].(unlocked := true);
          assert achs[i] == front[i];
        } else {
          assert r[k] == achs[|achs| - 1].(unlocked := true);
        }
      }
      forall i | 0 <= i < |achs| && NewlySatisfied(achs[i], s)
        ensures achs[i].(unlocked := true) in r
      {
        if i < |front| {
          assert achs[i] == front[i];
        } else {
          assert r[|r| - 1] == achs[i].(unlocked := true);
        }
      }
    } else {
      assert Newly(achs, s) == [];
    }
  }

  /**
   * The list is collected achievement by achievement in declaration order: it distributes over
   * concatenation, and a single achievement contributes itself, unlocked, exactly when it is newly
   * satisfied. Together these pin `Newly` down, order and multiplicity included.
   */
  lemma {:induction false} NewlyAppend(a: seq<Achievement>, b: seq<Achievement>, s: GameState)
    ensures Newly(a + b, s) == Newly(a, s) + Newly(b, s)
    decreases |b|
  {
    if |b| == 0 {
      assert a + b == a;
    } else {
      var front := b[..|b| - 1];
      var last := b[|b| - 1];
      assert (a + b)[..|a + b| - 1] == a + front;
      assert (a + b)[|a + b| - 1] == last;
      NewlyAppend(a, front, s);
    }
  }

  lemma NewlyOne(a: Achievement, s: GameState)
    ensures Newly([a], s) == if NewlySatisfied(a, s) then [a.(unlocked := true)] else []
  {
    assert [a][..0] == [];
  }

  /**
   * The pass as App.tsx:241-271 runs it: one walk over the achievements building the
   * updated list and pushing each newly unlocked one onto `newly`.
   */
  method EvaluationPass(achs: seq<Achievement>, s: GameState) returns (updated: seq<Achievement>, newly: seq<Achievement>)
    ensures updated == EvaluateAll(achs, s)
    ensures newly == Newly(achs, s)
  {
    updated, newly := [], [];
    var i := 0;
    while i < |achs|
      invariant 0 <= i <= |achs|
      invariant updated == EvaluateAll(achs[..i], s)
      invariant newly == Newly(achs[..i], s)
    {
      var a := achs[i];
      assert achs[..i + 1][..i] == achs[..i];
      if a.unlocked {
        updated := updated + [a];
      } else if Satisfied(a, s) {
        var unlockedA := a.(unlocked := true);
        newly := newly + [unlockedA];
        updated := updated + [unlockedA];
      } else {
        updated := updated + [a];
      }
      i := i + 1;
    }
    assert achs[..|achs|] == achs;
  }

  /** The metrics are what the pass reads; a state that agrees on them evaluates the same. */
  predicate SameMetrics(s: GameState, t: GameState) {
    s.totalResourcesGenerated == t.totalResourcesGenerated && s.totalClicks == t.totalClicks &&
    s.buildings == t.buildings && s.prestigeCurrency == t.prestigeCurrency
  }

  /** After a pass, a second pass against the same metrics finds nothing new. */
  lemma {:induction false} NothingNewAfterEvaluation(achs: seq<Achievement>, s: GameState, t: GameState)
    requires SameMetrics(s, t)
    ensures Newly(EvaluateAll(achs, s), t) == []
  {
    var e := EvaluateAll(achs, s);
    forall i | 0 <= i < |e|
      ensures !NewlySatisfied(e[i], t)
    {
      assert Metric(achs[i].conditionType, s) == Metric(achs[i].conditionType, t);
    }
  }
}
