/**
 * What the awards panel shows (components/AchievementPanel.tsx): a progress percentage and a
 * progress text per achievement, the achievements that are visible, and how many of those are
 * unlocked. The percentage must agree with the reducer's unlock test.
 */
module AchievementPanel {
  import opened Wrappers
  import opened GameTypes
  import opened Economy
  import opened AchievementRules

  /** The metric the bar shows: as the reducer reads it, except that negative shards show as 0. */
  function ShownMetric(ct: ConditionType, s: GameState): (r: real)
    ensures ct != PrestigeTotal ==> r == Metric(ct, s)
    ensures ct == PrestigeTotal ==> r >= 0.0 && (s.prestigeCurrency >= 0.0 ==> r == s.prestigeCurrency)
    ensures ct == PrestigeTotal && s.prestigeCurrency <= 0.0 ==> r == 0.0
  {
    if ct == PrestigeTotal then (if s.prestigeCurrency > 0.0 then s.prestigeCurrency else 0.0)
    else Metric(ct, s)
  }

  /**
   * `getProgress`: 100 once unlocked, otherwise `min(100, current / threshold * 100)`. A zero
   * threshold divides by zero: a positive metric then shows 100 (the quotient is +Infinity), and
   * a zero or negative metric gives no finite number (`None`: the quotient is NaN or -Infinity).
   */
  function Progress(a: Achievement, s: GameState): (r: Option<real>)
    ensures a.unlocked ==> r == Some(100.0)
    ensures r.None? <==> !a.unlocked && a.threshold == 0.0 && ShownMetric(a.conditionType, s) <= 0.0
    ensures r.Some? ==> r.value <= 100.0
    ensures !a.unlocked && a.conditionType == Special && a.threshold != 0.0 ==> r == Some(0.0)
    ensures !a.unlocked && a.conditionType != Special && a.threshold > 0.0 ==>
      (r == Some(100.0) <==> Satisfied(a, s))
  {
    if a.unlocked then Some(100.0)
    else
      var current := ShownMetric(a.conditionType, s);
      if a.threshold == 0.0 then
        (if current > 0.0 then Some(100.0) else None)
      else
        var pct := current / a.threshold * 100.0;
        ProgressAtFull(current, a.threshold);
        Some(if pct < 100.0 then pct else 100.0)
  }

  lemma ProgressAtFull(current: real, threshold: real)
    requires threshold > 0.0 || threshold < 0.0
    ensures threshold > 0.0 ==> (current / threshold * 100.0 >= 100.0 <==> current >= threshold)
  {
    if threshold > 0.0 {
      var q := current / threshold;
      assert q * threshold == current;
      if q >= 1.0 {
        assert q * threshold >= 1.0 * threshold by { ScaleMonotone(threshold, 1.0, q); assert threshold * 1.0 == 1.0 * threshold; assert threshold * q == q * threshold; }
      } else {
        assert q * threshold < threshold by { assert threshold - q * threshold == threshold * (1.0 - q); }
      }
    }
  }

  /** `getProgressText`: "Completed", "???" for a locked SPECIAL one, or "floor(current) / threshold". */
  datatype ProgressText = Completed | Secret | Fraction(current: int, threshold: real)

  function ProgressTextOf(a: Achievement, s: GameState): (r: ProgressText)
    ensures a.unlocked <==> r == Completed
    ensures !a.unlocked && a.conditionType == Special <==> r == Secret
    ensures r.Fraction? ==> r.threshold == a.threshold && r.current == Metric(a.conditionType, s).Floor
  {
    if a.unlocked then Completed
    else if a.conditionType == Special then Secret
    else Fraction(Metric(a.conditionType, s).Floor, a.threshold)
  }

  /** An achievement is listed when it is not hidden or is already unlocked. */
  predicate IsVisible(a: Achievement) {
    !a.hidden || a.unlocked
  }

  /** `visibleAchievements`: the listed ones, in order. */
  function Visible(achs: seq<Achievement>): (r: seq<Achievement>)
    ensures |r| <= |achs|
    ensures forall k :: 0 <= k < |r| ==> IsVisible(r[k]) && r[k] in achs
    ensures forall i :: 0 <= i < |achs| && IsVisible(achs[i]) ==> achs[i] in r
  {
    if |achs| == 0 then []
    else
      var front := achs[..|achs| - 1];
      var prev := Visible(front);
      assert forall i :: 0 <= i < |front| ==> front[i] == achs[i];
      assert forall a :: a in front ==> a in achs;
      if IsVisible(achs[|achs| - 1]) then prev + [achs[|achs| - 1]] else prev
  }

  /** The unlocked ones, in order. */
  function Unlocked(achs: seq<Achievement>): (r: seq<Achievement>)
    ensures |r| <= |achs|
    ensures forall k :: 0 <= k < |r| ==> r[k].unlocked && r[k] in achs
    ensures forall i :: 0 <= i < |achs| && achs[i].unlocked ==> achs[i] in r
  {
    if |achs| == 0 then []
    else
      var front := achs[..|achs| - 1];
      var prev := Unlocked(front);
      assert forall i :: 0 <= i < |front| ==> front[i] == achs[i];
      assert forall a :: a in front ==> a in achs;
      if achs[|achs| - 1].unlocked then prev + [achs[|achs| - 1]] else prev
  }

  /** `unlockedCount`: how many listed achievements are unlocked; never more than are listed. */
  function UnlockedCount(achs: seq<Achievement>): (n: nat)
    ensures n <= |Visible(achs)|
    ensures n == |UnlockedPositions(achs)|
  {
    UnlockedAreVisible(achs);
    UnlockedCountsPositions(achs);
    |Unlocked(Visible(achs))|
  }

  /** The positions of the unlocked achievements. */
  function UnlockedPositions(achs: seq<Achievement>): set<int> {
    set i | 0 <= i < |achs| && achs[i].unlocked
  }

  /** `Unlocked` keeps one entry per unlocked position, so its length counts them exactly. */
  lemma {:induction false} UnlockedCountsPositions(achs: seq<Achievement>)
    ensures |Unlocked(achs)| == |UnlockedPositions(achs)|
  {
    if |achs| > 0 {
      UnlockedCountsPositions(achs[..|achs| - 1]);
      PositionsSnoc(achs);
    }
  }

  lemma PositionsSnoc(achs: seq<Achievement>)
    requires |achs| > 0
    ensures |UnlockedPositions(achs)| ==
      |UnlockedPositions(achs[..|achs| - 1])| + if achs[|achs| - 1].unlocked then 1 else 0
  {
    var k := |achs| - 1;
    var front := achs[..k];
    var whole := UnlockedPositions(achs);
    var before := UnlockedPositions(front);
    var added: set<int> := if achs[k].unlocked then {k} else {};
    forall i
      ensures i in whole <==> i in before + added
    {
      if 0 <= i < k {
        assert front[i] == achs[i];
      }
    }
    assert whole == before + added;
    assert before !! added;
  }

  /**
   * Both lists are filters that keep the order: each distributes over concatenation and keeps a
   * single achievement exactly when it passes the test. Together these pin the lists down.
   */
  lemma {:induction false} VisibleAppend(a: seq<Achievement>, b: seq<Achievement>)
    ensures Visible(a + b) == Visible(a) + Visible(b)
  {
    if |b| == 0 {
      assert a + b == a;
    } else {
      var front := b[..|b| - 1];
      assert (a + b)[..|a + b| - 1] == a + front;
      assert (a + b)[|a + b| - 1] == b[|b| - 1];
      VisibleAppend(a, front);
    }
  }

  lemma VisibleOne(x: Achievement)
    ensures Visible([x]) == if IsVisible(x) then [x] else []
  {
    assert [x][..0] == [];
  }

  lemma {:induction false} UnlockedAppend(a: seq<Achievement>, b: seq<Achievement>)
    ensures Unlocked(a + b) == Unlocked(a) + Unlocked(b)
  {
    if |b| == 0 {
      assert a + b == a;
    } else {
      var front := b[..|b| - 1];
      assert (a + b)[..|a + b| - 1] == a + front;
      assert (a + b)[|a + b| - 1] == b[|b| - 1];
      UnlockedAppend(a, front);
    }
  }

  lemma UnlockedOne(x: Achievement)
    ensures Unlocked([x]) == if x.unlocked then [x] else []
  {
    assert [x][..0] == [];
  }

  /** Every unlocked achievement is listed, so counting among the listed ones misses none. */
  lemma {:induction false} UnlockedAreVisible(achs: seq<Achievement>)
    ensures Unlocked(Visible(achs)) == Unlocked(achs)
  {
    if |achs| > 0 {
      var front := achs[..|achs| - 1];
      var last := achs[|achs| - 1];
      UnlockedAreVisible(front);
      if IsVisible(last) {
        var v := Visible(front) + [last];
        assert v[..|v| - 1] == Visible(front);
      }
    }
  }

  /** In the starter catalogue sixteen awards are listed and none is unlocked. */
  lemma StarterPanel()
    ensures |Visible(InitialAchievements)| == 16 && UnlockedCount(InitialAchievements) == 0
  {
    StarterAchievements();
    HiddenAreTheSpecialOnes();
    var a := InitialAchievements;
    assert a[..17] == a[..|a| - 1];
    assert a[..17][..16] == a[..16];
    assert Visible(a) == Visible(a[..16]);
    VisibleAllShown(a[..16]);
    UnlockedAreVisible(a);
    NoneUnlocked(a);
  }

  lemma {:induction false} VisibleAllShown(achs: seq<Achievement>)
    requires forall i :: 0 <= i < |achs| ==> IsVisible(achs[i])
    ensures Visible(achs) == achs
  {
    if |achs| > 0 {
      VisibleAllShown(achs[..|achs| - 1]);
      assert achs[..|achs| - 1] + [achs[|achs| - 1]] == achs;
    }
  }

  lemma {:induction false} NoneUnlocked(achs: seq<Achievement>)
    requires forall i :: 0 <= i < |achs| ==> !achs[i].unlocked
    ensures Unlocked(achs) == []
  {
    if |achs| > 0 {
      NoneUnlocked(achs[..|achs| - 1]);
    }
  }
}
