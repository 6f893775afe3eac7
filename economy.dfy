/**
 * The pure formulas of the economy: building cost, production, research cost and
 * duration, prestige gain and the prestige multiplier (App.tsx and PrestigeModal.tsx).
 * Numbers are exact reals; `Math.pow` with a whole exponent is repeated multiplication
 * and `Math.floor(Math.cbrt(x / 1000))` is the largest integer whose cube is at most x / 1000.
 */
module Economy {
  import opened GameTypes

  // ---- powers ----

  function Pow(b: real, e: nat): (r: real)
    ensures b > 0.0 ==> r > 0.0
    ensures b >= 1.0 ==> r >= 1.0
  {
    if e == 0 then 1.0
    else
      var p := Pow(b, e - 1);
      assert b >= 1.0 ==> b * p >= p >= 1.0;
      b * p
  }

  /** `Math.pow(b, e)` for a whole, possibly negative, exponent. */
  function PowInt(b: real, e: int): (r: real)
    requires b > 0.0
    ensures r > 0.0
    ensures e >= 0 ==> r == Pow(b, e)
    ensures e < 0 ==> r * Pow(b, -e) == 1.0
  {
    if e >= 0 then Pow(b, e) else 1.0 / Pow(b, -e)
  }

  // ---- buildings ----

  /** `Math.floor(baseCost * costMultiplier ^ count)` (App.tsx:83, 486). */
  function BuildingCost(b: Building): int {
    (b.baseCost * Pow(b.costMultiplier, b.count)).Floor
  }

  lemma ScaleMonotone(a: real, x: real, y: real)
    requires a >= 0.0 && x <= y
    ensures a * x <= a * y
  {
    assert a * y - a * x == a * (y - x);
  }

  lemma FloorMonotone(x: real, y: real)
    requires x <= y
    ensures x.Floor <= y.Floor
  {
  }

  lemma PowStep(c: real, n: nat)
    requires c >= 1.0
    ensures Pow(c, n) <= Pow(c, n + 1)
  {
    var p := Pow(c, n);
    assert Pow(c, n + 1) == c * p;
    ScaleMonotone(p, 1.0, c);
  }

  lemma {:induction false} PowMonotone(c: real, n: nat, k: nat)
    requires c >= 1.0 && n <= k
    ensures Pow(c, n) <= Pow(c, k)
    decreases k
  {
    if n < k {
      PowMonotone(c, n, k - 1);
      PowStep(c, k - 1);
    }
  }

  lemma CostBound(base: real, p: real, q: real)
    requires base >= 0.0 && p <= q
    ensures (base * p).Floor <= (base * q).Floor
  {
    ScaleMonotone(base, p, q);
  }

  /** Buying more never makes the next one cheaper, for a cost multiplier of at least 1. */
  lemma CostGrowsWithCount(b: Building, k: nat)
    requires b.baseCost >= 0.0 && b.costMultiplier >= 1.0
    requires k >= b.count
    ensures BuildingCost(b) <= BuildingCost(b.(count := k))
  {
    PowMonotone(b.costMultiplier, b.count, k);
    CostBound(b.baseCost, Pow(b.costMultiplier, b.count), Pow(b.costMultiplier, k));
  }

  /** The sum of `baseProduction * count` over the buildings, accumulated left to right. */
  function RawProduction(bs: seq<Building>): real {
    if |bs| == 0 then 0.0
    else RawProduction(bs[..|bs| - 1]) + bs[|bs| - 1].baseProduction * bs[|bs| - 1].count as real
  }

  predicate NonNegativeOutput(bs: seq<Building>) {
    forall i :: 0 <= i < |bs| ==> bs[i].baseProduction >= 0.0
  }

  lemma {:induction false} RawProductionNonNegative(bs: seq<Building>)
    requires NonNegativeOutput(bs)
    ensures RawProduction(bs) >= 0.0
  {
    if |bs| > 0 {
      var last := bs[|bs| - 1];
      assert NonNegativeOutput(bs[..|bs| - 1]);
      RawProductionNonNegative(bs[..|bs| - 1]);
      assert last.baseProduction * last.count as real >= 0.0;
    }
  }

  /** Output per second: raw production scaled by the prestige multiplier. */
  function TotalProduction(s: GameState): real {
    RawProduction(s.buildings) * s.prestigeMultiplier
  }

  /** The sum of building counts (the `reduce` at App.tsx:254). */
  function BuildingTotal(bs: seq<Building>): nat {
    if |bs| == 0 then 0 else BuildingTotal(bs[..|bs| - 1]) + bs[|bs| - 1].count
  }

  // ---- research ----

  /** `1000 * 3.5 ^ (buildings - starter buildings)`; the exponent is not clamped (App.tsx:597-601). */
  function ResearchCost(buildingCount: int): (r: real)
    ensures r > 0.0
  {
    1000.0 * PowInt(3.5, buildingCount - |InitialBuildings|)
  }

  /** Research time in ms: 30 s plus 30 s per building already researched, clamped at 0 (App.tsx:650-651). */
  function ResearchDuration(buildingCount: int): (r: int)
    ensures r >= 30000
    ensures buildingCount <= |InitialBuildings| ==> r == 30000
  {
    var researched := if buildingCount - |InitialBuildings| > 0 then buildingCount - |InitialBuildings| else 0;
    30000 + researched * 30000
  }

  /** Each researched building makes the next research 3.5 times dearer. */
  lemma {:induction false} ResearchCostGeometric(n: int)
    requires n >= |InitialBuildings|
    ensures ResearchCost(n + 1) == 3.5 * ResearchCost(n)
  {
    var e := n - |InitialBuildings|;
    assert Pow(3.5, e + 1) == 3.5 * Pow(3.5, e);
  }

  lemma PowCubed(b: real)
    ensures Pow(b, 3) == b * (b * (b * 1.0))
  {
    assert Pow(b, 1) == b * 1.0;
    assert Pow(b, 2) == b * Pow(b, 1);
  }

  lemma PowOfThreeAndAHalf()
    ensures Pow(3.5, 3) == 42.875
  {
    PowCubed(3.5);
  }

  lemma FirstResearchCost()
    ensures ResearchCost(2) == 1000.0
  {
  }

  lemma FourthResearchCost()
    ensures ResearchCost(5) == 42875.0
  {
    PowOfThreeAndAHalf();
  }

  lemma ResearchDurationExamples()
    ensures ResearchDuration(2) == 30000 && ResearchDuration(5) == 120000
  {
  }

  // ---- prestige ----

  function Cube(n: int): int { n * n * n }

  /** Consecutive cubes differ by 3x(x+1) + 1, which is positive for every integer. */
  lemma CubeStep(x: int)
    ensures Cube(x) < Cube(x + 1)
  {
    assert (x + 1) * (x + 1) == x * x + 2 * x + 1;
    assert Cube(x + 1) == (x * x + 2 * x + 1) * (x + 1);
    assert Cube(x + 1) - Cube(x) == 3 * (x * (x + 1)) + 1;
    if x >= 0 {
      assert x * (x + 1) >= 0;
    } else {
      assert (-x) * (-(x + 1)) >= 0;
      assert x * (x + 1) == (-x) * (-(x + 1));
    }
  }

  lemma {:induction false} CubeStrictlyMonotone(x: int, y: int)
    requires x < y
    ensures Cube(x) < Cube(y)
    decreases y - x
  {
    CubeStep(x);
    if x + 1 < y { CubeStrictlyMonotone(x + 1, y); }
  }

  lemma CubeMonotone(x: int, y: int)
    requires x <= y
    ensures Cube(x) <= Cube(y)
  {
    if x < y { CubeStrictlyMonotone(x, y); }
  }

  lemma CubeOfNegation(a: int)
    ensures Cube(-a) == -Cube(a)
  {
    assert (-a) * (-a) == a * a;
  }

  /** The integer cube root of a natural number, by counting up. */
  function {:induction false} CbrtNat(m: nat): (r: nat)
    ensures Cube(r) <= m < Cube(r + 1)
  {
    if m == 0 then 0
    else
      var r := CbrtNat(m - 1);
      if Cube(r + 1) <= m then
        CubeStrictlyMonotone(r + 1, r + 2);
        r + 1
      else r
  }

  /** The largest integer whose cube is at most `m`. */
  function FloorCbrt(m: int): (r: int)
    ensures Cube(r) <= m < Cube(r + 1)
  {
    if m >= 0 then CbrtNat(m)
    else
      var k: int := CbrtNat(-m);
      CubeOfNegation(k);
      CubeOfNegation(k + 1);
      assert -k - 1 == -(k + 1);
      if Cube(k) == -m then -k else -k - 1
  }

  /** Only one integer has its cube in [m, m + 1) around `m`: the floor cube root is unique. */
  lemma FloorCbrtUnique(m: int, n: int)
    requires Cube(n) <= m < Cube(n + 1)
    ensures FloorCbrt(m) == n
  {
    var r := FloorCbrt(m);
    if r < n { CubeMonotone(r + 1, n); }
    if n < r { CubeMonotone(n + 1, r); }
  }

  /** `Math.floor(Math.cbrt(total / 1000))` (App.tsx:669, PrestigeModal.tsx:16). */
  function PrestigeGain(total: real): (g: int)
    ensures (Cube(g) as real) <= total / 1000.0 < (Cube(g + 1) as real)
  {
    var m := (total / 1000.0).Floor;
    FloorCbrt(m)
  }

  /** The gate of the prestige reset: a positive gain needs at least 1000 generated this run. */
  lemma PrestigeGainPositiveIff(total: real)
    ensures PrestigeGain(total) > 0 <==> total >= 1000.0
  {
    var g := PrestigeGain(total);
    if g > 0 {
      CubeMonotone(1, g);
    } else {
      CubeMonotone(g + 1, 1);
    }
  }

  lemma PrestigeGainNonNegative(total: real)
    requires total >= 0.0
    ensures PrestigeGain(total) >= 0
  {
    var g := PrestigeGain(total);
    if g < 0 { CubeMonotone(g + 1, 0); }
  }

  lemma PrestigeGainOfAMillion()
    ensures PrestigeGain(1000000.0) == 10
  {
    assert (1000000.0 / 1000.0).Floor == 1000;
    FloorCbrtUnique(1000, 10);
  }

  /** The multiplier that `currency` shards give: 10% each. */
  function MultiplierFor(currency: real): real {
    1.0 + currency * 0.1
  }
}
