/**
 * The mod's formulas: the player's effective repair skill, an item's target
 * skill, and the two arctangent response curves over their difference.
 * Arctangent and pi are parameters (`Trig`); `IsArcTangent` lists the only
 * facts about them the proofs use.
 */
module RepairTools {

  import opened Inventory

  /** The sound file played by each tool, indexed by template index minus 800. */
  const AudioClips: seq<string> := [
    "Blade Sharpen WhetStone 1.mp3",
    "Sewing Kit Repair 1.mp3",
    "Armorers Hammer Repair 1.mp3",
    "Jewelers Pliers Repair 1.mp3",
    "Epoxy Glue Repair 1.mp3",
    "Charging Powder Repair 1.mp3"
  ]

  // ---------------------------------------------------------------- rounding

  /** `r` is the integer nearest to n / d, and the even one when n / d lies halfway. */
  predicate NearestEven(n: int, d: int, r: int)
    requires d > 0
  {
    var e := 2 * (r * d - n);
    -d <= e <= d && ((e == d || e == -d) ==> r % 2 == 0)
  }

  /** `Mathf.Round` of the exact quotient n / d: round half to even. */
  function RoundHalfEvenDiv(n: int, d: int): (r: int)
    requires d > 0
    ensures NearestEven(n, d, r)
  {
    var q := n / d;
    var m := n % d;
    assert r0: q * d + m == n;
    if 2 * m < d then q
    else if 2 * m > d then
      assert (q + 1) * d == q * d + d;
      q + 1
    else if q % 2 == 0 then q
    else
      assert (q + 1) * d == q * d + d;
      q + 1
  }

  lemma MulAtLeast(k: int, d: int)
    requires k >= 1 && d > 0
    ensures k * d >= d
    ensures k >= 2 ==> k * d >= 2 * d
  {
    assert k * d == (k - 1) * d + d;
    if k >= 2 {
      assert (k - 1) * d >= d by { MulAtLeast(k - 1, d); }
    }
  }

  lemma NearestEvenUnique(n: int, d: int, r1: int, r2: int)
    requires d > 0 && NearestEven(n, d, r1) && NearestEven(n, d, r2)
    ensures r1 == r2
  {
    var e1, e2 := 2 * (r1 * d - n), 2 * (r2 * d - n);
    if r1 != r2 {
      var hi, lo := if r1 > r2 then r1 else r2, if r1 > r2 then r2 else r1;
      var eh, el := 2 * (hi * d - n), 2 * (lo * d - n);
      assert eh - el == 2 * ((hi - lo) * d);
      MulAtLeast(hi - lo, d);
      assert false;
    }
  }

  /** Banker's rounding is odd-symmetric: rounding -n / d gives minus the rounding of n / d. */
  lemma RoundHalfEvenOdd(n: int, d: int)
    requires d > 0
    ensures RoundHalfEvenDiv(-n, d) == -RoundHalfEvenDiv(n, d)
  {
    var r := RoundHalfEvenDiv(n, d);
    assert (-r) * d - (-n) == -(r * d - n);
    assert NearestEven(-n, d, -r);
    NearestEvenUnique(-n, d, RoundHalfEvenDiv(-n, d), -r);
  }

  /** `Mathf.Round` of a real: the nearest integer, ties to even. */
  function RoundHalfEvenReal(x: real): (r: int)
    ensures -0.5 <= r as real - x <= 0.5
    ensures (r as real - x == 0.5 || r as real - x == -0.5) ==> r % 2 == 0
  {
    var f := x.Floor;
    var frac := x - f as real;
    if frac < 0.5 then f
    else if frac > 0.5 then f + 1
    else if f % 2 == 0 then f
    else f + 1
  }

  lemma RoundHalfEvenRealMonotone(x: real, y: real)
    requires x <= y
    ensures RoundHalfEvenReal(x) <= RoundHalfEvenReal(y)
  {
  }

  // ------------------------------------------------------- effective skill

  /** `Mathf.Clamp(level * 5, 5, 100)`. */
  function LevelTerm(level: int): (r: int)
    ensures 5 <= r <= 100
    ensures 1 <= level <= 20 ==> r == level * 5
    ensures level <= 1 ==> r == 5
    ensures level >= 20 ==> r == 100
  {
    if level * 5 < 5 then 5 else if level * 5 > 100 then 100 else level * 5
  }

  /** The luck or agility term: `Mathf.Round((stat - 50f) / 10)`. */
  function AttributeMod(stat: int): (r: int)
    ensures NearestEven(stat - 50, 10, r)
    ensures 45 <= stat <= 55 ==> r == 0
  {
    RoundHalfEvenDiv(stat - 50, 10)
  }

  /** The attribute term is odd-symmetric around 50. */
  lemma AttributeModSymmetric(delta: int)
    ensures AttributeMod(50 + delta) == -AttributeMod(50 - delta)
  {
    assert 50 - delta - 50 == -(50 + delta - 50);
    RoundHalfEvenOdd(delta, 10);
  }

  /** Knights get +6 for their backstory. */
  function BackgroundMod(careerName: string): (r: int)
    ensures r == 6 || r == 0
    ensures r == 6 <==> careerName == "Knight"
  {
    if careerName == "Knight" then 6 else 0
  }

  function EffectiveRepairSkill(level: int, stats: Stats, careerName: string): (r: int)
    ensures 5 <= r - AttributeMod(stats.luck) - AttributeMod(stats.agility) - BackgroundMod(careerName) <= 100
    ensures 45 <= stats.luck <= 55 && 45 <= stats.agility <= 55 && careerName != "Knight" ==> 5 <= r <= 100
  {
    LevelTerm(level) + AttributeMod(stats.luck) + AttributeMod(stats.agility) + BackgroundMod(careerName)
  }

  // ---------------------------------------------------------- target skill

  /** The difficulty of an item: its material tier within its band, times ten. */
  function SkillTarget(group: ItemGroup, material: int): (r: int)
    ensures r % 10 == 0
    ensures group != Weapons && group != Armor ==> r == 10
    ensures group == Armor && material >= 0 ==> r >= 10
    ensures group == Armor && LeatherMaterial <= material <= LeatherMaterial + 9 ==> 10 <= r <= 100
    ensures group == Armor && ChainMaterial <= material <= ChainMaterial + 9 ==> 10 <= r <= 100
    ensures group == Armor && IronMaterial <= material <= DaedricMaterial ==> 10 <= r <= 100
  {
    if group == Weapons then (material + 1) * 10
    else if group == Armor then
      if material < ChainMaterial then (material + 1) * 10
      else if material < IronMaterial then (material - ChainMaterial + 1) * 10
      else (material - IronMaterial + 1) * 10
    else 10
  }

  // ------------------------------------------------------- response curves

  /** Pi and the arctangent, as the host's maths library provides them. */
  datatype Trig = Trig(pi: real, atan: real -> real)

  /**
   * What the proofs rely on about `Trig`: atan is monotone, strictly within
   * ±pi/2, zero at zero and ±pi/4 at ±1.
   */
  ghost predicate IsArcTangent(t: Trig) {
    && t.pi > 0.0
    && (forall x :: -t.pi / 2.0 < t.atan(x) < t.pi / 2.0)
    && (forall x, y :: x <= y ==> t.atan(x) <= t.atan(y))
    && t.atan(0.0) == 0.0
    && t.atan(1.0) == t.pi / 4.0
    && t.atan(-1.0) == -t.pi / 4.0
  }

  lemma AtanMonotone(trig: Trig, x: real, y: real)
    requires IsArcTangent(trig) && x <= y
    ensures trig.atan(x) <= trig.atan(y)
  {
  }

  /** `Mathf.Max(effectiveSkill - targetSkill, -10)`. */
  function ClampedDiff(effectiveSkill: int, targetSkill: int): (r: int)
    ensures r >= -10
    ensures effectiveSkill - targetSkill >= -10 ==> r == effectiveSkill - targetSkill
    ensures effectiveSkill - targetSkill <= -10 ==> r == -10
  {
    if effectiveSkill - targetSkill < -10 then -10 else effectiveSkill - targetSkill
  }

  /** The percentage of its maximum condition the player can restore an item to. */
  function MaxConditionPercent(effectiveSkill: int, targetSkill: int, trig: Trig): int
    requires trig.pi > 0.0
  {
    RoundHalfEvenReal(ConditionCurve(ClampedDiff(effectiveSkill, targetSkill), trig))
  }

  /** As declared in the source: an `int`, the rounded ratio. */
  function RepairEfficiencyRatio(effectiveSkill: int, targetSkill: int, trig: Trig): int
    requires trig.pi > 0.0
  {
    RoundHalfEvenReal(RepairEfficiency(effectiveSkill, targetSkill, trig))
  }

  /** The ratio as documented: a real in (0.5, 1.5). */
  function RepairEfficiency(effectiveSkill: int, targetSkill: int, trig: Trig): (r: real)
    requires trig.pi > 0.0
    ensures IsArcTangent(trig) ==> 0.5 < r < 1.5
  {
    var diff := ClampedDiff(effectiveSkill, targetSkill);
    assert IsArcTangent(trig) ==> 0.5 < EfficiencyCurve(diff, trig) < 1.5 by {
      if IsArcTangent(trig) {
        AtanOverPi(trig, diff as real / 5.0, 1.0);
      }
    }
    EfficiencyCurve(diff, trig)
  }

  /** The shape both curves share: `a * atan(diff / 5) + b` with `a` a multiple of 1/pi. */
  function AtanCurve(k: real, b: real, diff: int, trig: Trig): real
    requires trig.pi > 0.0
  {
    (k / trig.pi) * trig.atan(diff as real / 5.0) + b
  }

  /** The efficiency curve before any rounding, as a function of the clamped difference. */
  function EfficiencyCurve(diff: int, trig: Trig): real
    requires trig.pi > 0.0
  {
    AtanCurve(1.0, 1.0, diff, trig)
  }

  lemma MulStrict(c: real, a: real, b: real)
    requires c > 0.0 && a < b
    ensures c * a < c * b
  {
    assert c * b - c * a == c * (b - a);
  }

  /** Scaling by a positive factor and shifting keeps order. */
  lemma ScaleShiftMonotone(k: real, p: real, b: real, a1: real, a2: real)
    requires k > 0.0 && p > 0.0 && a1 <= a2
    ensures (k / p) * a1 + b <= (k / p) * a2 + b
  {
    var c := k / p;
    assert c * p == k;
    if a1 < a2 {
      MulStrict(c, a1, a2);
    }
  }

  /** k/p times a value strictly within ±p/2 lies strictly within ±k/2. */
  lemma ScaledHalfBound(k: real, p: real, a: real)
    requires k > 0.0 && p > 0.0 && -p / 2.0 < a < p / 2.0
    ensures -k / 2.0 < (k / p) * a < k / 2.0
  {
    var c := k / p;
    assert c * p == k;
    MulStrict(c, a, p / 2.0);
    MulStrict(c, -p / 2.0, a);
    assert c * (p / 2.0) == k / 2.0;
    assert c * (-p / 2.0) == -k / 2.0;
  }

  /** k/pi times an atan value lies strictly within ±k/2. */
  lemma AtanOverPi(trig: Trig, x: real, k: real)
    requires IsArcTangent(trig) && k > 0.0
    ensures -k / 2.0 < (k / trig.pi) * trig.atan(x) < k / 2.0
  {
    var a := trig.atan(x);
    assert -trig.pi / 2.0 < a < trig.pi / 2.0;
    ScaledHalfBound(k, trig.pi, a);
  }

  lemma MaxConditionPercentRange(effectiveSkill: int, targetSkill: int, trig: Trig)
    requires IsArcTangent(trig)
    ensures 20 <= MaxConditionPercent(effectiveSkill, targetSkill, trig) <= 100
  {
    var diff := ClampedDiff(effectiveSkill, targetSkill);
    AtanOverPi(trig, diff as real / 5.0, 80.0);
  }

  /** The curve before rounding, as a function of the clamped difference. */
  function ConditionCurve(diff: int, trig: Trig): real
    requires trig.pi > 0.0
  {
    AtanCurve(80.0, 60.0, diff, trig)
  }

  /** A positive multiple of atan, shifted, keeps the order of the atan values. */
  lemma AtanCurveMonotone(k: real, b: real, d1: int, d2: int, trig: Trig)
    requires trig.pi > 0.0 && k > 0.0
    requires trig.atan(d1 as real / 5.0) <= trig.atan(d2 as real / 5.0)
    ensures AtanCurve(k, b, d1, trig) <= AtanCurve(k, b, d2, trig)
  {
    ScaleShiftMonotone(k, trig.pi, b, trig.atan(d1 as real / 5.0), trig.atan(d2 as real / 5.0));
  }

  lemma ConditionCurveMonotone(d1: int, d2: int, trig: Trig)
    requires IsArcTangent(trig) && d1 <= d2
    ensures ConditionCurve(d1, trig) <= ConditionCurve(d2, trig)
  {
    AtanMonotone(trig, d1 as real / 5.0, d2 as real / 5.0);
    AtanCurveMonotone(80.0, 60.0, d1, d2, trig);
  }

  lemma MaxConditionPercentMonotone(e1: int, t1: int, e2: int, t2: int, trig: Trig)
    requires IsArcTangent(trig) && e1 - t1 <= e2 - t2
    ensures MaxConditionPercent(e1, t1, trig) <= MaxConditionPercent(e2, t2, trig)
  {
    var d1, d2 := ClampedDiff(e1, t1), ClampedDiff(e2, t2);
    ConditionCurveMonotone(d1, d2, trig);
    RoundHalfEvenRealMonotone(ConditionCurve(d1, trig), ConditionCurve(d2, trig));
  }

  /** Both curves see only the clamped difference: all deficits beyond 10 points give the same value. */
  lemma CurvesDependOnClampedDiff(e1: int, t1: int, e2: int, t2: int, trig: Trig)
    requires trig.pi > 0.0
    requires ClampedDiff(e1, t1) == ClampedDiff(e2, t2)
    ensures MaxConditionPercent(e1, t1, trig) == MaxConditionPercent(e2, t2, trig)
    ensures RepairEfficiencyRatio(e1, t1, trig) == RepairEfficiencyRatio(e2, t2, trig)
    ensures e1 - t1 <= -10 && e2 - t2 <= -10 ==> ClampedDiff(e1, t1) == ClampedDiff(e2, t2)
  {
    assert RepairEfficiency(e1, t1, trig) == RepairEfficiency(e2, t2, trig);
  }

  lemma MaxConditionPercentOnTarget(skill: int, trig: Trig)
    requires IsArcTangent(trig)
    ensures MaxConditionPercent(skill, skill, trig) == 60
  {
    assert ClampedDiff(skill, skill) as real / 5.0 == 0.0;
  }

  /** The `int` return type rounds every ratio in (0.5, 1.5) to 1: the ratio never scales a cost. */
  /** "At 5 under target, you get 40%; at 5 above target, you get 80%." */
  lemma MaxConditionPercentFiveOff(skill: int, trig: Trig)
    requires IsArcTangent(trig)
    ensures MaxConditionPercent(skill - 5, skill, trig) == 40
    ensures MaxConditionPercent(skill + 5, skill, trig) == 80
  {
    assert ClampedDiff(skill - 5, skill) as real / 5.0 == -1.0;
    assert ClampedDiff(skill + 5, skill) as real / 5.0 == 1.0;
    assert (80.0 / trig.pi) * (-trig.pi / 4.0) == -20.0;
    assert (80.0 / trig.pi) * (trig.pi / 4.0) == 20.0;
  }

  /** "At 5 under target, you get 0.75; at 5 above target, you get 1.25" (of the real ratio). */
  lemma RepairEfficiencyFiveOff(skill: int, trig: Trig)
    requires IsArcTangent(trig)
    ensures RepairEfficiency(skill - 5, skill, trig) == 0.75
    ensures RepairEfficiency(skill + 5, skill, trig) == 1.25
  {
    assert ClampedDiff(skill - 5, skill) as real / 5.0 == -1.0;
    assert ClampedDiff(skill + 5, skill) as real / 5.0 == 1.0;
    assert (1.0 / trig.pi) * (-trig.pi / 4.0) == -0.25;
    assert (1.0 / trig.pi) * (trig.pi / 4.0) == 0.25;
  }

  lemma RepairEfficiencyRatioIsOne(effectiveSkill: int, targetSkill: int, trig: Trig)
    requires IsArcTangent(trig)
    ensures RepairEfficiencyRatio(effectiveSkill, targetSkill, trig) == 1
  {
  }

  /**
   * The real ratio does scale: it grows with the skill margin, so a more
   * skilled player pays less fatigue and time.
   */
  lemma RepairEfficiencyMonotone(e1: int, t1: int, e2: int, t2: int, trig: Trig)
    requires IsArcTangent(trig) && e1 - t1 <= e2 - t2
    ensures RepairEfficiency(e1, t1, trig) <= RepairEfficiency(e2, t2, trig)
  {
    var d1, d2 := ClampedDiff(e1, t1), ClampedDiff(e2, t2);
    EfficiencyCurveMonotone(d1, d2, trig);
  }

  lemma EfficiencyCurveMonotone(d1: int, d2: int, trig: Trig)
    requires IsArcTangent(trig) && d1 <= d2
    ensures EfficiencyCurve(d1, trig) <= EfficiencyCurve(d2, trig)
  {
    AtanMonotone(trig, d1 as real / 5.0, d2 as real / 5.0);
    AtanCurveMonotone(1.0, 1.0, d1, d2, trig);
  }

  /** On target the real ratio is exactly 1: costs are paid as listed. */
  lemma RepairEfficiencyOnTarget(skill: int, trig: Trig)
    requires IsArcTangent(trig)
    ensures RepairEfficiency(skill, skill, trig) == 1.0
  {
    assert ClampedDiff(skill, skill) as real / 5.0 == 0.0;
  }
}
