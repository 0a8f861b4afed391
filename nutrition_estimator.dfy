/** The placeholder meal-recognition step
    (src/frontend/src/lib/nutritionEstimator.ts): a deterministic estimate
    of seven nutrition values derived from a photo's file name alone.
    Arithmetic is exact (`real`); `Math.round` rounds half up. */
module NutritionEstimator {

  /** `NutritionEstimate`: every field is a `Math.round` result. */
  datatype NutritionEstimate = NutritionEstimate(calories: int, protein: int, carbs: int,
                                                 fat: int, fiber: int, sugar: int, sodium: int)

  /** The same seven values before rounding. */
  datatype Macros = Macros(calories: real, protein: real, carbs: real, fat: real,
                           fiber: real, sugar: real, sodium: real)

  /** `split('')` yields UTF-16 code units, so a character outside the Basic
      Multilingual Plane contributes both of its surrogates to the hash. */
  function CodeUnitSum(c: char): nat
  {
    var v := c as int;
    if v < 0x1_0000 then v
    else (0xD800 + (v - 0x1_0000) / 0x400) + (0xDC00 + (v - 0x1_0000) % 0x400)
  }

  /** The sum of the character codes of the file name. */
  function Hash(fileName: string): nat
  {
    if fileName == [] then 0
    else Hash(fileName[..|fileName| - 1]) + CodeUnitSum(fileName[|fileName| - 1])
  }

  function Seed(fileName: string): nat
  {
    Hash(fileName) % 100
  }

  /** 1 = small, 2 = medium, 3 = large. */
  function MealSize(seed: nat): int
  {
    seed % 3 + 1
  }

  function BaseCalories(mealSize: int): int
  {
    if mealSize == 1 then 300 else if mealSize == 2 then 500 else 700
  }

  function Variance(seed: nat): int
  {
    seed % 200 - 100
  }

  function Max(a: real, b: real): real { if a >= b then a else b }
  function Min(a: real, b: real): real { if a <= b then a else b }

  /** `Math.max(lo, Math.min(hi, x))`. */
  function Clamp(lo: real, hi: real, x: real): real
  {
    Max(lo, Min(hi, x))
  }

  function CaloriesOf(seed: nat): real
  {
    Max(200.0, (BaseCalories(MealSize(seed)) + Variance(seed)) as real)
  }

  function ProteinRatio(seed: nat): real
  {
    0.25 + (seed % 10) as real / 100.0
  }

  function CarbsRatio(seed: nat): real
  {
    0.45 + (seed % 15) as real / 100.0
  }

  function FatRatio(seed: nat): real
  {
    1.0 - ProteinRatio(seed) - CarbsRatio(seed)
  }

  /** The macros and clamped extras for given calories and ratios. */
  function MacrosFor(calories: real, proteinRatio: real, carbsRatio: real, fatRatio: real): Macros
  {
    var protein := calories * proteinRatio / 4.0;
    var carbs := calories * carbsRatio / 4.0;
    var fat := calories * fatRatio / 9.0;
    Macros(calories, protein, carbs, fat,
           Clamp(2.0, 15.0, carbs * 0.15),
           Clamp(5.0, 30.0, carbs * 0.3),
           Clamp(200.0, 1500.0, calories * 1.5))
  }

  /** The estimate before the final rounding, as a function of the seed. */
  function ExactFromSeed(seed: nat): Macros
  {
    MacrosFor(CaloriesOf(seed), ProteinRatio(seed), CarbsRatio(seed), FatRatio(seed))
  }

  function ExactEstimate(fileName: string): Macros
  {
    ExactFromSeed(Seed(fileName))
  }

  /** `Math.round`: the nearest integer, halves rounded up. */
  function Round(x: real): (n: int)
    ensures x - 0.5 < n as real <= x + 0.5
  {
    (x + 0.5).Floor
  }

  function RoundAll(m: Macros): NutritionEstimate
  {
    NutritionEstimate(Round(m.calories), Round(m.protein), Round(m.carbs), Round(m.fat),
                      Round(m.fiber), Round(m.sugar), Round(m.sodium))
  }

  /** `estimateNutrition(fileName)`. */
  function EstimateNutrition(fileName: string): NutritionEstimate
  {
    RoundAll(ExactEstimate(fileName))
  }

  /** Rounding keeps a value inside any integer bounds that enclose it. */
  lemma RoundWithin(x: real, lo: int, hi: int)
    requires lo as real <= x <= hi as real
    ensures lo <= Round(x) <= hi
  {
  }

  lemma RoundWhole(k: int)
    ensures Round(k as real) == k
  {
  }

  lemma RoundNonNegative(x: real)
    requires x >= 0.0
    ensures Round(x) >= 0
  {
  }

  /** The seed is below 100, so `seed % 200` is the seed itself, the
      variance is negative and the meal size is 1, 2 or 3. */
  lemma SeedFacts(fileName: string)
    ensures Seed(fileName) < 100
    ensures Seed(fileName) % 200 == Seed(fileName)
    ensures -100 <= Variance(Seed(fileName)) <= -1
    ensures MealSize(Seed(fileName)) in {1, 2, 3}
  {
  }

  /** Calories lie between 200 and 699, in the band of the meal size. */
  lemma CaloriesRange(seed: nat)
    requires seed < 100
    ensures 200.0 <= CaloriesOf(seed) <= 699.0
    ensures CaloriesOf(seed) == CaloriesOf(seed).Floor as real
    ensures MealSize(seed) == 1 ==> CaloriesOf(seed) <= 299.0
    ensures MealSize(seed) == 2 ==> 400.0 <= CaloriesOf(seed) <= 499.0
    ensures MealSize(seed) == 3 ==> 600.0 <= CaloriesOf(seed)
  {
  }

  /** The three ratios partition the calories and each is positive. */
  lemma RatiosPartition(seed: nat)
    ensures ProteinRatio(seed) + CarbsRatio(seed) + FatRatio(seed) == 1.0
    ensures 0.25 <= ProteinRatio(seed) <= 0.34
    ensures 0.45 <= CarbsRatio(seed) <= 0.59
    ensures 0.07 <= FatRatio(seed) <= 0.30
  {
  }

  /** Splitting calories by ratios that add up to one and converting each
      share to grams at 4, 4 and 9 kcal per gram loses nothing. */
  lemma SplitByRatios(c: real, pr: real, cr: real, fr: real)
    requires pr + cr + fr == 1.0
    ensures var m := MacrosFor(c, pr, cr, fr);
            4.0 * m.protein + 4.0 * m.carbs + 9.0 * m.fat == m.calories
  {
    assert c * pr + c * cr + c * fr == c * (pr + cr + fr);
  }

  /** With 4 kcal per gram of protein and carbohydrate and 9 per gram of
      fat, the unrounded macros account for exactly the calories. */
  lemma EnergyBalance(seed: nat)
    ensures var m := ExactFromSeed(seed);
            4.0 * m.protein + 4.0 * m.carbs + 9.0 * m.fat == m.calories
  {
    RatiosPartition(seed);
    SplitByRatios(CaloriesOf(seed), ProteinRatio(seed), CarbsRatio(seed), FatRatio(seed));
  }

  lemma ClampWithin(lo: real, hi: real, x: real)
    requires lo <= hi
    ensures lo <= Clamp(lo, hi, x) <= hi
  {
  }

  /** Positive calories split by positive ratios give positive macros, and
      the extras stay inside their clamps. */
  lemma MacrosBounds(c: real, pr: real, cr: real, fr: real)
    requires 200.0 <= c <= 699.0 && pr > 0.0 && cr > 0.0 && fr > 0.0
    ensures var m := MacrosFor(c, pr, cr, fr);
            && m.calories == c
            && 0.0 < m.protein && 0.0 < m.carbs && 0.0 < m.fat
            && 2.0 <= m.fiber <= 15.0
            && 5.0 <= m.sugar <= 30.0
            && 200.0 <= m.sodium <= 1500.0
  {
    var m := MacrosFor(c, pr, cr, fr);
    assert c * pr > 0.0 && c * cr > 0.0 && c * fr > 0.0;
    ClampWithin(2.0, 15.0, m.carbs * 0.15);
    ClampWithin(5.0, 30.0, m.carbs * 0.3);
    ClampWithin(200.0, 1500.0, c * 1.5);
  }

  /** The bounds every unrounded value keeps. */
  lemma ExactBounds(seed: nat)
    requires seed < 100
    ensures var m := ExactFromSeed(seed);
            && 200.0 <= m.calories <= 699.0
            && 0.0 < m.protein && 0.0 < m.carbs && 0.0 < m.fat
            && 2.0 <= m.fiber <= 15.0
            && 5.0 <= m.sugar <= 30.0
            && 200.0 <= m.sodium <= 1500.0
  {
    CaloriesRange(seed);
    RatiosPartition(seed);
    MacrosBounds(CaloriesOf(seed), ProteinRatio(seed), CarbsRatio(seed), FatRatio(seed));
  }

  /** Rounding keeps the bounds of whole-number calories and of the
      clamped extras. */
  lemma RoundAllBounds(m: Macros)
    requires 200.0 <= m.calories <= 699.0 && m.calories == m.calories.Floor as real
    requires 0.0 < m.protein && 0.0 < m.carbs && 0.0 < m.fat
    requires 2.0 <= m.fiber <= 15.0 && 5.0 <= m.sugar <= 30.0 && 200.0 <= m.sodium <= 1500.0
    ensures var r := RoundAll(m);
            && r.calories as real == m.calories
            && 0 <= r.protein && 0 <= r.carbs && 0 <= r.fat
            && 2 <= r.fiber <= 15 && 5 <= r.sugar <= 30 && 200 <= r.sodium <= 1500
  {
    RoundWhole(m.calories.Floor);
    RoundNonNegative(m.protein);
    RoundNonNegative(m.carbs);
    RoundNonNegative(m.fat);
    RoundWithin(m.fiber, 2, 15);
    RoundWithin(m.sugar, 5, 30);
    RoundWithin(m.sodium, 200, 1500);
  }

  /** The estimate keeps the same bounds after rounding, and each field is
      the nearest integer to its unrounded value. */
  lemma EstimateBounds(fileName: string)
    ensures var r := EstimateNutrition(fileName);
            && 200 <= r.calories <= 699
            && 0 <= r.protein && 0 <= r.carbs && 0 <= r.fat
            && 2 <= r.fiber <= 15
            && 5 <= r.sugar <= 30
            && 200 <= r.sodium <= 1500
    ensures var r := EstimateNutrition(fileName);
            var m := ExactEstimate(fileName);
            && r.calories as real == m.calories
            && m.protein - 0.5 < r.protein as real <= m.protein + 0.5
            && m.carbs - 0.5 < r.carbs as real <= m.carbs + 0.5
            && m.fat - 0.5 < r.fat as real <= m.fat + 0.5
  {
    CaloriesRange(Seed(fileName));
    ExactBounds(Seed(fileName));
    RoundAllBounds(ExactEstimate(fileName));
  }

  /** Hashing two pieces adds their hashes. */
  lemma {:induction false} HashConcat(a: string, b: string)
    ensures Hash(a + b) == Hash(a) + Hash(b)
    decreases |b|
  {
    if b == [] {
      assert a + b == a;
    } else {
      HashConcat(a, b[..|b| - 1]);
      assert (a + b)[..|a + b| - 1] == a + b[..|b| - 1];
    }
  }

  /** Taking the character at `j` out of a name removes that one
      character from its multiset. */
  lemma TakeOut(b: string, j: int)
    requires 0 <= j < |b|
    ensures multiset(b[..j] + b[j + 1..]) == multiset(b) - multiset{b[j]}
  {
    assert b == b[..j] + [b[j]] + b[j + 1..];
  }

  /** The hash of a name split around one character. */
  lemma HashAround(p: string, x: char, q: string)
    ensures Hash(p + [x] + q) == Hash(p + q) + CodeUnitSum(x)
  {
    HashConcat(p + [x], q);
    HashConcat(p, [x]);
    HashConcat(p, q);
    assert Hash([x]) == CodeUnitSum(x) by { assert [x][..0] == []; }
  }

  /** The hash depends only on which characters occur, and how often. */
  lemma {:induction false} HashPermutation(a: string, b: string)
    requires multiset(a) == multiset(b)
    ensures Hash(a) == Hash(b)
    decreases |a|
  {
    if a == [] {
      assert |b| == |multiset(b)| == 0;
    } else {
      var x := a[|a| - 1];
      var rest := a[..|a| - 1];
      assert a == rest + [x];
      assert multiset(a) == multiset(rest) + multiset{x};
      assert x in multiset(b);
      var j :| 0 <= j < |b| && b[j] == x;
      TakeOut(b, j);
      assert b == b[..j] + [x] + b[j + 1..];
      HashAround(b[..j], x, b[j + 1..]);
      HashPermutation(rest, b[..j] + b[j + 1..]);
    }
  }

  /** Renaming the photo's file by rearranging its characters yields the
      same estimate. */
  lemma EstimatePermutation(a: string, b: string)
    requires multiset(a) == multiset(b)
    ensures EstimateNutrition(a) == EstimateNutrition(b)
  {
    HashPermutation(a, b);
    assert Seed(a) == Seed(b);
  }
}
