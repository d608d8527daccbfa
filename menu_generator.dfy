/** The menu engine of `services/menu_generator.py`: per-meal macro targets
    from a distribution scheme, the staged rescaling of a menu's food grams
    towards a target, and the day plan and ranked options built from them. */
module MenuGenerator {
  import opened Wrappers
  import opened Rounding

  // ---------------------------------------------------------------------------
  // Macros
  // ---------------------------------------------------------------------------

  /** The `Macro` dataclass: energy and grams of protein, carbohydrate and fat. */
  datatype Macro = Macro(kcal: real, proteinG: real, carbG: real, fatG: real)

  const Zero := Macro(0.0, 0.0, 0.0, 0.0)

  function Add(a: Macro, b: Macro): Macro
  {
    Macro(a.kcal + b.kcal, a.proteinG + b.proteinG, a.carbG + b.carbG, a.fatG + b.fatG)
  }

  /** The food categories the engine tells apart; every other value of the
      CSV's `category` column is `OtherCategory`. */
  datatype Category = Protein | Carb | FatFlex | Fat | OtherCategory

  /** A row of the foods table, its nutrients given per 100 g. */
  datatype Food = Food(name: string, category: Category, kcal: real, proteinG: real, carbG: real, fatG: real)

  /** The foods table indexed by `food_id`. */
  type Foods = map<string, Food>

  /** `v * (grams / 100)`: a per-100 g value for a portion. */
  function Portion(v: real, grams: real): real
  {
    v * (grams / 100.0)
  }

  /** `macros_of`: the food's values scaled by grams/100. */
  function MacrosOf(food: Food, grams: real): Macro
  {
    Macro(Portion(food.kcal, grams), Portion(food.proteinG, grams),
          Portion(food.carbG, grams), Portion(food.fatG, grams))
  }

  /** 100 g give the table's values and 0 g give nothing. */
  lemma MacrosOfReference(food: Food)
    ensures MacrosOf(food, 100.0) == Macro(food.kcal, food.proteinG, food.carbG, food.fatG)
    ensures MacrosOf(food, 0.0) == Zero
  {
  }

  /** Portions add up: two portions of a food weigh like one of their sum. */
  lemma MacrosOfAdditive(food: Food, a: real, b: real)
    ensures MacrosOf(food, a + b) == Add(MacrosOf(food, a), MacrosOf(food, b))
  {
    PortionAdditive(food.kcal, a, b);
    PortionAdditive(food.proteinG, a, b);
    PortionAdditive(food.carbG, a, b);
    PortionAdditive(food.fatG, a, b);
  }

  lemma PortionAdditive(v: real, a: real, b: real)
    ensures Portion(v, a + b) == Portion(v, a) + Portion(v, b)
  {
    assert (a + b) / 100.0 == a / 100.0 + b / 100.0;
  }

  /** The component-wise sum of a list, folded from the left as the loop does. */
  function Total(ms: seq<Macro>): Macro
  {
    if ms == [] then Zero else Add(Total(ms[..|ms| - 1]), ms[|ms| - 1])
  }

  /** Totals of consecutive lists add up. */
  lemma {:induction false} TotalAppend(a: seq<Macro>, b: seq<Macro>)
    ensures Total(a + b) == Add(Total(a), Total(b))
    decreases |b|
  {
    if b == [] {
      assert a + b == a;
    } else {
      var b' := b[..|b| - 1];
      assert (a + b)[..|a + b| - 1] == a + b';
      TotalAppend(a, b');
    }
  }

  /** `sum_macros`: a running total updated field by field. */
  method SumMacros(ms: seq<Macro>) returns (tot: Macro)
    ensures tot == Total(ms)
  {
    tot := Macro(0.0, 0.0, 0.0, 0.0);
    var i := 0;
    while i < |ms|
      invariant 0 <= i <= |ms|
      invariant tot == Total(ms[..i])
    {
      assert ms[..i + 1][..i] == ms[..i];
      tot := tot.(kcal := tot.kcal + ms[i].kcal);
      tot := tot.(proteinG := tot.proteinG + ms[i].proteinG);
      tot := tot.(carbG := tot.carbG + ms[i].carbG);
      tot := tot.(fatG := tot.fatG + ms[i].fatG);
      i := i + 1;
    }
    assert ms[..|ms|] == ms;
  }

  // ---------------------------------------------------------------------------
  // Rounding of grams
  // ---------------------------------------------------------------------------

  /** 1 g steps for oils and fine fats, 5 g for everything else. */
  function Step(cat: Category): (step: nat)
    ensures step == 1 || step == 5
  {
    if cat == Fat || cat == FatFlex then 1 else 5
  }

  /** `round_grams`: `max(0, step * round(grams / step))`, rounding half to even. */
  function RoundGrams(cat: Category, grams: real): (r: real)
    ensures r >= 0.0
    ensures r == r.Floor as real && r.Floor % Step(cat) == 0
    ensures grams >= 0.0 ==> -(Step(cat) as real) / 2.0 <= r - grams <= (Step(cat) as real) / 2.0
    ensures grams <= 0.0 ==> r == 0.0
  {
    var step := Step(cat);
    var n := RoundHalfEven(grams / step as real);
    if step * n > 0 then
      assert (step * n) % step == 0;
      (step * n) as real
    else 0.0
  }

  // ---------------------------------------------------------------------------
  // Distribution schemes and per-meal targets
  // ---------------------------------------------------------------------------

  /** One meal of a scheme and the shares of the day's protein, carbohydrate
      and fat it receives. */
  datatype MealShare = MealShare(meal: string, protein: real, carb: real, fat: real)

  const Schemes: seq<string> := ["3", "4", "5", "5_plus_snack"]

  /** `DISTS[scheme]`, meals in the table's order; `None` is the `KeyError`
      of an unknown scheme. */
  function Dist(scheme: string): Option<seq<MealShare>>
  {
    if scheme == "3" then Some([
      MealShare("desayuno", 0.25, 0.30, 0.30),
      MealShare("comida", 0.40, 0.45, 0.35),
      MealShare("cena", 0.35, 0.25, 0.35)])
    else if scheme == "4" then Some([
      MealShare("desayuno", 0.20, 0.25, 0.20),
      MealShare("comida", 0.35, 0.35, 0.30),
      MealShare("merienda", 0.15, 0.15, 0.15),
      MealShare("cena", 0.30, 0.25, 0.35)])
    else if scheme == "5" then Some([
      MealShare("desayuno", 0.22, 0.25, 0.18),
      MealShare("comida", 0.30, 0.30, 0.28),
      MealShare("merienda", 0.10, 0.10, 0.10),
      MealShare("cena", 0.25, 0.20, 0.30),
      MealShare("snack", 0.13, 0.15, 0.14)])
    else if scheme == "5_plus_snack" then Some([
      MealShare("desayuno", 0.21, 0.24, 0.18),
      MealShare("comida", 0.29, 0.29, 0.27),
      MealShare("merienda", 0.11, 0.11, 0.11),
      MealShare("cena", 0.24, 0.19, 0.29),
      MealShare("snack", 0.10, 0.12, 0.12),
      MealShare("snack2", 0.05, 0.05, 0.03)])
    else None
  }

  /** The shares of a scheme summed per macro. */
  function ShareSum(d: seq<MealShare>): MealShare
  {
    if d == [] then MealShare("", 0.0, 0.0, 0.0)
    else
      var s := ShareSum(d[..|d| - 1]);
      MealShare("", s.protein + d[|d| - 1].protein, s.carb + d[|d| - 1].carb, s.fat + d[|d| - 1].fat)
  }

  /** In every scheme each macro's shares add up to 1. */
  lemma SharesSumToOne(scheme: string)
    requires Dist(scheme).Some?
    ensures var s := ShareSum(Dist(scheme).value); s.protein == 1.0 && s.carb == 1.0 && s.fat == 1.0
  {
    var d := Dist(scheme).value;
    PrefixSums(d);
  }

  /** Unfolds `ShareSum` along every prefix of a table. */
  lemma PrefixSums(d: seq<MealShare>)
    requires 3 <= |d| <= 6
    ensures ShareSum(d) == ShareSum3(d)
  {
    assert d[..0] == [];
    ShareSumStep(d, 1);
    ShareSumStep(d, 2);
    ShareSumStep(d, 3);
    if |d| >= 4 { ShareSumStep(d, 4); }
    if |d| >= 5 { ShareSumStep(d, 5); }
    if |d| >= 6 { ShareSumStep(d, 6); }
    assert d[..|d|] == d;
  }

  lemma ShareSumStep(d: seq<MealShare>, k: nat)
    requires 0 < k <= |d|
    ensures var s := ShareSum(d[..k - 1]);
      ShareSum(d[..k]) == MealShare("", s.protein + d[k - 1].protein, s.carb + d[k - 1].carb, s.fat + d[k - 1].fat)
  {
    assert d[..k][..k - 1] == d[..k - 1];
  }

  /** The same sums written out for tables of three to six meals. */
  function ShareSum3(d: seq<MealShare>): MealShare
    requires 3 <= |d| <= 6
  {
    var p := d[0].protein + d[1].protein + d[2].protein
      + (if |d| > 3 then d[3].protein else 0.0) + (if |d| > 4 then d[4].protein else 0.0)
      + (if |d| > 5 then d[5].protein else 0.0);
    var c := d[0].carb + d[1].carb + d[2].carb
      + (if |d| > 3 then d[3].carb else 0.0) + (if |d| > 4 then d[4].carb else 0.0)
      + (if |d| > 5 then d[5].carb else 0.0);
    var f := d[0].fat + d[1].fat + d[2].fat
      + (if |d| > 3 then d[3].fat else 0.0) + (if |d| > 4 then d[4].fat else 0.0)
      + (if |d| > 5 then d[5].fat else 0.0);
    MealShare("", p, c, f)
  }

  /** The energy of macronutrient grams at 4/4/9 kcal per gram. */
  function Energy(p: real, c: real, f: real): real
  {
    4.0 * (p + c) + 9.0 * f
  }

  /** `x * w`: the share `w` of a daily amount. */
  function Part(x: real, w: real): real
  {
    x * w
  }

  /** One meal's target: its shares of the day's grams, and the energy of
      those grams. */
  function MealTarget(p: real, c: real, f: real, w: MealShare): Macro
  {
    var pm, cm, fm := Part(p, w.protein), Part(c, w.carb), Part(f, w.fat);
    Macro(Energy(pm, cm, fm), pm, cm, fm)
  }

  function TargetsOf(p: real, c: real, f: real, d: seq<MealShare>): (r: seq<(string, Macro)>)
    ensures |r| == |d|
    ensures forall i :: 0 <= i < |d| ==> r[i].0 == d[i].meal
    ensures forall i :: 0 <= i < |d| ==> r[i].1.kcal == Energy(r[i].1.proteinG, r[i].1.carbG, r[i].1.fatG)
  {
    if d == [] then [] else TargetsOf(p, c, f, d[..|d| - 1]) + [(d[|d| - 1].meal, MealTarget(p, c, f, d[|d| - 1]))]
  }

  /** `per_meal_targets`: one target per meal of the scheme, in its order.
      The energy of each target comes from its grams; the day's `total_kcal`
      is not used. `None` is the `KeyError` of an unknown scheme. */
  function PerMealTargets(totalKcal: real, p: real, c: real, f: real, scheme: string): (r: Option<seq<(string, Macro)>>)
    ensures r.Some? <==> Dist(scheme).Some?
    ensures r.Some? ==> |r.value| == |Dist(scheme).value|
    ensures r.Some? ==> forall i :: 0 <= i < |r.value| ==> r.value[i].0 == Dist(scheme).value[i].meal
    ensures r.Some? ==> forall i :: 0 <= i < |r.value| ==>
      r.value[i].1.kcal == Energy(r.value[i].1.proteinG, r.value[i].1.carbG, r.value[i].1.fatG)
  {
    match Dist(scheme)
    case None => None
    case Some(d) => Some(TargetsOf(p, c, f, d))
  }

  function MacrosOfTargets(t: seq<(string, Macro)>): seq<Macro>
  {
    if t == [] then [] else MacrosOfTargets(t[..|t| - 1]) + [t[|t| - 1].1]
  }

  /** Summed over the meals, the targets are the day's grams times the summed
      shares, and their energy is the energy of those grams. */
  lemma {:induction false} TargetsOfTotal(p: real, c: real, f: real, d: seq<MealShare>)
    ensures var s := ShareSum(d);
      Total(MacrosOfTargets(TargetsOf(p, c, f, d)))
        == Macro(Energy(Part(p, s.protein), Part(c, s.carb), Part(f, s.fat)),
                 Part(p, s.protein), Part(c, s.carb), Part(f, s.fat))
    decreases |d|
  {
    if d != [] {
      var d' := d[..|d| - 1];
      TargetsOfLast(p, c, f, d);
      TargetsOfTotal(p, c, f, d');
      var s', w := ShareSum(d'), d[|d| - 1];
      TargetStep(p, c, f, s', w);
      assert ShareSum(d) == MealShare("", s'.protein + w.protein, s'.carb + w.carb, s'.fat + w.fat);
    }
  }

  /** The last meal's target closes the total of the others. */
  lemma TargetsOfLast(p: real, c: real, f: real, d: seq<MealShare>)
    requires d != []
    ensures Total(MacrosOfTargets(TargetsOf(p, c, f, d)))
      == Add(Total(MacrosOfTargets(TargetsOf(p, c, f, d[..|d| - 1]))), MealTarget(p, c, f, d[|d| - 1]))
  {
    var t := TargetsOf(p, c, f, d);
    assert t[..|t| - 1] == TargetsOf(p, c, f, d[..|d| - 1]);
    var ms := MacrosOfTargets(t);
    assert ms[..|ms| - 1] == MacrosOfTargets(t[..|t| - 1]);
  }

  /** Adding one meal's target to the totals of the shares before it gives the
      totals of the shares with it. */
  lemma TargetStep(p: real, c: real, f: real, s: MealShare, w: MealShare)
    ensures Add(Macro(Energy(Part(p, s.protein), Part(c, s.carb), Part(f, s.fat)),
                      Part(p, s.protein), Part(c, s.carb), Part(f, s.fat)),
                MealTarget(p, c, f, w))
      == Macro(Energy(Part(p, s.protein + w.protein), Part(c, s.carb + w.carb), Part(f, s.fat + w.fat)),
               Part(p, s.protein + w.protein), Part(c, s.carb + w.carb), Part(f, s.fat + w.fat))
  {
    PartAdd(p, s.protein, w.protein);
    PartAdd(c, s.carb, w.carb);
    PartAdd(f, s.fat, w.fat);
  }

  lemma PartAdd(x: real, a: real, b: real)
    ensures Part(x, a + b) == Part(x, a) + Part(x, b)
  {
  }

  /** The per-meal targets add up to the day's grams, their energies add up to
      4(P+C)+9F of the day, and none of it depends on `total_kcal`. */
  lemma TargetsAddUpToTotals(totalKcal: real, p: real, c: real, f: real, scheme: string, otherKcal: real)
    requires Dist(scheme).Some?
    ensures Total(MacrosOfTargets(PerMealTargets(totalKcal, p, c, f, scheme).value)) == Macro(Energy(p, c, f), p, c, f)
    ensures PerMealTargets(otherKcal, p, c, f, scheme) == PerMealTargets(totalKcal, p, c, f, scheme)
  {
    SharesSumToOne(scheme);
    TargetsOfTotal(p, c, f, Dist(scheme).value);
  }

  /** `targets[meal]`, or `None` for the `KeyError` of a meal outside the scheme. */
  function TargetFor(targets: seq<(string, Macro)>, meal: string): (r: Option<Macro>)
    ensures r.Some? <==> exists i :: 0 <= i < |targets| && targets[i].0 == meal
  {
    if targets == [] then None
    else if targets[0].0 == meal then Some(targets[0].1)
    else TargetFor(targets[1..], meal)
  }

  // ---------------------------------------------------------------------------
  // Scoring
  // ---------------------------------------------------------------------------

  function Abs(x: real): real
  {
    if x < 0.0 then -x else x
  }

  /** `_error_score`: the absolute gram errors plus a hundredth of the
      absolute energy error. It is never negative, and zero only for a menu
      that hits its target exactly. */
  function ErrorScore(err: Macro): (score: real)
    ensures score >= 0.0
    ensures score == 0.0 <==> err == Zero
  {
    Abs(err.proteinG) + Abs(err.carbG) + Abs(err.fatG) + Abs(err.kcal) / 100.0
  }

  // ---------------------------------------------------------------------------
  // Menus and the grams map
  // ---------------------------------------------------------------------------

  /** An entry of a menu: a food and its base grams. */
  datatype MenuItem = MenuItem(foodId: string, baseG: real)

  /** A menu of `menus.json`; `mealType` is `None` when the key is absent. */
  datatype Menu = Menu(menuId: string, menuName: string, mealType: Option<string>, items: seq<MenuItem>)

  /** The food ids a list of items mentions. */
  function IdSet(items: seq<MenuItem>): set<string>
  {
    set i | 0 <= i < |items| :: items[i].foodId
  }

  /** Every item's food is in the foods table (otherwise `fdf.loc` raises `KeyError`). */
  predicate FoodsKnown(items: seq<MenuItem>, foods: Foods)
  {
    forall i :: 0 <= i < |items| ==> items[i].foodId in foods
  }

  predicate Distinct(ks: seq<string>)
  {
    forall i, j :: 0 <= i < j < |ks| ==> ks[i] != ks[j]
  }

  /** The keys of `grams_map` in insertion order: each food where it first occurs. */
  function Keys(items: seq<MenuItem>): (ks: seq<string>)
    ensures Distinct(ks)
    ensures forall k :: k in ks <==> k in IdSet(items)
  {
    if items == [] then []
    else
      var ks := Keys(items[..|items| - 1]);
      assert forall k :: k in IdSet(items) <==> k in IdSet(items[..|items| - 1]) || k == items[|items| - 1].foodId by {
        assert forall i :: 0 <= i < |items| - 1 ==> items[..|items| - 1][i] == items[i];
      }
      if items[|items| - 1].foodId in ks then ks else ks + [items[|items| - 1].foodId]
  }

  /** The `grams_map` comprehension: each food's base grams, the last
      occurrence winning. */
  function InitialGrams(items: seq<MenuItem>): (g: map<string, real>)
    ensures g.Keys == IdSet(items)
  {
    if items == [] then map[]
    else
      assert forall i :: 0 <= i < |items| - 1 ==> items[..|items| - 1][i] == items[i];
      assert IdSet(items) == IdSet(items[..|items| - 1]) + {items[|items| - 1].foodId};
      InitialGrams(items[..|items| - 1])[items[|items| - 1].foodId := items[|items| - 1].baseG]
  }

  /** A food's initial grams are the base grams of its last occurrence. */
  lemma {:induction false} InitialGramsLastWins(items: seq<MenuItem>, j: nat)
    requires j < |items|
    requires forall l :: j < l < |items| ==> items[l].foodId != items[j].foodId
    ensures InitialGrams(items)[items[j].foodId] == items[j].baseG
    decreases |items|
  {
    if j < |items| - 1 {
      var init := items[..|items| - 1];
      assert init[j] == items[j];
      InitialGramsLastWins(init, j);
    }
  }

  /** The position where a food id first occurs among the items. */
  function FirstIndex(items: seq<MenuItem>, k: string): (p: nat)
    requires k in IdSet(items)
    ensures p < |items| && items[p].foodId == k
    ensures forall q :: 0 <= q < p ==> items[q].foodId != k
  {
    var n := |items| - 1;
    var init := items[..n];
    assert forall i :: 0 <= i < n ==> init[i] == items[i];
    assert IdSet(items) == IdSet(init) + {items[n].foodId};
    if k in IdSet(init) then FirstIndex(init, k) else n
  }

  /** `grams_map` keeps its keys in insertion order: a key listed before
      another first occurs before it among the items. */
  lemma {:induction false} KeysInFirstOccurrenceOrder(items: seq<MenuItem>, i: nat, j: nat)
    requires i < j < |Keys(items)|
    ensures FirstIndex(items, Keys(items)[i]) < FirstIndex(items, Keys(items)[j])
    decreases |items|
  {
    var n := |items| - 1;
    var init := items[..n];
    assert forall q :: 0 <= q < n ==> init[q] == items[q];
    assert IdSet(items) == IdSet(init) + {items[n].foodId};
    var ks := Keys(init);
    var a, b := Keys(items)[i], Keys(items)[j];
    if a in ks && b in ks {
      assert Keys(items)[..|ks|] == ks;
      KeysInFirstOccurrenceOrder(init, i, j);
    } else {
      assert Keys(items) == ks + [items[n].foodId] && j == |ks|;
      assert a in ks;
    }
  }

  /** The ids of the items whose food has category `cat`, in item order and
      with repetitions, as the list comprehensions build them. */
  function IdsOf(items: seq<MenuItem>, foods: Foods, cat: Category): (ids: seq<string>)
    requires FoodsKnown(items, foods)
    ensures forall x :: x in ids ==> x in IdSet(items) && foods[x].category == cat
  {
    if items == [] then []
    else
      var init := items[..|items| - 1];
      assert forall i :: 0 <= i < |init| ==> init[i] == items[i];
      assert IdSet(init) <= IdSet(items);
      var last := items[|items| - 1];
      IdsOf(init, foods, cat) + (if foods[last.foodId].category == cat then [last.foodId] else [])
  }

  /** The three macro components the stages look at. */
  datatype Nutrient = ProteinN | CarbN | FatN

  function Amount(m: Macro, n: Nutrient): real
  {
    match n
    case ProteinN => m.proteinG
    case CarbN => m.carbG
    case FatN => m.fatG
  }

  /** `sum(macros_of(fdf.loc[fid], grams_map[fid]).<n> for fid in ids)`. */
  function BaseOf(foods: Foods, ids: seq<string>, grams: map<string, real>, n: Nutrient): real
    requires forall x :: x in ids ==> x in foods && x in grams
  {
    if ids == [] then 0.0
    else BaseOf(foods, ids[..|ids| - 1], grams, n) + Amount(MacrosOf(foods[ids[|ids| - 1]], grams[ids[|ids| - 1]]), n)
  }

  /** The list `current_macros` passes to `sum_macros`. */
  function MacroList(foods: Foods, keys: seq<string>, grams: map<string, real>): (ms: seq<Macro>)
    requires forall x :: x in keys ==> x in foods && x in grams
    ensures |ms| == |keys|
  {
    if keys == [] then []
    else MacroList(foods, keys[..|keys| - 1], grams) + [MacrosOf(foods[keys[|keys| - 1]], grams[keys[|keys| - 1]])]
  }

  /** `current_macros()`: the macros of every food of the map at its grams. */
  function Current(foods: Foods, keys: seq<string>, grams: map<string, real>): Macro
    requires forall x :: x in keys ==> x in foods && x in grams
  {
    Total(MacroList(foods, keys, grams))
  }

  method CurrentMacros(foods: Foods, keys: seq<string>, grams: map<string, real>) returns (m: Macro)
    requires forall x :: x in keys ==> x in foods && x in grams
    ensures m == Current(foods, keys, grams)
  {
    m := SumMacros(MacroList(foods, keys, grams));
  }

  // ---------------------------------------------------------------------------
  // The rescaling stages
  // ---------------------------------------------------------------------------

  function Max(a: real, b: real): real { if a >= b then a else b }
  function Min(a: real, b: real): real { if a <= b then a else b }

  /** `max(lo, min(hi, x))`. */
  function Clamp(lo: real, hi: real, x: real): (r: real)
    requires lo <= hi
    ensures lo <= r <= hi
    ensures lo <= x <= hi ==> r == x
  {
    Max(lo, Min(hi, x))
  }

  /** What the scaled group still has to supply: the target minus what the
      other foods give, never negative. */
  function Need(goal: real, current: real, base: real): (need: real)
    ensures need >= 0.0
    ensures need >= goal - (current - base)
  {
    Max(0.0, goal - (current - base))
  }

  function Power(f: real, n: nat): real
  {
    if n == 0 then 1.0 else Power(f, n - 1) * f
  }

  function Count(ids: seq<string>, k: string): nat
  {
    if ids == [] then 0 else Count(ids[..|ids| - 1], k) + (if ids[|ids| - 1] == k then 1 else 0)
  }

  /** `x * factor`, kept whole so that the solver matches it as one term. */
  function Times(x: real, factor: real): real
  {
    x * factor
  }

  /** `for fid in ids: grams_map[fid] *= factor`. */
  function ScaleAll(grams: map<string, real>, ids: seq<string>, factor: real): (g: map<string, real>)
    requires forall x :: x in ids ==> x in grams
    ensures g.Keys == grams.Keys
  {
    if ids == [] then grams
    else
      var prev := ScaleAll(grams, ids[..|ids| - 1], factor);
      prev[ids[|ids| - 1] := Times(prev[ids[|ids| - 1]], factor)]
  }

  /** An id listed `n` times has its grams multiplied by `factor^n`; the others
      keep theirs. */
  lemma {:induction false} ScaleAllValue(grams: map<string, real>, ids: seq<string>, factor: real, k: string)
    requires forall x :: x in ids ==> x in grams
    requires k in grams
    ensures ScaleAll(grams, ids, factor)[k] == Times(grams[k], Power(factor, Count(ids, k)))
    decreases |ids|
  {
    if ids != [] {
      var init := ids[..|ids| - 1];
      ScaleAllValue(grams, init, factor, k);
      if ids[|ids| - 1] == k {
        assert ScaleAll(grams, ids, factor)[k] == Times(Times(grams[k], Power(factor, Count(init, k))), factor);
        assert Power(factor, Count(ids, k)) == Power(factor, Count(init, k)) * factor;
      }
    }
  }

  lemma ScaleAllStep(grams: map<string, real>, ids: seq<string>, factor: real, i: nat)
    requires forall x :: x in ids ==> x in grams
    requires i < |ids|
    ensures var g := ScaleAll(grams, ids[..i], factor);
      ScaleAll(grams, ids[..i + 1], factor) == g[ids[i] := Times(g[ids[i]], factor)]
  {
    var p := ids[..i + 1];
    assert p[..|p| - 1] == ids[..i] && p[|p| - 1] == ids[i];
  }

  method ScaleIds(grams: map<string, real>, ids: seq<string>, factor: real) returns (g: map<string, real>)
    requires forall x :: x in ids ==> x in grams
    ensures g == ScaleAll(grams, ids, factor)
  {
    g := grams;
    var i := 0;
    while i < |ids|
      invariant 0 <= i <= |ids|
      invariant g == ScaleAll(grams, ids[..i], factor)
    {
      ScaleAllStep(grams, ids, factor, i);
      g := g[ids[i] := Times(g[ids[i]], factor)];
      i := i + 1;
    }
    assert ids[..|ids|] == ids;
  }

  /** The factor of the protein and carbohydrate stages. */
  function StageFactor(goal: real, current: real, base: real): real
    requires base > 0.0
  {
    Clamp(0.6, 3.5, Need(goal, current, base) / base)
  }

  /** Stages 1 and 2: when the group's foods give some of nutrient `n`, scale
      them all by the clamped factor that would make up what the other foods
      leave to reach the goal. */
  function ScaleStage(foods: Foods, keys: seq<string>, grams: map<string, real>, ids: seq<string>, n: Nutrient, goal: real): (g: map<string, real>)
    requires forall x :: x in keys ==> x in foods && x in grams
    requires forall x :: x in ids ==> x in foods && x in grams
    ensures g.Keys == grams.Keys
  {
    var base := BaseOf(foods, ids, grams, n);
    if base > 0.0 then ScaleAll(grams, ids, StageFactor(goal, Amount(Current(foods, keys, grams), n), base))
    else grams
  }

  /** The fat the flexible and fixed fats still have to supply. */
  function FatNeed(foods: Foods, keys: seq<string>, grams: map<string, real>, flexIds: seq<string>, fatIds: seq<string>, goal: real): real
    requires forall x :: x in keys ==> x in foods && x in grams
    requires forall x :: x in flexIds ==> x in foods && x in grams
    requires forall x :: x in fatIds ==> x in foods && x in grams
  {
    var baseFlex := BaseOf(foods, flexIds, grams, FatN);
    var baseFats := BaseOf(foods, fatIds, grams, FatN);
    Max(0.0, goal - (Current(foods, keys, grams).fatG - baseFlex - baseFats))
  }

  /** The grams of oil that give `need` grams of fat, or 0 when the oil has no fat. */
  function FlexGrams(oil: Food, need: real): real
  {
    var fatPerG := oil.fatG / 100.0;
    if fatPerG > 0.0 then need / fatPerG else 0.0
  }

  /** Stage 3: the first flexible fat alone is set to the grams that cover
      the fat still needed; without one, the fixed fats are scaled by a
      factor clamped to [0.6, 3.0]. */
  function FatStage(foods: Foods, keys: seq<string>, grams: map<string, real>, flexIds: seq<string>, fatIds: seq<string>, goal: real): (g: map<string, real>)
    requires forall x :: x in keys ==> x in foods && x in grams
    requires forall x :: x in flexIds ==> x in foods && x in grams
    requires forall x :: x in fatIds ==> x in foods && x in grams
    ensures g.Keys == grams.Keys
  {
    var need := FatNeed(foods, keys, grams, flexIds, fatIds, goal);
    var baseFats := BaseOf(foods, fatIds, grams, FatN);
    if |flexIds| > 0 then grams[flexIds[0] := FlexGrams(foods[flexIds[0]], need)]
    else if baseFats > 0.0 then ScaleAll(grams, fatIds, Clamp(0.6, 3.0, need / baseFats))
    else grams
  }

  /** The rounding comprehension of stage 4. */
  function RoundAll(foods: Foods, grams: map<string, real>): (g: map<string, real>)
    requires grams.Keys <= foods.Keys
    ensures g.Keys == grams.Keys
    ensures forall k :: k in g ==> g[k] == RoundGrams(foods[k].category, grams[k])
  {
    map k | k in grams :: RoundGrams(foods[k].category, grams[k])
  }

  // ---------------------------------------------------------------------------
  // scale_menu_to_targets
  // ---------------------------------------------------------------------------

  /** One entry of the scaled menu; the macros are rounded to 2 decimals. */
  datatype ScaledItem = ScaledItem(foodId: string, name: string, grams: real, kcal: real, proteinG: real, carbG: real, fatG: real)

  /** The `debug` dictionary: the target, what the rounded grams achieve, and
      the errors rounded to 2 decimals. */
  datatype Debug = Debug(target: Macro, achieved: Macro, errors: Macro)

  datatype Scaled = Scaled(items: seq<ScaledItem>, debug: Debug)

  function ScaledItemOf(foods: Foods, fid: string, g: real): ScaledItem
    requires fid in foods
  {
    var m := MacrosOf(foods[fid], g);
    ScaledItem(fid, foods[fid].name, g, Round(m.kcal, 2), Round(m.proteinG, 2), Round(m.carbG, 2), Round(m.fatG, 2))
  }

  /** The result list, one entry per key of the grams map, in its order. */
  function ScaledItems(foods: Foods, keys: seq<string>, grams: map<string, real>): (r: seq<ScaledItem>)
    requires forall x :: x in keys ==> x in foods && x in grams
    ensures |r| == |keys|
    ensures forall i :: 0 <= i < |keys| ==> r[i].foodId == keys[i] && r[i].grams == grams[keys[i]]
  {
    if keys == [] then []
    else ScaledItems(foods, keys[..|keys| - 1], grams) + [ScaledItemOf(foods, keys[|keys| - 1], grams[keys[|keys| - 1]])]
  }

  method BuildItems(foods: Foods, keys: seq<string>, grams: map<string, real>) returns (r: seq<ScaledItem>)
    requires forall x :: x in keys ==> x in foods && x in grams
    ensures r == ScaledItems(foods, keys, grams)
  {
    r := [];
    var i := 0;
    while i < |keys|
      invariant 0 <= i <= |keys|
      invariant r == ScaledItems(foods, keys[..i], grams)
    {
      ScaledItemsStep(foods, keys, grams, i);
      r := r + [ScaledItemOf(foods, keys[i], grams[keys[i]])];
      i := i + 1;
    }
    assert keys[..|keys|] == keys;
  }

  /** One more key appends its item. */
  lemma ScaledItemsStep(foods: Foods, keys: seq<string>, grams: map<string, real>, i: nat)
    requires forall x :: x in keys ==> x in foods && x in grams
    requires i < |keys|
    ensures ScaledItems(foods, keys[..i + 1], grams)
         == ScaledItems(foods, keys[..i], grams) + [ScaledItemOf(foods, keys[i], grams[keys[i]])]
  {
    assert keys[..i + 1][..i] == keys[..i];
  }

  function Diff(a: Macro, b: Macro): Macro
  {
    Macro(a.kcal - b.kcal, a.proteinG - b.proteinG, a.carbG - b.carbG, a.fatG - b.fatG)
  }

  function RoundMacro(m: Macro): Macro
  {
    Macro(Round(m.kcal, 2), Round(m.proteinG, 2), Round(m.carbG, 2), Round(m.fatG, 2))
  }

  /** The grams after the three stages, before rounding. */
  function StagedGrams(menu: Menu, foods: Foods, target: Macro): (g: map<string, real>)
    requires FoodsKnown(menu.items, foods)
    ensures g.Keys == IdSet(menu.items)
  {
    var items := menu.items;
    var keys := Keys(items);
    var g0 := InitialGrams(items);
    var g1 := ScaleStage(foods, keys, g0, IdsOf(items, foods, Protein), ProteinN, target.proteinG);
    var g2 := ScaleStage(foods, keys, g1, IdsOf(items, foods, Carb), CarbN, target.carbG);
    FatStage(foods, keys, g2, IdsOf(items, foods, FatFlex), IdsOf(items, foods, Fat), target.fatG)
  }

  /** What `scale_menu_to_targets` returns. */
  function ScaleSpec(menu: Menu, foods: Foods, target: Macro): Scaled
    requires FoodsKnown(menu.items, foods)
  {
    var keys := Keys(menu.items);
    var g := RoundAll(foods, StagedGrams(menu, foods, target));
    var final := Current(foods, keys, g);
    Scaled(ScaledItems(foods, keys, g), Debug(target, final, RoundMacro(Diff(final, target))))
  }

  /** Stages 1 and 2 as the source runs them: measure, then scale the group. */
  method RunScaleStage(foods: Foods, keys: seq<string>, grams: map<string, real>, ids: seq<string>, n: Nutrient, goal: real)
    returns (g: map<string, real>)
    requires forall x :: x in keys ==> x in foods && x in grams
    requires forall x :: x in ids ==> x in foods && x in grams
    ensures g == ScaleStage(foods, keys, grams, ids, n, goal)
  {
    var cur := CurrentMacros(foods, keys, grams);
    var base := BaseOf(foods, ids, grams, n);
    g := grams;
    if base > 0.0 {
      var factor := StageFactor(goal, Amount(cur, n), base);
      g := ScaleIds(grams, ids, factor);
    }
  }

  /** Stage 3 as the source runs it. */
  method RunFatStage(foods: Foods, keys: seq<string>, grams: map<string, real>, flexIds: seq<string>, fatIds: seq<string>, goal: real)
    returns (g: map<string, real>)
    requires forall x :: x in keys ==> x in foods && x in grams
    requires forall x :: x in flexIds ==> x in foods && x in grams
    requires forall x :: x in fatIds ==> x in foods && x in grams
    ensures g == FatStage(foods, keys, grams, flexIds, fatIds, goal)
  {
    var cur := CurrentMacros(foods, keys, grams);
    var baseFlex := BaseOf(foods, flexIds, grams, FatN);
    var baseFats := BaseOf(foods, fatIds, grams, FatN);
    var needF := Max(0.0, goal - (cur.fatG - baseFlex - baseFats));
    g := grams;
    if |flexIds| > 0 {
      var fid := flexIds[0];
      g := grams[fid := FlexGrams(foods[fid], needF)];
    } else if baseFats > 0.0 {
      var factor := Clamp(0.6, 3.0, needF / baseFats);
      g := ScaleIds(grams, fatIds, factor);
    }
  }

  /** `scale_menu_to_targets`. */
  method ScaleMenuToTargets(menu: Menu, foods: Foods, target: Macro) returns (r: Scaled)
    requires FoodsKnown(menu.items, foods)
    ensures r == ScaleSpec(menu, foods, target)
  {
    var items := menu.items;
    var keys := Keys(items);
    var grams := InitialGrams(items);
    var proteinIds := IdsOf(items, foods, Protein);
    var carbIds := IdsOf(items, foods, Carb);
    var fatflexIds := IdsOf(items, foods, FatFlex);
    var fatIds := IdsOf(items, foods, Fat);
    grams := RunScaleStage(foods, keys, grams, proteinIds, ProteinN, target.proteinG);
    grams := RunScaleStage(foods, keys, grams, carbIds, CarbN, target.carbG);
    grams := RunFatStage(foods, keys, grams, fatflexIds, fatIds, target.fatG);
    grams := RoundAll(foods, grams);
    var final := CurrentMacros(foods, keys, grams);
    var resultItems := BuildItems(foods, keys, grams);
    r := Scaled(resultItems, Debug(target, final, RoundMacro(Diff(final, target))));
  }

  // ---------------------------------------------------------------------------
  // What the stages and the result promise
  // ---------------------------------------------------------------------------

  /** Stages 1 and 2: with some of the nutrient in the group, every food of
      the group is multiplied by one factor in [0.6, 3.5] (once per listing);
      without any, nothing changes. */
  lemma ScaleStageEffect(foods: Foods, keys: seq<string>, grams: map<string, real>, ids: seq<string>, n: Nutrient, goal: real, k: string)
    requires forall x :: x in keys ==> x in foods && x in grams
    requires forall x :: x in ids ==> x in foods && x in grams
    requires k in grams
    ensures BaseOf(foods, ids, grams, n) <= 0.0 ==> ScaleStage(foods, keys, grams, ids, n, goal)[k] == grams[k]
    ensures BaseOf(foods, ids, grams, n) > 0.0 ==>
      var f := StageFactor(goal, Amount(Current(foods, keys, grams), n), BaseOf(foods, ids, grams, n));
      0.6 <= f <= 3.5 && ScaleStage(foods, keys, grams, ids, n, goal)[k] == Times(grams[k], Power(f, Count(ids, k)))
  {
    var base := BaseOf(foods, ids, grams, n);
    if base > 0.0 {
      var f := StageFactor(goal, Amount(Current(foods, keys, grams), n), base);
      ScaleAllValue(grams, ids, f, k);
    }
  }

  /** Stage 3: the fat still needed is never negative; with a flexible fat,
      only the first one changes, to the grams that give that fat (0 for an
      oil without fat); otherwise the fixed fats are multiplied by one factor
      in [0.6, 3.0], and nothing changes when they hold no fat. */
  lemma FatStageEffect(foods: Foods, keys: seq<string>, grams: map<string, real>, flexIds: seq<string>, fatIds: seq<string>, goal: real, k: string)
    requires forall x :: x in keys ==> x in foods && x in grams
    requires forall x :: x in flexIds ==> x in foods && x in grams
    requires forall x :: x in fatIds ==> x in foods && x in grams
    requires k in grams
    ensures var need := FatNeed(foods, keys, grams, flexIds, fatIds, goal);
      need >= 0.0 &&
      var g := FatStage(foods, keys, grams, flexIds, fatIds, goal);
      var baseFats := BaseOf(foods, fatIds, grams, FatN);
      if |flexIds| > 0 then
        var oil := foods[flexIds[0]];
        (k == flexIds[0] ==> g[k] * (oil.fatG / 100.0) == (if oil.fatG > 0.0 then need else 0.0)) &&
        (k != flexIds[0] ==> g[k] == grams[k])
      else if baseFats > 0.0 then
        var f := Clamp(0.6, 3.0, need / baseFats);
        0.6 <= f <= 3.0 && g[k] == Times(grams[k], Power(f, Count(fatIds, k)))
      else g[k] == grams[k]
  {
    var need := FatNeed(foods, keys, grams, flexIds, fatIds, goal);
    var baseFats := BaseOf(foods, fatIds, grams, FatN);
    if |flexIds| > 0 {
      var oil := foods[flexIds[0]];
      if oil.fatG > 0.0 {
        FlexCoversNeed(oil.fatG / 100.0, need);
      }
    } else if baseFats > 0.0 {
      ScaleAllValue(grams, fatIds, Clamp(0.6, 3.0, need / baseFats), k);
    }
  }

  lemma FlexCoversNeed(fatPerG: real, need: real)
    requires fatPerG > 0.0
    ensures (need / fatPerG) * fatPerG == need
  {
  }

  /** The scaled menu lists each of the menu's foods exactly once, in the
      order of first appearance, and every amount is a non-negative whole
      multiple of its category's step. */
  lemma ScaledMenuListsItsFoods(menu: Menu, foods: Foods, target: Macro)
    requires FoodsKnown(menu.items, foods)
    ensures var r := ScaleSpec(menu, foods, target).items;
      (forall i, j :: 0 <= i < j < |r| ==> r[i].foodId != r[j].foodId) &&
      (forall x :: x in IdSet(menu.items) <==> exists i :: 0 <= i < |r| && r[i].foodId == x) &&
      (forall i :: 0 <= i < |r| ==>
         (r[i].foodId in foods && r[i].grams >= 0.0 &&
          r[i].grams == r[i].grams.Floor as real && r[i].grams.Floor % Step(foods[r[i].foodId].category) == 0))
  {
    var keys := Keys(menu.items);
    var g := RoundAll(foods, StagedGrams(menu, foods, target));
    assert ScaleSpec(menu, foods, target).items == ScaledItems(foods, keys, g);
    RoundedItems(foods, keys, StagedGrams(menu, foods, target));
  }

  lemma RoundedItems(foods: Foods, keys: seq<string>, staged: map<string, real>)
    requires staged.Keys <= foods.Keys
    requires forall x :: x in keys ==> x in staged
    ensures var r := ScaledItems(foods, keys, RoundAll(foods, staged));
      (forall i :: 0 <= i < |r| ==> r[i].foodId == keys[i]) &&
      (forall x :: x in keys <==> exists i :: 0 <= i < |r| && r[i].foodId == x) &&
      (forall i :: 0 <= i < |r| ==>
         (r[i].foodId in foods && r[i].grams >= 0.0 &&
          r[i].grams == r[i].grams.Floor as real && r[i].grams.Floor % Step(foods[r[i].foodId].category) == 0))
  {
    var g := RoundAll(foods, staged);
    var r := ScaledItems(foods, keys, g);
    forall x | x in keys
      ensures exists i :: 0 <= i < |r| && r[i].foodId == x
    {
      var i :| 0 <= i < |keys| && keys[i] == x;
      assert r[i].foodId == x;
    }
    forall i | 0 <= i < |r|
      ensures r[i].grams == RoundGrams(foods[keys[i]].category, staged[keys[i]])
    {
    }
  }

  /** Each reported error is what the rounded grams achieve minus the
      target, up to the rounding to 2 decimals, and what they achieve is the
      total of the listed foods at their listed grams. */
  lemma ErrorsAreAchievedMinusTarget(menu: Menu, foods: Foods, target: Macro)
    requires FoodsKnown(menu.items, foods)
    ensures var d := ScaleSpec(menu, foods, target).debug;
      d.target == target &&
      -0.005 <= d.errors.kcal - (d.achieved.kcal - target.kcal) <= 0.005 &&
      -0.005 <= d.errors.proteinG - (d.achieved.proteinG - target.proteinG) <= 0.005 &&
      -0.005 <= d.errors.carbG - (d.achieved.carbG - target.carbG) <= 0.005 &&
      -0.005 <= d.errors.fatG - (d.achieved.fatG - target.fatG) <= 0.005
    ensures var r := ScaleSpec(menu, foods, target);
      r.debug.achieved == Total(ListedMacros(foods, r.items))
  {
    var keys := Keys(menu.items);
    var g := RoundAll(foods, StagedGrams(menu, foods, target));
    var final := Current(foods, keys, g);
    var e := Diff(final, target);
    RoundErrorSmall(e.kcal);
    RoundErrorSmall(e.proteinG);
    RoundErrorSmall(e.carbG);
    RoundErrorSmall(e.fatG);
    ListedMacrosOfItems(foods, keys, g);
  }

  /** The exact macros of listed foods at their listed grams. */
  function ListedMacros(foods: Foods, items: seq<ScaledItem>): (ms: seq<Macro>)
    requires forall i :: 0 <= i < |items| ==> items[i].foodId in foods
    ensures |ms| == |items|
  {
    if items == [] then []
    else
      var last := items[|items| - 1];
      ListedMacros(foods, items[..|items| - 1]) + [MacrosOf(foods[last.foodId], last.grams)]
  }

  lemma {:induction false} ListedMacrosOfItems(foods: Foods, keys: seq<string>, g: map<string, real>)
    requires forall x :: x in keys ==> x in foods && x in g
    ensures ListedMacros(foods, ScaledItems(foods, keys, g)) == MacroList(foods, keys, g)
    decreases |keys|
  {
    if keys != [] {
      var init := keys[..|keys| - 1];
      ListedMacrosOfItems(foods, init, g);
      var items := ScaledItems(foods, keys, g);
      assert items[..|items| - 1] == ScaledItems(foods, init, g);
    }
  }

  // ---------------------------------------------------------------------------
  // generate_day_plan
  // ---------------------------------------------------------------------------

  /** The exceptions the two generators can raise: the `KeyError` of an
      unknown scheme, of a meal outside the scheme or of a food missing from
      the table, and the `StopIteration` of a menu id no menu has. */
  datatype PlanError = UnknownScheme(scheme: string) | MenuNotFound(menuId: string) | UnknownMeal(meal: string) | UnknownFood(menuId: string)

  /** One meal of the day plan. */
  datatype MealPlan = MealPlan(menuName: string, items: seq<ScaledItem>, target: Macro, achieved: Macro, errors: Macro)

  /** `next(m for m in menus if m["menu_id"] == menu_id)`: the first menu with
      that id. */
  function FindMenu(menus: seq<Menu>, menuId: string): (r: Option<nat>)
    ensures r.None? <==> forall j :: 0 <= j < |menus| ==> menus[j].menuId != menuId
    ensures r.Some? ==> r.value < |menus| && menus[r.value].menuId == menuId
    ensures r.Some? ==> forall j :: 0 <= j < r.value ==> menus[j].menuId != menuId
  {
    if menus == [] then None
    else if menus[0].menuId == menuId then Some(0)
    else match FindMenu(menus[1..], menuId)
      case None => None
      case Some(j) => Some(j + 1)
  }

  /** One iteration of the day-plan loop: find the menu, take the meal's
      target, scale. */
  function PlanMeal(foods: Foods, menus: seq<Menu>, targets: seq<(string, Macro)>, meal: string, menuId: string): Result<MealPlan, PlanError>
  {
    match FindMenu(menus, menuId)
    case None => Failure(MenuNotFound(menuId))
    case Some(j) =>
      match TargetFor(targets, meal)
      case None => Failure(UnknownMeal(meal))
      case Some(target) =>
        if !FoodsKnown(menus[j].items, foods) then Failure(UnknownFood(menuId))
        else
          var scaled := ScaleSpec(menus[j], foods, target);
          Success(MealPlan(menus[j].menuName, scaled.items, target, scaled.debug.achieved, scaled.debug.errors))
  }

  /** The loop over `selection.items()`: the first failing meal stops it. */
  function PlanMeals(foods: Foods, menus: seq<Menu>, targets: seq<(string, Macro)>, selection: seq<(string, string)>): Result<seq<(string, MealPlan)>, PlanError>
  {
    if selection == [] then Success([])
    else
      match PlanMeals(foods, menus, targets, selection[..|selection| - 1])
      case Failure(e) => Failure(e)
      case Success(out) =>
        var (meal, menuId) := selection[|selection| - 1];
        match PlanMeal(foods, menus, targets, meal, menuId)
        case Failure(e) => Failure(e)
        case Success(mp) => Success(out + [(meal, mp)])
  }

  /** What `generate_day_plan` returns. The totals are a `Macro` whose `kcal`
      is the day's energy. */
  function DayPlan(foods: Foods, menus: seq<Menu>, totals: Macro, scheme: string, selection: seq<(string, string)>): Result<seq<(string, MealPlan)>, PlanError>
  {
    match PerMealTargets(totals.kcal, totals.proteinG, totals.carbG, totals.fatG, scheme)
    case None => Failure(UnknownScheme(scheme))
    case Some(targets) => PlanMeals(foods, menus, targets, selection)
  }

  /** `generate_day_plan`; the selection is the request's dictionary, its
      pairs in insertion order. */
  method GenerateDayPlan(foods: Foods, menus: seq<Menu>, totals: Macro, scheme: string, selection: seq<(string, string)>)
    returns (r: Result<seq<(string, MealPlan)>, PlanError>)
    ensures r == DayPlan(foods, menus, totals, scheme, selection)
  {
    var targetsOpt := PerMealTargets(totals.kcal, totals.proteinG, totals.carbG, totals.fatG, scheme);
    if targetsOpt.None? {
      return Failure(UnknownScheme(scheme));
    }
    var targets := targetsOpt.value;
    var out: seq<(string, MealPlan)> := [];
    var i := 0;
    while i < |selection|
      invariant 0 <= i <= |selection|
      invariant PlanMeals(foods, menus, targets, selection[..i]) == Success(out)
    {
      var (meal, menuId) := selection[i];
      var one := PlanOneMeal(foods, menus, targets, meal, menuId);
      PlanMealsSnoc(foods, menus, targets, selection, i, out);
      if one.Failure? {
        PlanMealsFailureSticks(foods, menus, targets, selection, i + 1);
        return Failure(one.error);
      }
      out := out + [(meal, one.value)];
      i := i + 1;
    }
    assert selection[..|selection|] == selection;
    return Success(out);
  }

  /** The body of the day-plan loop for one selected meal: find the menu,
      take the meal's target, check the foods, scale. */
  method PlanOneMeal(foods: Foods, menus: seq<Menu>, targets: seq<(string, Macro)>, meal: string, menuId: string)
    returns (r: Result<MealPlan, PlanError>)
    ensures r == PlanMeal(foods, menus, targets, meal, menuId)
  {
    var found := FindMenu(menus, menuId);
    if found.None? {
      return Failure(MenuNotFound(menuId));
    }
    var menu := menus[found.value];
    var target := TargetFor(targets, meal);
    if target.None? {
      return Failure(UnknownMeal(meal));
    }
    if !FoodsKnown(menu.items, foods) {
      return Failure(UnknownFood(menuId));
    }
    var scaled := ScaleMenuToTargets(menu, foods, target.value);
    return Success(MealPlan(menu.menuName, scaled.items, target.value, scaled.debug.achieved, scaled.debug.errors));
  }

  /** One more iteration of the day-plan loop, after the first `i` meals succeeded. */
  lemma PlanMealsSnoc(foods: Foods, menus: seq<Menu>, targets: seq<(string, Macro)>, selection: seq<(string, string)>, i: nat, out: seq<(string, MealPlan)>)
    requires i < |selection| && PlanMeals(foods, menus, targets, selection[..i]) == Success(out)
    ensures var one := PlanMeal(foods, menus, targets, selection[i].0, selection[i].1);
            PlanMeals(foods, menus, targets, selection[..i + 1])
            == if one.Failure? then Failure(one.error) else Success(out + [(selection[i].0, one.value)])
  {
    assert selection[..i + 1][..i] == selection[..i];
  }

  /** Once the day-plan loop has failed, the later meals do not change the outcome. */
  lemma {:induction false} PlanMealsFailureSticks(foods: Foods, menus: seq<Menu>, targets: seq<(string, Macro)>, selection: seq<(string, string)>, k: nat)
    requires k <= |selection|
    requires PlanMeals(foods, menus, targets, selection[..k]).Failure?
    ensures PlanMeals(foods, menus, targets, selection) == PlanMeals(foods, menus, targets, selection[..k])
    decreases |selection| - k
  {
    if k < |selection| {
      assert selection[..k + 1][..k] == selection[..k];
      PlanMealsFailureSticks(foods, menus, targets, selection, k + 1);
    } else {
      assert selection[..k] == selection;
    }
  }

  /** The day-plan loop over results already computed: the first failure
      stops it, otherwise each meal is paired with its plan. */
  function Gather(meals: seq<string>, rs: seq<Result<MealPlan, PlanError>>): Result<seq<(string, MealPlan)>, PlanError>
    requires |meals| == |rs|
  {
    if rs == [] then Success([])
    else
      var n := |rs| - 1;
      match Gather(meals[..n], rs[..n])
      case Failure(e) => Failure(e)
      case Success(out) =>
        match rs[n]
        case Failure(e) => Failure(e)
        case Success(mp) => Success(out + [(meals[n], mp)])
  }

  /** The meals' results, one per selected pair. */
  function MealResults(foods: Foods, menus: seq<Menu>, targets: seq<(string, Macro)>, selection: seq<(string, string)>): seq<Result<MealPlan, PlanError>>
  {
    seq(|selection|, i requires 0 <= i < |selection| => PlanMeal(foods, menus, targets, selection[i].0, selection[i].1))
  }

  lemma MealResultsAt(foods: Foods, menus: seq<Menu>, targets: seq<(string, Macro)>, selection: seq<(string, string)>)
    ensures |MealResults(foods, menus, targets, selection)| == |selection|
    ensures forall i :: 0 <= i < |selection| ==>
      MealResults(foods, menus, targets, selection)[i] == PlanMeal(foods, menus, targets, selection[i].0, selection[i].1)
  {
  }

  function MealNames(selection: seq<(string, string)>): seq<string>
  {
    seq(|selection|, i requires 0 <= i < |selection| => selection[i].0)
  }

  /** The day-plan loop is the fold over the meals' results. */
  lemma {:induction false} PlanMealsIsGather(foods: Foods, menus: seq<Menu>, targets: seq<(string, Macro)>, selection: seq<(string, string)>)
    ensures PlanMeals(foods, menus, targets, selection)
      == Gather(MealNames(selection), MealResults(foods, menus, targets, selection))
    decreases |selection|
  {
    if selection != [] {
      var n := |selection| - 1;
      var init := selection[..n];
      PlanMealsIsGather(foods, menus, targets, init);
      assert MealNames(selection)[..n] == MealNames(init);
      assert MealResults(foods, menus, targets, selection)[..n] == MealResults(foods, menus, targets, init);
    }
  }

  /** The fold succeeds exactly when every result does. */
  lemma {:induction false} GatherSucceedsIff(meals: seq<string>, rs: seq<Result<MealPlan, PlanError>>)
    requires |meals| == |rs|
    ensures Gather(meals, rs).Success? <==> forall i :: 0 <= i < |rs| ==> rs[i].Success?
    decreases |rs|
  {
    if rs != [] {
      var n := |rs| - 1;
      GatherSucceedsIff(meals[..n], rs[..n]);
      assert forall i :: 0 <= i < n ==> rs[..n][i] == rs[i];
    }
  }

  /** A successful fold pairs each meal with its plan, in order. */
  lemma {:induction false} GatherEntries(meals: seq<string>, rs: seq<Result<MealPlan, PlanError>>)
    requires |meals| == |rs| && Gather(meals, rs).Success?
    ensures |Gather(meals, rs).value| == |rs|
    ensures forall i :: 0 <= i < |rs| ==> rs[i].Success? && Gather(meals, rs).value[i] == (meals[i], rs[i].value)
    decreases |rs|
  {
    if rs != [] {
      var n := |rs| - 1;
      GatherEntries(meals[..n], rs[..n]);
      assert forall i :: 0 <= i < n ==> rs[..n][i] == rs[i] && meals[..n][i] == meals[i];
    }
  }

  /** The day plan fails exactly when one of the selected meals fails. */
  lemma DayPlanSucceedsIff(foods: Foods, menus: seq<Menu>, targets: seq<(string, Macro)>, selection: seq<(string, string)>)
    ensures PlanMeals(foods, menus, targets, selection).Success? <==>
      forall i :: 0 <= i < |selection| ==> PlanMeal(foods, menus, targets, selection[i].0, selection[i].1).Success?
  {
    var rs := MealResults(foods, menus, targets, selection);
    PlanMealsIsGather(foods, menus, targets, selection);
    MealResultsAt(foods, menus, targets, selection);
    GatherSucceedsIff(MealNames(selection), rs);
  }

  /** A successful day plan has one entry per selected meal, in the
      selection's order, each that meal's plan. */
  lemma DayPlanEntries(foods: Foods, menus: seq<Menu>, targets: seq<(string, Macro)>, selection: seq<(string, string)>)
    requires PlanMeals(foods, menus, targets, selection).Success?
    ensures |PlanMeals(foods, menus, targets, selection).value| == |selection|
    ensures forall i :: 0 <= i < |selection| ==>
      PlanMeal(foods, menus, targets, selection[i].0, selection[i].1).Success? &&
      PlanMeals(foods, menus, targets, selection).value[i] ==
        (selection[i].0, PlanMeal(foods, menus, targets, selection[i].0, selection[i].1).value)
  {
    var rs := MealResults(foods, menus, targets, selection);
    PlanMealsIsGather(foods, menus, targets, selection);
    MealResultsAt(foods, menus, targets, selection);
    GatherEntries(MealNames(selection), rs);
  }

  /** A meal succeeds exactly when its menu id, its meal and the menu's foods
      are all known; it then carries that menu's name and the meal's target,
      and its errors track what it achieves. */
  lemma PlanMealSucceedsIff(foods: Foods, menus: seq<Menu>, targets: seq<(string, Macro)>, meal: string, menuId: string)
    ensures var r := PlanMeal(foods, menus, targets, meal, menuId);
      r.Success? <==>
        FindMenu(menus, menuId).Some? && TargetFor(targets, meal).Some? &&
        FoodsKnown(menus[FindMenu(menus, menuId).value].items, foods)
    ensures var r := PlanMeal(foods, menus, targets, meal, menuId);
      r.Success? ==>
        r.value.menuName == menus[FindMenu(menus, menuId).value].menuName &&
        r.value.target == TargetFor(targets, meal).value &&
        -0.005 <= r.value.errors.proteinG - (r.value.achieved.proteinG - r.value.target.proteinG) <= 0.005
  {
    match FindMenu(menus, menuId)
    case None =>
    case Some(j) =>
      match TargetFor(targets, meal)
      case None =>
      case Some(target) =>
        if FoodsKnown(menus[j].items, foods) {
          ErrorsAreAchievedMinusTarget(menus[j], foods, target);
        }
  }

  // ---------------------------------------------------------------------------
  // generate_all_options
  // ---------------------------------------------------------------------------

  /** One candidate menu for a meal. */
  datatype MenuOption = MenuOption(menuId: string, menuName: string, items: seq<ScaledItem>, achieved: Macro, errors: Macro, score: real)

  /** The options offered for one meal. */
  datatype MealOptions = MealOptions(target: Macro, options: seq<MenuOption>)

  /** A menu scaled to a meal's target, with its score. */
  function OptionFor(menu: Menu, foods: Foods, target: Macro): (o: MenuOption)
    requires FoodsKnown(menu.items, foods)
    ensures o.menuId == menu.menuId && o.score >= 0.0
  {
    var scaled := ScaleSpec(menu, foods, target);
    MenuOption(menu.menuId, menu.menuName, scaled.items, scaled.debug.achieved, scaled.debug.errors, ErrorScore(scaled.debug.errors))
  }

  /** The menus whose `meal_type` is the meal; a menu without one never is. */
  function Matching(menus: seq<Menu>, meal: string): (ms: seq<Menu>)
    ensures forall k :: 0 <= k < |ms| ==> ms[k] in menus && ms[k].mealType == Some(meal)
  {
    if menus == [] then []
    else
      var m := menus[|menus| - 1];
      assert forall y :: y in menus[..|menus| - 1] ==> y in menus;
      assert m in menus;
      Matching(menus[..|menus| - 1], meal) + (if m.mealType == Some(meal) then [m] else [])
  }

  /** The inner loop of `generate_all_options`: each matching menu scaled, in
      menu order; a missing food fails. */
  function Candidates(menus: seq<Menu>, foods: Foods, meal: string, target: Macro): Result<seq<MenuOption>, PlanError>
  {
    if menus == [] then Success([])
    else
      match Candidates(menus[..|menus| - 1], foods, meal, target)
      case Failure(e) => Failure(e)
      case Success(os) =>
        var m := menus[|menus| - 1];
        if m.mealType != Some(meal) then Success(os)
        else if !FoodsKnown(m.items, foods) then Failure(UnknownFood(m.menuId))
        else Success(os + [OptionFor(m, foods, target)])
  }

  /** Collecting the candidates fails exactly when a matching menu names an
      unknown food. */
  lemma {:induction false} CandidatesSucceedIff(menus: seq<Menu>, foods: Foods, meal: string, target: Macro)
    ensures Candidates(menus, foods, meal, target).Success? <==>
      forall k :: 0 <= k < |Matching(menus, meal)| ==> FoodsKnown(Matching(menus, meal)[k].items, foods)
    decreases |menus|, 0
  {
    if menus != [] {
      var init := menus[..|menus| - 1];
      var m := menus[|menus| - 1];
      CandidatesSucceedIff(init, foods, meal, target);
      var ms, msi := Matching(menus, meal), Matching(init, meal);
      assert forall k :: 0 <= k < |msi| ==> ms[k] == msi[k];
      if Candidates(init, foods, meal, target).Failure? {
        var k :| 0 <= k < |msi| && !FoodsKnown(msi[k].items, foods);
        assert !FoodsKnown(ms[k].items, foods);
      } else if m.mealType == Some(meal) && !FoodsKnown(m.items, foods) {
        assert ms[|ms| - 1] == m;
      } else {
        assert Candidates(menus, foods, meal, target).Success?;
        forall k | 0 <= k < |ms|
          ensures FoodsKnown(ms[k].items, foods)
        {
          if k < |msi| {
            MatchingKnownAt(init, foods, meal, target, k);
            assert ms[k] == msi[k];
          } else {
            assert ms[k] == m;
          }
        }
      }
    }
  }

  lemma {:induction false} MatchingKnownAt(menus: seq<Menu>, foods: Foods, meal: string, target: Macro, k: nat)
    requires Candidates(menus, foods, meal, target).Success?
    requires k < |Matching(menus, meal)|
    ensures FoodsKnown(Matching(menus, meal)[k].items, foods)
    decreases |menus|, 1
  {
    CandidatesSucceedIff(menus, foods, meal, target);
  }

  /** The candidates are exactly the matching menus, each scaled to the
      target, in menu order. */
  lemma {:induction false} CandidatesAreMatchingMenus(menus: seq<Menu>, foods: Foods, meal: string, target: Macro)
    requires Candidates(menus, foods, meal, target).Success?
    ensures |Candidates(menus, foods, meal, target).value| == |Matching(menus, meal)|
    ensures forall k :: 0 <= k < |Matching(menus, meal)| ==>
      FoodsKnown(Matching(menus, meal)[k].items, foods) &&
      Candidates(menus, foods, meal, target).value[k] == OptionFor(Matching(menus, meal)[k], foods, target)
    decreases |menus|
  {
    if menus != [] {
      var init := menus[..|menus| - 1];
      CandidatesLast(menus, foods, meal, target);
      CandidatesAreMatchingMenus(init, foods, meal, target);
      var ms, msi := Matching(menus, meal), Matching(init, meal);
      var cs, csi := Candidates(menus, foods, meal, target).value, Candidates(init, foods, meal, target).value;
      forall k | 0 <= k < |ms|
        ensures FoodsKnown(ms[k].items, foods) && cs[k] == OptionFor(ms[k], foods, target)
      {
        if k < |msi| {
          assert ms[k] == msi[k] && cs[k] == csi[k];
        } else {
          assert ms[k] == menus[|menus| - 1];
        }
      }
    }
  }

  /** A successful collection is the one of the menus before the last,
      extended by the last menu's option when it matches. */
  lemma CandidatesLast(menus: seq<Menu>, foods: Foods, meal: string, target: Macro)
    requires menus != [] && Candidates(menus, foods, meal, target).Success?
    ensures var init, m := menus[..|menus| - 1], menus[|menus| - 1];
      Candidates(init, foods, meal, target).Success? &&
      Matching(menus, meal) == Matching(init, meal) + (if m.mealType == Some(meal) then [m] else []) &&
      (m.mealType == Some(meal) ==> FoodsKnown(m.items, foods)) &&
      Candidates(menus, foods, meal, target).value == Candidates(init, foods, meal, target).value
        + (if m.mealType == Some(meal) then [OptionFor(m, foods, target)] else [])
  {
  }

  method CollectOptions(menus: seq<Menu>, foods: Foods, meal: string, target: Macro) returns (r: Result<seq<MenuOption>, PlanError>)
    ensures r == Candidates(menus, foods, meal, target)
  {
    var options: seq<MenuOption> := [];
    var i := 0;
    while i < |menus|
      invariant 0 <= i <= |menus|
      invariant Candidates(menus[..i], foods, meal, target) == Success(options)
    {
      assert menus[..i + 1][..i] == menus[..i];
      var m := menus[i];
      if m.mealType == Some(meal) {
        if !FoodsKnown(m.items, foods) {
          assert Candidates(menus[..i + 1], foods, meal, target) == Failure(UnknownFood(m.menuId));
          CandidatesFailureSticks(menus, foods, meal, target, i + 1);
          return Failure(UnknownFood(m.menuId));
        }
        var scaled := ScaleMenuToTargets(m, foods, target);
        options := options + [MenuOption(m.menuId, m.menuName, scaled.items, scaled.debug.achieved, scaled.debug.errors, ErrorScore(scaled.debug.errors))];
      }
      i := i + 1;
    }
    assert menus[..|menus|] == menus;
    return Success(options);
  }

  /** Once the loop has failed, the later menus do not change the outcome. */
  lemma {:induction false} CandidatesFailureSticks(menus: seq<Menu>, foods: Foods, meal: string, target: Macro, k: nat)
    requires k <= |menus|
    requires Candidates(menus[..k], foods, meal, target).Failure?
    ensures Candidates(menus, foods, meal, target) == Candidates(menus[..k], foods, meal, target)
    decreases |menus| - k
  {
    if k < |menus| {
      assert menus[..k + 1][..k] == menus[..k];
      CandidatesFailureSticks(menus, foods, meal, target, k + 1);
    } else {
      assert menus[..k] == menus;
    }
  }

  /** The options are in ascending order of score. */
  predicate SortedByScore(os: seq<MenuOption>)
  {
    forall i, j :: 0 <= i < j < |os| ==> os[i].score <= os[j].score
  }

  /** Inserts an option after every option whose score is not larger, so
      that options with equal scores keep their order. */
  function InsertByScore(x: MenuOption, os: seq<MenuOption>): (r: seq<MenuOption>)
    requires SortedByScore(os)
    ensures SortedByScore(r)
    ensures multiset(r) == multiset(os) + multiset{x}
  {
    if os == [] then [x]
    else if x.score < os[0].score then
      SortedCons(x, os);
      [x] + os
    else
      var rest := InsertByScore(x, os[1..]);
      assert os == [os[0]] + os[1..];
      ScoresAbove(os[0].score, x, os[1..], rest);
      SortedCons(os[0], rest);
      [os[0]] + rest
  }

  /** An option that scores no more than a sorted list's options heads it
      sorted. */
  lemma SortedCons(h: MenuOption, t: seq<MenuOption>)
    requires SortedByScore(t)
    requires t != [] ==> h.score <= t[0].score
    ensures SortedByScore([h] + t)
  {
    var r := [h] + t;
    forall i, j | 0 <= i < j < |r|
      ensures r[i].score <= r[j].score
    {
      if i == 0 {
        assert r[j] == t[j - 1];
        if j > 1 { assert t[0].score <= t[j - 1].score; }
      } else {
        assert r[i] == t[i - 1] && r[j] == t[j - 1];
      }
    }
  }

  /** Every option of a rearrangement of `tail` and `x` scores at least `lo`
      when they all do. */
  lemma ScoresAbove(lo: real, x: MenuOption, tail: seq<MenuOption>, rest: seq<MenuOption>)
    requires multiset(rest) == multiset(tail) + multiset{x}
    requires lo <= x.score && forall k :: 0 <= k < |tail| ==> lo <= tail[k].score
    ensures forall k :: 0 <= k < |rest| ==> lo <= rest[k].score
  {
    forall k | 0 <= k < |rest|
      ensures lo <= rest[k].score
    {
      assert rest[k] in multiset(rest);
      if rest[k] != x {
        assert rest[k] in multiset(tail);
        var j :| 0 <= j < |tail| && tail[j] == rest[k];
      }
    }
  }

  /** `options.sort(key=lambda x: x["score"])`, a stable sort. */
  function SortByScore(os: seq<MenuOption>): (r: seq<MenuOption>)
    ensures SortedByScore(r)
    ensures multiset(r) == multiset(os)
  {
    if os == [] then []
    else
      assert os == os[..|os| - 1] + [os[|os| - 1]];
      InsertByScore(os[|os| - 1], SortByScore(os[..|os| - 1]))
  }

  /** `options[:top_n]` when `top_n` is given, with Python's slice bounds
      (a negative bound counts from the end); all options otherwise. */
  function Take(os: seq<MenuOption>, topN: Option<int>): (r: seq<MenuOption>)
    ensures |r| <= |os| && r == os[..|r|]
    ensures topN.None? ==> r == os
    ensures topN.Some? && topN.value >= 0 ==> |r| == if topN.value < |os| then topN.value else |os|
    ensures topN.Some? && topN.value < 0 ==> |r| == if |os| + topN.value > 0 then |os| + topN.value else 0
  {
    match topN
    case None => os
    case Some(n) =>
      if n >= 0 then (if n < |os| then os[..n] else os)
      else if |os| + n > 0 then os[..|os| + n] else []
  }

  /** The options of one meal: sorted candidates, cut to `top_n`. */
  function MealOptionsFor(menus: seq<Menu>, foods: Foods, meal: string, target: Macro, topN: Option<int>): Result<MealOptions, PlanError>
  {
    match Candidates(menus, foods, meal, target)
    case Failure(e) => Failure(e)
    case Success(os) => Success(MealOptions(target, Take(SortByScore(os), topN)))
  }

  /** The outer loop, over the meals of the scheme (the keys of `targets`,
      which are those of `DISTS[scheme]` in the same order). */
  function AllMealOptions(menus: seq<Menu>, foods: Foods, targets: seq<(string, Macro)>, topN: Option<int>): Result<seq<(string, MealOptions)>, PlanError>
  {
    if targets == [] then Success([])
    else
      match AllMealOptions(menus, foods, targets[..|targets| - 1], topN)
      case Failure(e) => Failure(e)
      case Success(out) =>
        var (meal, target) := targets[|targets| - 1];
        match MealOptionsFor(menus, foods, meal, target, topN)
        case Failure(e) => Failure(e)
        case Success(mo) => Success(out + [(meal, mo)])
  }

  /** What `generate_all_options` returns. */
  function AllOptions(foods: Foods, menus: seq<Menu>, totals: Macro, scheme: string, topN: Option<int>): Result<seq<(string, MealOptions)>, PlanError>
  {
    match PerMealTargets(totals.kcal, totals.proteinG, totals.carbG, totals.fatG, scheme)
    case None => Failure(UnknownScheme(scheme))
    case Some(targets) => AllMealOptions(menus, foods, targets, topN)
  }

  /** The body of the loop over meals: collect, sort, cut. */
  method OptionsForMeal(menus: seq<Menu>, foods: Foods, meal: string, target: Macro, topN: Option<int>)
    returns (r: Result<MealOptions, PlanError>)
    ensures r == MealOptionsFor(menus, foods, meal, target, topN)
  {
    var collected := CollectOptions(menus, foods, meal, target);
    if collected.Failure? {
      return Failure(collected.error);
    }
    var options := SortByScore(collected.value);
    if topN.Some? {
      options := Take(options, topN);
    }
    return Success(MealOptions(target, options));
  }

  /** `generate_all_options`. */
  method GenerateAllOptions(foods: Foods, menus: seq<Menu>, totals: Macro, scheme: string, topN: Option<int>)
    returns (r: Result<seq<(string, MealOptions)>, PlanError>)
    ensures r == AllOptions(foods, menus, totals, scheme, topN)
  {
    var targetsOpt := PerMealTargets(totals.kcal, totals.proteinG, totals.carbG, totals.fatG, scheme);
    if targetsOpt.None? {
      return Failure(UnknownScheme(scheme));
    }
    var targets := targetsOpt.value;
    var out: seq<(string, MealOptions)> := [];
    var i := 0;
    while i < |targets|
      invariant 0 <= i <= |targets|
      invariant AllMealOptions(menus, foods, targets[..i], topN) == Success(out)
    {
      AllMealOptionsStep(menus, foods, targets, topN, i);
      var (meal, target) := targets[i];
      var mo := OptionsForMeal(menus, foods, meal, target, topN);
      if mo.Failure? {
        AllMealOptionsFailureSticks(menus, foods, targets, topN, i + 1);
        return Failure(mo.error);
      }
      out := out + [(meal, mo.value)];
      i := i + 1;
    }
    assert targets[..|targets|] == targets;
    return Success(out);
  }

  lemma AllMealOptionsStep(menus: seq<Menu>, foods: Foods, targets: seq<(string, Macro)>, topN: Option<int>, i: nat)
    requires i < |targets|
    ensures var prev := AllMealOptions(menus, foods, targets[..i], topN);
      var mo := MealOptionsFor(menus, foods, targets[i].0, targets[i].1, topN);
      AllMealOptions(menus, foods, targets[..i + 1], topN) ==
        if prev.Failure? then prev
        else if mo.Failure? then Failure(mo.error)
        else Success(prev.value + [(targets[i].0, mo.value)])
  {
    assert targets[..i + 1][..i] == targets[..i];
  }

  lemma {:induction false} AllMealOptionsFailureSticks(menus: seq<Menu>, foods: Foods, targets: seq<(string, Macro)>, topN: Option<int>, k: nat)
    requires k <= |targets|
    requires AllMealOptions(menus, foods, targets[..k], topN).Failure?
    ensures AllMealOptions(menus, foods, targets, topN) == AllMealOptions(menus, foods, targets[..k], topN)
    decreases |targets| - k
  {
    if k < |targets| {
      assert targets[..k + 1][..k] == targets[..k];
      AllMealOptionsFailureSticks(menus, foods, targets, topN, k + 1);
    } else {
      assert targets[..k] == targets;
    }
  }

  /** A successful run of the loop over meals has one entry per meal, in
      order, each that meal's options. */
  lemma {:induction false} AllMealOptionsEntries(menus: seq<Menu>, foods: Foods, targets: seq<(string, Macro)>, topN: Option<int>)
    requires AllMealOptions(menus, foods, targets, topN).Success?
    ensures |AllMealOptions(menus, foods, targets, topN).value| == |targets|
    ensures forall i :: 0 <= i < |targets| ==>
      AllMealOptions(menus, foods, targets, topN).value[i].0 == targets[i].0 &&
      MealOptionsFor(menus, foods, targets[i].0, targets[i].1, topN) == Success(AllMealOptions(menus, foods, targets, topN).value[i].1)
    decreases |targets|
  {
    if targets != [] {
      var n := |targets| - 1;
      var init := targets[..n];
      var prev := AllMealOptions(menus, foods, init, topN);
      var mo := MealOptionsFor(menus, foods, targets[n].0, targets[n].1, topN);
      assert prev.Success? && mo.Success?;
      AllMealOptionsEntries(menus, foods, init, topN);
      var out := AllMealOptions(menus, foods, targets, topN).value;
      assert out == prev.value + [(targets[n].0, mo.value)];
      forall i | 0 <= i < |targets|
        ensures out[i].0 == targets[i].0
        ensures MealOptionsFor(menus, foods, targets[i].0, targets[i].1, topN) == Success(out[i].1)
      {
        if i < n { assert init[i] == targets[i]; }
      }
    }
  }

  /** Sorting then cutting keeps options of the list only, in score order,
      at most `top_n` of them, and all of them without a `top_n`. */
  lemma SortedPrefix(os: seq<MenuOption>, topN: Option<int>)
    ensures var taken := Take(SortByScore(os), topN);
      SortedByScore(taken) &&
      (topN.Some? && topN.value >= 0 ==> |taken| <= topN.value) &&
      (topN.None? ==> |taken| == |os|) &&
      forall k :: 0 <= k < |taken| ==> taken[k] in os
  {
    var sorted := SortByScore(os);
    var taken := Take(sorted, topN);
    assert |sorted| == |os| by {
      assert |multiset(sorted)| == |multiset(os)|;
    }
    forall k | 0 <= k < |taken|
      ensures taken[k] in os
    {
      assert taken[k] == sorted[k];
      assert sorted[k] in multiset(os);
    }
  }

  /** The options of a meal come from menus of that meal, have non-negative
      scores, are in ascending order of score and number at most `top_n`
      (all the matching menus when no `top_n` is given). */
  lemma MealOptionsProperties(menus: seq<Menu>, foods: Foods, meal: string, target: Macro, topN: Option<int>)
    requires MealOptionsFor(menus, foods, meal, target, topN).Success?
    ensures var mo := MealOptionsFor(menus, foods, meal, target, topN).value;
      mo.target == target && SortedByScore(mo.options) &&
      (topN.Some? && topN.value >= 0 ==> |mo.options| <= topN.value) &&
      (topN.None? ==> |mo.options| == |Matching(menus, meal)|)
    ensures var mo := MealOptionsFor(menus, foods, meal, target, topN).value;
      forall k :: 0 <= k < |mo.options| ==>
        mo.options[k].score >= 0.0 &&
        exists j :: 0 <= j < |menus| && menus[j].menuId == mo.options[k].menuId && menus[j].mealType == Some(meal)
  {
    var os := Candidates(menus, foods, meal, target).value;
    CandidatesFromMenus(menus, foods, meal, target);
    SortedPrefix(os, topN);
    var taken := MealOptionsFor(menus, foods, meal, target, topN).value.options;
    assert taken == Take(SortByScore(os), topN);
    forall k | 0 <= k < |taken|
      ensures taken[k].score >= 0.0
      ensures exists j :: 0 <= j < |menus| && menus[j].menuId == taken[k].menuId && menus[j].mealType == Some(meal)
    {
      var l :| 0 <= l < |os| && os[l] == taken[k];
    }
  }

  /** Each candidate comes from a menu of the meal and scores at least 0. */
  lemma CandidatesFromMenus(menus: seq<Menu>, foods: Foods, meal: string, target: Macro)
    requires Candidates(menus, foods, meal, target).Success?
    ensures |Candidates(menus, foods, meal, target).value| == |Matching(menus, meal)|
    ensures var os := Candidates(menus, foods, meal, target).value;
      forall l :: 0 <= l < |os| ==>
        os[l].score >= 0.0 &&
        exists j :: 0 <= j < |menus| && menus[j].menuId == os[l].menuId && menus[j].mealType == Some(meal)
  {
    var os := Candidates(menus, foods, meal, target).value;
    var ms := Matching(menus, meal);
    CandidatesAreMatchingMenus(menus, foods, meal, target);
    forall l | 0 <= l < |os|
      ensures os[l].score >= 0.0
      ensures exists j :: 0 <= j < |menus| && menus[j].menuId == os[l].menuId && menus[j].mealType == Some(meal)
    {
      assert os[l] == OptionFor(ms[l], foods, target);
      var j :| 0 <= j < |menus| && menus[j] == ms[l];
    }
  }

  /** `generate_all_options` answers with one entry per meal of the scheme, in
      the scheme's order, each holding that meal's target and options that
      come only from menus of that meal, sorted by their non-negative score
      and at most `top_n` of them. */
  lemma AllOptionsPerMeal(foods: Foods, menus: seq<Menu>, totals: Macro, scheme: string, topN: Option<int>)
    requires AllOptions(foods, menus, totals, scheme, topN).Success?
    ensures Dist(scheme).Some?
    ensures var r := AllOptions(foods, menus, totals, scheme, topN).value;
      |r| == |Dist(scheme).value| &&
      forall i :: 0 <= i < |r| ==>
        r[i].0 == Dist(scheme).value[i].meal &&
        SortedByScore(r[i].1.options) &&
        (topN.Some? && topN.value >= 0 ==> |r[i].1.options| <= topN.value) &&
        forall k :: 0 <= k < |r[i].1.options| ==>
          r[i].1.options[k].score >= 0.0 &&
          exists j :: 0 <= j < |menus| && menus[j].menuId == r[i].1.options[k].menuId && menus[j].mealType == Some(r[i].0)
  {
    var targets := PerMealTargets(totals.kcal, totals.proteinG, totals.carbG, totals.fatG, scheme).value;
    AllMealOptionsEntries(menus, foods, targets, topN);
    var r := AllOptions(foods, menus, totals, scheme, topN).value;
    var d := Dist(scheme).value;
    assert |r| == |d|;
    forall i | 0 <= i < |r|
      ensures r[i].0 == d[i].meal &&
        SortedByScore(r[i].1.options) &&
        (topN.Some? && topN.value >= 0 ==> |r[i].1.options| <= topN.value) &&
        forall k :: 0 <= k < |r[i].1.options| ==>
          r[i].1.options[k].score >= 0.0 &&
          exists j :: 0 <= j < |menus| && menus[j].menuId == r[i].1.options[k].menuId && menus[j].mealType == Some(r[i].0)
    {
      MealOptionsProperties(menus, foods, targets[i].0, targets[i].1, topN);
      assert r[i].0 == targets[i].0 == d[i].meal;
      assert r[i].1 == MealOptionsFor(menus, foods, targets[i].0, targets[i].1, topN).value;
    }
  }

  /** The loop over meals succeeds when every meal's options can be built. */
  lemma {:induction false} AllMealOptionsSucceed(menus: seq<Menu>, foods: Foods, targets: seq<(string, Macro)>, topN: Option<int>)
    requires forall i :: 0 <= i < |targets| ==> MealOptionsFor(menus, foods, targets[i].0, targets[i].1, topN).Success?
    ensures AllMealOptions(menus, foods, targets, topN).Success?
    decreases |targets|
  {
    if targets != [] {
      var n := |targets| - 1;
      var init := targets[..n];
      assert forall i :: 0 <= i < n ==> init[i] == targets[i];
      AllMealOptionsSucceed(menus, foods, init, topN);
      assert MealOptionsFor(menus, foods, targets[n].0, targets[n].1, topN).Success?;
    }
  }

  /** When every menu's foods are in the table, the options of any meal can
      be built. */
  lemma MealOptionsWithKnownFoods(menus: seq<Menu>, foods: Foods, meal: string, target: Macro, topN: Option<int>)
    requires forall j :: 0 <= j < |menus| ==> FoodsKnown(menus[j].items, foods)
    ensures MealOptionsFor(menus, foods, meal, target, topN).Success?
  {
    CandidatesSucceedIff(menus, foods, meal, target);
    var ms := Matching(menus, meal);
    forall k | 0 <= k < |ms|
      ensures FoodsKnown(ms[k].items, foods)
    {
      var j :| 0 <= j < |menus| && menus[j] == ms[k];
    }
  }
}
