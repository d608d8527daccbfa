/** The `/plan` router of `routers/plan.py`: cleaning the foods table's column
    names, validating a selection or the whole menu base against the foods
    table, the request constraints, and the kcal-consistency audit. */
module PlanRouter {
  import opened Wrappers
  import opened Text
  import opened Rounding
  import opened MenuGenerator

  // ---------------------------------------------------------------------------
  // Column names
  // ---------------------------------------------------------------------------

  /** The byte-order mark a spreadsheet may leave in front of the first header. */
  const Bom: char := '\U{FEFF}'

  /** `s.replace("\ufeff", "")`. */
  function RemoveBom(s: string): (r: string)
    ensures forall i :: 0 <= i < |r| ==> r[i] != Bom
    ensures (forall i :: 0 <= i < |s| ==> s[i] != Bom) ==> r == s
  {
    if s == [] then [] else (if s[0] == Bom then [] else [s[0]]) + RemoveBom(s[1..])
  }

  /** A column name or food id as `_load_foods` cleans it: marks removed, then
      surrounding whitespace stripped. */
  function CleanName(c: string): (r: string)
  {
    Strip(RemoveBom(c))
  }

  /** Stripping keeps a contiguous slice of the text. */
  lemma StripIsSlice(s: string)
    ensures exists a: nat, b: nat :: a <= b <= |s| && Strip(s) == s[a..b]
  {
    var l := StripLeft(s);
    var r := StripRight(l);
    var a := |s| - |l|;
    assert l == s[a..];
    assert r == l[..|r|] == s[a..a + |r|];
  }

  /** A cleaned name holds no mark and no surrounding whitespace, and cleaning
      it again changes nothing. */
  lemma CleanNameIsClean(c: string)
    ensures var r := CleanName(c);
      (forall i :: 0 <= i < |r| ==> r[i] != Bom) &&
      (r == [] || (!IsSpace(r[0]) && !IsSpace(r[|r| - 1]))) &&
      CleanName(r) == r
  {
    var t := RemoveBom(c);
    var r := Strip(t);
    StripKeepsAbsent(t, Bom);
    assert RemoveBom(r) == r;
    StripIdempotent(t);
  }

  /** Why a request is refused: 400 for missing menus or foods, 500 for a
      foods table without a `food_id` column, 400 for an exception of a
      generator, 422 for a request body that breaks a field constraint. */
  datatype HttpError =
    | MissingInFoods(missing: seq<Missing>)
    | NoFoodIdColumn
    | GeneratorFailed(error: PlanError)
    | InvalidFields(fields: seq<string>)

  function Status(e: HttpError): int
  {
    match e
    case MissingInFoods(_) => 400
    case NoFoodIdColumn => 500
    case GeneratorFailed(_) => 400
    case InvalidFields(_) => 422
  }

  /** The column cleanup of `_load_foods` and its `food_id` check. */
  function LoadColumns(columns: seq<string>): (r: Result<seq<string>, HttpError>)
    ensures r.Success? <==> exists i :: 0 <= i < |columns| && CleanName(columns[i]) == "food_id"
    ensures r.Failure? ==> r.error == NoFoodIdColumn && Status(r.error) == 500
    ensures r.Success? ==> |r.value| == |columns|
    ensures r.Success? ==> forall i :: 0 <= i < |columns| ==> r.value[i] == CleanName(columns[i])
  {
    var cleaned := CleanColumns(columns);
    if "food_id" in cleaned then Success(cleaned) else Failure(NoFoodIdColumn)
  }

  function CleanColumns(columns: seq<string>): (r: seq<string>)
    ensures |r| == |columns|
    ensures forall i :: 0 <= i < |columns| ==> r[i] == CleanName(columns[i])
  {
    seq(|columns|, i requires 0 <= i < |columns| => CleanName(columns[i]))
  }

  /** A header written with a mark and padding is still found. */
  lemma MarkedHeaderFound()
    ensures LoadColumns(["\U{FEFF} food_id ", "name"]).Success?
  {
    var c := "\U{FEFF} food_id ";
    MarkedHeaderCleans();
    assert CleanColumns(["\U{FEFF} food_id ", "name"])[0] == "food_id";
  }

  lemma MarkedHeaderCleans()
    ensures CleanName("\U{FEFF} food_id ") == "food_id"
  {
    MarkRemoved();
    PaddingStripped();
  }

  lemma MarkRemoved()
    ensures RemoveBom("\U{FEFF} food_id ") == " food_id "
  {
    var c := "\U{FEFF} food_id ";
    assert c[0] == Bom && c[1..] == " food_id ";
    assert forall i :: 0 <= i < |" food_id "| ==> " food_id "[i] != Bom;
  }

  lemma PaddingStripped()
    ensures Strip(" food_id ") == "food_id"
  {
    FoodIdPadding(" food_id ", "food_id");
  }

  lemma FoodIdPadding(x: string, w: string)
    requires x == " food_id " && w == "food_id"
    ensures Strip(x) == w
  {
    assert x == " " + w + " ";
    LetterIsNotSpace(w[0]);
    LetterIsNotSpace(w[|w| - 1]);
    StripOneBlank(w);
  }

  // ---------------------------------------------------------------------------
  // _validate_selection
  // ---------------------------------------------------------------------------

  /** An entry of the `missing` list. */
  datatype Missing =
    | MissingMenu(menuId: string)
    | MissingFood(foodId: string, meal: string, menuId: string)
    | MissingMenuFood(menuId: string, foodId: string)

  /** `{m["menu_id"]: m for m in menus}`: a later menu with the same id
      replaces an earlier one. */
  function MenuMap(menus: seq<Menu>): (mm: map<string, Menu>)
    ensures forall id :: id in mm <==> exists j :: 0 <= j < |menus| && menus[j].menuId == id
  {
    if menus == [] then map[]
    else
      var init := menus[..|menus| - 1];
      assert forall j :: 0 <= j < |init| ==> init[j] == menus[j];
      MenuMap(init)[menus[|menus| - 1].menuId := menus[|menus| - 1]]
  }

  /** The map holds, for each id, the last menu with that id. */
  lemma {:induction false} MenuMapLastWins(menus: seq<Menu>, j: nat)
    requires j < |menus|
    requires forall l :: j < l < |menus| ==> menus[l].menuId != menus[j].menuId
    ensures MenuMap(menus)[menus[j].menuId] == menus[j]
    decreases |menus|
  {
    if j < |menus| - 1 {
      var init := menus[..|menus| - 1];
      assert init[j] == menus[j];
      MenuMapLastWins(init, j);
    }
  }

  /** The entries the inner loop adds for one selected menu. */
  function ItemsMissing(items: seq<MenuItem>, foods: Foods, meal: string, menuId: string): (ms: seq<Missing>)
    ensures |ms| <= |items|
  {
    if items == [] then []
    else
      var it := items[|items| - 1];
      ItemsMissing(items[..|items| - 1], foods, meal, menuId) + (if it.foodId in foods then [] else [MissingFood(it.foodId, meal, menuId)])
  }

  /** The inner loop adds nothing exactly when every food of the menu is known. */
  lemma {:induction false} ItemsMissingEmptyIff(items: seq<MenuItem>, foods: Foods, meal: string, menuId: string)
    ensures ItemsMissing(items, foods, meal, menuId) == [] <==> FoodsKnown(items, foods)
    decreases |items|
  {
    if items != [] {
      var init := items[..|items| - 1];
      ItemsMissingEmptyIff(init, foods, meal, menuId);
      assert forall i :: 0 <= i < |init| ==> init[i] == items[i];
    }
  }

  /** The entries one `(meal, menu_id)` pair adds: one for an unknown menu
      (whose items are not looked at), one per unknown food otherwise. */
  function PairMissing(meal: string, menuId: string, menuMap: map<string, Menu>, foods: Foods): seq<Missing>
  {
    if menuId !in menuMap then [MissingMenu(menuId)]
    else ItemsMissing(menuMap[menuId].items, foods, meal, menuId)
  }

  /** The `missing` list after the loop over `selection.items()`. */
  function SelectionMissing(selection: seq<(string, string)>, menuMap: map<string, Menu>, foods: Foods): seq<Missing>
  {
    if selection == [] then []
    else
      var (meal, menuId) := selection[|selection| - 1];
      SelectionMissing(selection[..|selection| - 1], menuMap, foods) + PairMissing(meal, menuId, menuMap, foods)
  }

  /** `_validate_selection`: `None` when it returns, the 400 error it raises
      otherwise. */
  method ValidateSelection(selection: seq<(string, string)>, menus: seq<Menu>, foods: Foods) returns (r: Option<HttpError>)
    ensures var missing := SelectionMissing(selection, MenuMap(menus), foods);
      r == if missing == [] then None else Some(MissingInFoods(missing))
  {
    var menuMap := MenuMap(menus);
    var missing: seq<Missing> := [];
    for i := 0 to |selection|
      invariant missing == SelectionMissing(selection[..i], menuMap, foods)
    {
      SelectionMissingStep(selection, i, menuMap, foods);
      var (meal, menuId) := selection[i];
      if menuId !in menuMap {
        missing := missing + [MissingMenu(menuId)];
      } else {
        missing := AddItemsMissing(missing, menuMap[menuId].items, foods, meal, menuId);
      }
    }
    assert selection[..|selection|] == selection;
    if missing != [] {
      return Some(MissingInFoods(missing));
    }
    return None;
  }

  /** The inner loop of `_validate_selection` over the items of one menu. */
  method AddItemsMissing(missing0: seq<Missing>, items: seq<MenuItem>, foods: Foods, meal: string, menuId: string)
    returns (missing: seq<Missing>)
    ensures missing == missing0 + ItemsMissing(items, foods, meal, menuId)
  {
    missing := missing0;
    for j := 0 to |items|
      invariant missing == missing0 + ItemsMissing(items[..j], foods, meal, menuId)
    {
      assert items[..j + 1][..j] == items[..j];
      if items[j].foodId !in foods {
        missing := missing + [MissingFood(items[j].foodId, meal, menuId)];
      }
    }
    assert items[..|items|] == items;
  }

  /** One more selected pair appends its own entries. */
  lemma SelectionMissingStep(selection: seq<(string, string)>, i: nat, menuMap: map<string, Menu>, foods: Foods)
    requires i < |selection|
    ensures SelectionMissing(selection[..i + 1], menuMap, foods)
         == SelectionMissing(selection[..i], menuMap, foods) + PairMissing(selection[i].0, selection[i].1, menuMap, foods)
  {
    assert selection[..i + 1][..i] == selection[..i];
  }

  /** The selection is refused exactly when a selected menu id is unknown, or
      the menu the map holds for it names a food the table lacks. */
  lemma {:induction false} SelectionRefusedIff(selection: seq<(string, string)>, menuMap: map<string, Menu>, foods: Foods)
    ensures SelectionMissing(selection, menuMap, foods) != [] <==>
      exists i :: 0 <= i < |selection| &&
        (selection[i].1 !in menuMap || !FoodsKnown(menuMap[selection[i].1].items, foods))
    decreases |selection|
  {
    if selection != [] {
      var n := |selection| - 1;
      var init := selection[..n];
      SelectionRefusedIff(init, menuMap, foods);
      assert forall i :: 0 <= i < n ==> init[i] == selection[i];
      var (meal, menuId) := selection[n];
      if menuId in menuMap {
        ItemsMissingEmptyIff(menuMap[menuId].items, foods, meal, menuId);
      }
    }
  }

  /** The missing list of a selection is the lists of its parts, one after
      the other. */
  lemma {:induction false} SelectionMissingAppend(a: seq<(string, string)>, b: seq<(string, string)>, menuMap: map<string, Menu>, foods: Foods)
    ensures SelectionMissing(a + b, menuMap, foods) == SelectionMissing(a, menuMap, foods) + SelectionMissing(b, menuMap, foods)
    decreases |b|
  {
    if b != [] {
      var init, last := b[..|b| - 1], b[|b| - 1];
      assert b == init + [last];
      assert a + b == (a + init) + [last];
      SelectionMissingAppend(a, init, menuMap, foods);
      SelectionMissingSnoc(a + init, last, menuMap, foods);
      SelectionMissingSnoc(init, last, menuMap, foods);
      MissingAssoc(SelectionMissing(a, menuMap, foods), SelectionMissing(init, menuMap, foods),
                   PairMissing(last.0, last.1, menuMap, foods));
    } else {
      assert a + b == a;
    }
  }

  lemma MissingAssoc(x: seq<Missing>, y: seq<Missing>, z: seq<Missing>)
    ensures (x + y) + z == x + (y + z)
  {
  }

  /** One more selected pair adds its own entries at the end. */
  lemma SelectionMissingSnoc(s: seq<(string, string)>, p: (string, string), menuMap: map<string, Menu>, foods: Foods)
    ensures SelectionMissing(s + [p], menuMap, foods) == SelectionMissing(s, menuMap, foods) + PairMissing(p.0, p.1, menuMap, foods)
  {
    assert (s + [p])[..|s|] == s;
  }

  /** An unknown menu id adds exactly one entry, at its place in the list. */
  lemma UnknownMenuAddsOneEntry(selection: seq<(string, string)>, menuMap: map<string, Menu>, foods: Foods, i: nat)
    requires i < |selection| && selection[i].1 !in menuMap
    ensures SelectionMissing(selection, menuMap, foods) ==
      SelectionMissing(selection[..i], menuMap, foods) + [MissingMenu(selection[i].1)] + SelectionMissing(selection[i + 1..], menuMap, foods)
  {
    assert selection == selection[..i] + [selection[i]] + selection[i + 1..];
    SelectionMissingAppend(selection[..i] + [selection[i]], selection[i + 1..], menuMap, foods);
    SelectionMissingAppend(selection[..i], [selection[i]], menuMap, foods);
    assert [selection[i]][..0] == [];
  }

  // ---------------------------------------------------------------------------
  // _validate_menus_foods
  // ---------------------------------------------------------------------------

  /** The entries the inner loop adds for one menu. */
  function MenuFoodsMissing(menuId: string, items: seq<MenuItem>, foods: Foods): seq<Missing>
  {
    if items == [] then []
    else
      var it := items[|items| - 1];
      MenuFoodsMissing(menuId, items[..|items| - 1], foods) + (if it.foodId in foods then [] else [MissingMenuFood(menuId, it.foodId)])
  }

  /** The `missing` list of `_validate_menus_foods`. */
  function MenusMissing(menus: seq<Menu>, foods: Foods): seq<Missing>
  {
    if menus == [] then []
    else
      var m := menus[|menus| - 1];
      MenusMissing(menus[..|menus| - 1], foods) + MenuFoodsMissing(m.menuId, m.items, foods)
  }

  /** `_validate_menus_foods`. */
  method ValidateMenusFoods(menus: seq<Menu>, foods: Foods) returns (r: Option<HttpError>)
    ensures var missing := MenusMissing(menus, foods);
      r == if missing == [] then None else Some(MissingInFoods(missing))
  {
    var missing: seq<Missing> := [];
    for i := 0 to |menus|
      invariant missing == MenusMissing(menus[..i], foods)
    {
      assert menus[..i + 1][..i] == menus[..i];
      var m := menus[i];
      for j := 0 to |m.items|
        invariant missing == MenusMissing(menus[..i], foods) + MenuFoodsMissing(m.menuId, m.items[..j], foods)
      {
        assert m.items[..j + 1][..j] == m.items[..j];
        if m.items[j].foodId !in foods {
          missing := missing + [MissingMenuFood(m.menuId, m.items[j].foodId)];
        }
      }
      assert m.items[..|m.items|] == m.items;
    }
    assert menus[..|menus|] == menus;
    if missing != [] {
      return Some(MissingInFoods(missing));
    }
    return None;
  }

  lemma {:induction false} MenuFoodsMissingEmptyIff(menuId: string, items: seq<MenuItem>, foods: Foods)
    ensures MenuFoodsMissing(menuId, items, foods) == [] <==> FoodsKnown(items, foods)
    decreases |items|
  {
    if items != [] {
      var init := items[..|items| - 1];
      MenuFoodsMissingEmptyIff(menuId, init, foods);
      assert forall i :: 0 <= i < |init| ==> init[i] == items[i];
    }
  }

  /** The menu base is refused exactly when some item of some menu names a
      food the table lacks. */
  lemma {:induction false} MenusRefusedIff(menus: seq<Menu>, foods: Foods)
    ensures MenusMissing(menus, foods) == [] <==> forall j :: 0 <= j < |menus| ==> FoodsKnown(menus[j].items, foods)
    decreases |menus|
  {
    if menus != [] {
      var n := |menus| - 1;
      var init := menus[..n];
      MenusRefusedIff(init, foods);
      assert forall j :: 0 <= j < n ==> init[j] == menus[j];
      MenuFoodsMissingEmptyIff(menus[n].menuId, menus[n].items, foods);
    }
  }

  // ---------------------------------------------------------------------------
  // Requests and endpoints
  // ---------------------------------------------------------------------------

  /** The field named when its constraint fails, nothing when it holds. */
  function Refused(ok: bool, field: string): (r: seq<string>)
    ensures r == [] <==> ok
    ensures forall x :: x in r ==> x == field
  {
    if ok then [] else [field]
  }

  /** The field constraints of `Totals` and `GenerateAllRequest`: the fields
      that break theirs, in declaration order. */
  function FieldErrors(totals: Macro, topN: Option<int>): (fields: seq<string>)
    ensures fields == [] <==>
      totals.kcal > 0.0 && totals.proteinG >= 0.0 && totals.carbG >= 0.0 && totals.fatG >= 0.0 &&
      (topN.Some? ==> topN.value >= 1)
    ensures forall x :: x in fields ==> x in {"kcal", "protein_g", "carb_g", "fat_g", "top_n"}
  {
    Refused(totals.kcal > 0.0, "kcal")
    + Refused(totals.proteinG >= 0.0, "protein_g")
    + Refused(totals.carbG >= 0.0, "carb_g")
    + Refused(totals.fatG >= 0.0, "fat_g")
    + Refused(topN.None? || topN.value >= 1, "top_n")
  }

  /** `/plan/generate` after the bases are loaded: validate the selection,
      then build the day plan; a generator exception becomes a 400. */
  function Generate(foods: Foods, menus: seq<Menu>, totals: Macro, scheme: string, selection: seq<(string, string)>): Result<seq<(string, MealPlan)>, HttpError>
  {
    if FieldErrors(totals, None) != [] then Failure(InvalidFields(FieldErrors(totals, None)))
    else
      var missing := SelectionMissing(selection, MenuMap(menus), foods);
      if missing != [] then Failure(MissingInFoods(missing))
      else match DayPlan(foods, menus, totals, scheme, selection)
        case Failure(e) => Failure(GeneratorFailed(e))
        case Success(plan) => Success(plan)
  }

  /** `/plan/generate_all` after the bases are loaded: validate every menu,
      then build the options. */
  function GenerateAll(foods: Foods, menus: seq<Menu>, totals: Macro, scheme: string, topN: Option<int>): Result<seq<(string, MealOptions)>, HttpError>
  {
    if FieldErrors(totals, topN) != [] then Failure(InvalidFields(FieldErrors(totals, topN)))
    else
      var missing := MenusMissing(menus, foods);
      if missing != [] then Failure(MissingInFoods(missing))
      else match AllOptions(foods, menus, totals, scheme, topN)
        case Failure(e) => Failure(GeneratorFailed(e))
        case Success(plan) => Success(plan)
  }

  /** Once the menu base is validated, building the options can only fail on
      an unknown scheme. */
  lemma GenerateAllFailsOnlyOnScheme(foods: Foods, menus: seq<Menu>, totals: Macro, scheme: string, topN: Option<int>)
    requires FieldErrors(totals, topN) == [] && MenusMissing(menus, foods) == []
    ensures GenerateAll(foods, menus, totals, scheme, topN).Success? <==> Dist(scheme).Some?
    ensures Dist(scheme).None? ==>
      GenerateAll(foods, menus, totals, scheme, topN) == Failure(GeneratorFailed(UnknownScheme(scheme)))
  {
    MenusRefusedIff(menus, foods);
    var t := PerMealTargets(totals.kcal, totals.proteinG, totals.carbG, totals.fatG, scheme);
    if t.Some? {
      var targets := t.value;
      forall i | 0 <= i < |targets|
        ensures MealOptionsFor(menus, foods, targets[i].0, targets[i].1, topN).Success?
      {
        MealOptionsWithKnownFoods(menus, foods, targets[i].0, targets[i].1, topN);
      }
      AllMealOptionsSucceed(menus, foods, targets, topN);
    }
  }

  /** Once the selection is validated and the menu ids are unique, the day
      plan can only fail on an unknown scheme or a meal outside it. */
  lemma ValidatedSelectionPlans(foods: Foods, menus: seq<Menu>, totals: Macro, scheme: string, selection: seq<(string, string)>)
    requires forall j, l :: 0 <= j < l < |menus| ==> menus[j].menuId != menus[l].menuId
    requires SelectionMissing(selection, MenuMap(menus), foods) == []
    ensures DayPlan(foods, menus, totals, scheme, selection).Failure? ==>
      DayPlan(foods, menus, totals, scheme, selection).error.UnknownScheme? ||
      DayPlan(foods, menus, totals, scheme, selection).error.UnknownMeal?
  {
    var mm := MenuMap(menus);
    SelectionRefusedIff(selection, mm, foods);
    var t := PerMealTargets(totals.kcal, totals.proteinG, totals.carbG, totals.fatG, scheme);
    if t.Some? {
      ValidatedMealsPlan(foods, menus, t.value, selection);
    }
  }

  lemma {:induction false} ValidatedMealsPlan(foods: Foods, menus: seq<Menu>, targets: seq<(string, Macro)>, selection: seq<(string, string)>)
    requires forall j, l :: 0 <= j < l < |menus| ==> menus[j].menuId != menus[l].menuId
    requires forall i :: 0 <= i < |selection| ==>
      selection[i].1 in MenuMap(menus) && FoodsKnown(MenuMap(menus)[selection[i].1].items, foods)
    ensures PlanMeals(foods, menus, targets, selection).Failure? ==>
      PlanMeals(foods, menus, targets, selection).error.UnknownMeal?
    decreases |selection|
  {
    if selection != [] {
      var n := |selection| - 1;
      var init := selection[..n];
      assert forall i :: 0 <= i < n ==> init[i] == selection[i];
      ValidatedMealsPlan(foods, menus, targets, init);
      ValidatedMealPlan(foods, menus, targets, selection[n].0, selection[n].1);
    }
  }

  /** One validated meal: its menu exists and its foods are known. */
  lemma ValidatedMealPlan(foods: Foods, menus: seq<Menu>, targets: seq<(string, Macro)>, meal: string, menuId: string)
    requires forall j, l :: 0 <= j < l < |menus| ==> menus[j].menuId != menus[l].menuId
    requires menuId in MenuMap(menus) && FoodsKnown(MenuMap(menus)[menuId].items, foods)
    ensures PlanMeal(foods, menus, targets, meal, menuId).Failure? ==>
      PlanMeal(foods, menus, targets, meal, menuId).error.UnknownMeal?
  {
    var j := FindMenu(menus, menuId).value;
    MenuMapLastWins(menus, j);
  }

  /** With two menus under one id, the check looks at the last and the plan
      uses the first: a selection that passes the check can still fail on a
      food the table lacks. */
  lemma DuplicateMenuIdSlipsThrough()
    ensures var foods := map["pan" := Food("Pan", Carb, 265.0, 9.0, 49.0, 3.2)];
      var menus := [Menu("d1", "Tostada", Some("desayuno"), [MenuItem("aceite", 10.0)]),
                    Menu("d1", "Pan", Some("desayuno"), [MenuItem("pan", 60.0)])];
      var selection := [("desayuno", "d1")];
      SelectionMissing(selection, MenuMap(menus), foods) == [] &&
      DayPlan(foods, menus, Macro(2000.0, 100.0, 250.0, 60.0), "3", selection) == Failure(UnknownFood("d1"))
  {
    var foods := map["pan" := Food("Pan", Carb, 265.0, 9.0, 49.0, 3.2)];
    var menus := [Menu("d1", "Tostada", Some("desayuno"), [MenuItem("aceite", 10.0)]),
                  Menu("d1", "Pan", Some("desayuno"), [MenuItem("pan", 60.0)])];
    var selection := [("desayuno", "d1")];
    assert MenuMap(menus)["d1"] == menus[1];
    assert ItemsMissing(menus[1].items, foods, "desayuno", "d1") == [];
    assert FindMenu(menus, "d1") == Some(0);
    assert "aceite" != "pan" && "aceite" !in foods;
    assert menus[0].items[0].foodId == "aceite";
    assert !FoodsKnown(menus[0].items, foods);
    var targets := PerMealTargets(2000.0, 100.0, 250.0, 60.0, "3").value;
    assert targets[0].0 == "desayuno";
    assert TargetFor(targets, "desayuno").Some?;
  }

  // ---------------------------------------------------------------------------
  // audit_foods
  // ---------------------------------------------------------------------------

  /** A cell of the foods table as `float(x or 0)` sees it: a number (a
      numeric string included; an empty, absent or zero cell reads as 0), a
      NaN (an empty numeric cell), or text `float` refuses. */
  datatype Cell = Number(v: real) | NaN | Unparsable

  /** One row of the table: id, name and the four nutrient cells. */
  datatype FoodRow = FoodRow(foodId: string, name: string, protein: Cell, carb: Cell, fat: Cell, kcal: Cell)

  /** A reported row, every number rounded to 1 decimal. */
  datatype Issue = Issue(foodId: string, name: string, kcalDeclared: real, kcalFromMacros: real, deltaKcal: real, deltaPct: real)

  /** The energy the macros give, 4(P+C)+9F. */
  function KcalFromMacros(p: real, c: real, f: real): real
  {
    4.0 * (p + c) + 9.0 * f
  }

  /** How far the declared energy is from the macros' one, in percent of the latter. */
  function DeltaPct(kcal: real, computed: real): real
    requires computed > 0.0
  {
    100.0 * (kcal - computed) / computed
  }

  /** The row's finding: `None` for a row skipped (a cell `float` refuses)
      or not reported (a NaN, no energy from macros, or a deviation under the
      threshold). */
  function AuditRow(row: FoodRow, thresholdPct: real): (r: Option<Issue>)
    ensures r.Some? <==>
      row.protein.Number? && row.carb.Number? && row.fat.Number? && row.kcal.Number? &&
      KcalFromMacros(row.protein.v, row.carb.v, row.fat.v) > 0.0 &&
      Abs(DeltaPct(row.kcal.v, KcalFromMacros(row.protein.v, row.carb.v, row.fat.v))) >= thresholdPct
    ensures r.Some? ==> r.value.foodId == row.foodId && r.value.name == row.name
    ensures r.Some? ==>
      var computed := KcalFromMacros(row.protein.v, row.carb.v, row.fat.v);
      -0.05 <= r.value.kcalDeclared - row.kcal.v <= 0.05 &&
      -0.05 <= r.value.kcalFromMacros - computed <= 0.05 &&
      -0.05 <= r.value.deltaKcal - (row.kcal.v - computed) <= 0.05 &&
      -0.05 <= r.value.deltaPct - DeltaPct(row.kcal.v, computed) <= 0.05
  {
    if row.protein.Unparsable? || row.carb.Unparsable? || row.fat.Unparsable? || row.kcal.Unparsable? then None
    else if !(row.protein.Number? && row.carb.Number? && row.fat.Number?) then None
    else
      var computed := KcalFromMacros(row.protein.v, row.carb.v, row.fat.v);
      if !(computed > 0.0) || !row.kcal.Number? then None
      else
        var kcal := row.kcal.v;
        var pct := DeltaPct(kcal, computed);
        if Abs(pct) >= thresholdPct then
          RoundErrorSmall(pct);
          RoundErrorSmall(computed);
          RoundErrorSmall(kcal);
          RoundErrorSmall(kcal - computed);
          Some(Issue(row.foodId, row.name, Round(kcal, 1), Round(computed, 1), Round(kcal - computed, 1), Round(pct, 1)))
        else None
  }

  /** The `issues` list: the findings of the rows, in row order. */
  function AuditIssues(rows: seq<FoodRow>, thresholdPct: real): (issues: seq<Issue>)
    ensures |issues| <= |rows|
  {
    if rows == [] then []
    else
      var found := AuditRow(rows[|rows| - 1], thresholdPct);
      AuditIssues(rows[..|rows| - 1], thresholdPct) + (if found.Some? then [found.value] else [])
  }

  /** The audit's answer. */
  datatype Audit = Audit(count: int, issues: seq<Issue>, thresholdPct: real)

  /** `audit_foods` over the loaded rows. */
  method AuditFoods(rows: seq<FoodRow>, thresholdPct: real) returns (a: Audit)
    ensures a == Audit(|rows|, AuditIssues(rows, thresholdPct), thresholdPct)
  {
    var issues: seq<Issue> := [];
    for i := 0 to |rows|
      invariant issues == AuditIssues(rows[..i], thresholdPct)
    {
      assert rows[..i + 1][..i] == rows[..i];
      var r := rows[i];
      if r.protein.Unparsable? || r.carb.Unparsable? || r.fat.Unparsable? || r.kcal.Unparsable? {
        continue;
      }
      if r.protein.Number? && r.carb.Number? && r.fat.Number? {
        var computed := KcalFromMacros(r.protein.v, r.carb.v, r.fat.v);
        if computed > 0.0 && r.kcal.Number? {
          var kcal := r.kcal.v;
          var pct := DeltaPct(kcal, computed);
          if Abs(pct) >= thresholdPct {
            issues := issues + [Issue(r.foodId, r.name, Round(kcal, 1), Round(computed, 1), Round(kcal - computed, 1), Round(pct, 1))];
          }
        }
      }
    }
    assert rows[..|rows|] == rows;
    return Audit(|rows|, issues, thresholdPct);
  }

  /** The indices of the reported rows, in increasing order. */
  function ReportedRows(rows: seq<FoodRow>, thresholdPct: real): (idx: seq<nat>)
    ensures forall k :: 0 <= k < |idx| ==> idx[k] < |rows|
    ensures forall k, l :: 0 <= k < l < |idx| ==> idx[k] < idx[l]
  {
    if rows == [] then []
    else
      var n := |rows| - 1;
      ReportedRows(rows[..n], thresholdPct) + (if AuditRow(rows[n], thresholdPct).Some? then [n] else [])
  }

  /** The issues are the findings of the reported rows, in row order. */
  lemma {:induction false} IssuesFollowRows(rows: seq<FoodRow>, thresholdPct: real)
    ensures |ReportedRows(rows, thresholdPct)| == |AuditIssues(rows, thresholdPct)|
    ensures forall k :: 0 <= k < |ReportedRows(rows, thresholdPct)| ==>
      AuditRow(rows[ReportedRows(rows, thresholdPct)[k]], thresholdPct) == Some(AuditIssues(rows, thresholdPct)[k])
    decreases |rows|
  {
    if rows != [] {
      var n := |rows| - 1;
      var init := rows[..n];
      IssuesFollowRows(init, thresholdPct);
      var idx0, issues0 := ReportedRows(init, thresholdPct), AuditIssues(init, thresholdPct);
      var idx, issues := ReportedRows(rows, thresholdPct), AuditIssues(rows, thresholdPct);
      forall k | 0 <= k < |idx|
        ensures AuditRow(rows[idx[k]], thresholdPct) == Some(issues[k])
      {
        if k < |idx0| {
          assert idx[k] == idx0[k] && issues[k] == issues0[k];
          assert rows[idx0[k]] == init[idx0[k]];
        }
      }
    }
  }

  /** Every reported row is in the issues: the audit misses none. */
  lemma {:induction false} ReportedRowsListed(rows: seq<FoodRow>, thresholdPct: real, i: nat)
    requires i < |rows| && AuditRow(rows[i], thresholdPct).Some?
    ensures AuditRow(rows[i], thresholdPct).value in AuditIssues(rows, thresholdPct)
    decreases |rows|
  {
    var n := |rows| - 1;
    if i < n {
      assert rows[..n][i] == rows[i];
      ReportedRowsListed(rows[..n], thresholdPct, i);
    }
  }

  /** A row whose macros give no energy is never reported, whatever it declares. */
  lemma NoEnergyNeverReported(row: FoodRow, thresholdPct: real)
    requires row.protein.Number? && row.carb.Number? && row.fat.Number?
    requires KcalFromMacros(row.protein.v, row.carb.v, row.fat.v) <= 0.0
    ensures AuditRow(row, thresholdPct).None?
  {
  }
}
