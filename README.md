# eatbalance in Dafny

A verified model of the deterministic core of eatbalance, a nutrition web app with a FastAPI backend and a React front end.

- **Energy calculators.** The revised Harris–Benedict basal metabolic rate (`bmr.py`), the activity multiplier (`tdee.py`) and the goal-based calorie target with its carbohydrate, protein and fat split (`macros.py`).
- **`POST /plan/` (`generar_plan`).** Reads age, weight, height, sex, activity and goal out of a Spanish sentence and answers with the calculators' plan, or with all fields `null` when a number cannot be found. Also `POST /calcular-macros` (`calcular_plan`), which composes the calculators.
- **Menu engine (`services/menu_generator.py`).**
  - macros per portion;
  - meal distribution schemes and per-meal targets;
  - the staged rescaling of a menu's grams toward a target, then rounding to 1 g or 5 g steps;
  - error vectors and scores;
  - the day plan built from a selection;
  - the ranked options per meal.
- **Router checks (`routers/plan.py`).**
  - header cleanup of the foods table;
  - validation of a selection and of the whole menu base against the foods table;
  - the request field constraints;
  - the kcal-consistency audit of the foods table.
- **Food lookup screen (`Alimentos.jsx`).**
  - normalising Open Food Facts search results and product details;
  - scaling per-100 g values to a quantity;
  - the selection list with add, remove, clear and totals;
  - the search → choose → detail steps.
- **Plan chat screen (`CalcularPlan.jsx`).** The transcript state machine of `handleSend` and `resetChat`, the prefill built from a plan, and the query string handed to the menu generator.

Modules, one per source file, plus shared helpers:

- `Wrappers` (wrappers.dfy): `Option` and `Result` (a `Failure` is a raised exception)
- `Text` (text.dfy): Python `str.lower`, `str.strip`, `in` on strings, digit runs
- `Rounding` (rounding.dfy): Python `round(x, n)` (half to even) and JavaScript `Math.round` on exact reals
- `Bmr` (bmr.dfy): `calcular_bmr`
- `Tdee` (tdee.dfy): `calcular_tdee`
- `Macros` (macros.dfy): `calcular_macros`
- `PlanParser` (plan_parser.dfy): `main.py`: the three regular expressions, `_to_float`, the keyword tables, `generar_plan`, `calcular_plan`
- `PromptExample` (prompt_example.dfy): one sentence read end to end by `generar_plan`
- `MenuGenerator` (menu_generator.dfy): `services/menu_generator.py`
- `PlanRouter` (plan_router.dfy): `routers/plan.py`
- `JsValues` (js_values.dfy): JSON values and the JavaScript coercions the screens rely on (`||`, `??`, `?.`, `Number`, `trim`, `*`, `/`, `Math.max`)
- `Alimentos` (alimentos.dfy): `Alimentos.jsx`; its state is the class `FoodLookup`
- `CalcularPlan` (calcular_plan.dfy): `CalcularPlan.jsx`; its state is the class `ChatSession`

Quantities are `real`, and Python's `round` is exact decimal rounding, half to even, on those reals. A Python `ValueError` is a `Failure` that carries the source's message. The JavaScript screens are modelled on a `Json` datatype that includes `undefined`. JavaScript numbers are `JsNum`: finite, `NaN`, `+Infinity` or `-Infinity`.

How each stateful source is modelled:
- **Loops.** `generar_plan`, `sum_macros`, the gram stages of `scale_menu_to_targets`, `generate_day_plan`, `generate_all_options`, `_validate_selection`, `_validate_menus_foods` and `audit_foods` become methods with loops. Each is proved equal to a specification function, and the properties are lemmas about those functions.
- **React state.** The state of each screen becomes a class whose fields are the `useState` variables. Each handler is a method with a `modifies` clause.
- **Outside inputs.** What the handlers receive from `fetch` is a parameter: `None` stands for a request that threw. So is the fresh id the source builds from `Date.now()`.

## Model

| member | source | states |
|---|---|---|
| Text.Lower | eatbalance-backend/main.py:184 | lower-casing keeps the length and maps every character through the same case table |
| Text.LowerIdempotent | eatbalance-backend/main.py:184 | lower-casing twice is lower-casing once |
| Text.Strip | eatbalance-backend/tdee.py:4 | the stripped text neither starts nor ends with whitespace |
| Text.StripLeft | eatbalance-backend/tdee.py:4 | a suffix of the text, not starting with whitespace, after a run of whitespace only |
| Text.StripRight | eatbalance-backend/tdee.py:4 | a prefix of the text, not ending with whitespace, before a run of whitespace only |
| Text.StripIdempotent | eatbalance-backend/macros.py:2 | stripping twice is stripping once |
| Text.CommaToDot | eatbalance-backend/main.py:180 | same length; every comma becomes a dot and every other character is kept |
| Text.CanonicalWord | eatbalance-backend/tdee.py:4 | a lower-case word without padding is its own normalised form |
| Text.LowerOfLowercase | eatbalance-backend/main.py:184 | text of lower-case letters and blanks is unchanged by lower-casing |
| Text.StripOfUnpadded | eatbalance-backend/tdee.py:4 | text that neither starts nor ends with whitespace is unchanged by stripping |
| Text.AbsentCharRulesOut | eatbalance-backend/main.py:189 | a word with a character that the text lacks does not occur in the text |
| Rounding.RoundHalfEven | eatbalance-backend/tdee.py:16 | the integer chosen is within one half of the value |
| Rounding.RoundHalfEvenOfInt | eatbalance-backend/tdee.py:16 | an integer rounds to itself |
| Rounding.RoundHalfEvenMonotone | eatbalance-backend/tdee.py:16 | rounding never reverses the order of two values |
| Rounding.RoundError | eatbalance-backend/main.py:215-220 | `round(x, n)` moves `x` by at most half a unit in the last place kept |
| Rounding.RoundErrorSmall | eatbalance-backend/macros.py:24-27 | to 1 decimal the error is at most 0.05; to 2 decimals, at most 0.005 |
| Rounding.RoundMonotone | eatbalance-backend/tdee.py:16 | `round(x, n)` is monotone in `x` |
| Rounding.RoundOnGrid | eatbalance-backend/main.py:218-220 | a value already on the grid of `n` decimals is left unchanged |
| Rounding.RoundTwice | eatbalance-backend/main.py:216-220 | rounding to `a` decimals and then to `b >= a` decimals equals rounding to `a` decimals |
| Rounding.JsMathRound | eatbalance-frontend2/src/components/Alimentos/Alimentos.jsx:142 | `Math.round` picks the integer in `(x - 0.5, x + 0.5]`, so halves go up |
| Bmr.CalcularBmr | eatbalance-backend/bmr.py:1-7 | succeeds exactly when the lower-cased sex is "hombre" or "mujer"; otherwise fails with the invalid-sex message |
| Bmr.SexIsCaseInsensitive | eatbalance-backend/bmr.py:2-4 | the result depends only on the lower-cased sex |
| Bmr.SexIsNotStripped | eatbalance-backend/bmr.py:2-7 | "Hombre" uses the male formula; "hombre " with a trailing blank is refused |
| Bmr.BmrMonotone | eatbalance-backend/bmr.py:3-5 | for both sexes the rate rises strictly with weight and height and falls strictly with age |
| Tdee.FactorDefinedExactlyOnLevels | eatbalance-backend/tdee.py:5-13 | an activity multiplier exists exactly for sedentario, ligero, moderado, activo and muy activo |
| Tdee.CalcularTdee | eatbalance-backend/tdee.py:3-16 | an unknown normalised activity fails with the activity message. A known one succeeds exactly when the basal rate does, and then lies within 0.005 of basal rate × multiplier |
| Tdee.ActivityCheckedFirst | eatbalance-backend/tdee.py:12-15 | with both the sex and the activity invalid, the activity error is the one raised |
| Tdee.FactorsIncrease | eatbalance-backend/tdee.py:5-11 | the multipliers rise strictly along sedentario, ligero, moderado, activo, muy activo |
| Tdee.TdeeMonotoneInActivity | eatbalance-backend/tdee.py:5-16 | for a positive basal rate, a more active level never gives a lower expenditure |
| Tdee.ExpenditureIncreases | eatbalance-backend/tdee.py:16 | a larger multiplier gives a larger exact expenditure |
| Tdee.LevelIsCanonical | eatbalance-backend/tdee.py:4-11 | every level name is already lower-case and stripped |
| Macros.TablesDefinedOnGoals | eatbalance-backend/macros.py:5-21 | both the calorie adjustment and the split exist exactly for deficit, mantenimiento and superavit |
| Macros.SplitsSumToOne | eatbalance-backend/macros.py:16-21 | every split sums to 1, and mantenimiento and superavit share one |
| Macros.ExactGramsKeepEnergy | eatbalance-backend/macros.py:25-27 | before rounding, 4·C + 4·P + 9·G grams give back the target energy |
| Macros.CalcularMacros | eatbalance-backend/macros.py:1-33 | fails with the goal message exactly for an unknown normalised goal. Otherwise: the target is within 0.005 of tdee × adjustment; `porcentajes` is the split used, summing to 1; the carbohydrate and protein grams are within 0.05 of their share of the target over 4, the fat grams within 0.05 of theirs over 9; the grams' energy is within 0.85 kcal of the target |
| Macros.GoalIsNormalised | eatbalance-backend/macros.py:2 | " Deficit " is accepted |
| Macros.UnknownGoalRefused | eatbalance-backend/macros.py:10-11 | "ganar" fails with the goal message |
| PlanParser.DigitRunEnd | eatbalance-backend/main.py:186 | the end of the maximal digit run from a position |
| PlanParser.SpaceRunEnd | eatbalance-backend/main.py:186 | the end of the maximal whitespace run from a position (`\s*`) |
| PlanParser.UnitStartsWithLetter | eatbalance-backend/main.py:186-188 | every spelling of a unit starts with a letter, not a blank, digit or separator |
| PlanParser.MatchAtSound | eatbalance-backend/main.py:186-188 | what the greedy matcher returns at a position is a match of the pattern |
| PlanParser.MatchAtComplete | eatbalance-backend/main.py:186-188 | every match of the pattern at a position is the one the greedy matcher returns |
| PlanParser.MatchAtIsTheMatch | eatbalance-backend/main.py:186-188 | backtracking finds nothing more: at most one match starts at each position, and it is the greedy one |
| PlanParser.NumberEndOfNumeral | eatbalance-backend/main.py:187-188 | a number followed by a non-digit, non-separator ends where the matcher says |
| PlanParser.NoMatchAt | eatbalance-backend/main.py:186-188 | when the greedy matcher finds nothing at a position, no match of the pattern starts there |
| PlanParser.UnitBeginsWithInitial | eatbalance-backend/main.py:186-188 | every spelling of a unit begins with that unit's initial letter (a, k or c) |
| PlanParser.Search | eatbalance-backend/main.py:186-188 | `re.search` gives the leftmost position with a match, or reports that none exists |
| PlanParser.Capture | eatbalance-backend/main.py:186-188 | the captured group is a numeral occurring in the prompt; the capture is absent exactly when no position matches |
| PlanParser.MatchesExtend | eatbalance-backend/main.py:186-188 | appending text keeps a match |
| PlanParser.MatchesShift | eatbalance-backend/main.py:186-188 | prepending text moves a match right by its length |
| PlanParser.NoMatchAtNonDigit | eatbalance-backend/main.py:186-188 | no match starts on a character that is not a digit |
| PlanParser.NoMatchBeforeOtherUnit | eatbalance-backend/main.py:186-188 | no match starts at digits followed (after blanks) by a letter that begins no spelling of the unit |
| PlanParser.LeftmostMatchCaptured | eatbalance-backend/main.py:186-188 | a match with no match to its left is the captured group |
| PlanParser.DecimalShape | eatbalance-backend/main.py:187-188 | after the comma is replaced, a captured decimal is a digit run, optionally followed by a dot and a non-empty digit run |
| PlanParser.ParseFloat | eatbalance-backend/main.py:180 | `float` of a decimal lies between its integer part and the next integer |
| PlanParser.ToFloat | eatbalance-backend/main.py:179-180 | `_to_float` of a captured number lies between its integer part and the next integer |
| PlanParser.ToFloatOfDigits | eatbalance-backend/main.py:179-180 | a whole number reads as its digits' value |
| PlanParser.SeparatorsAgree | eatbalance-backend/main.py:179-188 | a decimal comma and a decimal dot read the same: "75,5" and "75.5" give one value |
| PlanParser.CommaToDotKeepsNumber | eatbalance-backend/main.py:180 | after the comma is replaced the text is a decimal with the same integer part |
| PlanParser.SexOf | eatbalance-backend/main.py:189 | "mujer" exactly when the substring "mujer" occurs; otherwise "hombre" |
| PlanParser.FirstHit | eatbalance-backend/main.py:199-202 | the first row, in table order, whose pattern occurs, with no earlier row present; none when no row occurs |
| PlanParser.ScanTable | eatbalance-backend/main.py:198-208 | the `for … break` loop ends with the first hit's value, or the default when nothing occurs |
| PlanParser.VariantLevel | eatbalance-backend/main.py:191-197 | each variant maps to the activity level of its pair (muy activo, activo, moderado, ligero, sedentario) |
| PlanParser.PickedLevelAccepted | eatbalance-backend/main.py:198-211 | the activity read from any prompt is accepted by the expenditure calculator |
| PlanParser.ObjetivoGoal | eatbalance-backend/main.py:205-207 | "déficit" becomes "deficit"; every goal read is one of the calculator's goals |
| PlanParser.GoalIsCanonical | eatbalance-backend/macros.py:2-9 | every goal name is already lower-case and stripped |
| PlanParser.PickedGoalAccepted | eatbalance-backend/main.py:204-212 | the goal read from any prompt is accepted by the macro calculator |
| PlanParser.SexAccepted | eatbalance-backend/main.py:189-210 | the sex read from any prompt is accepted by the basal-rate calculator |
| PlanParser.CalcularPlan | eatbalance-backend/main.py:146-159 | the sex is checked first, then the activity, then the goal, each with its own error. The plan succeeds exactly when all three are valid, and then has a basal rate and a split |
| PlanParser.GenerarPlan | eatbalance-backend/main.py:182-228 | the method with its two scan loops answers what the specification gives for the prompt |
| PlanParser.ReadFields | eatbalance-backend/main.py:184-208 | the three captures, the sex test and the two scan loops give the fields the prompt specifies, or nothing when a number is missing |
| PlanParser.PlanAnsweredIffNumbersFound | eatbalance-backend/main.py:210-228 | the answer is all null exactly when age, weight or height is missing. Otherwise it is the calculators' plan, with a basal rate, an expenditure and a split |
| PlanParser.ExtractedAccepted | eatbalance-backend/main.py:185-212 | whenever the three numbers are read, the calculators accept the fields and the plan has an expenditure |
| PlanParser.PlanIgnoresCase | eatbalance-backend/main.py:184 | the answer to a prompt equals the answer to its lower-case form |
| PlanParser.ResponseKeepsCalculatorValues | eatbalance-backend/main.py:216-220 | rounding again to 2 decimals returns the expenditure and the grams exactly as the calculators produced them |
| PlanParser.AgeBeforeAnos | eatbalance-backend/main.py:186 | "30 años" gives age "30" |
| PlanParser.DecimalCommaWeight | eatbalance-backend/main.py:187 | "peso 60,5 kg", whatever follows it, captures "60,5" whole |
| PlanParser.DecimalCommaValue | eatbalance-backend/main.py:179-180 | "60,5" reads as 60.5 |
| PlanParser.InactivoReadsAsActivo | eatbalance-backend/main.py:199-202 | substring matching reads "soy inactivo" as "activo" |
| PlanParser.FeminineActivity | eatbalance-backend/main.py:191-202 | "muy activa" gives "muy activo", not "activo" |
| PlanParser.AccentedSuperavitIgnored | eatbalance-backend/main.py:204-208 | "superávit" matches no goal and stays "mantenimiento" |
| PromptExample.PromptLowered | eatbalance-backend/main.py:184 | lower-casing the sentence changes only its first letter |
| PromptExample.AgeRead | eatbalance-backend/main.py:186 | the age captured is "20" |
| PromptExample.WeightRead | eatbalance-backend/main.py:187 | the weight captured is "75"; the "20" before "años" is not a weight |
| PromptExample.HeightRead | eatbalance-backend/main.py:188 | the height captured is "173"; neither earlier number is followed by a height unit |
| PromptExample.NoMujer | eatbalance-backend/main.py:189 | "mujer" does not occur in the sentence |
| PromptExample.LevelRead | eatbalance-backend/main.py:191-202 | "actividad" matches no pattern and "moderada" is the first pattern present, so the level is "moderado" |
| PromptExample.GoalRead | eatbalance-backend/main.py:204-208 | the goal read is "mantenimiento" |
| PromptExample.PromptRead | eatbalance-backend/main.py:184-208 | "Tengo 20 años, peso 75 kg, mido 173 cm, soy hombre, tengo actividad moderada y quiero mantenimiento" yields edad 20, peso 75, altura 173, hombre, moderado, mantenimiento |
| PromptExample.PromptAnswered | eatbalance-backend/main.py:210-222 | the sentence gets a complete answer. Its basal rate is the male formula at 75 kg, 173 cm and 20 years, rounded to 2 decimals |
| MenuGenerator.MacrosOfReference | eatbalance-backend/services/menu_generator.py:13-20 | 100 g gives the row's per-100 g values; 0 g gives zeros |
| MenuGenerator.MacrosOfAdditive | eatbalance-backend/services/menu_generator.py:13-20 | the macros of `a + b` grams are the macros of `a` grams plus those of `b` grams |
| MenuGenerator.PortionAdditive | eatbalance-backend/services/menu_generator.py:15-19 | scaling a per-100 g value is additive in grams |
| MenuGenerator.TotalAppend | eatbalance-backend/services/menu_generator.py:22-29 | the sum over a concatenation is the sum of the two sums |
| MenuGenerator.SumMacros | eatbalance-backend/services/menu_generator.py:22-29 | the loop's accumulator ends as the component-wise sum (zeros for an empty list) |
| MenuGenerator.Step | eatbalance-backend/services/menu_generator.py:32-36 | the rounding step is 1 or 5 |
| MenuGenerator.RoundGrams | eatbalance-backend/services/menu_generator.py:31-37 | a non-negative whole multiple of the category's step (1 for fats, 5 otherwise), within half a step of a non-negative input; 0 for a non-positive one |
| MenuGenerator.SharesSumToOne | eatbalance-backend/services/menu_generator.py:40-67 | in every scheme the protein, carb and fat shares each sum to 1 |
| MenuGenerator.PrefixSums | eatbalance-backend/services/menu_generator.py:40-67 | the share sum of a 3-to-6-meal scheme equals its unrolled sum |
| MenuGenerator.ShareSumStep | eatbalance-backend/services/menu_generator.py:40-67 | the share sum of a prefix grows by the next meal's shares |
| MenuGenerator.TargetsOf | eatbalance-backend/services/menu_generator.py:69-82 | one target per meal, in scheme order, each with kcal = 4(P+C)+9F |
| MenuGenerator.PerMealTargets | eatbalance-backend/services/menu_generator.py:69-82 | defined exactly for the known schemes; the meals are the scheme's, in order; each kcal target is 4(P+C)+9F |
| MenuGenerator.TargetsOfTotal | eatbalance-backend/services/menu_generator.py:69-82 | the targets add up to the totals times the summed shares |
| MenuGenerator.TargetsAddUpToTotals | eatbalance-backend/services/menu_generator.py:69-82 | the per-meal targets add up to the daily P, C and F, and the `total_kcal` argument changes nothing |
| MenuGenerator.TargetFor | eatbalance-backend/services/menu_generator.py:172 | a target is found exactly when the meal is one of the scheme's |
| MenuGenerator.ErrorScore | eatbalance-backend/services/menu_generator.py:183-185 | the score is non-negative and zero exactly for a zero error |
| MenuGenerator.Keys | eatbalance-backend/services/menu_generator.py:89 | the grams map's keys: the menu's food ids, each once |
| MenuGenerator.FirstIndex | eatbalance-backend/services/menu_generator.py:89 | the first position at which a food id occurs among the menu's items |
| MenuGenerator.KeysInFirstOccurrenceOrder | eatbalance-backend/services/menu_generator.py:89 | the grams map lists its keys in insertion order: a key listed earlier first occurs earlier in the menu, which fixes the order of the returned items |
| MenuGenerator.InitialGrams | eatbalance-backend/services/menu_generator.py:89 | the map holds exactly the menu's food ids |
| MenuGenerator.InitialGramsLastWins | eatbalance-backend/services/menu_generator.py:89 | a repeated food id keeps the grams of its last item |
| MenuGenerator.IdsOf | eatbalance-backend/services/menu_generator.py:95-98 | the ids of a category group are menu foods of that category |
| MenuGenerator.CurrentMacros | eatbalance-backend/services/menu_generator.py:91-92 | the loop sums the macros of the current grams |
| MenuGenerator.Clamp | eatbalance-backend/services/menu_generator.py:104-130 | the result lies in the bounds and is the input when that already does |
| MenuGenerator.Need | eatbalance-backend/services/menu_generator.py:124 | `need_f` is non-negative and covers the missing fat |
| MenuGenerator.ScaleAll | eatbalance-backend/services/menu_generator.py:105-107 | scaling a group keeps the map's keys |
| MenuGenerator.ScaleAllValue | eatbalance-backend/services/menu_generator.py:105-107 | each id's grams are multiplied by the factor once per listing in the group, and other ids are untouched |
| MenuGenerator.ScaleIds | eatbalance-backend/services/menu_generator.py:105-107 | the in-place loop over the group gives the scaled map |
| MenuGenerator.ScaleStage | eatbalance-backend/services/menu_generator.py:100-119 | a protein or carb stage keeps the map's keys |
| MenuGenerator.FatStage | eatbalance-backend/services/menu_generator.py:121-135 | the fat stage keeps the map's keys |
| MenuGenerator.RoundAll | eatbalance-backend/services/menu_generator.py:138 | every grams value is rounded by its food's category, and the keys are kept |
| MenuGenerator.ScaledItems | eatbalance-backend/services/menu_generator.py:141-146 | one item per key, in key order, with that key's grams |
| MenuGenerator.BuildItems | eatbalance-backend/services/menu_generator.py:141-146 | the loop builds the item list |
| MenuGenerator.StagedGrams | eatbalance-backend/services/menu_generator.py:89-135 | the four stages keep exactly the menu's food ids |
| MenuGenerator.RunScaleStage | eatbalance-backend/services/menu_generator.py:100-119 | the stage's in-place updates give the stage function |
| MenuGenerator.RunFatStage | eatbalance-backend/services/menu_generator.py:121-135 | the fat stage's in-place updates give the stage function |
| MenuGenerator.ScaleMenuToTargets | eatbalance-backend/services/menu_generator.py:84-165 | the method gives the specified scaled menu and debug record |
| MenuGenerator.ScaleStageEffect | eatbalance-backend/services/menu_generator.py:100-119 | with no base amount the grams are unchanged. Otherwise the factor is clamped to [0.6, 3.5] and each group id is multiplied by it |
| MenuGenerator.FatStageEffect | eatbalance-backend/services/menu_generator.py:121-135 | need_f ≥ 0. With a FAT_FLEX item, only the first one changes, to grams giving exactly need_f of fat (0 when its fat per gram is not positive). Otherwise the FAT items are scaled by a factor clamped to [0.6, 3.0], or left alone when they hold no fat |
| MenuGenerator.FlexCoversNeed | eatbalance-backend/services/menu_generator.py:127-128 | need_f / fat-per-gram grams give exactly need_f of fat |
| MenuGenerator.ScaledMenuListsItsFoods | eatbalance-backend/services/menu_generator.py:89-146 | the result lists every food id of the menu exactly once, each with grams a non-negative multiple of its category's step |
| MenuGenerator.RoundedItems | eatbalance-backend/services/menu_generator.py:138-146 | the rounded items follow the keys and carry step-multiple grams |
| MenuGenerator.ErrorsAreAchievedMinusTarget | eatbalance-backend/services/menu_generator.py:148-163 | the debug target is the target, each error is achieved minus target to within 0.005, and the achieved macros are those of the listed items |
| MenuGenerator.ListedMacros | eatbalance-backend/services/menu_generator.py:148-154 | one macro vector per listed item |
| MenuGenerator.ListedMacrosOfItems | eatbalance-backend/services/menu_generator.py:141-154 | the macros of the built items are the macros of the keys at their grams |
| MenuGenerator.FindMenu | eatbalance-backend/services/menu_generator.py:173 | `next(...)` finds the first menu with the id, or none exists |
| MenuGenerator.GenerateDayPlan | eatbalance-backend/services/menu_generator.py:167-180 | the method's loop over the selection gives the specified day plan |
| MenuGenerator.PlanOneMeal | eatbalance-backend/services/menu_generator.py:171-179 | one pass of the loop body gives the specified outcome of that meal |
| MenuGenerator.PlanMealsFailureSticks | eatbalance-backend/services/menu_generator.py:170-180 | once a meal fails, the later meals do not change the outcome |
| MenuGenerator.PlanMealsIsGather | eatbalance-backend/services/menu_generator.py:170-180 | the loop's outcome is the meals' separate outcomes gathered in order |
| MenuGenerator.GatherSucceedsIff | eatbalance-backend/services/menu_generator.py:170-180 | gathering succeeds exactly when every meal's outcome does |
| MenuGenerator.GatherEntries | eatbalance-backend/services/menu_generator.py:170-180 | a successful gathering has one entry per meal, in order, pairing the meal with its plan |
| MenuGenerator.DayPlanSucceedsIff | eatbalance-backend/services/menu_generator.py:170-180 | the plan succeeds exactly when every selected meal does |
| MenuGenerator.DayPlanEntries | eatbalance-backend/services/menu_generator.py:170-180 | a successful plan has one entry per selected meal, in order, each that meal's scaled menu |
| MenuGenerator.PlanMealSucceedsIff | eatbalance-backend/services/menu_generator.py:171-179 | a meal succeeds exactly when its menu exists, the meal has a target and the menu's foods are known. It then carries the first such menu's name and the meal's target |
| MenuGenerator.OptionFor | eatbalance-backend/services/menu_generator.py:196-203 | an option names its menu and has a non-negative score |
| MenuGenerator.Matching | eatbalance-backend/services/menu_generator.py:193-194 | the kept menus are menus whose meal type is the meal |
| MenuGenerator.CandidatesSucceedIff | eatbalance-backend/services/menu_generator.py:193-203 | collecting options succeeds exactly when every matching menu's foods are known |
| MenuGenerator.MatchingKnownAt | eatbalance-backend/services/menu_generator.py:193-203 | after a successful collection, each matching menu's foods are known |
| MenuGenerator.CandidatesAreMatchingMenus | eatbalance-backend/services/menu_generator.py:193-203 | one option per matching menu, in menu order |
| MenuGenerator.CandidatesFromMenus | eatbalance-backend/services/menu_generator.py:193-203 | one option per matching menu, each with a non-negative score and the id of a menu of that meal type |
| MenuGenerator.CollectOptions | eatbalance-backend/services/menu_generator.py:193-203 | the appending loop gives the collected options |
| MenuGenerator.CandidatesFailureSticks | eatbalance-backend/services/menu_generator.py:193-203 | once a menu fails, later menus do not change the outcome |
| MenuGenerator.InsertByScore | eatbalance-backend/services/menu_generator.py:204 | inserting into a sorted list keeps it sorted and adds exactly the one option |
| MenuGenerator.SortByScore | eatbalance-backend/services/menu_generator.py:204 | the options sorted by ascending score, as a permutation of the input |
| MenuGenerator.Take | eatbalance-backend/services/menu_generator.py:205-206 | `options[:top_n]`, Python slice semantics included for negative `top_n`; everything for `None` |
| MenuGenerator.SortedPrefix | eatbalance-backend/services/menu_generator.py:204-206 | the kept options are sorted, at most `top_n` of them, and all are among the candidates |
| MenuGenerator.OptionsForMeal | eatbalance-backend/services/menu_generator.py:192-207 | the method gives the specified options of one meal |
| MenuGenerator.GenerateAllOptions | eatbalance-backend/services/menu_generator.py:187-208 | the method's loop over the meals gives the specified result |
| MenuGenerator.AllMealOptionsStep | eatbalance-backend/services/menu_generator.py:191-207 | one more meal appends its options, or stops at the first failure |
| MenuGenerator.AllMealOptionsFailureSticks | eatbalance-backend/services/menu_generator.py:191-207 | once a meal fails, later meals do not change the outcome |
| MenuGenerator.AllMealOptionsEntries | eatbalance-backend/services/menu_generator.py:191-207 | a successful result has one entry per meal, in order, each that meal's options |
| MenuGenerator.MealOptionsProperties | eatbalance-backend/services/menu_generator.py:192-207 | a meal's options are sorted by non-negative score. They number at most `top_n`, or all matching menus for `None`, and each comes from a menu of that meal type |
| MenuGenerator.AllOptionsPerMeal | eatbalance-backend/services/menu_generator.py:187-208 | a result exists only for a known scheme. It has one entry per scheme meal, and each holds sorted options from menus of that meal, at most `top_n` of them |
| MenuGenerator.AllMealOptionsSucceed | eatbalance-backend/services/menu_generator.py:191-207 | when every meal's options succeed, the whole result does |
| MenuGenerator.MealOptionsWithKnownFoods | eatbalance-backend/services/menu_generator.py:192-207 | with all menu foods known, a meal's options never fail |
| PlanRouter.RemoveBom | eatbalance-backend/routers/plan.py:23 | no byte-order mark is left; text without one is unchanged |
| PlanRouter.StripIsSlice | eatbalance-backend/routers/plan.py:23 | stripping keeps a contiguous slice of the name |
| PlanRouter.CleanNameIsClean | eatbalance-backend/routers/plan.py:23 | a cleaned name has no mark and no surrounding blank, and cleaning it again changes nothing |
| PlanRouter.LoadColumns | eatbalance-backend/routers/plan.py:23-25 | succeeds exactly when some cleaned header is "food_id", with every header cleaned; otherwise fails with the 500 error |
| PlanRouter.CleanColumns | eatbalance-backend/routers/plan.py:23 | every header cleaned, in place |
| PlanRouter.MarkedHeaderFound | eatbalance-backend/routers/plan.py:23-25 | a "food_id" header carrying a mark and padding is still found |
| PlanRouter.MarkedHeaderCleans | eatbalance-backend/routers/plan.py:23 | that header cleans to "food_id" |
| PlanRouter.MarkRemoved | eatbalance-backend/routers/plan.py:23 | the byte-order mark in front of a header is removed and nothing else is |
| PlanRouter.PaddingStripped | eatbalance-backend/routers/plan.py:23 | the blanks around a header are removed |
| PlanRouter.MenuMap | eatbalance-backend/routers/plan.py:30 | the map holds exactly the menu ids of the list |
| PlanRouter.MenuMapLastWins | eatbalance-backend/routers/plan.py:30 | each id maps to the last menu with that id |
| PlanRouter.ItemsMissing | eatbalance-backend/routers/plan.py:37-40 | at most one entry per item |
| PlanRouter.ItemsMissingEmptyIff | eatbalance-backend/routers/plan.py:37-40 | a menu adds nothing exactly when all its foods are known |
| PlanRouter.AddItemsMissing | eatbalance-backend/routers/plan.py:37-40 | the inner loop appends exactly the entries of the menu's unknown foods |
| PlanRouter.ValidateSelection | eatbalance-backend/routers/plan.py:29-42 | the loop returns normally on an empty missing list and otherwise raises 400 with the list |
| PlanRouter.SelectionRefusedIff | eatbalance-backend/routers/plan.py:29-42 | refused exactly when a selected menu id is unknown or a known selected menu has an unknown food |
| PlanRouter.SelectionMissingAppend | eatbalance-backend/routers/plan.py:33-40 | the missing list of a selection is the lists of its parts, in order |
| PlanRouter.UnknownMenuAddsOneEntry | eatbalance-backend/routers/plan.py:34-36 | an unknown menu id adds exactly one entry at its place, and its items are not inspected |
| PlanRouter.ValidateMenusFoods | eatbalance-backend/routers/plan.py:44-52 | the loop returns normally on an empty missing list and otherwise raises 400 with the list |
| PlanRouter.MenuFoodsMissingEmptyIff | eatbalance-backend/routers/plan.py:47-49 | a menu adds nothing exactly when all its foods are known |
| PlanRouter.MenusRefusedIff | eatbalance-backend/routers/plan.py:44-52 | refused exactly when some item of some menu names an unknown food |
| PlanRouter.FieldErrors | eatbalance-backend/routers/plan.py:55-69 | no field is refused exactly when kcal > 0, the grams are ≥ 0 and a given `top_n` is ≥ 1 |
| PlanRouter.GenerateAllFailsOnlyOnScheme | eatbalance-backend/routers/plan.py:96-118 | with valid fields and a validated menu base, `generate_all` fails exactly for an unknown scheme (for a foods table with unique ids) |
| PlanRouter.ValidatedSelectionPlans | eatbalance-backend/routers/plan.py:72-94 | with unique menu ids and a validated selection, the day plan fails only on an unknown scheme or meal |
| PlanRouter.ValidatedMealPlan | eatbalance-backend/routers/plan.py:29-42 | with unique menu ids, a meal whose menu passed validation fails only on an unknown meal |
| PlanRouter.ValidatedMealsPlan | eatbalance-backend/routers/plan.py:29-42 | with unique ids and every selected menu known with known foods, the meals fail only on an unknown meal |
| PlanRouter.DuplicateMenuIdSlipsThrough | eatbalance-backend/routers/plan.py:30 | with two menus under one id, validation checks the last and the plan uses the first, so a validated selection can still fail on an unknown food |
| PlanRouter.AuditRow | eatbalance-backend/routers/plan.py:126-143 | a row is reported exactly when its cells parse, 4(P+C)+9F > 0 and abs(delta %) ≥ the threshold. The entry carries the row's id and name; the declared energy, the macros' energy, their difference and the delta % are each within 0.05 of the exact value, as rounding to 1 decimal gives |
| PlanRouter.AuditIssues | eatbalance-backend/routers/plan.py:123-143 | at most one issue per row |
| PlanRouter.AuditFoods | eatbalance-backend/routers/plan.py:121-144 | the loop's answer: count = number of rows, the issues, the threshold |
| PlanRouter.ReportedRows | eatbalance-backend/routers/plan.py:125-143 | indices of reported rows, strictly increasing |
| PlanRouter.IssuesFollowRows | eatbalance-backend/routers/plan.py:125-143 | the issues are the findings of the reported rows, in row order |
| PlanRouter.ReportedRowsListed | eatbalance-backend/routers/plan.py:125-143 | every row that qualifies appears among the issues |
| PlanRouter.NoEnergyNeverReported | eatbalance-backend/routers/plan.py:133 | a row whose macros give no energy is never reported |
| JsValues.Prop | eatbalance-frontend2/src/components/Alimentos/Alimentos.jsx:73-74 | a property of a non-object, or a missing key, is `undefined` |
| JsValues.OptProp | eatbalance-frontend2/src/components/Alimentos/Alimentos.jsx:64-66 | `?.` gives `undefined` on null or undefined and is property access otherwise |
| JsValues.Or | eatbalance-frontend2/src/components/Alimentos/Alimentos.jsx:72 | `a \|\| b` is `a` when truthy and `b` otherwise |
| JsValues.Coalesce | eatbalance-frontend2/src/components/Alimentos/Alimentos.jsx:139-151 | `a ?? b` is `a` unless it is null or undefined, and `b` then |
| JsValues.OrChain | eatbalance-frontend2/src/components/Alimentos/Alimentos.jsx:76-85 | an `\|\|` chain gives its first truthy operand, or the last one |
| JsValues.Trim | eatbalance-frontend2/src/components/Herramientas/CalcularPlan.jsx:104 | the trimmed text neither starts nor ends with whitespace |
| JsValues.TrimStart | eatbalance-frontend2/src/components/Herramientas/CalcularPlan.jsx:104 | a suffix after whitespace only |
| JsValues.TrimEnd | eatbalance-frontend2/src/components/Herramientas/CalcularPlan.jsx:104 | a prefix before whitespace only |
| JsValues.TrimEmptyIff | eatbalance-frontend2/src/components/Alimentos/Alimentos.jsx:106 | the trimmed text is empty exactly when the text is all whitespace |
| JsValues.TrimOfUnpadded | eatbalance-frontend2/src/components/Alimentos/Alimentos.jsx:106 | unpadded text trims to itself |
| JsValues.DotIndex | eatbalance-frontend2/src/components/Alimentos/Alimentos.jsx:184 | the first dot, or the length when there is none |
| JsValues.UnsignedDecimal | eatbalance-frontend2/src/components/Alimentos/Alimentos.jsx:184 | an unsigned decimal literal reads as a non-negative number, anything else as NaN |
| JsValues.StringToNumber | eatbalance-frontend2/src/components/Alimentos/Alimentos.jsx:184 | `Number` of blank text is 0 |
| JsValues.LeadingDigitIsUnsigned | eatbalance-frontend2/src/components/Alimentos/Alimentos.jsx:184 | trimmed text starting with a digit reads as an unsigned literal |
| JsValues.IntegerLiteral | eatbalance-frontend2/src/components/Alimentos/Alimentos.jsx:184 | `Number("150")` is 150: digits read as their value |
| JsValues.DecimalLiteral | eatbalance-frontend2/src/components/Alimentos/Alimentos.jsx:184 | `Number("w.f")` is the decimal w.f |
| JsValues.DecimalLiteralAt | eatbalance-frontend2/src/components/Alimentos/Alimentos.jsx:184 | digits with one dot read as that decimal |
| JsValues.UnsignedAtDot | eatbalance-frontend2/src/components/Alimentos/Alimentos.jsx:184 | the unsigned reading of digits with one dot is that decimal |
| JsValues.DotIndexOfDigits | eatbalance-frontend2/src/components/Alimentos/Alimentos.jsx:184 | the first dot after a run of digits is at the run's end |
| JsValues.Mul | eatbalance-frontend2/src/components/Alimentos/Alimentos.jsx:185 | finite operands multiply as reals. The product is NaN exactly for a NaN operand or zero times an infinity. It is finite exactly when both operands are |
| JsValues.MulCommutes | eatbalance-frontend2/src/components/Alimentos/Alimentos.jsx:185 | `v * g` equals `g * v` |
| JsValues.DivBy | eatbalance-frontend2/src/components/Alimentos/Alimentos.jsx:185 | dividing by 100 divides a finite value and keeps NaN and infinities |
| JsValues.MaxZero | eatbalance-frontend2/src/components/Alimentos/Alimentos.jsx:184 | `Math.max(0, x)`: NaN stays NaN, negatives and -∞ become 0, +∞ stays |
| JsValues.NumOrZero | eatbalance-frontend2/src/components/Alimentos/Alimentos.jsx:184 | `x \|\| 0`: a truthy number is kept, and NaN or 0 becomes 0 |
| Alimentos.ResultsArray | eatbalance-frontend2/src/components/Alimentos/Alimentos.jsx:62-68 | an array, else `products`, else `resultados` when it is an array, else empty |
| Alimentos.ProductOf | eatbalance-frontend2/src/components/Alimentos/Alimentos.jsx:72 | `it?.product \|\| it \|\| {}` is never nullish, and is truthy or `{}` |
| Alimentos.NormalizeItem | eatbalance-frontend2/src/components/Alimentos/Alimentos.jsx:71-95 | the name is truthy (at worst "Sin nombre"). The code is truthy or null, the brand truthy or "", the image truthy or null, and the raw item is kept. A Spanish product name wins |
| Alimentos.NormalizeAll | eatbalance-frontend2/src/components/Alimentos/Alimentos.jsx:70-96 | one entry per element, the i-th being the i-th element normalised, each with a truthy name |
| Alimentos.Named | eatbalance-frontend2/src/components/Alimentos/Alimentos.jsx:97 | only entries with a truthy name are kept |
| Alimentos.NamedKeepsAll | eatbalance-frontend2/src/components/Alimentos/Alimentos.jsx:97 | the filter keeps every entry, since every name is truthy |
| Alimentos.FirstFifteen | eatbalance-frontend2/src/components/Alimentos/Alimentos.jsx:98 | the first min(15, n) entries |
| Alimentos.NormalizaLista | eatbalance-frontend2/src/components/Alimentos/Alimentos.jsx:61-99 | throws exactly when the array holds null or undefined. Otherwise at most 15 entries, each with a truthy name |
| Alimentos.NormalizaListaKeepsOrder | eatbalance-frontend2/src/components/Alimentos/Alimentos.jsx:61-99 | the list is the first min(15, n) elements, each normalised, in order |
| Alimentos.NutrientsOf | eatbalance-frontend2/src/components/Alimentos/Alimentos.jsx:133-137 | the nutrient object is never nullish |
| Alimentos.EnergyFallback | eatbalance-frontend2/src/components/Alimentos/Alimentos.jsx:141-143 | a numeric `energy_100g` gives `Math.round(kJ / 4.184)`; anything else gives null |
| Alimentos.NormalizaDetalle | eatbalance-frontend2/src/components/Alimentos/Alimentos.jsx:132-153 | no field is ever undefined |
| Alimentos.DetalleEnergy | eatbalance-frontend2/src/components/Alimentos/Alimentos.jsx:138-146 | kcal is `calorias`, else `energy-kcal_100g`, else the rounded kJ conversion when numeric, else null |
| Alimentos.GramsOf | eatbalance-frontend2/src/components/Alimentos/Alimentos.jsx:184 | the grams are non-negative (or +∞). A non-negative finite entry is kept; NaN, negatives and -∞ become 0 |
| Alimentos.ScaleNutrient | eatbalance-frontend2/src/components/Alimentos/Alimentos.jsx:185 | null stays null; a finite value becomes v·g/100 |
| Alimentos.ScaledOf | eatbalance-frontend2/src/components/Alimentos/Alimentos.jsx:182-195 | nothing without a selection. Otherwise the clamped grams, and each nutrient null exactly when its per-100 g value is |
| Alimentos.AsNumber | eatbalance-frontend2/src/components/Alimentos/Alimentos.jsx:185 | null or undefined gives no number |
| Alimentos.ScaledAtHundred | eatbalance-frontend2/src/components/Alimentos/Alimentos.jsx:182-195 | at 100 g every scaled nutrient is its per-100 g value |
| Alimentos.HundredIsIdentity | eatbalance-frontend2/src/components/Alimentos/Alimentos.jsx:185 | `(v * 100) / 100` is `v` for every number, infinities and NaN included |
| Alimentos.ScaleNutrientLinear | eatbalance-frontend2/src/components/Alimentos/Alimentos.jsx:185 | twice the grams give twice the nutrient |
| Alimentos.ToNum | eatbalance-frontend2/src/components/Alimentos/Alimentos.jsx:25 | a finite number is kept; anything else becomes 0 |
| Alimentos.EntryOf | eatbalance-frontend2/src/components/Alimentos/Alimentos.jsx:27-38 | the entry has the fresh id and the name, code and brand defaults. Its grams and nutrients are the scaled values coerced to finite numbers |
| Alimentos.TotalsOf | eatbalance-frontend2/src/components/Alimentos/Alimentos.jsx:44-55 | the empty selection gives all zeros |
| Alimentos.TotalsConcat | eatbalance-frontend2/src/components/Alimentos/Alimentos.jsx:44-55 | the totals of a concatenation are the sum of the totals |
| Alimentos.TotalsAreFieldSums | eatbalance-frontend2/src/components/Alimentos/Alimentos.jsx:44-55 | each of the five totals (grams, kcal, protein, carbohydrate, fat) equals that column summed from the first entry on |
| Alimentos.TotalsAppend | eatbalance-frontend2/src/components/Alimentos/Alimentos.jsx:44-55 | appending an entry adds it to the totals |
| Alimentos.Without | eatbalance-frontend2/src/components/Alimentos/Alimentos.jsx:41 | no entry with the id remains, and every other entry does |
| Alimentos.WithoutCounts | eatbalance-frontend2/src/components/Alimentos/Alimentos.jsx:41 | each entry keeps its multiplicity unless it has the id, in which case it has none |
| Alimentos.Only | eatbalance-frontend2/src/components/Alimentos/Alimentos.jsx:41 | the entries with the id |
| Alimentos.RemoveSplitsTotals | eatbalance-frontend2/src/components/Alimentos/Alimentos.jsx:41-55 | the totals after removal plus the removed entries' totals are the old totals |
| Alimentos.SearchOf | eatbalance-frontend2/src/components/Alimentos/Alimentos.jsx:102-129 | blank query: nothing happens. Found: 1 to 15 entries, each named. The connection error happens exactly when the request throws or the list cannot be normalised |
| Alimentos.SearchMessage | eatbalance-frontend2/src/components/Alimentos/Alimentos.jsx:103-125 | the error text is empty exactly for a blank query or a found list |
| Alimentos.SearchFoundIff | eatbalance-frontend2/src/components/Alimentos/Alimentos.jsx:106-122 | the search moves on exactly when the query is not blank and the normalised list is non-empty |
| Alimentos.FoodLookup.constructor | eatbalance-frontend2/src/components/Alimentos/Alimentos.jsx:9-22 | step "askName", empty query and results, nothing selected, 100 g, not loading, no error, empty selection |
| Alimentos.FoodLookup.AddActual | eatbalance-frontend2/src/components/Alimentos/Alimentos.jsx:23-40 | without a selected product nothing changes. Otherwise exactly one entry is appended, earlier entries are kept and the totals grow by it |
| Alimentos.FoodLookup.SetQuery | eatbalance-frontend2/src/components/Alimentos/Alimentos.jsx:233 | the query changes and nothing else does |
| Alimentos.FoodLookup.SetGrams | eatbalance-frontend2/src/components/Alimentos/Alimentos.jsx:332-342 | the grams change, and the scaled view then uses `Math.max(0, Number(g) \|\| 0)` |
| Alimentos.FoodLookup.BackToSearch | eatbalance-frontend2/src/components/Alimentos/Alimentos.jsx:264 | the step goes back to "askName" and nothing else changes |
| Alimentos.FoodLookup.RemoveItem | eatbalance-frontend2/src/components/Alimentos/Alimentos.jsx:41 | removes exactly the entries with the id, keeping the rest in order; the totals drop by the removed entries |
| Alimentos.FoodLookup.ClearAll | eatbalance-frontend2/src/components/Alimentos/Alimentos.jsx:42 | the selection is empty and the totals are zero |
| Alimentos.FoodLookup.BuscarES | eatbalance-frontend2/src/components/Alimentos/Alimentos.jsx:102-129 | the chosen product is cleared and the list of added entries is kept. A found list moves to "choose"; otherwise the results are empty and the step is kept. The error text follows the outcome, and loading ends unless the query was blank |
| Alimentos.FoodLookup.ShowSearch | eatbalance-frontend2/src/components/Alimentos/Alimentos.jsx:103-128 | the chosen product is dropped and the added entries are kept; the result list is the found list or empty; the step moves to "choose" only on a found list; the error line follows the outcome; loading ends unless the query was blank |
| Alimentos.FoodLookup.Elegir | eatbalance-frontend2/src/components/Alimentos/Alimentos.jsx:155-179 | an item without a code sets the error and keeps the step. A failed request sets the other error. A detail selects the item with its per-100 g values, resets to 100 g and moves to "detail" |
| Alimentos.ChosenShowsPer100 | eatbalance-frontend2/src/components/Alimentos/Alimentos.jsx:171-195 | right after choosing, the scaled energy is the per-100 g energy |
| CalcularPlan.Reply | eatbalance-frontend2/src/components/Herramientas/CalcularPlan.jsx:119-167 | the plan bubble exactly when the answer has truthy bmr and tdee. The "not understood" bubble for any other answer; the error bubble exactly when the request throws |
| CalcularPlan.Transcript | eatbalance-frontend2/src/components/Herramientas/CalcularPlan.jsx:150-167 | exactly three messages: the greeting, the user's text and the bot's reply |
| CalcularPlan.PlanAfter | eatbalance-frontend2/src/components/Herramientas/CalcularPlan.jsx:120-162 | the plan is the answer when accepted and null otherwise |
| CalcularPlan.NumberOrZero | eatbalance-frontend2/src/components/Herramientas/CalcularPlan.jsx:57-59 | `Number(x ?? 0)`: missing gives 0 and a number is kept |
| CalcularPlan.BuildPrefillFromPlan | eatbalance-frontend2/src/components/Herramientas/CalcularPlan.jsx:52-62 | null for a falsy plan. kcal is `calorias_objetivo` when present, else `tdee`, unrounded. Missing grams are 0 |
| CalcularPlan.QueryOf | eatbalance-frontend2/src/components/Herramientas/CalcularPlan.jsx:80-88 | four keys |
| CalcularPlan.Lookup | eatbalance-frontend2/src/components/Herramientas/CalcularPlan.jsx:80-88 | a key is found exactly when present |
| CalcularPlan.QueryReadsBack | eatbalance-frontend2/src/components/Herramientas/CalcularPlan.jsx:80-88 | kcal, protein_g, carb_g and fat_g read back the prefill and no other key is present |
| CalcularPlan.MenusQuery | eatbalance-frontend2/src/components/Herramientas/CalcularPlan.jsx:66-88 | no handoff without a plan; otherwise the query of its prefill |
| CalcularPlan.NumOrNull | eatbalance-backend/main.py:170-177 | a missing field is JSON null |
| CalcularPlan.PlanJson | eatbalance-backend/main.py:170-177 | the response is a JSON object |
| CalcularPlan.AcceptedBackendAnswer | eatbalance-frontend2/src/components/Herramientas/CalcularPlan.jsx:119 | the screen accepts a backend answer exactly when bmr and tdee are present and non-zero |
| CalcularPlan.UnreadMessageRejected | eatbalance-frontend2/src/components/Herramientas/CalcularPlan.jsx:152-158 | a sentence whose numbers the backend cannot read gets the "not understood" bubble |
| CalcularPlan.PrefillOfBackendAnswer | eatbalance-frontend2/src/components/Herramientas/CalcularPlan.jsx:52-62 | an accepted complete answer prefills exactly its calorie target and grams |
| CalcularPlan.ChatSession.constructor | eatbalance-frontend2/src/components/Herramientas/CalcularPlan.jsx:39-42 | the greeting only, empty input, no plan, not loading |
| CalcularPlan.ChatSession.ResetChat | eatbalance-frontend2/src/components/Herramientas/CalcularPlan.jsx:44-49 | restores the greeting only, empty input, no plan, not loading |
| CalcularPlan.ChatSession.SetInput | eatbalance-frontend2/src/components/Herramientas/CalcularPlan.jsx:217 | the input changes and nothing else does |
| CalcularPlan.ChatSession.StartSend | eatbalance-frontend2/src/components/Herramientas/CalcularPlan.jsx:104-106 | a send starts exactly when the trimmed input is non-empty and nothing is loading, and it then sets loading |
| CalcularPlan.ChatSession.FinishSend | eatbalance-frontend2/src/components/Herramientas/CalcularPlan.jsx:119-171 | the transcript is exactly [greeting, user, reply], the plan follows the answer, loading is off and the input is empty |
| CalcularPlan.ChatSession.HandleSend | eatbalance-frontend2/src/components/Herramientas/CalcularPlan.jsx:103-172 | a blank input or a pending request changes nothing. Otherwise the transcript is [greeting, user, reply], the plan follows the answer, and loading and input are cleared |

## Left out

- Overflow: numbers are unbounded integers and exact reals. In the source an age of more than 4300 digits makes `int` raise, and a very large age makes `5.677 * edad` overflow; both end in the all-null answer. A weight or height beyond the double range reads as infinity, and the handler returns infinite values; what the JSON response then holds is not modelled. The model gives a finite plan in all of these cases.
- Binary floating point: quantities are exact reals. Python's `round` and JavaScript's `Math.round` are exact decimal rounding on those reals, so the representation error of binary doubles is not modelled.
- Display formatting: the front end's `toFixed` and `Math.round` of displayed values, percentages in the chat bubble, and the text of the bubbles are not modelled. A bubble is one of three kinds.
- Unicode: digits are ASCII only, so the non-ASCII decimal digits that Python's `\d`, `int` and `float` accept (such as Arabic-Indic digits) are not modelled. Lower-casing and whitespace cover ASCII, Spanish accented capitals and the whitespace characters the model lists. Other scripts and case folding are not modelled.
- JavaScript `Number`: decimal literals with an optional sign, `Infinity` with an optional sign, blank text and surrounding whitespace are modelled. Exponents, hexadecimal, octal and binary literals read as NaN in the model, and signed zero is not distinguished.
- Network and I/O: `fetch`, the OpenFoodFacts and model clients, CSV and JSON file loading, `sessionStorage`, navigation and React rendering are left out. Responses and the loaded foods and menus are parameters.
- Duplicate `food_id` rows: the foods table is a map from id to food, so each id names one row. `_load_foods` keeps every row, and with a repeated id the `.loc` lookups of `services/menu_generator.py:95-98` give several rows and the comprehension's test raises, which the routers answer with a 400. That failure is not modelled, so `GenerateAllFailsOnlyOnScheme` and `ValidatedSelectionPlans` hold for foods tables with unique ids only.
- Entry ids: `Date.now() + Math.random()` is a fresh-id parameter of `AddActual`.
- URLSearchParams: the query string is the list of key and value pairs; turning numbers into strings is not modelled.
- FastAPI: routing, CORS and startup are left out, as is the pydantic parsing of request bodies apart from the field constraints in `FieldErrors`.
- Database routers (auth, users, nutrition, menus), `menu.py` (random choices), the network clients and the `security` module are not part of this model.
- `GenerarMenus.jsx` is an empty placeholder, and `CalcularPlan.jsx` calls only `/plan/`. Neither the menu-option selection screen nor an authenticated fallback is modelled.
- Concurrency: one request at a time. `HandleSend` is the composition of `StartSend` and `FinishSend` with the response as a parameter, and a stale response arriving later is not modelled.
- `_load_foods` cleaning of `food_id` values and the pandas reading of cells: `FieldErrors` and `AuditRow` take already-parsed cells (a number, NaN, or a cell `float` refuses).
- Alimentos.TotalsOf: the `\|\| 0` of the totals fold is not modelled, because entries are built by `toNum` and always hold finite numbers.
- MenuGenerator.SortByScore: the result is a sorted permutation. Python's sort is also stable, which the model's insertion sort preserves, but stability is not stated.
- PlanRouter.AuditRow: an infinite cell value (`float("inf")`) is not modelled. A cell is a finite number, NaN, or text that `float` refuses.
- PlanParser.ToFloat: its contract bounds the value by the integer part. Exact values are stated for whole numbers (`ToFloatOfDigits`), for the comma form (`SeparatorsAgree`) and for a worked decimal (`DecimalCommaValue`).
