/** The food lookup screen of the front end (`Alimentos.jsx`): a product
    search whose answer is normalised into at most fifteen named results,
    the choice of one result whose per-100 g nutrients are normalised from
    the detail answer, a calculator that scales those nutrients to a number
    of grams, and a running selection of foods with its totals.

    The two requests the screen sends are not modelled; their answers are
    parameters (`None` when the request or its JSON decoding throws). */
module Alimentos {
  import opened Wrappers
  import opened JsValues
  import Rounding

  /** The panel the screen shows: the search box, the result list, or the
      calculator for one product. */
  datatype Step = AskName | Choose | Detail

  /** One normalised search result, keeping the raw element it came from. */
  datatype ListItem = ListItem(code: Json, name: Json, brand: Json, image: Json, raw: Json)

  /** Nutrients per 100 g as the detail answer gives them; each is `null`
      when the answer has none. */
  datatype Macros100 = Macros100(cal: Json, prot: Json, gras: Json, carb: Json, azu: Json, fibra: Json)

  /** The chosen product: the result it was chosen from plus its nutrients. */
  datatype Selected = Selected(item: ListItem, macros100g: Macros100)

  /** The calculator's output: each nutrient for the chosen grams (`None`
      for a nutrient the product lacks) and the grams used. */
  datatype Scaled = Scaled(
    cal: Option<JsNum>, prot: Option<JsNum>, gras: Option<JsNum>,
    carb: Option<JsNum>, azu: Option<JsNum>, fibra: Option<JsNum>,
    grams: JsNum)

  /** One food in the running selection. Its numbers are always finite. */
  datatype Entry = Entry(
    id: real, code: Json, name: Json, brand: Json,
    grams: real, kcal: real, prot: real, carb: real, gras: real)

  /** The component-wise sums the selection shows. */
  datatype Totals = Totals(grams: real, kcal: real, prot: real, carb: real, gras: real)

  const NoResultsMessage: string := "No se encontraron resultados para ese término."
  const ConnectMessage: string := "No se pudo conectar al backend."
  const NoCodeMessage: string := "Este resultado no trae código de producto. Prueba otro."
  const DetailMessage: string := "No se pudo obtener el detalle del producto."

  // ---------------------------------------------------------------------
  // Search results (normalizaLista)
  // ---------------------------------------------------------------------

  /** The list inside a search answer: the answer itself when it is an
      array, else its `products` array, else its `resultados` array, else
      nothing. */
  function ResultsArray(raw: Json): (arr: seq<Json>)
    ensures raw.JArr? ==> arr == raw.items
    ensures !raw.JArr? && OptProp(raw, "products").JArr? ==> arr == OptProp(raw, "products").items
    ensures !raw.JArr? && !OptProp(raw, "products").JArr? && OptProp(raw, "resultados").JArr?
            ==> arr == OptProp(raw, "resultados").items
    ensures !raw.JArr? && !OptProp(raw, "products").JArr? && !OptProp(raw, "resultados").JArr? ==> arr == []
  {
    if raw.JArr? then raw.items
    else if OptProp(raw, "products").JArr? then OptProp(raw, "products").items
    else if OptProp(raw, "resultados").JArr? then OptProp(raw, "resultados").items
    else []
  }

  /** The object a result's fields are read from first: its `product`
      member when truthy, else the element itself when truthy, else `{}`. */
  function ProductOf(it: Json): (obj: Json)
    ensures !Nullish(obj)
    ensures Truthy(obj) || obj == JObj(map[])
  {
    OrChain([OptProp(it, "product"), it], JObj(map[]))
  }

  /** One search result as the screen shows it. The code, name, brand and
      image are each the first truthy candidate, with `null`, "Sin nombre",
      "" and `null` as the last resort. */
  function NormalizeItem(it: Json): (r: ListItem)
    requires !Nullish(it)
    ensures Truthy(r.name)
    ensures Truthy(r.code) || r.code == JNull
    ensures Truthy(r.brand) || r.brand == JStr("")
    ensures Truthy(r.image) || r.image == JNull
    ensures r.raw == it
    ensures Truthy(Prop(ProductOf(it), "product_name_es")) ==> r.name == Prop(ProductOf(it), "product_name_es")
  {
    var obj := ProductOf(it);
    var code := OrChain([Prop(obj, "code"), Prop(it, "code"), Prop(obj, "_id"), Prop(it, "_id"),
                         Prop(obj, "id"), Prop(it, "id")], JNull);
    var name := OrChain([Prop(obj, "product_name_es"), Prop(obj, "product_name"),
                         Prop(it, "product_name_es"), Prop(it, "product_name"),
                         Prop(obj, "nombre"), Prop(it, "nombre"),
                         Prop(obj, "generic_name_es"), Prop(obj, "generic_name")], JStr("Sin nombre"));
    var brand := OrChain([Prop(obj, "marca"), Prop(it, "marca"), Prop(obj, "brands"), Prop(it, "brands")], JStr(""));
    var image := OrChain([Prop(obj, "image_front_small_url"), Prop(obj, "image_url"),
                          Prop(it, "image_front_small_url"), Prop(it, "image_url")], JNull);
    ListItem(code, name, brand, image, it)
  }

  predicate NoneNullish(arr: seq<Json>)
  {
    forall i :: 0 <= i < |arr| ==> !Nullish(arr[i])
  }

  /** The `.map` over the results: element `i` of the list is element `i`
      of the answer, normalised, so every entry has a name to show. */
  function NormalizeAll(arr: seq<Json>): (items: seq<ListItem>)
    requires NoneNullish(arr)
    ensures |items| == |arr|
    ensures forall i :: 0 <= i < |items| ==> items[i] == NormalizeItem(arr[i]) && Truthy(items[i].name)
  {
    seq(|arr|, i requires 0 <= i < |arr| => NormalizeItem(arr[i]))
  }

  /** The `.filter` that keeps the results with a truthy name. */
  function Named(items: seq<ListItem>): (r: seq<ListItem>)
    ensures forall i :: 0 <= i < |r| ==> Truthy(r[i].name)
    ensures |r| <= |items|
  {
    if items == [] then []
    else if Truthy(items[0].name) then [items[0]] + Named(items[1..])
    else Named(items[1..])
  }

  /** `.slice(0, 15)`. */
  function FirstFifteen(items: seq<ListItem>): (r: seq<ListItem>)
    ensures |r| == if |items| < 15 then |items| else 15
    ensures r == items[..|r|]
  {
    if |items| < 15 then items else items[..15]
  }

  /** `normalizaLista(raw)`. Reading `it.code` on a `null` element throws, so
      an answer whose list holds a `null` gives `None`. */
  function NormalizaLista(raw: Json): (r: Option<seq<ListItem>>)
    ensures r.None? <==> !NoneNullish(ResultsArray(raw))
    ensures r.Some? ==> |r.value| <= 15
    ensures r.Some? ==> forall i :: 0 <= i < |r.value| ==> Truthy(r.value[i].name)
  {
    var arr := ResultsArray(raw);
    if NoneNullish(arr) then Some(FirstFifteen(Named(NormalizeAll(arr)))) else None
  }

  /** The name filter keeps everything, since every normalised name is truthy. */
  lemma {:induction false} NamedKeepsAll(items: seq<ListItem>)
    requires forall i :: 0 <= i < |items| ==> Truthy(items[i].name)
    ensures Named(items) == items
  {
    if items != [] {
      assert forall i :: 1 <= i < |items| ==> items[1..][i - 1] == items[i];
      NamedKeepsAll(items[1..]);
    }
  }

  /** The normalised list is the first fifteen elements of the answer's
      list, each normalised, in order. */
  lemma NormalizaListaKeepsOrder(raw: Json)
    requires NoneNullish(ResultsArray(raw))
    ensures var arr := ResultsArray(raw);
            var l := NormalizaLista(raw).value;
            |l| == (if |arr| < 15 then |arr| else 15)
            && forall i :: 0 <= i < |l| ==> l[i] == NormalizeItem(arr[i])
  {
    var arr := ResultsArray(raw);
    var items := NormalizeAll(arr);
    NamedKeepsAll(items);
  }

  // ---------------------------------------------------------------------
  // Product detail (normalizaDetalle)
  // ---------------------------------------------------------------------

  /** The nutrient table of a detail answer: `nutrientes_por_100g`, else
      `nutriments`, else `nutrientes`, else `{}`. */
  function NutrientsOf(detalle: Json): (nutr: Json)
    ensures !Nullish(nutr)
  {
    Or(OptProp(detalle, "nutrientes_por_100g"),
       Or(OptProp(detalle, "nutriments"), Or(OptProp(detalle, "nutrientes"), JObj(map[]))))
  }

  /** The energy fallback: kilojoules converted with 4.184 and rounded as
      `Math.round` does, when `energy_100g` is a number; else `null`. */
  function EnergyFallback(nutr: Json): (k: Json)
    requires !Nullish(nutr)
    ensures Prop(nutr, "energy_100g").JNum? ==> k == JNum(Rounding.JsMathRound(Prop(nutr, "energy_100g").r / 4.184) as real)
    ensures !Prop(nutr, "energy_100g").JNum? ==> k == JNull
  {
    var e := Prop(nutr, "energy_100g");
    if e.JNum? then JNum(Rounding.JsMathRound(e.r / 4.184) as real) else JNull
  }

  /** `normalizaDetalle(detalle)`. */
  function NormalizaDetalle(detalle: Json): (m: Macros100)
    ensures !m.cal.JUndefined? && !m.prot.JUndefined? && !m.gras.JUndefined?
    ensures !m.carb.JUndefined? && !m.azu.JUndefined? && !m.fibra.JUndefined?
  {
    var nutr := NutrientsOf(detalle);
    var kcal := Coalesce(Prop(nutr, "calorias"), Coalesce(Prop(nutr, "energy-kcal_100g"), EnergyFallback(nutr)));
    Macros100(
      Coalesce(kcal, JNull),
      Coalesce(Prop(nutr, "proteinas"), Coalesce(Prop(nutr, "proteins_100g"), JNull)),
      Coalesce(Prop(nutr, "grasas"), Coalesce(Prop(nutr, "fat_100g"), JNull)),
      Coalesce(Prop(nutr, "carbohidratos"), Coalesce(Prop(nutr, "carbohydrates_100g"), JNull)),
      Coalesce(Prop(nutr, "azucares"), Coalesce(Prop(nutr, "sugars_100g"), JNull)),
      Coalesce(Prop(nutr, "fibra"), Coalesce(Prop(nutr, "fiber_100g"), JNull)))
  }

  /** Where the energy comes from: `calorias` when present, else
      `energy-kcal_100g`, else rounded kilojoules / 4.184 when `energy_100g`
      is a number, else `null`. */
  lemma DetalleEnergy(detalle: Json)
    ensures var nutr := NutrientsOf(detalle);
            var cal := NormalizaDetalle(detalle).cal;
            var c := Prop(nutr, "calorias");
            var k := Prop(nutr, "energy-kcal_100g");
            var e := Prop(nutr, "energy_100g");
            (!Nullish(c) ==> cal == c)
            && (Nullish(c) && !Nullish(k) ==> cal == k)
            && (Nullish(c) && Nullish(k) && e.JNum? ==> cal == JNum(Rounding.JsMathRound(e.r / 4.184) as real))
            && (Nullish(c) && Nullish(k) && !e.JNum? ==> cal == JNull)
  {
    var nutr := NutrientsOf(detalle);
    var c := Prop(nutr, "calorias");
    var k := Prop(nutr, "energy-kcal_100g");
    var vs := [c, k];
    assert vs[0] == c && vs[1] == k;
  }

  // ---------------------------------------------------------------------
  // The gram calculator (scaled)
  // ---------------------------------------------------------------------

  /** `Math.max(0, Number(grams) || 0)`: never NaN and never negative. */
  function GramsOf(grams: Json): (g: JsNum)
    ensures (g.Fin? && g.r >= 0.0) || g.PosInf?
    ensures ToNumber(grams).Fin? && ToNumber(grams).r >= 0.0 ==> g == ToNumber(grams)
    ensures ToNumber(grams).NaN? || (ToNumber(grams).Fin? && ToNumber(grams).r < 0.0) || ToNumber(grams).NegInf?
            ==> g == Fin(0.0)
  {
    MaxZero(NumOrZero(ToNumber(grams)))
  }

  /** `s(v)`: `null` (or `undefined`) stays `null`; anything else is read as
      a number and scaled by `g / 100`. */
  function ScaleNutrient(v: Json, g: JsNum): (r: Option<JsNum>)
    ensures r.None? <==> Nullish(v)
    ensures r.Some? && ToNumber(v).Fin? && g.Fin? ==> r.value == Fin(ToNumber(v).r * g.r / 100.0)
  {
    if Nullish(v) then None else Some(DivBy(Mul(ToNumber(v), g), 100.0))
  }

  /** `scaled`: nothing without a chosen product, otherwise every nutrient
      scaled to the chosen grams. */
  function ScaledOf(sel: Option<Selected>, grams: Json): (r: Option<Scaled>)
    ensures r.None? <==> sel.None?
    ensures r.Some? ==> r.value.grams == GramsOf(grams)
    ensures r.Some? ==> (r.value.cal.None? <==> Nullish(sel.value.macros100g.cal))
  {
    match sel
    case None => None
    case Some(s) =>
      var g := GramsOf(grams);
      var m := s.macros100g;
      Some(Scaled(ScaleNutrient(m.cal, g), ScaleNutrient(m.prot, g), ScaleNutrient(m.gras, g),
                  ScaleNutrient(m.carb, g), ScaleNutrient(m.azu, g), ScaleNutrient(m.fibra, g), g))
  }

  /** A nutrient read at its own value: `null` stays `null`, anything else becomes its number. */
  function AsNumber(v: Json): (r: Option<JsNum>)
    ensures r.None? <==> Nullish(v)
  {
    if Nullish(v) then None else Some(ToNumber(v))
  }

  /** At 100 g, which is what choosing a product sets, scaling is the
      identity on every nutrient, special values included. */
  lemma ScaledAtHundred(s: Selected)
    ensures var m := s.macros100g;
            ScaledOf(Some(s), JNum(100.0))
            == Some(Scaled(AsNumber(m.cal), AsNumber(m.prot), AsNumber(m.gras),
                           AsNumber(m.carb), AsNumber(m.azu), AsNumber(m.fibra), Fin(100.0)))
  {
    var m := s.macros100g;
    assert GramsOf(JNum(100.0)) == Fin(100.0);
    forall v | v in [m.cal, m.prot, m.gras, m.carb, m.azu, m.fibra]
      ensures ScaleNutrient(v, Fin(100.0)) == AsNumber(v)
    {
      HundredIsIdentity(ToNumber(v));
    }
  }

  /** Multiplying by 100 and dividing by 100 gives the number back. */
  lemma HundredIsIdentity(n: JsNum)
    ensures DivBy(Mul(n, Fin(100.0)), 100.0) == n
  {
    if n.NegInf? {
      assert Mul(n, Fin(100.0)) == NegInf;
    }
  }

  /** Scaling is linear in the grams: twice the grams, twice each nutrient. */
  lemma ScaleNutrientLinear(v: Json, g: real, twiceG: real)
    requires ToNumber(v).Fin? && !Nullish(v) && g >= 0.0 && twiceG == 2.0 * g
    ensures ScaleNutrient(v, Fin(twiceG)).value.r == 2.0 * ScaleNutrient(v, Fin(g)).value.r
  {
    ScaledNumberLinear(ToNumber(v), g, twiceG);
  }

  /** The arithmetic behind `ScaleNutrientLinear`, on the number already read. */
  lemma ScaledNumberLinear(n: JsNum, g: real, h: real)
    requires n.Fin? && h == 2.0 * g
    ensures DivBy(Mul(n, Fin(h)), 100.0).r == 2.0 * DivBy(Mul(n, Fin(g)), 100.0).r
  {
    assert n.r * h == 2.0 * (n.r * g);
  }

  // ---------------------------------------------------------------------
  // The selection and its totals
  // ---------------------------------------------------------------------

  /** `toNum`: a finite number stays, anything else (`null`, NaN, an
      infinity) becomes 0. */
  function ToNum(v: Option<JsNum>): (x: real)
    ensures v.Some? && v.value.Fin? ==> x == v.value.r
    ensures !(v.Some? && v.value.Fin?) ==> x == 0.0
  {
    if v.Some? && v.value.Fin? then v.value.r else 0.0
  }

  /** The entry `addActual` appends for a product and its scaled values. */
  function EntryOf(id: real, s: Selected, sc: Scaled): (e: Entry)
    ensures e.id == id
    ensures Truthy(e.name) || e.name == JStr("Alimento")
    ensures Truthy(e.code) || e.code == JStr("")
    ensures Truthy(e.brand) || e.brand == JStr("")
    ensures sc.grams.Fin? ==> e.grams == sc.grams.r
    ensures sc.grams.PosInf? ==> e.grams == 0.0
    ensures e.kcal == ToNum(sc.cal) && e.prot == ToNum(sc.prot) && e.carb == ToNum(sc.carb) && e.gras == ToNum(sc.gras)
  {
    Entry(id, Or(s.item.code, JStr("")), Or(s.item.name, JStr("Alimento")), Or(s.item.brand, JStr("")),
          ToNum(Some(sc.grams)), ToNum(sc.cal), ToNum(sc.prot), ToNum(sc.carb), ToNum(sc.gras))
  }

  const NoTotals := Totals(0.0, 0.0, 0.0, 0.0, 0.0)

  /** One step of the reduce. `it.x || 0` is `it.x` for the finite numbers
      entries hold, so the field is added as it is. */
  function Plus(a: Totals, it: Entry): Totals
  {
    Totals(a.grams + it.grams, a.kcal + it.kcal, a.prot + it.prot, a.carb + it.carb, a.gras + it.gras)
  }

  function Sum(a: Totals, b: Totals): Totals
  {
    Totals(a.grams + b.grams, a.kcal + b.kcal, a.prot + b.prot, a.carb + b.carb, a.gras + b.gras)
  }

  /** `totals`: the reduce over the selection, left to right from zeros. */
  function TotalsOf(s: seq<Entry>): (t: Totals)
    ensures s == [] ==> t == NoTotals
  {
    if s == [] then NoTotals else Plus(TotalsOf(s[..|s| - 1]), s[|s| - 1])
  }

  /** The totals of two selections laid end to end are the sum of their totals. */
  lemma {:induction false} TotalsConcat(a: seq<Entry>, b: seq<Entry>)
    ensures TotalsOf(a + b) == Sum(TotalsOf(a), TotalsOf(b))
  {
    if b == [] {
      assert a + b == a;
    } else {
      assert (a + b)[..|a + b| - 1] == a + b[..|b| - 1];
      TotalsConcat(a, b[..|b| - 1]);
    }
  }

  /** Each component of the totals is the sum of that field over the
      entries, added up from the front. */
  lemma {:induction false} TotalsAreFieldSums(s: seq<Entry>)
    ensures TotalsOf(s) == Totals(FieldSum(s, Grams), FieldSum(s, Kcal), FieldSum(s, Prot),
                                  FieldSum(s, Carb), FieldSum(s, Gras))
  {
    if s != [] {
      var rest := s[1..];
      assert s == [s[0]] + rest;
      assert [s[0]][..0] == [];
      TotalsConcat([s[0]], rest);
      TotalsAreFieldSums(rest);
    }
  }

  /** The numeric columns of an entry. */
  datatype Field = Grams | Kcal | Prot | Carb | Gras

  function FieldOf(e: Entry, f: Field): real
  {
    match f
    case Grams => e.grams
    case Kcal => e.kcal
    case Prot => e.prot
    case Carb => e.carb
    case Gras => e.gras
  }

  /** A column summed from the first entry on: the reference for the
      left-to-right reduce. */
  function FieldSum(s: seq<Entry>, f: Field): real
  {
    if s == [] then 0.0 else FieldOf(s[0], f) + FieldSum(s[1..], f)
  }

  /** `removeItem(id)`: the entries whose id differs, in their order. */
  function Without(s: seq<Entry>, id: real): (r: seq<Entry>)
    ensures forall e :: e in r ==> e.id != id
    ensures forall e :: e in s && e.id != id ==> e in r
  {
    if s == [] then []
    else
      var rest := Without(s[..|s| - 1], id);
      var last := s[|s| - 1];
      assert s == s[..|s| - 1] + [last];
      if last.id != id then rest + [last] else rest
  }

  /** Removing an id keeps every other entry as many times as it occurred. */
  lemma {:induction false} WithoutCounts(s: seq<Entry>, id: real)
    ensures forall e :: multiset(Without(s, id))[e] == if e.id == id then 0 else multiset(s)[e]
  {
    if s != [] {
      var init := s[..|s| - 1];
      var last := s[|s| - 1];
      WithoutCounts(init, id);
      assert s == init + [last];
      assert multiset(s) == multiset(init) + multiset{last};
      if last.id != id {
        assert Without(s, id) == Without(init, id) + [last];
        assert multiset(Without(s, id)) == multiset(Without(init, id)) + multiset{last};
      }
    }
  }

  /** The entries with the given id, in their order. */
  function Only(s: seq<Entry>, id: real): (r: seq<Entry>)
    ensures forall e :: e in r ==> e.id == id
  {
    if s == [] then []
    else
      var last := s[|s| - 1];
      Only(s[..|s| - 1], id) + (if last.id == id then [last] else [])
  }

  /** Appending one entry adds it to the totals. */
  lemma TotalsAppend(s: seq<Entry>, e: Entry)
    ensures TotalsOf(s + [e]) == Plus(TotalsOf(s), e)
  {
    assert (s + [e])[..|s|] == s;
  }

  /** Removing an id takes exactly that id's entries out of the totals. */
  lemma {:induction false} RemoveSplitsTotals(s: seq<Entry>, id: real)
    ensures Sum(TotalsOf(Without(s, id)), TotalsOf(Only(s, id))) == TotalsOf(s)
  {
    if s != [] {
      var init, last := s[..|s| - 1], s[|s| - 1];
      assert s == init + [last];
      RemoveSplitsTotals(init, id);
      TotalsAppend(init, last);
      var w, o := Without(init, id), Only(init, id);
      SplitStep(init, last, id);
      if last.id == id {
        TotalsAppend(o, last);
        SumPlus(TotalsOf(w), TotalsOf(o), last);
      } else {
        TotalsAppend(w, last);
        SumPlus(TotalsOf(w), TotalsOf(o), last);
      }
    }
  }

  /** One more entry goes to exactly one side of the split. */
  lemma SplitStep(init: seq<Entry>, last: Entry, id: real)
    ensures last.id == id ==> Without(init + [last], id) == Without(init, id) && Only(init + [last], id) == Only(init, id) + [last]
    ensures last.id != id ==> Without(init + [last], id) == Without(init, id) + [last] && Only(init + [last], id) == Only(init, id)
  {
    assert (init + [last])[..|init|] == init;
  }

  /** Adding an entry to either side of a sum adds it to the sum. */
  lemma SumPlus(a: Totals, b: Totals, e: Entry)
    ensures Sum(Plus(a, e), b) == Plus(Sum(a, b), e)
    ensures Sum(a, Plus(b, e)) == Plus(Sum(a, b), e)
  {
  }

  // ---------------------------------------------------------------------
  // Search and choice outcomes
  // ---------------------------------------------------------------------

  /** What a search ends in: a blank query (nothing sent), results, an
      empty list, or a failure (the request threw, or normalising did). */
  datatype SearchOutcome = Blank | Found(items: seq<ListItem>) | NoResults | ConnectFailed

  function SearchOf(query: string, response: Option<Json>): (o: SearchOutcome)
    ensures o.Blank? <==> Trim(query) == []
    ensures o.Found? ==> 1 <= |o.items| <= 15 && forall i :: 0 <= i < |o.items| ==> Truthy(o.items[i].name)
    ensures o.ConnectFailed? <==> Trim(query) != [] && (response.None? || NormalizaLista(response.value).None?)
  {
    if Trim(query) == [] then Blank
    else if response.None? then ConnectFailed
    else
      match NormalizaLista(response.value)
      case None => ConnectFailed
      case Some(l) => if |l| == 0 then NoResults else Found(l)
  }

  /** The error line a search leaves. */
  function SearchMessage(o: SearchOutcome): (msg: string)
    ensures msg == "" <==> o.Blank? || o.Found?
  {
    match o
    case Blank => ""
    case Found(_) => ""
    case NoResults => NoResultsMessage
    case ConnectFailed => ConnectMessage
  }

  /** A search shows results exactly when the query is not blank, the answer
      arrived, and its list normalises to something non-empty. */
  lemma SearchFoundIff(query: string, response: Option<Json>)
    ensures SearchOf(query, response).Found?
            <==> Trim(query) != [] && response.Some? && NormalizaLista(response.value).Some?
                 && |NormalizaLista(response.value).value| > 0
  {
  }

  // ---------------------------------------------------------------------
  // The screen's state
  // ---------------------------------------------------------------------

  class FoodLookup {
    var step: Step
    var query: string
    var resultados: seq<ListItem>
    var sel: Option<Selected>
    var loadingES: bool
    var errorES: string
    /** The calculator's grams: the number 100 or the text typed in. */
    var grams: Json
    var seleccion: seq<Entry>

    /** The listed results are at most fifteen, each with a name to show. */
    ghost predicate Valid()
      reads this
    {
      |resultados| <= 15 && forall i :: 0 <= i < |resultados| ==> Truthy(resultados[i].name)
    }

    constructor ()
      ensures step == AskName && query == "" && resultados == [] && sel == None
      ensures !loadingES && errorES == "" && grams == JNum(100.0) && seleccion == []
      ensures Valid()
    {
      step := AskName;
      query := "";
      resultados := [];
      sel := None;
      loadingES := false;
      errorES := "";
      grams := JNum(100.0);
      seleccion := [];
    }

    function ScaledNow(): Option<Scaled>
      reads this
    {
      ScaledOf(sel, grams)
    }

    function TotalsNow(): Totals
      reads this
    {
      TotalsOf(seleccion)
    }

    /** `addActual`: with a product chosen, append one entry for it at the
        end and raise the totals by exactly that entry; otherwise nothing. */
    method AddActual(freshId: real)
      requires Valid()
      modifies this
      ensures Valid()
      ensures sel == old(sel) && grams == old(grams) && step == old(step) && query == old(query)
      ensures resultados == old(resultados) && errorES == old(errorES) && loadingES == old(loadingES)
      ensures old(sel).None? ==> seleccion == old(seleccion)
      ensures old(sel).Some? ==>
                seleccion == old(seleccion) + [EntryOf(freshId, old(sel).value, ScaledOf(old(sel), old(grams)).value)]
      ensures old(sel).Some? ==> TotalsNow() == Plus(old(TotalsNow()), seleccion[|seleccion| - 1])
    {
      var scaled := ScaledOf(sel, grams);
      if sel.None? || scaled.None? {
        return;
      }
      var e := EntryOf(freshId, sel.value, scaled.value);
      seleccion := seleccion + [e];
      assert seleccion[..|seleccion| - 1] == old(seleccion);
    }

    /** Typing in the search box: only the query changes. */
    method SetQuery(text: string)
      requires Valid()
      modifies this
      ensures Valid()
      ensures query == text
      ensures step == old(step) && resultados == old(resultados) && sel == old(sel) && grams == old(grams)
      ensures errorES == old(errorES) && loadingES == old(loadingES) && seleccion == old(seleccion)
    {
      query := text;
    }

    /** The grams box (its text) or a preset chip (a number): only the grams
        change, and the calculator follows them, never below zero. */
    method SetGrams(g: Json)
      requires Valid()
      modifies this
      ensures Valid()
      ensures grams == g
      ensures step == old(step) && query == old(query) && resultados == old(resultados) && sel == old(sel)
      ensures errorES == old(errorES) && loadingES == old(loadingES) && seleccion == old(seleccion)
      ensures sel.Some? ==> ScaledNow().value.grams == MaxZero(NumOrZero(ToNumber(g)))
    {
      grams := g;
    }

    /** "Back to search": the screen returns to the search box and keeps
        everything else, the chosen product and the list included. */
    method BackToSearch()
      requires Valid()
      modifies this
      ensures Valid()
      ensures step == AskName
      ensures query == old(query) && resultados == old(resultados) && sel == old(sel) && grams == old(grams)
      ensures errorES == old(errorES) && loadingES == old(loadingES) && seleccion == old(seleccion)
    {
      step := AskName;
    }

    /** `removeItem(id)`: drop the entries with that id, keeping the rest in
        order; the totals lose exactly what those entries held. */
    method RemoveItem(id: real)
      requires Valid()
      modifies this
      ensures Valid()
      ensures sel == old(sel) && grams == old(grams) && step == old(step) && query == old(query)
      ensures resultados == old(resultados) && errorES == old(errorES) && loadingES == old(loadingES)
      ensures seleccion == Without(old(seleccion), id)
      ensures forall e :: multiset(seleccion)[e] == if e.id == id then 0 else multiset(old(seleccion))[e]
      ensures Sum(TotalsNow(), TotalsOf(Only(old(seleccion), id))) == old(TotalsNow())
    {
      RemoveSplitsTotals(seleccion, id);
      WithoutCounts(seleccion, id);
      seleccion := Without(seleccion, id);
    }

    /** `clearAll`: an empty selection, whose totals are all zero. */
    method ClearAll()
      requires Valid()
      modifies this
      ensures Valid()
      ensures sel == old(sel) && grams == old(grams) && step == old(step) && query == old(query)
      ensures resultados == old(resultados) && errorES == old(errorES) && loadingES == old(loadingES)
      ensures seleccion == [] && TotalsNow() == NoTotals
    {
      seleccion := [];
    }

    /** `buscarES` with the answer to the search request. The error line is
        cleared, the selection dropped and the list emptied first; a blank
        query stops there. Otherwise the request is made and its answer
        normalised (`SearchOf`), and the screen moves to the result list only
        when that gives a non-empty list. */
    method BuscarES(response: Option<Json>)
      requires Valid()
      modifies this
      ensures Valid()
      ensures sel == None
      ensures SearchOf(old(query), response).Found? ==> resultados == SearchOf(old(query), response).items && step == Choose
      ensures !SearchOf(old(query), response).Found? ==> resultados == [] && step == old(step)
      ensures errorES == SearchMessage(SearchOf(old(query), response))
      ensures loadingES == (if Trim(old(query)) == [] then old(loadingES) else false)
      ensures query == old(query) && grams == old(grams) && seleccion == old(seleccion)
    {
      var o := SearchOf(query, response);
      ShowSearch(o);
    }

    /** The state changes of `buscarES` once the outcome of the search is
        known: the chosen product is dropped, the result list and the error
        line follow the outcome, and a search that was made stops loading. */
    method ShowSearch(o: SearchOutcome)
      requires Valid()
      requires o.Found? ==> |o.items| <= 15 && forall i :: 0 <= i < |o.items| ==> Truthy(o.items[i].name)
      modifies this
      ensures Valid()
      ensures sel == None
      ensures o.Found? ==> resultados == o.items && step == Choose
      ensures !o.Found? ==> resultados == [] && step == old(step)
      ensures errorES == SearchMessage(o)
      ensures loadingES == (if o.Blank? then old(loadingES) else false)
      ensures query == old(query) && grams == old(grams) && seleccion == old(seleccion)
    {
      errorES := "";
      sel := None;
      resultados := [];
      if o.Blank? {
        return;
      }
      loadingES := true;
      match o {
        case ConnectFailed =>
          errorES := ConnectMessage;
        case NoResults =>
          errorES := NoResultsMessage;
        case Found(items) =>
          resultados := items;
          step := Choose;
      }
      loadingES := false;
    }

    /** `elegir(item)` with the answer to the detail request. A result
        without a code only sets the error line. Otherwise a failed request
        sets its error line, and an answer chooses the product with its
        normalised nutrients, resets the grams to 100 and shows the
        calculator. */
    method Elegir(item: ListItem, detalle: Option<Json>)
      requires Valid()
      modifies this
      ensures Valid()
      ensures query == old(query) && resultados == old(resultados) && seleccion == old(seleccion)
      ensures !Truthy(item.code) ==>
                errorES == NoCodeMessage && step == old(step) && sel == old(sel)
                && grams == old(grams) && loadingES == old(loadingES)
      ensures Truthy(item.code) && detalle.None? ==>
                errorES == DetailMessage && step == old(step) && sel == old(sel) && grams == old(grams) && !loadingES
      ensures Truthy(item.code) && detalle.Some? ==>
                errorES == "" && step == Detail && sel == Some(Selected(item, NormalizaDetalle(detalle.value)))
                && grams == JNum(100.0) && !loadingES
    {
      errorES := "";
      if !Truthy(item.code) {
        errorES := NoCodeMessage;
        return;
      }
      loadingES := true;
      if detalle.None? {
        errorES := DetailMessage;
      } else {
        sel := Some(Selected(item, NormalizaDetalle(detalle.value)));
        grams := JNum(100.0);
        step := Detail;
      }
      loadingES := false;
    }
  }

  /** Right after a product is chosen, the calculator shows its per-100 g
      values unchanged. */
  lemma ChosenShowsPer100(item: ListItem, detalle: Json)
    ensures var m := NormalizaDetalle(detalle);
            ScaledOf(Some(Selected(item, m)), JNum(100.0)).value.cal == AsNumber(m.cal)
  {
    ScaledAtHundred(Selected(item, NormalizaDetalle(detalle)));
  }
}
