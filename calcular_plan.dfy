/** The plan chat of the front end (`CalcularPlan.jsx`): one message with
    the user's data is sent to `POST /plan/`, the answer is shown as a plan
    or as a request to rephrase, and an accepted plan can be handed to the
    menu page as a query string of energy and macro targets.

    The request is not modelled; its answer is a parameter (`None` when the
    request or its JSON decoding throws). */
module CalcularPlan {
  import opened Wrappers
  import opened JsValues
  import PlanParser

  datatype Speaker = Bot | User

  /** What a bubble shows: the greeting with the instructions, the user's
      own text, the plan summary built from an answer, or one of the two
      error lines. */
  datatype Bubble = Welcome | Said(text: string) | PlanSummary(data: Json) | NotUnderstood | Failed

  datatype Message = Message(from: Speaker, text: Bubble)

  const Initial := Message(Bot, Welcome)

  // ---------------------------------------------------------------------
  // Accepting an answer (handleSend)
  // ---------------------------------------------------------------------

  /** `data && data.bmr && data.tdee`. */
  predicate Accepted(data: Json)
  {
    Truthy(data) && Truthy(Prop(data, "bmr")) && Truthy(Prop(data, "tdee"))
  }

  /** The bot's reply to an answer: the plan when accepted, the request to
      rephrase when not, the failure line when the request threw. */
  function Reply(response: Option<Json>): (b: Bubble)
    ensures b.PlanSummary? <==> response.Some? && Accepted(response.value)
    ensures b.PlanSummary? ==> b.data == response.value
    ensures b == Failed <==> response.None?
    ensures b == NotUnderstood <==> response.Some? && !Accepted(response.value)
  {
    match response
    case None => Failed
    case Some(data) => if Accepted(data) then PlanSummary(data) else NotUnderstood
  }

  /** The whole transcript after a send: only one conversation is kept. */
  function Transcript(prompt: string, response: Option<Json>): (t: seq<Message>)
    ensures |t| == 3 && t[0] == Initial
    ensures t[1] == Message(User, Said(prompt))
    ensures t[2].from == Bot && t[2].text == Reply(response)
  {
    [Initial, Message(User, Said(prompt)), Message(Bot, Reply(response))]
  }

  /** The plan kept after a send: the answer when accepted, `null` otherwise. */
  function PlanAfter(response: Option<Json>): (p: Json)
    ensures Truthy(p) <==> response.Some? && Accepted(response.value)
    ensures Truthy(p) ==> p == response.value
    ensures !Truthy(p) ==> p == JNull
  {
    if response.Some? && Accepted(response.value) then response.value else JNull
  }

  // ---------------------------------------------------------------------
  // Prefill and hand-off (buildPrefillFromPlan, handleGoGenerateMenus)
  // ---------------------------------------------------------------------

  /** The targets handed to the menu page, not rounded. */
  datatype Prefill = Prefill(kcal: JsNum, proteinG: JsNum, carbG: JsNum, fatG: JsNum)

  /** `Number(v ?? 0)`: a missing value counts as 0. */
  function NumberOrZero(v: Json): (n: JsNum)
    ensures Nullish(v) ==> n == Fin(0.0)
    ensures v.JNum? ==> n == Fin(v.r)
  {
    ToNumber(Coalesce(v, JNum(0.0)))
  }

  /** `buildPrefillFromPlan(p)`: nothing without a plan; the energy is the
      goal calories when present, else the expenditure; missing macros are 0. */
  function BuildPrefillFromPlan(p: Json): (r: Option<Prefill>)
    ensures r.None? <==> !Truthy(p)
    ensures r.Some? && !Nullish(Prop(p, "calorias_objetivo")) ==> r.value.kcal == ToNumber(Prop(p, "calorias_objetivo"))
    ensures r.Some? && Nullish(Prop(p, "calorias_objetivo")) ==> r.value.kcal == ToNumber(Prop(p, "tdee"))
    ensures r.Some? && Prop(p, "calorias_objetivo").JNum? ==> r.value.kcal == Fin(Prop(p, "calorias_objetivo").r)
    ensures r.Some? ==> r.value.proteinG == NumberOrZero(Prop(p, "proteinas"))
    ensures r.Some? ==> r.value.carbG == NumberOrZero(Prop(p, "carbohidratos"))
    ensures r.Some? ==> r.value.fatG == NumberOrZero(Prop(p, "grasas"))
  {
    if !Truthy(p) then None
    else
      Some(Prefill(
        ToNumber(Coalesce(Prop(p, "calorias_objetivo"), Prop(p, "tdee"))),
        NumberOrZero(Prop(p, "proteinas")),
        NumberOrZero(Prop(p, "carbohidratos")),
        NumberOrZero(Prop(p, "grasas"))))
  }

  /** The query string's parameters, in order (the numbers before `String`
      formats them). */
  function QueryOf(pre: Prefill): (q: seq<(string, JsNum)>)
    ensures |q| == 4
  {
    [("kcal", pre.kcal), ("protein_g", pre.proteinG), ("carb_g", pre.carbG), ("fat_g", pre.fatG)]
  }

  /** The value the menu page reads for a parameter: the first one with that name. */
  function Lookup(q: seq<(string, JsNum)>, key: string): (v: Option<JsNum>)
    ensures v.None? <==> forall i :: 0 <= i < |q| ==> q[i].0 != key
  {
    if q == [] then None
    else if q[0].0 == key then Some(q[0].1)
    else
      assert forall i :: 1 <= i < |q| ==> q[i] == q[1..][i - 1];
      Lookup(q[1..], key)
  }

  /** The query round-trips: each of the four names reads back its target,
      and no other name is present. */
  lemma QueryReadsBack(pre: Prefill, key: string)
    ensures Lookup(QueryOf(pre), "kcal") == Some(pre.kcal)
    ensures Lookup(QueryOf(pre), "protein_g") == Some(pre.proteinG)
    ensures Lookup(QueryOf(pre), "carb_g") == Some(pre.carbG)
    ensures Lookup(QueryOf(pre), "fat_g") == Some(pre.fatG)
    ensures key != "kcal" && key != "protein_g" && key != "carb_g" && key != "fat_g"
            ==> Lookup(QueryOf(pre), key) == None
  {
    var q := QueryOf(pre);
    assert q[0].0 == "kcal" && q[1].0 == "protein_g" && q[2].0 == "carb_g" && q[3].0 == "fat_g";
    assert "protein_g" != "kcal" by { assert "protein_g"[0] != "kcal"[0]; }
    assert "carb_g" != "kcal" && "carb_g" != "protein_g" by {
      assert "carb_g"[0] != "kcal"[0] && "carb_g"[0] != "protein_g"[0];
    }
    assert "fat_g" != "kcal" && "fat_g" != "protein_g" && "fat_g" != "carb_g" by {
      assert "fat_g"[0] != "kcal"[0] && "fat_g"[0] != "protein_g"[0] && "fat_g"[0] != "carb_g"[0];
    }
    assert q[1..][1..] == q[2..] && q[2..][1..] == q[3..];
    assert Lookup(q[2..], "carb_g") == Some(pre.carbG);
    assert Lookup(q[3..], "fat_g") == Some(pre.fatG);
    assert Lookup(q[2..], "fat_g") == Lookup(q[3..], "fat_g");
  }

  /** `handleGoGenerateMenus`: nothing without a plan, otherwise the query
      built from the prefill. */
  function MenusQuery(plan: Json): (q: Option<seq<(string, JsNum)>>)
    ensures q.None? <==> !Truthy(plan)
    ensures q.Some? ==> q.value == QueryOf(BuildPrefillFromPlan(plan).value)
  {
    match BuildPrefillFromPlan(plan)
    case None => None
    case Some(pre) => Some(QueryOf(pre))
  }

  // ---------------------------------------------------------------------
  // The backend's answer as JSON
  // ---------------------------------------------------------------------

  function NumOrNull(x: Option<real>): (j: Json)
    ensures x.None? <==> j == JNull
  {
    match x
    case None => JNull
    case Some(v) => JNum(v)
  }

  /** The JSON `POST /plan/` sends for a response: every field by name, an
      absent value as `null`. */
  function PlanJson(r: PlanParser.PlanResponse): (j: Json)
    ensures j.JObj?
  {
    var pct := match r.porcentajes
      case None => JNull
      case Some(s) => JObj(map["carbohidratos" := JNum(s.carbohidratos), "proteinas" := JNum(s.proteinas),
                               "grasas" := JNum(s.grasas)]);
    JObj(map["bmr" := NumOrNull(r.bmr), "tdee" := NumOrNull(r.tdee),
             "calorias_objetivo" := NumOrNull(r.caloriasObjetivo),
             "proteinas" := NumOrNull(r.proteinas), "grasas" := NumOrNull(r.grasas),
             "carbohidratos" := NumOrNull(r.carbohidratos), "porcentajes" := pct])
  }

  /** The chat accepts a backend answer exactly when its basal rate and its
      expenditure are both present and non-zero. */
  lemma AcceptedBackendAnswer(r: PlanParser.PlanResponse)
    ensures Accepted(PlanJson(r)) <==> r.bmr.Some? && r.bmr.value != 0.0 && r.tdee.Some? && r.tdee.value != 0.0
  {
    var j := PlanJson(r);
    assert Prop(j, "bmr") == NumOrNull(r.bmr);
    assert Prop(j, "tdee") == NumOrNull(r.tdee);
  }

  /** A message in which the backend does not find age, weight and height
      gets the request to rephrase. */
  lemma UnreadMessageRejected(prompt: string)
    requires PlanParser.Extract(Text.Lower(prompt)).None?
    ensures Reply(Some(PlanJson(PlanParser.PlanFor(prompt)))) == NotUnderstood
  {
    PlanParser.PlanAnsweredIffNumbersFound(prompt);
    AcceptedBackendAnswer(PlanParser.PlanFor(prompt));
  }

  /** The prefill built from a backend answer carries its goal calories and
      its grams unchanged. */
  lemma PrefillOfBackendAnswer(r: PlanParser.PlanResponse)
    requires r.bmr.Some? && r.bmr.value != 0.0 && r.tdee.Some? && r.tdee.value != 0.0
    requires r.caloriasObjetivo.Some? && r.proteinas.Some? && r.carbohidratos.Some? && r.grasas.Some?
    ensures BuildPrefillFromPlan(PlanJson(r))
            == Some(Prefill(Fin(r.caloriasObjetivo.value), Fin(r.proteinas.value),
                            Fin(r.carbohidratos.value), Fin(r.grasas.value)))
  {
    var j := PlanJson(r);
    assert Prop(j, "calorias_objetivo") == JNum(r.caloriasObjetivo.value);
    assert Prop(j, "proteinas") == JNum(r.proteinas.value);
    assert Prop(j, "carbohidratos") == JNum(r.carbohidratos.value);
    assert Prop(j, "grasas") == JNum(r.grasas.value);
  }

  // ---------------------------------------------------------------------
  // The chat's state
  // ---------------------------------------------------------------------

  class ChatSession {
    var messages: seq<Message>
    var input: string
    /** The accepted answer, or `null`. */
    var plan: Json
    var loading: bool

    /** The transcript is the greeting alone or one exchange of three
        bubbles, and a kept plan is an accepted answer shown as the last
        bubble. */
    ghost predicate Valid()
      reads this
    {
      (messages == [Initial]
       || (|messages| == 3 && messages[0] == Initial && messages[1].from == User && messages[2].from == Bot))
      && (Truthy(plan) ==> Accepted(plan) && |messages| == 3 && messages[2] == Message(Bot, PlanSummary(plan)))
    }

    constructor ()
      ensures messages == [Initial] && input == "" && plan == JNull && !loading
      ensures Valid()
    {
      messages := [Initial];
      input := "";
      plan := JNull;
      loading := false;
    }

    /** `resetChat`: back to the greeting, with no plan, an empty box and
        nothing in flight. */
    method ResetChat()
      modifies this
      ensures messages == [Initial] && input == "" && plan == JNull && !loading
      ensures Valid()
    {
      plan := JNull;
      messages := [Initial];
      input := "";
      loading := false;
    }

    /** The text box's `onChange`. */
    method SetInput(text: string)
      requires Valid()
      modifies this
      ensures Valid()
      ensures input == text && messages == old(messages) && plan == old(plan) && loading == old(loading)
    {
      input := text;
    }

    /** The synchronous start of `handleSend`: a blank box or a request in
        flight stops it; otherwise the request starts with the box's text. */
    method StartSend() returns (started: bool, prompt: string)
      requires Valid()
      modifies this
      ensures Valid()
      ensures started <==> Trim(old(input)) != [] && !old(loading)
      ensures started ==> loading && prompt == old(input)
      ensures !started ==> loading == old(loading)
      ensures messages == old(messages) && plan == old(plan) && input == old(input)
    {
      if Trim(input) == [] || loading {
        return false, "";
      }
      loading := true;
      return true, input;
    }

    /** The rest of `handleSend` once the answer is in: the transcript
        becomes greeting, user text, reply; the plan is kept only when
        accepted; the box is emptied and loading ends. */
    method FinishSend(prompt: string, response: Option<Json>)
      requires Valid()
      modifies this
      ensures Valid()
      ensures messages == Transcript(prompt, response)
      ensures plan == PlanAfter(response)
      ensures !loading && input == ""
    {
      match response {
        case Some(data) =>
          if Accepted(data) {
            plan := data;
            messages := [Initial, Message(User, Said(prompt)), Message(Bot, PlanSummary(data))];
          } else {
            plan := JNull;
            messages := [Initial, Message(User, Said(prompt)), Message(Bot, NotUnderstood)];
          }
        case None =>
          plan := JNull;
          messages := [Initial, Message(User, Said(prompt)), Message(Bot, Failed)];
      }
      loading := false;
      input := "";
    }

    /** `handleSend` run to completion with the given answer. */
    method HandleSend(response: Option<Json>)
      requires Valid()
      modifies this
      ensures Valid()
      ensures Trim(old(input)) == [] || old(loading) ==>
                messages == old(messages) && plan == old(plan) && input == old(input) && loading == old(loading)
      ensures Trim(old(input)) != [] && !old(loading) ==>
                messages == Transcript(old(input), response) && plan == PlanAfter(response) && !loading && input == ""
    {
      var started, prompt := StartSend();
      if started {
        FinishSend(prompt, response);
      }
    }
  }
}
