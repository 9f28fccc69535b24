/** An Action: a user-defined rule converting a quantity of some activity
    (minutes walked, photos taken) into tokens. */
module ActionModel {
  import opened Wrappers
  import opened JsonValue
  import opened Errors
  import opened FieldSchema

  datatype Action = Action(
    id: string,
    vbUserId: string,
    name: string,
    conversionUnit: string,       // the unit, e.g. "minutes" or "each"
    inputQuantity: real,          // how much is deposited per conversion
    tokensEarnedPerInput: real,   // tokens earned for that input quantity
    minDeposit: real,
    maxDeposit: Option<real>)     // None: no cap

  /** The ActionJSON shape. */
  function ActionSchema(): Schema {
    Cons(Field("id", IsString),
    Cons(Field("vbUserId", IsString),
    Cons(Field("name", IsString),
    Cons(Field("conversionUnit", IsString),
    Cons(Field("inputQuantity", IsNumber),
    Cons(Field("tokensEarnedPerInput", IsNumber),
    Cons(Field("minDeposit", IsNumber),
    Cons(Field("maxDeposit", OrUndefined(IsNumber)),
    Nil))))))))
  }

  const ActionKeys: set<string> := {
    "id", "vbUserId", "name", "conversionUnit", "inputQuantity",
    "tokensEarnedPerInput", "minDeposit", "maxDeposit"
  }

  const ActionRequiredKeys: set<string> := ActionKeys - {"maxDeposit"}

  /** isActionJSON */
  predicate IsActionJson(v: Json) {
    Guard(ActionSchema(), v)
  }

  /** ActionJSONTest */
  function ActionJsonTest(v: Json): seq<string> {
    Diagnostics(ActionSchema(), v)
  }

  /** The conversion rate, the factor a deposited quantity is multiplied by:
      the product of the input quantity and the tokens it earns. At one unit
      of input it is the tokens per input; it vanishes when either factor is
      zero and is never negative when neither is. */
  function ConversionRate(a: Action): (r: real)
    ensures a.inputQuantity == 1.0 ==> r == a.tokensEarnedPerInput
    ensures a.inputQuantity == 0.0 || a.tokensEarnedPerInput == 0.0 ==> r == 0.0
    ensures a.inputQuantity >= 0.0 && a.tokensEarnedPerInput >= 0.0 ==> r >= 0.0
  {
    a.inputQuantity * a.tokensEarnedPerInput
  }

  /** toJSON. With no cap, `maxDeposit` is written as `undefined`, which
      every guard and serialiser treats as an absent property; it is
      represented here by an absent key. */
  function ToJson(a: Action): (j: Json)
    ensures j.JObject? && j.obj.Keys <= ActionKeys
    ensures ActionRequiredKeys <= j.obj.Keys
    ensures "maxDeposit" in j.obj <==> a.maxDeposit.Some?
    ensures a.maxDeposit.Some? ==> j.obj["maxDeposit"] == JNumber(a.maxDeposit.value)
  {
    var required := map[
      "id" := JString(a.id),
      "vbUserId" := JString(a.vbUserId),
      "name" := JString(a.name),
      "conversionUnit" := JString(a.conversionUnit),
      "inputQuantity" := JNumber(a.inputQuantity),
      "tokensEarnedPerInput" := JNumber(a.tokensEarnedPerInput),
      "minDeposit" := JNumber(a.minDeposit)
    ];
    JObject(if a.maxDeposit.Some? then required["maxDeposit" := JNumber(a.maxDeposit.value)] else required)
  }

  /** The constructor: copies the fields of an ActionJSON payload. On a
      payload the guard accepts, serialising the result gives back exactly
      the properties of the shape. */
  function FromPayload(payload: map<string, Json>): (r: Action)
    ensures IsActionJson(JObject(payload)) ==> ToJson(r) == JObject(Restrict(payload, ActionKeys))
  {
    KeysDistinct();
    GuardFields(JObject(payload));
    Action(
      GetString(payload, "id"),
      GetString(payload, "vbUserId"),
      GetString(payload, "name"),
      GetString(payload, "conversionUnit"),
      GetNumber(payload, "inputQuantity"),
      GetNumber(payload, "tokensEarnedPerInput"),
      GetNumber(payload, "minDeposit"),
      if "maxDeposit" in payload && payload["maxDeposit"].JNumber?
      then Some(payload["maxDeposit"].num) else None)
  }

  /** fromJSON: fails, naming every failing field, exactly when the guard
      fails; otherwise keeps every property of the ActionJSON shape. */
  function FromJson(v: Json): (r: Result<Action, Error>)
    ensures r.Success? <==> IsActionJson(v)
    ensures r.Failure? ==> r.error == InvalidInputError(InvalidJsonMessage(ActionSchema(), v))
  {
    if !IsActionJson(v) then
      Failure(InvalidInputError(InvalidJsonMessage(ActionSchema(), v)))
    else
      Success(FromPayload(v.obj))
  }

  /** fromNewAction: a copy of `a` under a new id. */
  function FromNewAction(id: string, a: Action): (r: Action)
    ensures r == a.(id := id)
    ensures ToJson(r) == JObject(ToJson(a).obj["id" := JString(id)])
  {
    KeysDistinct();
    FromPayload(ToJson(a).obj["id" := JString(id)])
  }

  /** The guard asks for the listed strings and numbers; `maxDeposit` may be
      absent or a number. */
  lemma GuardFields(v: Json)
    ensures IsActionJson(v) <==>
      && v.JObject?
      && "id" in v.obj && v.obj["id"].JString?
      && "vbUserId" in v.obj && v.obj["vbUserId"].JString?
      && "name" in v.obj && v.obj["name"].JString?
      && "conversionUnit" in v.obj && v.obj["conversionUnit"].JString?
      && "inputQuantity" in v.obj && v.obj["inputQuantity"].JNumber?
      && "tokensEarnedPerInput" in v.obj && v.obj["tokensEarnedPerInput"].JNumber?
      && "minDeposit" in v.obj && v.obj["minDeposit"].JNumber?
      && ("maxDeposit" in v.obj ==> v.obj["maxDeposit"].JNumber?)
  {
  }

  /** The property names of the ActionJSON shape are pairwise different. */
  lemma KeysDistinct()
    ensures "id" != "vbUserId"
    ensures "id" != "name"
    ensures "id" != "conversionUnit"
    ensures "id" != "inputQuantity"
    ensures "id" != "tokensEarnedPerInput"
    ensures "id" != "minDeposit"
    ensures "id" != "maxDeposit"
    ensures "vbUserId" != "name"
    ensures "vbUserId" != "conversionUnit"
    ensures "vbUserId" != "inputQuantity"
    ensures "vbUserId" != "tokensEarnedPerInput"
    ensures "vbUserId" != "minDeposit"
    ensures "vbUserId" != "maxDeposit"
    ensures "name" != "conversionUnit"
    ensures "name" != "inputQuantity"
    ensures "name" != "tokensEarnedPerInput"
    ensures "name" != "minDeposit"
    ensures "name" != "maxDeposit"
    ensures "conversionUnit" != "inputQuantity"
    ensures "conversionUnit" != "tokensEarnedPerInput"
    ensures "conversionUnit" != "minDeposit"
    ensures "conversionUnit" != "maxDeposit"
    ensures "inputQuantity" != "tokensEarnedPerInput"
    ensures "inputQuantity" != "minDeposit"
    ensures "inputQuantity" != "maxDeposit"
    ensures "tokensEarnedPerInput" != "minDeposit"
    ensures "tokensEarnedPerInput" != "maxDeposit"
    ensures "minDeposit" != "maxDeposit"
  {
  }

  lemma SchemaDistinct()
    ensures DistinctNames(ActionSchema())
  {
    KeysDistinct();
  }

  lemma SchemaRequired()
    ensures RequiredNames(ActionSchema()) == ActionRequiredKeys
  {
  }

  lemma SchemaOptional()
    ensures CheckOf(ActionSchema(), "maxDeposit") == Some(OrUndefined(IsNumber))
  {
    KeysDistinct();
  }

  /** The constructor reproduces every action from its own JSON. */
  lemma PayloadRoundTrip(a: Action)
    ensures FromPayload(ToJson(a).obj) == a
  {
  }

  /** Every action serialises to JSON that its guard accepts and that parses
      back to the same action. */
  lemma RoundTrip(a: Action)
    ensures IsActionJson(ToJson(a))
    ensures FromJson(ToJson(a)) == Success(a)
  {
    KeysDistinct();
    GuardFields(ToJson(a));
    PayloadRoundTrip(a);
  }

  /** A valid input with no extra properties is reproduced exactly,
      including an absent `maxDeposit`. */
  lemma JsonRoundTrip(v: Json)
    requires IsActionJson(v)
    ensures FromJson(v).Success?
    ensures ToJson(FromJson(v).value) == JObject(Restrict(v.obj, ActionKeys))
    ensures v.obj.Keys <= ActionKeys ==> ToJson(FromJson(v).value) == v
  {
    KeysDistinct();
    GuardFields(v);
  }

  /** Guard and diagnostics agree; a non-object is reported as "root". */
  lemma Diagnosis(v: Json)
    ensures IsActionJson(v) <==> ActionJsonTest(v) == []
    ensures !v.JObject? ==> !IsActionJson(v) && ActionJsonTest(v) == [RootMarker]
  {
    GuardIffNoDiagnostics(ActionSchema(), v);
  }

  /** Deleting one required property reports exactly that property, and
      fromJSON fails naming it. */
  lemma MissingField(v: Json, key: string)
    requires IsActionJson(v)
    requires key in ActionRequiredKeys
    ensures ActionJsonTest(JObject(v.obj - {key})) == [key]
    ensures FromJson(JObject(v.obj - {key})) == Failure(InvalidInputError("Invalid JSON " + key))
  {
    SchemaDistinct();
    SchemaRequired();
    MissingRequiredField(ActionSchema(), v.obj, key);
  }

  /** Deleting `maxDeposit` leaves a valid input valid. */
  lemma MaxDepositOptional(v: Json)
    requires IsActionJson(v)
    ensures IsActionJson(JObject(v.obj - {"maxDeposit"}))
    ensures ActionJsonTest(JObject(v.obj - {"maxDeposit"})) == []
  {
    SchemaDistinct();
    SchemaOptional();
    OptionalFieldMayBeAbsent(ActionSchema(), v.obj, "maxDeposit");
  }

  /** One unit of input earning two tokens converts at 2. */
  lemma ConversionRateExample(a: Action)
    requires a.inputQuantity == 1.0 && a.tokensEarnedPerInput == 2.0
    ensures ConversionRate(a) == 2.0
  {
  }
}
