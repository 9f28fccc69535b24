/** An ActionDeposit: one recorded performance of an Action. It owns a
    snapshot of the action taken by value, so later edits to the action do
    not alter the historical record. */
module ActionDepositModel {
  import opened Wrappers
  import opened JsonValue
  import opened Errors
  import opened FieldSchema
  import TypeGuards
  import ActionModel

  datatype ActionDeposit = ActionDeposit(
    id: string,
    vbUserId: string,
    date: string,                 // the ISO timestamp, kept as written
    depositQuantity: real,
    action: ActionModel.Action)   // the snapshot of the action

  /** The ActionDepositJSON shape; the nested action must pass the Action guard. */
  function ActionDepositSchema(): Schema {
    Cons(Field("id", IsString),
    Cons(Field("vbUserId", IsString),
    Cons(Field("date", IsDateTimeString),
    Cons(Field("depositQuantity", IsNumber),
    Cons(Field("action", Matches(ActionModel.ActionSchema())),
    Nil)))))
  }

  const ActionDepositKeys: set<string> := {"id", "vbUserId", "date", "depositQuantity", "action"}

  /** Every ActionDeposit the constructor builds holds a date that parsed. */
  predicate Valid(d: ActionDeposit) {
    TypeGuards.IsValidDateTimeString(d.date)
  }

  /** isActionDepositJSON */
  predicate IsActionDepositJson(v: Json) {
    Guard(ActionDepositSchema(), v)
  }

  /** actionDepositJSONTest */
  function ActionDepositJsonTest(v: Json): seq<string> {
    Diagnostics(ActionDepositSchema(), v)
  }

  function Min(x: real, y: real): (r: real)
    ensures r <= x && r <= y && (r == x || r == y)
  {
    if x <= y then x else y
  }

  /** tokensEarned: the deposited quantity, capped at the action's
      `maxDeposit` when it has one, times the action's conversion rate. */
  function TokensEarned(d: ActionDeposit): (r: real)
    ensures d.action.maxDeposit.None? ==> r == d.depositQuantity * ActionModel.ConversionRate(d.action)
    ensures d.action.maxDeposit.Some? ==>
              r == Min(d.depositQuantity, d.action.maxDeposit.value) * ActionModel.ConversionRate(d.action)
  {
    var quant := match d.action.maxDeposit
      case Some(maxDeposit) => if maxDeposit < d.depositQuantity then maxDeposit else d.depositQuantity
      case None => d.depositQuantity;
    quant * ActionModel.ConversionRate(d.action)
  }

  /** toJSON: the action is written as its own JSON. */
  function ToJson(d: ActionDeposit): (j: Json)
    ensures j.JObject? && j.obj.Keys == ActionDepositKeys
  {
    JObject(map[
      "id" := JString(d.id),
      "vbUserId" := JString(d.vbUserId),
      "date" := JString(d.date),
      "depositQuantity" := JNumber(d.depositQuantity),
      "action" := ActionModel.ToJson(d.action)
    ])
  }

  /** The constructor: rejects a date that does not parse, otherwise copies
      the fields and builds the Action snapshot from the nested JSON. */
  function New(payload: map<string, Json>): (r: Result<ActionDeposit, Error>)
    ensures r.Success? <==> TypeGuards.IsValidDateTimeString(GetString(payload, "date"))
    ensures r.Failure? ==> r.error == InvalidInputError("Invalid date")
    ensures r.Success? ==> Valid(r.value)
  {
    var date := GetString(payload, "date");
    if !TypeGuards.IsValidDateTimeString(date) then
      Failure(InvalidInputError("Invalid date"))
    else
      Success(ActionDeposit(
        GetString(payload, "id"),
        GetString(payload, "vbUserId"),
        date,
        GetNumber(payload, "depositQuantity"),
        ActionModel.FromPayload(GetObject(payload, "action"))))
  }

  /** The steps of fromJSON after the guard: the date is parsed again in the
      America/Chicago zone and must be valid there, then the constructor runs. */
  function Build(payload: map<string, Json>): (r: Result<ActionDeposit, Error>)
    ensures IsActionDepositJson(JObject(payload)) ==> r.Success?
    ensures r.Success? <==> TypeGuards.IsValidDateTimeString(GetString(payload, "date"))
    ensures r.Failure? ==> r.error == InvalidInputError("Invalid date")
    ensures r.Success? ==> Valid(r.value)
    ensures r.Success? ==>
              && r.value.id == GetString(payload, "id")
              && r.value.vbUserId == GetString(payload, "vbUserId")
              && r.value.date == GetString(payload, "date")
              && r.value.depositQuantity == GetNumber(payload, "depositQuantity")
              && r.value.action == ActionModel.FromPayload(GetObject(payload, "action"))
  {
    GuardFields(JObject(payload));
    if !TypeGuards.IsValidDateTimeString(GetString(payload, "date")) then
      Failure(InvalidInputError("Invalid date"))
    else
      New(payload)
  }

  /** fromJSON: fails listing the failing fields exactly when the guard
      fails; on an accepted input neither date check can fail. */
  function FromJson(v: Json): (r: Result<ActionDeposit, Error>)
    ensures r.Success? <==> IsActionDepositJson(v)
    ensures r.Failure? ==> r.error == InvalidInputError(InvalidJsonMessage(ActionDepositSchema(), v))
    ensures r.Success? ==> Valid(r.value)
  {
    if !IsActionDepositJson(v) then
      Failure(InvalidInputError(InvalidJsonMessage(ActionDepositSchema(), v)))
    else
      Build(v.obj)
  }

  /** copyWith: the deposit's JSON overridden by `overrides`, re-validated:
      it succeeds exactly when the merged object passes the guard, and
      otherwise fails naming the properties that do not. */
  function CopyWith(d: ActionDeposit, overrides: map<string, Json>): (r: Result<ActionDeposit, Error>)
    ensures r.Success? <==> IsActionDepositJson(JObject(Spread(ToJson(d).obj, overrides)))
    ensures r.Failure? ==>
              r.error == InvalidInputError(InvalidJsonMessage(ActionDepositSchema(), JObject(Spread(ToJson(d).obj, overrides))))
    ensures r.Success? ==> Valid(r.value)
  {
    FromJson(JObject(Spread(ToJson(d).obj, overrides)))
  }

  /** fromActionNewDeposit: the same deposit under a new id. */
  function FromActionNewDeposit(id: string, d: ActionDeposit): (r: Result<ActionDeposit, Error>)
    ensures Valid(d) ==> r == Success(d.(id := id))
    ensures Valid(d) ==> ToJson(r.value) == JObject(ToJson(d).obj["id" := JString(id)])
    ensures !Valid(d) ==> r == Failure(InvalidInputError("Invalid date"))
  {
    KeysDistinct();
    ActionModel.PayloadRoundTrip(d.action);
    New(ToJson(d).obj["id" := JString(id)])
  }

  /** fromAction: a new deposit of `depositQuantity` on `action`. The fresh
      identifier and the timestamp (the one supplied, or the current instant)
      are parameters, `date` being that timestamp's ISO form. */
  function FromAction(action: ActionModel.Action, depositQuantity: real, id: string, date: string)
    : (r: Result<ActionDeposit, Error>)
    ensures TypeGuards.IsValidDateTimeString(date) ==>
              r == Success(ActionDeposit(id, action.vbUserId, date, depositQuantity, action))
    ensures !TypeGuards.IsValidDateTimeString(date) ==> r == Failure(InvalidInputError("Invalid date"))
    ensures r.Success? ==> ToJson(r.value).obj["action"] == ActionModel.ToJson(action)
  {
    ActionModel.PayloadRoundTrip(action);
    New(map[
      "id" := JString(id),
      "vbUserId" := JString(action.vbUserId),
      "date" := JString(date),
      "depositQuantity" := JNumber(depositQuantity),
      "action" := ActionModel.ToJson(action)
    ])
  }

  // ---------------------------------------------------------------------
  // The capping rule.
  // ---------------------------------------------------------------------

  /** Without a cap every deposited unit earns the conversion rate. */
  lemma TokensEarnedUncapped(d: ActionDeposit)
    requires d.action.maxDeposit.None?
    ensures TokensEarned(d) == d.depositQuantity * ActionModel.ConversionRate(d.action)
  {
  }

  /** With a cap the quantity that earns is the smaller of the deposit and the cap. */
  lemma TokensEarnedCapped(d: ActionDeposit)
    requires d.action.maxDeposit.Some?
    ensures TokensEarned(d) == Min(d.depositQuantity, d.action.maxDeposit.value) * ActionModel.ConversionRate(d.action)
  {
  }

  /** Depositing more than the cap earns nothing more: any two quantities at
      or above the cap earn the same. */
  lemma TokensEarnedSaturates(d: ActionDeposit, q: real)
    requires d.action.maxDeposit.Some?
    requires d.action.maxDeposit.value <= d.depositQuantity && d.action.maxDeposit.value <= q
    ensures TokensEarned(d.(depositQuantity := q)) == TokensEarned(d)
    ensures TokensEarned(d) == d.action.maxDeposit.value * ActionModel.ConversionRate(d.action)
  {
  }

  /** With a non-negative rate, depositing more never earns less. */
  lemma TokensEarnedMonotone(d: ActionDeposit, q: real)
    requires ActionModel.ConversionRate(d.action) >= 0.0
    requires d.depositQuantity <= q
    ensures TokensEarned(d) <= TokensEarned(d.(depositQuantity := q))
  {
    var rate := ActionModel.ConversionRate(d.action);
    match d.action.maxDeposit
    case None =>
      assert TokensEarned(d.(depositQuantity := q)) - TokensEarned(d) == (q - d.depositQuantity) * rate;
    case Some(cap) =>
      var before, after := Min(d.depositQuantity, cap), Min(q, cap);
      assert before <= after;
      assert TokensEarned(d.(depositQuantity := q)) - TokensEarned(d) == (after - before) * rate;
  }

  /** With a non-negative rate, the tokens earned never exceed what the cap allows. */
  lemma TokensEarnedAtMostCap(d: ActionDeposit)
    requires d.action.maxDeposit.Some?
    requires ActionModel.ConversionRate(d.action) >= 0.0
    ensures TokensEarned(d) <= d.action.maxDeposit.value * ActionModel.ConversionRate(d.action)
  {
    var cap, q, rate := d.action.maxDeposit.value, d.depositQuantity, ActionModel.ConversionRate(d.action);
    assert Min(q, cap) <= cap;
    assert (cap - Min(q, cap)) * rate >= 0.0;
  }

  /** One unit at two tokens per unit earns 2;
      with a cap of 1, a deposit of 5 still earns 2, not 10. */
  lemma TokensEarnedExample(d: ActionDeposit)
    requires d.action.inputQuantity == 1.0 && d.action.tokensEarnedPerInput == 2.0
    ensures d.action.maxDeposit.None? && d.depositQuantity == 1.0 ==> TokensEarned(d) == 2.0
    ensures d.action.maxDeposit == Some(1.0) && d.depositQuantity == 5.0 ==> TokensEarned(d) == 2.0
  {
  }

  // ---------------------------------------------------------------------
  // Validation and serialisation.
  // ---------------------------------------------------------------------

  /** The guard asks for two strings, a valid date, a number and an object
      the Action guard accepts. */
  lemma GuardFields(v: Json)
    ensures IsActionDepositJson(v) <==>
      && v.JObject?
      && "id" in v.obj && v.obj["id"].JString?
      && "vbUserId" in v.obj && v.obj["vbUserId"].JString?
      && "date" in v.obj && v.obj["date"].JString? && TypeGuards.IsValidDateTimeString(v.obj["date"].str)
      && "depositQuantity" in v.obj && v.obj["depositQuantity"].JNumber?
      && "action" in v.obj && ActionModel.IsActionJson(v.obj["action"])
  {
  }

  lemma KeysDistinct()
    ensures "id" != "vbUserId" && "id" != "date" && "id" != "depositQuantity" && "id" != "action"
    ensures "vbUserId" != "date" && "vbUserId" != "depositQuantity" && "vbUserId" != "action"
    ensures "date" != "depositQuantity" && "date" != "action"
    ensures "depositQuantity" != "action"
  {
  }

  lemma SchemaDistinct()
    ensures DistinctNames(ActionDepositSchema())
  {
    KeysDistinct();
  }

  lemma SchemaRequired()
    ensures RequiredNames(ActionDepositSchema()) == ActionDepositKeys
  {
  }

  /** Every valid deposit serialises to JSON that parses back to it. */
  lemma RoundTrip(d: ActionDeposit)
    requires Valid(d)
    ensures IsActionDepositJson(ToJson(d))
    ensures FromJson(ToJson(d)) == Success(d)
  {
    KeysDistinct();
    ActionModel.RoundTrip(d.action);
    ActionModel.PayloadRoundTrip(d.action);
    GuardFields(ToJson(d));
  }

  /** fromJSON copies every property into the deposit, and the nested
      action through the Action constructor. */
  lemma FromJsonCopies(v: Json)
    requires IsActionDepositJson(v)
    ensures FromJson(v) == Success(ActionDeposit(v.obj["id"].str, v.obj["vbUserId"].str, v.obj["date"].str,
                                               v.obj["depositQuantity"].num, ActionModel.FromPayload(v.obj["action"].obj)))
  {
    GuardFields(v);
  }

  lemma ToJsonOfCopy(v: Json)
    requires v.JObject?
    requires "id" in v.obj && v.obj["id"].JString?
    requires "vbUserId" in v.obj && v.obj["vbUserId"].JString?
    requires "date" in v.obj && v.obj["date"].JString?
    requires "depositQuantity" in v.obj && v.obj["depositQuantity"].JNumber?
    requires "action" in v.obj && v.obj["action"].JObject?
    ensures ToJson(ActionDeposit(v.obj["id"].str, v.obj["vbUserId"].str, v.obj["date"].str,
                                 v.obj["depositQuantity"].num, ActionModel.FromPayload(v.obj["action"].obj))).obj
            == Restrict(v.obj, ActionDepositKeys)["action" := ActionModel.ToJson(ActionModel.FromPayload(v.obj["action"].obj))]
  {
    KeysDistinct();
  }

  /** Parsing then serialising keeps every property of the shape and drops
      the rest, at both levels. */
  lemma JsonRoundTrip(v: Json)
    requires IsActionDepositJson(v)
    ensures FromJson(v).Success?
    ensures ToJson(FromJson(v).value) == JObject(Restrict(v.obj, ActionDepositKeys)[
              "action" := JObject(Restrict(GetObject(v.obj, "action"), ActionModel.ActionKeys))])
  {
    GuardFields(v);
    FromJsonCopies(v);
    ToJsonOfCopy(v);
    ActionModel.JsonRoundTrip(v.obj["action"]);
  }

  /** Guard and diagnostics agree; a non-object is reported as "root". */
  lemma Diagnosis(v: Json)
    ensures IsActionDepositJson(v) <==> ActionDepositJsonTest(v) == []
    ensures !v.JObject? ==> !IsActionDepositJson(v) && ActionDepositJsonTest(v) == [RootMarker]
  {
    GuardIffNoDiagnostics(ActionDepositSchema(), v);
  }

  /** Deleting one property reports exactly that property. */
  lemma MissingField(v: Json, key: string)
    requires IsActionDepositJson(v)
    requires key in ActionDepositKeys
    ensures ActionDepositJsonTest(JObject(v.obj - {key})) == [key]
    ensures FromJson(JObject(v.obj - {key})) == Failure(InvalidInputError("Invalid JSON " + key))
  {
    SchemaDistinct();
    SchemaRequired();
    MissingRequiredField(ActionDepositSchema(), v.obj, key);
  }

  /** A nested action the Action guard rejects is reported as the single name "action". */
  lemma InvalidNestedAction(v: Json, action: Json)
    requires IsActionDepositJson(v)
    requires !ActionModel.IsActionJson(action)
    ensures ActionDepositJsonTest(JObject(v.obj["action" := action])) == ["action"]
    ensures FromJson(JObject(v.obj["action" := action])) == Failure(InvalidInputError("Invalid JSON action"))
  {
    SchemaDistinct();
    KeysDistinct();
    assert CheckOf(ActionDepositSchema(), "action") == Some(Matches(ActionModel.ActionSchema()));
    IllTypedField(ActionDepositSchema(), v.obj, "action", action);
    assert "Invalid JSON " + "action" == "Invalid JSON action";
  }

  /** copyWith with no overrides reproduces the deposit. */
  lemma CopyWithNothing(d: ActionDeposit)
    requires Valid(d)
    ensures CopyWith(d, map[]) == Success(d)
  {
    assert Spread(ToJson(d).obj, map[]) == ToJson(d).obj;
    RoundTrip(d);
  }

  /** copyWith of a new quantity changes the quantity and nothing else. */
  lemma CopyWithQuantity(d: ActionDeposit, q: real)
    requires Valid(d)
    ensures CopyWith(d, map["depositQuantity" := JNumber(q)]) == Success(d.(depositQuantity := q))
  {
    KeysDistinct();
    SpreadOne(ToJson(d).obj, "depositQuantity", JNumber(q));
    assert ToJson(d).obj["depositQuantity" := JNumber(q)] == ToJson(d.(depositQuantity := q)).obj;
    RoundTrip(d.(depositQuantity := q));
  }

  /** copyWith that puts a value the schema rejects into one property fails,
      naming that property. */
  lemma CopyWithInvalid(d: ActionDeposit, key: string, x: Json)
    requires Valid(d)
    requires CheckOf(ActionDepositSchema(), key).Some? && !Accepts(CheckOf(ActionDepositSchema(), key).value, Some(x))
    ensures CopyWith(d, map[key := x]) == Failure(InvalidInputError("Invalid JSON " + key))
  {
    RoundTrip(d);
    SchemaDistinct();
    SpreadOne(ToJson(d).obj, key, x);
    IllTypedField(ActionDepositSchema(), ToJson(d).obj, key, x);
  }
}
