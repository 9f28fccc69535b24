/** A Deposit: the flattened record of one deposit on an action. Instead of
    a snapshot of the whole action it keeps the action's id, name, unit and
    conversion rate at the time of the deposit. */
module DepositModel {
  import opened Wrappers
  import opened JsonValue
  import opened Errors
  import opened FieldSchema
  import TypeGuards

  /** The fields in the constructor's parameter order, which puts `actionId`
      before `actionName`. */
  datatype Deposit = Deposit(
    id: string,
    vbUserId: string,
    date: string,                 // the ISO timestamp, kept as written
    depositQuantity: real,
    conversionRate: real,
    actionId: string,
    actionName: string,
    conversionUnit: string)

  /** The DepositJSON shape, which lists `actionName` before `actionId`. */
  function DepositSchema(): Schema {
    Cons(Field("id", IsString),
    Cons(Field("vbUserId", IsString),
    Cons(Field("date", IsDateTimeString),
    Cons(Field("depositQuantity", IsNumber),
    Cons(Field("conversionRate", IsNumber),
    Cons(Field("actionName", IsString),
    Cons(Field("actionId", IsString),
    Cons(Field("conversionUnit", IsString),
    Nil))))))))
  }

  const DepositKeys: set<string> := {
    "id", "vbUserId", "date", "depositQuantity", "conversionRate",
    "actionName", "actionId", "conversionUnit"
  }

  /** Every Deposit that fromJSON builds holds a date that parsed. */
  predicate Valid(d: Deposit) {
    TypeGuards.IsValidDateTimeString(d.date)
  }

  /** isDepositJSON */
  predicate IsDepositJson(v: Json) {
    Guard(DepositSchema(), v)
  }

  /** DepositJSONTest */
  function DepositJsonTest(v: Json): seq<string> {
    Diagnostics(DepositSchema(), v)
  }

  /** tokensEarned: every deposited unit earns the stored rate; there is no cap. */
  function TokensEarned(d: Deposit): real {
    d.depositQuantity * d.conversionRate
  }

  /** toJSON */
  function ToJson(d: Deposit): (j: Json)
    ensures j.JObject? && j.obj.Keys == DepositKeys
  {
    JObject(map[
      "id" := JString(d.id),
      "vbUserId" := JString(d.vbUserId),
      "date" := JString(d.date),
      "depositQuantity" := JNumber(d.depositQuantity),
      "conversionRate" := JNumber(d.conversionRate),
      "actionId" := JString(d.actionId),
      "actionName" := JString(d.actionName),
      "conversionUnit" := JString(d.conversionUnit)
    ])
  }

  /** The steps of fromJSON after the guard: the date is parsed again in the
      America/Chicago zone and must be valid there; then the constructor is
      called with the properties in its own parameter order. */
  function Build(payload: map<string, Json>): (r: Result<Deposit, Error>)
    ensures IsDepositJson(JObject(payload)) ==> r.Success?
    ensures r.Success? <==> TypeGuards.IsValidDateTimeString(GetString(payload, "date"))
    ensures r.Failure? ==> r.error == InvalidInputError("Invalid date")
    ensures r.Success? ==> r.value.actionId == GetString(payload, "actionId")
    ensures r.Success? ==> r.value.actionName == GetString(payload, "actionName")
  {
    GuardFields(JObject(payload));
    var date := GetString(payload, "date");
    if !TypeGuards.IsValidDateTimeString(date) then
      Failure(InvalidInputError("Invalid date"))
    else
      Success(Deposit(
        GetString(payload, "id"),
        GetString(payload, "vbUserId"),
        date,
        GetNumber(payload, "depositQuantity"),
        GetNumber(payload, "conversionRate"),
        GetString(payload, "actionId"),
        GetString(payload, "actionName"),
        GetString(payload, "conversionUnit")))
  }

  /** fromJSON: fails listing the failing fields exactly when the guard
      fails; on an accepted input the date check after it cannot fail. */
  function FromJson(v: Json): (r: Result<Deposit, Error>)
    ensures r.Success? <==> IsDepositJson(v)
    ensures r.Failure? ==> r.error == InvalidInputError(InvalidJsonMessage(DepositSchema(), v))
    ensures r.Success? ==> Valid(r.value)
  {
    if !IsDepositJson(v) then
      Failure(InvalidInputError(InvalidJsonMessage(DepositSchema(), v)))
    else
      Build(v.obj)
  }

  /** copyWith: the deposit's JSON overridden by `overrides`, re-validated:
      it succeeds exactly when the merged object passes the guard, and
      otherwise fails naming the properties that do not. */
  function CopyWith(d: Deposit, overrides: map<string, Json>): (r: Result<Deposit, Error>)
    ensures r.Success? <==> IsDepositJson(JObject(Spread(ToJson(d).obj, overrides)))
    ensures r.Failure? ==>
              r.error == InvalidInputError(InvalidJsonMessage(DepositSchema(), JObject(Spread(ToJson(d).obj, overrides))))
    ensures r.Success? ==> Valid(r.value)
  {
    FromJson(JObject(Spread(ToJson(d).obj, overrides)))
  }

  /** fromNewDeposit: the deposit's JSON under a new id, re-validated. A
      deposit whose date does not parse is rejected by the guard. */
  function FromNewDeposit(id: string, d: Deposit): (r: Result<Deposit, Error>)
    ensures Valid(d) ==> r == Success(d.(id := id))
    ensures Valid(d) ==> ToJson(r.value) == JObject(ToJson(d).obj["id" := JString(id)])
    ensures !Valid(d) ==> r == Failure(InvalidInputError("Invalid JSON date"))
  {
    KeysDistinct();
    assert ToJson(d).obj["id" := JString(id)] == ToJson(d.(id := id)).obj;
    if Valid(d) then RoundTrip(d.(id := id)); FromJson(ToJson(d.(id := id)))
    else IllTypedDate(d.(id := id)); FromJson(ToJson(d.(id := id)))
  }

  // ---------------------------------------------------------------------
  // Tokens.
  // ---------------------------------------------------------------------

  /** Unlike an ActionDeposit, a Deposit has no cap: with a non-negative rate
      a larger deposit never earns less, and doubling it doubles the tokens. */
  lemma TokensEarnedUncapped(d: Deposit, q: real)
    requires d.conversionRate >= 0.0 && d.depositQuantity <= q
    ensures TokensEarned(d) <= TokensEarned(d.(depositQuantity := q))
    ensures TokensEarned(d.(depositQuantity := 2.0 * d.depositQuantity)) == 2.0 * TokensEarned(d)
  {
    assert TokensEarned(d.(depositQuantity := q)) - TokensEarned(d) == (q - d.depositQuantity) * d.conversionRate;
  }

  // ---------------------------------------------------------------------
  // Validation and serialisation.
  // ---------------------------------------------------------------------

  /** The guard asks for five strings, a valid date and two numbers. */
  lemma GuardFields(v: Json)
    ensures IsDepositJson(v) <==>
      && v.JObject?
      && "id" in v.obj && v.obj["id"].JString?
      && "vbUserId" in v.obj && v.obj["vbUserId"].JString?
      && "date" in v.obj && v.obj["date"].JString? && TypeGuards.IsValidDateTimeString(v.obj["date"].str)
      && "depositQuantity" in v.obj && v.obj["depositQuantity"].JNumber?
      && "conversionRate" in v.obj && v.obj["conversionRate"].JNumber?
      && "actionName" in v.obj && v.obj["actionName"].JString?
      && "actionId" in v.obj && v.obj["actionId"].JString?
      && "conversionUnit" in v.obj && v.obj["conversionUnit"].JString?
  {
  }

  /** The property names of the DepositJSON shape are pairwise different. */
  lemma KeysDistinct()
    ensures "id" != "vbUserId" && "id" != "date" && "id" != "depositQuantity" && "id" != "conversionRate"
    ensures "id" != "actionName" && "id" != "actionId" && "id" != "conversionUnit"
    ensures "vbUserId" != "date" && "vbUserId" != "depositQuantity" && "vbUserId" != "conversionRate"
    ensures "vbUserId" != "actionName" && "vbUserId" != "actionId" && "vbUserId" != "conversionUnit"
    ensures "date" != "depositQuantity" && "date" != "conversionRate" && "date" != "actionName"
    ensures "date" != "actionId" && "date" != "conversionUnit"
    ensures "depositQuantity" != "conversionRate" && "depositQuantity" != "actionName"
    ensures "depositQuantity" != "actionId" && "depositQuantity" != "conversionUnit"
    ensures "conversionRate" != "actionName" && "conversionRate" != "actionId" && "conversionRate" != "conversionUnit"
    ensures "actionName" != "actionId" && "actionName" != "conversionUnit"
    ensures "actionId" != "conversionUnit"
  {
  }

  lemma SchemaDistinct()
    ensures DistinctNames(DepositSchema())
  {
    KeysDistinct();
  }

  lemma SchemaRequired()
    ensures RequiredNames(DepositSchema()) == DepositKeys
  {
  }

  /** Every valid deposit serialises to JSON that parses back to it. */
  lemma RoundTrip(d: Deposit)
    requires Valid(d)
    ensures IsDepositJson(ToJson(d))
    ensures FromJson(ToJson(d)) == Success(d)
  {
    KeysDistinct();
    GuardFields(ToJson(d));
  }

  /** fromJSON stores each property in its own field: `actionId` in
      `actionId` and `actionName` in `actionName`, whatever the order of the
      constructor's parameters. */
  lemma FromJsonCopies(v: Json)
    requires IsDepositJson(v)
    ensures FromJson(v) == Success(Deposit(v.obj["id"].str, v.obj["vbUserId"].str, v.obj["date"].str,
                                           v.obj["depositQuantity"].num, v.obj["conversionRate"].num,
                                           v.obj["actionId"].str, v.obj["actionName"].str,
                                           v.obj["conversionUnit"].str))
  {
    GuardFields(v);
  }

  lemma ToJsonOfCopy(v: Json)
    requires v.JObject?
    requires "id" in v.obj && v.obj["id"].JString?
    requires "vbUserId" in v.obj && v.obj["vbUserId"].JString?
    requires "date" in v.obj && v.obj["date"].JString?
    requires "depositQuantity" in v.obj && v.obj["depositQuantity"].JNumber?
    requires "conversionRate" in v.obj && v.obj["conversionRate"].JNumber?
    requires "actionName" in v.obj && v.obj["actionName"].JString?
    requires "actionId" in v.obj && v.obj["actionId"].JString?
    requires "conversionUnit" in v.obj && v.obj["conversionUnit"].JString?
    ensures ToJson(Deposit(v.obj["id"].str, v.obj["vbUserId"].str, v.obj["date"].str,
                           v.obj["depositQuantity"].num, v.obj["conversionRate"].num,
                           v.obj["actionId"].str, v.obj["actionName"].str,
                           v.obj["conversionUnit"].str)).obj
            == Restrict(v.obj, DepositKeys)
  {
    KeysDistinct();
  }

  /** Parsing then serialising keeps every property of the shape, under its
      own name, and drops the rest; an input with no extra properties comes
      back unchanged. */
  lemma JsonRoundTrip(v: Json)
    requires IsDepositJson(v)
    ensures FromJson(v).Success?
    ensures ToJson(FromJson(v).value) == JObject(Restrict(v.obj, DepositKeys))
    ensures v.obj.Keys <= DepositKeys ==> ToJson(FromJson(v).value) == v
  {
    GuardFields(v);
    FromJsonCopies(v);
    ToJsonOfCopy(v);
    if v.obj.Keys <= DepositKeys {
      assert Restrict(v.obj, DepositKeys) == v.obj;
    }
  }

  /** Guard and diagnostics agree; a non-object is reported as "root". */
  lemma Diagnosis(v: Json)
    ensures IsDepositJson(v) <==> DepositJsonTest(v) == []
    ensures !v.JObject? ==> !IsDepositJson(v) && DepositJsonTest(v) == [RootMarker]
  {
    GuardIffNoDiagnostics(DepositSchema(), v);
  }

  /** Deleting one property reports exactly that property. */
  lemma MissingField(v: Json, key: string)
    requires IsDepositJson(v)
    requires key in DepositKeys
    ensures DepositJsonTest(JObject(v.obj - {key})) == [key]
    ensures FromJson(JObject(v.obj - {key})) == Failure(InvalidInputError("Invalid JSON " + key))
  {
    SchemaDistinct();
    SchemaRequired();
    MissingRequiredField(DepositSchema(), v.obj, key);
  }

  /** Changing the date changes only the "date" property of the JSON. */
  lemma ToJsonOfDate(d: Deposit, date: string)
    ensures ToJson(d.(date := date)).obj == ToJson(d).obj["date" := JString(date)]
  {
    KeysDistinct();
  }

  lemma DateCheck()
    ensures CheckOf(DepositSchema(), "date") == Some(IsDateTimeString)
  {
  }

  /** In an accepted object, a date that does not parse is the only failing
      property. */
  lemma DateRejected(m: map<string, Json>, date: string)
    requires IsDepositJson(JObject(m))
    requires !TypeGuards.IsValidDateTimeString(date)
    ensures DepositJsonTest(JObject(m["date" := JString(date)])) == ["date"]
    ensures FromJson(JObject(m["date" := JString(date)])) == Failure(InvalidInputError("Invalid JSON date"))
  {
    SchemaDistinct();
    DateCheck();
    IllTypedField(DepositSchema(), m, "date", JString(date));
    assert "Invalid JSON " + "date" == "Invalid JSON date";
  }

  /** A deposit whose date does not parse serialises to JSON whose only
      failing property is the date. */
  lemma IllTypedDate(d: Deposit)
    requires !Valid(d)
    ensures DepositJsonTest(ToJson(d)) == ["date"]
    ensures FromJson(ToJson(d)) == Failure(InvalidInputError("Invalid JSON date"))
  {
    var good := d.(date := "2024-02-29");
    TypeGuards.AcceptedExamples();
    RoundTrip(good);
    DateRejected(ToJson(good).obj, d.date);
    ToJsonOfDate(good, d.date);
  }

  /** copyWith with no overrides reproduces the deposit. */
  lemma CopyWithNothing(d: Deposit)
    requires Valid(d)
    ensures CopyWith(d, map[]) == Success(d)
  {
    assert Spread(ToJson(d).obj, map[]) == ToJson(d).obj;
    RoundTrip(d);
  }

  /** copyWith of a new quantity changes the quantity and nothing else. */
  lemma CopyWithQuantity(d: Deposit, q: real)
    requires Valid(d)
    ensures CopyWith(d, map["depositQuantity" := JNumber(q)]) == Success(d.(depositQuantity := q))
  {
    KeysDistinct();
    SpreadOne(ToJson(d).obj, "depositQuantity", JNumber(q));
    assert ToJson(d).obj["depositQuantity" := JNumber(q)] == ToJson(d.(depositQuantity := q)).obj;
    RoundTrip(d.(depositQuantity := q));
  }

  /** copyWith that puts a value the schema rejects into one property fails,
      naming that property. */
  lemma CopyWithInvalid(d: Deposit, key: string, x: Json)
    requires Valid(d)
    requires CheckOf(DepositSchema(), key).Some? && !Accepts(CheckOf(DepositSchema(), key).value, Some(x))
    ensures CopyWith(d, map[key := x]) == Failure(InvalidInputError("Invalid JSON " + key))
  {
    RoundTrip(d);
    SchemaDistinct();
    SpreadOne(ToJson(d).obj, key, x);
    IllTypedField(DepositSchema(), ToJson(d).obj, key, x);
  }
}
