/** A TaskDeposit: the record of one completion of a task. Unlike the other
    deposits it stores the tokens it earned instead of deriving them. */
module TaskDepositModel {
  import opened Wrappers
  import opened JsonValue
  import opened Errors
  import opened FieldSchema
  import TypeGuards
  import F = Frequency

  datatype TaskDeposit = TaskDeposit(
    id: string,
    vbUserId: string,
    date: string,                 // the ISO timestamp, kept as written
    taskName: string,
    taskId: string,
    conversionRate: real,
    frequency: F.Frequency,
    tokensEarned: real)           // stored, not derived

  /** The TaskDepositJSON shape. */
  function TaskDepositSchema(): Schema {
    Cons(Field("id", IsString),
    Cons(Field("vbUserId", IsString),
    Cons(Field("date", IsDateTimeString),
    Cons(Field("taskName", IsString),
    Cons(Field("taskId", IsString),
    Cons(Field("conversionRate", IsNumber),
    Cons(Field("frequency", IsFrequencyValue),
    Cons(Field("tokensEarned", IsNumber),
    Nil))))))))
  }

  const TaskDepositKeys: set<string> := {
    "id", "vbUserId", "date", "taskName", "taskId", "conversionRate", "frequency", "tokensEarned"
  }

  /** Every TaskDeposit that fromJSON builds holds a date that parsed. */
  predicate Valid(d: TaskDeposit) {
    TypeGuards.IsValidDateTimeString(d.date)
  }

  /** isTaskDepositJSON */
  predicate IsTaskDepositJson(v: Json) {
    Guard(TaskDepositSchema(), v)
  }

  /** TaskDepositJSONTest */
  function TaskDepositJsonTest(v: Json): seq<string> {
    Diagnostics(TaskDepositSchema(), v)
  }

  /** toJSON: the frequency is written as its string value. */
  function ToJson(d: TaskDeposit): (j: Json)
    ensures j.JObject? && j.obj.Keys == TaskDepositKeys
    ensures j.obj["frequency"] == JString(F.Value(d.frequency)) && F.IsFrequency(F.Value(d.frequency))
  {
    JObject(map[
      "id" := JString(d.id),
      "vbUserId" := JString(d.vbUserId),
      "date" := JString(d.date),
      "taskName" := JString(d.taskName),
      "taskId" := JString(d.taskId),
      "conversionRate" := JNumber(d.conversionRate),
      "frequency" := JString(F.Value(d.frequency)),
      "tokensEarned" := JNumber(d.tokensEarned)
    ])
  }

  /** The steps of fromJSON after the guard: the date is parsed again in the
      America/Chicago zone and must be valid there, then the frequency is
      parsed with frequencyFromString, whose error is passed on. */
  function Build(payload: map<string, Json>): (r: Result<TaskDeposit, Error>)
    ensures IsTaskDepositJson(JObject(payload)) ==> r.Success?
    ensures r.Success? <==>
      TypeGuards.IsValidDateTimeString(GetString(payload, "date")) && F.IsFrequency(GetString(payload, "frequency"))
    ensures !TypeGuards.IsValidDateTimeString(GetString(payload, "date")) ==>
      r == Failure(InvalidInputError("Invalid date"))
    ensures TypeGuards.IsValidDateTimeString(GetString(payload, "date")) && !F.IsFrequency(GetString(payload, "frequency")) ==>
      r == Failure(PlainError("Invalid frequency: " + GetString(payload, "frequency")))
    ensures r.Success? ==> F.Value(r.value.frequency) == GetString(payload, "frequency")
  {
    GuardFields(JObject(payload));
    var date := GetString(payload, "date");
    if !TypeGuards.IsValidDateTimeString(date) then
      Failure(InvalidInputError("Invalid date"))
    else
      var frequency :- F.FrequencyFromString(GetString(payload, "frequency"));
      Success(TaskDeposit(
        GetString(payload, "id"),
        GetString(payload, "vbUserId"),
        date,
        GetString(payload, "taskName"),
        GetString(payload, "taskId"),
        GetNumber(payload, "conversionRate"),
        frequency,
        GetNumber(payload, "tokensEarned")))
  }

  /** fromJSON: fails listing the failing fields exactly when the guard
      fails; on an accepted input neither later step can fail. */
  function FromJson(v: Json): (r: Result<TaskDeposit, Error>)
    ensures r.Success? <==> IsTaskDepositJson(v)
    ensures r.Failure? ==> r.error == InvalidInputError(InvalidJsonMessage(TaskDepositSchema(), v))
    ensures r.Success? ==> Valid(r.value)
  {
    if !IsTaskDepositJson(v) then
      Failure(InvalidInputError(InvalidJsonMessage(TaskDepositSchema(), v)))
    else
      Build(v.obj)
  }

  /** withTokensEarned: the deposit's JSON with `tokensEarned` overridden,
      re-validated. It replaces the stored tokens and nothing else; a
      deposit whose date does not parse is rejected. */
  function WithTokensEarned(d: TaskDeposit, tokensEarned: real): (r: Result<TaskDeposit, Error>)
    ensures Valid(d) ==> r == Success(d.(tokensEarned := tokensEarned))
    ensures Valid(d) ==> ToJson(r.value) == JObject(ToJson(d).obj["tokensEarned" := JNumber(tokensEarned)])
    ensures !Valid(d) ==> r == Failure(InvalidInputError("Invalid JSON date"))
  {
    KeysDistinct();
    SpreadOne(ToJson(d).obj, "tokensEarned", JNumber(tokensEarned));
    assert ToJson(d).obj["tokensEarned" := JNumber(tokensEarned)] == ToJson(d.(tokensEarned := tokensEarned)).obj;
    if Valid(d) then RoundTrip(d.(tokensEarned := tokensEarned)); FromJson(JObject(Spread(ToJson(d).obj, map["tokensEarned" := JNumber(tokensEarned)])))
    else IllTypedDate(d.(tokensEarned := tokensEarned)); FromJson(JObject(Spread(ToJson(d).obj, map["tokensEarned" := JNumber(tokensEarned)])))
  }

  /** fromNewTaskDeposit: the deposit's JSON under a new id, re-validated. A
      deposit whose date does not parse is rejected by the guard. */
  function FromNewTaskDeposit(id: string, d: TaskDeposit): (r: Result<TaskDeposit, Error>)
    ensures Valid(d) ==> r == Success(d.(id := id))
    ensures Valid(d) ==> ToJson(r.value) == JObject(ToJson(d).obj["id" := JString(id)])
    ensures !Valid(d) ==> r == Failure(InvalidInputError("Invalid JSON date"))
  {
    KeysDistinct();
    assert ToJson(d).obj["id" := JString(id)] == ToJson(d.(id := id)).obj;
    if Valid(d) then RoundTrip(d.(id := id)); FromJson(ToJson(d.(id := id)))
    else IllTypedDate(d.(id := id)); FromJson(ToJson(d.(id := id)))
  }

  /** The guard asks for four strings, a valid date, a known frequency and
      two numbers. */
  lemma GuardFields(v: Json)
    ensures IsTaskDepositJson(v) <==>
      && v.JObject?
      && "id" in v.obj && v.obj["id"].JString?
      && "vbUserId" in v.obj && v.obj["vbUserId"].JString?
      && "date" in v.obj && v.obj["date"].JString? && TypeGuards.IsValidDateTimeString(v.obj["date"].str)
      && "taskName" in v.obj && v.obj["taskName"].JString?
      && "taskId" in v.obj && v.obj["taskId"].JString?
      && "conversionRate" in v.obj && v.obj["conversionRate"].JNumber?
      && "frequency" in v.obj && v.obj["frequency"].JString? && F.IsFrequency(v.obj["frequency"].str)
      && "tokensEarned" in v.obj && v.obj["tokensEarned"].JNumber?
  {
  }

  /** The property names of the TaskDepositJSON shape are pairwise different. */
  lemma KeysDistinct()
    ensures "id" != "vbUserId" && "id" != "date" && "id" != "taskName" && "id" != "taskId"
    ensures "id" != "conversionRate" && "id" != "frequency" && "id" != "tokensEarned"
    ensures "vbUserId" != "date" && "vbUserId" != "taskName" && "vbUserId" != "taskId"
    ensures "vbUserId" != "conversionRate" && "vbUserId" != "frequency" && "vbUserId" != "tokensEarned"
    ensures "date" != "taskName" && "date" != "taskId" && "date" != "conversionRate"
    ensures "date" != "frequency" && "date" != "tokensEarned"
    ensures "taskName" != "taskId" && "taskName" != "conversionRate"
    ensures "taskName" != "frequency" && "taskName" != "tokensEarned"
    ensures "taskId" != "conversionRate" && "taskId" != "frequency" && "taskId" != "tokensEarned"
    ensures "conversionRate" != "frequency" && "conversionRate" != "tokensEarned"
    ensures "frequency" != "tokensEarned"
  {
  }

  lemma SchemaDistinct()
    ensures DistinctNames(TaskDepositSchema())
  {
    KeysDistinct();
  }

  lemma SchemaRequired()
    ensures RequiredNames(TaskDepositSchema()) == TaskDepositKeys
  {
  }

  /** Every valid deposit serialises to JSON that parses back to it. */
  lemma RoundTrip(d: TaskDeposit)
    requires Valid(d)
    ensures IsTaskDepositJson(ToJson(d))
    ensures FromJson(ToJson(d)) == Success(d)
  {
    KeysDistinct();
    F.FromStringOfValue(d.frequency);
    GuardFields(ToJson(d));
  }

  /** fromJSON copies every property into its own field, the frequency as
      the member whose value is the given string. */
  lemma FromJsonCopies(v: Json)
    requires IsTaskDepositJson(v)
    ensures FromJson(v).Success?
    ensures var d := FromJson(v).value;
      && d.id == v.obj["id"].str && d.vbUserId == v.obj["vbUserId"].str && d.date == v.obj["date"].str
      && d.taskName == v.obj["taskName"].str && d.taskId == v.obj["taskId"].str
      && d.conversionRate == v.obj["conversionRate"].num
      && F.Value(d.frequency) == v.obj["frequency"].str
      && d.tokensEarned == v.obj["tokensEarned"].num
  {
    GuardFields(v);
  }

  /** Parsing then serialising keeps every property of the shape and drops
      the rest; an input with no extra properties comes back unchanged. */
  lemma JsonRoundTrip(v: Json)
    requires IsTaskDepositJson(v)
    ensures FromJson(v).Success?
    ensures ToJson(FromJson(v).value) == JObject(Restrict(v.obj, TaskDepositKeys))
    ensures v.obj.Keys <= TaskDepositKeys ==> ToJson(FromJson(v).value) == v
  {
    KeysDistinct();
    GuardFields(v);
    FromJsonCopies(v);
    if v.obj.Keys <= TaskDepositKeys {
      assert Restrict(v.obj, TaskDepositKeys) == v.obj;
    }
  }

  /** Guard and diagnostics agree; a non-object is reported as "root". */
  lemma Diagnosis(v: Json)
    ensures IsTaskDepositJson(v) <==> TaskDepositJsonTest(v) == []
    ensures !v.JObject? ==> !IsTaskDepositJson(v) && TaskDepositJsonTest(v) == [RootMarker]
  {
    GuardIffNoDiagnostics(TaskDepositSchema(), v);
  }

  /** Deleting one property reports exactly that property. */
  lemma MissingField(v: Json, key: string)
    requires IsTaskDepositJson(v)
    requires key in TaskDepositKeys
    ensures TaskDepositJsonTest(JObject(v.obj - {key})) == [key]
    ensures FromJson(JObject(v.obj - {key})) == Failure(InvalidInputError("Invalid JSON " + key))
  {
    SchemaDistinct();
    SchemaRequired();
    MissingRequiredField(TaskDepositSchema(), v.obj, key);
  }

  /** Changing the date changes only the "date" property of the JSON. */
  lemma ToJsonOfDate(d: TaskDeposit, date: string)
    ensures ToJson(d.(date := date)).obj == ToJson(d).obj["date" := JString(date)]
  {
    KeysDistinct();
  }

  lemma DateCheck()
    ensures CheckOf(TaskDepositSchema(), "date") == Some(IsDateTimeString)
  {
  }

  /** In an accepted object, a date that does not parse is the only failing
      property. */
  lemma DateRejected(m: map<string, Json>, date: string)
    requires IsTaskDepositJson(JObject(m))
    requires !TypeGuards.IsValidDateTimeString(date)
    ensures TaskDepositJsonTest(JObject(m["date" := JString(date)])) == ["date"]
    ensures FromJson(JObject(m["date" := JString(date)])) == Failure(InvalidInputError("Invalid JSON date"))
  {
    SchemaDistinct();
    DateCheck();
    IllTypedField(TaskDepositSchema(), m, "date", JString(date));
    assert "Invalid JSON " + "date" == "Invalid JSON date";
  }

  /** A deposit whose date does not parse serialises to JSON whose only
      failing property is the date. */
  lemma IllTypedDate(d: TaskDeposit)
    requires !Valid(d)
    ensures TaskDepositJsonTest(ToJson(d)) == ["date"]
    ensures FromJson(ToJson(d)) == Failure(InvalidInputError("Invalid JSON date"))
  {
    var good := d.(date := "2024-02-29");
    TypeGuards.AcceptedExamples();
    RoundTrip(good);
    DateRejected(ToJson(good).obj, d.date);
    ToJsonOfDate(good, d.date);
  }

  /** Setting the tokens a deposit already holds gives back the deposit. */
  lemma WithTokensEarnedSame(d: TaskDeposit)
    requires Valid(d)
    ensures WithTokensEarned(d, d.tokensEarned) == Success(d)
  {
  }

  /** Of two successive calls the last one wins. */
  lemma WithTokensEarnedTwice(d: TaskDeposit, t: real, t': real)
    requires Valid(d)
    ensures WithTokensEarned(d, t).Success?
    ensures WithTokensEarned(WithTokensEarned(d, t).value, t') == WithTokensEarned(d, t')
  {
  }
}
