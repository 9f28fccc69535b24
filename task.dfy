/** A Task: a recurring chore that earns a fixed number of tokens each time
    it is done, at a given cadence. */
module TaskModel {
  import opened Wrappers
  import opened JsonValue
  import opened Errors
  import opened FieldSchema
  import F = Frequency

  datatype Task = Task(
    id: string,
    vbUserId: string,
    name: string,
    frequency: F.Frequency,
    tokensEarnedPerInput: real)

  /** The TaskJSON shape; `frequency` must be one of the enum's strings. */
  function TaskSchema(): Schema {
    Cons(Field("id", IsString),
    Cons(Field("vbUserId", IsString),
    Cons(Field("name", IsString),
    Cons(Field("frequency", IsFrequencyValue),
    Cons(Field("tokensEarnedPerInput", IsNumber),
    Nil)))))
  }

  const TaskKeys: set<string> := {"id", "vbUserId", "name", "frequency", "tokensEarnedPerInput"}

  /** isTaskJSON */
  predicate IsTaskJson(v: Json) {
    Guard(TaskSchema(), v)
  }

  /** isTaskJSONTest */
  function TaskJsonTest(v: Json): seq<string> {
    Diagnostics(TaskSchema(), v)
  }

  /** toJSON: the frequency is written as its string value. */
  function ToJson(t: Task): (j: Json)
    ensures j.JObject? && j.obj.Keys == TaskKeys
    ensures j.obj["frequency"] == JString(F.Value(t.frequency)) && F.IsFrequency(F.Value(t.frequency))
  {
    JObject(map[
      "id" := JString(t.id),
      "vbUserId" := JString(t.vbUserId),
      "name" := JString(t.name),
      "frequency" := JString(F.Value(t.frequency)),
      "tokensEarnedPerInput" := JNumber(t.tokensEarnedPerInput)
    ])
  }

  /** The constructor: copies the fields, parsing `frequency` with
      frequencyFromString, whose error it passes on. */
  function New(payload: map<string, Json>): (r: Result<Task, Error>)
    ensures r.Success? <==> F.IsFrequency(GetString(payload, "frequency"))
    ensures r.Success? ==> F.Value(r.value.frequency) == GetString(payload, "frequency")
    ensures r.Failure? ==> r.error == PlainError("Invalid frequency: " + GetString(payload, "frequency"))
  {
    var frequency :- F.FrequencyFromString(GetString(payload, "frequency"));
    Success(Task(
      GetString(payload, "id"),
      GetString(payload, "vbUserId"),
      GetString(payload, "name"),
      frequency,
      GetNumber(payload, "tokensEarnedPerInput")))
  }

  /** fromJSON: fails, naming every failing field, exactly when the guard
      fails; the guard already demands a known frequency, so the
      constructor's parse cannot fail after it. */
  function FromJson(v: Json): (r: Result<Task, Error>)
    ensures r.Success? <==> IsTaskJson(v)
    ensures r.Failure? ==> r.error == InvalidInputError(InvalidJsonMessage(TaskSchema(), v))
  {
    if !IsTaskJson(v) then
      Failure(InvalidInputError(InvalidJsonMessage(TaskSchema(), v)))
    else
      New(v.obj)
  }

  /** fromNewTask: the same task under a new id; it cannot fail, since a
      task's own frequency always parses. */
  function FromNewTask(id: string, t: Task): (r: Result<Task, Error>)
    ensures r == Success(t.(id := id))
    ensures ToJson(r.value) == JObject(ToJson(t).obj["id" := JString(id)])
  {
    KeysDistinct();
    F.FromStringOfValue(t.frequency);
    New(ToJson(t).obj["id" := JString(id)])
  }

  /** The guard asks for three strings, a known frequency and a number. */
  lemma GuardFields(v: Json)
    ensures IsTaskJson(v) <==>
      && v.JObject?
      && "id" in v.obj && v.obj["id"].JString?
      && "vbUserId" in v.obj && v.obj["vbUserId"].JString?
      && "name" in v.obj && v.obj["name"].JString?
      && "frequency" in v.obj && v.obj["frequency"].JString? && F.IsFrequency(v.obj["frequency"].str)
      && "tokensEarnedPerInput" in v.obj && v.obj["tokensEarnedPerInput"].JNumber?
  {
  }

  lemma KeysDistinct()
    ensures "id" != "vbUserId" && "id" != "name" && "id" != "frequency" && "id" != "tokensEarnedPerInput"
    ensures "vbUserId" != "name" && "vbUserId" != "frequency" && "vbUserId" != "tokensEarnedPerInput"
    ensures "name" != "frequency" && "name" != "tokensEarnedPerInput"
    ensures "frequency" != "tokensEarnedPerInput"
  {
  }

  lemma SchemaDistinct()
    ensures DistinctNames(TaskSchema())
  {
    KeysDistinct();
  }

  lemma SchemaRequired()
    ensures RequiredNames(TaskSchema()) == TaskKeys
  {
  }

  /** The constructor fails on a string outside the enum with the error of
      frequencyFromString, naming the string. */
  lemma ConstructorRejectsFrequency(payload: map<string, Json>)
    requires "frequency" in payload && payload["frequency"] == JString("invalidFrequency")
    ensures New(payload) == Failure(PlainError("Invalid frequency: invalidFrequency"))
  {
    F.IsFrequencyExactly("invalidFrequency");
    assert "Invalid frequency: " + "invalidFrequency" == "Invalid frequency: invalidFrequency";
  }

  /** Every task serialises to JSON that its guard accepts and that parses
      back to the same task. */
  lemma RoundTrip(t: Task)
    ensures IsTaskJson(ToJson(t))
    ensures FromJson(ToJson(t)) == Success(t)
  {
    KeysDistinct();
    F.FromStringOfValue(t.frequency);
    GuardFields(ToJson(t));
  }

  /** fromJSON copies every property, the frequency as the member whose
      value is the given string. */
  lemma FromJsonCopies(v: Json)
    requires IsTaskJson(v)
    ensures FromJson(v).Success?
    ensures var t := FromJson(v).value;
      && t.id == v.obj["id"].str && t.vbUserId == v.obj["vbUserId"].str && t.name == v.obj["name"].str
      && F.Value(t.frequency) == v.obj["frequency"].str
      && t.tokensEarnedPerInput == v.obj["tokensEarnedPerInput"].num
  {
    GuardFields(v);
  }

  /** Parsing then serialising keeps every property of the shape and drops
      the rest; an input with no extra properties comes back unchanged. */
  lemma JsonRoundTrip(v: Json)
    requires IsTaskJson(v)
    ensures FromJson(v).Success?
    ensures ToJson(FromJson(v).value) == JObject(Restrict(v.obj, TaskKeys))
    ensures v.obj.Keys <= TaskKeys ==> ToJson(FromJson(v).value) == v
  {
    KeysDistinct();
    FromJsonCopies(v);
    GuardFields(v);
    if v.obj.Keys <= TaskKeys {
      assert Restrict(v.obj, TaskKeys) == v.obj;
    }
  }

  /** Guard and diagnostics agree; a non-object is reported as "root". */
  lemma Diagnosis(v: Json)
    ensures IsTaskJson(v) <==> TaskJsonTest(v) == []
    ensures !v.JObject? ==> !IsTaskJson(v) && TaskJsonTest(v) == [RootMarker]
  {
    GuardIffNoDiagnostics(TaskSchema(), v);
  }

  /** Deleting one property reports exactly that property. */
  lemma MissingField(v: Json, key: string)
    requires IsTaskJson(v)
    requires key in TaskKeys
    ensures TaskJsonTest(JObject(v.obj - {key})) == [key]
    ensures FromJson(JObject(v.obj - {key})) == Failure(InvalidInputError("Invalid JSON " + key))
  {
    SchemaDistinct();
    SchemaRequired();
    MissingRequiredField(TaskSchema(), v.obj, key);
  }

  /** A string outside the enum is reported as the single name "frequency"
      by fromJSON, before the constructor is reached. */
  lemma InvalidFrequency(v: Json, s: string)
    requires IsTaskJson(v)
    requires !F.IsFrequency(s)
    ensures TaskJsonTest(JObject(v.obj["frequency" := JString(s)])) == ["frequency"]
    ensures FromJson(JObject(v.obj["frequency" := JString(s)])) == Failure(InvalidInputError("Invalid JSON frequency"))
  {
    SchemaDistinct();
    KeysDistinct();
    assert CheckOf(TaskSchema(), "frequency") == Some(IsFrequencyValue);
    IllTypedField(TaskSchema(), v.obj, "frequency", JString(s));
    assert "Invalid JSON " + "frequency" == "Invalid JSON frequency";
  }
}
