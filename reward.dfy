/** A Reward: something a user can spend tokens on, at a price in tokens. */
module RewardModel {
  import opened Wrappers
  import opened JsonValue
  import opened Errors
  import opened FieldSchema

  datatype Reward = Reward(
    id: string,
    vbUserId: string,
    name: string,
    price: real)

  /** The RewardJSON shape. */
  function RewardSchema(): Schema {
    Cons(Field("id", IsString),
    Cons(Field("vbUserId", IsString),
    Cons(Field("name", IsString),
    Cons(Field("price", IsNumber),
    Nil))))
  }

  const RewardKeys: set<string> := {"id", "vbUserId", "name", "price"}

  /** isRewardJSON */
  predicate IsRewardJson(v: Json) {
    Guard(RewardSchema(), v)
  }

  /** rewardJSONTest */
  function RewardJsonTest(v: Json): seq<string> {
    Diagnostics(RewardSchema(), v)
  }

  /** toJSON */
  function ToJson(w: Reward): (j: Json)
    ensures j.JObject? && j.obj.Keys == RewardKeys
  {
    JObject(map[
      "id" := JString(w.id),
      "vbUserId" := JString(w.vbUserId),
      "name" := JString(w.name),
      "price" := JNumber(w.price)
    ])
  }

  /** The constructor: copies the fields of a RewardJSON payload. On a
      payload the guard accepts, serialising the result gives back exactly
      the properties of the shape. */
  function FromPayload(payload: map<string, Json>): (r: Reward)
    ensures IsRewardJson(JObject(payload)) ==> ToJson(r) == JObject(Restrict(payload, RewardKeys))
  {
    KeysDistinct();
    GuardFields(JObject(payload));
    Reward(
      GetString(payload, "id"),
      GetString(payload, "vbUserId"),
      GetString(payload, "name"),
      GetNumber(payload, "price"))
  }

  /** fromJSON: fails, naming every failing field, exactly when the guard fails. */
  function FromJson(v: Json): (r: Result<Reward, Error>)
    ensures r.Success? <==> IsRewardJson(v)
    ensures r.Failure? ==> r.error == InvalidInputError(InvalidJsonMessage(RewardSchema(), v))
  {
    if !IsRewardJson(v) then
      Failure(InvalidInputError(InvalidJsonMessage(RewardSchema(), v)))
    else
      Success(FromPayload(v.obj))
  }

  /** fromNewReward: a copy of `w` under a new id. */
  function FromNewReward(id: string, w: Reward): (r: Reward)
    ensures r == w.(id := id)
    ensures ToJson(r) == JObject(ToJson(w).obj["id" := JString(id)])
  {
    KeysDistinct();
    FromPayload(ToJson(w).obj["id" := JString(id)])
  }

  /** The guard asks for three strings and a number. */
  lemma GuardFields(v: Json)
    ensures IsRewardJson(v) <==>
      && v.JObject?
      && "id" in v.obj && v.obj["id"].JString?
      && "vbUserId" in v.obj && v.obj["vbUserId"].JString?
      && "name" in v.obj && v.obj["name"].JString?
      && "price" in v.obj && v.obj["price"].JNumber?
  {
  }

  lemma KeysDistinct()
    ensures "id" != "vbUserId" && "id" != "name" && "id" != "price"
    ensures "vbUserId" != "name" && "vbUserId" != "price"
    ensures "name" != "price"
  {
  }

  lemma SchemaDistinct()
    ensures DistinctNames(RewardSchema())
  {
    KeysDistinct();
  }

  lemma SchemaRequired()
    ensures RequiredNames(RewardSchema()) == RewardKeys
  {
  }

  /** The constructor reproduces every reward from its own JSON. */
  lemma PayloadRoundTrip(w: Reward)
    ensures FromPayload(ToJson(w).obj) == w
  {
    KeysDistinct();
  }

  /** Every reward serialises to JSON that its guard accepts and that parses
      back to the same reward. */
  lemma RoundTrip(w: Reward)
    ensures IsRewardJson(ToJson(w))
    ensures FromJson(ToJson(w)) == Success(w)
  {
    KeysDistinct();
    GuardFields(ToJson(w));
    PayloadRoundTrip(w);
  }

  /** Parsing then serialising keeps every property of the shape and drops
      the rest; an input with no extra properties comes back unchanged. */
  lemma JsonRoundTrip(v: Json)
    requires IsRewardJson(v)
    ensures FromJson(v).Success?
    ensures ToJson(FromJson(v).value) == JObject(Restrict(v.obj, RewardKeys))
    ensures v.obj.Keys <= RewardKeys ==> ToJson(FromJson(v).value) == v
  {
    KeysDistinct();
    GuardFields(v);
    if v.obj.Keys <= RewardKeys {
      assert Restrict(v.obj, RewardKeys) == v.obj;
    }
  }

  /** Guard and diagnostics agree; a non-object is reported as "root". */
  lemma Diagnosis(v: Json)
    ensures IsRewardJson(v) <==> RewardJsonTest(v) == []
    ensures !v.JObject? ==> !IsRewardJson(v) && RewardJsonTest(v) == [RootMarker]
  {
    GuardIffNoDiagnostics(RewardSchema(), v);
  }

  /** Deleting one property reports exactly that property. */
  lemma MissingField(v: Json, key: string)
    requires IsRewardJson(v)
    requires key in RewardKeys
    ensures RewardJsonTest(JObject(v.obj - {key})) == [key]
    ensures FromJson(JObject(v.obj - {key})) == Failure(InvalidInputError("Invalid JSON " + key))
  {
    SchemaDistinct();
    SchemaRequired();
    MissingRequiredField(RewardSchema(), v.obj, key);
  }
}
