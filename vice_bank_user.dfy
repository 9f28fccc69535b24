/** A ViceBankUser: a user of the token bank and the tokens they currently hold. */
module ViceBankUserModel {
  import opened Wrappers
  import opened JsonValue
  import opened Errors
  import opened FieldSchema

  datatype ViceBankUser = ViceBankUser(
    id: string,
    userId: string,
    name: string,
    currentTokens: real)

  /** The ViceBankUserJSON shape. */
  function ViceBankUserSchema(): Schema {
    Cons(Field("id", IsString),
    Cons(Field("userId", IsString),
    Cons(Field("name", IsString),
    Cons(Field("currentTokens", IsNumber),
    Nil))))
  }

  const ViceBankUserKeys: set<string> := {"id", "userId", "name", "currentTokens"}

  /** isViceBankUserJSON */
  predicate IsViceBankUserJson(v: Json) {
    Guard(ViceBankUserSchema(), v)
  }

  /** ViceBankUserJSONTest */
  function ViceBankUserJsonTest(v: Json): seq<string> {
    Diagnostics(ViceBankUserSchema(), v)
  }

  /** toJSON */
  function ToJson(u: ViceBankUser): (j: Json)
    ensures j.JObject? && j.obj.Keys == ViceBankUserKeys
  {
    JObject(map[
      "id" := JString(u.id),
      "userId" := JString(u.userId),
      "name" := JString(u.name),
      "currentTokens" := JNumber(u.currentTokens)
    ])
  }

  /** The constructor: copies the fields of a ViceBankUserJSON payload. On a
      payload the guard accepts, serialising the result gives back exactly
      the properties of the shape. */
  function FromPayload(payload: map<string, Json>): (r: ViceBankUser)
    ensures IsViceBankUserJson(JObject(payload)) ==> ToJson(r) == JObject(Restrict(payload, ViceBankUserKeys))
  {
    KeysDistinct();
    GuardFields(JObject(payload));
    ViceBankUser(
      GetString(payload, "id"),
      GetString(payload, "userId"),
      GetString(payload, "name"),
      GetNumber(payload, "currentTokens"))
  }

  /** fromJSON: fails, naming every failing field, exactly when the guard fails. */
  function FromJson(v: Json): (r: Result<ViceBankUser, Error>)
    ensures r.Success? <==> IsViceBankUserJson(v)
    ensures r.Failure? ==> r.error == InvalidInputError(InvalidJsonMessage(ViceBankUserSchema(), v))
  {
    if !IsViceBankUserJson(v) then
      Failure(InvalidInputError(InvalidJsonMessage(ViceBankUserSchema(), v)))
    else
      Success(FromPayload(v.obj))
  }

  /** copyWith: the user's JSON overridden by `overrides`, re-validated:
      it succeeds exactly when the merged object passes the guard, and
      otherwise fails naming the properties that do not. */
  function CopyWith(u: ViceBankUser, overrides: map<string, Json>): (r: Result<ViceBankUser, Error>)
    ensures r.Success? <==> IsViceBankUserJson(JObject(Spread(ToJson(u).obj, overrides)))
    ensures r.Failure? ==>
              r.error == InvalidInputError(InvalidJsonMessage(ViceBankUserSchema(), JObject(Spread(ToJson(u).obj, overrides))))
  {
    FromJson(JObject(Spread(ToJson(u).obj, overrides)))
  }

  /** fromNewViceBankUser: the user's JSON under a new id, re-validated;
      the check always passes, so only the id changes. */
  function FromNewViceBankUser(id: string, u: ViceBankUser): (r: Result<ViceBankUser, Error>)
    ensures r == Success(u.(id := id))
    ensures ToJson(r.value) == JObject(ToJson(u).obj["id" := JString(id)])
  {
    KeysDistinct();
    assert ToJson(u).obj["id" := JString(id)] == ToJson(u.(id := id)).obj;
    RoundTrip(u.(id := id));
    FromJson(JObject(ToJson(u).obj["id" := JString(id)]))
  }

  /** The guard asks for three strings and a number. */
  lemma GuardFields(v: Json)
    ensures IsViceBankUserJson(v) <==>
      && v.JObject?
      && "id" in v.obj && v.obj["id"].JString?
      && "userId" in v.obj && v.obj["userId"].JString?
      && "name" in v.obj && v.obj["name"].JString?
      && "currentTokens" in v.obj && v.obj["currentTokens"].JNumber?
  {
  }

  lemma KeysDistinct()
    ensures "id" != "userId" && "id" != "name" && "id" != "currentTokens"
    ensures "userId" != "name" && "userId" != "currentTokens"
    ensures "name" != "currentTokens"
  {
  }

  lemma SchemaDistinct()
    ensures DistinctNames(ViceBankUserSchema())
  {
    KeysDistinct();
  }

  lemma SchemaRequired()
    ensures RequiredNames(ViceBankUserSchema()) == ViceBankUserKeys
  {
  }

  /** The constructor reproduces every user from its own JSON. */
  lemma PayloadRoundTrip(u: ViceBankUser)
    ensures FromPayload(ToJson(u).obj) == u
  {
    KeysDistinct();
  }

  /** Every user serialises to JSON that its guard accepts and that parses
      back to the same user. */
  lemma RoundTrip(u: ViceBankUser)
    ensures IsViceBankUserJson(ToJson(u))
    ensures FromJson(ToJson(u)) == Success(u)
  {
    KeysDistinct();
    GuardFields(ToJson(u));
    PayloadRoundTrip(u);
  }

  /** Parsing then serialising keeps every property of the shape and drops
      the rest; an input with no extra properties comes back unchanged. */
  lemma JsonRoundTrip(v: Json)
    requires IsViceBankUserJson(v)
    ensures FromJson(v).Success?
    ensures ToJson(FromJson(v).value) == JObject(Restrict(v.obj, ViceBankUserKeys))
    ensures v.obj.Keys <= ViceBankUserKeys ==> ToJson(FromJson(v).value) == v
  {
    KeysDistinct();
    GuardFields(v);
    if v.obj.Keys <= ViceBankUserKeys {
      assert Restrict(v.obj, ViceBankUserKeys) == v.obj;
    }
  }

  /** Guard and diagnostics agree; a non-object is reported as "root". */
  lemma Diagnosis(v: Json)
    ensures IsViceBankUserJson(v) <==> ViceBankUserJsonTest(v) == []
    ensures !v.JObject? ==> !IsViceBankUserJson(v) && ViceBankUserJsonTest(v) == [RootMarker]
  {
    GuardIffNoDiagnostics(ViceBankUserSchema(), v);
  }

  /** Deleting one property reports exactly that property. */
  lemma MissingField(v: Json, key: string)
    requires IsViceBankUserJson(v)
    requires key in ViceBankUserKeys
    ensures ViceBankUserJsonTest(JObject(v.obj - {key})) == [key]
    ensures FromJson(JObject(v.obj - {key})) == Failure(InvalidInputError("Invalid JSON " + key))
  {
    SchemaDistinct();
    SchemaRequired();
    MissingRequiredField(ViceBankUserSchema(), v.obj, key);
  }

  /** copyWith of a new token balance changes the balance and nothing else. */
  lemma CopyWithTokens(u: ViceBankUser, n: real)
    ensures CopyWith(u, map["currentTokens" := JNumber(n)]) == Success(u.(currentTokens := n))
  {
    KeysDistinct();
    SpreadOne(ToJson(u).obj, "currentTokens", JNumber(n));
    assert ToJson(u).obj["currentTokens" := JNumber(n)] == ToJson(u.(currentTokens := n)).obj;
    RoundTrip(u.(currentTokens := n));
  }

  /** copyWith with no overrides reproduces the user. */
  lemma CopyWithNothing(u: ViceBankUser)
    ensures CopyWith(u, map[]) == Success(u)
  {
    assert Spread(ToJson(u).obj, map[]) == ToJson(u).obj;
    RoundTrip(u);
  }

  /** copyWith that puts a value the schema rejects into one property (a
      balance that is not a number, say) fails, naming that property. */
  lemma CopyWithInvalid(u: ViceBankUser, key: string, x: Json)
    requires CheckOf(ViceBankUserSchema(), key).Some? && !Accepts(CheckOf(ViceBankUserSchema(), key).value, Some(x))
    ensures CopyWith(u, map[key := x]) == Failure(InvalidInputError("Invalid JSON " + key))
  {
    RoundTrip(u);
    SchemaDistinct();
    SpreadOne(ToJson(u).obj, key, x);
    IllTypedField(ViceBankUserSchema(), ToJson(u).obj, key, x);
  }

  /** A balance given as a string is rejected, naming `currentTokens`. */
  lemma CopyWithStringTokens(u: ViceBankUser, s: string)
    ensures CopyWith(u, map["currentTokens" := JString(s)]) == Failure(InvalidInputError("Invalid JSON currentTokens"))
  {
    KeysDistinct();
    CopyWithInvalid(u, "currentTokens", JString(s));
    assert "Invalid JSON " + "currentTokens" == "Invalid JSON currentTokens";
  }
}
