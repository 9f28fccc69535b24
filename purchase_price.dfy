/** A PurchasePrice: a named price, in tokens, of something a user can buy. */
module PurchasePriceModel {
  import opened Wrappers
  import opened JsonValue
  import opened Errors
  import opened FieldSchema

  datatype PurchasePrice = PurchasePrice(
    id: string,
    userId: string,
    name: string,
    price: real)

  /** The PurchasePriceJSON shape. */
  function PurchasePriceSchema(): Schema {
    Cons(Field("id", IsString),
    Cons(Field("userId", IsString),
    Cons(Field("name", IsString),
    Cons(Field("price", IsNumber),
    Nil))))
  }

  const PurchasePriceKeys: set<string> := {"id", "userId", "name", "price"}

  /** isPurchasePriceJSON */
  predicate IsPurchasePriceJson(v: Json) {
    Guard(PurchasePriceSchema(), v)
  }

  /** PurchasePriceJSONTest */
  function PurchasePriceJsonTest(v: Json): seq<string> {
    Diagnostics(PurchasePriceSchema(), v)
  }

  /** toJSON */
  function ToJson(p: PurchasePrice): (j: Json)
    ensures j.JObject? && j.obj.Keys == PurchasePriceKeys
  {
    JObject(map[
      "id" := JString(p.id),
      "userId" := JString(p.userId),
      "name" := JString(p.name),
      "price" := JNumber(p.price)
    ])
  }

  /** The constructor: copies the fields of a PurchasePriceJSON payload. On a
      payload the guard accepts, serialising the result gives back exactly
      the properties of the shape. */
  function FromPayload(payload: map<string, Json>): (r: PurchasePrice)
    ensures IsPurchasePriceJson(JObject(payload)) ==> ToJson(r) == JObject(Restrict(payload, PurchasePriceKeys))
  {
    KeysDistinct();
    GuardFields(JObject(payload));
    PurchasePrice(
      GetString(payload, "id"),
      GetString(payload, "userId"),
      GetString(payload, "name"),
      GetNumber(payload, "price"))
  }

  /** fromJSON: fails, naming every failing field, exactly when the guard fails. */
  function FromJson(v: Json): (r: Result<PurchasePrice, Error>)
    ensures r.Success? <==> IsPurchasePriceJson(v)
    ensures r.Failure? ==> r.error == InvalidInputError(InvalidJsonMessage(PurchasePriceSchema(), v))
  {
    if !IsPurchasePriceJson(v) then
      Failure(InvalidInputError(InvalidJsonMessage(PurchasePriceSchema(), v)))
    else
      Success(FromPayload(v.obj))
  }

  /** fromNewPurchasePrice: a copy of `p` under a new id. */
  function FromNewPurchasePrice(id: string, p: PurchasePrice): (r: PurchasePrice)
    ensures r == p.(id := id)
    ensures ToJson(r) == JObject(ToJson(p).obj["id" := JString(id)])
  {
    KeysDistinct();
    FromPayload(ToJson(p).obj["id" := JString(id)])
  }

  /** The guard asks for three strings and a number. */
  lemma GuardFields(v: Json)
    ensures IsPurchasePriceJson(v) <==>
      && v.JObject?
      && "id" in v.obj && v.obj["id"].JString?
      && "userId" in v.obj && v.obj["userId"].JString?
      && "name" in v.obj && v.obj["name"].JString?
      && "price" in v.obj && v.obj["price"].JNumber?
  {
  }

  lemma KeysDistinct()
    ensures "id" != "userId" && "id" != "name" && "id" != "price"
    ensures "userId" != "name" && "userId" != "price"
    ensures "name" != "price"
  {
  }

  lemma SchemaDistinct()
    ensures DistinctNames(PurchasePriceSchema())
  {
    KeysDistinct();
  }

  lemma SchemaRequired()
    ensures RequiredNames(PurchasePriceSchema()) == PurchasePriceKeys
  {
  }

  /** The constructor reproduces every price from its own JSON. */
  lemma PayloadRoundTrip(p: PurchasePrice)
    ensures FromPayload(ToJson(p).obj) == p
  {
    KeysDistinct();
  }

  /** Every price serialises to JSON that its guard accepts and that parses
      back to the same price. */
  lemma RoundTrip(p: PurchasePrice)
    ensures IsPurchasePriceJson(ToJson(p))
    ensures FromJson(ToJson(p)) == Success(p)
  {
    KeysDistinct();
    GuardFields(ToJson(p));
    PayloadRoundTrip(p);
  }

  /** Parsing then serialising keeps every property of the shape and drops
      the rest; an input with no extra properties comes back unchanged. */
  lemma JsonRoundTrip(v: Json)
    requires IsPurchasePriceJson(v)
    ensures FromJson(v).Success?
    ensures ToJson(FromJson(v).value) == JObject(Restrict(v.obj, PurchasePriceKeys))
    ensures v.obj.Keys <= PurchasePriceKeys ==> ToJson(FromJson(v).value) == v
  {
    KeysDistinct();
    GuardFields(v);
    if v.obj.Keys <= PurchasePriceKeys {
      assert Restrict(v.obj, PurchasePriceKeys) == v.obj;
    }
  }

  /** Guard and diagnostics agree; a non-object is reported as "root". */
  lemma Diagnosis(v: Json)
    ensures IsPurchasePriceJson(v) <==> PurchasePriceJsonTest(v) == []
    ensures !v.JObject? ==> !IsPurchasePriceJson(v) && PurchasePriceJsonTest(v) == [RootMarker]
  {
    GuardIffNoDiagnostics(PurchasePriceSchema(), v);
  }

  /** Deleting one property reports exactly that property. */
  lemma MissingField(v: Json, key: string)
    requires IsPurchasePriceJson(v)
    requires key in PurchasePriceKeys
    ensures PurchasePriceJsonTest(JObject(v.obj - {key})) == [key]
    ensures FromJson(JObject(v.obj - {key})) == Failure(InvalidInputError("Invalid JSON " + key))
  {
    SchemaDistinct();
    SchemaRequired();
    MissingRequiredField(PurchasePriceSchema(), v.obj, key);
  }
}
