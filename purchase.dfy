/** A Purchase: one recorded purchase. It owns a snapshot of the price it
    was bought at, taken by value, so later edits to the price do not alter
    the historical record. */
module PurchaseModel {
  import opened Wrappers
  import opened JsonValue
  import opened Errors
  import opened FieldSchema
  import TypeGuards
  import PurchasePriceModel

  datatype Purchase = Purchase(
    id: string,
    userId: string,
    date: string,                                    // the ISO timestamp, kept as written
    purchasedQuantity: real,
    purchasePrice: PurchasePriceModel.PurchasePrice) // the snapshot of the price

  /** The PurchaseJSON shape; the nested price must pass the PurchasePrice guard. */
  function PurchaseSchema(): Schema {
    Cons(Field("id", IsString),
    Cons(Field("userId", IsString),
    Cons(Field("date", IsDateTimeString),
    Cons(Field("purchasedQuantity", IsNumber),
    Cons(Field("purchasePrice", Matches(PurchasePriceModel.PurchasePriceSchema())),
    Nil)))))
  }

  const PurchaseKeys: set<string> := {"id", "userId", "date", "purchasedQuantity", "purchasePrice"}

  /** Every Purchase the constructor builds holds a date that parsed. */
  predicate Valid(p: Purchase) {
    TypeGuards.IsValidDateTimeString(p.date)
  }

  /** isPurchaseJSON */
  predicate IsPurchaseJson(v: Json) {
    Guard(PurchaseSchema(), v)
  }

  /** PurchaseJSONTest */
  function PurchaseJsonTest(v: Json): seq<string> {
    Diagnostics(PurchaseSchema(), v)
  }

  /** toJSON: the price is written as its own JSON. */
  function ToJson(p: Purchase): (j: Json)
    ensures j.JObject? && j.obj.Keys == PurchaseKeys
  {
    JObject(map[
      "id" := JString(p.id),
      "userId" := JString(p.userId),
      "date" := JString(p.date),
      "purchasedQuantity" := JNumber(p.purchasedQuantity),
      "purchasePrice" := PurchasePriceModel.ToJson(p.purchasePrice)
    ])
  }

  /** The constructor: rejects a date that does not parse, otherwise copies
      the fields and builds the PurchasePrice snapshot from the nested JSON. */
  function New(payload: map<string, Json>): (r: Result<Purchase, Error>)
    ensures r.Success? <==> TypeGuards.IsValidDateTimeString(GetString(payload, "date"))
    ensures r.Failure? ==> r.error == InvalidInputError("Invalid date")
    ensures r.Success? ==> Valid(r.value)
  {
    var date := GetString(payload, "date");
    if !TypeGuards.IsValidDateTimeString(date) then
      Failure(InvalidInputError("Invalid date"))
    else
      Success(Purchase(
        GetString(payload, "id"),
        GetString(payload, "userId"),
        date,
        GetNumber(payload, "purchasedQuantity"),
        PurchasePriceModel.FromPayload(GetObject(payload, "purchasePrice"))))
  }

  /** fromJSON: fails listing the failing fields exactly when the guard
      fails; on an accepted input the constructor's date check cannot fail. */
  function FromJson(v: Json): (r: Result<Purchase, Error>)
    ensures r.Success? <==> IsPurchaseJson(v)
    ensures r.Failure? ==> r.error == InvalidInputError(InvalidJsonMessage(PurchaseSchema(), v))
    ensures r.Success? ==> Valid(r.value)
  {
    if !IsPurchaseJson(v) then
      Failure(InvalidInputError(InvalidJsonMessage(PurchaseSchema(), v)))
    else
      New(v.obj)
  }

  /** fromNewPurchase: the same purchase under a new id. */
  function FromNewPurchase(id: string, p: Purchase): (r: Result<Purchase, Error>)
    ensures Valid(p) ==> r == Success(p.(id := id))
    ensures Valid(p) ==> ToJson(r.value) == JObject(ToJson(p).obj["id" := JString(id)])
    ensures !Valid(p) ==> r == Failure(InvalidInputError("Invalid date"))
  {
    KeysDistinct();
    PurchasePriceModel.PayloadRoundTrip(p.purchasePrice);
    New(ToJson(p).obj["id" := JString(id)])
  }

  /** The guard asks for two strings, a valid date, a number and an object
      the PurchasePrice guard accepts. */
  lemma GuardFields(v: Json)
    ensures IsPurchaseJson(v) <==>
      && v.JObject?
      && "id" in v.obj && v.obj["id"].JString?
      && "userId" in v.obj && v.obj["userId"].JString?
      && "date" in v.obj && v.obj["date"].JString? && TypeGuards.IsValidDateTimeString(v.obj["date"].str)
      && "purchasedQuantity" in v.obj && v.obj["purchasedQuantity"].JNumber?
      && "purchasePrice" in v.obj && PurchasePriceModel.IsPurchasePriceJson(v.obj["purchasePrice"])
  {
  }

  lemma KeysDistinct()
    ensures "id" != "userId" && "id" != "date" && "id" != "purchasedQuantity" && "id" != "purchasePrice"
    ensures "userId" != "date" && "userId" != "purchasedQuantity" && "userId" != "purchasePrice"
    ensures "date" != "purchasedQuantity" && "date" != "purchasePrice"
    ensures "purchasedQuantity" != "purchasePrice"
  {
  }

  lemma SchemaDistinct()
    ensures DistinctNames(PurchaseSchema())
  {
    KeysDistinct();
  }

  lemma SchemaRequired()
    ensures RequiredNames(PurchaseSchema()) == PurchaseKeys
  {
  }

  /** Every valid purchase serialises to JSON that parses back to it. */
  lemma RoundTrip(p: Purchase)
    requires Valid(p)
    ensures IsPurchaseJson(ToJson(p))
    ensures FromJson(ToJson(p)) == Success(p)
  {
    KeysDistinct();
    PurchasePriceModel.RoundTrip(p.purchasePrice);
    PurchasePriceModel.PayloadRoundTrip(p.purchasePrice);
    GuardFields(ToJson(p));
  }

  /** fromJSON copies every property into the purchase, and the nested
      price through the PurchasePrice constructor. */
  lemma FromJsonCopies(v: Json)
    requires IsPurchaseJson(v)
    ensures FromJson(v) == Success(Purchase(v.obj["id"].str, v.obj["userId"].str, v.obj["date"].str,
                                            v.obj["purchasedQuantity"].num,
                                            PurchasePriceModel.FromPayload(v.obj["purchasePrice"].obj)))
  {
    GuardFields(v);
  }

  lemma ToJsonOfCopy(v: Json)
    requires v.JObject?
    requires "id" in v.obj && v.obj["id"].JString?
    requires "userId" in v.obj && v.obj["userId"].JString?
    requires "date" in v.obj && v.obj["date"].JString?
    requires "purchasedQuantity" in v.obj && v.obj["purchasedQuantity"].JNumber?
    requires "purchasePrice" in v.obj && v.obj["purchasePrice"].JObject?
    ensures ToJson(Purchase(v.obj["id"].str, v.obj["userId"].str, v.obj["date"].str,
                            v.obj["purchasedQuantity"].num,
                            PurchasePriceModel.FromPayload(v.obj["purchasePrice"].obj))).obj
            == Restrict(v.obj, PurchaseKeys)["purchasePrice" :=
                 PurchasePriceModel.ToJson(PurchasePriceModel.FromPayload(v.obj["purchasePrice"].obj))]
  {
    KeysDistinct();
  }

  /** Parsing then serialising keeps every property of the shape and drops
      the rest, at both levels; an input with no extra properties at either
      level comes back unchanged. */
  lemma JsonRoundTrip(v: Json)
    requires IsPurchaseJson(v)
    ensures FromJson(v).Success?
    ensures ToJson(FromJson(v).value) == JObject(Restrict(v.obj, PurchaseKeys)[
              "purchasePrice" := JObject(Restrict(GetObject(v.obj, "purchasePrice"), PurchasePriceModel.PurchasePriceKeys))])
    ensures v.obj.Keys <= PurchaseKeys && GetObject(v.obj, "purchasePrice").Keys <= PurchasePriceModel.PurchasePriceKeys
            ==> ToJson(FromJson(v).value) == v
  {
    GuardFields(v);
    FromJsonCopies(v);
    ToJsonOfCopy(v);
    PurchasePriceModel.JsonRoundTrip(v.obj["purchasePrice"]);
    if v.obj.Keys <= PurchaseKeys && GetObject(v.obj, "purchasePrice").Keys <= PurchasePriceModel.PurchasePriceKeys {
      assert Restrict(GetObject(v.obj, "purchasePrice"), PurchasePriceModel.PurchasePriceKeys) == v.obj["purchasePrice"].obj;
      assert Restrict(v.obj, PurchaseKeys) == v.obj;
    }
  }

  /** Guard and diagnostics agree; a non-object is reported as "root", and
      fromJSON fails on it. */
  lemma Diagnosis(v: Json)
    ensures IsPurchaseJson(v) <==> PurchaseJsonTest(v) == []
    ensures !v.JObject? ==> !IsPurchaseJson(v) && PurchaseJsonTest(v) == [RootMarker]
    ensures !v.JObject? ==> FromJson(v) == Failure(InvalidInputError("Invalid JSON root"))
  {
    GuardIffNoDiagnostics(PurchaseSchema(), v);
    if !v.JObject? {
      NonObjectIsRoot(PurchaseSchema(), v);
    }
  }

  /** Deleting one property reports exactly that property. */
  lemma MissingField(v: Json, key: string)
    requires IsPurchaseJson(v)
    requires key in PurchaseKeys
    ensures PurchaseJsonTest(JObject(v.obj - {key})) == [key]
    ensures FromJson(JObject(v.obj - {key})) == Failure(InvalidInputError("Invalid JSON " + key))
  {
    SchemaDistinct();
    SchemaRequired();
    MissingRequiredField(PurchaseSchema(), v.obj, key);
  }

  lemma PriceCheck()
    ensures CheckOf(PurchaseSchema(), "purchasePrice") == Some(Matches(PurchasePriceModel.PurchasePriceSchema()))
  {
    KeysDistinct();
  }

  /** A nested price the PurchasePrice guard rejects is reported as the
      single name "purchasePrice". */
  lemma InvalidNestedPrice(v: Json, price: Json)
    requires IsPurchaseJson(v)
    requires !PurchasePriceModel.IsPurchasePriceJson(price)
    ensures PurchaseJsonTest(JObject(v.obj["purchasePrice" := price])) == ["purchasePrice"]
    ensures FromJson(JObject(v.obj["purchasePrice" := price])) == Failure(InvalidInputError("Invalid JSON purchasePrice"))
  {
    SchemaDistinct();
    PriceCheck();
    IllTypedField(PurchaseSchema(), v.obj, "purchasePrice", price);
    assert "Invalid JSON " + "purchasePrice" == "Invalid JSON purchasePrice";
  }
}
