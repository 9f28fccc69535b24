/** The untrusted input every `fromJSON` accepts: a JSON-shaped value.
    An object is a map from property name to value; a property that is
    `undefined` in the host language is a key that is absent from the map. */
module JsonValue {
  import opened Wrappers

  datatype Json =
    | JString(str: string)
    | JNumber(num: real)
    | JBool(boolean: bool)
    | JNull
    | JArray(items: seq<Json>)
    | JObject(obj: map<string, Json>)

  /** Property access `input[key]`: None stands for `undefined`. */
  function Get(m: map<string, Json>, key: string): (r: Option<Json>)
    ensures r.Some? <==> key in m
    ensures r.Some? ==> r.value == m[key]
  {
    if key in m then Some(m[key]) else None
  }

  /** The string stored under `key`, read once a guard has established it is there. */
  function GetString(m: map<string, Json>, key: string): string {
    if key in m && m[key].JString? then m[key].str else ""
  }

  /** The number stored under `key`, read once a guard has established it is there. */
  function GetNumber(m: map<string, Json>, key: string): real {
    if key in m && m[key].JNumber? then m[key].num else 0.0
  }

  /** The nested object stored under `key`, read once a guard has established it is there. */
  function GetObject(m: map<string, Json>, key: string): map<string, Json> {
    if key in m && m[key].JObject? then m[key].obj else map[]
  }

  /** Object spread `{ ...base, ...overrides }`: later properties win. */
  function Spread(base: map<string, Json>, overrides: map<string, Json>): (r: map<string, Json>)
    ensures r.Keys == base.Keys + overrides.Keys
    ensures forall k :: k in overrides ==> r[k] == overrides[k]
    ensures forall k :: k in base && k !in overrides ==> r[k] == base[k]
  {
    base + overrides
  }

  /** Spreading a single property over an object sets that property. */
  lemma SpreadOne(base: map<string, Json>, key: string, value: Json)
    ensures Spread(base, map[key := value]) == base[key := value]
  {
  }

  /** The properties of `m` whose names are in `keys`: what a `toJSON` keeps
      of an input that carried extra properties. */
  function Restrict(m: map<string, Json>, keys: set<string>): (r: map<string, Json>)
    ensures r.Keys == m.Keys * keys
    ensures forall k :: k in r ==> r[k] == m[k]
  {
    map k | k in m && k in keys :: m[k]
  }
}
