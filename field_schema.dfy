/** The generic, schema-driven validation engine every model is built on.

    A schema is an ordered list of fields, each a property name and the
    check its value must pass. From one schema the engine derives two
    functions: a whole-object guard (`Guard`) and a diagnostic producer
    (`Diagnostics`) that lists, in schema order, the names of the fields
    whose check failed, or the single marker "root" when the input is not
    an object at all. Every model's `fromJSON` fails with the message
    `InvalidJsonMessage`, "Invalid JSON " followed by the diagnostics
    joined with ", ". */
module FieldSchema {
  import opened Wrappers
  import opened JsonValue
  import TypeGuards
  import Frequency

  /** The per-field predicates the models use. */
  datatype Check =
    | IsString                   // a string
    | IsNumber                   // a number
    | IsDateTimeString           // a string naming a valid date
    | IsFrequencyValue           // a string that is a member of the frequency enum
    | OrUndefined(inner: Check)  // absent, or passing `inner`
    | Matches(schema: Schema)    // an object that passes another model's guard

  datatype Field = Field(name: string, check: Check)

  /** A schema: the fields of a JSON shape, in declaration order. */
  datatype Schema = Nil | Cons(head: Field, tail: Schema)

  /** The marker the diagnostics report for an input that is not an object. */
  const RootMarker: string := "root"

  /** Does the property value `v` (None: absent) pass check `c`? */
  function Accepts(c: Check, v: Option<Json>): bool
    decreases c
  {
    match c
    case IsString => v.Some? && v.value.JString?
    case IsNumber => v.Some? && v.value.JNumber?
    case IsDateTimeString => v.Some? && v.value.JString? && TypeGuards.IsValidDateTimeString(v.value.str)
    case IsFrequencyValue => v.Some? && v.value.JString? && Frequency.IsFrequency(v.value.str)
    case OrUndefined(inner) => v.None? || Accepts(inner, v)
    case Matches(fields) => v.Some? && Guard(fields, v.value)
  }

  /** The whole-object guard: an object (not null, not an array, not a
      primitive) every one of whose schema fields passes its check. */
  predicate Guard(schema: Schema, v: Json)
    decreases schema, 1
  {
    v.JObject? && AllAccept(schema, v.obj)
  }

  /** Every field of `schema` passes its check on object `m`. */
  predicate AllAccept(schema: Schema, m: map<string, Json>)
    decreases schema, 0
  {
    match schema
    case Nil => true
    case Cons(f, rest) => Accepts(f.check, Get(m, f.name)) && AllAccept(rest, m)
  }

  /** The names of the fields of `schema` that fail on object `m`, in schema order. */
  function Failing(schema: Schema, m: map<string, Json>): seq<string> {
    match schema
    case Nil => []
    case Cons(f, rest) =>
      (if Accepts(f.check, Get(m, f.name)) then [] else [f.name]) + Failing(rest, m)
  }

  /** The diagnostic producer. */
  function Diagnostics(schema: Schema, v: Json): seq<string> {
    if v.JObject? then Failing(schema, v.obj) else [RootMarker]
  }

  /** `parts.join(sep)`. */
  function Join(parts: seq<string>, sep: string): string {
    if |parts| == 0 then ""
    else if |parts| == 1 then parts[0]
    else parts[0] + sep + Join(parts[1..], sep)
  }

  /** The message of the error every `fromJSON` raises when its guard fails. */
  function InvalidJsonMessage(schema: Schema, v: Json): string {
    "Invalid JSON " + Join(Diagnostics(schema, v), ", ")
  }

  /** A check that an absent property does not pass. */
  predicate Required(c: Check) {
    !c.OrUndefined?
  }

  /** `f` is one of the fields of `schema`. */
  predicate Has(schema: Schema, f: Field) {
    schema.Cons? && (schema.head == f || Has(schema.tail, f))
  }

  /** No field of `schema` is named `name`. */
  predicate Lacks(schema: Schema, name: string) {
    schema.Cons? ==> schema.head.name != name && Lacks(schema.tail, name)
  }

  /** No property name occurs twice (a schema is a record's field list). */
  predicate DistinctNames(schema: Schema) {
    schema.Cons? ==> Lacks(schema.tail, schema.head.name) && DistinctNames(schema.tail)
  }

  /** The check the schema attaches to property `name`, if any. */
  function CheckOf(schema: Schema, name: string): Option<Check> {
    match schema
    case Nil => None
    case Cons(f, rest) => if f.name == name then Some(f.check) else CheckOf(rest, name)
  }

  /** The names the schema requires to be present. */
  function RequiredNames(schema: Schema): set<string> {
    match schema
    case Nil => {}
    case Cons(f, rest) => (if Required(f.check) then {f.name} else {}) + RequiredNames(rest)
  }

  ghost predicate SameOnSchema(schema: Schema, m: map<string, Json>, m': map<string, Json>) {
    forall f :: Has(schema, f) ==> Get(m, f.name) == Get(m', f.name)
  }

  // ---------------------------------------------------------------------
  // Properties of the engine, for every schema.
  // ---------------------------------------------------------------------

  /** An absent property passes a check exactly when the check is optional. */
  lemma RequiredRejectsAbsent(c: Check)
    ensures Required(c) <==> !Accepts(c, None)
  {
  }

  lemma {:induction false} NameOfField(schema: Schema, f: Field)
    requires Has(schema, f)
    ensures !Lacks(schema, f.name)
  {
    if schema.head != f {
      NameOfField(schema.tail, f);
    }
  }

  lemma {:induction false} CheckOfField(schema: Schema, name: string)
    requires CheckOf(schema, name).Some?
    ensures Has(schema, Field(name, CheckOf(schema, name).value))
  {
    if schema.head.name != name {
      CheckOfField(schema.tail, name);
    }
  }

  lemma {:induction false} RequiredNamesHaveRequiredChecks(schema: Schema, name: string)
    requires DistinctNames(schema)
    ensures name in RequiredNames(schema) <==> CheckOf(schema, name).Some? && Required(CheckOf(schema, name).value)
  {
    if schema.Cons? {
      RequiredNamesHaveRequiredChecks(schema.tail, name);
      if schema.head.name == name && name in RequiredNames(schema.tail) {
        CheckOfField(schema.tail, name);
        NameOfField(schema.tail, Field(name, CheckOf(schema.tail, name).value));
      }
    }
  }

  /** On an object, the failing list is empty exactly when the guard holds. */
  lemma {:induction false} GuardIffNoFailures(schema: Schema, m: map<string, Json>)
    ensures Guard(schema, JObject(m)) <==> Failing(schema, m) == []
  {
    if schema.Cons? {
      GuardIffNoFailures(schema.tail, m);
    }
  }

  /** The guard is the conjunction of its fields' checks, whatever their order. */
  lemma {:induction false} AllAcceptEveryField(schema: Schema, m: map<string, Json>)
    ensures AllAccept(schema, m) <==> forall f :: Has(schema, f) ==> Accepts(f.check, Get(m, f.name))
  {
    if schema.Cons? {
      AllAcceptEveryField(schema.tail, m);
    }
  }

  /** Guard and diagnostics agree on every input: the guard holds exactly when
      there is nothing to report. */
  lemma GuardIffNoDiagnostics(schema: Schema, v: Json)
    ensures Guard(schema, v) <==> Diagnostics(schema, v) == []
  {
    if v.JObject? {
      GuardIffNoFailures(schema, v.obj);
    }
  }

  /** A string, number, boolean, array or null is rejected and reported as "root". */
  lemma NonObjectIsRoot(schema: Schema, v: Json)
    requires !v.JObject?
    ensures !Guard(schema, v)
    ensures Diagnostics(schema, v) == [RootMarker]
    ensures InvalidJsonMessage(schema, v) == "Invalid JSON root"
  {
  }

  /** Every reported name is a field that failed, and every failing field is reported. */
  lemma {:induction false} FailingExactly(schema: Schema, m: map<string, Json>, n: string)
    ensures n in Failing(schema, m) <==> exists f :: Has(schema, f) && f.name == n && !Accepts(f.check, Get(m, f.name))
  {
    if schema.Cons? {
      FailingExactly(schema.tail, m, n);
    }
  }

  /** Two objects that agree on every schema property are judged alike. */
  lemma {:induction false} SameOnSchemaSameFailures(schema: Schema, m: map<string, Json>, m': map<string, Json>)
    requires SameOnSchema(schema, m, m')
    ensures Failing(schema, m) == Failing(schema, m')
    ensures Guard(schema, JObject(m)) == Guard(schema, JObject(m'))
  {
    if schema.Cons? {
      assert Has(schema, schema.head);
      SameOnSchemaSameFailures(schema.tail, m, m');
    }
  }

  /** If an object passes the guard and only property `name` is then changed
      so that its check fails, the diagnostics report exactly `[name]`. */
  lemma {:induction false} OnlyChangedFieldFails(
    schema: Schema, m: map<string, Json>, m': map<string, Json>, name: string)
    requires DistinctNames(schema)
    requires Guard(schema, JObject(m))
    requires forall f :: Has(schema, f) && f.name != name ==> Get(m', f.name) == Get(m, f.name)
    requires CheckOf(schema, name).Some? && !Accepts(CheckOf(schema, name).value, Get(m', name))
    ensures Failing(schema, m') == [name]
  {
    var head, rest := schema.head, schema.tail;
    assert Has(schema, head);
    if head.name == name {
      forall f | Has(rest, f)
        ensures Get(m', f.name) == Get(m, f.name)
      {
        NameOfField(rest, f);
      }
      SameOnSchemaSameFailures(rest, m, m');
      GuardIffNoFailures(rest, m);
    } else {
      OnlyChangedFieldFails(rest, m, m', name);
    }
  }

  /** Deleting one required property from a valid object makes the
      diagnostics exactly that property's name. */
  lemma MissingRequiredField(schema: Schema, m: map<string, Json>, name: string)
    requires DistinctNames(schema)
    requires Guard(schema, JObject(m))
    requires name in RequiredNames(schema)
    ensures !Guard(schema, JObject(m - {name}))
    ensures Diagnostics(schema, JObject(m - {name})) == [name]
    ensures InvalidJsonMessage(schema, JObject(m - {name})) == "Invalid JSON " + name
  {
    RequiredNamesHaveRequiredChecks(schema, name);
    RequiredRejectsAbsent(CheckOf(schema, name).value);
    OnlyChangedFieldFails(schema, m, m - {name}, name);
    GuardIffNoFailures(schema, m - {name});
  }

  /** Replacing one property of a valid object with a value its check rejects
      makes the diagnostics exactly that property's name. */
  lemma IllTypedField(schema: Schema, m: map<string, Json>, name: string, x: Json)
    requires DistinctNames(schema)
    requires Guard(schema, JObject(m))
    requires CheckOf(schema, name).Some? && !Accepts(CheckOf(schema, name).value, Some(x))
    ensures !Guard(schema, JObject(m[name := x]))
    ensures Diagnostics(schema, JObject(m[name := x])) == [name]
    ensures InvalidJsonMessage(schema, JObject(m[name := x])) == "Invalid JSON " + name
  {
    OnlyChangedFieldFails(schema, m, m[name := x], name);
    GuardIffNoFailures(schema, m[name := x]);
  }

  /** Deleting an optional property keeps a valid object valid. */
  lemma OptionalFieldMayBeAbsent(schema: Schema, m: map<string, Json>, name: string)
    requires DistinctNames(schema)
    requires Guard(schema, JObject(m))
    requires CheckOf(schema, name).Some? && CheckOf(schema, name).value.OrUndefined?
    ensures Guard(schema, JObject(m - {name}))
    ensures Diagnostics(schema, JObject(m - {name})) == []
  {
    CheckOfField(schema, name);
    AllAcceptEveryField(schema, m);
    forall f | Has(schema, f)
      ensures Accepts(f.check, Get(m - {name}, f.name))
    {
      if f.name == name {
        UniqueNames(schema, f, Field(name, CheckOf(schema, name).value));
      }
    }
    AllAcceptEveryField(schema, m - {name});
    GuardIffNoDiagnostics(schema, JObject(m - {name}));
  }

  /** In a schema with distinct names, a name identifies its field. */
  lemma {:induction false} UniqueNames(schema: Schema, f: Field, g: Field)
    requires DistinctNames(schema)
    requires Has(schema, f) && Has(schema, g) && f.name == g.name
    ensures f == g
  {
    if f != schema.head && g != schema.head {
      UniqueNames(schema.tail, f, g);
    } else if f != schema.head {
      NameOfField(schema.tail, f);
    } else if g != schema.head {
      NameOfField(schema.tail, g);
    }
  }

  /** A one-element list joins to that element. */
  lemma JoinSingle(x: string, sep: string)
    ensures Join([x], sep) == x
  {
  }

  /** Appending a part appends the separator and that part, so the message
      for several failing fields lists them all, separated, in order. */
  lemma {:induction false} JoinSnoc(xs: seq<string>, x: string, sep: string)
    ensures Join(xs + [x], sep) == if xs == [] then x else Join(xs, sep) + sep + x
    decreases |xs|
  {
    if |xs| == 0 {
      assert xs + [x] == [x];
    } else if |xs| == 1 {
      assert xs + [x] == [xs[0], x];
      assert [xs[0], x][1..] == [x];
    } else {
      assert (xs + [x])[1..] == xs[1..] + [x];
      JoinSnoc(xs[1..], x, sep);
    }
  }

  /** Two failing fields give "Invalid JSON a, b". */
  lemma JoinTwo(a: string, b: string)
    ensures Join([a, b], ", ") == a + ", " + b
  {
    JoinSnoc([a], b, ", ");
    assert [a] + [b] == [a, b];
  }
}
