# Vice Bank domain models in Dafny

This project models the domain layer of Vice Bank, a token-economy app.
Users earn tokens by logging deposits on actions (walking minutes, photos
taken) and on recurring tasks. They spend the tokens on purchases at named
prices and on rewards.

Every domain entity is an immutable value object. Each is modelled as a
Dafny `datatype` with module-level functions:

- a schema-driven JSON guard (`isXJSON`) and its diagnostics (`XJSONTest`);
- `toJSON`, and `fromJSON`, which fails with
  `InvalidInputError("Invalid JSON " + <failing fields joined by ", ">)`;
- the `fromNewX` factories that replace the id;
- `copyWith` and `withTokensEarned`, which merge overrides into the JSON and
  re-validate it;
- the derived token arithmetic.

Modules and files:

- Plumbing:
  - `wrappers.dfy` (`Wrappers`): Option and Result.
  - `errors.dfy` (`Errors`): the two kinds of error thrown, `InvalidInputError` and a plain `Error`.
  - `json.dfy` (`JsonValue`): JSON values, property lookup, object spread and restriction.
- `type_guards.dfy` (`TypeGuards`): a stand-in for `isValidDateTimeString`.
- `field_schema.dfy` (`FieldSchema`): the generic validator that every model's guard and diagnostics use.
- Frequency:
  - `frequency.dfy` (`Frequency`): the enum.
  - `requency.dfy` (`Requency`): the duplicate enum, with its agreement proved against `Frequency`.
- Actions:
  - `action.dfy` (`ActionModel`)
  - `action_deposit.dfy` (`ActionDepositModel`)
  - `deposit.dfy` (`DepositModel`)
- Tasks:
  - `task.dfy` (`TaskModel`)
  - `task_deposit.dfy` (`TaskDepositModel`)
- Purchases:
  - `purchase_price.dfy` (`PurchasePriceModel`)
  - `purchase.dfy` (`PurchaseModel`)
- `reward.dfy` (`RewardModel`)
- `vice_bank_user.dfy` (`ViceBankUserModel`)

How the JavaScript constructs are represented:

- **Objects and absent properties.** A JavaScript object is represented as a `map<string, Json>`, and an absent property is an absent key. Every guard treats a property holding `undefined` as it treats an absent one, so a parsed input with an `undefined` property is modelled without that key. The overrides given to `copyWith` cannot hold `undefined` (see Left out).
- **Throwing constructors.** A constructor that can throw becomes a Result-returning `New`. The date check in the ActionDeposit and Purchase constructors is one case; `frequencyFromString` in the Task constructor is another.
- **The zone re-parse.** The re-parse of the date that `fromJSON` does after the guard becomes `Build`.
- **Nested snapshots.** The Action inside an ActionDeposit and the PurchasePrice inside a Purchase are copied by value.

## Model

| member | source | states |
|---|---|---|
| FieldSchema.RequiredRejectsAbsent | src/models/action.ts:33-42 | a field check demands presence exactly when it rejects an absent value; only the `OrUndefined` wrapper, as on `maxDeposit`, allows absence |
| FieldSchema.GuardIffNoFailures | src/models/action.test.ts:143-145 | on an object, the guard holds exactly when the list of failing fields is empty |
| FieldSchema.AllAcceptEveryField | src/models/action.test.ts:89-131 | the guard on an object holds exactly when every field of the schema accepts that property's value |
| FieldSchema.GuardIffNoDiagnostics | src/models/action.test.ts:143-145 | on any input, the guard holds exactly when the diagnostics are empty |
| FieldSchema.NonObjectIsRoot | src/models/action.test.ts:189-195 | a string, number, boolean, array or null fails the guard; the diagnostics are exactly `["root"]` and the message is "Invalid JSON root" |
| FieldSchema.FailingExactly | src/models/action.test.ts:147-179 | a name is reported exactly when it is a schema field whose check rejects the object's value for it |
| FieldSchema.SameOnSchemaSameFailures | src/models/action.test.ts:147-179 | two objects that agree on the schema's properties give the same failures and the same guard verdict; extra properties are ignored |
| FieldSchema.OnlyChangedFieldFails | src/models/action.test.ts:147-179 | starting from a valid object, changing a single property to a value its check rejects gives failures of exactly that name |
| FieldSchema.MissingRequiredField | src/models/action.test.ts:147-179 | deleting one required property from a valid object gives diagnostics of exactly that name and the message "Invalid JSON " + name |
| FieldSchema.IllTypedField | src/models/action.test.ts:147-179 | replacing one property of a valid object by a value its check rejects gives diagnostics of exactly that name and its message |
| FieldSchema.OptionalFieldMayBeAbsent | src/models/action.test.ts:181-187 | deleting an optional property keeps a valid object valid, with empty diagnostics |
| FieldSchema.UniqueNames | src/models/action.ts:33-42 | in a schema with distinct names, a name identifies one field |
| FieldSchema.JoinSingle | src/models/action.ts:127-131 | joining a single failing name gives that name, so one failure reads "Invalid JSON " + name |
| FieldSchema.Guard | src/models/action.ts:43 | the whole-object guard every `isXJSON` is built from; what it means is stated by FieldSchema.AllAcceptEveryField (every field accepts), FieldSchema.NonObjectIsRoot (a non-object fails) and FieldSchema.GuardIffNoDiagnostics (it agrees with the diagnostics) |
| FieldSchema.Diagnostics | src/models/action.ts:44 | the diagnostic list every `XJSONTest` is built from; FieldSchema.FailingExactly states that it names exactly the failing fields, FieldSchema.NonObjectIsRoot that a non-object gives `["root"]` |
| FieldSchema.Join | src/models/action.ts:130 | `errors.join(', ')`; FieldSchema.JoinSingle and FieldSchema.MissingRequiredField state that a single failing name joins to that name, so the message is "Invalid JSON " + the name |
| FieldSchema.JoinSnoc | src/models/action.ts:130 | appending a name to the list appends the separator and the name to the joined text, so a message lists every failing field in order, separated by the separator |
| FieldSchema.JoinTwo | src/models/action.ts:130 | two failing fields join to "a, b" |
| JsonValue.Spread | src/models/action_deposit.ts:91-96 | object spread: the result's keys are the union; an override wins; a base value is kept where there is no override |
| JsonValue.Restrict | src/models/action.ts:114-125 | the properties of an object limited to a set of names, with their values unchanged |
| TypeGuards.AcceptedExamples | src/utils/type_guards.ts:6-14 | a full ISO timestamp with an offset, and a leap day, are accepted as dates |
| TypeGuards.RejectedExamples | src/utils/type_guards.ts:6-14 | a non-leap 29 February, month 13 and a non-date are rejected |
| TypeGuards.IsValidDateTimeString | src/utils/type_guards.ts:6-14 | the date guard, a stand-in for luxon's ISO parser (see Left out); TypeGuards.AcceptedExamples and TypeGuards.RejectedExamples state which sample strings it accepts and rejects |
| Frequency.FrequencyFromString | src/models/frequency.ts:11-17 | on a member string, success giving back that string; otherwise `Error("Invalid frequency: " + s)` |
| Frequency.IsFrequencyExactly | src/models/frequency.ts:3-9 | `isFrequency` holds for exactly "daily", "weekly" and "monthly", and not for "invalidFrequency" |
| Frequency.FromStringOfValue | src/models/frequency.ts:3-17 | every member's value is a member and parses back to that member |
| Frequency.ValueInjective | src/models/frequency.ts:3-7 | distinct members have distinct string values |
| Frequency.IsFrequency | src/models/frequency.ts:9 | membership in the enum's values; Frequency.IsFrequencyExactly states that exactly "daily", "weekly" and "monthly" pass |
| Requency.FrequencyFromString | src/models/requency.ts:14-20 | the copy's parse succeeds exactly on members, returns the input, and otherwise fails with "Invalid frequency: " + s |
| Requency.IsFrequencyExactly | src/models/requency.ts:6-12 | the copy's `isFrequency` holds for exactly the three strings |
| Requency.AgreesWithFrequency | src/models/requency.ts:6-20 | the copy and the original agree on every input: the same membership, success, value and error |
| ActionModel.ToJson | src/models/action.ts:114-125 | only properties of the ActionJSON shape are written, every required one always; `maxDeposit` is written, as the cap's number, exactly when there is a cap |
| ActionModel.FromJson | src/models/action.ts:127-134 | fails exactly when the guard fails, with "Invalid JSON " + the diagnostics joined by ", " |
| ActionModel.FromNewAction | src/models/action.ts:136-141 | the same action under the new id; its JSON is the old JSON with only `id` replaced |
| ActionModel.GuardFields | src/models/action.ts:33-42 | the guard holds exactly for an object with string `id`, `vbUserId`, `name` and `conversionUnit`, number `inputQuantity`, `tokensEarnedPerInput` and `minDeposit`, and `maxDeposit` absent or a number |
| ActionModel.SchemaDistinct | src/models/action.ts:33-42 | the shape's property names are distinct |
| ActionModel.SchemaRequired | src/models/action.ts:33-42 | every property except `maxDeposit` is required |
| ActionModel.SchemaOptional | src/models/action.ts:41 | `maxDeposit` is checked as "absent or a number" |
| ActionModel.PayloadRoundTrip | src/models/action.ts:72-81 | the constructor rebuilds every action from its own JSON |
| ActionModel.RoundTrip | src/models/action.ts:114-134 | every action's JSON passes the guard, and `fromJSON` of it is the same action |
| ActionModel.JsonRoundTrip | src/models/action.ts:114-134 | on valid input, `fromJSON` then `toJSON` keeps exactly the shape's properties; with no extra properties it is the identity, an absent `maxDeposit` included |
| ActionModel.Diagnosis | src/models/action.test.ts:133-145 | the guard holds exactly when the diagnostics are empty; a non-object gives `["root"]` |
| ActionModel.MissingField | src/models/action.test.ts:147-179 | deleting one required property reports exactly it, and `fromJSON` fails with "Invalid JSON " + its name |
| ActionModel.MaxDepositOptional | src/models/action.test.ts:125-131 | deleting `maxDeposit` from a valid input keeps it valid, with empty diagnostics |
| ActionModel.ConversionRateExample | src/models/action.ts:110-112 | the rate is inputQuantity × tokensEarnedPerInput: one unit at two tokens converts at 2 |
| ActionModel.ActionSchema | src/models/action.ts:33-42 | the ActionJSON fields in source order: `id`, `vbUserId`, `name`, `conversionUnit` strings; `inputQuantity`, `tokensEarnedPerInput`, `minDeposit` numbers; `maxDeposit` absent or a number. Stated by ActionModel.GuardFields, ActionModel.SchemaRequired, ActionModel.SchemaOptional and ActionModel.SchemaDistinct |
| ActionModel.ConversionRate | src/models/action.ts:110-112 | the rate is inputQuantity × tokensEarnedPerInput: at one unit of input it equals the tokens per input, it is zero when either factor is zero, and non-negative when both are |
| ActionModel.FromPayload | src/models/action.ts:72-81 | on a payload the guard accepts, serialising the constructed action gives back exactly the payload's ActionJSON properties; ActionModel.PayloadRoundTrip gives the other direction |
| ActionModel.IsActionJson | src/models/action.ts:33-43 | the ActionJSON guard; ActionModel.GuardFields states the properties and types it demands |
| ActionModel.ActionJsonTest | src/models/action.ts:33-44 | the ActionJSON diagnostics; ActionModel.Diagnosis and ActionModel.MissingField state what they report |
| ActionDepositModel.Min | src/models/action_deposit.ts:75-76 | the smaller of the two quantities |
| ActionDepositModel.ActionDepositSchema | src/models/action_deposit.ts:22-28 | the ActionDepositJSON fields in source order: `id`, `vbUserId` strings; `date` a valid date string; `depositQuantity` a number; `action` an object the Action guard accepts. Stated by ActionDepositModel.GuardFields, ActionDepositModel.SchemaRequired and ActionDepositModel.SchemaDistinct |
| ActionDepositModel.TokensEarned | src/models/action_deposit.ts:72-79 | without a cap, the deposited quantity times the action's conversion rate; with one, the smaller of quantity and cap times the rate |
| ActionDepositModel.ToJson | src/models/action_deposit.ts:81-89 | writes exactly `id`, `vbUserId`, `date`, `depositQuantity` and `action` |
| ActionDepositModel.New | src/models/action_deposit.ts:44-54 | succeeds exactly when the date parses and otherwise fails with "Invalid date"; the result holds a valid date |
| ActionDepositModel.Build | src/models/action_deposit.ts:104-109 | the zone re-parse: on a payload the guard accepts it always succeeds; in general it fails with "Invalid date" exactly when the date does not parse, and a success holds a valid date and copies `id`, `vbUserId`, `date` and `depositQuantity`, the action built by the Action constructor from the nested payload |
| ActionDepositModel.FromJson | src/models/action_deposit.ts:98-110 | fails exactly when the guard fails, with the joined diagnostics; the result holds a valid date |
| ActionDepositModel.FromActionNewDeposit | src/models/action_deposit.ts:112-117 | for a valid deposit, the same deposit under the new id, with only `id` replaced in its JSON; otherwise "Invalid date" |
| ActionDepositModel.FromAction | src/models/action_deposit.ts:119-132 | the deposit is for the action's user and the given quantity, id and date, and its `action` JSON is the action's JSON; an unparseable date fails with "Invalid date" |
| ActionDepositModel.TokensEarnedUncapped | src/models/action_deposit.ts:72-79 | without a cap, tokens = depositQuantity × conversionRate |
| ActionDepositModel.TokensEarnedCapped | src/models/action_deposit.ts:72-79 | with a cap, tokens = min(depositQuantity, maxDeposit) × conversionRate |
| ActionDepositModel.TokensEarnedSaturates | src/models/action_deposit.ts:73-76 | at or above the cap, changing the quantity does not change the tokens, which are maxDeposit × conversionRate |
| ActionDepositModel.TokensEarnedMonotone | src/models/action_deposit.ts:72-79 | with a non-negative rate, a larger deposit never earns fewer tokens |
| ActionDepositModel.TokensEarnedAtMostCap | src/models/action_deposit.ts:72-79 | with a non-negative rate, the tokens never exceed maxDeposit × conversionRate |
| ActionDepositModel.TokensEarnedExample | src/models/action_deposit.ts:72-79 | at a rate of 2: one uncapped unit earns 2, and five units capped at 1 earn 2 |
| ActionDepositModel.GuardFields | src/models/action_deposit.ts:22-28 | the guard holds exactly for an object with string `id` and `vbUserId`, a valid `date`, a number `depositQuantity`, and an `action` the Action guard accepts |
| ActionDepositModel.SchemaDistinct | src/models/action_deposit.ts:22-28 | the shape's property names are distinct |
| ActionDepositModel.SchemaRequired | src/models/action_deposit.ts:22-28 | every property is required |
| ActionDepositModel.RoundTrip | src/models/action_deposit.ts:81-110 | a deposit with a valid date serialises to JSON that passes the guard and parses back to the same deposit |
| ActionDepositModel.FromJsonCopies | src/models/action_deposit.ts:44-54 | on valid input, the result copies every property and builds the action from the nested JSON |
| ActionDepositModel.JsonRoundTrip | src/models/action_deposit.ts:81-110 | on valid input, `fromJSON` then `toJSON` keeps the shape's properties, and the nested action's JSON is the input action's; with no extra properties it is the identity |
| ActionDepositModel.Diagnosis | src/models/action_deposit.test.ts:142-144 | the guard holds exactly when the diagnostics are empty; a non-object gives `["root"]` |
| ActionDepositModel.MissingField | src/models/action_deposit.ts:22-28 | deleting one property reports exactly it, and `fromJSON` fails naming it |
| ActionDepositModel.InvalidNestedAction | src/models/action_deposit.ts:27 | a nested action the Action guard rejects is reported as the single name "action" |
| ActionDepositModel.CopyWithNothing | src/models/action_deposit.ts:91-96 | `copyWith({})` reproduces the deposit |
| ActionDepositModel.CopyWithQuantity | src/models/action_deposit.ts:91-96 | `copyWith({depositQuantity: q})` changes the quantity and nothing else |
| ActionDepositModel.CopyWithInvalid | src/models/action_deposit.ts:91-96 | an override its field's check rejects makes `copyWith` fail, naming that property |
| ActionDepositModel.CopyWith | src/models/action_deposit.ts:91-96 | succeeds exactly when the deposit's JSON merged with the overrides passes the guard, and otherwise fails with "Invalid JSON " + the joined diagnostics of the merged object; a result holds a valid date |
| ActionDepositModel.IsActionDepositJson | src/models/action_deposit.ts:22-32 | the ActionDepositJSON guard; ActionDepositModel.GuardFields states the properties and types it demands, the nested action judged by the Action guard |
| ActionDepositModel.ActionDepositJsonTest | src/models/action_deposit.ts:22-35 | the ActionDepositJSON diagnostics; ActionDepositModel.Diagnosis, ActionDepositModel.MissingField and ActionDepositModel.InvalidNestedAction state what they report |
| DepositModel.ToJson | src/models/deposit.ts:77-88 | writes exactly the eight properties of the DepositJSON shape |
| DepositModel.Build | src/models/deposit.ts:103-117 | on a payload the guard accepts it always succeeds; "Invalid date" exactly when the date does not parse; `actionId` and `actionName` come from their own properties, not swapped by the parameter order |
| DepositModel.FromJson | src/models/deposit.ts:97-118 | fails exactly when the guard fails, with the joined diagnostics; the result holds a valid date |
| DepositModel.FromNewDeposit | src/models/deposit.ts:124-129 | for a valid deposit, the same deposit under the new id, with only `id` replaced in its JSON; otherwise the guard's "Invalid JSON date" |
| DepositModel.TokensEarnedUncapped | src/models/deposit.ts:73-75 | with no cap: with a non-negative rate, more quantity never earns less, and doubling the quantity doubles the tokens |
| DepositModel.GuardFields | src/models/deposit.ts:23-32 | the guard holds exactly for an object with string `id`, `vbUserId`, `actionName`, `actionId` and `conversionUnit`, a valid `date`, and number `depositQuantity` and `conversionRate` |
| DepositModel.SchemaDistinct | src/models/deposit.ts:23-32 | the shape's property names are distinct |
| DepositModel.SchemaRequired | src/models/deposit.ts:23-32 | every property is required |
| DepositModel.RoundTrip | src/models/deposit.ts:77-118 | a deposit with a valid date serialises to JSON that passes the guard and parses back to the same deposit |
| DepositModel.FromJsonCopies | src/models/deposit.ts:38-47 | on valid input, each property lands in its own field despite the constructor's parameter order |
| DepositModel.JsonRoundTrip | src/models/deposit.ts:77-118 | on valid input, `fromJSON` then `toJSON` keeps exactly the shape's properties; with no extra properties it is the identity |
| DepositModel.Diagnosis | src/models/deposit.test.ts:147-153 | the guard holds exactly when the diagnostics are empty; a non-object gives `["root"]` |
| DepositModel.MissingField | src/models/deposit.ts:23-32 | deleting one property reports exactly it, and `fromJSON` fails naming it |
| DepositModel.DateRejected | src/models/deposit.ts:26 | in a valid object, an unparseable date is the only failure: "Invalid JSON date" |
| DepositModel.IllTypedDate | src/models/deposit.ts:26 | a deposit with an unparseable date serialises to JSON whose only failing property is `date` |
| DepositModel.CopyWithNothing | src/models/deposit.ts:90-95 | `copyWith({})` reproduces the deposit |
| DepositModel.CopyWithQuantity | src/models/deposit.ts:90-95 | `copyWith({depositQuantity: q})` changes the quantity and nothing else |
| DepositModel.CopyWithInvalid | src/models/deposit.ts:90-95 | an override its field's check rejects makes `copyWith` fail, naming that property |
| DepositModel.DepositSchema | src/models/deposit.ts:23-32 | the DepositJSON fields in source order: `id`, `vbUserId` strings; `date` a valid date string; `depositQuantity`, `conversionRate` numbers; `actionName`, `actionId`, `conversionUnit` strings. Stated by DepositModel.GuardFields, DepositModel.SchemaRequired and DepositModel.SchemaDistinct |
| DepositModel.TokensEarned | src/models/deposit.ts:73-75 | the deposited quantity times the stored rate, with no cap; DepositModel.TokensEarnedUncapped states that it grows with the quantity and doubles with it |
| DepositModel.CopyWith | src/models/deposit.ts:90-95 | succeeds exactly when the deposit's JSON merged with the overrides passes the guard, and otherwise fails with "Invalid JSON " + the joined diagnostics of the merged object; a result holds a valid date |
| DepositModel.IsDepositJson | src/models/deposit.ts:23-34 | the DepositJSON guard; DepositModel.GuardFields states the properties and types it demands |
| DepositModel.DepositJsonTest | src/models/deposit.ts:23-35 | the DepositJSON diagnostics; DepositModel.Diagnosis, DepositModel.MissingField and DepositModel.IllTypedDate state what they report |
| TaskModel.ToJson | src/models/task.ts:61-69 | writes exactly the five properties of the TaskJSON shape, the frequency as its string value |
| TaskModel.New | src/models/task.ts:37-43 | succeeds exactly when `frequency` is a member, storing the member with that value; otherwise fails with "Invalid frequency: " + s |
| TaskModel.FromJson | src/models/task.ts:71-78 | fails exactly when the guard fails, with the joined diagnostics; the constructor cannot fail after the guard |
| TaskModel.FromNewTask | src/models/task.ts:83-85 | always succeeds with the same task under the new id, with only `id` replaced in its JSON |
| TaskModel.GuardFields | src/models/task.ts:19-25 | the guard holds exactly for an object with string `id`, `vbUserId` and `name`, a member `frequency`, and a number `tokensEarnedPerInput` |
| TaskModel.SchemaDistinct | src/models/task.ts:19-25 | the shape's property names are distinct |
| TaskModel.SchemaRequired | src/models/task.ts:19-25 | every property is required |
| TaskModel.ConstructorRejectsFrequency | src/models/task.ts:41 | the constructor passes on the parse error: "Invalid frequency: invalidFrequency" |
| TaskModel.RoundTrip | src/models/task.ts:61-78 | every task's JSON passes the guard, and `fromJSON` of it is the same task |
| TaskModel.FromJsonCopies | src/models/task.ts:37-43 | on valid input, every property is copied, and the frequency is the member whose value is the given string |
| TaskModel.JsonRoundTrip | src/models/task.ts:61-78 | on valid input, `fromJSON` then `toJSON` keeps exactly the shape's properties; with no extra properties it is the identity |
| TaskModel.Diagnosis | src/models/task.test.ts:133-139 | the guard holds exactly when the diagnostics are empty; a non-object gives `["root"]` |
| TaskModel.MissingField | src/models/task.ts:19-25 | deleting one property reports exactly it, and `fromJSON` fails naming it |
| TaskModel.InvalidFrequency | src/models/task.ts:23 | a string outside the enum is reported by the guard as the single name "frequency" |
| TaskModel.TaskSchema | src/models/task.ts:19-25 | the TaskJSON fields in source order: `id`, `vbUserId`, `name` strings; `frequency` one of the enum's values; `tokensEarnedPerInput` a number. Stated by TaskModel.GuardFields, TaskModel.SchemaRequired and TaskModel.SchemaDistinct |
| TaskModel.IsTaskJson | src/models/task.ts:19-27 | the TaskJSON guard; TaskModel.GuardFields states the properties and types it demands, `frequency` a member of the enum |
| TaskModel.TaskJsonTest | src/models/task.ts:19-28 | the TaskJSON diagnostics; TaskModel.Diagnosis, TaskModel.MissingField and TaskModel.InvalidFrequency state what they report |
| TaskDepositModel.ToJson | src/models/task_deposit.ts:84-95 | writes exactly the eight properties of the TaskDepositJSON shape, the frequency as its string value |
| TaskDepositModel.Build | src/models/task_deposit.ts:110-124 | on a payload the guard accepts it always succeeds; "Invalid date" when the date does not parse; otherwise the parse error for a non-member frequency; success exactly when both hold |
| TaskDepositModel.FromJson | src/models/task_deposit.ts:104-125 | fails exactly when the guard fails, with the joined diagnostics; the result holds a valid date |
| TaskDepositModel.FromNewTaskDeposit | src/models/task_deposit.ts:131-136 | for a valid deposit, the same deposit under the new id, with only `id` replaced in its JSON; otherwise "Invalid JSON date" |
| TaskDepositModel.GuardFields | src/models/task_deposit.ts:24-33 | the guard holds exactly for an object with string `id`, `vbUserId`, `taskName` and `taskId`, a valid `date`, number `conversionRate` and `tokensEarned`, and a member `frequency` |
| TaskDepositModel.SchemaDistinct | src/models/task_deposit.ts:24-33 | the shape's property names are distinct |
| TaskDepositModel.SchemaRequired | src/models/task_deposit.ts:24-33 | every property is required |
| TaskDepositModel.RoundTrip | src/models/task_deposit.ts:84-125 | a deposit with a valid date serialises to JSON that passes the guard and parses back to the same deposit |
| TaskDepositModel.FromJsonCopies | src/models/task_deposit.ts:115-124 | on valid input, every property lands in its own field, and `tokensEarned` is the stored number |
| TaskDepositModel.JsonRoundTrip | src/models/task_deposit.ts:84-125 | on valid input, `fromJSON` then `toJSON` keeps exactly the shape's properties; with no extra properties it is the identity |
| TaskDepositModel.Diagnosis | src/models/task_deposit.test.ts:179-185 | the guard holds exactly when the diagnostics are empty; a non-object gives `["root"]` |
| TaskDepositModel.MissingField | src/models/task_deposit.test.ts:145-177 | deleting one property reports exactly it, and `fromJSON` fails naming it |
| TaskDepositModel.DateRejected | src/models/task_deposit.ts:27 | in a valid object, an unparseable date is the only failure: "Invalid JSON date" |
| TaskDepositModel.IllTypedDate | src/models/task_deposit.ts:27 | a deposit with an unparseable date serialises to JSON whose only failing property is `date` |
| TaskDepositModel.WithTokensEarned | src/models/task_deposit.ts:97-102 | for a valid deposit, `tokensEarned` becomes the given value and every other JSON property is unchanged; otherwise "Invalid JSON date" |
| TaskDepositModel.WithTokensEarnedSame | src/models/task_deposit.test.ts:34-41 | setting the tokens a deposit already holds gives back the same deposit |
| TaskDepositModel.WithTokensEarnedTwice | src/models/task_deposit.ts:97-102 | of two successive calls the last one wins |
| TaskDepositModel.TaskDepositSchema | src/models/task_deposit.ts:24-33 | the TaskDepositJSON fields in source order: `id`, `vbUserId` strings; `date` a valid date string; `taskName`, `taskId` strings; `conversionRate` a number; `frequency` one of the enum's values; `tokensEarned` a number. Stated by TaskDepositModel.GuardFields, TaskDepositModel.SchemaRequired and TaskDepositModel.SchemaDistinct |
| TaskDepositModel.IsTaskDepositJson | src/models/task_deposit.ts:24-37 | the TaskDepositJSON guard; TaskDepositModel.GuardFields states the properties and types it demands |
| TaskDepositModel.TaskDepositJsonTest | src/models/task_deposit.ts:24-38 | the TaskDepositJSON diagnostics; TaskDepositModel.Diagnosis, TaskDepositModel.MissingField and TaskDepositModel.IllTypedDate state what they report |
| PurchasePriceModel.ToJson | src/models/purchase_price.ts:57-64 | writes exactly `id`, `userId`, `name` and `price` |
| PurchasePriceModel.FromJson | src/models/purchase_price.ts:66-73 | fails exactly when the guard fails, with the joined diagnostics |
| PurchasePriceModel.FromNewPurchasePrice | src/models/purchase_price.ts:78-86 | the same price under the new id, with only `id` replaced in its JSON |
| PurchasePriceModel.GuardFields | src/models/purchase_price.ts:17-22 | the guard holds exactly for an object with string `id`, `userId` and `name`, and a number `price` |
| PurchasePriceModel.SchemaDistinct | src/models/purchase_price.ts:17-22 | the shape's property names are distinct |
| PurchasePriceModel.SchemaRequired | src/models/purchase_price.ts:17-22 | every property is required |
| PurchasePriceModel.PayloadRoundTrip | src/models/purchase_price.ts:37-42 | the constructor rebuilds every price from its own JSON |
| PurchasePriceModel.RoundTrip | src/models/purchase_price.ts:57-73 | every price's JSON passes the guard, and `fromJSON` of it is the same price |
| PurchasePriceModel.JsonRoundTrip | src/models/purchase_price.ts:57-73 | on valid input, `fromJSON` then `toJSON` keeps exactly the shape's properties; with no extra properties it is the identity |
| PurchasePriceModel.Diagnosis | src/models/purchase_price.test.ts:125-133 | the guard holds exactly when the diagnostics are empty; a non-object gives `["root"]` |
| PurchasePriceModel.MissingField | src/models/purchase_price.test.ts:99-123 | deleting one property reports exactly it, and `fromJSON` fails naming it |
| PurchasePriceModel.PurchasePriceSchema | src/models/purchase_price.ts:17-22 | the PurchasePriceJSON fields in source order: `id`, `userId`, `name` strings; `price` a number. Stated by PurchasePriceModel.GuardFields, PurchasePriceModel.SchemaRequired and PurchasePriceModel.SchemaDistinct |
| PurchasePriceModel.FromPayload | src/models/purchase_price.ts:37-42 | on a payload the guard accepts, serialising the constructed price gives back exactly the payload's PurchasePriceJSON properties; PurchasePriceModel.PayloadRoundTrip gives the other direction |
| PurchasePriceModel.IsPurchasePriceJson | src/models/purchase_price.ts:17-26 | the PurchasePriceJSON guard; PurchasePriceModel.GuardFields states the properties and types it demands |
| PurchasePriceModel.PurchasePriceJsonTest | src/models/purchase_price.ts:17-29 | the PurchasePriceJSON diagnostics; PurchasePriceModel.Diagnosis and PurchasePriceModel.MissingField state what they report |
| PurchaseModel.ToJson | src/models/purchase.ts:67-75 | writes exactly `id`, `userId`, `date`, `purchasedQuantity` and `purchasePrice` |
| PurchaseModel.New | src/models/purchase.ts:39-49 | succeeds exactly when the date parses and otherwise fails with "Invalid date"; the result holds a valid date |
| PurchaseModel.FromJson | src/models/purchase.ts:77-84 | fails exactly when the guard fails, with the joined diagnostics; the result holds a valid date |
| PurchaseModel.FromNewPurchase | src/models/purchase.ts:86-91 | for a valid purchase, the same purchase under the new id, with only `id` replaced in its JSON; otherwise "Invalid date" |
| PurchaseModel.GuardFields | src/models/purchase.ts:21-27 | the guard holds exactly for an object with string `id` and `userId`, a valid `date`, a number `purchasedQuantity`, and a `purchasePrice` the PurchasePrice guard accepts |
| PurchaseModel.SchemaDistinct | src/models/purchase.ts:21-27 | the shape's property names are distinct |
| PurchaseModel.SchemaRequired | src/models/purchase.ts:21-27 | every property is required |
| PurchaseModel.RoundTrip | src/models/purchase.ts:67-84 | a purchase with a valid date serialises to JSON that passes the guard and parses back to the same purchase |
| PurchaseModel.FromJsonCopies | src/models/purchase.ts:39-49 | on valid input, the result copies every property and builds the price from the nested JSON |
| PurchaseModel.JsonRoundTrip | src/models/purchase.ts:48-84 | on valid input, `fromJSON` then `toJSON` keeps the shape's properties, and the nested price's JSON is the input price's; with no extra properties it is the identity |
| PurchaseModel.Diagnosis | src/models/purchase.test.ts:59-65 | the guard holds exactly when the diagnostics are empty; a non-object fails `fromJSON` with "Invalid JSON root" |
| PurchaseModel.MissingField | src/models/purchase.ts:21-27 | deleting one property reports exactly it, and `fromJSON` fails naming it |
| PurchaseModel.InvalidNestedPrice | src/models/purchase.ts:26 | a nested price the PurchasePrice guard rejects is reported as the single name "purchasePrice" |
| PurchaseModel.PurchaseSchema | src/models/purchase.ts:21-27 | the PurchaseJSON fields in source order: `id`, `userId` strings; `date` a valid date string; `purchasedQuantity` a number; `purchasePrice` an object the PurchasePrice guard accepts. Stated by PurchaseModel.GuardFields, PurchaseModel.SchemaRequired and PurchaseModel.SchemaDistinct |
| PurchaseModel.IsPurchaseJson | src/models/purchase.ts:21-29 | the PurchaseJSON guard; PurchaseModel.GuardFields states the properties and types it demands, the nested price judged by the PurchasePrice guard |
| PurchaseModel.PurchaseJsonTest | src/models/purchase.ts:21-30 | the PurchaseJSON diagnostics; PurchaseModel.Diagnosis, PurchaseModel.MissingField and PurchaseModel.InvalidNestedPrice state what they report |
| RewardModel.ToJson | src/models/reward.ts:53-60 | writes exactly `id`, `vbUserId`, `name` and `price` |
| RewardModel.FromJson | src/models/reward.ts:62-69 | fails exactly when the guard fails, with the joined diagnostics |
| RewardModel.FromNewReward | src/models/reward.ts:74-79 | the same reward under the new id, with only `id` replaced in its JSON |
| RewardModel.GuardFields | src/models/reward.ts:17-22 | the guard holds exactly for an object with string `id`, `vbUserId` and `name`, and a number `price` |
| RewardModel.SchemaDistinct | src/models/reward.ts:17-22 | the shape's property names are distinct |
| RewardModel.SchemaRequired | src/models/reward.ts:17-22 | every property is required |
| RewardModel.PayloadRoundTrip | src/models/reward.ts:33-38 | the constructor rebuilds every reward from its own JSON |
| RewardModel.RoundTrip | src/models/reward.ts:53-69 | every reward's JSON passes the guard, and `fromJSON` of it is the same reward |
| RewardModel.JsonRoundTrip | src/models/reward.ts:53-69 | on valid input, `fromJSON` then `toJSON` keeps exactly the shape's properties; with no extra properties it is the identity |
| RewardModel.Diagnosis | src/models/reward.test.ts:85-91 | the guard holds exactly when the diagnostics are empty; a non-object gives `["root"]` |
| RewardModel.MissingField | src/models/reward.ts:17-22 | deleting one property reports exactly it, and `fromJSON` fails naming it |
| RewardModel.RewardSchema | src/models/reward.ts:17-22 | the RewardJSON fields in source order: `id`, `vbUserId`, `name` strings; `price` a number. Stated by RewardModel.GuardFields, RewardModel.SchemaRequired and RewardModel.SchemaDistinct |
| RewardModel.FromPayload | src/models/reward.ts:33-38 | on a payload the guard accepts, serialising the constructed reward gives back exactly the payload's RewardJSON properties; RewardModel.PayloadRoundTrip gives the other direction |
| RewardModel.IsRewardJson | src/models/reward.ts:17-24 | the RewardJSON guard; RewardModel.GuardFields states the properties and types it demands |
| RewardModel.RewardJsonTest | src/models/reward.ts:17-25 | the RewardJSON diagnostics; RewardModel.Diagnosis and RewardModel.MissingField state what they report |
| ViceBankUserModel.ToJson | src/models/vice_bank_user.ts:53-60 | writes exactly `id`, `userId`, `name` and `currentTokens` |
| ViceBankUserModel.FromJson | src/models/vice_bank_user.ts:69-76 | fails exactly when the guard fails, with the joined diagnostics |
| ViceBankUserModel.FromNewViceBankUser | src/models/vice_bank_user.ts:82-87 | re-validation always succeeds, with the same user under the new id and only `id` replaced in its JSON |
| ViceBankUserModel.GuardFields | src/models/vice_bank_user.ts:16-21 | the guard holds exactly for an object with string `id`, `userId` and `name`, and a number `currentTokens` |
| ViceBankUserModel.SchemaDistinct | src/models/vice_bank_user.ts:16-21 | the shape's property names are distinct |
| ViceBankUserModel.SchemaRequired | src/models/vice_bank_user.ts:16-21 | every property is required |
| ViceBankUserModel.PayloadRoundTrip | src/models/vice_bank_user.ts:33-38 | the constructor rebuilds every user from its own JSON |
| ViceBankUserModel.RoundTrip | src/models/vice_bank_user.ts:53-76 | every user's JSON passes the guard, and `fromJSON` of it is the same user |
| ViceBankUserModel.JsonRoundTrip | src/models/vice_bank_user.ts:53-76 | on valid input, `fromJSON` then `toJSON` keeps exactly the shape's properties; with no extra properties it is the identity |
| ViceBankUserModel.Diagnosis | src/models/vice_bank_user.test.ts:109-117 | the guard holds exactly when the diagnostics are empty; a non-object gives `["root"]` |
| ViceBankUserModel.MissingField | src/models/vice_bank_user.test.ts:91-107 | deleting one property reports exactly it, and `fromJSON` fails naming it |
| ViceBankUserModel.CopyWithTokens | src/models/vice_bank_user.ts:62-67 | `copyWith({currentTokens: n})` changes `currentTokens` and nothing else |
| ViceBankUserModel.CopyWithNothing | src/models/vice_bank_user.ts:62-67 | `copyWith({})` reproduces the user |
| ViceBankUserModel.CopyWithInvalid | src/models/vice_bank_user.ts:62-72 | an override its field's check rejects makes `copyWith` fail with the invalid-input error naming that property |
| ViceBankUserModel.CopyWithStringTokens | src/models/vice_bank_user.ts:62-72 | a string `currentTokens` override fails with "Invalid JSON currentTokens" |
| ViceBankUserModel.ViceBankUserSchema | src/models/vice_bank_user.ts:16-21 | the ViceBankUserJSON fields in source order: `id`, `userId`, `name` strings; `currentTokens` a number. Stated by ViceBankUserModel.GuardFields, ViceBankUserModel.SchemaRequired and ViceBankUserModel.SchemaDistinct |
| ViceBankUserModel.FromPayload | src/models/vice_bank_user.ts:33-38 | on a payload the guard accepts, serialising the constructed user gives back exactly the payload's ViceBankUserJSON properties; ViceBankUserModel.PayloadRoundTrip gives the other direction |
| ViceBankUserModel.CopyWith | src/models/vice_bank_user.ts:62-67 | succeeds exactly when the user's JSON merged with the overrides passes the guard, and otherwise fails with "Invalid JSON " + the joined diagnostics of the merged object |
| ViceBankUserModel.IsViceBankUserJson | src/models/vice_bank_user.ts:16-24 | the ViceBankUserJSON guard; ViceBankUserModel.GuardFields states the properties and types it demands |
| ViceBankUserModel.ViceBankUserJsonTest | src/models/vice_bank_user.ts:16-25 | the ViceBankUserJSON diagnostics; ViceBankUserModel.Diagnosis and ViceBankUserModel.MissingField state what they report |

## Left out

- Dates: the luxon `DateTime.fromISO`/`toISO` parsing and rendering are not modelled. A date is the ISO string as written.
- TypeGuards.IsValidDateTimeString: a stand-in for luxon's ISO parser that accepts a string starting with a real calendar date `YYYY-MM-DD`, optionally followed by `T` and a time part. It is looser than luxon on the time and offset part, which it does not check. It is stricter than luxon on the date part: it rejects ISO forms luxon accepts, such as `2023`, `2023-02`, `2023-W08-6` (week date), `2023-056` (ordinal date) and `20230225` (basic format). TypeGuards.AcceptedExamples and TypeGuards.RejectedExamples hold only for the strings they name, and the model proofs depend only on some string being accepted.
- Date re-rendering: the re-parse in the America/Chicago zone in `fromJSON`, and the constructor's re-parse in the default zone, are treated as keeping the string unchanged. The zone check uses the same predicate as the guard, so after the guard it cannot fail. The offset a rendered date would carry is not modelled.
- Numbers are unbounded `real`s. IEEE-754 rounding, NaN and Infinity are not modelled. The `?? Infinity` of the cap is an absent `Option`.
- Property order in JSON objects is not modelled: an object is a map. The diagnostics follow the schema's order, not the object's.
- ActionDepositModel.CopyWith, DepositModel.CopyWith, ViceBankUserModel.CopyWith: an override holding `undefined` cannot be expressed. In the source `{...this.toJSON(), ...input}` with `input` holding the key `depositQuantity` set to `undefined` keeps the key with value `undefined`, so the guard rejects the merged object and `fromJSON` throws "Invalid JSON depositQuantity". Here an override map can only omit a key, which keeps the old value.
- The internals of `typeGuardGenerator` and `typeGuardTestGenerator` from `tcheck` are not part of this model. `FieldSchema` models the behaviour their callers rely on.
- `src/utils/errors.ts` is not part of this model. Its two error kinds are the `Errors.Error` constructors, carrying only the message.
- `fromAction`: `uuidv4()` and `DateTime.now()` are replaced by the `id` and `date` parameters. The optional `date` option is folded into the same parameter.
- The Action class's `test` field is not modelled: it is never read or serialised.
- The getters of every class are the datatype's field selectors.
- `src/models/task_deposit.ts` imports `Frequency` and `isValidDateTimeString` from `@/utils/types` and `@/utils/type_guard`, which do not resolve to a file among these sources. The model resolves them to the frequency enum and the date guard used by the other models.
- The test files disagree with the sources in places: `userId` vs `vbUserId`, method names, and the Purchase and Deposit shapes. The model follows the sources and uses the tests only for the generic validator's behaviour.
- Thrown exceptions and their class hierarchy: a throw is a `Failure` result, and nothing models catching.
