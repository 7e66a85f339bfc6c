# Schema metadata, authorization and validation rules of auth_setup_node, in Dafny

This project models the decision-making core of a Node/Express back end built on Mongoose.

**Schema metadata plugin** (`schemaMetadataPlugin`, `src/plugins/commonStatics.ts`). Registered on a schema, it adds a `getFieldMetadata` static. That static walks the schema's paths in key order and skips a fixed list of audit and framework names. It turns an embedded schema into a nested map and an array of sub-documents into one record. Every other field becomes a leaf record:

- a `componentType`: the runtime override, else the dotted-path default override, else the inferred type;
- `required`, `ref`, `type` and `isArray`;
- `enumValues`;
- the hard-coded `dependsOn`/`filterField` hints.

How it is modelled:

- A Mongoose schema is a `Schema` value: its paths in key order, each a `Field` with the attributes the plugin reads.
- The metadata object is an ordered list of `(key, Meta)` entries.
- `getOverride` and `processSchema` are methods with loops, proved equal to the recursive specification functions `Lookup` and `Entries`. Everything else about the algorithm is proved of those functions.

**Authentication middleware** (`src/middleware/auth.ts`). Bearer-token extraction, the token check and `checkRole` are pure decisions. Each returns `Deny(status, body)` or `Next(request)`. `jwt.verify` is a parameter: a function from token to payload or failure.

**Request validators** (`src/user/validator/user_validator.ts`, `src/user/partial/contact/validator/contact_validator.ts`). An express-validator chain is a list of `Check(validator, message)` and `Bail` steps. A small interpreter gives the semantics of `validateSchema` (`src/helper/validation_helper.ts`). A request has five locations (body, cookies, headers, params, query), each a map from names to strings. A `body()` chain reads the body only. A `check()` chain reads all five, in that order, and validates every value it finds there. When no location holds the field it validates `''` once, unless the chain is `optional()`, in which case it validates nothing. `isEmail`, `isNumeric` and the database lookup behind `emailUniqueCheck` are oracle functions.

**The ContactUs and User models** (`src/user/partial/contact/model/contact_model.ts`, `src/user/model/user_model.ts`):

- their schemas as plugin input, with the paths Mongoose and the plugins add;
- their override maps;
- their constant statics;
- their `toJSON` projections, over a small JSON value type.

For each model, the metadata the plugin computes is proved equal to an explicit literal.

Modules, one per file: `Wrappers`, `Strings` (JavaScript `split` on one character), `Overrides`, `Metadata`, `MetadataFacts`, `ModelPaths`, `Json`, `Auth`, `Validation`, `UserValidator`, `ContactValidator`, `ContactModel`, `ContactFacts`, `UserModel`, `UserFacts`.

In this table, `commonStatics.ts` is `src/plugins/commonStatics.ts` and `contact_model.ts` is `src/user/partial/contact/model/contact_model.ts`.

## Model

| member | source | states |
|---|---|---|
| Strings.Split | src/plugins/commonStatics.ts:28 | `split` on one character gives at least one part, and no part contains the separator |
| Strings.JoinSplit | src/plugins/commonStatics.ts:28 | joining the parts of a split with the separator gives back the original string |
| Strings.SplitJoin | src/plugins/commonStatics.ts:28 | splitting the join of separator-free parts gives back exactly those parts |
| Strings.SplitAppend | src/middleware/auth.ts:23 | splitting `a + sep + b` gives the parts of `a` followed by the parts of `b` |
| Strings.SplitNoSep | src/middleware/auth.ts:23 | a string without the separator splits into itself alone |
| Overrides.GetOverride | src/plugins/commonStatics.ts:27-40 | the loop walking the cursor one segment at a time returns the override found at the dot-split path, by the reference walk `Lookup` |
| Overrides.LookupFound | src/plugins/commonStatics.ts:27-40 | an override `v` is found exactly when every segment is present along the walk and the walk ends on the string `v` |
| Overrides.PresentBeforeSuccess | src/plugins/commonStatics.ts:31-37 | a walk that succeeds found each of its segments in the node it had reached |
| Overrides.MissingSegment | src/plugins/commonStatics.ts:32-36 | a segment missing anywhere on the path means no override |
| Overrides.StopsAtMapping | src/plugins/commonStatics.ts:39 | a walk that ends on a nested mapping rather than a string gives no override |
| Overrides.DescendAppend | src/plugins/commonStatics.ts:31-37 | walking `a + b` is walking `a`, then walking `b` from where that ended |
| Overrides.SingletonFound | src/plugins/commonStatics.ts:27-40 | an override placed at a dotted path is found again at that path |
| Overrides.FlatLookup | src/plugins/commonStatics.ts:27-40 | for an undotted name the lookup is plain key lookup, and only a string value counts |
| Metadata.ComponentTypeOf | src/plugins/commonStatics.ts:128-134 | the `runtime \|\| getOverride(...) \|\| inferComponentType(field)` chain computes the resolved component type |
| Metadata.ProcessSchema | src/plugins/commonStatics.ts:45-154 | the loop filling `result` path by path, with recursion into embedded schemas, computes exactly the specification `Entries` of all paths |
| Metadata.GetFieldMetadata | src/plugins/commonStatics.ts:156-158 | `getFieldMetadata` returns the metadata of the whole schema with an empty prefix |
| MetadataFacts.EntriesKeys | src/plugins/commonStatics.ts:48-68 | the output keys are the schema's field names, in path order, minus the excluded ones |
| MetadataFacts.KeptIndicesExact | src/plugins/commonStatics.ts:48-68 | the kept positions are increasing and below `n`, and are exactly the positions whose names are not excluded |
| MetadataFacts.EntriesAt | src/plugins/commonStatics.ts:48-153 | entry `j` of the output is the `j`-th non-excluded field, keyed by its own name, with that field's record |
| MetadataFacts.NoExcludedKeys | src/plugins/commonStatics.ts:48-68 | no excluded name is a key of the output at any nesting depth |
| MetadataFacts.FieldMetaKeysKept | src/plugins/commonStatics.ts:82-149 | the record of one field contains no excluded key at any depth |
| MetadataFacts.MetadataShape | src/plugins/commonStatics.ts:156-158 | the whole `getFieldMetadata` result has the kept names in order as keys and no excluded key at any depth |
| MetadataFacts.SkipExcludedField | src/plugins/commonStatics.ts:65-67 | removing an excluded field from anywhere in a schema leaves the metadata unchanged |
| MetadataFacts.AllKeptEntries | src/plugins/commonStatics.ts:48-150 | while no path is excluded, entry `i` is path `i` with its record |
| MetadataFacts.StringEntries | src/plugins/commonStatics.ts:127-149 | a run of plain String paths gives one String record each, with the flat override at top level and 'TextField' below a top-level name the overrides do not mention |
| MetadataFacts.WellFormedAppend | src/plugins/commonStatics.ts:82-125 | a concatenation of paths has the sub-schemas the plugin dereferences exactly when both parts do |
| MetadataFacts.EntriesPrefix | src/plugins/commonStatics.ts:48 | the entries built so far depend only on the paths read so far |
| MetadataFacts.ExcludedTail | src/plugins/commonStatics.ts:48-68 | paths appended after the declared ones whose names are all excluded leave the metadata unchanged |
| MetadataFacts.ExcludedRun | src/plugins/commonStatics.ts:65-67 | a run of excluded paths adds no entries |
| MetadataFacts.InferredType | src/plugins/commonStatics.ts:20-25 | inference gives 'MultiSelect' exactly for an Array whose caster is String, and 'TextField' for every other field |
| MetadataFacts.ComponentTypePrecedence | src/plugins/commonStatics.ts:128-134 | a non-empty runtime override wins, then a non-empty default override, then inference; empty strings fall through |
| MetadataFacts.RegisteredComponentType | src/plugins/commonStatics.ts:18 | `runtimeOverrides` is never written, so a registered plugin's component type is the non-empty default override, else the inferred type |
| MetadataFacts.ScopedOverride | src/plugins/commonStatics.ts:71 | the override of `prefix.name` is looked up under the subtree reached by `prefix`, then by `name` |
| MetadataFacts.TopLevelComponentType | src/plugins/commonStatics.ts:128-134 | a top-level undotted field gets the string its name maps to, when non-empty, else the inferred type |
| MetadataFacts.NestedComponentType | src/plugins/commonStatics.ts:128-134 | below a top-level name the overrides do not mention, every field gets its inferred type |
| MetadataFacts.DependsOnPolicy | src/plugins/commonStatics.ts:72-80 | the hint is 'center' exactly for `expert`, 'center,expert' exactly for `weekDay`, and undefined for every other name |
| MetadataFacts.LeafFacts | src/plugins/commonStatics.ts:127-149 | a leaf record carries the resolved component type, `required`, the instance name as `type`, and `isArray` exactly for Array. It has the declared enum, `filterField` equal to `dependsOn` under the name policy, and a `ref` that is the mapped entry, `{model: ref, strField: ''}` when unmapped, or `''` (no ref in the model) when no truthy ref is declared |
| MetadataFacts.SubdocArrayFacts | src/plugins/commonStatics.ts:82-118 | an array of sub-documents with a member schema gives one array record. Its `questionField` and `descriptionField` are the member schema's first and second path names, the exclusion list not applied, undefined when absent |
| MetadataFacts.NestedFacts | src/plugins/commonStatics.ts:120-125 | an embedded schema, or an array of sub-documents without a member schema, becomes a nested map built with the dotted prefix and keyed by the sub-schema's kept names |
| ModelPaths.AddedPathsExcluded | src/user/partial/contact/model/contact_model.ts:46-53 | `_id`, the timestamps, the soft-delete pair and the version key are all excluded names |
| Json.GetPut | src/user/model/user_model.ts:48-56 | reading back a written key gives the written value, and other keys are untouched |
| Json.GetAt | src/user/model/user_model.ts:48-56 | reading the key of an entry that no earlier entry shares gives that entry's value |
| Auth.TokenAfterScheme | src/middleware/auth.ts:22-23 | the token is the second space-separated word, whatever the first word is |
| Auth.TokenFound | src/middleware/auth.ts:22-23 | an extracted token is a non-empty, space-free word after the first space, followed by the end of the header or another space |
| Auth.NoToken | src/middleware/auth.ts:25-28 | a missing header, a single word, a trailing space or a double space after the first word give no token |
| Auth.AuthenticateDecision | src/middleware/auth.ts:17-38 | `next` happens exactly when a token exists and verifies, and then only `req.user` changes. A missing token gives 401 'Token not found'; a failed verification gives 403 with code 401 |
| Auth.CheckRoleDecision | src/middleware/auth.ts:41-53 | the request passes unchanged exactly when a user is set and their role is listed; otherwise 403 'Access denied' with code 401 |
| Auth.CheckRoleEmpty | src/middleware/auth.ts:48 | `checkRole([])` denies everyone |
| Auth.SuperadminGuard | src/user/routes/user_routes.ts:35-36 | `authenticateToken` then `checkRole(['superadmin'])` lets a request through exactly when its token verifies to a 'superadmin' payload |
| Validation.BailedReportsFirstFailure | src/user/validator/user_validator.ts:13-24 | a chain whose checks are separated by `bail()` reports only the first failing check |
| Validation.UnbailedReportsAllFailures | src/user/partial/contact/validator/contact_validator.ts:5-11 | a chain without `bail()` reports every failing check, in order |
| Validation.TrailingBail | src/user/partial/contact/validator/contact_validator.ts:23-27 | a trailing `bail()` changes nothing |
| Validation.SingleCheckBail | src/user/validator/user_validator.ts:12 | a one-check chain followed by `bail()` reports its message exactly when the check fails |
| Validation.RunAllEmpty | src/helper/validation_helper.ts:29-34 | a request has no errors exactly when none of its chains reports one |
| Validation.ValidateSchemaDecision | src/helper/validation_helper.ts:23-44 | `validateSchema` calls `next` exactly when every chain passes, and otherwise answers 422 with the fixed message and every chain's errors |
| Validation.OptionalAbsent | src/user/validator/user_validator.ts:36-59 | an optional chain whose field no location it reads holds reports nothing |
| Validation.PresentIn | src/user/partial/contact/validator/contact_validator.ts:4 | a value is among the instances `check()` finds exactly when one of its locations holds it under the field's name (lower-cased for headers) |
| Validation.PresentNone | src/user/partial/contact/validator/contact_validator.ts:13 | no instance is found exactly when none of the chain's locations holds the field |
| Validation.BodyChain | src/user/validator/user_validator.ts:12 | a `body()` chain validates the body's value alone, or `''` when it is absent, and an optional one skips an absent field |
| Validation.MultiSingle | src/helper/validation_helper.ts:29 | running a chain on one instance gives exactly the per-value semantics `RunSteps` |
| Validation.MultiAccepts | src/helper/validation_helper.ts:29 | a chain over several instances reports nothing exactly when each instance, run alone, reports nothing |
| Validation.ChainAccepts | src/helper/validation_helper.ts:29 | a chain passes exactly when every instance it validates passes its steps |
| Validation.ChainSingle | src/helper/validation_helper.ts:29 | a chain with one instance reports what that instance reports alone |
| Validation.UnbailedOver | src/user/partial/contact/validator/contact_validator.ts:5-11 | a chain without bails over several instances reports, check by check, one error for every instance that fails the check |
| Validation.UnbailedChain | src/user/partial/contact/validator/contact_validator.ts:23-27 | the same for a chain whose only bail is the last step |
| Validation.MultiTrailingBail | src/user/partial/contact/validator/contact_validator.ts:27 | a trailing `bail()` changes nothing, over any instances |
| Validation.FailingFacts | src/user/partial/contact/validator/contact_validator.ts:4 | every error a check reports carries its message, and there is none exactly when every instance passes |
| UserValidator.StrengthSteps | src/user/validator/user_validator.ts:17-24 | the strength rules are `isLength({min: 6})`, `matches(/[A-Z]/)`, `matches(symbols)`, separated by `bail()` |
| UserValidator.UppercaseClass | src/user/validator/user_validator.ts:20 | matching `/[A-Z]/` is containing an ASCII uppercase letter |
| UserValidator.StrengthFirstFailure | src/user/validator/user_validator.ts:17-24 | the first failing strength rule is length, then uppercase, then symbol |
| UserValidator.CreatePasswordFirstFailure | src/user/validator/user_validator.ts:13-24 | the create password chain reports only the first failure among non-empty, length ≥ 6, uppercase and symbol, in that order |
| UserValidator.NewPasswordFirstFailure | src/user/validator/user_validator.ts:79-90 | the changePassword `newPassword` chain reports the same first failure, with its own 'required' message |
| UserValidator.UpdatePasswordFirstFailure | src/user/validator/user_validator.ts:44-53 | on update the password is optional; a given one gets the strength rules in the same order |
| UserValidator.PasswordChainsAgree | src/user/validator/user_validator.ts:13-24 | all three password chains accept exactly the passwords of length ≥ 6 with an uppercase letter and a symbol |
| UserValidator.RoleRules | src/user/validator/user_validator.ts:31-33 | on create the role must be present and 'user' or 'superadmin'; on update only a given role is checked |
| UserValidator.CreateEmailRules | src/user/validator/user_validator.ts:26-30 | a new user's email must be valid, and only a valid one is checked for uniqueness |
| UserValidator.CreateUserAccepted | src/user/validator/user_validator.ts:11-34 | a user can be created exactly when the name is non-empty, the password strong, the email valid and free, and the role allowed |
| UserValidator.UpdateEmptyBody | src/user/validator/user_validator.ts:36-59 | every update rule is optional, so a request with an empty body produces no errors, whatever its other locations hold |
| UserValidator.SelectorsNotCounted | src/user/validator/user_validator.ts:17-18 | `isLength` does not count U+FE0E/U+FE0F, so a six-code-point password with two selectors gets the length message |
| UserValidator.LoginRules | src/user/validator/user_validator.ts:61-69 | login reports 'Email is required' alone for an empty email, checks the format of a non-empty one, and needs a non-empty password |
| UserValidator.RefreshRules | src/user/validator/user_validator.ts:71-73 | a refresh needs a present, non-empty refresh token |
| ContactValidator.NameAddressRules | src/user/partial/contact/validator/contact_validator.ts:4-12 | name and address are required: the chain reports one error for each empty instance in any location, and one error when no location holds the field |
| ContactValidator.PhoneRules | src/user/partial/contact/validator/contact_validator.ts:5-11 | the phone chain has no bail: each rule in turn reports every instance that breaks it, and a phone found in one place gets every rule it breaks, in declaration order |
| ContactValidator.PhoneAccepted | src/user/partial/contact/validator/contact_validator.ts:5-11 | the phone passes exactly when every instance is non-empty, numeric and 10 to 15 characters long; an empty or missing phone is reported as 'required' first and also gets the length message |
| ContactValidator.MessageRule | src/user/partial/contact/validator/contact_validator.ts:13 | `message` is optional: each instance found in any location must be non-empty, and with none the chain reports nothing |
| ContactValidator.ContactAccepted | src/user/partial/contact/validator/contact_validator.ts:3-14 | a contact request passes exactly when every instance of name, phone and address, in any location, is valid and every instance of message is non-empty |
| ContactValidator.StatusRules | src/user/partial/contact/validator/contact_validator.ts:17-22 | each status rule reports every instance that breaks it, a status found in one place gets every rule it breaks, and no status reports nothing |
| ContactValidator.FollowUpNoteRule | src/user/partial/contact/validator/contact_validator.ts:23-27 | `followUpNote` is optional: each instance must be non-empty, and the trailing `bail()` changes nothing |
| ContactValidator.QueryNameChecked | src/user/partial/contact/validator/contact_validator.ts:4 | an empty `name` in the query is reported even when the body's name is valid, as `check()` reads every location |
| ContactValidator.UpdateStatusAccepted | src/user/partial/contact/validator/contact_validator.ts:16-28 | a status update passes exactly when every status instance is 'pending' or 'followed-up' and every note instance is non-empty |
| ContactModel.StatusEnumAgrees | src/user/partial/contact/model/contact_model.ts:8-11 | the enum's values are exactly the statuses the update validator accepts, and each parses back to its member |
| ContactModel.StatusRoundTrip | src/user/partial/contact/model/contact_model.ts:8-11 | every status value parses back to its member and is among the enum's values |
| ContactModel.StatusDefault | src/user/partial/contact/model/contact_model.ts:39-43 | `status` defaults to 'pending', which is one of its enum values |
| ContactModel.ToJsonKeys | src/user/partial/contact/model/contact_model.ts:76-93 | `toJSON` returns exactly its fixed keys, in order |
| ContactModel.ToJsonFields | src/user/partial/contact/model/contact_model.ts:79-87 | the output is tagged 'contacts', `id` is `_id`, and `status` is copied |
| ContactModel.ToJsonSeo | src/user/partial/contact/model/contact_model.ts:88 | `seo` is never falsy: a falsy stored `seo` becomes `{}` and a truthy one is copied |
| ContactModel.ToJsonDates | src/user/partial/contact/model/contact_model.ts:89 | a falsy `createdAt` gives an undefined `created_date` |
| ContactModel.ToJsonReadsOnly | src/user/partial/contact/model/contact_model.ts:76-93 | writing any stored key outside the fixed list leaves the output unchanged |
| ContactFacts.ContactFieldMetadata | src/user/partial/contact/model/contact_model.ts:32-63 | the ContactUs metadata, whatever excluded paths follow the declared ones, is the literal `ContactMetadata`. It has the declared fields in order, name, phone and address required. `status` has its enum and 'SelectEnumInputField', `followUpNote` has 'RichTextEditor', and `seo` nests its five keys |
| ContactFacts.ContactDeclaredMetadata | src/user/partial/contact/model/contact_model.ts:32-47 | the seven declared paths give exactly `ContactMetadata` |
| ContactFacts.SeoEntries | src/user/partial/contact/model/contact_model.ts:22-31 | the five `seoSchema` paths give five 'TextField' records keyed by their names |
| ContactFacts.SeoFieldMeta | src/user/partial/contact/model/contact_model.ts:44 | the `seo` path is kept and nests the five `seoSchema` records |
| ContactFacts.ContactUsMetadata | src/user/partial/contact/model/contact_model.ts:32-63 | `getFieldMetadata` on the full ContactUs schema, with the paths Mongoose and the plugins add, is exactly `ContactMetadata` |
| ContactFacts.ContactFlatTypes | src/user/partial/contact/model/contact_model.ts:55-58 | the override map sends `status` to 'SelectEnumInputField' and `followUpNote` to 'RichTextEditor', and name, phone, address and message to 'TextField' |
| ContactFacts.TableFieldsInMetadata | src/user/partial/contact/model/contact_model.ts:65-67 | every table column is a top-level key of the metadata |
| UserModel.RoleDefault | src/user/model/user_model.ts:19 | `role` is optional, defaults to 'user', and that default is a role the create validator accepts |
| UserModel.RequiredPaths | src/user/model/user_model.ts:16-19 | name, email and password are required; role is not |
| UserModel.ToJsonKeys | src/user/model/user_model.ts:45-58 | `toJSON` returns exactly object, id, name, email, role, created_date and updated_date, and never `password` |
| UserModel.ToJsonFields | src/user/model/user_model.ts:48-53 | the output is tagged 'users', `id` is `_id`, and name, email and role are copied |
| UserModel.ToJsonReadsOnly | src/user/model/user_model.ts:45-58 | writing any stored key outside the read list leaves the output unchanged |
| UserModel.ToJsonHidesPassword | src/user/model/user_model.ts:45-58 | the stored password never reaches the output |
| UserFacts.UserFieldMetadata | src/user/model/user_model.ts:14-35 | the User metadata, whatever excluded paths follow the declared ones, is the literal `UserMetadata`: name, email, password and role in order. The first three are required, email gets 'Email', password 'Password', and role 'TextField' |
| UserFacts.UserFlatTypes | src/user/model/user_model.ts:27-30 | the override map sends `email` to 'Email' and `password` to 'Password', and the other declared names to 'TextField' |
| UserFacts.UserSchemaMetadata | src/user/model/user_model.ts:14-35 | `getFieldMetadata` on the full User schema, with the paths Mongoose and the plugins add, is exactly `UserMetadata` |
| UserFacts.TableFieldsInMetadata | src/user/model/user_model.ts:37-39 | every table column is a top-level key of the metadata |

## Left out

- MetadataFacts.EntriesKeys: the output keys are in path order. JavaScript's `Object.keys` and object key order put integer-like names ("0", "42") first, in ascending order. The model does not reorder them, so for a schema with such field names the order differs. Neither model schema has one.
- Mongoose itself. Schema objects, SchemaTypes and the order in which Mongoose and the plugins add `_id`, the timestamps, the soft-delete pair and `__v` are not modelled. For both models, the metadata is proved for every appended run of excluded paths, and `AddedPaths` is one such run.
- `Instance` lists only the SchemaType names Mongoose defines. A custom SchemaType's instance name is not modelled.
- An embedded path without a schema makes `processSchema` dereference `undefined` and throw. The model rules this out with `WellFormed`, which Mongoose guarantees for the schemas it builds; the thrown error is not modelled.
- `console.log` and `console.warn` in `commonStatics.ts`, and the `forEach` over sub-fields there, which has no effect.
- JavaScript object quirks: a field named after an `Object.prototype` member, and `getOverride` indexing into a string leaf. Leaves are terminal in the model.
- `unique: true` on the User email: it is an index option that the plugin does not read.
- `defaultValue` is recorded for `status` and `role` but never consulted by the plugin; nothing is proved about applying defaults to documents.
- The `toJSON` dates: moment's formatting is the parameter `format`; only the falsy-value case of `getFormattedDate` (`src/helper/data_format_helper.ts:3-11`) is modelled concretely.
- `jwt.verify`, JWT signing, bcrypt, passport and Google OAuth are oracles or not modelled; `src/utils/jwt.ts` is not part of this model.
- `isEmail`, `isNumeric` and the database lookup behind `emailUniqueCheck` are oracle functions, not implementations.
- Validation.ValidateSchema: non-string request values (numbers, arrays, objects) and nested or wildcard field paths are not modelled; each location is a map from field names to strings.
- Validation.FieldError: an error carries the field and the message; the `location` and `value` express-validator also records are not modelled.
- Validation.RunMulti: a `bail()` halts the instances that have failed. Some express-validator versions halt every instance of the chain once any has failed. The two differ only for a bail with more steps after it in a chain that reads several locations, and no chain here has one.
- Validation.Find: header names are matched in ASCII lower case; the `Length` of `isLength` follows validator.js (code points, without U+FE0E/U+FE0F). validator.js itself is not part of this model.
- Validation.ValidateSchema: the chains run concurrently under `Promise.all`. The model lists the errors chain by chain in declaration order; the order in which express-validator records them under concurrency is not modelled.
- `checkValidId` (the ObjectId check some routes prepend) is not modelled.
- Services, controllers, pagination, the generic data-access helpers, recaptcha, e-mail sending, file uploads, routing and server wiring are outside this model.

## Notes on the code

- Inference gives 'TextField' for String, and 'MultiSelect' only for an Array whose caster is String (`src/plugins/commonStatics.ts:20-25`, `MetadataFacts.InferredType`).
- An array of sub-documents without a member schema is not dropped. The code logs a warning and recurses into `field.schema`, so the field appears as a nested map (`src/plugins/commonStatics.ts:120-125`, `MetadataFacts.NestedFacts`).
- An empty-string override is falsy, so it falls through to inference (`MetadataFacts.ComponentTypePrecedence`).
- The phone chain has no `bail()`, so an empty phone is reported with the 'required' message and also the length message (`ContactValidator.PhoneAccepted`).
