# Meal service model

A Dafny model of the meal-logging API of a MERN calorie tracker. The handlers behind
`/api/meals` let an authenticated user create, list, fetch, update and delete meal
records. A *super user* may act on every meal. Anyone else may act only on meals they own.
When an ordinary user reaches for someone else's meal, the answer has the same 404
status as a missing meal does. The message differs: "User Not Authorised!!!" instead of
"Meal Not Found!!!". The model keeps the two messages apart.

The model has five modules:

- `Base` (base.dfy): `Option` and `Result`.
- `JsValue` (js_value.dfy): the JavaScript values a body field can hold (`undefined`, a
  string or an integral number), and the three ways the code reads them:
  - the validator's `not().isEmpty()`;
  - JavaScript truthiness (`if (calorie) ...`);
  - Mongoose's casts to `String` and `Number`.
- `MealSchema` (meal_schema.dfy): the meal document (`Meal`) and what `save()` does with
  a new document (`Save`: defaults, casts, required paths). It also holds the schema
  invariant `ValidMeal` and `$set` as applied by `findOneAndUpdate` (`ApplySet`).
- `MealRoutes` (meal_routes.dfy): the class `MealStore`. Its read-only `users`
  directory maps a user id to `{max_calorie, is_super_user}`, and its `meals` field maps
  a meal id to a `Meal`. The class holds the five handlers:
  - `Create`, `Update` and `Delete` are methods that change `meals`;
  - `Get` is a function;
  - `List` is a method that only reads.

  Every handler returns a `Response`: `OkMeal`, `OkList`, `Removed`, `BadRequest400`,
  `NotFound404(msg)` or `ServerError500`.
- `MealScenarios` (scenarios.dfy): client code that uses only the handlers' contracts.
  It covers the create/get round trip, the "Rice, 200 calories" example, a calorie sent
  as a string, two users listing, and cross-user access and deletion.

The caller's id, the current `day` string, the creation timestamp (`date`, an integer)
and the id a new document receives are all parameters. The `:id` path parameter arrives
as `ObjectId(key)` or `MalformedId`.

The model follows the code as written, including these points:

- A malformed id on update is a 500, not a 404. That handler has no ObjectId branch.
- The validators accept whitespace-only strings and the number 0.
- Update leaves out falsy values: a numeric `calorie` of 0 passes validation but is not
  `$set`, while the string `"0"` is.
- Once the meal is found (for create and list: once validation passes), a caller with
  no user record gets a 500.
- An ordinary caller facing a meal with no `user` field gets a 500 from get, update and
  delete, from `toString` on `undefined`.
- Creating under an id that is already taken is a 500, from the unique `_id` index.

## Model

| member | source | states |
|---|---|---|
| `MealSchema.Save` | Backend/models/Meal.js:3-33 | a save succeeds exactly when `food_name` casts to a non-empty string and `calorie` casts to a number; a failure names exactly the failing paths; a saved meal is valid, its fields are the cast inputs, `description` defaults to "", `date` is the creation time, and `user`, `max_calorie`, `day` and `is_super_user` are kept as given (absent stays absent) |
| `MealSchema.StringOrDefault` | Backend/models/Meal.js:16-19 | an undefined value takes the default; any other value is cast to a string |
| `MealSchema.DescriptionDefault` | Backend/models/Meal.js:16-19 | a meal saved with no description stores "", and leaving the description out never makes a save fail that an empty string would not |
| `MealSchema.SaveNeedsFoodName` | Backend/models/Meal.js:8-11 | saving with a missing or empty `food_name` is a validation failure that names `food_name` |
| `MealSchema.SaveNeedsCalorie` | Backend/models/Meal.js:12-15 | saving with no `calorie` is a validation failure that names `calorie` |
| `MealSchema.ApplySet` | Backend/routes/api/meals.js:209-213 | `$set` fails exactly when a field does not cast; otherwise the fields in the update take their cast values, all others keep theirs, and `user`, `date`, `day` and `is_super_user` never change |
| `MealSchema.ApplyNoFields` | Backend/routes/api/meals.js:209-213 | an empty `$set` leaves the meal unchanged |
| `MealSchema.ApplySetIdempotent` | Backend/routes/api/meals.js:209-213 | applying the same `$set` twice gives the same meal as applying it once |
| `MealSchema.ApplySetKeepsValid` | Backend/routes/api/meals.js:194-198 | an update whose `food_name` is truthy keeps a stored meal's food name non-empty, although no validators run on `findOneAndUpdate` |
| `JsValue.CastNumberOfString` | Backend/models/Meal.js:12-15 | casting the decimal form of a number back to `Number` gives the number itself |
| `JsValue.ParseNatToString` | Backend/models/Meal.js:12-15 | reading back the decimal form of a natural number gives that number |
| `JsValue.NatToString` | Backend/models/Meal.js:8-11 | the decimal form of a natural number is a non-empty string of digits, with no leading zero |
| `JsValue.NumberToString` | Backend/routes/api/meals.js:22-23 | the string form of a number is never empty, so a numeric field always passes the "not empty" check |
| `JsValue.TruthyAndNonEmpty` | Backend/routes/api/meals.js:192-198 | a truthy field always passes validation; the only value that passes validation but is not truthy is the number 0 |
| `JsValue.TruthyCastsToNonEmptyString` | Backend/routes/api/meals.js:196-197 | a truthy field always casts to a non-empty string |
| `JsValue.Truthy` | Backend/routes/api/meals.js:196-198 | a value is truthy exactly when it passes the "not empty" check and is not the number 0 |
| `JsValue.ValidatorString` | Backend/routes/api/meals.js:22-23 | the validator sees a string as it is, and a number as a non-empty decimal form that casts back to the same number |
| `JsValue.IsEmpty` | Backend/routes/api/meals.js:172-173 | a field fails `not().isEmpty()` exactly when it is undefined or the empty string |
| `JsValue.CastString` | Backend/models/Meal.js:8-11 | the `String` cast succeeds exactly for defined values, keeps a string as it is, and gives a number's decimal form |
| `JsValue.CastNumber` | Backend/models/Meal.js:12-15 | the `Number` cast keeps a number as it is and fails for an undefined value or the empty string |
| `JsValue.ParseInt` | Backend/models/Meal.js:12-15 | a string that is empty or does not start with a digit or `-` does not cast; a cast without a leading `-` is non-negative, and one with a leading `-` is at most 0 |
| `MealSchema.HasRequiredString` | Backend/models/Meal.js:8-11 | a value meets `required: true` for a `String` path exactly when it is truthy or the number 0 |
| `MealSchema.HasRequiredNumber` | Backend/models/Meal.js:12-15 | every number meets `required: true` for a `Number` path; an undefined value or the empty string does not |
| `MealSchema.Castable` | Backend/routes/api/meals.js:209-213 | when the string fields of an update are defined, the update casts exactly when its calorie, if present, casts to a number |
| `MealRoutes.MealStore.MayTouch` | Backend/routes/api/meals.js:102-104 | a super user may touch exactly the meals that exist |
| `MealRoutes.MealStore.Foreign` | Backend/routes/api/meals.js:106-108 | a foreign meal is never one the caller may touch; an existing meal with an owner, faced by a known caller, is always one or the other |
| `MealRoutes.ValidationErrors` | Backend/routes/api/meals.js:22-30 | there are no errors exactly when neither `food_name` nor `calorie` is empty; each appears with its message exactly when that field is empty |
| `MealRoutes.ValidatedFoodNameSaves` | Backend/routes/api/meals.js:40-50 | a body that passes validation carries a food name that meets the schema's required check |
| `MealRoutes.InsertByDate` | Backend/routes/api/meals.js:71 | inserting into a newest-first list keeps it newest first and adds exactly the one document |
| `MealRoutes.SortByDateDesc` | Backend/routes/api/meals.js:75 | the result is newest first and is a permutation of the input |
| `MealRoutes.MealStore.Get` | Backend/routes/api/meals.js:89-120 | the meal is returned exactly when the id is well formed, the meal exists and the caller is a super user or its owner; a missing or malformed id gives 404 "Meal Not Found!!!"; an ordinary caller facing another user's meal gets 404 "User Not Authorised!!!"; there are no other outcomes but a 500 |
| `MealRoutes.MealStore.List` | Backend/routes/api/meals.js:65-82 | the result is newest first; it contains each meal the caller may see exactly once, which is every meal for a super user and the caller's own meals for anyone else; every listed document is the stored one; a missing user record is a 500; the store is not modified |
| `MealRoutes.MealStore.Create` | Backend/routes/api/meals.js:19-59 | an empty `food_name` or `calorie` gives 400 with the validator's errors, and once validation passes every failure is a 500; success happens exactly when validation passes, the user exists, the calorie casts and the id is free; on success exactly one meal is added and no other entry changes; the new meal has `user` equal to the caller, the request's fields, the caller's `max_calorie` and `is_super_user`, today's `day` and the creation `date`, and it is returned; on failure the store is unchanged |
| `MealRoutes.MealStore.Delete` | Backend/routes/api/meals.js:126-160 | the response is what `Get` would have answered, with `Removed` where `Get` returns the meal; removal happens exactly when the caller may touch the meal, and removes exactly that id; on any other outcome the store is unchanged |
| `MealRoutes.MealStore.Update` | Backend/routes/api/meals.js:169-222 | an empty `food_name` or `calorie` gives 400; a malformed id gives 500; otherwise it refuses exactly as `Get` does, and an authorised update that fails (a truthy calorie that does not cast) is a 500; it succeeds exactly when the caller may touch the meal and a truthy calorie casts; only that entry changes; the result is the stored post-update meal; `user`, `date`, `day` and `is_super_user` are unchanged; each of `food_name`, `description` and `calorie` changes only when the request's value is truthy; `max_calorie` becomes the caller's current value for an ordinary owner and is untouched for a super user |
| `MealScenarios.CreateThenGet` | Backend/routes/api/meals.js:50-110 | after a successful create, the creator's `Get` of the new id returns exactly the created document |

## Left out

- Express routing, JSON encoding of responses and `console.log`. Responses are the
  `Response` datatype, carrying the status and the message.
- The `auth` middleware and the JWT, bcrypt and config imports. The caller id is a
  trusted parameter. `Backend/middleware/auth` is not part of this model.
- The user model. The directory is a read-only map to `{max_calorie, is_super_user}`.
  `.select('-password')` is not modelled. A missing record stands for a null `user` and
  becomes a 500.
- MongoDB and Mongoose persistence: connections, `__v`, indexes other than `_id`. The
  collection is an in-memory map. `find`, `findById`, `save`, `remove` and
  `findOneAndUpdate` act on it.
- ObjectId casting rules. Which strings are well formed is decided before a handler
  runs (`IdParam`). New ids are generated outside the model and passed to `Create`.
- `formatDate` and `new Date`. The `day` string and the integer `date` are parameters.
  `Backend/utils/format_date` is not part of this model.
- Body values other than `undefined`, strings and integral numbers: `null`, booleans,
  objects, arrays, non-integral numbers and `NaN`.
- `JsValue.ParseInt` accepts only `[-]digits`. The other strings JavaScript's `Number`
  accepts (surrounding whitespace, `+`, decimals, exponents, hexadecimal) are treated
  as cast failures.
- `MealSchema.ApplySet`: an ordinary owner with no limit sets `max_calorie` to
  `undefined`, and the model stores that as absent (`None`). This is the Mongoose 5
  behaviour, where `undefined` in a `$set` is written as null. From Mongoose 6 on, such
  keys are dropped from the `$set` and the old value would stay. The model does not
  distinguish a stored null from an absent field.
- `JsValue.NumberToString` gives plain decimal notation. It does not model the exponent
  form `String` uses from 1e21 on.
- The validator also looks for `food_name` and `calorie` in the query string, path,
  cookies and headers. The model reads the body only.
- async/await and concurrency. This includes the window between `findById` and
  `findOneAndUpdate`, where another request could delete the meal and make the update
  return null. Each request runs to completion on its own.
- `Backend/server.js`: server bootstrap and database connection, with no logic.
