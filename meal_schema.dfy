/**
 * The meal schema: the shape of a stored meal document, what Mongoose
 * demands of it when it is saved (required fields, casts, defaults) and how
 * a `$set` update is applied to it.
 */
module MealSchema {
  import opened Base
  import opened JsValue

  type UserId = string

  /**
   * A persisted meal document. `food_name` and `calorie` are required and so
   * always present; `user`, `max_calorie`, `day` and `is_super_user` are optional
   * with no default; `description` defaults to "" and `date` to the creation time.
   */
  datatype Meal = Meal(
    user: Option<UserId>,
    food_name: string,
    calorie: int,
    description: string,
    max_calorie: Option<int>,
    date: int,
    day: Option<string>,
    is_super_user: Option<bool>)

  /** What `new Meal({...})` is given: raw values, not yet cast or validated. */
  datatype Draft = Draft(
    user: Option<UserId>,
    food_name: Value,
    calorie: Value,
    description: Value,
    max_calorie: Option<int>,
    day: Option<string>,
    is_super_user: Option<bool>)

  /** A failed save names the paths whose required or cast check failed. */
  datatype ValidationError = ValidationError(paths: set<string>)

  /** The schema invariant of every persisted meal: its food name is a non-empty string. */
  predicate ValidMeal(m: Meal)
  {
    m.food_name != ""
  }

  /** The `required: true` check of a `String` path: it casts to a non-empty string. */
  predicate HasRequiredString(v: Value)
    ensures HasRequiredString(v) <==> Truthy(v) || v == Number(0)
  {
    CastString(v).Some? && CastString(v).value != ""
  }

  /** The `required: true` check of a `Number` path: it casts to a number. */
  predicate HasRequiredNumber(v: Value)
    ensures v.Number? ==> HasRequiredNumber(v)
    ensures v == Missing || v == Text("") ==> !HasRequiredNumber(v)
  {
    CastNumber(v).Some?
  }

  /** A `String` path with a default: `undefined` takes the default, anything else is cast. */
  function StringOrDefault(v: Value, default: string): (r: string)
    ensures v == Missing ==> r == default
    ensures v != Missing ==> Some(r) == CastString(v)
  {
    match CastString(v)
    case None => default
    case Some(s) => s
  }

  function FailedPaths(d: Draft): set<string>
  {
    (if HasRequiredString(d.food_name) then {} else {"food_name"})
    + (if HasRequiredNumber(d.calorie) then {} else {"calorie"})
  }

  /**
   * `document.save()` as far as the schema goes: apply the defaults (`now` is
   * `Date.now` at construction), cast, and validate the required paths.
   */
  function Save(d: Draft, now: int): (r: Result<Meal, ValidationError>)
    ensures r.Ok? <==> HasRequiredString(d.food_name) && HasRequiredNumber(d.calorie)
    ensures r.Err? ==> ("food_name" in r.error.paths <==> !HasRequiredString(d.food_name))
    ensures r.Err? ==> ("calorie" in r.error.paths <==> !HasRequiredNumber(d.calorie))
    ensures r.Ok? ==> ValidMeal(r.value)
    ensures r.Ok? ==> Some(r.value.food_name) == CastString(d.food_name)
    ensures r.Ok? ==> Some(r.value.calorie) == CastNumber(d.calorie)
    ensures r.Ok? ==> r.value.description == StringOrDefault(d.description, "")
    ensures r.Ok? ==> r.value.user == d.user && r.value.max_calorie == d.max_calorie
    ensures r.Ok? ==> r.value.day == d.day && r.value.is_super_user == d.is_super_user
    ensures r.Ok? ==> r.value.date == now
  {
    if FailedPaths(d) != {} then Err(ValidationError(FailedPaths(d)))
    else
      Ok(Meal(
        user := d.user,
        food_name := CastString(d.food_name).value,
        calorie := CastNumber(d.calorie).value,
        description := StringOrDefault(d.description, ""),
        max_calorie := d.max_calorie,
        date := now,
        day := d.day,
        is_super_user := d.is_super_user))
  }

  /** A missing description is stored as "" and never makes a save fail. */
  lemma DescriptionDefault(d: Draft, now: int)
    requires d.description == Missing
    ensures Save(d, now).Ok? ==> Save(d, now).value.description == ""
    ensures Save(d, now).Ok? <==> Save(d.(description := Text("")), now).Ok?
  {
  }

  /** Saving without a food name or with an empty one is a validation failure. */
  lemma SaveNeedsFoodName(d: Draft, now: int)
    requires d.food_name == Missing || d.food_name == Text("")
    ensures Save(d, now).Err? && "food_name" in Save(d, now).error.paths
  {
  }

  /** Saving without a calorie value is a validation failure. */
  lemma SaveNeedsCalorie(d: Draft, now: int)
    requires d.calorie == Missing
    ensures Save(d, now).Err? && "calorie" in Save(d, now).error.paths
  {
  }

  /**
   * The fields of a `$set` update. `max_calorie` is `Some(x)` when the update
   * sets it, to `x` (`None` standing for an undefined value, stored as null).
   */
  datatype MealFields = MealFields(
    food_name: Option<Value>,
    description: Option<Value>,
    calorie: Option<Value>,
    max_calorie: Option<Option<int>>)

  const NoFields := MealFields(None, None, None, None)

  /** Every field of the update casts to its schema type. */
  predicate Castable(f: MealFields)
    ensures (f.food_name.Some? ==> f.food_name.value != Missing) && (f.description.Some? ==> f.description.value != Missing) ==>
      (Castable(f) <==> (f.calorie.Some? ==> CastNumber(f.calorie.value).Some?))
  {
    && (f.food_name.Some? ==> CastString(f.food_name.value).Some?)
    && (f.description.Some? ==> CastString(f.description.value).Some?)
    && (f.calorie.Some? ==> CastNumber(f.calorie.value).Some?)
  }

  /**
   * `{$set: fields}` applied to one document, as `findOneAndUpdate` with
   * `{new: true}` does: a cast failure rejects the whole update; otherwise the
   * fields in the update take their cast values and every other field stays.
   * Update validators do not run.
   */
  function ApplySet(m: Meal, f: MealFields): (r: Option<Meal>)
    ensures r.Some? <==> Castable(f)
    ensures r.Some? ==> r.value.user == m.user && r.value.date == m.date
    ensures r.Some? ==> r.value.day == m.day && r.value.is_super_user == m.is_super_user
    ensures r.Some? ==> Some(r.value.food_name) == if f.food_name.Some? then CastString(f.food_name.value) else Some(m.food_name)
    ensures r.Some? ==> Some(r.value.description) == if f.description.Some? then CastString(f.description.value) else Some(m.description)
    ensures r.Some? ==> Some(r.value.calorie) == if f.calorie.Some? then CastNumber(f.calorie.value) else Some(m.calorie)
    ensures r.Some? ==> r.value.max_calorie == if f.max_calorie.Some? then f.max_calorie.value else m.max_calorie
  {
    if !Castable(f) then None
    else
      Some(m.(
        food_name := if f.food_name.Some? then CastString(f.food_name.value).value else m.food_name,
        description := if f.description.Some? then CastString(f.description.value).value else m.description,
        calorie := if f.calorie.Some? then CastNumber(f.calorie.value).value else m.calorie,
        max_calorie := if f.max_calorie.Some? then f.max_calorie.value else m.max_calorie))
  }

  /** An empty `$set` leaves the document as it is. */
  lemma ApplyNoFields(m: Meal)
    ensures ApplySet(m, NoFields) == Some(m)
  {
  }

  /** `$set` is idempotent: applying the same update twice is applying it once. */
  lemma ApplySetIdempotent(m: Meal, f: MealFields)
    requires Castable(f)
    ensures ApplySet(ApplySet(m, f).value, f) == ApplySet(m, f)
  {
  }

  /**
   * An update whose string fields are truthy keeps a valid meal valid, although
   * Mongoose runs no validators on `findOneAndUpdate`.
   */
  lemma ApplySetKeepsValid(m: Meal, f: MealFields)
    requires ValidMeal(m)
    requires f.food_name.Some? ==> Truthy(f.food_name.value)
    requires Castable(f)
    ensures ValidMeal(ApplySet(m, f).value)
  {
  }
}
