/**
 * The meal service: the five handlers behind `/api/meals` (create, list,
 * get by id, update, delete) over a meal collection and a read-only user
 * directory. The authenticated caller id, the current day string, the
 * creation time and the id of a new document are parameters; the `:id` path
 * parameter arrives already classified as a well-formed ObjectId or not.
 */
module MealRoutes {
  import opened Base
  import opened JsValue
  import opened MealSchema

  type MealId = string

  /** What the user directory gives the handlers about a user (the password is excluded). */
  datatype UserRecord = UserRecord(max_calorie: Option<int>, is_super_user: bool)

  /** The request body fields the handlers read. */
  datatype Body = Body(food_name: Value, calorie: Value, description: Value)

  /** The `:id` path parameter: a well-formed ObjectId, or one Mongoose cannot cast. */
  datatype IdParam = ObjectId(key: MealId) | MalformedId

  /** A meal as the store hands it out: its `_id` and its fields. */
  datatype Doc = Doc(id: MealId, meal: Meal)

  /** One entry of the validator's `errors.array()`. */
  datatype FieldError = FieldError(param: string, msg: string)

  /** The HTTP response of a handler: status and JSON payload. */
  datatype Response =
    | OkMeal(doc: Doc)
    | OkList(docs: seq<Doc>)
    | Removed(msg: string)
    | BadRequest400(errors: seq<FieldError>)
    | NotFound404(msg: string)
    | ServerError500

  const MealNotFound := "Meal Not Found!!!"
  const NotAuthorised := "User Not Authorised!!!"
  const MealRemoved := "Meal Removed!!!"

  /**
   * The errors of the two checks `food_name` and `calorie` must pass on create
   * and update, in the order the checks are declared.
   */
  function ValidationErrors(body: Body): (errs: seq<FieldError>)
    ensures errs == [] <==> !IsEmpty(body.food_name) && !IsEmpty(body.calorie)
    ensures FieldError("food_name", "Food Name is Required") in errs <==> IsEmpty(body.food_name)
    ensures FieldError("calorie", "Calorie is Required") in errs <==> IsEmpty(body.calorie)
  {
    (if IsEmpty(body.food_name) then [FieldError("food_name", "Food Name is Required")] else [])
    + (if IsEmpty(body.calorie) then [FieldError("calorie", "Calorie is Required")] else [])
  }

  /** A body that passes validation carries a food name that saves. */
  lemma ValidatedFoodNameSaves(body: Body)
    requires ValidationErrors(body) == []
    ensures HasRequiredString(body.food_name)
  {
  }

  /** `.sort({ date: -1 })`: newest first; documents with equal dates in any order. */
  predicate NewestFirst(s: seq<Doc>)
  {
    forall i, j :: 0 <= i < j < |s| ==> s[i].meal.date >= s[j].meal.date
  }

  function InsertByDate(s: seq<Doc>, d: Doc): (r: seq<Doc>)
    requires NewestFirst(s)
    ensures NewestFirst(r)
    ensures multiset(r) == multiset(s) + multiset{d}
    ensures r[0] == d || (s != [] && r[0] == s[0])
  {
    if s == [] || d.meal.date >= s[0].meal.date then [d] + s
    else
      var rest := InsertByDate(s[1..], d);
      assert s == [s[0]] + s[1..];
      [s[0]] + rest
  }

  /** The documents of `s`, each as often as in `s`, newest first. */
  function SortByDateDesc(s: seq<Doc>): (r: seq<Doc>)
    ensures NewestFirst(r)
    ensures multiset(r) == multiset(s)
  {
    if s == [] then []
    else
      assert s == [s[0]] + s[1..];
      InsertByDate(SortByDateDesc(s[1..]), s[0])
  }

  class MealStore {
    /** The user directory; the handlers only read it. */
    const users: map<UserId, UserRecord>
    /** The meal collection, keyed by `_id`. */
    var meals: map<MealId, Meal>

    /** Every stored meal meets the schema. */
    ghost predicate Valid()
      reads this
    {
      forall k :: k in meals ==> ValidMeal(meals[k])
    }

    /** An empty meal collection beside the given user directory. */
    constructor (users: map<UserId, UserRecord>)
      ensures this.users == users && meals == map[] && Valid()
    {
      this.users := users;
      meals := map[];
    }

    /** The caller may act on the meal: a super user on any meal, anyone else on their own. */
    predicate MayTouch(caller: UserId, key: MealId)
      reads this
      ensures caller in users && users[caller].is_super_user ==> (MayTouch(caller, key) <==> key in meals)
    {
      key in meals && caller in users
      && (users[caller].is_super_user || meals[key].user == Some(caller))
    }

    /** The caller is an ordinary user and the meal belongs to someone else. */
    predicate Foreign(caller: UserId, key: MealId)
      reads this
      ensures Foreign(caller, key) ==> !MayTouch(caller, key)
      ensures key in meals && caller in users && meals[key].user.Some? ==>
        MayTouch(caller, key) || Foreign(caller, key)
    {
      key in meals && caller in users && !users[caller].is_super_user
      && meals[key].user.Some? && meals[key].user.value != caller
    }

    /** The documents of the meals among `keys` that the caller may list. */
    ghost function Visible(caller: UserId, keys: set<MealId>): set<Doc>
      reads this
      requires caller in users
    {
      set k | k in keys && k in meals && (users[caller].is_super_user || meals[k].user == Some(caller))
        :: Doc(k, meals[k])
    }

    /**
     * GET /:id. A missing or malformed id is "Meal Not Found"; a missing user
     * record, or an ordinary caller facing a meal with no owner, is a server
     * error; an ordinary caller facing somebody else's meal gets a 404 too.
     */
    function Get(caller: UserId, id: IdParam): (r: Response)
      reads this
      ensures r.OkMeal? <==> id.ObjectId? && MayTouch(caller, id.key)
      ensures r.OkMeal? ==> r.doc == Doc(id.key, meals[id.key])
      ensures r == NotFound404(MealNotFound) <==> id.MalformedId? || id.key !in meals
      ensures r == NotFound404(NotAuthorised) <==> id.ObjectId? && Foreign(caller, id.key)
      ensures r.OkMeal? || r == NotFound404(MealNotFound) || r == NotFound404(NotAuthorised) || r == ServerError500
    {
      match id
      case MalformedId => NotFound404(MealNotFound)
      case ObjectId(key) =>
        if key !in meals then NotFound404(MealNotFound)
        else if caller !in users then ServerError500
        else if users[caller].is_super_user then OkMeal(Doc(key, meals[key]))
        else if meals[key].user.None? then ServerError500
        else if meals[key].user.value != caller then NotFound404(NotAuthorised)
        else OkMeal(Doc(key, meals[key]))
    }

    /**
     * GET /. A super user gets every meal, anyone else exactly their own, newest
     * first; a missing user record is a server error.
     */
    method List(caller: UserId) returns (r: Response)
      ensures caller !in users ==> r == ServerError500
      ensures caller in users ==> r.OkList? && NewestFirst(r.docs)
      ensures caller in users ==> multiset(r.docs) == multiset(Visible(caller, meals.Keys))
      ensures caller in users && users[caller].is_super_user ==>
        forall k :: k in meals ==> Doc(k, meals[k]) in r.docs
      ensures caller in users && !users[caller].is_super_user ==>
        forall k :: k in meals && meals[k].user == Some(caller) ==> Doc(k, meals[k]) in r.docs
      ensures caller in users ==>
        forall i :: 0 <= i < |r.docs| ==> r.docs[i].id in meals && meals[r.docs[i].id] == r.docs[i].meal
      ensures caller in users && !users[caller].is_super_user ==>
        forall i :: 0 <= i < |r.docs| ==> r.docs[i].meal.user == Some(caller)
    {
      if caller !in users {
        return ServerError500;
      }
      var user := users[caller];
      var pending := meals.Keys;
      var found: seq<Doc> := [];
      while pending != {}
        invariant pending <= meals.Keys
        invariant multiset(found) == multiset(Visible(caller, meals.Keys - pending))
        decreases pending
      {
        var k :| k in pending;
        ghost var before := Visible(caller, meals.Keys - pending);
        if user.is_super_user || meals[k].user == Some(caller) {
          assert Doc(k, meals[k]) !in before;
          assert Visible(caller, meals.Keys - (pending - {k})) == before + {Doc(k, meals[k])};
          found := found + [Doc(k, meals[k])];
        } else {
          assert Visible(caller, meals.Keys - (pending - {k})) == before;
        }
        pending := pending - {k};
      }
      assert meals.Keys - pending == meals.Keys;
      var sorted := SortByDateDesc(found);
      r := OkList(sorted);
      forall k | k in meals && (user.is_super_user || meals[k].user == Some(caller))
        ensures Doc(k, meals[k]) in sorted
      {
        assert Doc(k, meals[k]) in Visible(caller, meals.Keys);
        assert Doc(k, meals[k]) in multiset(sorted);
      }
      forall i | 0 <= i < |sorted|
        ensures sorted[i].id in meals && meals[sorted[i].id] == sorted[i].meal
        ensures !user.is_super_user ==> sorted[i].meal.user == Some(caller)
      {
        assert sorted[i] in multiset(sorted);
        assert sorted[i] in Visible(caller, meals.Keys);
      }
    }

    /**
     * POST /. Validation failures are a 400 and touch nothing. Otherwise the new
     * meal belongs to the caller, carries the request's fields, snapshots the
     * caller's `max_calorie` and `is_super_user` and today's `day`, and is
     * inserted under `newId`; a missing user record, a calorie that does not
     * cast, or an id already taken is a server error.
     */
    method Create(caller: UserId, body: Body, newId: MealId, today: string, now: int) returns (r: Response)
      requires Valid()
      modifies this
      ensures Valid()
      ensures ValidationErrors(body) != [] ==> r == BadRequest400(ValidationErrors(body))
      ensures r.OkMeal? <==>
        ValidationErrors(body) == [] && caller in users && HasRequiredNumber(body.calorie) && newId !in old(meals)
      ensures ValidationErrors(body) == [] && !r.OkMeal? ==> r == ServerError500
      ensures !r.OkMeal? ==> meals == old(meals)
      ensures r.OkMeal? ==> r.doc.id == newId && meals == old(meals)[newId := r.doc.meal]
      ensures r.OkMeal? ==>
        var m := r.doc.meal;
        && m.user == Some(caller)
        && Some(m.food_name) == CastString(body.food_name)
        && Some(m.calorie) == CastNumber(body.calorie)
        && m.description == StringOrDefault(body.description, "")
        && m.max_calorie == users[caller].max_calorie
        && m.is_super_user == Some(users[caller].is_super_user)
        && m.day == Some(today)
        && m.date == now
    {
      var errors := ValidationErrors(body);
      if errors != [] {
        return BadRequest400(errors);
      }
      ValidatedFoodNameSaves(body);
      if caller !in users {
        return ServerError500;
      }
      var user := users[caller];
      var draft := Draft(
        user := Some(caller),
        food_name := body.food_name,
        calorie := body.calorie,
        description := body.description,
        max_calorie := user.max_calorie,
        day := Some(today),
        is_super_user := Some(user.is_super_user));
      var saved := Save(draft, now);
      if saved.Err? {
        return ServerError500;
      }
      if newId in meals {
        // the insert hits the unique index on `_id`
        return ServerError500;
      }
      meals := meals[newId := saved.value];
      r := OkMeal(Doc(newId, saved.value));
    }

    /**
     * DELETE /:id. Answers as `Get` would, except that where `Get` returns the
     * meal the meal is removed; nothing else in the collection changes.
     */
    method Delete(caller: UserId, id: IdParam) returns (r: Response)
      requires Valid()
      modifies this
      ensures Valid()
      ensures r.Removed? <==> id.ObjectId? && old(MayTouch(caller, id.key))
      ensures r == if old(Get(caller, id)).OkMeal? then Removed(MealRemoved) else old(Get(caller, id))
      ensures meals == if r.Removed? then old(meals) - {id.key} else old(meals)
    {
      if id.MalformedId? {
        return NotFound404(MealNotFound);
      }
      var key := id.key;
      if key !in meals {
        return NotFound404(MealNotFound);
      }
      var meal := meals[key];
      if caller !in users {
        return ServerError500;
      }
      var user := users[caller];
      if user.is_super_user {
        meals := meals - {key};
        return Removed(MealRemoved);
      }
      if meal.user.None? {
        return ServerError500;
      }
      if meal.user.value != caller {
        return NotFound404(NotAuthorised);
      }
      meals := meals - {key};
      r := Removed(MealRemoved);
    }

    /**
     * PUT /:id. Validation failures are a 400; a malformed id is a server error
     * here (no ObjectId handler); otherwise it refuses exactly as `Get` does.
     * The update `$set`s only the truthy fields among `food_name`, `description`
     * and `calorie`, and for an ordinary owner also the caller's current
     * `max_calorie`; a super user's update leaves `max_calorie` alone.
     */
    method Update(caller: UserId, id: IdParam, body: Body) returns (r: Response)
      requires Valid()
      modifies this
      ensures Valid()
      ensures ValidationErrors(body) != [] ==> r == BadRequest400(ValidationErrors(body))
      ensures ValidationErrors(body) == [] && id.MalformedId? ==> r == ServerError500
      ensures ValidationErrors(body) == [] && id.ObjectId? && !old(Get(caller, id)).OkMeal? ==>
        r == old(Get(caller, id))
      ensures r.OkMeal? <==>
        && ValidationErrors(body) == [] && id.ObjectId? && old(MayTouch(caller, id.key))
        && (Truthy(body.calorie) ==> HasRequiredNumber(body.calorie))
      ensures ValidationErrors(body) == [] && id.ObjectId? && old(Get(caller, id)).OkMeal? && !r.OkMeal? ==>
        r == ServerError500
      ensures !r.OkMeal? ==> meals == old(meals)
      ensures r.OkMeal? ==> r.doc.id == id.key && meals == old(meals)[id.key := r.doc.meal]
      ensures r.OkMeal? ==>
        var was, m, user := old(meals[id.key]), r.doc.meal, users[caller];
        && m.user == was.user && m.date == was.date
        && m.day == was.day && m.is_super_user == was.is_super_user
        && Some(m.food_name) == (if Truthy(body.food_name) then CastString(body.food_name) else Some(was.food_name))
        && Some(m.description) == (if Truthy(body.description) then CastString(body.description) else Some(was.description))
        && Some(m.calorie) == (if Truthy(body.calorie) then CastNumber(body.calorie) else Some(was.calorie))
        && m.max_calorie == (if user.is_super_user then was.max_calorie else user.max_calorie)
    {
      var errors := ValidationErrors(body);
      if errors != [] {
        return BadRequest400(errors);
      }
      if id.MalformedId? {
        // the CastError of `findById` reaches the generic handler
        return ServerError500;
      }
      var key := id.key;
      if key !in meals {
        return NotFound404(MealNotFound);
      }
      var meal := meals[key];
      var mealFields := NoFields;
      if Truthy(body.food_name) {
        mealFields := mealFields.(food_name := Some(body.food_name));
      }
      if Truthy(body.description) {
        mealFields := mealFields.(description := Some(body.description));
      }
      if Truthy(body.calorie) {
        mealFields := mealFields.(calorie := Some(body.calorie));
      }
      if caller !in users {
        // `user.is_super_user` on a null user record
        return ServerError500;
      }
      var user := users[caller];
      if !user.is_super_user {
        if meal.user.None? {
          return ServerError500;
        }
        if caller != meal.user.value {
          return NotFound404(NotAuthorised);
        }
        mealFields := mealFields.(max_calorie := Some(user.max_calorie));
      }
      TruthyCastsToNonEmptyString(body.food_name);
      TruthyCastsToNonEmptyString(body.description);
      var updated := ApplySet(meal, mealFields);
      if updated.None? {
        return ServerError500;
      }
      ApplySetKeepsValid(meal, mealFields);
      meals := meals[key := updated.value];
      r := OkMeal(Doc(key, updated.value));
    }
  }
}
