/**
 * Clients of the meal service that use only the handlers' contracts: the
 * create/get round trip, and a few sample sessions.
 */
module MealScenarios {
  import opened Base
  import opened JsValue
  import opened MealSchema
  import opened MealRoutes

  /** A meal just created is what its creator gets back from `Get`. */
  method CreateThenGet(store: MealStore, caller: UserId, body: Body, newId: MealId, today: string, now: int)
    returns (created: Response, fetched: Response)
    requires store.Valid()
    modifies store
    ensures store.Valid()
    ensures created.OkMeal? ==> fetched == created
    ensures created.OkMeal? ==> created.doc.meal.user == Some(caller)
  {
    created := store.Create(caller, body, newId, today, now);
    fetched := store.Get(caller, ObjectId(newId));
  }

  /** "Rice", 200 calories, by an ordinary user whose limit is 2000. */
  method RiceScenario() {
    var store := new MealStore(map["alice" := UserRecord(Some(2000), false)]);
    var body := Body(Text("Rice"), Number(200), Missing);
    var r := store.Create("alice", body, "meal-1", "14/10/2026", 1000);
    assert r.OkMeal?;
    assert r.doc.meal.food_name == "Rice" && r.doc.meal.calorie == 200;
    assert r.doc.meal.max_calorie == Some(2000);
    assert r.doc.meal.is_super_user == Some(false);
    assert r.doc.meal.day == Some("14/10/2026");
    assert r.doc.meal.description == "";
  }

  /** Two ordinary users and a super user. */
  const Directory := map[
    "alice" := UserRecord(Some(2000), false),
    "bob" := UserRecord(None, false),
    "root" := UserRecord(None, true)]

  /** Two ordinary users each log a meal, into a fresh store. */
  method TwoMeals() returns (store: MealStore, a: Meal, b: Meal)
    ensures store.users == Directory
    ensures store.meals == map["meal-a" := a, "meal-b" := b]
    ensures a.user == Some("alice") && b.user == Some("bob")
    ensures store.Valid() && fresh(store)
  {
    store := new MealStore(Directory);
    var ra := store.Create("alice", Body(Text("Rice"), Number(200), Missing), "meal-a", "14/10/2026", 1);
    var rb := store.Create("bob", Body(Text("Soup"), Number(150), Text("hot")), "meal-b", "14/10/2026", 2);
    a, b := ra.doc.meal, rb.doc.meal;
  }

  /** Each ordinary user lists only their own meal; a super user lists both. */
  method ListScenario() {
    var store, a, b := TwoMeals();
    var mine := store.List("alice");
    assert forall i :: 0 <= i < |mine.docs| ==> mine.docs[i].id == "meal-a";
    assert "meal-a" in store.meals && "meal-b" in store.meals;
    assert Doc("meal-a", a) in mine.docs;
    var all := store.List("root");
    assert Doc("meal-a", a) in all.docs && Doc("meal-b", b) in all.docs;
  }

  /** Another ordinary user cannot see or remove a meal; a super user removes it. */
  method AccessScenario() {
    var store, a, b := TwoMeals();
    var peek := store.Get("bob", ObjectId("meal-a"));
    assert peek == NotFound404(NotAuthorised);
    var gone := store.Delete("bob", ObjectId("meal-a"));
    assert gone == NotFound404(NotAuthorised) && "meal-a" in store.meals;
    var wipe := store.Delete("root", ObjectId("meal-a"));
    assert wipe == Removed(MealRemoved) && store.meals == map["meal-b" := b];
  }

  /** A numeric calorie of 0 passes validation but is not part of the update. */
  method ZeroCalorieScenario() {
    var store := new MealStore(map["alice" := UserRecord(Some(1800), false)]);
    var c := store.Create("alice", Body(Text("Rice"), Number(200), Text("white")), "meal-1", "14/10/2026", 5);
    assert c.OkMeal?;
    var u := store.Update("alice", ObjectId("meal-1"), Body(Text("Rice"), Number(0), Text("")));
    assert u.OkMeal?;
    assert u.doc.meal.calorie == 200 && u.doc.meal.description == "white";
    assert u.doc.meal.max_calorie == Some(1800);
  }

  /** A calorie sent as the string "200" is cast and stored as the number 200. */
  method TextCalorieScenario() {
    var store := new MealStore(map["alice" := UserRecord(Some(1800), false)]);
    assert NumberToString(200) == "200";
    CastNumberOfString(200);
    var r := store.Create("alice", Body(Text("Rice"), Text("200"), Missing), "meal-1", "14/10/2026", 5);
    assert r.OkMeal? && r.doc.meal.calorie == 200;
  }
}
