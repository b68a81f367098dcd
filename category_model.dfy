/**
 * The RestaurantCategory record (src/models/RestaurantCategory.js): four
 * fields filled with `||` defaulting, a two-field validity check and a
 * four-key JSON projection.
 */
module CategoryModel {
  import opened Js

  datatype RestaurantCategory = RestaurantCategory(
    id: Value,
    created_at: Value,
    restaurant_id: Value,
    category_name: Value)

  const JsonKeys: set<string> := {"id", "created_at", "restaurant_id", "category_name"}

  /** The keys that default to `null`, as opposed to the clock. */
  const NullableKeys: set<string> := {"id", "restaurant_id", "category_name"}

  predicate Normalized(c: RestaurantCategory)
  {
    && (c.id == Null || Truthy(c.id))
    && (c.restaurant_id == Null || Truthy(c.restaurant_id))
    && (c.category_name == Null || Truthy(c.category_name))
    && Truthy(c.created_at)
  }

  /** `new RestaurantCategory(data)`, with the clock reading `now`. */
  function New(data: map<string, Value>, now: Timestamp): (c: RestaurantCategory)
    ensures Normalized(c)
    ensures c.id == (if Truthy(Get(data, "id")) then Get(data, "id") else Null)
    ensures c.restaurant_id == (if Truthy(Get(data, "restaurant_id")) then Get(data, "restaurant_id") else Null)
    ensures c.category_name == (if Truthy(Get(data, "category_name")) then Get(data, "category_name") else Null)
    ensures c.created_at == (if Truthy(Get(data, "created_at")) then Get(data, "created_at") else Str(now))
  {
    RestaurantCategory(
      id := Or(Get(data, "id"), Null),
      created_at := Or(Get(data, "created_at"), Str(now)),
      restaurant_id := Or(Get(data, "restaurant_id"), Null),
      category_name := Or(Get(data, "category_name"), Null))
  }

  /** `isValid()`: `this.restaurant_id && this.category_name`. */
  function IsValid(c: RestaurantCategory): (v: Value)
    ensures Truthy(v) <==> Truthy(c.restaurant_id) && Truthy(c.category_name)
  {
    And(c.restaurant_id, c.category_name)
  }

  /** `toJSON()`. */
  function ToJson(c: RestaurantCategory): (json: map<string, Value>)
    ensures json.Keys == JsonKeys
  {
    map[
      "id" := c.id,
      "created_at" := c.created_at,
      "restaurant_id" := c.restaurant_id,
      "category_name" := c.category_name]
  }

  /** Each nullable key of the projection is the input's value when truthy, and `null` otherwise. */
  lemma NewDefaults(data: map<string, Value>, now: Timestamp, key: string)
    requires key in NullableKeys
    ensures ToJson(New(data, now))[key] == if Truthy(Get(data, key)) then Get(data, key) else Null
  {
  }

  /** A constructed category is valid exactly when its input has a truthy restaurant id and name. */
  lemma NewIsValid(data: map<string, Value>, now: Timestamp)
    ensures Truthy(IsValid(New(data, now))) <==>
      Truthy(Get(data, "restaurant_id")) && Truthy(Get(data, "category_name"))
  {
  }

  /** Rebuilding a category from its own JSON gives the same JSON back. */
  lemma JsonRoundTrip(data: map<string, Value>, now1: Timestamp, now2: Timestamp)
    ensures ToJson(New(ToJson(New(data, now1)), now2)) == ToJson(New(data, now1))
  {
    var c := New(data, now1);
    assert New(ToJson(c), now2) == c;
  }
}
