/**
 * The Deal record (src/models/Deal.js): `||` defaulting in the constructor,
 * a five-field truthiness validity check, and a seven-key JSON projection
 * that keeps `created_at`.
 */
module DealModel {
  import opened Js

  datatype Deal = Deal(
    id: Value,
    created_at: Value,
    details: Value,
    restaurant_id: Value,
    summarized_deal: Value,
    price: Value,
    restaurant_name: Value)

  const JsonKeys: set<string> :=
    {"id", "created_at", "details", "restaurant_id", "summarized_deal", "price", "restaurant_name"}

  /** The fields that default to `null`: all but `created_at`. */
  const NullableKeys: set<string> := JsonKeys - {"created_at"}

  predicate Normalized(d: Deal)
  {
    && (d.id == Null || Truthy(d.id))
    && (d.details == Null || Truthy(d.details))
    && (d.restaurant_id == Null || Truthy(d.restaurant_id))
    && (d.summarized_deal == Null || Truthy(d.summarized_deal))
    && (d.price == Null || Truthy(d.price))
    && (d.restaurant_name == Null || Truthy(d.restaurant_name))
    && Truthy(d.created_at)
  }

  /** `new Deal(data)`, with the clock reading `now`. */
  function New(data: map<string, Value>, now: Timestamp): (d: Deal)
    ensures Normalized(d)
    ensures d.created_at == (if Truthy(Get(data, "created_at")) then Get(data, "created_at") else Str(now))
  {
    Deal(
      id := Or(Get(data, "id"), Null),
      created_at := Or(Get(data, "created_at"), Str(now)),
      details := Or(Get(data, "details"), Null),
      restaurant_id := Or(Get(data, "restaurant_id"), Null),
      summarized_deal := Or(Get(data, "summarized_deal"), Null),
      price := Or(Get(data, "price"), Null),
      restaurant_name := Or(Get(data, "restaurant_name"), Null))
  }

  /** `isValid()`: the `&&` chain over the five non-id fields. */
  function IsValid(d: Deal): (v: Value)
    ensures Truthy(v) <==>
      Truthy(d.details) && Truthy(d.restaurant_id) && Truthy(d.summarized_deal)
      && Truthy(d.price) && Truthy(d.restaurant_name)
  {
    And(And(And(And(d.details, d.restaurant_id), d.summarized_deal), d.price), d.restaurant_name)
  }

  /** `toJSON()`. */
  function ToJson(d: Deal): (json: map<string, Value>)
    ensures json.Keys == JsonKeys
  {
    map[
      "id" := d.id,
      "created_at" := d.created_at,
      "details" := d.details,
      "restaurant_id" := d.restaurant_id,
      "summarized_deal" := d.summarized_deal,
      "price" := d.price,
      "restaurant_name" := d.restaurant_name]
  }

  /** Each nullable field of a constructed Deal is the input when truthy, else `null`. */
  lemma NewDefaults(data: map<string, Value>, now: Timestamp, key: string)
    requires key in NullableKeys
    ensures ToJson(New(data, now))[key] == if Truthy(Get(data, key)) then Get(data, key) else Null
  {
  }

  /** A constructed Deal is valid exactly when its input has all five fields truthy; a price of 0 or '' is invalid. */
  lemma NewIsValid(data: map<string, Value>, now: Timestamp)
    ensures Truthy(IsValid(New(data, now))) <==>
      Truthy(Get(data, "details")) && Truthy(Get(data, "restaurant_id"))
      && Truthy(Get(data, "summarized_deal")) && Truthy(Get(data, "price"))
      && Truthy(Get(data, "restaurant_name"))
  {
  }

  /** Rebuilding a Deal from its own JSON gives the same JSON back, whatever the clock reads the second time. */
  lemma JsonRoundTrip(data: map<string, Value>, now1: Timestamp, now2: Timestamp)
    ensures ToJson(New(ToJson(New(data, now1)), now2)) == ToJson(New(data, now1))
  {
    var d := New(data, now1);
    assert New(ToJson(d), now2) == d;
  }
}
