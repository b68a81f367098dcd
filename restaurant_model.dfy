/**
 * The Restaurant record (src/models/Restaurant.js): a constructor that fills
 * each field from the input with `||` defaulting, a truthiness validity
 * check, and a fixed eight-key JSON projection.
 */
module RestaurantModel {
  import opened Js

  datatype Restaurant = Restaurant(
    id: Value,
    created_at: Value,
    name: Value,
    logo_url: Value,
    website_url: Value,
    reviews_count: Value,
    average_rating: Value,
    address: Value,
    maps_url: Value,
    // assigned only by the listing service, never by the constructor
    distance: Value)

  /** The keys `toJSON` produces: every field except `created_at` and `distance`. */
  const JsonKeys: set<string> :=
    {"id", "name", "logo_url", "website_url", "reviews_count", "average_rating", "address", "maps_url"}

  /** The input keys the constructor reads. */
  const InputKeys: set<string> := JsonKeys + {"created_at"}

  /** A field the constructor defaults to `null`: the input when truthy, else `null`. */
  predicate NullOrTruthy(v: Value)
  {
    v == Null || Truthy(v)
  }

  /** A field the constructor defaults to 0. */
  predicate ZeroOrTruthy(v: Value)
  {
    v == Num(0.0) || Truthy(v)
  }

  /** The shape every constructed Restaurant has. */
  predicate Normalized(r: Restaurant)
  {
    && NullOrTruthy(r.id) && NullOrTruthy(r.name) && NullOrTruthy(r.logo_url)
    && NullOrTruthy(r.website_url) && NullOrTruthy(r.address) && NullOrTruthy(r.maps_url)
    && ZeroOrTruthy(r.reviews_count) && ZeroOrTruthy(r.average_rating)
    && Truthy(r.created_at)
  }

  /** `new Restaurant(data)`, with the clock reading `now`. */
  function New(data: map<string, Value>, now: Timestamp): (r: Restaurant)
    ensures Normalized(r)
    ensures r.distance == Undefined
    ensures Truthy(Get(data, "name")) ==> r.name == Get(data, "name")
    ensures Truthy(Get(data, "address")) ==> r.address == Get(data, "address")
    ensures Truthy(Get(data, "reviews_count")) ==> r.reviews_count == Get(data, "reviews_count")
    ensures Truthy(Get(data, "average_rating")) ==> r.average_rating == Get(data, "average_rating")
    ensures r.created_at == (if Truthy(Get(data, "created_at")) then Get(data, "created_at") else Str(now))
  {
    Restaurant(
      id := Or(Get(data, "id"), Null),
      created_at := Or(Get(data, "created_at"), Str(now)),
      name := Or(Get(data, "name"), Null),
      logo_url := Or(Get(data, "logo_url"), Null),
      website_url := Or(Get(data, "website_url"), Null),
      reviews_count := Or(Get(data, "reviews_count"), Num(0.0)),
      average_rating := Or(Get(data, "average_rating"), Num(0.0)),
      address := Or(Get(data, "address"), Null),
      maps_url := Or(Get(data, "maps_url"), Null),
      distance := Undefined)
  }

  /** `isValid()`: `this.name && this.address`, a value that is truthy exactly when both are. */
  function IsValid(r: Restaurant): (v: Value)
    ensures Truthy(v) <==> Truthy(r.name) && Truthy(r.address)
  {
    And(r.name, r.address)
  }

  /** `toJSON()`. */
  function ToJson(r: Restaurant): (json: map<string, Value>)
    ensures json.Keys == JsonKeys
    ensures "created_at" !in json && "distance" !in json
  {
    map[
      "id" := r.id,
      "name" := r.name,
      "logo_url" := r.logo_url,
      "website_url" := r.website_url,
      "reviews_count" := r.reviews_count,
      "average_rating" := r.average_rating,
      "address" := r.address,
      "maps_url" := r.maps_url]
  }

  /** A constructed Restaurant is valid exactly when its input had a truthy name and address. */
  lemma NewIsValid(data: map<string, Value>, now: Timestamp)
    ensures Truthy(IsValid(New(data, now))) <==> Truthy(Get(data, "name")) && Truthy(Get(data, "address"))
  {
  }

  /** Each of the six nullable fields is the input when truthy, else `null`; the two counts default to 0. */
  lemma NewDefaults(data: map<string, Value>, now: Timestamp, key: string)
    requires key in JsonKeys
    ensures ToJson(New(data, now))[key] ==
      if Truthy(Get(data, key)) then Get(data, key)
      else if key in {"reviews_count", "average_rating"} then Num(0.0) else Null
  {
  }

  /**
   * Keys outside the nine the constructor reads (`latitude`, `longitude`,
   * `distance`, anything else) never reach the record.
   */
  lemma NewIgnoresOtherKeys(data: map<string, Value>, extra: map<string, Value>, now: Timestamp)
    requires extra.Keys !! InputKeys
    ensures New(data + extra, now) == New(data, now)
  {
    assert forall k :: k in InputKeys ==> Get(data + extra, k) == Get(data, k);
  }

  /** The projection does not depend on the clock. */
  lemma ToJsonIgnoresClock(data: map<string, Value>, now1: Timestamp, now2: Timestamp)
    ensures ToJson(New(data, now1)) == ToJson(New(data, now2))
  {
  }

  /** Rebuilding a record from its own JSON gives the same JSON back. */
  lemma JsonRoundTrip(data: map<string, Value>, now1: Timestamp, now2: Timestamp)
    ensures ToJson(New(ToJson(New(data, now1)), now2)) == ToJson(New(data, now1))
  {
    var r := New(data, now1);
    var j := ToJson(r);
    var r2 := New(j, now2);
    assert Get(j, "id") == r.id && Get(j, "name") == r.name && Get(j, "logo_url") == r.logo_url;
    assert Get(j, "website_url") == r.website_url && Get(j, "address") == r.address && Get(j, "maps_url") == r.maps_url;
    assert Get(j, "reviews_count") == r.reviews_count && Get(j, "average_rating") == r.average_rating;
    assert r2.(created_at := r.created_at) == r;
  }
}
