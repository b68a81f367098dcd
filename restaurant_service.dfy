/**
 * The restaurant service (src/services/restaurantService.js): the listing
 * query with its optional distance column, the mapping of store rows through
 * the Restaurant record, the classification of listing errors, the batch
 * insert used by bulk upload, and create / find / update / delete with
 * their error wrapping.
 */
module RestaurantService {
  import opened Js
  import opened Text
  import opened Store
  import RestaurantModel

  // ---------------------------------------------------------------------------
  // Listing

  /** The columns the listing always selects. */
  const BaseColumns: seq<string> :=
    ["id", "created_at", "name", "logo_url", "website_url", "reviews_count",
     "average_rating", "address", "maps_url", "latitude", "longitude"]

  /** A selected column: a stored one, or the great-circle distance from a reference point. */
  datatype Column = Field(name: string) | DistanceKm(fromLat: real, fromLon: real)

  /** `typeof x === 'number' && !isNaN(x)` for both coordinates. */
  predicate HasValidCoords(userLat: Value, userLon: Value)
  {
    userLat.Num? && userLon.Num?
  }

  /** The select list: the stored columns, then the distance column when both coordinates are numbers. */
  function SelectQuery(userLat: Value, userLon: Value): (cols: seq<Column>)
    ensures |cols| == |BaseColumns| + (if HasValidCoords(userLat, userLon) then 1 else 0)
    ensures forall k :: 0 <= k < |BaseColumns| ==> cols[k] == Field(BaseColumns[k])
    ensures (exists k :: 0 <= k < |cols| && cols[k].DistanceKm?) <==> HasValidCoords(userLat, userLon)
    ensures HasValidCoords(userLat, userLon) ==> cols[|cols| - 1] == DistanceKm(userLat.n, userLon.n)
  {
    var base := seq(|BaseColumns|, k requires 0 <= k < |BaseColumns| => Field(BaseColumns[k]));
    if HasValidCoords(userLat, userLon) then
      var cols := base + [DistanceKm(userLat.n, userLon.n)];
      assert cols[|base|].DistanceKm?;
      cols
    else base
  }

  /** The select list as the source builds it: the stored columns, then `+=` of the distance column. */
  method BuildSelectQuery(userLat: Value, userLon: Value) returns (selectQuery: seq<Column>)
    ensures selectQuery == SelectQuery(userLat, userLon)
  {
    selectQuery := seq(|BaseColumns|, k requires 0 <= k < |BaseColumns| => Field(BaseColumns[k]));
    var hasValidCoords := userLat.Num? && userLon.Num?;
    if hasValidCoords {
      selectQuery := selectQuery + [DistanceKm(userLat.n, userLon.n)];
    }
  }

  /** The words of the listing's timeout message. */
  const FetchTimedOutWords: seq<string> := ["Restaurant", "data", "fetch", "timed", "out.", "Please", "try", "again", "later."]

  /** "Restaurant data fetch timed out. Please try again later." */
  const FetchTimedOutMessage: string := Join(FetchTimedOutWords, ' ')
  const LocationDataMessage: string := "Failed to calculate distances due to invalid location data."
  const FetchFailedPrefix: string := "Failed to retrieve restaurants: "

  /** The catch block of the listing: timeouts first, then distance (`acos`) failures, then everything else. */
  function ClassifyFetchError(e: Error): (r: Error)
    ensures r.code == None
    ensures Includes(e.message, "timeout") ==> r.message == FetchTimedOutMessage
    ensures !Includes(e.message, "timeout") && Includes(e.message, "acos") ==> r.message == LocationDataMessage
    ensures !Includes(e.message, "timeout") && !Includes(e.message, "acos") ==>
      r.message == FetchFailedPrefix + e.message
  {
    if Includes(e.message, "timeout") then Error(FetchTimedOutMessage, None)
    else if Includes(e.message, "acos") then Error(LocationDataMessage, None)
    else Error(FetchFailedPrefix + e.message, None)
  }

  /**
   * One listed row: the Restaurant built from it, with the `distance` the
   * query computed (or `null`) assigned afterwards.
   */
  function FromRow(dto: Row, now: Timestamp): (r: RestaurantModel.Restaurant)
    ensures r.distance == Null <==> Nullish(Get(dto, "distance"))
    ensures r.(distance := Undefined) == RestaurantModel.New(dto, now)
  {
    var r := RestaurantModel.New(dto, now);
    var d := Get(dto, "distance");
    r.(distance := if Nullish(d) then Null else d)
  }

  /** A computed distance that is neither nullish nor a number has no `toFixed`. */
  predicate DistanceUnformattable(dto: Row)
  {
    var d := Get(dto, "distance");
    !Nullish(d) && !d.Num? && !d.NaN?
  }

  /** What calling `toFixed` on such a distance throws. */
  const ToFixedNotAFunction: Error := Error("dto.distance.toFixed is not a function", None)

  /** `data.map(dto => …toJSON())` over rows whose distances all format. */
  function ProjectRows(rows: seq<Row>, now: Timestamp): (out: seq<Row>)
    ensures |out| == |rows|
    ensures forall i :: 0 <= i < |rows| ==>
      out[i] == RestaurantModel.ToJson(RestaurantModel.New(rows[i], now))
      && out[i].Keys == RestaurantModel.JsonKeys
  {
    seq(|rows|, i requires 0 <= i < |rows| => RestaurantModel.ToJson(FromRow(rows[i], now)))
  }

  /**
   * `getAllRestaurants`, given what the store (or the 8-second timer) answered
   * to the query: the rows' JSON projections, in order, or a classified error.
   */
  function GetAllRestaurants(answer: Outcome<ListResponse>, now: Timestamp): (out: Outcome<seq<Row>>)
    ensures answer.Threw? ==> out == Threw(ClassifyFetchError(answer.error))
    ensures answer.Returned? && answer.value.error.Some? ==> out == Threw(ClassifyFetchError(answer.value.error.value))
    ensures answer.Returned? && answer.value.error.None? && !answer.value.data.Rows? ==> out == Returned([])
    ensures answer.Returned? && answer.value.error.None? && answer.value.data.Rows? ==>
      var rows := answer.value.data.rows;
      if exists i :: 0 <= i < |rows| && DistanceUnformattable(rows[i]) then
        out == Threw(ClassifyFetchError(ToFixedNotAFunction))
      else
        out == Returned(ProjectRows(rows, now))
  {
    match answer
    case Threw(e) => Threw(ClassifyFetchError(e))
    case Returned(resp) =>
      if resp.error.Some? then Threw(ClassifyFetchError(resp.error.value))
      else
        match resp.data
        case Rows(rows) =>
          if exists i :: 0 <= i < |rows| && DistanceUnformattable(rows[i]) then
            Threw(ClassifyFetchError(ToFixedNotAFunction))
          else Returned(ProjectRows(rows, now))
        case _ => Returned([])
  }

  /** As written, the distance assigned to each listed record never reaches the output. */
  lemma DistanceDropped(dto: Row, now: Timestamp)
    ensures "distance" !in RestaurantModel.ToJson(FromRow(dto, now))
    ensures RestaurantModel.ToJson(FromRow(dto, now)) == RestaurantModel.ToJson(RestaurantModel.New(dto, now))
  {
  }

  /**
   * A listed row that carries its distance: the eight projected keys plus
   * `distance`, which is `null` exactly when none was computed.
   */
  function ListedJson(dto: Row, now: Timestamp): (json: Row)
    ensures json.Keys == RestaurantModel.JsonKeys + {"distance"}
    ensures forall k :: k in RestaurantModel.JsonKeys ==>
      json[k] == RestaurantModel.ToJson(RestaurantModel.New(dto, now))[k]
    ensures json["distance"] == Null <==> Nullish(Get(dto, "distance"))
    ensures !Nullish(Get(dto, "distance")) ==> json["distance"] == Get(dto, "distance")
  {
    var r := FromRow(dto, now);
    RestaurantModel.ToJson(r)["distance" := r.distance]
  }

  /** With coordinates, the listing's select list computes the distance that `ListedJson` then carries. */
  lemma DistanceRequestedAndReturned(userLat: Value, userLon: Value, dto: Row, now: Timestamp)
    requires HasValidCoords(userLat, userLon)
    requires Get(dto, "distance").Num?
    ensures DistanceKm(userLat.n, userLon.n) in SelectQuery(userLat, userLon)
    ensures ListedJson(dto, now)["distance"] == Get(dto, "distance")
  {
    var cols := SelectQuery(userLat, userLon);
    assert cols[|cols| - 1] == DistanceKm(userLat.n, userLon.n);
  }

  /** The timeout message says "timed out", and it is not the handler's own "Controller timeout". */
  lemma FetchTimedOutFacts()
    ensures Includes(FetchTimedOutMessage, "timed out")
    ensures !Includes(FetchTimedOutMessage, "Controller timeout")
  {
    FetchTimedOutSaysTimedOut();
    FetchTimedOutLacksCapitalC();
    NotIncludesWithoutChar(FetchTimedOutMessage, "Controller timeout", 0);
  }

  lemma FetchTimedOutLacksCapitalC()
    ensures 'C' !in FetchTimedOutMessage
  {
    forall k | 0 <= k < |FetchTimedOutWords|
      ensures 'C' !in FetchTimedOutWords[k]
    {
      var w := FetchTimedOutWords[k];
      assert forall i :: 0 <= i < |w| ==> w[i] != 'C';
    }
    JoinLacksChar(FetchTimedOutWords, ' ', 'C');
  }

  lemma FetchTimedOutSaysTimedOut()
    ensures Includes(FetchTimedOutMessage, "timed out")
  {
    var pair := FetchTimedOutWords[3] + [' '] + FetchTimedOutWords[4];
    JoinContainsPair(FetchTimedOutWords, ' ', 3);
    assert pair[..9] == "timed out";
    IncludesAt(pair, "timed out", 0);
    IncludesTransitive(FetchTimedOutMessage, pair, "timed out");
  }

  /** Every error the listing throws carries one of its three messages, and never a store error code. */
  lemma ClassifiedMessages(e: Error)
    ensures var m := ClassifyFetchError(e).message;
      m == FetchTimedOutMessage || m == LocationDataMessage || StartsWith(m, FetchFailedPrefix)
  {
    var m := ClassifyFetchError(e).message;
    if m != FetchTimedOutMessage && m != LocationDataMessage {
      assert m[..|FetchFailedPrefix|] == FetchFailedPrefix;
    }
  }

  // ---------------------------------------------------------------------------
  // Batch insert

  /** What `bulkInsertRestaurants` resolves to, with the rows it sent to the store (if it sent any). */
  datatype BulkInsert = BulkInsert(insertedCount: nat, error: Option<Error>, sent: Option<seq<Row>>)

  const NoBulkDataMessage: string := "No restaurant data provided for bulk insert."

  /**
   * `restaurantsData.map(data => new Restaurant(data).toJSON())`: the
   * projections, or the TypeError of the first element the constructor
   * cannot read `id` from.
   */
  function Projections(items: seq<Value>, now: Timestamp): (out: Outcome<seq<Row>>)
    ensures out.Returned? <==> forall i :: 0 <= i < |items| ==> !Nullish(items[i])
    ensures out.Returned? ==>
      && |out.value| == |items|
      && forall i :: 0 <= i < |items| ==> out.value[i] == Projection(items[i], now)
    ensures out.Threw? ==>
      exists i :: 0 <= i < |items| && Nullish(items[i]) && out.error == ReadError(items[i], "id")
        && forall j :: 0 <= j < i ==> !Nullish(items[j])
    decreases |items|
  {
    if |items| == 0 then Returned([])
    else if Nullish(items[0]) then
      assert !forall i :: 0 <= i < |items| ==> !Nullish(items[i]);
      Threw(ReadError(items[0], "id"))
    else
      var head := Projection(items[0], now);
      match Projections(items[1..], now)
      case Threw(e) =>
        FirstNullishShifted(items, e);
        Threw(e)
      case Returned(rest) =>
        ProjectionsPrepended(items, rest, now);
        Returned([head] + rest)
  }

  /** Projecting a non-nullish first element in front of the projections of the rest. */
  lemma ProjectionsPrepended(items: seq<Value>, rest: seq<Row>, now: Timestamp)
    requires |items| > 0 && !Nullish(items[0])
    requires forall i :: 0 <= i < |items[1..]| ==> !Nullish(items[1..][i])
    requires |rest| == |items[1..]| && forall i :: 0 <= i < |items[1..]| ==> rest[i] == Projection(items[1..][i], now)
    ensures forall i :: 0 <= i < |items| ==> !Nullish(items[i])
    ensures forall i :: 0 <= i < |items| ==> ([Projection(items[0], now)] + rest)[i] == Projection(items[i], now)
  {
    assert forall j :: 1 <= j < |items| ==> items[j] == items[1..][j - 1];
  }

  /** `new Restaurant(data).toJSON()` for one element of the batch. */
  function Projection(item: Value, now: Timestamp): (row: Row)
    ensures row.Keys == RestaurantModel.JsonKeys
  {
    RestaurantModel.ToJson(RestaurantModel.New(FieldsOf(item), now))
  }

  /** The first nullish element of `items[1..]` is the first of `items` when `items[0]` is not nullish. */
  lemma FirstNullishShifted(items: seq<Value>, e: Error)
    requires |items| > 0 && !Nullish(items[0])
    requires exists k :: (0 <= k < |items[1..]| && Nullish(items[1..][k]) && e == ReadError(items[1..][k], "id")
                          && forall j :: 0 <= j < k ==> !Nullish(items[1..][j]))
    ensures exists i :: (0 <= i < |items| && Nullish(items[i]) && e == ReadError(items[i], "id")
                         && forall j :: 0 <= j < i ==> !Nullish(items[j]))
  {
    var k :| 0 <= k < |items[1..]| && Nullish(items[1..][k]) && e == ReadError(items[1..][k], "id")
      && forall j :: 0 <= j < k ==> !Nullish(items[1..][j]);
    assert items[k + 1] == items[1..][k];
    assert forall j :: 1 <= j < k + 1 ==> items[j] == items[1..][j - 1];
  }

  /**
   * `bulkInsertRestaurants(restaurantsData)`, given the store's answer to the
   * insert.  It resolves (with `insertedCount` 0 and the error) on every
   * store failure; only a nullish element makes it throw, because the
   * projection runs before its `try`.
   */
  function BulkInsertRestaurants(data: Value, answer: Outcome<InsertResponse>, now: Timestamp): (out: Outcome<BulkInsert>)
    ensures !data.Arr? || |data.items| == 0 ==>
      out == Returned(BulkInsert(0, Some(Error(NoBulkDataMessage, None)), None))
    ensures out.Threw? ==> data.Arr? && exists i :: 0 <= i < |data.items| && Nullish(data.items[i])
    ensures data.Arr? && |data.items| > 0 ==>
      (out.Threw? <==> exists i :: 0 <= i < |data.items| && Nullish(data.items[i]))
    ensures data.Arr? && |data.items| > 0 && out.Returned? ==>
      && out.value.sent.Some?
      && |out.value.sent.value| == |data.items|
      && forall i :: 0 <= i < |data.items| ==>
           out.value.sent.value[i] == Projection(data.items[i], now)
    ensures out.Returned? && out.value.error.Some? ==> out.value.insertedCount == 0
    ensures data.Arr? && |data.items| > 0 && out.Returned? && answer.Threw? ==>
      out.value == BulkInsert(0, Some(answer.error), out.value.sent)
    ensures data.Arr? && |data.items| > 0 && out.Returned? && answer.Returned? && answer.value.error.Some? ==>
      out.value == BulkInsert(0, answer.value.error, out.value.sent)
    ensures data.Arr? && |data.items| > 0 && out.Returned? && answer.Returned? && answer.value.error.None? ==>
      && out.value.error.None?
      && out.value.insertedCount ==
           if answer.value.data.Some? then |answer.value.data.value|
           else if answer.value.count.Some? then answer.value.count.value
           else 0
  {
    if !data.Arr? || |data.items| == 0 then
      Returned(BulkInsert(0, Some(Error(NoBulkDataMessage, None)), None))
    else
      match Projections(data.items, now)
      case Threw(e) => Threw(e)
      case Returned(rows) =>
        match answer
        case Threw(e) => Returned(BulkInsert(0, Some(e), Some(rows)))
        case Returned(resp) =>
          if resp.error.Some? then Returned(BulkInsert(0, resp.error, Some(rows)))
          else
            var count := if resp.data.Some? then |resp.data.value|
                         else if resp.count.Some? then resp.count.value
                         else 0;
            Returned(BulkInsert(count, None, Some(rows)))
  }

  // ---------------------------------------------------------------------------
  // Single-record operations

  const CreateFailedPrefix: string := "Database error creating restaurant: "
  const FindFailedPrefix: string := "Database error finding restaurant: "
  const UpdateFailedPrefix: string := "Database error updating restaurant: "
  const DeleteFailedPrefix: string := "Database error deleting restaurant: "
  const NoFieldsMessage: string := "No valid fields provided for update."

  /** `createRestaurant`: every failure is rewrapped; the returned row is rebuilt as a Restaurant. */
  function CreateRestaurant(answer: Outcome<SingleResponse>, now: Timestamp): (out: Outcome<Option<RestaurantModel.Restaurant>>)
    ensures out.Threw? <==> answer.Threw? || answer.value.error.Some?
    ensures answer.Threw? ==> out.error == Error(CreateFailedPrefix + answer.error.message, None)
    ensures answer.Returned? && answer.value.error.Some? ==>
      out.error == Error(CreateFailedPrefix + answer.value.error.value.message, None)
    ensures out.Returned? ==> (out.value.None? <==> answer.value.data.None?)
    ensures out.Returned? && out.value.Some? ==>
      out.value.value == RestaurantModel.New(answer.value.data.value, now)
  {
    match answer
    case Threw(e) => Threw(Error(CreateFailedPrefix + e.message, None))
    case Returned(resp) =>
      if resp.error.Some? then Threw(Error(CreateFailedPrefix + resp.error.value.message, None))
      else if resp.data.None? then Returned(None)
      else Returned(Some(RestaurantModel.New(resp.data.value, now)))
  }

  /** What `createRestaurant` sends to the store: the JSON projection of the input. */
  function CreatePayload(data: Row, now: Timestamp): (row: Row)
    ensures row.Keys == RestaurantModel.JsonKeys
  {
    RestaurantModel.ToJson(RestaurantModel.New(data, now))
  }

  /** `findRestaurantById`: `null` when no row matched; failures rewrapped. */
  function FindRestaurantById(answer: Outcome<SingleResponse>, now: Timestamp): (out: Outcome<Option<RestaurantModel.Restaurant>>)
    ensures out.Threw? <==> answer.Threw? || answer.value.error.Some?
    ensures answer.Threw? ==> out.error == Error(FindFailedPrefix + answer.error.message, None)
    ensures answer.Returned? && answer.value.error.Some? ==>
      out.error == Error(FindFailedPrefix + answer.value.error.value.message, None)
    ensures out.Returned? ==> (out.value.None? <==> answer.value.data.None?)
    ensures out.Returned? && out.value.Some? ==>
      out.value.value == RestaurantModel.New(answer.value.data.value, now)
  {
    match answer
    case Threw(e) => Threw(Error(FindFailedPrefix + e.message, None))
    case Returned(resp) =>
      if resp.error.Some? then Threw(Error(FindFailedPrefix + resp.error.value.message, None))
      else if resp.data.None? then Returned(None)
      else Returned(Some(RestaurantModel.New(resp.data.value, now)))
  }

  /** The body after the three deletes: `id` and `created_at` always, `categories` when it is not `undefined`. */
  function Stripped(fields: Row): (rest: Row)
    ensures rest.Keys == fields.Keys - {"id", "created_at"}
      - (if Get(fields, "categories") != Undefined then {"categories"} else {})
    ensures forall k :: k in rest ==> rest[k] == fields[k]
  {
    var rest := fields - {"id", "created_at"};
    if Get(fields, "categories") != Undefined then rest - {"categories"} else rest
  }

  /** The result of `updateRestaurant` and the store calls it made, in order. */
  datatype Update = Update(result: Outcome<Option<RestaurantModel.Restaurant>>, calls: seq<Call>)

  /** The `try` block's catch: every failure inside it is rewrapped. */
  function UpdateFailed(e: Error): Outcome<Option<RestaurantModel.Restaurant>>
  {
    Threw(Error(UpdateFailedPrefix + e.message, None))
  }

  /**
   * The `try` block after its first store call `call` was answered with
   * `answer`: the row found, then the categories replaced when given.
   */
  function Settle(
    id: string, call: Call, answer: Outcome<SingleResponse>, categories: Value,
    replaceAnswer: Outcome<()>, now: Timestamp): Update
  {
    match answer
    case Threw(e) => Update(UpdateFailed(e), [call])
    case Returned(resp) =>
      if resp.error.Some? then Update(UpdateFailed(resp.error.value), [call])
      else if resp.data.None? then Update(Returned(None), [call])
      else
        var r := RestaurantModel.New(resp.data.value, now);
        if categories == Undefined then Update(Returned(Some(r)), [call])
        else
          var calls := [call, ReplaceCategories(id, categories)];
          match replaceAnswer
          case Threw(e) => Update(UpdateFailed(e), calls)
          case Returned(_) => Update(Returned(Some(r)), calls)
  }

  /**
   * `updateRestaurant(id, updateData)` as a function of the body it was given
   * and of the store's answers: to the row update (when scalar fields remain),
   * to the row fetch (when only `categories` was given), and to the category
   * replacement.
   */
  function UpdateOutcome(
    id: string, fields: Row,
    updateAnswer: Outcome<SingleResponse>, fetchAnswer: Outcome<SingleResponse>,
    replaceAnswer: Outcome<()>, now: Timestamp): Update
  {
    var categories := Get(fields, "categories");
    var rest := Stripped(fields);
    if |rest| == 0 && categories == Undefined then
      Update(Threw(Error(NoFieldsMessage, None)), [])
    else if |rest| > 0 then
      Settle(id, UpdateRow("Restaurants", id, rest), updateAnswer, categories, replaceAnswer, now)
    else
      Settle(id, FetchRow("Restaurants", id), fetchAnswer, categories, replaceAnswer, now)
  }

  /**
   * The three deletes at the head of `updateRestaurant`, which edit the
   * caller's body; the `categories` value read before its delete is returned.
   */
  method StripBody(body: Body) returns (categories: Value)
    modifies body
    ensures body.fields == Stripped(old(body.fields))
    ensures categories == Get(old(body.fields), "categories")
  {
    body.fields := body.fields - {"id"};
    body.fields := body.fields - {"created_at"};
    categories := Get(body.fields, "categories");
    if categories != Undefined {
      body.fields := body.fields - {"categories"};
    }
  }

  /**
   * `updateRestaurant` as the source runs it: the deletes edit the caller's
   * body, then the update (or fetch) and the category replacement follow.
   */
  method UpdateRestaurant(
    id: string, updateData: Body,
    updateAnswer: Outcome<SingleResponse>, fetchAnswer: Outcome<SingleResponse>,
    replaceAnswer: Outcome<()>, now: Timestamp)
    returns (result: Outcome<Option<RestaurantModel.Restaurant>>, calls: seq<Call>)
    modifies updateData
    ensures updateData.fields == Stripped(old(updateData.fields))
    ensures Update(result, calls) == UpdateOutcome(id, old(updateData.fields), updateAnswer, fetchAnswer, replaceAnswer, now)
  {
    var categories := StripBody(updateData);
    var rest := updateData.fields;
    if |rest| == 0 && categories == Undefined {
      return Threw(Error(NoFieldsMessage, None)), [];
    }
    if |rest| > 0 {
      result, calls := TryUpdate(id, UpdateRow("Restaurants", id, rest), updateAnswer, categories, replaceAnswer, now);
    } else {
      result, calls := TryUpdate(id, FetchRow("Restaurants", id), fetchAnswer, categories, replaceAnswer, now);
    }
  }

  /** The `try` block of `updateRestaurant`, once its first store call has been answered. */
  method TryUpdate(
    id: string, call: Call, answer: Outcome<SingleResponse>, categories: Value,
    replaceAnswer: Outcome<()>, now: Timestamp)
    returns (result: Outcome<Option<RestaurantModel.Restaurant>>, calls: seq<Call>)
    ensures Update(result, calls) == Settle(id, call, answer, categories, replaceAnswer, now)
  {
    calls := [call];
    if answer.Threw? {
      return UpdateFailed(answer.error), calls;
    }
    var resp := answer.value;
    if resp.error.Some? {
      return UpdateFailed(resp.error.value), calls;
    }
    if resp.data.None? {
      return Returned(None), calls;
    }
    var updated := RestaurantModel.New(resp.data.value, now);
    if categories != Undefined {
      calls := calls + [ReplaceCategories(id, categories)];
      if replaceAnswer.Threw? {
        return UpdateFailed(replaceAnswer.error), calls;
      }
    }
    result := Returned(Some(updated));
  }

  /** With nothing left to update and no `categories`, the update fails unwrapped and calls nothing. */
  lemma UpdateNothingToDo(
    id: string, fields: Row,
    updateAnswer: Outcome<SingleResponse>, fetchAnswer: Outcome<SingleResponse>,
    replaceAnswer: Outcome<()>, now: Timestamp)
    requires fields.Keys <= {"id", "created_at"}
    ensures UpdateOutcome(id, fields, updateAnswer, fetchAnswer, replaceAnswer, now)
      == Update(Threw(Error(NoFieldsMessage, None)), [])
  {
    assert Stripped(fields).Keys == {};
  }

  /**
   * Which calls an update makes: it updates the remaining scalar fields when
   * there are any and otherwise only fetches; the categories are replaced
   * only when the key was given and the restaurant was found.
   */
  lemma UpdateCalls(
    id: string, fields: Row,
    updateAnswer: Outcome<SingleResponse>, fetchAnswer: Outcome<SingleResponse>,
    replaceAnswer: Outcome<()>, now: Timestamp)
    requires |Stripped(fields)| > 0 || Get(fields, "categories") != Undefined
    ensures var u := UpdateOutcome(id, fields, updateAnswer, fetchAnswer, replaceAnswer, now);
      var rest := Stripped(fields);
      var categories := Get(fields, "categories");
      var answer := if |rest| > 0 then updateAnswer else fetchAnswer;
      && 1 <= |u.calls| <= 2
      && u.calls[0] == (if |rest| > 0 then UpdateRow("Restaurants", id, rest) else FetchRow("Restaurants", id))
      && (|u.calls| == 2 <==>
            categories != Undefined && answer.Returned? && answer.value.error.None? && answer.value.data.Some?)
      && (|u.calls| == 2 ==> u.calls[1] == ReplaceCategories(id, categories))
  {
    var rest := Stripped(fields);
    var categories := Get(fields, "categories");
    if |rest| > 0 {
      SettleCalls(id, UpdateRow("Restaurants", id, rest), updateAnswer, categories, replaceAnswer, now);
    } else {
      SettleCalls(id, FetchRow("Restaurants", id), fetchAnswer, categories, replaceAnswer, now);
    }
  }

  /** The first call is always made; the replacement follows it exactly when the row was found and categories were given. */
  lemma SettleCalls(
    id: string, call: Call, answer: Outcome<SingleResponse>, categories: Value,
    replaceAnswer: Outcome<()>, now: Timestamp)
    ensures var u := Settle(id, call, answer, categories, replaceAnswer, now);
      && 1 <= |u.calls| <= 2
      && u.calls[0] == call
      && (|u.calls| == 2 <==>
            categories != Undefined && answer.Returned? && answer.value.error.None? && answer.value.data.Some?)
      && (|u.calls| == 2 ==> u.calls[1] == ReplaceCategories(id, categories))
  {
  }

  /** An update whose row is not found resolves to `null`, whatever else the body held. */
  lemma UpdateNotFound(
    id: string, fields: Row,
    updateAnswer: Outcome<SingleResponse>, fetchAnswer: Outcome<SingleResponse>,
    replaceAnswer: Outcome<()>, now: Timestamp)
    requires |Stripped(fields)| > 0 || Get(fields, "categories") != Undefined
    requires var answer := if |Stripped(fields)| > 0 then updateAnswer else fetchAnswer;
      answer.Returned? && answer.value.error.None? && answer.value.data.None?
    ensures UpdateOutcome(id, fields, updateAnswer, fetchAnswer, replaceAnswer, now).result == Returned(None)
  {
  }

  /**
   * The category service defines no `replaceCategoriesForRestaurant`, so
   * awaiting it throws this TypeError before anything is replaced.
   */
  const MissingReplace: Outcome<()> :=
    Threw(Error("RestaurantCategoryService.replaceCategoriesForRestaurant is not a function", None))

  /**
   * As written, an update that carries `categories` and finds its row fails
   * with a wrapped TypeError, although the row update was already issued.
   */
  lemma CategoriesUpdateAsWritten(
    id: string, fields: Row,
    updateAnswer: Outcome<SingleResponse>, fetchAnswer: Outcome<SingleResponse>, now: Timestamp)
    requires Get(fields, "categories") != Undefined
    requires var answer := if |Stripped(fields)| > 0 then updateAnswer else fetchAnswer;
      answer.Returned? && answer.value.error.None? && answer.value.data.Some?
    ensures var u := UpdateOutcome(id, fields, updateAnswer, fetchAnswer, MissingReplace, now);
      && u.result == Threw(Error(UpdateFailedPrefix + MissingReplace.error.message, None))
      && (|Stripped(fields)| > 0 ==> u.calls[0] == UpdateRow("Restaurants", id, Stripped(fields)))
  {
  }

  /**
   * With a replacement that succeeds, an update that carries `categories`
   * resolves to the restaurant built from the row the store returned.
   */
  lemma CategoriesUpdateIntended(
    id: string, fields: Row,
    updateAnswer: Outcome<SingleResponse>, fetchAnswer: Outcome<SingleResponse>, now: Timestamp)
    requires Get(fields, "categories") != Undefined
    requires var answer := if |Stripped(fields)| > 0 then updateAnswer else fetchAnswer;
      answer.Returned? && answer.value.error.None? && answer.value.data.Some?
    ensures var answer := if |Stripped(fields)| > 0 then updateAnswer else fetchAnswer;
      var u := UpdateOutcome(id, fields, updateAnswer, fetchAnswer, Returned(()), now);
      && u.result == Returned(Some(RestaurantModel.New(answer.value.data.value, now)))
      && u.calls[|u.calls| - 1] == ReplaceCategories(id, Get(fields, "categories"))
  {
  }

  /** `deleteRestaurant`'s catch: a foreign-key violation gets its own message, anything else is wrapped. */
  function DeleteError(id: string, e: Error): (r: Error)
    ensures r.code == None
    ensures e.code == Some(ForeignKeyViolation) ==>
      r.message == "Cannot delete restaurant " + id + " because it still has associated deals or categories."
    ensures e.code != Some(ForeignKeyViolation) ==> r.message == DeleteFailedPrefix + e.message
  {
    if e.code == Some(ForeignKeyViolation) then
      Error("Cannot delete restaurant " + id + " because it still has associated deals or categories.", None)
    else Error(DeleteFailedPrefix + e.message, None)
  }

  /** `deleteRestaurant(id)`: true exactly when the store reports a positive count. */
  function DeleteRestaurant(id: string, answer: Outcome<CountResponse>): (out: Outcome<bool>)
    ensures out.Returned? <==> answer.Returned? && answer.value.error.None?
    ensures out.Returned? ==> (out.value <==> answer.value.count.Some? && answer.value.count.value > 0)
    ensures answer.Threw? ==> out.error == DeleteError(id, answer.error)
    ensures answer.Returned? && answer.value.error.Some? ==> out.error == DeleteError(id, answer.value.error.value)
  {
    match answer
    case Threw(e) => Threw(DeleteError(id, e))
    case Returned(resp) =>
      if resp.error.Some? then Threw(DeleteError(id, resp.error.value))
      else Returned(resp.count.Some? && resp.count.value > 0)
  }
}
