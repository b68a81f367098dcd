/**
 * The deal service (src/services/dealService.js): deals of one restaurant
 * (with the id check and the timeout rewording), the full listing, and
 * create / find / update / delete with their error wrapping.
 */
module DealService {
  import opened Js
  import opened Text
  import opened Store
  import DealModel

  // ---------------------------------------------------------------------------
  // Deals of one restaurant

  /** A read's result and the store calls it made. */
  datatype Fetch<T> = Fetch(result: Outcome<T>, calls: seq<Call>)

  /** `parseInt(restaurantId, 10)` when it is a positive integer. */
  predicate ValidRestaurantId(restaurantId: string)
  {
    ParseInt(restaurantId).Number? && ParseInt(restaurantId).value > 0
  }

  function InvalidIdError(restaurantId: string): Error
  {
    Error("Invalid Restaurant ID format: " + restaurantId, None)
  }

  function DealsTimedOutError(parsedId: nat): Error
  {
    Error("Deal data fetch timed out for restaurant " + NatToString(parsedId) + ".", None)
  }

  /**
   * `getDealsByRestaurantId(restaurantId)`, given what the store (or the
   * 8-second timer) answered to the filtered select.
   */
  function GetDealsByRestaurantId(restaurantId: string, answer: Outcome<ListResponse>, now: Timestamp)
    : (out: Fetch<seq<DealModel.Deal>>)
    ensures !ValidRestaurantId(restaurantId) ==>
      out == Fetch(Threw(InvalidIdError(restaurantId)), [])
    ensures ValidRestaurantId(restaurantId) ==>
      out.calls == [SelectByRestaurant("Deals", ParseInt(restaurantId).value)]
    ensures ValidRestaurantId(restaurantId) ==>
      (out.result.Returned? <==> answer.Returned? && answer.value.error.None?)
    ensures ValidRestaurantId(restaurantId) && out.result.Threw? ==>
      var e := if answer.Threw? then answer.error else answer.value.error.value;
      out.result.error == if Includes(e.message, "timeout") then DealsTimedOutError(ParseInt(restaurantId).value) else e
    ensures ValidRestaurantId(restaurantId) && out.result.Returned? ==>
      if answer.value.data.Rows? then
        |out.result.value| == |answer.value.data.rows|
        && forall i :: 0 <= i < |out.result.value| ==>
             out.result.value[i] == DealModel.New(answer.value.data.rows[i], now)
      else out.result.value == []
  {
    var parsed := ParseInt(restaurantId);
    if parsed.NotANumber? || parsed.value <= 0 then
      Fetch(Threw(InvalidIdError(restaurantId)), [])
    else
      var id: nat := parsed.value;
      var calls := [SelectByRestaurant("Deals", id)];
      var caught := (e: Error) => if Includes(e.message, "timeout") then DealsTimedOutError(id) else e;
      match answer
      case Threw(e) => Fetch(Threw(caught(e)), calls)
      case Returned(resp) =>
        if resp.error.Some? then Fetch(Threw(caught(resp.error.value)), calls)
        else
          match resp.data
          case Rows(rows) => Fetch(Returned(seq(|rows|, i requires 0 <= i < |rows| => DealModel.New(rows[i], now))), calls)
          case _ => Fetch(Returned([]), calls)
  }

  /** A positive integer id in its own decimal form is accepted and queried as that number. */
  lemma CanonicalIdQueried(n: nat, answer: Outcome<ListResponse>, now: Timestamp)
    requires n > 0
    ensures GetDealsByRestaurantId(NatToString(n), answer, now).calls == [SelectByRestaurant("Deals", n)]
  {
    ParseIntOfNatToString(n, "");
    assert NatToString(n) + "" == NatToString(n);
  }

  /** When the timer wins the race, the caller sees the restaurant-specific timeout message. */
  lemma DealsQueryTimeout(restaurantId: string, now: Timestamp)
    requires ValidRestaurantId(restaurantId)
    ensures GetDealsByRestaurantId(restaurantId, Threw(QueryTimeout), now).result
      == Threw(DealsTimedOutError(ParseInt(restaurantId).value))
  {
    QueryTimeoutMentionsTimeout();
  }

  /** `0`, and text that starts with anything but whitespace, a sign or a digit, are rejected before any query. */
  lemma RejectedIds(restaurantId: string, answer: Outcome<ListResponse>, now: Timestamp)
    requires restaurantId == "0"
      || (|restaurantId| > 0 && !IsDigit(restaurantId[0]) && !IsJsWhitespace(restaurantId[0])
          && restaurantId[0] != '-' && restaurantId[0] != '+')
    ensures GetDealsByRestaurantId(restaurantId, answer, now) == Fetch(Threw(InvalidIdError(restaurantId)), [])
  {
    if restaurantId == "0" {
      ParseIntOfNatToString(0, "");
      assert NatToString(0) + "" == "0";
    } else {
      assert TrimStart(restaurantId) == restaurantId;
      assert DigitPrefixLength(restaurantId) == 0;
    }
  }

  // ---------------------------------------------------------------------------
  // Full listing

  /** What calling `.map` on a value that is not an array throws. */
  const MapNotAFunction: Error := Error("data.map is not a function", None)

  /** `listAllDeals()`: every failure is rethrown as it is. */
  function ListAllDeals(answer: Outcome<ListResponse>, now: Timestamp): (out: Outcome<seq<DealModel.Deal>>)
    ensures answer.Threw? ==> out == Threw(answer.error)
    ensures answer.Returned? && answer.value.error.Some? ==> out == Threw(answer.value.error.value)
    ensures answer.Returned? && answer.value.error.None? ==>
      match answer.value.data
      case NoData => out == Returned([])
      case NotArray => out == Threw(MapNotAFunction)
      case Rows(rows) =>
        (out.Returned? && |out.value| == |rows|
         && forall i :: 0 <= i < |rows| ==> out.value[i] == DealModel.New(rows[i], now))
  {
    match answer
    case Threw(e) => Threw(e)
    case Returned(resp) =>
      if resp.error.Some? then Threw(resp.error.value)
      else
        match resp.data
        case NoData => Returned([])
        case NotArray => Threw(MapNotAFunction)
        case Rows(rows) => Returned(seq(|rows|, i requires 0 <= i < |rows| => DealModel.New(rows[i], now)))
  }

  // ---------------------------------------------------------------------------
  // Single-deal operations

  const ValidationMessage: string := "Validation failed: Deal data is incomplete."
  const NoFieldsMessage: string := "No valid fields provided for update."

  /**
   * `createDeal(dealData)`: the Deal is validated before anything is sent;
   * a valid one is inserted as its JSON projection.
   */
  function CreateDeal(dealData: Row, answer: Outcome<SingleResponse>, now: Timestamp, formatNumber: real -> string)
    : (out: Fetch<Option<DealModel.Deal>>)
    ensures var deal := DealModel.New(dealData, now);
      !Truthy(DealModel.IsValid(deal)) <==> out.calls == []
    ensures out.calls == [] ==> out.result == Threw(Error(ValidationMessage, None))
    ensures out.calls != [] ==>
      var deal := DealModel.New(dealData, now);
      && out.calls == [InsertRows("Deals", [DealModel.ToJson(deal)])]
      && (out.result.Threw? <==> answer.Threw? || answer.value.error.Some?)
      && (out.result.Threw? ==>
            var e := if answer.Threw? then answer.error else answer.value.error.value;
            out.result.error == if e.code == Some(ForeignKeyViolation)
              then Error("Cannot create deal: Restaurant with ID " + Display(deal.restaurant_id, formatNumber) + " does not exist.", None)
              else Error("Database error creating deal: " + e.message, None))
      && (out.result.Returned? ==>
            out.result.value == if answer.value.data.Some? then Some(DealModel.New(answer.value.data.value, now)) else None)
  {
    var deal := DealModel.New(dealData, now);
    if !Truthy(DealModel.IsValid(deal)) then Fetch(Threw(Error(ValidationMessage, None)), [])
    else
      var calls := [InsertRows("Deals", [DealModel.ToJson(deal)])];
      var caught := (e: Error) =>
        if e.code == Some(ForeignKeyViolation)
        then Error("Cannot create deal: Restaurant with ID " + Display(deal.restaurant_id, formatNumber) + " does not exist.", None)
        else Error("Database error creating deal: " + e.message, None);
      match answer
      case Threw(e) => Fetch(Threw(caught(e)), calls)
      case Returned(resp) =>
        if resp.error.Some? then Fetch(Threw(caught(resp.error.value)), calls)
        else if resp.data.None? then Fetch(Returned(None), calls)
        else Fetch(Returned(Some(DealModel.New(resp.data.value, now))), calls)
  }

  /** The validation message does not contain "validation" (lower case), so the admin handler answers it with 500. */
  lemma ValidationMessageIsCapitalised()
    ensures !Includes(ValidationMessage, "validation")
  {
    assert 'v' !in ValidationMessage;
    if Includes(ValidationMessage, "validation") {
      IncludesChar(ValidationMessage, "validation", 0);
    }
  }

  /** The validation message begins with the capitalised word. */
  lemma ValidationMessageBegins()
    ensures ValidationMessage[..10] == "Validation"
  {
    assert forall i :: 0 <= i < 10 ==> ValidationMessage[i] == "Validation"[i];
  }

  /** `findDealById(id)`: `null` when nothing matched; failures wrapped. */
  function FindDealById(answer: Outcome<SingleResponse>, now: Timestamp): (out: Outcome<Option<DealModel.Deal>>)
    ensures out.Threw? <==> answer.Threw? || answer.value.error.Some?
    ensures out.Threw? ==>
      var e := if answer.Threw? then answer.error else answer.value.error.value;
      out.error == Error("Database error finding deal: " + e.message, None)
    ensures out.Returned? ==> (out.value.None? <==> answer.value.data.None?)
    ensures out.Returned? && out.value.Some? ==> out.value.value == DealModel.New(answer.value.data.value, now)
  {
    match answer
    case Threw(e) => Threw(Error("Database error finding deal: " + e.message, None))
    case Returned(resp) =>
      if resp.error.Some? then Threw(Error("Database error finding deal: " + resp.error.value.message, None))
      else if resp.data.None? then Returned(None)
      else Returned(Some(DealModel.New(resp.data.value, now)))
  }

  /** The error `updateDeal`'s catch throws; the foreign-key message shows the body's `restaurant_id`. */
  function UpdateDealError(rest: Row, e: Error, formatNumber: real -> string): (r: Error)
    ensures r.code == None
    ensures e.code == Some(ForeignKeyViolation) ==>
      r.message == "Cannot update deal: Restaurant with ID " + Display(Get(rest, "restaurant_id"), formatNumber) + " does not exist."
    ensures e.code != Some(ForeignKeyViolation) ==> r.message == "Database error updating deal: " + e.message
  {
    if e.code == Some(ForeignKeyViolation)
    then Error("Cannot update deal: Restaurant with ID " + Display(Get(rest, "restaurant_id"), formatNumber) + " does not exist.", None)
    else Error("Database error updating deal: " + e.message, None)
  }

  /** `updateDeal(id, updateData)` as a function of the body it was given and of the store's answer. */
  function UpdateDealOutcome(
    id: string, fields: Row, answer: Outcome<SingleResponse>, now: Timestamp, formatNumber: real -> string)
    : Fetch<Option<DealModel.Deal>>
  {
    var rest := fields - {"id", "created_at"};
    if |rest| == 0 then Fetch(Threw(Error(NoFieldsMessage, None)), [])
    else
      var calls := [UpdateRow("Deals", id, rest)];
      match answer
      case Threw(e) => Fetch(Threw(UpdateDealError(rest, e, formatNumber)), calls)
      case Returned(resp) =>
        if resp.error.Some? then Fetch(Threw(UpdateDealError(rest, resp.error.value, formatNumber)), calls)
        else if resp.data.None? then Fetch(Returned(None), calls)
        else Fetch(Returned(Some(DealModel.New(resp.data.value, now))), calls)
  }

  /** `updateDeal` as the source runs it: the two deletes edit the caller's body first. */
  method UpdateDeal(
    id: string, updateData: Body, answer: Outcome<SingleResponse>, now: Timestamp, formatNumber: real -> string)
    returns (result: Outcome<Option<DealModel.Deal>>, calls: seq<Call>)
    modifies updateData
    ensures updateData.fields == old(updateData.fields) - {"id", "created_at"}
    ensures Fetch(result, calls) == UpdateDealOutcome(id, old(updateData.fields), answer, now, formatNumber)
  {
    updateData.fields := updateData.fields - {"id"};
    updateData.fields := updateData.fields - {"created_at"};
    assert updateData.fields == old(updateData.fields) - {"id", "created_at"};
    var rest := updateData.fields;
    if |rest| == 0 {
      return Threw(Error(NoFieldsMessage, None)), [];
    }
    calls := [UpdateRow("Deals", id, rest)];
    match answer {
      case Threw(e) =>
        result := Threw(UpdateDealError(rest, e, formatNumber));
      case Returned(resp) =>
        if resp.error.Some? {
          result := Threw(UpdateDealError(rest, resp.error.value, formatNumber));
        } else if resp.data.None? {
          result := Returned(None);
        } else {
          result := Returned(Some(DealModel.New(resp.data.value, now)));
        }
    }
  }

  /**
   * An update sends exactly the body's other fields; a body holding only
   * `id` and `created_at` is refused before any call.
   */
  lemma UpdateDealSends(id: string, fields: Row, answer: Outcome<SingleResponse>, now: Timestamp, formatNumber: real -> string)
    ensures var out := UpdateDealOutcome(id, fields, answer, now, formatNumber);
      && (fields.Keys <= {"id", "created_at"} <==> out.calls == [])
      && (out.calls == [] ==> out.result == Threw(Error(NoFieldsMessage, None)))
      && (out.calls != [] ==>
            out.calls == [UpdateRow("Deals", id, fields - {"id", "created_at"})]
            && "id" !in out.calls[0].fields && "created_at" !in out.calls[0].fields
            && forall k :: k in fields && k !in {"id", "created_at"} ==> out.calls[0].fields[k] == fields[k])
  {
    var rest := fields - {"id", "created_at"};
    if fields.Keys <= {"id", "created_at"} {
      assert rest.Keys == {};
    } else {
      var k :| k in fields && k !in {"id", "created_at"};
      assert k in rest;
    }
  }

  /**
   * A foreign-key failure on an update that does not set `restaurant_id`
   * names the restaurant `undefined`.
   */
  lemma UpdateDealUnknownRestaurant(id: string, fields: Row, e: Error, now: Timestamp, formatNumber: real -> string)
    requires "restaurant_id" !in fields
    requires exists k :: k in fields && k !in {"id", "created_at"}
    requires e.code == Some(ForeignKeyViolation)
    ensures UpdateDealOutcome(id, fields, Threw(e), now, formatNumber).result
      == Threw(Error("Cannot update deal: Restaurant with ID " + "undefined" + " does not exist.", None))
  {
    var rest := fields - {"id", "created_at"};
    var k :| k in fields && k !in {"id", "created_at"};
    assert k in rest;
    assert |rest| != 0;
    assert Get(rest, "restaurant_id") == Undefined;
    assert Display(Undefined, formatNumber) == "undefined";
  }

  /** `deleteDeal(id)`: true exactly when the store reports a positive count; failures wrapped. */
  function DeleteDeal(answer: Outcome<CountResponse>): (out: Outcome<bool>)
    ensures out.Returned? <==> answer.Returned? && answer.value.error.None?
    ensures out.Returned? ==> (out.value <==> answer.value.count.Some? && answer.value.count.value > 0)
    ensures out.Threw? ==>
      var e := if answer.Threw? then answer.error else answer.value.error.value;
      out.error == Error("Database error deleting deal: " + e.message, None)
  {
    match answer
    case Threw(e) => Threw(Error("Database error deleting deal: " + e.message, None))
    case Returned(resp) =>
      if resp.error.Some? then Threw(Error("Database error deleting deal: " + resp.error.value.message, None))
      else Returned(resp.count.Some? && resp.count.value > 0)
  }
}
