/**
 * The public restaurant listing handler (src/controllers/RestaurantController.js):
 * the optional reference point taken from the query string, the race of the
 * service against the handler's own 20-second timer, and the error-to-status
 * mapping.
 */
module RestaurantController {
  import opened Js
  import opened Text
  import opened Store
  import opened Http
  import RestaurantService

  /** Both coordinates parsed and inside the inclusive ranges. */
  predicate InRange(lat: real, lon: real)
  {
    -90.0 <= lat <= 90.0 && -180.0 <= lon <= 180.0
  }

  /**
   * The coordinates handed to the service: both parsed and in range, or both
   * `null`.  A missing, unparsable or out-of-range value is ignored without error.
   */
  function Location(userLat: Option<string>, userLon: Option<string>, parseFloat: string -> Parsed<real>)
    : (loc: (Value, Value))
    ensures loc == (Null, Null) || (loc.0.Num? && loc.1.Num? && InRange(loc.0.n, loc.1.n))
    ensures loc.0.Num? <==>
      && userLat.Some? && userLon.Some?
      && parseFloat(userLat.value).Number? && parseFloat(userLon.value).Number?
      && InRange(parseFloat(userLat.value).value, parseFloat(userLon.value).value)
    ensures loc.0.Num? ==>
      loc == (Num(parseFloat(userLat.value).value), Num(parseFloat(userLon.value).value))
  {
    if userLat.None? || userLon.None? then (Null, Null)
    else
      var parsedLat := parseFloat(userLat.value);
      var parsedLon := parseFloat(userLon.value);
      if parsedLat.NotANumber? || parsedLon.NotANumber? then (Null, Null)
      else if parsedLat.value < -90.0 || parsedLat.value > 90.0
           || parsedLon.value < -180.0 || parsedLon.value > 180.0 then (Null, Null)
      else (Num(parsedLat.value), Num(parsedLon.value))
  }

  /**
   * The service selects a distance column exactly when both query values were
   * given, parsed and in range, and that column is computed from the parsed values.
   */
  lemma LocationDecidesDistance(userLat: Option<string>, userLon: Option<string>, parseFloat: string -> Parsed<real>)
    ensures var loc := Location(userLat, userLon, parseFloat);
      var cols := RestaurantService.SelectQuery(loc.0, loc.1);
      && ((exists k :: 0 <= k < |cols| && cols[k].DistanceKm?) <==>
            && userLat.Some? && userLon.Some?
            && parseFloat(userLat.value).Number? && parseFloat(userLon.value).Number?
            && InRange(parseFloat(userLat.value).value, parseFloat(userLon.value).value))
      && ((exists k :: 0 <= k < |cols| && cols[k].DistanceKm?) ==>
            cols[|cols| - 1] == RestaurantService.DistanceKm(parseFloat(userLat.value).value, parseFloat(userLon.value).value))
  {
  }

  /** The error the handler's own timer rejects with. */
  const ControllerTimeout: Error := Error("Controller timeout", None)

  const TookTooLongMessage: string := "The request took too long to process. Please try again later."
  const NotInTimeMessage: string := "Could not retrieve restaurant data in time. Please try again later."
  const InternalMessage: string := "Internal server error occurred while fetching restaurants."

  /** The handler's reply to the outcome of the race. */
  function ListReply(result: Outcome<seq<Row>>): (reply: Reply<seq<Row>>)
    ensures result.Returned? ==> reply == Json(200, result.value)
    ensures result.Threw? ==>
      reply.Problem? && reply.body.error == "Error" && reply.body.details == Some(result.error.message)
    ensures result.Threw? ==>
      var m := result.error.message;
      if Includes(m, "Controller timeout") then reply.status == 504 && reply.body.message == TookTooLongMessage
      else if Includes(m, "timed out") then reply.status == 504 && reply.body.message == NotInTimeMessage
      else reply.status == 500 && reply.body.message == InternalMessage
  {
    match result
    case Returned(rows) => Json(200, rows)
    case Threw(e) =>
      var (status, message) :=
        if Includes(e.message, "Controller timeout") then (504, TookTooLongMessage)
        else if Includes(e.message, "timed out") then (504, NotInTimeMessage)
        else (500, InternalMessage);
      Problem(status, ErrorBody("Error", message, Some(e.message)))
  }

  /** A run of the handler: the reply and the select list the service was given. */
  datatype Run = Run(reply: Reply<seq<Row>>, select: seq<RestaurantService.Column>)

  /**
   * `getAllRestaurants(request, reply)`: `timerFirst` says whether the
   * handler's 20-second timer settles before the service does.
   */
  function GetAllRestaurants(
    userLat: Option<string>, userLon: Option<string>, parseFloat: string -> Parsed<real>,
    answer: Outcome<ListResponse>, timerFirst: bool, now: Timestamp): (run: Run)
    ensures var loc := Location(userLat, userLon, parseFloat);
      run.select == RestaurantService.SelectQuery(loc.0, loc.1)
    ensures timerFirst ==> run.reply == ListReply(Threw(ControllerTimeout))
    ensures !timerFirst ==> run.reply == ListReply(RestaurantService.GetAllRestaurants(answer, now))
  {
    var loc := Location(userLat, userLon, parseFloat);
    var outcome := if timerFirst then Threw(ControllerTimeout) else RestaurantService.GetAllRestaurants(answer, now);
    Run(ListReply(outcome), RestaurantService.SelectQuery(loc.0, loc.1))
  }

  /** The service's timeout message, reworded or not, is answered with 504 "Could not retrieve…". */
  lemma DatabaseTimeoutAnsweredWith504(
    userLat: Option<string>, userLon: Option<string>, parseFloat: string -> Parsed<real>, now: Timestamp)
    ensures GetAllRestaurants(userLat, userLon, parseFloat, Threw(QueryTimeout), false, now).reply
      == Problem(504, ErrorBody("Error", NotInTimeMessage, Some(RestaurantService.FetchTimedOutMessage)))
  {
    QueryTimeoutMentionsTimeout();
    RestaurantService.FetchTimedOutFacts();
  }

  /** The handler's own timer is answered with 504 "took too long". */
  lemma ControllerTimeoutAnsweredWith504(
    userLat: Option<string>, userLon: Option<string>, parseFloat: string -> Parsed<real>,
    answer: Outcome<ListResponse>, now: Timestamp)
    ensures GetAllRestaurants(userLat, userLon, parseFloat, answer, true, now).reply
      == Problem(504, ErrorBody("Error", TookTooLongMessage, Some("Controller timeout")))
  {
    IncludesAt(ControllerTimeout.message, "Controller timeout", 0);
  }
}
