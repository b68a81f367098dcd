/**
 * The restaurant-category service (src/services/restaurantCategoryService.js):
 * the listing with its timeout rewording, and the lookup by id.
 */
module CategoryService {
  import opened Js
  import opened Text
  import opened Store
  import CategoryModel

  /** The words of the listing's timeout message. */
  const TimedOutWords: seq<string> :=
    ["Restaurant", "category", "data", "fetch", "timed", "out.", "Please", "try", "again", "later."]

  /** "Restaurant category data fetch timed out. Please try again later." */
  const TimedOutMessage: string := Join(TimedOutWords, ' ')

  /** The listing's catch: a message mentioning "timeout" is reworded, anything else is rethrown. */
  function Caught(e: Error): (r: Error)
    ensures Includes(e.message, "timeout") ==> r == Error(TimedOutMessage, None)
    ensures !Includes(e.message, "timeout") ==> r == e
  {
    if Includes(e.message, "timeout") then Error(TimedOutMessage, None) else e
  }

  /** `getAllRestaurantCategories()`, given what the store (or the 8-second timer) answered. */
  function GetAllRestaurantCategories(answer: Outcome<ListResponse>, now: Timestamp)
    : (out: Outcome<seq<CategoryModel.RestaurantCategory>>)
    ensures answer.Threw? ==> out == Threw(Caught(answer.error))
    ensures answer.Returned? && answer.value.error.Some? ==> out == Threw(Caught(answer.value.error.value))
    ensures answer.Returned? && answer.value.error.None? ==>
      out.Returned?
      && if answer.value.data.Rows? then
           |out.value| == |answer.value.data.rows|
           && forall i :: 0 <= i < |out.value| ==>
                out.value[i] == CategoryModel.New(answer.value.data.rows[i], now)
         else out.value == []
  {
    match answer
    case Threw(e) => Threw(Caught(e))
    case Returned(resp) =>
      if resp.error.Some? then Threw(Caught(resp.error.value))
      else
        match resp.data
        case Rows(rows) => Returned(seq(|rows|, i requires 0 <= i < |rows| => CategoryModel.New(rows[i], now)))
        case _ => Returned([])
  }

  /** The reworded message says "timed out": it no longer contains "timeout"... */
  lemma TimedOutMessageLacksTimeout()
    ensures !Includes(TimedOutMessage, "timeout")
  {
    NotIncludesJoin(TimedOutWords, ' ', "timeout", 'i');
  }

  /** ...but it does contain "timed out". */
  lemma TimedOutMessageSaysTimedOut()
    ensures Includes(TimedOutMessage, "timed out")
  {
    var pair := TimedOutWords[4] + [' '] + TimedOutWords[5];
    JoinContainsPair(TimedOutWords, ' ', 4);
    assert pair[..9] == "timed out";
    IncludesAt(pair, "timed out", 0);
    IncludesTransitive(TimedOutMessage, pair, "timed out");
  }

  /** The rewording happens once: a reworded error passes through the catch unchanged. */
  lemma CaughtIdempotent(e: Error)
    ensures Caught(Caught(e)) == Caught(e)
  {
    TimedOutMessageLacksTimeout();
  }

  /** When the timer wins the race, the listing throws the reworded message. */
  lemma CategoryQueryTimeout(now: Timestamp)
    ensures GetAllRestaurantCategories(Threw(QueryTimeout), now) == Threw(Error(TimedOutMessage, None))
  {
    QueryTimeoutMentionsTimeout();
  }

  /**
   * `getRestaurantCategoryById(id)`: no catch, so a store error or rejection
   * propagates unchanged; `null` data makes the constructor throw.
   */
  function GetRestaurantCategoryById(answer: Outcome<SingleResponse>, now: Timestamp)
    : (out: Outcome<CategoryModel.RestaurantCategory>)
    ensures answer.Threw? ==> out == Threw(answer.error)
    ensures answer.Returned? && answer.value.error.Some? ==> out == Threw(answer.value.error.value)
    ensures answer.Returned? && answer.value.error.None? && answer.value.data.None? ==>
      out == Threw(ReadError(Null, "id"))
    ensures answer.Returned? && answer.value.error.None? && answer.value.data.Some? ==>
      out == Returned(CategoryModel.New(answer.value.data.value, now))
  {
    match answer
    case Threw(e) => Threw(e)
    case Returned(resp) =>
      if resp.error.Some? then Threw(resp.error.value)
      else if resp.data.None? then Threw(ReadError(Null, "id"))
      else Returned(CategoryModel.New(resp.data.value, now))
  }
}
