/**
 * The restaurant-category handlers (src/controllers/RestaurantCategoryController.js):
 * the service result is sent as it is, and an error is mapped to 504 or 500
 * by looking for "timeout" in its message.
 */
module CategoryController {
  import opened Js
  import opened Text
  import opened Store
  import opened Http
  import CategoryModel
  import CategoryService

  /** The list handler's reply to the service's outcome. */
  function ListCategories(result: Outcome<seq<CategoryModel.RestaurantCategory>>)
    : (reply: Reply<seq<CategoryModel.RestaurantCategory>>)
    ensures result.Returned? ==> reply == Json(200, result.value)
    ensures result.Threw? ==> reply.Problem? && reply.body.message == result.error.message
    ensures result.Threw? ==>
      (reply.status == 504 <==> Includes(result.error.message, "timeout"))
      && (reply.status == 504 || reply.status == 500)
    ensures result.Threw? && reply.status == 504 ==> reply.body.error == "Request timed out. Please try again later."
    ensures result.Threw? && reply.status == 500 ==> reply.body.error == "Internal server error"
  {
    match result
    case Returned(categories) => Json(200, categories)
    case Threw(e) =>
      if Includes(e.message, "timeout")
      then Problem(504, ErrorBody("Request timed out. Please try again later.", e.message, None))
      else Problem(500, ErrorBody("Internal server error", e.message, None))
  }

  /** The by-id handler's reply to the service's outcome. */
  function GetCategoryById(result: Outcome<CategoryModel.RestaurantCategory>)
    : (reply: Reply<CategoryModel.RestaurantCategory>)
    ensures result.Returned? ==> reply == Json(200, result.value)
    ensures result.Threw? ==> reply.Problem? && reply.body.message == result.error.message
    ensures result.Threw? ==>
      if Includes(result.error.message, "timeout")
      then reply.status == 504 && reply.body.error == "Gateway Timeout"
      else reply.status == 500 && reply.body.error == "Internal Server Error"
  {
    match result
    case Returned(category) => Json(200, category)
    case Threw(e) =>
      if Includes(e.message, "timeout")
      then Problem(504, ErrorBody("Gateway Timeout", e.message, None))
      else Problem(500, ErrorBody("Internal Server Error", e.message, None))
  }

  /**
   * As written, a database timeout on the listing is answered with 500: the
   * service rewords it to "timed out", and the handler looks for "timeout".
   */
  lemma ListTimeoutAnsweredWith500(now: Timestamp)
    ensures ListCategories(CategoryService.GetAllRestaurantCategories(Threw(QueryTimeout), now))
      == Problem(500, ErrorBody("Internal server error", CategoryService.TimedOutMessage, None))
  {
    CategoryService.CategoryQueryTimeout(now);
    CategoryService.TimedOutMessageLacksTimeout();
  }

  /** A message that reports a timeout in either wording. */
  predicate ReportsTimeout(message: string)
  {
    Includes(message, "timeout") || Includes(message, "timed out")
  }

  /** The list handler as evidently intended: the service's own timeout wording also gives 504. */
  function ListCategoriesIntended(result: Outcome<seq<CategoryModel.RestaurantCategory>>)
    : (reply: Reply<seq<CategoryModel.RestaurantCategory>>)
    ensures result.Returned? ==> reply == Json(200, result.value)
    ensures result.Threw? ==> reply.Problem? && reply.body.message == result.error.message
    ensures result.Threw? ==> (reply.status == 504 <==> ReportsTimeout(result.error.message))
  {
    match result
    case Returned(categories) => Json(200, categories)
    case Threw(e) =>
      if ReportsTimeout(e.message)
      then Problem(504, ErrorBody("Request timed out. Please try again later.", e.message, None))
      else Problem(500, ErrorBody("Internal server error", e.message, None))
  }

  /** With the intended check, every timeout the listing can report is answered with 504. */
  lemma ListTimeoutIntended(answer: Outcome<ListResponse>, now: Timestamp)
    requires answer == Threw(QueryTimeout)
      || (answer.Returned? && answer.value.error.Some? && Includes(answer.value.error.value.message, "timeout"))
    ensures StatusOf(ListCategoriesIntended(CategoryService.GetAllRestaurantCategories(answer, now))) == 504
  {
    QueryTimeoutMentionsTimeout();
    CategoryService.TimedOutMessageSaysTimedOut();
  }
}
