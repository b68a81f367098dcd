# pronto-server core, modelled in Dafny

This project models the decision logic of pronto-server's restaurant-deals
API. The server keeps a catalogue of restaurants, their categories and their
promotional deals in a remote Supabase (Postgres) store. It gives the public
read endpoints and an admin surface for bulk loading and curating the
catalogue. The model covers these parts:

- **Record models** (`RestaurantModel`, `DealModel`, `CategoryModel`). Each
  constructor fills its fields with JavaScript `||` defaulting. Each model
  also has `isValid` and `toJSON`.
- **Services** (`RestaurantService`, `DealService`, `CategoryService`). They
  build queries, map store results onto records, rewrite error messages and
  map foreign-key violations.
- **Controllers** (`RestaurantController`, `CategoryController`,
  `UserController`, `AdminController`). They parse and range-check the
  location, choose HTTP statuses by substring tests on error messages, run
  the CSV/JSON bulk-ingestion loop, and group categories for the admin
  listing.
- **Role gate** (`Auth`). It covers `getUserAppRole` and `verifyAdmin`:
  - the `Bearer ` prefix of section 2.1 of RFC 6750, checked case-sensitively;
  - the `sub` claim of section 4.1.2 of RFC 7519;
  - the role lookup;
  - the write to `request.user`.

The JavaScript values the code handles are modelled by `Js.Value`. It
distinguishes `undefined`, `null`, booleans, numbers, `NaN`, strings, arrays
and objects, and comes with JavaScript truthiness and the `||`/`&&` operators.
A thrown exception is `Js.Outcome.Threw(error)`. An error has a `message` and
an optional Postgres `code`.

Inputs from outside the code are parameters of the modelled operations:

- every answer of the remote store: a response `{data, error, count}`, or
  `Threw` when the query throws or its timer fires first;
- the clock, as `now`;
- `jwt.decode`, `parseFloat` and JavaScript number formatting, as functions.

`parseInt` on a decimal string is modelled in full (`Text.ParseInt`). That
string is a restaurant id or a CSV `reviews_count` cell.

The operations that change state in place are methods:

- `updateRestaurant` and `updateDeal` delete keys from the caller's object
  (`Js.Body`);
- `verifyAdmin` writes `request.user` (`Auth.Request`);
- the bulk-upload loop accumulates its counter, errors and batch;
- the listing loop fills the category dictionary;
- the query builder grows the select string.

Each method is proved equal to a specification function. The properties are
proved about those functions.

The model follows what the code does, including these behaviours a reader
might not expect:

- The average rating is copied as given; it is neither halved nor rounded.
- The JSON upload path inserts array elements without per-row validation.
  A `null` element makes `bulkInsertRestaurants` throw at its projection,
  which lies outside its `try`, so the upload answers 500
  (`AdminController.JsonNullElement`).
- A category-list timeout is answered with 500, not with a gateway timeout.
- A token whose subject has no profile is answered with 500 by
  `verifyAdmin`, not with 403.
- A delete whose count the store does not report counts as "not deleted".
- The computed distance never reaches the client.

## Model

| member | source | states |
|---|---|---|
| Js.Or | src/models/Restaurant.js:4-12 | `a \|\| b` is `a` when `a` is truthy and `b` otherwise |
| Js.And | src/models/Restaurant.js:17 | `a && b` is truthy iff both operands are |
| Text.Split | src/middleware/auth.js:52 | `split(' ')` gives at least one part; no part contains the separator; joining the parts with it gives the input back |
| Text.ParseIntOfDigits | src/controllers/adminController.js:51 | `parseInt` of a run of digits followed by a non-digit is the value of the run |
| Text.ParseIntOfNatToString | src/services/dealService.js:9-13 | parsing the decimal digits of `n`, followed by anything that is not a digit, gives back `n` |
| Text.DisplayedIdParses | src/services/dealService.js:12 | a non-negative integer written into a message by a template literal parses back to itself |
| Store.QueryTimeoutMentionsTimeout | src/services/restaurantService.js:53-55 | the 8-second timer's rejection message contains `timeout` |
| RestaurantModel.New | src/models/Restaurant.js:3-13 | each field is the input when truthy, else `null` (or 0 for `reviews_count` and `average_rating`); `created_at` falls back to the clock; `distance` is unset |
| RestaurantModel.IsValid | src/models/Restaurant.js:16-18 | truthy iff `name` and `address` are both truthy |
| RestaurantModel.ToJson | src/models/Restaurant.js:21-31 | exactly the eight public keys; no `created_at`, no `distance` |
| RestaurantModel.NewIsValid | src/models/Restaurant.js:3-18 | a record built from `data` is valid iff `data.name` and `data.address` are truthy |
| RestaurantModel.NewDefaults | src/models/Restaurant.js:4-12 | each projected field is the input value when truthy, else its default (`null` or 0, not rounded or scaled) |
| RestaurantModel.NewIgnoresOtherKeys | src/models/Restaurant.js:3-13 | `latitude`, `longitude`, `distance` and any other key do not affect the record |
| RestaurantModel.ToJsonIgnoresClock | src/models/Restaurant.js:5-31 | the projection does not depend on the clock |
| RestaurantModel.JsonRoundTrip | src/models/Restaurant.js:3-31 | rebuilding a record from its projection gives the same projection |
| DealModel.New | src/models/Deal.js:3-11 | each field is the input when truthy, else `null`; `created_at` falls back to the clock |
| DealModel.IsValid | src/models/Deal.js:14-16 | truthy iff all five non-id fields are truthy |
| DealModel.ToJson | src/models/Deal.js:19-29 | exactly seven keys, including `created_at` |
| DealModel.NewDefaults | src/models/Deal.js:4-10 | each nullable field of the projection is the input when truthy, else `null` |
| DealModel.NewIsValid | src/models/Deal.js:3-16 | a deal built from `data` is valid iff those five input fields are truthy, so a price of 0 or `''` is invalid |
| DealModel.JsonRoundTrip | src/models/Deal.js:3-29 | rebuilding a deal from its projection gives the same projection |
| CategoryModel.New | src/models/RestaurantCategory.js:3-8 | `id`, `restaurant_id` and `category_name` are each the input when truthy and `null` otherwise; `created_at` falls back to the clock |
| CategoryModel.NewDefaults | src/models/RestaurantCategory.js:4-7 | each of `id`, `restaurant_id`, `category_name` in the projection is the truthy input or `null` |
| CategoryModel.NewIsValid | src/models/RestaurantCategory.js:11-13 | a constructed category is valid iff its input has a truthy `restaurant_id` and `category_name` |
| CategoryModel.IsValid | src/models/RestaurantCategory.js:11-13 | truthy iff `restaurant_id` and `category_name` are truthy |
| CategoryModel.ToJson | src/models/RestaurantCategory.js:16-23 | exactly four keys |
| CategoryModel.JsonRoundTrip | src/models/RestaurantCategory.js:3-23 | rebuilding from the projection gives the same projection |
| RestaurantService.SelectQuery | src/services/restaurantService.js:14-46 | exactly the base columns, plus one distance column when the coordinates are valid; a distance column is present iff both coordinates are numbers (not NaN), and then it is last and uses them |
| RestaurantService.BuildSelectQuery | src/services/restaurantService.js:14-46 | the string grown with `+=` is that query |
| RestaurantService.ClassifyFetchError | src/services/restaurantService.js:108-123 | checked in order: `timeout` gives the timed-out message; otherwise `acos` gives the location message; otherwise the message is prefixed with "Failed to retrieve restaurants: " |
| RestaurantService.FromRow | src/services/restaurantService.js:88-105 | the record is `new Restaurant(dto)`; its `distance` is `null` iff the row's distance is nullish |
| RestaurantService.ProjectRows | src/services/restaurantService.js:88-106 | same length and order as the rows; each element is the record's projection |
| RestaurantService.GetAllRestaurants | src/services/restaurantService.js:12-124 | a store error or exception is thrown again, classified; null or non-array data gives `[]`; otherwise the rows are projected |
| RestaurantService.DistanceDropped | src/services/restaurantService.js:88-105 | the distance set on each record never appears in its output |
| RestaurantService.ListedJson | src/services/restaurantService.js:88-105 | the intended output keeps the eight keys and adds `distance`, which is `null` iff none was returned |
| RestaurantService.DistanceRequestedAndReturned | src/services/restaurantService.js:29-105 | with valid coordinates the query asks for the distance, and the intended output returns it |
| RestaurantService.FetchTimedOutFacts | src/services/restaurantService.js:114 | the rewritten timeout message says `timed out` and does not say `Controller timeout` |
| RestaurantService.ClassifiedMessages | src/services/restaurantService.js:113-122 | every classified message is the timed-out message, the location message, or starts with "Failed to retrieve restaurants: " |
| RestaurantService.Projections | src/services/restaurantService.js:133 | the projection succeeds iff no element is nullish; it throws reading `id` at the first nullish one |
| RestaurantService.BulkInsertRestaurants | src/services/restaurantService.js:126-162 | non-array or empty input gives count 0 with an error and no insert; otherwise it throws iff some element is nullish, and when it resolves it has sent the projection of every element, in order; a store throw or error gives count 0 with that error; on success the count is the data length, else the store's count, else 0 |
| RestaurantService.CreateRestaurant | src/services/restaurantService.js:164-181 | it throws iff the store errs or throws, with "Database error creating restaurant: " + the message; otherwise missing data gives `null` and a returned row is rebuilt as `new Restaurant(data)` |
| RestaurantService.CreatePayload | src/services/restaurantService.js:166-168 | the inserted row has exactly the eight projection keys |
| RestaurantService.FindRestaurantById | src/services/restaurantService.js:183-197 | it throws iff the store errs or throws, with "Database error finding restaurant: " + the message; missing data gives `null`; a found row is rebuilt as `new Restaurant(data)` |
| RestaurantService.Stripped | src/services/restaurantService.js:202-209 | `id` and `created_at` are removed, and `categories` exactly when its value is not `undefined`; every other key keeps its value |
| RestaurantService.StripBody | src/services/restaurantService.js:202-209 | the caller's object loses exactly those keys; the old `categories` value is returned |
| RestaurantService.UpdateRestaurant | src/services/restaurantService.js:199-255 | the caller's object is stripped; the result and the store calls are those of the update specification |
| RestaurantService.TryUpdate | src/services/restaurantService.js:216-254 | the body of the `try` settles as the specification says |
| RestaurantService.UpdateNothingToDo | src/services/restaurantService.js:211-213 | with no fields left and no `categories`, "No valid fields provided for update." is thrown unwrapped, before any store call |
| RestaurantService.UpdateCalls | src/services/restaurantService.js:216-245 | the scalar fields are updated when any remain; otherwise the row is only fetched |
| RestaurantService.SettleCalls | src/services/restaurantService.js:230-250 | categories are replaced only when the key was present and the row was found |
| RestaurantService.UpdateNotFound | src/services/restaurantService.js:238-250 | missing data gives `null` and no category replacement |
| RestaurantService.CategoriesUpdateAsWritten | src/services/restaurantService.js:246-253 | because the replace function is undefined, an update carrying `categories` throws a wrapped error after the row was already written |
| RestaurantService.CategoriesUpdateIntended | src/services/restaurantService.js:246-250 | with a replace function that succeeds, the same update returns the record |
| RestaurantService.DeleteError | src/services/restaurantService.js:270-280 | code `23503` gives the "still has associated deals or categories" message; other errors are prefixed with "Database error deleting restaurant: " |
| RestaurantService.DeleteRestaurant | src/services/restaurantService.js:257-281 | true iff the reported count is above 0; errors are mapped by the delete error |
| DealService.GetDealsByRestaurantId | src/services/dealService.js:7-67 | an id that parses to NaN or to 0 or less throws "Invalid Restaurant ID format: …" with no query; otherwise one query on the parsed id; null or non-array data gives `[]`; a `timeout` message is rewritten with the id; other errors are thrown again unchanged |
| DealService.CanonicalIdQueried | src/services/dealService.js:9-26 | the decimal id `n` queries `restaurant_id = n` |
| DealService.DealsQueryTimeout | src/services/dealService.js:58-66 | a timeout becomes "Deal data fetch timed out for restaurant N." |
| DealService.RejectedIds | src/services/dealService.js:9-13 | the id "0" is rejected before any query |
| DealService.ListAllDeals | src/services/dealService.js:69-86 | store errors are thrown again; null data gives `[]`; rows become deals in order |
| DealService.CreateDeal | src/services/dealService.js:88-110 | an invalid deal throws the validation message with no insert; otherwise one insert of the projection; `23503` names the restaurant; other errors are wrapped |
| DealService.ValidationMessageIsCapitalised | src/services/dealService.js:92 | the validation message does not contain lowercase `validation` |
| DealService.ValidationMessageBegins | src/services/dealService.js:92 | the validation message starts with `Validation` |
| DealService.FindDealById | src/services/dealService.js:112-126 | it throws iff the store errs or throws; null data gives `null`; otherwise a deal |
| DealService.UpdateDealError | src/services/dealService.js:149-154 | `23503` gives "Restaurant with ID … does not exist"; other errors are prefixed with "Database error updating deal: " |
| DealService.UpdateDeal | src/services/dealService.js:128-156 | the caller's object loses `id` and `created_at`; the result and the calls are those of the specification |
| DealService.UpdateDealSends | src/services/dealService.js:130-148 | with no fields left, "No valid fields provided for update." is thrown with no call; otherwise one update of the remaining fields; missing data gives `null` |
| DealService.UpdateDealUnknownRestaurant | src/services/dealService.js:151-152 | without a `restaurant_id` in the update, the foreign-key message names an undefined id |
| DealService.DeleteDeal | src/services/dealService.js:158-175 | true iff the reported count is above 0 |
| RestaurantController.Location | src/controllers/RestaurantController.js:18-54 | both coordinates are `null`, or both are parsed and inside the inclusive ranges [-90, 90] and [-180, 180]; a missing, NaN or out-of-range value drops both |
| RestaurantController.LocationDecidesDistance | src/controllers/RestaurantController.js:18-64 | the select list has a distance column iff both query values are given, parse and lie in range; that column is the distance from the parsed point |
| RestaurantController.ListReply | src/controllers/RestaurantController.js:76-98 | `Controller timeout` gives 504 "took too long"; otherwise `timed out` gives 504; otherwise 500; `details` is always the original message |
| RestaurantController.GetAllRestaurants | src/controllers/RestaurantController.js:15-100 | the controller timer winning gives the controller-timeout reply; otherwise the service's outcome is mapped |
| RestaurantController.DatabaseTimeoutAnsweredWith504 | src/controllers/RestaurantController.js:86-89 | a database timeout on this path is answered with 504 |
| RestaurantController.ControllerTimeoutAnsweredWith504 | src/controllers/RestaurantController.js:83-85 | the controller's own timeout is answered with 504 |
| CategoryService.Caught | src/services/restaurantCategoryService.js:38-45 | a `timeout` message is replaced by the timed-out message; any other error is kept unchanged |
| CategoryService.GetAllRestaurantCategories | src/services/restaurantCategoryService.js:6-46 | store errors are thrown again after the rewrite; null or non-array data gives `[]`; otherwise one category per row, in order |
| CategoryService.TimedOutMessageLacksTimeout | src/services/restaurantCategoryService.js:42 | the replacement message does not contain `timeout` |
| CategoryService.TimedOutMessageSaysTimedOut | src/services/restaurantCategoryService.js:42 | the replacement message contains `timed out` |
| CategoryService.CaughtIdempotent | src/services/restaurantCategoryService.js:41-44 | rewriting twice is rewriting once |
| CategoryService.CategoryQueryTimeout | src/services/restaurantCategoryService.js:38-45 | a store timeout surfaces as the timed-out message |
| CategoryService.GetRestaurantCategoryById | src/services/restaurantCategoryService.js:48-61 | a store error is thrown unchanged; otherwise the data becomes a category, and `null` data throws reading `id` |
| CategoryController.ListCategories | src/controllers/RestaurantCategoryController.js:4-29 | a success is returned unchanged; an error gives 504 iff the message contains `timeout`, else 500, with the original message |
| CategoryController.GetCategoryById | src/controllers/RestaurantCategoryController.js:30-41 | 504 "Gateway Timeout" iff the message contains `timeout`, else 500 "Internal Server Error" |
| CategoryController.ListTimeoutAnsweredWith500 | src/controllers/RestaurantCategoryController.js:19 | composed with the service rewrite, a database timeout on the list path is answered with 500 |
| CategoryController.ListCategoriesIntended | src/controllers/RestaurantCategoryController.js:16-27 | the corrected handler gives 504 iff the message reports a timeout in either wording |
| CategoryController.ListTimeoutIntended | src/controllers/RestaurantCategoryController.js:19 | with that correction, a database timeout is answered with 504 |
| Auth.GetUserAppRole | src/middleware/auth.js:6-41 | a falsy id gives `null` without a query; a store error, an exception or a missing role gives `null`; a found profile maps its id, email, role id and role type |
| Auth.Token | src/middleware/auth.js:52 | the token is the second space-separated segment and contains no space |
| Auth.TokenAfterPrefix | src/middleware/auth.js:52 | the token is the text after `Bearer ` up to the next space |
| Auth.TokenOfBearer | src/middleware/auth.js:47-52 | `Bearer ` + a space-free token yields that token |
| Auth.AdminVerdict | src/middleware/auth.js:44-89 | no `Bearer ` header gives 401; a failed decode gives 401 "Invalid token"; a decodable token without a profile gives 500; a profile whose role type is not exactly `Admin` gives 403; the request proceeds iff the role type is exactly `Admin` |
| Auth.MissingProfileIs500 | src/middleware/auth.js:66-69 | for a decodable token the gate answers 500 iff the subject is falsy, the lookup throws or errs, or no user row or no role is found |
| Auth.MissingSubjectIs500 | src/middleware/auth.js:66-69 | a token without `sub` reaches the null dereference and is answered with 500 |
| Auth.IntendedGate | src/middleware/auth.js:47-80 | the corrected gate never answers 500; it answers 403 exactly when the token decodes and the profile is missing or not `Admin`; wherever the original gate does not answer 500, the two agree |
| Auth.NonAdminIs403 | src/middleware/auth.js:68-72 | a profile whose role type is not `Admin` gets 403 |
| Auth.AdmittedUser | src/middleware/auth.js:75-80 | an admitted request carries the auth id, app id, email and role of its profile |
| Auth.VerifyAdmin | src/middleware/auth.js:44-89 | a stopped request keeps no user; an admitted one gets exactly that user |
| UserController.GetMe | src/controllers/userController.js:6-32 | status 200, 401 or 404; 401 iff the header is bad, the decode fails or `sub` is falsy; 200 iff a profile exists, and it is returned as found |
| UserController.AdminSeesOwnProfile | src/controllers/userController.js:28 | any request the admin gate admits gets its profile from `getMe` |
| UserController.SubjectlessToken | src/controllers/userController.js:14-21 | a token without `sub` gets 401 here, but 500 from the admin gate |
| AdminController.Cells | src/controllers/adminController.js:41-44 | a parsed CSV row as values: same keys, each cell a string |
| AdminController.RatingOf | src/controllers/adminController.js:50 | the rating is the parsed number, or 0 when parsing gives NaN or 0 |
| AdminController.CountOf | src/controllers/adminController.js:51 | the review count is `parseInt` of the cell, or 0 when that gives NaN or 0 |
| AdminController.CoordinateOf | src/controllers/adminController.js:52-53 | a coordinate is `null` iff parsing gives NaN or exactly 0; otherwise it is the parsed number |
| AdminController.Coerced | src/controllers/adminController.js:50-53 | all four numeric keys are present afterwards; the other cells are kept |
| AdminController.ZeroCoordinateBecomesNull | src/controllers/adminController.js:52 | a latitude of exactly 0 becomes `null` |
| AdminController.MissingCountIsZero | src/controllers/adminController.js:51 | an absent `reviews_count` becomes 0 |
| AdminController.UndefinedIsNotANumber | src/controllers/adminController.js:51 | `parseInt` of `undefined`, read as text, is NaN |
| AdminController.Clean | src/controllers/adminController.js:56-58 | every key is kept; `''` becomes `null`; other values are unchanged |
| AdminController.PreparedKeys | src/controllers/adminController.js:50-58 | a prepared row has the CSV keys plus the four numeric keys |
| AdminController.NameKept | src/controllers/adminController.js:50-58 | a non-empty, non-numeric cell such as `name` is kept as its text |
| AdminController.NumericKept | src/controllers/adminController.js:50-58 | cleaning does not change the coerced numeric values |
| AdminController.CsvErrors | src/controllers/adminController.js:41-47 | each error carries its row's 1-based position and the missing-field message; the errors are in increasing row order |
| AdminController.CsvCounts | src/controllers/adminController.js:41-60 | batch size plus error count equals the number of rows |
| AdminController.RejectedRowsReported | src/controllers/adminController.js:44-46 | every row with a falsy `name` or `address` is reported |
| AdminController.AcceptedRowsBatched | src/controllers/adminController.js:44-60 | every other row is prepared and batched |
| AdminController.BatchedRowsAccepted | src/controllers/adminController.js:44-60 | every batched row is the preparation of an accepted row |
| AdminController.ProcessCsv | src/controllers/adminController.js:41-61 | the loop's batch, errors and counter are the specified ones; the counter counts every row |
| AdminController.Report | src/controllers/adminController.js:75-99 | an empty batch gives 400 with success count 0; otherwise 200 with the inserted count, the message "Processed N rows…" naming the row counter, the row errors and at most one `N/A` error for a failed insert; the error count is the length of the list |
| AdminController.ReportKeepsOrder | src/controllers/adminController.js:79-88 | the row errors stay in increasing order, followed by at most one `N/A` entry |
| AdminController.BulkUpload | src/controllers/adminController.js:11-109 | no file gives 400; a mimetype other than exactly `text/csv` or `application/json` gives 400 before parsing; a CSV upload is reported from the validated batch and errors with the row count; a JSON parse failure gives 500; a JSON top level that is not an array gives 400 "JSON file must contain an array of restaurant objects."; a JSON array is reported unvalidated, with no errors and its length as the row count; a report has 200, or 400 with success count 0 |
| AdminController.BulkUploadRestaurants | src/controllers/adminController.js:11-109 | the handler's reply is that upload specification |
| AdminController.UploadErrorsInOrder | src/controllers/adminController.js:41-88 | every report lists its row errors in increasing order |
| AdminController.InsertOfObjects | src/controllers/adminController.js:75-77 | a batch of CSV rows never makes the bulk insert throw |
| AdminController.CsvUploadReport | src/controllers/adminController.js:41-99 | a CSV upload is answered 200 iff some row is accepted, with "Processed N rows…" where N is the number of records; the batch size is the row count minus the rejected count; otherwise 400 with exactly the validation errors; the errors begin with the validation errors and add at most one more |
| AdminController.InsertThrowsAtNull | src/services/restaurantService.js:133 | a `null` element in the batch makes the bulk insert throw reading `id` |
| AdminController.JsonNullElement | src/controllers/adminController.js:63-107 | an unvalidated JSON `null` element turns the whole upload into a 500 |
| AdminController.NamesForRows | src/controllers/adminController.js:120-126 | a name is listed for a restaurant iff a category row with that `restaurant_id` carries it |
| AdminController.NamesForSource | src/controllers/adminController.js:122-125 | every listed name comes from a category row of that restaurant |
| AdminController.NamesForListed | src/controllers/adminController.js:122-125 | every category row of a restaurant has its name listed |
| AdminController.NamesForExtended | src/controllers/adminController.js:122-125 | one more row appends its name to its own restaurant's list and leaves every other list unchanged |
| AdminController.GroupCategories | src/controllers/adminController.js:120-126 | the dictionary has an entry exactly for the ids that have rows, holding their names in row order |
| AdminController.CategoryRows | src/controllers/adminController.js:115-121 | a failed category query, or a result that is not an array, contributes no rows |
| AdminController.WithCategories | src/controllers/adminController.js:128-131 | an entry keeps every restaurant key and adds `categories` |
| AdminController.ListRestaurantsReply | src/controllers/adminController.js:111-138 | 200 iff both queries returned, with one entry per restaurant in order; otherwise 500 |
| AdminController.ListingRows | src/controllers/adminController.js:114 | the restaurants listed have exactly the eight projection keys |
| AdminController.ListedEntries | src/controllers/adminController.js:120-131 | entry `i` is restaurant `i` with the names of its category rows, or `[]` |
| AdminController.ListRestaurants | src/controllers/adminController.js:111-138 | the handler's reply is that listing specification |
| AdminController.ChangeFailed | src/controllers/adminController.js:149-151 | 400 iff the message contains lowercase `validation`, else 500 |
| AdminController.SingleFailure | src/controllers/adminController.js:149 | the error the handler catches is the store's error or exception |
| AdminController.CreateRestaurantReply | src/controllers/adminController.js:140-152 | 201 with the record iff the store answered without error; otherwise the change-failed reply with the wrapped message |
| AdminController.CreateValidationIs400 | src/controllers/adminController.js:149 | a create failure is 400 iff the store's message mentions `validation` |
| AdminController.CategoryNames | src/controllers/adminController.js:166-168 | one name per category row, in order |
| AdminController.WithNames | src/controllers/adminController.js:166-169 | the record's projection plus its `categories` |
| AdminController.GetRestaurantReply | src/controllers/adminController.js:154-177 | 200 with the record and its names; 404 "Restaurant not found" iff there is no row; otherwise 500 with the find message |
| AdminController.RowsFor | src/controllers/adminController.js:159-161 | the selected category rows are rows whose `restaurant_id` is the id |
| AdminController.GetAgreesWithListing | src/controllers/adminController.js:120-168 | a restaurant's names are the same whether read singly or from the listing |
| AdminController.UpdateRestaurantReply | src/controllers/adminController.js:179-207 | 200 with the record and its names; 404 iff the service returned `null`; otherwise the change-failed reply |
| AdminController.NoFieldsIsNotValidation | src/controllers/adminController.js:204 | the "No valid fields" message of both services does not mention `validation` |
| AdminController.EmptyUpdateIs500 | src/controllers/adminController.js:204-205 | an update with nothing to change is answered with 500 |
| AdminController.DeleteRestaurantReply | src/controllers/adminController.js:209-223 | 204 iff the count is above 0; 404 iff the store answered without error but deleted nothing; otherwise 500 |
| AdminController.DeleteReferencedIs500 | src/controllers/adminController.js:218-221 | a restaurant still referenced by deals or categories is answered with 500 |
| AdminController.ListDealsReply | src/controllers/adminController.js:227-236 | 200 with the deals, or 500 |
| AdminController.CreateDealReply | src/controllers/adminController.js:237-248 | 201 with the deal iff the service returned; otherwise the change-failed reply |
| AdminController.InvalidDealIs500 | src/controllers/adminController.js:245 | an invalid deal issues no insert and is answered with 500 |
| AdminController.ChangeFailedIntended | src/controllers/adminController.js:245 | the corrected test finds `validation` in any letter case |
| AdminController.CreateDealReplyIntended | src/controllers/adminController.js:237-248 | the corrected handler agrees on success |
| AdminController.InvalidDealIntended | src/controllers/adminController.js:245 | with the corrected test, an invalid deal is answered with 400 |
| AdminController.GetDealReply | src/controllers/adminController.js:249-261 | 200 with the deal; 404 "Deal not found" iff there is no row; otherwise 500 |
| AdminController.UpdateDealReply | src/controllers/adminController.js:262-277 | 200 with the deal; 404 iff the service returned `null`; otherwise the change-failed reply |
| AdminController.EmptyDealUpdateIs500 | src/controllers/adminController.js:274 | an empty deal update issues no call and is answered with 500 |
| AdminController.DeleteDealReply | src/controllers/adminController.js:278-290 | 204 iff the count is above 0; 404 iff the store answered without error but deleted nothing; otherwise 500 |

## Left out

- The `Promise.race` timers are not modelled as concurrency. A timer that
  fires first is the outcome `Threw(Store.QueryTimeout)`, or `timerFirst` in
  the restaurant controller. A query that completes late and writes anyway
  is not represented.
- The Haversine SQL fragment and the `toFixed(2)` rounding are left out. The
  database evaluates them in floating point, and the rounded value is
  discarded by `toJSON` anyway. The distance column is an abstract
  `DistanceKm(lat, lon)`, and `toFixed` is only asked whether it applies.
- The multipart upload, papaparse streaming, `JSON.parse` and the stream
  draining are left out because they are foreign libraries and I/O. The
  upload arrives as parsed CSV records or a parsed JSON value.
- papaparse's `__parsed_extra` field and the admin email read at
  src/controllers/adminController.js:24 are left out because neither affects
  the reply.
- `jwt.decode`, `parseFloat` and JavaScript number-to-string formatting are
  function parameters. Nothing is assumed about them except the cases they
  return.
- The store's filters (`.eq`, `.single`, `.maybeSingle`) are not evaluated.
  The store's answer to each query is a parameter. The one store call
  whose choice matters is named in a call trace.
- src/controllers/dealController.js is not part of this model. It calls
  `getAllDeals` and `getDealById`, which src/services/dealService.js does
  not define.
- Route registration, src/config/supabaseClient.js and server.js are not
  part of this model because they are wiring only. Logging is left out.
- AdminController.GroupCategories: keys are compared as values. JavaScript
  would coerce object keys to strings, so the numeric id 1 and the string
  "1" would share an entry there but not here.
- AdminController.ProcessCsv: the source coerces the four numeric cells of
  each row object in place, then builds the cleaned row as a new object.
  The model builds the coerced row as a new value too; no other code can
  observe the difference.
- AdminController.CreateRestaurantReply, DealService.CreateDeal,
  AdminController.CreateDealReply, RestaurantService.UpdateRestaurant,
  AdminController.UpdateRestaurantReply, DealService.UpdateDeal and
  AdminController.UpdateDealReply: a request body that is `null` or absent
  is not modelled; the body is always a map. In the source such a body makes
  `new Restaurant(..)`, `new Deal(..)` or `delete updateData.id` throw a
  TypeError, which the handler's catch answers with 500.
- DealService.ListAllDeals: data that is present but not an array is
  treated as the source's `.map` call throwing (see
  AdminController.ListDealsReply). Other values without a `map` method are
  not distinguished.
- RestaurantService.UpdateRestaurant: `replaceCategoriesForRestaurant` is
  not defined anywhere in the repository. As written, calling it throws
  (`RestaurantService.MissingReplace`). Its intended effect is an opaque
  outcome parameter.
- Numbers are mathematical reals. Infinity, `-0` and integer overflow are
  not modelled, and a numeric cell reads as NaN exactly when the
  `parseFloat` parameter says so.

## Findings

| source | as written | input that shows it | evidently intended | confidence | as-written member | corrected member |
|---|---|---|---|---|---|---|
| src/services/restaurantService.js:92-105 | `restaurant.distance` is set and then dropped by `toJSON()` | a listing with valid coordinates whose rows carry `distance: 1.5` | each listed restaurant carries its distance | not executed | RestaurantService.DistanceDropped | RestaurantService.DistanceRequestedAndReturned |
| src/services/restaurantService.js:248 | `replaceCategoriesForRestaurant` is called but defined nowhere | an update of an existing restaurant with body `{categories: []}` | the categories are replaced and the updated record is returned | not executed | RestaurantService.CategoriesUpdateAsWritten | RestaurantService.CategoriesUpdateIntended |
| src/controllers/RestaurantCategoryController.js:19 | the list handler tests for `timeout`, but the service has already rewritten the message to "… timed out …" | the category query's 8-second timer fires first | 504 | not executed | CategoryController.ListTimeoutAnsweredWith500 | CategoryController.ListTimeoutIntended |
| src/middleware/auth.js:68-69 | `userAppProfile.email` is read while the profile may be `null` | a valid Bearer token whose payload has no `sub` | 403 Forbidden | not executed | Auth.MissingSubjectIs500 | Auth.IntendedGate |
| src/controllers/adminController.js:245 | the handler tests for lowercase `validation`, but the service says "Validation failed: …" | a deal body with no `price` | 400 | not executed | AdminController.InvalidDealIs500 | AdminController.InvalidDealIntended |
