# Subscriptions microservice — a Dafny model

This project models the core of a small Flask service that stores car-rental
subscriptions in a Firestore collection. Whenever a subscription is created or
its dates change, the service tells an upstream car service whether the car is
available. It uses a login session with the admin gateway for those calls.

The model has eleven modules.

- `Wrappers`: the `Option` and `Result` types that carry the error paths.

- `Json`: the JSON values that travel through the service. It also defines Python
  truthiness and `dict.get`.
- `Text`: Python string order, `split` and `join`, and zero-padded decimal fields.
- `Dates`: calendar dates, plus `strptime` for `%Y-%m-%d` and `%d/%m/%Y` and
  `strftime('%Y-%m-%d')`. `strptime` is written after the regular expressions
  CPython uses for each directive, followed by the `datetime` range check. It proves
  that zero-padded dates compare as strings the way the dates compare in time.
- `Availability`: `_is_available`. The wall clock becomes a `today` parameter.
- `Session`: one step of `_login` over the global cookie jar, as a value.
- `Notifier`: `_update_car_is_available` as a value. That value is its result, the
  jar it leaves and the calls it makes. What the login endpoint and the car service
  would answer are parameters.
- `Gateway`: the global session as a class, `GatewaySession`.
  - `cookies` is a field that `Login` reassigns.
  - A ghost field records every call sent to the gateway.
  - Its methods are proved equal to the `Session` and `Notifier` functions.
- `Subscriptions`: the collection as a `map` from document id to document. It has
  the read functions and a `Store` class whose three write methods are proved
  against the change they make. Outside inputs are parameters:
  - `stream` is the order in which Firestore streams documents.
  - `fault` is the text of an exception raised by the Firestore client.
  - A fresh document id is chosen nondeterministically; the only constraint is that
    it is unused.
- `CsvImport`: the conversion of one CSV row into the stored document, as the
  import loop does it.
- `Routes`: the POST, PATCH, car-info and DELETE handlers. Each is a function and a
  method over the `Store` and `GatewaySession` objects. Three handlers (POST, PATCH
  and DELETE) do not do what they evidently mean (see Findings), so each of those
  three comes in a `Build`: either `AsWritten` or `Corrected`. The car-info handler
  has a single form. Flask's treatment of the returned `(body, second)`
  tuple is modelled by `FlaskResponse`.

With no active subscription the total answers 200 `{"total_price": 0}`
(subscription.py:143-145), not 404; see `Subscriptions.TotalPriceWithoutActive`.

## Model

| member | source | states |
|---|---|---|
| `Dates.ParseIso` | app.py:49-50 | `strptime(s, '%Y-%m-%d')`: the string must split at '-' into a four-digit year, a month and a day in the forms the directives accept. A successful parse is always a real calendar date in years 1 to 9999. |
| `Dates.ParseDmy` | subscription.py:45-46 | `strptime(s, '%d/%m/%Y')`, with the same token rules in day/month/year order. Success means a valid date. |
| `Dates.ParseDmyPadded` | subscription.py:45-46 | `strptime(s, '%d/%m/%Y')` reads back every valid date written as zero-padded DD/MM/YYYY. |
| `Dates.ParseFormatIso` | app.py:48-51 | What `strftime('%Y-%m-%d')` writes, `strptime` reads back as the same date. This is the round trip `_is_available` does on today's date. |
| `Dates.ParsedIsCanonical` | subscription.py:122 | A string `strptime` accepts is exactly the zero-padded text of its date if and only if it is ten characters long with no space. |
| `Dates.FormatIsoOrder` | subscription.py:122 | On zero-padded dates, Python's string `<` holds if and only if the first date is strictly earlier. |
| `Dates.FormatIsoOrderEq` | subscription.py:122 | On zero-padded dates, string `<=` holds if and only if the first date is not later. |
| `Text.DecimalInjective` | subscription.py:106 | `str(id)` of different route ids gives different document ids. |
| `Availability.IsAvailable` | app.py:45-55 | The status is 200 if and only if both dates parse; otherwise 500 with an `{"error": ...}` body. On 200 the body is `not (start <= today <= end)`. |
| `Availability.AvailableExactlyOutsideWindow` | app.py:48-52 | For zero-padded dates, the answer is 200 with "available" exactly when today is before the start or after the end. |
| `Availability.InvertedWindowAlwaysAvailable` | app.py:51-52 | When the start is after the end, the car always reads as available. |
| `Availability.UnparseableNeverAvailable` | app.py:49-55 | If either date fails to parse, the status is 500 and the body is never `true`. |
| `Session.LoginStep` | app.py:28-43 | `_login()` makes a call if and only if no `Authorization` cookie is held, and then at most one. It succeeds if and only if a cookie was held or the answer is 200. The jar either stays or becomes the answer's cookies after a success. |
| `Session.LoginReusesSession` | app.py:30-43 | With an `Authorization` cookie held: success, no call, jar unchanged. |
| `Session.LoginExchange` | app.py:30-42 | Without one: exactly one login call. Success if and only if the status is 200, and only then is the jar replaced by the response cookies. |
| `Session.LoginThenReuse` | app.py:30-41 | After a login whose cookies include `Authorization`, the next `_login` makes no call. |
| `Session.LoginWithoutAuthorizationCookie` | app.py:30-41 | A 200 answer without `Authorization` reports success, but the next `_login` logs in again. |
| `Session.FailedLoginRetries` | app.py:39-42 | A refused login leaves the jar as it was, and the next `_login` tries again. |
| `Gateway.GatewaySession.constructor` | app.py:22 | The session starts with no jar and no calls. |
| `Gateway.GatewaySession.Login` | app.py:28-43 | The method's result, new jar and appended calls are exactly those of `Session.LoginStep` on the old jar. |
| `Gateway.GatewaySession.PatchCarResource` | app.py:69 | Records one PATCH of the car carrying the current jar, and returns the car service's answer. |
| `Gateway.GatewaySession.GetCarResource` | app.py:170 | Records one GET of the car carrying the current jar, and returns the answer. |
| `Gateway.GatewaySession.UpdateCarIsAvailable` | app.py:57-76 | Result, new jar and appended calls are exactly those of `Notifier.NotifyStep`. |
| `Notifier.NotifyStep` | app.py:57-76 | `_update_car_is_available(data)`: with a field missing or a date unparseable, it makes no call, keeps the jar and answers 404. It sends at most one PATCH. With one PATCH the car service's body and status are returned; with none the status is 401 or 404. |
| `Notifier.NotifyMissingFields` | app.py:58-76 | A missing or falsy car id, start or end date gives 404 "No car id, start date or end date found". No call is made and the jar is untouched. |
| `Notifier.NotifyCalculationFails` | app.py:63-74 | An unparseable date gives 404 "Could not calculate is_available: {...}", with no login and no PATCH. |
| `Notifier.NotifyLoginFails` | app.py:65-72 | A refused login gives 401 "Authentication failed"; the only call is the login and there is no PATCH. |
| `Notifier.NotifyPatchesOnce` | app.py:65-70 | Otherwise there is exactly one PATCH, to the payload's car, carrying exactly `{"is_available": b}`. `b` is true if and only if today is outside the window, and the car service's body and status are returned unchanged. With a session already held, that PATCH is the only call. |
| `Notifier.NotifyReservedCar` | app.py:57-70 | Car 42, 2025-01-01 to 2025-03-31, sent on 2025-02-01 with a session held: exactly one PATCH to car 42 with `is_available: false`. |
| `Subscriptions.GetSubscriptions` | subscription.py:88-101 | 500 on a store fault. Otherwise 404 if and only if the collection is empty. A 200 carries one document per streamed id, in stream order. |
| `Subscriptions.GetActiveSubscriptions` | subscription.py:118-133 | 500 on a store fault, otherwise 200 or 404. A 200 carries a non-empty list in which every document is active on today's date. |
| `Subscriptions.GetActiveSubscriptionsTotalPrice` | subscription.py:136-148 | The answer is 200 or 500, and a store fault gives 500. A 200 body is exactly `{"total_price": n}` for an integer `n`. A 500 body carries `"error"`. That `n` is the sum of the active prices is stated by `Subscriptions.TotalOfSum`. |
| `Subscriptions.TotalOfSum` | subscription.py:140-145 | Without a fault the total answers 200 exactly when `sum` over the active documents' prices (`SumPrices`, each addend read by `PriceOf`) is defined, and its `total_price` is then that sum. |
| `Subscriptions.GetSubscriptionById` | subscription.py:104-115 | 200 with the stored document if and only if the id is present; otherwise 404 "Subscription not found". A fault gives 500. |
| `Subscriptions.ActiveIds` | subscription.py:122-125 | The streamed ids of the query are exactly the ids whose document has string dates with `start <= today <= end` under Python string order. |
| `Subscriptions.Store.AddSubscription` | subscription.py:66-85 | Picks an id not in the collection. The collection and reply become exactly those of `AddChange`. |
| `Subscriptions.Store.UpdateSubscription` | subscription.py:151-163 | The collection and reply become exactly those of `UpdateChange`. |
| `Subscriptions.Store.DeleteSubscriptionById` | subscription.py:166-178 | The collection and reply become exactly those of `DeleteChange`. |
| `Subscriptions.FreshIdExists` | subscription.py:68 | An unused document id always exists, so `document()` can always name a new document. |
| `Subscriptions.FaultChangesNothing` | subscription.py:84-85 | A client exception gives 500 `{"error": text}` and leaves the collection unchanged. This holds for add (under any fresh id), and for update and delete of any id, present or absent. |
| `Subscriptions.NewRecordFields` | subscription.py:70-80 | The stored document has exactly the nine fields. Duration defaults to 3 and insurance to False. Every other field is the body's value or null, and other keys of the body are dropped. |
| `Subscriptions.AddInserts` | subscription.py:68-82 | Add answers 201, adds exactly the new id with the new document, and leaves every existing document unchanged. |
| `Subscriptions.AddThenGet` | subscription.py:104-112 | After an add, reading the new id returns 200 with the document written. |
| `Subscriptions.UpdateAbsent` | subscription.py:155-156 | Updating an absent id answers 404 "Subscription not found." and changes nothing. |
| `Subscriptions.UpdatePresent` | subscription.py:158-160 | On a present id with a non-empty body: 201. The body's keys overwrite those fields, every other field and document is unchanged, and no document is added or removed. |
| `Subscriptions.UpdateIdempotent` | subscription.py:151-160 | Applying the same update twice equals applying it once, reply included. |
| `Subscriptions.UpdateThenGet` | subscription.py:158 | After an update, reading the id returns the merged document. |
| `Subscriptions.DeleteRemovesOnly` | subscription.py:166-175 | A present id is removed with 200 and every other document is kept. An absent id gives 404 and changes nothing. |
| `Subscriptions.DeleteTwice` | subscription.py:170-175 | A second delete of the same id answers 404 and changes nothing. |
| `Subscriptions.GetSubscriptionsContents` | subscription.py:88-98 | 404 if and only if the collection is empty. Otherwise 200 with a list as long as the collection, containing every document and nothing else. |
| `Subscriptions.ActiveIdsLists` | subscription.py:122-125 | The query lists each active document exactly once. |
| `Subscriptions.ActiveSubscriptionsContents` | subscription.py:118-130 | 404 if and only if no document is active. Otherwise 200 with as many entries as active documents, and a document appears if and only if it is active. |
| `Subscriptions.SumPricesDefined` | subscription.py:143 | `sum` succeeds if and only if every price it meets is a number, counting bools and missing (0) prices as numbers. |
| `Subscriptions.SumOrderIndependent` | subscription.py:143 | The sum over two listings of the same documents fails or succeeds together, and gives the same total. |
| `Subscriptions.TotalPriceStatus` | subscription.py:136-148 | The total answers 200 if and only if every active document's price is a number or absent; otherwise it answers 500. |
| `Subscriptions.TotalPriceWithoutActive` | subscription.py:143-145 | With no active document the answer is 200 `{"total_price": 0}`, not 404. |
| `Subscriptions.TotalPriceOrderIndependent` | subscription.py:140-145 | The status does not depend on Firestore's stream order, nor does the reply on 200. |
| `Subscriptions.DeleteLowersTotal` | subscription.py:136-145 | Deleting an active document with a numeric price keeps the status of the total, and lowers the total by exactly that price. |
| `Subscriptions.AddedWithoutPriceBreaksTotal` | subscription.py:143-148 | A subscription posted without a price is stored with a null price. While it is active, the total answers 500. |
| `Subscriptions.ActiveAgreesWithAvailability` | subscription.py:120-122 | For zero-padded stored dates, a document is active if and only if `_is_available` on its dates answers 200 with `false`. |
| `Subscriptions.UnpaddedDatesDisagree` | subscription.py:122 | Stored "2025-2-1" to "2025-12-31": on 2025-06-01, `_is_available` says reserved, yet the string filter does not count it as active. |
| `CsvImport.ConvertRow` | subscription.py:43-59 | A failure names what is wrong with the row: the missing column, the date cell and its `strptime` error, or the integer cell `int` rejects. A success has the SubscriptionId cell as its id and the nine document fields. |
| `CsvImport.ParseIntText` | subscription.py:50-55 | `int(str(n)) == n` for every integer. |
| `CsvImport.ConvertRowSucceeds` | subscription.py:43-59 | A row converts if and only if every column is present, both dates are in DD/MM/YYYY and every integer column parses. |
| `CsvImport.BadStartReportedFirst` | subscription.py:45 | The start date is read first: when it does not parse, that date error is the one reported, whatever else the row holds. |
| `CsvImport.ReadCellsOf` | subscription.py:44-59 | On a convertible row, the conversion gives exactly the document built from each cell read on its own. |
| `CsvImport.ConvertedDates` | subscription.py:45-46 | Both dates are stored as the zero-padded YYYY-MM-DD text of the date the DD/MM/YYYY cell denotes. Reading them back with `%Y-%m-%d` gives that date. |
| `CsvImport.ConvertedFields` | subscription.py:49-58 | The document id is the SubscriptionId cell, and `has_delivery_insurance` is true if and only if the cell is exactly "TRUE". The location and price are as read, and the document has the nine fields. |
| `CsvImport.ImportedActiveAgrees` | subscription.py:45-46 | For every imported document, the store's active filter and `_is_available` agree. |
| `Routes.PostRoute` | app.py:204-215 | The handler always returns and never raises. The collection is what the add leaves, whatever the car service does. A call is made only after a 201, and without a 201 the jar is kept. |
| `Routes.PatchRoute` | app.py:221-237 | The handler always returns. The collection is what the update leaves. A call is made only after a 201 with the PATCH condition met, and without the condition the jar is kept. |
| `Routes.CarInfoRoute` | app.py:160-178 | The handler always returns. A call is made only for a stored id without a store fault, and the handler never sends a PATCH. |
| `Routes.DeleteRoute` | app.py:243-246 | The view raises if and only if the build is as written. Only the document under the route's id can be removed, and no remaining document changes. |
| `Routes.UnpackCarUpdate` | app.py:211 | The unpacking only reorders the notifier's pair. Corrected, the status slot holds `Int(code)` and "result" the body; as written, the body is in the status slot and `Int(code)` lands in "result". |
| `Routes.FlaskResponse` | app.py:213 | Flask's reading of a view result: an exception is 500, and so is a body that is None, a bool or a number (the TypeError of `make_response`). For a string, list or dictionary body, an integer second element is the status, with the body kept, and a dictionary second element becomes the headers, with status 200. |
| `Routes.PostSubscription` | app.py:204-215 | View result, collection, jar and appended calls are exactly those of `PostRoute` on the old state. |
| `Routes.PatchSubscription` | app.py:221-237 | View result, collection, jar and appended calls are exactly those of `PatchRoute`. |
| `Routes.GetSubscriptionCarInfo` | app.py:160-178 | View result, jar and appended calls are exactly those of `CarInfoRoute`; the collection is only read. |
| `Routes.DeleteSubscription` | app.py:243-246 | View result and collection are exactly those of `DeleteRoute`. |
| `Routes.PostFailedAddSkipsCarUpdate` | app.py:207-215 | When the add does not answer 201, there is no login and no car call. The reply carries only the store's answer and status. |
| `Routes.PostAddsThenNotifies` | app.py:207-213 | After a successful add, the calls and jar are exactly the notifier's. |
| `Routes.PostSubscriptionSwapsStatus` | app.py:211-213 | As written, the notifier's body becomes the "status" entry and the tuple's second element, and its code becomes "result". For a body without a car id, Flask answers 200 with the 404 message as a header. |
| `Routes.PostRelaysCarUpdateStatus` | app.py:211-213 | Corrected, the HTTP status is the notifier's status code; a body without a car id answers 404. |
| `Routes.PatchTriggerRule` | app.py:228-232 | The car update runs if and only if the end date is truthy and either the start date is truthy or the duration is absent or truthy. |
| `Routes.PatchWithoutCarUpdate` | app.py:227-237 | Without 201, or without the condition: the store's reply is passed through and no call is made. |
| `Routes.PatchWithCarUpdate` | app.py:227-235 | With 201 and the condition: the document is merged and the calls are the notifier's. Corrected, the HTTP status is the notifier's. |
| `Routes.UnpackedStatus` | app.py:211-213 | For any string, list or dictionary body: as written, the notifier's message dictionary lands in Flask's second slot, becomes the headers, and the status is 200. Corrected, the status is the notifier's code. |
| `Routes.PatchEndDateAlone` | app.py:228-235 | A body with only an end date meets the condition, yet no car call is made. Corrected, the answer is 404; as written, 200. |
| `Routes.CarInfoPassesStoreFailure` | app.py:161-178 | A store answer other than 200 is passed through unchanged, with no call. |
| `Routes.CarInfoWithoutCarId` | app.py:164-176 | A document without a truthy car id gives 404 "No car id found" and no call. |
| `Routes.CarInfoLoginFails` | app.py:166-174 | A refused login gives 401 "Authentication failed" and no GET. |
| `Routes.CarInfoFetchesCar` | app.py:166-172 | Otherwise exactly one GET of the document's car, after a login only if no session was held. The car service's body and status are returned unchanged; when that body is a string, list or dictionary Flask answers with them, and when it is null, a bool or a number Flask answers 500. |
| `Routes.DeleteAsWrittenNeverDeletes` | app.py:243-246 | As written, every DELETE answers 500 and deletes nothing. |
| `Routes.DeleteCorrectedRemoves` | app.py:243-246 | Corrected, a present id is removed with 200, and a second DELETE answers 404. |

## Left out

- Flask plumbing: `jsonify`, Swagger decorators, `service_info`, `health_check` and `app.run`. The GET handlers for the list, one id, the active list and the total only pass the store's reply through, so they are covered by the store functions.
- Authorization: `auth.role_required` is not part of this model.
- Real I/O: the `requests` calls, the Firestore client and its initialisation, and the environment configuration. The gateway's and car service's answers are parameters. A car-service response that is not JSON, which would make `response.json()` raise, is not modelled.
- Session.LoginStep, Notifier.NotifyStep, Routes.CarInfoRoute: the `requests.post` (app.py:33), `requests.patch` (app.py:69) and `requests.get` (app.py:170) calls sit outside any `try`. A connection error or timeout there escapes the view, and Flask answers 500. For POST and PATCH that happens after the store write at app.py:207 and app.py:224, so the subscription stays stored. The model always receives an answer, so this transport-failure path is not modelled.
- `create_table`: dead code, since `sqlite3` is never imported.
- `_add_csv_to_firestore`: only the conversion of one row is modelled. Not modelled: reading the file, the loop, the Firestore writes, the final reply, and a row shorter than the header (where `csv.DictReader` fills in None).
- CsvImport.ReadCells: reads MonthlySubscriptionPrice with `int` rules. The code uses `float`, and floating point is not modelled, so a decimal price is rejected as BadInteger.
- CsvImport.ParseInt: Python's `int` also accepts surrounding whitespace, underscores between digits and non-ASCII digits. None of these is modelled.
- Dates.ParseIso: `\d` in CPython's `strptime` patterns also matches non-ASCII digits; only ASCII digits are modelled.
- Dates.FormatIso: always pads the year to four digits. glibc's `strftime('%Y')` writes years below 1000 without padding.
- Availability.Describe: exception texts are fixed approximations of Python's messages, which also quote the input.
- Subscriptions.PriceOf: a float price stored in Firestore is not modelled. Every value other than an int, a bool or an absent price counts as one `sum` cannot add.
- Subscriptions.UpdateChange: Firestore's reading of dotted keys as nested field paths, and its special sentinel values, are not modelled. An update merges top-level keys.
- Firestore's auto-generated ids (20 alphanumerics) are modelled only as unused ids. Firestore's string order is modelled as code-point order.
- Request bodies that are not JSON objects, such as a missing body or a list, are not modelled.
- Routes.FlaskResponse: a second tuple element that is neither an int nor a dict is not interpreted (None).
- Concurrency on the global `cookies`: every call is one sequential step.
- The wall clock: `today` is a parameter.

## Findings

| source | as written | input that shows it | evidently intended | confidence | as-written member | corrected member |
|---|---|---|---|---|---|---|
| app.py:211 | `car_update_status, car_update_result = _update_car_is_available(data)` unpacks the notifier's `(body, status)` positionally. | POST a subscription without `car_id`. The notifier returns (`{"message": ...}`, 404), the dict becomes the second tuple element, and Flask answers 200 with the message as a header. | The car update's status code is the HTTP status (404) and its body is the "result". | high; not executed | `Routes.PostSubscriptionSwapsStatus` | `Routes.PostRelaysCarUpdateStatus` |
| app.py:233 | The same positional unpacking in the PATCH handler. | PATCH an existing id with only `subscription_end_date`. The default duration meets the condition, the notifier returns 404, and Flask answers 200. | 404 relayed. | high; not executed | `Routes.PatchEndDateAlone` | `Routes.PatchWithCarUpdate` |
| app.py:244 | Calls `subscription.delete_item_by_id`, which the store module does not define. | DELETE an id that is present. AttributeError gives 500, and the document stays. | Call `delete_subscription_by_id`: 200 and the document removed. | high; not executed | `Routes.DeleteAsWrittenNeverDeletes` | `Routes.DeleteCorrectedRemoves` |
