# Shopping list tracker: a verified model

ShoppingListTracker is a small web application. A browser page holds a
shopping list. The user ticks items and sends the ticked names, with a shared
password, to one server endpoint, `POST /api/webhook`. The server checks the
password against its configured admin password and forwards the names, without
the password, to a configured webhook URL.

This project models three pieces in Dafny:

- the page's state and handlers (`home.dfy`, module `Home`): class
  `ShoppingListPage` holds the fields `items`, `newItem`, `password`,
  `isSubmitting` and the password cookie. Each handler assigns the result of a
  pure list transformation: `Toggled`, `SelectedNames` or `Deselected`;
- the endpoint (`routes.dfy`, module `Routes`): one pure function,
  `HandleWebhook`. It maps the request body, the optional admin password, the
  optional webhook URL and the outcome of the outbound call to the response
  and the outbound request, if one was made;
- the shared definitions (`schema.dfy`, module `Schema`): the `ShoppingItem`
  record, the payload schema as the function `ParsePayload` over parsed JSON
  (`json.dfy`), and the default list.

Two helper modules hold JavaScript's `trim` and `includes` (`js_string.dfy`)
and an option type (`wrappers.dfy`). `flow.dfy` joins page and server: a
payload the page sends passes the schema, and the webhook receives exactly
the selected names.

Three details of the code that are easy to get wrong:

- A successful request is answered with `res.sendStatus(200)`. Express sends
  the status text "OK" as the body, so the body is not empty.
- The admin password is checked, and compared, before the webhook URL is
  read. A wrong password with no URL configured therefore gives 401, not a
  configuration error.
- The schema drops unknown keys. The forwarded body is therefore exactly
  `{"items": [...]}`, whatever else the request carried.

## Model

| member | source | states |
|---|---|---|
| `JsString.IsWhiteSpace` | ShoppingListTracker/client/src/pages/home.tsx:28 | the characters `trim` removes: ECMAScript's WhiteSpace and LineTerminator code points, including the ideographic space U+3000 |
| `JsString.Includes` | ShoppingListTracker/client/src/pages/home.tsx:86 | `message.includes("401")`: the text occurs in the message at some position |
| `JsString.TrimStart` | ShoppingListTracker/client/src/pages/home.tsx:28 | the result is a suffix of the input; only white space was dropped, and the result does not start with white space |
| `JsString.TrimEnd` | ShoppingListTracker/client/src/pages/home.tsx:28 | the result is a prefix of the input; only white space was dropped, and the result does not end with white space |
| `JsString.Trim` | ShoppingListTracker/client/src/pages/home.tsx:28-32 | the trimmed text is the slice of the input left after removing exactly its leading and trailing white space: everything before and after the slice is white space, and the slice starts and ends with a non-space unless it is empty; it is empty exactly when the input is blank |
| `JsString.TrimIdempotent` | ShoppingListTracker/client/src/pages/home.tsx:28-32 | trimming the already-trimmed name changes nothing |
| `Schema.StringElements` | ShoppingListTracker/shared/schema.ts:13 | an array passes exactly when every element is a string; the result keeps those strings in order |
| `Schema.IsWebhookPayload` | ShoppingListTracker/shared/schema.ts:12-15 | the validity predicate of the payload schema: an object with an `items` array of strings and a `password` string of length at least 1; other keys are allowed |
| `Schema.ParsePayload` | ShoppingListTracker/shared/schema.ts:12-15 | a body is accepted exactly when it is an object with an `items` array of strings and a `password` string of length at least 1; the payload is those two fields, and other keys are dropped |
| `Schema.ParsePayloadRoundTrip` | ShoppingListTracker/shared/schema.ts:12-17 | parsing a serialised payload gives the payload back exactly when its password is non-empty |
| `Schema.EmptyItemsAccepted` | ShoppingListTracker/shared/schema.ts:13 | an empty `items` array passes the schema |
| `Schema.DuplicateAndEmptyItemsAccepted` | ShoppingListTracker/shared/schema.ts:13 | duplicate and empty item strings pass the schema |
| `Schema.EmptyPasswordRejected` | ShoppingListTracker/shared/schema.ts:14 | an empty password fails validation, whatever else the body holds |
| `Schema.UnknownKeysIgnored` | ShoppingListTracker/shared/schema.ts:12-15 | keys other than `items` and `password` do not affect parsing |
| `Schema.DefaultItemsWellFormed` | ShoppingListTracker/shared/schema.ts:20-30 | the default list has nine unselected items with ids "1" to "9", pairwise distinct |
| `Routes.Configured` | ShoppingListTracker/server/routes.ts:13-25 | the truthiness tests on the admin password and the webhook URL: a value is usable when it is set and non-empty |
| `Routes.Failure` | ShoppingListTracker/server/routes.ts:40-43 | the catch block: status 500 with the fixed message "Request failed", whatever the outbound call did |
| `Routes.WithoutPassword` | ShoppingListTracker/server/routes.ts:27-28 | the forwarded object is the payload object with its `password` key removed |
| `Routes.HandleWebhook` | ShoppingListTracker/server/routes.ts:8-45 | the status is 200, 401 or 500. 401 means a valid body with the admin password configured and a different password. A call is forwarded exactly when the body is valid, the admin password is configured and equal, and the URL is configured; it is one POST with JSON headers of the payload minus its password. The status is 200 exactly when a call was made and did not throw. Every 500 carries only "Request failed" |
| `Routes.InvalidBodyFails` | ShoppingListTracker/server/routes.ts:9-43 | a body that fails the schema gives 500 and no outbound call |
| `Routes.UnconfiguredSecretFails` | ShoppingListTracker/server/routes.ts:13-16 | with an absent or empty admin password, a valid request gives 500 with no outbound call, whatever password it carries |
| `Routes.WrongPasswordBeforeMissingUrl` | ShoppingListTracker/server/routes.ts:18-25 | a wrong password with no URL configured gives 401: authentication is checked before the URL |
| `Routes.CorrectPasswordMissingUrl` | ShoppingListTracker/server/routes.ts:18-25 | the right password with no usable URL gives 500 and no outbound call |
| `Routes.ForwardedBodyOmitsPassword` | ShoppingListTracker/server/routes.ts:28-35 | a forwarded body has the single key `items`, equal to the received `items` array |
| `Routes.WebhookStatusIgnored` | ShoppingListTracker/server/routes.ts:29-39 | once the call resolves, the reply does not depend on the webhook's status |
| `Routes.ThrowingCallFails` | ShoppingListTracker/server/routes.ts:29-43 | if the outbound call throws, the response is 500 with the fixed message "Request failed" |
| `Routes.MatchingSecretForwardsMilk` | ShoppingListTracker/server/routes.ts:8-39 | secret "secret123" and body {"items":["milk"],"password":"secret123"}: 200, and {"items":["milk"]} is forwarded |
| `Routes.WrongSecretForwardsNothing` | ShoppingListTracker/server/routes.ts:18-20 | the same body with password "wrong": 401 and no outbound call |
| `Routes.MissingPasswordFails` | ShoppingListTracker/server/routes.ts:9-43 | a body without a `password` key: 500 and no outbound call |
| `Home.Toggled` | ShoppingListTracker/client/src/pages/home.tsx:40-44 | length, order, ids and names are kept; `isSelected` flips exactly on the items whose id matches |
| `Home.SelectedNames` | ShoppingListTracker/client/src/pages/home.tsx:47 | there are never more names than items; the list is empty exactly when no item is selected |
| `Home.Deselected` | ShoppingListTracker/client/src/pages/home.tsx:82 | length, order, ids and names are kept, and no item is selected |
| `Home.ToggleTwiceRestores` | ShoppingListTracker/client/src/pages/home.tsx:41-43 | toggling the same id twice restores the list |
| `Home.ToggleUnknownIdUnchanged` | ShoppingListTracker/client/src/pages/home.tsx:40-44 | toggling an id that no item has leaves the list unchanged |
| `Home.ToggleFlipsOnlyTarget` | ShoppingListTracker/client/src/pages/home.tsx:40-44 | with distinct ids, toggling an item's id flips that item and nothing else |
| `Home.SelectedNamesInOrder` | ShoppingListTracker/client/src/pages/home.tsx:47 | the selected names are the names at the positions of the selected items, every such position taken once, in increasing order |
| `Home.DeselectedSelectsNothing` | ShoppingListTracker/client/src/pages/home.tsx:81-82 | after the reset the selection is empty |
| `Home.ShoppingListPage.constructor` | ShoppingListTracker/client/src/pages/home.tsx:13-25 | the page starts with the default list, empty inputs, no request in flight, and the password taken from a non-empty cookie |
| `Home.ShoppingListPage.SetNewItem` | ShoppingListTracker/client/src/pages/home.tsx:113 | typing sets the new-item text |
| `Home.ShoppingListPage.SetPassword` | ShoppingListTracker/client/src/pages/home.tsx:146 | typing sets the password |
| `Home.ShoppingListPage.AddItem` | ShoppingListTracker/client/src/pages/home.tsx:27-38 | blank input changes nothing. Otherwise exactly one unselected item, named by the trimmed input and carrying the fresh id, is appended at the end, earlier items are unchanged, and the input is cleared. Ids stay distinct |
| `Home.ShoppingListPage.ItemCheck` | ShoppingListTracker/client/src/pages/home.tsx:40-44 | the list becomes `Toggled` of the old list; ids stay distinct |
| `Home.ShoppingListPage.Submit` | ShoppingListTracker/client/src/pages/home.tsx:46-97 | an empty selection aborts first, then an empty password, both without a request. Otherwise exactly one request is sent, holding the selected names and the password. On success the cookie holds the password and the selection is cleared. On failure the list and cookie are untouched, and the error is "wrong password" exactly when an `Error` whose message includes "401" was thrown. `isSubmitting` is false on return |
| `Flow.PageRequestsAreValid` | ShoppingListTracker/client/src/pages/home.tsx:47-70 | every payload the page sends passes the server's schema |
| `Flow.SelectionReachesWebhook` | ShoppingListTracker/server/routes.ts:8-39 | with the right password and a URL, the page's request gets 200 and the webhook receives exactly the selected names in list order |
| `Flow.WrongPasswordForwardsNothing` | ShoppingListTracker/server/routes.ts:18-20 | with a different server password, the page's request gets 401 and nothing is forwarded |

## Left out

- JSX rendering, the card, checkbox, input and button components, and the text of the toasts. A toast is the enum `Home.Toast`; the 401 message and the "OK" status text are kept as constants.
- Browser cookies: reading the cookie at mount time is a constructor parameter. A successful send stores the password in the field `passwordCookie`. The 30-day expiry is not modelled.
- `crypto.randomUUID()` is a foreign randomness source. `AddItem` takes the fresh id as a parameter, and its precondition says the id is not in the list.
- The page's request helper (`apiRequest`) is not part of this model. `Submit` takes its outcome as an input: success, or a thrown value with a flag for "is an `Error`" and a message. `flow.dfy` assumes the helper sends the payload as JSON.
- `fetch`, the HTTP server set-up and `process.env`: the outbound call's outcome is an input, and the two configuration values are optional strings.
- Parsing errors of the body parser: `HandleWebhook` starts from the parsed body. JSON numbers are integers, since no part of the program reads one.
- Zod's internals and error messages: only the accept/reject decision and the parsed value are modelled. Zod measures string length in UTF-16 units; the model counts characters. The two agree on "at least 1".
- `console.error` logging in both catch blocks.
- `server/storage.ts`: an empty interface and class with no behaviour.
- Concurrency. `Submit` runs atomically, so the moment when `isSubmitting` is true and the button is disabled is not observable. Also not modelled: the server's lack of deduplication, the missing timeout on the outbound call, and UI events arriving while a request is in flight. One such case: the success branch resets the list captured when the click happened, which would drop an item added during the request.
