# L'Oréal routine builder — a Dafny model of its session logic and its worker

The routine builder is a web page and a Cloudflare worker. On the page the user
filters a product catalog by category and search text, clicks product cards to build
a selection, asks for a routine for the selected products, and then asks follow-up
questions. The worker sits between the page and the OpenAI chat-completions
endpoint. It accepts only `POST` (and answers CORS preflights), checks the `messages`
array, forwards it with the fixed model `gpt-4o`, and relays the answer or an
`{"error": …}` document. Every response carries `Access-Control-Allow-Origin: *`.

This project models both halves.

- `catalog.dfy` (`Catalog`): the filter predicate and `products.filter`, as functions.
- `selection.dfy` (`Selection`): `findIndex`, the card-click toggle (push or splice)
  and the "Remove" button's `filter`, as functions on the list, with lemmas.
- `selection_json.dfy` (`SelectionJson`): `JSON.stringify` of the selection, which the
  routine request embeds, and a reader that recovers the selection from that text.
- `conversation.dfy` (`Conversation`): the messages of a routine request, the check of
  the worker's answer (`choices[0].message`), and the history left by "Generate Routine"
  and by a follow-up question, as functions, with lemmas.
- `session.dfy` (`Session.ClientSession`): the page's two mutable variables,
  `selectedProducts` and `chatHistory`, as a class. Its methods are the click and submit
  handlers. Each method is proved against the functions above. Each keeps two
  invariants: no id is selected twice, and no user turn is blank or untrimmed.
- `gateway.dfy` (`Gateway`): the worker's `fetch` handler as one pure function over the
  method, the parsed body and the upstream result, with a lemma per path.
- `round_trip.dfy` (`RoundTrip`): the page and the worker composed. It covers the JSON
  the page posts, how the page reads the worker's response, and the history after a
  full round trip.
- `js_value.dfy` (`JsValue`): the JavaScript values and rules both files rely on:
  JSON documents, truthiness, `x.key` and `x[0]`.
- `text.dfy` (`Text`): `toLowerCase`, `includes` and `trim`.
- `sequences.dfy` (`Sequences`): order-preserving subsequences.
- `wrappers.dfy` (`Wrappers`): `Option`.

Network calls are parameters. On the page, a call ends as `Ok(data)`, `HttpNotOk(status)`
or `Threw`. In the worker, the upstream call ends as `FetchThrew` or
`Answered(status, statusText, text, json)`. Here `json` is what `.json()` parses, and
`None` means the parse failed. The page's handlers return the messages they would post,
or `None` when they post nothing. The catalog arrives as a parameter too. The name of a
clicked product is a parameter: the page reads it from the card.

The model follows the code in these places:

- A successful "Generate Routine" replaces the whole history with three turns
  (`script.js:206`). The history is therefore not append-only across generations.
  Follow-ups do only append.
- Malformed JSON in a request to the worker gives 500, not 400 (`cloudflare-worker.js:36`, caught at 115).
- A failed upstream `fetch` gives 500 (the catch), not an upstream error with a status.
- A failing upstream status is passed on only if `new Response` accepts it together
  with a body. Since it is not 2xx, that means 300..599 except 304. A status outside
  200..599 throws a RangeError, and 304 (a status that may not carry a body) throws a
  TypeError. The catch turns either into 500.

## Model

| member | source | states |
|---|---|---|
| Text.IncludesIffOccurs | script.js:134-135 | `includes` is true exactly when the query occurs at some position of the text |
| Text.LowerEmpty | script.js:129-133 | a value is empty after lower-casing exactly when it was empty, so `!selectedCategory` and `!searchQuery` test the raw values' emptiness |
| Text.LowerIdempotent | script.js:124-125 | lower-casing twice is lower-casing once |
| Text.Trim | script.js:217-218 | `trim` returns a contiguous piece of the input, and everything before and after that piece is white space or line terminators. The piece is empty exactly when the input is all such characters. Otherwise it neither begins nor ends with one |
| Catalog.FilterProducts | script.js:128-137 | the result is a subsequence of the catalog, in catalog order. It holds exactly the products that pass both the category test and the search test, each as many times as the catalog holds it |
| Catalog.VisibleProductsMatch | script.js:122-137 | every displayed product is in the catalog. Its category equals the select's value case-insensitively, or that value is empty. The lower-cased query occurs in its lower-cased name or description, or the query is empty |
| Catalog.UnfilteredIsWholeCatalog | script.js:129-135 | with an empty category and an empty query, the filter returns the catalog unchanged |
| Catalog.VisibleUnfiltered | script.js:124-135 | with an empty select value and an empty search box, the whole catalog is displayed |
| Catalog.FilterIdempotent | script.js:128-137 | filtering the filtered list again with the same values changes nothing |
| Catalog.VisibleCaseInsensitive | script.js:124-135 | lower-casing the select and search values first does not change the displayed list |
| Selection.IndexOf | script.js:72-74 | `findIndex` returns -1 exactly when no entry has the id. Otherwise it returns the first position holding the id |
| Selection.WithoutId | script.js:110-112 | the "Remove" filter returns a subsequence of the selection, in order |
| Selection.WithoutIdMembers | script.js:110-112 | the entries kept by the "Remove" filter are exactly those with a different id |
| Selection.WithoutIdAbsent | script.js:110-112 | removing an id that is not selected is a no-op |
| Selection.RemoveIdempotent | script.js:110-112 | after a removal no entry has the id, and removing it again changes nothing |
| Selection.RemoveKeepsUnique | script.js:110-112 | the "Remove" button keeps ids unique |
| Selection.ToggleAbsentAppends | script.js:76-82 | clicking an unselected product appends exactly `{id, name}` at the end |
| Selection.TogglePresentRemoves | script.js:84-86 | clicking a selected product removes exactly its entry. The others stay in order, the list is one shorter, and the result equals the "Remove" button's |
| Selection.ToggleKeepsUnique | script.js:72-88 | a click keeps ids unique |
| Selection.ToggleMembership | script.js:72-88 | a click flips whether its own id is selected and leaves every other id's membership unchanged |
| Selection.ToggleTwiceRestores | script.js:72-88 | two clicks on an unselected product restore the original list, whatever names are passed |
| Selection.ToggleParity | script.js:72-88 | after any run of clicks, an id is selected exactly when it started selected and received an even number of clicks, or started unselected and received an odd number. Ids stay unique throughout |
| SelectionJson.StringifyRoundTrip | script.js:170-172 | the JSON text of the selection can be read back to the same products in the same order |
| SelectionJson.StringifyInjective | script.js:170-172 | different selections are written as different texts |
| Conversation.CompletionDocReply | script.js:197-202 | a document of shape `{"choices":[{"message":{"content":c}}]}` yields the reply `c` |
| Conversation.MissingPartsRejected | script.js:198-200 | a document fails the check when `choices` is falsy, when `choices[0]` is falsy (an empty array included), or when `choices[0].message` is falsy. A document that passes all three yields `choices[0].message.content` |
| Conversation.RoutinePromptNamesSelection | script.js:168-173 | the user turn of a routine request starts with the fixed text. The rest reads back as the selection in store order |
| Conversation.GenerateFailureKeepsHistory | script.js:153-209 | with an empty selection, a non-ok status, a bad shape or a throw, the history is left exactly as it was |
| Conversation.GenerateSuccessHistory | script.js:162-206 | after a successful generation the history is exactly three turns: the fixed system prompt, the user turn naming the selection in store order, and the assistant's content. Earlier history is discarded |
| Conversation.FollowUpAppends | script.js:217-252 | the old history is a prefix of the new one. Blank input adds nothing. Otherwise the trimmed question is added first, and the answer follows it exactly when the call succeeded and has the expected shape |
| Conversation.FollowUpKeepsOpening | script.js:217-252 | once the history starts with the routine request's two turns, follow-ups keep those turns in place |
| Conversation.GenerateKeepsTurnsTrimmed | script.js:162-206 | generating keeps every user turn non-empty and trimmed |
| Conversation.FollowUpKeepsTurnsTrimmed | script.js:217-222 | a follow-up keeps every user turn non-empty and trimmed |
| Session.ClientSession.constructor | script.js:28 | the page starts with no selection and (line 149) an empty history |
| Session.ClientSession.FindIndex | script.js:72-74 | the loop returns the position `IndexOf` specifies: the first holding the id, or -1 |
| Session.ClientSession.ToggleProduct | script.js:67-91 | returns whether the product was added. If added, the list gains `{id, name}` at the end. Otherwise the list is the "Remove" filter's result, one shorter. Ids stay unique and the history is unchanged |
| Session.ClientSession.RemoveProduct | script.js:108-112 | the list becomes the filter's result and no longer holds the id. Ids stay unique and the history is unchanged |
| Session.ClientSession.GenerateRoutine | script.js:152-211 | sends nothing when the selection is empty. Otherwise it sends the two-message routine request. The history becomes what `Generated` gives and the selection is unchanged |
| Session.ClientSession.SubmitFollowUp | script.js:214-260 | sends nothing when the input trims to empty. Otherwise it sends the old history plus the trimmed question. The history becomes what `FollowedUp` gives |
| Gateway.Handle | cloudflare-worker.js:2-133 | every response has `Access-Control-Allow-Origin: *`. Every non-2xx response carries an `{"error": string}` document. The status is 200, 204, 400, 405 or 500, or the upstream's own status in 300..599 other than 304 |
| Gateway.PreflightAnswered | cloudflare-worker.js:4-13 | `OPTIONS` gets 204, no body and the three CORS headers. The body is never read and nothing is forwarded |
| Gateway.OnlyPostAccepted | cloudflare-worker.js:16-29 | any method other than OPTIONS or POST gets 405 with "Method not allowed. Only POST is supported." and nothing is forwarded |
| Gateway.UnreadableBodyIsInternalError | cloudflare-worker.js:115-131 | malformed JSON (line 36) and a `null` body (line 39) end in the catch: 500 with the generic message and nothing forwarded |
| Gateway.MessagesValidated | cloudflare-worker.js:38-66 | a `messages` that is missing, falsy or not an array gets 400 "'messages' must be a valid array.". An empty array gets 400 "'messages' array cannot be empty.". The request is forwarded exactly when `messages` is a non-empty array |
| Gateway.ForwardedIffValid | cloudflare-worker.js:68-82 | the worker calls upstream exactly for a POST with a non-empty `messages` array. The payload is `{model: "gpt-4o", messages}` with the messages unchanged |
| Gateway.NoCallNoUpstreamInfluence | cloudflare-worker.js:4-82 | a request that is not forwarded gets the same response whatever the upstream would have done |
| Gateway.UpstreamMapped | cloudflare-worker.js:84-114 | a thrown call gives 500, and so does unparsable JSON. A failing status in 300..599 other than 304 is passed on with "OpenAI API error: " followed by the status text. 304, and a status outside 200..599, give 500. A success relays the upstream document unchanged with status 200 |
| Gateway.UpstreamBodyNotEchoed | cloudflare-worker.js:85-99 | the upstream error body never reaches the response |
| RoundTrip.PageRequestForwarded | cloudflare-worker.js:36-80 | whatever non-empty message list the page posts is forwarded with those messages unchanged |
| RoundTrip.FollowUpRoundTrip | script.js:237-252 | when the provider returns a well-formed completion, the worker relays it with 200, and the history ends with the question and then the answer |
| RoundTrip.FollowUpUpstreamFailure | script.js:237-256 | when the upstream status is in 300..599 and is not 304, the page sees that status and the history ends with the unanswered question |
| RoundTrip.GenerateRoundTrip | script.js:191-206 | a routine generated through the worker leaves exactly the request and the answer in the history |

## Left out

- Rendering and event wiring: the product cards, the description toggle, the selected
  list, the card highlighting, the chat window text and clearing the input
  (`script.js:31-64, 95-107, 113-119, 154-159, 205, 221, 251, 255, 259`). These are
  display only.
- The card lookup in the Remove handler (`script.js:113-115`) finds no card when the
  removed product is not displayed under the current filter. The TypeError then skips
  the re-render at line 116. `selectedProducts` was already reassigned at line 110, so
  the modelled state is the same either way; only the display goes stale.
- The right-to-left layout toggle (`script.js:262-284`), which is styling.
- `loadProducts` and every `fetch`: the catalog and the call results are parameters.
  The `products.json` format is not modelled beyond the `Product` fields.
- Logging, including `request.clone().text()` (`cloudflare-worker.js:33`). A throw
  there would also reach the catch; the model assumes it does not throw.
- Overlapping clicks and submits: the handlers are async and unguarded. The model runs
  each handler to completion before the next one starts.
- The API key header (`cloudflare-worker.js:75`). The key is never part of any modelled
  response.
- Text.Lower: lower-cases ASCII letters only, not the full Unicode case mapping of `toLowerCase`.
- JsValue.Member: finds only an object's own properties. This is right for the keys
  used here (`choices`, `message`, `content`, `messages`), which no built-in prototype
  defines.
- JsValue.Index0: for a string, yields the first Unicode scalar value rather than the
  first UTF-16 code unit. The two agree on truthiness, and that is all the page uses.
- `JSON.parse`: parsed documents are parameters (`Option<Value>`, with `None` for a
  parse failure). Numbers are reals, and NaN cannot occur.
- Gateway.Relay: assumes reading the body of a failing upstream response succeeds. If
  `.text()` threw (`cloudflare-worker.js:86`), the worker would answer 500 instead.
- Gateway.Handle: compares the method string as given. The platform upper-cases
  standard method names before the worker sees them.
