# Episode World client core, modelled in Dafny

Episode World is a travel-agency website and admin console whose data lives
behind one HTTP API. This project models the three pieces of client logic
that sit between the user interface and that API, with every remote reply
taken as an input value:

- **API client** (`lib/api.ts`), module `Api`: the bearer header built from
  the stored session token, the classification of a response by
  `handleResponse` (a 401 clears the token and yields null; another non-ok
  status throws with a message chosen by a fallback chain; an ok status yields
  the parsed body), and the `get`, `post` and `upload` wrappers that turn
  every failure into null. The token is a field of class `Api.Client`.
- **AI service** (`services/aiService.ts`), module `AiService`:
  `generateTripPlan` and `getDestinationInsights` as total functions of what
  `api.post` resolved to, with their fixed fallback objects.
- **Data store** (`context/DataContext.tsx`), module `DataContext`: the state
  cells of `DataProvider` as fields of class `DataContext.Store`, the generic
  CRUD actions built by `createCrudActions`, the domain actions, the merge
  rules of `fetchAllData`/`fetchAdminData` and the token-gated bootstrap.
  Every action follows confirm-then-mutate: local state changes only when the
  reply is present and reports `success`.

Supporting modules: `Wrappers` (Option) and `Json` (JSON values with
JavaScript truthiness, property reads and `String()`, including the TypeError
`String()` raises on an object with its own `toString`).

The local updates `prev.map` and `prev.filter` are the functions `Replaced`,
`WithStatus` and `Removed`, whose contracts state their effect element by
element; the append `[...prev, x]` is written directly in the contract of
`Store.Add` as the old collection plus one record, and `Created` models that
record, `{ ...item, id: res.id }`. The store's methods are proved against
these, and lemmas prove the further properties (order preservation,
idempotence, the exact length change). Records follow one encoding
(`Canonical`: the id is never also among the other properties), which
`Created` establishes and `Replaced` and `WithStatus` preserve.
`fetchAllData` and `fetchAdminData` have disjoint field-level `modifies`
clauses, and `FetchOrderIrrelevant` proves that applying their replies in
either order leaves the same state, so the unawaited interleaving of the two
bootstrap fetches does not matter.

## Behaviour of the source worth noting

- Removing an id drops every record carrying it: the length falls by the
  number of records carrying the id (`RemovedLength`), so by exactly one when
  ids are unique and the id is present (`RemoveOneOfUnique`).
- The trip-plan fallback's summary is the backend's `error` text, which may be
  empty: a reply `{"error": ""}` yields an empty summary
  (`ErrorTextBecomesSummary`), so the summary is not always non-empty.
- An `error` object with its own `toString` property makes `new Error(...)`
  raise a TypeError; the trip-plan summary is then that TypeError's text
  (`UnconvertibleErrorSummary`), and `api.get`/`api.post` still yield null.
- Settings from `get_all_data` are not taken wholesale: they are laid over the
  default settings (not over the current ones), and only when `siteName` is truthy.
- A 2xx body that is not JSON does not fall back to a status message: `res.json()`
  rejects and the wrapper yields null. The raw body text becomes the message
  only on a non-ok status.
- The bootstrap does not await the public fetch before the admin fetch.

## Model

| member | source | states |
|---|---|---|
| `Json.ToJsString` | lib/api.ts:38 | String() of a JSON value as `new Error(v)` applies it: a string is itself, an object without its own `toString` prints "[object Object]", an object with one raises (None), and every primitive converts |
| `Api.Classify` | lib/api.ts:22-41 | a 401 yields null; an ok status yields the parsed body, or rejects when the body is not JSON; any other status rejects with String() of the body's truthy `error` (a string error verbatim, an unconvertible one raising the TypeError), else the non-JSON body text when non-empty, else "API Error: status statusText"; a body parsing to null raises the TypeError of `errorData.error` |
| `Api.RejectionMessageNonEmpty` | lib/api.ts:30-39 | every message the fallback chain throws is non-empty unless the body's `error` is an array |
| `Api.Settle` | lib/api.ts:44-79 | `get`/`post` never reject: the result is non-null only for an ok response with a JSON body, and then it is that body; a failed fetch, a 401, another non-ok status or a non-JSON body give null |
| `Api.UploadResult` | lib/api.ts:81-99 | `upload` yields a value exactly when the response is ok and its JSON body has a truthy `url`, and then it is that url; everything else gives null |
| `Api.GetQuery` | lib/api.ts:46 | the query holds `action` and every `params` entry; a `params` key named action overrides the action |
| `Api.Client.constructor` | lib/api.ts:18 | the client starts with the token found in storage |
| `Api.Client.Headers` | lib/api.ts:17-20 | exactly one Authorization header equal to "Bearer " + token when a non-empty token is stored, no header otherwise |
| `Api.Client.HandleResponse` | lib/api.ts:22-41 | the result is the classification; the token is removed on a 401 and untouched by every other response |
| `Api.Client.Get` | lib/api.ts:44-56 | sends GET with the query and the headers of the current token, resolves to the settled value, and clears the token only on a 401 |
| `Api.Client.Post` | lib/api.ts:58-79 | sends POST with the action, a JSON content type plus the auth header and the JSON body, resolves to the settled value, clears the token only on a 401 |
| `Api.Client.Upload` | lib/api.ts:81-99 | sends the file form to upload_file with the auth header, resolves to the upload result, clears the token only on a 401 |
| `Api.UnauthorizedThenAnonymous` | lib/api.ts:17-29 | after a 401 the token is gone and the get, post and upload requests that follow carry no Authorization header |
| `AiService.TripPlanBody` | services/aiService.ts:6-14 | generateTripPlan posts exactly `{provider, request}` |
| `AiService.InsightsBody` | services/aiService.ts:38-46 | getDestinationInsights posts exactly `{provider, destination}` |
| `AiService.DefaultProviderIsGemini` | services/aiService.ts:8 | without a provider argument both wrappers post provider "gemini" |
| `AiService.OfflinePlan` | services/aiService.ts:29-34 | the fallback plan has title "AI Planner Offline", the given summary, cost "N/A", no `error` key, and one itinerary day: day 1, "Configuration Error", one activity |
| `AiService.GenerateTripPlan` | services/aiService.ts:6-36 | a falsy reply gives the fallback with "No response from server"; an object with an `error` key gives it with String(error), or with the TypeError text of String() when the error cannot be converted; a string, number or true gives it with the TypeError text of the `in` operator; an array or an object without `error` is returned unchanged |
| `AiService.GetDestinationInsights` | services/aiService.ts:38-65 | the same cases give the fixed "## Error" content with empty sources, or the reply unchanged; the result is always one of the two |
| `AiService.WrappersIdempotent` | services/aiService.ts:16-25 | feeding a wrapper's result back to it returns that result: every result has the success shape |
| `AiService.ErrorTextBecomesSummary` | services/aiService.ts:21-31 | for every string e, a reply `{"error": e}` gives a fallback plan whose summary is exactly e, the empty string included |
| `AiService.UnconvertibleErrorSummary` | services/aiService.ts:21-31 | an `error` object with its own `toString` gives a fallback plan whose summary is the TypeError text of String() |
| `DataContext.Created` | context/DataContext.tsx:255 | the appended record carries the backend's id and the item's other properties, any id in the item being overridden |
| `DataContext.Replaced` | context/DataContext.tsx:263 | same length and order; every record whose id equals the item's becomes the item, every other record is identical; canonical records stay canonical |
| `DataContext.Removed` | context/DataContext.tsx:271 | the result holds exactly the records of the input whose id differs, and is no longer |
| `DataContext.WithStatus` | context/DataContext.tsx:299 | same length and ids; matching bookings get `status` set in their properties, every other booking is identical; canonical records stay canonical |
| `DataContext.Overlay` | context/DataContext.tsx:216 | the merged settings hold the keys of both, the reply's value winning on a shared key |
| `DataContext.SaveGeneratedPlan` | context/DataContext.tsx:314-317 | true exactly when the reply is present with `success` |
| `DataContext.CheckAiUsage` | context/DataContext.tsx:319-322 | the reply's `allowed`, and false when the call failed |
| `DataContext.RemovedConcat` | context/DataContext.tsx:271 | the filter distributes over concatenation, so the surviving records keep their relative order |
| `DataContext.RemovedIdempotent` | context/DataContext.tsx:271 | removing an id twice equals removing it once |
| `DataContext.RemovedAbsent` | context/DataContext.tsx:271 | removing an id no record carries leaves the collection unchanged |
| `DataContext.RemovedLength` | context/DataContext.tsx:271 | the length falls by the number of records carrying the id |
| `DataContext.RemoveOneOfUnique` | context/DataContext.tsx:268-275 | with unique ids, removing a present id shortens the collection by exactly one |
| `DataContext.ReplacedIdempotent` | context/DataContext.tsx:263 | updating twice with the same record equals updating once |
| `DataContext.WithStatusIdempotent` | context/DataContext.tsx:299 | setting the same status twice equals setting it once |
| `DataContext.WithStatusOnlyStatus` | context/DataContext.tsx:296-300 | a status update changes no id and no property other than `status` |
| `DataContext.MergedSettingsNamed` | context/DataContext.tsx:215-216 | merged settings keep every default key and a truthy siteName |
| `DataContext.Store.constructor` | context/DataContext.tsx:186-197 | all collections empty, default settings, loading flag raised |
| `DataContext.Store.Add` | context/DataContext.tsx:251-259 | returns whether the reply confirmed; on confirmation the table's collection becomes the old one plus the created record, otherwise it is unchanged; no other state changes |
| `DataContext.Store.Update` | context/DataContext.tsx:260-267 | returns whether the reply confirmed; on confirmation the collection is replaced by id, otherwise unchanged; no other state changes |
| `DataContext.Store.Remove` | context/DataContext.tsx:268-275 | returns whether the reply confirmed; on confirmation the id is filtered out, otherwise unchanged; no other state changes |
| `DataContext.Store.AddBooking` | context/DataContext.tsx:286-294 | returns whether the reply confirmed; a booking notification is logged on confirmation; no collection changes |
| `DataContext.Store.UpdateBookingStatus` | context/DataContext.tsx:296-303 | returns whether the reply confirmed; on confirmation the matching bookings get the status, otherwise bookings are unchanged; nothing else changes |
| `DataContext.Store.AddSubscriber` | context/DataContext.tsx:305-312 | returns whether the reply confirmed; a subscriber notification with the email is logged on confirmation; no collection changes |
| `DataContext.Store.UpdateSettings` | context/DataContext.tsx:324-331 | returns whether the reply confirmed; settings become the new settings on confirmation, otherwise unchanged |
| `DataContext.Store.MergeAllData` | context/DataContext.tsx:205-224 | the merge rules `PublicMerged`: a present reply overwrites exactly the collections it carries and overlays settings on the defaults only with a truthy siteName; a failed call sets packages, destinations and services to the static fallbacks and nothing else |
| `DataContext.Store.FetchAllData` | context/DataContext.tsx:201-230 | the merge above; a foreground fetch writes the loading flag true then false, a background refresh never writes it |
| `DataContext.Store.FetchAdminData` | context/DataContext.tsx:232-239 | the merge rules `AdminMerged`: overwrites bookings, subscribers and generated plans only for fields the reply carries; a failed call changes nothing |
| `DataContext.Store.Bootstrap` | context/DataContext.tsx:241-247 | every public cell follows the public merge rules; the admin cells follow the admin merge rules when a non-empty token is stored and are unchanged otherwise; the loading flag goes true then false once |
| `DataContext.FetchOrderIrrelevant` | context/DataContext.tsx:241-246 | from equal states, merging the public reply then the admin reply gives the same state as the reverse order |

## Left out

- Transport, `JSON.parse`/`JSON.stringify`, `URLSearchParams` encoding, `FormData` and `localStorage` as real APIs: the response `fetch` resolved to, and the parse of its body, are inputs; the token is a field. The action in the POST query is not URL-encoded in the source; the model keeps the query as a map.
- Logging (`console.*`) and the network-error hint of `post`: they only write diagnostics.
- Json.ToJsString: JSON numbers are restricted to the safe integers (magnitude at most 2^53 - 1); fractional numbers, larger magnitudes (which a double rounds, and which String() may print in exponent form such as "1e+21") and their String() form are not modelled, so Classify and GenerateTripPlan cover messages of safe integers only.
- The TypeError texts (`in` on a primitive, `null.error`, String() of an unconvertible object) follow the V8 engine's wording; other engines word them differently.
- The store's replies are decoded from the reply shapes the backend documents (`success` a boolean, `id` a string or absent, `allowed` a boolean); replies outside those shapes, such as a numeric id or a missing `allowed` (returned as `undefined`), are not modelled.
- The request bodies the store's actions send (`{ table, op, data }` and the others) are not modelled; only the replies matter to local state.
- The contents of `INITIAL_SETTINGS` and of the static fallback collections: they are opaque constants.
- `LoadingScreen`, the provider's render, `useData` and the React context plumbing: presentation only.
- `resetData`: a confirmation dialog that changes nothing.
- `addNotification` is a ghost log of calls; what the notification context does with them is not part of this model.
- Async interleaving and racing CRUD calls: each action is applied atomically with its reply. The bootstrap applies the public merge before the admin merge; `FetchOrderIrrelevant` shows the reverse order gives the same state.
- `createCrudActions` also builds add and update for subscribers, which the context never exposes; the model keeps them, since they come from the same factory.
- The catch of `fetchAllData`: `api.get` never rejects and the merge cannot throw, so it never runs.
- The `error instanceof Error` test of the AI wrappers' catch: every error raised in their try blocks is an Error, so the "An unknown error occurred." branch is unreachable and not modelled.
