# Item store backend — a Dafny model

This project models the backend API of a small demonstration service. The
service keeps an in-memory, non-persistent collection of *items*: records of
`id`, `name` and `description`. It has one id counter, `nextId`, and starts
with two sample items (ids 1 and 2) and `nextId = 3`. Five handlers under
`/api/items` list, read, create, update and delete items. Each handler answers
with an HTTP status from RFC 9110 (200 OK, 201 Created, 400 Bad Request, 404
Not Found) and a JSON envelope `{success, data | error | message}`. A catch-all
handler answers any other request with 404 "Endpoint not found". Three
stateless reporters answer `/health`, `/ready` and `/version`.

Layout (one module per file):

- `wrappers.dfy` — `Option`, for absent body fields and for a `parseInt` that yields NaN.
- `js.dfy` — the JavaScript semantics the handlers rely on:
  - truthiness of an optional string and the `||` default;
  - `parseInt` on a path parameter: optional sign, then the longest run of decimal digits;
  - the decimal rendering a client uses to build `/api/items/${id}`;
  - the round trip between the last two.
- `items.dfy` — the store as a value (`Store(items, nextId)`) and its invariant `Valid`:
  - ids are distinct and below the counter;
  - `findIndex` and `splice` on the collection.
- `http.dfy` — status codes, the response envelope, and the agreement between `success` and the status code.
- `status.dfy` — health, readiness and version reports. The clock, uptime and environment are parameters.
- `handlers.dfy` — each `/api/items` handler and the catch-all as a function from the store before a request to the store after it plus the response. Also lemmas that relate handlers (create then get, delete then get).
- `router.dfy` — route matching on verb and path segments, one request as a `Step`, runs of requests, and properties of whole runs:
  - the invariant is kept;
  - ids are never reissued;
  - item count equals creations minus deletions;
  - unmatched requests change nothing.
- `server.dfy` — the process state as a class `ItemStore`. Its fields `items` and `nextId` are updated in place by the handler methods, and each method is proved to agree with the functions above. The file also replays, against a fresh store, the requests of the backend's test suite in the order the suite sends them.

## Model

| member | source | states |
|---|---|---|
| `Items.Seed` | app/backend/src/index.js:13-17 | the initial store holds items 1 and 2, the counter is 3, and the store invariant holds |
| `Items.FindIndex` | app/backend/src/index.js:101 | the result is -1 exactly when no item matches the parsed id (NaN matches nothing); otherwise it is the first matching position |
| `Items.FindIndexOfStoredId` | app/backend/src/index.js:58 | in a store with distinct ids, searching for a stored item's id finds that item's position |
| `Items.RemoveAt` | app/backend/src/index.js:133 | splicing out position k shortens the collection by one; items before k stay in place and items after k shift down by one |
| `Items.RemoveAtKeepsValid` | app/backend/src/index.js:133 | removal keeps ids distinct and below the counter, and no remaining item holds the removed id |
| `Js.Falsy` | app/backend/src/index.js:77 | the create guard `!name` holds exactly for an absent value and the empty string |
| `Js.OrElse` | app/backend/src/index.js:87 | `v \|\| fallback` yields the fallback for an absent or empty string and the value itself otherwise |
| `Js.ParseInt` | app/backend/src/index.js:57 | NaN exactly when no digit follows the optional sign; the sign of the result follows the sign character |
| `Js.IntToString` | app/backend/__tests__/api.test.js:99 | the rendering is non-empty and starts with '-' exactly for negative numbers |
| `Js.ParseIntOfIntToString` | app/backend/src/index.js:123 | parsing a rendered integer followed by any non-digit text gives that integer back |
| `Js.ParseIntRoundTrip` | app/backend/__tests__/api.test.js:95-105 | an id rendered into a path parses back to the same id |
| `Status.Health` | app/backend/src/index.js:20-26 | always 200 and "healthy", with the given timestamp and uptime |
| `Status.Ready` | app/backend/src/index.js:29-34 | always 200 and "ready": readiness is unconditional |
| `Status.Version` | app/backend/src/index.js:37-44 | 200; each field is its environment value when set and non-empty, otherwise "1.0.0", the current time, "dev" or "local" |
| `Handlers.List` | app/backend/src/index.js:47-53 | 200 with success true, the items in stored order, and count equal to their number |
| `Handlers.Get` | app/backend/src/index.js:56-71 | 200 exactly when some stored item matches the parsed id, and then the item returned is a stored one with that id; otherwise 404 "Item not found" |
| `Handlers.GetStoredItem` | app/backend/src/index.js:58-70 | in a valid store, a GET for a stored item's id returns exactly that item |
| `Handlers.Create` | app/backend/src/index.js:74-96 | falsy name: 400 "Name is required" and the store is unchanged. Otherwise: 201 with the item (id = old counter, the given name, the description or ""); the old items are a prefix and the new item comes last; the counter rises by exactly one; the invariant is kept; the new id was held by no item |
| `Handlers.CreateWithoutName` | app/backend/__tests__/api.test.js:53-60 | a missing or empty name always yields 400 and an unchanged store, whatever the description |
| `Handlers.CreateThenGet` | app/backend/src/index.js:84-95 | after a successful create, a GET of the issued id rendered as a path returns the item with the name and description sent |
| `Handlers.Patch` | app/backend/src/index.js:112-113 | the id is kept; each field is replaced only when it is supplied, and kept otherwise (an empty name is accepted) |
| `Handlers.Update` | app/backend/src/index.js:99-119 | no match: 404 and the store is unchanged. Match: only the matching item is patched in place, every other item and the order are kept, and the patched item is returned with 200. The counter never changes; the invariant is kept |
| `Handlers.Delete` | app/backend/src/index.js:122-139 | no match: 404 and the store is unchanged. Match: exactly the matching item is removed, the rest keep their order, and the answer is 200 "Item deleted". The counter never changes; in a valid store no item with that id remains |
| `Handlers.DeleteThenGet` | app/backend/__tests__/api.test.js:89-107 | in a valid store, a GET of a just-deleted parameter is always 404 "Item not found" |
| `Handlers.EndpointNotFound` | app/backend/src/index.js:142-147 | the catch-all answers 404 with success false and "Endpoint not found" |
| `Router.Match` | app/backend/src/index.js:20-147 | each registered verb and path reaches its handler: GET on /health, /ready, /version, /api/items and /api/items/:id; POST on /api/items; PUT and DELETE on /api/items/:id. The id parameter is the third path segment, and the body fields are passed to create and update. A request is unmatched exactly when no registered verb and path pair claims it, including a registered path under another verb |
| `Router.UnknownPathUnmatched` | app/backend/src/index.js:142-147 | a request outside the registered paths falls to the catch-all |
| `Router.Step` | app/backend/src/index.js:20-147 | only create, update and delete change the store. The invariant is kept. The counter rises by one exactly on a 201, which carries the old counter as its id. The size changes by +1 on a 201, by -1 on a deletion, and not otherwise. `success` agrees with the status code. Unmatched requests get the catch-all 404 |
| `Router.RunKeepsValid` | app/backend/src/index.js:13-17 | from a valid store, any run of requests ends in a valid store with a counter no lower than at the start |
| `Router.CreatedIdsFresh` | app/backend/src/index.js:85 | the ids issued over a run strictly increase, and all lie between the start counter and the end counter |
| `Router.NoStoredIdReissued` | app/backend/src/index.js:133 | no id issued later equals the id of any item held now, even after that item is deleted |
| `Router.RunItemCount` | app/backend/src/index.js:90 | after a run, the item count equals the starting count plus the 201s minus the deletions |
| `Router.UnmatchedRunLeavesStore` | app/backend/__tests__/api.test.js:111-115 | requests that match no route leave the store unchanged and each gets 404 "Endpoint not found" |
| `Server.ItemStore.constructor` | app/backend/src/index.js:13-17 | a new store holds the seed items and satisfies the invariant |
| `Server.ItemStore.IndexOf` | app/backend/src/index.js:124 | the left-to-right scan returns the first matching position, or -1 |
| `Server.ItemStore.List` | app/backend/src/index.js:47-53 | the response is the list response of the current state |
| `Server.ItemStore.Get` | app/backend/src/index.js:56-71 | the response is the lookup response of the current state; nothing changes |
| `Server.ItemStore.Create` | app/backend/src/index.js:74-96 | the new fields and the response are those of `Handlers.Create` on the old fields; the invariant is kept |
| `Server.ItemStore.Update` | app/backend/src/index.js:99-119 | in-place field assignment yields exactly `Handlers.Update` on the old fields; the invariant is kept |
| `Server.ItemStore.Delete` | app/backend/src/index.js:122-139 | the splice yields exactly `Handlers.Delete` on the old fields; the invariant is kept |
| `Server.ItemStore.Handle` | app/backend/src/index.js:19-147 | serving a request gives the state and response of one `Router.Step`; the counter never decreases and the invariant is kept |
| `Server.TestSuiteSession` | app/backend/__tests__/api.test.js:5-115 | the suite's thirteen requests, in order, on one fresh store: the reporters answer 200 healthy, ready and version; list gives the two seed items; create gives 201 with id 3; a nameless create gives 400; GET 1 returns item 1; GET 9999 gives 404; PUT of both fields on item 1 returns them; creating "To Delete" gives id 4; DELETE 4 gives 200; GET 4 then gives 404; an unknown endpoint gives 404 "Endpoint not found" |

## Left out

- Express setup, CORS, JSON body parsing, port binding, startup logging and the SIGTERM shutdown hook (app/backend/src/index.js:1-10, 158-171) are framework and I/O plumbing.
- The 500 error handler (app/backend/src/index.js:149-156) is left out. No modelled handler can fail, so it would only be a constant response, and its `console.error` is I/O.
- Wall-clock timestamps, `process.uptime()` and `process.env` are foreign calls. They enter as parameters (`Router.Context`, `Status.Env`). Uptime is a `real`, passed through unchanged; floating-point behaviour is not modelled.
- `VERSION` is read once at startup (line 6), while the other version fields are read on each request. The model treats the environment as fixed for the life of the process, so the two readings agree. The code reads `BUILD_TIME`, `COMMIT_SHA` and `ENVIRONMENT` on each request, and defaults the build time to the request's time.
- Request routing is modelled on a verb and a pre-split path. Not modelled:
  - Express's case-insensitive matching, trailing-slash tolerance, URL decoding and query strings;
  - automatic handling of `HEAD` by GET routes, and of `OPTIONS` by the CORS middleware (the model's `Other` verb stands for the remaining verbs).
- Js.ParseInt leaves out three parts of `parseInt`:
  - skipping leading whitespace;
  - the `0x` hexadecimal prefix;
  - the loss of precision of digit strings beyond 2^53.
  It keeps the prefix behaviour, so "12abc" parses as 12.
- Request body fields are modelled as absent or a string. JSON `null`, numbers, booleans and objects are not modelled. For example, `name: null` on update would store `null`, and a numeric name on create would be stored as a number.
- Items are values in a sequence field. The in-place assignment to an item object's fields (lines 112-113) is modelled as replacing that element. The handlers serialize an item immediately and keep no other reference to it, so no aliasing is observable.
- `items.find` (line 58) is modelled as the `findIndex` scan followed by indexing.
- Handlers.Create: `nextId` is a JavaScript number, a double. The model uses an unbounded integer. Once the counter reached 2^53, `nextId++` would stop advancing it, and every later create would issue the same id. The model therefore assumes fewer than 2^53 - 3 creations over the life of the process.
- Router.CreatedIdsFresh: ids strictly increase only under that bound on the number of creations. The store invariant `Items.Valid` (distinct ids) relies on the same bound.
- Router.NoStoredIdReissued: a stored id is never issued again only under that bound on the number of creations.
- Js.IntToString: it renders every integer in plain decimal. A template literal renders numbers of 1e21 and above in exponent form, which this function does not model.
- Concurrent interleaving of requests is not modelled; each request is one atomic step.
