# Search-orchestration gateway: request pipeline model

A Dafny model of the request pipeline in `server.js`, the gateway that turns
a vehicle-listing search into scraped listings for two marketplace verticals,
coches.net and Milanuncios. Each vertical has two routes:

- `POST /cochesnet/search` validates `query`. It asks the workflow-automation
  webhook to synthesise a target URL, then scrapes that URL. It saves the
  result through a second webhook and then responds.
- `GET /cochesnet/scrape-direct` validates `url`, scrapes it as given and
  responds.
- `POST /milanuncios/search` validates `s` and builds the scraper's
  parameter object from the body. It scrapes, tries to save and responds. A
  failed save is only logged.
- `GET /milanuncios/scrape-direct` validates `url` and parses it. It copies
  the query string's key/value pairs into the scraper's parameter object,
  scrapes and responds.

Each route is a function (module `Server`) of three things: the request
body or query as a JavaScript object, and the outcome of each awaited
external call (`Ok(value)` or `Fail(message)`). It returns a `Response`
with the HTTP status, the `{success, data | error}` envelope and the
trace of outbound calls actually made. Each call in the trace carries its
arguments.

The scrapers are oracle inputs. So are the URL-synthesis and save webhooks,
and the URL parser of the direct Milanuncios route. An outcome is supplied
for each of them. A thrown error's `message` is `Option<string>`. `None` stands
for a thrown object or primitive other than `null`/`undefined` that has no
`message`, such as a thrown string.

Module `Js` gives JavaScript values, truthiness (`!v`) and property reads.

Module `MilanunciosParams` models the two parameter objects:

- The search route keeps `s` and drops `type`. It forwards every other body
  key unchanged and sets `orden` to `relevance` exactly when `orden` is
  falsy.
- The direct route folds the URL's query pairs into an object, so a later
  duplicate key overwrites an earlier one. `CollectQueryParams` is that
  `forEach` loop, proved equal to the fold.
- A plain assignment `obj["__proto__"] = "x"` does not create a property in
  JavaScript (Annex B.2.2.1 of ECMA-262). So a `__proto__` key in the query
  string never reaches the scraper. The object spread of the search route
  keeps a `__proto__` key of the body.

Invariants every route keeps:

- `WellFormed`: the status is 200, 400 or 500, and `success` holds exactly
  on 200.
- `StagesInOrder`: synthesis, scraping and persistence are each attempted
  at most once, and in that order. There are no retries.

Behaviour worth noting in `server.js`:

- An unparseable URL on `/milanuncios/scrape-direct` is a 500.
  `new URL(url)` throws inside the `try` (server.js:173, 186-188).
- The coches.net save goes to `.../webhook/cochesguardar` (server.js:65).
  The Milanuncios save goes to `.../webhook/save/milanuncios` (server.js:137).
- A synthesis response without a truthy `data` or `data.url` is a 400
  (server.js:50-55). A synthesis call that throws is a 500 (server.js:74-80).
- The two search routes use different missing-term messages:
  `No se proporcionó consulta de búsqueda` for coches.net (server.js:37) and
  `No se proporcionó término de búsqueda` for Milanuncios (server.js:114).

## Model

| member | source | states |
|---|---|---|
| `Server.CochesSearch` | server.js:32-81 | A missing or falsy `query` gives 400 with its message and no outbound call. Otherwise the first call is synthesis, made once with exactly `{query}`. A thrown synthesis gives 500 with `error.message` or the fallback. A response without truthy `data` and `data.url` gives 400 and calls neither the scraper nor the save. The scraper is called only with the synthesized URL, and the save only with exactly the scraped data. A failed save is fatal (500). The status is 200 exactly when every stage succeeded, and then the data is the scraped data unchanged. |
| `Server.CochesScrapeDirect` | server.js:84-103 | Never calls a webhook. A missing `url` gives 400 `No se proporcionó URL`. Otherwise the scraper is called once with exactly the given value. A scrape failure gives 500 with the raw `message`, or no `error` when the message is undefined. The status is 200 exactly when the scrape succeeded, carrying its data. |
| `Server.MilanunciosSearch` | server.js:108-159 | Never calls synthesis. A missing `s` gives 400 and no call. Otherwise the scraper is called first with `SearchParams(body)`. A scrape failure gives 500 with `error.message` or the fallback, and no save. A scrape success gives 200 with the scraped data, whatever the save does, and the save carries exactly that data. |
| `Server.MilanunciosScrapeDirect` | server.js:162-190 | Never calls a webhook. A missing `url` gives 400. An unparseable URL gives 500 with the raw message and no call. Otherwise the scraper is called once with exactly `QueryParams` of the URL's pairs. The status is 200 exactly when parse and scrape succeeded, carrying the scraped data. |
| `Server.SearchError` | server.js:76-79 | The search routes' failure text is never empty. It is the error's own message when that message is present and non-empty, and otherwise `Error al procesar la búsqueda`. |
| `Server.PersistencePolicyDiverges` | server.js:62-157 | With the same scraped data and the same failed save, coches.net answers 500 after calling synthesis, scraper and save, while Milanuncios answers 200 carrying the data. |
| `Server.MilanunciosSaveUnobservable` | server.js:136-151 | On the Milanuncios search route, the response and the trace are identical whatever the save webhook did. |
| `Server.OrdenDefaultOnlyOnSearch` | server.js:126-182 | The search route's scraper parameters always carry a truthy `orden`. The direct route's carry `orden` exactly when the URL's query string has it, so no default is applied. |
| `MilanunciosParams.SearchParams` | server.js:110-129 | The keys are the body's keys without `type`, plus `s` and `orden`. `s` is the body's `s`. Every other body key keeps its value. `orden` is the body's when truthy and `relevance` otherwise. |
| `MilanunciosParams.QueryParamsLastWins` | server.js:173-179 | A key is in the collected object exactly when some query pair has it and it is not `__proto__`. Its value is that of the last pair with that key. |
| `MilanunciosParams.QueryParams` | server.js:174-179 | The object filled from `{}` by the `forEach` over the URL's query pairs never has a `__proto__` property, and every value in it is a string. |
| `MilanunciosParams.AssignString` | server.js:178 | `searchParams[key] = value` with a string value: for `__proto__` the object is unchanged. Any other key is set to the value, added if new, and every other property is unchanged. |
| `MilanunciosParams.CollectQueryParams` | server.js:174-179 | The `forEach` loop that fills `searchParams` pair by pair yields exactly the fold `QueryParams` over the pairs. |

## Left out

- Express setup, CORS, the JSON middleware, static files and the fallback file lookup (server.js:10-29, 214-221) are framework and filesystem I/O.
- `/api/system-info` (server.js:193-212) returns constant data and a wall-clock timestamp, with no decisions in it.
- `app.listen` and every `console.log` / `console.error` are process bootstrap and logging.
- The HTTP behaviour of axios is left out. A non-2xx status or a transport error is simply a `Fail` outcome of the webhook call.
- The two scraper modules (`./cochesnet/scraper-coches`, `./milanuncios/scraper`) are not part of this model. Their result or error is an input.
- `new URL(...)` and `URLSearchParams` parsing are left out. The parse is an input: it fails, or gives the query's pairs in order.
- An outcome is a fixed input, not a function of the call's argument. The trace records the argument each call was made with.
- JavaScript numbers are integers here. Fractions, `NaN` and `-0` are not modelled (`NaN` and `-0` are falsy).
- Objects are maps, so the enumeration order of their keys is not modelled.
- Turning the envelope into JSON text is not modelled (for example, an `undefined` `data` is left out of the JSON).
- Concurrent requests share no state, so each route is a separate function evaluation. Two identical requests give two independent traces. No lemma states this separately.
- A thrown or rejected `null` or `undefined` is not modelled. Reading `.message` in the `catch` (server.js:78, 101, 146, 156, 188) then throws again and no response is sent. axios never rejects that way.
