# Sand-level monitor: ingestion routes and dashboard tick

This project models the sequential core of a gas-pipeline sand-level monitor.
It covers two parts:

- **Ingestion routes.** Two variants of the same push route: `src/app/api/old-route.ts` and `src/app/api/routes.ts`. Each keeps one module-level reading, `latestSensorData`. Its `POST` checks that `sandLevel` is a number and then replaces the whole record in one assignment. Falsy `samplingRate` and `sampleInterval` become 1 and 1000.
- **Dashboard.** The tick of `PipelineMonitor.fetchData` in `1-pipeline-monitor/src/app/dashboard.tsx`. It takes one settled fetch and updates five state slots. It keeps a trailing history of at most 30 points and sorts the reading into the normal, warning or critical band.

Modules, one per file:

- `Results` (`results.dfy`): `Option` and `Result`.
- `Json` (`json.dfy`): the JavaScript values a handler sees after `request.json()`, plus `undefined`. It states `typeof`, truthiness, the `||` operator and property reads. A property read on `null` throws; on an object the last member with that key wins.
- `Http` (`http.dfy`): a `Response` is a status, a header map and a body. `NewResponse` follows the Fetch Standard's `Response` constructor: a string body with no `Content-Type` gets `text/plain;charset=UTF-8`. A body built as `JSON.stringify(v)` is kept as the value `v`.
- `Ingest` (`ingest.dfy`): the record and the validate-and-build step that both route files run line for line.
- `OldRoute` (`old_route.dfy`) and `Routes` (`routes.dfy`): one `Store` class per route file. Its field `latestSensorData` is reassigned by `Post`. `GET` and `OPTIONS` are as each file writes them.
- `Dashboard` (`dashboard.dfy`):
  - the pure parts: classification, badge colour, connection label, alert text and the `slice(-30)` window;
  - `Next`, the transition of one tick, with lemmas about one tick and about any run of ticks;
  - the class `Monitor`, whose five fields `Tick` updates step by step, proved to follow `Next`.

Parameters stand in for what the code reads from its environment:

- `now`: `Date.now()`.
- `time`: `toLocaleTimeString()`.
- `level`: the floored random draw of the generated `GET`.
- `round2`: `parseFloat(x.toFixed(2))`. It is an uninterpreted function fixed when the `Monitor` is built.

Four behaviours of the code are worth noting, and the model keeps them:

- Both route variants answer a refused push with 500, never 400.
- A truthy but non-numeric `samplingRate` (a string, say) is stored as it is, not coerced to a number.
- Negative `sandLevel` values are accepted.
- The `GET` of `routes.ts` serves generated data, not the stored reading.

## Model

| member | source | states |
|---|---|---|
| Json.TypeOf | src/app/api/old-route.ts:28 | `typeof` is one of the five names a parsed value can have; it is "object" exactly for null, arrays and objects, and "undefined" exactly for undefined |
| Json.Truthy | src/app/api/old-route.ts:35-36 | null and undefined are falsy; arrays and objects are truthy |
| Json.TypeOfNumber | src/app/api/old-route.ts:28 | `typeof v === 'number'` holds exactly of numbers |
| Json.Or | src/app/api/old-route.ts:35-36 | the or-operator `a or b` is one of its operands, the left when it is truthy and the right otherwise; it is truthy iff either operand is |
| Json.Lookup | src/app/api/old-route.ts:28 | reading a key of a parsed object gives the value of the last member with that key, and undefined when no member has it |
| Json.Property | src/app/api/old-route.ts:34-36 | reading a field of a non-object value gives undefined |
| Json.Field | src/app/api/routes.ts:56 | `data.sandLevel` throws exactly when `data` is null or undefined, and otherwise yields the property |
| Http.NewResponse | src/app/api/old-route.ts:49-52 | a Response keeps the given status, headers and body; a string body without a Content-Type header gets text/plain |
| Ingest.Initial | src/app/api/old-route.ts:4-9 | the store starts as sandLevel 0, samplingRate 1, sampleInterval 1000, stamped with load time; both rate fields are truthy |
| Ingest.ToJson | src/app/api/old-route.ts:13 | a record serialises to an object of four members whose sandLevel, samplingRate, sampleInterval and timestamp read back as the record's fields |
| Ingest.Accept | src/app/api/old-route.ts:25-38 | a push is accepted iff the body parses, is not null and its sandLevel has typeof number; the new record copies sandLevel, takes each rate if truthy else 1 or 1000, and is stamped now; a parse error or null body fails with the thrown message, any other non-number with the not-a-number rejection (routes.ts:53-66 is identical apart from the not-a-number message text, which old-route never surfaces) |
| Ingest.ReingestKeepsReading | src/app/api/old-route.ts:12-38 | pushing back what GET served re-stores the same reading with only the timestamp renewed |
| Ingest.NumberAcceptedStringRefused | src/app/api/old-route.ts:28-38 | `{sandLevel: 12}` is accepted with default rates; `{sandLevel: "12"}` is refused |
| OldRoute.UpdatedBody | src/app/api/old-route.ts:40 | the success body is an object whose message reads "Sensor data updated successfully" |
| OldRoute.Store.constructor | src/app/api/old-route.ts:4-9 | the store starts as the initial record |
| OldRoute.Store.Get | src/app/api/old-route.ts:12-20 | GET answers 200 with the stored record as JSON, Content-Type application/json and Access-Control-Allow-Origin *, and changes nothing |
| OldRoute.Store.Post | src/app/api/old-route.ts:23-54 | a numeric sandLevel replaces the record with the accepted one and answers 200 `{message: "Sensor data updated successfully"}`; otherwise the record is unchanged and the answer is 500 with text "Failed to update sensor data"; every answer allows any origin |
| OldRoute.Options | src/app/api/old-route.ts:57-65 | OPTIONS answers 204 with no body, any origin, methods "GET, POST, OPTIONS" and headers "Content-Type" |
| OldRoute.PushThenRead | src/app/api/old-route.ts:12-38 | after pushing sandLevel 12, GET shows 12; a following push of "12" is refused with 500 and GET still shows the same body |
| Routes.RejectionMessage | src/app/api/routes.ts:56-81 | a refused push reports the thrown error's message, and the not-a-number rejection reports "Invalid data format: sandLevel must be a number" |
| Routes.UpdatedBody | src/app/api/routes.ts:68-71 | the success body is an object whose message reads "Data updated successfully" and whose data is the stored record's serialisation |
| Routes.ErrorBody | src/app/api/routes.ts:80-82 | the failure body is an object whose error reads the given message |
| Routes.Store.constructor | src/app/api/routes.ts:12-17 | the store starts as the initial record |
| Routes.Store.Post | src/app/api/routes.ts:51-90 | a numeric sandLevel replaces the record and answers 200 `{message: "Data updated successfully", data}` with data the new record; otherwise the record is unchanged and the answer is 500 `{error: message}`; every answer is JSON and allows any origin |
| Routes.Get | src/app/api/routes.ts:20-37 | GET reads no store; it answers 200 with the drawn sandLevel, samplingRate 1, sampleInterval 1000, timestamp now, Cache-Control no-store and any origin |
| Routes.GetFailed | src/app/api/routes.ts:38-47 | GET's catch answer is 500 `{error: "Internal Server Error"}` as JSON, allowing any origin |
| Routes.Options | src/app/api/routes.ts:93-101 | OPTIONS answers 204 with no body, any origin, methods "GET, POST, OPTIONS" and headers "Content-Type, Authorization" |
| Routes.EchoReadsBack | src/app/api/routes.ts:68-71 | the `data` echoed by a successful POST reads back field by field as the stored record |
| Dashboard.Classify | 1-pipeline-monitor/src/app/dashboard.tsx:50-56 | critical iff level > 1000, warning iff 500 < level <= 1000, normal iff level <= 500 |
| Dashboard.ClassifyMonotonic | 1-pipeline-monitor/src/app/dashboard.tsx:50-56 | a higher level never gives a lower band |
| Dashboard.StatusColor | 1-pipeline-monitor/src/app/dashboard.tsx:71-80 | the badge is bg-red-500 iff critical, bg-yellow-500 iff warning, bg-green-500 iff normal |
| Dashboard.StatusColorOfLevel | 1-pipeline-monitor/src/app/dashboard.tsx:71-80 | the badge is bg-red-500 iff level > 1000, bg-yellow-500 iff in (500, 1000], bg-green-500 iff <= 500 |
| Dashboard.AlertText | 1-pipeline-monitor/src/app/dashboard.tsx:152-154 | the normal band reads "System operating normally"; any other band reads its name with the first letter upper-cased, followed by " - Check pipeline" |
| Dashboard.AlertTextWarning | 1-pipeline-monitor/src/app/dashboard.tsx:152-154 | the warning band's alert reads "Warning - Check pipeline" |
| Dashboard.AlertTextCritical | 1-pipeline-monitor/src/app/dashboard.tsx:152-154 | the critical band's alert reads "Critical - Check pipeline" |
| Dashboard.AlertTextNormalOnly | 1-pipeline-monitor/src/app/dashboard.tsx:152-154 | the alert reads "System operating normally" exactly in the normal band |
| Dashboard.ConnectionLabel | 1-pipeline-monitor/src/app/dashboard.tsx:132-133 | the badge reads DISCONNECTED iff the error is set and non-empty, CONNECTED otherwise |
| Dashboard.ErrorText | 1-pipeline-monitor/src/app/dashboard.tsx:60 | every error line starts with "Failed to fetch data from sensor: " |
| Dashboard.Slice | 1-pipeline-monitor/src/app/dashboard.tsx:48 | `slice(start)` returns a suffix; a negative start keeps the last -start elements, or all when there are fewer |
| Dashboard.LastN | 1-pipeline-monitor/src/app/dashboard.tsx:48 | the last n elements, or all when there are fewer, as a suffix |
| Dashboard.LastNAppend | 1-pipeline-monitor/src/app/dashboard.tsx:42-48 | truncating before appending more and truncating again equals truncating once at the end |
| Dashboard.Window | 1-pipeline-monitor/src/app/dashboard.tsx:42-48 | the history after one append is the last 30 of old history plus the point |
| Dashboard.WindowFifo | 1-pipeline-monitor/src/app/dashboard.tsx:42-48 | the new history has length min(old+1, 30), ends with the new point, and the rest is the newest part of the old history |
| Dashboard.Level | 1-pipeline-monitor/src/app/dashboard.tsx:39 | a tick passes the `!data.sandLevel` check iff a decoded object arrived whose sandLevel is present and non-zero |
| Dashboard.Next | 1-pipeline-monitor/src/app/dashboard.tsx:33-64 | a tick always ends loading; it clears the error iff it is accepted; an accepted tick stores the object and sets the band of its level |
| Dashboard.InitialConsistent | 1-pipeline-monitor/src/app/dashboard.tsx:27-31 | the mount state (no reading, no history, normal, no error) satisfies the invariant |
| Dashboard.NextConsistent | 1-pipeline-monitor/src/app/dashboard.tsx:33-64 | every tick keeps history within 30, the band equal to the current reading's band, the newest point equal to its rounded level, and the error prefixed |
| Dashboard.ConnectionLabelTellsError | 1-pipeline-monitor/src/app/dashboard.tsx:132-133 | in every consistent state the label is DISCONNECTED iff an error is set |
| Dashboard.RefusedTickKeepsReading | 1-pipeline-monitor/src/app/dashboard.tsx:59-62 | a failed or refused tick changes only the error line and the loading flag |
| Dashboard.ZeroOrMissingRefused | 1-pipeline-monitor/src/app/dashboard.tsx:39 | a missing or zero sandLevel sets "Failed to fetch data from sensor: Invalid data format" and keeps reading, history and band |
| Dashboard.AcceptedTick | 1-pipeline-monitor/src/app/dashboard.tsx:41-58 | an accepted tick stores the object, appends its rounded point keeping the last 30, sets the band of its level whatever the old band, and clears the error |
| Dashboard.TickEndsLoading | 1-pipeline-monitor/src/app/dashboard.tsx:61-62 | loading is false after every tick |
| Dashboard.NextHistory | 1-pipeline-monitor/src/app/dashboard.tsx:42-48 | one tick's history is the last 30 of the old history plus what the tick contributes |
| Dashboard.RunHistory | 1-pipeline-monitor/src/app/dashboard.tsx:42-48 | after any run of ticks the history is the last 30 of the old history followed by the accepted ticks' points in order |
| Dashboard.AllAcceptedPoints | 1-pipeline-monitor/src/app/dashboard.tsx:44-47 | in a run of accepted ticks each tick contributes the point of its time and rounded level |
| Dashboard.ThirtyOneAcceptedTicks | 1-pipeline-monitor/src/app/dashboard.tsx:48 | after 31 accepted ticks from mount the first point is evicted and points 2..31 remain in order |
| Dashboard.Monitor.constructor | 1-pipeline-monitor/src/app/dashboard.tsx:27-31 | at mount the reading and error are null, history empty, status normal, loading true |
| Dashboard.Monitor.Tick | 1-pipeline-monitor/src/app/dashboard.tsx:33-64 | a tick updates the five slots exactly as Next says, keeps the invariant, and ends not loading |

## Left out

- `src/app/api/route.ts`, the proxy that fetches the sensor under a 10-second timeout, is not part of this model. It is timing and cancellation with no state. Its fallback is a constant zero record, not a cached reading, so the "stale cached reading on timeout" behaviour has no counterpart in the code.
- `routes.ts` GET takes its random sandLevel `Math.floor(Math.random() * 1000)` as a parameter in [0, 1000). Randomness and float arithmetic are not modelled.
- `Routes.GetFailed` is modelled as the answer the catch branch builds. Nothing in GET's try block can throw, so no input reaches it.
- Polling with `setInterval`/`useEffect` is not modelled: timers, overlapping requests and out-of-order responses are concurrency. One tick is modelled with its fetch already settled.
- Float formatting is not modelled. `parseFloat(toFixed(2))` is the uninterpreted `round2`, and the display formatting at dashboard lines 108, 124 and 128 is left out.
- Numbers are reals. JSON text cannot encode NaN, so 0 is the only falsy number either side can receive. 32-bit and float precision are not modelled.
- Ingest.Accept: a numeric literal too large for a double (`1e400`) parses to Infinity, whose typeof is still "number", so both POSTs accept and store it, and `JSON.stringify` then writes it as `null` in GET and in the echo. The model keeps the exact real, so it accepts such a push but reads back the number instead of `null`.
- Dashboard answers are limited to a failure or a decoded object whose sandLevel is numeric or absent. A truthy non-number sandLevel fails inside React's deferred state updater, at a time React decides. A null answer throws a TypeError at line 39; it can be written as `Failed(ErrorObject(message))`.
- JSX rendering, charts, UI components, icons, `console.error` logging and the `process.env` URL default are presentation, library calls or configuration. This includes the status badge text at line 111.
- `toast.d.ts` is a type declaration with no logic.
- Response bodies are kept as values, not serialised text. Header names are compared as written, not case-insensitively.
- Property reads model only the keys the code reads or writes (`sandLevel`, `samplingRate`, `sampleInterval`, `timestamp`, `message`, `data`, `error`). Prototype properties such as an array's `length` are not modelled.
- The TypeError for reading a property of null uses V8's wording. Other engines word it differently.
