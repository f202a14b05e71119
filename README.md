# Tive webhook ingestion, modelled in Dafny

This project models the telemetry-ingestion path of the Tive integration API. A tracker event arrives at `POST /api/webhook/tive` as JSON. The handler does the following, in order:

1. It checks the `x-api-key` header.
2. It decodes the body as JSON, answering 400 "Invalid JSON" when that fails.
3. It validates the body against the zod schema `TiveSchema`.
4. It rejects coordinates that are out of range.
5. It normalises the event into two canonical records: a sensor reading and a location reading.
6. It computes advisory timestamp warnings.
7. It appends a raw audit row.
8. It upserts the two records into their tables, keyed by the identity triple (device IMEI, event timestamp, provider `"Tive"`).

Files and modules:

- `wrappers.dfy` (`Wrappers`): `Option` and `Result`.
- `json.dfy` (`JsonValues`): decoded JSON values, key-path lookup (`At`), and the "absent or `null`" test.
- `schema.dfy` (`TiveSchema`): the schema as `Validate`, a function from a JSON document to a payload or to the set of paths of the offending fields. It also holds a declarative reading of the schema (`Conforms`) and `Encode`, the document a payload is read from.
- `tive.dfy` (`Tive`): the rest of `src/lib/tive.ts`:
  - `ValidateLatLng`;
  - `TimestampWarnings`, a method that builds its list step by step and takes the clock reading as a parameter;
  - `Round`, `R1` and `R2`;
  - the normalisers `ToPxSensor` and `ToPxLocation`.
- `store.dfy` (`Store`): the database as a class. It holds:
  - the audit sequence;
  - two maps from the identity triple to (id, record);
  - one id counter per table;
  - a ghost log of the writes received, in order.

  The module also defines the pure upsert function `Upserted`, which the class methods are specified by.
- `route.dfy` (`Route`): the `POST` handler as the method `Post` over a `Store`, with its early returns. It also holds `join('; ')` and the client-level re-send properties.

Numbers are Dafny `real`. JavaScript's `Math.round(x)` is modelled as `Floor(x + 1/2)`. The request's key, the configured key, the decoded body and the current time are all parameters.

Notes on the code's behaviour:

- Rounding. `Math.round` sends ties toward +∞, so `r2(-0.125)` is `-0.12` (`Tive.RoundingExamples`).
- Timestamp warnings. The two thresholds of `timestampWarnings` are disjoint: "more than a day ahead" and "more than five years behind". So at most one warning fires (`Tive.AtMostOneWarning`).
- Authentication. The handler checks the API key itself, so the check is modelled.

## Model

| member | source | states |
|---|---|---|
| `TiveSchema.Validate` | tive-assignment/tive-integration-api/src/lib/tive.ts:3-47 | a rejection always carries at least one issue path; an accepted payload has non-empty id and name, a non-negative epoch and a battery in [0,100] |
| `TiveSchema.ValidateAcceptsExactly` | tive-assignment/tive-integration-api/src/lib/tive.ts:3-47 | the schema accepts a document iff it conforms key path by key path: required strings non-empty, epoch a whole number ≥ 0, Celsius/Latitude/Longitude numbers, each optional block absent, null or well-typed, battery a whole number in [0,100], Wi-Fi count a whole number |
| `TiveSchema.NonObjectRejectedAtRoot` | tive-assignment/tive-integration-api/src/lib/tive.ts:3 | a document that is not an object is rejected with one issue at the root path |
| `TiveSchema.MissingRequiredReported` | tive-assignment/tive-integration-api/src/lib/tive.ts:3-22 | a missing required top-level field is rejected and its path is among the issues |
| `TiveSchema.MissingNestedReported` | tive-assignment/tive-integration-api/src/lib/tive.ts:7-12 | a Temperature block without Celsius, or a Location block without Latitude or Longitude, is rejected and that field's nested path is among the issues |
| `TiveSchema.ValidateReadsRequired` | tive-assignment/tive-integration-api/src/lib/tive.ts:4-12 | an accepted payload's id, name, epoch, Celsius, latitude and longitude are the document's values |
| `TiveSchema.ValidateReadsReadings` | tive-assignment/tive-integration-api/src/lib/tive.ts:23-46 | humidity, light, battery and cellular are missing iff their block is absent or null, otherwise they are the block's value |
| `TiveSchema.ValidateReadsLocation` | tive-assignment/tive-integration-api/src/lib/tive.ts:13-21 | formatted address, location method, accuracy (block and Meters) and Wi-Fi count are missing iff absent or null, otherwise the document's value |
| `TiveSchema.LocationBlockReads` | tive-assignment/tive-integration-api/src/lib/tive.ts:10-22 | an accepted Location block is an object, and each of its optional details is missing iff the block's field is absent or null, otherwise that field's value |
| `TiveSchema.ValidateEncode` | tive-assignment/tive-integration-api/src/lib/tive.ts:3-47 | round trip: every well-formed payload is accepted back, unchanged, from its own document |
| `TiveSchema.ValidateStable` | tive-assignment/tive-integration-api/src/lib/tive.ts:3-47 | re-validating the document of an accepted payload gives the same payload (unknown keys are dropped for good) |
| `TiveSchema.EpochAt` | tive-assignment/tive-integration-api/src/lib/tive.ts:6 | an accepted epoch is a non-negative integer equal to the JSON number; a failure is reported at the field's path |
| `TiveSchema.BatteryAt` | tive-assignment/tive-integration-api/src/lib/tive.ts:35-40 | an accepted battery percentage is an integer in [0,100] equal to the JSON number; absent/null gives none; issues lie under the block's path |
| `TiveSchema.NumberBlockAt` | tive-assignment/tive-integration-api/src/lib/tive.ts:23-46 | an optional one-number block yields none iff absent or null, otherwise the block's number; issues lie under the block's path |
| `TiveSchema.NullableIntegerAt` | tive-assignment/tive-integration-api/src/lib/tive.ts:21 | an accepted Wi-Fi count equals the JSON number; a failure is reported at the field's path |
| `Tive.ValidateLatLng` | tive-assignment/tive-integration-api/src/lib/tive.ts:51-55 | no message iff -90 ≤ lat ≤ 90 and -180 ≤ lng ≤ 180 (bounds accepted); the latitude message wins when both are out of range |
| `Tive.TimestampWarnings` | tive-assignment/tive-integration-api/src/lib/tive.ts:57-63 | "Timestamp far in the future" is present iff epoch > now + 86 400 000; "Timestamp very old" iff epoch < now − 157 680 000 000; nothing else, no repeats |
| `Tive.AtMostOneWarning` | tive-assignment/tive-integration-api/src/lib/tive.ts:60-61 | the thresholds are disjoint, so the list has at most one element |
| `Tive.PlausibleEpochNoWarning` | tive-assignment/tive-integration-api/src/lib/tive.ts:60-61 | an epoch within the window, either threshold included, gets no warning |
| `Tive.WarningsDetermined` | tive-assignment/tive-integration-api/src/lib/tive.ts:57-63 | the warnings are exactly `[future]`, `[old]` or `[]` according to the epoch and the clock |
| `Tive.Round` | tive-assignment/tive-integration-api/src/lib/tive.ts:65-66 | `Math.round`: the result is within half of x, a tie going up |
| `Tive.RoundIsNearest` | tive-assignment/tive-integration-api/src/lib/tive.ts:65-66 | that nearest-integer property determines `Math.round` uniquely |
| `Tive.R1` | tive-assignment/tive-integration-api/src/lib/tive.ts:65 | `r1(x)` is a multiple of 1/10 within 1/20 of x |
| `Tive.R2` | tive-assignment/tive-integration-api/src/lib/tive.ts:66 | `r2(x)` is a multiple of 1/100 within 1/200 of x |
| `Tive.R1Idempotent` | tive-assignment/tive-integration-api/src/lib/tive.ts:65 | `r1(r1(x)) = r1(x)` |
| `Tive.R2Idempotent` | tive-assignment/tive-integration-api/src/lib/tive.ts:66 | `r2(r2(x)) = r2(x)` |
| `Tive.RoundingExamples` | tive-assignment/tive-integration-api/src/lib/tive.ts:65-66 | 21.2349 stores as 21.23, 55.26 as 55.3, and the tie -0.125 as -0.12 |
| `Tive.ToPxSensor` | tive-assignment/tive-integration-api/src/lib/tive.ts:68-84 | filed under (DeviceId, EntryTimeEpoch, "Tive"); device_id is the display name, device_imei the id, type "Active"; temperature in hundredths within 1/200 of Celsius; humidity and light missing iff missing, else `r1` of the reading |
| `Tive.ToPxLocation` | tive-assignment/tive-integration-api/src/lib/tive.ts:86-106 | filed under the same triple; coordinates copied unrounded; accuracy, source, battery, cellular and Wi-Fi missing iff missing, else the value itself |
| `Tive.RecordsShareIdentity` | tive-assignment/tive-integration-api/src/lib/tive.ts:68-106 | both records of a payload carry the identity triple (DeviceId, EntryTimeEpoch, "Tive") |
| `Tive.FormattedAddressDropped` | tive-assignment/tive-integration-api/src/lib/tive.ts:13 | changing the formatted address changes neither record |
| `Tive.SensorReadsDocument` | tive-assignment/tive-integration-api/src/lib/tive.ts:79-81 | from the received document: temperature is `r2` of its Celsius; humidity/light missing iff their block is absent or null, else `r1` of the block's reading |
| `Tive.LocationReadsDocument` | tive-assignment/tive-integration-api/src/lib/tive.ts:99-103 | from the received document: each optional location value is missing iff absent or null there, otherwise the document's value unchanged |
| `Tive.ZeroBatteryKept` | tive-assignment/tive-integration-api/src/lib/tive.ts:101 | a reported 0 % battery is stored as 0, not as missing (`??`, not `\|\|`) |
| `Store.Upserted` | tive-assignment/tive-integration-api/src/app/api/webhook/tive/route.ts:88-98 | after an upsert the key holds exactly the record under its old id or a new one, the key set grows by at most that key, other rows are unchanged |
| `Store.UpsertKeepsIdsFresh` | tive-assignment/tive-integration-api/src/app/api/webhook/tive/route.ts:88-111 | upserting keeps row ids distinct and below the next id to issue |
| `Store.UpsertRowCount` | tive-assignment/tive-integration-api/src/app/api/webhook/tive/route.ts:88-111 | an upsert adds a row only for a new identity |
| `Store.UpsertTwice` | tive-assignment/tive-integration-api/src/app/api/webhook/tive/route.ts:88-111 | two upserts at one key equal the second alone and return the same id |
| `Store.Store.AppendAudit` | tive-assignment/tive-integration-api/src/app/api/webhook/tive/route.ts:76-85 | appends exactly one audit row; both tables unchanged |
| `Store.Store.UpsertSensor` | tive-assignment/tive-integration-api/src/app/api/webhook/tive/route.ts:88-98 | the sensor table becomes `Upserted(old, key, record)` and the returned id is the row's; audit and location table unchanged |
| `Store.Store.UpsertLocation` | tive-assignment/tive-integration-api/src/app/api/webhook/tive/route.ts:101-111 | the location table becomes `Upserted(old, key, record)` and the returned id is the row's; audit and sensor table unchanged |
| `Route.Join` | tive-assignment/tive-integration-api/src/app/api/webhook/tive/route.ts:83 | `join`: one part joins to itself, none to ""; the length is the parts' total plus one separator between neighbours |
| `Route.JoinSnoc` | tive-assignment/tive-integration-api/src/app/api/webhook/tive/route.ts:83 | joining a longer list appends the separator and the new part |
| `Route.JoinedWarnings` | tive-assignment/tive-integration-api/src/app/api/webhook/tive/route.ts:83 | the audit's `warnings` column is null iff the list is empty |
| `Route.AuditWarningText` | tive-assignment/tive-integration-api/src/app/api/webhook/tive/route.ts:73-85 | the audit's warning text is the single message the epoch draws, or null |
| `Route.AcceptedExactly` | tive-assignment/tive-integration-api/src/app/api/webhook/tive/route.ts:29-68 | a request passes every check iff the key matches, a body was decoded, it conforms to the schema and its coordinates are in range |
| `Route.Post` | tive-assignment/tive-integration-api/src/app/api/webhook/tive/route.ts:27-122 | 401 "Unauthorized" for a missing, empty or wrong key, 400 "Invalid JSON", 400 "Validation failed" with the issue paths, or 400 with the coordinate message, each leaving the store unchanged; on success 200 "ok": one audit row with the joined warnings, then the sensor upsert, then the location upsert at the payload's identity (in that order, nothing else written), the two row ids, and exactly the timestamp warnings |
| `Route.ResendReplaces` | tive-assignment/tive-integration-api/src/app/api/webhook/tive/route.ts:88-118 | two accepted events with one identity return the same two ids, and each table ends as if only the second had been upserted |
| `Route.ExampleAccepted` | tive-assignment/tive-integration-api/src/app/api/webhook/tive/route.ts:47-72 | the event (D1, Truck1, 1700000000000, Celsius c, (40, −70)) is accepted and filed under (D1, 1700000000000, Tive) with temperature c when c is in hundredths |
| `Route.ExampleResend` | tive-assignment/tive-integration-api/src/app/api/webhook/tive/route.ts:27-122 | sending that event to an empty store and re-sending it with another temperature gives the same ids, no warnings, one row per table, holding the second temperature |

## Left out

- `OPTIONS`, `withCors` and the `runtime` export (route.ts:11-24) are HTTP header plumbing. The response is modelled as a status code and a body datatype.
- Reading the `x-api-key` header and `process.env.WEBHOOK_API_KEY` is not modelled. Both keys are parameters, and an unset key is `None`. Multi-valued header joining is not modelled.
- Text-level parsing (`req.json()`) is not modelled. The body is an `Option<Json>`, with `None` for unparseable text. Duplicate keys are not modelled.
- `Validate` reports the set of issue paths. It does not model the issue messages or codes, or the shape of zod's `flatten()`. One issue per failing check is kept; zod can raise several issues at one path.
- The audit row stores the parsed payload (`payload: tive`). In the model an optional block that was `null` and one that was absent are both `None`. So the stored blob does not record which of the two the sender used.
- `new Date(...)` and `BigInt(...)` are not modelled. Timestamps are integer milliseconds. An epoch beyond the JavaScript date range or the 64-bit column makes Prisma throw, and that path is not modelled.
- Prisma exceptions, transactions and partial failure are not modelled. For example, the audit row stays in place if a later upsert fails. The handler does not catch these errors. Such a request ends in a server error that the model does not produce.
- How Prisma issues row ids is not modelled; the database schema is not part of this model. Each table issues ids from its own counter on create and keeps the id on update.
- IEEE-754 arithmetic is not modelled. Numbers are reals, so the rounding error of `n * 100` and of the division is not captured. Neither are the `Infinity` that a JSON literal such as `1e999` decodes to, and that `z.number()` lets through, nor negative zero.
- Concurrent upserts on one identity are not modelled. Their atomicity is the database's concern.
- The mock sender UI (tive-mock-sender/src/app/page.tsx) is a form that fires sample payloads with `fetch`. It has no logic to verify.
- The clock (`Date.now()`) is not read; the time is a parameter of the warning computation and of the handler.
