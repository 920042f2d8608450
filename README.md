# Device-query handler of timestream-test, in Dafny

This project models the request-decision logic of the HTTP handler in
`timestream-test/app.ts`, which serves device telemetry from a time-series
store. The handler reads three optional parameters: `timeWindow` and `ids`
from the query string, and `deviceId` from the path. It works through these
steps:

1. It defaults a missing or empty window to `1m` and checks it against
   `^[1-9]\d*[mhd]$`.
2. When `ids` is present, it splits the parameter on commas and checks that
   every segment is a version 4 UUID.
3. When `ids` is absent, it checks a non-empty `deviceId` the same way.
4. It builds the query's `IN (...)` or `= '...'` filter and its
   `ago(<window>)` bound, runs the query, and flattens the result rows by
   position into `{time, id?, value, measureName}` records.

The handler answers with one of four 400 messages, one of two 200 shapes, or
a 500 when the query call fails.

The model is a set of pure functions, the same shape as the source's chain of
`const` bindings and early returns:

- `wrappers.dfy` (`Wrappers`): `Option`, which stands for JavaScript's
  `undefined`.
- `text.dfy` (`Text`): the runtime primitives the handler relies on. These are
  `Array.prototype.map`, `String.prototype.split` with one separator
  character, `Array.prototype.join`, ASCII digits, and `parseInt(_, 10)`.
  Lemmas give what `map` keeps (count and order), that `split` and `join`
  invert each other, and that `parseInt` reads back a rendered integer.
- `validation.dfy` (`Validation`): the two patterns. Each is written twice:
  once piece by piece in the shape of the regular expression (the form the
  handler uses), and once as a statement about every position. A lemma proves
  the two forms agree. The time window is also tied to "a positive number
  without a leading zero, then a unit".
- `query.dfy` (`DeviceQuery`): the two query shapes, their select lists, and
  the interpolated filter and time-bound fragments.
- `rows.dfy` (`Rows`): positional decoding of result rows, tied to the
  column order of each select list.
- `handler.dfy` (`Handler`): request, upstream outcome, response, and the
  handler itself. `Plan` is the decision made before the upstream call,
  `Respond` is the shaping of its outcome, and `Handle` joins them. Lemmas
  state every branch in terms of the positional validity predicates.
- `scenarios.dfy` (`Scenarios`): example requests and their responses.

The upstream query call is an input value: `Upstream = Answered(rows) |
Threw(errorMessage)`. `errorMessage` is `None` when the thrown value is not
an `Error`.

Where JavaScript semantics decide an edge case, the model follows them:

- An empty `timeWindow` also falls back to `1m`, because `||` treats `""`
  as false.
- An empty `ids` still takes the several-devices branch, because `"".split(',')`
  is `[""]`, and is then rejected.
- An empty path `deviceId` counts as absent.
- Both 200 responses, like the 500, carry `Content-Type: application/json` as
  well as the CORS header. The 400 responses carry no headers at all.

## Model

| member | source | states |
|---|---|---|
| Text.Map | timestream-test/app.ts:56-59 | `rows.map(...)` gives exactly one result per row |
| Text.MapAt | timestream-test/app.ts:101-104 | result `i` of the row mapping is the decoding of row `i`, so order is kept |
| Text.Split | timestream-test/app.ts:25 | `split(',')` gives at least one segment, and no segment contains a comma |
| Text.JoinSplit | timestream-test/app.ts:25 | joining the segments with a comma gives back the raw `ids` text, so no character is lost or added |
| Text.SplitJoin | timestream-test/app.ts:25 | splitting a comma-join of comma-free parts gives exactly those parts, empty ones included |
| Text.JoinSplitReplaces | timestream-test/app.ts:47 | `split(',')` then `join("','")` is replacing every comma with `','` |
| Text.QuotedJoin | timestream-test/app.ts:47 | `'` + `join("','")` + `'` is each id single-quoted and the quoted ids comma-separated |
| Text.ParseIntOfString | timestream-test/app.ts:58 | `Text.ParseInt`, the model of `parseInt(_, 10)`, reads back any integer rendered in decimal, whatever non-digit text follows it |
| Text.NoDigitNoNumber | timestream-test/app.ts:103 | `Text.ParseInt` of text without any digit is NaN (`None`) |
| Validation.TimeWindowPatternIsTimeWindow | timestream-test/app.ts:8 | the pattern accepts exactly: length at least 2, first char `1`-`9`, ASCII digits in the middle, last char `m`, `h` or `d` |
| Validation.WindowStringIsTimeWindow | timestream-test/app.ts:8 | every positive amount written in decimal and followed by a unit is accepted |
| Validation.TimeWindowIsWindowString | timestream-test/app.ts:8 | every accepted window is a positive amount without a leading zero, followed by its unit |
| Validation.UuidPatternIsUuidV4 | timestream-test/app.ts:7 | the UUID pattern accepts exactly: 36 chars, `-` at 8, 13, 18, 23, `4` at 14, one of `89abAB` at 19, hex digits in either case elsewhere |
| Validation.UuidHasNoDelimiter | timestream-test/app.ts:7 | an accepted identifier holds neither a comma nor a single quote |
| DeviceQuery.Columns | timestream-test/app.ts:41-45 | the several-devices query selects `time`, `id`, the value column, `measure_name` in that order; the single-device one selects `time`, the value column, `measure_name` and no `id`; no column repeats |
| DeviceQuery.InList | timestream-test/app.ts:47 | for one or more ids, the `IN` list is every id, single-quoted, comma-separated, in input order |
| DeviceQuery.IdFilter | timestream-test/app.ts:92 | `id IN (...)` holds every id quoted, in order (line 47); for a valid UUID the only quotes of `id = '<deviceId>'` are the two around the id |
| DeviceQuery.TimeBound | timestream-test/app.ts:48 | the bound is `time >= ago(`, the query's window verbatim, then `)`; for a valid window that `)` is the only one, so the window is the whole `ago` argument (also line 93, given by `Handler.SingleDeviceBranch`) |
| DeviceQuery.InListOfRawIds | timestream-test/app.ts:47 | for split `ids`, the `IN` list is the raw parameter in quotes with each comma turned into `','` |
| DeviceQuery.InListItemsAreIds | timestream-test/app.ts:47 | for valid UUIDs, the `IN` list splits on commas into exactly the quoted ids, and no id holds a quote |
| Rows.DecodeMultiRowOf | timestream-test/app.ts:56-58 | a row `[t, id, String(v), m, ...]` decodes to `{time: t, id, value: v, measureName: m}` |
| Rows.DecodeSingleRowOf | timestream-test/app.ts:101-103 | a row `[t, String(v), m, ...]` decodes to `{time: t, value: v, measureName: m}` |
| Rows.MultiRecordFollowsColumns | timestream-test/app.ts:40-58 | `Rows.DecodeMultiRow` reads `time`, `id`, `value` and `measureName` from the cells where the several-devices select list places those columns |
| Rows.SingleRecordFollowsColumns | timestream-test/app.ts:86-103 | `Rows.DecodeSingleRow` reads `time`, `value` and `measureName` from the cells where the single-device select list places those columns |
| Handler.EffectiveTimeWindow | timestream-test/app.ts:12 | a non-empty request window is kept as it is; the window is never empty; any window other than `1m` is the request's own; it is valid iff the request's window is missing, empty or valid |
| Handler.AllMatchUuid | timestream-test/app.ts:30 | `every(UUID_REGEX.test)` holds iff every id is a version 4 UUID |
| Handler.Plan | timestream-test/app.ts:12-126 | a rejection is a well-formed 400; a query runs only with a valid window and identifiers that are all version 4 UUIDs: the split `ids` in order, or else the path `deviceId` |
| Handler.Respond | timestream-test/app.ts:56-73 | an answer gives a well-formed 200 echoing the query's ids and window beside one record per row (also lines 101-118); a throw gives a well-formed 500 (lines 127-139) |
| Handler.Handle | timestream-test/app.ts:10-141 | every response is a 400 with one of the four messages and no headers, a 200 with JSON and CORS headers, or a 500 with both headers; it is a 500 iff a query ran and the upstream call threw, and a 400 iff the request was rejected before any query |
| Handler.DefaultTimeWindowIsValid | timestream-test/app.ts:12-15 | a missing or empty window becomes `1m`, which passes the pattern |
| Handler.TimeWindowCheckedFirst | timestream-test/app.ts:12-22 | the response is the time-window 400 iff the effective window is invalid, whatever `ids`, `deviceId` and the upstream hold |
| Handler.IdsTakePriority | timestream-test/app.ts:25-28 | when `ids` is present, changing `deviceId` never changes the response |
| Handler.MultiDeviceBranch | timestream-test/app.ts:25-73 | with `ids` present, the response is the invalid-ids 400 iff some split segment is not a UUID; otherwise the query has the split ids, the quoted `IN` list and `ago(<window>)`, and an answer gives 200 echoing ids, window and one record per row |
| Handler.SingleDeviceBranch | timestream-test/app.ts:74-118 | with no `ids` and a non-empty `deviceId`, the response is the invalid-device 400 iff it is not a UUID; otherwise the query filters `id = '<deviceId>'` with bound `time >= ago(<window>)`, and an answer gives 200 echoing id, window and one record per row |
| Handler.NoDeviceRejected | timestream-test/app.ts:119-126 | with a valid window, no `ids` and no non-empty `deviceId`, the response is the missing-device 400 |
| Handler.UpstreamFailureIs500 | timestream-test/app.ts:127-139 | once a query runs, a throw gives 500 with both headers, "Error querying Timestream" and the thrown message, or "Unknown error" |
| Scenarios.TimeWindowExamples | timestream-test/app.ts:8 | `1m`, `2h`, `30d` pass; ``, `0m`, `5`, `m5`, `5x`, `1m\n`, `1M`, `01h` fail |
| Scenarios.LowerCaseUuidAccepted | timestream-test/app.ts:7 | a lower-case version 4 UUID passes |
| Scenarios.UpperCaseUuidAccepted | timestream-test/app.ts:7 | an upper-case version 4 UUID passes (the `i` flag) |
| Scenarios.WrongVersionRejected | timestream-test/app.ts:7 | an identifier with version digit `3` fails |
| Scenarios.WrongVariantRejected | timestream-test/app.ts:7 | an identifier with variant digit `c` fails |
| Scenarios.TrailingNewlineRejected | timestream-test/app.ts:7 | a trailing line break fails, because `$` matches only at the end |
| Scenarios.TwoDevicesEchoed | timestream-test/app.ts:25-73 | `ids=<u1>,<u2>&timeWindow=2h` answers 200 with `deviceIds` `[u1, u2]` and window `2h` |
| Scenarios.OneBadIdRejects | timestream-test/app.ts:28-37 | one non-UUID segment rejects the whole list |
| Scenarios.EmptySegmentsRejected | timestream-test/app.ts:25-37 | `ids=""`, even beside a valid `deviceId`, and `ids=u,,u` are rejected |
| Scenarios.SingleDeviceDefaultWindow | timestream-test/app.ts:74-118 | a path `deviceId` with no window answers 200 echoing the id and `1m` |
| Scenarios.NoDeviceExamples | timestream-test/app.ts:119-126 | no `ids` and a missing or empty `deviceId` give the missing-device 400 |
| Scenarios.FailureExamples | timestream-test/app.ts:137 | a thrown `Error` gives its message; another thrown value gives "Unknown error" |

## Left out

- hello-world/app.ts, the recent-window handler: it sends a fixed query and passes the raw rows through, so apart from a constant there is nothing to state.
- The query client, the network call and the `await` (timestream-test/app.ts:2, 4, 52-54, 97-99) are not modelled. The call's outcome is an input value. A throw while mapping a malformed answer (no `Rows`, or a row without `Data`) is also caught at line 127, so it counts as `Threw`.
- `console.error` logging (line 128) is left out because it is output only.
- The exact JSON text is left out. Bodies are structured fields. A `None` field is what `JSON.stringify` omits (`undefined`) or prints as `null` (NaN).
- The fixed SQL text is left out: whitespace, `FROM "sampleDB".uplinkDB` and `ORDER BY time DESC`. The model covers only the select lists and the interpolated fragments.
- Text.ParseInt, Rows.ParseValue: keep exact integers, whereas `parseInt` yields a double. Values beyond 2^53 lose precision in the source. Digit runs beyond the double range become `Infinity`, which `JSON.stringify` prints as `null`, while the model gives `Some(n)`. `-0` is a distinct number there. The model captures none of these.
- Strings are sequences of Unicode scalar values, not UTF-16 code units, so lone surrogates cannot be written. Both patterns accept only ASCII, so no verdict depends on this.
- A missing parameter map and a missing key in it are both `None`. The source reads both with `?.` and cannot tell them apart either.
