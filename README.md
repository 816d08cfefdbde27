# Webcam preview resolver, config schema and error value — a Dafny model

The system shows near-real-time webcam images in a browser. A webcam's image
comes either straight from its upstream origin or through an edge worker that
proxies images and extracts them from HTML pages. This project models three
pure pieces of that system and proves properties about them:

- **Preview strategy resolver** (`PreviewResolver`, preview.dfy). This is
  client-side logic over a validated webcam record. It decides whether the
  browser may fetch a snapshot directly ("worker bypass"). It builds the URL
  the preview is loaded from: the raw upstream URL, the worker's
  `/api/image?url=…` proxy route, or the worker's
  `/api/html-image?page=…[&selector=…]` extraction route. It returns `None`
  when no strategy applies. It also owns the bounded backoff policy: a fixed
  2000/5000/10000 ms schedule, with the index clamped at the last entry.
- **Webcam configuration schema** (`Schema`, schema.dfy). This covers the
  validation rules applied to the YAML configuration: the four source kinds,
  the cross-field rule for sources (a page source needs `page`, every other
  kind needs `url`), the coercion of a numeric `id` to a string, a
  non-empty id and name, an integral non-negative elevation, the settings
  checks and "at least one webcam". Each parse function returns either the
  validated record or the issues zod would report, in zod's order.
- **Error value** (`Errors`, errors.dfy). This covers the closed set of five
  error codes, the `AppError` record and the JSON body built by
  `toJsonError`.

Supporting modules:

- `Wrappers` holds `Option` (an optional field, `??`) and `Result` (a parse
  outcome).
- `Decimal` is JavaScript's `String(n)` for an integral number of magnitude
  at most 2^53. The schema
  uses it to coerce numeric ids.
- `Math.Min` is `Math.min`.

Things the code cannot see are parameters:

- `encode: string -> string` is the percent-encoding the worker client
  applies (`encodeURIComponent`).
- `isUrl: string -> bool` is zod's `.url()` check.
- `base` is the worker base URL.

`AppError` is a class. Its own fields `code`, `status` and `hint` are
`readonly` and set in its constructor; `message` is inherited from `Error`,
which the constructor passes it to. It is modelled as a datatype whose
constructor stores the four fields as given.

In three places the code behaves in a way that is easy to misread; the
model follows the code:

- The bypass test and the resolver's guards use JavaScript truthiness, so an
  empty `url` or `page` counts as absent, not only a missing one.
- A snapshot without a `url` also resolves to no preview.
- The schema's source rule checks `page` for the page kind and `url` for
  every other kind. It does not check `selector`, nor `url` on a page
  source.

The loader's test "parses valid yaml" (packages/config/test/loader.test.ts:5-25)
expects a configuration whose settings have no `refresh_minutes` to parse.
The settings schema (packages/config/src/schema.ts:52) makes that key
required, so by the schema as written the configuration is rejected, with a
single `invalid_type` issue; `Schema.LoaderValidYamlExample` states this.
Nothing was executed, and the code does not say whether the test or the
schema is the one meant to change, so the model keeps the schema as written.

## Model

| member | source | states |
|---|---|---|
| `PreviewResolver.IsWorkerBypass` | apps/spa/src/services/previewResolver.ts:8-10 | bypass only ever holds for a snapshot with a non-empty URL that is flagged `true`; a page, HLS or iframe source never bypasses |
| `PreviewResolver.ImageUrl` | apps/spa/src/services/previewResolver.ts:17 | the image proxy URL is the worker base plus the fixed `/api/image?url=` prefix, and the encoded upstream URL is the whole rest of it |
| `PreviewResolver.HtmlImageUrl` | apps/spa/src/services/previewResolver.ts:21 | the extraction URL starts with the worker base, the fixed `/api/html-image?page=` prefix and the encoded page; it continues with `"&selector=" + encode(selector)` exactly when a selector is given, and ends there otherwise |
| `PreviewResolver.ResolvePreviewBaseUrl` | apps/spa/src/services/previewResolver.ts:12-25 | a preview exists exactly for a snapshot with a non-empty URL or a page source with a non-empty page (`None` for HLS, iframe and missing fields); a bypassing webcam gets its raw URL; every non-bypass result starts with `base + "/api/"`, so it goes through the worker |
| `PreviewResolver.FlaggedSnapshotBypassesWorker` | apps/spa/src/services/previewResolver.ts:13-16 | a flagged snapshot with a URL bypasses, and the result is exactly the upstream URL with no proxy hop |
| `PreviewResolver.UnflaggedSnapshotUsesImageRoute` | apps/spa/src/services/previewResolver.ts:17 | a snapshot whose flag is false or absent resolves to `base + "/api/image?url=" + encode(url)` |
| `PreviewResolver.PageUsesHtmlImageRoute` | apps/spa/src/services/previewResolver.ts:20-22 | a page source never bypasses, even when flagged; it resolves to `base + "/api/html-image?page=" + encode(page)`, and `"&selector=" + encode(selector)` is appended exactly when a selector is given |
| `PreviewResolver.ImageUrlDeterminesParameter` | apps/spa/src/services/previewResolver.ts:17 | equal proxy URLs carry the same encoded upstream URL: the parameter fills the rest of the string after the fixed route prefix |
| `PreviewResolver.HtmlImageUrlDeterminesParameters` | apps/spa/src/services/previewResolver.ts:21 | if the encoder never emits '&', equal extraction URLs carry the same encoded page, the same selector presence and the same encoded selector |
| `PreviewResolver.HtmlImageUrlReadsPage` | apps/spa/src/services/previewResolver.ts:21 | if the encoder never emits '&', reading the extraction URL's `page` value up to the next '&' gives back exactly the encoded page, whether or not a selector follows it |
| `PreviewResolver.ValidatedWebcamHasPreview` | apps/spa/src/services/previewResolver.ts:12-25 | every webcam that passed validation has a preview exactly when its kind is snapshot or page |
| `PreviewResolver.SnapshotExamples` | apps/spa/test/previewResolver.test.ts:20-41 | with `encode` agreeing with `encodeURIComponent` on the test URL, the flagged snapshot bypasses the worker and resolves to its raw URL; the unflagged one does not bypass and resolves to the tested `/api/image?url=https%3A%2F%2F…` string |
| `PreviewResolver.PageExample` | apps/spa/test/previewResolver.test.ts:44-57 | the flagged page source does not bypass and resolves to the tested `/api/html-image?page=…&selector=img.hero` string |
| `PreviewResolver.ShouldRetry` | apps/spa/src/services/previewResolver.ts:27-29 | another try is allowed iff `attempt < 3`, the length of the schedule |
| `PreviewResolver.NextRetryDelayMs` | apps/spa/src/services/previewResolver.ts:31-33 | for every natural attempt the delay is a schedule entry between 2000 and 10000 ms; it is the entry at `attempt` inside the schedule, and 10000 from attempt 2 on (clamped) |
| `PreviewResolver.NextRetryDelayMonotone` | apps/spa/src/services/previewResolver.ts:31-33 | the delay never decreases as the attempt count grows |
| `PreviewResolver.RetryPolicyExamples` | apps/spa/test/previewResolver.test.ts:60-69 | retry for attempts 0, 1 and 2 but not 3; the delays are 2000, 5000, 10000 and 10000 for attempts 0 to 3 |
| `Math.Min` | apps/spa/src/services/previewResolver.ts:32 | the result is one of the two arguments and no larger than either |
| `Errors.ErrorCodeIsClosed` | apps/worker/src/errors.ts:1-6 | there are exactly five error codes; their wire names are distinct, and each reads back as its own code |
| `Errors.CodeName` | apps/worker/src/errors.ts:1-6 | every code is written on the wire as an `E_…` literal |
| `Errors.ParseCode` | apps/worker/src/errors.ts:1-6 | only the five literals read as codes, and a code read from a string has that string as its name |
| `Errors.ToJsonError` | apps/worker/src/errors.ts:21-27 | the body has exactly the keys `code`, `message` and `hint`, and no status; `code` reads back as the error's code; `message` is copied; `hint` is the error's hint when present and `""` when absent |
| `Errors.JsonErrorIgnoresStatus` | apps/worker/src/errors.ts:21-27 | changing the HTTP status does not change the body |
| `Errors.JsonErrorAbsentHintIsEmpty` | apps/worker/src/errors.ts:25 | an absent hint and an empty hint give the same body |
| `Errors.JsonErrorDeterminesError` | apps/worker/src/errors.ts:8-27 | for a fixed status, and leaving aside the absent-versus-empty hint, the body determines the whole `AppError` |
| `Schema.ParseKind` | packages/config/src/schema.ts:10 | exactly the four strings `snapshot`, `hls`, `iframe` and `page` are accepted as kinds, each as the kind of that name |
| `Schema.KindNameRoundTrip` | packages/config/src/schema.ts:10 | each kind's name reads back as that kind |
| `Schema.OptionalUrlIssues` | packages/config/src/schema.ts:11-12 | an optional URL field is accepted iff it is absent or passes the URL check, with at most one issue |
| `Schema.SourceRefinement` | packages/config/src/schema.ts:15-32 | a page source passes iff `page` is present and non-empty, and any other kind iff `url` is; the rule raises at most one issue, carrying "source requires page for kind=page" or "source requires url for kind!=page" |
| `Schema.RefinementRunsOnlyForKnownKind` | packages/config/src/schema.ts:8-32 | an unknown kind aborts the object before the refinement: its issues are the enum issue followed by the URL issues and nothing else; a refinement message is reported exactly when the kind is one of the four and the field it needs is missing or empty |
| `Schema.ParseSource` | packages/config/src/schema.ts:8-32 | a source is accepted iff its kind is one of the four, its URL fields pass the URL check and the cross-field rule holds; an accepted source keeps its fields and has the field its kind needs; a rejected one reports at least one issue |
| `Schema.PreprocessId` | packages/config/src/schema.ts:35-39 | a numeric id becomes its decimal string; any other value passes through unchanged |
| `Schema.IdIssues` | packages/config/src/schema.ts:35-40 | an id is accepted iff it is a number (its string form is never empty) or a non-empty string |
| `Schema.ElevationIssues` | packages/config/src/schema.ts:42 | the elevation is accepted iff it is an integer ≥ 0; both checks run, giving at most two issues |
| `Schema.ParseWebcam` | packages/config/src/schema.ts:34-47 | a webcam is accepted iff its id, name, elevation and source are valid; the accepted record carries the coerced id, the elevation as a natural number, the parsed source and the optional `worker_bypass` and `attribution` unchanged |
| `Schema.SettingsIssues` | packages/config/src/schema.ts:49-53 | the settings raise no issue iff all three keys are present, the worker base URL passes the URL check and the refresh interval is ≥ 0; a missing `refresh_minutes` is always reported |
| `Schema.ParseSettings` | packages/config/src/schema.ts:49-53 | the settings are accepted iff they are valid; accepted settings carry the three values as given; a rejection reports at least one issue |
| `Schema.ParseAll` | packages/config/src/schema.ts:57 | an array is accepted iff every element is; it then holds the parsed elements in order; on rejection the issues begin with those of the first failing element |
| `Schema.ParseWebcams` | packages/config/src/schema.ts:57 | the webcam list is accepted iff every webcam is valid; the parsed list matches the raw list element by element; a rejection reports at least one issue |
| `Schema.ParseRoot` | packages/config/src/schema.ts:55-58 | a configuration is accepted iff its settings are valid, it has at least one webcam and every webcam is valid; accepted settings are the parsed settings; an empty webcam list is always rejected with a `too_small` issue; accepted webcams are well formed and in order |
| `Schema.LoaderValidYamlExample` | packages/config/test/loader.test.ts:5-25 | the "parses valid yaml" configuration, whose settings lack `refresh_minutes`, is rejected by the schema as written, with that missing key as its only issue |
| `Schema.LoaderInvalidShapeExample` | packages/config/test/loader.test.ts:27-34 | empty settings and an empty webcam list are rejected, with one issue per missing settings key followed by the `too_small` issue for the list |
| `Decimal.NatToDecimal` | packages/config/src/schema.ts:37 | a number's decimal rendering is non-empty, all digits, and has no leading zero |
| `Decimal.DecimalRoundTrip` | packages/config/src/schema.ts:37 | reading the rendered digits back gives the number |
| `Decimal.NatToDecimalInjective` | packages/config/src/schema.ts:37 | distinct natural numbers have distinct decimal renderings |
| `Decimal.IntToString` | packages/config/src/schema.ts:37 | for an integer of magnitude at most 2^53, `String(n)` is non-empty, starts with '-' exactly for negative numbers, and is the digits of the magnitude otherwise |
| `Decimal.IntToStringInjective` | packages/config/src/schema.ts:35-40 | distinct numeric ids coerce to distinct string ids |

## Left out

- The edge gateway's routing (the worker's `index.ts`) is not part of this model. That covers host allowlisting, upstream fetches, HTML image extraction, redirects and CORS headers.
- The worker client (`workerClient.ts`) is not part of this model. The route URLs are written as the resolver's tests fix them. The model assumes two things about it: the base URL is used verbatim, and the selector parameter is appended exactly when a selector is present.
- Percent-encoding (`encodeURIComponent`) is the parameter `encode` and is not defined here.
- zod's `.url()` check is the parameter `isUrl` and is not defined here.
- Floating-point details are not modelled. Numbers are Dafny `real`s, so the `.finite()` checks and NaN/Infinity do not arise. A numeric id is an integer: non-integral ids are not covered.
- Raw webcam records already have the shapes the schema expects: a missing required webcam or source field, a wrong JSON type (except for `id`), a `null` value and an unknown key (which zod strips) are not represented. Missing settings keys are represented.
- Issue paths and zod's built-in issue messages are not modelled. Issues carry their zod code and the field name; only the two custom messages are exact text.
- Decimal.IntToString: agrees with JavaScript's `String(n)` only for |n| ≤ 2^53 (`Number.MAX_SAFE_INTEGER` + 1). A larger numeric id is a double, and `String` prints its shortest round-trip digits padded with zeros (`String(2**60)` is "1152921504606847000"), whereas the model prints every digit of the integer; integers that are not doubles at all, such as 2^53 + 1, are also accepted by the model. Numeric ids beyond 2^53 are therefore not modelled faithfully.
- `chCoord` has only finiteness checks, so its coordinates are accepted as they are.
- The YAML loader (`loader.ts`) is file I/O and third-party parsing around `root.safeParse`, and is not part of this model.
- The geometry helpers (`geo.ts`) are floating-point trigonometry and are not part of this model.
- `AppError` extends `Error`; the inherited `name` and `stack` are not modelled.
- Errors.ToJsonError: reads the `message` fixed at construction in the model. `message` is a writable field inherited from `Error`, and `toJsonError` reads it when called, so a later assignment to it would change the body; that is not represented.
- The driver that waits between retries is a UI concern; only the two policy functions are modelled.
- Schema.ParseAll: on rejection it states only that the issues begin with those of the first failing element. It does not state that every failing element's issues are reported, although zod reports them all and the body concatenates them.
- PreviewResolver.NextRetryDelayMs: takes a natural attempt. A negative or fractional attempt indexes outside the schedule in the source and yields `undefined`.
