# Request utilities and handler adapters of the crates.io server

A Dafny model of `src/util/mod.rs` of the crates.io registry server: the layer
between the HTTP framework (conduit) and the application's fallible handlers.
It covers

- **JSON shaping** (`json_response` with its inner `fixup`): a recursive rewrite
  of a parsed JSON tree that renames every object key `krate` to `crate` at every
  depth, followed by a 200 response with a JSON content type and a
  `Content-Length` header (module `JsonShaping`);
- **request utilities** (`redirect`, `wants_json`, `pagination`) as pure
  functions (module `RequestUtils`);
- **the error-adapting handler** `C::call`, the **sub-router mount** `R::call`
  and the **not-found fallback router** `R404::call`, over a `Request` class
  that records how often its commit hook ran (module `Handlers`);
- **command-failure diagnostics** of `exec`, as a method that builds the detail
  text step by step (module `Exec`);
- **`CommaSep`**, an indexed loop writing items separated by `", "` into a
  formatter object (module `CommaSep`).

Supporting modules: `Wrappers` (Option, Result), `Http` (the response record and
the invariant that every header has at least one value), `Errors` (the two-kind
error taxonomy: `Human` with an optional pre-rendered response, `Internal` with
an optional detail) and `Text` (substring search, decimal rendering of numbers
and its inverse).

JSON objects are maps. The source collects the renamed fields into an ordered
map; fields are visited in ascending key order and a later insertion replaces
an earlier one. `"crate"` sorts before `"krate"`, so an object holding both keys
ends up with the shaped value of its `krate` field under `crate`. `SourceKey`
states this.

`pagination` has three outcomes. The first is the window to fetch. The second
is the human error for a limit above the maximum. The third is `PageUnderflow`:
`page=0` passes the parse, and then `page - 1` underflows the unsigned page
number. The limit is checked first, so `page=0` with a limit that is too large
gives the human error.

The sub-router mount and the fallback router delegate to handlers and to a
route table that are not in this file. Their answers are inputs to the model.
The fallback router stores the recognised parameters by inserting them into the
request's typed extension map. That insert replaces any parameters stored
before. It does not merge with them, and the model follows this code.

## Model

| member | source | states |
|---|---|---|
| `JsonShaping.Fixup` | src/util/mod.rs:55-72 | no object at any depth of the result has the key `krate` |
| `JsonShaping.FixupObject` | src/util/mod.rs:55-66 | on an object: `krate` becomes `crate`, all other keys are kept with their own shaped values, `crate` takes the shaped value of `krate` when both are present and its own otherwise |
| `JsonShaping.FixupArray` | src/util/mod.rs:67-69 | on an array: same length, and element i of the result is the shaped element i |
| `JsonShaping.FixupScalar` | src/util/mod.rs:70 | values that are neither object nor array pass through unchanged |
| `JsonShaping.FixupLeavesShapedTree` | src/util/mod.rs:55-72 | a tree with no `krate` key anywhere is a fixed point of the rewrite |
| `JsonShaping.FixupIdempotent` | src/util/mod.rs:55-72 | applying the rewrite twice equals applying it once |
| `JsonShaping.FixupNested` | src/util/mod.rs:55-72 | a `krate` key inside an object inside an array is renamed, value unchanged |
| `JsonShaping.JsonResponse` | src/util/mod.rs:42-53 | status (200, "OK"); the body is the rendering of the shaped tree; exactly the headers Content-Type `application/json; charset=utf-8` and Content-Length, whose single value is all digits and reads back as the body length; every header has a value |
| `Text.Contains` | src/util/mod.rs:99 | the search is true exactly when the pattern occurs at some position of the text |
| `Text.NatToString` | src/util/mod.rs:48 | the rendering of an unsigned number is non-empty, all decimal digits, and has no leading zero |
| `Text.DecimalRoundTrip` | src/util/mod.rs:48 | reading the decimal rendering back gives the number |
| `Text.NatToStringInjective` | src/util/mod.rs:48 | different numbers render differently |
| `RequestUtils.Redirect` | src/util/mod.rs:87-95 | status (302, "Found"), a single header `Location` holding exactly `[url]`, empty body, and every header has a value |
| `RequestUtils.AnyContains` | src/util/mod.rs:99 | true exactly when some value of the list contains the pattern |
| `RequestUtils.WantsJson` | src/util/mod.rs:97-100 | true exactly when the `Accept` header is present and one of its values contains `json`; false when the header is absent |
| `RequestUtils.WantsJsonExamples` | src/util/mod.rs:97-100 | `text/html, application/json` wants JSON; a missing header and `text/html` alone do not |
| `RequestUtils.Pagination` | src/util/mod.rs:102-112 | refused exactly when the limit (`per_page`, else the default) exceeds `max`, with the human error `cannot request more than <max> items`; `PageUnderflow` exactly when not refused and `page` is 0; otherwise count = limit <= max and offset = (page - 1) * count, page defaulting to 1 |
| `RequestUtils.PaginationDefaults` | src/util/mod.rs:104-111 | with neither parameter and `default <= max` the window is (0, default) |
| `RequestUtils.PaginationAtMax` | src/util/mod.rs:108-111 | a limit equal to `max` is admitted |
| `RequestUtils.PagesAreAdjacent` | src/util/mod.rs:111 | page p + 1 starts exactly where page p ends, with the same count |
| `RequestUtils.PaginationExamples` | src/util/mod.rs:102-112 | with default 10 and max 50: page 3 of 20 is (40, 20); 100 per page is refused with `cannot request more than 50 items`; no parameters give (0, 10); page 0 underflows unless the limit is refused first |
| `Errors.RenderedResponse` | src/util/mod.rs:123-126 | the accessor `e.response()` over the two-kind error taxonomy, which is defined outside this file: only a human error can carry a pre-rendered response, and a human error yields the one it carries |
| `Exec.Run` | src/util/mod.rs:161-179 | a command that cannot start is an internal error naming the command; a successful run returns its output unchanged; an unsuccessful one is an internal error naming the command whose detail is the stdout section followed by the stderr section |
| `Exec.FailureDetailEmpty` | src/util/mod.rs:166-174 | the detail is empty exactly when both streams are empty |
| `Exec.FailureDetailOpensWithStdout` | src/util/mod.rs:166-174 | the detail starts with `--- stdout\n` exactly when stdout is non-empty |
| `Exec.FailureDetailBothStreams` | src/util/mod.rs:166-174 | with both streams non-empty the detail is the stdout header, the stdout text, the stderr header and the stderr text, in that order |
| `Exec.StderrOnlyFailure` | src/util/mod.rs:166-174 | with empty stdout and non-empty stderr the detail is just the stderr section |
| `CommaSep.JoinMatchesFromFront` | src/util/mod.rs:185-188 | the joined text equals the first item followed by each later item preceded by `, ` |
| `CommaSep.JoinSmall` | src/util/mod.rs:185-189 | no items give the empty text; one item gives exactly that item |
| `CommaSep.JoinEnds` | src/util/mod.rs:185-188 | the text starts with the first item and ends with the last, so no separator leads or trails |
| `CommaSep.JoinLength` | src/util/mod.rs:185-188 | the length is the items' total length plus two characters per gap |
| `CommaSep.Formatter.Write` | src/util/mod.rs:186-187 | writing appends the text to what the formatter holds |
| `CommaSep.Fmt` | src/util/mod.rs:184-190 | the formatter ends up holding what it held before followed by the items joined by `, ` |
| `Handlers.Request.Commit` | src/util/mod.rs:121 | the commit count goes up by one and nothing else in the request changes |
| `Handlers.AdaptErrors` | src/util/mod.rs:117-130 | success: one commit, and the response is passed on unchanged; a human error with a rendered response: that response, no commit; any other error: a fatal error wrapping it, no commit; the request is otherwise unchanged |
| `Handlers.CommitsPerCall` | src/util/mod.rs:118-129 | on a fresh request the commit hook runs once on success and never on failure; the answer is fatal exactly for an error with no rendered response |
| `Handlers.MountedView` | src/util/mod.rs:134-144 | defined exactly when a `path` route parameter was captured; the mounted handler then sees that path and the original method, query and headers |
| `Handlers.Fallback` | src/util/mod.rs:148-159 | the router is asked with the request's method and path; no match answers the not-found response and leaves the request unchanged; a match stores its parameters in the request and answers what its handler answers |

## Left out

- Text encoding and re-parsing in `json_response` (src/util/mod.rs:43-44) belong to the JSON library. The model shapes an already-parsed tree, and the encoder is a parameter `render` of `JsonShaping.JsonResponse`. `Content-Length` is the length of the rendered bytes.
- Floating-point JSON numbers are carried as `real` values and never computed on.
- `query()` (src/util/mod.rs:81-85) percent-decodes the query string with a URL library. The model takes `page` and `per_page` as `Option<nat>`, where `None` stands for missing or not an unsigned integer. The source collects the pairs into a hash map, so the last of several equal keys wins.
- The machine widths in `pagination` are not modelled. Numbers are unbounded: a `per_page` above the `usize` maximum is an unparsable value, and the `i64` casts of the offset and count are ignored.
- RequestUtils.Pagination: at `page=0` it reports `PageUnderflow` instead of a number, because the source either panics there (overflow checks) or returns a wrapped offset.
- `exec` runs the process with `cmd.output()` and decodes the streams with `str::from_utf8(...).unwrap()`. Both are operating-system and library calls. The model takes the spawn result as an input and the streams as decoded text. A stream that is not valid UTF-8 panics in the source; the model does not cover that.
- Exec.Run: a spawn failure carries the operating-system error as its cause through `chain_error`. The model's internal error has no cause chain.
- The error constructors `human`, `internal` and `internal_error` and the method `response()` are defined in src/util/errors.rs, which is not part of this model. The model's `human(msg)` carries no pre-rendered response, and `internal_error(desc, detail)` always carries the detail.
- The lookup `headers().find("Accept")` is modelled as an exact-key map lookup. The framework's own header-name matching is not part of this model.
- CommaSep.Fmt: the formatter never fails. In the source each `write!` may return an error that `try!` passes on.
- Handlers.AdaptErrors: the wrapped domain handler runs before the call, and its result is an input. Changes the domain handler itself makes to the request are not modelled.
- Handlers.MountedView: says what the mounted handler sees, not what it answers. The request proxy and the mounted handler are not part of this model, and neither are the changes the handler makes to the request through the proxy.
- Handlers.Fallback: the route table's matching algorithm is an input function `recognize`. The matched handler's answer is part of its result. The not-found response, from src/util/errors.rs, is a parameter. What the matched handler does to the request is not modelled: on a match the contract gives the request as that handler receives it (its parameters stored, commit count and request line unchanged). In the source the handler then runs on the same request, so a `C` handler may commit and a nested `R404` may store its own parameters again.
- The trait objects, `Arc` sharing and multithreaded serving are not modelled. Every operation here runs to completion on one request.
- src/bin/crates-admin.rs parses command-line arguments and dispatches to other modules, and src/admin/verify_email.rs runs one database update and prints a line. Neither file has logic of this layer, and both are left out.
