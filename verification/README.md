# Error classification and error handling of the database-setup API

This project models the error path and the start-up order of a REST API
server written for Node.js with Express and Prisma:

- the `AppError` constructor (`src/utils/error.js`), which stores a message
  and a status code, marks the error operational, and derives `status`:
  `"fail"` when the status code, rendered as text, starts with the character
  `'4'`, and `"error"` otherwise;
- the terminal error-handling middleware (`src/app.js`), which, for an error
  object, defaults a falsy `statusCode` to 500 and a falsy `status` to
  `"error"`, then answers with that HTTP status and the JSON body
  `{status, message, error}`;
- the start-up order (`src/app.js`): the reminder service starts while the
  module loads, the store connection is attempted next, and only a
  successful connection followed by a successful `listen` call leads to
  listening; a failed connection, or a `listen` call that throws inside the
  same `try` block, exits with code 1.

Modules:

- `Js` (`js.dfy`): `undefined`-or-value properties and the truthiness `a || b` tests.
- `Decimal` (`decimal.dfy`): the decimal rendering a template literal gives an
  integer, its inverse parser, and the leading digit characterised by powers of ten.
- `AppErrors` (`app_error.dfy`): the error record, `AppError` and its classification.
- `ErrorHandler` (`error_handler.dfy`): the terminal middleware as a pure function
  from an error record to a response record.
- `Bootstrap` (`bootstrap.dfy`): the start-up sequence as a state machine emitting
  an event trace, with the connection and listen outcomes as parameters.

The classification rule in the code is a prefix test on the rendered code,
not the 400..499 range check one might expect from the `"fail"` label.
Codes 400..499 are classified `"fail"`. So are 4, 40 and 4000..4999, because
their renderings also start with `'4'`. A negative code renders with `'-'`,
0 renders as `"0"` and a missing code renders as `"undefined"`, so all three
are `"error"`.

The handler never re-derives `status` from `statusCode`, and it never
produces `"fail"` itself. The body says `"fail"` only when the error already
carries status `"fail"`, which `AppError` sets for codes whose rendering
starts with `'4'`. A plain error that carries code 404 and no status is
answered with HTTP 404 and body status `"error"`.

## Model

| member | source | states |
|---|---|---|
| Decimal.ParseIntRoundTrip | src/utils/error.js:5 | the text an integer status code is rendered as parses back to that code, so the rendering loses nothing |
| Decimal.LeadingDigitIff | src/utils/error.js:5 | a positive number's first rendered digit is d exactly when d*10^k <= n < (d+1)*10^k for some k |
| Decimal.IntToStringInjective | src/utils/error.js:5 | distinct status codes render as distinct text |
| Decimal.NatToStringHead | src/utils/error.js:5 | the first character of a rendered non-negative number is its leading digit |
| AppErrors.Render | src/utils/error.js:5 | the template literal renders an absent code as "undefined" and a present one as text that parses back to it, starting with '-' exactly for a negative code and otherwise with the code's leading digit |
| AppErrors.Classify | src/utils/error.js:5 | a code is classified fail exactly when it is present, positive and its leading decimal digit is 4 |
| AppErrors.NewAppError | src/utils/error.js:2-6 | the constructed error keeps the message and the status code unchanged, is operational, and has status text of the classification |
| AppErrors.ClassifyFailIff | src/utils/error.js:5 | fail exactly when the code is present and lies in [4*10^k, 5*10^k) for some k; otherwise error |
| AppErrors.ClientErrorCodesFail | src/utils/error.js:5 | every code 400..499 gives an AppError with status "fail" |
| AppErrors.NonHttpFourCodesFail | src/utils/error.js:5 | codes 4, 40 and 4000..4999 are classified fail as well |
| AppErrors.OtherHttpCodesError | src/utils/error.js:5 | codes 200..399 and 500..599 are classified error |
| AppErrors.NegativeOrMissingCodeError | src/utils/error.js:4-5 | a negative code (rendered with '-') and an absent code (rendered "undefined") are classified error |
| AppErrors.ZeroCodeError | src/utils/error.js:5 | code 0 is classified error |
| Js.OrNumber | src/app.js:64 | the default `or 500` keeps a present non-zero code and gives the fallback for an absent code or 0 |
| Js.OrString | src/app.js:65 | the default `or 'error'` keeps a present non-empty status and gives the fallback for an absent or empty one |
| ErrorHandler.Normalise | src/app.js:64-65 | after defaulting, the code and status are truthy; a truthy code or status is kept, a falsy code becomes 500 and a falsy status "error"; message and flag are untouched |
| ErrorHandler.Handle | src/app.js:63-77 | a truthy code is sent as is and 500 exactly when the code is absent, 0 or 500; a non-empty status is kept and the body says "error" exactly when it was absent, empty or "error"; the body says "fail" only if the error already carried status "fail"; the body echoes the normalised error, whose code is the status sent, and the error's own message |
| ErrorHandler.StatusNotRederived | src/app.js:64-65 | two errors with the same status get the same body status whatever their codes |
| ErrorHandler.PlainNotFound | src/app.js:63-76 | a plain error with code 404 and no status is answered 404 with body status "error" and the normalised error echoed |
| ErrorHandler.HandleIdempotent | src/app.js:64-65 | handling the echoed, normalised error again yields the same response |
| ErrorHandler.AppErrorStatusAgrees | src/app.js:64-71 | for every AppError, the body status is the classification of the HTTP status actually sent |
| ErrorHandler.PlainErrorStatusDisagrees | src/app.js:64-65 | that agreement fails for a plain error with code 404 |
| ErrorHandler.AppErrorEndToEnd | src/app.js:64-70 | an AppError with code 0 or no code is answered 500 "error"; one with code 404 is answered 404 "fail" |
| Bootstrap.Step | src/app.js:34-92 | each start-up step emits one event and strictly advances; only listening or terminated have no step |
| Bootstrap.Run | src/app.js:34-92 | from any phase the run ends after at most its rank of steps, in Listen or Exit(1); it emits Listen only if the listen call succeeds |
| Bootstrap.Boot | src/app.js:34-101 | the start-up trace is the reminder start, the connection attempt, its outcome, then Listen when both connection and listen succeed and Exit(1) otherwise |
| Bootstrap.BootOrder | src/app.js:34-101 | the reminder starts before the connection attempt; listening happens exactly when connection and listen succeed, and only after the connection; any failure ends in exit 1 with no listening |

## Left out

- Express routing, the root liveness route and the catch-all decoy response (src/app.js:37-59): dispatch follows the framework's own path matching, which is library behaviour.
- CORS configuration and the JSON and urlencoded body parsers (src/app.js:24-31): library configuration.
- The Prisma connection, its disconnect hook on `beforeExit`, and whether the `finally` runs after `process.exit(1)` (src/app.js:82, 93-97): database I/O and process lifecycle; the connection and listen outcomes are parameters of `Bootstrap.Boot`. An asynchronous `listen` error (emitted after the call returns) is not caught by the `try` block and is not modelled.
- The `SIGTERM` handler and the reminder service's `start`/`stop` internals (src/app.js:34, 47-49): signal handling and an external scheduler; only the start event appears in the trace.
- Console logging, `Error.captureStackTrace` and the JSON serialisation of the raw error object: side effects and runtime internals; the echoed error is the normalised record itself.
- The imported route modules, including the `.h` import at src/app.js:13: external collaborators not part of this model.
- `res.status` rejecting codes outside 100..999 (codes such as 4 or 4000) is framework behaviour and is not modelled; `Handle` reports the code it would send.
- AppErrors.Render: a status code is an integer or absent; JavaScript numbers that are fractional, NaN, `null` or strings are not modelled, nor is the loss of precision above 2^53. Integers of 10^21 and more render in exponent notation in JavaScript, which starts with the same leading digit, so the prefix test is unaffected.
- ErrorHandler.Handle: the error is assumed to be an object. The module runs as an ES module, so in strict mode. A string or number passed to `next` or thrown by a route makes the assignment at src/app.js:64 throw, so no envelope is sent and the framework's own final handler answers instead. An error object without a `message` property, whose body then has no `message` key, is not modelled either.
- The error record: `status` is a string or absent; a non-string status set by other code is not modelled, and an absent `isOperational` flag is modelled as false.
