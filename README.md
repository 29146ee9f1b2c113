# Bootstrap logic of a NestJS application skeleton

The repository is a NestJS boilerplate: `src/main.ts` creates the application,
installs CORS, compression, request logging, security headers and a global
validation pipe, publishes Swagger documentation and starts listening. Three
pieces of it carry behaviour of their own, and this project models them:

- **The validation-error normaliser** (`validation.dfy`, module `Validation`):
  the `exceptionFactory` of the global `ValidationPipe`. It inspects only the
  first field failure, descends at most one level into its first child, and
  reports the message stored under the last key of that node's constraints
  object, wrapped in one Bad-Request exception. A constraints object is a
  sequence of (kind, message) pairs in `Object.keys` order; a field failure is
  `VError(constraints, children)` with either part possibly `undefined`. The
  outcome is `NoException` (the arrow function returns `undefined`),
  `Raise(BadRequest(message))`, or `Throws` (the TypeError that
  `Object.keys(undefined)` raises when the chosen node has no constraints).
  An empty constraints object gives an `undefined` message, `None`.
- **The keep-alive drain gate** (`keep_alive.dfy`, module `KeepAlive`): the
  module-level `disableKeepAlive` flag as a class `DrainGate`, with `Drain`
  (the SIGINT handler's write) and `Handle` (the middleware that sets
  `Connection: close` on a `Response` in place while draining and always calls
  `next`). The function `Gate` is the specification of what `Handle` does to
  the headers.
- **The listen port** (`listen_port.dfy`, module `ListenPort`): `port || 3000`,
  which is the configured `APP_PORT` string when present and non-empty and the
  number 3000 otherwise, since `||` treats `""` like `undefined`.

`wrappers.dfy` holds the `Option` type used for JavaScript's `undefined`.

`ReportLastMessage` and `FactoryReportsSelected` are the general statements
about the normaliser; `ReportSingle`, `EmptyConstraintsUndefinedMessage`,
`TwoConstraintsLastWins` and `MissingConstraintsThrow` are corollaries kept
as concrete instances: a single constraint, an empty constraints object, two
failure kinds on one field, and a failure nested two levels down. The lemmas rest on the
inductive contracts of `Keys` and `Get`.

## Model

| member | source | states |
|---|---|---|
| Validation.Keys | src/main.ts:82 | `Object.keys` of a constraints object lists every key, in order, one per pair |
| Validation.Get | src/main.ts:84 | reading a key finds a message exactly when some pair carries that key, and the message found is paired with it |
| Validation.Report | src/main.ts:81-85 | reporting a constraints object never falls through; it throws exactly when the object is `undefined`; an empty object gives an `undefined` message |
| Validation.GetLastKey | src/main.ts:82-84 | with distinct keys, the read under the last key returns the last pair's message |
| Validation.ReportLastMessage | src/main.ts:87-91 | a defined constraints object yields a Bad Request carrying the message of its last key, or an `undefined` message when it is empty |
| Validation.ReportSingle | src/main.ts:88-90 | a single constraint yields exactly its own message |
| Validation.ExceptionFactory | src/main.ts:77-93 | no exception exactly when the list is absent or empty; otherwise the outcome is the report of the selected node's constraints (first child of the first failure when it has children, else the first failure) |
| Validation.FactoryReportsSelected | src/main.ts:77-93 | for a non-empty list the factory throws exactly when the selected node (first child of the first failure if it has children, else the first failure) has no constraints, and otherwise reports that node's last message |
| Validation.OnlyFirstError | src/main.ts:79 | failures after the first never change the outcome |
| Validation.NestedUsesFirstChild | src/main.ts:79-85 | with non-empty children the message is the first child's last message; the parent's constraints, the later children and the child's own children are ignored |
| Validation.FlatUsesOwnConstraints | src/main.ts:87-91 | with absent or empty children the message is the first failure's own last message |
| Validation.MissingConstraintsThrow | src/main.ts:81-82 | a selected node without constraints makes the factory throw, including a nested object whose failure lies two levels down |
| Validation.EmptyConstraintsUndefinedMessage | src/main.ts:88-90 | an empty constraints object yields a Bad Request with an `undefined` message |
| Validation.TwoConstraintsLastWins | src/main.ts:88-90 | with two failure kinds on one field, the second kind's message is reported |
| KeepAlive.Gate | src/main.ts:58-63 | while draining the response carries `Connection: close`; otherwise the headers are unchanged; no other header is added, removed or changed |
| KeepAlive.GateClosesExactlyWhenDraining | src/main.ts:59-60 | a response that did not already carry `Connection: close` (none, or e.g. `keep-alive`) carries it afterwards exactly when the flag is raised |
| KeepAlive.GateIdempotent | src/main.ts:60 | setting the header again changes nothing |
| KeepAlive.Response.constructor | src/main.ts:58 | the response `res` handed to the middleware starts with the headers it is given |
| KeepAlive.DrainGate.constructor | src/main.ts:10 | the flag starts false |
| KeepAlive.DrainGate.Drain | src/main.ts:64-65 | the SIGINT handler raises the flag, so a repeated signal leaves it raised |
| KeepAlive.DrainGate.Handle | src/main.ts:58-63 | the middleware edits only the response, as `Gate` says, leaves the flag alone, and always calls `next` |
| KeepAlive.Lifecycle | src/main.ts:58-65 | responses before SIGINT keep their headers; after SIGINT, received twice, every response asks to close and keeps its other headers |
| ListenPort.Listen | src/main.ts:108-110 | a truthy `APP_PORT` (present and non-empty, JavaScript's `||` test, `Truthy`) is passed on unchanged; otherwise the number 3000; 3000 appears exactly when `APP_PORT` is absent or empty, and an empty string never reaches the listener |

## Left out

- NestFactory creation, CORS, compression, request logging, security headers and the global prefix (src/main.ts:13-53): configuration of external libraries with no logic of their own.
- Swagger document generation and publication (src/main.ts:100-102): an external library.
- `app.close()` and `process.exit(0)` in the SIGINT handler (src/main.ts:66-67): asynchronous process effects. Nothing in the handler guards against a second shutdown, so the model claims idempotence only of the flag.
- The post-listen logging arrow function (src/main.ts:110-113): it is an operand of a comma expression and is never called.
- `app.listen` itself (src/main.ts:110): the model stops at the argument it receives. How Node reads that argument is not modelled: a numeric string becomes a port number, `"0"` asks for a random free port, any other string is taken as a pipe path.
- `ConfigService.get` (src/main.ts:107-108): the configured value is a parameter of `Listen`.
- The `BadRequestException` constructor: the model keeps the message it is given (`None` for `undefined`); the default response text the framework substitutes for an `undefined` message is not part of this model.
- Node's case-insensitive header names: the header map stores `Connection` literally, as `res.set` is called with it.
- Concurrency of requests with the signal handler: each call is modelled as one atomic step on the shared flag.
- src/environment/environment.module.ts (the environment-file existence check) and the two dependency-injection modules: file-system I/O and framework wiring.
- Distinct keys (`DistinctKeys`): the validation layer's constraints objects are plain JavaScript objects, whose own keys are distinct; the lemmas that name a last message assume this.
