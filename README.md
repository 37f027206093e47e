# egg-oauth2-server adapter, modelled in Dafny

This project models `lib/server.js`, the Koa middleware adapter that wraps an
OAuth2 authorization engine (the `oauth2-server` package). The model covers the
adapter's own logic:

- **Response applier** (`handleResponse`). It copies the engine's neutral
  response body and status onto the Koa context and merges its headers into
  the context's headers.
- **Error translator** (`handleError`). It merges the neutral response's
  headers when one is passed. An `UnauthorizedRequestError` sets only the
  status. Any other error also writes the body `{ error, error_description }`.
  Every error is emitted once as an application `'error'` event.
- **Engine accessor** (the `OAuth2` constructor and the `server` getter). The
  constructor rejects a missing model. The getter is a one-shot slot: the
  first read builds `new Model(self.ctx)`, writes it into `config.model` in
  place and caches the engine. Later reads return the cached engine and build
  nothing. If `new Model(ctx)` throws, nothing is cached and the error reaches
  the entry point's error handling.
- **Entry points** (`token`, `authorize`, `authenticate`). Each sets `self.ctx`
  and reads the getter. On success it stores `{ token }` or `{ code }` under
  `ctx.state.oauth` and runs `next`: `token` also applies the neutral
  response, the other two leave the reply alone. On failure it translates the
  error and does not run `next`: `token` passes the neutral response, the
  other two pass none. `authorize` first writes an `authenticateHandler` into
  the caller's options object. Its `handle(req)` looks the user up with
  `server.options.model.getUser(req.body.username, req.body.password)`.

Files:

- `wrappers.dfy`: `Option` and `Result`.
- `adapter.dfy`: module `Adapter`. It holds the value types and the header
  merge. It holds the pure reference definitions `ApplyResponse` and
  `TranslateError`, the pure effects of the three entry points, and the engine
  slot as a value (`Access`, `AccessAll`). It also holds the imperative
  classes: `App` (the emitted-event log), `Context` (`status`, `body`,
  headers, `state.oauth`, a `nextRan` flag), `Config`, `Engine`, `Options` and
  `OAuth2`. Each method of `OAuth2` and `Context` is proved against the
  matching pure definition.

Each engine call is an input, `EngineCall(outcome, response)`. The outcome is
`Success(value)` or `Failure(error)`, and the response is the neutral response
as the engine left it. The model's `getUser` is an uninterpreted function of
the context the model was built from, the username and the password. A body
field that is absent is passed as `None`, which stands for `undefined`.

A few facts about `lib/server.js` that the model keeps:

- An `UnauthorizedRequestError` leaves `ctx.body` as it was (lines 30-31).
  The body is not cleared.
- `authorize` changes the caller's `options` object in place (line 89).
- Every error is emitted as an `'error'` event, unauthorized ones included
  (line 36).
- The getter is read inside each entry point's `try` (lines 66, 88, 120). If
  `new Model(ctx)` throws (line 51), the error is translated like an engine
  error, nothing is cached and `config` is not touched. The next read builds
  again from its own context. What `new Model(ctx)` would throw is an input of
  the getter and of each entry point (`modelFailure`).

The engine keeps the model built from the first context whose construction
succeeded. Every later request, including each `authorize` user lookup, goes
through that context's model (`OAuth2.Authorize`, `AccessAll`).

## Model

| member | source | states |
|---|---|---|
| `Adapter.Merge` | lib/server.js:18 | `ctx.set(headers)`: every incoming header overwrites the current one (last write wins); headers not named keep their value; no other header appears |
| `Adapter.ApplyResponse` | lib/server.js:15-19 | the reply gets exactly the neutral response's status and body; the response headers are merged in; headers the response does not name are kept |
| `Adapter.Context.HandleResponse` | lib/server.js:15-19 | the context's status, body and headers become `ApplyResponse` of their old values; `state.oauth` and `nextRan` are unchanged |
| `Adapter.TranslateError` | lib/server.js:25-35 | status is `e.code`; the response headers are merged only when a response is passed, otherwise headers are unchanged; an unauthorized request keeps the old body, any other error writes `ErrorBody(e.name, e.message)`; every header the passed response carries ends up on the reply |
| `Adapter.Context.HandleError` | lib/server.js:25-37 | the reply becomes `TranslateError` of the old reply; exactly one `Emission("error", e, ctx)` is appended to the application's log; `state.oauth` and `nextRan` are unchanged |
| `Adapter.NewOAuth2` | lib/server.js:40-46 | fails with an `InvalidArgumentError` carrying the missing-model message exactly when the model is missing; otherwise a fresh adapter holding the given config and model class, with no context and an empty engine slot |
| `Adapter.OAuth2.constructor` | lib/server.js:44-45 | stores `config` and the model class; nothing is built and no context is set |
| `Adapter.OAuth2.Server` | lib/server.js:48-56 | the slot's value state follows `Access` with the current `self.ctx`. When the slot is empty and `new Model(self.ctx)` succeeds, the engine is fresh and cached, its options are `config`, and `config.model` is now that model, built once. When the slot is empty and construction throws, that error is returned, the slot stays empty and config is unchanged. When the slot is filled, the same cached engine is returned and the slot and config are unchanged |
| `Adapter.AccessAll` | lib/server.js:48-56 | over any series of getter reads, a filled slot is never rebuilt, whatever later contexts are. An empty slot stays empty while construction throws, and is filled exactly once, counting one construction, from the context of the first read whose construction succeeds |
| `Adapter.TokenEffect` | lib/server.js:65-75 | `next` runs iff the engine succeeded, and an error is reported iff it failed. On success `state.oauth = { token }` and the neutral response is applied. On failure `state.oauth` is kept and the error is translated with the response. On both paths every header the engine set survives |
| `Adapter.OAuth2.Token` | lib/server.js:58-76 | sets `self.ctx = ctx` and reads the getter with it; a filled slot keeps its engine, and `config` is unchanged unless this read builds the engine. When the getter throws, its error takes the place of the engine's outcome. The context changes as `TokenEffect` says, and the application log gets exactly the error `TokenEffect` reports |
| `Adapter.AuthorizeEffect` | lib/server.js:87-108 | `next` runs iff the engine succeeded, and an error is reported iff it failed. Headers are never changed. On success `state.oauth = { code }` and the reply is untouched. On failure the error is translated without a response |
| `Adapter.OAuth2.Authorize` | lib/server.js:79-110 | sets `self.ctx = ctx` and reads the getter; a filled slot keeps its engine. When the getter throws, its error is translated and the options object is untouched. Otherwise an `authenticateHandler` capturing the cached engine is written into the caller's options object, and for every request that handler's lookup (`Adapter.Handle`, lib/server.js:91-98) reads `server.options.model` at call time and returns that model's `getUser(username, password)`, with absent body fields passed as `undefined`. That model is the one built from the engine's construction context. When the slot was filled or the getter throws, `config` is unchanged. The context changes as `AuthorizeEffect` says (with a getter error in place of the engine's outcome), and its reported error is appended to the log |
| `Adapter.AuthenticateEffect` | lib/server.js:119-128 | `next` runs iff the engine succeeded, and an error is reported iff it failed. Headers are never changed. On success `state.oauth = { token }` and the reply is untouched. On failure the error is translated without a response |
| `Adapter.OAuth2.Authenticate` | lib/server.js:112-130 | sets `self.ctx = ctx` and reads the getter with it; a filled slot keeps its engine, and `config` is unchanged unless this read builds the engine. The context changes as `AuthenticateEffect` says, with a getter error in place of the engine's outcome, and the log gets exactly the error it reports |

## Left out

- The `oauth2-server` engine (lib/server.js:3-7) is foreign. Its `Request` and `Response` constructors, its grant and validation logic and its `token`/`authorize`/`authenticate` operations are not modelled. Each engine call is an input outcome plus the neutral response, so the model does not capture how the engine builds that response from `ctx.request`.
- The neutral `Request`/`Response` constructors are called outside the `try` block (lib/server.js:63-64, 84-85, 117-118). Whatever they throw escapes the middleware without `handleError`. The model has no such path, because their behaviour belongs to the engine.
- The model's `getUser` and all client, token and code persistence are foreign callbacks. `getUser` is an uninterpreted function, and a failed or empty lookup is `None`.
- Koa's generator suspension (`yield`, `yield* next`) and cooperative scheduling are left out. Each entry point is one sequential step, and running `next` only sets `nextRan`. What downstream middleware does is not modelled.
- Concurrent first use of one adapter by interleaved requests is a concurrency concern. Only a single-threaded series of calls is modelled.
- `app.emit` dispatch and its listeners are modelled as appending to a log. The return value of `emit`, which the middleware returns on failure, is not modelled.
- HTTP wire format and JSON serialisation: bodies are abstract records. Koa's body setter side effects are not modelled (the implicit status, the `Content-Type` header), nor is the status setter's: for 204, 205 and 304 it sets the body to null, so in `handleResponse` line 17 can undo line 16. The model keeps the engine's body for every status. Also not modelled are case-insensitive header names, value coercion to strings or the status-code validity check.
- Only errors with a `name`, `message` and `code` are modelled, both for the engine and for a throwing `new Model(ctx)`. Other thrown values, such as a `TypeError` with no `code`, are not.
- `Adapter.NewOAuth2`: the `!model` test rejects every falsy value. The model only distinguishes a missing model (`None`) from a present one. A `null`/`undefined` `config`, which makes `Object.assign` throw inside the getter, is not modelled because `config` is always a `Config` object.
- The options passed to `token` and `authenticate` are forwarded verbatim to the engine. Since the engine is an input, they are not parameters of the model.
