/**
 * The Koa middleware adapter around an OAuth2 authorization engine.
 *
 * The adapter owns a lazily built engine, copies the engine's neutral
 * response onto the Koa context, translates engine errors into a status, an
 * optional `{ error, error_description }` body and an application-wide
 * `'error'` event, and exposes three middleware entry points (`token`,
 * `authorize`, `authenticate`) that either store a result under
 * `ctx.state.oauth` and run the downstream middleware, or halt.
 *
 * The engine itself is foreign: each engine call is an input, its outcome
 * (a value or a thrown error) together with the neutral response the engine
 * filled in.
 */
module Adapter {
  import opened Wrappers

  // ---------------------------------------------------------------------
  // Values exchanged with Koa and with the engine
  // ---------------------------------------------------------------------

  /** Response headers by name. */
  type Headers = map<string, string>

  /** A response body. Only the error body is built by the adapter; the rest is opaque. */
  datatype Body =
    | ErrorBody(error: string, errorDescription: string)  // `{ error, error_description }`
    | EngineBody(fields: map<string, string>)              // a body produced by the engine

  /** `UnauthorizedRequest` stands for an `UnauthorizedRequestError`; every other engine error is `OtherError`. */
  datatype ErrorKind = UnauthorizedRequest | OtherError

  /** An error thrown by the engine: its class, `name`, `message` and HTTP `code`. */
  datatype OAuthError = OAuthError(kind: ErrorKind, name: string, message: string, code: int)

  /** The engine's protocol-neutral response after the engine call. */
  datatype NeutralResponse = NeutralResponse(status: int, body: Body, headers: Headers)

  /** The engine's protocol-neutral request; only its parsed body is read by the adapter. */
  datatype NeutralRequest = NeutralRequest(body: map<string, string>)

  /** What one engine call produced: a value or a thrown error, and the neutral response. */
  datatype EngineCall<T> = EngineCall(outcome: Result<T, OAuthError>, response: NeutralResponse)

  datatype AccessToken = AccessToken(accessToken: string)
  datatype AuthorizationCode = AuthorizationCode(authorizationCode: string)

  /** The value stored under `ctx.state.oauth`: `{ token }` or `{ code }`. */
  datatype Envelope = TokenEnvelope(token: AccessToken) | CodeEnvelope(code: AuthorizationCode)

  datatype User = User(id: string)

  /**
   * The user-supplied model class. An instance is built from a Koa context,
   * so its `getUser(username, password)` may depend on that context.
   */
  datatype ModelClass = ModelClass(getUser: (Option<Context>, Option<string>, Option<string>) -> Option<User>)

  /** The result of `new Model(ctx)`. */
  datatype ModelInstance = ModelInstance(cls: ModelClass, ctx: Option<Context>)

  /** The `InvalidArgumentError` thrown by the adapter's constructor. */
  datatype ArgumentError = InvalidArgumentError(message: string)

  const MISSING_MODEL := "Missing parameter: `model`"

  /** The application-wide event name under which every translated error is emitted. */
  const ERROR_EVENT := "error"

  // ---------------------------------------------------------------------
  // Header merge (Koa's `ctx.set(headers)`)
  // ---------------------------------------------------------------------

  /**
   * `after` is `before` with every header of `incoming` written over it:
   * the incoming value wins, headers not named in `incoming` keep their value.
   */
  ghost predicate MergedInto(before: Headers, incoming: Headers, after: Headers) {
    && after.Keys == before.Keys + incoming.Keys
    && (forall name :: name in incoming ==> after[name] == incoming[name])
    && (forall name :: name in before && name !in incoming ==> after[name] == before[name])
  }

  function Merge(current: Headers, incoming: Headers): (merged: Headers)
    ensures MergedInto(current, incoming, merged)
  {
    current + incoming
  }

  // ---------------------------------------------------------------------
  // The outgoing response and its two writers
  // ---------------------------------------------------------------------

  /** What the Koa context will send: status, body (`undefined` is `None`) and headers. */
  datatype Reply = Reply(status: int, body: Option<Body>, headers: Headers)

  /** `after` carries exactly the neutral response's body and status, and its headers merged in. */
  ghost predicate ResponseApplied(before: Reply, response: NeutralResponse, after: Reply) {
    && after.status == response.status
    && after.body == Some(response.body)
    && MergedInto(before.headers, response.headers, after.headers)
  }

  /**
   * `after` is what translating `e` makes of `before`: the status is the
   * error's code; the neutral response's headers are merged only when there
   * is one; an unauthorized request keeps the old body, any other error
   * writes `{ error: name, error_description: message }`.
   */
  ghost predicate ErrorTranslated(before: Reply, e: OAuthError, response: Option<NeutralResponse>, after: Reply) {
    && after.status == e.code
    && (if response.Some? then MergedInto(before.headers, response.value.headers, after.headers)
        else after.headers == before.headers)
    && after.body == (if e.kind == UnauthorizedRequest then before.body else Some(ErrorBody(e.name, e.message)))
  }

  /** The effect of `handleResponse` on the reply. */
  function ApplyResponse(reply: Reply, response: NeutralResponse): (r: Reply)
    ensures ResponseApplied(reply, response, r)
  {
    Reply(response.status, Some(response.body), Merge(reply.headers, response.headers))
  }

  /** The effect of `handleError` on the reply. */
  function TranslateError(reply: Reply, e: OAuthError, response: Option<NeutralResponse>): (r: Reply)
    ensures ErrorTranslated(reply, e, response, r)
    ensures response.Some? ==> forall name :: name in response.value.headers ==> name in r.headers && r.headers[name] == response.value.headers[name]
  {
    var headers := if response.Some? then Merge(reply.headers, response.value.headers) else reply.headers;
    if e.kind == UnauthorizedRequest then Reply(e.code, reply.body, headers)
    else Reply(e.code, Some(ErrorBody(e.name, e.message)), headers)
  }

  // ---------------------------------------------------------------------
  // The Koa application and context
  // ---------------------------------------------------------------------

  /** One `app.emit(event, error, ctx)`. */
  datatype Emission = Emission(event: string, error: OAuthError, ctx: Context)

  /** The Koa application; its event dispatch is modelled as a log of emissions. */
  class App {
    var emitted: seq<Emission>

    constructor ()
      ensures emitted == []
    {
      emitted := [];
    }
  }

  /** What an entry point may change on a context: the reply, `state.oauth`, and whether `next` ran. */
  datatype Observation = Observation(reply: Reply, oauth: Option<Envelope>, nextRan: bool)

  /** The Koa request context. */
  class Context {
    const app: App
    var status: int
    var body: Option<Body>
    var headers: Headers
    var oauth: Option<Envelope>  // ctx.state.oauth
    var nextRan: bool            // whether the downstream middleware was run

    /** A fresh Koa context: status 404, no body, no headers, empty state. */
    constructor (app: App)
      ensures this.app == app && status == 404 && body == None && headers == map[]
      ensures oauth == None && !nextRan
    {
      this.app := app;
      status, body, headers := 404, None, map[];
      oauth, nextRan := None, false;
    }

    function CurrentReply(): (r: Reply)
      reads this
    {
      Reply(status, body, headers)
    }

    function Observe(): (o: Observation)
      reads this
    {
      Observation(CurrentReply(), oauth, nextRan)
    }

    /** `handleResponse`, called with this context as `this`. */
    method HandleResponse(response: NeutralResponse)
      modifies this
      ensures CurrentReply() == ApplyResponse(old(CurrentReply()), response)
      ensures oauth == old(oauth) && nextRan == old(nextRan)
    {
      body := Some(response.body);
      status := response.status;
      headers := Merge(headers, response.headers);
    }

    /** `handleError`, called with this context as `this`. */
    method HandleError(e: OAuthError, response: Option<NeutralResponse>)
      modifies this, app
      ensures CurrentReply() == TranslateError(old(CurrentReply()), e, response)
      ensures oauth == old(oauth) && nextRan == old(nextRan)
      ensures app.emitted == old(app.emitted) + [Emission(ERROR_EVENT, e, this)]
    {
      if response.Some? {
        headers := Merge(headers, response.value.headers);
      }
      if e.kind == UnauthorizedRequest {
        status := e.code;
      } else {
        body := Some(ErrorBody(e.name, e.message));
        status := e.code;
      }
      app.emitted := app.emitted + [Emission(ERROR_EVENT, e, this)];
    }
  }

  /** The emissions an entry point adds to the application's log for an optional reported error. */
  function Emissions(reported: Option<OAuthError>, ctx: Context): (log: seq<Emission>) {
    if reported.Some? then [Emission(ERROR_EVENT, reported.value, ctx)] else []
  }

  // ---------------------------------------------------------------------
  // Pure effect of each entry point on a context
  // ---------------------------------------------------------------------

  /** The context after an entry point, and the error it reported, if any. */
  datatype Effect = Effect(after: Observation, reported: Option<OAuthError>)

  /** `token`: on success store `{ token }`, apply the neutral response, run `next`; on failure translate with the response. */
  function TokenEffect(before: Observation, call: EngineCall<AccessToken>): (r: Effect)
    ensures r.after.nextRan <==> before.nextRan || call.outcome.Success?
    ensures r.reported == if call.outcome.Failure? then Some(call.outcome.error) else None
    ensures call.outcome.Success? ==>
              && r.after.oauth == Some(TokenEnvelope(call.outcome.value))
              && ResponseApplied(before.reply, call.response, r.after.reply)
    ensures call.outcome.Failure? ==>
              && r.after.oauth == before.oauth
              && ErrorTranslated(before.reply, call.outcome.error, Some(call.response), r.after.reply)
    ensures forall name :: name in call.response.headers ==>
              name in r.after.reply.headers && r.after.reply.headers[name] == call.response.headers[name]
  {
    match call.outcome
    case Success(token) =>
      Effect(Observation(ApplyResponse(before.reply, call.response), Some(TokenEnvelope(token)), true), None)
    case Failure(e) =>
      Effect(Observation(TranslateError(before.reply, e, Some(call.response)), before.oauth, before.nextRan), Some(e))
  }

  /** `authorize`: on success store `{ code }` and run `next`; on failure translate without a response. */
  function AuthorizeEffect(before: Observation, call: EngineCall<AuthorizationCode>): (r: Effect)
    ensures r.after.nextRan <==> before.nextRan || call.outcome.Success?
    ensures r.reported == if call.outcome.Failure? then Some(call.outcome.error) else None
    ensures r.after.reply.headers == before.reply.headers
    ensures call.outcome.Success? ==>
              r.after.oauth == Some(CodeEnvelope(call.outcome.value)) && r.after.reply == before.reply
    ensures call.outcome.Failure? ==>
              && r.after.oauth == before.oauth
              && ErrorTranslated(before.reply, call.outcome.error, None, r.after.reply)
  {
    match call.outcome
    case Success(code) =>
      Effect(Observation(before.reply, Some(CodeEnvelope(code)), true), None)
    case Failure(e) =>
      Effect(Observation(TranslateError(before.reply, e, None), before.oauth, before.nextRan), Some(e))
  }

  /** `authenticate`: on success store `{ token }` and run `next`; on failure translate without a response. */
  function AuthenticateEffect(before: Observation, call: EngineCall<AccessToken>): (r: Effect)
    ensures r.after.nextRan <==> before.nextRan || call.outcome.Success?
    ensures r.reported == if call.outcome.Failure? then Some(call.outcome.error) else None
    ensures r.after.reply.headers == before.reply.headers
    ensures call.outcome.Success? ==>
              r.after.oauth == Some(TokenEnvelope(call.outcome.value)) && r.after.reply == before.reply
    ensures call.outcome.Failure? ==>
              && r.after.oauth == before.oauth
              && ErrorTranslated(before.reply, call.outcome.error, None, r.after.reply)
  {
    match call.outcome
    case Success(token) =>
      Effect(Observation(before.reply, Some(TokenEnvelope(token)), true), None)
    case Failure(e) =>
      Effect(Observation(TranslateError(before.reply, e, None), before.oauth, before.nextRan), Some(e))
  }

  // ---------------------------------------------------------------------
  // The engine slot as a value
  // ---------------------------------------------------------------------

  /** The engine slot: empty, or holding an engine whose model was built from `from`. */
  datatype Slot = Unbuilt | Built(from: Option<Context>)

  /** The engine slot and the number of model constructions so far. */
  datatype Memo = Memo(slot: Slot, constructions: nat)

  /**
   * One read of the `server` getter: the value of `self.ctx` at that moment,
   * and the error `new Model(ctx)` throws, if it would throw.
   */
  datatype Read = Read(ctx: Option<Context>, modelFailure: Option<OAuthError>)

  /** One getter read. An empty slot is filled only when building the model does not throw. */
  function Access(m: Memo, read: Read): (r: Memo) {
    if m.slot.Built? || read.modelFailure.Some? then m else Memo(Built(read.ctx), m.constructions + 1)
  }

  /**
   * A series of getter reads. A filled slot is never rebuilt, whatever the
   * later contexts are. An empty slot stays empty while construction throws,
   * and is filled, exactly once, from the context of the first read whose
   * construction succeeds.
   */
  function AccessAll(m: Memo, accesses: seq<Read>): (r: Memo)
    ensures m.slot.Built? ==> r == m
    ensures (forall i :: 0 <= i < |accesses| ==> accesses[i].modelFailure.Some?) ==> r == m
    ensures forall k ::
              (&& 0 <= k < |accesses| && m.slot.Unbuilt? && accesses[k].modelFailure.None?
               && (forall i :: 0 <= i < k ==> accesses[i].modelFailure.Some?))
              ==> r == Memo(Built(accesses[k].ctx), m.constructions + 1)
    decreases |accesses|
  {
    if accesses == [] then m else AccessAll(Access(m, accesses[0]), accesses[1..])
  }

  /** The engine call as an entry point sees it: an error thrown by the getter replaces the engine's outcome. */
  function Attempt<T>(getterError: Option<OAuthError>, call: EngineCall<T>): (c: EngineCall<T>) {
    if getterError.Some? then EngineCall(Failure(getterError.value), call.response) else call
  }

  // ---------------------------------------------------------------------
  // Configuration, engine and the injected authenticate handler
  // ---------------------------------------------------------------------

  /** The adapter's `config` object: caller settings plus the `model` entry the getter writes. */
  class Config {
    var settings: map<string, string>
    var model: Option<ModelInstance>

    constructor (settings: map<string, string>)
      ensures this.settings == settings && model == None
    {
      this.settings := settings;
      model := None;
    }
  }

  /** The engine; it keeps the configuration object it was built with as `options`. */
  class Engine {
    const options: Config

    constructor (options: Config)
      ensures this.options == options
    {
      this.options := options;
    }
  }

  /** The `authenticateHandler` that `authorize` injects; it captures the engine. */
  datatype AuthenticateHandler = AuthenticateHandler(server: Engine)

  /** A field of a parsed request body, `undefined` (`None`) when absent. */
  function Field(body: map<string, string>, key: string): (v: Option<string>) {
    if key in body then Some(body[key]) else None
  }

  /** `authenticateHandler.handle(req)`: look the user up through `server.options.model`. */
  function Handle(handler: AuthenticateHandler, request: NeutralRequest): (user: Option<User>)
    reads handler.server.options
    requires handler.server.options.model.Some?
  {
    var model := handler.server.options.model.value;
    model.cls.getUser(model.ctx, Field(request.body, "username"), Field(request.body, "password"))
  }

  /** The caller's options object of `authorize`, mutated in place. */
  class Options {
    var settings: map<string, string>
    var authenticateHandler: Option<AuthenticateHandler>

    constructor (settings: map<string, string>)
      ensures this.settings == settings && authenticateHandler == None
    {
      this.settings := settings;
      authenticateHandler := None;
    }
  }

  // ---------------------------------------------------------------------
  // The adapter
  // ---------------------------------------------------------------------

  /** The `OAuth2` class. */
  class OAuth2 {
    const config: Config
    const modelClass: ModelClass
    var ctx: Option<Context>     // self.ctx, the context of the latest entry-point call
    var slot: Option<Engine>     // this[SERVER]
    ghost var constructions: nat // how many times `new Model(ctx)` returned

    /** The slot is filled exactly when the model was built, once, into `config`. */
    ghost predicate Valid()
      reads this, config
    {
      && constructions <= 1
      && (slot.None? <==> constructions == 0)
      && (slot.Some? ==> slot.value.options == config && config.model.Some? && config.model.value.cls == modelClass)
    }

    /** The engine slot as a value. */
    ghost function MemoState(): (m: Memo)
      reads this, config
      requires Valid()
    {
      Memo(if slot.None? then Unbuilt else Built(config.model.value.ctx), constructions)
    }

    /** Stores the configuration and the model class; builds nothing yet. */
    constructor (config: Config, modelClass: ModelClass)
      ensures Valid() && this.config == config && this.modelClass == modelClass
      ensures ctx == None && slot == None && MemoState() == Memo(Unbuilt, 0)
    {
      this.config := config;
      this.modelClass := modelClass;
      ctx, slot := None, None;
      constructions := 0;
    }

    /** The error the `server` getter throws now, given what `new Model(ctx)` would throw. */
    ghost function GetterError(modelFailure: Option<OAuthError>): (e: Option<OAuthError>)
      reads this
    {
      if slot.None? then modelFailure else None
    }

    /**
     * The `server` getter: on first use build the model from `self.ctx`, merge
     * it into `config` and cache a new engine; afterwards return the cached one.
     * `modelFailure` is what `new Model(ctx)` throws, if it throws; then
     * nothing is written and the slot stays empty.
     */
    method Server(modelFailure: Option<OAuthError>) returns (r: Result<Engine, OAuthError>)
      requires Valid()
      modifies this`slot, this`constructions, config`model
      ensures Valid()
      ensures MemoState() == Access(old(MemoState()), Read(ctx, modelFailure))
      ensures old(slot).Some? ==> r == Success(old(slot).value) && slot == old(slot) && unchanged(config)
      ensures old(slot).None? && modelFailure.Some? ==>
                r == Failure(modelFailure.value) && slot == None && unchanged(config)
      ensures old(slot).None? && modelFailure.None? ==>
                && r.Success? && fresh(r.value) && slot == Some(r.value) && r.value.options == config
                && config.model == Some(ModelInstance(modelClass, ctx))
    {
      if slot.None? {
        if modelFailure.Some? {
          return Failure(modelFailure.value);
        }
        var model := ModelInstance(modelClass, ctx);
        constructions := constructions + 1;
        config.model := Some(model);
        var engine := new Engine(config);
        slot := Some(engine);
        return Success(engine);
      }
      r := Success(slot.value);
    }

    /** The middleware returned by `token(options)`, run on `ctx`. */
    method Token(ctx: Context, modelFailure: Option<OAuthError>, call: EngineCall<AccessToken>)
      requires Valid()
      modifies this`ctx, this`slot, this`constructions, config`model, ctx, ctx.app
      ensures Valid() && this.ctx == Some(ctx)
      ensures MemoState() == Access(old(MemoState()), Read(Some(ctx), modelFailure))
      ensures old(slot).Some? ==> slot == old(slot)
      ensures old(slot).Some? || modelFailure.Some? ==> unchanged(config)
      ensures ctx.Observe() == TokenEffect(old(ctx.Observe()), Attempt(old(GetterError(modelFailure)), call)).after
      ensures ctx.app.emitted == old(ctx.app.emitted)
                + Emissions(TokenEffect(old(ctx.Observe()), Attempt(old(GetterError(modelFailure)), call)).reported, ctx)
    {
      this.ctx := Some(ctx);
      var server := Server(modelFailure);
      if server.Failure? {
        ctx.HandleError(server.error, Some(call.response));
        return;
      }
      match call.outcome {
        case Success(token) =>
          ctx.oauth := Some(TokenEnvelope(token));
          ctx.HandleResponse(call.response);
          ctx.nextRan := true;
        case Failure(e) =>
          ctx.HandleError(e, Some(call.response));
      }
    }

    /** The middleware returned by `authorize(options)`, run on `ctx`. */
    method Authorize(options: Options, ctx: Context, modelFailure: Option<OAuthError>, call: EngineCall<AuthorizationCode>)
      requires Valid()
      modifies this`ctx, this`slot, this`constructions, config`model, options`authenticateHandler, ctx, ctx.app
      ensures Valid() && this.ctx == Some(ctx)
      ensures MemoState() == Access(old(MemoState()), Read(Some(ctx), modelFailure))
      ensures old(slot).Some? ==> slot == old(slot)
      ensures old(slot).Some? || modelFailure.Some? ==> unchanged(config)
      ensures old(GetterError(modelFailure)).Some? ==> options.authenticateHandler == old(options.authenticateHandler)
      ensures old(GetterError(modelFailure)).None? ==>
                && slot.Some? && options.authenticateHandler == Some(AuthenticateHandler(slot.value))
                && forall request :: Handle(options.authenticateHandler.value, request)
                     == modelClass.getUser(MemoState().slot.from, Field(request.body, "username"), Field(request.body, "password"))
      ensures ctx.Observe() == AuthorizeEffect(old(ctx.Observe()), Attempt(old(GetterError(modelFailure)), call)).after
      ensures ctx.app.emitted == old(ctx.app.emitted)
                + Emissions(AuthorizeEffect(old(ctx.Observe()), Attempt(old(GetterError(modelFailure)), call)).reported, ctx)
    {
      this.ctx := Some(ctx);
      var server := Server(modelFailure);
      if server.Failure? {
        ctx.HandleError(server.error, None);
        return;
      }
      options.authenticateHandler := Some(AuthenticateHandler(server.value));
      match call.outcome {
        case Success(code) =>
          ctx.oauth := Some(CodeEnvelope(code));
          ctx.nextRan := true;
        case Failure(e) =>
          ctx.HandleError(e, None);
      }
    }

    /** The middleware returned by `authenticate(options)`, run on `ctx`. */
    method Authenticate(ctx: Context, modelFailure: Option<OAuthError>, call: EngineCall<AccessToken>)
      requires Valid()
      modifies this`ctx, this`slot, this`constructions, config`model, ctx, ctx.app
      ensures Valid() && this.ctx == Some(ctx)
      ensures MemoState() == Access(old(MemoState()), Read(Some(ctx), modelFailure))
      ensures old(slot).Some? ==> slot == old(slot)
      ensures old(slot).Some? || modelFailure.Some? ==> unchanged(config)
      ensures ctx.Observe() == AuthenticateEffect(old(ctx.Observe()), Attempt(old(GetterError(modelFailure)), call)).after
      ensures ctx.app.emitted == old(ctx.app.emitted)
                + Emissions(AuthenticateEffect(old(ctx.Observe()), Attempt(old(GetterError(modelFailure)), call)).reported, ctx)
    {
      this.ctx := Some(ctx);
      var server := Server(modelFailure);
      if server.Failure? {
        ctx.HandleError(server.error, None);
        return;
      }
      match call.outcome {
        case Success(token) =>
          ctx.oauth := Some(TokenEnvelope(token));
          ctx.nextRan := true;
        case Failure(e) =>
          ctx.HandleError(e, None);
      }
    }
  }

  /** `new OAuth2(config, model)`: a missing model is rejected before any adapter exists. */
  method NewOAuth2(config: Config, model: Option<ModelClass>) returns (r: Result<OAuth2, ArgumentError>)
    ensures r.Failure? <==> model.None?
    ensures r.Failure? ==> r.error == InvalidArgumentError(MISSING_MODEL)
    ensures r.Success? ==>
              && fresh(r.value) && r.value.Valid()
              && r.value.config == config && Some(r.value.modelClass) == model
              && r.value.ctx == None && r.value.MemoState() == Memo(Unbuilt, 0)
  {
    if model.None? {
      return Failure(InvalidArgumentError(MISSING_MODEL));
    }
    var adapter := new OAuth2(config, model.value);
    r := Success(adapter);
  }
}
