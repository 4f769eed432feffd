/** Per-request middleware of the REST package (rest.go): the request context
    and its `DefaultContext`, the request initialisation, the access log, and
    the package's installed configuration. */
module Rest {
  import opened Wrappers
  import opened Logging
  import opened Configuration

  /** Request-scoped identifiers published for downstream handlers. */
  datatype DefaultContext = DefaultContext(requestID: string, forwardedFor: string, organizationID: string)

  /** Keys of context values. Go compares a key by its type and its value, so
      this package's `contextKey` strings, the logging library's key and keys
      of other packages never collide. */
  datatype ContextKey = PackageKey(name: string) | LoggerKey | ForeignKey(id: nat)

  /** `fcKey`, the key of the `DefaultContext`. */
  const FcKey: ContextKey := PackageKey("DefaultContext")

  /** A value stored in a context: nil, a `DefaultContext`, a logger, or a value
      of some other type. */
  datatype ContextValue = Nil | DefaultContextValue(dc: DefaultContext) | LoggerValue(logger: Logger) | OtherValue(text: string)

  /** A Go `context.Context`: a chain of derived contexts ending in the background one. */
  datatype Context =
    | Background
    | WithValue(parent: Context, key: ContextKey, val: ContextValue)
    | WithTimeout(parent: Context, timeout: int)

  /** `ctx.Value(key)`: the value of the nearest layer carrying `key`, nil if none does. */
  function Value(ctx: Context, key: ContextKey): ContextValue {
    match ctx
    case Background => Nil
    case WithValue(parent, k, v) => if k == key then v else Value(parent, key)
    case WithTimeout(parent, _) => Value(parent, key)
  }

  /** Whether some layer of `ctx` bounds it by `timeout`. */
  predicate HasTimeout(ctx: Context, timeout: int) {
    match ctx
    case Background => false
    case WithValue(parent, _, _) => HasTimeout(parent, timeout)
    case WithTimeout(parent, t) => t == timeout || HasTimeout(parent, timeout)
  }

  /** `setDefaultContext`: a context in which `d` is the `DefaultContext` and
      every other key reads as before. */
  function SetDefaultContext(ctx: Context, d: DefaultContext): (c: Context)
    ensures Value(c, FcKey) == DefaultContextValue(d)
    ensures forall k :: k != FcKey ==> Value(c, k) == Value(ctx, k)
  {
    WithValue(ctx, FcKey, DefaultContextValue(d))
  }

  const NoDefaultContextError := "no DefaultContext"
  const CorruptedDefaultContextError := "default context key is corrupted"

  /** `GetDefaultContext`: three outcomes, the stored `DefaultContext`, an error
      when nothing (or nil) is stored under the key, and a different error when
      something of another type is. */
  function GetDefaultContext(ctx: Context): (r: Result<DefaultContext>)
    ensures r.Ok? <==> Value(ctx, FcKey).DefaultContextValue?
    ensures r.Ok? ==> r.value == Value(ctx, FcKey).dc
    ensures Value(ctx, FcKey) == Nil ==> r == Err(NoDefaultContextError)
    ensures Value(ctx, FcKey).LoggerValue? || Value(ctx, FcKey).OtherValue? ==> r == Err(CorruptedDefaultContextError)
  {
    match Value(ctx, FcKey)
    case Nil => Err(NoDefaultContextError)
    case DefaultContextValue(d) => Ok(d)
    case _ => Err(CorruptedDefaultContextError)
  }

  /** What is set is what is read back. */
  lemma DefaultContextRoundTrip(ctx: Context, d: DefaultContext)
    ensures GetDefaultContext(SetDefaultContext(ctx, d)) == Ok(d)
  {
  }

  /** One step by which downstream code derives a context from the one it got. */
  datatype Layer = ValueLayer(key: ContextKey, val: ContextValue) | TimeoutLayer(timeout: int)

  /** The context obtained by deriving `layers` from `ctx`, first layer innermost. */
  function Derive(ctx: Context, layers: seq<Layer>): Context
    decreases |layers|
  {
    if |layers| == 0 then ctx
    else
      var inner := Derive(ctx, layers[..|layers| - 1]);
      match layers[|layers| - 1]
      case ValueLayer(k, v) => WithValue(inner, k, v)
      case TimeoutLayer(t) => WithTimeout(inner, t)
  }

  /** No layer stores a value under `key`. */
  predicate LeavesKey(layers: seq<Layer>, key: ContextKey) {
    forall i :: 0 <= i < |layers| ==> !(layers[i].ValueLayer? && layers[i].key == key)
  }

  /** Deriving contexts that store other keys does not change what `key` reads as. */
  lemma {:induction false} ValueSurvivesLayers(ctx: Context, layers: seq<Layer>, key: ContextKey)
    requires LeavesKey(layers, key)
    ensures Value(Derive(ctx, layers), key) == Value(ctx, key)
    decreases |layers|
  {
    if |layers| > 0 {
      var init := layers[..|layers| - 1];
      assert LeavesKey(init, key) by {
        forall i | 0 <= i < |init| ensures !(init[i].ValueLayer? && init[i].key == key) {
          assert init[i] == layers[i];
        }
      }
      ValueSurvivesLayers(ctx, init, key);
    }
  }

  /** A published `DefaultContext` is found by every handler further down the
      chain, whatever contexts it derives, as long as none of them stores its
      own value under the package's key. */
  lemma {:induction false} DefaultContextSurvivesLayers(ctx: Context, d: DefaultContext, layers: seq<Layer>)
    requires LeavesKey(layers, FcKey)
    ensures GetDefaultContext(Derive(SetDefaultContext(ctx, d), layers)) == Ok(d)
  {
    ValueSurvivesLayers(SetDefaultContext(ctx, d), layers, FcKey);
  }

  /** `logging.SetLogger`: stores the logger in the context. */
  function SetLogger(ctx: Context, logger: Logger): (c: Context)
    ensures Value(c, LoggerKey) == LoggerValue(logger)
    ensures forall k :: k != LoggerKey ==> Value(c, k) == Value(ctx, k)
  {
    WithValue(ctx, LoggerKey, LoggerValue(logger))
  }

  /** `logging.GetLogger`: the logger stored in the context, or a fresh one. */
  function LoggerOf(ctx: Context): Logger {
    match Value(ctx, LoggerKey)
    case LoggerValue(l) => l
    case _ => NewLogger()
  }

  /** A request body: the client's stream, or a reader that fails once more
      than `limit` bytes have been read from the stream it wraps. */
  datatype Body = Stream(id: nat) | MaxBytesReader(inner: Body, limit: int)

  /** The parts of an `http.Request` the middleware reads or replaces. Headers
      map each name to its first value. */
  datatype Request = Request(host: string, header: map<string, string>, body: Option<Body>, ctx: Context)

  /** `Header.Get`: the value, or "" when the header is absent. */
  function HeaderGet(header: map<string, string>, name: string): string {
    if name in header then header[name] else ""
  }

  const RequestIdHeader := "BMG-Request-Id"
  const UserAgentHeader := "User-Agent"
  const RetailerApiKeyHeader := "BMG-Retailer-Api-Key"
  const ApiKeyHeader := "BMG-Api-Key"
  const AuthTokenHeader := "BMG-Auth-Token"
  const OrganizationIdHeader := "BMG-Organization-Id"
  const ForwardedForHeader := "X-Forwarded-For"

  /** The fields every request logger carries. */
  const AlwaysLogged: set<FieldName> := {RequestIdField, ServerNameField, PrognameField, UserAgentField, UserIpField}

  predicate LoggedIffPresent(fields: Fields, field: FieldName, header: map<string, string>, name: string) {
    && (field in fields <==> HeaderGet(header, name) != "")
    && (field in fields ==> fields[field] == Text(HeaderGet(header, name)))
  }

  /** A field present in `fields`, carrying `text`. */
  predicate Logged(fields: Fields, field: FieldName, text: string) {
    field in fields && fields[field] == Text(text)
  }

  /** The five fields every request logger carries, with their values. */
  predicate AlwaysLoggedAs(fields: Fields, requestID: string, host: string, progname: string, userAgent: string, userIP: string) {
    && Logged(fields, RequestIdField, requestID)
    && Logged(fields, ServerNameField, host)
    && Logged(fields, PrognameField, progname)
    && Logged(fields, UserAgentField, userAgent)
    && Logged(fields, UserIpField, userIP)
  }

  const LoggedWhenSet: set<FieldName> := {RetailerApiKeyField, ApiKeyField, AuthTokenField, OrganizationIdField}

  /** The logger every request starts with: a fresh logger carrying the five
      fixed fields and nothing else. */
  function FixedFieldsLogger(requestID: string, host: string, progname: string, userAgent: string, userIP: string): (l: Logger)
    ensures AlwaysLoggedAs(l.fields, requestID, host, progname, userAgent, userIP)
    ensures l.fields.Keys == AlwaysLogged
  {
    NewLogger().AddFields(map[
      RequestIdField := Text(requestID),
      ServerNameField := Text(host),
      PrognameField := Text(progname),
      UserAgentField := Text(userAgent),
      UserIpField := Text(userIP)])
  }

  /** One of the optional blocks of `InitRequest`: the logger gains `field`
      with the header's value when that value is non-empty, and is otherwise
      unchanged; no other field is touched. */
  function AddFieldIfSet(logger: Logger, field: FieldName, value: string): (l: Logger)
    ensures value != "" ==> l.fields == logger.fields[field := Text(value)]
    ensures value == "" ==> l == logger
  {
    if value != "" then
      var l := logger.AddFields(map[field := Text(value)]);
      assert l.fields == logger.fields[field := Text(value)];
      l
    else logger
  }

  /** Adding one optional field leaves what another field records as it was. */
  lemma AddFieldKeepsOther(logger: Logger, field: FieldName, value: string,
                           other: FieldName, header: map<string, string>, name: string)
    requires other != field
    requires LoggedIffPresent(logger.fields, other, header, name)
    ensures LoggedIffPresent(AddFieldIfSet(logger, field, value).fields, other, header, name)
  {
  }

  /** The request logger built by `InitRequest`, and the organization id it
      publishes: the five fixed fields, plus each optional field exactly when
      its header is non-empty. */
  method NewRequestLogger(req: Request, requestID: string, progname: string, userIP: string)
    returns (logger: Logger, organizationID: string)
    ensures AlwaysLoggedAs(logger.fields, requestID, req.host, progname, HeaderGet(req.header, UserAgentHeader), userIP)
    ensures LoggedIffPresent(logger.fields, RetailerApiKeyField, req.header, RetailerApiKeyHeader)
    ensures LoggedIffPresent(logger.fields, ApiKeyField, req.header, ApiKeyHeader)
    ensures LoggedIffPresent(logger.fields, AuthTokenField, req.header, AuthTokenHeader)
    ensures LoggedIffPresent(logger.fields, OrganizationIdField, req.header, OrganizationIdHeader)
    ensures forall k :: k in logger.fields ==> k in AlwaysLogged || k in LoggedWhenSet
    ensures organizationID == HeaderGet(req.header, OrganizationIdHeader)
  {
    logger := FixedFieldsLogger(requestID, req.host, progname, HeaderGet(req.header, UserAgentHeader), userIP);

    assert forall k :: k in LoggedWhenSet ==> k !in logger.fields;
    logger := AddFieldIfSet(logger, RetailerApiKeyField, HeaderGet(req.header, RetailerApiKeyHeader));
    AddFieldKeepsOther(logger, ApiKeyField, HeaderGet(req.header, ApiKeyHeader),
                       RetailerApiKeyField, req.header, RetailerApiKeyHeader);
    logger := AddFieldIfSet(logger, ApiKeyField, HeaderGet(req.header, ApiKeyHeader));
    AddFieldKeepsOther(logger, AuthTokenField, HeaderGet(req.header, AuthTokenHeader),
                       RetailerApiKeyField, req.header, RetailerApiKeyHeader);
    AddFieldKeepsOther(logger, AuthTokenField, HeaderGet(req.header, AuthTokenHeader),
                       ApiKeyField, req.header, ApiKeyHeader);
    logger := AddFieldIfSet(logger, AuthTokenField, HeaderGet(req.header, AuthTokenHeader));

    organizationID := "";
    var oid := HeaderGet(req.header, OrganizationIdHeader);
    if oid != "" {
      organizationID := oid;
    }
    AddFieldKeepsOther(logger, OrganizationIdField, oid, RetailerApiKeyField, req.header, RetailerApiKeyHeader);
    AddFieldKeepsOther(logger, OrganizationIdField, oid, ApiKeyField, req.header, ApiKeyHeader);
    AddFieldKeepsOther(logger, OrganizationIdField, oid, AuthTokenField, req.header, AuthTokenHeader);
    logger := AddFieldIfSet(logger, OrganizationIdField, oid);
  }

  /** The package-level state of the REST package: the server configuration. */
  class RestPackage {
    var config: Configuration

    /** The package starts with the default configuration. */
    constructor()
      ensures config == NewConfiguration()
    {
      config := NewConfiguration();
    }

    /** `SetConfiguration`: replaces the whole configuration at once. */
    method SetConfiguration(conf: Configuration)
      modifies this
      ensures config == conf
    {
      config := conf;
    }

    /** What the handler returned by `InitRequest` does to one request before
        calling the wrapped handler: the request handed on. `remoteHost` is the
        host part of the client address resolved from the forwarded-for chain
        (None when it does not split into host and port); `freshId` is a newly
        generated UUID. */
    method InitRequest(req: Request, remoteHost: Option<string>, freshId: string) returns (r: Request)
      requires freshId != ""
      // the request is otherwise unchanged; a body, if any, is capped at the configured size
      ensures r.host == req.host && r.header == req.header
      ensures r.body.None? <==> req.body.None?
      ensures r.body.Some? ==> r.body.value == MaxBytesReader(req.body.value, config.maximumBodySize)
      // the published DefaultContext
      ensures GetDefaultContext(r.ctx).Ok?
      ensures var d := GetDefaultContext(r.ctx).value;
              && d.requestID != ""
              && (HeaderGet(req.header, RequestIdHeader) != "" ==> d.requestID == HeaderGet(req.header, RequestIdHeader))
              && (HeaderGet(req.header, RequestIdHeader) == "" ==> d.requestID == freshId)
              && d.forwardedFor == HeaderGet(req.header, ForwardedForHeader)
              && d.organizationID == HeaderGet(req.header, OrganizationIdHeader)
      // the published logger
      ensures var f := LoggerOf(r.ctx).fields;
              && (forall k :: k in f ==> k in AlwaysLogged || k in LoggedWhenSet)
              && AlwaysLoggedAs(f, GetDefaultContext(r.ctx).value.requestID, req.host, config.applicationName,
                                HeaderGet(req.header, UserAgentHeader), remoteHost.GetOr(""))
              && LoggedIffPresent(f, RetailerApiKeyField, req.header, RetailerApiKeyHeader)
              && LoggedIffPresent(f, ApiKeyField, req.header, ApiKeyHeader)
              && LoggedIffPresent(f, AuthTokenField, req.header, AuthTokenHeader)
              && LoggedIffPresent(f, OrganizationIdField, req.header, OrganizationIdHeader)
      // the context is derived from the request's own: bounded by the configured
      // duration, and every other key reads as it did
      ensures HasTimeout(r.ctx, config.maximumRequestDuration)
      ensures forall k :: k != FcKey && k != LoggerKey ==> Value(r.ctx, k) == Value(req.ctx, k)
    {
      var body := req.body;
      if body.Some? {
        body := Some(MaxBytesReader(body.value, config.maximumBodySize));
      }

      var requestID := HeaderGet(req.header, RequestIdHeader);
      if requestID == "" {
        requestID := freshId;
      }

      var userIP := "";
      if remoteHost.Some? {
        userIP := remoteHost.value;
      }

      var logger, organizationID := NewRequestLogger(req, requestID, config.applicationName, userIP);

      var ctx := WithTimeout(req.ctx, config.maximumRequestDuration);
      ghost var bounded := ctx;
      ctx := WithValue(ctx, FcKey, DefaultContextValue(DefaultContext(
        requestID, HeaderGet(req.header, ForwardedForHeader), organizationID)));
      ghost var published := ctx;
      ctx := SetLogger(ctx, logger);

      r := Request(req.host, req.header, body, ctx);

      assert LoggerOf(r.ctx) == logger;
      assert Value(r.ctx, FcKey) == Value(published, FcKey);

      forall k | k != FcKey && k != LoggerKey
        ensures Value(r.ctx, k) == Value(req.ctx, k)
      {
        assert Value(r.ctx, k) == Value(bounded, k);
      }
    }
  }

  /** An error a handler returns: an echo `HTTPError` carrying a status code, or any other error. */
  datatype HandlerError = HTTPError(code: int, message: string) | OtherError(message: string)

  /** What `RequestLogger` does around one call of the wrapped handler, given
      the handler's returned error and the status the response holds after it:
      the two lines it logs and the error it passes on. */
  method RequestLogger(ctx: Context, httpMethod: string, path: string, handlerErr: Option<HandlerError>, responseStatus: int)
    returns (log: seq<LogEntry>, err: Option<HandlerError>)
    ensures err == handlerErr
    ensures |log| == 2 && log[0].message == "Starting" && log[1].message == "Finished"
    // both lines carry the request's logger fields, the method and the path, and nothing else
    ensures log[0].fields.Keys == LoggerOf(ctx).fields.Keys + {MethodField, PathField}
    ensures forall k :: k in LoggerOf(ctx).fields && k != MethodField && k != PathField ==>
              k in log[0].fields && log[0].fields[k] == LoggerOf(ctx).fields[k]
    ensures Logged(log[0].fields, MethodField, httpMethod) && Logged(log[0].fields, PathField, path)
    ensures log[1].fields.Keys == log[0].fields.Keys + {StatusField}
    ensures forall k :: k in log[0].fields && k != StatusField ==> log[1].fields[k] == log[0].fields[k]
    // the status: an HTTPError's code wins over what the response says
    ensures handlerErr.Some? && handlerErr.value.HTTPError? ==> log[1].fields[StatusField] == Number(handlerErr.value.code)
    ensures !(handlerErr.Some? && handlerErr.value.HTTPError?) ==> log[1].fields[StatusField] == Number(responseStatus)
  {
    var logger := LoggerOf(ctx).AddFields(map[MethodField := Text(httpMethod), PathField := Text(path)]);
    assert logger.fields == LoggerOf(ctx).fields[MethodField := Text(httpMethod)][PathField := Text(path)];
    log := [Info("Starting", logger.fields)];

    err := handlerErr;

    var status := responseStatus;
    if err.Some? && err.value.HTTPError? {
      status := err.value.code;
    }

    var finished := logger.AddFields(map[StatusField := Number(status)]);
    assert finished.fields == logger.fields[StatusField := Number(status)];
    log := log + [Info("Finished", finished.fields)];
  }
}
