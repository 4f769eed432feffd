# go-resty `rest` package: a Dafny model of its decision layer

The `rest` package is HTTP middleware plus OpenTracing set-up for Go services.
This project models the logic it owns, as distinct from the calls it hands to
third-party SDKs:

- **Tracer configuration** (`tracing.go`). `getTracerConfig` reads the
  `TRACER_*` environment variables into a `tracerConfig`. The environment is a
  `map<string, string>`, so an absent variable stays distinct from one that is
  present but empty. `tracerSampler.UnmarshalText` accepts exactly the two
  sampler names. `InitGlobalTracer` dispatches on the backend name and installs
  the started tracer in the process-wide global slot only on success. That slot
  is the field of the class `Tracing.GlobalTracer`.
- **The two backend adapters** (`datadog-tracer.go`, `jaeger-tracer.go`).
  - The sampler truth tables clamp parsed rates to [0, 1]. The two adapters
    differ for an unknown sampler kind: Jaeger keeps every trace, Datadog none.
  - Each adapter composes an agent address. Jaeger defaults the port to 6831.
  - The Datadog adapter is the class `Datadog.DatadogTracer`. Its `Init`
    stores the tracer it starts and hands itself out as the closer.
  - The Jaeger adapter falls back to the no-op tracer when the UDP transport
    cannot be opened.
- **Per-request metadata** (`rest.go`). `InitRequest` does the following:
  - caps the request body;
  - picks or generates the request id;
  - builds the request logger's fields from the headers;
  - publishes a `DefaultContext` in the request context.

  A Go `context.Context` is modelled as a chain of layers. A lookup walks the
  chain the way `ctx.Value` does. `GetDefaultContext` has three outcomes.
  `RequestLogger` chooses the final status. The package configuration lives in
  the class `Rest.RestPackage`.
- **Configuration defaults** (`configuration.go`).

Module `Wrappers` holds `Option` and `Result`. Module `Logging` holds the part
of the logging library that the package relies on: a logger is its field map,
and `AddFields` merges new fields in, with the new fields winning. The
library keys fields by name strings. The model keys them by `FieldName`,
which has one constructor per name this package logs under and `OtherField`
for any other name. `OtherField` may not spell a name that has its own
constructor, so names and keys correspond one to one.

Calls into code outside the package are parameters of the model. There are
three, carried by the datatype `TracingConfig.Sdk`:

- `strconv.ParseFloat`, which is partial and yields `Option<real>`;
- `jaeger.NewUDPTransport`, which yields an optional error;
- the Jaeger SDK's `NewTracer`.

Four more inputs are also parameters:

- the process environment;
- the host part of the resolved client address;
- the freshly generated UUID;
- the handler's result in `RequestLogger`.

## Model

| member | source | states |
|---|---|---|
| Configuration.NewConfiguration | configuration.go:34-42 | The defaults are application "test_app", a 30 s request limit, a 1<<20 = 1048576-byte body limit, log level "info", and a 30 s (30 000 000 000 ns) shutdown grace time. Every limit is positive and fits in 64 bits. |
| Logging.KeyOf | rest.go:62-68 | Every field name has a key, and that key's `Name()` is the name. |
| Logging.KeyOfName | rest.go:62-68 | Every key is the key of its own name. |
| Logging.NameInjective | rest.go:210-211 | Two keys with the same name are the same key, so adding a field named "status" replaces any field of that name, as the library's string-keyed map does. |
| TracingConfig.UnmarshalText | tracing.go:68-77 | The parse succeeds exactly for "CONSTANT" and "PROBABILISTIC", and it stores the text verbatim. Any other text, "" included, returns "Invalid tracer type" and leaves the receiver unchanged. |
| TracingConfig.DefaultTracerConfig | tracing.go:96-101 | The starting configuration is host "localhost", sampler CONSTANT with value "true", tag environment="undefined", and no backend or port. |
| TracingConfig.TracerConfigOf | tracing.go:95-128 | With no `TRACER_SERVICE` there is no error and every default holds. An empty `TRACER_SERVICE` gives "tracer type is empty". An unknown sampler name is an error. Those are exactly the error cases. The host comes from `TRACER_HOST` only when that is non-empty. The sampler kind and value change only when `TRACER_SAMPLER` is present, and the value becomes "" when `TRACER_SAMPLER_VALUE` is absent. There is exactly one tag, the environment, which is "undefined" unless set. The port, service name and logger are never read from the environment. |
| TracingConfig.GetTracerConfig | tracing.go:95-128 | The step-by-step build of the configuration, with its early returns, returns exactly `TracerConfigOf(env)`. |
| TracingConfig.Clamp | datadog-tracer.go:53 | `max(min(f, 1), 0)` always lies in [0, 1]. It is the identity inside that range and saturates outside it. |
| TracingConfig.LastColon | jaeger-tracer.go:41 | When found, the index is a ':' with no ':' after it. "None" means the string has no ':'. |
| TracingConfig.SplitJoin | jaeger-tracer.go:41 | A "host:port" address whose port has no ':' splits back into exactly that host and port. |
| TracingConfig.LastColonAfter | datadog-tracer.go:26 | Appending colon-free text to a string that ends in ':' keeps that colon as the last one. |
| Datadog.GetSampler | datadog-tracer.go:41-58 | CONSTANT gives rate 1 exactly when the value is "true" and 0 otherwise. PROBABILISTIC gives 0 for an unparsable value and the clamped parse otherwise. An unknown kind gives 0. The rate always lies in [0, 1]. |
| Datadog.AgentAddr | datadog-tracer.go:24-27 | With no port the address is the bare host. Otherwise it is "host:port", which splits back into both. |
| Datadog.SettingsOf | datadog-tracer.go:24-36 | The SDK is started with the configured service name, the composed agent address (the bare host when no port is set), the sampler from `getSampler` with its rate in [0, 1], and the environment tag. |
| Datadog.DatadogTracer.constructor | datadog-tracer.go:61 | A fresh adapter holds a nil tracer. |
| Datadog.DatadogTracer.Init | datadog-tracer.go:23-39 | The adapter's field is set to the SDK tracer started with the service, address, sampler and environment tag. That same tracer is returned, with the adapter itself as closer and no error. |
| Datadog.DatadogTracer.Close | datadog-tracer.go:18-21 | Closing never reports an error. |
| Datadog.InitDatadogTracer | datadog-tracer.go:60-63 | The Datadog backend never fails. It returns the tracer configured from `cfg`, with the adapter as closer. |
| Datadog.SamplerTable | datadog-tracer_test.go:17-26 | The ten-row sampler table holds, including 0.0 for the unknown kind. |
| Jaeger.GetJaegerSampler | jaeger-tracer.go:17-33 | CONSTANT gives a constant sampler whose decision is `val == "true"`. PROBABILISTIC gives a probabilistic sampler at the clamped parse, or 0 when the value does not parse. An unknown kind gives `ConstSampler(true)`. |
| Jaeger.AgentAddr | jaeger-tracer.go:36-41 | The address reads back as the host and the configured port. When no port is configured, the port is 6831. |
| Jaeger.SettingsOf | jaeger-tracer.go:49-75 | The SDK gets the configured service name, the composed agent address, the 5 s flush interval, the sampler from `getJaegerSampler`, and the environment tag. Its logger is the caller's logger with one extra field, tracer="jaeger": every other field keeps its key and value. |
| Jaeger.InitJaegerTracer | jaeger-tracer.go:35-76 | If the transport fails, the result is the no-op tracer, the no-op closer and the transport's own error. Otherwise it is exactly what the SDK's `NewTracer` returns for the composed settings. |
| Jaeger.SamplerTable | jaeger-tracer_test.go:20-29 | The ten-row sampler table holds, including `ConstSampler(true)` for the unknown kind. |
| Tracing.Named | tracing.go:40-41 | The caller's service name and logger are filled in, and no other field of the configuration changes. |
| Tracing.GlobalTracer.constructor | tracing.go:61 | The global tracer that `InitGlobalTracer` replaces starts out as the no-op tracer. |
| Tracing.GlobalTracer.InitGlobalTracer | tracing.go:34-64 | A configuration error returns the no-op closer and that error. "datadog" always installs the Datadog tracer. For "jaeger", a transport or SDK error is returned with the closer and installs nothing; otherwise the SDK tracer is installed. Any other backend installs the no-op tracer with no error. On every error the global tracer is unchanged. |
| Tracing.ConfiguredAgentAddrs | tracing.go:95-128 | No port is ever read from the environment. So the Datadog agent address is the bare host name, and the Jaeger one is that host at port 6831. |
| Tracing.AdaptersAgree | jaeger-tracer.go:32 | For the two accepted sampler kinds, both adapters keep the same fraction of traces. For an unknown kind, Jaeger keeps all traces and Datadog none. |
| Rest.SetDefaultContext | rest.go:114-116 | The context reads `d` under the package key, and every other key reads as before. |
| Rest.GetDefaultContext | rest.go:119-130 | A stored `DefaultContext` is returned. Nothing (nil) under the key gives "no DefaultContext". A value of another type gives "default context key is corrupted". Success happens exactly when a `DefaultContext` is stored. |
| Rest.DefaultContextRoundTrip | rest.go:114-130 | Reading after `setDefaultContext(ctx, d)` gives `d` with no error. |
| Rest.ValueSurvivesLayers | rest.go:120 | A key reads the same after any derived contexts that do not store under that key. |
| Rest.DefaultContextSurvivesLayers | rest.go:119-130 | A published `DefaultContext` is found through any chain of derived contexts that leave its key alone. |
| Rest.SetLogger | rest.go:106 | The logger is stored under the logger key, and other keys are untouched. |
| Rest.FixedFieldsLogger | rest.go:62-68 | A fresh logger with exactly the five fixed fields and their values. |
| Rest.NewRequestLogger | rest.go:62-94 | The logger carries request_id, server_name (the host), progname, user_agent and user_ip with their values. retailer_api_key, api_key, auth_token and organization_id are present exactly when their header is non-empty, and they carry its value. No other field is present. The organization id is the header's value, or "". |
| Rest.RestPackage.constructor | rest.go:26 | The package starts with `NewConfiguration()`. |
| Rest.RestPackage.SetConfiguration | rest.go:29-31 | The installed configuration becomes `conf`. |
| Rest.RestPackage.InitRequest | rest.go:43-111 | Host and headers are unchanged. A body exists afterwards exactly when one existed before, and it is capped at the configured size. The context publishes a `DefaultContext` with the following values. The request id is the `BMG-Request-Id` header when that is non-empty, else the fresh id, and it is never "". The forwarded-for value is the raw `X-Forwarded-For` header. The organization id is the header's value, or "". The published logger carries the fields `NewRequestLogger` states, and its request_id equals the published one. user_ip is the resolved host, or "". The context is bounded by the configured duration, and every other key reads as in the incoming context. |
| Rest.RequestLogger | rest.go:192-217 | Exactly two lines are logged, "Starting" then "Finished". The first carries exactly the context logger's fields plus method and path, with their values. The second line adds only `status` and keeps the other values. That status is the `HTTPError` code when the handler returned one, else the response status. The handler's error is passed on unchanged. |

## Left out

- `Run`, `RunTLS` and `shutdown` (rest.go:133-187) are not modelled: they are signal handling, goroutines and network listening.
- `Recovery` (rest.go:220-238) is not modelled: it relies on panic/recover, stack dumps and request dumps.
- The `RequestTracer` span middleware is not modelled. Span extraction and injection happen inside the OpenTracing SDK.
- `ReadConfiguration` is not modelled (file I/O and YAML parsing), and neither is profiling.go (pprof route registration).
- Rest.RestPackage.InitRequest: the timeout is only recorded as a context layer. The wall-clock cancellation and the deferred `cancel` are not modelled.
- Rest.RestPackage.InitRequest: `http.MaxBytesReader` is recorded as a wrapper around the body with its limit. Its reading behaviour is not modelled, and neither are the deferred `Close` calls.
- Rest.RestPackage.InitRequest: the request is modelled as a value, and a new request is returned. Go replaces `r.Body` on the caller's request in place; that aliasing is not captured.
- Rest.RestPackage.InitRequest: `xff.GetRemoteAddr` and `net.SplitHostPort` are replaced by their outcome, the parameter `remoteHost` (None when splitting fails). The UUID generator is replaced by the parameter `freshId`, which must be non-empty.
- Rest.RequestLogger: the elapsed_time field and the clock are not modelled, and neither is the call to the next handler. Its returned error and the resulting response status are parameters.
- Rest.HeaderGet: headers map each name to a single value. Header-name canonicalisation and multi-valued headers are not modelled.
- Rest.LoggerOf: the logging library is not part of this model. `logging.GetLogger` is taken to return a logger without fields when none is stored. Default fields that `logging.NewLogger` might add are not modelled.
- Logging: log output, log levels and `Errorf` are not modelled. The Jaeger adapter's error log line on a transport failure is not modelled either.
- TracingConfig.Sdk: `strconv.ParseFloat` is an abstract partial function onto real numbers. In Go, "NaN" parses to NaN, and `math.Min`/`math.Max` propagate it, so the [0, 1] bound of Datadog.GetSampler and Jaeger.GetJaegerSampler holds only for real-valued parses. IEEE rounding is not modelled.
- Datadog.DatadogTracer.Init: `ddopentracer.New` is modelled as building a tracer value from its settings; it cannot fail. `dtracer.Stop` in `Close` is not modelled beyond its nil result.
- Jaeger.InitJaegerTracer: the UDP transport, the remote reporter, the metrics factory and the SDK's sampler/reporter configuration are not modelled. The model keeps only the transport's error and the settings handed to `NewTracer`. The SDK's result is an abstract function of those settings.
- Jaeger.InitJaegerTracer: it requires a logger to be present. The model's `InitGlobalTracer` takes a non-nil logger from its caller. Go's `InitGlobalTracer` also accepts a nil one, which panics on the Jaeger path when the adapter calls it (jaeger-tracer.go:43,62).
- noop-tracer.go is folded into the constants `NoopTracer` and `NoopCloser`. The no-op closer's `Close` (always nil) has no member of its own.
- Tracing.GlobalTracer: the OpenTracing global is modelled as one object's field. The process-wide sharing and any concurrent access are not modelled.
- Configuration: `time.Duration` and `int64` are unbounded integers here. `Configuration.Valid` bounds the defaults below 2^63, but wrap-around is not modelled.
- Rest.NewRequestLogger: "no other field is present" is stated key by key rather than as an equality of key sets.
