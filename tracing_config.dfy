/** Tracer configuration read from the process environment (tracing.go), and
    the tracer, closer and sampler values the adapters hand back. */
module TracingConfig {
  import opened Wrappers
  import opened Logging

  /** The process environment: a name is either absent or bound to a string,
      which may be empty. */
  type Env = map<string, string>

  /** `os.LookupEnv`. */
  function LookupEnv(env: Env, name: string): (r: Option<string>)
    ensures r.Some? <==> name in env
    ensures r.Some? ==> r.value == env[name]
  {
    if name in env then Some(env[name]) else None
  }

  const TracerServiceVar := "TRACER_SERVICE"
  const TracerHostVar := "TRACER_HOST"
  const TracerSamplerVar := "TRACER_SAMPLER"
  const TracerSamplerValueVar := "TRACER_SAMPLER_VALUE"
  const TracerEnvironmentVar := "TRACER_ENVIRONMENT"

  /** The tag under which the deployment environment is reported. */
  const EnvironmentKey := "environment"

  const EmptyTracerTypeError := "tracer type is empty"
  const InvalidTracerTypeError := "Invalid tracer type"

  /** Go's `tracerSampler` is a string type: any string can be stored in it,
      only two are accepted from the environment. */
  type TracerSampler = string

  const ConstantSampler: TracerSampler := "CONSTANT"
  const ProbabilisticSampler: TracerSampler := "PROBABILISTIC"

  predicate IsSamplerName(text: string) {
    text == ConstantSampler || text == ProbabilisticSampler
  }

  /** What `(*tracerSampler).UnmarshalText` leaves in its receiver, and the error it returns. */
  datatype Unmarshalled = Unmarshalled(sampler: TracerSampler, err: Option<string>)

  /** `UnmarshalText` on a receiver holding `ts`: exactly the two sampler names
      are accepted and stored verbatim; anything else is an error and the
      receiver keeps its old value. */
  function UnmarshalText(ts: TracerSampler, text: string): (r: Unmarshalled)
    ensures r.err.None? <==> IsSamplerName(text)
    ensures r.err.None? ==> r.sampler == text
    ensures r.err.Some? ==> r.sampler == ts && r.err.value == InvalidTracerTypeError
  {
    if text == ProbabilisticSampler || text == ConstantSampler then
      Unmarshalled(text, None)
    else
      Unmarshalled(ts, Some(InvalidTracerTypeError))
  }

  /** Go's `tracerConfig`; `logger` is None while the Go field is still nil. */
  datatype TracerConfig = TracerConfig(
    serviceName: string,
    tracer: string,
    hostName: string,
    hostPort: string,
    sampler: TracerSampler,
    samplerValue: string,
    logger: Option<Logger>,
    tags: map<string, string>
  )

  /** The configuration `getTracerConfig` starts from. */
  function DefaultTracerConfig(): (cfg: TracerConfig)
    ensures cfg.tracer == "" && cfg.hostName == "localhost" && cfg.hostPort == ""
    ensures cfg.sampler == ConstantSampler && cfg.samplerValue == "true"
    ensures cfg.tags == map[EnvironmentKey := "undefined"]
  {
    TracerConfig(
      serviceName := "",
      tracer := "",
      hostName := "localhost",
      hostPort := "",
      sampler := ConstantSampler,
      samplerValue := "true",
      logger := None,
      tags := map[EnvironmentKey := "undefined"])
  }

  /** Go's map index: the value, or "" for a missing key. */
  function TagOf(tags: map<string, string>, key: string): string {
    if key in tags then tags[key] else ""
  }

  /** A variable that is present and not empty. */
  predicate IsSet(env: Env, name: string) {
    name in env && env[name] != ""
  }

  /** The configuration `getTracerConfig` returns, and its error. */
  datatype ConfigOutcome = ConfigOutcome(cfg: TracerConfig, err: Option<string>)

  /** What `getTracerConfig` returns for an environment, written variable by
      variable: the reference that the step-by-step method is proved against.
      On an error the partly built configuration is returned with it, as in
      the source. */
  function TracerConfigOf(env: Env): (r: ConfigOutcome)
    // no backend named: no error and every default in place
    ensures TracerServiceVar !in env ==> r == ConfigOutcome(DefaultTracerConfig(), None)
    // backend variable present but empty: an error
    ensures TracerServiceVar in env && env[TracerServiceVar] == "" ==> r.err == Some(EmptyTracerTypeError)
    // an unparsable sampler kind is an error
    ensures IsSet(env, TracerServiceVar) && TracerSamplerVar in env && !IsSamplerName(env[TracerSamplerVar])
            ==> r.err == Some(InvalidTracerTypeError)
    // the only ways to fail
    ensures r.err.Some? <==>
              TracerServiceVar in env && (env[TracerServiceVar] == "" ||
                (TracerSamplerVar in env && !IsSamplerName(env[TracerSamplerVar])))
    ensures r.err.None? ==> r.cfg.tracer == TagOf(env, TracerServiceVar)
    // when a backend is named and nothing fails, every other variable is applied:
    // the host is the variable only when it is set and non-empty
    ensures IsSet(env, TracerServiceVar) && r.err.None? ==> (r.cfg.hostName == if IsSet(env, TracerHostVar) then env[TracerHostVar] else "localhost")
    // the sampler kind and value change together, only when the kind variable is present
    ensures IsSet(env, TracerServiceVar) && r.err.None? ==> (r.cfg.sampler == if TracerSamplerVar in env then env[TracerSamplerVar] else ConstantSampler)
    ensures IsSet(env, TracerServiceVar) && r.err.None? ==> IsSamplerName(r.cfg.sampler)
    ensures IsSet(env, TracerServiceVar) && r.err.None? ==> (r.cfg.samplerValue == if TracerSamplerVar in env then TagOf(env, TracerSamplerValueVar) else "true")
    // exactly one tag: the environment, "undefined" unless set
    ensures r.cfg.tags.Keys == {EnvironmentKey}
    ensures IsSet(env, TracerServiceVar) && r.err.None? ==> (r.cfg.tags[EnvironmentKey] == if IsSet(env, TracerEnvironmentVar) then env[TracerEnvironmentVar] else "undefined")
    // never read from the environment
    ensures r.cfg.hostPort == "" && r.cfg.serviceName == "" && r.cfg.logger.None?
  {
    var d := DefaultTracerConfig();
    if TracerServiceVar !in env then ConfigOutcome(d, None)
    else if env[TracerServiceVar] == "" then ConfigOutcome(d, Some(EmptyTracerTypeError))
    else
      var host := if IsSet(env, TracerHostVar) then env[TracerHostVar] else d.hostName;
      var named := d.(tracer := env[TracerServiceVar], hostName := host);
      if TracerSamplerVar in env && !IsSamplerName(env[TracerSamplerVar]) then
        ConfigOutcome(named, Some(InvalidTracerTypeError))
      else
        var sampler := if TracerSamplerVar in env then env[TracerSamplerVar] else d.sampler;
        var value := if TracerSamplerVar in env then TagOf(env, TracerSamplerValueVar) else d.samplerValue;
        var envTag := if IsSet(env, TracerEnvironmentVar) then env[TracerEnvironmentVar] else "undefined";
        ConfigOutcome(named.(sampler := sampler, samplerValue := value, tags := map[EnvironmentKey := envTag]), None)
  }

  /** `getTracerConfig`: starts from the defaults and overwrites the fields of
      `cfg` one variable at a time, returning early on an error. */
  method GetTracerConfig(env: Env) returns (cfg: TracerConfig, err: Option<string>)
    ensures ConfigOutcome(cfg, err) == TracerConfigOf(env)
  {
    cfg := DefaultTracerConfig();

    var service := LookupEnv(env, TracerServiceVar);
    if service.Some? && service.value != "" {
      cfg := cfg.(tracer := service.value);
    } else if service.None? {
      return cfg, None;
    } else {
      return cfg, Some(EmptyTracerTypeError);
    }

    var hostname := LookupEnv(env, TracerHostVar);
    if hostname.Some? && hostname.value != "" {
      cfg := cfg.(hostName := hostname.value);
    }

    var sampler := LookupEnv(env, TracerSamplerVar);
    if sampler.Some? {
      var u := UnmarshalText(cfg.sampler, sampler.value);
      cfg := cfg.(sampler := u.sampler);
      if u.err.Some? {
        return cfg, u.err;
      }
      cfg := cfg.(samplerValue := LookupEnv(env, TracerSamplerValueVar).GetOr(""));
    }

    var environment := LookupEnv(env, TracerEnvironmentVar);
    if environment.Some? && environment.value != "" {
      cfg := cfg.(tags := cfg.tags[EnvironmentKey := environment.value]);
    }

    return cfg, None;
  }

  /** `math.Max(math.Min(f, 1.0), 0.0)` on real numbers. */
  function Clamp(f: real): (r: real)
    ensures 0.0 <= r <= 1.0
    ensures 0.0 <= f <= 1.0 ==> r == f
    ensures f < 0.0 ==> r == 0.0
    ensures f > 1.0 ==> r == 1.0
  {
    var m := if f < 1.0 then f else 1.0;
    if m > 0.0 then m else 0.0
  }

  /** A Datadog rate sampler: the fraction of traces kept. */
  datatype RateSampler = RateSampler(rate: real)

  /** The two Jaeger sampler kinds the adapter builds. */
  datatype JaegerSampler = JaegerConst(decision: bool) | JaegerProbabilistic(samplingRate: real)

  /** What the Datadog SDK is started with. */
  datatype DatadogSettings = DatadogSettings(
    serviceName: string, agentAddr: string, sampler: RateSampler, environment: string)

  /** What the Jaeger SDK is started with. */
  datatype JaegerSettings = JaegerSettings(
    serviceName: string, agentAddr: string, sampler: JaegerSampler, environment: string,
    logger: Logger, bufferFlushInterval: int)

  /** An OpenTracing tracer: nil, the no-op tracer, or one of the two SDK tracers. */
  datatype Tracer = NilTracer | NoopTracer | DatadogHandle(datadog: DatadogSettings) | JaegerHandle(jaeger: JaegerSettings)

  /** An `io.Closer`: nil, the no-op closer, an adapter object acting as its own
      closer, or a closer the Jaeger SDK made. */
  datatype Closer = NilCloser | NoopCloser | AdapterCloser(adapter: object) | SdkCloser(id: nat)

  /** The `(tracer, closer, err)` triple every backend initialiser returns. */
  datatype AdapterResult = AdapterResult(tracer: Tracer, closer: Closer, err: Option<string>)

  /** Calls into code outside this package, as parameters of the model:
      `strconv.ParseFloat` (None on any parse error), `jaeger.NewUDPTransport`
      (an error for an address and packet size, or None) and the Jaeger
      `Configuration.NewTracer`. */
  datatype Sdk = Sdk(
    parseFloat: string -> Option<real>,
    udpTransport: (string, int) -> Option<string>,
    newJaegerTracer: JaegerSettings -> AdapterResult)

  /** A port text that contains no ':'. */
  predicate NoColon(s: string) {
    forall i :: 0 <= i < |s| ==> s[i] != ':'
  }

  /** `fmt.Sprintf("%s:%s", host, port)`. */
  function JoinHostPort(host: string, port: string): string {
    host + ":" + port
  }

  /** The index of the last ':' in `s`, if any. */
  function LastColon(s: string): (r: Option<nat>)
    ensures r.Some? ==> r.value < |s| && s[r.value] == ':'
    ensures r.Some? ==> forall i :: r.value < i < |s| ==> s[i] != ':'
    ensures r.None? ==> forall i :: 0 <= i < |s| ==> s[i] != ':'
  {
    if |s| == 0 then None
    else if s[|s| - 1] == ':' then Some(|s| - 1)
    else LastColon(s[..|s| - 1])
  }

  /** Splits an address at its last ':' into host and port, the way an
      address "host:port" is read back. */
  function SplitAtLastColon(addr: string): Option<(string, string)> {
    match LastColon(addr)
    case None => None
    case Some(i) => Some((addr[..i], addr[i + 1..]))
  }

  /** Joining a host and a port without ':' can be split back into both. */
  lemma {:induction false} SplitJoin(host: string, port: string)
    requires NoColon(port)
    ensures SplitAtLastColon(JoinHostPort(host, port)) == Some((host, port))
  {
    var s := JoinHostPort(host, port);
    LastColonAfter(host + ":", port);
    assert s[..|host|] == host;
    assert s[|host| + 1..] == port;
  }

  /** Appending text without ':' to a string ending in ':' keeps that last colon. */
  lemma {:induction false} LastColonAfter(prefix: string, suffix: string)
    requires |prefix| > 0 && prefix[|prefix| - 1] == ':'
    requires NoColon(suffix)
    ensures LastColon(prefix + suffix) == Some(|prefix| - 1)
  {
    if |suffix| > 0 {
      var s := prefix + suffix;
      assert s[..|s| - 1] == prefix + suffix[..|suffix| - 1];
      LastColonAfter(prefix, suffix[..|suffix| - 1]);
    } else {
      assert prefix + suffix == prefix;
    }
  }
}
