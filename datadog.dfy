/** The Datadog backend adapter (datadog-tracer.go). */
module Datadog {
  import opened Wrappers
  import opened TracingConfig

  /** `datadogTracer.getSampler`: the rate sampler for a sampler kind and its
      raw value. A constant sampler keeps everything only for the literal
      "true"; a probabilistic one keeps the parsed rate clamped to [0, 1], or
      nothing when the value does not parse; an unknown kind keeps nothing. */
  function GetSampler(s: TracerSampler, val: string, parseFloat: string -> Option<real>): (r: RateSampler)
    ensures 0.0 <= r.rate <= 1.0
    ensures s == ConstantSampler ==> (r.rate == 1.0 <==> val == "true") && (r.rate == 0.0 <==> val != "true")
    ensures s == ProbabilisticSampler && parseFloat(val).None? ==> r.rate == 0.0
    ensures s == ProbabilisticSampler && parseFloat(val).Some? ==> r.rate == Clamp(parseFloat(val).value)
    ensures !IsSamplerName(s) ==> r.rate == 0.0
  {
    if s == ConstantSampler then
      if val == "true" then RateSampler(1.0) else RateSampler(0.0)
    else if s == ProbabilisticSampler then
      var f := match parseFloat(val) case Some(x) => x case None => 0.0;
      RateSampler(Clamp(f))
    else
      RateSampler(0.0)
  }

  /** The agent address: the host alone when no port is configured, else "host:port". */
  function AgentAddr(cfg: TracerConfig): (addr: string)
    ensures cfg.hostPort == "" ==> addr == cfg.hostName
    ensures cfg.hostPort != "" && NoColon(cfg.hostPort) ==> SplitAtLastColon(addr) == Some((cfg.hostName, cfg.hostPort))
  {
    if cfg.hostPort == "" then cfg.hostName
    else if NoColon(cfg.hostPort) then
      SplitJoin(cfg.hostName, cfg.hostPort);
      JoinHostPort(cfg.hostName, cfg.hostPort)
    else
      JoinHostPort(cfg.hostName, cfg.hostPort)
  }

  /** What `Init` starts the Datadog SDK with: the configured service, the
      agent address, the rate sampler and the environment tag. */
  function SettingsOf(cfg: TracerConfig, parseFloat: string -> Option<real>): (ds: DatadogSettings)
    ensures ds.serviceName == cfg.serviceName
    ensures ds.agentAddr == AgentAddr(cfg)
    ensures cfg.hostPort == "" ==> ds.agentAddr == cfg.hostName
    ensures ds.sampler == GetSampler(cfg.sampler, cfg.samplerValue, parseFloat)
    ensures 0.0 <= ds.sampler.rate <= 1.0
    ensures ds.environment == TagOf(cfg.tags, EnvironmentKey)
  {
    DatadogSettings(
      serviceName := cfg.serviceName,
      agentAddr := AgentAddr(cfg),
      sampler := GetSampler(cfg.sampler, cfg.samplerValue, parseFloat),
      environment := TagOf(cfg.tags, EnvironmentKey))
  }

  /** Go's `datadogTracer`: the adapter object keeps the tracer it started and
      is itself the closer it hands out. */
  class DatadogTracer {
    var tracer: Tracer

    /** `datadogTracer{}`: the tracer field starts nil. */
    constructor()
      ensures tracer == NilTracer
    {
      tracer := NilTracer;
    }

    /** `Init`: composes the agent address, picks the sampler, starts the SDK
        tracer (which cannot fail), stores it and returns it with this object
        as the closer and no error. */
    method Init(cfg: TracerConfig, parseFloat: string -> Option<real>) returns (r: AdapterResult)
      modifies this
      ensures tracer == DatadogHandle(SettingsOf(cfg, parseFloat))
      ensures r == AdapterResult(tracer, AdapterCloser(this), None)
    {
      var host := cfg.hostName;
      if cfg.hostPort != "" {
        host := JoinHostPort(host, cfg.hostPort);
      }

      var sampler := GetSampler(cfg.sampler, cfg.samplerValue, parseFloat);

      tracer := DatadogHandle(DatadogSettings(cfg.serviceName, host, sampler, TagOf(cfg.tags, EnvironmentKey)));

      return AdapterResult(tracer, AdapterCloser(this), None);
    }

    /** `Close` stops the SDK's global tracer and never reports an error, so a
        second call is as harmless as the first. */
    method Close() returns (err: Option<string>)
      ensures err == None
    {
      err := None;
    }
  }

  /** `initDatadogTracer`: a fresh adapter object, initialised. */
  method InitDatadogTracer(cfg: TracerConfig, parseFloat: string -> Option<real>) returns (r: AdapterResult)
    ensures r.err.None?
    ensures r.tracer == DatadogHandle(SettingsOf(cfg, parseFloat))
    ensures r.closer.AdapterCloser?
  {
    var t := new DatadogTracer();
    r := t.Init(cfg, parseFloat);
  }

  /** The sampler table of the adapter's tests, for a parser that rejects "" and
      "invalid" and reads the three decimal literals. */
  lemma SamplerTable(parseFloat: string -> Option<real>)
    requires parseFloat("") == None && parseFloat("invalid") == None
    requires parseFloat("0.0") == Some(0.0) && parseFloat("0.5") == Some(0.5) && parseFloat("-0.5") == Some(-0.5)
    ensures GetSampler("", "", parseFloat) == RateSampler(0.0)
    ensures GetSampler(ConstantSampler, "", parseFloat) == RateSampler(0.0)
    ensures GetSampler(ConstantSampler, "invalid", parseFloat) == RateSampler(0.0)
    ensures GetSampler(ConstantSampler, "false", parseFloat) == RateSampler(0.0)
    ensures GetSampler(ConstantSampler, "true", parseFloat) == RateSampler(1.0)
    ensures GetSampler(ProbabilisticSampler, "", parseFloat) == RateSampler(0.0)
    ensures GetSampler(ProbabilisticSampler, "invalid", parseFloat) == RateSampler(0.0)
    ensures GetSampler(ProbabilisticSampler, "0.0", parseFloat) == RateSampler(0.0)
    ensures GetSampler(ProbabilisticSampler, "0.5", parseFloat) == RateSampler(0.5)
    ensures GetSampler(ProbabilisticSampler, "-0.5", parseFloat) == RateSampler(0.0)
  {
  }
}
