/** The Jaeger backend adapter (jaeger-tracer.go). */
module Jaeger {
  import opened Wrappers
  import opened Logging
  import opened TracingConfig

  /** The agent port used when none is configured. */
  const DefaultPort := "6831"

  /** The largest UDP packet the reporter's transport sends, `1<<16`. */
  const MaxPacketSize: int := 65536

  /** The reporter's flush interval, five seconds in nanoseconds. */
  const BufferFlushInterval: int := 5_000_000_000

  /** `getJaegerSampler`: a constant sampler that samples exactly when the value
      is the literal "true"; a probabilistic sampler at the parsed rate clamped
      to [0, 1], or 0 when the value does not parse; and, unlike the Datadog
      adapter, a sampler that keeps everything for an unknown kind. */
  function GetJaegerSampler(s: TracerSampler, val: string, parseFloat: string -> Option<real>): (r: JaegerSampler)
    ensures s == ConstantSampler ==> r.JaegerConst? && (r.decision <==> val == "true")
    ensures s == ProbabilisticSampler ==> r.JaegerProbabilistic? && 0.0 <= r.samplingRate <= 1.0
    ensures s == ProbabilisticSampler && parseFloat(val).None? ==> r == JaegerProbabilistic(0.0)
    ensures s == ProbabilisticSampler && parseFloat(val).Some? ==> r == JaegerProbabilistic(Clamp(parseFloat(val).value))
    ensures !IsSamplerName(s) ==> r == JaegerConst(true)
  {
    if s == ConstantSampler then
      JaegerConst(val == "true")
    else if s == ProbabilisticSampler then
      var f := match parseFloat(val) case Some(x) => x case None => 0.0;
      JaegerProbabilistic(Clamp(f))
    else
      JaegerConst(true)
  }

  /** The address handed to the UDP transport: "host:port", the port
      defaulting to 6831; it reads back as that host and port. */
  function AgentAddr(cfg: TracerConfig): (addr: string)
    ensures NoColon(cfg.hostPort) ==>
              SplitAtLastColon(addr) == Some((cfg.hostName, if cfg.hostPort == "" then DefaultPort else cfg.hostPort))
  {
    var port := if cfg.hostPort == "" then DefaultPort else cfg.hostPort;
    if NoColon(port) then
      SplitJoin(cfg.hostName, port);
      JoinHostPort(cfg.hostName, port)
    else
      JoinHostPort(cfg.hostName, port)
  }

  /** What the Jaeger SDK is started with: the configured service, the agent
      address, the sampler, the environment tag, and the caller's logger
      tagged with `tracer: jaeger`. */
  function SettingsOf(cfg: TracerConfig, parseFloat: string -> Option<real>): (js: JaegerSettings)
    requires cfg.logger.Some?
    ensures js.logger.fields.Keys == cfg.logger.value.fields.Keys + {TracerField}
    ensures js.logger.fields[TracerField] == Text("jaeger")
    ensures forall k :: k in cfg.logger.value.fields && k != TracerField ==> js.logger.fields[k] == cfg.logger.value.fields[k]
    ensures js.serviceName == cfg.serviceName
    ensures js.agentAddr == AgentAddr(cfg)
    ensures js.bufferFlushInterval == BufferFlushInterval
    ensures js.environment == TagOf(cfg.tags, EnvironmentKey)
    ensures js.sampler == GetJaegerSampler(cfg.sampler, cfg.samplerValue, parseFloat)
  {
    var logger := cfg.logger.value.AddFields(map[TracerField := Text("jaeger")]);
    assert logger.fields == cfg.logger.value.fields[TracerField := Text("jaeger")];
    JaegerSettings(
      serviceName := cfg.serviceName,
      agentAddr := AgentAddr(cfg),
      sampler := GetJaegerSampler(cfg.sampler, cfg.samplerValue, parseFloat),
      environment := TagOf(cfg.tags, EnvironmentKey),
      logger := logger,
      bufferFlushInterval := BufferFlushInterval)
  }

  /** `initJaegerTracer`: fills in the default port, opens the UDP transport and,
      if that fails, returns the no-op tracer, the no-op closer and the
      transport's error; otherwise returns whatever the SDK's `NewTracer` returns. */
  method InitJaegerTracer(cfg: TracerConfig, sdk: Sdk) returns (r: AdapterResult)
    requires cfg.logger.Some?  // the source logs through it; a nil logger would crash
    ensures sdk.udpTransport(AgentAddr(cfg), MaxPacketSize).Some? ==>
              r == AdapterResult(NoopTracer, NoopCloser, sdk.udpTransport(AgentAddr(cfg), MaxPacketSize))
    ensures sdk.udpTransport(AgentAddr(cfg), MaxPacketSize).None? ==>
              r == sdk.newJaegerTracer(SettingsOf(cfg, sdk.parseFloat))
  {
    var c := cfg;
    if c.hostPort == "" {
      c := c.(hostPort := DefaultPort);
    }

    var transportErr := sdk.udpTransport(JoinHostPort(c.hostName, c.hostPort), MaxPacketSize);
    if transportErr.Some? {
      return AdapterResult(NoopTracer, NoopCloser, transportErr);
    }

    var logger := c.logger.value.AddFields(map[TracerField := Text("jaeger")]);
    var sampler := GetJaegerSampler(c.sampler, c.samplerValue, sdk.parseFloat);

    r := sdk.newJaegerTracer(JaegerSettings(c.serviceName, JoinHostPort(c.hostName, c.hostPort), sampler,
                                            TagOf(c.tags, EnvironmentKey), logger, BufferFlushInterval));
  }

  /** The sampler table of the adapter's tests, for a parser that rejects "" and
      "invalid" and reads the three decimal literals. */
  lemma SamplerTable(parseFloat: string -> Option<real>)
    requires parseFloat("") == None && parseFloat("invalid") == None
    requires parseFloat("0.0") == Some(0.0) && parseFloat("0.5") == Some(0.5) && parseFloat("-0.5") == Some(-0.5)
    ensures GetJaegerSampler("", "", parseFloat) == JaegerConst(true)
    ensures GetJaegerSampler(ConstantSampler, "", parseFloat) == JaegerConst(false)
    ensures GetJaegerSampler(ConstantSampler, "invalid", parseFloat) == JaegerConst(false)
    ensures GetJaegerSampler(ConstantSampler, "false", parseFloat) == JaegerConst(false)
    ensures GetJaegerSampler(ConstantSampler, "true", parseFloat) == JaegerConst(true)
    ensures GetJaegerSampler(ProbabilisticSampler, "", parseFloat) == JaegerProbabilistic(0.0)
    ensures GetJaegerSampler(ProbabilisticSampler, "invalid", parseFloat) == JaegerProbabilistic(0.0)
    ensures GetJaegerSampler(ProbabilisticSampler, "0.0", parseFloat) == JaegerProbabilistic(0.0)
    ensures GetJaegerSampler(ProbabilisticSampler, "0.5", parseFloat) == JaegerProbabilistic(0.5)
    ensures GetJaegerSampler(ProbabilisticSampler, "-0.5", parseFloat) == JaegerProbabilistic(0.0)
  {
  }
}
