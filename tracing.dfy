/** Process-wide tracer installation (tracing.go `InitGlobalTracer`) and how the
    two backends' samplers compare. */
module Tracing {
  import opened Wrappers
  import opened Logging
  import opened TracingConfig
  import Datadog
  import Jaeger

  /** The configuration handed to the backend: the one read from the
      environment, with the caller's service name and logger filled in. */
  function Named(cfg: TracerConfig, name: string, logger: Logger): (c: TracerConfig)
    ensures c.serviceName == name && c.logger == Some(logger)
    ensures c.(serviceName := cfg.serviceName, logger := cfg.logger) == cfg
  {
    cfg.(logger := Some(logger), serviceName := name)
  }

  /** The OpenTracing package's global tracer, which starts out as the no-op tracer. */
  class GlobalTracer {
    var tracer: Tracer

    constructor()
      ensures tracer == NoopTracer
    {
      tracer := NoopTracer;
    }

    /** `InitGlobalTracer`: reads the configuration, starts the backend it names
        ("datadog", "jaeger", anything else meaning the no-op tracer), and
        installs the started tracer globally only when neither step failed.
        A failure leaves the global tracer as it was and is returned together
        with a closer. */
    method InitGlobalTracer(name: string, logger: Logger, env: Env, sdk: Sdk) returns (closer: Closer, err: Option<string>)
      modifies this
      // a configuration error: nothing is started or installed
      ensures TracerConfigOf(env).err.Some? ==>
                closer == NoopCloser && err == TracerConfigOf(env).err && tracer == old(tracer)
      // Datadog cannot fail and is always installed
      ensures var o := TracerConfigOf(env); var cfg := Named(o.cfg, name, logger);
              o.err.None? && cfg.tracer == "datadog" ==>
                err.None? && closer.AdapterCloser? &&
                tracer == DatadogHandle(Datadog.SettingsOf(cfg, sdk.parseFloat))
      // Jaeger: a transport error or an SDK error leaves the global tracer alone
      ensures var o := TracerConfigOf(env); var cfg := Named(o.cfg, name, logger);
              var transportErr := sdk.udpTransport(Jaeger.AgentAddr(cfg), Jaeger.MaxPacketSize);
              o.err.None? && cfg.tracer == "jaeger" && transportErr.Some? ==>
                closer == NoopCloser && err == transportErr && tracer == old(tracer)
      ensures var o := TracerConfigOf(env); var cfg := Named(o.cfg, name, logger);
              var transportErr := sdk.udpTransport(Jaeger.AgentAddr(cfg), Jaeger.MaxPacketSize);
              var j := sdk.newJaegerTracer(Jaeger.SettingsOf(cfg, sdk.parseFloat));
              o.err.None? && cfg.tracer == "jaeger" && transportErr.None? ==>
                closer == j.closer && err == j.err && tracer == (if j.err.None? then j.tracer else old(tracer))
      // any other backend name, including none at all: the no-op tracer, no error
      ensures var o := TracerConfigOf(env);
              o.err.None? && o.cfg.tracer != "datadog" && o.cfg.tracer != "jaeger" ==>
                err.None? && closer == NoopCloser && tracer == NoopTracer
      // the global tracer only ever changes on success
      ensures err.Some? ==> tracer == old(tracer)
    {
      var cfg, cfgErr := GetTracerConfig(env);
      if cfgErr.Some? {
        return NoopCloser, cfgErr;
      }
      cfg := cfg.(logger := Some(logger));
      cfg := cfg.(serviceName := name);

      var started: AdapterResult;
      if cfg.tracer == "datadog" {
        started := Datadog.InitDatadogTracer(cfg, sdk.parseFloat);
      } else if cfg.tracer == "jaeger" {
        started := Jaeger.InitJaegerTracer(cfg, sdk);
      } else {
        started := AdapterResult(NoopTracer, NoopCloser, None);
      }

      if started.err.Some? {
        return started.closer, started.err;
      }

      tracer := started.tracer;

      return started.closer, None;
    }
  }

  /** The port is never read from the environment, so the Datadog agent is
      reached at the bare host name and the Jaeger agent always at port 6831
      of that host. */
  lemma ConfiguredAgentAddrs(env: Env, name: string, logger: Logger)
    ensures var cfg := Named(TracerConfigOf(env).cfg, name, logger);
            && Datadog.AgentAddr(cfg) == cfg.hostName
            && SplitAtLastColon(Jaeger.AgentAddr(cfg)) == Some((cfg.hostName, Jaeger.DefaultPort))
  {
  }

  /** The fraction of traces a Jaeger sampler keeps. */
  function SamplingRate(s: JaegerSampler): real {
    match s
    case JaegerConst(decision) => if decision then 1.0 else 0.0
    case JaegerProbabilistic(rate) => rate
  }

  /** For the two sampler kinds the configuration accepts, both adapters keep
      the same fraction of traces; they part only on an unknown kind, where
      Jaeger keeps everything and Datadog nothing. */
  lemma AdaptersAgree(s: TracerSampler, val: string, parseFloat: string -> Option<real>)
    ensures IsSamplerName(s) ==>
              SamplingRate(Jaeger.GetJaegerSampler(s, val, parseFloat)) == Datadog.GetSampler(s, val, parseFloat).rate
    ensures !IsSamplerName(s) ==>
              SamplingRate(Jaeger.GetJaegerSampler(s, val, parseFloat)) == 1.0 && Datadog.GetSampler(s, val, parseFloat).rate == 0.0
  {
  }
}
