/** The server configuration record and its defaults (configuration.go). */
module Configuration {

  /** Go's `time.Duration` counts nanoseconds. */
  const Nanosecond: int := 1
  const Second: int := 1_000_000_000 * Nanosecond

  /** Go's `1 << 20`, one mebibyte. */
  const OneMiB: int := ((1 as bv64) << 20) as int

  datatype Configuration = Configuration(
    applicationName: string,
    maximumRequestDuration: int,  // nanoseconds
    maximumBodySize: int,         // bytes
    logLevel: string,
    shutdownGraceTime: int        // nanoseconds
  )

  /** The shape every configuration in use is meant to have: positive limits
      that fit the source's 64-bit `time.Duration` and `int64` fields. */
  predicate Valid(c: Configuration) {
    && 0 < c.maximumRequestDuration < 0x8000_0000_0000_0000
    && 0 < c.maximumBodySize < 0x8000_0000_0000_0000
    && 0 < c.shutdownGraceTime < 0x8000_0000_0000_0000
  }

  /** The defaults a server runs with until a configuration is installed. */
  function NewConfiguration(): (c: Configuration)
    ensures Valid(c)
    ensures c.applicationName == "test_app"
    ensures c.maximumRequestDuration == 30_000_000_000
    ensures c.maximumBodySize == 1_048_576
    ensures c.logLevel == "info"
    ensures c.shutdownGraceTime == 30_000_000_000
  {
    Configuration(
      applicationName := "test_app",
      maximumRequestDuration := 30 * Second,
      maximumBodySize := OneMiB,
      logLevel := "info",
      shutdownGraceTime := 30 * Second)
  }
}
