/**
 * Configuration: the environment as the validating loader returns it, the
 * exported configuration record built from it field by field, and the one
 * correction applied to that record (the drain-grace interval may not be
 * shorter than the health-dampening interval).
 */
module Config {

  /** The cleaned environment, one field per variable. */
  datatype Env = Env(
    httpPort: int,
    tcpPort: int,
    jicofoOrig: string,
    jicofoDump: string,
    prosodyOrig: string,
    prosodyDump: string,
    statusPath: string,
    pollingInterval: int,
    participantMax: int,
    weightParticipants: bool,
    censusPoll: bool,
    censusHost: string,
    censusReports: bool,
    healthDampeningInterval: int,
    drainGraceInterval: int,
    metrics: bool,
    logLevel: string,
    consulHost: string,
    consulPort: string,
    consulSecure: bool,
    consulStatus: bool,
    consulReports: bool,
    consulStatusKey: string,
    consulReportKey: string,
    consulReportsInterval: int)

  /** The exported configuration record; field names are the ones the rest of
      the program reads. */
  datatype Config = Config(
    HTTPServerPort: int,
    TCPServerPort: int,
    JicofoOrig: string,
    JicofoDump: string,
    ProsodyOrig: string,
    ProsodyDump: string,
    StatusPath: string,
    PollingInterval: int,
    ParticipantMax: int,
    CensusPoll: bool,
    CensusHost: string,
    CensusReports: bool,
    WeightParticipants: bool,
    HealthDampeningInterval: int,
    DrainGraceInterval: int,
    Metrics: bool,
    LogLevel: string,
    ConsulHost: string,
    ConsulPort: string,
    ConsulSecure: bool,
    ConsulStatus: bool,
    ConsulReports: bool,
    ConsulReportsInterval: int,
    ConsulStatusKey: string,
    ConsulReportKey: string)

  /** The value every variable takes when the environment does not set it. */
  function Defaults(): Env {
    Env(
      httpPort := 6000,
      tcpPort := 6060,
      jicofoOrig := "http://localhost:8888",
      jicofoDump := "",
      prosodyOrig := "http://localhost:5280",
      prosodyDump := "",
      statusPath := "/etc/jitsi/shard-status",
      pollingInterval := 5,
      participantMax := 5000,
      weightParticipants := false,
      censusPoll := false,
      censusHost := "host.example.com",
      censusReports := false,
      healthDampeningInterval := 30,
      drainGraceInterval := 120,
      metrics := true,
      logLevel := "info",
      consulHost := "localhost",
      consulPort := "8500",
      consulSecure := false,
      consulStatus := false,
      consulReports := false,
      consulStatusKey := "shard-state",
      consulReportKey := "shard-report",
      consulReportsInterval := 60)
  }

  /** The field mapping from environment to configuration record. */
  function FromEnv(env: Env): Config {
    Config(
      HTTPServerPort := env.httpPort,
      TCPServerPort := env.tcpPort,
      JicofoOrig := env.jicofoOrig,
      JicofoDump := env.jicofoDump,
      ProsodyOrig := env.prosodyOrig,
      ProsodyDump := env.prosodyDump,
      StatusPath := env.statusPath,
      PollingInterval := env.pollingInterval,
      ParticipantMax := env.participantMax,
      CensusPoll := env.censusPoll,
      CensusHost := env.censusHost,
      CensusReports := env.censusReports,
      WeightParticipants := env.weightParticipants,
      HealthDampeningInterval := env.healthDampeningInterval,
      DrainGraceInterval := env.drainGraceInterval,
      Metrics := env.metrics,
      LogLevel := env.logLevel,
      ConsulHost := env.consulHost,
      ConsulPort := env.consulPort,
      ConsulSecure := env.consulSecure,
      ConsulStatus := env.consulStatus,
      ConsulReports := env.consulReports,
      ConsulReportsInterval := env.consulReportsInterval,
      ConsulStatusKey := env.consulStatusKey,
      ConsulReportKey := env.consulReportKey)
  }

  /** The drain-grace interval is at least the health-dampening interval. */
  predicate GraceCoversDampening(c: Config) {
    c.DrainGraceInterval >= c.HealthDampeningInterval
  }

  /** The correction: a drain-grace interval strictly shorter than the
      dampening interval becomes dampening + 1; any other record, including
      one where the two are equal, is left as it is. Only the drain-grace
      interval can change. */
  function Normalize(c: Config): (n: Config)
    ensures GraceCoversDampening(n)
    ensures c.DrainGraceInterval < c.HealthDampeningInterval ==>
      n.DrainGraceInterval == c.HealthDampeningInterval + 1 &&
      n.DrainGraceInterval > n.HealthDampeningInterval
    ensures GraceCoversDampening(c) ==> n == c
    ensures n == c.(DrainGraceInterval := n.DrainGraceInterval)
  {
    if c.DrainGraceInterval < c.HealthDampeningInterval
    then c.(DrainGraceInterval := c.HealthDampeningInterval + 1)
    else c
  }

  /** Normalizing twice is normalizing once. */
  lemma NormalizeIdempotent(c: Config)
    ensures Normalize(Normalize(c)) == Normalize(c)
  {
  }

  /** The built-in defaults (dampening 30 s, grace 120 s) need no correction. */
  lemma DefaultsAreNormal()
    ensures Normalize(FromEnv(Defaults())) == FromEnv(Defaults())
    ensures FromEnv(Defaults()).DrainGraceInterval == 120
    ensures FromEnv(Defaults()).HealthDampeningInterval == 30
  {
  }

  /** Building the exported record: the field mapping, then the in-place
      correction of `DrainGraceInterval` (the warning it prints is not modelled). */
  method Load(env: Env) returns (out: Config)
    ensures out == Normalize(FromEnv(env))
    ensures out.DrainGraceInterval ==
      if env.drainGraceInterval < env.healthDampeningInterval
      then env.healthDampeningInterval + 1 else env.drainGraceInterval
    ensures out.(DrainGraceInterval := env.drainGraceInterval) == FromEnv(env)
    ensures GraceCoversDampening(out)
  {
    out := FromEnv(env);
    if out.DrainGraceInterval < out.HealthDampeningInterval {
      out := out.(DrainGraceInterval := out.HealthDampeningInterval + 1);
    }
  }
}
