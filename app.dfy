/**
 * The sidecar process: the module-level state that the two polling loops
 * update (the hourly poll counter, the latest health report and the health it
 * last logged, the latest census report), and the HTTP handlers that read it.
 * One call of a poll method is one run of the loop body; the timers that
 * re-arm the loops are not modelled.
 */
module App {
  import opened Wrappers
  import opened Json
  import opened HealthCollector

  /** The length of the poll-counting window, in seconds. */
  const PollCheckDurationSeconds := 3600

  /** The body Express sends with `sendStatus(500)`. */
  const InternalServerError := "Internal Server Error"

  /** Seconds between two clock readings taken in milliseconds. */
  function SecondsElapsed(now: int, since: int): real {
    (now - since) as real / 1000.0
  }

  /** The window has run out exactly when more than 3 600 000 ms have passed. */
  lemma WindowInMilliseconds(now: int, since: int)
    ensures SecondsElapsed(now, since) > PollCheckDurationSeconds as real <==> now - since > 3600000
  {
  }

  /** The census collector's report; its contents are passed through. */
  datatype CensusReport = CensusReport(shard: string, rooms: Json)

  /** How awaiting `updateHealthReport` ended: the four probes settled, or it threw. */
  datatype HealthAttempt = Settled(probes: Probes) | Threw

  /** How awaiting `updateCensusReport` ended. */
  datatype CensusAttempt = CensusSettled(report: CensusReport) | CensusThrew

  /** Which state-change line a health poll logs, if any. */
  datatype StateChange = Unchanged | BecameHealthy | BecameUnhealthy

  /** A response body; the JSON bodies stand for the serialised report. */
  datatype Body = Text(text: string) | HealthJson(report: HealthReport) | CensusJson(census: CensusReport)

  datatype HttpResponse = HttpResponse(status: int, body: Body)

  class Sidecar {
    /** `JSON.parse`, the participant cap and whether metrics are collected. */
    const parse: string -> Parsed
    const participantMax: int
    const metricsEnabled: bool
    /** The collectors' initial reports (`None` when there is none). */
    const initHealthReport: Option<HealthReport>
    const initCensusReport: Option<CensusReport>

    var lastPollCheckTime: int
    var currentPollCount: int
    var healthReport: Option<HealthReport>
    var pollHealthy: bool
    var censusReport: Option<CensusReport>
    /** The two health-check counters the `/health` handler increments. */
    var signalHealthChecks: nat
    var signalUnhealthyChecks: nat

    /** The counters never go negative, no more checks are counted unhealthy
        than are counted at all, and nothing is counted with metrics off. */
    ghost predicate Valid()
      reads this
    {
      && currentPollCount >= 0
      && signalUnhealthyChecks <= signalHealthChecks
      && (!metricsEnabled ==> signalHealthChecks == 0)
    }

    /** Start-up: the window starts at `startTime`, no poll has been counted, and
        the last logged health is "healthy" so that a restart logs no change. */
    constructor (startTime: int, parse: string -> Parsed, participantMax: int, metricsEnabled: bool,
                 initHealthReport: Option<HealthReport>, initCensusReport: Option<CensusReport>)
      ensures Valid()
      ensures this.parse == parse && this.participantMax == participantMax
      ensures this.metricsEnabled == metricsEnabled
      ensures this.initHealthReport == initHealthReport && this.initCensusReport == initCensusReport
      ensures lastPollCheckTime == startTime && currentPollCount == 0
      ensures healthReport == initHealthReport && pollHealthy
      ensures censusReport == initCensusReport
      ensures signalHealthChecks == 0 && signalUnhealthyChecks == 0
    {
      this.parse := parse;
      this.participantMax := participantMax;
      this.metricsEnabled := metricsEnabled;
      this.initHealthReport := initHealthReport;
      this.initCensusReport := initCensusReport;
      lastPollCheckTime := startTime;
      currentPollCount := 0;
      healthReport := initHealthReport;
      pollHealthy := true;
      censusReport := initCensusReport;
      signalHealthChecks := 0;
      signalUnhealthyChecks := 0;
    }

    /** `checkPollCounter` at clock reading `now` (ms): once more than an hour
        has passed since the window started, a new window starts now and this
        poll is its first; otherwise the poll is counted in the current window. */
    method CheckPollCounter(now: int)
      requires Valid()
      modifies this`lastPollCheckTime, this`currentPollCount
      ensures Valid() && currentPollCount >= 1
      ensures SecondsElapsed(now, old(lastPollCheckTime)) > PollCheckDurationSeconds as real ==>
        currentPollCount == 1 && lastPollCheckTime == now
      ensures SecondsElapsed(now, old(lastPollCheckTime)) <= PollCheckDurationSeconds as real ==>
        currentPollCount == old(currentPollCount) + 1 && lastPollCheckTime == old(lastPollCheckTime)
    {
      var secondsElapsed := SecondsElapsed(now, lastPollCheckTime);
      if secondsElapsed > PollCheckDurationSeconds as real {
        lastPollCheckTime := now;
        currentPollCount := 0;
      }
      currentPollCount := currentPollCount + 1;
    }

    /** `pollForHealth`: counts the poll, then either stores the new report and
        its health (reporting which change, if any, is logged) or, when the
        collector threw, falls back to the initial report and keeps the health
        last logged. */
    method PollForHealth(now: int, attempt: HealthAttempt) returns (change: StateChange)
      requires Valid()
      modifies this`lastPollCheckTime, this`currentPollCount, this`healthReport, this`pollHealthy
      ensures Valid() && currentPollCount >= 1
      ensures SecondsElapsed(now, old(lastPollCheckTime)) > PollCheckDurationSeconds as real ==>
        currentPollCount == 1 && lastPollCheckTime == now
      ensures SecondsElapsed(now, old(lastPollCheckTime)) <= PollCheckDurationSeconds as real ==>
        currentPollCount == old(currentPollCount) + 1 && lastPollCheckTime == old(lastPollCheckTime)
      ensures attempt.Settled? ==>
        var report := ReportFrom(Results(attempt.probes), parse, participantMax);
        && healthReport == Some(report)
        && pollHealthy == report.healthy
        && (change == Unchanged <==> old(pollHealthy) == report.healthy)
        && (change == BecameHealthy <==> !old(pollHealthy) && report.healthy)
        && (change == BecameUnhealthy <==> old(pollHealthy) && !report.healthy)
      ensures attempt.Threw? ==>
        healthReport == initHealthReport && pollHealthy == old(pollHealthy) && change == Unchanged
    {
      CheckPollCounter(now);
      match attempt {
        case Settled(probes) =>
          var report := UpdateHealthReport(probes, parse, participantMax);
          healthReport := Some(report);
          if !pollHealthy && report.healthy {
            change := BecameHealthy;
          } else if pollHealthy && !report.healthy {
            change := BecameUnhealthy;
          } else {
            change := Unchanged;
          }
          pollHealthy := report.healthy;
        case Threw =>
          healthReport := initHealthReport;
          change := Unchanged;
      }
    }

    /** `pollForCensus`: a new report replaces the old one; when the collector
        threw, the previous report stays. */
    method PollForCensus(attempt: CensusAttempt)
      modifies this`censusReport
      ensures attempt.CensusSettled? ==> censusReport == Some(attempt.report)
      ensures attempt.CensusThrew? ==> censusReport == old(censusReport)
    {
      if attempt.CensusSettled? {
        censusReport := Some(attempt.report);
      }
    }

    /** `healthReportHandler` (`/signal/report`): the report with 200 when it is
        healthy, with 503 when it is not, and a bare 500 when there is none. */
    function HealthReportHandler(): (res: HttpResponse)
      reads this
      ensures healthReport.None? <==> res.status == 500
      ensures healthReport.None? ==> res.body == Text(InternalServerError)
      ensures healthReport.Some? ==> res.body == HealthJson(healthReport.value)
      ensures res.status == 200 <==> healthReport.Some? && healthReport.value.healthy
      ensures res.status == 503 <==> healthReport.Some? && !healthReport.value.healthy
    {
      match healthReport
      case Some(report) => HttpResponse(if !report.healthy then 503 else 200, HealthJson(report))
      case None => HttpResponse(500, Text(InternalServerError))
    }

    /** `signalHealthHandler` (`/about/health`, `/signal/health`): "OK" with 200
        for a healthy report, "NOT_OK" with 503 for an unhealthy one and with
        500 when there is none. With metrics on, every call is counted and every
        call that does not answer 200 is also counted as unhealthy. */
    method SignalHealthHandler() returns (res: HttpResponse)
      requires Valid()
      modifies this`signalHealthChecks, this`signalUnhealthyChecks
      ensures Valid()
      ensures healthReport.Some? && healthReport.value.healthy ==> res == HttpResponse(200, Text("OK"))
      ensures healthReport.Some? && !healthReport.value.healthy ==> res == HttpResponse(503, Text("NOT_OK"))
      ensures healthReport.None? ==> res == HttpResponse(500, Text("NOT_OK"))
      ensures signalHealthChecks == old(signalHealthChecks) + if metricsEnabled then 1 else 0
      ensures signalUnhealthyChecks ==
        old(signalUnhealthyChecks) + if metricsEnabled && res.status != 200 then 1 else 0
    {
      if metricsEnabled {
        signalHealthChecks := signalHealthChecks + 1;
      }
      if healthReport.Some? {
        if !healthReport.value.healthy {
          if metricsEnabled {
            signalUnhealthyChecks := signalUnhealthyChecks + 1;
          }
          res := HttpResponse(503, Text("NOT_OK"));
        } else {
          res := HttpResponse(200, Text("OK"));
        }
      } else {
        if metricsEnabled {
          signalUnhealthyChecks := signalUnhealthyChecks + 1;
        }
        res := HttpResponse(500, Text("NOT_OK"));
      }
    }

    /** `censusReportHandler` (`/signal/census`): the report with 200, or a bare
        500 when there is none. */
    function CensusReportHandler(): (res: HttpResponse)
      reads this
      ensures res.status == 200 <==> censusReport.Some?
      ensures censusReport.Some? ==> res.body == CensusJson(censusReport.value)
      ensures censusReport.None? ==> res == HttpResponse(500, Text(InternalServerError))
    {
      match censusReport
      case Some(census) => HttpResponse(200, CensusJson(census))
      case None => HttpResponse(500, Text(InternalServerError))
    }
  }
}
