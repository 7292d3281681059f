/**
 * The health collector: the four probes of one polling cycle (jicofo health,
 * jicofo stats, prosody health, the local status file), each shaped into a
 * `HealthData` record, and their fold into one `HealthReport`.
 * The HTTP requests and the file read are represented by their outcomes.
 */
module HealthCollector {
  import opened JsString
  import opened Json

  /** The uniform outcome record of one probe. */
  datatype HealthData = HealthData(reachable: bool, code: int, contents: string)

  /** What an HTTP probe got back: any response, whatever its status code
      (HTTP errors are not thrown), or an error thrown by the client
      (connection refused, timeout after the retries, DNS failure, ...). */
  datatype HttpOutcome = Response(statusCode: int, body: string) | RequestError

  /** What reading the status file produced: its text, or an error. */
  datatype FileOutcome = FileRead(text: string) | FileError

  /** The outcomes of the four probes of one cycle. */
  datatype Probes = Probes(
    jicofoHealth: HttpOutcome,
    jicofoStats: HttpOutcome,
    prosodyHealth: HttpOutcome,
    statusFile: FileOutcome)

  /** The record a probe yields when it failed. */
  const Unreachable := HealthData(false, 0, "")

  /** The result of reading the stats body: [parsable, participants, conferences]. */
  datatype StatsResult = StatsResult(parsable: bool, participants: JsValue, conferences: JsValue)

  /** What the stats reader returns when the body does not parse. */
  const Unparsable := StatsResult(false, Defined(JNumber(0)), Defined(JNumber(0)))

  datatype Services = Services(
    jicofoReachable: bool,
    jicofoStatusCode: int,
    jicofoStatsReachable: bool,
    jicofoStatsStatusCode: int,
    prosodyReachable: bool,
    prosodyStatusCode: int,
    statusFileFound: bool,
    statusFileContents: string)

  /** The field names keep the source's spelling. */
  datatype Stats = Stats(jicofoPartipants: JsValue, jicofoConferences: JsValue)

  datatype HealthReport = HealthReport(
    healthy: bool,
    status: string,
    services: Services,
    stats: Stats)

  /** The status code every HTTP probe must return for the node to be healthy. */
  const HttpOk := 200

  /** `checkHealthHttp`: any response is reachable and carries its own code
      and body; a thrown error is unreachable with code 0 and no contents. */
  function CheckHealthHttp(outcome: HttpOutcome): (d: HealthData)
    ensures d.reachable <==> outcome.Response?
    ensures outcome.Response? ==> d.code == outcome.statusCode && d.contents == outcome.body
    ensures outcome.RequestError? ==> d == Unreachable
  {
    match outcome
    case Response(code, body) => HealthData(true, code, body)
    case RequestError => Unreachable
  }

  /** `readStatusFile`: a readable file is reachable with code 1 and its
      contents trimmed; a read error is unreachable with code 0 and no contents. */
  function ReadStatusFile(outcome: FileOutcome): (d: HealthData)
    ensures d.reachable <==> outcome.FileRead?
    ensures outcome.FileRead? ==> d.code == 1 && d.contents == Trim(outcome.text)
    ensures outcome.FileRead? ==> IsTrimmed(d.contents) && |d.contents| <= |outcome.text|
    ensures outcome.FileError? ==> d == Unreachable
  {
    match outcome
    case FileRead(text) => HealthData(true, 1, Trim(text))
    case FileError => Unreachable
  }

  /** `readStatsJSON`: the body is parsable when `JSON.parse` returns a value
      whose properties can be read (anything but `null`); the participant count
      is then the value's `partipants` property (spelled so in the source) and
      the conference count its `conferences` property, each possibly
      `undefined`. Otherwise the result is [false, 0, 0]. */
  function ReadStatsJSON(jstats: string, parse: string -> Parsed): (r: StatsResult)
    ensures r.parsable <==> parse(jstats).Value? && !parse(jstats).value.JNull?
    ensures !r.parsable ==> r == Unparsable
    ensures r.parsable ==>
      Property(parse(jstats).value, "partipants") == Read(r.participants) &&
      Property(parse(jstats).value, "conferences") == Read(r.conferences)
  {
    match parse(jstats)
    case SyntaxError => Unparsable
    case Value(parsed) =>
      match Property(parsed, "partipants")
      case TypeError => Unparsable
      case Read(partipants) =>
        match Property(parsed, "conferences")
        case TypeError => Unparsable
        case Read(conferences) => StatsResult(true, partipants, conferences)
  }

  /** A probe answered with status 200. */
  predicate AnsweredOk(d: HealthData) {
    d.reachable && d.code == HttpOk
  }

  /** The report's service fields for probe slot `j` are that probe's own
      fields (0 = jicofo health, 1 = jicofo stats, 2 = prosody, 3 = status file). */
  predicate SlotReported(report: HealthReport, results: seq<HealthData>, j: int)
    requires |results| == 4 && 0 <= j < 4
  {
    var s := report.services;
    match j
    case 0 => s.jicofoReachable == results[0].reachable && s.jicofoStatusCode == results[0].code
    case 1 => s.jicofoStatsReachable == results[1].reachable && s.jicofoStatsStatusCode == results[1].code
    case 2 => s.prosodyReachable == results[2].reachable && s.prosodyStatusCode == results[2].code
    case _ => s.statusFileFound == results[3].reachable && s.statusFileContents == results[3].contents
  }

  /** The fold of the four settled probe results into a report: healthy
      exactly when the three HTTP probes answered 200, the status file was
      found and the stats parsed (the status file's contents play no part);
      the status is the file's contents unless the participant count exceeds
      `participantMax`, which forces "drain"; every service field is copied
      from its own slot and the stats are the parsed values. */
  function ReportFrom(results: seq<HealthData>, parse: string -> Parsed, participantMax: int): (report: HealthReport)
    requires |results| == 4
    ensures report.healthy <==>
      (forall j :: 0 <= j < 3 ==> AnsweredOk(results[j])) &&
      results[3].reachable && ReadStatsJSON(results[1].contents, parse).parsable
    ensures report.status ==
      if GreaterThan(ReadStatsJSON(results[1].contents, parse).participants, participantMax)
      then "drain" else results[3].contents
    ensures forall j :: 0 <= j < 4 ==> SlotReported(report, results, j)
    ensures var st := ReadStatsJSON(results[1].contents, parse);
      report.stats == Stats(st.participants, st.conferences)
  {
    var jStats := ReadStatsJSON(results[1].contents, parse);
    var healthy := results[0].reachable && results[0].code == HttpOk &&
                   results[1].reachable && results[1].code == HttpOk &&
                   results[2].reachable && results[2].code == HttpOk &&
                   results[3].reachable && jStats.parsable;
    var status := if GreaterThan(jStats.participants, participantMax) then "drain" else results[3].contents;
    assert AnsweredOk(results[0]) && AnsweredOk(results[1]) && AnsweredOk(results[2]) ==>
      forall j :: 0 <= j < 3 ==> AnsweredOk(results[j]);
    HealthReport(
      healthy,
      status,
      Services(results[0].reachable, results[0].code,
               results[1].reachable, results[1].code,
               results[2].reachable, results[2].code,
               results[3].reachable, results[3].contents),
      Stats(jStats.participants, jStats.conferences))
  }

  /** The shaped results of the four probes, in the order they are issued. */
  function Results(p: Probes): (results: seq<HealthData>)
    ensures |results| == 4
  {
    [CheckHealthHttp(p.jicofoHealth), CheckHealthHttp(p.jicofoStats),
     CheckHealthHttp(p.prosodyHealth), ReadStatusFile(p.statusFile)]
  }

  /** The body the stats probe delivered ('' when it failed). */
  function StatsBody(p: Probes): string {
    if p.jicofoStats.Response? then p.jicofoStats.body else ""
  }

  /** An HTTP probe got a response with status 200. */
  predicate RespondedOk(o: HttpOutcome) {
    o.Response? && o.statusCode == HttpOk
  }

  /** The report of a cycle, stated directly in terms of the four raw probe
      outcomes: a failed probe shows as unreachable with code 0. */
  lemma ReportOfOutcomes(p: Probes, parse: string -> Parsed, participantMax: int)
    ensures var r := ReportFrom(Results(p), parse, participantMax);
      var st := ReadStatsJSON(StatsBody(p), parse);
      && (r.healthy <==>
           RespondedOk(p.jicofoHealth) && RespondedOk(p.jicofoStats) && RespondedOk(p.prosodyHealth) &&
           p.statusFile.FileRead? && st.parsable)
      && r.status == (if GreaterThan(st.participants, participantMax) then "drain"
                      else if p.statusFile.FileRead? then Trim(p.statusFile.text) else "")
      && r.services.jicofoReachable == p.jicofoHealth.Response?
      && r.services.jicofoStatusCode == (if p.jicofoHealth.Response? then p.jicofoHealth.statusCode else 0)
      && r.services.jicofoStatsReachable == p.jicofoStats.Response?
      && r.services.jicofoStatsStatusCode == (if p.jicofoStats.Response? then p.jicofoStats.statusCode else 0)
      && r.services.prosodyReachable == p.prosodyHealth.Response?
      && r.services.prosodyStatusCode == (if p.prosodyHealth.Response? then p.prosodyHealth.statusCode else 0)
      && r.services.statusFileFound == p.statusFile.FileRead?
      && r.services.statusFileContents == (if p.statusFile.FileRead? then Trim(p.statusFile.text) else "")
      && r.stats == Stats(st.participants, st.conferences)
  {
    var results := Results(p);
    assert results[1].contents == StatsBody(p);
    assert AnsweredOk(results[0]) == RespondedOk(p.jicofoHealth);
    assert AnsweredOk(results[1]) == RespondedOk(p.jicofoStats);
    assert AnsweredOk(results[2]) == RespondedOk(p.prosodyHealth);
    assert SlotReported(ReportFrom(results, parse, participantMax), results, 0);
    assert SlotReported(ReportFrom(results, parse, participantMax), results, 1);
    assert SlotReported(ReportFrom(results, parse, participantMax), results, 2);
    assert SlotReported(ReportFrom(results, parse, participantMax), results, 3);
  }

  /** `updateHealthReport`: shapes the four probe outcomes and folds them into
      the cycle's report; its health and status, stated directly in terms of
      the outcomes (the service fields are stated in `ReportOfOutcomes`). */
  method UpdateHealthReport(p: Probes, parse: string -> Parsed, participantMax: int)
    returns (report: HealthReport)
    ensures report == ReportFrom(Results(p), parse, participantMax)
    ensures report.healthy <==>
      RespondedOk(p.jicofoHealth) && RespondedOk(p.jicofoStats) && RespondedOk(p.prosodyHealth) &&
      p.statusFile.FileRead? && ReadStatsJSON(StatsBody(p), parse).parsable
    ensures report.status ==
      if GreaterThan(ReadStatsJSON(StatsBody(p), parse).participants, participantMax) then "drain"
      else if p.statusFile.FileRead? then Trim(p.statusFile.text) else ""
  {
    var ccalls: seq<HealthData> := [];
    ccalls := ccalls + [CheckHealthHttp(p.jicofoHealth)];
    ccalls := ccalls + [CheckHealthHttp(p.jicofoStats)];
    ccalls := ccalls + [CheckHealthHttp(p.prosodyHealth)];
    ccalls := ccalls + [ReadStatusFile(p.statusFile)];
    assert ccalls == Results(p);

    var results := ccalls;
    var jhr := results[0].reachable;
    var jhc := results[0].code;
    var jsr := results[1].reachable;
    var jsc := results[1].code;
    var jsx := results[1].contents;
    var phr := results[2].reachable;
    var phc := results[2].code;
    var sfr := results[3].reachable;
    var sfx := results[3].contents;

    var jStats := ReadStatsJSON(jsx, parse);

    var overallhealth := false;
    if jhr && jhc == HttpOk && jsr && jsc == HttpOk && phr && phc == HttpOk && sfr && jStats.parsable {
      overallhealth := true;
    }

    var overallstatus := sfx;
    if GreaterThan(jStats.participants, participantMax) {
      overallstatus := "drain";
    }

    report := HealthReport(
      overallhealth,
      overallstatus,
      Services(jhr, jhc, jsr, jsc, phr, phc, sfr, sfx),
      Stats(jStats.participants, jStats.conferences));
    assert overallhealth == ReportFrom(results, parse, participantMax).healthy;
    assert report == ReportFrom(results, parse, participantMax);
    ReportOfOutcomes(p, parse, participantMax);
  }

  /** The status file's contents never decide health: two cycles that differ
      only in what the status file says are equally healthy. */
  lemma HealthIgnoresStatusContents(results: seq<HealthData>, other: string,
                                     parse: string -> Parsed, participantMax: int)
    requires |results| == 4
    ensures var changed := results[3 := results[3].(contents := other)];
      ReportFrom(changed, parse, participantMax).healthy == ReportFrom(results, parse, participantMax).healthy
  {
    var changed := results[3 := results[3].(contents := other)];
    assert forall j :: 0 <= j < 3 ==> changed[j] == results[j];
  }

  /** A single failed probe, whichever it is, makes the report unhealthy and
      leaves every other probe's fields in the report as that probe reported them. */
  lemma OneProbeDown(results: seq<HealthData>, i: int, parse: string -> Parsed, participantMax: int)
    requires |results| == 4 && 0 <= i < 4
    requires results[i] == Unreachable
    ensures !ReportFrom(results, parse, participantMax).healthy
    ensures forall j :: 0 <= j < 4 && j != i ==> SlotReported(ReportFrom(results, parse, participantMax), results, j)
  {
    if i < 3 {
      assert !AnsweredOk(results[i]);
    }
  }

  /** When the stats probe fails its empty body does not parse (`JSON.parse('')`
      throws), so the stats are 0/0, the status is the status file's and the
      report is unhealthy. */
  lemma StatsProbeDown(p: Probes, parse: string -> Parsed, participantMax: int)
    requires p.jicofoStats.RequestError?
    requires parse("").SyntaxError?
    requires participantMax >= 0
    ensures var report := ReportFrom(Results(p), parse, participantMax);
      && !report.healthy
      && report.stats == Stats(Defined(JNumber(0)), Defined(JNumber(0)))
      && report.status == Results(p)[3].contents
  {
  }

  /** The participant cap reads the key `partipants`: a stats document that
      spells the key `participants` (and has no `partipants`) yields an
      undefined participant count, which never exceeds the cap, so the status is
      the status file's whatever the count is. */
  lemma CapReadsMisspelledKey(results: seq<HealthData>, members: map<string, Json>,
                              parse: string -> Parsed, participantMax: int)
    requires |results| == 4
    requires parse(results[1].contents) == Value(JObject(members))
    requires "partipants" !in members
    ensures var report := ReportFrom(results, parse, participantMax);
      report.stats.jicofoPartipants == Undefined && report.status == results[3].contents
  {
  }

  /** A status file that says "unhealthy" does not by itself make the report
      unhealthy. */
  lemma UnhealthyFileCanBeHealthy(parse: string -> Parsed)
    requires parse("{}") == Value(JObject(map[]))
    ensures var results := [HealthData(true, 200, ""), HealthData(true, 200, "{}"),
                            HealthData(true, 200, ""), HealthData(true, 1, "unhealthy")];
      var report := ReportFrom(results, parse, 5000);
      report.healthy && report.status == "unhealthy"
  {
    var results := [HealthData(true, 200, ""), HealthData(true, 200, "{}"),
                    HealthData(true, 200, ""), HealthData(true, 1, "unhealthy")];
    assert forall j :: 0 <= j < 3 ==> AnsweredOk(results[j]);
  }
}
