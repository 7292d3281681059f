# signal-sidecar health core, modelled in Dafny

signal-sidecar runs beside a Jitsi signal node. It tells a load balancer
whether the node can take traffic. This project models the decision logic
of its TypeScript sources and proves properties of that logic:

- **Health collection** (`health_collector.dfy`). Each poll runs four
  probes: jicofo health, jicofo stats, prosody health, and the local status
  file. Each probe outcome is shaped into a `HealthData` record
  (`reachable`, `code`, `contents`). The stats body is read for its
  participant and conference counts. The four records are folded into a
  `HealthReport`:
  - `healthy` holds exactly when the three HTTP probes answered 200, the
    status file was found and the stats parsed;
  - `status` is the status file's trimmed contents, or `drain` when the
    participant count exceeds the cap;
  - the per-service fields are copied from their own probe.
- **The process state** (`app.dfy`). The class `Sidecar` holds the
  module-level variables of `src/app.ts`:
  - the hourly poll counter;
  - the latest health report and the health last logged;
  - the latest census report.

  It also holds, as two plain fields, the two health-check counters that
  `src/metrics.ts` declares and the `/health` handler increments.

  Each loop body and each handler is a method or a function of that class.
- **Configuration** (`config.dfy`). The environment is mapped onto the
  exported record. Then the drain-grace interval is corrected in place when
  it is shorter than the health-dampening interval.
- **Request metrics** (`metrics.dfy`). The middleware raises the in-flight
  gauge. Its `stat` callback runs on both `finish` and `close`, but records
  the request exactly once.
- **JavaScript built-ins** (`js_string.dfy`, `json.dfy`). These model
  `trim`, `toLowerCase` and `replace` with a one-character pattern.
  `IndexOf` states the first-occurrence search that `replace` performs.
  They also model JSON values and the property access
  `value[key]`.

Probe outcomes are data, not I/O. An HTTP probe is `Response(code, body)`
or `RequestError`. The file read is `FileRead(text)` or `FileError`.
`JSON.parse` is a function parameter, because the model does not include a
JSON parser. Clock readings are method parameters.

The stats reader looks up the key `partipants`, spelled that way in the
code, and the model keeps that spelling. `CapReadsMisspelledKey` shows the
effect. Suppose a stats document spells the key `participants`. Then the
participant count is `undefined`, and the participant cap never forces
`drain`.

Two facts about the code are worth stating directly:

- The status file's contents, including the value `unhealthy`, play no
  part in `healthy`. `UnhealthyFileCanBeHealthy` shows a healthy report
  whose status is `unhealthy`.
- The configuration describes a health-dampening interval, a drain-grace
  interval and participant weights (src/config.ts:43-66). The core code
  applies none of them to the report, so no dampening, drain grace or
  weight is modelled beyond the configuration correction.

## Model

| member | source | states |
|---|---|---|
| `HealthCollector.CheckHealthHttp` | src/health_collector.ts:60-86 | A response with any status code gives reachable, that code and that body. A thrown error gives `{false, 0, ''}`. |
| `HealthCollector.ReadStatusFile` | src/health_collector.ts:88-106 | A readable file gives reachable, code 1 and the trimmed text, with no surrounding white space. A read error gives `{false, 0, ''}`. |
| `HealthCollector.ReadStatsJSON` | src/health_collector.ts:108-119 | The result is parsable exactly when `JSON.parse` returns something other than `null`. The counts are then its `partipants` and `conferences` properties, possibly `undefined`. Otherwise the result is `[false, 0, 0]`. |
| `HealthCollector.ReportFrom` | src/health_collector.ts:130-171 | `healthy` holds iff probes 0-2 answered 200, the status file was found and the stats parsed. `status` is `drain` when participants exceed the cap, else the file contents. Every service slot is its own probe's. The stats are the parsed counts. |
| `HealthCollector.UpdateHealthReport` | src/health_collector.ts:121-173 | The report is the fold of the four shaped probe results. Stated against the raw outcomes: healthy iff every HTTP probe responded 200, the file was read and the stats body parsed. The status is `drain` over the cap, else the trimmed file text, or '' when the file could not be read. |
| `HealthCollector.ReportOfOutcomes` | src/health_collector.ts:121-168 | Every service field is stated against its raw outcome. A failed HTTP probe shows as unreachable with code 0. An unreadable file shows as not found with contents ''. The stats are those read from the stats body, or from '' when that probe failed. |
| `HealthCollector.HealthIgnoresStatusContents` | src/health_collector.ts:142-145 | Changing only the status file's contents never changes `healthy`. |
| `HealthCollector.OneProbeDown` | src/health_collector.ts:130-164 | When any one probe failed, the report is unhealthy. Every other probe's fields still equal that probe's own result. |
| `HealthCollector.StatsProbeDown` | src/health_collector.ts:132-150 | Given that `JSON.parse('')` throws and the cap is not negative, a failed stats probe gives 0/0 stats, an unhealthy report and the file's status. |
| `HealthCollector.CapReadsMisspelledKey` | src/health_collector.ts:112-114 | A stats object without the key `partipants` gives an undefined participant count. The status is then the status file's. |
| `HealthCollector.UnhealthyFileCanBeHealthy` | src/health_collector.ts:142-150 | A status file that says `unhealthy` still allows a healthy report, whose status is `unhealthy`. |
| `Json.Property` | src/health_collector.ts:112-113 | Reading a property of `null` throws a TypeError, and only of `null`. An object yields its member when it has the key. A defined result only comes from an object that has the key; anything else yields `undefined`. |
| `Json.GreaterThan` | src/health_collector.ts:148 | `v > bound` holds iff `v` converts to a number and that number exceeds the bound. `undefined` converts to NaN and never compares greater; `null` converts to 0, booleans to 0 or 1. For a bound of at least 1, only a number larger than the bound compares greater. |
| `JsString.Trim` | src/health_collector.ts:96 | The trimmed text is no longer than the input. It neither starts nor ends with white space. |
| `JsString.TrimUnique` | src/health_collector.ts:96 | Trim returns exactly the inner slice that is bounded by white space and does not itself start or end with white space. |
| `JsString.TrimIdempotent` | src/health_collector.ts:96 | Trimming twice equals trimming once. |
| `JsString.TrimFixedPoints` | src/health_collector.ts:96 | Trim leaves a string unchanged iff the string has no leading or trailing white space. |
| `JsString.IndexOf` | src/metrics.ts:67 | The search that `replace` performs. Returns -1 iff the character is absent. Otherwise it returns the first index holding the character. |
| `JsString.RemoveFirst` | src/metrics.ts:67 | Only the first occurrence of the character is removed. A string without it is unchanged. |
| `JsString.ToLowerCase` | src/metrics.ts:57 | The length is kept. The result has no upper-case ASCII letter. Every other character is unchanged. |
| `JsString.ToLowerCaseIdempotent` | src/metrics.ts:57 | Lower-casing twice equals lower-casing once. |
| `Metrics.UriLabel` | src/metrics.ts:65-68 | A missing or empty url gives `unknown`. A url without `:` is unchanged. Otherwise only the first `:` is removed. |
| `Metrics.RequestStat.Stat` | src/metrics.ts:60-75 | The first call records one duration observation and one total-counter increment for (method, code, uri), and lowers the in-flight gauge by one. Later calls change nothing. The body runs at most once. |
| `Metrics.Middleware` | src/metrics.ts:55-81 | The method label is the lower-cased method. That method's in-flight gauge rises by one. The other instruments are unchanged. The callback starts un-statted. |
| `Metrics.HandleRequest` | src/metrics.ts:55-81 | After any non-empty sequence of finish/close events, the in-flight gauge is back at its old value. The total counter has risen by exactly one, with the status code of the first event. The duration histogram has exactly one more observation for (method, uri). With no event, the gauge is still raised and neither counter nor histogram changes. |
| `App.WindowInMilliseconds` | src/app.ts:22-23 | The seconds-elapsed test is the same as more than 3 600 000 ms having passed. |
| `App.Sidecar.constructor` | src/app.ts:12-80 | At start the window begins now, no poll is counted, the report is the initial one, the logged health is `true`, and the counters are 0. |
| `App.Sidecar.CheckPollCounter` | src/app.ts:21-32 | Afterwards the count is at least 1. After more than 3600 s the count is exactly 1 and the window restarts now. Otherwise the count rises by exactly 1 and the window start stays. |
| `App.Sidecar.PollForHealth` | src/app.ts:51-67 | The poll is counted. A settled poll stores the new report and sets `pollHealthy` to its health. A state-change line is reported iff the health differs, and says which way. A throwing poll restores the initial report and keeps `pollHealthy`. |
| `App.Sidecar.PollForCensus` | src/app.ts:82-90 | A new census report replaces the old one. A throwing poll leaves it unchanged. |
| `App.Sidecar.HealthReportHandler` | src/app.ts:99-111 | A healthy report gives 200, an unhealthy one 503, both with the report as body. No report gives 500. Each status occurs exactly in its case. |
| `App.Sidecar.SignalHealthHandler` | src/app.ts:113-137 | Healthy gives 200 `OK`. Unhealthy gives 503 `NOT_OK`. Absent gives 500 `NOT_OK`. With metrics on, the total counter rises by one on every call. The unhealthy counter rises by one exactly when the status is not 200. |
| `App.Sidecar.CensusReportHandler` | src/app.ts:139-147 | A report gives 200 with the report. No report gives 500. |
| `Config.Normalize` | src/config.ts:137-140 | Afterwards the drain grace is at least the dampening. A strictly shorter grace becomes dampening + 1. Equal or longer grace is unchanged. No other field changes. |
| `Config.NormalizeIdempotent` | src/config.ts:137-140 | Normalizing twice equals normalizing once. |
| `Config.DefaultsAreNormal` | src/config.ts:59-66 | The defaults (dampening 30, grace 120) need no correction. |
| `Config.Load` | src/config.ts:109-140 | The exported record is the field mapping of the environment. Only `DrainGraceInterval` is corrected, by the rule above. |

## Left out

- HTTP through `got`: timeouts, the retry count, GET versus POST, and `responseType`. A probe is its outcome value.
- `readFileSync` and its UTF-8 decoding. The file is the text it yields.
- `JSON.parse`. It is an abstract parameter; lemmas that need `JSON.parse('')` to throw say so in their requires.
- JavaScript numbers are modelled as integers. Fractional and non-finite values are not modelled.
- `Json.GreaterThan` treats strings, arrays and objects compared with the cap as NaN. JavaScript would convert a numeric string such as `"6000"`, or `[6000]`, to a number. An object with no primitive value, such as `{"toString": 0}`, makes `>` throw in JavaScript, which rejects the health poll so that it falls back to the initial report. The model compares such a value as NaN, so the poll settles with the file's status.
- `HealthCollector.StatsProbeDown` assumes that `JSON.parse('')` throws and that the cap is not negative. With a negative cap, the stats `[false, 0, 0]` exceed it and the status is `drain`.
- `Json.Property` is exact only for keys that no built-in prototype defines. The two keys the stats reader uses are such keys.
- `JsString.ToLowerCase` maps only the ASCII letters. Unicode case mapping is not modelled.
- Strings are sequences of Unicode scalar values. Unpaired UTF-16 surrogates are not modelled.
- `Promise.all` fan-out, `setTimeout` re-arming, and the await points. One poll step is one sequential method call.
- `checkPollCounter` reads the clock twice. The model uses one reading for both.
- `idealPollCount` (a float used only in a log line) and all logging. The state-change log is kept only as the returned `StateChange`.
- Express routing, `app.listen`, the `/health` self-check route, and `JSON.stringify`. Serialised bodies are the values they would serialise.
- prom-client internals and `collectDefaultMetrics`. The value of the duration observation (an `hrtime` float) is not modelled; only the number of observations per label is kept.
- The `next()` call is the middleware's return. That it happens exactly once follows from the method's structure.
- The envalid/dotenv parsing of the environment (src/config.ts:6-107). Its output is the input `Env`, and only its defaults are kept.
- src/census_collector.ts: the census report is an opaque value that the census poll hands over.
- src/consul.ts, a thin client wrapper, is not part of this model.
- `initHealthReport()` is not defined in the collector. The initial reports are constructor parameters.
