/**
 * The request-metrics middleware: on entry it raises the in-flight gauge of
 * the request's method; a `stat` callback registered for both the `finish`
 * and the `close` event of the response records the request once (a duration
 * observation, one count in the total counter labelled by method, status code
 * and uri) and lowers the gauge again. A flag captured by the callback keeps
 * the second event from recording the request twice.
 */
module Metrics {
  import opened Wrappers
  import opened JsString

  /** The labels of the request counter. */
  datatype TotalLabels = TotalLabels(httpMethod: string, code: int, uri: string)

  /** The labels of the duration histogram. */
  datatype DurationLabels = DurationLabels(httpMethod: string, uri: string)

  /** What the middleware reads of a request: its method and original url
      (`None` standing for `undefined`). */
  datatype Request = Request(httpMethod: string, originalUrl: Option<string>)

  /** An event the response emits, with the status code it has at that moment. */
  datatype ResponseEvent = Finish(statusCode: int) | Close(statusCode: int)

  /** The uri label: "unknown" for a missing or empty url, otherwise the url
      with its first ':' (and only that one) removed. */
  function UriLabel(originalUrl: Option<string>): (uri: string)
    ensures originalUrl.None? || originalUrl == Some("") ==> uri == "unknown"
    ensures originalUrl.Some? && originalUrl.value != "" && ':' !in originalUrl.value ==>
      uri == originalUrl.value
    ensures originalUrl.Some? && ':' in originalUrl.value ==>
      var u := originalUrl.value;
      var i := IndexOf(u, ':');
      0 <= i < |u| && u[i] == ':' && ':' !in u[..i] && uri == u[..i] + u[i + 1..]
  {
    if originalUrl.Some? && originalUrl.value != "" then RemoveFirst(originalUrl.value, ':') else "unknown"
  }

  /** The metric instruments the middleware updates. Each labelled instrument
      is a map from label values to its value; a missing entry reads as 0. */
  class Registry {
    var requestsInFlight: map<string, int>
    var requestsTotal: map<TotalLabels, nat>
    var durationObservations: map<DurationLabels, nat>

    function InFlight(httpMethod: string): int
      reads this
    {
      if httpMethod in requestsInFlight then requestsInFlight[httpMethod] else 0
    }

    function Total(labels: TotalLabels): nat
      reads this
    {
      if labels in requestsTotal then requestsTotal[labels] else 0
    }

    function Observations(labels: DurationLabels): nat
      reads this
    {
      if labels in durationObservations then durationObservations[labels] else 0
    }

    constructor ()
      ensures requestsInFlight == map[] && requestsTotal == map[] && durationObservations == map[]
    {
      requestsInFlight := map[];
      requestsTotal := map[];
      durationObservations := map[];
    }
  }

  /** The `stat` callback of one request together with the `statted` flag it
      closes over. `runs` counts how often the recording body has executed. */
  class RequestStat {
    const registry: Registry
    const httpMethod: string
    const originalUrl: Option<string>
    var statted: bool
    ghost var runs: nat

    ghost predicate Valid()
      reads this
    {
      runs == if statted then 1 else 0
    }

    constructor (registry: Registry, httpMethod: string, originalUrl: Option<string>)
      ensures Valid() && !statted
      ensures this.registry == registry && this.httpMethod == httpMethod && this.originalUrl == originalUrl
    {
      this.registry := registry;
      this.httpMethod := httpMethod;
      this.originalUrl := originalUrl;
      statted := false;
      runs := 0;
    }

    /** Records the request the first time it is called, and does nothing on
        every later call. */
    method Stat(statusCode: int)
      requires Valid()
      modifies this, registry
      ensures Valid() && statted && runs <= 1
      ensures old(statted) ==>
        && runs == old(runs)
        && registry.requestsInFlight == old(registry.requestsInFlight)
        && registry.requestsTotal == old(registry.requestsTotal)
        && registry.durationObservations == old(registry.durationObservations)
      ensures !old(statted) ==>
        var uri := UriLabel(originalUrl);
        var total := TotalLabels(httpMethod, statusCode, uri);
        var duration := DurationLabels(httpMethod, uri);
        && registry.requestsInFlight == old(registry.requestsInFlight)[httpMethod := old(registry.InFlight(httpMethod)) - 1]
        && registry.requestsTotal == old(registry.requestsTotal)[total := old(registry.Total(total)) + 1]
        && registry.durationObservations == old(registry.durationObservations)[duration := old(registry.Observations(duration)) + 1]
    {
      if !statted {
        statted := true;
        runs := runs + 1;
        var uri := UriLabel(originalUrl);
        var duration := DurationLabels(httpMethod, uri);
        registry.durationObservations := registry.durationObservations[duration := registry.Observations(duration) + 1];
        var total := TotalLabels(httpMethod, statusCode, uri);
        registry.requestsTotal := registry.requestsTotal[total := registry.Total(total) + 1];
        registry.requestsInFlight := registry.requestsInFlight[httpMethod := registry.InFlight(httpMethod) - 1];
      }
    }
  }

  /** `middleware`: labels the request by its lower-cased method, raises that
      method's in-flight gauge and returns the callback registered for both
      response events. Returning stands for the one call of `next()`. */
  method Middleware(registry: Registry, req: Request) returns (stat: RequestStat)
    modifies registry
    ensures fresh(stat) && stat.Valid() && !stat.statted && stat.registry == registry
    ensures stat.httpMethod == ToLowerCase(req.httpMethod) && stat.originalUrl == req.originalUrl
    ensures var m := ToLowerCase(req.httpMethod);
      registry.requestsInFlight == old(registry.requestsInFlight)[m := old(registry.InFlight(m)) + 1]
    ensures registry.requestsTotal == old(registry.requestsTotal)
    ensures registry.durationObservations == old(registry.durationObservations)
  {
    var httpMethod := ToLowerCase(req.httpMethod);
    registry.requestsInFlight := registry.requestsInFlight[httpMethod := registry.InFlight(httpMethod) + 1];
    stat := new RequestStat(registry, httpMethod, req.originalUrl);
  }

  /** One request's lifetime: the middleware runs, then the response emits
      `events` in order, each calling `stat`. Once any event has fired, the
      in-flight gauge is back where it was, the request is counted exactly
      once, with the status code of the first event, and its duration is
      observed exactly once. */
  method HandleRequest(registry: Registry, req: Request, events: seq<ResponseEvent>)
    returns (stat: RequestStat)
    modifies registry
    ensures fresh(stat) && stat.Valid() && stat.registry == registry
    ensures stat.statted <==> |events| > 0
    ensures stat.runs <= 1
    ensures var m := ToLowerCase(req.httpMethod);
      |events| > 0 ==>
        registry.requestsInFlight == old(registry.requestsInFlight)[m := old(registry.InFlight(m))]
    ensures |events| > 0 ==>
        var total := TotalLabels(ToLowerCase(req.httpMethod), events[0].statusCode, UriLabel(req.originalUrl));
        registry.requestsTotal == old(registry.requestsTotal)[total := old(registry.Total(total)) + 1]
    ensures var m := ToLowerCase(req.httpMethod);
      |events| == 0 ==>
        registry.requestsInFlight == old(registry.requestsInFlight)[m := old(registry.InFlight(m)) + 1] &&
        registry.requestsTotal == old(registry.requestsTotal)
    ensures var d := DurationLabels(ToLowerCase(req.httpMethod), UriLabel(req.originalUrl));
      registry.durationObservations ==
        if |events| > 0 then old(registry.durationObservations)[d := old(registry.Observations(d)) + 1]
        else old(registry.durationObservations)
  {
    var m := ToLowerCase(req.httpMethod);
    stat := Middleware(registry, req);
    ghost var entered := registry.requestsInFlight;
    var i := 0;
    while i < |events|
      invariant 0 <= i <= |events|
      invariant fresh(stat) && stat.Valid() && stat.registry == registry
      invariant stat.httpMethod == m && stat.originalUrl == req.originalUrl
      invariant stat.statted <==> i > 0
      invariant i == 0 ==>
        && registry.requestsInFlight == entered
        && registry.requestsTotal == old(registry.requestsTotal)
        && registry.durationObservations == old(registry.durationObservations)
      invariant i > 0 ==>
        var total := TotalLabels(m, events[0].statusCode, UriLabel(req.originalUrl));
        var duration := DurationLabels(m, UriLabel(req.originalUrl));
        && registry.requestsInFlight == old(registry.requestsInFlight)[m := old(registry.InFlight(m))]
        && registry.requestsTotal == old(registry.requestsTotal)[total := old(registry.Total(total)) + 1]
        && registry.durationObservations ==
          old(registry.durationObservations)[duration := old(registry.Observations(duration)) + 1]
    {
      stat.Stat(events[i].statusCode);
      i := i + 1;
    }
  }
}
