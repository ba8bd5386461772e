/** The weather-service client: cache-first requests, the classification of
    transport outcomes into a closed set of errors, argument validation and the
    endpoint and query-parameter builders of the public accessors.

    The HTTP transport is not modelled: each request is given the `Outcome` the
    transport would deliver, and the `requests` counter records how many times
    the transport was asked. The clock is passed in: `now` is the reading taken
    for the cache lookup and `doneAt` the one taken when a response is stored. */
module NwsApi {
  import opened Wrappers
  import opened Strings
  import opened JsonValues
  import opened WeatherModels
  import opened NwsCache

  // ---------------------------------------------------------------------------
  // Errors and transport outcomes
  // ---------------------------------------------------------------------------

  /** `NotFoundError`, `RateLimitError`, `TimeoutError`, `ValidationError`, the
      base `NWSAPIError`, and `Internal` for the Python errors (`AttributeError`,
      `TypeError`) a malformed points response raises in `get_forecast`. */
  datatype ErrorKind = NotFound | RateLimited | Timeout | Validation | Generic | Internal

  datatype ApiError = ApiError(kind: ErrorKind, message: string)

  type Answer = Result<Json, ApiError>

  /** What one GET yields: a response (its status, its decoded body or `None`
      when the body is not valid JSON, and its raw text), a timeout, or any other
      transport failure. */
  datatype Outcome =
    | Response(status: int, body: Option<Json>, text: string)
    | TimedOut
    | Failed(reason: string)

  /** A query-parameter value: the builders store strings, and `limit` an int. */
  datatype ParamValue = PStr(s: string) | PInt(n: int)

  /** A parameter dict in insertion order. */
  type Params = seq<(string, ParamValue)>

  /** The client's settings. `dumps` stands for `json.dumps` (any deterministic
      rendering), `fixed4` for the `:.4f` rendering of a coordinate and `stamp`
      for `strftime("%Y-%m-%dT%H:%M:%SZ")`. */
  datatype Config = Config(
    baseUrl: string,
    cacheExpiry: int,
    timeout: int,
    dumps: Params -> string,
    fixed4: real -> string,
    stamp: DateTime -> string)

  /** The settings used when the environment sets none. */
  const DefaultBaseUrl: string := "https://api.weather.gov"
  const DefaultCacheExpiry: int := 600
  const DefaultTimeout: int := 10

  /** The default settings, with the given renderings. */
  function DefaultConfig(dumps: Params -> string, fixed4: real -> string, stamp: DateTime -> string): (c: Config)
    ensures c.baseUrl == DefaultBaseUrl && c.cacheExpiry == DefaultCacheExpiry && c.timeout == DefaultTimeout
  {
    Config(DefaultBaseUrl, DefaultCacheExpiry, DefaultTimeout, dumps, fixed4, stamp)
  }

  /** An endpoint and its parameters; `None` is the Python default `params=None`. */
  datatype Request = Request(endpoint: string, params: Option<Params>)

  // ---------------------------------------------------------------------------
  // _make_request
  // ---------------------------------------------------------------------------

  /** `f"{base_url}/{endpoint.lstrip('/')}"`. */
  function Url(c: Config, endpoint: string): (u: string)
    ensures |u| > |c.baseUrl| && u[..|c.baseUrl|] == c.baseUrl && u[|c.baseUrl|] == '/'
    ensures var rest := u[|c.baseUrl| + 1..];
            |rest| <= |endpoint| && rest == endpoint[|endpoint| - |rest|..] &&
            (rest == [] || rest[0] != '/') &&
            forall i :: 0 <= i < |endpoint| - |rest| ==> endpoint[i] == '/'
  {
    c.baseUrl + "/" + LStrip(endpoint, '/')
  }

  /** `params or {}`. */
  function ParamsOrEmpty(params: Option<Params>): (p: Params)
    ensures params.None? ==> p == []
  {
    if params.Some? then params.value else []
  }

  /** `f"{url}:{json.dumps(params or {})}"`. */
  function CacheKey(c: Config, req: Request): (k: string)
    ensures var u := Url(c, req.endpoint);
            |k| > |u| && k[..|u|] == u && k[|u|] == ':'
  {
    Url(c, req.endpoint) + ":" + c.dumps(ParamsOrEmpty(req.params))
  }

  /** Leading slashes of an endpoint do not change its URL or its cache key. */
  lemma LeadingSlashIgnored(c: Config, endpoint: string, params: Option<Params>)
    ensures Url(c, "/" + endpoint) == Url(c, endpoint)
    ensures CacheKey(c, Request("/" + endpoint, params)) == CacheKey(c, Request(endpoint, params))
  {
    LStripLeading(endpoint, '/');
  }

  /** No parameters and an empty parameter dict share one cache key. */
  lemma NoParamsIsEmptyParams(c: Config, endpoint: string)
    ensures CacheKey(c, Request(endpoint, None)) == CacheKey(c, Request(endpoint, Some([])))
  {
  }

  /** The response handling of `_make_request` once the transport was asked. */
  function Classify(c: Config, url: string, outcome: Outcome): (r: Answer)
    ensures r.Success? <==> outcome.Response? && outcome.status == 200 && outcome.body.Some?
    ensures r.Success? ==> r.value == outcome.body.value
    ensures (r.Failure? && r.error.kind == NotFound) <==> outcome.Response? && outcome.status == 404
    ensures (r.Failure? && r.error.kind == RateLimited) <==> outcome.Response? && outcome.status == 429
    ensures (r.Failure? && r.error.kind == Timeout) <==> outcome.TimedOut?
    ensures (r.Failure? && r.error.kind == Generic) <==>
              outcome.Failed? ||
              (outcome.Response? && outcome.status !in {200, 404, 429}) ||
              (outcome.Response? && outcome.status == 200 && outcome.body.None?)
    ensures r.Failure? ==> r.error.kind != Validation && r.error.kind != Internal
  {
    match outcome
    case TimedOut =>
      Failure(ApiError(Timeout, "Request to " + url + " timed out after " + IntToString(c.timeout) + " seconds"))
    case Failed(reason) =>
      Failure(ApiError(Generic, "Request failed: " + reason))
    case Response(status, body, text) =>
      if status == 200 then
        match body
        case Some(data) => Success(data)
        case None => Failure(ApiError(Generic, "Invalid JSON response"))
      else if status == 404 then Failure(ApiError(NotFound, "Resource not found: " + url))
      else if status == 429 then Failure(ApiError(RateLimited, "API rate limit exceeded"))
      else Failure(ApiError(Generic, "API request failed with status " + IntToString(status) + ": " + text))
  }

  /** Under the default settings a timeout reports the ten-second limit, and a
      stored response is served for ten minutes. */
  lemma DefaultSettings(dumps: Params -> string, fixed4: real -> string, stamp: DateTime -> string, url: string)
    ensures var c := DefaultConfig(dumps, fixed4, stamp);
            Classify(c, url, TimedOut) == Failure(ApiError(Timeout, "Request to " + url + " timed out after 10 seconds"))
    ensures DefaultConfig(dumps, fixed4, stamp).cacheExpiry as real == 600.0
  {
    assert IntToString(10) == "10";
    var c := DefaultConfig(dumps, fixed4, stamp);
    assert Classify(c, url, TimedOut).error.message == "Request to " + url + " timed out after 10 seconds";
  }

  /** The result of one client operation: its answer, the cache dictionary
      afterwards, and how many transport calls it made. */
  datatype Exchange = Exchange(answer: Answer, entries: Entries, sent: nat)

  /** The cache step of `_make_request` under the key `key`: a truthy live
      entry is the answer; otherwise `answer`, what the transport gives, is the
      answer, and a successful one is stored until `expiry`. */
  function Serve(m: Entries, key: string, now: real, answer: Answer, expiry: real): (x: Exchange)
    ensures x.sent <= 1
  {
    var hit := Lookup(m, key, now);
    var m1 := AfterGet(m, key, now);
    if hit.Some? && Truthy(hit.value) then Exchange(Success(hit.value), m1, 0)
    else Exchange(answer, if answer.Success? then m1[key := Entry(answer.value, expiry)] else m1, 1)
  }

  /** No transport call iff a truthy live entry answers, and then the cache is
      as it was; otherwise the transport's answer is the answer, a failure
      writes nothing beyond `get`'s eviction, and a success is stored. */
  lemma ServeContract(m: Entries, key: string, now: real, answer: Answer, expiry: real)
    ensures var x := Serve(m, key, now, answer, expiry);
            var hit := Lookup(m, key, now);
            (x.sent == 0 <==> hit.Some? && Truthy(hit.value)) &&
            (x.sent == 0 ==> x.answer == Success(hit.value) && x.entries == m) &&
            (x.sent == 1 ==> x.answer == answer) &&
            (x.answer.Failure? ==> x.entries == AfterGet(m, key, now)) &&
            (x.sent == 1 && x.answer.Success? ==> x.entries == AfterGet(m, key, now)[key := Entry(x.answer.value, expiry)])
  {
    var hit := Lookup(m, key, now);
    if hit.Some? && Truthy(hit.value) {
      GetUnchanged(m, key, now);
    }
  }

  /** A truthy live entry answers without the transport. */
  lemma ServeHit(m: Entries, key: string, now: real, answer: Answer, expiry: real, m1: Entries, v: Json)
    requires Lookup(m, key, now) == Some(v) && Truthy(v)
    requires m1 == AfterGet(m, key, now)
    ensures Serve(m, key, now, answer, expiry) == Exchange(Success(v), m1, 0)
  {
  }

  /** Without a truthy live entry the transport is asked once, and only a
      successful answer is stored. */
  lemma ServeMiss(m: Entries, key: string, now: real, answer: Answer, expiry: real, m1: Entries, m2: Entries)
    requires var hit := Lookup(m, key, now); !(hit.Some? && Truthy(hit.value))
    requires m1 == AfterGet(m, key, now)
    requires m2 == if answer.Success? then m1[key := Entry(answer.value, expiry)] else m1
    ensures Serve(m, key, now, answer, expiry) == Exchange(answer, m2, 1)
  {
  }

  /** What `_make_request` does to a cache holding `m`: the cache step under
      the request's key, with the classified transport outcome as the answer
      on a miss, stored until `doneAt` plus the configured expiry. */
  function Fetch(c: Config, m: Entries, req: Request, now: real, doneAt: real, outcome: Outcome): (x: Exchange)
    ensures x.sent <= 1
  {
    Serve(m, CacheKey(c, req), now, Classify(c, Url(c, req.endpoint), outcome), doneAt + c.cacheExpiry as real)
  }

  /** A truthy live entry answers without the transport and leaves the cache
      as it was; otherwise the transport is asked once, its outcome decides the
      answer, and only a successful answer is stored, until `doneAt` plus the
      configured expiry. */
  lemma FetchContract(c: Config, m: Entries, req: Request, now: real, doneAt: real, outcome: Outcome)
    ensures var x := Fetch(c, m, req, now, doneAt, outcome);
            var hit := Lookup(m, CacheKey(c, req), now);
            (x.sent == 0 <==> hit.Some? && Truthy(hit.value)) &&
            (x.sent == 0 ==> x.answer == Success(hit.value) && x.entries == m) &&
            (x.sent == 1 ==> x.answer == Classify(c, Url(c, req.endpoint), outcome)) &&
            (x.answer.Failure? ==> x.entries == AfterGet(m, CacheKey(c, req), now)) &&
            (x.sent == 1 && x.answer.Success? ==>
              x.entries == AfterGet(m, CacheKey(c, req), now)[CacheKey(c, req) :=
                             Entry(x.answer.value, doneAt + c.cacheExpiry as real)])
  {
    ServeContract(m, CacheKey(c, req), now, Classify(c, Url(c, req.endpoint), outcome), doneAt + c.cacheExpiry as real);
  }

  /** A request that failed validation touches neither the cache nor the transport. */
  function Perform(c: Config, m: Entries, req: Result<Request, ApiError>, now: real, doneAt: real, outcome: Outcome): (x: Exchange)
    ensures req.Failure? ==> x == Exchange(Failure(req.error), m, 0)
    ensures req.Success? ==> x == Fetch(c, m, req.value, now, doneAt, outcome)
  {
    match req
    case Failure(e) => Exchange(Failure(e), m, 0)
    case Success(r) => Fetch(c, m, r, now, doneAt, outcome)
  }

  /** The cache is written only by a status-200 response with a JSON body. */
  lemma OnlySuccessWrites(c: Config, m: Entries, req: Request, now: real, doneAt: real, outcome: Outcome)
    requires Fetch(c, m, req, now, doneAt, outcome).entries != AfterGet(m, CacheKey(c, req), now)
    ensures outcome.Response? && outcome.status == 200 && outcome.body.Some?
    ensures Fetch(c, m, req, now, doneAt, outcome).sent == 1
  {
    ServeContract(m, CacheKey(c, req), now, Classify(c, Url(c, req.endpoint), outcome), doneAt + c.cacheExpiry as real);
  }

  /** A falsy cached value (an empty dict, say) counts as a miss: the transport
      is asked and its answer replaces the cached one. */
  lemma FalsyHitIsMiss(c: Config, m: Entries, req: Request, now: real, doneAt: real, outcome: Outcome)
    requires Lookup(m, CacheKey(c, req), now).Some? && !Truthy(Lookup(m, CacheKey(c, req), now).value)
    ensures Fetch(c, m, req, now, doneAt, outcome).sent == 1
    ensures Fetch(c, m, req, now, doneAt, outcome).answer == Classify(c, Url(c, req.endpoint), outcome)
  {
    ServeContract(m, CacheKey(c, req), now, Classify(c, Url(c, req.endpoint), outcome), doneAt + c.cacheExpiry as real);
  }

  /** A truthy answer stored by one request is served to the same request from
      the cache, without a second transport call, while it has not expired. */
  lemma SecondRequestHits(
    c: Config, m: Entries, req: Request, t1: real, d1: real, o1: Outcome, t2: real, d2: real, o2: Outcome)
    requires Fetch(c, m, req, t1, d1, o1).sent == 1
    requires Fetch(c, m, req, t1, d1, o1).answer.Success?
    requires Truthy(Fetch(c, m, req, t1, d1, o1).answer.value)
    requires t2 < d1 + c.cacheExpiry as real
    ensures var x1 := Fetch(c, m, req, t1, d1, o1);
            Fetch(c, x1.entries, req, t2, d2, o2) == Exchange(x1.answer, x1.entries, 0)
  {
    var x1 := Fetch(c, m, req, t1, d1, o1);
    assert Lookup(x1.entries, CacheKey(c, req), t2) == Some(x1.answer.value);
  }

  /** An empty cache always sends the request and answers with its outcome. */
  lemma FetchEmpty(c: Config, req: Request, now: real, doneAt: real, outcome: Outcome)
    ensures Fetch(c, map[], req, now, doneAt, outcome).sent == 1
    ensures Fetch(c, map[], req, now, doneAt, outcome).answer == Classify(c, Url(c, req.endpoint), outcome)
  {
    ServeContract(map[], CacheKey(c, req), now, Classify(c, Url(c, req.endpoint), outcome), doneAt + c.cacheExpiry as real);
  }

  /** The status mapping of the unit tests, on an empty cache. */
  lemma StatusExamples(c: Config, req: Request, now: real, doneAt: real)
    ensures Fetch(c, map[], req, now, doneAt, Response(404, None, "")).answer.error.kind == NotFound
    ensures Fetch(c, map[], req, now, doneAt, Response(429, None, "")).answer.error.kind == RateLimited
    ensures Fetch(c, map[], req, now, doneAt, TimedOut).answer.error.kind == Timeout
    ensures Fetch(c, map[], req, now, doneAt, Response(500, None, "Internal Server Error")).answer.error.kind == Generic
    ensures Fetch(c, map[], req, now, doneAt, Response(200, None, "")).answer.error.kind == Generic
    ensures Fetch(c, map[], req, now, doneAt, Response(200, Some(JObj(map["test" := JStr("data")])), "")).answer
            == Success(JObj(map["test" := JStr("data")]))
  {
    FetchEmpty(c, req, now, doneAt, Response(404, None, ""));
    FetchEmpty(c, req, now, doneAt, Response(429, None, ""));
    FetchEmpty(c, req, now, doneAt, TimedOut);
    FetchEmpty(c, req, now, doneAt, Response(500, None, "Internal Server Error"));
    FetchEmpty(c, req, now, doneAt, Response(200, None, ""));
    FetchEmpty(c, req, now, doneAt, Response(200, Some(JObj(map["test" := JStr("data")])), ""));
  }

  // ---------------------------------------------------------------------------
  // Query parameters
  // ---------------------------------------------------------------------------

  /** `if arg:` for an optional string argument: given and not empty. */
  predicate Given(a: Option<string>) {
    a.Some? && a.value != ""
  }

  /** The value a conditional insertion `if arg: params[key] = arg` would store. */
  function Candidate(a: Option<string>): (v: Option<ParamValue>)
    ensures v.Some? <==> Given(a)
    ensures v.Some? ==> v.value == PStr(a.value)
  {
    if Given(a) then Some(PStr(a.value)) else None
  }

  /** The value stored for an optional date argument: its `strftime` rendering. */
  function StampCandidate(c: Config, t: Option<DateTime>): (v: Option<ParamValue>)
    ensures v.Some? <==> t.Some?
    ensures v.Some? ==> v.value == PStr(c.stamp(t.value))
  {
    if t.Some? then Some(PStr(c.stamp(t.value))) else None
  }

  /** The value stored under `key`, if any (the first one). */
  function ParamOf(p: Params, key: string): (v: Option<ParamValue>)
  {
    if p == [] then None
    else if p[0].0 == key then Some(p[0].1)
    else ParamOf(p[1..], key)
  }

  /** Looking up a key in two dicts written one after the other. */
  lemma {:induction false} ParamOfAppend(p: Params, q: Params, key: string)
    ensures ParamOf(p + q, key) == if ParamOf(p, key).Some? then ParamOf(p, key) else ParamOf(q, key)
  {
    if p != [] {
      assert (p + q)[0] == p[0];
      assert (p + q)[1..] == p[1..] + q;
      ParamOfAppend(p[1..], q, key);
    } else {
      assert p + q == q;
    }
  }

  /** What one conditional insertion contributes. */
  function Part(cand: (string, Option<ParamValue>)): (p: Params)
    ensures cand.1.Some? ==> p == [(cand.0, cand.1.value)]
    ensures cand.1.None? ==> p == []
  {
    if cand.1.Some? then [(cand.0, cand.1.value)] else []
  }

  /** The dict that conditional insertions of the candidates build: every
      present candidate, in the order the source inserts them. */
  function Present(cands: seq<(string, Option<ParamValue>)>): (p: Params)
    ensures |p| <= |cands|
  {
    if cands == [] then [] else Present(cands[..|cands| - 1]) + Part(cands[|cands| - 1])
  }

  /** A key no candidate carries is absent from the built dict. */
  lemma {:induction false} PresentAbsent(cands: seq<(string, Option<ParamValue>)>, key: string)
    requires forall i :: 0 <= i < |cands| ==> cands[i].0 != key
    ensures ParamOf(Present(cands), key).None?
  {
    if cands != [] {
      var n := |cands|;
      PresentAbsent(cands[..n - 1], key);
      ParamOfAppend(Present(cands[..n - 1]), Part(cands[n - 1]), key);
    }
  }

  /** One more insertion appends one more part. */
  lemma PresentStep(cands: seq<(string, Option<ParamValue>)>, k: nat)
    requires k < |cands|
    ensures Present(cands[..k + 1]) == Present(cands[..k]) + Part(cands[k])
  {
    assert cands[..k + 1][..k] == cands[..k];
  }

  /** The insertions of every candidate build `Present` of the whole list. */
  lemma PresentWhole(cands: seq<(string, Option<ParamValue>)>)
    ensures Present(cands[..|cands|]) == Present(cands)
  {
    assert cands[..|cands|] == cands;
  }

  /** `Present` of one, two, four and seven candidates, spelled out as the
      appends a builder performs one insertion at a time. */
  lemma PresentOfOne(cands: seq<(string, Option<ParamValue>)>)
    requires |cands| == 1
    ensures Present(cands) == [] + Part(cands[0])
  {
    PresentStep(cands, 0); PresentWhole(cands);
  }

  lemma PresentOfTwo(cands: seq<(string, Option<ParamValue>)>)
    requires |cands| == 2
    ensures Present(cands) == [] + Part(cands[0]) + Part(cands[1])
  {
    PresentStep(cands, 0); PresentStep(cands, 1); PresentWhole(cands);
  }

  lemma PresentOfFour(cands: seq<(string, Option<ParamValue>)>)
    requires |cands| == 4
    ensures Present(cands) == [] + Part(cands[0]) + Part(cands[1]) + Part(cands[2]) + Part(cands[3])
  {
    PresentStep(cands, 0); PresentStep(cands, 1); PresentStep(cands, 2); PresentStep(cands, 3);
    PresentWhole(cands);
  }

  lemma PresentOfSeven(cands: seq<(string, Option<ParamValue>)>)
    requires |cands| == 7
    ensures Present(cands) == [] + Part(cands[0]) + Part(cands[1]) + Part(cands[2]) + Part(cands[3])
                               + Part(cands[4]) + Part(cands[5]) + Part(cands[6])
  {
    PresentStep(cands, 0); PresentStep(cands, 1); PresentStep(cands, 2); PresentStep(cands, 3);
    PresentStep(cands, 4); PresentStep(cands, 5); PresentStep(cands, 6);
    PresentWhole(cands);
  }

  predicate DistinctKeys(cands: seq<(string, Option<ParamValue>)>) {
    forall i, j :: 0 <= i < j < |cands| ==> cands[i].0 != cands[j].0
  }

  /** With distinct keys, each key of the built dict holds exactly its
      candidate: present iff the candidate is, with the candidate's value. */
  lemma {:induction false} PresentLookup(cands: seq<(string, Option<ParamValue>)>, i: nat)
    requires DistinctKeys(cands)
    requires i < |cands|
    ensures ParamOf(Present(cands), cands[i].0) == cands[i].1
  {
    var n := |cands|;
    var key := cands[i].0;
    var init := Present(cands[..n - 1]);
    ParamOfAppend(init, Part(cands[n - 1]), key);
    if i == n - 1 {
      PresentAbsent(cands[..n - 1], key);
    } else {
      assert cands[..n - 1][i] == cands[i];
      PresentLookup(cands[..n - 1], i);
    }
  }

  /** `get_alerts`: the filters in the order the source inserts them. */
  function AlertCandidates(
    area: Option<string>, region: Option<string>, zone: Option<string>, status: Option<string>,
    messageType: Option<string>, event: Option<string>, active: bool
  ): (cands: seq<(string, Option<ParamValue>)>)
    ensures |cands| == 7
  {
    [("area", Candidate(area)), ("region", Candidate(region)), ("zone", Candidate(zone)),
     ("status", Candidate(status)), ("message_type", Candidate(messageType)),
     ("event", Candidate(event)), ("active", if active then Some(PStr("true")) else None)]
  }

  function AlertParams(
    area: Option<string>, region: Option<string>, zone: Option<string>, status: Option<string>,
    messageType: Option<string>, event: Option<string>, active: bool
  ): (p: Params)
  {
    Present(AlertCandidates(area, region, zone, status, messageType, event, active))
  }

  /** Each alert filter is sent exactly when its argument is truthy, with that
      argument as value; `active` is sent as "true" exactly when set. */
  lemma AlertParamsLookup(
    area: Option<string>, region: Option<string>, zone: Option<string>, status: Option<string>,
    messageType: Option<string>, event: Option<string>, active: bool)
    ensures var p := AlertParams(area, region, zone, status, messageType, event, active);
            ParamOf(p, "area") == Candidate(area) && ParamOf(p, "region") == Candidate(region) &&
            ParamOf(p, "zone") == Candidate(zone) && ParamOf(p, "status") == Candidate(status) &&
            ParamOf(p, "message_type") == Candidate(messageType) && ParamOf(p, "event") == Candidate(event) &&
            ParamOf(p, "active") == (if active then Some(PStr("true")) else None)
  {
    var cands := AlertCandidates(area, region, zone, status, messageType, event, active);
    PresentLookup(cands, 0);
    PresentLookup(cands, 1);
    PresentLookup(cands, 2);
    PresentLookup(cands, 3);
    PresentLookup(cands, 4);
    PresentLookup(cands, 5);
    PresentLookup(cands, 6);
  }

  /** `get_products`: `limit` first and always, then the optional filters. */
  function ProductCandidates(c: Config, location: Option<string>, start: Option<DateTime>, end: Option<DateTime>, limit: int)
    : (cands: seq<(string, Option<ParamValue>)>)
    ensures |cands| == 4
  {
    [("limit", Some(PInt(limit))), ("location", Candidate(location)),
     ("start", StampCandidate(c, start)), ("end", StampCandidate(c, end))]
  }

  function ProductParams(c: Config, location: Option<string>, start: Option<DateTime>, end: Option<DateTime>, limit: int): (p: Params)
  {
    Present(ProductCandidates(c, location, start, end, limit))
  }

  /** `limit` is always sent; the other product filters only when given. */
  lemma ProductParamsLookup(c: Config, location: Option<string>, start: Option<DateTime>, end: Option<DateTime>, limit: int)
    ensures var p := ProductParams(c, location, start, end, limit);
            ParamOf(p, "limit") == Some(PInt(limit)) && ParamOf(p, "location") == Candidate(location) &&
            ParamOf(p, "start") == StampCandidate(c, start) && ParamOf(p, "end") == StampCandidate(c, end)
    ensures ProductParams(c, location, start, end, limit)[0] == ("limit", PInt(limit))
  {
    var cands := ProductCandidates(c, location, start, end, limit);
    PresentOfFour(cands);
    PresentLookup(cands, 0);
    PresentLookup(cands, 1);
    PresentLookup(cands, 2);
    PresentLookup(cands, 3);
  }

  /** `get_station_observations`: optional start and end times. */
  function ObservationCandidates(c: Config, start: Option<DateTime>, end: Option<DateTime>)
    : (cands: seq<(string, Option<ParamValue>)>)
    ensures |cands| == 2
  {
    [("start", StampCandidate(c, start)), ("end", StampCandidate(c, end))]
  }

  function ObservationParams(c: Config, start: Option<DateTime>, end: Option<DateTime>): (p: Params)
  {
    Present(ObservationCandidates(c, start, end))
  }

  /** Start and end are sent exactly when given, as their `strftime` text. */
  lemma ObservationParamsLookup(c: Config, start: Option<DateTime>, end: Option<DateTime>)
    ensures var p := ObservationParams(c, start, end);
            ParamOf(p, "start") == StampCandidate(c, start) && ParamOf(p, "end") == StampCandidate(c, end)
  {
    var cands := ObservationCandidates(c, start, end);
    PresentLookup(cands, 0);
    PresentLookup(cands, 1);
  }

  /** `get_stations` (key "state") and `get_zones` (key "area"): one optional filter. */
  function SingleParam(key: string, a: Option<string>): (p: Params)
  {
    Present([(key, Candidate(a))])
  }

  /** The single filter is sent exactly when its argument is truthy. */
  lemma SingleParamLookup(key: string, a: Option<string>)
    ensures ParamOf(SingleParam(key, a), key) == Candidate(a)
    ensures Given(a) ==> SingleParam(key, a) == [(key, PStr(a.value))]
    ensures !Given(a) ==> SingleParam(key, a) == []
  {
    PresentLookup([(key, Candidate(a))], 0);
    assert [(key, Candidate(a))][1..] == [];
  }

  /** The alert query of the unit tests: only `active`, by default. */
  lemma DefaultAlertParams()
    ensures AlertParams(None, None, None, None, None, None, true) == [("active", PStr("true"))]
  {
    PresentOfSeven(AlertCandidates(None, None, None, None, None, None, true));
  }

  /** Given filters are sent in insertion order; absent ones are left out. */
  lemma FilteredAlertParams()
    ensures AlertParams(Some("DC"), None, None, Some("actual"), None, Some("Tornado Warning"), false)
            == [("area", PStr("DC")), ("status", PStr("actual")), ("event", PStr("Tornado Warning"))]
  {
    PresentOfSeven(AlertCandidates(Some("DC"), None, None, Some("actual"), None, Some("Tornado Warning"), false));
  }

  /** The default product query sends only `limit`; the default observation
      query sends nothing. */
  lemma DefaultParamExamples(c: Config)
    ensures ProductParams(c, None, None, None, 50) == [("limit", PInt(50))]
    ensures ObservationParams(c, None, None) == []
  {
    PresentOfFour(ProductCandidates(c, None, None, None, 50));
    PresentOfTwo(ObservationCandidates(c, None, None));
  }

  // ---------------------------------------------------------------------------
  // Accessors: validation and endpoints
  // ---------------------------------------------------------------------------

  /** The public accessors, one constructor each, with their arguments. */
  datatype Query =
    | Points(latitude: real, longitude: real)
    | GridForecast(wfo: string, x: int, y: int, hourly: bool)
    | Alerts(area: Option<string>, region: Option<string>, zone: Option<string>, status: Option<string>,
             messageType: Option<string>, event: Option<string>, active: bool)
    | AlertById(alertId: string)
    | Stations(state: Option<string>)
    | StationObservations(stationId: string, start: Option<DateTime>, end: Option<DateTime>)
    | LatestObservation(stationId: string)
    | Office(officeId: string)
    | OfficeHeadlines(officeId: string)
    | Zones(zoneType: string, zoneArea: Option<string>)
    | ZoneForecast(zoneId: string)
    | ZoneObservations(zoneId: string)
    | Products(location: Option<string>, from: Option<DateTime>, until: Option<DateTime>, limit: int)
    | Product(productId: string)
    | Glossary
    | Icons(setName: string)
    | Icon(setName: string, iconName: string)

  /** The zone types `get_zones` accepts. */
  const ZoneTypes: seq<string> := ["forecast", "county", "fire"]

  /** The request an accessor sends, or the validation error it raises first. */
  function RequestOf(c: Config, q: Query): (r: Result<Request, ApiError>)
    ensures r.Failure? ==> r.error.kind == Validation
    ensures q.Points? ==>
              (r.Failure? <==> !(-90.0 <= q.latitude <= 90.0 && -180.0 <= q.longitude <= 180.0))
    ensures q.Zones? ==> (r.Failure? <==> q.zoneType !in ZoneTypes)
    ensures !q.Points? && !q.Zones? ==> r.Success?
  {
    match q
    case Points(lat, lon) =>
      if !(-90.0 <= lat <= 90.0) then Failure(ApiError(Validation, "Latitude must be between -90 and 90"))
      else if !(-180.0 <= lon <= 180.0) then Failure(ApiError(Validation, "Longitude must be between -180 and 180"))
      else Success(Request("points/" + c.fixed4(lat) + "," + c.fixed4(lon), None))
    case GridForecast(wfo, x, y, hourly) =>
      Success(Request("gridpoints/" + wfo + "/" + IntToString(x) + "," + IntToString(y) + "/" +
                      (if hourly then "forecast/hourly" else "forecast"), None))
    case Alerts(area, region, zone, status, messageType, event, active) =>
      Success(Request("alerts", Some(AlertParams(area, region, zone, status, messageType, event, active))))
    case AlertById(id) => Success(Request("alerts/" + id, None))
    case Stations(state) => Success(Request("stations", Some(SingleParam("state", state))))
    case StationObservations(id, start, end) =>
      Success(Request("stations/" + id + "/observations", Some(ObservationParams(c, start, end))))
    case LatestObservation(id) => Success(Request("stations/" + id + "/observations/latest", None))
    case Office(id) => Success(Request("offices/" + id, None))
    case OfficeHeadlines(id) => Success(Request("offices/" + id + "/headlines", None))
    case Zones(zoneType, area) =>
      if zoneType !in ZoneTypes then Failure(ApiError(Validation, "Zone type must be one of: forecast, county, fire"))
      else Success(Request("zones/" + zoneType, Some(SingleParam("area", area))))
    case ZoneForecast(id) => Success(Request("zones/forecast/" + id + "/forecast", None))
    case ZoneObservations(id) => Success(Request("zones/forecast/" + id + "/observations", None))
    case Products(location, start, end, limit) =>
      Success(Request("products", Some(ProductParams(c, location, start, end, limit))))
    case Product(id) => Success(Request("products/" + id, None))
    case Glossary => Success(Request("glossary", None))
    case Icons(iconSet) => Success(Request("icons/" + iconSet, None))
    case Icon(iconSet, name) => Success(Request("icons/" + iconSet + "/" + name, None))
  }

  /** Coordinates out of range and unknown zone types are rejected before the
      cache or the transport is consulted. */
  lemma ValidationFailsFirst(c: Config, m: Entries, q: Query, now: real, doneAt: real, outcome: Outcome)
    requires (q.Points? && !(-90.0 <= q.latitude <= 90.0 && -180.0 <= q.longitude <= 180.0)) ||
             (q.Zones? && q.zoneType !in ZoneTypes)
    ensures var x := Perform(c, m, RequestOf(c, q), now, doneAt, outcome);
            x.answer.Failure? && x.answer.error.kind == Validation && x.entries == m && x.sent == 0
  {
  }

  /** The bounds are inclusive: the corners of the coordinate range are accepted,
      one step beyond them is not. */
  lemma CoordinateBounds(c: Config)
    ensures RequestOf(c, Points(90.0, 180.0)).Success? && RequestOf(c, Points(-90.0, -180.0)).Success?
    ensures RequestOf(c, Points(91.0, 0.0)).Failure? && RequestOf(c, Points(-91.0, 0.0)).Failure?
    ensures RequestOf(c, Points(0.0, 181.0)).Failure? && RequestOf(c, Points(0.0, -181.0)).Failure?
    ensures RequestOf(c, Zones("invalid_type", None)).Failure?
    ensures RequestOf(c, Zones("fire", None)).Success?
  {
  }

  /** The gridpoint endpoints the unit tests expect. */
  lemma GridEndpointExamples(c: Config)
    ensures RequestOf(c, GridForecast("LWX", 97, 71, false)) == Success(Request("gridpoints/LWX/97,71/forecast", None))
    ensures RequestOf(c, GridForecast("LWX", 97, 71, true)) == Success(Request("gridpoints/LWX/97,71/forecast/hourly", None))
  {
    assert IntToString(97) == "97" && IntToString(71) == "71";
    assert RequestOf(c, GridForecast("LWX", 97, 71, false)).value.endpoint == "gridpoints/LWX/97,71/forecast";
    assert RequestOf(c, GridForecast("LWX", 97, 71, true)).value.endpoint == "gridpoints/LWX/97,71/forecast/hourly";
  }

  /** The observation endpoint the unit tests expect, with an empty parameter dict. */
  lemma ObservationEndpointExample(c: Config)
    ensures RequestOf(c, StationObservations("KDCA", None, None)) == Success(Request("stations/KDCA/observations", Some([])))
  {
    DefaultParamExamples(c);
    assert RequestOf(c, StationObservations("KDCA", None, None)).value.endpoint == "stations/KDCA/observations";
  }

  /** The zone endpoint the unit tests expect, with its `area` parameter. */
  lemma ZoneEndpointExample(c: Config)
    ensures RequestOf(c, Zones("forecast", Some("DC"))) == Success(Request("zones/forecast", Some([("area", PStr("DC"))])))
  {
    SingleParamLookup("area", Some("DC"));
    assert RequestOf(c, Zones("forecast", Some("DC"))).value.endpoint == "zones/forecast";
  }

  /** The icon endpoint the unit tests expect. */
  lemma IconEndpointExample(c: Config)
    ensures RequestOf(c, Icon("forecast", "sunny")) == Success(Request("icons/forecast/sunny", None))
  {
    assert RequestOf(c, Icon("forecast", "sunny")).value.endpoint == "icons/forecast/sunny";
  }

  // ---------------------------------------------------------------------------
  // get_forecast
  // ---------------------------------------------------------------------------

  /** The key `get_forecast` reads from `properties`. */
  function ForecastKey(hourly: bool): (k: string)
  {
    if hourly then "forecastHourly" else "forecast"
  }

  /** `points_data.get("properties", {}).get(key)`, then `if not forecast_url:`. */
  function ForecastUrlOf(points: Json, hourly: bool): (r: Result<string, ApiError>)
    ensures r.Success? ==>
              points.JObj? && Get(points.fields, "properties", JObj(map[])).JObj? &&
              Get(Get(points.fields, "properties", JObj(map[])).fields, ForecastKey(hourly), JNull) == JStr(r.value) &&
              r.value != ""
    ensures points.JObj? && Get(points.fields, "properties", JObj(map[])).JObj? &&
            !Truthy(Get(Get(points.fields, "properties", JObj(map[])).fields, ForecastKey(hourly), JNull)) ==>
              r.Failure? && r.error.kind == NotFound
  {
    if !points.JObj? then Failure(ApiError(Internal, "points response is not an object"))
    else
      var props := Get(points.fields, "properties", JObj(map[]));
      if !props.JObj? then Failure(ApiError(Internal, "points properties is not an object"))
      else
        var raw := Get(props.fields, ForecastKey(hourly), JNull);
        if !Truthy(raw) then Failure(ApiError(NotFound, "Forecast URL not found in points response"))
        else if !raw.JStr? then Failure(ApiError(Internal, "forecast URL is not a string"))
        else Success(raw.s)
  }

  /** `forecast_url.replace(self.base_url, "")`. */
  function ForecastEndpoint(c: Config, url: string): (e: string)
    ensures |e| <= |url|
    ensures c.baseUrl != [] && !ContainsSub(url, c.baseUrl) ==> e == url
  {
    if c.baseUrl != [] && !ContainsSub(url, c.baseUrl) then
      ReplaceAbsent(url, c.baseUrl, "");
      ReplaceAll(url, c.baseUrl, "")
    else
      ReplaceAll(url, c.baseUrl, "")
  }

  /** A forecast URL below the base URL leads back to itself: removing the base
      and then prefixing it again gives the same URL. */
  lemma ForecastUrlRoundTrip(c: Config, rest: string)
    requires c.baseUrl != []
    requires !ContainsSub("/" + rest, c.baseUrl)
    requires rest == [] || rest[0] != '/'
    ensures ForecastEndpoint(c, c.baseUrl + "/" + rest) == "/" + rest
    ensures Url(c, ForecastEndpoint(c, c.baseUrl + "/" + rest)) == c.baseUrl + "/" + rest
  {
    assert c.baseUrl + "/" + rest == c.baseUrl + ("/" + rest);
    ReplaceLeading(c.baseUrl, "/" + rest, "");
    ReplaceAbsent("/" + rest, c.baseUrl, "");
    LStripLeading(rest, '/');
    assert "/" + rest == ['/'] + rest;
  }

  /** What `get_forecast` does: the points request, then the forecast request
      at the URL found in its answer. */
  function ForecastFetch(
    c: Config, m: Entries, latitude: real, longitude: real, hourly: bool,
    t1: real, d1: real, o1: Outcome, t2: real, d2: real, o2: Outcome
  ): (x: Exchange)
    ensures x.sent <= 2
  {
    var x1 := Perform(c, m, RequestOf(c, Points(latitude, longitude)), t1, d1, o1);
    if x1.answer.Failure? then x1
    else match ForecastUrlOf(x1.answer.value, hourly)
      case Failure(e) => Exchange(Failure(e), x1.entries, x1.sent)
      case Success(url) =>
        var x2 := Fetch(c, x1.entries, Request(ForecastEndpoint(c, url), None), t2, d2, o2);
        Exchange(x2.answer, x2.entries, x1.sent + x2.sent)
  }

  /** A points answer without a truthy `forecast` (or `forecastHourly`, when
      `hourly`) URL under its `properties` fails with NotFound after the single
      points request, whatever else the answer holds. */
  lemma ForecastUrlMissing(
    c: Config, m: Entries, latitude: real, longitude: real, hourly: bool,
    t1: real, d1: real, o1: Outcome, t2: real, d2: real, o2: Outcome,
    top: map<string, Json>, props: map<string, Json>)
    requires Perform(c, m, RequestOf(c, Points(latitude, longitude)), t1, d1, o1).answer == Success(JObj(top))
    requires Get(top, "properties", JObj(map[])) == JObj(props)
    requires !Truthy(Get(props, if hourly then "forecastHourly" else "forecast", JNull))
    ensures var x := ForecastFetch(c, m, latitude, longitude, hourly, t1, d1, o1, t2, d2, o2);
            x.answer.Failure? && x.answer.error.kind == NotFound &&
            x.sent == Perform(c, m, RequestOf(c, Points(latitude, longitude)), t1, d1, o1).sent
  {
    assert ForecastKey(hourly) == if hourly then "forecastHourly" else "forecast";
  }

  /** The forecast URL is taken from `forecastHourly` exactly when `hourly`,
      and it is requested with the base URL removed, after the points request,
      whatever else the points answer holds. */
  lemma ForecastUrlFollowed(
    c: Config, m: Entries, latitude: real, longitude: real, hourly: bool,
    t1: real, d1: real, o1: Outcome, t2: real, d2: real, o2: Outcome,
    top: map<string, Json>, props: map<string, Json>, url: string)
    requires Perform(c, m, RequestOf(c, Points(latitude, longitude)), t1, d1, o1).answer == Success(JObj(top))
    requires Get(top, "properties", JObj(map[])) == JObj(props)
    requires Get(props, if hourly then "forecastHourly" else "forecast", JNull) == JStr(url) && url != ""
    ensures var x1 := Perform(c, m, RequestOf(c, Points(latitude, longitude)), t1, d1, o1);
            var x2 := Fetch(c, x1.entries, Request(ForecastEndpoint(c, url), None), t2, d2, o2);
            ForecastFetch(c, m, latitude, longitude, hourly, t1, d1, o1, t2, d2, o2)
              == Exchange(x2.answer, x2.entries, x1.sent + x2.sent)
  {
    assert ForecastKey(hourly) == if hourly then "forecastHourly" else "forecast";
    assert ForecastUrlOf(JObj(top), hourly) == Success(url);
    ForecastFetchFollows(c, m, latitude, longitude, hourly, t1, d1, o1, t2, d2, o2, url);
  }

  /** Once the points answer yields a forecast URL, the forecast is the fetch of
      that URL with the base removed. */
  lemma ForecastFetchFollows(
    c: Config, m: Entries, latitude: real, longitude: real, hourly: bool,
    t1: real, d1: real, o1: Outcome, t2: real, d2: real, o2: Outcome, url: string)
    requires var x1 := Perform(c, m, RequestOf(c, Points(latitude, longitude)), t1, d1, o1);
             x1.answer.Success? && ForecastUrlOf(x1.answer.value, hourly) == Success(url)
    ensures var x1 := Perform(c, m, RequestOf(c, Points(latitude, longitude)), t1, d1, o1);
            var x2 := Fetch(c, x1.entries, Request(ForecastEndpoint(c, url), None), t2, d2, o2);
            ForecastFetch(c, m, latitude, longitude, hourly, t1, d1, o1, t2, d2, o2)
              == Exchange(x2.answer, x2.entries, x1.sent + x2.sent)
  {
  }

  // ---------------------------------------------------------------------------
  // The client object
  // ---------------------------------------------------------------------------

  class WeatherApi {
    const config: Config
    const cache: Cache
    /** The number of calls made to the transport so far. */
    var requests: nat

    constructor(config: Config)
      ensures this.config == config && fresh(cache) && cache.entries == map[] && requests == 0
    {
      this.config := config;
      cache := new Cache();
      requests := 0;
    }

    /** `_make_request`: a truthy live cache entry answers; otherwise the
        transport is asked once and a successful answer is stored. */
    method MakeRequest(req: Request, now: real, doneAt: real, outcome: Outcome) returns (r: Answer)
      modifies this, cache
      ensures requests >= old(requests)
      ensures Exchange(r, cache.entries, requests - old(requests)) == Fetch(config, old(cache.entries), req, now, doneAt, outcome)
    {
      var url := Url(config, req.endpoint);
      var key := CacheKey(config, req);
      r := ServeKey(key, url, now, doneAt, outcome);
    }

    /** The cache step of `_make_request` for an already computed key and URL. */
    method ServeKey(key: string, url: string, now: real, doneAt: real, outcome: Outcome) returns (r: Answer)
      modifies this, cache
      ensures requests >= old(requests)
      ensures Exchange(r, cache.entries, requests - old(requests))
              == Serve(old(cache.entries), key, now, Classify(config, url, outcome), doneAt + config.cacheExpiry as real)
    {
      ghost var m := cache.entries;
      ghost var answer, expiry := Classify(config, url, outcome), doneAt + config.cacheExpiry as real;
      var cached := cache.Get(key, now);
      ghost var m1 := cache.entries;
      if cached.Some? && Truthy(cached.value) {
        ServeHit(m, key, now, answer, expiry, m1, cached.value);
        return Success(cached.value);
      }
      r := Refresh(key, url, doneAt, outcome);
      ServeMiss(m, key, now, answer, expiry, m1, cache.entries);
    }

    /** The miss path of `_make_request`: one transport call, and a successful
        answer stored under `key` until `doneAt` plus the configured expiry. */
    method Refresh(key: string, url: string, doneAt: real, outcome: Outcome) returns (r: Answer)
      modifies this, cache
      ensures r == Classify(config, url, outcome)
      ensures requests == old(requests) + 1
      ensures cache.entries == if r.Success? then old(cache.entries)[key := Entry(r.value, doneAt + config.cacheExpiry as real)]
                               else old(cache.entries)
    {
      requests := requests + 1;
      r := Classify(config, url, outcome);
      if r.Success? {
        cache.Set(key, r.value, config.cacheExpiry, doneAt);
      }
    }

    /** One conditional insertion `if value: params[key] = value`. */
    static method Insert(p: Params, key: string, v: Option<ParamValue>) returns (q: Params)
      ensures q == p + Part((key, v))
    {
      q := p;
      if v.Some? {
        q := q + [(key, v.value)];
      }
    }

    /** `params = {}` followed by the conditional insertions of `get_alerts`. */
    static method BuildAlertParams(
      area: Option<string>, region: Option<string>, zone: Option<string>, status: Option<string>,
      messageType: Option<string>, event: Option<string>, active: bool
    ) returns (p: Params)
      ensures p == AlertParams(area, region, zone, status, messageType, event, active)
    {
      PresentOfSeven(AlertCandidates(area, region, zone, status, messageType, event, active));
      p := [];
      p := Insert(p, "area", Candidate(area));
      p := Insert(p, "region", Candidate(region));
      p := Insert(p, "zone", Candidate(zone));
      p := Insert(p, "status", Candidate(status));
      p := Insert(p, "message_type", Candidate(messageType));
      p := Insert(p, "event", Candidate(event));
      p := Insert(p, "active", if active then Some(PStr("true")) else None);
    }

    /** `params = {"limit": limit}` followed by the insertions of `get_products`. */
    method BuildProductParams(location: Option<string>, start: Option<DateTime>, end: Option<DateTime>, limit: int)
      returns (p: Params)
      ensures p == ProductParams(config, location, start, end, limit)
    {
      PresentOfFour(ProductCandidates(config, location, start, end, limit));
      p := [("limit", PInt(limit))];
      assert p == [] + Part(("limit", Some(PInt(limit))));
      p := Insert(p, "location", Candidate(location));
      p := Insert(p, "start", StampCandidate(config, start));
      p := Insert(p, "end", StampCandidate(config, end));
    }

    /** The insertions of `get_station_observations`. */
    method BuildObservationParams(start: Option<DateTime>, end: Option<DateTime>) returns (p: Params)
      ensures p == ObservationParams(config, start, end)
    {
      PresentOfTwo(ObservationCandidates(config, start, end));
      p := [];
      p := Insert(p, "start", StampCandidate(config, start));
      p := Insert(p, "end", StampCandidate(config, end));
    }

    /** The single insertion of `get_stations` and `get_zones`. */
    static method BuildSingleParam(key: string, a: Option<string>) returns (p: Params)
      ensures p == SingleParam(key, a)
    {
      PresentOfOne([(key, Candidate(a))]);
      p := Insert([], key, Candidate(a));
    }

    /** The validation and request building an accessor performs. */
    method BuildRequest(q: Query) returns (r: Result<Request, ApiError>)
      ensures r == RequestOf(config, q)
    {
      match q {
        case Alerts(area, region, zone, status, messageType, event, active) =>
          var p := BuildAlertParams(area, region, zone, status, messageType, event, active);
          r := Success(Request("alerts", Some(p)));
        case Stations(state) =>
          var p := BuildSingleParam("state", state);
          r := Success(Request("stations", Some(p)));
        case StationObservations(id, start, end) =>
          var p := BuildObservationParams(start, end);
          r := Success(Request("stations/" + id + "/observations", Some(p)));
        case Zones(zoneType, area) =>
          if zoneType !in ZoneTypes {
            r := Failure(ApiError(Validation, "Zone type must be one of: forecast, county, fire"));
          } else {
            var p := BuildSingleParam("area", area);
            r := Success(Request("zones/" + zoneType, Some(p)));
          }
        case Products(location, start, end, limit) =>
          var p := BuildProductParams(location, start, end, limit);
          r := Success(Request("products", Some(p)));
        case _ =>
          r := RequestOf(config, q);
      }
    }

    /** Any accessor other than `get_forecast`: validate, build the request,
        then `_make_request`. */
    method Get(q: Query, now: real, doneAt: real, outcome: Outcome) returns (r: Answer)
      modifies this, cache
      ensures var x := Perform(config, old(cache.entries), RequestOf(config, q), now, doneAt, outcome);
              r == x.answer && cache.entries == x.entries && requests == old(requests) + x.sent
    {
      var req := BuildRequest(q);
      if req.Failure? {
        return Failure(req.error);
      }
      r := MakeRequest(req.value, now, doneAt, outcome);
    }

    /** `get_forecast`: the points lookup, the forecast URL, the forecast request. */
    method GetForecast(
      latitude: real, longitude: real, hourly: bool,
      t1: real, d1: real, o1: Outcome, t2: real, d2: real, o2: Outcome
    ) returns (r: Answer)
      modifies this, cache
      ensures var x := ForecastFetch(config, old(cache.entries), latitude, longitude, hourly, t1, d1, o1, t2, d2, o2);
              r == x.answer && cache.entries == x.entries && requests == old(requests) + x.sent
    {
      var points := Get(Points(latitude, longitude), t1, d1, o1);
      if points.Failure? {
        return points;
      }
      var url := ForecastUrlOf(points.value, hourly);
      if url.Failure? {
        return Failure(url.error);
      }
      r := MakeRequest(Request(ForecastEndpoint(config, url.value), None), t2, d2, o2);
    }

    /** `get_hourly_forecast`. */
    method GetHourlyForecast(
      latitude: real, longitude: real,
      t1: real, d1: real, o1: Outcome, t2: real, d2: real, o2: Outcome
    ) returns (r: Answer)
      modifies this, cache
      ensures var x := ForecastFetch(config, old(cache.entries), latitude, longitude, true, t1, d1, o1, t2, d2, o2);
              r == x.answer && cache.entries == x.entries && requests == old(requests) + x.sent
    {
      r := GetForecast(latitude, longitude, true, t1, d1, o1, t2, d2, o2);
    }

    /** `clear_cache`. */
    method ClearCache()
      modifies cache
      ensures cache.entries == map[]
    {
      cache.Clear();
    }

    /** `clean_cache`. */
    method CleanCache(now: real)
      modifies cache
      ensures cache.entries == Live(old(cache.entries), now)
    {
      cache.CleanExpired(now);
    }
  }
}
