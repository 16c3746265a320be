/**
 * The public timing API of src/utils/logger/index.ts: `time`, `wrap`, `fetch` and
 * `errorOn5xx`, composed from the engine in `Measure`.
 *
 * The timings service behind `send` is the `Sink` each top-level timing hands its
 * measurements to; the console summary printed in debug mode is the sink's headline.
 */
module Logger {
  import opened Options
  import opened Measure

  /** `TimingOptions<T>`; an absent `squelch` or `debug` flag is falsy, so it is `false` here. */
  datatype TimingOptions<!T> = TimingOptions(metadata: Option<Metadata>, onResult: Option<OnResult<T>>, squelch: bool, debug: bool)

  function MetadataOf<T>(options: Option<TimingOptions<T>>): Option<Metadata> {
    if options.Some? then options.value.metadata else None
  }

  function OnResultOf<T>(options: Option<TimingOptions<T>>): Option<OnResult<T>> {
    if options.Some? then options.value.onResult else None
  }

  predicate Squelch<T>(options: Option<TimingOptions<T>>) {
    options.Some? && options.value.squelch
  }

  predicate Debug<T>(options: Option<TimingOptions<T>>) {
    options.Some? && options.value.debug
  }

  /**
   * `options?.squelch ? squelch(name, callback) : callback`: the callback as it is handed on.
   * Squelching never changes how the callback settles or how long it takes, and hides every
   * timing made under it.
   */
  function Wrapped<T>(name: string, callback: Task<T>, options: Option<TimingOptions<T>>): (t: Task<T>)
    ensures Result(t) == Result(callback) && Elapsed(t) == Elapsed(callback)
    ensures Squelch(options) ==> Exposed(t) == {}
    ensures !Squelch(options) ==> t == callback
  {
    if Squelch(options) then Squelched(name, callback) else callback
  }

  /** The console headline `${measure.name} took ${measure.duration}ms` reads this duration. */
  function Duration(m: Measurement): int {
    m.end - m.start
  }

  /**
   * `time(name, callback, options)`, called with `z` as the current zone.  Returns the
   * settled callback and the sink its one flush went to.
   */
  method Time<T>(rt: Runtime, z: Zone, name: string, callback: Task<T>, options: Option<TimingOptions<T>>)
      returns (r: Outcome<T>, onMeasures: Sink)
    requires rt.Valid()
    modifies rt, States(z)
    ensures rt.Valid()
    ensures r == Rethrown(Result(callback))
    ensures rt.now >= old(rt.now) + Elapsed(callback)
    ensures fresh(onMeasures) && onMeasures.debug == Debug(options)
    ensures onMeasures.batches ==
      [Records(SiteOf(Fork(name, z, None)), Timed(name, Wrapped(name, callback, options), MetadataOf(options), OnResultOf(options)), old(rt.now))]
    ensures Squelch(options) ==> |onMeasures.batches[0]| == 1
    ensures |onMeasures.headlines| == if Debug(options) then 1 else 0
    ensures Debug(options) ==> onMeasures.headlines[0].name == name && Duration(onMeasures.headlines[0]) == Elapsed(callback)
    ensures forall s :: s in States(z) ==> old(allocated(s))
    ensures forall s :: s in States(z) ==> s.isLogging == old(s.isLogging) && s.measures == old(s.measures)
  {
    StatesAllocated(z);
    var site := SiteOf(Fork(name, z, None));
    var task := Wrapped(name, callback, options);
    ghost var clock := rt.now;
    onMeasures := new Sink(Debug(options));
    ghost var state;
    r, state := rt.TimeAndLogCallback(z, name, task, onMeasures, MetadataOf(options), OnResultOf(options));
    OwnMeasurementLast(site, name, task, MetadataOf(options), OnResultOf(options), clock);
    if Squelch(options) {
      OnlyOwnMeasurement(site, name, task, MetadataOf(options), OnResultOf(options), clock);
    }
  }

  /**
   * `wrap(name, callback, options)`, called with `z` as the current zone: a plain
   * `timeCallback`, recorded only under a logging root.
   */
  method Wrap<T>(rt: Runtime, z: Zone, name: string, callback: Task<T>, options: Option<TimingOptions<T>>)
      returns (r: Outcome<T>, stragglers: seq<Straggler<T>>)
    requires rt.Valid()
    modifies rt, States(z)
    ensures rt.Valid()
    ensures r == Rethrown(Result(callback))
    ensures rt.now == old(rt.now) + Elapsed(callback)
    ensures forall s :: s in States(z) ==> old(allocated(s))
    ensures forall s :: s in States(z) ==> s.isLogging == old(s.isLogging)
    ensures forall s :: s in States(z) && !(old(Recording(z)) && Nearest(z) == Some(s)) ==> s.measures == old(s.measures)
    ensures old(Recording(z)) ==>
      Nearest(z).value.measures == old(Nearest(z).value.measures)
        + Records(SiteOf(z), Timed(name, Wrapped(name, callback, options), MetadataOf(options), OnResultOf(options)), old(rt.now))
    ensures old(Recording(z)) && Squelch(options) ==> |Nearest(z).value.measures| == |old(Nearest(z).value.measures)| + 1
    ensures forall i :: 0 <= i < |stragglers| ==> Size(stragglers[i].task) < Size(Wrapped(name, callback, options))
    ensures forall i, s :: 0 <= i < |stragglers| && s in States(stragglers[i].zone) ==> s in States(z) || fresh(s)
  {
    var task := Wrapped(name, callback, options);
    ghost var clock := rt.now;
    r, stragglers := rt.TimeCallback(z, name, task, MetadataOf(options), OnResultOf(options));
    if Squelch(options) {
      OnlyOwnMeasurement(SiteOf(z), name, task, MetadataOf(options), OnResultOf(options), clock);
    }
  }

  // ---------------------------------------------------------------------------------------
  // fetch and errorOn5xx
  // ---------------------------------------------------------------------------------------

  datatype Request = Request(url: string)

  /** `RequestInfo`: a URL string or a `Request`. */
  datatype RequestInfo = Url(url: string) | Req(request: Request)

  /** What `errorOn5xx` reads of a `Response`. */
  datatype Response = Response(status: nat, statusText: string)

  /** `typeof input === 'string' ? input : (input as Request).url` */
  function UrlOf(input: RequestInfo): (url: string)
    ensures input.Url? ==> url == input.url
    ensures input.Req? ==> url == input.request.url
  {
    match input
    case Url(url) => url
    case Req(request) => request.url
  }

  predicate IsServerError(status: nat) {
    500 <= status < 600
  }

  function Digit(d: nat): char
    requires d < 10
  {
    "0123456789"[d]
  }

  predicate IsDigit(c: char) {
    '0' <= c <= '9'
  }

  function DigitValue(c: char): nat
    requires IsDigit(c)
  {
    c as int - '0' as int
  }

  /** `status.toString()`: the decimal digits of `n`, without leading zeros. */
  function NatToString(n: nat): (s: string)
    decreases n
    ensures |s| > 0
    ensures forall i :: 0 <= i < |s| ==> IsDigit(s[i])
    ensures s[0] == '0' ==> n == 0
  {
    if n < 10 then [Digit(n)] else NatToString(n / 10) + [Digit(n % 10)]
  }

  /** The value of a string of decimal digits. */
  function ParseDecimal(s: string): nat
    requires forall i :: 0 <= i < |s| ==> IsDigit(s[i])
  {
    if s == [] then 0 else ParseDecimal(s[..|s| - 1]) * 10 + DigitValue(s[|s| - 1])
  }

  /** Reading the status string back gives the status. */
  lemma {:induction false} NatToStringRoundTrip(n: nat)
    ensures ParseDecimal(NatToString(n)) == n
    decreases n
  {
    var s := NatToString(n);
    if n >= 10 {
      NatToStringRoundTrip(n / 10);
      assert s[..|s| - 1] == NatToString(n / 10);
    }
  }

  /** Distinct statuses give distinct status strings. */
  lemma NatToStringInjective(m: nat, n: nat)
    requires NatToString(m) == NatToString(n)
    ensures m == n
  {
    NatToStringRoundTrip(m);
    NatToStringRoundTrip(n);
  }

  /**
   * `errorOn5xx(response)`: `status` is always present; `error` carries the status text of a
   * 5xx response and is otherwise `undefined`, hence absent once serialized.
   */
  function ErrorOn5xx(response: Response): (m: Metadata)
    ensures m.Keys == if IsServerError(response.status) then {"status", "error"} else {"status"}
    ensures forall i :: 0 <= i < |m["status"]| ==> IsDigit(m["status"][i])
    ensures m["status"] == NatToString(response.status)
    ensures ParseDecimal(m["status"]) == response.status
    ensures IsServerError(response.status) ==> m["error"] == response.statusText
  {
    NatToStringRoundTrip(response.status);
    var base := map["status" := NatToString(response.status)];
    if IsServerError(response.status) then base["error" := response.statusText] else base
  }

  lemma ErrorOn5xxOn4xx()
    ensures ErrorOn5xx(Response(400, "Not Found")) == map["status" := "400"]
  {
    assert NatToString(400) == "400" by {
      assert NatToString(4) == "4";
      assert NatToString(40) == "40";
    }
  }

  lemma ErrorOn5xxOn5xx()
    ensures ErrorOn5xx(Response(500, "Internal Server Error")) == map["status" := "500", "error" := "Internal Server Error"]
  {
    assert NatToString(500) == "500" by {
      assert NatToString(5) == "5";
      assert NatToString(50) == "50";
    }
  }

  /** The `onResponse` hook as `timeCallback` calls it: the supplied metadata is ignored. */
  function AsOnResult(onResponse: Response -> Metadata): (f: OnResult<Response>)
    ensures forall response, metadata :: f(response, metadata) == onResponse(response)
  {
    (response: Response, _: Option<Metadata>) => onResponse(response)
  }

  /** An omitted `onResponse` defaults to `errorOn5xx`. */
  function OnResponseOf(onResponse: Option<Response -> Metadata>): (f: Response -> Metadata)
    ensures onResponse.Some? ==> f == onResponse.value
    ensures onResponse.None? ==> forall response :: f(response) == ErrorOn5xx(response)
  {
    if onResponse.Some? then onResponse.value else ErrorOn5xx
  }

  /** The timed call `fetch` makes: the network request, seeded with `{url}`. */
  function FetchTask(name: string, input: RequestInfo, request: Task<Response>, onResponse: Option<Response -> Metadata>): Task<Response> {
    Timed(name, request, Some(map["url" := UrlOf(input)]), Some(AsOnResult(OnResponseOf(onResponse))))
  }

  /**
   * `fetch(name, input, init, onResponse)`, called with `z` as the current zone.  `request`
   * stands for `windowFetch(input, init)`; its measurements go to `send`, never to the console.
   */
  method Fetch(rt: Runtime, z: Zone, name: string, input: RequestInfo, request: Task<Response>,
               onResponse: Option<Response -> Metadata>)
      returns (r: Outcome<Response>, onMeasures: Sink)
    requires rt.Valid()
    modifies rt, States(z)
    ensures rt.Valid()
    ensures r == Rethrown(Result(request))
    ensures rt.now >= old(rt.now) + Elapsed(request)
    ensures fresh(onMeasures) && !onMeasures.debug && onMeasures.headlines == []
    ensures onMeasures.batches == [Records(SiteOf(Fork(name, z, None)), FetchTask(name, input, request, onResponse), old(rt.now))]
    ensures forall s :: s in States(z) ==> old(allocated(s))
    ensures forall s :: s in States(z) ==> s.isLogging == old(s.isLogging) && s.measures == old(s.measures)
  {
    StatesAllocated(z);
    var url := UrlOf(input);
    onMeasures := new Sink(false);
    ghost var state;
    r, state := rt.TimeAndLogCallback(z, name, request, onMeasures, Some(map["url" := url]), Some(AsOnResult(OnResponseOf(onResponse))));
  }

  /**
   * The detail of the timing `fetch` records for itself: on a response, exactly what
   * `onResponse` derived from it (so the seeded `url` is gone), plus the parent; on a
   * network failure, the `url` together with the error, or the `url` alone when the
   * rejection is nullish and `error.toString()` throws.
   */
  lemma FetchDetail(site: Site, name: string, input: RequestInfo, request: Task<Response>,
                    onResponse: Option<Response -> Metadata>, clock: nat)
    ensures var rs := Records(site, FetchTask(name, input, request, onResponse), clock);
      var d := rs[|rs| - 1].detail;
      && ParentField(d) == ParentName(site, name)
      && (Result(request).Ok? ==>
            forall k :: k != "parent" ==>
              (k in d <==> k in OnResponseOf(onResponse)(Result(request).value))
              && (k in d ==> d[k] == OnResponseOf(onResponse)(Result(request).value)[k]))
      && (Result(request).Err? && Result(request).error.Described? ==>
            d.Keys == {"url", "error"} + (if ParentName(site, name).Some? then {"parent"} else {})
            && d["url"] == UrlOf(input) && d["error"] == Result(request).error.description)
      && (Result(request).Err? && !Result(request).error.Described? ==>
            d.Keys == {"url"} + (if ParentName(site, name).Some? then {"parent"} else {})
            && d["url"] == UrlOf(input))
  {
    OwnMeasurementLast(site, name, request, Some(map["url" := UrlOf(input)]), Some(AsOnResult(OnResponseOf(onResponse))), clock);
  }

  /** With the default `onResponse`, a response's timing keeps its status and flags exactly the 5xx ones as errors. */
  lemma FetchDefaultFlagsServerErrors(site: Site, name: string, input: RequestInfo, request: Task<Response>, clock: nat)
    requires Result(request).Ok?
    ensures var rs := Records(site, FetchTask(name, input, request, None), clock);
      var d := rs[|rs| - 1].detail;
      && "url" !in d
      && "status" in d && ParseDecimal(d["status"]) == Result(request).value.status
      && ("error" in d <==> IsServerError(Result(request).value.status))
  {
    FetchDetail(site, name, input, request, None, clock);
    var _ := ErrorOn5xx(Result(request).value);
  }
}
