/**
 * The plugin object itself: `register` checks the API version and the codec and
 * stores the normalised request; `run` validates the schedule and, on every firing
 * of the scheduler, runs one polling cycle (`run_once`) against the stored request.
 *
 * The clock, the network and the codec of each firing are the fields of one `Env`;
 * the scheduler's timing is not modelled, only the sequence of its firings.
 */
module Plugin {
  import opened Ruby
  import opened Requests
  import opened Schedule
  import opened Cascade
  import RequestProperties

  const ApiVersionMessage := "at the moment only Burrow API version v3 is supported."
  const CodecMessage := "this plugin needs codec to be json."

  /** What `register` leaves in `@request`, or the exception it raises. `Normalized` is
      applied to the version "v3", the only one the first check lets through. */
  function Registered(clientConfig: Value, apiVersion: Value, codecName: string, absUri: string -> bool): Result<Request> {
    if apiVersion != Str("v3") then Err(ConfigurationError(ApiVersionMessage))
    else if codecName != "json" then Err(ConfigurationError(CodecMessage))
    else Normalized(clientConfig, "v3", absUri)
  }

  /** The events that a sequence of scheduler firings pushes, one cycle per firing. */
  function Firings(envs: seq<Env>, base: Request): seq<Event>
    decreases |envs|
  {
    if envs == [] then []
    else Firings(envs[..|envs| - 1], base) + Records(CycleEmissions(envs[|envs| - 1], base))
  }

  class Burrow {
    const clientConfig: Value
    const apiVersion: Value
    const codecName: string
    const schedule: Dict
    /** `URI::DEFAULT_PARSER.regexp[:ABS_URI]`, as a predicate on strings. */
    const absUri: string -> bool
    /** `@request`: nil until `register` succeeds. */
    var request: Option<Request>

    /** Once a request is stored it is one that `validate_request!` accepts, on an
        absolute URL that ends in the API root of version v3. */
    ghost predicate Valid()
      reads this
    {
      request.Some? ==>
        && ValidateRequest(request.value, absUri) == Ok(request.value)
        && EndsWith(request.value.url, "/v3/kafka")
    }

    constructor(clientConfig: Value, apiVersion: Value, codecName: string, schedule: Dict, absUri: string -> bool)
      ensures this.clientConfig == clientConfig && this.apiVersion == apiVersion
      ensures this.codecName == codecName && this.schedule == schedule && this.absUri == absUri
      ensures request == None
      ensures Valid()
    {
      this.clientConfig := clientConfig;
      this.apiVersion := apiVersion;
      this.codecName := codecName;
      this.schedule := schedule;
      this.absUri := absUri;
      request := None;
    }

    /** `register`: the two checks, then `setup_request!`. A raise leaves `@request` as it was. */
    method Register() returns (res: Result<Request>)
      requires Valid()
      modifies this
      ensures res == Registered(clientConfig, apiVersion, codecName, absUri)
      ensures request == if res.Ok? then Some(res.value) else old(request)
      ensures Valid()
    {
      if apiVersion != Str("v3") {
        return Err(ConfigurationError(ApiVersionMessage));
      }
      if codecName != "json" {
        return Err(ConfigurationError(CodecMessage));
      }
      res := NormalizeRequest(clientConfig, "v3", absUri);
      if res.Ok? {
        RegisterOutcome(clientConfig, apiVersion, codecName, absUri);
        request := Some(res.value);
      }
    }

    /** `run_once`: one polling cycle against the stored request. */
    method RunOnce(queue: Queue, env: Env)
      requires request.Some?
      modifies queue
      ensures queue.items == old(queue.items) + Records(CycleEmissions(env, request.value))
    {
      FetchClusters(queue, env, request.value);
    }

    /** `run`: an invalid schedule raises before the scheduler exists, so nothing is
        pushed; a valid one fires `run_once` once per element of envs. */
    method Run(queue: Queue, envs: seq<Env>) returns (plan: Result<Plan>)
      requires request.Some?
      modifies queue
      ensures plan == SetupSchedule(schedule)
      ensures plan.Err? ==> queue.items == old(queue.items)
      ensures plan.Ok? ==> queue.items == old(queue.items) + Firings(envs, request.value)
    {
      plan := SetupSchedule(schedule);
      if plan.Err? {
        return;
      }
      var i := 0;
      while i < |envs|
        invariant 0 <= i <= |envs|
        invariant queue.items == old(queue.items) + Firings(envs[..i], request.value)
      {
        FiringsStep(old(queue.items), envs, request.value, i);
        RunOnce(queue, envs[i]);
        i := i + 1;
      }
      assert envs[..i] == envs;
    }
  }

  lemma EndsWithAppended(a: string, b: string)
    ensures EndsWith(a + b, b)
  {
    assert (a + b)[|a|..] == b;
  }

  /** `register` succeeds exactly when the API version is "v3", the codec is json and the
      client configuration normalises; it raises the version error first, then the codec
      error; what it stores passes `validate_request!` and ends in "/v3/kafka". */
  lemma RegisterOutcome(clientConfig: Value, apiVersion: Value, codecName: string, absUri: string -> bool)
    ensures var r := Registered(clientConfig, apiVersion, codecName, absUri);
            && (r.Ok? <==> apiVersion == Str("v3") && codecName == "json" && Normalized(clientConfig, "v3", absUri).Ok?)
            && (apiVersion != Str("v3") ==> r == Err(ConfigurationError(ApiVersionMessage)))
            && (apiVersion == Str("v3") && codecName != "json" ==> r == Err(ConfigurationError(CodecMessage)))
            && (r.Ok? ==> ValidateRequest(r.value, absUri) == r && absUri(r.value.url) && EndsWith(r.value.url, "/v3/kafka"))
  {
    if Registered(clientConfig, apiVersion, codecName, absUri).Ok? {
      RequestProperties.NormalizedRevalidates(clientConfig, "v3", absUri);
      RegisteredUrl(clientConfig, absUri);
    }
  }

  lemma RegisteredUrl(clientConfig: Value, absUri: string -> bool)
    requires Normalized(clientConfig, "v3", absUri).Ok?
    ensures EndsWith(Normalized(clientConfig, "v3", absUri).value.url, "/v3/kafka")
  {
    RequestProperties.NormalizedUrl(clientConfig, "v3", absUri);
    var url := Normalized(clientConfig, "v3", absUri).value.url;
    var s: string :| url == s + "/" + "v3" + "/kafka";
    VersionedRoot(s);
  }

  lemma VersionedRoot(s: string)
    ensures EndsWith(s + "/" + "v3" + "/kafka", "/v3/kafka")
  {
    assert s + "/" + "v3" + "/kafka" == s + "/v3/kafka";
    EndsWithAppended(s, "/v3/kafka");
  }

  /** One more firing: the queue before the run, then the events of the longer prefix. */
  lemma FiringsStep(before: seq<Event>, envs: seq<Env>, base: Request, i: nat)
    requires i < |envs|
    ensures before + Firings(envs[..i + 1], base) ==
            (before + Firings(envs[..i], base)) + Records(CycleEmissions(envs[i], base))
  {
    assert envs[..i + 1][..i] == envs[..i];
  }

  /** Firings append: the events of a run are the events of its first firings followed
      by those of the rest. */
  lemma {:induction false} FiringsAppend(a: seq<Env>, b: seq<Env>, base: Request)
    ensures Firings(a + b, base) == Firings(a, base) + Firings(b, base)
    decreases |b|
  {
    if b == [] {
      assert a + b == a;
    } else {
      var b' := b[..|b| - 1];
      var last := Records(CycleEmissions(b[|b| - 1], base));
      assert (a + b)[..|a + b| - 1] == a + b';
      assert (a + b)[|a + b| - 1] == b[|b| - 1];
      assert Firings(a + b, base) == Firings(a + b', base) + last;
      FiringsAppend(a, b', base);
      FiringsStep(Firings(a, base), b, base, |b| - 1);
      assert b[..|b|] == b;
    }
  }

  /** A default-configured plugin (`{"url" => "http://localhost:8000"}`, version v3,
      the json codec) registers the API root of that host with an empty option bag. */
  lemma DefaultConfigRegisters(absUri: string -> bool)
    requires absUri("http://localhost:8000") && absUri("http://localhost:8000/v3/kafka")
    ensures Registered(Hash([(StringKey("url"), Str("http://localhost:8000"))]), Str("v3"), "json", absUri) ==
            Ok(Request("http://localhost:8000/v3/kafka", Some([])))
  {
    RequestProperties.UrlHashNormalized(absUri);
  }
}
