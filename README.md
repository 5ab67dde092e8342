# Burrow input plugin, modelled in Dafny

`LogStash::Inputs::Burrow` is a Logstash input. It polls the HTTP API of Burrow, a
Kafka consumer-lag monitor, and turns the answers into pipeline events. This project
models the plugin's core and proves properties of that model:

- **Registration** (`register`). The API version must be `"v3"` and the codec must be
  json. Then `normalize_request` turns `client_config` into a `[url, spec]` request and
  `validate_request!` checks it again. A string config gives `[url + "/v3/kafka"]`. A
  hash config gives `[url + "/v3/kafka", options]`:
  - its keys are symbolised;
  - `method`, `url`, `user` and `password` are removed;
  - top-level or string-keyed `auth` credentials become `auth: {user:, pass:, eager: true}`.
- **Schedule validation** (`setup_schedule`). The schedule hash needs exactly one key, one
  of `cron`, `every`, `at` and `in`. The `every` kind gets the option `first_in: 0.01`.
- **One poll cycle** (`run_once` and `request`). It fetches, in turn:
  1. the cluster list `<url>`;
  2. each cluster's consumer list `<url>/<cluster>/consumer`;
  3. each consumer's lag report `<url>/<cluster>/consumer/<consumer>/lag`.

  A failed GET pushes one failure event instead: it is tagged `_http_request_failure`,
  and its `http_request_failure` field holds the `structure_request` of that GET, the
  error, the backtrace and the runtime. When building or pushing that event raises,
  `handle_failure` logs the error and pushes nothing. A lag report's body is decoded, and each event
  is decorated and pushed. An empty body pushes one empty event.

Files:

- `ruby.dfy` (module `Ruby`): the Ruby values the code handles.
  - Hashes are ordered association lists, keyed by strings or symbols.
  - It also has truthiness, `[]` on the receivers a configuration can hold, and the
    exceptions raised.
- `requests.dfy`:
  - module `Requests`: `normalize_request`, `validate_request!` and `structure_request`.
  - module `RequestProperties`: what is proved about them.
- `schedule.dfy` (module `Schedule`): the schedule check of `setup_schedule`.
- `cascade.dfy` (module `Cascade`): the cycle.
  - The pipeline queue is a class, and each callback is a method that appends to it.
  - Each method is proved against a function giving the records pushed, level by level.
- `cascade_properties.dfy` (module `CascadeProperties`): the cycle restated GET by GET.
  It proves failure isolation, that decoded events come only from lag reports, and
  independence of sibling branches. It also covers the test scenarios of
  `spec/inputs/burrow_spec.rb`.
- `plugin.dfy` (module `Plugin`): the plugin object, with `register`, `run` and `run_once`.

Parameters instead of code:

- The HTTP client, the codec, `decorate`, the clock, and whether building a failure
  record raises are the fields of `Cascade.Env`.
- `URI::DEFAULT_PARSER.regexp[:ABS_URI]` is a predicate `absUri` on strings.

Where the Ruby code behaves unexpectedly, the model follows the code:

- A URL that already ends in `/` makes `url + ('/' unless url.end_with?('/'))` add nil to
  a String. That raises `TypeError` (`Requests.Versioned`), so such a URL is rejected
  rather than joined without a second slash.
- A schedule without exactly one key refers to the undefined constant
  `Logstash::ConfigurationError`. That raises `NameError`, not a configuration error.
- `url + "/" << cluster + "/consumer"` is `url/cluster/consumer`, because `+` binds
  tighter than `<<`.
- `validate_request!`'s "No URL provided" branch cannot be reached: a nil URL already
  fails the regexp match before it.
- When the nested `auth` is a String, `auth["user"]` is String#[]: the substring "user"
  if it occurs, else nil. A String `auth` given `[:user]` raises `TypeError`.
- The test "with auth enabled, a path, but no user" (`spec/inputs/burrow_spec.rb:86-91`)
  configures no URL. So it is the URL check that rejects it (`AuthWithoutUrlRejected`).
- The test "a string URL" (`spec/inputs/burrow_spec.rb:60-64`) passes the hash
  `{"url" => ...}`, not a String (`UrlHashNormalized`).

## Model

| member | source | states |
|---|---|---|
| Ruby.Put | lib/logstash/inputs/burrow.rb:89-93 | `h[k] = v`: k then holds v and every other key keeps its value. An existing key keeps its position; a new key goes last. |
| Ruby.Delete | lib/logstash/inputs/burrow.rb:70-71 | `h.delete(k)`: k is gone and every other key keeps its value. |
| Ruby.FromPairs | lib/logstash/inputs/burrow.rb:67 | `Hash[pairs]`: each key holds the value of its last pair, and no key occurs twice. |
| Ruby.Symbolize | lib/logstash/inputs/burrow.rb:67 | Symbolising the keys: only symbol keys remain. Each one holds the value of the last entry spelt that way, string or symbol. No key occurs twice. |
| Ruby.Stringify | lib/logstash/inputs/burrow.rb:276-278 | Keys turned into strings with `to_s`: only string keys remain, the later entry wins, and no key occurs twice. |
| Ruby.FetchSymbolized | lib/logstash/inputs/burrow.rb:71-82 | `spec[:name]` of the symbolised hash is the last configured value spelt `name`, or nil. |
| Ruby.Index | lib/logstash/inputs/burrow.rb:81-82 | `recv[k]`: a Hash looks k up. A String given a String returns that string exactly when it occurs in the receiver, else nil. Every other receiver raises. It succeeds exactly for those two cases. |
| Ruby.PutKeepsDistinct | lib/logstash/inputs/burrow.rb:89 | Storing into a duplicate-free hash keeps it duplicate-free. |
| Ruby.DeleteKeepsDistinct | lib/logstash/inputs/burrow.rb:70-71 | Deleting from a duplicate-free hash keeps it duplicate-free. |
| Ruby.LastNamedPutSame | lib/logstash/inputs/burrow.rb:276-277 | When k is the only key spelt k.name, storing v under k makes v the value of that spelling. |
| Ruby.LastNamedPutOther | lib/logstash/inputs/burrow.rb:276-277 | Storing under k does not change the other spellings. |
| Requests.ValidateRequest | lib/logstash/inputs/burrow.rb:106-122 | Accepts exactly when the URL is absolute and `spec[:auth]` is missing, falsy, or a hash with truthy `:user` and `:pass`. Then it returns the request unchanged. A non-absolute URL is a configuration error. So is every rejection of a hash `auth`. |
| Requests.NormalizeRequest | lib/logstash/inputs/burrow.rb:62-102 | `normalize_request`, step by step, gives exactly the result of the function `Normalized`. Its properties are the `RequestProperties` lemmas. |
| Requests.NormalizeHash | lib/logstash/inputs/burrow.rb:65-73 | The hash branch: it symbolises a copy, deletes `:method`, takes out `:url` and checks it. Then it continues as `NormalizeCredentials`. Its result equals the function `NormalizedHash`. |
| Requests.NormalizeCredentials | lib/logstash/inputs/burrow.rb:80-95 | It takes out both credentials, rejects a lone one, stores the auth block and appends the version path. Its result equals `NormalizedCredentials` of the symbolised spec. |
| Requests.TakeCredential | lib/logstash/inputs/burrow.rb:81-82 | `spec.delete(:name) \|\| (auth && auth["name"])`. It returns the spec without `:name`, and either the top-level value when truthy, or `auth` when falsy, or `auth["name"]`. |
| Requests.StructureRequest | lib/logstash/inputs/burrow.rb:273-279 | Every key is a string. Each name other than "url" holds the spec's last value spelt that way. "url" holds the request URL when the spec has no `:url` symbol. |
| RequestProperties.StructuredRequestDistinct | lib/logstash/inputs/burrow.rb:276-278 | The structured request has no key twice. |
| RequestProperties.StringSpecNormalized | lib/logstash/inputs/burrow.rb:63-64 | A String URL without a trailing slash becomes `[url + "/" + version + "/kafka"]` when that is absolute; otherwise it is a configuration error. A trailing slash raises TypeError. |
| RequestProperties.NormalizedUrl | lib/logstash/inputs/burrow.rb:63-100 | Every success came from a String or a Hash. Its URL is absolute and is the configured URL (the last entry spelt "url") followed by "/", the version and "/kafka". A hash also gives an option bag. |
| RequestProperties.UnsupportedSpecRejected | lib/logstash/inputs/burrow.rb:96-97 | A configuration that is neither a String nor a Hash (nil included) is a configuration error. |
| RequestProperties.HashUrlChecked | lib/logstash/inputs/burrow.rb:71-73 | A hash whose URL is missing, nil or not absolute is a configuration error. A URL that is something other than a String or nil raises TypeError. |
| RequestProperties.IncompleteCredentialsRejected | lib/logstash/inputs/burrow.rb:80-86 | With a valid URL, exactly one nil credential (top-level or from `auth`) is a configuration error. |
| RequestProperties.OptionBagShape | lib/logstash/inputs/burrow.rb:70-94 | The removed keys are gone from the bag and every other key keeps its value. `:auth` is the auth block exactly when both credentials are truthy. |
| RequestProperties.OptionBagKeepsDistinct | lib/logstash/inputs/burrow.rb:67-94 | The option bag of a duplicate-free hash is duplicate-free. |
| RequestProperties.NormalizedBag | lib/logstash/inputs/burrow.rb:80-95 | A successful hash normalisation has both credentials defined. Its options are the bag of the symbolised hash and those credentials. |
| RequestProperties.CredentialsBag | lib/logstash/inputs/burrow.rb:80-95 | The same statement about the part after the URL check. |
| RequestProperties.OptionBagContents | lib/logstash/inputs/burrow.rb:67-95 | A successful hash normalisation's options have no key twice, no `method`, `url`, `user` or `password`, and only symbol keys. Each other key holds the configured value of its name. `auth` is `{user:, pass:, eager: true}` exactly when both credentials are truthy, else the configured `auth`. |
| RequestProperties.BagContents | lib/logstash/inputs/burrow.rb:67-94 | The same contents, stated for the bag of any configured hash and any two credentials. |
| RequestProperties.AuthBlockAccepted | lib/logstash/inputs/burrow.rb:88-94 | The auth block built from two truthy credentials passes the auth check of `validate_request!`. |
| RequestProperties.NormalizedRevalidates | lib/logstash/inputs/burrow.rb:100 | Every successful normalisation passes `validate_request!` unchanged. |
| RequestProperties.HashAccepted | lib/logstash/inputs/burrow.rb:65-95 | These conditions give exactly `[url + "/" + version + "/kafka", bag]`: a string URL, absolute with and without the suffix and without a trailing slash; defined credentials, both nil or both not; and an acceptable auth. |
| RequestProperties.LocalhostVersioned | lib/logstash/inputs/burrow.rb:63-64 | The URL strings `"http://localhost:8000"` and `"http://localhost"` normalise to `<url>/v3/kafka` with no options, as the shared example of spec/inputs/burrow_spec.rb:53-55 expects. |
| RequestProperties.UrlHashNormalized | spec/inputs/burrow_spec.rb:53-64 | `{"url" => "http://localhost:8000"}` normalises to `"http://localhost:8000/v3/kafka"` with an empty option hash. |
| RequestProperties.MissingPasswordRejected | spec/inputs/burrow_spec.rb:78-84 | A URL and a user with a nil password is a configuration error. |
| RequestProperties.AuthWithoutUrlRejected | spec/inputs/burrow_spec.rb:86-91 | `{"auth" => {"password" => "bar"}}` is rejected with "Invalid URL". |
| RequestProperties.LoginConfigCredentials | spec/inputs/burrow_spec.rb:111 | The config with url, user "foo" and password "bar" has those credentials and no `auth`. |
| RequestProperties.CredentialsBecomeAuthBlock | spec/inputs/burrow_spec.rb:92-105 | It normalises to `http://localhost/v3/kafka`. The only option is `auth: {user: "foo", pass: "bar", eager: true}`. |
| RequestProperties.BareRequestStructured | spec/inputs/burrow_spec.rb:119-122 | `structure_request(["http://example.net"])` is `{"url" => "http://example.net"}`. |
| RequestProperties.HeadersRequestStructured | spec/inputs/burrow_spec.rb:124-133 | A request with headers structures to exactly `url` and `headers`. |
| Schedule.SetupSchedule | lib/logstash/inputs/burrow.rb:130-141 | Accepted exactly when there is one key and it is a String in `Schedule_types`. More or fewer keys raise NameError; one wrong key is a configuration error. The plan's kind and value come from that key. `first_in` is present exactly for `every` and is 0.01; the other kinds have no options. |
| Schedule.EachKindAccepted | lib/logstash/inputs/burrow.rb:33 | Each of cron, every, at and in is accepted alone, with its value and options. |
| Schedule.ScheduleKeyCountChecked | lib/logstash/inputs/burrow.rb:134 | An empty schedule and a two-key schedule are rejected. |
| Schedule.EveryScheduleStartsAtOnce | spec/inputs/burrow_spec.rb:10-12 | `{"every" => "30s"}` plans `every "30s"` with `first_in: 0.01`. |
| Schedule.SymbolKindRejected | lib/logstash/inputs/burrow.rb:137 | A symbol key spelt like a kind is a configuration error. |
| Cascade.ConsumerRequest | lib/logstash/inputs/burrow.rb:166-167 | A consumer-list GET keeps the spec. Its URL starts with the base URL and "/". |
| Cascade.LagRequest | lib/logstash/inputs/burrow.rb:175-176 | A lag GET keeps the spec. Its URL starts with its cluster's consumer URL and "/". |
| Cascade.Queue.Push | lib/logstash/inputs/burrow.rb:227 | `queue << event` appends the event. |
| Cascade.RecordsAppend | lib/logstash/inputs/burrow.rb:153-197 | The records of two emission runs are the two record runs concatenated. |
| Cascade.HandleFailure | lib/logstash/inputs/burrow.rb:240-268 | It appends exactly one event, the failure record of that request, exception and runtime. When building or pushing it raises, the error is rescued and nothing is appended. |
| Cascade.HandleDecodedEvent | lib/logstash/inputs/burrow.rb:225-235 | It appends the decorated event, or nothing when decorating raises. |
| Cascade.HandleEvents | lib/logstash/inputs/burrow.rb:206-209 | It appends the records of each yielded event in turn. |
| Cascade.HandleSuccess | lib/logstash/inputs/burrow.rb:201-214 | It appends the records of the decoded events of a usable body, or of one empty event. |
| Cascade.FetchLag | lib/logstash/inputs/burrow.rb:175-182 | It appends what one consumer's lag GET leads to. |
| Cascade.FetchLags | lib/logstash/inputs/burrow.rb:174-183 | It appends the lag branches of a consumer list, in order. |
| Cascade.FetchConsumerLists | lib/logstash/inputs/burrow.rb:171-183 | For each decoded consumer list it appends its lag branches, and nothing for a nil list. |
| Cascade.FetchConsumers | lib/logstash/inputs/burrow.rb:166-189 | It appends what one cluster's consumer-list GET leads to. |
| Cascade.FetchBranches | lib/logstash/inputs/burrow.rb:165-190 | It appends the cluster branches of a cluster list, in order. |
| Cascade.FetchClusterLists | lib/logstash/inputs/burrow.rb:162-190 | For each decoded cluster list it appends its cluster branches, and nothing for a nil list. |
| Cascade.FetchClusters | lib/logstash/inputs/burrow.rb:153-197 | `request`: it appends exactly the records of the cycle's emissions. |
| CascadeProperties.CycleCalls | lib/logstash/inputs/burrow.rb:158 | The first GET of a cycle is the cluster list. |
| CascadeProperties.LagCalls | lib/logstash/inputs/burrow.rb:174-176 | A consumer list issues one lag GET per consumer, in order. |
| CascadeProperties.CycleContributes | lib/logstash/inputs/burrow.rb:153-197 | The cycle pushes exactly the concatenation, in GET order, of each GET's own contribution. A failed GET gives its failure record (none when building it raises), a successful lag GET its decoded events, and a successful listing GET nothing. |
| CascadeProperties.ContributionsAppend | lib/logstash/inputs/burrow.rb:153-197 | Contributions of concatenated GET runs concatenate. |
| CascadeProperties.OneFailureRecordPerFailedGet | lib/logstash/inputs/burrow.rb:181-195 | The failure records of a cycle are, in order, exactly one per failed GET whose record is built without raising, each for that GET's own request. A failed GET whose record raises contributes none, and no other record is a failure record. |
| CascadeProperties.ContributionsFailures | lib/logstash/inputs/burrow.rb:181 | The same for any run of GETs. |
| CascadeProperties.DeliverHasNoFailures | lib/logstash/inputs/burrow.rb:225-227 | Decorated events are never failure records. |
| CascadeProperties.FailureRecordShape | lib/logstash/inputs/burrow.rb:241-252 | A failure record is tagged `_http_request_failure`. Its `http_request_failure` hash holds the structured request, the error message, the backtrace and the runtime. |
| CascadeProperties.OnlyLagReportsDeliver | lib/logstash/inputs/burrow.rb:176-178 | Every decoded event a cycle pushes came from some consumer's lag-report GET. |
| CascadeProperties.ContributionsDelivered | lib/logstash/inputs/burrow.rb:176-178 | The same for any run of GETs. |
| CascadeProperties.DeliverRequests | lib/logstash/inputs/burrow.rb:206-208 | Each event delivered from a body belongs to the request that fetched it. |
| CascadeProperties.ClustersAppend | lib/logstash/inputs/burrow.rb:165-190 | The branches of a cluster list are pushed one after the other. |
| CascadeProperties.BranchLocal | lib/logstash/inputs/burrow.rb:165-190 | A cluster's branch depends only on the answers for URLs under that cluster's consumer URL, so sibling clusters cannot change it. |
| CascadeProperties.LagLocal | lib/logstash/inputs/burrow.rb:174-183 | A lag branch depends only on the answers under its cluster's consumer URL. |
| CascadeProperties.EmptyListsPushNothing | lib/logstash/inputs/burrow.rb:183-190 | A nil or empty cluster or consumer list starts no GET and pushes nothing. |
| CascadeProperties.EmptyListingBodyPushesNothing | lib/logstash/inputs/burrow.rb:161-170 | A nil or empty body at either listing level starts no further GET and pushes nothing. |
| CascadeProperties.EmptyBodyYieldsOneEvent | lib/logstash/inputs/burrow.rb:210-213 | A lag report with a nil or empty body pushes exactly the decorated empty event. |
| CascadeProperties.OneClusterCycle | lib/logstash/inputs/burrow.rb:158-165 | With one cluster listed, the cycle is that cluster's branch. |
| CascadeProperties.OneConsumerBranch | lib/logstash/inputs/burrow.rb:167-174 | With one consumer listed, the branch is that consumer's lag GET. |
| CascadeProperties.ValidRequestScenario | spec/inputs/burrow_spec.rb:195-234 | With cluster "default" and consumer "console-1", the cycle issues three GETs and pushes exactly the decorated lag payload. |
| CascadeProperties.EmptyClustersScenario | spec/inputs/burrow_spec.rb:236-242 | An empty cluster list pushes nothing after the one GET. |
| CascadeProperties.EmptyConsumersScenario | spec/inputs/burrow_spec.rb:244-250 | An empty consumer list pushes nothing after the two GETs. |
| CascadeProperties.UnreachableHostScenario | spec/inputs/burrow_spec.rb:139-192 | An unreachable host gives one GET. It pushes one event, the failure record tagged `_http_request_failure`, or nothing when building that record raises. |
| Plugin.RegisterOutcome | lib/logstash/inputs/burrow.rb:35-49 | `register` succeeds exactly for version "v3", the json codec and a normalisable config. It raises the version error first, then the codec error. What it stores passes `validate_request!` and ends in "/v3/kafka". |
| Plugin.DefaultConfigRegisters | spec/inputs/burrow_spec.rb:14-21 | The default test configuration registers `http://localhost:8000/v3/kafka` with empty options. |
| Plugin.Burrow.constructor | lib/logstash/inputs/burrow.rb:18-31 | The plugin holds its configuration and no request yet. |
| Plugin.Burrow.Register | lib/logstash/inputs/burrow.rb:35-60 | It returns what `register` does. It stores the request only on success and keeps the stored request valid. |
| Plugin.Burrow.RunOnce | lib/logstash/inputs/burrow.rb:146-148 | It appends exactly the records of one cycle on the stored request. |
| Plugin.Burrow.Run | lib/logstash/inputs/burrow.rb:126-144 | The schedule is checked first. When rejected, nothing is pushed. When accepted, each firing runs one cycle in turn. |
| Plugin.FiringsAppend | lib/logstash/inputs/burrow.rb:142 | The events of consecutive firings concatenate. |

## Left out

- The HTTP client beyond the answer it gives. Requests are issued one after the other,
  in the order the callbacks run them; concurrency and any state shared between
  requests are not modelled. Status codes are not modelled: every completed response
  reaches the success callback, as it does in the source.
- The Rufus scheduler, its threads, its timing, `stop` and `Stud.stop!`. `run` is
  modelled only as the schedule check followed by a given sequence of firings.
- The JSON codec, `LogStash::Event` and `decorate`. They are functions of `Env`. A body's
  listing field is modelled only when it is nil or an array of strings.
- `Time.now`: the runtime of a failure record is `Env.elapsed` of its request, a real
  number.
- Logging, `@host` (`Socket.gethostname`) and the interpolated values in error messages.
- The grammar of `URI::DEFAULT_PARSER.regexp[:ABS_URI]`. It is a parameter.
- Exceptions raised inside a listing callback, for instance by the codec, are not
  modelled. Only two are: `decorate` raising in `handle_decoded_event`, and the rescue
  in `handle_failure`. For the latter, `Env.reportRaises` says whether building or
  pushing a failure record raises, without modelling which step raised.
- The hash operations agree with Ruby only on duplicate-free hashes. Every hash built
  here is duplicate-free.
- Requests.StructureRequest: "url" is stated only for a duplicate-free spec without a
  `:url` symbol key. With such a key Ruby keeps both spellings and the later one wins
  after `to_s`; the model does not state which.
- Schedule.SetupSchedule: takes the schedule as a hash. The default `%w(every 30s)` is an
  array that the configuration layer converts, and that conversion is not modelled.
- The configuration layer's `:validate => :hash` and `:required` checks, and the plugin
  base class.
- Plugin.Burrow.RunOnce: requires a registered request, because the pipeline runs a plugin
  only after its `register` returned.
