/**
 * Request normalisation: the plugin's `client_config` (a URL string or a hash with
 * `url`, `headers`, `auth`, `user`, `password`, ...) becomes a request `[url, spec]`
 * whose URL carries the Burrow API path and whose option bag is what the HTTP client
 * expects. Also the second validation pass and the flattened view of a request that
 * failure records carry.
 *
 * The absolute-URI grammar of Ruby's URI parser is not modelled: every operation takes
 * it as a predicate `absUri`.
 */
module Requests {
  import opened Ruby

  /** `[url]` (spec = None) or `[url, spec]`. */
  datatype Request = Request(url: string, spec: Option<Dict>)

  const ApiSuffix: string := "/kafka"

  // The messages of the configuration errors (interpolated values left out).
  const MissingUserMessage: string := "Auth was specified, but 'user' was not!"
  const MissingPasswordMessage: string := "Auth was specified, but 'password' was not!"
  const UnsupportedSpecMessage: string := "Invalid URL or request spec, expected a String or Hash"
  const IncompleteCredentialsMessage: string := "'user' and 'password' must both be specified"
  const InvalidUrlMessage: string := "Invalid URL"

  /** The auth options the HTTP client wants: `{user: u, pass: p, eager: true}`. */
  function AuthBlock(user: Value, pass: Value): Value {
    Hash([(SymbolKey("user"), user), (SymbolKey("pass"), pass), (SymbolKey("eager"), Bool(true))])
  }

  /** `spec[:auth]` of a request, nil when the request has no spec. */
  function AuthOf(spec: Option<Dict>): Value {
    match spec
    case None => Nil
    case Some(d) => Fetch(d, SymbolKey("auth"))
  }

  /** What the second validation pass accepts about the auth options: none, or a hash
      with a truthy `:user` and a truthy `:pass`. */
  predicate AuthAccepted(spec: Option<Dict>) {
    var auth := AuthOf(spec);
    !Truthy(auth) ||
    (auth.Hash? && Truthy(Fetch(auth.entries, SymbolKey("user"))) && Truthy(Fetch(auth.entries, SymbolKey("pass"))))
  }

  /** `validate_request!`: re-checks the URL and the auth options, and returns the
      request unchanged when both are acceptable. */
  function ValidateRequest(req: Request, absUri: string -> bool): (r: Result<Request>)
    ensures r.Ok? <==> absUri(req.url) && AuthAccepted(req.spec)
    ensures r.Ok? ==> r.value == req
    ensures !absUri(req.url) ==> r.Err? && r.error.ConfigurationError?
    ensures r.Err? && AuthOf(req.spec).Hash? ==> r.error.ConfigurationError?
  {
    if !absUri(req.url) then Err(ConfigurationError(InvalidUrlMessage))
    else
      var auth := AuthOf(req.spec);
      if !Truthy(auth) then Ok(req)
      else match Index(auth, SymbolKey("user"))
        case Err(e) => Err(e)
        case Ok(user) =>
          if !Truthy(user) then Err(ConfigurationError(MissingUserMessage))
          else match Index(auth, SymbolKey("pass"))
            case Err(e) => Err(e)
            case Ok(pass) =>
              if !Truthy(pass) then Err(ConfigurationError(MissingPasswordMessage))
              else Ok(req)
  }

  /** `spec.delete(:name) || (auth && auth["name"])` on the symbolised spec: the
      top-level credential, else the one inside a string-keyed `auth`. */
  function Credential(spec: Dict, auth: Value, name: string): Result<Value> {
    var explicit := Fetch(spec, SymbolKey(name));
    if Truthy(explicit) then Ok(explicit)
    else if !Truthy(auth) then Ok(auth)
    else Index(auth, StringKey(name))
  }

  /** The keys `normalize_request` removes from the option bag. */
  predicate Dropped(k: Key) {
    k == SymbolKey("method") || k == SymbolKey("url") || k == SymbolKey("user") || k == SymbolKey("password")
  }

  /** The option bag after normalisation. */
  function OptionBag(spec: Dict, user: Value, password: Value): Dict {
    var bag := Delete(Delete(Delete(Delete(spec, SymbolKey("method")), SymbolKey("url")), SymbolKey("user")), SymbolKey("password"));
    if Truthy(user) && Truthy(password) then Put(bag, SymbolKey("auth"), AuthBlock(user, password)) else bag
  }

  /** The URL of a normalised request: `url + "/" + api_version + "/kafka"`. A URL that
      already ends in "/" makes the source add nil to a String, which raises. */
  function Versioned(url: string, apiVersion: string): Result<string> {
    if EndsWith(url, "/") then Err(TypeError) else Ok(url + "/" + apiVersion + ApiSuffix)
  }

  /** `normalize_request` as a function of its input: the specification that the
      method NormalizeRequest is proved against. */
  function Normalized(clientSpec: Value, apiVersion: string, absUri: string -> bool): Result<Request> {
    match clientSpec
    case Str(s) =>
      (match Versioned(s, apiVersion)
       case Err(e) => Err(e)
       case Ok(u) => ValidateRequest(Request(u, None), absUri))
    case Hash(entries) => NormalizedHash(entries, apiVersion, absUri)
    case _ => Err(ConfigurationError(UnsupportedSpecMessage))
  }

  /** The hash branch of `normalize_request`. */
  function NormalizedHash(entries: Dict, apiVersion: string, absUri: string -> bool): Result<Request> {
    var spec := Symbolize(entries);
    var url := Fetch(spec, SymbolKey("url"));
    if !url.Nil? && !url.Str? then Err(TypeError)
    else if url.Nil? || !absUri(url.s) then Err(ConfigurationError(InvalidUrlMessage))
    else NormalizedCredentials(spec, url.s, apiVersion, absUri)
  }

  /** The rest of the hash branch, once the URL has passed: the credentials, the option
      bag and the versioned URL. */
  function NormalizedCredentials(spec: Dict, url: string, apiVersion: string, absUri: string -> bool): Result<Request> {
      var auth := Fetch(spec, SymbolKey("auth"));
      match Credential(spec, auth, "user")
      case Err(e) => Err(e)
      case Ok(user) =>
        match Credential(spec, auth, "password")
        case Err(e) => Err(e)
        case Ok(password) =>
          if user.Nil? != password.Nil? then
            Err(ConfigurationError(IncompleteCredentialsMessage))
          else
            match Versioned(url, apiVersion)
            case Err(e) => Err(e)
            case Ok(u) => ValidateRequest(Request(u, Some(OptionBag(spec, user, password))), absUri)
  }

  /** `normalize_request`: symbolises a copy of the hash and deletes from and stores
      into it step by step. */
  method NormalizeRequest(clientSpec: Value, apiVersion: string, absUri: string -> bool)
    returns (res: Result<Request>)
    ensures res == Normalized(clientSpec, apiVersion, absUri)
  {
    if clientSpec.Str? {
      var s := clientSpec.s;
      if EndsWith(s, "/") {
        return Err(TypeError);
      }
      var url := s + "/" + apiVersion + ApiSuffix;
      res := ValidateRequest(Request(url, None), absUri);
    } else if clientSpec.Hash? {
      res := NormalizeHash(clientSpec.entries, apiVersion, absUri);
    } else {
      res := Err(ConfigurationError(UnsupportedSpecMessage));
    }
  }

  /** The hash branch of `normalize_request`. */
  method NormalizeHash(entries: Dict, apiVersion: string, absUri: string -> bool) returns (res: Result<Request>)
    ensures res == NormalizedHash(entries, apiVersion, absUri)
  {
    var spec := Symbolize(entries);
    ghost var symbolised := spec;
    spec := Delete(spec, SymbolKey("method"));
    var url := Fetch(spec, SymbolKey("url"));
    assert url == Fetch(symbolised, SymbolKey("url"));
    spec := Delete(spec, SymbolKey("url"));
    if !url.Nil? && !url.Str? {
      return Err(TypeError);
    }
    if url.Nil? || !absUri(url.s) {
      return Err(ConfigurationError(InvalidUrlMessage));
    }
    res := NormalizeCredentials(spec, symbolised, url.s, apiVersion, absUri);
  }

  /** The credentials part of the hash branch, on the spec without `:method` and `:url`. */
  method NormalizeCredentials(spec: Dict, ghost symbolised: Dict, url: string, apiVersion: string, absUri: string -> bool)
    returns (res: Result<Request>)
    requires spec == Delete(Delete(symbolised, SymbolKey("method")), SymbolKey("url"))
    ensures res == NormalizedCredentials(symbolised, url, apiVersion, absUri)
  {
    var spec := spec;
    var auth := Fetch(spec, SymbolKey("auth"));
    assert auth == Fetch(symbolised, SymbolKey("auth"));
    var user, password;
    assert Fetch(spec, SymbolKey("user")) == Fetch(symbolised, SymbolKey("user"));
    spec, user := TakeCredential(spec, auth, "user");
    assert Credential(symbolised, auth, "user") == user;
    if user.Err? {
      return Err(user.error);
    }
    assert Fetch(spec, SymbolKey("password")) == Fetch(symbolised, SymbolKey("password"));
    spec, password := TakeCredential(spec, auth, "password");
    assert Credential(symbolised, auth, "password") == password;
    if password.Err? {
      return Err(password.error);
    }
    if user.value.Nil? != password.value.Nil? {
      return Err(ConfigurationError(IncompleteCredentialsMessage));
    }
    if Truthy(user.value) && Truthy(password.value) {
      spec := Put(spec, SymbolKey("auth"), AuthBlock(user.value, password.value));
    }
    assert spec == OptionBag(symbolised, user.value, password.value);
    if EndsWith(url, "/") {
      return Err(TypeError);
    }
    res := ValidateRequest(Request(url + "/" + apiVersion + ApiSuffix, Some(spec)), absUri);
  }

  /** `spec.delete(:name) || (auth && auth["name"])`: removes the top-level credential
      from the spec and falls back to the one inside `auth`. */
  method TakeCredential(spec: Dict, auth: Value, name: string) returns (rest: Dict, cred: Result<Value>)
    ensures rest == Delete(spec, SymbolKey(name))
    ensures cred == Credential(spec, auth, name)
  {
    var explicit := Fetch(spec, SymbolKey(name));
    rest := Delete(spec, SymbolKey(name));
    if Truthy(explicit) {
      cred := Ok(explicit);
    } else if Truthy(auth) {
      cred := Index(auth, StringKey(name));
    } else {
      cred := Ok(auth);
    }
  }

  /** The spec of a request, `{}` when it has none. */
  function SpecOrEmpty(req: Request): Dict {
    match req.spec
    case None => []
    case Some(d) => d
  }

  /** `structure_request`: the spec merged with `"url" => url`, every key turned into a
      string. */
  function StructureRequest(req: Request): (r: Dict)
    ensures forall k :: HasKey(r, k) ==> k.StringKey?
    ensures Distinct(SpecOrEmpty(req)) && !HasKey(SpecOrEmpty(req), SymbolKey("url")) ==>
              Get(r, StringKey("url")) == Some(Str(req.url))
    ensures forall n :: n != "url" ==> Get(r, StringKey(n)) == LastNamed(SpecOrEmpty(req), n)
  {
    var spec := SpecOrEmpty(req);
    var merged := Put(spec, StringKey("url"), Str(req.url));
    assert forall n :: n != "url" ==> LastNamed(merged, n) == LastNamed(spec, n) by {
      forall n | n != "url" ensures LastNamed(merged, n) == LastNamed(spec, n) {
        LastNamedPutOther(spec, StringKey("url"), Str(req.url), n);
      }
    }
    assert Distinct(spec) && !HasKey(spec, SymbolKey("url")) ==> LastNamed(merged, "url") == Some(Str(req.url)) by {
      if Distinct(spec) && !HasKey(spec, SymbolKey("url")) {
        LastNamedPutSame(spec, StringKey("url"), Str(req.url));
      }
    }
    Stringify(merged)
  }
}

module RequestProperties {
  import opened Ruby
  import opened Requests

  /** A credential as `normalize_request` derives it from the configuration hash. */
  function CredentialOf(entries: Dict, name: string): Result<Value> {
    var spec := Symbolize(entries);
    Credential(spec, Fetch(spec, SymbolKey("auth")), name)
  }

  /** The structured request is a hash: no key occurs twice. */
  lemma StructuredRequestDistinct(req: Request)
    ensures Distinct(StructureRequest(req))
  {
  }

  /** A URL string gets "/", the API version and "/kafka" appended; one that already
      ends in "/" raises, and the result must still pass the URI check. */
  lemma StringSpecNormalized(s: string, apiVersion: string, absUri: string -> bool)
    ensures var full := s + "/" + apiVersion + "/kafka";
            var r := Normalized(Str(s), apiVersion, absUri);
            && (EndsWith(s, "/") ==> r == Err(TypeError))
            && (!EndsWith(s, "/") && absUri(full) ==> r == Ok(Request(full, None)))
            && (!EndsWith(s, "/") && !absUri(full) ==> r.Err? && r.error.ConfigurationError?)
  {
  }

  /** Every successful normalisation yields an absolute URL made of the configured URL
      (the later of a "url" and a :url entry), "/", the API version and "/kafka". */
  lemma NormalizedUrl(cs: Value, apiVersion: string, absUri: string -> bool)
    requires Normalized(cs, apiVersion, absUri).Ok?
    ensures var req := Normalized(cs, apiVersion, absUri).value;
            && absUri(req.url)
            && (cs.Str? || cs.Hash?)
            && (cs.Str? ==> !EndsWith(cs.s, "/") && req == Request(cs.s + "/" + apiVersion + "/kafka", None))
            && (cs.Hash? ==>
                  var url := LastNamed(cs.entries, "url");
                  && url.Some? && url.value.Str? && absUri(url.value.s) && !EndsWith(url.value.s, "/")
                  && req.url == url.value.s + "/" + apiVersion + "/kafka"
                  && req.spec.Some?)
  {
    if cs.Hash? {
      FetchSymbolized(cs.entries, "url");
    }
  }

  /** A configuration that is neither a String nor a Hash (nil included) is a
      configuration error. */
  lemma UnsupportedSpecRejected(cs: Value, apiVersion: string, absUri: string -> bool)
    requires !cs.Str? && !cs.Hash?
    ensures Normalized(cs, apiVersion, absUri).Err?
    ensures Normalized(cs, apiVersion, absUri).error.ConfigurationError?
  {
  }

  /** A hash whose URL is missing, nil or not absolute is a configuration error; a URL
      that is not a String at all makes the regexp match raise. */
  lemma HashUrlChecked(entries: Dict, apiVersion: string, absUri: string -> bool)
    ensures var url := LastNamed(entries, "url");
            var r := Normalized(Hash(entries), apiVersion, absUri);
            && (url.None? || url.value == Nil || (url.value.Str? && !absUri(url.value.s)) ==>
                  r.Err? && r.error.ConfigurationError?)
            && (url.Some? && !url.value.Nil? && !url.value.Str? ==> r == Err(TypeError))
  {
    FetchSymbolized(entries, "url");
  }

  /** With a valid URL, a user without a password or a password without a user is a
      configuration error. */
  lemma IncompleteCredentialsRejected(entries: Dict, apiVersion: string, absUri: string -> bool)
    requires var url := LastNamed(entries, "url"); url.Some? && url.value.Str? && absUri(url.value.s)
    requires CredentialOf(entries, "user").Ok? && CredentialOf(entries, "password").Ok?
    requires CredentialOf(entries, "user").value.Nil? != CredentialOf(entries, "password").value.Nil?
    ensures Normalized(Hash(entries), apiVersion, absUri).Err?
    ensures Normalized(Hash(entries), apiVersion, absUri).error.ConfigurationError?
  {
    FetchSymbolized(entries, "url");
  }

  /** The removed keys are gone from the option bag, every other key is as it was, and
      the auth block replaces `auth` when both credentials are truthy. */
  lemma OptionBagShape(spec: Dict, user: Value, password: Value)
    ensures var bag := OptionBag(spec, user, password);
            && (forall k :: Dropped(k) ==> !HasKey(bag, k))
            && (forall k :: !Dropped(k) && k != SymbolKey("auth") ==> Get(bag, k) == Get(spec, k))
            && Get(bag, SymbolKey("auth")) ==
                 if Truthy(user) && Truthy(password) then Some(AuthBlock(user, password)) else Get(spec, SymbolKey("auth"))
  {
    var d4 := Delete(Delete(Delete(Delete(spec, SymbolKey("method")), SymbolKey("url")), SymbolKey("user")), SymbolKey("password"));
    assert forall k: Key :: Get(d4, k) == if Dropped(k) then None else Get(spec, k);
  }

  lemma OptionBagKeepsDistinct(spec: Dict, user: Value, password: Value)
    requires Distinct(spec)
    ensures Distinct(OptionBag(spec, user, password))
  {
    var d1 := Delete(spec, SymbolKey("method"));
    var d2 := Delete(d1, SymbolKey("url"));
    var d3 := Delete(d2, SymbolKey("user"));
    DeleteKeepsDistinct(spec, SymbolKey("method"));
    DeleteKeepsDistinct(d1, SymbolKey("url"));
    DeleteKeepsDistinct(d2, SymbolKey("user"));
    DeleteKeepsDistinct(d3, SymbolKey("password"));
    PutKeepsDistinct(Delete(d3, SymbolKey("password")), SymbolKey("auth"), AuthBlock(user, password));
  }

  /** A normalised hash carries the option bag of its symbolised spec and of its two
      credentials. */
  lemma NormalizedBag(entries: Dict, apiVersion: string, absUri: string -> bool)
    requires Normalized(Hash(entries), apiVersion, absUri).Ok?
    ensures CredentialOf(entries, "user").Ok? && CredentialOf(entries, "password").Ok?
    ensures Normalized(Hash(entries), apiVersion, absUri).value.spec ==
              Some(OptionBag(Symbolize(entries), CredentialOf(entries, "user").value, CredentialOf(entries, "password").value))
  {
    var spec := Symbolize(entries);
    var url := Fetch(spec, SymbolKey("url"));
    assert url.Str?;
    assert Normalized(Hash(entries), apiVersion, absUri) == NormalizedCredentials(spec, url.s, apiVersion, absUri);
    CredentialsBag(spec, url.s, apiVersion, absUri);
  }

  lemma CredentialsBag(spec: Dict, url: string, apiVersion: string, absUri: string -> bool)
    requires NormalizedCredentials(spec, url, apiVersion, absUri).Ok?
    ensures var auth := Fetch(spec, SymbolKey("auth"));
            && Credential(spec, auth, "user").Ok? && Credential(spec, auth, "password").Ok?
            && NormalizedCredentials(spec, url, apiVersion, absUri).value.spec ==
                 Some(OptionBag(spec, Credential(spec, auth, "user").value, Credential(spec, auth, "password").value))
  {
  }

  /** The option bag of a normalised hash: `method`, `url`, `user` and `password` are
      gone, every other key is the symbol of a configured key with that key's value,
      and `auth` holds `{user:, pass:, eager: true}` exactly when both credentials are
      truthy. */
  lemma OptionBagContents(entries: Dict, apiVersion: string, absUri: string -> bool)
    requires Normalized(Hash(entries), apiVersion, absUri).Ok?
    ensures CredentialOf(entries, "user").Ok? && CredentialOf(entries, "password").Ok?
    ensures var req := Normalized(Hash(entries), apiVersion, absUri).value;
            var user := CredentialOf(entries, "user").value;
            var password := CredentialOf(entries, "password").value;
            && req.spec.Some?
            && Distinct(req.spec.value)
            && (forall k :: Dropped(k) ==> !HasKey(req.spec.value, k))
            && (forall k :: HasKey(req.spec.value, k) ==> k.SymbolKey?)
            && (forall k :: !Dropped(k) && k.SymbolKey? && k.name != "auth" ==> Get(req.spec.value, k) == LastNamed(entries, k.name))
            && Get(req.spec.value, SymbolKey("auth")) ==
                 if Truthy(user) && Truthy(password) then Some(AuthBlock(user, password)) else LastNamed(entries, "auth")
  {
    NormalizedBag(entries, apiVersion, absUri);
    BagContents(entries, CredentialOf(entries, "user").value, CredentialOf(entries, "password").value);
  }

  /** The option bag of a configured hash and two credentials, key by key. */
  lemma BagContents(entries: Dict, user: Value, password: Value)
    ensures var bag := OptionBag(Symbolize(entries), user, password);
            && Distinct(bag)
            && (forall k :: Dropped(k) ==> !HasKey(bag, k))
            && (forall k :: HasKey(bag, k) ==> k.SymbolKey?)
            && (forall k :: !Dropped(k) && k.SymbolKey? && k.name != "auth" ==> Get(bag, k) == LastNamed(entries, k.name))
            && Get(bag, SymbolKey("auth")) ==
                 if Truthy(user) && Truthy(password) then Some(AuthBlock(user, password)) else LastNamed(entries, "auth")
  {
    var spec := Symbolize(entries);
    FetchSymbolized(entries, "auth");
    OptionBagKeepsDistinct(spec, user, password);
    OptionBagShape(spec, user, password);
    var bag := OptionBag(spec, user, password);
    forall k | HasKey(bag, k) ensures k.SymbolKey? {
      if k != SymbolKey("auth") {
        assert !Dropped(k);
        assert HasKey(spec, k);
      }
    }
  }

  /** A hash with no key is the empty hash. */
  lemma NoKeysEmpty(d: Dict)
    requires forall k :: !HasKey(d, k)
    ensures d == []
  {
    if d != [] {
      assert HasKey(d, d[0].0);
    }
  }

  /** Whatever normalisation returns passes the second validation pass unchanged. */
  lemma NormalizedRevalidates(cs: Value, apiVersion: string, absUri: string -> bool)
    requires Normalized(cs, apiVersion, absUri).Ok?
    ensures ValidateRequest(Normalized(cs, apiVersion, absUri).value, absUri) == Normalized(cs, apiVersion, absUri)
  {
  }

  /** The URL literals of the plugin's tests, with the version path appended. */
  lemma LocalhostLiterals()
    ensures "http://localhost" + "/" + "v3" + "/kafka" == "http://localhost/v3/kafka"
    ensures "http://localhost:8000" + "/" + "v3" + "/kafka" == "http://localhost:8000/v3/kafka"
    ensures !EndsWith("http://localhost", "/") && !EndsWith("http://localhost:8000", "/")
  {
  }

  /** `"http://localhost:8000"` and `"http://localhost"`, given as URL strings, normalise
      to their API root for version v3 without options. */
  lemma LocalhostVersioned(absUri: string -> bool)
    requires absUri("http://localhost:8000/v3/kafka") && absUri("http://localhost/v3/kafka")
    ensures Normalized(Str("http://localhost:8000"), "v3", absUri) == Ok(Request("http://localhost:8000/v3/kafka", None))
    ensures Normalized(Str("http://localhost"), "v3", absUri) == Ok(Request("http://localhost/v3/kafka", None))
  {
    LocalhostLiterals();
    StringSpecNormalized("http://localhost:8000", "v3", absUri);
    StringSpecNormalized("http://localhost", "v3", absUri);
  }

  /** A hash with a usable URL, consistent credentials and acceptable auth options
      normalises to the versioned URL and its option bag. */
  lemma HashAccepted(entries: Dict, apiVersion: string, absUri: string -> bool, url: string, user: Value, password: Value)
    requires LastNamed(entries, "url") == Some(Str(url))
    requires absUri(url) && !EndsWith(url, "/") && absUri(url + "/" + apiVersion + "/kafka")
    requires CredentialOf(entries, "user") == Ok(user) && CredentialOf(entries, "password") == Ok(password)
    requires user.Nil? == password.Nil?
    requires AuthAccepted(Some(OptionBag(Symbolize(entries), user, password)))
    ensures Normalized(Hash(entries), apiVersion, absUri) ==
            Ok(Request(url + "/" + apiVersion + "/kafka", Some(OptionBag(Symbolize(entries), user, password))))
  {
    var spec := Symbolize(entries);
    FetchSymbolized(entries, "url");
    assert NormalizedHash(entries, apiVersion, absUri) == NormalizedCredentials(spec, url, apiVersion, absUri);
    CredentialsAccepted(spec, url, apiVersion, absUri, user, password);
  }

  /** The step of HashAccepted after the URL check. */
  lemma CredentialsAccepted(spec: Dict, url: string, apiVersion: string, absUri: string -> bool, user: Value, password: Value)
    requires !EndsWith(url, "/") && absUri(url + "/" + apiVersion + "/kafka")
    requires Credential(spec, Fetch(spec, SymbolKey("auth")), "user") == Ok(user)
    requires Credential(spec, Fetch(spec, SymbolKey("auth")), "password") == Ok(password)
    requires user.Nil? == password.Nil?
    requires AuthAccepted(Some(OptionBag(spec, user, password)))
    ensures NormalizedCredentials(spec, url, apiVersion, absUri) ==
            Ok(Request(url + "/" + apiVersion + "/kafka", Some(OptionBag(spec, user, password))))
  {
    var bag := OptionBag(spec, user, password);
    var versioned := url + "/" + apiVersion + "/kafka";
    assert Versioned(url, apiVersion) == Ok(versioned);
    assert ValidateRequest(Request(versioned, Some(bag)), absUri) == Ok(Request(versioned, Some(bag)));
  }

  /** `{"url" => "http://localhost:8000"}` normalises to the API root of that host
      with an empty option bag. */
  lemma UrlHashNormalized(absUri: string -> bool)
    requires absUri("http://localhost:8000") && absUri("http://localhost:8000/v3/kafka")
    ensures Normalized(Hash([(StringKey("url"), Str("http://localhost:8000"))]), "v3", absUri)
            == Ok(Request("http://localhost:8000/v3/kafka", Some([])))
  {
    var entries := [(StringKey("url"), Str("http://localhost:8000"))];
    assert entries[1..] == [];
    assert forall n :: LastNamed(entries, n) == if n == "url" then Some(Str("http://localhost:8000")) else None;
    var spec := Symbolize(entries);
    assert CredentialOf(entries, "user") == Ok(Nil) by {
      assert Fetch(spec, SymbolKey("user")) == Nil && Fetch(spec, SymbolKey("auth")) == Nil;
    }
    assert CredentialOf(entries, "password") == Ok(Nil) by {
      assert Fetch(spec, SymbolKey("password")) == Nil && Fetch(spec, SymbolKey("auth")) == Nil;
    }
    var bag := OptionBag(spec, Nil, Nil);
    OptionBagShape(spec, Nil, Nil);
    forall k ensures !HasKey(bag, k) {
      if !Dropped(k) && k != SymbolKey("auth") {
        assert Get(bag, k) == Get(spec, k);
      }
    }
    NoKeysEmpty(bag);
    assert !EndsWith("http://localhost:8000", "/");
    LocalhostLiterals();
    HashAccepted(entries, "v3", absUri, "http://localhost:8000", Nil, Nil);
  }

  /** A user with a nil password is rejected. */
  lemma MissingPasswordRejected(absUri: string -> bool)
    requires absUri("http://localhost")
    ensures var entries := [(StringKey("url"), Str("http://localhost")), (StringKey("user"), Str("foo")), (StringKey("password"), Nil)];
            Normalized(Hash(entries), "v3", absUri).Err? &&
            Normalized(Hash(entries), "v3", absUri).error.ConfigurationError?
  {
    var entries := [(StringKey("url"), Str("http://localhost")), (StringKey("user"), Str("foo")), (StringKey("password"), Nil)];
    var e2 := [(StringKey("user"), Str("foo")), (StringKey("password"), Nil)];
    var e3 := [(StringKey("password"), Nil)];
    assert entries[1..] == e2 && e2[1..] == e3 && e3[1..] == [];
    assert LastNamed(entries, "url") == Some(Str("http://localhost"));
    assert LastNamed(entries, "user") == Some(Str("foo"));
    assert LastNamed(entries, "password") == Some(Nil);
    assert LastNamed(entries, "auth") == None;
    FetchSymbolized(entries, "user");
    FetchSymbolized(entries, "password");
    FetchSymbolized(entries, "auth");
    assert CredentialOf(entries, "user") == Ok(Str("foo"));
    assert CredentialOf(entries, "password") == Ok(Nil);
    IncompleteCredentialsRejected(entries, "v3", absUri);
  }

  /** `{"auth" => {"password" => "bar"}}` is rejected, and it is the missing URL that
      rejects it before the credentials are looked at. */
  lemma AuthWithoutUrlRejected(absUri: string -> bool)
    ensures var entries := [(StringKey("auth"), Hash([(StringKey("password"), Str("bar"))]))];
            Normalized(Hash(entries), "v3", absUri) == Err(ConfigurationError(InvalidUrlMessage))
  {
  }

  /** `{"url" => "http://localhost", "user" => "foo", "password" => "bar"}`. */
  function LoginConfig(): Dict {
    [(StringKey("url"), Str("http://localhost")), (StringKey("user"), Str("foo")), (StringKey("password"), Str("bar"))]
  }

  lemma LoginConfigCredentials()
    ensures LastNamed(LoginConfig(), "url") == Some(Str("http://localhost"))
    ensures LastNamed(LoginConfig(), "auth") == None
    ensures CredentialOf(LoginConfig(), "user") == Ok(Str("foo"))
    ensures CredentialOf(LoginConfig(), "password") == Ok(Str("bar"))
    ensures forall n :: n != "url" && n != "user" && n != "password" ==> LastNamed(LoginConfig(), n) == None
  {
    var entries := LoginConfig();
    var e2 := [(StringKey("user"), Str("foo")), (StringKey("password"), Str("bar"))];
    var e3 := [(StringKey("password"), Str("bar"))];
    assert entries[1..] == e2 && e2[1..] == e3 && e3[1..] == [];
    forall n ensures LastNamed(entries, n) ==
      if n == "password" then Some(Str("bar"))
      else if n == "user" then Some(Str("foo"))
      else if n == "url" then Some(Str("http://localhost"))
      else None
    {
      assert LastNamed(e3, n) == if n == "password" then Some(Str("bar")) else None;
      assert LastNamed(e2, n) == if n == "password" then Some(Str("bar")) else if n == "user" then Some(Str("foo")) else None;
    }
    FetchSymbolized(entries, "user");
    FetchSymbolized(entries, "password");
    FetchSymbolized(entries, "auth");
  }

  /** Top-level "user" and "password" become the auth block, copied verbatim, and the
      option bag holds nothing else. */
  lemma CredentialsBecomeAuthBlock(absUri: string -> bool)
    requires absUri("http://localhost") && absUri("http://localhost/v3/kafka")
    ensures var r := Normalized(Hash(LoginConfig()), "v3", absUri);
            && r.Ok?
            && r.value.url == "http://localhost/v3/kafka"
            && r.value.spec.Some?
            && forall k :: Get(r.value.spec.value, k) ==
                 if k == SymbolKey("auth") then Some(AuthBlock(Str("foo"), Str("bar"))) else None
  {
    var entries := LoginConfig();
    LoginConfigCredentials();
    var spec := Symbolize(entries);
    var bag := OptionBag(spec, Str("foo"), Str("bar"));
    OptionBagShape(spec, Str("foo"), Str("bar"));
    AuthBlockAccepted(spec, Str("foo"), Str("bar"));
    LocalhostLiterals();
    HashAccepted(entries, "v3", absUri, "http://localhost", Str("foo"), Str("bar"));
    forall k ensures Get(bag, k) == if k == SymbolKey("auth") then Some(AuthBlock(Str("foo"), Str("bar"))) else None {
      if !Dropped(k) && k != SymbolKey("auth") {
        assert Get(bag, k) == Get(spec, k);
      }
    }
  }

  /** The auth block built from two truthy credentials passes `validate_request!`. */
  lemma AuthBlockAccepted(spec: Dict, user: Value, password: Value)
    requires Truthy(user) && Truthy(password)
    ensures AuthAccepted(Some(OptionBag(spec, user, password)))
  {
    OptionBagShape(spec, user, password);
    var block := AuthBlock(user, password).entries;
    assert AuthOf(Some(OptionBag(spec, user, password))) == Hash(block);
    assert Fetch(block, SymbolKey("user")) == user;
    assert block[1..][0] == (SymbolKey("pass"), password);
    assert Get(block[1..], SymbolKey("pass")) == Some(password);
  }

  /** `structure_request(["http://example.net"])` is `{"url" => "http://example.net"}`. */
  lemma BareRequestStructured()
    ensures StructureRequest(Request("http://example.net", None)) == [(StringKey("url"), Str("http://example.net"))]
  {
  }

  /** A request with headers keeps them next to its URL. */
  lemma HeadersRequestStructured(headers: Value)
    ensures var r := StructureRequest(Request("http://example.net", Some([(StringKey("headers"), headers)])));
            forall k :: Get(r, k) ==
              if k == StringKey("url") then Some(Str("http://example.net"))
              else if k == StringKey("headers") then Some(headers)
              else None
  {
    var req := Request("http://example.net", Some([(StringKey("headers"), headers)]));
    var spec := [(StringKey("headers"), headers)];
    assert spec[1..] == [];
    assert !HasKey(spec[1..], StringKey("headers"));
    assert Get(spec, SymbolKey("url")) == None;
    assert Distinct(spec);
    assert forall n :: LastNamed(spec, n) == if n == "headers" then Some(headers) else None;
    var r := StructureRequest(req);
    forall k ensures Get(r, k) ==
      if k == StringKey("url") then Some(Str("http://example.net"))
      else if k == StringKey("headers") then Some(headers)
      else None
    {
      if k.SymbolKey? {
        assert !HasKey(r, k);
      } else if k.name != "url" {
        assert Get(r, k) == LastNamed(spec, k.name);
      }
    }
  }
}
