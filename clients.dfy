/**
 * Client configuration (client.go): the client's fields, the options that
 * set them, and `NewClient`, which applies the options in order and then
 * checks that an API key was given.
 */
module Clients {
  import opened Wrappers
  import Urls

  const GlobalAPIEndpoint: string := "https://global.frcapi.com"
  const EUAPIEndpoint: string := "https://eu.frcapi.com"
  const DefaultAPIEndpoint: string := GlobalAPIEndpoint

  /** The form field in which the widget puts its response by default. */
  const ResponseFormFieldName: string := "frc-captcha-response"

  /** The errors construction can fail with. */
  datatype ConfigError =
    | EmptyAPIEndpoint
    | EmptySiteverifyEndpoint
    | InvalidSiteverifyURL(cause: Urls.URLError)
    | MissingAPIKey

  /**
   * The option constructors of client.go, each standing for the closure it
   * returns. Closures written by the caller are outside the model.
   */
  datatype ClientOption =
    | WithAPIKey(apiKey: string)
    | WithSitekey(sitekey: string)
    | WithStrictMode(strict: bool)
    | WithAPIEndpoint(apiEndpoint: string)
    | WithSiteverifyEndpoint(siteverifyEndpoint: string)

  /** The configurable fields of a client, as a value. */
  datatype Settings = Settings(apiKey: string, sitekey: string, apiEndpoint: string, strict: bool)

  /** The fields of `&Client{APIEndpoint: defaultAPIEndpoint}`. */
  const Defaults: Settings := Settings("", "", DefaultAPIEndpoint, false)

  /** The shorthand switch of `WithAPIEndpoint`. */
  function ResolveAPIEndpoint(apiEndpoint: string): Result<string, ConfigError>
  {
    if apiEndpoint == "global" then Success(GlobalAPIEndpoint)
    else if apiEndpoint == "eu" then Success(EUAPIEndpoint)
    else if apiEndpoint == "" then Failure(EmptyAPIEndpoint)
    else Success(apiEndpoint)
  }

  /**
   * The endpoint `WithSiteverifyEndpoint` stores: shorthands go to
   * `WithAPIEndpoint`; a URL is cut to its scheme, "://" and host.
   */
  function SiteverifyAPIEndpoint(siteverifyEndpoint: string): Result<string, ConfigError>
  {
    if siteverifyEndpoint == "" then Failure(EmptySiteverifyEndpoint)
    else if siteverifyEndpoint == "global" || siteverifyEndpoint == "eu" then ResolveAPIEndpoint(siteverifyEndpoint)
    else
      match Urls.Parse(siteverifyEndpoint)
      case Failure(e) => Failure(InvalidSiteverifyURL(e))
      case Success(u) => ResolveAPIEndpoint(u.scheme + "://" + u.host)
  }

  /** What one option does to the settings: the new settings, or its error with nothing written. */
  function ApplyOption(s: Settings, opt: ClientOption): Result<Settings, ConfigError>
  {
    match opt
    case WithAPIKey(k) => Success(s.(apiKey := k))
    case WithSitekey(k) => Success(s.(sitekey := k))
    case WithStrictMode(b) => Success(s.(strict := b))
    case WithAPIEndpoint(e) =>
      (match ResolveAPIEndpoint(e)
       case Success(v) => Success(s.(apiEndpoint := v))
       case Failure(err) => Failure(err))
    case WithSiteverifyEndpoint(e) =>
      (match SiteverifyAPIEndpoint(e)
       case Success(v) => Success(s.(apiEndpoint := v))
       case Failure(err) => Failure(err))
  }

  /** The options applied left to right, stopping at the first error. */
  function ApplyAll(s: Settings, opts: seq<ClientOption>): Result<Settings, ConfigError>
    decreases |opts|
  {
    if opts == [] then Success(s)
    else
      match ApplyOption(s, opts[0])
      case Failure(e) => Failure(e)
      case Success(t) => ApplyAll(t, opts[1..])
  }

  /** What `NewClient(opts...)` yields: the option loop from the defaults, then the API key check. */
  function Build(opts: seq<ClientOption>): Result<Settings, ConfigError>
  {
    match ApplyAll(Defaults, opts)
    case Failure(e) => Failure(e)
    case Success(s) => if s.apiKey == "" then Failure(MissingAPIKey) else Success(s)
  }

  /** A Friendly Captcha client; the fields an option may write. */
  class Client {
    var apiKey: string
    var sitekey: string
    var apiEndpoint: string
    var strict: bool

    function View(): Settings
      reads this
    {
      Settings(apiKey, sitekey, apiEndpoint, strict)
    }

    /** `&Client{APIEndpoint: defaultAPIEndpoint}` */
    constructor ()
      ensures View() == Defaults
    {
      apiKey, sitekey, apiEndpoint, strict := "", "", DefaultAPIEndpoint, false;
    }

    method SetAPIKey(k: string)
      modifies this
      ensures View() == old(View()).(apiKey := k)
    {
      apiKey := k;
    }

    method SetSitekey(k: string)
      modifies this
      ensures View() == old(View()).(sitekey := k)
    {
      sitekey := k;
    }

    method SetStrictMode(b: bool)
      modifies this
      ensures View() == old(View()).(strict := b)
    {
      strict := b;
    }

    /** The closure of `WithAPIEndpoint(e)`. */
    method SetAPIEndpoint(e: string) returns (err: Option<ConfigError>)
      modifies this
      ensures ResolveAPIEndpoint(e).Success? ==> err == None && View() == old(View()).(apiEndpoint := ResolveAPIEndpoint(e).value)
      ensures ResolveAPIEndpoint(e).Failure? ==> err == Some(ResolveAPIEndpoint(e).error) && View() == old(View())
    {
      var endpoint := e;
      if endpoint == "global" {
        endpoint := GlobalAPIEndpoint;
      } else if endpoint == "eu" {
        endpoint := EUAPIEndpoint;
      } else if endpoint == "" {
        return Some(EmptyAPIEndpoint);
      }
      apiEndpoint := endpoint;
      err := None;
    }

    /** The closure of `WithSiteverifyEndpoint(e)`. */
    method SetSiteverifyEndpoint(e: string) returns (err: Option<ConfigError>)
      modifies this
      ensures SiteverifyAPIEndpoint(e).Success? ==> err == None && View() == old(View()).(apiEndpoint := SiteverifyAPIEndpoint(e).value)
      ensures SiteverifyAPIEndpoint(e).Failure? ==> err == Some(SiteverifyAPIEndpoint(e).error) && View() == old(View())
    {
      if e == "" {
        return Some(EmptySiteverifyEndpoint);
      }
      if e == "global" || e == "eu" {
        err := SetAPIEndpoint(e);
        return;
      }
      var u := Urls.Parse(e);
      if u.Failure? {
        return Some(InvalidSiteverifyURL(u.error));
      }
      var endpoint := u.value.scheme + "://" + u.value.host;
      err := SetAPIEndpoint(endpoint);
    }

    /** Calls the closure `opt` on this client. */
    method Apply(opt: ClientOption) returns (err: Option<ConfigError>)
      modifies this
      ensures ApplyOption(old(View()), opt).Success? ==> err == None && View() == ApplyOption(old(View()), opt).value
      ensures ApplyOption(old(View()), opt).Failure? ==> err == Some(ApplyOption(old(View()), opt).error) && View() == old(View())
    {
      match opt
      case WithAPIKey(k) => SetAPIKey(k); err := None;
      case WithSitekey(k) => SetSitekey(k); err := None;
      case WithStrictMode(b) => SetStrictMode(b); err := None;
      case WithAPIEndpoint(e) => err := SetAPIEndpoint(e);
      case WithSiteverifyEndpoint(e) => err := SetSiteverifyEndpoint(e);
    }
  }

  /**
   * `NewClient(opts...)`: a client exactly when `Build(opts)` succeeds,
   * holding the settings it describes; otherwise no client and `Build`'s error.
   */
  method NewClient(opts: seq<ClientOption>) returns (c: Client?, err: Option<ConfigError>)
    ensures Build(opts).Success? ==> c != null && err == None && c.View() == Build(opts).value
    ensures c != null ==> fresh(c)
    ensures Build(opts).Failure? ==> c == null && err == Some(Build(opts).error)
  {
    var cl := new Client();
    for i := 0 to |opts|
      invariant ApplyAll(Defaults, opts[..i]) == Success(cl.View())
    {
      var e := cl.Apply(opts[i]);
      ApplyAllAppend(Defaults, opts[..i], [opts[i]]);
      assert opts[..i] + [opts[i]] == opts[..i + 1];
      if e.Some? {
        ApplyAllAppend(Defaults, opts[..i + 1], opts[i + 1..]);
        assert opts[..i + 1] + opts[i + 1..] == opts;
        return null, e;
      }
    }
    assert opts[..|opts|] == opts;
    if cl.apiKey == "" {
      return null, Some(MissingAPIKey);
    }
    return cl, None;
  }

  /** Applying `xs + ys` is applying `xs`, then `ys` to what `xs` produced, unless `xs` failed. */
  lemma {:induction false} ApplyAllAppend(s: Settings, xs: seq<ClientOption>, ys: seq<ClientOption>)
    ensures ApplyAll(s, xs + ys) ==
      match ApplyAll(s, xs)
      case Failure(e) => Failure(e)
      case Success(t) => ApplyAll(t, ys)
    decreases |xs|
  {
    if xs == [] {
      assert xs + ys == ys;
    } else {
      assert (xs + ys)[0] == xs[0];
      assert (xs + ys)[1..] == xs[1..] + ys;
      match ApplyOption(s, xs[0])
      case Failure(e) =>
      case Success(t) => ApplyAllAppend(t, xs[1..], ys);
    }
  }

  /** The field of `Settings` each option writes. */
  datatype Field = APIKeyField | SitekeyField | APIEndpointField | StrictField

  function FieldOf(opt: ClientOption): Field
  {
    match opt
    case WithAPIKey(_) => APIKeyField
    case WithSitekey(_) => SitekeyField
    case WithStrictMode(_) => StrictField
    case WithAPIEndpoint(_) => APIEndpointField
    case WithSiteverifyEndpoint(_) => APIEndpointField
  }

  /** `s` and `t` hold the same value in field `f`. */
  predicate Agree(f: Field, s: Settings, t: Settings)
  {
    match f
    case APIKeyField => s.apiKey == t.apiKey
    case SitekeyField => s.sitekey == t.sitekey
    case APIEndpointField => s.apiEndpoint == t.apiEndpoint
    case StrictField => s.strict == t.strict
  }

  lemma ResolveAPIEndpointCases(e: string)
    ensures ResolveAPIEndpoint(e).Failure? <==> e == ""
    ensures ResolveAPIEndpoint("global") == Success("https://global.frcapi.com")
    ensures ResolveAPIEndpoint("eu") == Success("https://eu.frcapi.com")
    ensures e != "global" && e != "eu" && e != "" ==> ResolveAPIEndpoint(e) == Success(e)
    ensures ResolveAPIEndpoint(e).Success? ==> ResolveAPIEndpoint(e).value != ""
  {
  }

  /** Resolving an endpoint that is already resolved changes nothing. */
  lemma ResolveAPIEndpointIdempotent(e: string)
    requires ResolveAPIEndpoint(e).Success?
    ensures ResolveAPIEndpoint(ResolveAPIEndpoint(e).value) == ResolveAPIEndpoint(e)
  {
    assert GlobalAPIEndpoint != "global" && GlobalAPIEndpoint != "eu";
    assert EUAPIEndpoint != "global" && EUAPIEndpoint != "eu";
  }

  /** A string with "://" at position `k` is no shorthand and not empty. */
  lemma NotShorthand(x: string, k: nat)
    requires k + 3 <= |x| && x[k..k + 3] == "://"
    ensures x != "" && x != "global" && x != "eu"
  {
    assert x[k] == ':';
    assert forall j :: 0 <= j < |"global"| ==> "global"[j] != ':';
    assert forall j :: 0 <= j < |"eu"| ==> "eu"[j] != ':';
  }

  lemma SiteverifyAPIEndpointCases(e: string)
    ensures e == "" ==> SiteverifyAPIEndpoint(e) == Failure(EmptySiteverifyEndpoint)
    ensures e == "global" || e == "eu" ==> SiteverifyAPIEndpoint(e) == ResolveAPIEndpoint(e)
    ensures e != "" && e != "global" && e != "eu" ==>
      match Urls.Parse(e)
      case Failure(err) => SiteverifyAPIEndpoint(e) == Failure(InvalidSiteverifyURL(err))
      case Success(u) => SiteverifyAPIEndpoint(e) == Success(u.scheme + "://" + u.host)
  {
    if e != "" && e != "global" && e != "eu" && Urls.Parse(e).Success? {
      var u := Urls.Parse(e).value;
      var x := u.scheme + "://" + u.host;
      assert x[|u.scheme|..|u.scheme| + 3] == "://";
      NotShorthand(x, |u.scheme|);
    }
  }

  /** The deprecated option strips the path (and query and fragment) of a `scheme://host/path` URL. */
  lemma SiteverifyStripsPath(scheme: string, host: string, path: string)
    requires Urls.IsScheme(scheme) && Urls.IsPlainHost(host) && Urls.IsPlainPath(path)
    ensures SiteverifyAPIEndpoint(scheme + "://" + host + path) == Success(Urls.ToLower(scheme) + "://" + host)
  {
    var e := scheme + "://" + host + path;
    assert e[|scheme|..|scheme| + 3] == "://";
    NotShorthand(e, |scheme|);
    Urls.ParseSchemeHostPath(scheme, host, path);
    SiteverifyAPIEndpointCases(e);
  }

  /** A successful endpoint option never stores the empty string. */
  lemma EndpointOptionsNonEmpty(e: string)
    ensures ResolveAPIEndpoint(e).Success? ==> ResolveAPIEndpoint(e).value != ""
    ensures SiteverifyAPIEndpoint(e).Success? ==> SiteverifyAPIEndpoint(e).value != ""
  {
    SiteverifyAPIEndpointCases(e);
  }

  /** `WithAPIKey`, `WithSitekey` and `WithStrictMode` never fail and write only their own field. */
  lemma SettersNeverFail(s: Settings, opt: ClientOption)
    requires opt.WithAPIKey? || opt.WithSitekey? || opt.WithStrictMode?
    ensures ApplyOption(s, opt).Success?
    ensures opt.WithAPIKey? ==> ApplyOption(s, opt).value == s.(apiKey := opt.apiKey)
    ensures opt.WithSitekey? ==> ApplyOption(s, opt).value == s.(sitekey := opt.sitekey)
    ensures opt.WithStrictMode? ==> ApplyOption(s, opt).value == s.(strict := opt.strict)
  {
  }

  /** A failing option writes nothing; a succeeding one writes only its own field. */
  lemma OptionWritesOnlyItsField(s: Settings, opt: ClientOption, f: Field)
    requires ApplyOption(s, opt).Success? && f != FieldOf(opt)
    ensures Agree(f, s, ApplyOption(s, opt).value)
  {
  }

  /** Options that do not write `f` leave it as it was. */
  lemma {:induction false} UntouchedFieldKept(s: Settings, opts: seq<ClientOption>, f: Field)
    requires forall i :: 0 <= i < |opts| ==> FieldOf(opts[i]) != f
    requires ApplyAll(s, opts).Success?
    ensures Agree(f, s, ApplyAll(s, opts).value)
    decreases |opts|
  {
    if opts != [] {
      var t := ApplyOption(s, opts[0]).value;
      OptionWritesOnlyItsField(s, opts[0], f);
      assert forall i :: 0 <= i < |opts[1..]| ==> FieldOf(opts[1..][i]) != f by {
        forall i | 0 <= i < |opts[1..]| ensures FieldOf(opts[1..][i]) != f {
          assert opts[1..][i] == opts[i + 1];
        }
      }
      UntouchedFieldKept(t, opts[1..], f);
    }
  }

  /** The last option that writes a field decides its value. */
  lemma LastWins(s: Settings, xs: seq<ClientOption>, opt: ClientOption, ys: seq<ClientOption>)
    requires forall i :: 0 <= i < |ys| ==> FieldOf(ys[i]) != FieldOf(opt)
    requires ApplyAll(s, xs + [opt] + ys).Success?
    ensures ApplyAll(s, xs + [opt]).Success?
    ensures Agree(FieldOf(opt), ApplyAll(s, xs + [opt]).value, ApplyAll(s, xs + [opt] + ys).value)
  {
    ApplyAllAppend(s, xs + [opt], ys);
    UntouchedFieldKept(ApplyAll(s, xs + [opt]).value, ys, FieldOf(opt));
  }

  /** The first failing option decides the error; the options after it are never applied. */
  lemma FirstErrorAborts(s: Settings, xs: seq<ClientOption>, opt: ClientOption, ys: seq<ClientOption>)
    requires ApplyAll(s, xs).Success?
    requires ApplyOption(ApplyAll(s, xs).value, opt).Failure?
    ensures ApplyAll(s, xs + [opt] + ys) == Failure(ApplyOption(ApplyAll(s, xs).value, opt).error)
  {
    ApplyAllAppend(s, xs, [opt]);
    ApplyAllAppend(ApplyAll(s, xs).value, [opt], []);
    ApplyAllAppend(s, xs + [opt], ys);
  }

  /** The API endpoint is never empty once it was not. */
  lemma {:induction false} EndpointStaysNonEmpty(s: Settings, opts: seq<ClientOption>)
    requires s.apiEndpoint != "" && ApplyAll(s, opts).Success?
    ensures ApplyAll(s, opts).value.apiEndpoint != ""
    decreases |opts|
  {
    if opts != [] {
      match opts[0] {
        case WithAPIEndpoint(e) => EndpointOptionsNonEmpty(e);
        case WithSiteverifyEndpoint(e) => EndpointOptionsNonEmpty(e);
        case _ =>
      }
      EndpointStaysNonEmpty(ApplyOption(s, opts[0]).value, opts[1..]);
    }
  }

  /** A built client has an API key and an endpoint; options that leave the key empty fail construction. */
  lemma BuildChecksAPIKey(opts: seq<ClientOption>)
    ensures Build(opts).Success? ==> Build(opts).value.apiKey != "" && Build(opts).value.apiEndpoint != ""
    ensures ApplyAll(Defaults, opts).Success? && ApplyAll(Defaults, opts).value.apiKey == "" ==>
      Build(opts) == Failure(MissingAPIKey)
  {
    if ApplyAll(Defaults, opts).Success? {
      EndpointStaysNonEmpty(Defaults, opts);
    }
  }

  /** Without a `WithAPIKey` option construction always fails. */
  lemma NoAPIKeyOptionFails(opts: seq<ClientOption>)
    requires forall i :: 0 <= i < |opts| ==> FieldOf(opts[i]) != APIKeyField
    ensures Build(opts).Failure?
  {
    if ApplyAll(Defaults, opts).Success? {
      UntouchedFieldKept(Defaults, opts, APIKeyField);
    }
  }

  /** Without an endpoint option a built client uses the global endpoint. */
  lemma DefaultEndpoint(opts: seq<ClientOption>)
    requires forall i :: 0 <= i < |opts| ==> FieldOf(opts[i]) != APIEndpointField
    requires Build(opts).Success?
    ensures Build(opts).value.apiEndpoint == "https://global.frcapi.com"
  {
    UntouchedFieldKept(Defaults, opts, APIEndpointField);
  }
}
