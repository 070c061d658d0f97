/** The cases of client_options_test.go, stated about the model of `NewClient`. */
module ClientExamples {
  import opened Wrappers
  import opened Clients
  import Urls

  const KeyOnly: Settings := Settings("test-key", "", DefaultAPIEndpoint, false)

  /** `NewClient(WithAPIKey("test-key"), opt)` holds what `opt` makes of the key-only settings. */
  lemma BuildKeyThen(opt: ClientOption)
    requires FieldOf(opt) != APIKeyField
    ensures Build([WithAPIKey("test-key"), opt]) == ApplyOption(KeyOnly, opt)
  {
    assert [opt][1..] == [];
    assert ApplyAll(KeyOnly, [opt]) == ApplyOption(KeyOnly, opt);
    assert [WithAPIKey("test-key"), opt][1..] == [opt];
    assert ApplyAll(Defaults, [WithAPIKey("test-key"), opt]) == ApplyOption(KeyOnly, opt);
  }

  lemma LastIndexOfAt(s: string, c: char, k: nat)
    requires k < |s| && s[k] == c
    requires forall j :: k < j < |s| ==> s[j] != c
    ensures Urls.LastIndexOf(s, c) == k
  {
  }

  lemma NamedHost(h: string)
    requires Urls.HostChars(h) && ':' !in h
    ensures Urls.IsPlainHost(h)
  {
  }

  lemma HostWithPort(h: string, k: nat)
    requires Urls.HostChars(h) && k < |h| && h[k] == ':'
    requires forall j :: k < j < |h| ==> Urls.IsDigit(h[j])
    ensures Urls.IsPlainHost(h)
  {
    LastIndexOfAt(h, ':', k);
  }

  /** TestWithAPIEndpoint: shorthands, full domains kept verbatim, and the empty string refused. */
  lemma WithAPIEndpointExamples()
    ensures Build([WithAPIKey("test-key"), WithAPIEndpoint("global")])
      == Success(KeyOnly.(apiEndpoint := "https://global.frcapi.com"))
    ensures Build([WithAPIKey("test-key"), WithAPIEndpoint("eu")])
      == Success(KeyOnly.(apiEndpoint := "https://eu.frcapi.com"))
    ensures Build([WithAPIKey("test-key"), WithAPIEndpoint("https://custom.example.com")])
      == Success(KeyOnly.(apiEndpoint := "https://custom.example.com"))
    ensures Build([WithAPIKey("test-key"), WithAPIEndpoint("http://localhost:1090")])
      == Success(KeyOnly.(apiEndpoint := "http://localhost:1090"))
    ensures Build([WithAPIKey("test-key"), WithAPIEndpoint("")]) == Failure(EmptyAPIEndpoint)
  {
    BuildKeyThen(WithAPIEndpoint("global"));
    BuildKeyThen(WithAPIEndpoint("eu"));
    BuildKeyThen(WithAPIEndpoint("https://custom.example.com"));
    BuildKeyThen(WithAPIEndpoint("http://localhost:1090"));
    BuildKeyThen(WithAPIEndpoint(""));
  }

  /** For a scheme already in lower case the stored endpoint is the URL's scheme, "://" and host. */
  lemma StripsPathLower(scheme: string, host: string, path: string)
    requires Urls.IsScheme(scheme) && Urls.ToLower(scheme) == scheme
    requires Urls.IsPlainHost(host) && Urls.IsPlainPath(path)
    ensures SiteverifyAPIEndpoint(scheme + "://" + host + path) == Success(scheme + "://" + host)
  {
    SiteverifyStripsPath(scheme, host, path);
  }

  // The concatenation spells the test's literal URL piece by piece.
  lemma SiteverifyGlobalPath()
    ensures SiteverifyAPIEndpoint("https" + "://" + "global.frcapi.com" + "/api/v2/captcha/siteverify") == Success("https" + "://" + "global.frcapi.com")
  {
    NamedHost("global.frcapi.com");
    StripsPathLower("https", "global.frcapi.com", "/api/v2/captcha/siteverify");
  }

  // The concatenation spells the test's literal URL piece by piece.
  lemma SiteverifyEUPath()
    ensures SiteverifyAPIEndpoint("https" + "://" + "eu.frcapi.com" + "/api/v2/captcha/siteverify") == Success("https" + "://" + "eu.frcapi.com")
  {
    NamedHost("eu.frcapi.com");
    StripsPathLower("https", "eu.frcapi.com", "/api/v2/captcha/siteverify");
  }

  // The concatenation spells the test's literal URL piece by piece.
  lemma SiteverifyCustomNoPath()
    ensures SiteverifyAPIEndpoint("https" + "://" + "custom.example.com" + "") == Success("https" + "://" + "custom.example.com")
  {
    NamedHost("custom.example.com");
    StripsPathLower("https", "custom.example.com", "");
  }

  // The concatenation spells the test's literal URL piece by piece.
  lemma SiteverifyLocalhostPath()
    ensures SiteverifyAPIEndpoint("http" + "://" + "localhost:1090" + "/api/v2/captcha/siteverify") == Success("http" + "://" + "localhost:1090")
  {
    HostWithPort("localhost:1090", 9);
    StripsPathLower("http", "localhost:1090", "/api/v2/captcha/siteverify");
  }

  // The concatenation spells the test's literal URL piece by piece.
  lemma SiteverifyLocalhostNoPath()
    ensures SiteverifyAPIEndpoint("http" + "://" + "localhost:1090" + "") == Success("http" + "://" + "localhost:1090")
  {
    HostWithPort("localhost:1090", 9);
    StripsPathLower("http", "localhost:1090", "");
  }

  // The concatenation spells the test's literal URL piece by piece.
  lemma SiteverifyPortPath()
    ensures SiteverifyAPIEndpoint("https" + "://" + "example.com:8080" + "/some/path") == Success("https" + "://" + "example.com:8080")
  {
    HostWithPort("example.com:8080", 11);
    StripsPathLower("https", "example.com:8080", "/some/path");
  }

  /**
   * TestWithSiteverifyEndpoint_Deprecated and the backward-compatibility case:
   * paths are stripped. Each concatenated URL is the test's literal.
   */
  lemma WithSiteverifyEndpointExamples()
    ensures Build([WithAPIKey("test-key"), WithSiteverifyEndpoint("global")])
      == Success(KeyOnly.(apiEndpoint := "https://global.frcapi.com"))
    ensures Build([WithAPIKey("test-key"), WithSiteverifyEndpoint("eu")])
      == Success(KeyOnly.(apiEndpoint := "https://eu.frcapi.com"))
    ensures Build([WithAPIKey("test-key"), WithSiteverifyEndpoint("https" + "://" + "global.frcapi.com" + "/api/v2/captcha/siteverify")])
      == Success(KeyOnly.(apiEndpoint := "https" + "://" + "global.frcapi.com"))
    ensures Build([WithAPIKey("test-key"), WithSiteverifyEndpoint("https" + "://" + "custom.example.com" + "")])
      == Success(KeyOnly.(apiEndpoint := "https" + "://" + "custom.example.com"))
    ensures Build([WithAPIKey("test-key"), WithSiteverifyEndpoint("http" + "://" + "localhost:1090" + "/api/v2/captcha/siteverify")])
      == Success(KeyOnly.(apiEndpoint := "http" + "://" + "localhost:1090"))
    ensures Build([WithAPIKey("test-key"), WithSiteverifyEndpoint("http" + "://" + "localhost:1090" + "")])
      == Success(KeyOnly.(apiEndpoint := "http" + "://" + "localhost:1090"))
    ensures Build([WithAPIKey("test-key"), WithSiteverifyEndpoint("https" + "://" + "example.com:8080" + "/some/path")])
      == Success(KeyOnly.(apiEndpoint := "https" + "://" + "example.com:8080"))
    ensures Build([WithAPIKey("test-key"), WithSiteverifyEndpoint("https" + "://" + "eu.frcapi.com" + "/api/v2/captcha/siteverify")])
      == Success(KeyOnly.(apiEndpoint := "https" + "://" + "eu.frcapi.com"))
    ensures Build([WithAPIKey("test-key"), WithSiteverifyEndpoint("")]) == Failure(EmptySiteverifyEndpoint)
  {
    BuildKeyThen(WithSiteverifyEndpoint("global"));
    BuildKeyThen(WithSiteverifyEndpoint("eu"));
    SiteverifyGlobalPath();
    BuildKeyThen(WithSiteverifyEndpoint("https" + "://" + "global.frcapi.com" + "/api/v2/captcha/siteverify"));
    SiteverifyCustomNoPath();
    BuildKeyThen(WithSiteverifyEndpoint("https" + "://" + "custom.example.com" + ""));
    SiteverifyLocalhostPath();
    BuildKeyThen(WithSiteverifyEndpoint("http" + "://" + "localhost:1090" + "/api/v2/captcha/siteverify"));
    SiteverifyLocalhostNoPath();
    BuildKeyThen(WithSiteverifyEndpoint("http" + "://" + "localhost:1090" + ""));
    SiteverifyPortPath();
    BuildKeyThen(WithSiteverifyEndpoint("https" + "://" + "example.com:8080" + "/some/path"));
    SiteverifyEUPath();
    BuildKeyThen(WithSiteverifyEndpoint("https" + "://" + "eu.frcapi.com" + "/api/v2/captcha/siteverify"));
    BuildKeyThen(WithSiteverifyEndpoint(""));
  }

  /** TestWithAPIEndpoint_DefaultValue. */
  lemma DefaultValueExample()
    ensures Build([WithAPIKey("test-key")]) == Success(Settings("test-key", "", "https://global.frcapi.com", false))
  {
    assert [WithAPIKey("test-key")][1..] == [];
  }

  /** TestWithAPIEndpoint_OverridesWithSiteverifyEndpoint: the later endpoint option wins (the concatenated URL is the test's literal). */
  lemma OverrideExample()
    ensures Build([WithAPIKey("test-key"),
                   WithSiteverifyEndpoint("https" + "://" + "global.frcapi.com" + "/api/v2/captcha/siteverify"),
                   WithAPIEndpoint("eu")]) == Success(KeyOnly.(apiEndpoint := "https://eu.frcapi.com"))
  {
    SiteverifyGlobalPath();
    var sv := WithSiteverifyEndpoint("https" + "://" + "global.frcapi.com" + "/api/v2/captcha/siteverify");
    var eu := WithAPIEndpoint("eu");
    var s2 := KeyOnly.(apiEndpoint := "https" + "://" + "global.frcapi.com");
    assert ApplyOption(KeyOnly, sv) == Success(s2);
    assert [eu][1..] == [];
    assert ApplyAll(s2, [eu]) == Success(KeyOnly.(apiEndpoint := "https://eu.frcapi.com"));
    assert [sv, eu][1..] == [eu];
    assert ApplyAll(KeyOnly, [sv, eu]) == ApplyAll(s2, [eu]);
    assert [WithAPIKey("test-key"), sv, eu][1..] == [sv, eu];
  }
}
