/** The CORS origin decision of the HTTP application. */
module Cors {
  import opened Wrappers
  import Text

  /** The configuration the decision reads; either configured origin may be unset. */
  datatype Env = Env(adminCorsOrigin: Option<string>, userAppOrigin: Option<string>, nodeEnv: string)

  /** The fixed entries of the allow-list. */
  const FixedOrigins: seq<string> := ["http://localhost:3000", "http://localhost:5000", "http://127.0.0.1:3000"]

  /** The five-entry allow-list; an unset configured origin contributes no string. */
  predicate InAllowList(origin: string, env: Env)
  {
    || env.adminCorsOrigin == Some(origin)
    || env.userAppOrigin == Some(origin)
    || origin in FixedOrigins
  }

  /** The private-network prefixes trusted in development. */
  predicate LocalNetwork(origin: string)
  {
    || Text.StartsWith(origin, "http://192.168.")
    || Text.StartsWith(origin, "http://10.")
    || Text.StartsWith(origin, "http://172.")
  }

  /** The origin callback: an absent or empty origin is allowed, otherwise the list or a development prefix. */
  function CorsAllows(origin: Option<string>, env: Env): (allowed: bool)
    ensures origin.None? || origin == Some("") ==> allowed
  {
    if origin.None? || origin.value == "" then true
    else
      var isDevelopment := env.nodeEnv == "development";
      InAllowList(origin.value, env) || (isDevelopment && LocalNetwork(origin.value))
  }

  /** A listed origin is allowed whatever the environment. */
  lemma ListedOriginAllowed(origin: string, env: Env)
    requires InAllowList(origin, env)
    ensures CorsAllows(Some(origin), env)
  {
  }

  /** Outside development only the listed origins (and requests without one) pass. */
  lemma OutsideDevelopmentOnlyListed(origin: string, env: Env)
    requires env.nodeEnv != "development" && origin != ""
    ensures CorsAllows(Some(origin), env) <==> InAllowList(origin, env)
  {
  }

  /** In development every origin under one of the private prefixes passes. */
  lemma DevelopmentAllowsLocalNetwork(host: string, env: Env)
    requires env.nodeEnv == "development"
    ensures CorsAllows(Some("http://192.168." + host), env)
    ensures CorsAllows(Some("http://10." + host), env)
    ensures CorsAllows(Some("http://172." + host), env)
  {
    assert ("http://192.168." + host)[..|"http://192.168."|] == "http://192.168.";
    assert ("http://10." + host)[..|"http://10."|] == "http://10.";
    assert ("http://172." + host)[..|"http://172."|] == "http://172.";
  }

  /** The prefix test is textual: an `https` origin is never a private-network origin. */
  lemma HttpsIsNotLocalNetwork(rest: string)
    ensures !LocalNetwork("https://" + rest)
  {
    var o := "https://" + rest;
    assert o[4] == 's';
    assert "http://192.168."[4] == ':' && "http://10."[4] == ':' && "http://172."[4] == ':';
  }

  /** Concrete decisions with no configured origins. */
  lemma ExampleDecisions()
    ensures CorsAllows(None, Env(None, None, "production"))
    ensures CorsAllows(Some("http://localhost:3000"), Env(None, None, "production"))
    ensures !CorsAllows(Some("http://192.168.1.5:3000"), Env(None, None, "production"))
    ensures CorsAllows(Some("http://192.168.1.5:3000"), Env(None, None, "development"))
    ensures !CorsAllows(Some("https://192.168.1.5"), Env(None, None, "development"))
    ensures CorsAllows(Some("https://admin.example"), Env(Some("https://admin.example"), None, "production"))
  {
    DevelopmentAllowsLocalNetwork("1.5:3000", Env(None, None, "development"));
    assert "http://192.168.1.5:3000" == "http://192.168." + "1.5:3000";
    HttpsIsNotLocalNetwork("192.168.1.5");
    assert "https://192.168.1.5" == "https://" + "192.168.1.5";
  }
}
