/**
 Environment configuration of the client: a fixed table of backend base URLs,
 the environment selector, the two environment flags, and the helper that
 joins a path onto the selected base URL.
 */
module Api {

  /** The environment the build is configured for. */
  const ENVIRONMENT: string := "production"

  /** The backend base URL of each environment. */
  const API_URLS: map<string, string> :=
    map["development" := "http://localhost:4000", "production" := "https://isha-backend.onrender.com"]

  /** The base URL of the configured environment. */
  function ApiUrl(): (url: string)
    ensures url == API_URLS["production"] == "https://isha-backend.onrender.com"
  {
    API_URLS[ENVIRONMENT]
  }

  predicate IsDevelopment(env: string) {
    env == "development"
  }

  predicate IsProduction(env: string) {
    env == "production"
  }

  const isDevelopment: bool := IsDevelopment(ENVIRONMENT)
  const isProduction: bool := IsProduction(ENVIRONMENT)
  const currentEnvironment: string := ENVIRONMENT

  /** The two flags never hold together, and for each key of the table exactly one holds. */
  lemma EnvironmentFlagsExclusive(env: string)
    ensures !(IsDevelopment(env) && IsProduction(env))
    ensures env in API_URLS ==> IsDevelopment(env) != IsProduction(env)
    ensures isProduction && !isDevelopment && currentEnvironment in API_URLS
  {
  }

  predicate StartsWithSlash(path: string) {
    |path| > 0 && path[0] == '/'
  }

  /** `path` without its leading slash, if it has one; at most one slash is removed. */
  function CleanPath(path: string): (clean: string)
    ensures StartsWithSlash(path) ==> "/" + clean == path
    ensures !StartsWithSlash(path) ==> clean == path
  {
    if StartsWithSlash(path) then path[1..] else path
  }

  /** The full endpoint URL: the base URL, one slash, then the path with one leading slash removed. */
  function GetApiEndpoint(path: string): (url: string)
    ensures |url| > |ApiUrl()|
    ensures url[..|ApiUrl()| + 1] == ApiUrl() + "/"
    ensures url[|ApiUrl()| + 1..] == CleanPath(path)
  {
    ApiUrl() + "/" + CleanPath(path)
  }

  /** Every endpoint is the base URL, a slash and the cleaned path. */
  lemma EndpointShape(path: string)
    ensures GetApiEndpoint(path) == ApiUrl() + "/" + CleanPath(path)
    ensures |GetApiEndpoint(path)| == |ApiUrl()| + 1 + |path| - (if StartsWithSlash(path) then 1 else 0)
  {
    var url := GetApiEndpoint(path);
    assert url == url[..|ApiUrl()| + 1] + url[|ApiUrl()| + 1..];
  }

  /** A single leading slash makes no difference. */
  lemma EndpointIgnoresOneLeadingSlash(s: string)
    requires !StartsWithSlash(s)
    ensures GetApiEndpoint("/" + s) == GetApiEndpoint(s)
  {
    EndpointShape("/" + s);
    EndpointShape(s);
    assert ("/" + s)[1..] == s;
  }

  /** Only one slash is stripped, so a second one survives. */
  lemma EndpointKeepsSecondSlash(s: string)
    ensures GetApiEndpoint("//" + s) == ApiUrl() + "//" + s
  {
    EndpointShape("//" + s);
    assert ("//" + s)[1..] == "/" + s;
  }

  /** The empty path and the root path both give the base URL with a trailing slash. */
  lemma EndpointOfRoot()
    ensures GetApiEndpoint("") == ApiUrl() + "/"
    ensures GetApiEndpoint("/") == ApiUrl() + "/"
  {
    EndpointShape("");
    EndpointShape("/");
  }

  /** Two paths give the same endpoint exactly when they agree after the leading slash is removed. */
  lemma EndpointInjective(p: string, q: string)
    ensures GetApiEndpoint(p) == GetApiEndpoint(q) <==> CleanPath(p) == CleanPath(q)
  {
    EndpointShape(p);
    EndpointShape(q);
  }
}
