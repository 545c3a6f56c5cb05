/**
 * The module-scope configuration of the current client, derived once at page
 * load from the query string and the build-time environment. A missing query
 * parameter or environment value is written as "" here: the source combines
 * them with `||`, which treats null, undefined and "" alike.
 */
module ClientConfig {
  import opened Wrappers

  /**
   * `authorization` is the header value that `Authorization` derives; the
   * model keeps it for completeness, since request headers are not modelled.
   */
  datatype SessionConfig = SessionConfig(
    canvasId: string,
    projectId: string,
    apiBase: string,
    authorization: Option<string>)

  predicate IsPrefix(p: string, s: string)
  {
    |p| <= |s| && s[..|p|] == p
  }

  /** `qs.get("projectId") || qs.get("recordId") || ""` */
  function ProjectId(projectParam: string, recordParam: string): (r: string)
    ensures projectParam != "" ==> r == projectParam
    ensures projectParam == "" ==> r == recordParam
    ensures r == "" <==> projectParam == "" && recordParam == ""
  {
    if projectParam != "" then projectParam else recordParam
  }

  /**
   * `API_BASE`: the explicit base is preferred over the host; a value that
   * does not start with "http" gets "https://" in front of it.
   */
  function ApiBase(rawBase: string, rawHost: string): (r: string)
    ensures r == "" <==> rawBase == "" && rawHost == ""
    ensures r != "" ==> IsPrefix("http", r)
    // the explicit base wins over the host
    ensures rawBase != "" && IsPrefix("http", rawBase) ==> r == rawBase
    ensures rawBase != "" && !IsPrefix("http", rawBase) ==> r == "https://" + rawBase
    ensures rawBase == "" && IsPrefix("http", rawHost) ==> r == rawHost
    ensures rawBase == "" && rawHost != "" && !IsPrefix("http", rawHost) ==> r == "https://" + rawHost
  {
    var host := if rawBase != "" then rawBase else rawHost;
    if host == "" then ""
    else if IsPrefix("http", host) then host
    else
      assert ("https://" + host)[..4] == "http";
      "https://" + host
  }

  /** `authHeaders`: an `Authorization: Bearer <secret>` header, present only for a non-empty secret. */
  function Authorization(secret: string): (r: Option<string>)
    ensures r.Some? <==> secret != ""
    ensures r.Some? ==> r.value == "Bearer " + secret
  {
    if secret != "" then Some("Bearer " + secret) else None
  }
}
