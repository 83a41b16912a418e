/**
 * Configuration constants and the authentication headers every API session
 * carries (`Config.get_auth_headers`). The token, read from `HTB_TOKEN` at
 * import time in the source, is a parameter here.
 */
module Config {
  import opened Wrappers
  import opened PyStr

  const BaseUrlV4: string := "https://labs.hackthebox.com/api/v4"
  const BaseUrlV5: string := "https://labs.hackthebox.com/api/v5"

  const DefaultPerPage: nat := 20
  const MaxPerPage: nat := 100

  const MissingTokenMessage: string := "HTB_TOKEN environment variable not set"

  /** The error `get_auth_headers` raises. */
  datatype ConfigError = ValueError(message: string)

  /** The four header names the session is given. */
  const HeaderNames: set<string> := {"Authorization", "Content-Type", "accept", "User-Agent"}

  /**
   * `get_auth_headers`: fails when the token is missing or empty; otherwise the
   * Bearer credential of section 2.1 of RFC 6750 and three fixed headers.
   */
  function AuthHeaders(token: Option<string>): (r: Result<map<string, string>, ConfigError>)
    ensures r.Failure? <==> token == None || token == Some("")
    ensures r.Failure? ==> r.error == ValueError(MissingTokenMessage)
    ensures r.Success? ==>
      && r.value.Keys == HeaderNames
      && r.value["Authorization"] == "Bearer " + token.value
      && r.value["Content-Type"] == "application/json"
      && r.value["accept"] == "application/json"
      && r.value["User-Agent"] == "HTB-CLI/1.0.0"
  {
    if token == None || token == Some("") then Failure(ValueError(MissingTokenMessage))
    else
      Success(map[
        "Authorization" := "Bearer " + token.value,
        "Content-Type" := "application/json",
        "accept" := "application/json",
        "User-Agent" := "HTB-CLI/1.0.0"
      ])
  }

  /**
   * The Authorization header carries the token unchanged after the `Bearer `
   * scheme, so the server reads back exactly the configured token.
   */
  lemma BearerTokenRecoverable(token: string)
    requires token != ""
    ensures AuthHeaders(Some(token)).Success?
    ensures var h := AuthHeaders(Some(token)).value["Authorization"];
      StartsWith(h, "Bearer ") && h[|"Bearer "|..] == token
  {
    var h := "Bearer " + token;
    assert h[..7] == "Bearer ";
    assert h[7..] == token;
  }

  /** Two different tokens never yield the same Authorization header. */
  lemma AuthHeadersInjective(t1: string, t2: string)
    requires t1 != "" && t2 != "" && t1 != t2
    ensures AuthHeaders(Some(t1)).value["Authorization"] != AuthHeaders(Some(t2)).value["Authorization"]
  {
    var h1 := "Bearer " + t1;
    var h2 := "Bearer " + t2;
    assert h1[7..] == t1 && h2[7..] == t2;
  }

  lemma DefaultPageSizeWithinMax()
    ensures 0 < DefaultPerPage <= MaxPerPage
  {
  }
}
