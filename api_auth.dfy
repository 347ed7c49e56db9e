/** The bearer-token check of the public API (lib/api-auth.ts): the
    `Authorization` header must use the "Bearer" scheme of section 2.1 of
    RFC 6750, spelled exactly, and carry exactly the configured token. */
module ApiAuth {
  import opened Wrappers
  import opened JsText

  const BearerPrefix: string := "Bearer "

  /** `verifyApiToken`, given the `authorization` header (None when absent)
      and `API_BEARER_TOKEN` (None when unset). */
  function VerifyApiToken(authorization: Option<string>, configured: Option<string>): (ok: bool)
    ensures ok <==> configured.Some? && configured.value != "" && authorization == Some(BearerPrefix + configured.value)
  {
    if !(authorization.Some? && StartsWith(authorization.value, BearerPrefix)) then false
    else
      var token := authorization.value[|BearerPrefix|..];
      assert authorization.value == BearerPrefix + token;
      if configured.None? || configured.value == "" then false
      else token == configured.value
  }

  /** The three ways to fail: no header or another scheme, no configured
      token, or a different token. */
  lemma VerifyApiTokenCases(authorization: Option<string>, configured: Option<string>)
    ensures authorization.None? ==> !VerifyApiToken(authorization, configured)
    ensures authorization.Some? && !StartsWith(authorization.value, "Bearer ") ==> !VerifyApiToken(authorization, configured)
    ensures configured.None? || configured == Some("") ==> !VerifyApiToken(authorization, configured)
    ensures authorization.Some? && StartsWith(authorization.value, "Bearer ") && configured.Some? && configured.value != "" ==>
      (VerifyApiToken(authorization, configured) <==> authorization.value[7..] == configured.value)
  {
    if authorization.Some? && StartsWith(authorization.value, "Bearer ") {
      assert authorization.value == BearerPrefix + authorization.value[7..];
    }
  }

  /** The scheme is compared case-sensitively and the token exactly: no
      trimming of extra spaces. */
  lemma SchemeAndTokenAreExact()
    ensures !VerifyApiToken(Some("bearer s3cret"), Some("s3cret"))
    ensures !VerifyApiToken(Some("Bearer  s3cret"), Some("s3cret"))
    ensures VerifyApiToken(Some("Bearer s3cret"), Some("s3cret"))
  {
    assert "Bearer " + "s3cret" == "Bearer s3cret";
    assert ("Bearer " + "s3cret")[0] != "bearer s3cret"[0];
    assert |"Bearer " + "s3cret"| != |"Bearer  s3cret"|;
  }

  datatype ErrorResponse = ErrorResponse(status: int, error: string)

  /** `unauthorizedApiResponse(message = 'Unauthorized')`. */
  function UnauthorizedApiResponse(message: Option<string>): (r: ErrorResponse)
    ensures r.status == 401
    ensures r.error == if message.Some? then message.value else "Unauthorized"
  {
    ErrorResponse(401, message.GetOr("Unauthorized"))
  }
}
