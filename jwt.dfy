/** The bearer-token guard the authenticated handlers share. */
module Jwt {
  import opened Common
  import opened JsString

  /** The claims `getClaims` returns for a valid token. */
  datatype Claims = Claims(sub: Option<string>, email: Option<string>)

  /** `authHeader?.startsWith('Bearer ')`. */
  predicate BearerHeader(authorization: Option<string>) {
    authorization.Some? && StartsWith(authorization.value, "Bearer ")
  }

  /**
   * The caller's user id: present only with a `Bearer ` header whose token yields claims
   * (`claims` is `None` when `getClaims` fails) with a non-empty `sub`.
   */
  function Caller(authorization: Option<string>, claims: Option<Claims>): (r: Option<string>)
    ensures r.Some? <==> BearerHeader(authorization) && claims.Some? && Truthy(claims.value.sub)
    ensures r.Some? ==> r.value != "" && r == claims.value.sub
  {
    if BearerHeader(authorization) && claims.Some? && Truthy(claims.value.sub) then claims.value.sub else None
  }
}
