/** The two sign-in callbacks: `jwt` copies the provider's access token into
    the token, `session` exposes it on the session. The provider
    configuration is outside the model. */
module AuthOptions {
  import opened Wrappers

  /** A JavaScript property value as far as these callbacks care. */
  datatype JsValue = Undefined | Str(s: string)

  /** A plain object: the token or the session. */
  type JsObject = map<string, JsValue>

  const AccessTokenKey := "accessToken"

  predicate Truthy(v: JsValue) {
    v.Str? && v.s != ""
  }

  /** `obj.key`, `undefined` when the key is absent. */
  function Get(obj: JsObject, key: string): JsValue {
    if key in obj then obj[key] else Undefined
  }

  /** The provider account; its `access_token` may be undefined. */
  datatype Account = Account(accessToken: JsValue)

  /** `jwt`: with an account, `{ ...token, accessToken: account.access_token }`;
      without one, the token itself. */
  function Jwt(token: JsObject, account: Option<Account>): (r: JsObject)
    ensures account.None? ==> r == token
    ensures account.Some? ==>
              && r.Keys == token.Keys + {AccessTokenKey}
              && r[AccessTokenKey] == account.value.accessToken
              && forall k :: k in token && k != AccessTokenKey ==> r[k] == token[k]
  {
    if account.Some? then token[AccessTokenKey := account.value.accessToken] else token
  }

  /** `session`: unchanged when the token carries no truthy access token,
      otherwise `{ ...session, accessToken: token.accessToken }`. */
  function Session(session: JsObject, token: JsObject): (r: JsObject)
    ensures !Truthy(Get(token, AccessTokenKey)) ==> r == session
    ensures Truthy(Get(token, AccessTokenKey)) ==>
              && r.Keys == session.Keys + {AccessTokenKey}
              && r[AccessTokenKey] == token[AccessTokenKey]
              && forall k :: k in session && k != AccessTokenKey ==> r[k] == session[k]
  {
    if !Truthy(Get(token, AccessTokenKey)) then session
    else session[AccessTokenKey := token[AccessTokenKey]]
  }

  /** After a sign-in whose account carries a non-empty access token, the
      session exposes exactly that token. */
  lemma SignInExposesToken(token: JsObject, session: JsObject, accessToken: string)
    requires accessToken != ""
    ensures Get(Session(session, Jwt(token, Some(Account(Str(accessToken))))), AccessTokenKey)
            == Str(accessToken)
  {
  }

  /** A sign-in whose account has no access token overwrites any earlier one
      with `undefined`, so the session is then returned unchanged. */
  lemma SignInWithoutTokenHidesOldOne(token: JsObject, session: JsObject)
    ensures Session(session, Jwt(token, Some(Account(Undefined)))) == session
  {
  }
}
