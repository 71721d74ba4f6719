/**
 * App-only (client-credentials) token acquisition for Microsoft Graph:
 * the configuration guard, the token request and the extraction of
 * `access_token` from its reply.
 */
module AppOnlyAuth {

  import opened Wrappers
  import opened JsValues
  import opened Http

  /** The `agentInstructor.graph.*` settings; the client secret is kept apart, in secret storage. */
  datatype GraphSettings = GraphSettings(tenantId: string, clientId: string)

  /** Key under which the client secret is kept in the editor's secret storage. */
  const SecretKey := "agentInstructor.graph.clientSecret"

  const GraphScope := "https://graph.microsoft.com/.default"

  const NotConfiguredMessage :=
    "App-only auth not configured. Set tenantId, clientId in settings and client secret in SecretStorage."

  /** The `Error` thrown when the configuration guard fails. */
  const NotConfigured := Fault("", NotConfiguredMessage, "Error: " + NotConfiguredMessage)

  /** Settings as read with `cfg.get(key, '')`: a missing setting reads as the empty string. */
  function LoadGraphSettings(tenantId: Option<string>, clientId: Option<string>): (r: GraphSettings)
    ensures tenantId.Some? ==> r.tenantId == tenantId.value
    ensures clientId.Some? ==> r.clientId == clientId.value
    ensures tenantId.None? ==> r.tenantId == ""
    ensures clientId.None? ==> r.clientId == ""
  {
    GraphSettings(
      match tenantId case Some(t) => t case None => "",
      match clientId case Some(c) => c case None => "")
  }

  /** The stored secret as secret storage hands it out: `undefined` when none is stored. */
  function StoredSecret(secret: Option<string>): JsValue {
    match secret
    case Some(s) => Str(s)
    case None => Undefined
  }

  /**
   * `hasAppOnlyConfigured`, `!!(tenantId && clientId && s)`: configured exactly
   * when tenant, client and stored secret are all present and non-empty.
   */
  function Configured(settings: GraphSettings, secret: Option<string>): (r: bool)
    ensures r <==> settings.tenantId != "" && settings.clientId != "" && secret.Some? && secret.value != ""
  {
    Truthy(And(And(Str(settings.tenantId), Str(settings.clientId)), StoredSecret(secret)))
  }

  /** The form-encoded client-credentials POST to the tenant's token endpoint. */
  function TokenRequest(tenantId: string, clientId: string, clientSecret: string): GraphRequest {
    TokenPost(tenantId, [("client_id", clientId), ("client_secret", clientSecret),
                         ("scope", GraphScope), ("grant_type", "client_credentials")])
  }

  /**
   * `res.data.access_token` of the token reply; a failed reply is rethrown, a
   * null or missing body throws on the read, and any other body without the
   * field yields `undefined`.
   */
  function TokenFromReply(reply: Reply): (r: Result<JsValue, Fault>)
    ensures reply.Failed? ==> r == Failure(reply.fault)
    ensures reply.Answered? && Nullish(reply.data) ==> r == Failure(ReadError(reply.data, "access_token"))
    ensures reply.Answered? && reply.data.Obj? ==> r == Success(OptGet(reply.data, "access_token"))
    ensures reply.Answered? && !Nullish(reply.data) && !reply.data.Obj? ==> r == Success(Undefined)
  {
    match reply
    case Failed(f) => Failure(f)
    case Answered(data) => Get(data, "access_token")
  }

  datatype TokenAttempt = TokenAttempt(token: Result<JsValue, Fault>, sent: seq<GraphRequest>)

  /**
   * `getAppOnlyAccessToken`: fails fast with `NotConfigured`, sending nothing,
   * unless tenant, client and secret are all non-empty; otherwise sends exactly
   * one token request and answers with the token taken from `reply`.
   */
  function AcquireToken(settings: GraphSettings, secret: Option<string>, reply: Reply): (r: TokenAttempt)
    ensures r.sent == [] <==> !Configured(settings, secret)
    ensures !Configured(settings, secret) ==> r.token == Failure(NotConfigured)
    ensures Configured(settings, secret) ==>
      r.sent == [TokenRequest(settings.tenantId, settings.clientId, secret.value)]
      && r.token == TokenFromReply(reply)
  {
    if settings.tenantId == "" || settings.clientId == "" || secret.None? || secret.value == "" then
      TokenAttempt(Failure(NotConfigured), [])
    else
      TokenAttempt(TokenFromReply(reply), [TokenRequest(settings.tenantId, settings.clientId, secret.value)])
  }
}
