/**
 * The connector profile builders of the Microsoft SharePoint Online connector
 * (src/microsoftsharepointonline/profile.ts): the user's OAuth settings become
 * the non-secret properties record and the secret credentials record of an
 * AppFlow custom-connector profile.
 */
module Profile {
  import opened Wrappers

  /** Stands in for the access token when none is configured: the schema requires one. */
  const PLACEHOLDER_ACCESS_TOKEN: string := "dummyAccessToken"
  /** `OAuth2GrantType.AUTHORIZATION_CODE` as it appears in the properties record. */
  const GRANT_TYPE_AUTHORIZATION_CODE: string := "AUTHORIZATION_CODE"
  /** `ConnectorAuthenticationType.OAUTH2` as it appears in the credentials record. */
  const AUTHENTICATION_TYPE_OAUTH2: string := "OAUTH2"

  // Input: the props interfaces the builders read. A token may be a deferred
  // (unresolved) value; it is modelled as an opaque string.

  datatype OAuthEndpointsSettings = OAuthEndpointsSettings(token: string)

  datatype RefreshTokenGrantFlow = RefreshTokenGrantFlow(
    refreshToken: Option<string>,
    clientSecret: Option<string>,
    clientId: Option<string>)

  datatype OAuthFlow = OAuthFlow(refreshTokenGrant: RefreshTokenGrantFlow)

  datatype OAuthSettings = OAuthSettings(
    accessToken: Option<string>,
    flow: Option<OAuthFlow>,
    endpoints: OAuthEndpointsSettings)

  /**
   * The SharePoint Online profile props (`MicrosoftSharepointOnlineConnectorProfileProps`);
   * of the inherited base props the builders read none, so only `oAuth` is kept.
   */
  datatype ConnectorProfileProps = ConnectorProfileProps(oAuth: OAuthSettings)

  // Output: the non-secret properties record.

  datatype OAuth2Properties = OAuth2Properties(oAuth2GrantType: string, tokenUrl: string)

  datatype CustomConnectorProfileProperties = CustomConnectorProfileProperties(oAuth2Properties: OAuth2Properties)

  datatype ConnectorProfileProperties = ConnectorProfileProperties(customConnector: CustomConnectorProfileProperties)

  // Output: the secret credentials record. The access token is always populated.

  datatype OAuth2Credentials = OAuth2Credentials(
    accessToken: string,
    refreshToken: Option<string>,
    clientId: Option<string>,
    clientSecret: Option<string>)

  datatype CustomConnectorProfileCredentials = CustomConnectorProfileCredentials(
    oauth2: OAuth2Credentials,
    authenticationType: string)

  datatype ConnectorProfileCredentials = ConnectorProfileCredentials(customConnector: CustomConnectorProfileCredentials)

  /** The properties record: a fixed grant type and the token URL, passed through verbatim. */
  function BuildConnectorProfileProperties(props: ConnectorProfileProps): (r: ConnectorProfileProperties)
    // the grant type is fixed, even when a refresh-token grant flow is configured
    ensures r.customConnector.oAuth2Properties.oAuth2GrantType == GRANT_TYPE_AUTHORIZATION_CODE
    ensures r.customConnector.oAuth2Properties.tokenUrl == props.oAuth.endpoints.token
  {
    ConnectorProfileProperties(
      CustomConnectorProfileProperties(
        OAuth2Properties(GRANT_TYPE_AUTHORIZATION_CODE, props.oAuth.endpoints.token)))
  }

  /**
   * The credentials record: the access token, or the placeholder when it is
   * nullish; the three refresh-token-grant fields; a fixed authentication type.
   */
  function BuildConnectorProfileCredentials(props: ConnectorProfileProps): (r: ConnectorProfileCredentials)
    ensures r.customConnector.authenticationType == AUTHENTICATION_TYPE_OAUTH2
    // a configured token is kept as it is, the empty string included
    ensures props.oAuth.accessToken.Some? ==> r.customConnector.oauth2.accessToken == props.oAuth.accessToken.value
    ensures props.oAuth.accessToken.None? ==> r.customConnector.oauth2.accessToken == PLACEHOLDER_ACCESS_TOKEN
    ensures props.oAuth.flow.Some? ==>
      var grant := props.oAuth.flow.value.refreshTokenGrant;
      && r.customConnector.oauth2.refreshToken == grant.refreshToken
      && r.customConnector.oauth2.clientId == grant.clientId
      && r.customConnector.oauth2.clientSecret == grant.clientSecret
    ensures props.oAuth.flow.None? ==>
      && r.customConnector.oauth2.refreshToken.None?
      && r.customConnector.oauth2.clientId.None?
      && r.customConnector.oauth2.clientSecret.None?
  {
    var oAuth := props.oAuth;
    var accessToken := match oAuth.accessToken
      case Some(token) => token
      case None => PLACEHOLDER_ACCESS_TOKEN;
    var refreshToken := match oAuth.flow
      case Some(flow) => flow.refreshTokenGrant.refreshToken
      case None => None;
    var clientId := match oAuth.flow
      case Some(flow) => flow.refreshTokenGrant.clientId
      case None => None;
    var clientSecret := match oAuth.flow
      case Some(flow) => flow.refreshTokenGrant.clientSecret
      case None => None;
    ConnectorProfileCredentials(
      CustomConnectorProfileCredentials(
        OAuth2Credentials(accessToken, refreshToken, clientId, clientSecret),
        AUTHENTICATION_TYPE_OAUTH2))
  }

  /** The properties record is determined by the token endpoint, and determines it. */
  lemma PropertiesDependOnlyOnTokenEndpoint(p: ConnectorProfileProps, q: ConnectorProfileProps)
    ensures BuildConnectorProfileProperties(p) == BuildConnectorProfileProperties(q)
        <==> p.oAuth.endpoints == q.oAuth.endpoints
  {
  }

  /** Changing the access token or the flow leaves the properties record unchanged. */
  lemma PropertiesIgnoreCredentials(p: ConnectorProfileProps, accessToken: Option<string>, flow: Option<OAuthFlow>)
    ensures BuildConnectorProfileProperties(p)
         == BuildConnectorProfileProperties(ConnectorProfileProps(p.oAuth.(accessToken := accessToken, flow := flow)))
  {
  }

  /** The credentials record does not depend on the token endpoint. */
  lemma CredentialsIgnoreEndpoints(p: ConnectorProfileProps, endpoints: OAuthEndpointsSettings)
    ensures BuildConnectorProfileCredentials(p)
         == BuildConnectorProfileCredentials(ConnectorProfileProps(p.oAuth.(endpoints := endpoints)))
  {
  }

  /** The access token in the credentials is the same whether or not a refresh-token flow is configured. */
  lemma AccessTokenIgnoresFlow(p: ConnectorProfileProps, flow: Option<OAuthFlow>)
    ensures BuildConnectorProfileCredentials(p).customConnector.oauth2.accessToken
         == BuildConnectorProfileCredentials(ConnectorProfileProps(p.oAuth.(flow := flow))).customConnector.oauth2.accessToken
  {
  }

  /** With only the token endpoint configured, the credentials hold just the placeholder and the tag. */
  lemma OnlyTokenEndpointConfigured(token: string)
    ensures BuildConnectorProfileCredentials(ConnectorProfileProps(OAuthSettings(None, None, OAuthEndpointsSettings(token))))
         == ConnectorProfileCredentials(
              CustomConnectorProfileCredentials(
                OAuth2Credentials(PLACEHOLDER_ACCESS_TOKEN, None, None, None),
                AUTHENTICATION_TYPE_OAUTH2))
  {
  }

  /**
   * Two configured access tokens that the credentials cannot tell apart: equal
   * ones, or an absent one and the placeholder literal itself.
   */
  predicate SameEffectiveAccessToken(a: Option<string>, b: Option<string>) {
    || a == b
    || (a == None && b == Some(PLACEHOLDER_ACCESS_TOKEN))
    || (a == Some(PLACEHOLDER_ACCESS_TOKEN) && b == None)
  }

  /** The refresh-token grant in effect: the configured one, or one with every field absent. */
  function RefreshGrantOrEmpty(oAuth: OAuthSettings): (r: RefreshTokenGrantFlow) {
    match oAuth.flow
    case Some(flow) => flow.refreshTokenGrant
    case None => RefreshTokenGrantFlow(None, None, None)
  }

  /**
   * Exactly which inputs the credentials record tells apart: two props give
   * the same record if and only if their access tokens agree up to the
   * placeholder and their refresh-token grants agree, an absent flow counting
   * as a grant with every field absent.
   */
  lemma CredentialsEqualIff(p: ConnectorProfileProps, q: ConnectorProfileProps)
    ensures BuildConnectorProfileCredentials(p) == BuildConnectorProfileCredentials(q)
        <==> SameEffectiveAccessToken(p.oAuth.accessToken, q.oAuth.accessToken)
             && RefreshGrantOrEmpty(p.oAuth) == RefreshGrantOrEmpty(q.oAuth)
  {
  }

  /**
   * The credentials builder forgets information: an access token set to the
   * placeholder literal yields the same record as no access token at all.
   */
  lemma CredentialsNotInjective()
    ensures exists p: ConnectorProfileProps ::
      var q := ConnectorProfileProps(p.oAuth.(accessToken := Some(PLACEHOLDER_ACCESS_TOKEN)));
      && p.oAuth.accessToken == None
      && p != q
      && BuildConnectorProfileCredentials(p) == BuildConnectorProfileCredentials(q)
  {
    var endpoints := OAuthEndpointsSettings("https://login.example.com/token");
    var p := ConnectorProfileProps(OAuthSettings(None, None, endpoints));
    var q := ConnectorProfileProps(p.oAuth.(accessToken := Some(PLACEHOLDER_ACCESS_TOKEN)));
    assert p != q && BuildConnectorProfileCredentials(p) == BuildConnectorProfileCredentials(q);
  }

}
