/**
 * A profile with a refresh-token grant and a source that reads its
 * "Documents" entity, bound to one flow: what the two builders and `bind`
 * produce together.
 */
module Scenario {
  import opened Wrappers
  import Profile
  import Source

  method RefreshTokenGrantSource()
    returns (credentials: Profile.ConnectorProfileCredentials,
             config: Result<Source.SourceFlowConfig, Source.BindError>,
             edges: set<(Source.NodeId, Source.NodeId)>)
    ensures credentials.customConnector.oauth2
         == Profile.OAuth2Credentials(Profile.PLACEHOLDER_ACCESS_TOKEN, Some("r1"), Some("c1"), Some("s1"))
    ensures config.Success?
    ensures config.value.apiVersion == "v1"
    ensures config.value.connectorProfileName == Some("SharepointProfile")
    ensures config.value.sourceConnectorProperties.customConnector.entityName == "Documents"
    ensures edges == {("Stack/Flow", "Stack/Profile")}
  {
    var oAuth := Profile.OAuthSettings(
      None,
      Some(Profile.OAuthFlow(Profile.RefreshTokenGrantFlow(Some("r1"), Some("s1"), Some("c1")))),
      Profile.OAuthEndpointsSettings("https://login.example.com/token"));
    credentials := Profile.BuildConnectorProfileCredentials(Profile.ConnectorProfileProps(oAuth));

    // The source sees the profile construct only through its node and name,
    // so the profile it refers to is given by those two values.
    var profile := Source.ConnectorProfile("Stack/Profile", "SharepointProfile");
    var source := new Source.SharepointOnlineSource(Source.SourceProps(Source.Concrete(profile), "v1", "Documents"));
    var graph := new Source.DependencyGraph();
    config := source.Bind("Stack/Flow", graph);
    edges := graph.edges;
  }
}
