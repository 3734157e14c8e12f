/**
 * The source side of the Microsoft SharePoint Online connector
 * (src/microsoftsharepointonline/source.ts): binding a source to a flow builds
 * the flow's source configuration record and, when the profile is an object,
 * makes the flow depend on that profile in the host's construct graph.
 */
module Source {
  import opened Wrappers

  /** The identity of a construct in the host's construct tree (its path). */
  type NodeId = string

  /** A connector profile construct as the source sees it: its node and its name. */
  datatype ConnectorProfile = ConnectorProfile(node: NodeId, name: string)

  /**
   * The value handed to the dependency guard: `undefined`, a string (a name or
   * an ARN), or a profile object.
   */
  datatype ProfileRef = Absent | ByString(s: string) | Concrete(profile: ConnectorProfile)

  /** `objectName` is the source's `object` prop (`object` is a Dafny keyword). */
  datatype SourceProps = SourceProps(profile: ProfileRef, apiVersion: string, objectName: string)

  /** The connector-type tag of this connector; the string it stands for is defined elsewhere. */
  datatype ProfileConnectorType = MicrosoftSharepointOnline

  datatype CustomConnectorSourceProperties = CustomConnectorSourceProperties(entityName: string)

  datatype SourceConnectorProperties = SourceConnectorProperties(customConnector: CustomConnectorSourceProperties)

  datatype SourceFlowConfig = SourceFlowConfig(
    connectorType: ProfileConnectorType,
    connectorProfileName: Option<string>,
    apiVersion: string,
    sourceConnectorProperties: SourceConnectorProperties)

  /** The TypeError thrown when reading `name` of an `undefined` profile. */
  datatype BindError = ProfileUndefined

  /** JavaScript truthiness of the guarded value: `undefined` and `""` are falsy, objects truthy. */
  predicate Truthy(resource: ProfileRef) {
    match resource
    case Absent => false
    case ByString(s) => s != ""
    case Concrete(_) => true
  }

  /** `typeof resource === 'string'`. */
  predicate IsString(resource: ProfileRef) {
    resource.ByString?
  }

  /** The guard of tryAddNodeDependency: it holds exactly for a profile object. */
  predicate AddsDependency(resource: ProfileRef)
    ensures AddsDependency(resource) <==> resource.Concrete?
  {
    Truthy(resource) && !IsString(resource)
  }

  /** Reading `name` of the profile value: a string has no such property; `undefined` throws. */
  function ProfileName(resource: ProfileRef): (r: Result<Option<string>, BindError>)
    ensures r.Failure? <==> resource.Absent?
    ensures resource.Concrete? ==> r == Success(Some(resource.profile.name))
    ensures resource.ByString? ==> r == Success(None)
  {
    match resource
    case Absent => Failure(ProfileUndefined)
    case ByString(_) => Success(None)
    case Concrete(profile) => Success(Some(profile.name))
  }

  /**
   * The dependency edges after the guard has run for `resource` on behalf of
   * `scope`: an edge (from, to) says that `from` depends on `to`.
   */
  function EdgesAfterBind(edges: set<(NodeId, NodeId)>, scope: NodeId, resource: ProfileRef): (r: set<(NodeId, NodeId)>)
    ensures edges <= r
    ensures forall e :: e in r ==> e in edges || (resource.Concrete? && e == (scope, resource.profile.node))
    ensures resource.Concrete? ==> (scope, resource.profile.node) in r
  {
    if AddsDependency(resource) then edges + {(scope, resource.profile.node)} else edges
  }

  /** A string or absent value leaves the graph unchanged; a profile adds the one edge scope to profile. */
  lemma EdgeAddedIff(edges: set<(NodeId, NodeId)>, scope: NodeId, resource: ProfileRef)
    ensures EdgesAfterBind(edges, scope, resource) != edges
        <==> resource.Concrete? && (scope, resource.profile.node) !in edges
    ensures !resource.Concrete? ==> EdgesAfterBind(edges, scope, resource) == edges
  {
  }

  /** The guard registers at most one new edge, and exactly one when the profile is an object not yet depended on. */
  lemma NewEdgeCount(edges: set<(NodeId, NodeId)>, scope: NodeId, resource: ProfileRef)
    ensures |EdgesAfterBind(edges, scope, resource) - edges| <= 1
    ensures resource.Concrete? && (scope, resource.profile.node) !in edges
        ==> |EdgesAfterBind(edges, scope, resource) - edges| == 1
    ensures !resource.Concrete? ==> |EdgesAfterBind(edges, scope, resource) - edges| == 0
  {
  }

  /** Running the guard again for the same scope and value changes nothing more. */
  lemma EdgesAfterBindIdempotent(edges: set<(NodeId, NodeId)>, scope: NodeId, resource: ProfileRef)
    ensures EdgesAfterBind(EdgesAfterBind(edges, scope, resource), scope, resource)
         == EdgesAfterBind(edges, scope, resource)
  {
  }

  /** The host's dependency graph, as the set of edges registered so far. */
  class DependencyGraph {
    var edges: set<(NodeId, NodeId)>

    constructor ()
      ensures edges == {}
    {
      edges := {};
    }

    /** `from.node.addDependency(to)`: from now on `from` depends on `to`. */
    method AddDependency(from: NodeId, to: NodeId)
      modifies this
      ensures edges == old(edges) + {(from, to)}
    {
      edges := edges + {(from, to)};
    }
  }

  /** A SharePoint Online source: fixed props and the connector-type tag. */
  class SharepointOnlineSource {
    const connectorType: ProfileConnectorType
    const props: SourceProps

    constructor (props: SourceProps)
      ensures this.props == props
      ensures connectorType == MicrosoftSharepointOnline
    {
      this.props := props;
      connectorType := MicrosoftSharepointOnline;
    }

    /** The nested source properties: the entity name and nothing else. */
    function BuildSourceConnectorProperties(): (r: SourceConnectorProperties)
      ensures r.customConnector.entityName == props.objectName
    {
      SourceConnectorProperties(CustomConnectorSourceProperties(props.objectName))
    }

    /**
     * The record `bind` returns, a function of the props alone: it fails only
     * when the profile is `undefined`, and otherwise carries the tag, the
     * profile's name, the API version and the entity name.
     */
    function FlowConfig(): (r: Result<SourceFlowConfig, BindError>)
      ensures r.Failure? <==> props.profile.Absent?
      ensures r.Success? ==>
        && r.value.connectorType == MicrosoftSharepointOnline
        && r.value.apiVersion == props.apiVersion
        && r.value.sourceConnectorProperties.customConnector.entityName == props.objectName
      ensures props.profile.Concrete? ==> r.Success? && r.value.connectorProfileName == Some(props.profile.profile.name)
      ensures props.profile.ByString? ==> r.Success? && r.value.connectorProfileName == None
    {
      match ProfileName(props.profile)
      case Failure(e) => Failure(e)
      case Success(name) =>
        Success(SourceFlowConfig(connectorType, name, props.apiVersion, BuildSourceConnectorProperties()))
    }

    /** Adds the edge scope to resource when the guard holds, and changes nothing else. */
    method TryAddNodeDependency(scope: NodeId, resource: ProfileRef, graph: DependencyGraph)
      modifies graph
      ensures graph.edges == EdgesAfterBind(old(graph.edges), scope, resource)
    {
      if AddsDependency(resource) {
        graph.AddDependency(scope, resource.profile.node);
      }
    }

    /**
     * Binds this source to the flow `scope`: registers the dependency on the
     * profile, then builds the record; the record does not depend on the graph.
     */
    method Bind(scope: NodeId, graph: DependencyGraph) returns (r: Result<SourceFlowConfig, BindError>)
      modifies graph
      ensures graph.edges == EdgesAfterBind(old(graph.edges), scope, props.profile)
      ensures r == FlowConfig()
    {
      TryAddNodeDependency(scope, props.profile, graph);
      r := FlowConfig();
    }
  }

  /** Binding the same source twice gives equal records and registers the edge once. */
  method BindTwice(source: SharepointOnlineSource, scope: NodeId, graph: DependencyGraph)
    returns (first: Result<SourceFlowConfig, BindError>, second: Result<SourceFlowConfig, BindError>)
    modifies graph
    ensures first == second
    ensures graph.edges == EdgesAfterBind(old(graph.edges), scope, source.props.profile)
  {
    first := source.Bind(scope, graph);
    second := source.Bind(scope, graph);
    EdgesAfterBindIdempotent(old(graph.edges), scope, source.props.profile);
  }
}
